/** Runs that show where the daemon does less than one may expect of it. */
module EngineExamples {
  import opened Tasks
  import opened Engine
  import opened EngineInv
  import opened EngineTheorems
  import opened EngineRuns
  import F = EngineFoot

  lemma Extend(cfg: Config, init: State, steps: seq<Step>, step: Step)
    requires Valid(cfg, init, steps) && Enabled(cfg, After(cfg, init, steps), step)
    ensures Valid(cfg, init, steps + [step])
    ensures After(cfg, init, steps + [step]) == Do(cfg, After(cfg, init, steps), step)
  {
    assert (steps + [step])[..|steps|] == steps;
  }

  lemma Reached(cfg: Config, s: State, step: Step)
    requires Reachable(cfg, s) && Enabled(cfg, s, step)
    ensures Reachable(cfg, Do(cfg, s, step))
  {
    hide Init, Do, Enabled;
    var init: State, steps: seq<Step> :| Init(cfg, init) && Valid(cfg, init, steps) && After(cfg, init, steps) == s;
    Extend(cfg, init, steps, step);
  }

  const NOTHING := Input("", None, 0, RunOk, "", 0)

  /** A daemon without breakers whose catalog has the one verb "v". */
  function Small(maxRetries: nat): Config { Config(maxRetries, 10, 0, 5, 60, false, false, ByTime, 0) }

  function Boot(entry: VerbEntry): State {
    State(map[], map[], map[], [], {}, [], map[], map[], map["v" := entry], true, 0, map[], [])
  }

  lemma BootReachable(cfg: Config, entry: VerbEntry)
    requires cfg.maxDepth == 10
    ensures Reachable(cfg, Boot(entry).(booting := false))
  {
    var s := Boot(entry);
    assert ActiveIds(s.tasks) == {};
    assert Init(cfg, s) && Valid(cfg, s, []) && After(cfg, s, []) == s;
    Reached(cfg, s, BootDone);
  }

  function Posted(stdin: string): Request { Request("v", "{}", stdin, "k", 0, 0) }

  /** Both handlers have looked the key up, found nothing and made a task. */
  function BothCreated(s: State): State {
    var a, b := Posted("x"), Posted("y");
    s.(tasks := map["a" := NewTask("v", 0, 0), "b" := NewTask("v", 0, 0)],
       attempts := map["a" := map[], "b" := map[]],
       stories := map["a" := Story(Some(a), [], 0, 0), "b" := Story(Some(b), [], 0, 0)],
       outbox := [Row("a", Lifecycle(Accepted), 0), Row("b", Lifecycle(Accepted), 0)],
       actors := map[0 := Saving(a, "a"), 1 := Saving(b, "b")])
  }

  lemma TwoPosts(s0: State) returns (s: State)
    requires Reachable(Small(0), s0) && s0 == Boot(VerbEntry(None, 0)).(booting := false)
    ensures Reachable(Small(0), s) && s == s0.(actors := map[0 := Creating(Posted("x")), 1 := Creating(Posted("y"))])
  {
    hide Reachable;
    var cfg := Small(0);
    s := s0;
    Reached(cfg, s, Post(0, "v", "{}", "x", "k")); s := Do(cfg, s, Post(0, "v", "{}", "x", "k"));
    assert s == s0.(actors := map[0 := Finding(Posted("x"))]);
    Reached(cfg, s, Act(0, NOTHING)); s := Do(cfg, s, Act(0, NOTHING));
    assert s == s0.(actors := map[0 := Peeking(Posted("x"))]);
    Reached(cfg, s, Act(0, NOTHING)); s := Do(cfg, s, Act(0, NOTHING));
    assert s == s0.(actors := map[0 := Creating(Posted("x"))]);
    Reached(cfg, s, Post(1, "v", "{}", "y", "k")); s := Do(cfg, s, Post(1, "v", "{}", "y", "k"));
    assert s == s0.(actors := map[0 := Creating(Posted("x")), 1 := Finding(Posted("y"))]);
    Reached(cfg, s, Act(1, NOTHING)); s := Do(cfg, s, Act(1, NOTHING));
    assert s == s0.(actors := map[0 := Creating(Posted("x")), 1 := Peeking(Posted("y"))]);
    Reached(cfg, s, Act(1, NOTHING)); s := Do(cfg, s, Act(1, NOTHING));
    assert s == s0.(actors := map[0 := Creating(Posted("x")), 1 := Creating(Posted("y"))]);
  }

  lemma TwoTasks(s1: State, s0: State) returns (s: State)
    requires Reachable(Small(0), s1) && s0 == Boot(VerbEntry(None, 0)).(booting := false)
    requires s1 == s0.(actors := map[0 := Creating(Posted("x")), 1 := Creating(Posted("y"))])
    ensures Reachable(Small(0), s) && s == BothCreated(s0)
  {
    hide Reachable;
    s := FirstTask(s1, s0);
    s := SecondTask(s, s0);
  }

  /** The first handler has made its task. */
  function FirstCreated(s: State): State {
    s.(tasks := map["a" := NewTask("v", 0, 0)], attempts := map["a" := map[]],
       stories := map["a" := Story(Some(Posted("x")), [], 0, 0)], outbox := [Row("a", Lifecycle(Accepted), 0)],
       actors := map[0 := Saving(Posted("x"), "a"), 1 := Creating(Posted("y"))])
  }

  lemma FirstTask(s1: State, s0: State) returns (s: State)
    requires Reachable(Small(0), s1) && s0 == Boot(VerbEntry(None, 0)).(booting := false)
    requires s1 == s0.(actors := map[0 := Creating(Posted("x")), 1 := Creating(Posted("y"))])
    ensures Reachable(Small(0), s) && s == FirstCreated(s0)
  {
    hide Reachable;
    s := s1;
    assert ActiveIds(s.tasks) == {};
    var a := Act(0, NOTHING.(newId := "a"));
    Reached(Small(0), s, a); s := Do(Small(0), s, a);
    assert s.tasks == FirstCreated(s0).tasks && s.actors == FirstCreated(s0).actors;
  }

  lemma SecondTask(s1: State, s0: State) returns (s: State)
    requires Reachable(Small(0), s1) && s0 == Boot(VerbEntry(None, 0)).(booting := false)
    requires s1 == FirstCreated(s0)
    ensures Reachable(Small(0), s) && s == BothCreated(s0)
  {
    hide Reachable;
    var cfg := Small(0);
    s := s1;
    assert ActiveIds(s.tasks) == {"a"};
    var b := Act(1, NOTHING.(newId := "b"));
    Reached(cfg, s, b); s := Do(cfg, s, b);
    assert s.tasks == BothCreated(s0).tasks && s.attempts == BothCreated(s0).attempts;
    assert s.stories == BothCreated(s0).stories && s.outbox == BothCreated(s0).outbox;
    assert s.actors == BothCreated(s0).actors;
  }

  /** The winner has bound the key; the loser holds task "b" and is to do `a`. */
  predicate Behind(s: State, a: Actor) {
    && 1 in s.actors && s.actors[1] == a && HasTask(s, "a") && HasTask(s, "b") && s.replies == []
    && "k" in s.bindings && s.bindings["k"].taskId == "a" && s.stories["a"].req == Some(Posted("x"))
  }

  lemma WinnerBinds() returns (s: State)
    ensures Reachable(Small(0), s) && Behind(s, Saving(Posted("y"), "b"))
  {
    hide Reachable;
    var s0 := Boot(VerbEntry(None, 0)).(booting := false);
    BootReachable(Small(0), VerbEntry(None, 0));
    var s1 := TwoPosts(s0);
    s := TwoTasks(s1, s0);
    Reached(Small(0), s, Act(0, NOTHING)); s := Do(Small(0), s, Act(0, NOTHING));
  }

  lemma LoserLooksAgain() returns (s: State)
    ensures Reachable(Small(0), s) && Behind(s, Refinding(Posted("y"), "b"))
  {
    hide Reachable;
    s := WinnerBinds();
    Reached(Small(0), s, Act(1, NOTHING)); s := Do(Small(0), s, Act(1, NOTHING));
  }

  lemma LoserSeesWinner() returns (s: State)
    ensures Reachable(Small(0), s) && Behind(s, Canceling(Posted("y"), "b", "a"))
  {
    hide Reachable;
    s := LoserLooksAgain();
    Reached(Small(0), s, Act(1, NOTHING)); s := Do(Small(0), s, Act(1, NOTHING));
  }

  lemma LoserCancels() returns (s: State)
    ensures Reachable(Small(0), s) && Behind(s, Replaying(Posted("y"), "b", "a"))
  {
    hide Reachable;
    s := LoserSeesWinner();
    Reached(Small(0), s, Act(1, NOTHING)); s := Do(Small(0), s, Act(1, NOTHING));
  }

  /** The loser of a race for a key is answered with the winner's task although
      its own request is another one: the digest is compared only on the first
      look-up. */
  lemma LostRaceReplaysAnotherRequest() returns (s: State)
    ensures Reachable(Small(0), s)
    ensures s.replies == [Replay(Posted("y"), "a", false)]
    ensures "a" in s.stories && s.stories["a"].req == Some(Posted("x")) && !SameRequest(Posted("x"), Posted("y"))
  {
    hide Reachable;
    s := LoserCancels();
    Reached(Small(0), s, Act(1, NOTHING)); s := Do(Small(0), s, Act(1, NOTHING));
  }

  // ---- no retries, on the worker path

  const OnceOnly := Request("v", "{}", "", "", 0, 0)

  /** The task of a verb with `retries: 0`, in the state given. */
  function Single(st: Status): Task { NewTask("v", 0, 0).(state := st) }

  /** Thread 0 does `a`, and the one task of the store is in state st. */
  predicate Stage(s: State, a: Actor, st: Status) {
    && !s.booting && s.now == 0 && s.catalog == map["v" := VerbEntry(Some(0), 0)]
    && HasTask(s, "t") && s.tasks == map["t" := Single(st)]
    && s.actors == map[0 := a]
  }

  lemma OnceAdmitted() returns (s: State)
    ensures Reachable(Small(1), s) && Stage(s, Accepting(OnceOnly, "t"), Accepted)
  {
    hide Reachable;
    var cfg := Small(1);
    BootReachable(cfg, VerbEntry(Some(0), 0));
    s := Boot(VerbEntry(Some(0), 0)).(booting := false);
    var post := Post(0, "v", "{}", "", "");
    Reached(cfg, s, post); s := Do(cfg, s, post);
    Reached(cfg, s, Act(0, NOTHING)); s := Do(cfg, s, Act(0, NOTHING));
    assert s.actors == map[0 := Peeking(OnceOnly)];
    Reached(cfg, s, Act(0, NOTHING)); s := Do(cfg, s, Act(0, NOTHING));
    assert s.actors == map[0 := Creating(OnceOnly)];
    s := OnceCreated(s);
  }

  lemma OnceCreated(s0: State) returns (s: State)
    requires Reachable(Small(1), s0)
    requires s0 == Boot(VerbEntry(Some(0), 0)).(booting := false, actors := map[0 := Creating(OnceOnly)])
    ensures Reachable(Small(1), s) && Stage(s, Accepting(OnceOnly, "t"), Accepted)
  {
    hide Reachable;
    var cfg := Small(1);
    var make := Act(0, NOTHING.(newId := "t"));
    s := s0;
    assert ActiveIds(s.tasks) == {};
    Reached(cfg, s, make); s := Do(cfg, s, make);
    assert Stage(s, Saving(OnceOnly, "t"), Accepted);
    Reached(cfg, s, Act(0, NOTHING)); s := Do(cfg, s, Act(0, NOTHING));
  }

  lemma OnceAccepted() returns (s: State)
    ensures Reachable(Small(1), s) && Stage(s, HandingOff(OnceOnly, "t"), Accepted)
  {
    hide Reachable;
    s := OnceAdmitted();
    Reached(Small(1), s, Act(0, NOTHING)); s := Do(Small(1), s, Act(0, NOTHING));
  }

  lemma OnceQueued() returns (s: State)
    ensures Reachable(Small(1), s) && Stage(s, Selecting(0, 0), Pending)
  {
    hide Reachable;
    var cfg := Small(1);
    s := OnceAccepted();
    Reached(cfg, s, Act(0, NOTHING)); s := Do(cfg, s, Act(0, NOTHING));
    assert s.actors == map[] && s.tasks == map["t" := Single(Pending)];
    Reached(cfg, s, Poll(0)); s := Do(cfg, s, Poll(0));
  }

  lemma OnceSelected() returns (s: State)
    ensures Reachable(Small(1), s) && Stage(s, Claiming("t", 0, 0), Pending)
  {
    hide Reachable;
    s := OnceQueued();
    var found := Act(0, NOTHING.(found := Some("t")));
    Reached(Small(1), s, found); s := Do(Small(1), s, found);
  }

  lemma OnceClaimed() returns (s: State)
    ensures Reachable(Small(1), s) && Stage(s, ReadingBack("t"), Executing)
  {
    hide Reachable;
    s := OnceSelected();
    Reached(Small(1), s, Act(0, NOTHING)); s := Do(Small(1), s, Act(0, NOTHING));
  }

  lemma OnceReadBack() returns (s: State)
    ensures Reachable(Small(1), s) && Stage(s, Gating("t", Single(Executing)), Executing)
  {
    hide Reachable;
    s := OnceClaimed();
    Reached(Small(1), s, Act(0, NOTHING)); s := Do(Small(1), s, Act(0, NOTHING));
  }

  /** The worker compares with the daemon's limit. */
  const ByWorker := Exec("t", "v", 0, 0, 1, false)

  lemma OnceGated() returns (s: State)
    ensures Reachable(Small(1), s) && Stage(s, Launching("t", Single(Executing), 0), Executing)
  {
    hide Reachable;
    s := OnceReadBack();
    Reached(Small(1), s, Act(0, NOTHING)); s := Do(Small(1), s, Act(0, NOTHING));
  }

  lemma OnceMarked() returns (s: State)
    ensures Reachable(Small(1), s) && Stage(s, InRun(ByWorker, Spawning(0)), Executing)
  {
    hide Reachable;
    s := OnceGated();
    Reached(Small(1), s, Act(0, NOTHING)); s := Do(Small(1), s, Act(0, NOTHING));
  }

  lemma OnceLaunched() returns (s: State)
    ensures Reachable(Small(1), s) && Stage(s, InRun(ByWorker, Running(0)), Executing)
  {
    hide Reachable;
    s := OnceMarked();
    Reached(Small(1), s, Act(0, NOTHING)); s := Do(Small(1), s, Act(0, NOTHING));
  }

  lemma OnceEnded() returns (s: State)
    ensures Reachable(Small(1), s) && Stage(s, InRun(ByWorker, Ran(0, 0, RunFailed)), Executing)
  {
    hide Reachable;
    s := OnceLaunched();
    var fails := Act(0, NOTHING.(out := RunFailed));
    Reached(Small(1), s, fails); s := Do(Small(1), s, fails);
  }

  lemma OnceRecorded() returns (s: State)
    ensures Reachable(Small(1), s) && Stage(s, InRun(ByWorker, Recorded(0, RunFailed)), Executing)
  {
    hide Reachable;
    s := OnceEnded();
    Reached(Small(1), s, Act(0, NOTHING)); s := Do(Small(1), s, Act(0, NOTHING));
  }

  lemma OnceFailed() returns (s: State)
    ensures Reachable(Small(1), s) && Stage(s, InRun(ByWorker, Judged(0, RunFailed)), Executing)
  {
    hide Reachable;
    s := OnceRecorded();
    Reached(Small(1), s, Act(0, NOTHING)); s := Do(Small(1), s, Act(0, NOTHING));
  }

  /** A task of a verb with `retries: 0` that a worker ran once, and that failed,
      is put down for another attempt. */
  lemma NoRetriesIsRetried() returns (s: State)
    ensures Reachable(Small(1), s)
    ensures "t" in s.tasks && s.tasks["t"].maxRetries == 0
    ensures s.tasks["t"].state == RetryScheduled && s.tasks["t"].attempt == 1
  {
    hide Reachable, DelayFor;
    var cfg := Small(1);
    s := OnceFailed();
    Reached(cfg, s, Act(0, NOTHING)); s := Do(cfg, s, Act(0, NOTHING));
  }

  /** What "no retries" (a stored limit of 0) means depends on the path: after
      the first failed run the inline path gives up, and the worker path gives
      up exactly when the daemon's own limit is 0. */
  lemma NoRetriesPerPath(cfg: Config, s: State, pid: Pid, x: Exec, ph: Phase, out: Outcome, inp: Input)
    requires WellTimed(cfg) && Reachable(cfg, s) && pid in s.actors && s.actors[pid] == InRun(x, ph)
    requires ph.Judged? && x.id in s.tasks && s.tasks[x.id].maxRetries == 0 && s.tasks[x.id].attempt == 0
    ensures F.AfterFail(cfg, s, x, out, inp).state
         == if x.inline || cfg.maxRetries == 0 then Exhausted else RetryScheduled
  {
    hide Reachable, Inv, TaskOk, LatestLabel, DelayFor;
    ThreadInOrder(cfg, s, pid);
  }

  lemma ThreadInOrder(cfg: Config, s: State, pid: Pid)
    requires WellTimed(cfg) && Reachable(cfg, s) && pid in s.actors
    ensures ActorOk(cfg, s, s.actors[pid])
  {
    hide Reachable, TaskOk, LatestLabel, ActorOk;
    ReachableOk(cfg, s);
  }
}
