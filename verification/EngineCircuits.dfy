/** The breakers the daemon carries, seen from its runs: each is what its verb's
    calls since the last boot make of it, whoever made them. */
module EngineCircuits {
  import opened Tasks
  import opened Engine
  import B = Breaker
  import H = BreakerHistory

  /** A call on a verb's breaker, with the threshold the caller read for it. */
  datatype Call = Call(verb: string, trip: int, op: H.Op)

  /** The call a step makes, if it makes one. */
  function CallOf(cfg: Config, s: State, step: Step): Option<Call> {
    if !cfg.circuits || !step.Act? || step.pid !in s.actors then None
    else match s.actors[step.pid]
      case Peeking(req) => Some(Call(req.verb, req.trip, H.Snapshot(s.now)))
      case Gating(_, snap) =>
        if snap.verb in s.catalog then Some(Call(snap.verb, s.catalog[snap.verb].trip, H.Allow(s.now))) else None
      case InRun(x, ph) =>
        if ph.Recorded? && !CommitsFirst(x, ph.out)
        then Some(Call(x.verb, x.trip, if ph.out == RunOk then H.Success(s.now) else H.Failure(s.now)))
        else None
      case Praising(verb, trip) => Some(Call(verb, trip, H.Success(s.now)))
      case _ => None
  }

  /** The breakers after a call. */
  function Called(cfg: Config, s: State, call: Option<Call>): map<string, B.Cell>
    requires B.SaneCells(s.breakers)
  {
    match call
    case None => s.breakers
    case Some(c) =>
      var cell := CellFor(cfg, s, c.verb, c.trip);
      s.breakers[c.verb := cell.(st := H.Apply(cell.settings, cell.st, c.op))]
  }

  /** Calls, and the crash that loses them all, are the only ways breakers change. */
  lemma StepCalls(cfg: Config, s: State, step: Step)
    requires Enabled(cfg, s, step) && B.SaneCells(s.breakers)
    ensures Do(cfg, s, step).breakers == if step.Crash? then map[] else Called(cfg, s, CallOf(cfg, s, step))
    ensures s.now <= Do(cfg, s, step).now
  {
    hide DoAct, B.CellOf, H.Apply, DepthOf, Claimable;
    if step.Act? { ActCalls(cfg, s, step.pid, step.inp); }
  }

  /** Breakers and clock stay as they are. */
  predicate Quiet(s: State, s': State) { s'.breakers == s.breakers && s'.now == s.now }

  lemma FindIsQuiet(s: State, pid: Pid, req: Request)
    ensures Quiet(s, ActFind(s, pid, req))
  {
    hide FindAnswer;
    match FindAnswer(s, req)
    case None =>
    case Some(r) =>
  }

  lemma CreateIsQuiet(cfg: Config, s: State, pid: Pid, req: Request, id: Id)
    ensures Quiet(s, ActCreate(cfg, s, pid, req, id))
  {
    hide DepthOf, NewTask;
    if DepthOf(s.tasks) >= cfg.maxDepth { } else { }
  }

  lemma SaveIsQuiet(s: State, pid: Pid, req: Request, id: Id)
    ensures Quiet(s, ActSave(s, pid, req, id))
  {
    hide HashOf;
    if req.key == "" { } else if req.key in s.bindings { } else { }
  }

  lemma RefindIsQuiet(s: State, pid: Pid, req: Request, id: Id)
    ensures Quiet(s, ActRefind(s, pid, req, id))
  {
  }

  lemma ReplayIsQuiet(s: State, pid: Pid, req: Request, id: Id, win: Id)
    ensures Quiet(s, ActReplay(s, pid, req, id, win))
  {
  }

  lemma CancelIsQuiet(s: State, pid: Pid, req: Request, id: Id, win: Id)
    requires id in s.tasks
    ensures Quiet(s, ActCancel(s, pid, req, id, win))
  {
  }

  lemma AcceptIsQuiet(s: State, pid: Pid, req: Request, id: Id)
    requires id in s.tasks
    ensures Quiet(s, ActAccept(s, pid, req, id))
  {
  }

  lemma HandOffIsQuiet(cfg: Config, s: State, pid: Pid, req: Request, id: Id)
    requires id in s.tasks
    ensures Quiet(s, ActHandOff(cfg, s, pid, req, id))
  {
    if cfg.syncExec { } else { }
  }

  lemma ReadBackIsQuiet(s: State, pid: Pid, id: Id)
    requires id in s.tasks
    ensures Quiet(s, ActReadBack(s, pid, id))
  {
  }

  lemma RefuseIsQuiet(s: State, pid: Pid, id: Id, at: int)
    requires id in s.tasks
    ensures Quiet(s, ActRefuse(s, pid, id, at))
  {
  }

  lemma LaunchIsQuiet(cfg: Config, s: State, pid: Pid, id: Id, snap: Task, at: int)
    requires id in s.tasks
    ensures Quiet(s, ActLaunch(cfg, s, pid, id, snap, at))
  {
  }

  lemma NotifyIsQuiet(s: State, pid: Pid, id: Id)
    requires id in s.stories
    ensures Quiet(s, ActNotify(s, pid, id))
  {
  }

  lemma SelectIsQuiet(s: State, pid: Pid, at: int, tries: nat, found: Option<Id>)
    ensures Quiet(s, ActSelect(s, pid, at, tries, found))
  {
  }

  lemma ClaimIsQuiet(cfg: Config, s: State, pid: Pid, cand: Id, at: int, tries: nat)
    ensures Quiet(s, ActClaim(cfg, s, pid, cand, at, tries))
  {
    hide Claimable;
    if cand in s.tasks && Claimable(s.tasks[cand], cfg.due, at) { } else if tries + 1 < CLAIM_TRIES { }
  }

  lemma DrainIsQuiet(s: State, pid: Pid, batch: seq<nat>, logged: bool)
    ensures Quiet(s, ActDrain(s, pid, batch, logged))
  {
    if batch == [] { } else if logged { } else { }
  }

  /** The breakers of `s'` are those of `s` after the thread's call. */
  predicate Calls(cfg: Config, s: State, s': State, pid: Pid, inp: Input)
    requires B.SaneCells(s.breakers)
  {
    s'.breakers == Called(cfg, s, CallOf(cfg, s, Act(pid, inp))) && s'.now == s.now
  }

  lemma RunCalls(cfg: Config, s: State, pid: Pid, x: Exec, ph: Phase, inp: Input)
    requires HasTask(s, x.id) && B.SaneCells(s.breakers) && pid in s.actors && s.actors[pid] == InRun(x, ph)
    ensures Calls(cfg, s, DoRun(cfg, s, pid, x, ph, inp), pid, inp)
  {
    hide ActFail, ActFinish, ActSpawn, ActEnd, ActRecord, ActJudge, Calls;
    match ph
    case Recorded(end, out) =>
      if CommitsFirst(x, out) {
        FinishIsQuiet(s, pid, x);
        QuietCalls(cfg, s, ActFinish(s, pid, x), pid, inp);
      } else {
        JudgeCalls(cfg, s, pid, x, end, out, inp);
      }
    case _ =>
      RunIsQuiet(cfg, s, pid, x, ph, inp);
      QuietCalls(cfg, s, DoRun(cfg, s, pid, x, ph, inp), pid, inp);
  }

  /** A step without a call leaves the breakers as they are. */
  lemma QuietCalls(cfg: Config, s: State, s': State, pid: Pid, inp: Input)
    requires CallOf(cfg, s, Act(pid, inp)) == None && Quiet(s, s') && B.SaneCells(s.breakers)
    ensures Calls(cfg, s, s', pid, inp)
  {
    hide CallOf;
  }

  lemma JudgeCalls(cfg: Config, s: State, pid: Pid, x: Exec, end: int, out: Outcome, inp: Input)
    requires pid in s.actors && s.actors[pid] == InRun(x, Recorded(end, out)) && !CommitsFirst(x, out)
    requires B.SaneCells(s.breakers)
    ensures Calls(cfg, s, ActJudge(cfg, s, pid, x, end, out), pid, inp)
  {
    hide B.CellOf, B.AfterFailure, B.AfterSuccess;
    if out == RunOk { } else { }
  }

  lemma FinishIsQuiet(s: State, pid: Pid, x: Exec)
    requires x.id in s.tasks
    ensures Quiet(s, ActFinish(s, pid, x))
  {
  }

  lemma FailIsQuiet(cfg: Config, s: State, pid: Pid, x: Exec, out: Outcome, inp: Input)
    requires x.id in s.tasks
    ensures Quiet(s, ActFail(cfg, s, pid, x, out, inp))
  {
    hide DelayFor, GivenUp, RetryLater;
    if x.n >= x.limit { } else { }
  }

  lemma ChildIsQuiet(s: State, pid: Pid, x: Exec, start: int, end: int, out: Outcome)
    requires HasTask(s, x.id)
    ensures Quiet(s, ActSpawn(s, pid, x, start)) && Quiet(s, ActEnd(s, pid, x, start, out))
    ensures Quiet(s, ActRecord(s, pid, x, start, end, out))
  {
    hide Ended;
  }

  lemma RunIsQuiet(cfg: Config, s: State, pid: Pid, x: Exec, ph: Phase, inp: Input)
    requires HasTask(s, x.id) && !ph.Recorded?
    ensures Quiet(s, DoRun(cfg, s, pid, x, ph, inp))
  {
    hide ActFail, ActFinish, ActSpawn, ActEnd, ActRecord, Quiet;
    match ph
    case Spawning(start) => ChildIsQuiet(s, pid, x, start, 0, RunOk);
    case Running(start) => ChildIsQuiet(s, pid, x, start, 0, inp.out);
    case Ran(start, end, out) => ChildIsQuiet(s, pid, x, start, end, out);
    case Judged(_, out) => if out == RunOk { FinishIsQuiet(s, pid, x); } else { FailIsQuiet(cfg, s, pid, x, out, inp); }
  }

  lemma PeekCalls(cfg: Config, s: State, pid: Pid, req: Request, inp: Input)
    requires pid in s.actors && s.actors[pid] == Peeking(req) && B.SaneCells(s.breakers)
    ensures Calls(cfg, s, ActPeek(cfg, s, pid, req), pid, inp)
  {
    hide B.CellOf, B.Settle, Called, Quiet;
    if cfg.circuits {
      var cell := CellFor(cfg, s, req.verb, req.trip);
      var st := B.Settle(cell.settings, cell.st, s.now);
      var s1 := SetBreaker(cfg, s, req.verb, req.trip, st);
      PeekedIsCalled(cfg, s, req);
      hide SetBreaker;
      if st.mode == B.Open { } else { }
    } else {
      NoCall(cfg, s);
    }
  }

  lemma NoCall(cfg: Config, s: State)
    requires B.SaneCells(s.breakers)
    ensures Called(cfg, s, None) == s.breakers
  {
  }

  lemma PeekedIsCalled(cfg: Config, s: State, req: Request)
    requires B.SaneCells(s.breakers)
    ensures var cell := CellFor(cfg, s, req.verb, req.trip);
      Called(cfg, s, Some(Call(req.verb, req.trip, H.Snapshot(s.now))))
      == SetBreaker(cfg, s, req.verb, req.trip, B.Settle(cell.settings, cell.st, s.now)).breakers
  {
    hide B.CellOf, B.Settle;
  }

  lemma GateCalls(cfg: Config, s: State, pid: Pid, id: Id, snap: Task, inp: Input)
    requires pid in s.actors && s.actors[pid] == Gating(id, snap) && HasTask(s, id) && B.SaneCells(s.breakers)
    ensures Calls(cfg, s, ActGate(cfg, s, pid, id, snap), pid, inp)
  {
    hide B.CellOf, B.AllowResult, B.AfterAllow;
  }

  lemma PraiseCalls(cfg: Config, s: State, pid: Pid, verb: string, trip: int, inp: Input)
    requires pid in s.actors && s.actors[pid] == Praising(verb, trip) && B.SaneCells(s.breakers)
    ensures Calls(cfg, s, Done(Praise(cfg, s, verb, trip), pid), pid, inp)
  {
    hide B.CellOf, B.AfterSuccess;
  }

  lemma ActCalls(cfg: Config, s: State, pid: Pid, inp: Input)
    requires pid in s.actors && ActEnabled(cfg, s, s.actors[pid], inp) && B.SaneCells(s.breakers)
    ensures Calls(cfg, s, DoAct(cfg, s, pid, s.actors[pid], inp), pid, inp)
  {
    hide ActPeek, ActGate, DoRun, Praise, Calls, HasTask;
    match s.actors[pid]
    case InRun(x, ph) => RunCalls(cfg, s, pid, x, ph, inp);
    case Peeking(req) => PeekCalls(cfg, s, pid, req, inp);
    case Gating(id, snap) => GateCalls(cfg, s, pid, id, snap, inp);
    case Praising(verb, trip) => PraiseCalls(cfg, s, pid, verb, trip, inp);
    case _ =>
      ActIsQuiet(cfg, s, pid, inp);
      hide DoAct;
      QuietCalls(cfg, s, DoAct(cfg, s, pid, s.actors[pid], inp), pid, inp);
  }

  /** The thread's next step calls no breaker. */
  predicate CallsNone(a: Actor) { !a.InRun? && !a.Peeking? && !a.Gating? && !a.Praising? }

  lemma ActIsQuiet(cfg: Config, s: State, pid: Pid, inp: Input)
    requires pid in s.actors && ActEnabled(cfg, s, s.actors[pid], inp) && CallsNone(s.actors[pid])
    ensures Quiet(s, DoAct(cfg, s, pid, s.actors[pid], inp))
  {
    hide ActFind, ActCreate, ActSave, ActRefind, ActCancel, ActReplay, ActAccept, ActHandOff, ActSelect, ActClaim,
         ActReadBack, ActRefuse, ActLaunch, ActNotify, ActDrain, Quiet;
    match s.actors[pid]
    case Finding(req) => FindIsQuiet(s, pid, req);
    case Creating(req) => CreateIsQuiet(cfg, s, pid, req, inp.newId);
    case Saving(req, id) => SaveIsQuiet(s, pid, req, id);
    case Refinding(req, id) => RefindIsQuiet(s, pid, req, id);
    case Replaying(req, id, win) => ReplayIsQuiet(s, pid, req, id, win);
    case Canceling(req, id, win) => CancelIsQuiet(s, pid, req, id, win);
    case Accepting(req, id) => AcceptIsQuiet(s, pid, req, id);
    case HandingOff(req, id) => HandOffIsQuiet(cfg, s, pid, req, id);
    case ReadingBack(id) => ReadBackIsQuiet(s, pid, id);
    case Refused(id, _) => RefuseIsQuiet(s, pid, id, inp.at);
    case Launching(id, snap, _) => LaunchIsQuiet(cfg, s, pid, id, snap, inp.at);
    case Notifying(id) => NotifyIsQuiet(s, pid, id);
    case Selecting(at, tries) => SelectIsQuiet(s, pid, at, tries, inp.found);
    case Claiming(cand, at, tries) => ClaimIsQuiet(cfg, s, pid, cand, at, tries);
    case Draining(batch, logged) => DrainIsQuiet(s, pid, batch, logged);
  }

  /** The calls on the verb's breaker since the last crash, in order. */
  ghost function CallsSinceBoot(cfg: Config, init: State, steps: seq<Step>, verb: string): seq<H.Op>
    requires Valid(cfg, init, steps)
    decreases |steps|
  {
    if steps == [] then []
    else
      var before, step := steps[..|steps| - 1], steps[|steps| - 1];
      var call := CallOf(cfg, After(cfg, init, before), step);
      if step.Crash? then []
      else CallsSinceBoot(cfg, init, before, verb) +
           (if call.Some? && call.value.verb == verb then [call.value.op] else [])
  }

  /** Breaker and history of the verb belong together. */
  ghost predicate Matches(breakers: map<string, B.Cell>, verb: string, calls: seq<H.Op>, now: int)
    requires B.SaneCells(breakers)
  {
    && (if verb in breakers then breakers[verb].st == H.Run(breakers[verb].settings, calls) else calls == [])
    && H.Ordered(calls) && H.UpTo(calls, now)
  }

  /** Over every run: each breaker is what the calls on it since the last boot, by
      any handlers and workers, make of a fresh one, at times that never go
      back. */
  lemma {:induction false} BreakersFollowHistory(cfg: Config, init: State, steps: seq<Step>, verb: string)
    requires Init(cfg, init) && Valid(cfg, init, steps)
    ensures var s := After(cfg, init, steps);
      B.SaneCells(s.breakers) && Matches(s.breakers, verb, CallsSinceBoot(cfg, init, steps, verb), s.now)
  {
    hide Do, Enabled, CallOf, H.Run, Matches;
    if steps == [] {
      NoBreakers(init, verb);
    } else {
      var before, step := steps[..|steps| - 1], steps[|steps| - 1];
      BreakersFollowHistory(cfg, init, before, verb);
      HistoryStep(cfg, After(cfg, init, before), step, verb, CallsSinceBoot(cfg, init, before, verb));
    }
  }

  lemma NoBreakers(s: State, verb: string)
    requires s.breakers == map[]
    ensures B.SaneCells(s.breakers) && Matches(s.breakers, verb, [], s.now)
  {
  }

  lemma HistoryStep(cfg: Config, s: State, step: Step, verb: string, calls: seq<H.Op>)
    requires Enabled(cfg, s, step) && B.SaneCells(s.breakers) && Matches(s.breakers, verb, calls, s.now)
    ensures var s', call := Do(cfg, s, step), CallOf(cfg, s, step);
      && B.SaneCells(s'.breakers)
      && Matches(s'.breakers, verb,
                 if step.Crash? then []
                 else calls + (if call.Some? && call.value.verb == verb then [call.value.op] else []), s'.now)
  {
    hide CallOf, Matches;
    StepCalls(cfg, s, step);
    var s' := Do(cfg, s, step);
    hide Do, Enabled;
    if step.Crash? {
      NoBreakers(s', verb);
    } else {
      CallTimes(cfg, s, step);
      CalledMatches(cfg, s, CallOf(cfg, s, step), verb, calls, s'.now);
    }
  }

  lemma CallTimes(cfg: Config, s: State, step: Step)
    ensures CallOf(cfg, s, step).Some? ==> CallOf(cfg, s, step).value.op.at == s.now
  {
  }

  lemma CalledMatches(cfg: Config, s: State, call: Option<Call>, verb: string, calls: seq<H.Op>, now: int)
    requires B.SaneCells(s.breakers) && Matches(s.breakers, verb, calls, s.now) && s.now <= now
    requires call.Some? ==> call.value.op.at == s.now
    ensures B.SaneCells(Called(cfg, s, call))
    ensures Matches(Called(cfg, s, call), verb,
                    calls + (if call.Some? && call.value.verb == verb then [call.value.op] else []), now)
  {
    hide H.Apply;
    if call.Some? && call.value.verb == verb {
      var op, cell := call.value.op, CellFor(cfg, s, verb, call.value.trip);
      assert (calls + [op])[..|calls|] == calls;
      assert H.Run(cell.settings, calls) == cell.st;
      assert H.Run(cell.settings, calls + [op]) == H.Apply(cell.settings, cell.st, op);
    } else {
      assert calls + [] == calls;
    }
  }

  // ---- what the gate of a worker does

  /** A worker at the gate of a task whose verb is in the catalog. */
  predicate AtGate(cfg: Config, s: State, pid: Pid, id: Id, snap: Task) {
    cfg.circuits && pid in s.actors && s.actors[pid] == Gating(id, snap) && snap.verb in s.catalog && HasTask(s, id)
  }

  /** The settings of the breaker a task of this verb is gated by. */
  function GateSettings(cfg: Config, s: State, verb: string): B.Settings
    requires verb in s.catalog
  {
    CellFor(cfg, s, verb, s.catalog[verb].trip).settings
  }

  /** Call i tripped the breaker, or kept it tripped, no success came after, and
      the open period since is not over. */
  ghost predicate TrippedBy(c: B.Settings, calls: seq<H.Op>, i: nat, now: int) {
    && i < |calls| && calls[i].Failure? && H.Tripped(c, calls[..i + 1])
    && (forall j :: i < j < |calls| ==> !calls[j].Success?)
    && now - calls[i].at < c.openFor
  }

  /** Over every run: a worker at the gate goes on to run its task exactly when
      the calls on the verb's breaker since the last boot allow it; otherwise it
      puts the task back. */
  lemma GateFollowsHistory(cfg: Config, init: State, steps: seq<Step>, pid: Pid, id: Id, snap: Task, inp: Input)
    requires Init(cfg, init) && Valid(cfg, init, steps) && AtGate(cfg, After(cfg, init, steps), pid, id, snap)
    ensures var s := After(cfg, init, steps);
      var c := GateSettings(cfg, s, snap.verb);
      && c.Sane()
      && DoAct(cfg, s, pid, s.actors[pid], inp).actors[pid]
         == if H.MayStart(c, CallsSinceBoot(cfg, init, steps, snap.verb), s.now) then Launching(id, snap, s.now)
            else Refused(id, snap)
  {
    hide Init, Valid, After, CallsSinceBoot, H.MayStart, B.AllowResult, B.AfterAllow;
    var s, calls := After(cfg, init, steps), CallsSinceBoot(cfg, init, steps, snap.verb);
    BreakersFollowHistory(cfg, init, steps, snap.verb);
    var cell := CellFor(cfg, s, snap.verb, s.catalog[snap.verb].trip);
    assert cell.st == H.Run(cell.settings, calls);
    H.HistoryDecides(cell.settings, calls, s.now);
  }

  /** No worker launches a task within the open period of the latest trip of its
      verb's breaker, unless a success came after it. */
  lemma NoLaunchWhileOpen(cfg: Config, init: State, steps: seq<Step>, pid: Pid, id: Id, snap: Task, inp: Input,
                          trip: nat)
    requires Init(cfg, init) && Valid(cfg, init, steps) && AtGate(cfg, After(cfg, init, steps), pid, id, snap)
    requires var s := After(cfg, init, steps);
      TrippedBy(GateSettings(cfg, s, snap.verb), CallsSinceBoot(cfg, init, steps, snap.verb), trip, s.now)
    ensures var s := After(cfg, init, steps);
      DoAct(cfg, s, pid, s.actors[pid], inp).actors[pid] == Refused(id, snap)
  {
    hide Init, Valid, After, CallsSinceBoot, H.MayStart, DoAct;
    var s, calls := After(cfg, init, steps), CallsSinceBoot(cfg, init, steps, snap.verb);
    var c := GateSettings(cfg, s, snap.verb);
    BreakersFollowHistory(cfg, init, steps, snap.verb);
    GateFollowsHistory(cfg, init, steps, pid, id, snap, inp);
    H.HistoryDecides(c, calls, s.now);
    H.NoGrantWhileOpen(c, calls, trip, s.now);
  }
}
