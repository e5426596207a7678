/** What holds of every run of the daemon: any number of handlers, workers and
    drainers, any interleaving, crashes anywhere. */
module EngineTheorems {
  import opened Tasks
  import opened Requests
  import opened Engine
  import opened EngineInv
  import opened EngineFoot
  import opened EngineUpdates
  import opened EngineSteps
  import opened EngineRuns

  lemma Known(cfg: Config, s: State, id: Id)
    requires WellTimed(cfg) && Reachable(cfg, s) && id in s.tasks
    ensures HasTask(s, id) && TaskOkAt(cfg, s, id) && Inv(cfg, s)
  {
    hide TaskOk, ActorOk, Reachable, LatestLabel, DepthOf;
    ReachableOk(cfg, s);
  }

  // ---- exclusive execution

  /** Every executing task has exactly one thread working on it. */
  lemma ExclusiveExecution(cfg: Config, s: State, id: Id) returns (owner: Pid)
    requires WellTimed(cfg) && Reachable(cfg, s) && !s.booting
    requires id in s.tasks && s.tasks[id].state == Executing
    ensures owner in s.actors && Touch(s.actors[owner]) == Some(id)
    ensures forall p :: p in s.actors && Touch(s.actors[p]) == Some(id) ==> p == owner
  {
    hide TaskOk, ActorOk, Reachable, LatestLabel, DepthOf, RowsOk, LogOk, BindingsOk, StartedBound, RepliesOk;
    ReachableOk(cfg, s);
    owner :| owner in s.actors && Touch(s.actors[owner]) == Some(id);
  }

  /** The step is taken by the thread that works on the task. */
  predicate ByOwner(s: State, step: Step, id: Id) {
    step.Act? && step.pid in s.actors && Touch(s.actors[step.pid]) == Some(id)
  }

  /** Only its owner, a crash or the resume after one changes an executing task,
      its attempts or its runs. */
  lemma OnlyOwnerChanges(cfg: Config, s: State, step: Step, id: Id)
    requires WellTimed(cfg) && Reachable(cfg, s) && Enabled(cfg, s, step)
    requires id in s.tasks && s.tasks[id].state == Executing
    requires !step.Crash? && step != ResumeExecuting(id) && !ByOwner(s, step, id)
    ensures var s' := Do(cfg, s, step);
      && HasTask(s, id) && HasTask(s', id)
      && s'.tasks[id] == s.tasks[id] && s'.attempts[id] == s.attempts[id] && s'.stories[id] == s.stories[id]
  {
    hide Inv, Reachable, TaskOk, LatestLabel, DoAct;
    Known(cfg, s, id);
    if step.Act? { ActFoot(cfg, s, step.pid, step.inp); }
  }

  /** The two-phase claim is an atomic claim that may fail: the conditional
      UPDATE either leaves the task table alone, and the thread looks again up to
      five times in all, or takes one task that is ready at that very moment from no
      owner to this thread, changing its state and update time alone. */
  lemma ClaimIsAtomic(cfg: Config, s: State, pid: Pid, cand: Id, at: int, tries: nat)
    requires WellTimed(cfg) && Reachable(cfg, s) && pid in s.actors && s.actors[pid] == Claiming(cand, at, tries)
    ensures var s' := ActClaim(cfg, s, pid, cand, at, tries);
      if cand in s.tasks && Claimable(s.tasks[cand], cfg.due, at) then
        && (s.tasks[cand].state == Pending || s.tasks[cand].state == RetryScheduled)
        && s'.tasks == s.tasks[cand := s.tasks[cand].(state := Executing, updatedAt := s.now)]
        && Touch(s'.actors[pid]) == Some(cand)
        && (forall q :: q in s.actors ==> Touch(s.actors[q]) != Some(cand))
      else
        && s'.tasks == s.tasks
        && s'.actors == if tries < 4 then s.actors[pid := Selecting(at, tries + 1)] else s.actors - {pid}
  {
    hide Inv, Reachable, ActClaim;
    ReachableOk(cfg, s);
    ClaimTakesOrLeaves(cfg, s, pid, cand, at, tries);
    if cand in s.tasks && Claimable(s.tasks[cand], cfg.due, at) {
      NobodyOnClaimable(cfg, s, cand, at);
      NobodyTouches(s, pid, cand);
    }
  }

  lemma ClaimTakesOrLeaves(cfg: Config, s: State, pid: Pid, cand: Id, at: int, tries: nat)
    ensures var s' := ActClaim(cfg, s, pid, cand, at, tries);
      if ClaimHits(cfg, s, cand, at) then
        && s'.tasks == s.tasks[cand := s.tasks[cand].(state := Executing, updatedAt := s.now)]
        && pid in s'.actors && Touch(s'.actors[pid]) == Some(cand)
      else
        && s'.tasks == s.tasks
        && s'.actors == if tries < 4 then s.actors[pid := Selecting(at, tries + 1)] else s.actors - {pid}
  {
    hide Claimable;
    if ClaimHits(cfg, s, cand, at) { } else { ClaimLeaves(cfg, s, pid, cand, at, tries); }
  }

  lemma ClaimLeaves(cfg: Config, s: State, pid: Pid, cand: Id, at: int, tries: nat)
    requires !ClaimHits(cfg, s, cand, at)
    ensures var s' := ActClaim(cfg, s, pid, cand, at, tries);
      && s'.tasks == s.tasks
      && s'.actors == if tries < 4 then s.actors[pid := Selecting(at, tries + 1)] else s.actors - {pid}
  {
    hide Claimable;
    if tries + 1 < CLAIM_TRIES { } else { }
  }

  lemma NobodyTouches(s: State, pid: Pid, id: Id)
    requires pid in s.actors && Touch(s.actors[pid]) == None && Alone(s, pid, id)
    ensures forall q :: q in s.actors ==> Touch(s.actors[q]) != Some(id)
  {
  }

  // ---- no thread is stuck

  /** Every thread of a reachable state can take its next step at once: the task
      it works on is there, and the times it has read are past. */
  lemma EveryThreadCanMove(cfg: Config, s: State, pid: Pid) returns (inp: Input)
    requires WellTimed(cfg) && Reachable(cfg, s) && pid in s.actors
    ensures Enabled(cfg, s, Act(pid, inp))
  {
    hide Reachable, Inv, TaskOk, LatestLabel, DepthOf, Claimable;
    ReachableOk(cfg, s);
    Mine(cfg, s, pid);
    inp := Input("", None, 0, RunOk, "", s.now);
    match s.actors[pid]
    case Creating(_) => inp := inp.(newId := UnusedId(s.tasks));
    case Selecting(at, _) => inp := inp.(found := SomeSelectable(cfg, s, at));
    case _ =>
  }

  /** What a SELECT may find. */
  ghost function SomeSelectable(cfg: Config, s: State, at: int): (found: Option<Id>)
    ensures Selectable(cfg, s, at, found)
  {
    if id :| id in s.tasks && Claimable(s.tasks[id], cfg.due, at) then Some(id) else None
  }

  /** Ids never run out. */
  ghost function UnusedId(tasks: map<Id, Task>): (id: Id)
    ensures id !in tasks
  {
    LongerIdIsNew(tasks);
    var id: Id :| id !in tasks;
    id
  }

  lemma LongerIdIsNew(tasks: map<Id, Task>)
    ensures exists id: Id :: id !in tasks
  {
    var n := Longest(tasks.Keys);
    var id: Id := seq(n + 1, _ => 'x');
    assert id !in tasks;
  }

  lemma {:induction false} Longest(ids: set<Id>) returns (n: nat)
    ensures forall id :: id in ids ==> |id| <= n
  {
    if ids == {} { return 0; }
    var x :| x in ids;
    n := Longest(ids - {x});
    if n < |x| { n := |x|; }
  }

  // ---- retry budget

  /** In every reachable state: the attempt number is within the budget, the
      recorded attempts are exactly 0..attempt-1 or 0..attempt, and there are at
      most budget + 1 child runs plus one for each crash that hit the task while
      it was executing. */
  lemma RetryBudget(cfg: Config, s: State, id: Id)
    requires WellTimed(cfg) && Reachable(cfg, s) && id in s.tasks
    ensures id in s.attempts && id in s.stories
    ensures var t, att, h := s.tasks[id], s.attempts[id], s.stories[id];
      && t.attempt <= EffectiveMax(cfg, t) == (if t.maxRetries > 0 then t.maxRetries else cfg.maxRetries)
      && (RecordedExactly(att, t.attempt) || RecordedExactly(att, t.attempt + 1))
      && |h.runs| <= EffectiveMax(cfg, t) + 1 + h.crashes
  {
    hide Inv, Reachable, LatestLabel, TaskOk;
    Known(cfg, s, id);
    BudgetFacts(cfg, s.tasks[id], s.attempts[id], s.stories[id], LatestLabel(s.outbox, id), s.now, s.booting);
    ExactIsRecorded(s.attempts[id], s.tasks[id].attempt);
  }

  lemma ExactIsRecorded(att: map<nat, Attempt>, n: nat)
    requires AttemptsExact(att, n)
    ensures RecordedExactly(att, if n in att then n + 1 else n)
  {
  }

  /** The recorded attempt numbers are 0..count-1, with no gap. */
  ghost predicate RecordedExactly(att: map<nat, Attempt>, count: nat) {
    forall n: nat :: n in att <==> n < count
  }

  /** A task exhausted by a failed run has used its budget up: every attempt
      number is on record, up to the budget of the path that gave up. */
  lemma ExhaustionIsExact(cfg: Config, s: State, id: Id)
    requires WellTimed(cfg) && Reachable(cfg, s) && id in s.tasks
    requires s.tasks[id].state == Exhausted && s.tasks[id].error != UNKNOWN_VERB
    ensures id in s.attempts
    ensures var t := s.tasks[id];
      && RecordedExactly(s.attempts[id], t.attempt + 1)
      && (t.maxRetries > 0 ==> t.attempt == t.maxRetries)
      && (t.maxRetries == 0 ==> t.attempt == cfg.maxRetries || t.attempt == 0)
  {
    hide Inv, Reachable, LatestLabel, TaskOk;
    Known(cfg, s, id);
    var t, att := s.tasks[id], s.attempts[id];
    ExhaustedFacts(cfg, t, att, s.stories[id], LatestLabel(s.outbox, id), s.now, s.booting);
    ExactIsRecorded(att, t.attempt);
  }

  // ---- audit agreement

  /** A task is terminal exactly when its latest audit row names a terminal
      state, and then it is in that state. */
  lemma AuditAgrees(cfg: Config, s: State, id: Id)
    requires WellTimed(cfg) && Reachable(cfg, s) && id in s.tasks
    ensures var last := LatestLabel(s.outbox, id);
      && (Terminal(s.tasks[id].state) <==> last.Some? && TerminalLabel(last.value))
      && (last.Some? && TerminalLabel(last.value) ==> last.value.state == s.tasks[id].state)
  {
    hide Reachable, ActorOk, Spaced, Past, FreeAt, FreeAtOrNow, LatestLabel, DepthOf;
    Known(cfg, s, id);
    LatestIsARow(s.outbox, id);
  }

  /** Once every row is drained, the audit file alone tells which tasks are
      finished and how. */
  lemma DrainedLogTellsAll(cfg: Config, s: State, id: Id, st: Status)
    requires WellTimed(cfg) && Reachable(cfg, s) && id in s.tasks && Terminal(st)
    requires forall k: nat :: k < |s.outbox| ==> k in s.written
    ensures s.tasks[id].state == st <==>
      exists k :: k in s.log && k < |s.outbox| && s.outbox[k].id == id && s.outbox[k].mark == Lifecycle(st)
  {
    hide Reachable, LatestLabel;
    WrittenIsLogged(cfg, s);
    AuditAgrees(cfg, s, id);
    LatestIsARow(s.outbox, id);
    RowsAgree(cfg, s);
    if s.tasks[id].state == st {
      var k: nat :| k < |s.outbox| && s.outbox[k].id == id && s.outbox[k].mark == LatestLabel(s.outbox, id).value;
      assert k in s.written && k in s.log;
    }
  }

  lemma RowsAgree(cfg: Config, s: State)
    requires WellTimed(cfg) && Reachable(cfg, s)
    ensures forall k :: 0 <= k < |s.outbox| && TerminalLabel(s.outbox[k].mark) ==>
              s.outbox[k].id in s.tasks && s.tasks[s.outbox[k].id].state == s.outbox[k].mark.state
  {
    hide Reachable, TaskOk, ActorOk, LatestLabel, DepthOf;
    ReachableOk(cfg, s);
  }

  // ---- the outbox is at-least-once

  /** A row is marked written only when its line is in the file, and the file
      holds nothing but lines of rows. */
  lemma WrittenIsLogged(cfg: Config, s: State)
    requires WellTimed(cfg) && Reachable(cfg, s)
    ensures forall k :: k in s.written ==> k in s.log
    ensures forall k :: k in s.log ==> k < |s.outbox|
  {
    hide Reachable, TaskOk, ActorOk, LatestLabel, DepthOf;
    ReachableOk(cfg, s);
  }

  /** No step, a crash included, takes back a row, a line or a written mark. */
  lemma NothingIsLost(cfg: Config, s: State, step: Step)
    requires Enabled(cfg, s, step)
    ensures var s' := Do(cfg, s, step);
      Extends(s.outbox, s'.outbox) && Extends(s.log, s'.log) && s.written <= s'.written
  {
    hide DoAct;
    if step.Act? { ActFoot(cfg, s, step.pid, step.inp); }
  }

  // ---- idempotency keys

  /** At most one of the tasks made under one key ever gets past admission, and
      it is the task the key is bound to; no other is ever run. */
  lemma OneTaskPerKey(cfg: Config, s: State, id: Id, key: string)
    requires WellTimed(cfg) && Reachable(cfg, s) && key != "" && MadeUnder(s, id, key)
    ensures Started(s.tasks[id].state) || s.stories[id].runs != [] ==>
              key in s.bindings && s.bindings[key].taskId == id
  {
    hide Reachable, ActorOk, LatestLabel, DepthOf, Spaced, Past, FreeAt, FreeAtOrNow, RowsOk, LogOk, RepliesOk;
    Known(cfg, s, id);
  }

  /** A key once bound stays bound to the same task, which exists. */
  lemma BindingsStay(cfg: Config, s: State, step: Step, key: string)
    requires WellTimed(cfg) && Inv(cfg, s) && Enabled(cfg, s, step) && key in s.bindings
    ensures key in Do(cfg, s, step).bindings && Do(cfg, s, step).bindings[key] == s.bindings[key]
    ensures s.bindings[key].taskId in s.tasks
  {
    hide Inv, DoAct, DepthOf;
    BindingFacts(cfg, s, key);
    if step.Act? { ActFoot(cfg, s, step.pid, step.inp); }
  }

  /** Over a whole run: if two tasks made under one key are ever past admission,
      even at different times, they are the same task. */
  lemma {:induction false} OneTaskPerKeyEver(cfg: Config, init: State, steps: seq<Step>, i: nat, key: string, a: Id)
    requires WellTimed(cfg) && Init(cfg, init) && Valid(cfg, init, steps) && i <= |steps|
    requires Valid(cfg, init, steps[..i]) && MadeUnder(After(cfg, init, steps[..i]), a, key)
    requires key != "" && Started(After(cfg, init, steps[..i]).tasks[a].state)
    ensures var s := After(cfg, init, steps);
      && key in s.bindings && s.bindings[key].taskId == a
      && forall b :: MadeUnder(s, b, key) && Started(s.tasks[b].state) ==> b == a
  {
    hide Init, Inv, Do, Enabled;
    InitOk(cfg, init);
    if i == |steps| {
      assert steps[..i] == steps;
      RunKeeps(cfg, init, steps);
      StartedIsBound(cfg, After(cfg, init, steps), key);
    } else {
      var before := steps[..|steps| - 1];
      assert before[..i] == steps[..i];
      OneTaskPerKeyEver(cfg, init, before, i, key, a);
      RunKeeps(cfg, init, before);
      BindingsStay(cfg, After(cfg, init, before), steps[|steps| - 1], key);
      RunKeeps(cfg, init, steps);
      StartedIsBound(cfg, After(cfg, init, steps), key);
    }
  }

  ghost predicate MadeUnder(s: State, id: Id, key: string) {
    id in s.tasks && id in s.stories && s.stories[id].req.Some? && s.stories[id].req.value.key == key
  }

  lemma StartedIsBound(cfg: Config, s: State, key: string)
    requires Inv(cfg, s) && key != ""
    ensures forall b :: MadeUnder(s, b, key) && Started(s.tasks[b].state) ==>
              key in s.bindings && s.bindings[key].taskId == b
  {
    hide TaskOk, ActorOk, LatestLabel, DepthOf, RowsOk, LogOk, RepliesOk;
  }

  /** Once its own handler has let it go, whatever else is at work, a task that
      lost the race for its key is canceled and was never run. */
  lemma LosersAreCanceled(cfg: Config, s: State, id: Id, key: string)
    requires WellTimed(cfg) && Reachable(cfg, s) && key != "" && MadeUnder(s, id, key)
    requires !s.booting && forall p :: p in s.actors ==> Touch(s.actors[p]) != Some(id)
    requires key !in s.bindings || s.bindings[key].taskId != id
    ensures s.tasks[id].state == Canceled && s.stories[id].runs == []
  {
    hide Reachable, ActorOk, LatestLabel, DepthOf, Spaced, Past, FreeAt, FreeAtOrNow, RowsOk, LogOk, RepliesOk, TaskOk,
         BindingsOk, StartedBound;
    Known(cfg, s, id);
    OneTaskPerKey(cfg, s, id, key);
  }

  /** The guard of the first look-up: the binding of the key was made for this
      verb and this digest. */
  predicate BindingMatches(s: State, req: Request)
    requires req.key in s.bindings
  {
    s.bindings[req.key].verb == req.verb && s.bindings[req.key].hash == HashOf(req)
  }

  /** A bound key belongs to an equal request exactly when its binding matches. */
  lemma MatchMeansSame(cfg: Config, s: State, req: Request)
    requires Inv(cfg, s) && req.key in s.bindings
    ensures var id := s.bindings[req.key].taskId;
      && id in s.tasks && id in s.stories && s.stories[id].req.Some? && s.stories[id].req.value.key == req.key
      && (SameRequest(s.stories[id].req.value, req) <==> BindingMatches(s, req))
  {
    hide Inv, RequestHash;
    BindingFacts(cfg, s, req.key);
    var r := s.stories[s.bindings[req.key].taskId].req.value;
    HashIdentifies(req.verb, r.args, r.stdin, req.args, req.stdin);
  }

  /** Every replay and every conflict names the task the key is bound to. A
      replay from the first look-up is of an equal request: same verb, same
      arguments, same stdin; a conflict is reported only against a different
      one; and a replay after a lost race is of an equal request exactly when
      the binding would have passed the test of the first look-up. */
  lemma AnswersFromFind(cfg: Config, s: State, i: nat)
    requires WellTimed(cfg) && Reachable(cfg, s) && i < |s.replies|
    ensures match s.replies[i]
      case Replay(req, id, onFind) =>
        && req.key in s.bindings && s.bindings[req.key].taskId == id
        && id in s.stories && s.stories[id].req.Some? && s.stories[id].req.value.key == req.key
        && (SameRequest(s.stories[id].req.value, req) <==> BindingMatches(s, req))
        && (onFind ==> BindingMatches(s, req))
      case Conflict(req, id) =>
        && req.key in s.bindings && s.bindings[req.key].taskId == id
        && id in s.stories && s.stories[id].req.Some? && s.stories[id].req.value.key == req.key
        && !SameRequest(s.stories[id].req.value, req)
      case Rejected(_, _) => true
  {
    hide Reachable, TaskOk, ActorOk, LatestLabel, DepthOf, RequestHash;
    ReachableOk(cfg, s);
    assert ReplyOk(s, s.replies[i]);
    hide RowsOk, LogOk, StartedBound, OneOwner, Phases;
    match s.replies[i]
    case Rejected(_, _) =>
    case Replay(req, _, _) => MatchMeansSame(cfg, s, req);
    case Conflict(req, _) => MatchMeansSame(cfg, s, req);
  }

  /** A handler that lost the race for its key is about to answer with the task
      the key is bound to, which exists; the two requests are equal exactly when
      the binding matches, a test this path does not make. */
  lemma RaceReplayExactly(cfg: Config, s: State, pid: Pid, req: Request, id: Id, win: Id)
    requires WellTimed(cfg) && Reachable(cfg, s) && pid in s.actors && s.actors[pid] == Replaying(req, id, win)
    ensures req.key in s.bindings && win == s.bindings[req.key].taskId && win != id
    ensures ActReplay(s, pid, req, id, win).replies == s.replies + [Replay(req, win, false)]
    ensures win in s.stories && s.stories[win].req.Some?
    ensures SameRequest(s.stories[win].req.value, req) <==> BindingMatches(s, req)
  {
    hide Reachable, Inv, TaskOk, LatestLabel, DepthOf, RequestHash;
    ReachableOk(cfg, s);
    Mine(cfg, s, pid);
    MatchMeansSame(cfg, s, req);
  }

  predicate SameRequest(a: Request, b: Request) { a.verb == b.verb && a.args == b.args && a.stdin == b.stdin }

  /** A request that finds its key bound is answered at once, and makes no task: with
      the bound task if verb, arguments and stdin are those of that task's request,
      and with a conflict otherwise. One that finds its key free is not answered
      from the look-up. */
  lemma BoundKeyAnswersAtOnce(cfg: Config, s: State, pid: Pid, req: Request)
    requires WellTimed(cfg) && Reachable(cfg, s) && pid in s.actors && s.actors[pid] == Finding(req)
    ensures var s' := ActFind(s, pid, req);
      if req.key != "" && req.key in s.bindings then
        var id := s.bindings[req.key].taskId;
        && pid !in s'.actors && s'.tasks == s.tasks && id in s.stories && s.stories[id].req.Some?
        && s'.replies == s.replies + [if SameRequest(s.stories[id].req.value, req) then Replay(req, id, true)
                                      else Conflict(req, id)]
      else
        pid in s'.actors && s'.actors[pid] == Peeking(req) && s'.replies == s.replies
  {
    hide Reachable, Inv, TaskOk, LatestLabel, DepthOf, RequestHash;
    ReachableOk(cfg, s);
    if req.key in s.bindings { MatchMeansSame(cfg, s, req); }
  }

  /** A handler that comes to create makes its task exactly when fewer tasks than the
      limit are active, in state accepted and with its first audit row; otherwise
      the request is refused. */
  lemma RoomMeansMade(cfg: Config, s: State, pid: Pid, req: Request, id: Id)
    requires pid in s.actors && s.actors[pid] == Creating(req) && id !in s.tasks
    ensures var s' := ActCreate(cfg, s, pid, req, id);
      if |set i | i in s.tasks && s.tasks[i].state in [Accepted, PendingApproval, Pending, Executing, RetryScheduled]|
           < cfg.maxDepth then
        && s'.tasks.Keys == s.tasks.Keys + {id} && s'.tasks[id].state == Accepted && s'.tasks[id].attempt == 0
        && s'.outbox == s.outbox + [Row(id, Lifecycle(Accepted), 0)] && s'.replies == s.replies
      else
        s'.tasks == s.tasks && s'.replies == s.replies + [Rejected(req, false)] && pid !in s'.actors
  {
    hide DepthOf, NewTask;
    FiveStates(s.tasks);
    if DepthOf(s.tasks) >= cfg.maxDepth { } else { NewIsAccepted(req, s.now); }
  }

  lemma FiveStates(tasks: map<Id, Task>)
    ensures DepthOf(tasks) ==
      |set i | i in tasks && tasks[i].state in [Accepted, PendingApproval, Pending, Executing, RetryScheduled]|
  {
    assert ActiveIds(tasks) ==
      set i | i in tasks && tasks[i].state in [Accepted, PendingApproval, Pending, Executing, RetryScheduled];
  }

  lemma NewIsAccepted(req: Request, now: int)
    ensures NewTask(req.verb, req.budget, now).state == Accepted && NewTask(req.verb, req.budget, now).attempt == 0
  {
  }

  // ---- spacing, depth, notices

  /** A run of a later attempt starts no sooner than the scheduled delay after
      the end of any run of an earlier attempt, up to how early the store's due
      test may be, whatever crashes and requeues came between. */
  lemma RetrySpacing(cfg: Config, s: State, id: Id, i: nat, j: nat)
    requires WellTimed(cfg) && Reachable(cfg, s) && id in s.tasks && id in s.stories
    requires i < j < |s.stories[id].runs|
    ensures var r, r' := s.stories[id].runs[i], s.stories[id].runs[j];
      && r.attempt <= r'.attempt
      && (r.attempt < r'.attempt && r.end.Some? ==> r'.start + cfg.early >= r.end.value + Floor(cfg, r.attempt))
  {
    hide Inv, Reachable, ActorOk, LatestLabel, DepthOf, Past, FreeAt, FreeAtOrNow, Floor;
    Known(cfg, s, id);
    assert Spaced(cfg, s.stories[id].runs);
  }

  lemma DepthBounded(cfg: Config, s: State)
    requires WellTimed(cfg) && Reachable(cfg, s)
    ensures DepthOf(s.tasks) <= cfg.maxDepth
  {
    hide Reachable, TaskOk, ActorOk, LatestLabel, DepthOf;
    ReachableOk(cfg, s);
  }

  /** At most one exhaustion notice is sent for a task, and only once the task
      is exhausted. */
  lemma OneNotice(cfg: Config, s: State, id: Id)
    requires WellTimed(cfg) && Reachable(cfg, s) && id in s.tasks
    ensures id in s.stories && s.stories[id].notices <= 1
    ensures s.stories[id].notices == 1 ==> s.tasks[id].state == Exhausted
  {
    hide Inv, Reachable, ActorOk, LatestLabel, DepthOf, Spaced, Past, FreeAt, FreeAtOrNow;
    Known(cfg, s, id);
  }

  // ---- terminal states are final

  lemma TerminalStep(cfg: Config, s: State, step: Step, id: Id)
    requires Inv(cfg, s) && Enabled(cfg, s, step) && id in s.tasks && Terminal(s.tasks[id].state)
    ensures id in Do(cfg, s, step).tasks && Do(cfg, s, step).tasks[id] == s.tasks[id]
  {
    hide Inv, TaskOk, LatestLabel, DoAct;
    TaskOf(cfg, s, id);
    if step.Act? {
      Mine(cfg, s, step.pid);
      if Touch(s.actors[step.pid]) == Some(id) {
        IdleOnTerminal(cfg, s, step.pid, step.inp, id);
      } else {
        ActFoot(cfg, s, step.pid, step.inp);
      }
    }
  }

  lemma TaskOf(cfg: Config, s: State, id: Id)
    requires Inv(cfg, s) && id in s.tasks
    ensures HasTask(s, id) && TaskOkAt(cfg, s, id)
  {
    hide TaskOk, ActorOk, LatestLabel, DepthOf;
  }

  lemma IdleOnTerminal(cfg: Config, s: State, pid: Pid, inp: Input, id: Id)
    requires pid in s.actors && ActEnabled(cfg, s, s.actors[pid], inp) && ActorOk(cfg, s, s.actors[pid])
    requires Touch(s.actors[pid]) == Some(id) && id in s.tasks && Terminal(s.tasks[id].state)
    ensures var s' := DoAct(cfg, s, pid, s.actors[pid], inp); id in s'.tasks && s'.tasks[id] == s.tasks[id]
  {
    assert s.actors[pid].Replaying? || s.actors[pid].Notifying?;
  }

  /** A terminal task keeps its row, to the last field, for the rest of the run. */
  lemma {:induction false} TerminalIsFinal(cfg: Config, init: State, steps: seq<Step>, i: nat, id: Id)
    requires WellTimed(cfg) && Init(cfg, init) && Valid(cfg, init, steps) && i <= |steps|
    requires Valid(cfg, init, steps[..i])
    requires var s := After(cfg, init, steps[..i]); id in s.tasks && Terminal(s.tasks[id].state)
    ensures var s := After(cfg, init, steps[..i]);
      var s' := After(cfg, init, steps); id in s'.tasks && s'.tasks[id] == s.tasks[id]
  {
    hide Init, Inv;
    if i == |steps| {
      assert steps[..i] == steps;
    } else {
      var before := steps[..|steps| - 1];
      assert before[..i] == steps[..i];
      TerminalIsFinal(cfg, init, before, i, id);
      InitOk(cfg, init);
      RunKeeps(cfg, init, before);
      TerminalStep(cfg, After(cfg, init, before), steps[|steps| - 1], id);
    }
  }
}
