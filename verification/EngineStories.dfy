/** The record kept of each task is what happened to it: its runs, the crashes that
    hit it and its notices are counted from the steps of the run alone. */
module EngineStories {
  import opened Tasks
  import opened Requests
  import opened Engine
  import opened EngineInv
  import opened EngineFoot
  import opened EngineSteps
  import opened EngineRuns
  import opened EngineRecords
  import D = EngineDrain
  import B = Breaker

  function One(b: bool): nat { if b then 1 else 0 }

  /** The step starts a child process for the task. */
  predicate Starts(s: State, step: Step, id: Id) {
    step.Act? && step.pid in s.actors &&
    match s.actors[step.pid]
    case InRun(x, Spawning(_)) => x.id == id
    case _ => false
  }

  /** The process dies, not while booting, with the task executing. */
  predicate Hits(s: State, step: Step, id: Id) {
    step.Crash? && !s.booting && id in s.tasks && s.tasks[id].state == Executing
  }

  /** The step sends the task's exhaustion notice. */
  predicate Notifies(s: State, step: Step, id: Id) {
    step.Act? && step.pid in s.actors && s.actors[step.pid] == Notifying(id)
  }

  function Runs(s: State, id: Id): nat { if id in s.stories then |s.stories[id].runs| else 0 }

  function Crashes(s: State, id: Id): nat { if id in s.stories then s.stories[id].crashes else 0 }

  function Notices(s: State, id: Id): nat { if id in s.stories then s.stories[id].notices else 0 }

  /** The counts of task id move as the step says. */
  predicate Counts(s: State, s': State, step: Step, id: Id) {
    && Runs(s', id) == Runs(s, id) + One(Starts(s, step, id))
    && Crashes(s', id) == Crashes(s, id) + One(Hits(s, step, id))
    && Notices(s', id) == Notices(s, id) + One(Notifies(s, step, id))
  }

  /** The stories after a thread's step. */
  ghost function StoriesAfter(cfg: Config, s: State, pid: Pid, inp: Input): map<Id, Story>
    requires pid in s.actors && ActEnabled(cfg, s, s.actors[pid], inp)
  {
    match s.actors[pid]
    case Creating(req) =>
      if DepthOf(s.tasks) < cfg.maxDepth then s.stories[inp.newId := Story(Some(req), [], 0, 0)] else s.stories
    case InRun(x, Spawning(start)) =>
      var h := s.stories[x.id];
      s.stories[x.id := h.(runs := h.runs + [RunRecord(x.n, BegunAt(s, x, start), x.inline, None, None)])]
    case InRun(x, Running(_)) =>
      var h := s.stories[x.id];
      s.stories[x.id := h.(runs := Ended(h.runs, s.now, inp.out))]
    case Notifying(id) =>
      var h := s.stories[id];
      s.stories[id := h.(notices := h.notices + 1)]
    case _ => s.stories
  }

  /** The attempts on record after a thread's step: a run that ended is recorded
      unless its number is on record, and nothing is ever overwritten. */
  ghost function AttemptsAfter(cfg: Config, s: State, pid: Pid, inp: Input): map<Id, map<nat, Attempt>>
    requires pid in s.actors && ActEnabled(cfg, s, s.actors[pid], inp)
  {
    match s.actors[pid]
    case Creating(req) => if DepthOf(s.tasks) < cfg.maxDepth then s.attempts[inp.newId := map[]] else s.attempts
    case InRun(x, Ran(start, end, out)) =>
      if x.n in s.attempts[x.id] then s.attempts
      else
        var rows: map<nat, Attempt> := s.attempts[x.id][x.n := Attempt(start, end, out)];
        s.attempts[x.id := rows]
    case _ => s.attempts
  }

  /** Stories and attempts are as they were. */
  ghost predicate SameRecords(s: State, s': State) { s'.stories == s.stories && s'.attempts == s.attempts }

  lemma AdmissionStories(cfg: Config, s: State, pid: Pid, req: Request, id: Id, win: Id)
    requires id in s.tasks
    ensures SameRecords(s, ActCancel(s, pid, req, id, win))
    ensures SameRecords(s, ActAccept(s, pid, req, id))
    ensures SameRecords(s, ActHandOff(cfg, s, pid, req, id))
  {
    hide Superseded, Touched, HandedOff, InlineStarted;
    if cfg.syncExec { } else { }
  }

  lemma WorkerStories(cfg: Config, s: State, pid: Pid, id: Id, snap: Task, at: int)
    requires id in s.tasks
    ensures SameRecords(s, ActReadBack(s, pid, id))
    ensures SameRecords(s, ActRefuse(s, pid, id, at))
    ensures SameRecords(s, ActLaunch(cfg, s, pid, id, snap, at))
  {
    hide Requeued, Marked, EffectiveMax;
  }

  lemma ClaimStories(cfg: Config, s: State, pid: Pid, cand: Id, at: int, tries: nat)
    ensures SameRecords(s, ActClaim(cfg, s, pid, cand, at, tries))
  {
    hide Claimable, Claimed;
    if ClaimHits(cfg, s, cand, at) { } else if tries + 1 < CLAIM_TRIES { } else { }
  }

  lemma GateStories(cfg: Config, s: State, pid: Pid, id: Id, snap: Task)
    requires id in s.tasks
    ensures SameRecords(s, ActGate(cfg, s, pid, id, snap))
  {
    hide ActGate;
    if snap.verb !in s.catalog {
      GateGivesUp(cfg, s, pid, id, snap);
    } else {
      var breakers, a := GatePasses(cfg, s, pid, id, snap);
    }
  }

  lemma FailStories(cfg: Config, s: State, pid: Pid, x: Exec, out: Outcome, inp: Input)
    requires x.id in s.tasks
    ensures SameRecords(s, ActFail(cfg, s, pid, x, out, inp))
  {
    hide DelayFor, GivenUp, RetryLater;
    if x.n >= x.limit { } else { }
  }

  lemma RunStories(cfg: Config, s: State, pid: Pid, x: Exec, ph: Phase, inp: Input)
    requires HasTask(s, x.id) && pid in s.actors && s.actors[pid] == InRun(x, ph)
    requires ph.Judged? ==> ph.end <= inp.at <= s.now
    ensures DoRun(cfg, s, pid, x, ph, inp).stories == StoriesAfter(cfg, s, pid, inp)
    ensures DoRun(cfg, s, pid, x, ph, inp).attempts == AttemptsAfter(cfg, s, pid, inp)
  {
    hide ActFail, Praise, Blame, Ended, Finished;
    match ph
    case Spawning(start) =>
    case Running(start) =>
    case Ran(start, end, out) =>
    case Recorded(end, out) =>
      if CommitsFirst(x, out) { if x.inline { } else { } }
      else if out == RunOk { PraiseTables(cfg, s, x.verb, x.trip); }
      else { BlameTables(cfg, s, x.verb, x.trip); }
    case Judged(_, out) =>
      if out == RunOk { if x.inline { } else { } } else { FailStories(cfg, s, pid, x, out, inp); }
  }

  lemma ActRecords(cfg: Config, s: State, pid: Pid, inp: Input)
    requires pid in s.actors && ActEnabled(cfg, s, s.actors[pid], inp)
    ensures DoAct(cfg, s, pid, s.actors[pid], inp).stories == StoriesAfter(cfg, s, pid, inp)
    ensures DoAct(cfg, s, pid, s.actors[pid], inp).attempts == AttemptsAfter(cfg, s, pid, inp)
  {
    hide ActCancel, ActAccept, ActHandOff, ActReadBack, ActRefuse, ActLaunch, ActClaim, ActGate, DoRun, DepthOf,
         NewTask, ActFind, ActPeek, ActSave, ActRefind, ActReplay, ActSelect, ActDrain, Praise, Selectable;
    var a := s.actors[pid];
    if MovesOnly(a) {
      hide DoAct;
      MovesTell(cfg, s, pid, inp);
    } else {
      match a
      case Creating(req) => if DepthOf(s.tasks) >= cfg.maxDepth { } else { }
      case Claiming(cand, at, tries) => ClaimStories(cfg, s, pid, cand, at, tries);
      case Gating(id, snap) => GateStories(cfg, s, pid, id, snap);
      case InRun(x, ph) => RunStories(cfg, s, pid, x, ph, inp);
      case ReadingBack(id) => WorkerStories(cfg, s, pid, id, s.tasks[id], 0);
      case Refused(id, snap) => WorkerStories(cfg, s, pid, id, snap, inp.at);
      case Launching(id, snap, _) => WorkerStories(cfg, s, pid, id, snap, inp.at);
      case Notifying(_) =>
      case Canceling(req, id, win) => AdmissionStories(cfg, s, pid, req, id, win);
      case Accepting(req, id) => AdmissionStories(cfg, s, pid, req, id, "");
      case HandingOff(req, id) => AdmissionStories(cfg, s, pid, req, id, "");
    }
  }

  lemma ActKeepsAttempts(cfg: Config, s: State, pid: Pid, inp: Input, id: Id, n: nat)
    requires Inv(cfg, s) && pid in s.actors && ActEnabled(cfg, s, s.actors[pid], inp)
    requires id in s.attempts && n in s.attempts[id]
    ensures var after := DoAct(cfg, s, pid, s.actors[pid], inp).attempts;
      id in after && n in after[id] && after[id][n] == s.attempts[id][n]
  {
    hide Inv, DoAct, DepthOf;
    Tables(cfg, s);
    ActRecords(cfg, s, pid, inp);
  }

  /** An attempt on record stays there, with its times and outcome, through every
      step: of two runs of one number the first is the one on record. */
  lemma AttemptsStay(cfg: Config, s: State, step: Step, id: Id, n: nat)
    requires Inv(cfg, s) && Enabled(cfg, s, step) && id in s.attempts && n in s.attempts[id]
    ensures var after := Do(cfg, s, step).attempts;
      id in after && n in after[id] && after[id][n] == s.attempts[id][n]
  {
    hide Inv, DoAct, CrashStories, ActEnabled;
    if step.Act? { ActKeepsAttempts(cfg, s, step.pid, step.inp, id, n); }
  }

  /** A run that ended is put on record with its own times and outcome when its
      number is not on record. */
  lemma RunsAreRecorded(cfg: Config, s: State, pid: Pid, inp: Input, x: Exec, start: int, end: int, out: Outcome)
    requires pid in s.actors && s.actors[pid] == InRun(x, Ran(start, end, out)) && HasTask(s, x.id)
    requires x.n !in s.attempts[x.id]
    ensures var rows: map<nat, Attempt> := s.attempts[x.id][x.n := Attempt(start, end, out)];
      DoAct(cfg, s, pid, s.actors[pid], inp).attempts == s.attempts[x.id := rows]
  {
    ActRecords(cfg, s, pid, inp);
  }

  lemma ActCounts(cfg: Config, s: State, pid: Pid, inp: Input, id: Id)
    requires Inv(cfg, s) && pid in s.actors && ActEnabled(cfg, s, s.actors[pid], inp)
    ensures Counts(s, DoAct(cfg, s, pid, s.actors[pid], inp), Act(pid, inp), id)
  {
    hide Inv, DoAct, DepthOf;
    Tables(cfg, s);
    ActRecords(cfg, s, pid, inp);
  }

  lemma CrashCounts(cfg: Config, s: State, catalog: map<string, VerbEntry>, id: Id)
    requires Inv(cfg, s)
    ensures Counts(s, DoCrash(s, catalog), Crash(catalog), id)
  {
    hide Inv;
    Tables(cfg, s);
  }

  lemma StepCounts(cfg: Config, s: State, step: Step, id: Id)
    requires Inv(cfg, s) && Enabled(cfg, s, step)
    ensures Counts(s, Do(cfg, s, step), step, id)
  {
    hide Inv, DoAct, DoCrash;
    match step
    case Act(pid, inp) => ActCounts(cfg, s, pid, inp, id);
    case Crash(catalog) => CrashCounts(cfg, s, catalog, id);
    case _ =>
  }

  /** How often something happened to the task in a run. */
  ghost function Times(cfg: Config, init: State, steps: seq<Step>, what: (State, Step) -> bool): nat
    requires Valid(cfg, init, steps)
    decreases |steps|
  {
    if steps == [] then 0
    else
      var before := steps[..|steps| - 1];
      Times(cfg, init, before, what) + One(what(After(cfg, init, before), steps[|steps| - 1]))
  }

  /** Over every run: a task has as many runs on its record as child processes were
      started for it, as many crashes as hit it while executing, and as many
      notices as were sent. */
  lemma {:induction false} StoriesAreTrue(cfg: Config, init: State, steps: seq<Step>, id: Id)
    requires WellTimed(cfg) && Init(cfg, init) && Valid(cfg, init, steps)
    ensures var s := After(cfg, init, steps);
      && Runs(s, id) == Times(cfg, init, steps, (s, step) => Starts(s, step, id))
      && Crashes(s, id) == Times(cfg, init, steps, (s, step) => Hits(s, step, id))
      && Notices(s, id) == Times(cfg, init, steps, (s, step) => Notifies(s, step, id))
  {
    hide Inv, Do, Enabled, Starts, Hits, Notifies;
    if steps != [] {
      hide Init;
      var before := steps[..|steps| - 1];
      StoriesAreTrue(cfg, init, before, id);
      InitOk(cfg, init);
      RunKeeps(cfg, init, before);
      StepCounts(cfg, After(cfg, init, before), steps[|steps| - 1], id);
    }
  }

  // ---- the audit row of each step

  /** The audit row a thread's step writes, if it writes one: the state it leads to,
      or one of the two labels that are no states, and the attempt number for what
      happens in a run. */
  ghost function AuditRow(cfg: Config, s: State, pid: Pid, inp: Input): Option<Row>
    requires pid in s.actors && ActEnabled(cfg, s, s.actors[pid], inp)
  {
    match s.actors[pid]
    case Creating(_) => if DepthOf(s.tasks) < cfg.maxDepth then Some(Row(inp.newId, Lifecycle(Accepted), 0)) else None
    case Canceling(_, id, _) => Some(Row(id, Lifecycle(Canceled), 0))
    case Accepting(_, id) => Some(Row(id, Lifecycle(Accepted), 0))
    case HandingOff(_, id) => Some(Row(id, Lifecycle(if cfg.syncExec then Executing else Pending), 0))
    case Gating(id, snap) => if snap.verb in s.catalog then None else Some(Row(id, Lifecycle(Exhausted), 0))
    case Refused(id, _) => Some(Row(id, CircuitOpen, 0))
    case Launching(id, snap, _) => Some(Row(id, Lifecycle(Executing), snap.attempt))
    case InRun(x, Recorded(_, out)) =>
      if out == RunOk && !x.inline then Some(Row(x.id, Lifecycle(Executed), x.n)) else None
    case InRun(x, Judged(_, out)) =>
      var mark := if out == RunOk then Lifecycle(Executed)
                  else if x.n >= x.limit then Lifecycle(Exhausted)
                  else WillRetry;
      Some(Row(x.id, mark, x.n))
    case _ => None
  }

  /** The audit trail after a step with this row. */
  function Trail(s: State, row: Option<Row>): seq<Row> {
    if row.Some? then s.outbox + [row.value] else s.outbox
  }

  lemma VerdictTrail(cfg: Config, s: State, verb: string, trip: int)
    ensures Praise(cfg, s, verb, trip).outbox == Blame(cfg, s, verb, trip).outbox == s.outbox
  {
    hide CellFor, B.AfterSuccess, B.AfterFailure;
  }

  lemma RunTrail(cfg: Config, s: State, pid: Pid, x: Exec, ph: Phase, inp: Input)
    requires HasTask(s, x.id) && pid in s.actors && s.actors[pid] == InRun(x, ph)
    requires ph.Judged? ==> ph.end <= inp.at <= s.now
    ensures DoRun(cfg, s, pid, x, ph, inp).outbox == Trail(s, AuditRow(cfg, s, pid, inp))
  {
    hide ActFail, Praise, Blame, Ended, Finished;
    match ph
    case Spawning(start) =>
    case Running(start) =>
    case Ran(start, end, out) =>
    case Recorded(end, out) =>
      VerdictTrail(cfg, s, x.verb, x.trip);
      if CommitsFirst(x, out) { if x.inline { } else { } } else if out == RunOk { } else { }
    case Judged(_, out) =>
      if out == RunOk { if x.inline { } else { } }
      else if x.n >= x.limit { FailGivesUp(cfg, s, pid, x, out, inp); }
      else { FailRetries(cfg, s, pid, x, out, inp); }
  }

  /** Every step of a thread adds exactly its own row to the audit trail. */
  lemma AuditOfStep(cfg: Config, s: State, pid: Pid, inp: Input)
    requires pid in s.actors && ActEnabled(cfg, s, s.actors[pid], inp)
    ensures DoAct(cfg, s, pid, s.actors[pid], inp).outbox == Trail(s, AuditRow(cfg, s, pid, inp))
  {
    hide ActGate, DoRun, DepthOf, ActClaim, ActCreate, ActCancel, ActAccept, ActHandOff, ActRefuse, ActLaunch,
         ActNotify, ActReadBack;
    var a := s.actors[pid];
    if MovesOnly(a) {
      hide DoAct;
      MovesTell(cfg, s, pid, inp);
    } else {
      match a
      case Creating(req) => CreateTrail(cfg, s, pid, req, inp.newId);
      case Claiming(cand, at, tries) => ClaimTrail(cfg, s, pid, cand, at, tries);
      case Gating(id, snap) => GateTrail(cfg, s, pid, id, snap);
      case InRun(x, ph) => RunTrail(cfg, s, pid, x, ph, inp);
      case Refused(id, snap) => WorkerTrail(cfg, s, pid, id, snap, inp.at);
      case Launching(id, snap, _) => WorkerTrail(cfg, s, pid, id, snap, inp.at);
      case Canceling(req, id, win) => AdmissionTrail(cfg, s, pid, req, id, win);
      case Accepting(req, id) => AdmissionTrail(cfg, s, pid, req, id, "");
      case HandingOff(req, id) => AdmissionTrail(cfg, s, pid, req, id, "");
      case ReadingBack(id) => WorkerTrail(cfg, s, pid, id, s.tasks[id], 0);
      case Notifying(id) => WorkerTrail(cfg, s, pid, id, s.tasks[id], 0);
    }
  }

  lemma CreateTrail(cfg: Config, s: State, pid: Pid, req: Request, id: Id)
    ensures ActCreate(cfg, s, pid, req, id).outbox
         == if DepthOf(s.tasks) < cfg.maxDepth then s.outbox + [Row(id, Lifecycle(Accepted), 0)] else s.outbox
  {
    hide DepthOf, NewTask;
    if DepthOf(s.tasks) >= cfg.maxDepth { } else { }
  }

  lemma AdmissionTrail(cfg: Config, s: State, pid: Pid, req: Request, id: Id, win: Id)
    requires id in s.tasks
    ensures ActCancel(s, pid, req, id, win).outbox == s.outbox + [Row(id, Lifecycle(Canceled), 0)]
    ensures ActAccept(s, pid, req, id).outbox == s.outbox + [Row(id, Lifecycle(Accepted), 0)]
    ensures ActHandOff(cfg, s, pid, req, id).outbox
         == s.outbox + [Row(id, Lifecycle(if cfg.syncExec then Executing else Pending), 0)]
  {
    hide Superseded, Touched, HandedOff, InlineStarted;
    if cfg.syncExec { } else { }
  }

  lemma WorkerTrail(cfg: Config, s: State, pid: Pid, id: Id, snap: Task, at: int)
    requires HasTask(s, id)
    ensures ActReadBack(s, pid, id).outbox == s.outbox && ActNotify(s, pid, id).outbox == s.outbox
    ensures ActRefuse(s, pid, id, at).outbox == s.outbox + [Row(id, CircuitOpen, 0)]
    ensures ActLaunch(cfg, s, pid, id, snap, at).outbox == s.outbox + [Row(id, Lifecycle(Executing), snap.attempt)]
  {
    hide Requeued, Marked, EffectiveMax;
  }

  lemma ClaimTrail(cfg: Config, s: State, pid: Pid, cand: Id, at: int, tries: nat)
    ensures ActClaim(cfg, s, pid, cand, at, tries).outbox == s.outbox
  {
    hide Claimable, Claimed;
    if ClaimHits(cfg, s, cand, at) { } else if tries + 1 < CLAIM_TRIES { } else { }
  }

  lemma GateTrail(cfg: Config, s: State, pid: Pid, id: Id, snap: Task)
    requires id in s.tasks
    ensures ActGate(cfg, s, pid, id, snap).outbox
         == if snap.verb in s.catalog then s.outbox else s.outbox + [Row(id, Lifecycle(Exhausted), 0)]
  {
    hide ActGate;
    if snap.verb !in s.catalog {
      GateGivesUp(cfg, s, pid, id, snap);
    } else {
      var breakers, a := GatePasses(cfg, s, pid, id, snap);
    }
  }

  /** A row that ends an execution. */
  predicate EndsExecution(mark: Label) {
    mark == Lifecycle(Executed) || mark == Lifecycle(Exhausted) || mark == WillRetry
  }

  /** A step completes an execution exactly when it writes an executed, exhausted or
      will-retry row. */
  lemma CompletesExactly(cfg: Config, s: State, pid: Pid, inp: Input)
    requires pid in s.actors && ActEnabled(cfg, s, s.actors[pid], inp)
    ensures D.Completes(s, Act(pid, inp)) <==>
      exists row: Row :: DoAct(cfg, s, pid, s.actors[pid], inp).outbox == s.outbox + [row] && EndsExecution(row.mark)
  {
    hide DoAct, DepthOf;
    AuditOfStep(cfg, s, pid, inp);
    var row := AuditRow(cfg, s, pid, inp);
    if row.Some? {
      assert (s.outbox + [row.value])[|s.outbox|] == row.value;
      forall r: Row | s.outbox + [row.value] == s.outbox + [r] ensures r == row.value {
        assert (s.outbox + [r])[|s.outbox|] == r;
      }
    } else {
      forall r: Row ensures s.outbox != s.outbox + [r] { assert |s.outbox + [r]| != |s.outbox|; }
    }
  }

  // ---- how threads begin, and what a drainer does

  /** A POST, a poll and a drain start a thread with exactly what they bring; a
      crash leaves the store and brings the catalog of the next process. */
  lemma ThreadsBegin(cfg: Config, s: State, step: Step)
    requires Enabled(cfg, s, step)
    ensures match step
            case Post(pid, verb, args, stdin, key) =>
              Do(cfg, s, step) == s.(actors := s.actors[pid := Do(cfg, s, step).actors[pid]]) &&
              Do(cfg, s, step).actors[pid].Finding? &&
              var req := Do(cfg, s, step).actors[pid].req;
              && req.verb == verb && req.args == args && req.stdin == stdin && req.key == key
              && req.trip == s.catalog[verb].trip
              && (match s.catalog[verb].retries
                  case Some(own) => req.budget == own
                  case None => req.budget == cfg.maxRetries)
            case Crash(catalog) =>
              Do(cfg, s, step) == s.(actors := map[], breakers := map[], catalog := catalog, booting := true,
                                     stories := Do(cfg, s, step).stories)
            case Poll(pid) => Do(cfg, s, step) == s.(actors := s.actors[pid := Selecting(s.now, 0)])
            case Drain(pid, rows) => Do(cfg, s, step) == s.(actors := s.actors[pid := Draining(rows, false)])
            case _ => true
  {
    hide DoAct;
  }

  /** A drainer logs the first row of its batch, marks it written in its next step,
      and goes on to the second. */
  lemma DrainerLogsThenMarks(s: State, pid: Pid, batch: seq<nat>)
    requires batch != []
    ensures ActDrain(s, pid, batch, false)
         == s.(log := s.log + [batch[0]], actors := s.actors[pid := Draining(batch, true)])
    ensures ActDrain(s, pid, batch, true)
         == s.(written := s.written + {batch[0]}, actors := s.actors[pid := Draining(batch[1..], false)])
  {
  }
}
