/** The daemon as a state machine: HTTP handlers, workers and audit drainers that
    interleave between store calls, crashes, and the resume that follows a crash.
    Every store transaction and every locked section is one step
    (internal/api/server.go, internal/worker/worker.go, internal/queue). */
module Engine {
  import opened Tasks
  import opened Requests
  import B = Breaker
  import Backoff

  type Pid = nat

  /** Settings that no restart changes. `due` is the store's test of next_run_at
      against the clock; it may run ahead of the clock by up to `early`. */
  datatype Config = Config(maxRetries: nat, maxDepth: nat, base: nat, trip: int, openFor: int,
                           syncExec: bool, circuits: bool, due: (int, int) -> bool, early: nat)

  ghost predicate WellTimed(cfg: Config) {
    forall next: int, at: int :: cfg.due(next, at) ==> next <= at + cfg.early
  }

  datatype VerbEntry = VerbEntry(retries: Option<nat>, trip: int)

  /** A decoded POST, with what the handler read from the catalog for it. */
  datatype Request = Request(verb: string, args: JsonText, stdin: string, key: string, budget: nat, trip: int)

  function HashOf(r: Request): string { RequestHash(r.verb, r.args, r.stdin) }

  /** One run of a task as its executor sees it: attempt number and the retry
      limit this path compares it with. */
  datatype Exec = Exec(id: Id, verb: string, trip: int, n: nat, limit: nat, inline: bool)

  datatype Phase =
    | Spawning(start: int)
    | Running(start: int)
    | Ran(start: int, end: int, out: Outcome)
    | Recorded(end: int, out: Outcome)
    | Judged(end: int, out: Outcome)

  /** What a thread does next, and what it remembers. */
  datatype Actor =
    // handlePostVerb
    | Finding(req: Request)
    | Peeking(req: Request)
    | Creating(req: Request)
    | Saving(req: Request, id: Id)
    | Refinding(req: Request, id: Id)
    | Canceling(req: Request, id: Id, win: Id)
    | Replaying(req: Request, id: Id, win: Id)
    // runPipeline
    | Accepting(req: Request, id: Id)
    | HandingOff(req: Request, id: Id)
    // ClaimDue
    | Selecting(at: int, tries: nat)
    | Claiming(cand: Id, at: int, tries: nat)
    | ReadingBack(id: Id)
    // execute and executeOnce
    | Gating(id: Id, snap: Task)
    | Refused(id: Id, snap: Task)
    | Launching(id: Id, snap: Task, since: int)
    | InRun(x: Exec, phase: Phase)
    | Praising(verb: string, trip: int)
    | Notifying(id: Id)
    // DrainOutbox
    | Draining(batch: seq<nat>, logged: bool)

  datatype Attempt = Attempt(start: int, end: int, out: Outcome)

  /** One child process started for a task. */
  datatype RunRecord = RunRecord(attempt: nat, start: int, inline: bool, end: Option<int>, out: Option<Outcome>)

  /** What happened to a task, for the record: steps only ask whether there is
      one. */
  datatype Story = Story(req: Option<Request>, runs: seq<RunRecord>, crashes: nat, notices: nat)

  datatype Reply =
    | Conflict(req: Request, id: Id)
    | Replay(req: Request, id: Id, onFind: bool)
    | Rejected(req: Request, circuitOpen: bool)

  datatype State = State(
    // durable
    tasks: map<Id, Task>, attempts: map<Id, map<nat, Attempt>>, bindings: map<string, Binding>,
    outbox: seq<Row>, written: set<nat>, log: seq<nat>,
    // lost in a crash
    actors: map<Pid, Actor>, breakers: map<string, B.Cell>, catalog: map<string, VerbEntry>, booting: bool,
    // the clock, and the record
    now: int, stories: map<Id, Story>, replies: seq<Reply>)

  /** Everything a step takes from outside: a fresh id, the row a SELECT found,
      a random word, how a child ended, and the clock as read since the thread's
      previous step. */
  datatype Input = Input(newId: Id, found: Option<Id>, word: nat, out: Outcome, err: string, at: int)

  datatype Step =
    | Tick(to: int)
    | Post(pid: Pid, verb: string, args: JsonText, stdin: string, key: string)
    | Poll(pid: Pid)
    | Drain(pid: Pid, rows: seq<nat>)
    | Abandon(pid: Pid)
    | Act(pid: Pid, inp: Input)
    | Crash(catalog: map<string, VerbEntry>)
    | ResumeExecuting(id: Id)
    | CancelLeftover(id: Id)
    | BootDone

  // ---- helpers on states

  function To(s: State, pid: Pid, a: Actor): State { s.(actors := s.actors[pid := a]) }

  function Done(s: State, pid: Pid): State { s.(actors := s.actors - {pid}) }

  /** UpdateAndAudit: the row and its audit event in one transaction. */
  function UpdateAndAudit(s: State, id: Id, t: Task, mark: Label, attempt: nat): State {
    s.(tasks := s.tasks[id := t], outbox := s.outbox + [Row(id, mark, attempt)])
  }

  function Answer(s: State, r: Reply): State { s.(replies := s.replies + [r]) }

  /** Retry limit of the worker path: a stored 0 means the daemon's own. */
  function EffectiveMax(cfg: Config, t: Task): nat {
    if t.maxRetries == 0 then cfg.maxRetries else t.maxRetries
  }

  /** The verb's breaker among these, made with the daemon's settings if new. */
  function CellAmong(cfg: Config, cells: map<string, B.Cell>, verb: string, trip: int): (cell: B.Cell)
    ensures B.SaneCells(cells) ==> cell.settings.Sane()
  {
    B.CellOf(B.NewSettings(cfg.trip, cfg.openFor), cells, verb, trip)
  }

  function CellFor(cfg: Config, s: State, verb: string, trip: int): B.Cell { CellAmong(cfg, s.breakers, verb, trip) }

  function SetBreaker(cfg: Config, s: State, verb: string, trip: int, st: B.BState): State {
    s.(breakers := s.breakers[verb := CellFor(cfg, s, verb, trip).(st := st)])
  }

  function Praise(cfg: Config, s: State, verb: string, trip: int): State {
    if !cfg.circuits then s else SetBreaker(cfg, s, verb, trip, B.AfterSuccess(CellFor(cfg, s, verb, trip).st))
  }

  function Blame(cfg: Config, s: State, verb: string, trip: int): State {
    var cell := CellFor(cfg, s, verb, trip);
    if !cfg.circuits || !cell.settings.Sane() then s
    else SetBreaker(cfg, s, verb, trip, B.AfterFailure(cell.settings, cell.st, s.now))
  }

  /** Delay after failed attempt n; a worker replaces a zero base by a second. */
  function DelayFor(cfg: Config, inline: bool, n: nat, word: nat): int {
    var base := if cfg.base == 0 && !inline then SECOND else cfg.base;
    Backoff.Wrap64(Backoff.DaemonDelayFloor(base, n) + Backoff.Jitter(Backoff.MAX_JITTER, word))
  }

  // ---- handler steps

  /** The answer the first look-up of the key gives, if it gives one. */
  function FindAnswer(s: State, req: Request): Option<Reply> {
    if req.key == "" || req.key !in s.bindings then None
    else
      var b := s.bindings[req.key];
      if b.verb != req.verb || b.hash != HashOf(req) then Some(Conflict(req, b.taskId))
      else if b.taskId in s.tasks then Some(Replay(req, b.taskId, true))
      else None
  }

  function ActFind(s: State, pid: Pid, req: Request): State {
    match FindAnswer(s, req)
    case None => To(s, pid, Peeking(req))
    case Some(r) => Done(Answer(s, r), pid)
  }

  function ActPeek(cfg: Config, s: State, pid: Pid, req: Request): State {
    if !cfg.circuits then To(s, pid, Creating(req))
    else
      var cell := CellFor(cfg, s, req.verb, req.trip);
      var st := B.Settle(cell.settings, cell.st, s.now);
      var s1 := SetBreaker(cfg, s, req.verb, req.trip, st);
      if st.mode == B.Open then Done(Answer(s1, Rejected(req, true)), pid) else To(s1, pid, Creating(req))
  }

  function ActCreate(cfg: Config, s: State, pid: Pid, req: Request, id: Id): State {
    if DepthOf(s.tasks) >= cfg.maxDepth then Done(Answer(s, Rejected(req, false)), pid)
    else
      var t := NewTask(req.verb, req.budget, s.now);
      var s1 := UpdateAndAudit(s, id, t, Lifecycle(Accepted), 0);
      To(s1.(attempts := s.attempts[id := map[]], stories := s.stories[id := Story(Some(req), [], 0, 0)]),
         pid, Saving(req, id))
  }

  function ActSave(s: State, pid: Pid, req: Request, id: Id): State {
    if req.key == "" then To(s, pid, Accepting(req, id))
    else if req.key in s.bindings then To(s, pid, Refinding(req, id))
    else To(s.(bindings := s.bindings[req.key := Binding(req.verb, HashOf(req), id)]), pid, Accepting(req, id))
  }

  function ActRefind(s: State, pid: Pid, req: Request, id: Id): State {
    if req.key in s.bindings then To(s, pid, Canceling(req, id, s.bindings[req.key].taskId))
    else To(s, pid, Accepting(req, id))
  }

  function ActCancel(s: State, pid: Pid, req: Request, id: Id, win: Id): State
    requires id in s.tasks
  {
    To(UpdateAndAudit(s, id, Superseded(s.tasks[id], s.now), Lifecycle(Canceled), 0), pid, Replaying(req, id, win))
  }

  function ActReplay(s: State, pid: Pid, req: Request, id: Id, win: Id): State {
    if win in s.tasks then Done(Answer(s, Replay(req, win, false)), pid) else To(s, pid, Accepting(req, id))
  }

  function ActAccept(s: State, pid: Pid, req: Request, id: Id): State
    requires id in s.tasks
  {
    To(UpdateAndAudit(s, id, Touched(s.tasks[id], s.now), Lifecycle(Accepted), 0), pid, HandingOff(req, id))
  }

  function ActHandOff(cfg: Config, s: State, pid: Pid, req: Request, id: Id): State
    requires id in s.tasks
  {
    if !cfg.syncExec then Done(UpdateAndAudit(s, id, HandedOff(s.tasks[id], s.now), Lifecycle(Pending), 0), pid)
    else To(UpdateAndAudit(s, id, InlineStarted(s.tasks[id], s.now), Lifecycle(Executing), 0), pid,
            InRun(Exec(id, req.verb, req.trip, 0, req.budget, true), Spawning(s.now)))
  }

  // ---- worker steps

  /** What the SELECT may return: a row that is ready, or none if none is. */
  ghost predicate Selectable(cfg: Config, s: State, at: int, found: Option<Id>) {
    match found
    case Some(id) => id in s.tasks && Claimable(s.tasks[id], cfg.due, at)
    case None => forall id :: id in s.tasks ==> !Claimable(s.tasks[id], cfg.due, at)
  }

  function ActSelect(s: State, pid: Pid, at: int, tries: nat, found: Option<Id>): State {
    match found
    case Some(id) => To(s, pid, Claiming(id, at, tries))
    case None => Done(s, pid)
  }

  const CLAIM_TRIES := 5

  /** The conditional UPDATE: it tests the row again. */
  function ActClaim(cfg: Config, s: State, pid: Pid, cand: Id, at: int, tries: nat): State {
    if cand in s.tasks && Claimable(s.tasks[cand], cfg.due, at) then
      To(s.(tasks := s.tasks[cand := Claimed(s.tasks[cand], s.now)]), pid, ReadingBack(cand))
    else if tries + 1 < CLAIM_TRIES then To(s, pid, Selecting(at, tries + 1))
    else Done(s, pid)
  }

  function ActReadBack(s: State, pid: Pid, id: Id): State
    requires id in s.tasks
  {
    To(s, pid, Gating(id, s.tasks[id]))
  }

  function ActGate(cfg: Config, s: State, pid: Pid, id: Id, snap: Task): State
    requires id in s.tasks
  {
    if snap.verb !in s.catalog then
      Done(UpdateAndAudit(s, id, UnknownVerb(s.tasks[id], s.now), Lifecycle(Exhausted), 0), pid)
    else if !cfg.circuits then To(s, pid, Launching(id, snap, s.now))
    else
      var trip := s.catalog[snap.verb].trip;
      var cell := CellFor(cfg, s, snap.verb, trip);
      var s1 := SetBreaker(cfg, s, snap.verb, trip, B.AfterAllow(cell.settings, cell.st, s.now));
      To(s1, pid,
         if B.AllowResult(cell.settings, cell.st, s.now) then Launching(id, snap, s.now) else Refused(id, snap))
  }

  function ActRefuse(s: State, pid: Pid, id: Id, at: int): State
    requires id in s.tasks
  {
    Done(UpdateAndAudit(s, id, Requeued(s.tasks[id], at + SECOND, s.now), CircuitOpen, 0), pid)
  }

  function ActLaunch(cfg: Config, s: State, pid: Pid, id: Id, snap: Task, at: int): State
    requires id in s.tasks
  {
    var trip := if snap.verb in s.catalog then s.catalog[snap.verb].trip else 0;
    To(UpdateAndAudit(s, id, Marked(s.tasks[id], s.now), Lifecycle(Executing), snap.attempt), pid,
       InRun(Exec(id, snap.verb, trip, snap.attempt, EffectiveMax(cfg, snap), false), Spawning(at)))
  }

  // ---- steps of a run, on either path

  /** The inline path reads the clock after its row is committed, the worker before. */
  function BegunAt(s: State, x: Exec, start: int): int { if x.inline then s.now else start }

  function ActSpawn(s: State, pid: Pid, x: Exec, start: int): State
    requires x.id in s.stories
  {
    var h, begun := s.stories[x.id], BegunAt(s, x, start);
    To(s.(stories := s.stories[x.id := h.(runs := h.runs + [RunRecord(x.n, begun, x.inline, None, None)])]),
       pid, InRun(x, Running(begun)))
  }

  function Ended(runs: seq<RunRecord>, now: int, out: Outcome): seq<RunRecord> {
    if runs == [] then [] else runs[|runs| - 1 := runs[|runs| - 1].(end := Some(now), out := Some(out))]
  }

  function ActEnd(s: State, pid: Pid, x: Exec, start: int, out: Outcome): State
    requires x.id in s.stories
  {
    var h := s.stories[x.id];
    To(s.(stories := s.stories[x.id := h.(runs := Ended(h.runs, s.now, out))]), pid, InRun(x, Ran(start, s.now, out)))
  }

  /** A plain INSERT: a second row for one attempt number is refused. */
  function ActRecord(s: State, pid: Pid, x: Exec, start: int, end: int, out: Outcome): State
    requires x.id in s.attempts
  {
    var rows := s.attempts[x.id];
    var rows': map<nat, Attempt> := if x.n in rows then rows else rows[x.n := Attempt(start, end, out)];
    To(s.(attempts := s.attempts[x.id := rows']), pid, InRun(x, Recorded(end, out)))
  }

  /** The worker commits a success before telling the breaker; every other
      verdict reaches the breaker first. */
  predicate CommitsFirst(x: Exec, out: Outcome) { !x.inline && out == RunOk }

  function ActJudge(cfg: Config, s: State, pid: Pid, x: Exec, end: int, out: Outcome): State {
    To(if out == RunOk then Praise(cfg, s, x.verb, x.trip) else Blame(cfg, s, x.verb, x.trip),
       pid, InRun(x, Judged(end, out)))
  }

  function ActFinish(s: State, pid: Pid, x: Exec): State
    requires x.id in s.tasks
  {
    var s1 := UpdateAndAudit(s, x.id, Finished(s.tasks[x.id], s.now), Lifecycle(Executed), x.n);
    if x.inline then Done(s1, pid) else To(s1, pid, Praising(x.verb, x.trip))
  }

  function ActFail(cfg: Config, s: State, pid: Pid, x: Exec, out: Outcome, inp: Input): State
    requires x.id in s.tasks
  {
    var t := s.tasks[x.id];
    if Backoff.ShouldExhaust(x.n, x.limit) then
      To(UpdateAndAudit(s, x.id, GivenUp(t, out, inp.err, s.now), Lifecycle(Exhausted), x.n), pid, Notifying(x.id))
    else
      var next := inp.at + DelayFor(cfg, x.inline, x.n, inp.word);
      Done(UpdateAndAudit(s, x.id, RetryLater(t, x.n, next, out, inp.err, s.now), WillRetry, x.n), pid)
  }

  function ActNotify(s: State, pid: Pid, id: Id): State
    requires id in s.stories
  {
    Done(s.(stories := s.stories[id := s.stories[id].(notices := s.stories[id].notices + 1)]), pid)
  }

  /** Log the first row of the batch, then mark it written, then the next. */
  function ActDrain(s: State, pid: Pid, batch: seq<nat>, logged: bool): State {
    if batch == [] then Done(s, pid)
    else if !logged then To(s.(log := s.log + [batch[0]]), pid, Draining(batch, true))
    else To(s.(written := s.written + {batch[0]}), pid, Draining(batch[1..], false))
  }

  // ---- the transition relation

  /** The task an actor works on exists; its store calls would fail otherwise. */
  predicate HasTask(s: State, id: Id) { id in s.tasks && id in s.attempts && id in s.stories }

  ghost predicate ActEnabled(cfg: Config, s: State, a: Actor, inp: Input) {
    match a
    case Creating(_) => inp.newId !in s.tasks
    case Selecting(at, _) => Selectable(cfg, s, at, inp.found)
    case InRun(x, ph) => HasTask(s, x.id) && (ph.Judged? ==> ph.end <= inp.at <= s.now)
    case Canceling(_, id, _) => HasTask(s, id)
    case Accepting(_, id) => HasTask(s, id)
    case HandingOff(_, id) => HasTask(s, id)
    case ReadingBack(id) => HasTask(s, id)
    case Gating(id, _) => HasTask(s, id)
    case Refused(id, _) => HasTask(s, id) && inp.at <= s.now
    case Launching(id, _, since) => HasTask(s, id) && since <= inp.at <= s.now
    case Notifying(id) => HasTask(s, id)
    case _ => true
  }

  function DoRun(cfg: Config, s: State, pid: Pid, x: Exec, ph: Phase, inp: Input): State
    requires HasTask(s, x.id)
  {
    match ph
    case Spawning(start) => ActSpawn(s, pid, x, start)
    case Running(start) => ActEnd(s, pid, x, start, inp.out)
    case Ran(start, end, out) => ActRecord(s, pid, x, start, end, out)
    case Recorded(end, out) =>
      if CommitsFirst(x, out) then ActFinish(s, pid, x) else ActJudge(cfg, s, pid, x, end, out)
    case Judged(_, out) => if out == RunOk then ActFinish(s, pid, x) else ActFail(cfg, s, pid, x, out, inp)
  }

  function DoAct(cfg: Config, s: State, pid: Pid, a: Actor, inp: Input): State
    requires ActEnabled(cfg, s, a, inp)
  {
    match a
    case Finding(req) => ActFind(s, pid, req)
    case Peeking(req) => ActPeek(cfg, s, pid, req)
    case Creating(req) => ActCreate(cfg, s, pid, req, inp.newId)
    case Saving(req, id) => ActSave(s, pid, req, id)
    case Refinding(req, id) => ActRefind(s, pid, req, id)
    case Canceling(req, id, win) => ActCancel(s, pid, req, id, win)
    case Replaying(req, id, win) => ActReplay(s, pid, req, id, win)
    case Accepting(req, id) => ActAccept(s, pid, req, id)
    case HandingOff(req, id) => ActHandOff(cfg, s, pid, req, id)
    case Selecting(at, tries) => ActSelect(s, pid, at, tries, inp.found)
    case Claiming(cand, at, tries) => ActClaim(cfg, s, pid, cand, at, tries)
    case ReadingBack(id) => ActReadBack(s, pid, id)
    case Gating(id, snap) => ActGate(cfg, s, pid, id, snap)
    case Refused(id, _) => ActRefuse(s, pid, id, inp.at)
    case Launching(id, snap, _) => ActLaunch(cfg, s, pid, id, snap, inp.at)
    case InRun(x, ph) => DoRun(cfg, s, pid, x, ph, inp)
    case Praising(verb, trip) => Done(Praise(cfg, s, verb, trip), pid)
    case Notifying(id) => ActNotify(s, pid, id)
    case Draining(batch, logged) => ActDrain(s, pid, batch, logged)
  }

  function BudgetOf(cfg: Config, v: VerbEntry): nat {
    if v.retries.Some? then v.retries.value else cfg.maxRetries
  }

  function OneMoreCrash(t: Task, h: Story): Story {
    if t.state == Executing then h.(crashes := h.crashes + 1) else h
  }

  /** The process dies: threads and breakers are gone, the store stays. The next
      process may come up with another catalog. A crash counts against a task
      when it hits it while executing, not again during the boot after. */
  function DoCrash(s: State, catalog: map<string, VerbEntry>): State {
    s.(actors := map[], breakers := map[], catalog := catalog, booting := true, stories := CrashStories(s))
  }

  function CrashStories(s: State): map<Id, Story> {
    if s.booting then s.stories
    else map id | id in s.stories :: if id in s.tasks then OneMoreCrash(s.tasks[id], s.stories[id]) else s.stories[id]
  }

  ghost predicate NoTask(s: State, st: Status) { forall id :: id in s.tasks ==> s.tasks[id].state != st }

  /** Executing rows first, then accepted ones, then legacy approvals. */
  ghost predicate LeftoverNext(s: State, id: Id) {
    && id in s.tasks && NoTask(s, Executing)
    && (s.tasks[id].state == Accepted ||
        (s.tasks[id].state == PendingApproval && NoTask(s, Accepted)))
  }

  ghost predicate Enabled(cfg: Config, s: State, step: Step) {
    match step
    case Tick(to) => s.now <= to
    case Post(pid, verb, _, _, _) => !s.booting && pid !in s.actors && verb in s.catalog
    case Poll(pid) => !s.booting && pid !in s.actors
    case Drain(pid, rows) => !s.booting && pid !in s.actors &&
      forall i :: 0 <= i < |rows| ==> rows[i] < |s.outbox| && rows[i] !in s.written
    case Abandon(pid) => pid in s.actors && s.actors[pid].Draining?
    case Act(pid, inp) => pid in s.actors && ActEnabled(cfg, s, s.actors[pid], inp)
    case Crash(_) => true
    case ResumeExecuting(id) => s.booting && id in s.tasks && s.tasks[id].state == Executing
    case CancelLeftover(id) => s.booting && LeftoverNext(s, id)
    case BootDone => s.booting && NoTask(s, Executing) && NoTask(s, Accepted) && NoTask(s, PendingApproval)
  }

  function Do(cfg: Config, s: State, step: Step): State
    requires Enabled(cfg, s, step)
  {
    match step
    case Tick(to) => s.(now := to)
    case Post(pid, verb, args, stdin, key) =>
      var v := s.catalog[verb];
      To(s, pid, Finding(Request(verb, args, stdin, key, BudgetOf(cfg, v), v.trip)))
    case Poll(pid) => To(s, pid, Selecting(s.now, 0))
    case Drain(pid, rows) => To(s, pid, Draining(rows, false))
    case Abandon(pid) => Done(s, pid)
    case Act(pid, inp) => DoAct(cfg, s, pid, s.actors[pid], inp)
    case Crash(catalog) => DoCrash(s, catalog)
    case ResumeExecuting(id) => s.(tasks := s.tasks[id := Resumed(s.tasks[id], s.now)])
    case CancelLeftover(id) =>
      UpdateAndAudit(s, id, CanceledOnRestart(s.tasks[id], s.now), Lifecycle(Canceled), 0)
    case BootDone => s.(booting := false)
  }

  /** The store a first boot finds: at most some approvals of an older build. */
  ghost predicate Init(cfg: Config, s: State) {
    && s.booting && s.actors == map[] && s.breakers == map[]
    && s.bindings == map[] && s.outbox == [] && s.written == {} && s.log == [] && s.replies == []
    && s.attempts.Keys == s.tasks.Keys == s.stories.Keys
    && DepthOf(s.tasks) <= cfg.maxDepth
    && (forall id :: id in s.tasks ==>
          && s.tasks[id].state == PendingApproval && s.tasks[id].attempt == 0
          && s.attempts[id] == map[] && s.stories[id] == Story(None, [], 0, 0))
  }

  /** Every step of a run is enabled where it is taken. */
  ghost predicate Valid(cfg: Config, s: State, steps: seq<Step>)
    decreases |steps|, 0
  {
    steps == [] ||
    (var before := steps[..|steps| - 1];
     Valid(cfg, s, before) && Enabled(cfg, After(cfg, s, before), steps[|steps| - 1]))
  }

  ghost function After(cfg: Config, s: State, steps: seq<Step>): State
    requires Valid(cfg, s, steps)
    decreases |steps|, 1
  {
    if steps == [] then s else Do(cfg, After(cfg, s, steps[..|steps| - 1]), steps[|steps| - 1])
  }

  ghost predicate Reachable(cfg: Config, s: State) {
    exists init: State, steps: seq<Step> :: Init(cfg, init) && Valid(cfg, init, steps) && After(cfg, init, steps) == s
  }
}
