/** What rows and attempt records say about the runs they stand for: a second
    invariant of the daemon, on top of the first. Every figure in it is written
    out; nothing is said by naming the update that made it. */
module EngineRecords {
  import opened Tasks
  import opened Requests
  import opened Engine
  import opened EngineInv
  import opened EngineFoot
  import opened EngineSteps
  import opened EngineRuns
  import opened EngineThreads
  import B = Breaker
  import Backoff

  /** The last run was of attempt n and ended so. */
  predicate LastRun(h: Story, n: int, out: Outcome) {
    h.runs != [] &&
    var r := h.runs[|h.runs| - 1];
    r.attempt == n && r.end.Some? && r.out == Some(out)
  }

  /** The retry limit that counted for the last run. */
  function LimitOf(cfg: Config, t: Task, inline: bool): nat {
    if t.maxRetries > 0 || inline then t.maxRetries else cfg.maxRetries
  }

  /** The retry is due a delay of min(base * 2^n, 300 s) and less than 250 ms more
      after a time between the end of the last run and the commit. A worker
      replaces a base of zero by a second. */
  ghost predicate DueAfterDelay(cfg: Config, t: Task, h: Story) {
    h.runs != [] && t.nextRunAt.Some? &&
    var r := h.runs[|h.runs| - 1];
    var base := if cfg.base > 0 || r.inline then cfg.base else 1_000_000_000;
    var delay := Backoff.Scheduled(base, r.attempt, 300_000_000_000);
    r.end.Some? && r.end.value + delay <= t.nextRunAt.value < t.updatedAt + delay + 250_000_000
  }

  /** A failed run with retries left. */
  ghost predicate WaitsForRetry(cfg: Config, t: Task, h: Story) {
    && t.attempt >= 1 && t.lastOutcome.Some? && t.lastOutcome.value != RunOk
    && LastRun(h, t.attempt - 1, t.lastOutcome.value) && DueAfterDelay(cfg, t, h)
    && t.attempt - 1 < LimitOf(cfg, t, h.runs[|h.runs| - 1].inline)
  }

  /** Put back because the circuit is open: a second's wait. */
  predicate WaitsForCircuit(t: Task) {
    t.error == "circuit_open" && t.nextRunAt.Some? && t.nextRunAt.value <= t.updatedAt + 1_000_000_000
  }

  /** Given up after a failed run with no retries left. */
  predicate UsedUp(cfg: Config, t: Task, h: Story) {
    && t.lastOutcome.Some? && t.lastOutcome.value != RunOk && t.nextRunAt == None
    && LastRun(h, t.attempt, t.lastOutcome.value) && t.attempt >= LimitOf(cfg, t, h.runs[|h.runs| - 1].inline)
  }

  /** What the row of a task made by a handler says, state by state. */
  ghost predicate RowSays(cfg: Config, t: Task, h: Story) {
    match t.state
    case Accepted => t.lastOutcome == None && t.error == "" && t.nextRunAt == None
    case Pending =>
      if h.crashes == 0 then
        t.lastOutcome == None && t.error == "" && t.nextRunAt == None && t.attempt == 0 && h.runs == []
      else t.error == "resumed after crash (was executing)"
    case Executing => true
    case Executed =>
      && t.lastOutcome == Some(RunOk) && t.error == "" && t.nextRunAt == None
      && LastRun(h, t.attempt, RunOk)
    case Exhausted => UsedUp(cfg, t, h) || (t.error == "unknown verb in catalog" && t.lastOutcome == Some(RunFailed))
    case RetryScheduled => WaitsForRetry(cfg, t, h) || WaitsForCircuit(t)
    case Canceled =>
      && t.lastOutcome == None && t.nextRunAt == None
      && (t.error == "superseded by idempotent replay" || t.error == "canceled on restart: accept incomplete")
    case _ => false
  }

  /** Every recorded attempt is a run that ended, with its times and its outcome. */
  ghost predicate LedgerTrue(att: map<nat, Attempt>, runs: seq<RunRecord>) {
    forall n :: n in att ==> exists i :: 0 <= i < |runs| && IsRecordOf(runs[i], n, att[n])
  }

  predicate IsRecordOf(r: RunRecord, n: nat, a: Attempt) {
    r.attempt == n && r.start == a.start && r.end == Some(a.end) && r.out == Some(a.out)
  }

  /** A crash between a run's record and its commit leaves the record of the first
      of two runs. Without a crash row and record agree. */
  predicate RecordAgrees(t: Task, att: map<nat, Attempt>) {
    && (t.state == Pending || t.state == RetryScheduled ==> t.attempt !in att)
    && (t.state == Executed ==> t.attempt in att && att[t.attempt].out == RunOk)
  }

  ghost predicate RowTells(cfg: Config, t: Task, att: map<nat, Attempt>, h: Story, now: int) {
    && LedgerTrue(att, h.runs)
    && (h.crashes == 0 ==> RecordAgrees(t, att))
    && (h.req.Some? ==> t.updatedAt <= now && RowSays(cfg, t, h))
  }

  /** The attempt at hand is not on record yet, unless a crash came in between. */
  predicate Unrecorded(s: State, id: Id) {
    HasTask(s, id) && (s.stories[id].crashes == 0 ==> s.tasks[id].attempt !in s.attempts[id])
  }

  ghost predicate RunTells(s: State, x: Exec, ph: Phase) {
    HasTask(s, x.id) &&
    var runs, att := s.stories[x.id].runs, s.attempts[x.id];
    match ph
    case Spawning(_) => Unrecorded(s, x.id)
    case Running(_) => Unrecorded(s, x.id)
    case Ran(start, end, out) =>
      Unrecorded(s, x.id) && runs != [] && runs[|runs| - 1] == RunRecord(x.n, start, x.inline, Some(end), Some(out))
    case Recorded(end, out) => Told(s, x, end, out)
    case Judged(end, out) => Told(s, x, end, out)
  }

  predicate Told(s: State, x: Exec, end: int, out: Outcome) {
    HasTask(s, x.id) &&
    var runs, att := s.stories[x.id].runs, s.attempts[x.id];
    && runs != [] && runs[|runs| - 1].attempt == x.n && runs[|runs| - 1].inline == x.inline
    && runs[|runs| - 1].end == Some(end) && runs[|runs| - 1].out == Some(out)
    && (s.stories[x.id].crashes == 0 ==> x.n in att && att[x.n].out == out)
  }

  ghost predicate ThreadTells(s: State, a: Actor) {
    match a
    case ReadingBack(id) => Unrecorded(s, id)
    case Gating(id, _) => Unrecorded(s, id)
    case Refused(id, _) => Unrecorded(s, id)
    case Launching(id, _, _) => Unrecorded(s, id)
    case InRun(x, ph) => RunTells(s, x, ph)
    case _ => true
  }

  ghost predicate RowTellsAt(cfg: Config, s: State, id: Id)
    requires HasTask(s, id)
  {
    RowTells(cfg, s.tasks[id], s.attempts[id], s.stories[id], s.now)
  }

  ghost predicate RowsTell(cfg: Config, s: State) {
    forall id :: HasTask(s, id) ==> RowTellsAt(cfg, s, id)
  }

  ghost predicate ThreadsTell(s: State) {
    forall p :: p in s.actors ==> ThreadTells(s, s.actors[p])
  }

  /** While the daemon boots, what is executing was hit by a crash. */
  ghost predicate Hit(s: State) {
    s.booting ==> forall id :: HasTask(s, id) && s.tasks[id].state == Executing ==> s.stories[id].crashes > 0
  }

  ghost predicate Tells(cfg: Config, s: State) { RowsTell(cfg, s) && ThreadsTell(s) && Hit(s) }

  // ---- one update of one row

  lemma NewTells(cfg: Config, req: Request, now: int)
    ensures RowTells(cfg, NewTask(req.verb, req.budget, now), map[], Story(Some(req), [], 0, 0), now)
  {
  }

  lemma AdmissionTells(cfg: Config, t: Task, att: map<nat, Attempt>, h: Story, now: int)
    requires RowTells(cfg, t, att, h, now) && t.state == Accepted && h.req.Some?
    requires t.attempt == 0 && h.runs == [] && att == map[] && h.crashes == 0
    ensures RowTells(cfg, Superseded(t, now), att, h, now) && RowTells(cfg, Touched(t, now), att, h, now)
    ensures RowTells(cfg, HandedOff(t, now), att, h, now) && RowTells(cfg, InlineStarted(t, now), att, h, now)
  {
  }

  lemma ClaimedTells(cfg: Config, t: Task, att: map<nat, Attempt>, h: Story, now: int)
    requires RowTells(cfg, t, att, h, now) && (t.state == Pending || t.state == RetryScheduled)
    ensures RowTells(cfg, Claimed(t, now), att, h, now)
    ensures h.crashes == 0 ==> t.attempt !in att
  {
  }

  lemma MarkedTells(cfg: Config, t: Task, att: map<nat, Attempt>, h: Story, now: int)
    requires RowTells(cfg, t, att, h, now) && t.state == Executing
    ensures RowTells(cfg, Marked(t, now), att, h, now) && RowTells(cfg, UnknownVerb(t, now), att, h, now)
  {
  }

  lemma RequeuedTells(cfg: Config, t: Task, att: map<nat, Attempt>, h: Story, now: int, at: int)
    requires RowTells(cfg, t, att, h, now) && t.state == Executing && at <= now
    requires h.crashes == 0 ==> t.attempt !in att
    ensures RowTells(cfg, Requeued(t, at + SECOND, now), att, h, now)
  {
  }

  lemma SpawnedTells(cfg: Config, t: Task, att: map<nat, Attempt>, h: Story, now: int, r: RunRecord)
    requires RowTells(cfg, t, att, h, now) && t.state == Executing
    ensures RowTells(cfg, t, att, h.(runs := h.runs + [r]), now)
  {
    var runs := h.runs + [r];
    forall n | n in att ensures exists i :: 0 <= i < |runs| && IsRecordOf(runs[i], n, att[n]) {
      var i :| 0 <= i < |h.runs| && IsRecordOf(h.runs[i], n, att[n]);
      assert runs[i] == h.runs[i];
    }
  }

  lemma EndedTells(cfg: Config, t: Task, att: map<nat, Attempt>, h: Story, now: int, out: Outcome)
    requires RowTells(cfg, t, att, h, now) && t.state == Executing
    requires h.runs != [] && h.runs[|h.runs| - 1].end == None
    ensures RowTells(cfg, t, att, h.(runs := Ended(h.runs, now, out)), now)
  {
    var runs := Ended(h.runs, now, out);
    forall n | n in att ensures exists i :: 0 <= i < |runs| && IsRecordOf(runs[i], n, att[n]) {
      var i :| 0 <= i < |h.runs| && IsRecordOf(h.runs[i], n, att[n]);
      assert runs[i] == h.runs[i];
    }
  }

  lemma RecordedTells(cfg: Config, t: Task, att: map<nat, Attempt>, h: Story, now: int, a: Attempt)
    requires RowTells(cfg, t, att, h, now) && t.state == Executing
    requires h.runs != [] && IsRecordOf(h.runs[|h.runs| - 1], t.attempt, a)
    ensures RowTells(cfg, t, att[t.attempt := a], h, now)
  {
    var att' := att[t.attempt := a];
    forall n | n in att' ensures exists i :: 0 <= i < |h.runs| && IsRecordOf(h.runs[i], n, att'[n]) {
      if n != t.attempt { assert n in att && att'[n] == att[n]; }
    }
  }

  lemma FinishedTells(cfg: Config, t: Task, att: map<nat, Attempt>, h: Story, now: int)
    requires RowTells(cfg, t, att, h, now) && t.state == Executing && LastRun(h, t.attempt, RunOk)
    requires h.crashes == 0 ==> t.attempt in att && att[t.attempt].out == RunOk
    ensures RowTells(cfg, Finished(t, now), att, h, now)
  {
  }

  lemma GivenUpTells(cfg: Config, t: Task, att: map<nat, Attempt>, h: Story, now: int, out: Outcome, err: string)
    requires RowTells(cfg, t, att, h, now) && t.state == Executing && LastRun(h, t.attempt, out) && out != RunOk
    requires t.attempt >= LimitOf(cfg, t, h.runs[|h.runs| - 1].inline)
    ensures RowTells(cfg, GivenUp(t, out, err, now), att, h, now)
  {
  }

  lemma RetryLaterTells(cfg: Config, t: Task, att: map<nat, Attempt>, h: Story, now: int, out: Outcome, err: string,
                        next: int)
    requires RowTells(cfg, t, att, h, now) && t.state == Executing && LastRun(h, t.attempt, out) && out != RunOk
    requires t.attempt < LimitOf(cfg, t, h.runs[|h.runs| - 1].inline) && t.attempt + 1 !in att
    requires DueAfterDelay(cfg, RetryLater(t, t.attempt, next, out, err, now), h)
    ensures RowTells(cfg, RetryLater(t, t.attempt, next, out, err, now), att, h, now)
  {
    hide DueAfterDelay;
  }

  /** The delay a failed run is given. */
  lemma DelayInWindow(cfg: Config, inline: bool, n: nat, word: nat)
    ensures var base := if cfg.base > 0 || inline then cfg.base else 1_000_000_000;
      var d := Backoff.Scheduled(base, n, 300_000_000_000);
      d <= DelayFor(cfg, inline, n, word) < d + 250_000_000
  {
    var base := if cfg.base == 0 && !inline then SECOND else cfg.base;
    Backoff.ScheduledRange(base, n, Backoff.MAX_DELAY);
    assert 0 <= Backoff.Jitter(Backoff.MAX_JITTER, word) < Backoff.MAX_JITTER;
  }

  lemma NotifiedTells(cfg: Config, t: Task, att: map<nat, Attempt>, h: Story, now: int, notices: nat)
    requires RowTells(cfg, t, att, h, now)
    ensures RowTells(cfg, t, att, h.(notices := notices), now)
  {
    hide LedgerTrue;
  }

  lemma ResumedTells(cfg: Config, t: Task, att: map<nat, Attempt>, h: Story, now: int)
    requires RowTells(cfg, t, att, h, now) && t.state == Executing && h.crashes > 0
    ensures RowTells(cfg, Resumed(t, now), att, h, now)
  {
  }

  lemma LeftoverTells(cfg: Config, t: Task, att: map<nat, Attempt>, h: Story, now: int)
    requires RowTells(cfg, t, att, h, now) && (t.state == Accepted || t.state == PendingApproval)
    ensures RowTells(cfg, CanceledOnRestart(t, now), att, h, now)
  {
  }

  lemma CrashedTells(cfg: Config, t: Task, att: map<nat, Attempt>, h: Story, now: int)
    requires RowTells(cfg, t, att, h, now)
    ensures RowTells(cfg, t, att, OneMoreCrash(t, h), now)
  {
    hide LedgerTrue;
  }

  lemma LaterTells(cfg: Config, t: Task, att: map<nat, Attempt>, h: Story, now: int, later: int)
    requires RowTells(cfg, t, att, h, now) && now <= later
    ensures RowTells(cfg, t, att, h, later)
  {
    hide LedgerTrue, RowSays;
  }

  // ---- one step of one thread

  /** What the step owes: the row it works on and the thread itself. */
  ghost predicate OwnOk(cfg: Config, s': State, pid: Pid, i: Option<Id>) {
    && (i.Some? && HasTask(s', i.value) ==> RowTellsAt(cfg, s', i.value))
    && (pid in s'.actors ==> ThreadTells(s', s'.actors[pid]))
  }

  /** Nothing but thread pid and bookkeeping changed. */
  predicate SameTables(s: State, s': State) {
    && s'.tasks == s.tasks && s'.attempts == s.attempts && s'.stories == s.stories && s'.outbox == s.outbox
    && s'.now == s.now
  }

  lemma QuietOwn(cfg: Config, s: State, s': State, pid: Pid, i: Option<Id>)
    requires RowsTell(cfg, s) && SameTables(s, s') && (pid in s'.actors ==> ThreadTells(s', s'.actors[pid]))
    ensures OwnOk(cfg, s', pid, i)
  {
    hide RowTells, ThreadTells;
    if i.Some? && HasTask(s', i.value) { assert RowTellsAt(cfg, s, i.value); }
  }

  /** What a thread at work on a task may rely on. */
  lemma OwnFacts(cfg: Config, s: State, pid: Pid)
    requires Inv(cfg, s) && Tells(cfg, s) && pid in s.actors
    ensures !s.booting && ActorOk(cfg, s, s.actors[pid]) && ThreadTells(s, s.actors[pid])
    ensures Touch(s.actors[pid]).Some? ==>
      var i := Touch(s.actors[pid]).value;
      HasTask(s, i) && TaskOkAt(cfg, s, i) && RowTellsAt(cfg, s, i)
  {
    hide Inv, TaskOk, LatestLabel, ActorOk, RowTells, ThreadTells;
    Mine(cfg, s, pid);
  }

  lemma AcceptedFacts(cfg: Config, s: State, pid: Pid, req: Request, id: Id)
    requires Inv(cfg, s) && Tells(cfg, s) && pid in s.actors && NewOf(s, req, id) && Touch(s.actors[pid]) == Some(id)
    ensures var t, att, h := s.tasks[id], s.attempts[id], s.stories[id];
      && RowTells(cfg, t, att, h, s.now) && t.state == Accepted && h.req.Some?
      && t.attempt == 0 && h.runs == [] && att == map[] && h.crashes == 0
  {
    hide Inv, LatestLabel, Spaced, Past, FreeAt, FreeAtOrNow, RowTells, ThreadTells, ActorOk, Tells;
    OwnFacts(cfg, s, pid);
  }

  lemma AdmissionOwn(cfg: Config, s: State, pid: Pid, inp: Input)
    requires Inv(cfg, s) && Tells(cfg, s) && pid in s.actors && ActEnabled(cfg, s, s.actors[pid], inp)
    requires s.actors[pid].Canceling? || s.actors[pid].Accepting? || s.actors[pid].HandingOff?
    ensures OwnOk(cfg, DoAct(cfg, s, pid, s.actors[pid], inp), pid, Touch(s.actors[pid]))
  {
    hide Inv, Tells, RowTells, LatestLabel, TaskOk;
    OwnFacts(cfg, s, pid);
    var id, req := s.actors[pid].id, s.actors[pid].req;
    AcceptedFacts(cfg, s, pid, req, id);
    AdmissionTells(cfg, s.tasks[id], s.attempts[id], s.stories[id], s.now);
  }

  lemma CreatingOwn(cfg: Config, s: State, pid: Pid, req: Request, inp: Input)
    requires Inv(cfg, s) && Tells(cfg, s) && pid in s.actors && s.actors[pid] == Creating(req) && inp.newId !in s.tasks
    ensures OwnOk(cfg, ActCreate(cfg, s, pid, req, inp.newId), pid, Some(inp.newId))
  {
    hide Inv, RowTells, DepthOf;
    NewTells(cfg, req, s.now);
    if DepthOf(s.tasks) >= cfg.maxDepth { } else { }
  }

  lemma ClaimingOwn(cfg: Config, s: State, pid: Pid, cand: Id, at: int, tries: nat)
    requires Inv(cfg, s) && Tells(cfg, s) && pid in s.actors && s.actors[pid] == Claiming(cand, at, tries)
    ensures OwnOk(cfg, ActClaim(cfg, s, pid, cand, at, tries), pid,
                  if ClaimHits(cfg, s, cand, at) then Some(cand) else None)
  {
    hide Inv, RowTells, TaskOk, LatestLabel, DepthOf, Alone;
    OwnFacts(cfg, s, pid);
    if ClaimHits(cfg, s, cand, at) {
      NobodyOnClaimable(cfg, s, cand, at);
      assert RowTellsAt(cfg, s, cand);
      ClaimedTells(cfg, s.tasks[cand], s.attempts[cand], s.stories[cand], s.now);
    } else if tries + 1 < CLAIM_TRIES { } else { }
  }

  lemma GateOwn(cfg: Config, s: State, pid: Pid, id: Id, snap: Task)
    requires Inv(cfg, s) && Tells(cfg, s) && pid in s.actors && s.actors[pid] == Gating(id, snap) && HasTask(s, id)
    ensures OwnOk(cfg, ActGate(cfg, s, pid, id, snap), pid, Some(id))
  {
    hide Inv, RowTells, TaskOk, LatestLabel, ActGate;
    OwnFacts(cfg, s, pid);
    if snap.verb !in s.catalog {
      GateGivesUp(cfg, s, pid, id, snap);
      MarkedTells(cfg, s.tasks[id], s.attempts[id], s.stories[id], s.now);
    } else {
      var breakers, a := GatePasses(cfg, s, pid, id, snap);
    }
  }

  lemma HeldOwn(cfg: Config, s: State, pid: Pid, inp: Input)
    requires Inv(cfg, s) && Tells(cfg, s) && pid in s.actors && ActEnabled(cfg, s, s.actors[pid], inp)
    requires s.actors[pid].Refused? || s.actors[pid].Launching? || s.actors[pid].Notifying?
    ensures OwnOk(cfg, DoAct(cfg, s, pid, s.actors[pid], inp), pid, Touch(s.actors[pid]))
  {
    hide Inv, Tells, RowTells, LatestLabel, TaskOk, EffectiveMax;
    OwnFacts(cfg, s, pid);
    var id := s.actors[pid].id;
    var t, att, h := s.tasks[id], s.attempts[id], s.stories[id];
    match s.actors[pid]
    case Refused(_, _) => RequeuedTells(cfg, t, att, h, s.now, inp.at);
    case Launching(_, _, _) => MarkedTells(cfg, t, att, h, s.now);
    case Notifying(_) => NotifiedTells(cfg, t, att, h, s.now, h.notices + 1);
  }

  lemma SpawnOwn(cfg: Config, s: State, pid: Pid, x: Exec, start: int)
    requires Inv(cfg, s) && Tells(cfg, s) && HasTask(s, x.id)
    requires pid in s.actors && s.actors[pid] == InRun(x, Spawning(start))
    ensures OwnOk(cfg, ActSpawn(s, pid, x, start), pid, Some(x.id))
  {
    hide Inv, Tells, RowTells, LatestLabel, TaskOk, FreeAt, Past;
    OwnFacts(cfg, s, pid);
    SpawnedTells(cfg, s.tasks[x.id], s.attempts[x.id], s.stories[x.id], s.now,
                 RunRecord(x.n, BegunAt(s, x, start), x.inline, None, None));
  }

  lemma EndOwn(cfg: Config, s: State, pid: Pid, x: Exec, start: int, out: Outcome)
    requires Inv(cfg, s) && Tells(cfg, s) && HasTask(s, x.id)
    requires pid in s.actors && s.actors[pid] == InRun(x, Running(start))
    ensures OwnOk(cfg, ActEnd(s, pid, x, start, out), pid, Some(x.id))
  {
    hide Inv, Tells, RowTells, LatestLabel, TaskOk, FreeAt, Past;
    OwnFacts(cfg, s, pid);
    EndedTells(cfg, s.tasks[x.id], s.attempts[x.id], s.stories[x.id], s.now, out);
  }

  lemma RecordOwn(cfg: Config, s: State, pid: Pid, x: Exec, start: int, end: int, out: Outcome)
    requires Inv(cfg, s) && Tells(cfg, s) && pid in s.actors && s.actors[pid] == InRun(x, Ran(start, end, out))
    requires HasTask(s, x.id)
    ensures OwnOk(cfg, ActRecord(s, pid, x, start, end, out), pid, Some(x.id))
  {
    hide Inv, Tells, RowTells, LatestLabel, TaskOk, FreeAt, Past;
    OwnFacts(cfg, s, pid);
    RecordedTells(cfg, s.tasks[x.id], s.attempts[x.id], s.stories[x.id], s.now, Attempt(start, end, out));
  }

  lemma JudgeOwn(cfg: Config, s: State, pid: Pid, x: Exec, end: int, out: Outcome)
    requires Inv(cfg, s) && Tells(cfg, s) && pid in s.actors && s.actors[pid] == InRun(x, Recorded(end, out))
    requires HasTask(s, x.id)
    ensures OwnOk(cfg, ActJudge(cfg, s, pid, x, end, out), pid, None)
  {
    hide Inv, RowTells, Praise, Blame, LatestLabel, TaskOk;
    OwnFacts(cfg, s, pid);
    if out == RunOk { PraiseTables(cfg, s, x.verb, x.trip); } else { BlameTables(cfg, s, x.verb, x.trip); }
  }

  lemma PraiseTables(cfg: Config, s: State, verb: string, trip: int)
    ensures SameTables(s, Praise(cfg, s, verb, trip))
  {
  }

  lemma BlameTables(cfg: Config, s: State, verb: string, trip: int)
    ensures SameTables(s, Blame(cfg, s, verb, trip))
  {
  }

  lemma FinishOwn(cfg: Config, s: State, pid: Pid, x: Exec, ph: Phase)
    requires Inv(cfg, s) && Tells(cfg, s) && pid in s.actors && s.actors[pid] == InRun(x, ph) && HasTask(s, x.id)
    requires (ph.Recorded? || ph.Judged?) && ph.out == RunOk
    ensures OwnOk(cfg, ActFinish(s, pid, x), pid, Some(x.id))
  {
    hide Inv, Tells, RowTells, LatestLabel, TaskOk, FreeAt, Past;
    OwnFacts(cfg, s, pid);
    FinishedTells(cfg, s.tasks[x.id], s.attempts[x.id], s.stories[x.id], s.now);
    if x.inline { } else { }
  }

  /** The limit a run is judged by is the one that counts for its path. */
  lemma RunFacts(cfg: Config, s: State, pid: Pid, x: Exec, end: int, out: Outcome)
    requires Inv(cfg, s) && Tells(cfg, s) && pid in s.actors && s.actors[pid] == InRun(x, Judged(end, out))
    requires HasTask(s, x.id)
    ensures var t, att, h := s.tasks[x.id], s.attempts[x.id], s.stories[x.id];
      && RowTells(cfg, t, att, h, s.now) && t.state == Executing && t.attempt == x.n && t.attempt + 1 !in att
      && LastRun(h, x.n, out) && h.runs[|h.runs| - 1].end == Some(end) && h.runs[|h.runs| - 1].inline == x.inline
      && x.limit == LimitOf(cfg, t, x.inline)
  {
    hide Inv, Tells, RowTells, LatestLabel, FreeAt, Past, Spaced, FreeAtOrNow, RunsCounted;
    OwnFacts(cfg, s, pid);
  }

  lemma FailOwn(cfg: Config, s: State, pid: Pid, x: Exec, end: int, out: Outcome, inp: Input)
    requires Inv(cfg, s) && Tells(cfg, s) && pid in s.actors && s.actors[pid] == InRun(x, Judged(end, out))
    requires HasTask(s, x.id) && out != RunOk && end <= inp.at <= s.now
    ensures OwnOk(cfg, ActFail(cfg, s, pid, x, out, inp), pid, Some(x.id))
  {
    hide Inv, Tells, RowTells, DelayFor, ActFail, GivenUp;
    RunFacts(cfg, s, pid, x, end, out);
    var t, att, h := s.tasks[x.id], s.attempts[x.id], s.stories[x.id];
    if x.n >= x.limit {
      FailGivesUp(cfg, s, pid, x, out, inp);
      GivenUpTells(cfg, t, att, h, s.now, out, inp.err);
    } else {
      FailRetries(cfg, s, pid, x, out, inp);
      DelayInWindow(cfg, x.inline, x.n, inp.word);
      var next := inp.at + DelayFor(cfg, x.inline, x.n, inp.word);
      RetryLaterTells(cfg, t, att, h, s.now, out, inp.err, next);
    }
  }

  lemma RunOwn(cfg: Config, s: State, pid: Pid, x: Exec, ph: Phase, inp: Input)
    requires Inv(cfg, s) && Tells(cfg, s) && pid in s.actors && s.actors[pid] == InRun(x, ph) && HasTask(s, x.id)
    requires ph.Judged? ==> ph.end <= inp.at <= s.now
    ensures OwnOk(cfg, DoRun(cfg, s, pid, x, ph, inp), pid, Some(x.id))
  {
    hide Inv, ActFail, ActFinish, ActSpawn, ActEnd, ActRecord, ActJudge, OwnOk, Tells;
    match ph
    case Spawning(start) => SpawnOwn(cfg, s, pid, x, start);
    case Running(start) => EndOwn(cfg, s, pid, x, start, inp.out);
    case Ran(start, end, out) => RecordOwn(cfg, s, pid, x, start, end, out);
    case Recorded(end, out) =>
      if CommitsFirst(x, out) {
        FinishOwn(cfg, s, pid, x, ph);
      } else {
        JudgeOwn(cfg, s, pid, x, end, out);
        JudgedRow(cfg, s, pid, x, end, out);
      }
    case Judged(end, out) =>
      if out == RunOk { FinishOwn(cfg, s, pid, x, ph); } else { FailOwn(cfg, s, pid, x, end, out, inp); }
  }

  lemma JudgedRow(cfg: Config, s: State, pid: Pid, x: Exec, end: int, out: Outcome)
    requires Inv(cfg, s) && Tells(cfg, s) && pid in s.actors && s.actors[pid] == InRun(x, Recorded(end, out))
    requires HasTask(s, x.id) && OwnOk(cfg, ActJudge(cfg, s, pid, x, end, out), pid, None)
    ensures OwnOk(cfg, ActJudge(cfg, s, pid, x, end, out), pid, Some(x.id))
  {
    hide Inv, RowTells, Praise, Blame, ThreadTells;
    if out == RunOk { PraiseTables(cfg, s, x.verb, x.trip); } else { BlameTables(cfg, s, x.verb, x.trip); }
    assert RowTellsAt(cfg, s, x.id);
  }

  /** No row, attempt or story changes, and the thread tells nothing of a run. */
  ghost predicate TellsNothing(s: State, s': State, pid: Pid) {
    SameTables(s, s') && (pid in s'.actors ==> ThreadTells(s', s'.actors[pid]))
  }

  /** The thread has no run in hand. */
  predicate Idle(a: Actor) {
    !a.ReadingBack? && !a.Gating? && !a.Refused? && !a.Launching? && !a.InRun?
  }

  lemma GoesOn(s: State, s1: State, pid: Pid, a: Actor)
    requires SameTables(s, s1) && Idle(a)
    ensures TellsNothing(s, To(s1, pid, a), pid) && TellsNothing(s, Done(s1, pid), pid)
  {
  }

  lemma FindMoves(s: State, pid: Pid, req: Request)
    ensures TellsNothing(s, ActFind(s, pid, req), pid)
  {
    hide FindAnswer, TellsNothing;
    match FindAnswer(s, req)
    case None => GoesOn(s, s, pid, Peeking(req));
    case Some(r) => GoesOn(s, Answer(s, r), pid, Peeking(req));
  }

  lemma PeekMoves(cfg: Config, s: State, pid: Pid, req: Request)
    ensures TellsNothing(s, ActPeek(cfg, s, pid, req), pid)
  {
    hide CellFor, B.Settle, TellsNothing;
    if cfg.circuits {
      var cell := CellFor(cfg, s, req.verb, req.trip);
      var s1 := SetBreaker(cfg, s, req.verb, req.trip, B.Settle(cell.settings, cell.st, s.now));
      GoesOn(s, s1, pid, Creating(req));
      GoesOn(s, Answer(s1, Rejected(req, true)), pid, Creating(req));
    } else {
      GoesOn(s, s, pid, Creating(req));
    }
  }

  lemma SaveMoves(s: State, pid: Pid, req: Request, id: Id)
    ensures TellsNothing(s, ActSave(s, pid, req, id), pid)
  {
    hide HashOf, TellsNothing;
    if req.key == "" {
      GoesOn(s, s, pid, Accepting(req, id));
    } else if req.key in s.bindings {
      GoesOn(s, s, pid, Refinding(req, id));
    } else {
      var b := Binding(req.verb, HashOf(req), id);
      GoesOn(s, s.(bindings := s.bindings[req.key := b]), pid, Accepting(req, id));
    }
  }

  lemma RefindMoves(s: State, pid: Pid, req: Request, id: Id)
    ensures TellsNothing(s, ActRefind(s, pid, req, id), pid)
  {
    hide TellsNothing;
    if req.key in s.bindings {
      GoesOn(s, s, pid, Canceling(req, id, s.bindings[req.key].taskId));
    } else {
      GoesOn(s, s, pid, Accepting(req, id));
    }
  }

  lemma ReplayMoves(s: State, pid: Pid, req: Request, id: Id, win: Id)
    ensures TellsNothing(s, ActReplay(s, pid, req, id, win), pid)
  {
    hide TellsNothing;
    GoesOn(s, Answer(s, Replay(req, win, false)), pid, Accepting(req, id));
    GoesOn(s, s, pid, Accepting(req, id));
  }

  lemma SelectMoves(s: State, pid: Pid, at: int, tries: nat, found: Option<Id>)
    ensures TellsNothing(s, ActSelect(s, pid, at, tries, found), pid)
  {
    hide TellsNothing;
    match found
    case None => GoesOn(s, s, pid, Selecting(at, tries));
    case Some(id) => GoesOn(s, s, pid, Claiming(id, at, tries));
  }

  lemma PraiseMoves(cfg: Config, s: State, pid: Pid, verb: string, trip: int)
    ensures TellsNothing(s, Done(Praise(cfg, s, verb, trip), pid), pid)
  {
    hide Praise, TellsNothing;
    PraiseTables(cfg, s, verb, trip);
    GoesOn(s, Praise(cfg, s, verb, trip), pid, Praising(verb, trip));
  }

  lemma DrainMoves(s: State, pid: Pid, batch: seq<nat>, logged: bool)
    ensures TellsNothing(s, ActDrain(s, pid, batch, logged), pid)
  {
    hide TellsNothing;
    if batch == [] {
      GoesOn(s, s, pid, Draining(batch, true));
    } else if !logged {
      GoesOn(s, s.(log := s.log + [batch[0]]), pid, Draining(batch, true));
    } else {
      GoesOn(s, s.(written := s.written + {batch[0]}), pid, Draining(batch[1..], false));
    }
  }

  /** The thread changes no row and comes to no run. */
  predicate MovesOnly(a: Actor) {
    a.Finding? || a.Peeking? || a.Saving? || a.Refinding? || a.Replaying? || a.Selecting? || a.Praising? || a.Draining?
  }

  lemma MovesTell(cfg: Config, s: State, pid: Pid, inp: Input)
    requires pid in s.actors && ActEnabled(cfg, s, s.actors[pid], inp) && MovesOnly(s.actors[pid])
    ensures TellsNothing(s, DoAct(cfg, s, pid, s.actors[pid], inp), pid)
  {
    hide ActFind, ActPeek, ActSave, ActRefind, ActReplay, ActSelect, Praise, ActDrain, TellsNothing;
    match s.actors[pid]
    case Finding(req) => FindMoves(s, pid, req);
    case Peeking(req) => PeekMoves(cfg, s, pid, req);
    case Saving(req, id) => SaveMoves(s, pid, req, id);
    case Refinding(req, id) => RefindMoves(s, pid, req, id);
    case Replaying(req, id, win) => ReplayMoves(s, pid, req, id, win);
    case Selecting(at, tries) => SelectMoves(s, pid, at, tries, inp.found);
    case Praising(verb, trip) => PraiseMoves(cfg, s, pid, verb, trip);
    case Draining(batch, logged) => DrainMoves(s, pid, batch, logged);
  }

  lemma ActOwn(cfg: Config, s: State, pid: Pid, inp: Input)
    requires Inv(cfg, s) && Tells(cfg, s) && pid in s.actors && ActEnabled(cfg, s, s.actors[pid], inp)
    ensures OwnOk(cfg, DoAct(cfg, s, pid, s.actors[pid], inp), pid, Target(cfg, s, s.actors[pid], inp))
  {
    hide Inv, OwnOk, ActCreate, ActClaim, ActGate, DoRun, ActReadBack;
    var a := s.actors[pid];
    if MovesOnly(a) {
      hide DoAct, RowsTell;
      MovesTell(cfg, s, pid, inp);
      QuietOwn(cfg, s, DoAct(cfg, s, pid, a, inp), pid, Touch(a));
    } else {
      match a
      case Creating(req) => CreatingOwn(cfg, s, pid, req, inp);
      case Claiming(cand, at, tries) => ClaimingOwn(cfg, s, pid, cand, at, tries);
      case Gating(id, snap) => GateOwn(cfg, s, pid, id, snap);
      case InRun(x, ph) => RunOwn(cfg, s, pid, x, ph, inp);
      case ReadingBack(id) => ReadBackOwn(cfg, s, pid, id);
      case Refused(_, _) => HeldOwn(cfg, s, pid, inp);
      case Launching(_, _, _) => HeldOwn(cfg, s, pid, inp);
      case Notifying(_) => HeldOwn(cfg, s, pid, inp);
      case Canceling(_, _, _) => AdmissionOwn(cfg, s, pid, inp);
      case Accepting(_, _) => AdmissionOwn(cfg, s, pid, inp);
      case HandingOff(_, _) => AdmissionOwn(cfg, s, pid, inp);
    }
  }

  lemma ReadBackOwn(cfg: Config, s: State, pid: Pid, id: Id)
    requires Inv(cfg, s) && Tells(cfg, s) && pid in s.actors && s.actors[pid] == ReadingBack(id) && HasTask(s, id)
    ensures OwnOk(cfg, ActReadBack(s, pid, id), pid, Some(id))
  {
    hide Inv, RowTells, TaskOk, LatestLabel;
    OwnFacts(cfg, s, pid);
    assert RowTellsAt(cfg, s, id);
  }

  // ---- every step, every run

  /** What a thread tells depends on the task it works on alone. */
  lemma OtherThreadTells(s: State, s': State, a: Actor)
    requires ThreadTells(s, a)
    requires Touch(a).Some? && HasTask(s, Touch(a).value) ==>
      var j := Touch(a).value;
      && HasTask(s', j) && s'.tasks[j] == s.tasks[j] && s'.attempts[j] == s.attempts[j] && s'.stories[j] == s.stories[j]
    ensures ThreadTells(s', a)
  {
  }

  lemma ActTells(cfg: Config, s: State, pid: Pid, inp: Input)
    requires Inv(cfg, s) && Tells(cfg, s) && pid in s.actors && ActEnabled(cfg, s, s.actors[pid], inp)
    ensures Tells(cfg, DoAct(cfg, s, pid, s.actors[pid], inp))
  {
    hide Inv, DoAct, RowTells, ThreadTells, ActorOk, TaskOk, LatestLabel, Written, Target;
    var s', i := DoAct(cfg, s, pid, s.actors[pid], inp), Target(cfg, s, s.actors[pid], inp);
    Mine(cfg, s, pid);
    ActOwn(cfg, s, pid, inp);
    ActFoot(cfg, s, pid, inp);
    ActThread(cfg, s, pid, inp);
    ActKeeps(cfg, s, pid, inp);
    Tables(cfg, s);
    Tables(cfg, s');
    OthersTell(cfg, s, s', pid, i, Written(cfg, s, s.actors[pid], inp));
    forall q | q in s'.actors ensures ThreadTells(s', s'.actors[q]) {
      if q != pid {
        OtherTarget(cfg, s, pid, inp, q);
        OtherThreadTells(s, s', s.actors[q]);
      }
    }
  }

  lemma OthersTell(cfg: Config, s: State, s': State, pid: Pid, i: Option<Id>, w: Option<Task>)
    requires RowsTell(cfg, s) && Footprint(s, s', i, w) && OwnOk(cfg, s', pid, i) && s'.now == s.now
    requires SameDomains(s) && SameDomains(s')
    ensures RowsTell(cfg, s')
  {
    hide RowTells, ThreadTells, LatestLabel;
    forall id | HasTask(s', id) ensures RowTellsAt(cfg, s', id) {
      if Some(id) != i {
        assert id in s.tasks;
        assert RowTellsAt(cfg, s, id);
      }
    }
  }

  /** No other thread works on the task a step works on. */
  lemma OtherTarget(cfg: Config, s: State, pid: Pid, inp: Input, q: Pid)
    requires Inv(cfg, s) && pid in s.actors && ActEnabled(cfg, s, s.actors[pid], inp) && q in s.actors && q != pid
    ensures Touch(s.actors[q]) == None || Touch(s.actors[q]) != Target(cfg, s, s.actors[pid], inp)
  {
    hide Inv, ActorOk, TaskOk, LatestLabel, Claimable;
    Mine(cfg, s, pid);
    Mine(cfg, s, q);
    match s.actors[pid]
    case Creating(_) => NobodyOnNew(cfg, s, inp.newId);
    case Claiming(cand, at, _) =>
      if cand in s.tasks && Claimable(s.tasks[cand], cfg.due, at) {
        NobodyOnClaimable(cfg, s, cand, at);
        assert Alone(s, pid, cand);
      }
    case _ =>
  }

  lemma StartTells(cfg: Config, s: State, pid: Pid, a: Actor)
    requires Tells(cfg, s) && pid !in s.actors && Idle(a) && !s.booting
    ensures Tells(cfg, To(s, pid, a))
  {
    var s' := To(s, pid, a);
    assert ThreadTells(s', a);
    hide RowTells, ThreadTells;
    forall p | p in s'.actors ensures ThreadTells(s', s'.actors[p]) {
      if p != pid { OtherThreadTells(s, s', s.actors[p]); }
    }
    forall id | HasTask(s', id) ensures RowTellsAt(cfg, s', id) {
      assert RowTellsAt(cfg, s, id);
    }
  }

  lemma AbandonTells(cfg: Config, s: State, pid: Pid)
    requires Tells(cfg, s) && pid in s.actors && !s.booting
    ensures Tells(cfg, Done(s, pid))
  {
    hide RowTells;
    forall p | p in Done(s, pid).actors ensures ThreadTells(Done(s, pid), s.actors[p]) {
      OtherThreadTells(s, Done(s, pid), s.actors[p]);
    }
    forall id | HasTask(s, id) ensures RowTellsAt(cfg, Done(s, pid), id) {
      assert RowTellsAt(cfg, s, id);
    }
  }

  lemma TickTells(cfg: Config, s: State, to: int)
    requires Tells(cfg, s) && s.now <= to
    ensures Tells(cfg, s.(now := to))
  {
    hide RowTells;
    var s' := s.(now := to);
    forall p | p in s'.actors ensures ThreadTells(s', s'.actors[p]) { OtherThreadTells(s, s', s.actors[p]); }
    forall id | HasTask(s', id) ensures RowTellsAt(cfg, s', id) {
      assert RowTellsAt(cfg, s, id);
      LaterTells(cfg, s.tasks[id], s.attempts[id], s.stories[id], s.now, to);
    }
  }

  lemma CrashTells(cfg: Config, s: State, catalog: map<string, VerbEntry>)
    requires Inv(cfg, s) && Tells(cfg, s)
    ensures Tells(cfg, DoCrash(s, catalog))
  {
    hide Inv, RowTells;
    Tables(cfg, s);
    var s' := DoCrash(s, catalog);
    forall id | HasTask(s', id)
      ensures RowTellsAt(cfg, s', id) && (s'.tasks[id].state == Executing ==> s'.stories[id].crashes > 0)
    {
      assert HasTask(s, id) && RowTellsAt(cfg, s, id);
      CrashedTells(cfg, s.tasks[id], s.attempts[id], s.stories[id], s.now);
    }
  }

  lemma ResumeTells(cfg: Config, s: State, id: Id)
    requires Inv(cfg, s) && Tells(cfg, s) && s.booting && id in s.tasks && s.tasks[id].state == Executing
    ensures Tells(cfg, s.(tasks := s.tasks[id := Resumed(s.tasks[id], s.now)]))
  {
    hide Inv, RowTells;
    BootFacts(cfg, s, id);
    ResumedTells(cfg, s.tasks[id], s.attempts[id], s.stories[id], s.now);
    BootRowsTell(cfg, s, s.(tasks := s.tasks[id := Resumed(s.tasks[id], s.now)]), id);
  }

  lemma LeftoverTell(cfg: Config, s: State, id: Id)
    requires Inv(cfg, s) && Tells(cfg, s) && s.booting && LeftoverNext(s, id)
    ensures Tells(cfg, UpdateAndAudit(s, id, CanceledOnRestart(s.tasks[id], s.now), Lifecycle(Canceled), 0))
  {
    hide Inv, RowTells;
    BootFacts(cfg, s, id);
    LeftoverTells(cfg, s.tasks[id], s.attempts[id], s.stories[id], s.now);
    BootRowsTell(cfg, s, UpdateAndAudit(s, id, CanceledOnRestart(s.tasks[id], s.now), Lifecycle(Canceled), 0), id);
  }

  lemma BootRowsTell(cfg: Config, s: State, s': State, id: Id)
    requires Tells(cfg, s) && s.booting && s.actors == map[] && HasTask(s, id)
    requires s' == s.(tasks := s'.tasks, outbox := s'.outbox)
    requires id in s'.tasks && s'.tasks == s.tasks[id := s'.tasks[id]]
    requires RowTellsAt(cfg, s', id) && s'.tasks[id].state != Executing
    ensures Tells(cfg, s')
  {
    hide RowTells;
    forall j | HasTask(s', j)
      ensures RowTellsAt(cfg, s', j) && (s'.tasks[j].state == Executing ==> s'.stories[j].crashes > 0)
    {
      if j != id { assert HasTask(s, j) && RowTellsAt(cfg, s, j); }
    }
  }

  lemma BootDoneTells(cfg: Config, s: State)
    requires Tells(cfg, s) && s.actors == map[]
    ensures Tells(cfg, s.(booting := false))
  {
    hide RowTells;
    forall id | HasTask(s, id) ensures RowTellsAt(cfg, s.(booting := false), id) {
      assert RowTellsAt(cfg, s, id);
    }
  }

  lemma NoThreadsAtBoot(cfg: Config, s: State)
    requires Inv(cfg, s) && s.booting
    ensures s.actors == map[]
  {
    hide TaskOk, ActorOk, LatestLabel;
  }

  lemma StepTells(cfg: Config, s: State, step: Step)
    requires Inv(cfg, s) && Tells(cfg, s) && Enabled(cfg, s, step)
    ensures Tells(cfg, Do(cfg, s, step))
  {
    hide Inv, Tells, DoAct;
    match step
    case Tick(to) => TickTells(cfg, s, to);
    case Post(pid, verb, args, stdin, key) =>
      var v := s.catalog[verb];
      StartTells(cfg, s, pid, Finding(Request(verb, args, stdin, key, BudgetOf(cfg, v), v.trip)));
    case Poll(pid) => StartTells(cfg, s, pid, Selecting(s.now, 0));
    case Drain(pid, rows) => StartTells(cfg, s, pid, Draining(rows, false));
    case Abandon(pid) =>
      Mine(cfg, s, pid);
      AbandonTells(cfg, s, pid);
    case Act(pid, inp) => ActTells(cfg, s, pid, inp);
    case Crash(catalog) => CrashTells(cfg, s, catalog);
    case ResumeExecuting(id) => ResumeTells(cfg, s, id);
    case CancelLeftover(id) => LeftoverTell(cfg, s, id);
    case BootDone =>
      NoThreadsAtBoot(cfg, s);
      BootDoneTells(cfg, s);
  }

  lemma InitTells(cfg: Config, s: State)
    requires Init(cfg, s)
    ensures Tells(cfg, s)
  {
  }

  lemma {:induction false} RunTellsAll(cfg: Config, init: State, steps: seq<Step>)
    requires WellTimed(cfg) && Init(cfg, init) && Valid(cfg, init, steps)
    ensures Tells(cfg, After(cfg, init, steps))
  {
    hide Init, Inv, Tells, Do, Enabled;
    if steps == [] {
      InitTells(cfg, init);
    } else {
      var before := steps[..|steps| - 1];
      RunTellsAll(cfg, init, before);
      InitOk(cfg, init);
      RunKeeps(cfg, init, before);
      StepTells(cfg, After(cfg, init, before), steps[|steps| - 1]);
    }
  }

  lemma ReachableTells(cfg: Config, s: State)
    requires WellTimed(cfg) && Reachable(cfg, s)
    ensures Tells(cfg, s) && Inv(cfg, s)
  {
    hide Init, Inv, Tells;
    var init: State, steps: seq<Step> :| Init(cfg, init) && Valid(cfg, init, steps) && After(cfg, init, steps) == s;
    RunTellsAll(cfg, init, steps);
    ReachableOk(cfg, s);
  }

  // ---- what follows

  /** In every reachable state the row of a task made by a handler says, state by
      state, what became of it: its outcome is that of its last run, a retry waits
      the scheduled delay and under 250 ms of jitter, a task put back by its
      breaker waits a second, and one given up has reached the limit that counts
      for the path of its last run. */
  lemma RowsSayWhatHappened(cfg: Config, s: State, id: Id)
    requires WellTimed(cfg) && Reachable(cfg, s) && id in s.tasks
    ensures id in s.stories
    ensures s.stories[id].req.Some? ==> s.tasks[id].updatedAt <= s.now && RowSays(cfg, s.tasks[id], s.stories[id])
  {
    hide Reachable, Inv, TaskOk, LatestLabel, RowSays;
    ReachableTells(cfg, s);
    Tables(cfg, s);
    assert RowTellsAt(cfg, s, id);
  }

  /** Every attempt on record is a run that ended, with the run's own times and
      outcome; and unless a crash hit the task while it was executing, an executed
      task's attempt is on record as a success, and a waiting task's next attempt
      is not on record. */
  lemma RecordsAreRuns(cfg: Config, s: State, id: Id)
    requires WellTimed(cfg) && Reachable(cfg, s) && id in s.tasks
    ensures id in s.attempts && id in s.stories && LedgerTrue(s.attempts[id], s.stories[id].runs)
    ensures s.stories[id].crashes == 0 ==> RecordAgrees(s.tasks[id], s.attempts[id])
  {
    hide Reachable, Inv, TaskOk, LatestLabel, LedgerTrue, RowSays;
    ReachableTells(cfg, s);
    Tables(cfg, s);
    assert RowTellsAt(cfg, s, id);
  }

  /** What a failed run makes of its task: with the attempt number below the stored
      limit - or, on the worker path, below the daemon's when none is stored - the
      next attempt is scheduled, and otherwise the task is given up and its notice
      is due. */
  lemma FailureFollowsStoredLimit(cfg: Config, s: State, pid: Pid, x: Exec, end: int, out: Outcome, inp: Input)
    requires WellTimed(cfg) && Reachable(cfg, s) && pid in s.actors && s.actors[pid] == InRun(x, Judged(end, out))
    requires out != RunOk && ActEnabled(cfg, s, s.actors[pid], inp)
    ensures var t := s.tasks[x.id];
      var s' := DoAct(cfg, s, pid, s.actors[pid], inp);
      var limit := if t.maxRetries > 0 || x.inline then t.maxRetries else cfg.maxRetries;
      && x.id in s'.tasks && s'.tasks[x.id].lastOutcome == Some(out) && s'.tasks[x.id].error == inp.err
      && if t.attempt < limit
         then s'.tasks[x.id].state == RetryScheduled && s'.tasks[x.id].attempt == t.attempt + 1 && pid !in s'.actors
         else s'.tasks[x.id].state == Exhausted && s'.tasks[x.id].attempt == t.attempt
              && pid in s'.actors && s'.actors[pid] == Notifying(x.id)
  {
    hide Reachable, Inv, Tells, RowTells, DelayFor, ActFail;
    ReachableTells(cfg, s);
    RunFacts(cfg, s, pid, x, end, out);
    if x.n >= x.limit { FailGivesUp(cfg, s, pid, x, out, inp); } else { FailRetries(cfg, s, pid, x, out, inp); }
  }

  /** Taking a task up for a run changes its state and update time alone. */
  lemma LaunchKeepsRow(cfg: Config, s: State, pid: Pid, id: Id, snap: Task, at: int)
    requires id in s.tasks
    ensures ActLaunch(cfg, s, pid, id, snap, at).tasks
         == s.tasks[id := s.tasks[id].(state := Executing, updatedAt := s.now)]
    ensures ActLaunch(cfg, s, pid, id, snap, at).actors[pid].InRun?
    ensures ActLaunch(cfg, s, pid, id, snap, at).actors[pid].phase == Spawning(at)
  {
  }

  /** A run begins at the clock its worker read before marking the row, or, inline,
      at the clock after it. */
  lemma RunBegins(s: State, pid: Pid, x: Exec, start: int)
    requires HasTask(s, x.id)
    ensures var runs := ActSpawn(s, pid, x, start).stories[x.id].runs;
      && runs == s.stories[x.id].runs + [RunRecord(x.n, if x.inline then s.now else start, x.inline, None, None)]
      && ActSpawn(s, pid, x, start).actors == s.actors[pid := InRun(x, Running(runs[|runs| - 1].start))]
  {
  }
}
