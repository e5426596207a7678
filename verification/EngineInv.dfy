/** The invariant of the daemon, told per task, per thread and per table, and the
    lemma that carries it over a step that works on one task. */
module EngineInv {
  import opened Tasks
  import opened Engine
  import Backoff

  /** The task a thread works on: nobody else may change it. */
  function Touch(a: Actor): Option<Id> {
    match a
    case Saving(_, id) => Some(id)
    case Refinding(_, id) => Some(id)
    case Canceling(_, id, _) => Some(id)
    case Replaying(_, id, _) => Some(id)
    case Accepting(_, id) => Some(id)
    case HandingOff(_, id) => Some(id)
    case ReadingBack(id) => Some(id)
    case Gating(id, _) => Some(id)
    case Refused(id, _) => Some(id)
    case Launching(id, _, _) => Some(id)
    case InRun(x, _) => Some(x.id)
    case Notifying(id) => Some(id)
    case _ => None
  }

  // ---- spacing of runs

  function Floor(cfg: Config, n: nat): nat { Backoff.DaemonDelayFloor(cfg.base, n) }

  /** A later attempt may start at `at` as far as run r is concerned. */
  predicate GapKept(cfg: Config, r: RunRecord, at: int) {
    r.end.Some? ==> at + cfg.early >= r.end.value + Floor(cfg, r.attempt)
  }

  ghost predicate FreeAt(cfg: Config, runs: seq<RunRecord>, n: nat, at: int) {
    forall i :: 0 <= i < |runs| && runs[i].attempt < n ==> GapKept(cfg, runs[i], at)
  }

  ghost predicate Spaced(cfg: Config, runs: seq<RunRecord>) {
    forall i, j :: 0 <= i < j < |runs| ==>
      && runs[i].attempt <= runs[j].attempt
      && (runs[i].attempt < runs[j].attempt ==> GapKept(cfg, runs[i], runs[j].start))
  }

  ghost predicate Past(runs: seq<RunRecord>, n: nat, now: int) {
    forall i :: 0 <= i < |runs| ==> runs[i].attempt <= n && (runs[i].end.Some? ==> runs[i].end.value <= now)
  }

  /** A retry_scheduled task will not be seen as due too early. */
  ghost predicate FreeAtOrNow(cfg: Config, runs: seq<RunRecord>, n: nat, next: int, now: int) {
    forall i :: 0 <= i < |runs| && runs[i].attempt < n ==>
      GapKept(cfg, runs[i], now) || (runs[i].end.Some? && next >= runs[i].end.value + Floor(cfg, runs[i].attempt))
  }

  // ---- tasks

  /** The task has gone past admission. */
  predicate Started(st: Status) { st != Accepted && st != PendingApproval && st != Canceled }

  ghost predicate AttemptsExact(attempts: map<nat, Attempt>, n: nat) {
    && (forall m :: m in attempts ==> m <= n)
    && (forall m: nat :: m < n ==> m in attempts)
  }

  /** Runs beyond the one the current attempt number allows come from crashes. */
  ghost predicate RunsCounted(t: Task, h: Story, inProgress: bool) {
    |h.runs| <= t.attempt + h.crashes + (if inProgress then 1 else 0)
  }

  ghost predicate TaskOk(cfg: Config, t: Task, attempts: map<nat, Attempt>, h: Story,
                         last: Option<Label>, now: int, booting: bool) {
    && t.state != Failed && t.state != TimedOut && t.state != Denied
    && t.attempt <= EffectiveMax(cfg, t)
    && AttemptsExact(attempts, t.attempt)
    && (t.state == Executed ==> t.attempt in attempts)
    && (t.state == Exhausted && t.error != UNKNOWN_VERB ==> t.attempt in attempts && LastAttempt(cfg, t))
    && RunsCounted(t, h, Terminal(t.state) || (t.state == Executing && !booting))
    && (!Started(t.state) ==> t.attempt == 0 && h.runs == [] && attempts == map[] && h.crashes == 0)
    && (h.req == None ==> !Started(t.state) && t.state != Accepted)
    && (h.req.Some? ==> t.verb == h.req.value.verb && t.maxRetries == h.req.value.budget)
    && h.notices <= 1 && (h.notices == 1 ==> t.state == Exhausted)
    && Spaced(cfg, h.runs) && Past(h.runs, t.attempt, now)
    && (t.state == Pending || t.state == Executing ==> FreeAt(cfg, h.runs, t.attempt, now))
    && (t.state == RetryScheduled ==>
          t.nextRunAt.Some? && FreeAtOrNow(cfg, h.runs, t.attempt, t.nextRunAt.value, now))
    && (Terminal(t.state) ==> last == Some(Lifecycle(t.state)))
  }

  /** Nothing is left of the retry budget. The inline path takes a stored 0
      literally; the worker path never does. */
  predicate LastAttempt(cfg: Config, t: Task) {
    t.attempt == EffectiveMax(cfg, t) || (t.maxRetries == 0 && t.attempt == 0)
  }

  ghost predicate TaskOkAt(cfg: Config, s: State, id: Id)
    requires HasTask(s, id)
  {
    TaskOk(cfg, s.tasks[id], s.attempts[id], s.stories[id], LatestLabel(s.outbox, id), s.now, s.booting)
  }

  // ---- threads

  predicate BoundTo(s: State, req: Request, id: Id) {
    req.key == "" || (req.key in s.bindings && s.bindings[req.key].taskId == id)
  }

  predicate BoundElsewhere(s: State, req: Request, id: Id) {
    req.key != "" && req.key in s.bindings && s.bindings[req.key].taskId != id
  }

  /** A task its handler has made and not yet let go. */
  predicate NewOf(s: State, req: Request, id: Id) {
    HasTask(s, id) && s.tasks[id].state == Accepted && s.stories[id].req == Some(req)
  }

  predicate Ours(s: State, id: Id) {
    && HasTask(s, id) && s.tasks[id].state == Executing
    && |s.stories[id].runs| <= s.tasks[id].attempt + s.stories[id].crashes
  }

  ghost predicate InRunOk(cfg: Config, s: State, x: Exec, ph: Phase) {
    && HasTask(s, x.id) && s.tasks[x.id].state == Executing && s.tasks[x.id].attempt == x.n
    && (if x.inline then x.n == 0 && x.limit == s.tasks[x.id].maxRetries
        else x.limit == EffectiveMax(cfg, s.tasks[x.id]))
    && var h := s.stories[x.id];
    match ph
    case Spawning(start) => |h.runs| <= x.n + h.crashes && start <= s.now && FreeAt(cfg, h.runs, x.n, start)
    case Running(start) => h.runs != [] && h.runs[|h.runs| - 1] == RunRecord(x.n, start, x.inline, None, None)
    case Ran(start, end, _) => Past(h.runs, x.n, end) && end <= s.now
    case Recorded(end, _) => x.n in s.attempts[x.id] && Past(h.runs, x.n, end) && end <= s.now
    case Judged(end, out) =>
      x.n in s.attempts[x.id] && Past(h.runs, x.n, end) && end <= s.now && !CommitsFirst(x, out)
  }

  ghost predicate ActorOk(cfg: Config, s: State, a: Actor) {
    match a
    case Saving(req, id) => NewOf(s, req, id) && forall k :: k in s.bindings ==> s.bindings[k].taskId != id
    case Refinding(req, id) => NewOf(s, req, id) && BoundElsewhere(s, req, id)
    case Canceling(req, id, win) =>
      NewOf(s, req, id) && BoundElsewhere(s, req, id) && win == s.bindings[req.key].taskId
    case Replaying(req, id, win) =>
      HasTask(s, id) && s.tasks[id].state == Canceled && BoundElsewhere(s, req, id) && win == s.bindings[req.key].taskId
    case Accepting(req, id) => NewOf(s, req, id) && BoundTo(s, req, id)
    case HandingOff(req, id) => NewOf(s, req, id) && BoundTo(s, req, id)
    case ReadingBack(id) => Ours(s, id)
    case Gating(id, snap) => Ours(s, id) && snap == s.tasks[id]
    case Refused(id, snap) => Ours(s, id) && snap == s.tasks[id]
    case Launching(id, snap, since) =>
      Ours(s, id) && snap == s.tasks[id] && since <= s.now && FreeAt(cfg, s.stories[id].runs, snap.attempt, since)
    case InRun(x, ph) => InRunOk(cfg, s, x, ph)
    case Notifying(id) => HasTask(s, id) && s.tasks[id].state == Exhausted && s.stories[id].notices == 0
    case Selecting(at, _) => at <= s.now
    case Claiming(_, at, _) => at <= s.now
    case Draining(batch, logged) =>
      && (forall i :: 0 <= i < |batch| ==> batch[i] < |s.outbox|)
      && (logged ==> batch != [] && batch[0] in s.log)
    case _ => true
  }

  // ---- tables

  ghost predicate BindingsOk(s: State) {
    forall k :: k in s.bindings ==>
      && k != ""
      && var b := s.bindings[k];
      && b.taskId in s.tasks && b.taskId in s.stories
      && s.stories[b.taskId].req.Some?
      && var r := s.stories[b.taskId].req.value;
      && r.key == k && r.verb == b.verb && HashOf(r) == b.hash
  }

  /** A started task that came with a key is the task the key is bound to. */
  ghost predicate StartedBound(s: State) {
    forall id :: id in s.tasks && id in s.stories && Started(s.tasks[id].state) && s.stories[id].req.Some? ==>
      BoundTo(s, s.stories[id].req.value, id)
  }

  /** A row that names a terminal state is about a task in that state. */
  ghost predicate RowsOk(s: State) {
    forall k :: 0 <= k < |s.outbox| ==>
      && s.outbox[k].id in s.tasks
      && (TerminalLabel(s.outbox[k].mark) ==> s.tasks[s.outbox[k].id].state == s.outbox[k].mark.state)
  }

  ghost predicate LogOk(s: State) {
    && (forall k :: k in s.written ==> k in s.log)
    && (forall k :: k in s.log ==> k < |s.outbox|)
  }

  ghost predicate ReplyOk(s: State, r: Reply) {
    match r
    case Conflict(req, id) =>
      && BoundTo(s, req, id) && req.key != "" && id in s.stories && s.stories[id].req.Some?
      && var r := s.stories[id].req.value;
      r.key == req.key && (r.verb != req.verb || HashOf(r) != HashOf(req))
    case Replay(req, id, onFind) =>
      && BoundTo(s, req, id) && req.key != "" && id in s.stories && s.stories[id].req.Some?
      && var r := s.stories[id].req.value;
      r.key == req.key && (onFind ==> r.verb == req.verb && HashOf(r) == HashOf(req))
    case Rejected(_, _) => true
  }

  ghost predicate RepliesOk(s: State) { forall i :: 0 <= i < |s.replies| ==> ReplyOk(s, s.replies[i]) }

  // ---- ownership

  ghost predicate OneOwner(s: State) {
    forall p, q :: p in s.actors && q in s.actors && p != q && Touch(s.actors[p]).Some? ==>
      Touch(s.actors[p]) != Touch(s.actors[q])
  }

  predicate NeedsOwner(st: Status) { st == Accepted || st == Executing }

  ghost predicate Owned(s: State) {
    forall id :: id in s.tasks && NeedsOwner(s.tasks[id].state) ==>
      exists p :: p in s.actors && Touch(s.actors[p]) == Some(id)
  }

  ghost predicate Phases(s: State) {
    if s.booting then s.actors == map[] else Owned(s) && NoTask(s, PendingApproval)
  }

  ghost predicate SameDomains(s: State) { s.attempts.Keys == s.tasks.Keys == s.stories.Keys }

  ghost predicate TasksOk(cfg: Config, s: State)
    requires SameDomains(s)
  {
    forall id :: id in s.tasks ==> TaskOkAt(cfg, s, id)
  }

  ghost predicate ActorsOk(cfg: Config, s: State) {
    forall p :: p in s.actors ==> ActorOk(cfg, s, s.actors[p])
  }

  ghost predicate Inv(cfg: Config, s: State) {
    && WellTimed(cfg)
    && SameDomains(s) && TasksOk(cfg, s) && ActorsOk(cfg, s)
    && BindingsOk(s) && StartedBound(s) && RowsOk(s) && LogOk(s) && RepliesOk(s)
    && OneOwner(s) && Phases(s)
    && DepthOf(s.tasks) <= cfg.maxDepth
  }

  // ---- one step on one task

  /** Nothing but task i, its rows and thread pid changes. */
  ghost predicate OnlyTask(s: State, s': State, i: Id) {
    && s'.now == s.now && s'.booting == s.booting && s'.log == s.log && s'.written == s.written
    && s.tasks.Keys <= s'.tasks.Keys <= s.tasks.Keys + {i}
    && (forall j :: j in s.tasks && j != i ==>
          s'.tasks[j] == s.tasks[j] && j in s.attempts && j in s'.attempts && s'.attempts[j] == s.attempts[j])
    && (forall j :: j in s.stories && j != i ==> j in s'.stories && s'.stories[j] == s.stories[j])
    && (i in s.stories ==> i in s'.stories && s'.stories[i].req == s.stories[i].req)
    && (forall k :: k in s.bindings ==> k in s'.bindings && s'.bindings[k] == s.bindings[k])
    && (forall k :: k in s'.bindings && k !in s.bindings ==> s'.bindings[k].taskId == i)
    && (s'.outbox == s.outbox || exists row: Row :: row.id == i && s'.outbox == s.outbox + [row])
  }

  lemma OthersKeepRows(s: State, s': State, i: Id)
    requires OnlyTask(s, s', i)
    ensures forall j :: j != i ==> LatestLabel(s'.outbox, j) == LatestLabel(s.outbox, j)
  {
    if s'.outbox != s.outbox {
      var row: Row :| row.id == i && s'.outbox == s.outbox + [row];
      LatestAfterAppend(s.outbox, row);
    }
  }

  lemma OtherTasksKeep(cfg: Config, s: State, s': State, i: Id)
    requires SameDomains(s) && SameDomains(s') && TasksOk(cfg, s) && OnlyTask(s, s', i)
    requires i in s'.tasks ==> TaskOkAt(cfg, s', i)
    ensures TasksOk(cfg, s')
  {
    hide TaskOk, LatestLabel, OnlyTask;
    forall j | j in s'.tasks ensures TaskOkAt(cfg, s', j) {
      if j != i { OtherTaskKeeps(cfg, s, s', i, j); }
    }
  }

  lemma OtherTaskKeeps(cfg: Config, s: State, s': State, i: Id, j: Id)
    requires SameDomains(s) && SameDomains(s') && TasksOk(cfg, s) && OnlyTask(s, s', i) && j in s'.tasks && j != i
    ensures TaskOkAt(cfg, s', j)
  {
    hide TaskOk, LatestLabel;
    OthersKeepRows(s, s', i);
    SameForOther(s, s', i, j);
    hide OnlyTask;
    assert TaskOkAt(cfg, s, j);
  }

  lemma SameForOther(s: State, s': State, i: Id, j: Id)
    requires SameDomains(s) && SameDomains(s') && OnlyTask(s, s', i) && j in s'.tasks && j != i
    ensures HasTask(s, j) && s'.now == s.now && s'.booting == s.booting
    ensures s'.tasks[j] == s.tasks[j] && s'.attempts[j] == s.attempts[j] && s'.stories[j] == s.stories[j]
  {
  }

  lemma OtherActorKeeps(cfg: Config, s: State, s': State, i: Id, a: Actor)
    requires SameDomains(s) && SameDomains(s') && OnlyTask(s, s', i)
    requires ActorOk(cfg, s, a) && Touch(a) != Some(i)
    ensures ActorOk(cfg, s', a)
  {
    hide FreeAt, Past, LatestLabel, InRunOk, OnlyTask, SameDomains;
    OthersSame(s, s', i, Touch(a));
    if a.InRun? {
      OtherRunKeeps(cfg, s, s', i, a.x, a.phase);
    }
  }

  lemma OthersSame(s: State, s': State, i: Id, other: Option<Id>)
    requires SameDomains(s) && OnlyTask(s, s', i) && other != Some(i)
    ensures s'.now == s.now && s'.log == s.log && |s.outbox| <= |s'.outbox|
    ensures other.Some? && HasTask(s, other.value) ==>
      && HasTask(s', other.value) && s'.tasks[other.value] == s.tasks[other.value]
      && s'.attempts[other.value] == s.attempts[other.value] && s'.stories[other.value] == s.stories[other.value]
    ensures forall k :: k in s.bindings ==> k in s'.bindings && s'.bindings[k] == s.bindings[k]
    ensures forall k :: k in s'.bindings && k !in s.bindings ==> s'.bindings[k].taskId == i
  {
  }

  lemma OtherRunKeeps(cfg: Config, s: State, s': State, i: Id, x: Exec, ph: Phase)
    requires SameDomains(s) && SameDomains(s') && OnlyTask(s, s', i)
    requires InRunOk(cfg, s, x, ph) && x.id != i
    ensures InRunOk(cfg, s', x, ph)
  {
    hide FreeAt, Past, LatestLabel, OnlyTask;
    OthersSame(s, s', i, Some(x.id));
  }

  ghost predicate ThreadMoves(s: State, s': State, pid: Pid, a: Option<Actor>) {
    s'.actors == (if a.Some? then s.actors[pid := a.value] else s.actors - {pid})
  }

  /** What has to be shown of a step that works on task i. */
  ghost predicate GoodFor(cfg: Config, s: State, s': State, i: Id)
    requires SameDomains(s')
  {
    && i in s'.tasks && TaskOkAt(cfg, s', i) && s'.tasks[i].state != PendingApproval
    && (i in s.tasks ==> (Terminal(s.tasks[i].state) ==> s'.tasks[i].state == s.tasks[i].state))
    && (i !in s.tasks ==> DepthOf(s.tasks) < cfg.maxDepth)
    && (forall row :: s'.outbox == s.outbox + [row] && TerminalLabel(row.mark) ==> s'.tasks[i].state == row.mark.state)
    && (Started(s'.tasks[i].state) && s'.stories[i].req.Some? ==> BoundTo(s', s'.stories[i].req.value, i))
  }

  lemma DepthKept(s: State, s': State, i: Id, maxDepth: nat)
    requires OnlyTask(s, s', i) && i in s'.tasks && DepthOf(s.tasks) <= maxDepth
    requires i in s.tasks ==> (Terminal(s.tasks[i].state) ==> s'.tasks[i].state == s.tasks[i].state)
    requires i !in s.tasks ==> DepthOf(s.tasks) < maxDepth
    ensures DepthOf(s'.tasks) <= maxDepth
  {
    hide LatestLabel;
    OneMoreActive(s.tasks, s'.tasks, i);
  }

  lemma OneMoreActive(tasks: map<Id, Task>, tasks': map<Id, Task>, i: Id)
    requires i in tasks' && tasks'.Keys <= tasks.Keys + {i}
    requires forall j :: j in tasks && j != i ==> j in tasks' && tasks'[j] == tasks[j]
    requires i in tasks ==> (Terminal(tasks[i].state) ==> Terminal(tasks'[i].state))
    ensures DepthOf(tasks') <= DepthOf(tasks) + (if i in tasks then 0 else 1)
  {
    var more: set<Id> := if i in tasks then {} else {i};
    forall j | j in ActiveIds(tasks') ensures j in ActiveIds(tasks) + more {
      if j != i { assert j in tasks && tasks'[j] == tasks[j]; }
    }
    SubsetSize(ActiveIds(tasks'), ActiveIds(tasks) + more);
  }

  lemma {:induction false} SubsetSize<T>(a: set<T>, b: set<T>)
    requires a <= b
    ensures |a| <= |b|
  {
    if a != {} {
      var x :| x in a;
      SubsetSize(a - {x}, b - {x});
    }
  }

  lemma RowsKept(cfg: Config, s: State, s': State, i: Id)
    requires SameDomains(s') && RowsOk(s) && OnlyTask(s, s', i) && GoodFor(cfg, s, s', i)
    ensures RowsOk(s')
  {
    hide TaskOk, BoundTo, LatestLabel;
    forall k | 0 <= k < |s'.outbox|
      ensures s'.outbox[k].id in s'.tasks
      ensures TerminalLabel(s'.outbox[k].mark) ==> s'.tasks[s'.outbox[k].id].state == s'.outbox[k].mark.state
    {
      if k < |s.outbox| {
        assert s'.outbox[k] == s.outbox[k];
      } else {
        var row: Row :| row.id == i && s'.outbox == s.outbox + [row];
      }
    }
  }

  lemma StartedBoundKept(cfg: Config, s: State, s': State, i: Id)
    requires SameDomains(s) && SameDomains(s') && StartedBound(s) && OnlyTask(s, s', i) && GoodFor(cfg, s, s', i)
    ensures StartedBound(s')
  {
    hide TaskOk, LatestLabel;
  }

  lemma LogAndRepliesKept(s: State, s': State, i: Id)
    requires SameDomains(s) && LogOk(s) && RepliesOk(s) && OnlyTask(s, s', i) && s'.replies == s.replies
    ensures LogOk(s') && RepliesOk(s')
  {
    forall r | 0 <= r < |s'.replies| ensures ReplyOk(s', s'.replies[r]) {
      assert ReplyOk(s, s.replies[r]);
    }
  }

  lemma OwnersKept(s: State, s': State, pid: Pid, i: Id, a: Option<Actor>)
    requires SameDomains(s) && OnlyTask(s, s', i) && ThreadMoves(s, s', pid, a)
    requires OneOwner(s) && Owned(s)
    requires pid in s.actors ==> Touch(s.actors[pid]) == None || Touch(s.actors[pid]) == Some(i)
    requires forall q :: q in s.actors && q != pid ==> Touch(s.actors[q]) != Some(i)
    requires a.Some? ==> Touch(a.value) == None || Touch(a.value) == Some(i)
    requires (a == None || Touch(a.value) == None) && i in s'.tasks ==> !NeedsOwner(s'.tasks[i].state)
    ensures OneOwner(s') && Owned(s')
  {
    hide OnlyTask, OneOwner, Owned;
    StillOneOwner(s, s', pid, i, a);
    StillOwned(s, s', pid, i, a);
  }

  lemma StillOneOwner(s: State, s': State, pid: Pid, i: Id, a: Option<Actor>)
    requires ThreadMoves(s, s', pid, a) && OneOwner(s)
    requires forall q :: q in s.actors && q != pid ==> Touch(s.actors[q]) != Some(i)
    requires a.Some? ==> Touch(a.value) == None || Touch(a.value) == Some(i)
    ensures OneOwner(s')
  {
    hide Touch;
  }

  lemma StillOwned(s: State, s': State, pid: Pid, i: Id, a: Option<Actor>)
    requires SameDomains(s) && OnlyTask(s, s', i) && ThreadMoves(s, s', pid, a) && Owned(s)
    requires pid in s.actors ==> Touch(s.actors[pid]) == None || Touch(s.actors[pid]) == Some(i)
    requires a.Some? ==> Touch(a.value) == None || Touch(a.value) == Some(i)
    requires (a == None || Touch(a.value) == None) && i in s'.tasks ==> !NeedsOwner(s'.tasks[i].state)
    ensures Owned(s')
  {
    hide LatestLabel, Touch, OnlyTask;
    forall id | id in s'.tasks && NeedsOwner(s'.tasks[id].state)
      ensures exists p :: p in s'.actors && Touch(s'.actors[p]) == Some(id)
    {
      if id == i {
        assert pid in s'.actors;
      } else {
        WasThere(s, s', i, id);
        var p :| p in s.actors && Touch(s.actors[p]) == Some(id);
        assert p in s'.actors;
      }
    }
  }

  lemma WasThere(s: State, s': State, i: Id, j: Id)
    requires OnlyTask(s, s', i) && j in s'.tasks && j != i
    ensures j in s.tasks && s'.tasks[j] == s.tasks[j]
  {
  }

  /** The step lemma: a thread that works on task i alone, and leaves task and
      thread in order, leaves the whole daemon in order. */
  lemma TaskStep(cfg: Config, s: State, s': State, pid: Pid, i: Id, a: Option<Actor>)
    requires Inv(cfg, s) && !s.booting && SameDomains(s')
    requires OnlyTask(s, s', i) && ThreadMoves(s, s', pid, a) && GoodFor(cfg, s, s', i)
    requires BindingsOk(s') && s'.replies == s.replies
    requires pid in s.actors ==> Touch(s.actors[pid]) == None || Touch(s.actors[pid]) == Some(i)
    requires forall q :: q in s.actors && q != pid ==> Touch(s.actors[q]) != Some(i)
    requires a.Some? ==> ActorOk(cfg, s', a.value) && (Touch(a.value) == None || Touch(a.value) == Some(i))
    requires a == None || Touch(a.value) == None ==> !NeedsOwner(s'.tasks[i].state)
    ensures Inv(cfg, s')
  {
    hide TaskOk, ActorOk, OneOwner, Owned, RepliesOk, RowsOk, LogOk, StartedBound, BindingsOk, DepthOf, LatestLabel,
         OnlyTask, GoodFor, NoTask, TasksOk;
    GoodIsOk(cfg, s, s', i);
    OtherTasksKeep(cfg, s, s', i);
    forall p | p in s'.actors ensures ActorOk(cfg, s', s'.actors[p]) {
      if p != pid { OtherActorKeeps(cfg, s, s', i, s.actors[p]); }
    }
    NonePending(cfg, s, s', i);
    RowsKept(cfg, s, s', i);
    StartedBoundKept(cfg, s, s', i);
    LogAndRepliesKept(s, s', i);
    OwnersKept(s, s', pid, i, a);
    DepthKept(s, s', i, cfg.maxDepth);
  }

  lemma GoodIsOk(cfg: Config, s: State, s': State, i: Id)
    requires SameDomains(s') && OnlyTask(s, s', i) && GoodFor(cfg, s, s', i)
    ensures i in s'.tasks && TaskOkAt(cfg, s', i) && s'.booting == s.booting
    ensures i in s.tasks ==> (Terminal(s.tasks[i].state) ==> s'.tasks[i].state == s.tasks[i].state)
    ensures i !in s.tasks ==> DepthOf(s.tasks) < cfg.maxDepth
  {
    hide TaskOk, LatestLabel, DepthOf;
  }

  lemma NonePending(cfg: Config, s: State, s': State, i: Id)
    requires SameDomains(s') && OnlyTask(s, s', i) && GoodFor(cfg, s, s', i) && NoTask(s, PendingApproval)
    ensures NoTask(s', PendingApproval)
  {
    hide TaskOk, LatestLabel, DepthOf;
  }

  // ---- one step on no task

  /** The tables of tasks stay as they are. */
  ghost predicate NoTaskTouched(s: State, s': State) {
    && s'.now == s.now && s'.booting == s.booting
    && s'.tasks == s.tasks && s'.attempts == s.attempts && s'.stories == s.stories
    && s'.bindings == s.bindings && s'.outbox == s.outbox
    && s.log <= s'.log
  }

  lemma QuietStep(cfg: Config, s: State, s': State, pid: Pid, a: Option<Actor>)
    requires Inv(cfg, s) && !s.booting && NoTaskTouched(s, s') && ThreadMoves(s, s', pid, a)
    requires LogOk(s') && RepliesOk(s')
    requires a.Some? ==> ActorOk(cfg, s', a.value)
    requires a.Some? && Touch(a.value).Some? ==> pid in s.actors && Touch(s.actors[pid]) == Touch(a.value)
    requires (a == None || Touch(a.value) == None) && pid in s.actors ==>
      match Touch(s.actors[pid])
      case None => true
      case Some(i) => i in s.tasks && !NeedsOwner(s.tasks[i].state)
    ensures Inv(cfg, s')
  {
    hide TaskOk, ActorOk, OneOwner, Owned, RepliesOk, LogOk, DepthOf, LatestLabel;
    forall p | p in s'.actors ensures ActorOk(cfg, s', s'.actors[p]) {
      if p != pid { QuietForOthers(cfg, s, s', s.actors[p]); }
    }
    QuietOwners(s, s', pid, a);
    forall id | id in s'.tasks ensures TaskOkAt(cfg, s', id) {
      assert TaskOkAt(cfg, s, id);
    }
  }

  lemma QuietOwners(s: State, s': State, pid: Pid, a: Option<Actor>)
    requires NoTaskTouched(s, s') && ThreadMoves(s, s', pid, a) && OneOwner(s) && Owned(s)
    requires a.Some? && Touch(a.value).Some? ==> pid in s.actors && Touch(s.actors[pid]) == Touch(a.value)
    requires (a == None || Touch(a.value) == None) && pid in s.actors ==>
      match Touch(s.actors[pid])
      case None => true
      case Some(i) => i in s.tasks && !NeedsOwner(s.tasks[i].state)
    ensures OneOwner(s') && Owned(s')
  {
    forall id | id in s'.tasks && NeedsOwner(s'.tasks[id].state)
      ensures exists p :: p in s'.actors && Touch(s'.actors[p]) == Some(id)
    {
      var p :| p in s.actors && Touch(s.actors[p]) == Some(id);
      assert p in s'.actors && Touch(s'.actors[p]) == Some(id);
    }
  }

  lemma QuietForOthers(cfg: Config, s: State, s': State, a: Actor)
    requires NoTaskTouched(s, s') && ActorOk(cfg, s, a)
    ensures ActorOk(cfg, s', a)
  {
  }

  /** One more reply leaves the earlier ones in order. */
  lemma ReplyAdded(s: State, s': State, r: Reply)
    requires RepliesOk(s) && s'.stories == s.stories && s'.bindings == s.bindings
    requires s'.replies == s.replies + [r] && ReplyOk(s', r)
    ensures RepliesOk(s')
  {
    forall i | 0 <= i < |s'.replies| ensures ReplyOk(s', s'.replies[i]) {
      if i < |s.replies| { assert ReplyOk(s, s.replies[i]); }
    }
  }
}
