/** Task records and the updates the daemon makes to them
    (internal/queue/task.go and the closures passed to Update). */
module Tasks {

  type Id = string

  const SECOND := 1_000_000_000

  datatype Option<+T> = None | Some(value: T)

  datatype Status =
    | Accepted | PendingApproval | Pending | Executing | Executed | Failed | TimedOut
    | Denied | Canceled | RetryScheduled | Exhausted

  datatype Outcome = RunOk | RunFailed | RunTimedOut

  /** Times are nanoseconds on one clock. */
  datatype Task = Task(verb: string, state: Status, attempt: nat, maxRetries: nat, nextRunAt: Option<int>,
                       lastOutcome: Option<Outcome>, error: string, createdAt: int, updatedAt: int)

  /** The state column of an audit row; two labels are not task states. */
  datatype Label = Lifecycle(state: Status) | CircuitOpen | WillRetry

  datatype Row = Row(id: Id, mark: Label, attempt: nat)

  predicate Active(st: Status) {
    st == Pending || st == RetryScheduled || st == PendingApproval || st == Executing || st == Accepted
  }

  predicate Terminal(st: Status) { !Active(st) }

  predicate TerminalLabel(l: Label) { l.Lifecycle? && Terminal(l.state) }

  function ActiveIds(tasks: map<Id, Task>): set<Id> {
    set id | id in tasks && Active(tasks[id].state)
  }

  function DepthOf(tasks: map<Id, Task>): nat { |ActiveIds(tasks)| }

  /** Ready to run, given the store's own test of next_run_at against the clock. */
  predicate Claimable(t: Task, due: (int, int) -> bool, at: int) {
    || t.state == Pending
    || (t.state == RetryScheduled && (t.nextRunAt == None || due(t.nextRunAt.value, at)))
  }

  function ByTime(next: int, at: int): bool { next <= at }

  function NewTask(verb: string, maxRetries: nat, now: int): Task {
    Task(verb, Accepted, 0, maxRetries, None, None, "", now, now)
  }

  function Claimed(t: Task, now: int): Task { t.(state := Executing, updatedAt := now) }

  function Touched(t: Task, now: int): Task { t.(updatedAt := now) }

  function HandedOff(t: Task, now: int): Task { t.(state := Pending, updatedAt := now) }

  function InlineStarted(t: Task, now: int): Task { t.(state := Executing, attempt := 0, updatedAt := now) }

  function Marked(t: Task, now: int): Task { t.(state := Executing, updatedAt := now) }

  const UNKNOWN_VERB := "unknown verb in catalog"

  function UnknownVerb(t: Task, now: int): Task {
    t.(state := Exhausted, error := UNKNOWN_VERB, lastOutcome := Some(RunFailed), updatedAt := now)
  }

  function Requeued(t: Task, next: int, now: int): Task {
    t.(state := RetryScheduled, nextRunAt := Some(next), error := "circuit_open", updatedAt := now)
  }

  function Finished(t: Task, now: int): Task {
    t.(state := Executed, lastOutcome := Some(RunOk), error := "", nextRunAt := None, updatedAt := now)
  }

  function GivenUp(t: Task, out: Outcome, err: string, now: int): Task {
    t.(state := Exhausted, lastOutcome := Some(out), error := err, nextRunAt := None, updatedAt := now)
  }

  function RetryLater(t: Task, n: nat, next: int, out: Outcome, err: string, now: int): Task {
    t.(state := RetryScheduled, lastOutcome := Some(out), error := err, attempt := n + 1,
       nextRunAt := Some(next), updatedAt := now)
  }

  function Superseded(t: Task, now: int): Task {
    t.(state := Canceled, error := "superseded by idempotent replay", updatedAt := now)
  }

  function Resumed(t: Task, now: int): Task {
    t.(state := Pending, error := "resumed after crash (was executing)", updatedAt := now)
  }

  function CanceledOnRestart(t: Task, now: int): Task
    requires t.state == Accepted || t.state == PendingApproval
  {
    t.(state := Canceled, updatedAt := now, error :=
       if t.state == Accepted then "canceled on restart: accept incomplete"
       else "canceled on restart: legacy pending_approval")
  }

  /** Of two updates of one row the second is what stays. */
  lemma Overwrites(tasks: map<Id, Task>, id: Id, a: Task, b: Task)
    ensures tasks[id := a][id := b] == tasks[id := b]
  {
  }

  /** Label of the latest audit row of a task. */
  function LatestLabel(rows: seq<Row>, id: Id): Option<Label> {
    if rows == [] then None
    else if rows[|rows| - 1].id == id then Some(rows[|rows| - 1].mark)
    else LatestLabel(rows[..|rows| - 1], id)
  }

  lemma LatestAfterAppend(rows: seq<Row>, row: Row)
    ensures forall id :: LatestLabel(rows + [row], id) ==
              if id == row.id then Some(row.mark) else LatestLabel(rows, id)
  {
    assert (rows + [row])[..|rows|] == rows;
  }

  lemma {:induction false} LatestIsARow(rows: seq<Row>, id: Id)
    ensures LatestLabel(rows, id).Some? ==>
      exists k :: 0 <= k < |rows| && rows[k].id == id && rows[k].mark == LatestLabel(rows, id).value &&
                  forall later :: k < later < |rows| ==> rows[later].id != id
    ensures LatestLabel(rows, id).None? ==> forall k :: 0 <= k < |rows| ==> rows[k].id != id
  {
    if rows != [] && rows[|rows| - 1].id != id {
      LatestIsARow(rows[..|rows| - 1], id);
    }
  }
}
