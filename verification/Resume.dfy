/** The resume after a crash (internal/queue/resume.go): loops over the store,
    task by task, and counts. */
module Resume {
  import opened Tasks
  import opened Memory

  datatype ResumeStats = ResumeStats(executingToPending: nat, pendingKept: nat, retryDue: nat, retryFuture: nat)

  /** What the resume makes of one task. */
  function AfterResume(t: Task, clock: int): Task {
    if t.state == Executing then Resumed(t, clock)
    else if t.state == Accepted || t.state == PendingApproval then CanceledOnRestart(t, clock)
    else t
  }

  function AllResumed(tasks: map<Id, Task>, clock: int): map<Id, Task> {
    map id | id in tasks :: AfterResume(tasks[id], clock)
  }

  function InState(tasks: map<Id, Task>, st: Status): set<Id> { set id | id in tasks && tasks[id].state == st }

  function RetriesDue(tasks: map<Id, Task>, now: int): set<Id> {
    set id | id in tasks && tasks[id].state == RetryScheduled && Claimable(tasks[id], ByTime, now)
  }

  /** Tasks in state st become what f makes of them, the others stay. */
  function Mapped(tasks: map<Id, Task>, st: Status, f: Task -> Task): map<Id, Task> {
    map id | id in tasks :: if tasks[id].state == st then f(tasks[id]) else tasks[id]
  }

  lemma ListingSize(tasks: map<Id, Task>, st: Status, ids: seq<Id>)
    requires Listing(tasks, st, ids)
    ensures |ids| == |InState(tasks, st)|
  {
    SortedIsDistinct(tasks, ids);
    DistinctSize(ids);
    assert InState(tasks, st) == set x | x in ids;
  }

  lemma {:induction false} DistinctSize(ids: seq<Id>)
    requires forall i, j :: 0 <= i < j < |ids| ==> ids[i] != ids[j]
    ensures |set x | x in ids| == |ids|
  {
    if ids != [] {
      var before := ids[..|ids| - 1];
      DistinctSize(before);
      assert (set x | x in ids) == (set x | x in before) + {ids[|ids| - 1]};
    }
  }

  /** The tasks named in ids become what f makes of them. */
  function MapOn(tasks: map<Id, Task>, ids: seq<Id>, f: Task -> Task): map<Id, Task> {
    map id | id in tasks :: if id in ids then f(tasks[id]) else tasks[id]
  }

  lemma OneMore(tasks: map<Id, Task>, ids: seq<Id>, i: nat, f: Task -> Task)
    requires i < |ids| && ids[i] in tasks && ids[i] !in ids[..i]
    ensures MapOn(tasks, ids[..i + 1], f) == MapOn(tasks, ids[..i], f)[ids[i] := f(tasks[ids[i]])]
    ensures ids[i] in MapOn(tasks, ids[..i], f) && MapOn(tasks, ids[..i], f)[ids[i]] == tasks[ids[i]]
    ensures CancelRows(ids[..i + 1]) == CancelRows(ids[..i]) + [Row(ids[i], Lifecycle(Canceled), 0)]
  {
    assert ids[..i + 1] == ids[..i] + [ids[i]];
  }

  /** A listing names each task of the state once. */
  lemma EachOnce(tasks: map<Id, Task>, st: Status, ids: seq<Id>, f: Task -> Task)
    requires Listing(tasks, st, ids)
    ensures forall i :: 0 <= i < |ids| ==> ids[i] in tasks && ids[i] !in ids[..i]
    ensures MapOn(tasks, ids[..0], f) == tasks && MapOn(tasks, ids, f) == Mapped(tasks, st, f)
    ensures CancelRows(ids[..0]) == []
  {
    SortedIsDistinct(tasks, ids);
  }

  /** One loop of the resume: every listed task is updated, in order, and if
      audited leaves one row. */
  method UpdateEach(store: Memory, st: Status, ids: seq<Id>, f: Task -> Task, audited: bool, clock: int)
    requires Listing(store.tasks, st, ids)
    requires forall t: Task :: f(t).updatedAt == clock
    modifies store`tasks, store`audit
    ensures store.tasks == Mapped(old(store.tasks), st, f)
    ensures store.audit == old(store.audit) + (if audited then CancelRows(ids) else [])
  {
    hide MapOn, CancelRows, Listing, Mapped;
    ghost var was := store.tasks;
    EachOnce(was, st, ids, f);
    for i := 0 to |ids|
      invariant store.tasks == MapOn(was, ids[..i], f)
      invariant store.audit == old(store.audit) + (if audited then CancelRows(ids[..i]) else [])
    {
      OneMore(was, ids, i, f);
      if audited {
        var ok := store.UpdateAndAudit(ids[i], f, Lifecycle(Canceled), 0, clock);
      } else {
        var ok := store.Update(ids[i], f, clock);
      }
    }
    assert ids[..|ids|] == ids;
  }

  function CancelRows(ids: seq<Id>): (rows: seq<Row>)
    ensures |rows| == |ids| && forall i :: 0 <= i < |ids| ==> rows[i] == Row(ids[i], Lifecycle(Canceled), 0)
  {
    seq(|ids|, i requires 0 <= i < |ids| => Row(ids[i], Lifecycle(Canceled), 0))
  }

  function Cancel(t: Task, clock: int): Task {
    if t.state == Accepted || t.state == PendingApproval then CanceledOnRestart(t, clock) else t.(updatedAt := clock)
  }

  /** Requeues what was executing, counts what can run, cancels what was never
      admitted, with one audit row for each task canceled and no other. */
  method Resume(store: Memory, now: int, clock: int) returns (st: ResumeStats)
    modifies store`tasks, store`audit
    ensures store.tasks == AllResumed(old(store.tasks), clock)
    ensures st.executingToPending == |InState(old(store.tasks), Executing)|
    ensures st.pendingKept == |InState(store.tasks, Pending)|
    ensures st.retryDue == |RetriesDue(store.tasks, now)|
    ensures st.retryFuture == |InState(store.tasks, RetryScheduled)| - st.retryDue
    ensures exists accepted, legacy ::
      && Listing(old(store.tasks), Accepted, accepted) && Listing(old(store.tasks), PendingApproval, legacy)
      && store.audit == old(store.audit) + CancelRows(accepted) + CancelRows(legacy)
  {
    hide Listing, Mapped, InState, RetriesDue, AllResumed, CancelRows;
    ghost var t0 := store.tasks;
    var executing := store.List(Some(Executing));
    ListingSize(t0, Executing, executing);
    UpdateEach(store, Executing, executing, (t: Task) => Resumed(t, clock), false, clock);
    ghost var t1 := store.tasks;

    var pending := store.List(Some(Pending));
    ListingSize(t1, Pending, pending);
    var due, future := CountRetries(store, now);
    st := ResumeStats(|executing|, |pending|, due, future);

    var accepted := store.List(Some(Accepted));
    UpdateEach(store, Accepted, accepted, (t: Task) => Cancel(t, clock), true, clock);
    ghost var t2 := store.tasks;

    var legacy := store.List(Some(PendingApproval));
    UpdateEach(store, PendingApproval, legacy, (t: Task) => Cancel(t, clock), true, clock);

    ThreeLoops(t0, clock);
    CountsStand(t0, clock, now);
    ListingsAgree(t0, clock, accepted, legacy);
  }

  function Loop1(t0: map<Id, Task>, clock: int): map<Id, Task> { Mapped(t0, Executing, (t: Task) => Resumed(t, clock)) }

  function Loop2(t0: map<Id, Task>, clock: int): map<Id, Task> {
    Mapped(Loop1(t0, clock), Accepted, (t: Task) => Cancel(t, clock))
  }

  function Loop3(t0: map<Id, Task>, clock: int): map<Id, Task> {
    Mapped(Loop2(t0, clock), PendingApproval, (t: Task) => Cancel(t, clock))
  }

  /** The three loops together are the resume. */
  lemma ThreeLoops(t0: map<Id, Task>, clock: int)
    ensures Loop3(t0, clock) == AllResumed(t0, clock)
  {
    forall id | id in t0 ensures Loop3(t0, clock)[id] == AfterResume(t0[id], clock) {
    }
  }

  /** The canceling loops do not disturb what was counted before them. */
  lemma CountsStand(t0: map<Id, Task>, clock: int, now: int)
    ensures var t1, t3 := Loop1(t0, clock), AllResumed(t0, clock);
      && InState(t3, Pending) == InState(t1, Pending)
      && RetriesDue(t3, now) == RetriesDue(t1, now)
      && InState(t3, RetryScheduled) == InState(t1, RetryScheduled)
  {
    LoopsCancelOnly(t0, clock);
    hide Loop1, AllResumed;
    SameCounts(Loop1(t0, clock), AllResumed(t0, clock), now);
  }

  /** From the first map to the second, tasks are canceled and nothing else. */
  ghost predicate CancelsOnly(t1: map<Id, Task>, t3: map<Id, Task>) {
    && t1.Keys == t3.Keys
    && forall id :: id in t1 && t3[id] != t1[id] ==>
        t3[id].state == Canceled && (t1[id].state == Accepted || t1[id].state == PendingApproval)
  }

  lemma LoopsCancelOnly(t0: map<Id, Task>, clock: int)
    ensures CancelsOnly(Loop1(t0, clock), AllResumed(t0, clock))
  {
  }

  lemma SameCounts(t1: map<Id, Task>, t3: map<Id, Task>, now: int)
    requires CancelsOnly(t1, t3)
    ensures InState(t3, Pending) == InState(t1, Pending)
    ensures RetriesDue(t3, now) == RetriesDue(t1, now)
    ensures InState(t3, RetryScheduled) == InState(t1, RetryScheduled)
  {
    forall id ensures id in RetriesDue(t3, now) <==> id in RetriesDue(t1, now) {
      if id in t1 && t3[id] != t1[id] { assert !Claimable(t3[id], ByTime, now); }
    }
  }

  lemma ListingsAgree(t0: map<Id, Task>, clock: int, accepted: seq<Id>, legacy: seq<Id>)
    requires Listing(Loop1(t0, clock), Accepted, accepted) && Listing(Loop2(t0, clock), PendingApproval, legacy)
    ensures Listing(t0, Accepted, accepted) && Listing(t0, PendingApproval, legacy)
  {
    SameListing(t0, Loop1(t0, clock), Accepted, accepted);
    SameListing(t0, Loop2(t0, clock), PendingApproval, legacy);
  }

  lemma SameListing(t0: map<Id, Task>, t1: map<Id, Task>, st: Status, ids: seq<Id>)
    requires t0.Keys == t1.Keys && Listing(t1, st, ids)
    requires forall id :: id in t0 ==> t0[id].createdAt == t1[id].createdAt
    requires forall id :: id in t0 ==> (t0[id].state == st <==> t1[id].state == st)
    ensures Listing(t0, st, ids)
  {
    forall i, j | 0 <= i < j < |ids| ensures Earlier(t0, ids[i], ids[j]) {
      assert Earlier(t1, ids[i], ids[j]);
    }
  }

  function DueAmong(tasks: map<Id, Task>, ids: seq<Id>, now: int): set<Id> {
    set id | id in ids && id in tasks && Claimable(tasks[id], ByTime, now)
  }

  lemma DueAmongOneMore(tasks: map<Id, Task>, ids: seq<Id>, i: nat, now: int)
    requires i < |ids| && ids[i] in tasks && ids[i] !in ids[..i]
    ensures |DueAmong(tasks, ids[..i + 1], now)|
         == |DueAmong(tasks, ids[..i], now)| + (if Claimable(tasks[ids[i]], ByTime, now) then 1 else 0)
  {
    assert ids[..i + 1] == ids[..i] + [ids[i]];
    if Claimable(tasks[ids[i]], ByTime, now) {
      assert DueAmong(tasks, ids[..i + 1], now) == DueAmong(tasks, ids[..i], now) + {ids[i]};
    } else {
      assert DueAmong(tasks, ids[..i + 1], now) == DueAmong(tasks, ids[..i], now);
    }
  }

  method CountRetries(store: Memory, now: int) returns (due: nat, future: nat)
    ensures due == |RetriesDue(store.tasks, now)|
    ensures future == |InState(store.tasks, RetryScheduled)| - due
  {
    var ids := store.List(Some(RetryScheduled));
    ghost var tasks := store.tasks;
    SortedIsDistinct(tasks, ids);
    ListingSize(tasks, RetryScheduled, ids);
    assert RetriesDue(tasks, now) == DueAmong(tasks, ids, now);
    due, future := 0, 0;
    for i := 0 to |ids|
      invariant due == |DueAmong(tasks, ids[..i], now)|
      invariant due + future == i
    {
      var t := store.tasks[ids[i]];
      assert ids[i] in ids && ids[i] !in ids[..i];
      DueAmongOneMore(tasks, ids, i, now);
      hide DueAmong;
      if t.nextRunAt == None || t.nextRunAt.value <= now {
        due := due + 1;
      } else {
        future := future + 1;
      }
    }
    assert ids[..|ids|] == ids;
  }

  /** Afterwards nothing is executing or half-admitted, nothing is newly executed,
      and no task's identity, attempt number, retry time or outcome changes. */
  lemma ResumeIsSafe(tasks: map<Id, Task>, clock: int, id: Id)
    requires id in tasks
    ensures var t, t' := tasks[id], AllResumed(tasks, clock)[id];
      && t'.state != Executing && t'.state != Accepted && t'.state != PendingApproval
      && (t'.state == Executed <==> t.state == Executed)
      && (Terminal(t.state) ==> t' == t)
      && t'.verb == t.verb && t'.attempt == t.attempt && t'.maxRetries == t.maxRetries
      && t'.nextRunAt == t.nextRunAt && t'.lastOutcome == t.lastOutcome && t'.createdAt == t.createdAt
  {
  }

  /** State by state, in figures: what was executing is pending again and says so,
      what was never admitted is canceled and says why, all else stays. */
  lemma ResumeByState(tasks: map<Id, Task>, clock: int, id: Id)
    requires id in tasks
    ensures var t, t' := tasks[id], AllResumed(tasks, clock)[id];
      && AllResumed(tasks, clock).Keys == tasks.Keys
      && match t.state
         case Executing =>
           t'.state == Pending && t'.error == "resumed after crash (was executing)" && t'.updatedAt == clock
         case Accepted =>
           t'.state == Canceled && t'.error == "canceled on restart: accept incomplete" && t'.updatedAt == clock
         case PendingApproval =>
           t'.state == Canceled && t'.error == "canceled on restart: legacy pending_approval" && t'.updatedAt == clock
         case _ => t' == t
  {
  }

  /** A scheduled retry counts as due when it has no time or its time has come. */
  lemma DueAtResume(tasks: map<Id, Task>, now: int, id: Id)
    ensures id in RetriesDue(tasks, now) <==>
      && id in tasks && tasks[id].state == RetryScheduled
      && (tasks[id].nextRunAt.Some? ==> tasks[id].nextRunAt.value <= now)
  {
  }

  /** What the resume counts as able to run is the whole queue. */
  lemma StatsCoverTheQueue(tasks: map<Id, Task>, clock: int)
    ensures var after := AllResumed(tasks, clock);
      |InState(after, Pending)| + |InState(after, RetryScheduled)| == DepthOf(after)
  {
    var after := AllResumed(tasks, clock);
    assert ActiveIds(after) == InState(after, Pending) + InState(after, RetryScheduled);
    assert InState(after, Pending) !! InState(after, RetryScheduled);
  }

  /** A second resume finds nothing to do. */
  lemma ResumeIsIdempotent(tasks: map<Id, Task>, clock: int, later: int)
    ensures var after := AllResumed(tasks, clock);
      && AllResumed(after, later) == after
      && InState(after, Executing) == {} && InState(after, Accepted) == {} && InState(after, PendingApproval) == {}
  {
    var after := AllResumed(tasks, clock);
    forall id | id in after ensures AfterResume(after[id], later) == after[id] {
      ResumeIsSafe(tasks, clock, id);
    }
  }
}

/** The resume of the state machine, interrupted by crashes or not, ends where
    the method ends. */
module ResumeRefinement {
  import opened Tasks
  import opened Engine
  import opened Resume

  /** Steps of a process that is still booting, and crashes of it. */
  predicate BootStep(step: Step) {
    step.Tick? || step.Crash? || step.ResumeExecuting? || step.CancelLeftover?
  }

  /** Equal up to the time of the last update. */
  predicate SameButClock(a: Task, b: Task) { a.(updatedAt := 0) == b.(updatedAt := 0) }

  ghost predicate Converges(tasks: map<Id, Task>, final: map<Id, Task>) {
    && tasks.Keys == final.Keys
    && forall id :: id in tasks ==> SameButClock(AfterResume(tasks[id], 0), final[id])
  }

  lemma BootStepConverges(cfg: Config, s: State, step: Step, final: map<Id, Task>)
    requires s.booting && Enabled(cfg, s, step) && BootStep(step) && Converges(s.tasks, final)
    ensures Converges(Do(cfg, s, step).tasks, final) && Do(cfg, s, step).booting
  {
    hide DoAct, LatestLabel, Converges;
    match step
    case ResumeExecuting(id) => ResumedConverges(s, final, id);
    case CancelLeftover(id) => CanceledConverges(s, final, id);
    case _ =>
  }

  lemma ResumedConverges(s: State, final: map<Id, Task>, id: Id)
    requires Converges(s.tasks, final) && id in s.tasks && s.tasks[id].state == Executing
    ensures Converges(s.tasks[id := Resumed(s.tasks[id], s.now)], final)
  {
    hide Converges;
    RowConverges(s.tasks, final, id, Resumed(s.tasks[id], s.now));
  }

  lemma CanceledConverges(s: State, final: map<Id, Task>, id: Id)
    requires Converges(s.tasks, final) && id in s.tasks
    requires s.tasks[id].state == Accepted || s.tasks[id].state == PendingApproval
    ensures Converges(s.tasks[id := CanceledOnRestart(s.tasks[id], s.now)], final)
  {
    hide Converges;
    RowConverges(s.tasks, final, id, CanceledOnRestart(s.tasks[id], s.now));
  }

  lemma RowConverges(tasks: map<Id, Task>, final: map<Id, Task>, id: Id, t: Task)
    requires Converges(tasks, final) && id in tasks && SameButClock(AfterResume(t, 0), AfterResume(tasks[id], 0))
    ensures Converges(tasks[id := t], final)
  {
  }

  lemma {:induction false} BootConverges(cfg: Config, s: State, steps: seq<Step>)
    requires s.booting && Valid(cfg, s, steps) && forall i :: 0 <= i < |steps| ==> BootStep(steps[i])
    ensures After(cfg, s, steps).booting
    ensures Converges(After(cfg, s, steps).tasks, AllResumed(s.tasks, 0))
  {
    hide Do, Enabled;
    if steps != [] {
      var before := steps[..|steps| - 1];
      BootConverges(cfg, s, before);
      BootStepConverges(cfg, After(cfg, s, before), steps[|steps| - 1], AllResumed(s.tasks, 0));
    }
  }

  /** Whenever a boot is done, however often it crashed and began again, the
      task table is what one uninterrupted resume makes of the table it found. */
  lemma BootIsResume(cfg: Config, s: State, steps: seq<Step>)
    requires s.booting && Valid(cfg, s, steps) && forall i :: 0 <= i < |steps| ==> BootStep(steps[i])
    requires Enabled(cfg, After(cfg, s, steps), BootDone)
    ensures var done, once := After(cfg, s, steps).tasks, AllResumed(s.tasks, 0);
      && done.Keys == once.Keys && forall id :: id in done ==> SameButClock(done[id], once[id])
  {
    BootConverges(cfg, s, steps);
  }
}
