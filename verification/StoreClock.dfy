/** What comparing printed times means for the durable store: how early a retry
    may be claimed, and which task a claim picks (internal/queue/sqlite.go:396-417). */
module StoreClock {
  import opened Tasks
  import opened TextOrder
  import opened TimeText
  import opened Memory
  import E = Engine

  /** Instants from `first` up to `last`, each with its civil fields: later
      instants have later fields, and within a second the nanoseconds count. */
  ghost predicate Calendar(stampOf: int -> Stamp, first: int, last: int) {
    && (forall a :: first <= a < last ==> stampOf(a).Printable())
    && (forall a, b :: first <= a < b < last ==> Before(stampOf(a), stampOf(b)))
    && (forall a, b :: first <= a < last && first <= b < last && SameSecond(stampOf(a), stampOf(b)) ==>
          a - b == stampOf(a).nanos - stampOf(b).nanos)
  }

  const ALMOST_A_SECOND := 999_999_999

  /** A daemon whose store compares printed times, within the calendar's span,
      is well timed with less than a second of earliness. */
  lemma TextStoreIsWellTimed(cfg: E.Config, stampOf: int -> Stamp, first: int, last: int)
    requires Calendar(stampOf, first, last) && cfg.early >= ALMOST_A_SECOND
    requires forall next: int, at: int :: cfg.due(next, at) ==>
      first <= next < last && first <= at < last && TextDue(stampOf(next), stampOf(at))
    ensures E.WellTimed(cfg)
  {
    hide Format;
    forall next: int, at: int | cfg.due(next, at) ensures next <= at + cfg.early {
      if next > at {
        DueTestExactly(stampOf(next), stampOf(at));
      }
    }
  }

  /** The WHERE clause of the SELECT. */
  ghost predicate SqlDue(tasks: map<Id, Task>, stampOf: int -> Stamp, id: Id, now: int) {
    id in tasks &&
    var t := tasks[id];
    || t.state == Pending
    || (t.state == RetryScheduled && (t.nextRunAt == None || TextDue(stampOf(t.nextRunAt.value), stampOf(now))))
  }

  /** A row ORDER BY created_at LIMIT 1 may return: due as the text test says, and
      no other such row was created at a time with a smaller text. */
  ghost predicate SqlPick(tasks: map<Id, Task>, stampOf: int -> Stamp, id: Id, now: int) {
    && SqlDue(tasks, stampOf, id, now)
    && forall j :: SqlDue(tasks, stampOf, j, now) ==> !CreatedTextLess(tasks, stampOf, j, id)
  }

  ghost predicate CreatedTextLess(tasks: map<Id, Task>, stampOf: int -> Stamp, i: Id, j: Id)
    requires i in tasks && j in tasks
  {
    Less(Format(stampOf(tasks[i].createdAt)), Format(stampOf(tasks[j].createdAt)))
  }

  /** All times of the rows lie in the calendar's span, and no two tasks were
      created at one time. */
  ghost predicate InSpan(tasks: map<Id, Task>, first: int, last: int, now: int) {
    && first <= now < last
    && (forall i :: i in tasks ==> first <= tasks[i].createdAt < last)
    && (forall i :: i in tasks && tasks[i].nextRunAt.Some? ==> first <= tasks[i].nextRunAt.value < last)
    && (forall i, j :: i in tasks && j in tasks && i != j ==> tasks[i].createdAt != tasks[j].createdAt)
  }

  /** The task waits for a retry whose time and now are a pair the text test gets
      wrong: seen as due too early, or as not yet due too late. */
  ghost predicate Misjudged(tasks: map<Id, Task>, stampOf: int -> Stamp, id: Id, now: int)
    requires id in tasks
  {
    var t := tasks[id];
    t.state == RetryScheduled && t.nextRunAt.Some? &&
    (Misordered(stampOf(now), stampOf(t.nextRunAt.value)) || Misordered(stampOf(t.nextRunAt.value), stampOf(now)))
  }

  /** The two stores agree on whether a task is due exactly when it is not
      misjudged. */
  lemma DueAlikeExactly(tasks: map<Id, Task>, stampOf: int -> Stamp, first: int, last: int, id: Id, now: int)
    requires Calendar(stampOf, first, last) && InSpan(tasks, first, last, now) && id in tasks
    ensures (SqlDue(tasks, stampOf, id, now) <==> DueNow(tasks, id, now)) <==> !Misjudged(tasks, stampOf, id, now)
  {
    hide Format, FractionDigits, Less, Before, SameSecond, TextDue, Misordered;
    var t := tasks[id];
    if t.state == RetryScheduled && t.nextRunAt.Some? {
      TextTestExactly(stampOf, first, last, t.nextRunAt.value, now);
    }
  }

  lemma TextTestExactly(stampOf: int -> Stamp, first: int, last: int, next: int, now: int)
    requires Calendar(stampOf, first, last) && first <= next < last && first <= now < last
    ensures (TextDue(stampOf(next), stampOf(now)) <==> next <= now)
       <==> !Misordered(stampOf(now), stampOf(next)) && !Misordered(stampOf(next), stampOf(now))
  {
    hide Format, TextDue;
    var a, b := stampOf(next), stampOf(now);
    DueTestExactly(a, b);
    if Misordered(a, b) { MisorderedIsBefore(a, b); }
    if Misordered(b, a) { MisorderedIsBefore(b, a); }
    if next < now { assert Before(a, b); }
    if now < next { assert Before(b, a); }
  }

  /** The text of the earlier creation time is the larger one. */
  ghost predicate CreatedMisordered(tasks: map<Id, Task>, stampOf: int -> Stamp, i: Id, j: Id)
    requires i in tasks && j in tasks
  {
    Misordered(stampOf(tasks[i].createdAt), stampOf(tasks[j].createdAt))
  }

  lemma CreationOrder(tasks: map<Id, Task>, stampOf: int -> Stamp, first: int, last: int, now: int, i: Id, j: Id)
    requires Calendar(stampOf, first, last) && InSpan(tasks, first, last, now) && i in tasks && j in tasks && i != j
    ensures CreatedTextLess(tasks, stampOf, i, j)
       <==> if tasks[i].createdAt < tasks[j].createdAt then !CreatedMisordered(tasks, stampOf, i, j)
            else CreatedMisordered(tasks, stampOf, j, i)
  {
    hide Format, FractionDigits, Less, Misordered;
    var a, b := tasks[i].createdAt, tasks[j].createdAt;
    if a < b {
      TextOrderExactly(stampOf(a), stampOf(b));
    } else {
      TextOrderExactly(stampOf(b), stampOf(a));
    }
  }

  /** Task j does not get in front of the first due task: a later one the text
      test sees as due does not sort before it, and an earlier one, which is not
      due, is not seen as due or sorts after it. */
  ghost predicate StaysBehind(tasks: map<Id, Task>, stampOf: int -> Stamp, id: Id, j: Id, now: int)
    requires id in tasks && j in tasks
  {
    if tasks[id].createdAt < tasks[j].createdAt
    then (DueNow(tasks, j, now) <==> !Misjudged(tasks, stampOf, j, now)) ==> !CreatedMisordered(tasks, stampOf, id, j)
    else Misjudged(tasks, stampOf, j, now) ==> CreatedMisordered(tasks, stampOf, j, id)
  }

  /** Exactly when the durable store can claim the task the in-process store
      claims: when that task is not misjudged itself and every other stays
      behind it. */
  lemma ClaimAlikeExactly(tasks: map<Id, Task>, stampOf: int -> Stamp, first: int, last: int, id: Id, now: int)
    requires Calendar(stampOf, first, last) && InSpan(tasks, first, last, now) && FirstDue(tasks, id, now)
    ensures SqlPick(tasks, stampOf, id, now)
       <==> !Misjudged(tasks, stampOf, id, now) &&
            forall j :: j in tasks && j != id ==> StaysBehind(tasks, stampOf, id, j, now)
  {
    hide Misjudged, SqlDue, Calendar, InSpan, CreatedTextLess, StaysBehind;
    DueAlikeExactly(tasks, stampOf, first, last, id, now);
    NotLessThanItself(tasks, stampOf, id);
    forall j | j in tasks && j != id
      ensures StaysBehind(tasks, stampOf, id, j, now)
         <==> (SqlDue(tasks, stampOf, j, now) ==> !CreatedTextLess(tasks, stampOf, j, id))
    {
      BehindExactly(tasks, stampOf, first, last, id, j, now);
    }
    assert forall j :: SqlDue(tasks, stampOf, j, now) ==> j in tasks by { SqlDueIsATask(tasks, stampOf, now); }
  }

  lemma SqlDueIsATask(tasks: map<Id, Task>, stampOf: int -> Stamp, now: int)
    ensures forall j :: SqlDue(tasks, stampOf, j, now) ==> j in tasks
  {
  }

  lemma BehindExactly(tasks: map<Id, Task>, stampOf: int -> Stamp, first: int, last: int, id: Id, j: Id, now: int)
    requires Calendar(stampOf, first, last) && InSpan(tasks, first, last, now) && FirstDue(tasks, id, now)
    requires j in tasks && j != id
    ensures StaysBehind(tasks, stampOf, id, j, now)
       <==> (SqlDue(tasks, stampOf, j, now) ==> !CreatedTextLess(tasks, stampOf, j, id))
  {
    hide Misjudged, SqlDue, Calendar, CreatedTextLess, CreatedMisordered;
    DueAlikeExactly(tasks, stampOf, first, last, j, now);
    CreationOrder(tasks, stampOf, first, last, now, j, id);
  }

  /** When no scheduled retry is misjudged, both stores see the same tasks as due,
      and the durable store can claim the first due task exactly when no due task
      created later has the smaller text. */
  lemma ClaimAlikeWhenDueAlike(tasks: map<Id, Task>, stampOf: int -> Stamp, first: int, last: int, id: Id, now: int)
    requires Calendar(stampOf, first, last) && InSpan(tasks, first, last, now) && FirstDue(tasks, id, now)
    requires forall j :: j in tasks ==> !Misjudged(tasks, stampOf, j, now)
    ensures SqlPick(tasks, stampOf, id, now)
       <==> forall j :: DueNow(tasks, j, now) ==> !CreatedMisordered(tasks, stampOf, id, j)
  {
    hide Misjudged, Calendar, SqlPick, Misordered;
    ClaimAlikeExactly(tasks, stampOf, first, last, id, now);
    forall j | DueNow(tasks, j, now) && j != id ensures tasks[id].createdAt < tasks[j].createdAt {
      assert Earlier(tasks, id, j);
    }
    assert !CreatedMisordered(tasks, stampOf, id, id) by { NotMisorderedWithItself(stampOf(tasks[id].createdAt)); }
  }

  lemma NotMisorderedWithItself(a: Stamp)
    ensures !Misordered(a, a)
  {
  }

  /** All creation times print with one width of fraction. */
  ghost predicate OneWidth(tasks: map<Id, Task>, stampOf: int -> Stamp) {
    forall i, j :: i in tasks && j in tasks ==>
      |FractionDigits(stampOf(tasks[i].createdAt))| == |FractionDigits(stampOf(tasks[j].createdAt))|
  }

  /** When creation times differ and print with one width, and no scheduled retry
      is misjudged, both stores see the same tasks as due and claim the same one. */
  lemma StoresClaimAlike(tasks: map<Id, Task>, stampOf: int -> Stamp, first: int, last: int, id: Id, now: int)
    requires Calendar(stampOf, first, last) && InSpan(tasks, first, last, now) && OneWidth(tasks, stampOf)
    requires forall j :: j in tasks ==> !Misjudged(tasks, stampOf, j, now)
    ensures SqlDue(tasks, stampOf, id, now) <==> DueNow(tasks, id, now)
    ensures SqlPick(tasks, stampOf, id, now) <==> FirstDue(tasks, id, now)
  {
    hide Misjudged, Calendar, Misordered, SqlDue, DueNow, CreatedTextLess;
    forall j
      ensures SqlDue(tasks, stampOf, j, now) <==> DueNow(tasks, j, now)
      ensures DueNow(tasks, j, now) ==> j in tasks
    {
      SqlDueAgrees(tasks, stampOf, first, last, j, now);
    }
    if DueNow(tasks, id, now) {
      NotLessThanItself(tasks, stampOf, id);
      forall j | DueNow(tasks, j, now) && j != id
        ensures !CreatedTextLess(tasks, stampOf, j, id) <==> Earlier(tasks, id, j)
      {
        SameWidthOrder(tasks, stampOf, first, last, now, j, id);
      }
    }
  }

  lemma SqlDueAgrees(tasks: map<Id, Task>, stampOf: int -> Stamp, first: int, last: int, id: Id, now: int)
    requires Calendar(stampOf, first, last) && InSpan(tasks, first, last, now)
    requires forall j :: j in tasks ==> !Misjudged(tasks, stampOf, j, now)
    ensures SqlDue(tasks, stampOf, id, now) <==> DueNow(tasks, id, now)
    ensures DueNow(tasks, id, now) ==> id in tasks
  {
    hide Misjudged, Calendar;
    if id in tasks { DueAlikeExactly(tasks, stampOf, first, last, id, now); }
  }

  lemma SameWidthOrder(tasks: map<Id, Task>, stampOf: int -> Stamp, first: int, last: int, now: int, i: Id, j: Id)
    requires Calendar(stampOf, first, last) && InSpan(tasks, first, last, now) && OneWidth(tasks, stampOf)
    requires i in tasks && j in tasks && i != j
    ensures CreatedTextLess(tasks, stampOf, i, j) <==> tasks[i].createdAt < tasks[j].createdAt
    ensures !CreatedTextLess(tasks, stampOf, i, j) <==> Earlier(tasks, j, i)
  {
    hide Format, FractionDigits, Less;
    CreationOrder(tasks, stampOf, first, last, now, i, j);
  }

  // ---- the stores do not always claim alike

  /** One second of the calendar, counted in nanoseconds. */
  function OneSecond(n: int): Stamp {
    Stamp(2026, 1, 2, 3, 4, 5, if 0 <= n < SECOND then n else 0)
  }

  /** A retry due 0.300000001 s from now: the durable store claims it, and for the
      in-process store nothing is due. */
  lemma StoresClaimApart() returns (tasks: map<Id, Task>)
    ensures Calendar(OneSecond, 0, SECOND) && InSpan(tasks, 0, SECOND, 0) && OneWidth(tasks, OneSecond)
    ensures SqlPick(tasks, OneSecond, "t", 0) && forall id :: !DueNow(tasks, id, 0)
  {
    hide Format, FractionDigits, Less;
    var t := NewTask("v", 3, 0).(state := RetryScheduled, attempt := 1, nextRunAt := Some(300_000_001));
    tasks := map["t" := t];
    EarlyClaimExample(OneSecond(0), OneSecond(300_000_001));
    NotLessThanItself(tasks, OneSecond, "t");
  }

  lemma NotLessThanItself(tasks: map<Id, Task>, stampOf: int -> Stamp, id: Id)
    requires id in tasks
    ensures !CreatedTextLess(tasks, stampOf, id, id)
  {
    hide Format;
    LessTotal(Format(stampOf(tasks[id].createdAt)), Format(stampOf(tasks[id].createdAt)));
  }
}
