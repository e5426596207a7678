/** The in-process store (internal/queue/memory.go): maps updated in place under
    one lock, scanned in whatever order the map yields. */
module Memory {
  import opened Tasks
  import opened Requests
  import opened TextOrder

  /** Order of claims: creation time, then id. */
  predicate Earlier(tasks: map<Id, Task>, a: Id, b: Id)
    requires a in tasks && b in tasks
  {
    || tasks[a].createdAt < tasks[b].createdAt
    || (tasks[a].createdAt == tasks[b].createdAt && Less(a, b))
  }

  lemma EarlierTransitive(tasks: map<Id, Task>, a: Id, b: Id, c: Id)
    requires a in tasks && b in tasks && c in tasks
    requires Earlier(tasks, a, b) && Earlier(tasks, b, c)
    ensures Earlier(tasks, a, c)
  {
    if tasks[a].createdAt == tasks[c].createdAt { LessTransitive(a, b, c); }
  }

  lemma EarlierTotal(tasks: map<Id, Task>, a: Id, b: Id)
    requires a in tasks && b in tasks
    ensures a == b <==> !Earlier(tasks, a, b) && !Earlier(tasks, b, a)
    ensures !(Earlier(tasks, a, b) && Earlier(tasks, b, a))
  {
    LessTotal(a, b);
  }

  predicate DueNow(tasks: map<Id, Task>, id: Id, now: int) {
    id in tasks && Claimable(tasks[id], ByTime, now)
  }

  /** Pending, or put off to a time that has come. */
  predicate IsReady(t: Task, now: int) {
    t.state == Pending || (t.state == RetryScheduled && (t.nextRunAt.Some? ==> t.nextRunAt.value <= now))
  }

  /** Ready, and made no later than any other that is ready; of those made at one
      time, the one with the least id. */
  ghost predicate OldestReady(tasks: map<Id, Task>, id: Id, now: int) {
    && id in tasks && IsReady(tasks[id], now)
    && forall j :: j in tasks && j != id && IsReady(tasks[j], now) ==>
        && tasks[id].createdAt <= tasks[j].createdAt
        && (tasks[id].createdAt == tasks[j].createdAt ==> Less(id, j))
  }

  lemma ReadyIsDue(tasks: map<Id, Task>, now: int)
    ensures forall id :: id in tasks ==> (IsReady(tasks[id], now) <==> DueNow(tasks, id, now))
  {
  }

  lemma FirstIsOldest(tasks: map<Id, Task>, id: Id, now: int)
    ensures FirstDue(tasks, id, now) <==> OldestReady(tasks, id, now)
  {
    ReadyIsDue(tasks, now);
  }

  /** The due task that comes first. */
  ghost predicate FirstDue(tasks: map<Id, Task>, id: Id, now: int) {
    DueNow(tasks, id, now) && forall j :: DueNow(tasks, j, now) && j != id ==> Earlier(tasks, id, j)
  }

  /** No order of iteration can make a difference: only one task comes first. */
  lemma FirstDueIsUnique(tasks: map<Id, Task>, a: Id, b: Id, now: int)
    requires FirstDue(tasks, a, now) && FirstDue(tasks, b, now)
    ensures a == b
  {
    EarlierTotal(tasks, a, b);
  }

  ghost predicate SortedIds(tasks: map<Id, Task>, ids: seq<Id>) {
    && (forall i :: 0 <= i < |ids| ==> ids[i] in tasks)
    && forall i, j :: 0 <= i < j < |ids| ==> Earlier(tasks, ids[i], ids[j])
  }

  /** The listed ids are those in state st, each once, oldest first. */
  ghost predicate Listing(tasks: map<Id, Task>, st: Status, ids: seq<Id>) {
    && SortedIds(tasks, ids)
    && forall id :: id in ids <==> id in tasks && tasks[id].state == st
  }

  lemma SortedIsDistinct(tasks: map<Id, Task>, ids: seq<Id>)
    requires SortedIds(tasks, ids)
    ensures forall i, j :: 0 <= i < j < |ids| ==> ids[i] != ids[j]
  {
    forall i, j | 0 <= i < j < |ids| ensures ids[i] != ids[j] {
      EarlierTotal(tasks, ids[i], ids[j]);
    }
  }

  lemma ActiveAreKeys(tasks: map<Id, Task>)
    ensures ActiveIds(tasks) <= tasks.Keys
  {
  }

  /** Taking one more task off the rest counts it if it is active. */
  lemma CountedOneMore(tasks: map<Id, Task>, rest: set<Id>, id: Id)
    requires id in rest && rest <= tasks.Keys
    ensures |ActiveIds(tasks) - (rest - {id})| == |ActiveIds(tasks) - rest| + (if Active(tasks[id].state) then 1 else 0)
  {
    if Active(tasks[id].state) {
      assert ActiveIds(tasks) - (rest - {id}) == (ActiveIds(tasks) - rest) + {id};
    } else {
      assert ActiveIds(tasks) - (rest - {id}) == ActiveIds(tasks) - rest;
    }
  }

  class Memory {
    var tasks: map<Id, Task>
    var audit: seq<Row>
    var idem: map<string, Binding>

    constructor ()
      ensures tasks == map[] && audit == [] && idem == map[]
    {
      tasks, audit, idem := map[], [], map[];
    }

    method Get(id: Id) returns (t: Option<Task>)
      ensures t == if id in tasks then Some(tasks[id]) else None
    {
      return if id in tasks then Some(tasks[id]) else None;
    }

    method Update(id: Id, fn: Task -> Task, now: int) returns (ok: bool)
      modifies this`tasks
      ensures ok == (id in old(tasks))
      ensures tasks == if ok then old(tasks)[id := fn(old(tasks)[id]).(updatedAt := now)] else old(tasks)
    {
      if id !in tasks { return false; }
      var t := fn(tasks[id]);
      tasks := tasks[id := t.(updatedAt := now)];
      return true;
    }

    method UpdateAndAudit(id: Id, fn: Task -> Task, mark: Label, attempt: nat, now: int) returns (ok: bool)
      modifies this`tasks, this`audit
      ensures ok == (id in old(tasks))
      ensures tasks == if ok then old(tasks)[id := fn(old(tasks)[id]).(updatedAt := now)] else old(tasks)
      ensures audit == if ok then old(audit) + [Row(id, mark, attempt)] else old(audit)
    {
      if id !in tasks { return false; }
      var t := fn(tasks[id]);
      tasks := tasks[id := t.(updatedAt := now)];
      audit := audit + [Row(id, mark, attempt)];
      return true;
    }

    method Depth() returns (n: nat)
      ensures n == DepthOf(tasks)
    {
      hide ActiveIds;
      n := 0;
      var rest := tasks.Keys;
      assert ActiveIds(tasks) - rest == {} by { ActiveAreKeys(tasks); }
      while rest != {}
        invariant rest <= tasks.Keys
        invariant n == |ActiveIds(tasks) - rest|
        decreases |rest|
      {
        var id :| id in rest;
        CountedOneMore(tasks, rest, id);
        if Active(tasks[id].state) { n := n + 1; }
        rest := rest - {id};
      }
      assert ActiveIds(tasks) - {} == ActiveIds(tasks);
    }

    method CreateAndAuditLimited(id: Id, verb: string, maxRetries: nat, maxDepth: nat, now: int)
        returns (t: Option<Task>)
      requires id !in tasks
      modifies this`tasks, this`audit
      ensures t.Some? <==> DepthOf(old(tasks)) < maxDepth
      ensures t.Some? ==> t.value == NewTask(verb, maxRetries, now) && tasks == old(tasks)[id := t.value]
      ensures t.Some? ==>
        && t.value.createdAt == t.value.updatedAt == now && t.value.verb == verb && t.value.maxRetries == maxRetries
        && t.value.state == Accepted && t.value.attempt == 0 && t.value.nextRunAt == None
        && t.value.lastOutcome == None && t.value.error == ""
      ensures t.Some? ==> audit == old(audit) + [Row(id, Lifecycle(Accepted), 0)]
      ensures t == None ==> tasks == old(tasks) && audit == old(audit)
      ensures DepthOf(old(tasks)) <= maxDepth ==> DepthOf(tasks) <= maxDepth
    {
      var depth := Depth();
      if depth >= maxDepth { return None; }
      t := Some(NewTask(verb, maxRetries, now));
      assert ActiveIds(tasks[id := t.value]) == ActiveIds(tasks) + {id};
      tasks := tasks[id := t.value];
      audit := audit + [Row(id, Lifecycle(Accepted), 0)];
    }

    /** Takes the first due task, whatever order the scan meets the tasks in,
        and changes no other. */
    method ClaimDue(now: int, clock: int) returns (claimed: Option<Id>)
      modifies this`tasks
      ensures claimed == None <==> forall id :: id in old(tasks) ==> !DueNow(old(tasks), id, now)
      ensures claimed == None ==> tasks == old(tasks)
      ensures claimed.Some? ==> FirstDue(old(tasks), claimed.value, now)
      ensures claimed.Some? ==> tasks == old(tasks)[claimed.value := Claimed(old(tasks)[claimed.value], clock)]
      ensures claimed == None ==> forall id :: id in old(tasks) ==> !IsReady(old(tasks)[id], now)
      ensures claimed.Some? ==> OldestReady(old(tasks), claimed.value, now)
      ensures claimed.Some? ==>
        tasks == old(tasks)[claimed.value := old(tasks)[claimed.value].(state := Executing, updatedAt := clock)]
    {
      var pick: Option<Id> := None;
      var rest := tasks.Keys;
      while rest != {}
        invariant tasks == old(tasks) && rest <= tasks.Keys
        invariant pick == None ==> forall j :: j in tasks && j !in rest ==> !DueNow(tasks, j, now)
        invariant pick.Some? ==> pick.value !in rest && DueNow(tasks, pick.value, now)
        invariant pick.Some? ==> forall j :: j !in rest && j != pick.value && DueNow(tasks, j, now) ==>
                    Earlier(tasks, pick.value, j)
        decreases |rest|
      {
        var id :| id in rest;
        rest := rest - {id};
        var t := tasks[id];
        if !(t.state == Pending ||
             (t.state == RetryScheduled && (t.nextRunAt == None || t.nextRunAt.value <= now))) {
          continue;
        }
        if pick == None {
          pick := Some(id);
        } else {
          EarlierTotal(tasks, id, pick.value);
          if t.createdAt < tasks[pick.value].createdAt ||
             (t.createdAt == tasks[pick.value].createdAt && Less(id, pick.value)) {
            forall j | j !in rest && j != id && DueNow(tasks, j, now) ensures Earlier(tasks, id, j) {
              if j != pick.value { EarlierTransitive(tasks, id, pick.value, j); }
            }
            pick := Some(id);
          }
        }
      }
      ReadyIsDue(tasks, now);
      if pick == None { return None; }
      FirstIsOldest(tasks, pick.value, now);
      tasks := tasks[pick.value := Claimed(tasks[pick.value], clock)];
      return pick;
    }

    /** With no filter every task is listed. */
    method List(filter: Option<Status>) returns (ids: seq<Id>)
      ensures SortedIds(tasks, ids)
      ensures filter == None ==> forall id :: id in ids <==> id in tasks
      ensures filter.Some? ==> Listing(tasks, filter.value, ids)
    {
      ids := [];
      var rest := tasks.Keys;
      while rest != {}
        invariant rest <= tasks.Keys
        invariant SortedIds(tasks, ids)
        invariant forall id :: id in ids <==>
                    id in tasks && id !in rest && (filter == None || tasks[id].state == filter.value)
        decreases |rest|
      {
        var id :| id in rest;
        rest := rest - {id};
        if filter == None || tasks[id].state == filter.value {
          ids := Insert(tasks, ids, id);
        }
      }
    }

    method FindIdempotency(key: string) returns (rec: Option<Binding>)
      ensures rec == if key in idem then Some(idem[key]) else None
    {
      return if key in idem then Some(idem[key]) else None;
    }

    /** The first binding of a key stays. */
    method SaveIdempotency(key: string, rec: Binding) returns (ok: bool)
      modifies this`idem
      ensures ok == (key !in old(idem))
      ensures idem == if ok then old(idem)[key := rec] else old(idem)
    {
      if key in idem { return false; }
      idem := idem[key := rec];
      return true;
    }
  }

  /** Puts one more id in its place. */
  method Insert(tasks: map<Id, Task>, ids: seq<Id>, id: Id) returns (r: seq<Id>)
    requires SortedIds(tasks, ids) && id in tasks && id !in ids
    ensures SortedIds(tasks, r)
    ensures forall x :: x in r <==> x in ids || x == id
  {
    var k := |ids|;
    while k > 0 && Earlier(tasks, id, ids[k - 1])
      invariant 0 <= k <= |ids|
      invariant forall j :: k <= j < |ids| ==> Earlier(tasks, id, ids[j])
    {
      k := k - 1;
    }
    forall j | 0 <= j < k ensures Earlier(tasks, ids[j], id) {
      EarlierTotal(tasks, ids[k - 1], id);
      if j < k - 1 { EarlierTransitive(tasks, ids[j], ids[k - 1], id); }
    }
    r := ids[..k] + [id] + ids[k..];
    assert forall x :: x in ids <==> x in ids[..k] || x in ids[k..];
  }
}
