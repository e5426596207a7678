/** The stream event ring (internal/streams/ring.go): a circular array that
    shows the tail of an unbounded log. Sequence numbers are unbounded here. */
module Ring {

  const DEFAULT_CAPACITY := 128

  datatype Event = Event(seqNo: nat, ts: string, line: string)

  function Max(a: int, b: int): int { if a >= b then a else b }

  function Min(a: int, b: int): int { if a <= b then a else b }

  /** Position of the i-th oldest slot in an array of the given length. */
  function Slot(start: nat, i: nat, length: nat): (k: nat)
    requires start < length && i <= length
    ensures k < length
    ensures k == if start + i < length then start + i else start + i - length
  {
    WrapOnce(start + i, length);
    (start + i) % length
  }

  lemma WrapOnce(x: nat, length: nat)
    requires 0 < length && x < 2 * length
    ensures x % length == if x < length then x else x - length
  {
    if x >= length {
      assert x == 1 * length + (x - length);
    }
  }

  /** A log numbers its events 1, 2, 3, ... */
  ghost predicate Numbered(log: seq<Event>) {
    forall k :: 0 <= k < |log| ==> log[k].seqNo == k + 1
  }

  /** What a reader who has seen `since` gets from a ring of this capacity. */
  ghost function Unread(log: seq<Event>, capacity: nat, since: nat): seq<Event> {
    log[Min(Max(since, |log| - capacity), |log|)..]
  }

  /** The log from one place to another, or nothing when the first is beyond. */
  ghost function Span(log: seq<Event>, from: nat, to: nat): seq<Event>
    requires to <= |log|
  {
    if from <= to then log[from..to] else []
  }

  lemma SpanGrows(log: seq<Event>, from: nat, to: nat)
    requires to < |log|
    ensures Span(log, from, to + 1) == Span(log, from, to) + if from <= to then [log[to]] else []
  {
  }

  lemma SpanIsUnread(log: seq<Event>, capacity: nat, since: nat)
    ensures var first := |log| - Min(capacity, |log|);
      && Span(log, Max(since, first), first) == []
      && Span(log, Max(since, first), |log|) == Unread(log, capacity, since)
  {
    var from := Max(since, |log| - Min(capacity, |log|));
    if from <= |log| {
      assert log[from..|log|] == log[from..];
    } else {
      assert log[|log|..] == [];
    }
  }

  class Ring {
    const buf: array<Event>
    const capacity: nat
    var next: nat
    var start: nat
    var len: nat
    ghost var Log: seq<Event>

    ghost predicate Valid()
      reads this, buf
    {
      && 0 < capacity == buf.Length
      && start < capacity && len <= capacity
      && (len < capacity ==> start == 0)
      && next == |Log| && Numbered(Log)
      && len == Min(capacity, |Log|)
      && forall i :: 0 <= i < len ==> buf[Slot(start, i, capacity)] == Log[|Log| - len + i]
    }

    constructor (requested: int)
      ensures Valid() && fresh(buf) && Log == []
      ensures capacity == if requested <= 0 then 128 else requested
    {
      var n := if requested <= 0 then DEFAULT_CAPACITY else requested;
      buf := new Event[n](_ => Event(0, "", ""));
      capacity := n;
      next, start, len, Log := 0, 0, 0, [];
    }

    method Push(ts: string, line: string) returns (ev: Event)
      requires Valid()
      modifies this, buf
      ensures Valid()
      ensures ev == Event(|old(Log)| + 1, ts, line)
      ensures Log == old(Log) + [ev]
    {
      hide Slot;
      next := next + 1;
      ev := Event(next, ts, line);
      if len < capacity {
        buf[Slot(start, len, capacity)] := ev;
        len := len + 1;
      } else {
        buf[start] := ev;
        start := Slot(start, 1, capacity);
      }
      Log := Log + [ev];
      forall i | 0 <= i < len
        ensures buf[Slot(start, i, capacity)] == Log[|Log| - len + i]
      {
        if i < len - 1 && old(len) == capacity {
          assert Slot(start, i, capacity) == Slot(old(start), i + 1, capacity);
        }
      }
    }

    method Since(since: nat) returns (out: seq<Event>)
      requires Valid()
      ensures out == Unread(Log, capacity, since)
    {
      hide Slot, Span, Unread;
      out := [];
      var i := 0;
      ghost var first := |Log| - len;
      SpanIsUnread(Log, capacity, since);
      while i < len
        invariant 0 <= i <= len
        invariant out == Span(Log, Max(since, first), first + i)
      {
        var ev := buf[Slot(start, i, capacity)];
        assert ev == Log[first + i] && ev.seqNo == first + i + 1;
        SpanGrows(Log, Max(since, first), first + i);
        if ev.seqNo > since {
          out := out + [ev];
        }
        i := i + 1;
      }
    }

    /** How many events are held. */
    method Len() returns (n: nat)
      requires Valid()
      ensures n == Min(capacity, |Log|) == |Unread(Log, capacity, 0)|
    {
      return len;
    }
  }

  /** Since returns exactly the events numbered above `since` among the last
      `capacity` pushes, in order and without a gap. */
  lemma UnreadIsRecentAndNew(log: seq<Event>, capacity: nat, since: nat, e: Event)
    requires Numbered(log)
    ensures e in Unread(log, capacity, since) <==>
            e.seqNo > since && exists k :: Max(0, |log| - capacity) <= k < |log| && log[k] == e
    ensures var out := Unread(log, capacity, since);
      forall i :: 0 <= i < |out| ==> out[i].seqNo == |log| - |out| + i + 1
  {
    var cut := Min(Max(since, |log| - capacity), |log|);
    if e.seqNo > since && exists k :: Max(0, |log| - capacity) <= k < |log| && log[k] == e {
      var k :| Max(0, |log| - capacity) <= k < |log| && log[k] == e;
      assert Unread(log, capacity, since)[k - cut] == e;
    }
    if e in Unread(log, capacity, since) {
      var i :| 0 <= i < |log| - cut && log[cut..][i] == e;
      assert log[cut + i] == e;
    }
  }

  /** Everything a reader receives when it polls at the moments the log had the
      given lengths, each time asking from the last number it has seen. */
  ghost function Received(log: seq<Event>, capacity: nat, polls: seq<nat>): seq<Event>
    requires PollsOf(log, polls)
  {
    if polls == [] then []
    else
      var earlier := polls[..|polls| - 1];
      var got := Received(log, capacity, earlier);
      got + Unread(log[..polls[|polls| - 1]], capacity, LastSeen(got))
  }

  ghost predicate PollsOf(log: seq<Event>, polls: seq<nat>) {
    && (forall i :: 0 <= i < |polls| ==> polls[i] <= |log|)
    && (forall i, j :: 0 <= i < j < |polls| ==> polls[i] <= polls[j])
  }

  function LastSeen(got: seq<Event>): nat {
    if got == [] then 0 else got[|got| - 1].seqNo
  }

  /** Events overwritten before the reader came for them: at each poll exactly
      what had piled up beyond the capacity. */
  function Lost(capacity: nat, polls: seq<nat>): nat {
    if polls == [] then 0
    else
      var previous := if |polls| == 1 then 0 else polls[|polls| - 2];
      Lost(capacity, polls[..|polls| - 1]) + Max(0, polls[|polls| - 1] - previous - capacity)
  }

  /** A polling reader never sees an event twice or out of order, is up to date
      after each poll, and received plus lost is everything pushed. */
  lemma {:induction false} PollingIsExact(log: seq<Event>, capacity: nat, polls: seq<nat>)
    requires Numbered(log) && PollsOf(log, polls) && capacity > 0
    ensures var got := Received(log, capacity, polls);
      var seen := if polls == [] then 0 else polls[|polls| - 1];
      && SeenUpTo(log, got, seen)
      && |got| + Lost(capacity, polls) == seen
  {
    if polls != [] {
      var earlier := polls[..|polls| - 1];
      PollingIsExact(log, capacity, earlier);
      var got, now := Received(log, capacity, earlier), polls[|polls| - 1];
      var previous := if |polls| == 1 then 0 else polls[|polls| - 2];
      assert earlier != [] ==> earlier[|earlier| - 1] == previous;
      assert Unread(log[..now], capacity, previous) == log[Max(previous, now - capacity)..now];
      PollExtends(log, got, previous, Max(previous, now - capacity), now);
    }
  }

  ghost predicate SeenUpTo(log: seq<Event>, got: seq<Event>, seen: nat)
    requires seen <= |log|
  {
    && (forall i, j :: 0 <= i < j < |got| ==> got[i].seqNo < got[j].seqNo)
    && (forall i :: 0 <= i < |got| ==> got[i] in log[..seen])
    && LastSeen(got) == seen
  }

  lemma PollExtends(log: seq<Event>, got: seq<Event>, previous: nat, cut: nat, now: nat)
    requires Numbered(log) && previous <= cut <= now <= |log| && (cut == now ==> previous == now)
    requires SeenUpTo(log, got, previous)
    ensures SeenUpTo(log, got + log[cut..now], now)
  {
    var tail := log[cut..now];
    forall i | 0 <= i < |got| ensures got[i] in log[..now] && got[i].seqNo <= previous {
      var k :| 0 <= k < previous && log[..previous][k] == got[i];
      assert log[..now][k] == got[i];
    }
    forall i | 0 <= i < |tail| ensures tail[i] in log[..now] && tail[i].seqNo > previous {
      assert tail[i] == log[..now][cut + i];
    }
  }
}
