/** What ordering rows by printed time means for the audit file: when its lines
    are in order of time (internal/queue/sqlite.go:460-501 and 623). */
module OutboxClock {
  import opened TextOrder
  import opened TimeText
  import opened Outbox

  /** Row k was inserted at instant stamps[k]. */
  ghost predicate Stamped(rows: seq<OutRow>, stamps: seq<Stamp>) {
    && |stamps| == |rows|
    && forall k :: 0 <= k < |rows| ==> stamps[k].Printable() && rows[k].ts == Format(stamps[k])
  }

  /** The rows of successive drains, one after the other. */
  function Flat(batches: seq<seq<nat>>): seq<nat> {
    if batches == [] then [] else Flat(batches[..|batches| - 1]) + batches[|batches| - 1]
  }

  lemma {:induction false} FlatComesFrom(batches: seq<seq<nat>>, p: nat) returns (b: nat, i: nat)
    requires p < |Flat(batches)|
    ensures b < |batches| && i < |batches[b]| && batches[b][i] == Flat(batches)[p]
  {
    var earlier := batches[..|batches| - 1];
    if p < |Flat(earlier)| {
      b, i := FlatComesFrom(earlier, p);
    } else {
      b, i := |batches| - 1, p - |Flat(earlier)|;
    }
  }

  /** Rows of the list, each once, in text order of `ts`. */
  ghost predicate TextOrdered(rows: seq<OutRow>, d: seq<nat>) {
    && (forall p :: 0 <= p < |d| ==> d[p] < |rows|)
    && (forall p, q :: 0 <= p < q < |d| ==> d[p] != d[q] && NotLater(rows, d[p], d[q]))
  }

  ghost predicate AllBefore(rows: seq<OutRow>, d: seq<nat>, e: seq<nat>) {
    forall p, q :: 0 <= p < |d| && 0 <= q < |e| ==>
      d[p] < |rows| && e[q] < |rows| && d[p] != e[q] && NotLater(rows, d[p], e[q])
  }

  lemma Joined(rows: seq<OutRow>, d: seq<nat>, e: seq<nat>)
    requires TextOrdered(rows, d) && TextOrdered(rows, e) && AllBefore(rows, d, e)
    ensures TextOrdered(rows, d + e)
  {
  }

  /** Everything drained, in one list: each row once, in text order of `ts`. */
  lemma {:induction false} FlatIsTextOrder(rows: seq<OutRow>, limit: nat, batches: seq<seq<nat>>)
    requires Drains(rows, limit, batches)
    ensures TextOrdered(rows, Flat(batches))
  {
    hide NotLater, IsBatch;
    if batches != [] {
      var earlier, last := batches[..|batches| - 1], batches[|batches| - 1];
      FlatIsTextOrder(rows, limit, earlier);
      LastIsTextOrder(rows, limit, batches);
      assert AllBefore(rows, Flat(earlier), last) by {
        forall p, q | 0 <= p < |Flat(earlier)| && 0 <= q < |last|
          ensures Flat(earlier)[p] < |rows| && last[q] < |rows|
          ensures Flat(earlier)[p] != last[q] && NotLater(rows, Flat(earlier)[p], last[q])
        {
          var b, i := FlatComesFrom(earlier, p);
          DrainsInOrder(rows, limit, batches, b, |batches| - 1, i, q);
        }
      }
      Joined(rows, Flat(earlier), last);
    }
  }

  lemma LastIsTextOrder(rows: seq<OutRow>, limit: nat, batches: seq<seq<nat>>)
    requires Drains(rows, limit, batches) && batches != []
    ensures TextOrdered(rows, batches[|batches| - 1])
  {
    var earlier, last := batches[..|batches| - 1], batches[|batches| - 1];
    forall i | 0 <= i < |last| ensures last[i] < |rows| && Drained(rows, earlier)[last[i]].ts == rows[last[i]].ts {
      DrainedKeepsTimes(rows, limit, earlier, last[i]);
    }
  }

  /** No row comes out before one that is older. */
  ghost predicate InTimeOrder(stamps: seq<Stamp>, d: seq<nat>)
    requires forall p :: 0 <= p < |d| ==> d[p] < |stamps|
  {
    forall p, q :: 0 <= p < q < |d| ==> !Before(stamps[d[q]], stamps[d[p]])
  }

  ghost predicate NoneMisordered(stamps: seq<Stamp>, d: seq<nat>)
    requires forall p :: 0 <= p < |d| ==> d[p] < |stamps|
  {
    forall p, q :: 0 <= p < |d| && 0 <= q < |d| ==> !Misordered(stamps[d[p]], stamps[d[q]])
  }

  /** The rows of the list that leave a line: corrupt ones leave none. */
  function Logged(rows: seq<OutRow>, d: seq<nat>): seq<nat>
    requires forall p :: 0 <= p < |d| ==> d[p] < |rows|
  {
    if d == [] then []
    else
      var last := d[|d| - 1];
      Logged(rows, d[..|d| - 1]) + (if rows[last].payload.Sound? then [last] else [])
  }

  lemma {:induction false} LoggedIsTextOrder(rows: seq<OutRow>, d: seq<nat>)
    requires TextOrdered(rows, d)
    ensures TextOrdered(rows, Logged(rows, d))
    ensures forall k :: k in Logged(rows, d) ==> k in d
  {
    hide NotLater;
    if d != [] {
      var before, last := d[..|d| - 1], d[|d| - 1];
      LoggedIsTextOrder(rows, before);
      var e := Logged(rows, before);
      assert AllBefore(rows, e, [last]) by {
        forall p | 0 <= p < |e| ensures e[p] < |rows| && e[p] != last && NotLater(rows, e[p], last) {
          assert e[p] in before;
        }
      }
      Joined(rows, e, [last]);
    }
  }

  /** The k-th line of the file is that of the k-th logged row. */
  lemma {:induction false} LinesAreLogged(rows: seq<OutRow>, d: seq<nat>)
    requires forall p :: 0 <= p < |d| ==> d[p] < |rows|
    ensures var e, lines := Logged(rows, d), Events(rows, d);
      && |lines| == |e|
      && forall k :: 0 <= k < |e| ==> e[k] < |rows| && rows[e[k]].payload == Sound(lines[k])
  {
    if d != [] { LinesAreLogged(rows, d[..|d| - 1]); }
  }

  /** Over any number of successive drains, the lines sent to the file are in order
      of time exactly when no two of their rows share a second in which the
      earlier trimmed fraction is a proper prefix of the later. */
  lemma DrainedInTimeOrderExactly(rows: seq<OutRow>, stamps: seq<Stamp>, limit: nat, batches: seq<seq<nat>>)
    requires Drains(rows, limit, batches) && Stamped(rows, stamps)
    ensures TextOrdered(rows, Flat(batches)) && TextOrdered(rows, Logged(rows, Flat(batches)))
    ensures var lines := Logged(rows, Flat(batches)); InTimeOrder(stamps, lines) <==> NoneMisordered(stamps, lines)
  {
    FlatIsTextOrder(rows, limit, batches);
    LoggedIsTextOrder(rows, Flat(batches));
    TextOrderIsTimeOrderExactly(rows, stamps, Logged(rows, Flat(batches)));
  }

  lemma TextOrderIsTimeOrderExactly(rows: seq<OutRow>, stamps: seq<Stamp>, d: seq<nat>)
    requires TextOrdered(rows, d) && Stamped(rows, stamps)
    ensures InTimeOrder(stamps, d) <==> NoneMisordered(stamps, d)
  {
    hide Format, Misordered, Before, FractionDigits;
    if NoneMisordered(stamps, d) {
      forall p, q | 0 <= p < q < |d| ensures !Before(stamps[d[q]], stamps[d[p]]) {
        assert NotLater(rows, d[p], d[q]);
        if Before(stamps[d[q]], stamps[d[p]]) { TextOrderExactly(stamps[d[q]], stamps[d[p]]); }
      }
    }
    if InTimeOrder(stamps, d) {
      forall p, q | 0 <= p < |d| && 0 <= q < |d| ensures !Misordered(stamps[d[p]], stamps[d[q]]) {
        if Misordered(stamps[d[p]], stamps[d[q]]) { MisorderedComesLater(rows, stamps, d, p, q); }
      }
    }
  }

  lemma MisorderedComesLater(rows: seq<OutRow>, stamps: seq<Stamp>, d: seq<nat>, p: nat, q: nat)
    requires Stamped(rows, stamps) && p < |d| && q < |d|
    requires TextOrdered(rows, d)
    requires Misordered(stamps[d[p]], stamps[d[q]])
    ensures q < p && Before(stamps[d[p]], stamps[d[q]])
  {
    hide Format;
    var a, b := stamps[d[p]], stamps[d[q]];
    MisorderedIsBefore(a, b);
    TextOrderExactly(a, b);
    if p < q { assert false; }
  }

  /** Two unwritten rows whose texts are in the wrong order are read in the order
      of their texts, and in no other. */
  lemma TwoUnwritten(rows: seq<OutRow>)
    requires |rows| == 2 && !rows[0].written && !rows[1].written && Less(rows[1].ts, rows[0].ts)
    ensures IsBatch(rows, DEFAULT_LIMIT, [1, 0]) && !IsBatch(rows, DEFAULT_LIMIT, [0, 1])
  {
    assert Unwritten(rows) == {0, 1};
    LessTotal(rows[0].ts, rows[1].ts);
    assert NotLater(rows, 1, 0) && !NotLater(rows, 0, 1);
    hide Less, NotLater;
    var wrong := [0, 1];
    assert wrong[0] == 0 && wrong[1] == 1;
  }

  /** Two rows, of 03:04:05Z and of 0.300000001 s later, are drained newest
      first. */
  lemma NewestFirstExample(rows: seq<OutRow>, a: Stamp, b: Stamp, e: Payload, f: Payload)
    requires a == Stamp(2026, 1, 2, 3, 4, 5, 0) && b == a.(nanos := 300_000_001)
    requires rows == [OutRow(Format(a), e, false), OutRow(Format(b), f, false)]
    ensures IsBatch(rows, DEFAULT_LIMIT, [1, 0]) && !IsBatch(rows, DEFAULT_LIMIT, [0, 1]) && Before(a, b)
  {
    hide Format, Less, IsBatch;
    EarlyClaimExample(a, b);
    DueTestExactly(b, a);
    TextOrderExactly(a, b);
    TwoUnwritten(rows);
  }
}
