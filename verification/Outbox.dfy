/** The audit outbox of the durable store (internal/queue/sqlite.go:379-387 and
    460-501): rows are inserted with the task change they report and drained to
    the audit file later. */
module Outbox {
  import opened TextOrder

  const DEFAULT_LIMIT := 100

  datatype Event = Event(taskId: string, state: string)

  /** A payload that does not parse back is corrupt. */
  datatype Payload = Sound(event: Event) | Corrupt

  datatype OutRow = OutRow(ts: string, payload: Payload, written: bool)

  function Unwritten(rows: seq<OutRow>): set<nat> {
    set i: nat | i < |rows| && !rows[i].written
  }

  function Min(a: nat, b: nat): nat { if a <= b then a else b }

  function Mark(rows: seq<OutRow>, i: nat): seq<OutRow>
    requires i < |rows|
  {
    rows[i := rows[i].(written := true)]
  }

  /** Row i does not come after row j in byte order of `ts`. */
  ghost predicate NotLater(rows: seq<OutRow>, i: nat, j: nat)
    requires i < |rows| && j < |rows|
  {
    !Less(rows[j].ts, rows[i].ts)
  }

  /** The rows one drain reads: unwritten, least text of `ts` first, at most
      `limit`. */
  ghost predicate IsBatch(rows: seq<OutRow>, limit: nat, batch: seq<nat>) {
    && (forall i :: 0 <= i < |batch| ==> batch[i] in Unwritten(rows))
    && (forall i, j :: 0 <= i < j < |batch| ==> batch[i] != batch[j] && NotLater(rows, batch[i], batch[j]))
    && (forall i, u :: 0 <= i < |batch| && u in Unwritten(rows) && u !in batch ==> NotLater(rows, batch[i], u))
    && |batch| == Min(limit, |Unwritten(rows)|)
  }

  function MarkAll(rows: seq<OutRow>, batch: seq<nat>): (r: seq<OutRow>)
    requires forall i :: 0 <= i < |batch| ==> batch[i] < |rows|
    ensures |r| == |rows|
  {
    seq(|rows|, i requires 0 <= i < |rows| => if i in batch then rows[i].(written := true) else rows[i])
  }

  /** The batch names rows, each once. */
  ghost predicate Proper(rows: seq<OutRow>, batch: seq<nat>) {
    && (forall i :: 0 <= i < |batch| ==> batch[i] < |rows|)
    && (forall i, j :: 0 <= i < j < |batch| ==> batch[i] != batch[j])
  }

  /** The lines a batch sends to the file. */
  function Events(rows: seq<OutRow>, batch: seq<nat>): seq<Event>
    requires forall i :: 0 <= i < |batch| ==> batch[i] < |rows|
  {
    if batch == [] then []
    else
      var i := batch[|batch| - 1];
      Events(rows, batch[..|batch| - 1]) +
      (if rows[i].payload.Sound? then [rows[i].payload.event] else [])
  }

  /** The audit file: it takes `healthy` more lines before an append fails. */
  class AuditFile {
    var lines: seq<Event>
    var healthy: nat

    method Log(ev: Event) returns (ok: bool)
      modifies this
      ensures ok == (old(healthy) > 0)
      ensures lines == if ok then old(lines) + [ev] else old(lines)
      ensures healthy == if ok then old(healthy) - 1 else old(healthy)
    {
      if healthy == 0 { return false; }
      healthy := healthy - 1;
      lines := lines + [ev];
      return true;
    }
  }

  class Outbox {
    var rows: seq<OutRow>

    constructor ()
      ensures rows == []
    {
      rows := [];
    }

    method Insert(ts: string, payload: Payload)
      modifies this
      ensures rows == old(rows) + [OutRow(ts, payload, false)]
    {
      rows := rows + [OutRow(ts, payload, false)];
    }

    /** SELECT ... WHERE written_at IS NULL ORDER BY ts LIMIT n. */
    method SelectBatch(limit: nat) returns (batch: seq<nat>)
      ensures IsBatch(rows, limit, batch)
    {
      batch := [];
      var left := set i: nat | i < |rows| && !rows[i].written;
      ghost var all := left;
      while |batch| < limit && left != {}
        invariant left <= all == Unwritten(rows)
        invariant |batch| + |left| == |all| && |batch| <= limit
        invariant forall u :: u in all <==> u in left || u in batch
        invariant forall i :: 0 <= i < |batch| ==> batch[i] in all && batch[i] !in left
        invariant forall i, j :: 0 <= i < j < |batch| ==> batch[i] != batch[j] && NotLater(rows, batch[i], batch[j])
        invariant forall i, u :: 0 <= i < |batch| && u in left ==> NotLater(rows, batch[i], u)
        decreases |left|
      {
        var first := Oldest(left);
        batch := batch + [first];
        left := left - {first};
      }
    }

    method Oldest(left: set<nat>) returns (first: nat)
      requires left != {} && forall u :: u in left ==> u < |rows|
      ensures first in left && forall u :: u in left ==> NotLater(rows, first, u)
    {
      first :| first in left;
      LessTotal(rows[first].ts, rows[first].ts);
      var rest := left - {first};
      while rest != {}
        invariant rest <= left && first in left
        invariant forall u :: u in left && u !in rest ==> NotLater(rows, first, u)
        decreases |rest|
      {
        var u :| u in rest;
        rest := rest - {u};
        if Less(rows[u].ts, rows[first].ts) {
          forall x | x in left && x !in rest ensures NotLater(rows, u, x) {
            LessTotal(rows[u].ts, rows[u].ts);
            if x != u && Less(rows[x].ts, rows[u].ts) {
              LessTransitive(rows[x].ts, rows[u].ts, rows[first].ts);
            }
          }
          first := u;
        }
      }
    }

    /** Logs and marks the batch row by row; a corrupt row is marked without a
        line, and the first failing append ends the drain with the rest unmarked. */
    method DrainOutbox(file: AuditFile?, limit: int) returns (n: nat, ok: bool, ghost batch: seq<nat>, ghost k: nat)
      modifies this, if file == null then {} else {file}
      ensures IsBatch(old(rows), if limit <= 0 then 100 else limit, batch)
      ensures k <= |batch| && (ok <==> k == |batch|)
      ensures rows == MarkAll(old(rows), batch[..k])
      ensures file != null ==> file.lines == old(file.lines) + Events(old(rows), batch[..k])
      ensures n == |Events(old(rows), batch[..k])|
      ensures !ok ==> file != null && n == old(file.healthy) && old(rows)[batch[k]].payload.Sound?
    {
      hide IsBatch, MarkAll, Events, Mark, Proper;
      var max: nat := if limit <= 0 then DEFAULT_LIMIT else limit;
      var b := SelectBatch(max);
      batch, k, n := b, 0, 0;
      ghost var was := rows;
      BatchIsProper(was, max, b);
      for i := 0 to |b|
        invariant k == i
        invariant rows == MarkAll(was, b[..i])
        invariant file != null ==> file.lines == old(file.lines) + Events(was, b[..i])
        invariant file != null ==> file.healthy + n == old(file.healthy)
        invariant n == |Events(was, b[..i])|
      {
        InRange(was, b);
        MarkOneMore(was, b, i);
        EventsOneMore(was, b, i);
        var fine, logged := DrainRow(file, b[i]);
        if !fine { return n, false, batch, k; }
        if logged { n := n + 1; }
        k := i + 1;
      }
      assert b[..|b|] == b;
      return n, true, batch, k;
    }

    /** One row: its line, unless it is corrupt, and then its mark. */
    method DrainRow(file: AuditFile?, i: nat) returns (fine: bool, logged: bool)
      requires i < |rows|
      modifies this, if file == null then {} else {file}
      ensures !fine <==> file != null && old(rows)[i].payload.Sound? && old(file.healthy) == 0
      ensures logged <==> fine && old(rows)[i].payload.Sound?
      ensures rows == if fine then Mark(old(rows), i) else old(rows)
      ensures file != null && !logged ==> file.lines == old(file.lines) && file.healthy == old(file.healthy)
      ensures file != null && logged ==>
                file.lines == old(file.lines) + [old(rows)[i].payload.event] && file.healthy == old(file.healthy) - 1
    {
      var r := rows[i];
      if r.payload.Corrupt? {
        rows := Mark(rows, i);
        return true, false;
      }
      if file != null {
        var ok := file.Log(r.payload.event);
        if !ok { return false, false; }
      }
      rows := Mark(rows, i);
      return true, true;
    }
  }

  lemma BatchIsProper(rows: seq<OutRow>, limit: nat, batch: seq<nat>)
    requires IsBatch(rows, limit, batch)
    ensures Proper(rows, batch) && forall i :: 0 <= i < |batch| ==> batch[i] < |rows|
    ensures MarkAll(rows, batch[..0]) == rows && Events(rows, batch[..0]) == []
  {
  }

  lemma InRange(rows: seq<OutRow>, batch: seq<nat>)
    requires Proper(rows, batch)
    ensures forall i :: 0 <= i < |batch| ==> batch[i] < |rows|
  {
  }

  lemma EventsOneMore(rows: seq<OutRow>, batch: seq<nat>, i: nat)
    requires i < |batch| && forall j :: 0 <= j < |batch| ==> batch[j] < |rows|
    ensures Events(rows, batch[..i + 1]) == Events(rows, batch[..i]) +
              (if rows[batch[i]].payload.Sound? then [rows[batch[i]].payload.event] else [])
  {
    assert batch[..i + 1][..i] == batch[..i] && batch[..i + 1][i] == batch[i];
  }

  lemma MarkOneMore(rows: seq<OutRow>, batch: seq<nat>, i: nat)
    requires i < |batch| && Proper(rows, batch)
    ensures MarkAll(rows, batch[..i])[batch[i]] == rows[batch[i]]
    ensures MarkAll(rows, batch[..i + 1]) == Mark(MarkAll(rows, batch[..i]), batch[i])
  {
    var before := batch[..i];
    assert batch[..i + 1] == before + [batch[i]] && batch[i] !in before;
    assert batch[..i + 1][..i] == before;
    forall j: nat | j < |rows|
      ensures MarkAll(rows, batch[..i + 1])[j] == Mark(MarkAll(rows, before), batch[i])[j]
    {
      assert j in batch[..i + 1] <==> j in before || j == batch[i];
    }
    assert MarkAll(rows, batch[..i + 1]) == Mark(MarkAll(rows, before), batch[i]);
  }

  // ---- several drains in a row

  /** The rows after successful drains of the given batches. */
  ghost function Drained(rows: seq<OutRow>, batches: seq<seq<nat>>): seq<OutRow>
    ensures |Drained(rows, batches)| == |rows|
  {
    if batches == [] then rows
    else
      var before := Drained(rows, batches[..|batches| - 1]);
      var last := batches[|batches| - 1];
      if forall i :: 0 <= i < |last| ==> last[i] < |rows| then MarkAll(before, last) else before
  }

  ghost predicate Drains(rows: seq<OutRow>, limit: nat, batches: seq<seq<nat>>) {
    batches == [] ||
    (&& Drains(rows, limit, batches[..|batches| - 1])
     && IsBatch(Drained(rows, batches[..|batches| - 1]), limit, batches[|batches| - 1]))
  }

  function Members(batch: seq<nat>): set<nat> { set u: nat | u in batch }

  lemma {:induction false} DistinctMembers(batch: seq<nat>)
    requires forall i, j :: 0 <= i < j < |batch| ==> batch[i] != batch[j]
    ensures |Members(batch)| == |batch|
  {
    if batch != [] {
      var before := batch[..|batch| - 1];
      DistinctMembers(before);
      var x := batch[|batch| - 1];
      assert x !in Members(before) && Members(batch) == Members(before) + {x};
    }
  }

  lemma BatchShrinks(rows: seq<OutRow>, limit: nat, batch: seq<nat>)
    requires IsBatch(rows, limit, batch)
    ensures Unwritten(MarkAll(rows, batch)) == Unwritten(rows) - Members(batch)
    ensures |Unwritten(MarkAll(rows, batch))| == |Unwritten(rows)| - |batch|
  {
    DistinctMembers(batch);
    var members := Members(batch);
    var all := Unwritten(rows);
    assert members <= all;
    assert Unwritten(MarkAll(rows, batch)) == all - members;
    assert |all - members| == |all| - |members|;
  }

  /** With no inserts in between, each drain takes `limit` rows off the backlog:
      a backlog of k rows is gone after exactly ceil(k / limit) drains. */
  lemma {:induction false} BacklogShrinks(rows: seq<OutRow>, limit: nat, batches: seq<seq<nat>>)
    requires limit > 0 && Drains(rows, limit, batches)
    ensures var k, left := |Unwritten(rows)|, |Unwritten(Drained(rows, batches))|;
      && (left == 0 <==> |batches| * limit >= k)
      && (left > 0 ==> left == k - |batches| * limit)
  {
    if batches != [] {
      var earlier := batches[..|batches| - 1];
      BacklogShrinks(rows, limit, earlier);
      BatchShrinks(Drained(rows, earlier), limit, batches[|batches| - 1]);
      OneDrainLess(|Unwritten(rows)|, |Unwritten(Drained(rows, earlier))|, |earlier|, limit);
    }
  }

  lemma OneDrainLess(k: nat, left: nat, n: nat, limit: nat)
    requires limit > 0
    requires (left == 0 <==> n * limit >= k) && (left > 0 ==> left == k - n * limit)
    ensures var left' := left - Min(limit, left);
      && (left' == 0 <==> (n + 1) * limit >= k)
      && (left' > 0 ==> left' == k - (n + 1) * limit)
  {
    assert (n + 1) * limit == n * limit + limit;
  }

  lemma {:induction false} DrainedKeepsTimes(rows: seq<OutRow>, limit: nat, batches: seq<seq<nat>>, i: nat)
    requires Drains(rows, limit, batches) && i < |rows|
    ensures Drained(rows, batches)[i].ts == rows[i].ts && Drained(rows, batches)[i].payload == rows[i].payload
    ensures Drained(rows, batches)[i].written == (rows[i].written || exists b :: 0 <= b < |batches| && i in batches[b])
  {
    if batches != [] {
      var earlier := batches[..|batches| - 1];
      DrainedKeepsTimes(rows, limit, earlier, i);
      if b :| 0 <= b < |earlier| && i in earlier[b] { assert i in batches[b]; }
      if b :| 0 <= b < |batches| && i in batches[b] && b < |batches| - 1 { assert i in earlier[b]; }
    }
  }

  /** Across drains too, rows come out in text order of `ts` and no row twice. */
  lemma DrainsInOrder(rows: seq<OutRow>, limit: nat, batches: seq<seq<nat>>, b: nat, c: nat, i: nat, j: nat)
    requires Drains(rows, limit, batches) && b < c < |batches| && i < |batches[b]| && j < |batches[c]|
    ensures batches[b][i] < |rows| && batches[c][j] < |rows|
    ensures batches[b][i] != batches[c][j] && NotLater(rows, batches[b][i], batches[c][j])
  {
    PrefixDrains(rows, limit, batches, b);
    PrefixDrains(rows, limit, batches, c);
    var x, y := batches[b][i], batches[c][j];
    DrainedKeepsTimes(rows, limit, batches[..b], x);
    DrainedKeepsTimes(rows, limit, batches[..b], y);
    DrainedKeepsTimes(rows, limit, batches[..c], y);
    assert x in batches[b] && batches[..c][b] == batches[b];
    assert forall a :: 0 <= a < b ==> batches[..b][a] == batches[..c][a];
  }

  lemma {:induction false} PrefixDrains(rows: seq<OutRow>, limit: nat, batches: seq<seq<nat>>, b: nat)
    requires Drains(rows, limit, batches) && b < |batches|
    ensures Drains(rows, limit, batches[..b]) && IsBatch(Drained(rows, batches[..b]), limit, batches[b])
  {
    var earlier := batches[..|batches| - 1];
    if b == |batches| - 1 {
    } else {
      PrefixDrains(rows, limit, earlier, b);
      assert earlier[..b] == batches[..b];
    }
  }
}
