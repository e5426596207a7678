/** Timestamps as the store keeps them: UTC text in RFC 3339 form with trailing
    zeros of the fraction dropped (internal/queue/sqlite.go:623), compared
    character by character by SQL. */
module TimeText {
  import opened TextOrder

  /** A UTC instant in civil fields, the form section 5.6 of RFC 3339 prints. */
  datatype Stamp = Stamp(year: nat, month: nat, day: nat, hour: nat, minute: nat, second: nat, nanos: nat) {
    predicate Printable() {
      && year < 10000 && 1 <= month <= 12 && 1 <= day <= 31
      && hour < 24 && minute < 60 && second < 61 && nanos < 1_000_000_000
    }

    function Fields(): seq<nat> { [year, month, day, hour, minute, second] }
  }

  predicate SameSecond(a: Stamp, b: Stamp) { a.Fields() == b.Fields() }

  /** Order of two instants in time. */
  predicate Before(a: Stamp, b: Stamp) {
    if a.year != b.year then a.year < b.year
    else if a.month != b.month then a.month < b.month
    else if a.day != b.day then a.day < b.day
    else if a.hour != b.hour then a.hour < b.hour
    else if a.minute != b.minute then a.minute < b.minute
    else if a.second != b.second then a.second < b.second
    else a.nanos < b.nanos
  }

  function Digit(d: nat): char
    requires d < 10
  {
    '0' + d as char
  }

  /** v in decimal, padded with zeros to the given width. */
  function Digits(v: nat, width: nat): (s: string)
    ensures |s| == width
    ensures forall i :: 0 <= i < |s| ==> '0' <= s[i] <= '9'
  {
    if width == 0 then "" else Digits(v / 10, width - 1) + [Digit(v % 10)]
  }

  function Pow10(n: nat): nat { if n == 0 then 1 else 10 * Pow10(n - 1) }

  function TrimZeros(s: string): string {
    if s != "" && s[|s| - 1] == '0' then TrimZeros(s[..|s| - 1]) else s
  }

  /** The fraction digits that survive trimming: "" for a whole second. */
  function FractionDigits(t: Stamp): string { TrimZeros(Digits(t.nanos, 9)) }

  function WholeSecondText(t: Stamp): string {
    Digits(t.year, 4) + "-" + Digits(t.month, 2) + "-" + Digits(t.day, 2) + "T" +
    Digits(t.hour, 2) + ":" + Digits(t.minute, 2) + ":" + Digits(t.second, 2)
  }

  function Suffix(fraction: string): string { (if fraction == "" then "" else "." + fraction) + "Z" }

  function Format(t: Stamp): string {
    WholeSecondText(t) + Suffix(FractionDigits(t))
  }

  /** Fixed-width decimals: text order is numeric order. */
  lemma {:induction false} DigitsOrdered(x: nat, y: nat, width: nat) returns (k: nat)
    requires x < y < Pow10(width)
    ensures LessAt(Digits(x, width), Digits(y, width), k)
  {
    var a, b := Digits(x / 10, width - 1), Digits(y / 10, width - 1);
    if x / 10 == y / 10 {
      k := width - 1;
      assert x % 10 < y % 10;
    } else {
      k := DigitsOrdered(x / 10, y / 10, width - 1);
      assert Digits(x, width)[..k] == a[..k] && Digits(y, width)[..k] == b[..k];
    }
  }

  lemma LessAtExtends(a: string, b: string, k: nat, p: string, s: string, t: string)
    requires LessAt(a, b, k)
    ensures Less(p + a + s, p + b + t)
  {
    assert (p + a + s)[..|p| + k] == p + a[..k];
    assert (p + b + t)[..|p| + k] == p + b[..k];
    FirstDifferenceDecides(p + a + s, p + b + t, |p| + k);
  }

  function FieldWidth(i: nat): nat { if i == 0 then 4 else 2 }

  /** The text of the fields before the i-th, with their separators. */
  function Lead(t: Stamp, i: nat): string
    requires i < 6
  {
    if i == 0 then "" else Lead(t, i - 1) + Digits(t.Fields()[i - 1], FieldWidth(i - 1)) + Separator(i)
  }

  function Separator(i: nat): string { ["", "-", "-", "T", ":", ":"][if i < 6 then i else 0] }

  function Tail(t: Stamp, i: nat): string
    requires i < 6
    decreases 6 - i
  {
    if i == 5 then Format(t)[|WholeSecondText(t)|..]
    else Separator(i + 1) + Digits(t.Fields()[i + 1], FieldWidth(i + 1)) + Tail(t, i + 1)
  }

  lemma FormatSplits(t: Stamp, i: nat)
    requires i < 6
    ensures Format(t) == Lead(t, i) + Digits(t.Fields()[i], FieldWidth(i)) + Tail(t, i)
    decreases 6 - i
  {
    if i == 5 {
      assert Lead(t, 1) == Digits(t.year, 4) + "-";
      assert Lead(t, 2) == Lead(t, 1) + Digits(t.month, 2) + "-";
      assert Lead(t, 3) == Lead(t, 2) + Digits(t.day, 2) + "T";
      assert Lead(t, 4) == Lead(t, 3) + Digits(t.hour, 2) + ":";
      assert Lead(t, 5) == Lead(t, 4) + Digits(t.minute, 2) + ":";
      assert Lead(t, 5) + Digits(t.second, 2) == WholeSecondText(t);
    } else {
      FormatSplits(t, i + 1);
    }
  }

  lemma {:induction false} LeadAgrees(a: Stamp, b: Stamp, i: nat)
    requires i < 6 && a.Fields()[..i] == b.Fields()[..i]
    ensures Lead(a, i) == Lead(b, i)
  {
    if i > 0 {
      assert a.Fields()[..i - 1] == a.Fields()[..i][..i - 1] == b.Fields()[..i - 1];
      assert a.Fields()[i - 1] == a.Fields()[..i][i - 1] == b.Fields()[i - 1];
      LeadAgrees(a, b, i - 1);
    }
  }

  lemma FieldDecides(a: Stamp, b: Stamp, i: nat)
    requires a.Printable() && b.Printable()
    requires i < 6 && a.Fields()[..i] == b.Fields()[..i] && a.Fields()[i] < b.Fields()[i]
    ensures Less(Format(a), Format(b))
  {
    FormatSplits(a, i);
    FormatSplits(b, i);
    LeadAgrees(a, b, i);
    assert Pow10(2) == 100 && Pow10(4) == 10000;
    var k := DigitsOrdered(a.Fields()[i], b.Fields()[i], FieldWidth(i));
    LessAtExtends(Digits(a.Fields()[i], FieldWidth(i)), Digits(b.Fields()[i], FieldWidth(i)), k,
                  Lead(a, i), Tail(a, i), Tail(b, i));
  }

  lemma {:induction false} TrimKeepsPrefix(s: string)
    ensures TrimZeros(s) <= s
    ensures TrimZeros(s) == "" || TrimZeros(s)[|TrimZeros(s)| - 1] != '0'
    ensures forall i :: |TrimZeros(s)| <= i < |s| ==> s[i] == '0'
  {
    if s != "" && s[|s| - 1] == '0' {
      TrimKeepsPrefix(s[..|s| - 1]);
    }
  }

  /** The trimmed fraction of a is a proper prefix of that of b: the pairs that
      text order gets wrong. */
  predicate Misordered(a: Stamp, b: Stamp) {
    SameSecond(a, b) && FractionDigits(a) < FractionDigits(b)
  }

  lemma FractionDecides(a: Stamp, b: Stamp)
    requires a.Printable() && b.Printable() && SameSecond(a, b) && a.nanos < b.nanos
    ensures if Misordered(a, b) then Less(Format(b), Format(a)) else Less(Format(a), Format(b))
  {
    var x, y := Digits(a.nanos, 9), Digits(b.nanos, 9);
    var p, q := FractionDigits(a), FractionDigits(b);
    assert Pow10(9) == 1_000_000_000;
    var k := DigitsOrdered(a.nanos, b.nanos, 9);
    TrimKeepsPrefix(x);
    TrimKeepsPrefix(y);
    assert |q| > k;
    assert WholeSecondText(a) == WholeSecondText(b) by { SameSecondText(a, b); }
    if |p| > k {
      assert p[..k] == x[..k] && q[..k] == y[..k] && p[k] == x[k] && q[k] == y[k];
      FractionDiffers(WholeSecondText(a), p, q, k);
    } else {
      assert p == x[..k][..|p|] && q[..|p|] == y[..k][..|p|];
      FractionExtends(WholeSecondText(a), p, q);
    }
  }

  /** A trimmed fraction that is a proper prefix of another is the smaller one. */
  lemma MisorderedIsBefore(a: Stamp, b: Stamp)
    requires a.Printable() && b.Printable() && Misordered(a, b)
    ensures Before(a, b)
  {
    SameSecondFields(a, b);
    var x, y := Digits(a.nanos, 9), Digits(b.nanos, 9);
    var p, q := FractionDigits(a), FractionDigits(b);
    if b.nanos < a.nanos {
      assert Pow10(9) == 1_000_000_000;
      var k := DigitsOrdered(b.nanos, a.nanos, 9);
      TrimKeepsPrefix(x);
      TrimKeepsPrefix(y);
      assert false;
    }
  }

  lemma FractionDiffers(w: string, p: string, q: string, k: nat)
    requires LessAt(p, q, k)
    ensures Less(w + Suffix(p), w + Suffix(q)) && !(p < q)
  {
    LessAtExtends(p, q, k, w + ".", "Z", "Z");
    assert w + Suffix(p) == w + "." + p + "Z" && w + Suffix(q) == w + "." + q + "Z";
  }

  lemma FractionExtends(w: string, p: string, q: string)
    requires p < q && forall i :: 0 <= i < |q| ==> '0' <= q[i] <= '9'
    ensures Less(w + Suffix(q), w + Suffix(p))
  {
    if p == "" {
      LessAtExtends("." + q + "Z", "Z", 0, w, "", "");
      assert w + Suffix(p) == w + "Z" + "" && w + Suffix(q) == w + ("." + q + "Z") + "";
    } else {
      assert (q + "Z")[|p|] == q[|p|];
      assert (q + "Z")[..|p|] == p == (p + "Z")[..|p|];
      assert LessAt(q + "Z", p + "Z", |p|);
      LessAtExtends(q + "Z", p + "Z", |p|, w + ".", "", "");
      assert w + Suffix(p) == w + "." + (p + "Z") + "" && w + Suffix(q) == w + "." + (q + "Z") + "";
    }
  }

  lemma SameSecondText(a: Stamp, b: Stamp)
    requires SameSecond(a, b)
    ensures WholeSecondText(a) == WholeSecondText(b)
  {
    assert forall i :: 0 <= i < 6 ==> a.Fields()[i] == b.Fields()[i];
    assert a.year == a.Fields()[0] && b.year == b.Fields()[0];
    assert a.month == a.Fields()[1] && b.month == b.Fields()[1];
    assert a.day == a.Fields()[2] && b.day == b.Fields()[2];
    assert a.hour == a.Fields()[3] && b.hour == b.Fields()[3];
    assert a.minute == a.Fields()[4] && b.minute == b.Fields()[4];
    assert a.second == a.Fields()[5] && b.second == b.Fields()[5];
  }

  function FirstDifference(a: Stamp, b: Stamp): (i: nat)
    requires !SameSecond(a, b)
    ensures i < 6 && a.Fields()[..i] == b.Fields()[..i] && a.Fields()[i] != b.Fields()[i]
  {
    if a.year != b.year then 0
    else if a.month != b.month then 1
    else if a.day != b.day then 2
    else if a.hour != b.hour then 3
    else if a.minute != b.minute then 4
    else 5
  }

  // ---- reading a printed instant back

  predicate AllDigits(s: string) { forall i :: 0 <= i < |s| ==> '0' <= s[i] <= '9' }

  /** The number a text of decimal digits stands for. */
  function NumberOf(s: string): nat
    requires AllDigits(s)
  {
    if s == "" then 0 else 10 * NumberOf(s[..|s| - 1]) + (s[|s| - 1] - '0') as nat
  }

  lemma {:induction false} DigitsRead(v: nat, width: nat)
    requires v < Pow10(width)
    ensures NumberOf(Digits(v, width)) == v
  {
    if width > 0 {
      var s := Digits(v, width);
      assert s[..|s| - 1] == Digits(v / 10, width - 1);
      DigitsRead(v / 10, width - 1);
    }
  }

  function Zeros(n: nat): (s: string)
    ensures |s| == n && forall i :: 0 <= i < n ==> s[i] == '0'
  {
    if n == 0 then "" else Zeros(n - 1) + "0"
  }

  /** Where the i-th field of the text begins. */
  function FieldStart(i: nat): nat { if i == 0 then 0 else 2 + 3 * i }

  lemma {:induction false} LeadLength(t: Stamp, i: nat)
    requires i < 6
    ensures |Lead(t, i)| == FieldStart(i) && (i > 0 ==> Lead(t, i)[FieldStart(i) - 1] == "--T::"[i - 1])
  {
    if i > 0 { LeadLength(t, i - 1); }
  }

  /** The text tells the i-th of year, month, day, hour, minute, second, each with
      the separator in front of it. */
  lemma FieldReads(t: Stamp, i: nat)
    requires t.Printable() && i < 6
    ensures var s, from, width := Format(t), FieldStart(i), if i == 0 then 4 else 2;
      && from + width <= |s| && (i > 0 ==> s[from - 1] == "--T::"[i - 1])
      && AllDigits(s[from..from + width]) && NumberOf(s[from..from + width]) == t.Fields()[i]
  {
    hide Format, Digits, Lead, Tail, NumberOf;
    FormatSplits(t, i);
    LeadLength(t, i);
    assert Pow10(2) == 100 && Pow10(4) == 10000;
    var d := Digits(t.Fields()[i], FieldWidth(i));
    DigitsRead(t.Fields()[i], FieldWidth(i));
    var s, from := Format(t), FieldStart(i);
    assert s[from..from + |d|] == d;
    if i > 0 { assert s[from - 1] == Lead(t, i)[from - 1]; }
  }

  /** After the seconds comes a "Z", or a point, the fraction without zeros at its
      end, and a "Z". */
  lemma FractionReads(t: Stamp)
    requires t.Printable()
    ensures var s, p := Format(t), FractionDigits(t);
      && s[19..] == (if t.nanos == 0 then "Z" else "." + p + "Z")
      && |s| >= 20 && |p| <= 9 && (p != "" ==> p[|p| - 1] != '0')
      && AllDigits(p + Zeros(9 - |p|)) && NumberOf(p + Zeros(9 - |p|)) == t.nanos
  {
    hide Digits, TrimZeros, NumberOf, Zeros;
    var d, p := Digits(t.nanos, 9), FractionDigits(t);
    assert |WholeSecondText(t)| == 19;
    TrimKeepsPrefix(d);
    PaddedBack(d, p);
    assert Pow10(9) == 1_000_000_000;
    DigitsRead(t.nanos, 9);
    NothingLeft(t);
  }

  lemma PaddedBack(d: string, p: string)
    requires |d| == 9 && p <= d && forall i :: |p| <= i < 9 ==> d[i] == '0'
    ensures p + Zeros(9 - |p|) == d
  {
  }

  lemma NothingLeft(t: Stamp)
    requires t.nanos < 1_000_000_000
    ensures FractionDigits(t) == "" <==> t.nanos == 0
  {
    var d := Digits(t.nanos, 9);
    TrimKeepsPrefix(d);
    assert Pow10(9) == 1_000_000_000;
    DigitsRead(t.nanos, 9);
    if FractionDigits(t) == "" { ZerosRead(d); }
    if t.nanos == 0 {
      DigitsOfZero(9);
      if FractionDigits(t) != "" { assert false; }
    }
  }

  lemma {:induction false} ZerosRead(s: string)
    requires forall i :: 0 <= i < |s| ==> s[i] == '0'
    ensures NumberOf(s) == 0
  {
    if s != "" { ZerosRead(s[..|s| - 1]); }
  }

  /** Text order is time order exactly when the two instants do not share a
      second in which the earlier fraction is a prefix of the later one. */
  lemma TextOrderExactly(a: Stamp, b: Stamp)
    requires a.Printable() && b.Printable() && Before(a, b)
    ensures Less(Format(a), Format(b)) <==> !Misordered(a, b)
    ensures Less(Format(b), Format(a)) <==> Misordered(a, b)
  {
    if SameSecond(a, b) {
      assert a.Fields() == b.Fields();
      SameSecondFields(a, b);
      FractionDecides(a, b);
    } else {
      FieldDecides(a, b, FirstDifference(a, b));
    }
    if Less(Format(a), Format(b)) {
      LessTotal(Format(a), Format(b));
    } else {
      LessTotal(Format(b), Format(a));
    }
  }

  lemma SameSecondFields(a: Stamp, b: Stamp)
    requires SameSecond(a, b)
    ensures a.(nanos := 0) == b.(nanos := 0)
  {
    assert forall i :: 0 <= i < 6 ==> a.Fields()[i] == b.Fields()[i];
    assert a.Fields()[0] == a.year && a.Fields()[1] == a.month && a.Fields()[2] == a.day;
    assert a.Fields()[3] == a.hour && a.Fields()[4] == a.minute && a.Fields()[5] == a.second;
    assert b.Fields()[0] == b.year && b.Fields()[1] == b.month && b.Fields()[2] == b.day;
    assert b.Fields()[3] == b.hour && b.Fields()[4] == b.minute && b.Fields()[5] == b.second;
  }

  /** The store's `next_run_at <= now` on text. */
  ghost predicate TextDue(next: Stamp, now: Stamp) { !Less(Format(now), Format(next)) }

  /** The due test errs only within one second of wall clock, and exactly on
      the misordered pairs: a task is run early (by less than a second) or
      seen late (within the same second) on no other pair. */
  lemma DueTestExactly(next: Stamp, now: Stamp)
    requires next.Printable() && now.Printable()
    ensures Before(now, next) ==> (TextDue(next, now) <==> Misordered(now, next))
    ensures Before(next, now) ==> (TextDue(next, now) <==> !Misordered(next, now))
    ensures next == now ==> TextDue(next, now)
    ensures TextDue(next, now) && Before(now, next) ==>
              SameSecond(now, next) && 0 < next.nanos - now.nanos < 1_000_000_000
  {
    if Before(now, next) {
      TextOrderExactly(now, next);
      if SameSecond(now, next) { SameSecondFields(now, next); }
    }
    if Before(next, now) { TextOrderExactly(next, now); }
    if next == now && Less(Format(now), Format(next)) {
      LessTotal(Format(now), Format(next));
    }
  }

  lemma {:induction false} DigitsOfZero(width: nat)
    ensures forall i :: 0 <= i < width ==> Digits(0, width)[i] == '0'
  {
    if width > 0 { DigitsOfZero(width - 1); }
  }

  /** A task due 0.300000001 s later is taken by a claim made at 5 s sharp. */
  lemma EarlyClaimExample(now: Stamp, next: Stamp)
    requires now == Stamp(2026, 1, 2, 3, 4, 5, 0) && next == now.(nanos := 300_000_001)
    ensures Before(now, next) && TextDue(next, now)
  {
    hide Digits, TrimZeros, Format, Less;
    DigitsOfZero(9);
    TrimKeepsPrefix(Digits(0, 9));
    LastDigit(300_000_001, 9);
    TrimKeepsPrefix(Digits(300_000_001, 9));
    DueTestExactly(next, now);
  }

  lemma LastDigit(v: nat, width: nat)
    requires width > 0
    ensures Digits(v, width)[width - 1] == Digit(v % 10)
  {
  }

  ghost predicate TextLeast(x: Stamp, among: set<Stamp>) {
    x in among && forall y :: y in among && y != x ==> Less(Format(x), Format(y))
  }

  ghost predicate TimeLeast(x: Stamp, among: set<Stamp>) {
    x in among && forall y :: y in among && y != x ==> Before(x, y)
  }

  /** ORDER BY created_at LIMIT 1 over distinct creation times picks the oldest
      row whenever all fractions are printed with the same width. */
  lemma OldestFirst(x: Stamp, among: set<Stamp>)
    requires forall y :: y in among ==> y.Printable()
    requires forall y, z :: y in among && z in among ==> |FractionDigits(y)| == |FractionDigits(z)|
    ensures TextLeast(x, among) <==> TimeLeast(x, among)
  {
    if x in among {
      forall y | y in among && y != x
        ensures Less(Format(x), Format(y)) <==> Before(x, y)
      {
        if Before(x, y) { TextOrderExactly(x, y); }
        if Before(y, x) { TextOrderExactly(y, x); }
      }
    }
  }
}
