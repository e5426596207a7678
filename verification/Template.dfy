/** Command templates (internal/api/server.go:785-889): the rewriting loop that
    fills placeholders, and the argv it yields. Argument values are the text
    they print as. */
module Template {

  const OPEN := "{{."
  const CLOSE := "}}"
  const MARKER := "[REDACTED]"

  datatype Option<T> = None | Some(value: T)

  predicate At(s: string, pat: string, k: nat) {
    k + |pat| <= |s| && s[k..k + |pat|] == pat
  }

  predicate Contains(s: string, pat: string) { Index(s, pat, 0) >= 0 }

  /** First occurrence of pat at or after `from`, or -1. */
  function Index(s: string, pat: string, from: nat): (r: int)
    ensures r == -1 || (from <= r && At(s, pat, r))
    decreases |s| - from
  {
    if from + |pat| > |s| then -1
    else if At(s, pat, from) then from
    else Index(s, pat, from + 1)
  }

  lemma {:induction false} IndexIsFirst(s: string, pat: string, from: nat)
    ensures var r := Index(s, pat, from);
      forall k: nat :: from <= k && (r == -1 || k < r) ==> !At(s, pat, k)
    decreases |s| - from
  {
    if from + |pat| <= |s| && !At(s, pat, from) {
      IndexIsFirst(s, pat, from + 1);
    }
  }

  lemma {:induction false} IndexFinds(s: string, pat: string, from: nat, r: nat)
    requires from <= r && At(s, pat, r)
    requires forall k: nat :: from <= k < r ==> !At(s, pat, k)
    ensures Index(s, pat, from) == r
  {
    IndexIsFirst(s, pat, from);
  }

  /** A text around the placeholder the loop would rewrite next. */
  datatype Split = Split(before: string, name: string, rest: string)

  function SplitNext(s: string): (r: Option<Split>)
    ensures r.Some? ==> |r.value.rest| < |s|
  {
    var i := Index(s, OPEN, 0);
    if i < 0 then None
    else
      var j := Index(s, CLOSE, i);
      if j < 0 then None
      else
        MarksDoNotOverlap(s, i, j);
        Some(Split(s[..i], s[i + |OPEN|..j], s[j + |CLOSE|..]))
  }

  lemma SplitByIndex(s: string)
    ensures var i := Index(s, OPEN, 0);
      if i < 0 then SplitNext(s) == None
      else
        var j := Index(s, CLOSE, i);
        if j < 0 then SplitNext(s) == None
        else i + |OPEN| <= j <= |s| - |CLOSE| &&
             SplitNext(s) == Some(Split(s[..i], s[i + |OPEN|..j], s[j + |CLOSE|..]))
  {
    var i := Index(s, OPEN, 0);
    if i >= 0 && Index(s, CLOSE, i) >= 0 {
      MarksDoNotOverlap(s, i, Index(s, CLOSE, i));
    }
  }

  lemma NotAt(s: string, pat: string, k: nat)
    requires pat != "" && (k < |s| ==> s[k] != pat[0])
    ensures !At(s, pat, k)
  {
    if k + |pat| <= |s| { assert s[k..k + |pat|][0] == s[k]; }
  }

  lemma CharsAt(s: string, pat: string, k: nat)
    requires At(s, pat, k)
    ensures forall m :: 0 <= m < |pat| ==> s[k + m] == pat[m]
  {
    forall m | 0 <= m < |pat| ensures s[k + m] == pat[m] {
      assert s[k..k + |pat|][m] == s[k + m];
    }
  }

  lemma MarksDoNotOverlap(s: string, i: nat, j: nat)
    requires At(s, OPEN, i) && At(s, CLOSE, j) && i <= j
    ensures i + |OPEN| <= j
  {
    CharsAt(s, OPEN, i);
    CharsAt(s, CLOSE, j);
    assert s[i + 0] == OPEN[0] == '{' && s[i + 1] == OPEN[1] == '{' && s[i + 2] == OPEN[2] == '.';
    assert s[j + 0] == CLOSE[0] == '}';
  }

  function Lookup(args: map<string, string>, name: string): string {
    if name in args then args[name] else ""
  }

  /** One turn of the loop. */
  function Rewrite(p: Split, args: map<string, string>): string {
    p.before + Lookup(args, p.name) + p.rest
  }

  predicate Settled(s: string) { SplitNext(s).None? }

  /** The token after at most k turns, and the names met on the way. */
  function After(s: string, args: map<string, string>, k: nat): string
    decreases k
  {
    match SplitNext(s)
    case None => s
    case Some(p) => if k == 0 then s else After(Rewrite(p, args), args, k - 1)
  }

  function NamesMet(s: string, args: map<string, string>, k: nat): seq<string>
    decreases k
  {
    match SplitNext(s)
    case None => []
    case Some(p) => if k == 0 then [] else [p.name] + NamesMet(Rewrite(p, args), args, k - 1)
  }

  /** The loop ends on this token. */
  ghost predicate Stops(tok: string, args: map<string, string>) {
    exists k: nat :: Settled(After(tok, args, k))
  }

  /** What the loop leaves, and the names it met, when it ends. */
  ghost function Filled(tok: string, args: map<string, string>): string
    requires Stops(tok, args)
  {
    var k: nat :| Settled(After(tok, args, k));
    After(tok, args, k)
  }

  ghost function FilledNames(tok: string, args: map<string, string>): seq<string>
    requires Stops(tok, args)
  {
    var k: nat :| Settled(After(tok, args, k));
    NamesMet(tok, args, k)
  }

  lemma {:induction false} SettledOnce(tok: string, args: map<string, string>, j: nat, k: nat)
    requires Settled(After(tok, args, j)) && Settled(After(tok, args, k))
    ensures After(tok, args, j) == After(tok, args, k) && NamesMet(tok, args, j) == NamesMet(tok, args, k)
    decreases j
  {
    hide SplitNext;
    if !Settled(tok) {
      SettledOnce(Rewrite(SplitNext(tok).value, args), args, j - 1, k - 1);
    }
  }

  lemma FilledAfter(tok: string, args: map<string, string>, k: nat)
    requires Settled(After(tok, args, k))
    ensures Stops(tok, args) && Filled(tok, args) == After(tok, args, k)
    ensures FilledNames(tok, args) == NamesMet(tok, args, k)
  {
    var j: nat :| Settled(After(tok, args, j)) && Filled(tok, args) == After(tok, args, j);
    SettledOnce(tok, args, j, k);
    var i: nat :| Settled(After(tok, args, i)) && FilledNames(tok, args) == NamesMet(tok, args, i);
    SettledOnce(tok, args, i, k);
  }

  method Subst(tok: string, args: map<string, string>)
      returns (out: string, isTemplate: bool, fields: seq<string>)
    requires Stops(tok, args)
    ensures out == Filled(tok, args)
    ensures fields == FilledNames(tok, args)
    ensures isTemplate == Contains(tok, OPEN)
  {
    ghost var k: nat :| Settled(After(tok, args, k));
    FilledAfter(tok, args, k);
    if Index(tok, OPEN, 0) < 0 {
      return tok, false, [];
    }
    isTemplate := true;
    out, fields := RewriteAll(tok, args, k);
  }

  /** The next turn of a loop that will end uses up one of its turns. */
  lemma OneTurn(s: string, args: map<string, string>, k: nat)
    requires Settled(After(s, args, k)) && SplitNext(s).Some?
    ensures var p := SplitNext(s).value;
      && k > 0 && After(Rewrite(p, args), args, k - 1) == After(s, args, k)
      && NamesMet(s, args, k) == [p.name] + NamesMet(Rewrite(p, args), args, k - 1)
  {
    hide SplitNext, Rewrite;
  }

  lemma NoMoreTurns(s: string, args: map<string, string>, k: nat)
    requires SplitNext(s) == None
    ensures After(s, args, k) == s && NamesMet(s, args, k) == []
  {
  }

  /** The loop, told for how many turns it runs. */
  method RewriteAll(tok: string, args: map<string, string>, ghost k: nat) returns (out: string, fields: seq<string>)
    requires Settled(After(tok, args, k))
    ensures out == After(tok, args, k) && fields == NamesMet(tok, args, k)
  {
    hide SplitNext, Index, At, Lookup, After, NamesMet;
    out, fields := tok, [];
    assert [] + NamesMet(tok, args, k) == NamesMet(tok, args, k);
    ghost var left := k;
    while true
      invariant After(out, args, left) == After(tok, args, k)
      invariant fields + NamesMet(out, args, left) == NamesMet(tok, args, k)
      decreases left
    {
      SplitByIndex(out);
      var i := Index(out, OPEN, 0);
      if i < 0 {
        NoMoreTurns(out, args, left);
        break;
      }
      var j := Index(out, CLOSE, i);
      if j < 0 {
        NoMoreTurns(out, args, left);
        break;
      }
      OneTurn(out, args, left);
      var name := out[i + |OPEN|..j];
      fields := fields + [name];
      var val := Lookup(args, name);
      out := out[..i] + val + out[j + |CLOSE|..];
      left := left - 1;
    }
  }

  /** The intended meaning: every placeholder of the token itself is replaced
      once, at the same time. */
  function OnePass(tok: string, args: map<string, string>): string
    decreases |tok|
  {
    match SplitNext(tok)
    case None => tok
    case Some(p) => p.before + Lookup(args, p.name) + OnePass(p.rest, args)
  }

  function Placeholders(tok: string): seq<string>
    decreases |tok|
  {
    match SplitNext(tok)
    case None => []
    case Some(p) => [p.name] + Placeholders(p.rest)
  }

  /** No literal text in front of a placeholder holds an opening brace. */
  predicate PlainToken(tok: string)
    decreases |tok|
  {
    match SplitNext(tok)
    case None => true
    case Some(p) => '{' !in p.before && PlainToken(p.rest)
  }

  predicate PlainValues(args: map<string, string>) { forall n :: n in args ==> '{' !in args[n] }

  /** On plain input the rewriting loop ends after one turn per placeholder and
      is the simultaneous substitution. */
  lemma LoopIsOnePass(tok: string, args: map<string, string>)
    requires PlainToken(tok) && PlainValues(args)
    ensures Stops(tok, args)
    ensures Filled(tok, args) == OnePass(tok, args)
    ensures FilledNames(tok, args) == Placeholders(tok)
  {
    LoopBehindPrefix("", tok, args);
    assert "" + tok == tok;
    FilledAfter(tok, args, |Placeholders(tok)|);
  }

  lemma {:induction false} LoopBehindPrefix(done: string, tok: string, args: map<string, string>)
    requires '{' !in done && PlainToken(tok) && PlainValues(args)
    ensures var k := |Placeholders(tok)|;
      && After(done + tok, args, k) == done + OnePass(tok, args)
      && Settled(done + OnePass(tok, args))
      && NamesMet(done + tok, args, k) == Placeholders(tok)
    decreases |tok|
  {
    hide SplitNext;
    SplitBehindPrefix(done, tok);
    match SplitNext(tok)
    case None =>
    case Some(p) =>
      var done' := done + p.before + Lookup(args, p.name);
      assert Rewrite(SplitNext(done + tok).value, args) == done' + p.rest;
      LoopBehindPrefix(done', p.rest, args);
      assert done + OnePass(tok, args) == done' + OnePass(p.rest, args);
  }

  lemma SplitBehindPrefix(done: string, tok: string)
    requires '{' !in done
    ensures SplitNext(done + tok) == match SplitNext(tok)
      case None => None
      case Some(p) => Some(p.(before := done + p.before))
  {
    hide SplitNext, Index;
    var s, i := done + tok, Index(tok, OPEN, 0);
    forall k: nat | k < |done| ensures !At(s, OPEN, k) { NotAt(s, OPEN, k); }
    IndexBehindPrefix(done, tok, OPEN, 0, 0);
    SplitByIndex(s);
    SplitByIndex(tok);
    if i >= 0 {
      assert s[..|done| + i] == done + tok[..i];
      IndexBehindPrefix(done, tok, CLOSE, i, |done| + i);
      var j := Index(tok, CLOSE, i);
      if j >= 0 {
        assert s[|done| + i + |OPEN|..|done| + j] == tok[i + |OPEN|..j];
        assert s[|done| + j + |CLOSE|..] == tok[j + |CLOSE|..];
      }
    }
  }

  /** Searching behind a prefix that holds no match gives the shifted result. */
  lemma IndexBehindPrefix(done: string, tok: string, pat: string, from: nat, from': nat)
    requires from' <= |done| + from
    requires forall k: nat :: from' <= k < |done| + from ==> !At(done + tok, pat, k)
    ensures Index(done + tok, pat, from') == var i := Index(tok, pat, from); if i < 0 then -1 else |done| + i
  {
    var i, s := Index(tok, pat, from), done + tok;
    IndexIsFirst(tok, pat, from);
    IndexIsFirst(s, pat, from');
    forall k: nat ensures k >= |done| ==> (At(s, pat, k) <==> At(tok, pat, k - |done|)) {
      ShiftedAt(done, tok, pat, k);
    }
    if i >= 0 {
      assert At(s, pat, |done| + i);
      IndexFinds(s, pat, from', |done| + i);
    }
  }

  lemma ShiftedAt(done: string, tok: string, pat: string, k: nat)
    ensures k >= |done| ==> (At(done + tok, pat, k) <==> At(tok, pat, k - |done|))
  {
    if k >= |done| && k + |pat| <= |done| + |tok| {
      assert (done + tok)[k..k + |pat|] == tok[k - |done|..k - |done| + |pat|];
    }
  }

  /** The token is exactly one placeholder. */
  function SolePlaceholder(tok: string): (name: Option<string>)
    ensures name.Some? ==> tok == OPEN + name.value + CLOSE
  {
    if |tok| < |OPEN| + |CLOSE| || tok[..|OPEN|] != OPEN || tok[|tok| - |CLOSE|..] != CLOSE then None
    else
      var name := tok[|OPEN|..|tok| - |CLOSE|];
      if name == "" || '.' in name || '/' in name || '{' in name || '}' in name || ' ' in name then None
      else Some(name)
  }

  lemma SoleRewrites(tok: string, args: map<string, string>, name: string)
    requires SolePlaceholder(tok) == Some(name)
    ensures SplitNext(tok) == Some(Split("", name, ""))
    ensures OnePass(tok, args) == Lookup(args, name) == Rewrite(Split("", name, ""), args)
  {
    assert At(tok, OPEN, 0);
    var c := |OPEN| + |name|;
    assert At(tok, CLOSE, c);
    CharsAt(tok, OPEN, 0);
    assert tok[0 + 0] == '{' && tok[0 + 1] == '{' && tok[0 + 2] == '.';
    assert forall m :: |OPEN| <= m < c ==> tok[m] == name[m - |OPEN|];
    forall k: nat | k < c ensures !At(tok, CLOSE, k) {
      NotAt(tok, CLOSE, k);
    }
    IndexFinds(tok, OPEN, 0, 0);
    IndexFinds(tok, CLOSE, 0, c);
    assert OnePass("", args) == "";
  }

  /** For a token that is one placeholder, the loop ends with the argument's
      value exactly when that value holds no placeholder itself. Otherwise it
      expands the inserted text again, or never ends. */
  lemma SoleTokenExactly(tok: string, args: map<string, string>, name: string)
    requires SolePlaceholder(tok) == Some(name)
    ensures Stops(tok, args) && Filled(tok, args) == OnePass(tok, args) <==> Settled(Lookup(args, name))
  {
    SoleRewrites(tok, args, name);
    var val := Lookup(args, name);
    if Settled(val) {
      assert After(tok, args, 1) == val;
      FilledAfter(tok, args, 1);
    } else if Stops(tok, args) {
      var k: nat :| Settled(After(tok, args, k));
      FilledAfter(tok, args, k);
      assert Settled(Filled(tok, args));
    }
  }

  /** A value that names its own placeholder keeps the loop turning for ever. */
  lemma SelfReferenceNeverStops(args: map<string, string>)
    requires args == map["a" := "{{.a}}"]
    ensures !Stops("{{.a}}", args)
  {
    forall k: nat ensures !Settled(After("{{.a}}", args, k)) {
      SelfReferenceTurns(args, k);
    }
  }

  lemma {:induction false} SelfReferenceTurns(args: map<string, string>, k: nat)
    requires args == map["a" := "{{.a}}"]
    ensures After("{{.a}}", args, k) == "{{.a}}" && !Settled("{{.a}}")
  {
    hide SplitNext;
    assert "{{.a}}"[..3] == OPEN && "{{.a}}"[4..] == CLOSE && "{{.a}}"[3..4] == "a";
    SoleRewrites("{{.a}}", args, "a");
    if k > 0 { SelfReferenceTurns(args, k - 1); }
  }

  datatype ArgSpec = ArgSpec(name: string, flag: string, required: bool)

  datatype Verb = Verb(argv: seq<string>, args: seq<ArgSpec>, stdinArg: Option<string>)

  datatype Result = Missing(name: string) | Expanded(argv: seq<string>, redacted: seq<string>)

  /** The last declaration of a name counts. */
  function SpecOf(specs: seq<ArgSpec>, name: string): Option<ArgSpec> {
    if specs == [] then None
    else if specs[|specs| - 1].name == name then Some(specs[|specs| - 1])
    else SpecOf(specs[..|specs| - 1], name)
  }

  function SecretFields(v: Verb): set<string> {
    if v.stdinArg.Some? && v.stdinArg.value != "" then {v.stdinArg.value} else {}
  }

  ghost predicate AllStop(v: Verb, args: map<string, string>) {
    forall i :: 0 <= i < |v.argv| ==> Stops(v.argv[i], args)
  }

  /** One template token and what became of it. */
  datatype Piece = Piece(raw: string, out: string, isTmpl: bool, fields: seq<string>)

  ghost function PieceOf(tok: string, args: map<string, string>): Piece
    requires Stops(tok, args)
  {
    Piece(tok, Filled(tok, args), Contains(tok, OPEN), FilledNames(tok, args))
  }

  ghost function PiecesOf(v: Verb, args: map<string, string>): seq<Piece>
    requires AllStop(v, args)
  {
    seq(|v.argv|, i requires 0 <= i < |v.argv| => PieceOf(v.argv[i], args))
  }

  /** An optional argument that came out empty. */
  predicate EmptyOptional(v: Verb, p: Piece) {
    var name := SolePlaceholder(p.raw);
    && name.Some? && p.out == ""
    && SpecOf(v.args, name.value).Some? && !SpecOf(v.args, name.value).value.required
  }

  /** p is, word for word, the declared flag of the empty optional argument q. */
  predicate FlagOfEmpty(v: Verb, p: Piece, q: Piece) {
    && EmptyOptional(v, q) && !p.isTmpl && p.raw != ""
    && SpecOf(v.args, SolePlaceholder(q.raw).value).value.flag == p.raw
  }

  predicate Dropped(v: Verb, ex: seq<Piece>, i: nat)
    requires i < |ex|
  {
    EmptyOptional(v, ex[i]) || (i + 1 < |ex| && FlagOfEmpty(v, ex[i], ex[i + 1]))
  }

  predicate Secret(v: Verb, p: Piece, stdin: string) {
    || (p.isTmpl && exists i :: 0 <= i < |p.fields| && p.fields[i] in SecretFields(v))
    || (stdin != "" && Contains(p.out, stdin))
  }

  function Shown(v: Verb, p: Piece, stdin: string): string {
    if Secret(v, p, stdin) then MARKER else p.out
  }

  /** The tokens kept among the first n, and what may be shown of each. */
  function KeptArgv(v: Verb, ex: seq<Piece>, n: nat): seq<string>
    requires n <= |ex|
  {
    if n == 0 then []
    else KeptArgv(v, ex, n - 1) + (if Dropped(v, ex, n - 1) then [] else [ex[n - 1].out])
  }

  function KeptShown(v: Verb, ex: seq<Piece>, stdin: string, n: nat): seq<string>
    requires n <= |ex|
  {
    if n == 0 then []
    else KeptShown(v, ex, stdin, n - 1) + (if Dropped(v, ex, n - 1) then [] else [Shown(v, ex[n - 1], stdin)])
  }

  method Pieces(v: Verb, args: map<string, string>) returns (ex: seq<Piece>)
    requires AllStop(v, args)
    ensures ex == PiecesOf(v, args)
  {
    ex := [];
    for i := 0 to |v.argv|
      invariant ex == PiecesOf(v, args)[..i]
    {
      var out, isTmpl, fields := Subst(v.argv[i], args);
      ex := ex + [Piece(v.argv[i], out, isTmpl, fields)];
      assert PiecesOf(v, args)[i] == ex[i];
    }
  }

  ghost predicate WellMarked(ex: seq<Piece>) {
    forall i :: 0 <= i < |ex| ==> ex[i].isTmpl == Contains(ex[i].raw, OPEN)
  }

  lemma SoleIsTemplate(tok: string)
    requires SolePlaceholder(tok).Some?
    ensures Contains(tok, OPEN)
  {
    assert At(tok, OPEN, 0);
  }

  method MarkDropped(v: Verb, ex: seq<Piece>) returns (drop: array<bool>)
    requires WellMarked(ex)
    ensures drop.Length == |ex|
    ensures forall i :: 0 <= i < |ex| ==> drop[i] == Dropped(v, ex, i)
  {
    drop := new bool[|ex|](_ => false);
    for i := 0 to |ex|
      invariant forall k :: i <= k < |ex| ==> !drop[k]
      invariant forall k :: 0 <= k < i - 1 ==> drop[k] == Dropped(v, ex, k)
      invariant i > 0 ==> drop[i - 1] == EmptyOptional(v, ex[i - 1])
    {
      var name := SolePlaceholder(ex[i].raw);
      if name == None || ex[i].out != "" { continue; }
      var spec := SpecOf(v.args, name.value);
      if spec == None || spec.value.required { continue; }
      drop[i] := true;
      if i > 0 {
        if drop[i - 1] { SoleIsTemplate(ex[i - 1].raw); }
        if !drop[i - 1] && spec.value.flag != "" && !ex[i - 1].isTmpl && ex[i - 1].raw == spec.value.flag {
          drop[i - 1] := true;
        }
      }
    }
  }

  method ShowPiece(v: Verb, p: Piece, stdin: string) returns (red: string)
    ensures red == Shown(v, p, stdin)
  {
    red := p.out;
    if p.isTmpl {
      for f := 0 to |p.fields|
        invariant red == p.out
        invariant forall k :: 0 <= k < f ==> p.fields[k] !in SecretFields(v)
      {
        if p.fields[f] in SecretFields(v) {
          red := MARKER;
          break;
        }
      }
    }
    if stdin != "" && Contains(p.out, stdin) {
      red := MARKER;
    }
  }

  predicate Lacks(a: ArgSpec, args: map<string, string>) { a.required && a.name !in args }

  /** The first required argument the request lacks. */
  function FirstLacking(specs: seq<ArgSpec>, args: map<string, string>): Option<string> {
    if specs == [] then None
    else if Lacks(specs[0], args) then Some(specs[0].name)
    else FirstLacking(specs[1..], args)
  }

  lemma {:induction false} FirstLackingIsFirst(specs: seq<ArgSpec>, args: map<string, string>)
    ensures match FirstLacking(specs, args)
            case None => forall i :: 0 <= i < |specs| ==> !Lacks(specs[i], args)
            case Some(name) =>
              exists i :: 0 <= i < |specs| && Lacks(specs[i], args) && name == specs[i].name &&
                          forall k :: 0 <= k < i ==> !Lacks(specs[k], args)
  {
    if specs != [] && !Lacks(specs[0], args) {
      FirstLackingIsFirst(specs[1..], args);
      if FirstLacking(specs, args).Some? {
        var i :| 0 <= i < |specs[1..]| && Lacks(specs[1..][i], args) &&
                 FirstLacking(specs[1..], args).value == specs[1..][i].name &&
                 forall k :: 0 <= k < i ==> !Lacks(specs[1..][k], args);
        assert specs[1..][i] == specs[i + 1];
        assert forall k :: 0 < k < i + 1 ==> specs[k] == specs[1..][k - 1];
      }
    }
  }

  method CheckRequired(specs: seq<ArgSpec>, args: map<string, string>) returns (missing: Option<string>)
    ensures missing == FirstLacking(specs, args)
  {
    for i := 0 to |specs|
      invariant FirstLacking(specs[i..], args) == FirstLacking(specs, args)
    {
      if specs[i].required && specs[i].name !in args { return Some(specs[i].name); }
    }
    return None;
  }

  method ExpandArgv(v: Verb, args: map<string, string>, stdin: string) returns (r: Result)
    requires AllStop(v, args)
    ensures r.Missing? <==> FirstLacking(v.args, args).Some?
    ensures r.Missing? ==> Some(r.name) == FirstLacking(v.args, args)
    ensures r.Missing? ==>
      exists i :: 0 <= i < |v.args| && Lacks(v.args[i], args) && r.name == v.args[i].name &&
                  forall k :: 0 <= k < i ==> !Lacks(v.args[k], args)
    ensures r.Expanded? ==> forall i :: 0 <= i < |v.args| ==> !Lacks(v.args[i], args)
    ensures r.Expanded? ==> r.argv == KeptArgv(v, PiecesOf(v, args), |v.argv|)
    ensures r.Expanded? ==> r.redacted == KeptShown(v, PiecesOf(v, args), stdin, |v.argv|)
  {
    hide Dropped, EmptyOptional, Shown, Stops, Index;
    FirstLackingIsFirst(v.args, args);
    var missing := CheckRequired(v.args, args);
    if missing.Some? { return Missing(missing.value); }
    var ex := Pieces(v, args);
    var drop := MarkDropped(v, ex);
    var argv, redacted := [], [];
    for i := 0 to |ex|
      invariant forall k :: 0 <= k < |ex| ==> drop[k] == Dropped(v, ex, k)
      invariant argv == KeptArgv(v, ex, i)
      invariant redacted == KeptShown(v, ex, stdin, i)
    {
      if drop[i] { continue; }
      var red := ShowPiece(v, ex[i], stdin);
      argv := argv + [ex[i].out];
      redacted := redacted + [red];
    }
    r := Expanded(argv, redacted);
  }

  /** Where the kept tokens stand in the template. */
  function KeptFrom(v: Verb, ex: seq<Piece>, n: nat): seq<nat>
    requires n <= |ex|
  {
    if n == 0 then [] else KeptFrom(v, ex, n - 1) + (if Dropped(v, ex, n - 1) then [] else [n - 1])
  }

  /** In template order, and exactly the tokens that were not dropped. */
  lemma {:induction false} KeptInOrder(v: Verb, ex: seq<Piece>, n: nat)
    requires n <= |ex|
    ensures var from := KeptFrom(v, ex, n);
      && (forall i :: 0 <= i < |from| ==> from[i] < n)
      && (forall i, j :: 0 <= i < j < |from| ==> from[i] < from[j])
      && (forall m: nat :: m < n ==> (m in from <==> !Dropped(v, ex, m)))
  {
    hide Dropped;
    if n > 0 { KeptInOrder(v, ex, n - 1); }
  }

  lemma {:induction false} KeptAreOutputs(v: Verb, ex: seq<Piece>, n: nat)
    requires n <= |ex|
    ensures var from, argv := KeptFrom(v, ex, n), KeptArgv(v, ex, n);
      && |from| == |argv|
      && forall i :: 0 <= i < |from| ==> from[i] < n && argv[i] == ex[from[i]].out
  {
    hide Dropped;
    if n > 0 { KeptAreOutputs(v, ex, n - 1); }
  }

  /** What may be shown of a token: the token or the marker, and the stdin text
      shows exactly when the token was hidden and the marker's own letters hold
      that text. */
  predicate HidesStdin(v: Verb, p: Piece, shown: string, stdin: string) {
    && (shown == p.out || shown == MARKER)
    && (stdin != "" ==> (Contains(shown, stdin) <==> Secret(v, p, stdin) && Contains(MARKER, stdin)))
  }

  /** The list shown is aligned with the tokens kept. */
  lemma {:induction false} ShownAligned(v: Verb, ex: seq<Piece>, stdin: string, n: nat)
    requires n <= |ex|
    ensures |KeptShown(v, ex, stdin, n)| == |KeptArgv(v, ex, n)| == |KeptFrom(v, ex, n)|
    ensures var from, shown := KeptFrom(v, ex, n), KeptShown(v, ex, stdin, n);
      forall i :: 0 <= i < |from| ==> from[i] < n && HidesStdin(v, ex[from[i]], shown[i], stdin)
  {
    hide Dropped;
    if n > 0 {
      ShownAligned(v, ex, stdin, n - 1);
    }
  }

  /** The stdin text "RED" is hidden from every token that holds it, and the
      marker that takes its place shows it. */
  lemma MarkerShowsRed(v: Verb, p: Piece)
    requires Contains(p.out, "RED")
    ensures Shown(v, p, "RED") == MARKER && Contains(Shown(v, p, "RED"), "RED")
  {
    assert MARKER[1..4] == "RED";
  }

  /** With plain values and templates, every token is the simultaneous
      substitution of its template. */
  lemma PlainPieces(v: Verb, args: map<string, string>)
    requires PlainValues(args) && forall i :: 0 <= i < |v.argv| ==> PlainToken(v.argv[i])
    ensures AllStop(v, args)
    ensures forall i :: 0 <= i < |v.argv| ==>
      PiecesOf(v, args)[i].out == OnePass(v.argv[i], args) && PiecesOf(v, args)[i].fields == Placeholders(v.argv[i])
  {
    forall i | 0 <= i < |v.argv|
      ensures Stops(v.argv[i], args) && Filled(v.argv[i], args) == OnePass(v.argv[i], args)
      ensures FilledNames(v.argv[i], args) == Placeholders(v.argv[i])
    {
      LoopIsOnePass(v.argv[i], args);
    }
  }

  // ---- arguments that are absent, empty or given

  /** The token is the placeholder of this name and nothing else. */
  predicate PlaceholderOf(tok: string, name: string) {
    tok == "{{." + name + "}}" && name != "" && forall c :: c in name ==> c !in "./{} "
  }

  lemma SoleExactly(tok: string, name: string)
    ensures SolePlaceholder(tok) == Some(name) <==> PlaceholderOf(tok, name)
  {
    if PlaceholderOf(tok, name) {
      assert tok[..3] == "{{." && tok[|tok| - 2..] == "}}" && tok[3..|tok| - 2] == name;
    }
  }

  /** A placeholder whose argument is absent is filled with nothing; one whose
      argument holds no placeholder is filled with that argument. */
  lemma SoleFill(tok: string, args: map<string, string>, name: string)
    requires PlaceholderOf(tok, name) && (name in args ==> SplitNext(args[name]) == None)
    ensures Stops(tok, args) && Filled(tok, args) == if name in args then args[name] else ""
    ensures FilledNames(tok, args) == [name]
  {
    SoleExactly(tok, name);
    SoleTokenExactly(tok, args, name);
    SoleRewrites(tok, args, name);
    assert After(tok, args, 1) == Lookup(args, name) && NamesMet(tok, args, 1) == [name];
    FilledAfter(tok, args, 1);
  }

  /** For every token, an absent argument and an empty one give the same text. */
  lemma AbsentLikeEmpty(tok: string, args: map<string, string>, name: string)
    requires name !in args
    ensures Stops(tok, args) <==> Stops(tok, args[name := ""])
    ensures Stops(tok, args) ==> Filled(tok, args) == Filled(tok, args[name := ""])
  {
    var args' := args[name := ""];
    forall k: nat ensures After(tok, args, k) == After(tok, args', k) { SameTurns(tok, args, args', k); }
    if Stops(tok, args) {
      var k: nat :| Settled(After(tok, args, k));
      FilledAfter(tok, args, k);
      FilledAfter(tok, args', k);
    }
  }

  lemma {:induction false} SameTurns(tok: string, args: map<string, string>, args': map<string, string>, k: nat)
    requires forall n :: Lookup(args, n) == Lookup(args', n)
    ensures After(tok, args, k) == After(tok, args', k)
    decreases k
  {
    hide SplitNext, Lookup;
    if k > 0 && SplitNext(tok).Some? {
      assert Rewrite(SplitNext(tok).value, args) == Rewrite(SplitNext(tok).value, args');
      SameTurns(Rewrite(SplitNext(tok).value, args), args, args', k - 1);
    }
  }

  /** Of several declarations of one name the last counts. */
  lemma {:induction false} LastDeclarationCounts(specs: seq<ArgSpec>, name: string)
    ensures match SpecOf(specs, name)
            case None => forall i :: 0 <= i < |specs| ==> specs[i].name != name
            case Some(a) =>
              exists i :: 0 <= i < |specs| && specs[i] == a && a.name == name &&
                          forall k :: i < k < |specs| ==> specs[k].name != name
  {
    if specs != [] && specs[|specs| - 1].name != name {
      var before := specs[..|specs| - 1];
      LastDeclarationCounts(before, name);
      if SpecOf(before, name).Some? {
        var i :| 0 <= i < |before| && before[i] == SpecOf(before, name).value && before[i].name == name &&
                 forall k :: i < k < |before| ==> before[k].name != name;
        assert specs[i] == before[i];
      }
    }
  }

  /** Token i stands for an optional argument that was not given or is empty. */
  ghost predicate LeftEmpty(v: Verb, args: map<string, string>, i: nat, a: ArgSpec)
    requires i < |v.argv|
  {
    && PlaceholderOf(v.argv[i], a.name) && SpecOf(v.args, a.name) == Some(a) && !a.required
    && (a.name !in args || args[a.name] == "")
  }

  /** Token i goes: it is left empty itself, or it is word for word the flag of
      the next token, which is left empty. */
  ghost predicate Goes(v: Verb, args: map<string, string>, i: nat)
    requires i < |v.argv|
  {
    || (exists a :: LeftEmpty(v, args, i, a))
    || (i + 1 < |v.argv| && v.argv[i] != "" && !Contains(v.argv[i], "{{.") &&
        exists a :: LeftEmpty(v, args, i + 1, a) && a.flag == v.argv[i])
  }

  /** When no argument's value holds a placeholder, what is dropped can be told
      from the template and the arguments alone. */
  lemma DropsExactly(v: Verb, args: map<string, string>, i: nat)
    requires AllStop(v, args) && i < |v.argv| && forall n :: n in args ==> SplitNext(args[n]) == None
    ensures Dropped(v, PiecesOf(v, args), i) <==> Goes(v, args, i)
  {
    hide Stops, Filled, SplitNext, SolePlaceholder, SpecOf, Contains, PlaceholderOf;
    EmptyExactly(v, args, i);
    if i + 1 < |v.argv| { EmptyExactly(v, args, i + 1); }
  }

  lemma EmptyExactly(v: Verb, args: map<string, string>, i: nat)
    requires AllStop(v, args) && i < |v.argv| && forall n :: n in args ==> SplitNext(args[n]) == None
    ensures EmptyOptional(v, PiecesOf(v, args)[i]) <==> exists a :: LeftEmpty(v, args, i, a)
    ensures EmptyOptional(v, PiecesOf(v, args)[i]) ==>
      LeftEmpty(v, args, i, SpecOf(v.args, SolePlaceholder(v.argv[i]).value).value)
    ensures forall a, b :: LeftEmpty(v, args, i, a) && LeftEmpty(v, args, i, b) ==> a == b
  {
    hide SplitNext, SpecOf, PlaceholderOf;
    var p, tok := PiecesOf(v, args)[i], v.argv[i];
    forall a | LeftEmpty(v, args, i, a) ensures EmptyOptional(v, p) && SolePlaceholder(tok) == Some(a.name) {
      SoleExactly(tok, a.name);
      SoleFill(tok, args, a.name);
    }
    if EmptyOptional(v, p) {
      var name := SolePlaceholder(tok).value;
      SoleExactly(tok, name);
      SoleFill(tok, args, name);
      LastDeclarationCounts(v.args, name);
      var a := SpecOf(v.args, name).value;
      assert LeftEmpty(v, args, i, a);
    }
  }

  const BARE: seq<string> := ["termux-location", "-p", "{{.provider}}", "-r", "{{.request}}"]

  /** The verb location.once without arguments is the bare command. */
  lemma BareCommand(v: Verb)
    requires v.argv == BARE
    requires v.args == [ArgSpec("provider", "-p", false), ArgSpec("request", "-r", false)]
    ensures AllStop(v, map[]) && KeptArgv(v, PiecesOf(v, map[]), 5) == ["termux-location"]
  {
    BarePieces();
    hide Stops, Filled, SolePlaceholder, Contains, SpecOf, Dropped;
    assert AllStop(v, map[]) by {
      forall i | 0 <= i < |v.argv| ensures Stops(v.argv[i], map[]) { }
    }
    BareKept(v, PiecesOf(v, map[]));
  }

  lemma BarePieces()
    ensures Bare("termux-location") && Bare("-p") && Bare("-r")
    ensures Gone("{{.provider}}", "provider") && Gone("{{.request}}", "request")
  {
    hide Bare, Gone;
    PlainTokenStays("termux-location");
    PlainTokenStays("-p");
    PlainTokenStays("-r");
    PlaceholderGoes("{{.provider}}", "provider");
    PlaceholderGoes("{{.request}}", "request");
  }

  lemma PlaceholderGoes(tok: string, name: string)
    requires PlaceholderOf(tok, name)
    ensures Gone(tok, name)
  {
    hide Stops, Filled, SolePlaceholder;
    SoleFill(tok, map[], name);
    SoleExactly(tok, name);
  }

  /** Without arguments the token stays as it is. */
  ghost predicate Bare(tok: string) {
    Stops(tok, map[]) && Filled(tok, map[]) == tok && !Contains(tok, OPEN) && SolePlaceholder(tok) == None
  }

  /** Without arguments the token comes out empty. */
  ghost predicate Gone(tok: string, name: string) {
    Stops(tok, map[]) && Filled(tok, map[]) == "" && SolePlaceholder(tok) == Some(name)
  }

  lemma BraceOpens(s: string, k: nat)
    requires At(s, OPEN, k)
    ensures '{' in s
  {
    assert s[k..k + |OPEN|][0] == s[k] == '{';
  }

  lemma PlainTokenStays(tok: string)
    requires '{' !in tok
    ensures Bare(tok)
  {
    if Index(tok, OPEN, 0) >= 0 { BraceOpens(tok, Index(tok, OPEN, 0)); }
    assert After(tok, map[], 0) == tok && Settled(tok);
    FilledAfter(tok, map[], 0);
    if SolePlaceholder(tok).Some? {
      assert false;
    }
  }

  lemma BareKept(v: Verb, ex: seq<Piece>)
    requires |ex| == 5 && v.args == [ArgSpec("provider", "-p", false), ArgSpec("request", "-r", false)]
    requires ex[0].raw == ex[0].out == "termux-location" && ex[1].raw == "-p" && ex[3].raw == "-r"
    requires !ex[1].isTmpl && !ex[3].isTmpl && ex[2].out == ex[4].out == ""
    requires SolePlaceholder(ex[0].raw) == None && SolePlaceholder(ex[1].raw) == None
    requires SolePlaceholder(ex[3].raw) == None
    requires SolePlaceholder(ex[2].raw) == Some("provider") && SolePlaceholder(ex[4].raw) == Some("request")
    ensures KeptArgv(v, ex, 5) == ["termux-location"]
  {
    hide SolePlaceholder;
    var before := v.args[..1];
    assert SpecOf(v.args, "request") == Some(v.args[1]) && SpecOf(v.args, "provider") == SpecOf(before, "provider");
    assert SpecOf(before, "provider") == Some(v.args[0]);
    assert !Dropped(v, ex, 0) && Dropped(v, ex, 1) && Dropped(v, ex, 2) && Dropped(v, ex, 3) && Dropped(v, ex, 4);
    hide Dropped;
    assert KeptArgv(v, ex, 1) == ["termux-location"];
    assert KeptArgv(v, ex, 2) == KeptArgv(v, ex, 3) == KeptArgv(v, ex, 4) == ["termux-location"];
  }

  /** The text occurs somewhere. */
  ghost predicate Occurs(pat: string, s: string) {
    exists before: string, after: string :: s == before + pat + after
  }

  lemma ContainsExactly(s: string, pat: string)
    ensures Contains(s, pat) <==> Occurs(pat, s)
  {
    var k := Index(s, pat, 0);
    if k >= 0 {
      assert s == s[..k] + pat + s[k + |pat|..];
    }
    if Occurs(pat, s) {
      var before: string, after: string :| s == before + pat + after;
      assert At(s, pat, |before|);
      IndexIsFirst(s, pat, 0);
    }
  }

  /** A token is shown as the marker exactly when it is a template that names the
      stdin argument, or its text contains the stdin text. */
  lemma HiddenExactly(v: Verb, p: Piece, stdin: string)
    ensures Shown(v, p, stdin)
         == if (p.isTmpl && v.stdinArg.Some? && v.stdinArg.value != "" && v.stdinArg.value in p.fields) ||
               (stdin != "" && Occurs(stdin, p.out))
            then "[REDACTED]" else p.out
  {
    ContainsExactly(p.out, stdin);
    hide Contains, Occurs;
  }
}
