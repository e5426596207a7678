/** Per-verb circuit breakers (internal/circuit/breaker.go): the state machine
    on values, the class that updates its fields in place, and the registry. */
module Breaker {

  const DEFAULT_TRIP := 5
  const DEFAULT_OPEN_FOR := 60_000_000_000

  datatype Mode = Closed | Open | HalfOpen

  /** probeTimeout <= 0 means "use the default lease". */
  datatype Settings = Settings(trip: int, openFor: int, probeTimeout: int) {
    function Lease(): int { if probeTimeout > 0 then probeTimeout else 2 * openFor }

    predicate Sane() { trip > 0 && openFor > 0 }
  }

  datatype BState = BState(mode: Mode, failures: nat, openedAt: int, trial: bool, trialStarted: int)

  const Fresh := BState(Closed, 0, 0, false, 0)

  function NewSettings(trip: int, openFor: int): (c: Settings)
    ensures c.Sane() && c.Lease() == 2 * c.openFor
  {
    var t := if trip <= 0 then DEFAULT_TRIP else trip;
    var o := if openFor <= 0 then DEFAULT_OPEN_FOR else openFor;
    Settings(t, o, 2 * o)
  }

  /** The lazy move from open to half-open, made when a call looks at the clock. */
  function Settle(c: Settings, b: BState, now: int): BState {
    if b.mode == Open && now - b.openedAt >= c.openFor
    then b.(mode := HalfOpen, trial := false, trialStarted := 0)
    else b
  }

  function AllowResult(c: Settings, b: BState, now: int): bool {
    var s := Settle(c, b, now);
    match s.mode
    case Closed => true
    case Open => false
    case HalfOpen => !s.trial || now - s.trialStarted >= c.Lease()
  }

  function AfterAllow(c: Settings, b: BState, now: int): BState {
    var s := Settle(c, b, now);
    if s.mode == HalfOpen && AllowResult(c, b, now) then s.(trial := true, trialStarted := now) else s
  }

  function AfterSuccess(b: BState): BState {
    b.(mode := Closed, failures := 0, trial := false, trialStarted := 0)
  }

  /** A failure report does not look at the open period. */
  function AfterFailure(c: Settings, b: BState, now: int): BState
    requires c.Sane()
  {
    if b.mode == HalfOpen then BState(Open, c.trip, now, false, 0)
    else if b.failures + 1 >= c.trip then BState(Open, b.failures + 1, now, false, 0)
    else b.(failures := b.failures + 1)
  }

  /** The breaker of one verb as a value, and what calls make of it. */
  datatype Cell = Cell(settings: Settings, st: BState) {
    function Peeked(now: int): Cell { this.(st := Settle(settings, st, now)) }

    function Asked(now: int): Cell { this.(st := AfterAllow(settings, st, now)) }

    function Told(ok: bool, now: int): Cell
      requires settings.Sane()
    {
      this.(st := if ok then AfterSuccess(st) else AfterFailure(settings, st, now))
    }
  }

  predicate SaneCells(cells: map<string, Cell>) {
    forall v :: v in cells ==> cells[v].settings.Sane()
  }

  /** The verb's breaker; one that was never asked for is fresh, with the verb's
      own threshold if it has one. */
  function CellOf(default: Settings, cells: map<string, Cell>, verb: string, trip: int): (cell: Cell)
    ensures SaneCells(cells) ==> cell.settings.Sane()
  {
    if verb in cells then cells[verb]
    else Cell(NewSettings(if trip > 0 then trip else default.trip, default.openFor), Fresh)
  }

  class Breaker {
    var state: Mode
    var failures: nat
    var openedAt: int
    var halfOpenTrial: bool
    var trialStarted: int
    const tripThreshold: int
    const openFor: int
    const probeTimeout: int

    ghost predicate Valid() { tripThreshold > 0 && openFor > 0 }

    function Config(): Settings { Settings(tripThreshold, openFor, probeTimeout) }

    ghost function View(): BState
      reads this
    {
      BState(state, failures, openedAt, halfOpenTrial, trialStarted)
    }

    constructor (trip: int, openPeriod: int)
      ensures Valid() && View() == Fresh && Config() == NewSettings(trip, openPeriod)
    {
      var c := NewSettings(trip, openPeriod);
      tripThreshold, openFor, probeTimeout := c.trip, c.openFor, 2 * c.openFor;
      state, failures, openedAt, halfOpenTrial, trialStarted := Closed, 0, 0, false, 0;
    }

    method MaybeTransition(now: int)
      modifies this
      ensures View() == Settle(Config(), old(View()), now)
    {
      if state == Open && now - openedAt >= openFor {
        state := HalfOpen;
        halfOpenTrial := false;
        trialStarted := 0;
      }
    }

    method Allow(now: int) returns (granted: bool)
      modifies this
      ensures granted == AllowResult(Config(), old(View()), now)
      ensures View() == AfterAllow(Config(), old(View()), now)
    {
      MaybeTransition(now);
      match state {
        case Closed => return true;
        case Open => return false;
        case HalfOpen =>
          if halfOpenTrial {
            var lease := if probeTimeout > 0 then probeTimeout else 2 * openFor;
            if now - trialStarted >= lease {
              halfOpenTrial := false;
            } else {
              return false;
            }
          }
          halfOpenTrial := true;
          trialStarted := now;
          return true;
      }
    }

    method Success()
      modifies this
      ensures View() == AfterSuccess(old(View()))
      ensures state == Closed && failures == 0 && !halfOpenTrial && trialStarted == 0
    {
      failures := 0;
      halfOpenTrial := false;
      trialStarted := 0;
      state := Closed;
    }

    method Failure(now: int)
      requires Valid()
      modifies this
      ensures View() == AfterFailure(Config(), old(View()), now)
    {
      if state == HalfOpen {
        state := Open;
        openedAt := now;
        halfOpenTrial := false;
        trialStarted := 0;
        failures := tripThreshold;
        return;
      }
      failures := failures + 1;
      if failures >= tripThreshold {
        state := Open;
        openedAt := now;
        halfOpenTrial := false;
        trialStarted := 0;
      }
    }

    method Snapshot(now: int) returns (mode: Mode, count: nat)
      modifies this
      ensures View() == Settle(Config(), old(View()), now)
      ensures mode == View().mode && count == View().failures
    {
      MaybeTransition(now);
      return state, failures;
    }
  }

  /** One breaker per verb, made on first use and never replaced. */
  class Registry {
    var breakers: map<string, Breaker>
    const trip: int
    const openFor: int

    ghost predicate Valid()
      reads this
    {
      && (forall v :: v in breakers ==> breakers[v].Valid())
      && (forall v, w :: v in breakers && w in breakers && v != w ==> breakers[v] != breakers[w])
      && trip > 0 && openFor > 0
    }

    function Default(): Settings { Settings(trip, openFor, 2 * openFor) }

    ghost function Cells(): (cells: map<string, Cell>)
      reads this, breakers.Values
      ensures Valid() ==> SaneCells(cells)
    {
      map v | v in breakers :: Cell(breakers[v].Config(), breakers[v].View())
    }

    constructor (defaultTrip: int, openPeriod: int)
      ensures Valid() && breakers == map[] && Cells() == map[]
      ensures trip == (if defaultTrip > 0 then defaultTrip else 5)
      ensures openFor == (if openPeriod > 0 then openPeriod else 60_000_000_000)
      ensures Default() == NewSettings(defaultTrip, openPeriod)
    {
      breakers := map[];
      trip := if defaultTrip <= 0 then DEFAULT_TRIP else defaultTrip;
      openFor := if openPeriod <= 0 then DEFAULT_OPEN_FOR else openPeriod;
    }

    method For(verb: string, perVerbTrip: int) returns (b: Breaker)
      requires Valid()
      modifies this
      ensures Valid()
      ensures breakers == old(breakers)[verb := b]
      ensures if verb in old(breakers) then b == old(breakers)[verb] else fresh(b)
      ensures verb !in old(breakers) ==>
        && b.tripThreshold == (if perVerbTrip > 0 then perVerbTrip else trip)
        && b.openFor == openFor && b.probeTimeout == 2 * openFor && b.state == Closed && b.failures == 0
      ensures Cells() == old(Cells())[verb := CellOf(Default(), old(Cells()), verb, perVerbTrip)]
    {
      if verb in breakers {
        b := breakers[verb];
        assert breakers == breakers[verb := b];
        return;
      }
      var t := if perVerbTrip > 0 then perVerbTrip else trip;
      b := new Breaker(t, openFor);
      breakers := breakers[verb := b];
    }

    // Calls on the verb's breaker, which is made first if it is new.

    method Ask(verb: string, perVerbTrip: int, now: int) returns (granted: bool)
      requires Valid()
      modifies this, breakers.Values
      ensures Valid() && verb in breakers && fresh(breakers.Values - old(breakers.Values))
      ensures var cell := CellOf(Default(), old(Cells()), verb, perVerbTrip);
        granted == AllowResult(cell.settings, cell.st, now) && Cells() == old(Cells())[verb := cell.Asked(now)]
    {
      hide CellOf, AllowResult, AfterAllow;
      var br := For(verb, perVerbTrip);
      granted := AskHeld(verb, now);
    }

    method Peek(verb: string, perVerbTrip: int, now: int) returns (mode: Mode)
      requires Valid()
      modifies this, breakers.Values
      ensures Valid() && verb in breakers && fresh(breakers.Values - old(breakers.Values))
      ensures var cell := CellOf(Default(), old(Cells()), verb, perVerbTrip).Peeked(now);
        mode == cell.st.mode && Cells() == old(Cells())[verb := cell]
    {
      hide CellOf, Settle;
      var br := For(verb, perVerbTrip);
      mode := PeekHeld(verb, now);
    }

    // Calls on a breaker that is there.

    method AskHeld(verb: string, now: int) returns (granted: bool)
      requires Valid() && verb in breakers
      modifies breakers[verb]
      ensures granted == AllowResult(old(Cells())[verb].settings, old(Cells())[verb].st, now)
      ensures Cells() == old(Cells())[verb := old(Cells())[verb].Asked(now)]
    {
      hide AllowResult, AfterAllow;
      var br := breakers[verb];
      label before:
      granted := br.Allow(now);
      OthersStand@before(verb);
    }

    method PeekHeld(verb: string, now: int) returns (mode: Mode)
      requires Valid() && verb in breakers
      modifies breakers[verb]
      ensures mode == old(Cells())[verb].Peeked(now).st.mode
      ensures Cells() == old(Cells())[verb := old(Cells())[verb].Peeked(now)]
    {
      hide Settle;
      var br := breakers[verb];
      label before:
      var m, failures := br.Snapshot(now);
      OthersStand@before(verb);
      return m;
    }

    method Tell(verb: string, ok: bool, now: int)
      requires Valid() && verb in breakers
      modifies breakers[verb]
      ensures Cells() == old(Cells())[verb := old(Cells())[verb].Told(ok, now)]
    {
      hide AfterSuccess, AfterFailure;
      var br := breakers[verb];
      label before:
      if ok { br.Success(); } else { br.Failure(now); }
      OthersStand@before(verb);
    }

    /** Calls on one breaker leave the other verbs' alone. */
    twostate lemma OthersStand(verb: string)
      requires old(Valid()) && breakers == old(breakers) && verb in breakers
      requires forall v :: v in breakers && v != verb ==> breakers[v].View() == old(breakers[v].View())
      ensures Cells() == old(Cells())[verb := Cell(breakers[verb].Config(), breakers[verb].View())]
    {
    }
  }
}

/** What a breaker does, told from the calls made on it alone: no mode, no
    counters, no lease fields. */
module BreakerHistory {
  import opened Breaker

  datatype Op =
    | Allow(at: int)
    | Success(at: int)
    | Failure(at: int)
    | Snapshot(at: int)

  function Apply(c: Settings, b: BState, op: Op): BState
    requires c.Sane()
  {
    match op
    case Allow(t) => AfterAllow(c, b, t)
    case Success(_) => AfterSuccess(b)
    case Failure(t) => AfterFailure(c, b, t)
    case Snapshot(t) => Settle(c, b, t)
  }

  function Run(c: Settings, ops: seq<Op>): BState
    requires c.Sane()
  {
    if ops == [] then Fresh else Apply(c, Run(c, ops[..|ops| - 1]), ops[|ops| - 1])
  }

  /** Would the breaker grant an Allow made at `now` after `ops`? */
  function Grants(c: Settings, ops: seq<Op>, now: int): bool
    requires c.Sane()
  {
    AllowResult(c, Run(c, ops), now)
  }

  ghost predicate Ordered(ops: seq<Op>) {
    forall i, j :: 0 <= i < j < |ops| ==> ops[i].at <= ops[j].at
  }

  ghost predicate UpTo(ops: seq<Op>, now: int) {
    forall i :: 0 <= i < |ops| ==> ops[i].at <= now
  }

  function FailuresSinceSuccess(ops: seq<Op>): nat {
    if ops == [] then 0
    else match ops[|ops| - 1]
      case Success(_) => 0
      case Failure(_) => FailuresSinceSuccess(ops[..|ops| - 1]) + 1
      case _ => FailuresSinceSuccess(ops[..|ops| - 1])
  }

  predicate Tripped(c: Settings, ops: seq<Op>) { FailuresSinceSuccess(ops) >= c.trip }

  /** Time of the latest failure; while tripped this is the latest trip. */
  function LatestFailure(ops: seq<Op>): int {
    if ops == [] then 0
    else match ops[|ops| - 1]
      case Failure(t) => t
      case _ => LatestFailure(ops[..|ops| - 1])
  }

  /** The rule the breaker follows: closed, or the open period is over and no
      probe lease is running. */
  ghost predicate MayStart(c: Settings, ops: seq<Op>, now: int)
    decreases |ops|, 1
  {
    Tripped(c, ops) ==>
      && now - LatestFailure(ops) >= c.openFor
      && (var p := LatestProbe(c, ops); p.Some? ==> now - p.value >= c.Lease())
  }

  datatype Option<T> = None | Some(value: T)

  /** Time of the latest granted probe with no verdict after it. */
  ghost function LatestProbe(c: Settings, ops: seq<Op>): Option<int>
    decreases |ops|, 0
  {
    if ops == [] then None
    else
      var before := ops[..|ops| - 1];
      match ops[|ops| - 1]
      case Success(_) => None
      case Failure(_) => None
      case Snapshot(_) => LatestProbe(c, before)
      case Allow(t) => if Tripped(c, before) && MayStart(c, before, t) then Some(t) else LatestProbe(c, before)
  }

  /** How the fields encode the history. In open mode an elapsed period and a
      probe-free half-open mode are the same thing. */
  ghost predicate Encodes(c: Settings, b: BState, ops: seq<Op>)
    requires c.Sane()
  {
    && (b.mode == Closed <==> !Tripped(c, ops))
    && (b.mode == Closed ==> b.failures == FailuresSinceSuccess(ops))
    && (b.mode == Closed ==> LatestProbe(c, ops) == None)
    && (b.mode != Closed ==> b.failures >= c.trip && b.openedAt == LatestFailure(ops))
    && (b.mode == Open ==> LatestProbe(c, ops) == None)
    && (b.mode == HalfOpen ==>
          && LatestProbe(c, ops) == (if b.trial then Some(b.trialStarted) else None)
          && exists i :: 0 <= i < |ops| && ops[i].at - b.openedAt >= c.openFor)
  }

  lemma {:induction false} RunEncodes(c: Settings, ops: seq<Op>)
    requires c.Sane() && Ordered(ops)
    ensures Encodes(c, Run(c, ops), ops)
  {
    if ops != [] {
      var before, op := ops[..|ops| - 1], ops[|ops| - 1];
      RunEncodes(c, before);
      var b := Run(c, before);
      assert UpTo(before, op.at);
      if op.Allow? { GrantsByRule(c, before, b, op.at); }
      var b' := Apply(c, b, op);
      if b'.mode == HalfOpen {
        if b.mode == HalfOpen {
          var i :| 0 <= i < |before| && before[i].at - b.openedAt >= c.openFor;
          assert ops[i] == before[i];
        } else {
          assert ops[|ops| - 1].at - b'.openedAt >= c.openFor;
        }
      }
    }
  }

  lemma GrantsByRule(c: Settings, ops: seq<Op>, b: BState, now: int)
    requires c.Sane() && Encodes(c, b, ops) && UpTo(ops, now)
    ensures AllowResult(c, b, now) <==> MayStart(c, ops, now)
  {
    if b.mode == HalfOpen {
      var i :| 0 <= i < |ops| && ops[i].at - b.openedAt >= c.openFor;
      assert ops[i].at <= now;
    }
  }

  /** Main result: for every history with a clock that never goes back, the
      breaker is closed exactly when fewer than `trip` failures came since the
      last success, and it grants exactly what the rule grants. */
  lemma HistoryDecides(c: Settings, ops: seq<Op>, now: int)
    requires c.Sane() && Ordered(ops) && UpTo(ops, now)
    ensures Run(c, ops).mode == Closed <==> FailuresSinceSuccess(ops) < c.trip
    ensures Grants(c, ops, now) <==> MayStart(c, ops, now)
  {
    RunEncodes(c, ops);
    GrantsByRule(c, ops, Run(c, ops), now);
  }

  /** No grant within the open period of the latest trip, unless a success came
      after it. */
  lemma NoGrantWhileOpen(c: Settings, ops: seq<Op>, trip: nat, now: int)
    requires c.Sane() && Ordered(ops) && UpTo(ops, now)
    requires trip < |ops| && ops[trip].Failure? && Tripped(c, ops[..trip + 1])
    requires forall i :: trip < i < |ops| ==> !ops[i].Success?
    requires now - ops[trip].at < c.openFor
    ensures !Grants(c, ops, now)
  {
    StaysTripped(c, ops, trip);
    HistoryDecides(c, ops, now);
  }

  lemma {:induction false} StaysTripped(c: Settings, ops: seq<Op>, trip: nat)
    requires c.Sane() && Ordered(ops)
    requires trip < |ops| && ops[trip].Failure? && Tripped(c, ops[..trip + 1])
    requires forall i :: trip < i < |ops| ==> !ops[i].Success?
    ensures Tripped(c, ops) && LatestFailure(ops) >= ops[trip].at
  {
    if trip == |ops| - 1 {
      assert ops[..trip + 1] == ops;
    } else {
      var before := ops[..|ops| - 1];
      assert before[..trip + 1] == ops[..trip + 1];
      StaysTripped(c, before, trip);
    }
  }

  /** Two probes granted with no verdict between them are a whole lease apart. */
  lemma ProbesLeaseApart(c: Settings, ops: seq<Op>, i: nat, now: int)
    requires c.Sane() && Ordered(ops) && UpTo(ops, now)
    requires i < |ops| && ops[i].Allow? && Grants(c, ops[..i], ops[i].at) && Tripped(c, ops[..i])
    requires forall k :: i < k < |ops| ==> ops[k].Allow? || ops[k].Snapshot?
    requires Grants(c, ops, now)
    ensures now - ops[i].at >= c.Lease()
  {
    HistoryDecides(c, ops[..i], ops[i].at);
    ProbeRemembered(c, ops, i);
    HistoryDecides(c, ops, now);
  }

  lemma {:induction false} ProbeRemembered(c: Settings, ops: seq<Op>, i: nat)
    requires c.Sane() && Ordered(ops)
    requires i < |ops| && ops[i].Allow? && MayStart(c, ops[..i], ops[i].at) && Tripped(c, ops[..i])
    requires forall k :: i < k < |ops| ==> ops[k].Allow? || ops[k].Snapshot?
    ensures Tripped(c, ops)
    ensures LatestProbe(c, ops).Some? && LatestProbe(c, ops).value >= ops[i].at
  {
    var before := ops[..|ops| - 1];
    if i == |ops| - 1 {
      assert before == ops[..i];
    } else {
      assert before[..i] == ops[..i];
      ProbeRemembered(c, before, i);
    }
  }

  /** Call i is an Allow that was granted as a probe of a tripped breaker. */
  predicate IsProbe(c: Settings, ops: seq<Op>, i: nat)
    requires c.Sane() && i < |ops|
  {
    ops[i].Allow? && Tripped(c, ops[..i]) && Grants(c, ops[..i], ops[i].at)
  }

  /** The breaker never wedges: once the open period has passed since every
      failure and a lease since every probe, the next Allow is granted, however
      many Allows were refused and snapshots taken in between. */
  lemma NeverWedges(c: Settings, ops: seq<Op>, now: int)
    requires c.Sane() && Ordered(ops) && UpTo(ops, now)
    requires forall i :: 0 <= i < |ops| && ops[i].Failure? ==> now - ops[i].at >= c.openFor
    requires forall i :: 0 <= i < |ops| && IsProbe(c, ops, i) ==> now - ops[i].at >= c.Lease()
    ensures Grants(c, ops, now)
  {
    HistoryDecides(c, ops, now);
    LatestFailureIsACall(ops);
    if LatestProbe(c, ops).Some? {
      var i := LatestProbeIsACall(c, ops);
    }
  }

  lemma {:induction false} LatestFailureIsACall(ops: seq<Op>)
    ensures FailuresSinceSuccess(ops) > 0 ==>
      exists i :: 0 <= i < |ops| && ops[i].Failure? && ops[i].at == LatestFailure(ops)
  {
    if ops != [] {
      var before, op := ops[..|ops| - 1], ops[|ops| - 1];
      LatestFailureIsACall(before);
      if FailuresSinceSuccess(before) > 0 {
        var i :| 0 <= i < |before| && before[i].Failure? && before[i].at == LatestFailure(before);
        assert ops[i] == before[i];
      }
      assert ops[|ops| - 1] == op;
    }
  }

  lemma {:induction false} LatestProbeIsACall(c: Settings, ops: seq<Op>) returns (i: nat)
    requires c.Sane() && Ordered(ops) && LatestProbe(c, ops).Some?
    ensures i < |ops| && IsProbe(c, ops, i) && ops[i].at == LatestProbe(c, ops).value
  {
    var before, op := ops[..|ops| - 1], ops[|ops| - 1];
    assert UpTo(before, op.at);
    HistoryDecides(c, before, op.at);
    if op.Allow? && Tripped(c, before) && MayStart(c, before, op.at) {
      i := |before|;
    } else {
      i := LatestProbeIsACall(c, before);
      assert before[..i] == ops[..i];
    }
  }

  function WithoutSnapshots(ops: seq<Op>): seq<Op> {
    if ops == [] then []
    else
      var rest := WithoutSnapshots(ops[..|ops| - 1]);
      if ops[|ops| - 1].Snapshot? then rest else rest + [ops[|ops| - 1]]
  }

  /** The answers given to the Allow calls of a history, in order. */
  function Answers(c: Settings, ops: seq<Op>): seq<bool>
    requires c.Sane()
  {
    if ops == [] then []
    else
      var before, op := ops[..|ops| - 1], ops[|ops| - 1];
      Answers(c, before) + (if op.Allow? then [Grants(c, before, op.at)] else [])
  }

  lemma {:induction false} RuleIgnoresSnapshots(c: Settings, ops: seq<Op>)
    requires c.Sane()
    ensures FailuresSinceSuccess(WithoutSnapshots(ops)) == FailuresSinceSuccess(ops)
    ensures LatestFailure(WithoutSnapshots(ops)) == LatestFailure(ops)
    ensures LatestProbe(c, WithoutSnapshots(ops)) == LatestProbe(c, ops)
  {
    if ops != [] {
      var before, op := ops[..|ops| - 1], ops[|ops| - 1];
      RuleIgnoresSnapshots(c, before);
      var kept := WithoutSnapshots(ops);
      if !op.Snapshot? {
        assert kept[..|kept| - 1] == WithoutSnapshots(before);
      }
    }
  }

  lemma {:induction false} KeptCallsAreCalls(ops: seq<Op>, now: int)
    requires Ordered(ops) && UpTo(ops, now)
    ensures Ordered(WithoutSnapshots(ops)) && UpTo(WithoutSnapshots(ops), now)
  {
    if ops != [] {
      var before, op := ops[..|ops| - 1], ops[|ops| - 1];
      assert UpTo(before, op.at);
      KeptCallsAreCalls(before, op.at);
      assert op.at <= now;
    }
  }

  /** Snapshot changes the fields, yet removing every Snapshot call from a
      history changes no answer already given and none still to come. */
  lemma {:induction false} SnapshotInvisible(c: Settings, ops: seq<Op>, now: int)
    requires c.Sane() && Ordered(ops) && UpTo(ops, now)
    ensures Answers(c, WithoutSnapshots(ops)) == Answers(c, ops)
    ensures Grants(c, WithoutSnapshots(ops), now) == Grants(c, ops, now)
  {
    RuleIgnoresSnapshots(c, ops);
    KeptCallsAreCalls(ops, now);
    HistoryDecides(c, ops, now);
    HistoryDecides(c, WithoutSnapshots(ops), now);
    if ops != [] {
      var before, op := ops[..|ops| - 1], ops[|ops| - 1];
      assert UpTo(before, op.at);
      SnapshotInvisible(c, before, op.at);
      var kept := WithoutSnapshots(ops);
      if !op.Snapshot? {
        assert kept[..|kept| - 1] == WithoutSnapshots(before);
      }
    }
  }
}
