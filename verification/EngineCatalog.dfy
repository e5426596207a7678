/** What threads and breakers take from the catalog of their process: retry
    limits, thresholds and open periods, each written out. */
module EngineCatalog {
  import opened Tasks
  import opened Requests
  import opened Engine
  import opened EngineFoot
  import opened EngineSteps
  import opened EngineThreads
  import opened EngineCircuits
  import B = Breaker
  import H = BreakerHistory

  /** The retry limit a request is stored with: the verb's own, if the catalog
      gives one, even 0, and else the daemon's. */
  predicate LimitRead(cfg: Config, catalog: map<string, VerbEntry>, verb: string, limit: nat) {
    verb in catalog &&
    match catalog[verb].retries
    case Some(own) => limit == own
    case None => limit == cfg.maxRetries
  }

  /** Threshold and open period of a verb's breaker: the verb's own threshold, else
      the daemon's, else 5 failures; the daemon's period, else 60 seconds; and a
      lease of two open periods. */
  predicate SettingsRead(cfg: Config, catalog: map<string, VerbEntry>, verb: string, c: B.Settings) {
    && verb in catalog
    && c.trip == (if catalog[verb].trip > 0 then catalog[verb].trip else if cfg.trip > 0 then cfg.trip else 5)
    && c.openFor == (if cfg.openFor > 0 then cfg.openFor else 60_000_000_000)
    && c.Lease() == 2 * c.openFor
  }

  predicate TripRead(catalog: map<string, VerbEntry>, verb: string, trip: int) {
    verb in catalog && trip == catalog[verb].trip
  }

  predicate RequestRead(cfg: Config, catalog: map<string, VerbEntry>, req: Request) {
    LimitRead(cfg, catalog, req.verb, req.budget) && TripRead(catalog, req.verb, req.trip)
  }

  /** What a thread holds was read from this catalog. */
  predicate ThreadReads(cfg: Config, catalog: map<string, VerbEntry>, a: Actor) {
    match a
    case Finding(req) => RequestRead(cfg, catalog, req)
    case Peeking(req) => RequestRead(cfg, catalog, req)
    case Creating(req) => RequestRead(cfg, catalog, req)
    case Saving(req, _) => RequestRead(cfg, catalog, req)
    case Refinding(req, _) => RequestRead(cfg, catalog, req)
    case Canceling(req, _, _) => RequestRead(cfg, catalog, req)
    case Replaying(req, _, _) => RequestRead(cfg, catalog, req)
    case Accepting(req, _) => RequestRead(cfg, catalog, req)
    case HandingOff(req, _) => RequestRead(cfg, catalog, req)
    case Launching(_, snap, _) => snap.verb in catalog
    case InRun(x, _) => TripRead(catalog, x.verb, x.trip)
    case Praising(verb, trip) => TripRead(catalog, verb, trip)
    case _ => true
  }

  ghost predicate BreakersRead(cfg: Config, s: State) {
    forall v :: v in s.breakers ==> SettingsRead(cfg, s.catalog, v, s.breakers[v].settings)
  }

  ghost predicate Reads(cfg: Config, s: State) {
    && (forall p :: p in s.actors ==> ThreadReads(cfg, s.catalog, s.actors[p]))
    && B.SaneCells(s.breakers) && BreakersRead(cfg, s)
  }

  // ---- threads

  /** The thread is gone or holds only what was read. */
  predicate NextReads(cfg: Config, s: State, s': State, pid: Pid) {
    pid in s'.actors ==> ThreadReads(cfg, s.catalog, s'.actors[pid])
  }

  lemma ToReads(cfg: Config, s: State, s1: State, pid: Pid, a: Actor)
    requires ThreadReads(cfg, s.catalog, a)
    ensures NextReads(cfg, s, To(s1, pid, a), pid)
  {
  }

  lemma DoneReads(cfg: Config, s: State, s1: State, pid: Pid)
    ensures NextReads(cfg, s, Done(s1, pid), pid)
  {
  }

  lemma EntranceReads(cfg: Config, s: State, pid: Pid, req: Request, id: Id)
    requires RequestRead(cfg, s.catalog, req)
    ensures NextReads(cfg, s, ActFind(s, pid, req), pid)
    ensures NextReads(cfg, s, ActPeek(cfg, s, pid, req), pid)
    ensures NextReads(cfg, s, ActCreate(cfg, s, pid, req, id), pid)
  {
    hide FindAnswer, CellFor, B.Settle, DepthOf, NewTask, RequestRead, SetBreaker, UpdateAndAudit;
    match FindAnswer(s, req)
    case None =>
    case Some(r) =>
  }

  lemma SaveReads(cfg: Config, s: State, pid: Pid, req: Request, id: Id)
    requires RequestRead(cfg, s.catalog, req)
    ensures NextReads(cfg, s, ActSave(s, pid, req, id), pid)
  {
    hide HashOf, RequestRead, NextReads;
    if req.key == "" {
      ToReads(cfg, s, s, pid, Accepting(req, id));
    } else if req.key in s.bindings {
      ToReads(cfg, s, s, pid, Refinding(req, id));
    } else {
      var bindings := s.bindings[req.key := Binding(req.verb, HashOf(req), id)];
      ToReads(cfg, s, s.(bindings := bindings), pid, Accepting(req, id));
    }
  }

  lemma RefindReads(cfg: Config, s: State, pid: Pid, req: Request, id: Id)
    requires RequestRead(cfg, s.catalog, req)
    ensures NextReads(cfg, s, ActRefind(s, pid, req, id), pid)
  {
    hide RequestRead;
  }

  lemma ReplayReads(cfg: Config, s: State, pid: Pid, req: Request, id: Id, win: Id)
    requires RequestRead(cfg, s.catalog, req)
    ensures NextReads(cfg, s, ActReplay(s, pid, req, id, win), pid)
  {
    hide RequestRead;
  }

  lemma AdmissionReads(cfg: Config, s: State, pid: Pid, req: Request, id: Id, win: Id)
    requires RequestRead(cfg, s.catalog, req)
    ensures id in s.tasks ==> NextReads(cfg, s, ActCancel(s, pid, req, id, win), pid)
    ensures id in s.tasks ==> NextReads(cfg, s, ActAccept(s, pid, req, id), pid)
    ensures id in s.tasks ==> NextReads(cfg, s, ActHandOff(cfg, s, pid, req, id), pid)
  {
    hide HashOf, UpdateAndAudit;
  }

  lemma RunReads(cfg: Config, s: State, pid: Pid, x: Exec, ph: Phase, inp: Input)
    requires HasTask(s, x.id) && TripRead(s.catalog, x.verb, x.trip)
    ensures NextReads(cfg, s, DoRun(cfg, s, pid, x, ph, inp), pid)
  {
    hide DelayFor, UpdateAndAudit, Praise, Blame, Ended, TripRead;
    match ph
    case Spawning(start) =>
    case Running(start) =>
    case Ran(start, end, out) =>
    case Recorded(end, out) => if CommitsFirst(x, out) { } else { }
    case Judged(_, out) => if out == RunOk { } else if x.n >= x.limit { } else { }
  }

  lemma WorkerReads(cfg: Config, s: State, pid: Pid, id: Id, snap: Task, at: int)
    requires HasTask(s, id)
    ensures NextReads(cfg, s, ActReadBack(s, pid, id), pid) && NextReads(cfg, s, ActRefuse(s, pid, id, at), pid)
    ensures NextReads(cfg, s, ActNotify(s, pid, id), pid)
    ensures snap.verb in s.catalog ==> NextReads(cfg, s, ActLaunch(cfg, s, pid, id, snap, at), pid)
  {
    hide UpdateAndAudit, EffectiveMax;
  }

  lemma GateReads(cfg: Config, s: State, pid: Pid, id: Id, snap: Task)
    requires HasTask(s, id)
    ensures NextReads(cfg, s, ActGate(cfg, s, pid, id, snap), pid)
  {
    hide ActGate;
    if snap.verb !in s.catalog {
      GateGivesUp(cfg, s, pid, id, snap);
    } else {
      var breakers, a := GatePasses(cfg, s, pid, id, snap);
    }
  }

  lemma SelectReads(cfg: Config, s: State, pid: Pid, at: int, tries: nat, found: Option<Id>)
    ensures NextReads(cfg, s, ActSelect(s, pid, at, tries, found), pid)
  {
  }

  lemma ClaimReads(cfg: Config, s: State, pid: Pid, cand: Id, at: int, tries: nat)
    ensures NextReads(cfg, s, ActClaim(cfg, s, pid, cand, at, tries), pid)
  {
    hide Claimable, Claimed, NextReads;
    if ClaimHits(cfg, s, cand, at) {
      ToReads(cfg, s, s.(tasks := s.tasks[cand := Claimed(s.tasks[cand], s.now)]), pid, ReadingBack(cand));
    } else {
      ToReads(cfg, s, s, pid, Selecting(at, tries + 1));
      DoneReads(cfg, s, s, pid);
    }
  }

  lemma DrainReads(cfg: Config, s: State, pid: Pid, batch: seq<nat>, logged: bool)
    ensures NextReads(cfg, s, ActDrain(s, pid, batch, logged), pid)
  {
    if batch == [] { } else if logged { } else { }
  }

  lemma ActReads(cfg: Config, s: State, pid: Pid, inp: Input)
    requires pid in s.actors && ActEnabled(cfg, s, s.actors[pid], inp) && ThreadReads(cfg, s.catalog, s.actors[pid])
    ensures NextReads(cfg, s, DoAct(cfg, s, pid, s.actors[pid], inp), pid)
  {
    hide ActFind, ActPeek, ActCreate, ActSave, ActRefind, ActCancel, ActReplay, ActAccept, ActHandOff, ActSelect,
         ActClaim, ActReadBack, ActGate, ActRefuse, ActLaunch, DoRun, Praise, ActNotify, ActDrain, NextReads,
         RequestRead, TripRead;
    match s.actors[pid]
    case Finding(req) => EntranceReads(cfg, s, pid, req, "");
    case Peeking(req) => EntranceReads(cfg, s, pid, req, "");
    case Creating(req) => EntranceReads(cfg, s, pid, req, inp.newId);
    case Saving(req, id) => SaveReads(cfg, s, pid, req, id);
    case Refinding(req, id) => RefindReads(cfg, s, pid, req, id);
    case Canceling(req, id, win) => AdmissionReads(cfg, s, pid, req, id, win);
    case Replaying(req, id, win) => ReplayReads(cfg, s, pid, req, id, win);
    case Accepting(req, id) => AdmissionReads(cfg, s, pid, req, id, "");
    case HandingOff(req, id) => AdmissionReads(cfg, s, pid, req, id, "");
    case Selecting(at, tries) => SelectReads(cfg, s, pid, at, tries, inp.found);
    case Claiming(cand, at, tries) => ClaimReads(cfg, s, pid, cand, at, tries);
    case ReadingBack(id) => WorkerReads(cfg, s, pid, id, s.tasks[id], 0);
    case Gating(id, snap) => GateReads(cfg, s, pid, id, snap);
    case Refused(id, snap) => WorkerReads(cfg, s, pid, id, snap, inp.at);
    case Launching(id, snap, _) => WorkerReads(cfg, s, pid, id, snap, inp.at);
    case InRun(x, ph) => RunReads(cfg, s, pid, x, ph, inp);
    case Praising(verb, trip) => DoneReads(cfg, s, Praise(cfg, s, verb, trip), pid);
    case Notifying(id) => WorkerReads(cfg, s, pid, id, s.tasks[id], 0);
    case Draining(batch, logged) => DrainReads(cfg, s, pid, batch, logged);
  }

  // ---- breakers

  /** A breaker made now has the settings the catalog gives. */
  lemma CellReads(cfg: Config, s: State, verb: string, trip: int)
    requires Reads(cfg, s) && TripRead(s.catalog, verb, trip)
    ensures SettingsRead(cfg, s.catalog, verb, CellFor(cfg, s, verb, trip).settings)
  {
    hide ThreadReads;
  }

  /** A call is made with the threshold the catalog gives. */
  lemma CallReads(cfg: Config, s: State, step: Step)
    requires Reads(cfg, s)
    ensures CallOf(cfg, s, step).Some? ==>
      TripRead(s.catalog, CallOf(cfg, s, step).value.verb, CallOf(cfg, s, step).value.trip)
  {
    hide B.SaneCells, BreakersRead;
  }

  lemma CalledReads(cfg: Config, s: State, call: Option<Call>, s': State)
    requires Reads(cfg, s) && (call.Some? ==> TripRead(s.catalog, call.value.verb, call.value.trip))
    requires s'.breakers == Called(cfg, s, call) && s'.catalog == s.catalog
    ensures B.SaneCells(s'.breakers) && BreakersRead(cfg, s')
  {
    hide ThreadReads, CellFor, H.Apply, SettingsRead;
    if call.Some? { CellReads(cfg, s, call.value.verb, call.value.trip); CellIsSane(cfg, s, call.value); }
  }

  lemma CellIsSane(cfg: Config, s: State, call: Call)
    requires B.SaneCells(s.breakers)
    ensures CellFor(cfg, s, call.verb, call.trip).settings.Sane()
  {
  }

  // ---- every step, every run

  lemma StepReads(cfg: Config, s: State, step: Step)
    requires Reads(cfg, s) && Enabled(cfg, s, step)
    ensures Reads(cfg, Do(cfg, s, step))
  {
    hide DoAct, CallOf, Called, B.SaneCells, BreakersRead, ThreadReads, SettingsRead;
    var s' := Do(cfg, s, step);
    if !step.Crash? {
      StepCalls(cfg, s, step);
      CallReads(cfg, s, step);
      CatalogStays(cfg, s, step);
      CalledReads(cfg, s, CallOf(cfg, s, step), s');
      forall p | p in s'.actors ensures ThreadReads(cfg, s'.catalog, s'.actors[p]) {
        ThreadsRead(cfg, s, step, p);
      }
    } else {
      NoneRead(cfg, s');
    }
  }

  lemma NoneRead(cfg: Config, s: State)
    requires s.actors == map[] && s.breakers == map[]
    ensures Reads(cfg, s)
  {
  }

  lemma CatalogStays(cfg: Config, s: State, step: Step)
    requires Enabled(cfg, s, step) && !step.Crash?
    ensures Do(cfg, s, step).catalog == s.catalog
  {
    hide DoAct, OnlyThread;
    if step.Act? { ActCatalog(cfg, s, step.pid, step.inp); }
  }

  lemma ActCatalog(cfg: Config, s: State, pid: Pid, inp: Input)
    requires pid in s.actors && ActEnabled(cfg, s, s.actors[pid], inp)
    ensures DoAct(cfg, s, pid, s.actors[pid], inp).catalog == s.catalog
  {
    hide DoAct;
    ActThread(cfg, s, pid, inp);
  }

  lemma ThreadsRead(cfg: Config, s: State, step: Step, p: Pid)
    requires Reads(cfg, s) && Enabled(cfg, s, step) && !step.Crash? && p in Do(cfg, s, step).actors
    ensures ThreadReads(cfg, s.catalog, Do(cfg, s, step).actors[p])
  {
    hide DoAct, B.SaneCells, BreakersRead;
    if step.Act? {
      ActReads(cfg, s, step.pid, step.inp);
      ActThread(cfg, s, step.pid, step.inp);
      hide ThreadReads;
    }
  }

  lemma {:induction false} RunReadsCatalog(cfg: Config, init: State, steps: seq<Step>)
    requires Init(cfg, init) && Valid(cfg, init, steps)
    ensures Reads(cfg, After(cfg, init, steps))
  {
    hide Do, Enabled, Reads;
    if steps == [] {
      NoneRead(cfg, init);
    } else {
      var before := steps[..|steps| - 1];
      RunReadsCatalog(cfg, init, before);
      StepReads(cfg, After(cfg, init, before), steps[|steps| - 1]);
    }
  }

  // ---- what follows

  /** In every reachable state each breaker has the threshold and the periods that
      the catalog of the process and the daemon's settings give its verb. */
  lemma BreakersAreConfigured(cfg: Config, s: State, verb: string)
    requires Reachable(cfg, s) && verb in s.breakers
    ensures SettingsRead(cfg, s.catalog, verb, s.breakers[verb].settings)
  {
    hide Init, ThreadReads, SettingsRead;
    var init: State, steps: seq<Step> :| Init(cfg, init) && Valid(cfg, init, steps) && After(cfg, init, steps) == s;
    RunReadsCatalog(cfg, init, steps);
  }

  /** A task is stored with its verb and the retry limit its catalog gives it. */
  lemma CreatedWithItsLimit(cfg: Config, s: State, pid: Pid, req: Request, id: Id)
    requires Reachable(cfg, s) && pid in s.actors && s.actors[pid] == Creating(req)
    requires DepthOf(s.tasks) < cfg.maxDepth
    ensures var s' := ActCreate(cfg, s, pid, req, id);
      && id in s'.tasks && s'.tasks[id].verb == req.verb
      && LimitRead(cfg, s.catalog, req.verb, s'.tasks[id].maxRetries)
  {
    hide Init, DepthOf, B.SaneCells, BreakersRead;
    var init: State, steps: seq<Step> :| Init(cfg, init) && Valid(cfg, init, steps) && After(cfg, init, steps) == s;
    RunReadsCatalog(cfg, init, steps);
    assert ThreadReads(cfg, s.catalog, s.actors[pid]);
  }

  lemma OpenExactly(c: B.Settings, calls: seq<H.Op>, now: int)
    requires c.Sane() && H.Ordered(calls) && H.UpTo(calls, now)
    ensures B.Settle(c, H.Run(c, calls), now).mode == B.Open
       <==> H.FailuresSinceSuccess(calls) >= c.trip && now - H.LatestFailure(calls) < c.openFor
  {
    H.RunEncodes(c, calls);
    var b := H.Run(c, calls);
    if b.mode == B.HalfOpen {
      var i :| 0 <= i < |calls| && calls[i].at - b.openedAt >= c.openFor;
      assert calls[i].at <= now;
    }
  }

  /** Over every run: a POST is refused for an open circuit exactly when at least as
      many failures as the threshold came since the last success and the open
      period after the latest is not over. A probe in flight refuses none. */
  lemma PostRefusedExactly(cfg: Config, init: State, steps: seq<Step>, pid: Pid, req: Request)
    requires Init(cfg, init) && Valid(cfg, init, steps) && cfg.circuits
    requires var s := After(cfg, init, steps); pid in s.actors && s.actors[pid] == Peeking(req)
    ensures var s, calls := After(cfg, init, steps), CallsSinceBoot(cfg, init, steps, req.verb);
      && req.verb in s.catalog
      && var s' := ActPeek(cfg, s, pid, req);
      if H.FailuresSinceSuccess(calls) >= TripAt(cfg, s, req.verb) && s.now - H.LatestFailure(calls) < OpenForAt(cfg)
      then pid !in s'.actors && s'.replies == s.replies + [Rejected(req, true)]
      else pid in s'.actors && s'.actors[pid] == Creating(req) && s'.replies == s.replies
  {
    hide Init, Valid, After, CallsSinceBoot, B.Settle;
    var s, calls := After(cfg, init, steps), CallsSinceBoot(cfg, init, steps, req.verb);
    RunReadsCatalog(cfg, init, steps);
    assert ThreadReads(cfg, s.catalog, s.actors[pid]);
    BreakersFollowHistory(cfg, init, steps, req.verb);
    PeekingCell(cfg, s, req, calls);
    var cell := CellFor(cfg, s, req.verb, req.trip);
    OpenExactly(cell.settings, calls, s.now);
  }

  lemma PeekingCell(cfg: Config, s: State, req: Request, calls: seq<H.Op>)
    requires Reads(cfg, s) && TripRead(s.catalog, req.verb, req.trip) && Matches(s.breakers, req.verb, calls, s.now)
    ensures var cell := CellFor(cfg, s, req.verb, req.trip);
      && cell.settings.Sane() && cell.st == H.Run(cell.settings, calls)
      && cell.settings.trip == TripAt(cfg, s, req.verb) && cell.settings.openFor == OpenForAt(cfg)
  {
    hide ThreadReads;
    CellReads(cfg, s, req.verb, req.trip);
  }

  /** The threshold in force at the gate of a verb. */
  function TripAt(cfg: Config, s: State, verb: string): int
    requires verb in s.catalog
  {
    if s.catalog[verb].trip > 0 then s.catalog[verb].trip else if cfg.trip > 0 then cfg.trip else 5
  }

  function OpenForAt(cfg: Config): int { if cfg.openFor > 0 then cfg.openFor else 60_000_000_000 }

  /** Over every run: while fewer failures than the threshold came since the last
      success, a worker at the gate goes on; from the threshold on it is refused
      until the open period after the latest failure is over. */
  lemma ThresholdIsExact(cfg: Config, init: State, steps: seq<Step>, pid: Pid, id: Id, snap: Task, inp: Input)
    requires Init(cfg, init) && Valid(cfg, init, steps) && AtGate(cfg, After(cfg, init, steps), pid, id, snap)
    ensures var s, calls := After(cfg, init, steps), CallsSinceBoot(cfg, init, steps, snap.verb);
      var a := DoAct(cfg, s, pid, s.actors[pid], inp).actors[pid];
      && (H.FailuresSinceSuccess(calls) < TripAt(cfg, s, snap.verb) ==> a == Launching(id, snap, s.now))
      && (H.FailuresSinceSuccess(calls) >= TripAt(cfg, s, snap.verb) &&
          s.now - H.LatestFailure(calls) < OpenForAt(cfg) ==>
            a == Refused(id, snap))
  {
    hide Init, Valid, After, CallsSinceBoot, DoAct, ThreadReads;
    var s := After(cfg, init, steps);
    RunReadsCatalog(cfg, init, steps);
    CellReads(cfg, s, snap.verb, s.catalog[snap.verb].trip);
    GateFollowsHistory(cfg, init, steps, pid, id, snap, inp);
  }
}
