/** What a step can reach: the task it works on, and tables that only grow. */
module EngineFoot {
  import opened Tasks
  import opened Requests
  import opened Engine
  import opened EngineInv
  import B = Breaker

  /** Every key bound before is bound to the same task. */
  ghost predicate Keeps(b: map<string, Binding>, b': map<string, Binding>) {
    forall key :: key in b ==> key in b' && b'[key] == b[key]
  }

  predicate Extends<T(==)>(a: seq<T>, b: seq<T>) { a == b || (|b| == |a| + 1 && b[..|a|] == a) }

  /** s' may differ from s in task i alone, whose row becomes w if anything is
      written; audit rows, lines and written marks stay. */
  ghost predicate Footprint(s: State, s': State, i: Option<Id>, w: Option<Task>) {
    && s'.tasks == (if i.Some? && w.Some? then s.tasks[i.value := w.value] else s.tasks)
    && Extends(s.outbox, s'.outbox) && Extends(s.log, s'.log) && s.written <= s'.written
    && (s'.bindings == s.bindings || Keeps(s.bindings, s'.bindings))
    && forall j :: HasTask(s, j) && Some(j) != i ==>
        && HasTask(s', j) && s'.tasks[j] == s.tasks[j]
        && s'.attempts[j] == s.attempts[j] && s'.stories[j] == s.stories[j]
  }

  /** Threads, breakers, bindings and replies are outside every footprint. */
  lemma Aside(s: State, s': State)
    requires s'.tasks == s.tasks && s'.attempts == s.attempts && s'.stories == s.stories
    requires s'.outbox == s.outbox && Extends(s.log, s'.log) && s.written <= s'.written
    requires s'.bindings == s.bindings
    ensures Footprint(s, s', None, None)
  {
  }

  lemma FindFoot(cfg: Config, s: State, pid: Pid, req: Request)
    ensures Footprint(s, ActFind(s, pid, req), None,
                      None)
  {
    hide FindAnswer;
    if FindAnswer(s, req) == None {
    } else {
    }
  }

  lemma PeekFoot(cfg: Config, s: State, pid: Pid, req: Request)
    ensures Footprint(s, ActPeek(cfg, s, pid, req), None,
                      None)
  {
    hide CellFor, B.Settle, Footprint;
    if cfg.circuits {
      var cell := CellFor(cfg, s, req.verb, req.trip);
      var st := B.Settle(cell.settings, cell.st, s.now);
      var s1 := SetBreaker(cfg, s, req.verb, req.trip, st);
      Aside(s, Done(Answer(s1, Rejected(req, true)), pid));
      Aside(s, To(s1, pid, Creating(req)));
    } else {
      Aside(s, To(s, pid, Creating(req)));
    }
  }

  lemma CreateFoot(cfg: Config, s: State, pid: Pid, req: Request, id: Id)
    ensures Footprint(s, ActCreate(cfg, s, pid, req, id), Some(id),
                      if DepthOf(s.tasks) < cfg.maxDepth then Some(NewTask(req.verb, req.budget, s.now)) else None)
  {
    hide DepthOf, NewTask;
    if DepthOf(s.tasks) >= cfg.maxDepth {
    } else {
    }
  }

  lemma SaveFoot(cfg: Config, s: State, pid: Pid, req: Request, id: Id)
    ensures Footprint(s, ActSave(s, pid, req, id), None,
                      None)
  {
    hide HashOf;
    if req.key != "" && req.key !in s.bindings {
      assert Keeps(s.bindings, s.bindings[req.key := Binding(req.verb, HashOf(req), id)]);
    }
  }

  lemma RefindFoot(cfg: Config, s: State, pid: Pid, req: Request, id: Id)
    ensures Footprint(s, ActRefind(s, pid, req, id), None,
                      None)
  {
    hide Footprint;
    if req.key in s.bindings {
      Aside(s, To(s, pid, Canceling(req, id, s.bindings[req.key].taskId)));
    } else {
      Aside(s, To(s, pid, Accepting(req, id)));
    }
  }

  lemma CancelFoot(cfg: Config, s: State, pid: Pid, req: Request, id: Id, win: Id)
    requires HasTask(s, id)
    ensures Footprint(s, ActCancel(s, pid, req, id, win), Some(id),
                      Some(Superseded(s.tasks[id], s.now)))
  {
  }

  lemma ReplayFoot(cfg: Config, s: State, pid: Pid, req: Request, id: Id, win: Id)
    ensures Footprint(s, ActReplay(s, pid, req, id, win), None,
                      None)
  {
    hide Footprint;
    if win in s.tasks {
      Aside(s, Done(Answer(s, Replay(req, win, false)), pid));
    } else {
      Aside(s, To(s, pid, Accepting(req, id)));
    }
  }

  lemma AcceptFoot(cfg: Config, s: State, pid: Pid, req: Request, id: Id)
    requires HasTask(s, id)
    ensures Footprint(s, ActAccept(s, pid, req, id), Some(id),
                      Some(Touched(s.tasks[id], s.now)))
  {
  }

  lemma HandOffFoot(cfg: Config, s: State, pid: Pid, req: Request, id: Id)
    requires HasTask(s, id)
    ensures Footprint(s, ActHandOff(cfg, s, pid, req, id), Some(id),
                      Some(if cfg.syncExec then InlineStarted(s.tasks[id], s.now) else HandedOff(s.tasks[id], s.now)))
  {
  }

  lemma SelectFoot(cfg: Config, s: State, pid: Pid, at: int, tries: nat, found: Option<Id>)
    ensures Footprint(s, ActSelect(s, pid, at, tries, found), None,
                      None)
  {
  }

  /** The conditional UPDATE finds its candidate ready. */
  predicate ClaimHits(cfg: Config, s: State, cand: Id, at: int) {
    cand in s.tasks && Claimable(s.tasks[cand], cfg.due, at)
  }

  lemma ClaimFoot(cfg: Config, s: State, pid: Pid, cand: Id, at: int, tries: nat)
    ensures Footprint(s, ActClaim(cfg, s, pid, cand, at, tries),
                      if ClaimHits(cfg, s, cand, at) then Some(cand) else None,
                      if ClaimHits(cfg, s, cand, at) then Some(Claimed(s.tasks[cand], s.now)) else None)
  {
    hide Claimable, Claimed;
    if !ClaimHits(cfg, s, cand, at) {
      hide Footprint;
      if tries + 1 < CLAIM_TRIES { Aside(s, To(s, pid, Selecting(at, tries + 1))); } else { Aside(s, Done(s, pid)); }
    }
  }

  lemma ReadBackFoot(cfg: Config, s: State, pid: Pid, id: Id)
    requires HasTask(s, id)
    ensures Footprint(s, ActReadBack(s, pid, id), None,
                      None)
  {
  }

  lemma GateFoot(cfg: Config, s: State, pid: Pid, id: Id, snap: Task)
    requires HasTask(s, id)
    ensures Footprint(s, ActGate(cfg, s, pid, id, snap), Some(id),
                      if snap.verb in s.catalog then None else Some(UnknownVerb(s.tasks[id], s.now)))
  {
    hide CellFor, B.AfterAllow, B.AllowResult;
    if snap.verb !in s.catalog {
    } else if !cfg.circuits {
    } else {
    }
  }

  lemma RefuseFoot(cfg: Config, s: State, pid: Pid, id: Id, at: int)
    requires HasTask(s, id)
    ensures Footprint(s, ActRefuse(s, pid, id, at), Some(id),
                      Some(Requeued(s.tasks[id], at + SECOND, s.now)))
  {
  }

  lemma LaunchFoot(cfg: Config, s: State, pid: Pid, id: Id, snap: Task, at: int)
    requires HasTask(s, id)
    ensures Footprint(s, ActLaunch(cfg, s, pid, id, snap, at), Some(id),
                      Some(Marked(s.tasks[id], s.now)))
  {
  }

  lemma SpawnFoot(cfg: Config, s: State, pid: Pid, x: Exec, start: int)
    requires HasTask(s, x.id)
    ensures Footprint(s, ActSpawn(s, pid, x, start), Some(x.id),
                      None)
  {
  }

  lemma EndFoot(cfg: Config, s: State, pid: Pid, x: Exec, start: int, out: Outcome)
    requires HasTask(s, x.id)
    ensures Footprint(s, ActEnd(s, pid, x, start, out), Some(x.id),
                      None)
  {
  }

  lemma RecordFoot(cfg: Config, s: State, pid: Pid, x: Exec, start: int, end: int, out: Outcome)
    requires HasTask(s, x.id)
    ensures Footprint(s, ActRecord(s, pid, x, start, end, out), Some(x.id),
                      None)
  {
  }

  lemma JudgeFoot(cfg: Config, s: State, pid: Pid, x: Exec, end: int, out: Outcome)
    ensures Footprint(s, ActJudge(cfg, s, pid, x, end, out), None,
                      None)
  {
  }

  lemma FinishFoot(cfg: Config, s: State, pid: Pid, x: Exec)
    requires HasTask(s, x.id)
    ensures Footprint(s, ActFinish(s, pid, x), Some(x.id),
                      Some(Finished(s.tasks[x.id], s.now)))
  {
  }

  /** The row a failed run leaves behind. */
  function AfterFail(cfg: Config, s: State, x: Exec, out: Outcome, inp: Input): Task
    requires x.id in s.tasks
  {
    if x.n >= x.limit then GivenUp(s.tasks[x.id], out, inp.err, s.now)
    else RetryLater(s.tasks[x.id], x.n, inp.at + DelayFor(cfg, x.inline, x.n, inp.word), out, inp.err, s.now)
  }

  lemma FailFoot(cfg: Config, s: State, pid: Pid, x: Exec, out: Outcome, inp: Input)
    requires HasTask(s, x.id)
    ensures Footprint(s, ActFail(cfg, s, pid, x, out, inp), Some(x.id),
                      Some(AfterFail(cfg, s, x, out, inp)))
  {
    hide DelayFor, GivenUp, RetryLater;
    if x.n >= x.limit { } else { }
  }

  lemma PraiseFoot(cfg: Config, s: State, pid: Pid, verb: string, trip: int)
    ensures Footprint(s, Done(Praise(cfg, s, verb, trip), pid), None,
                      None)
  {
  }

  lemma NotifyFoot(cfg: Config, s: State, pid: Pid, id: Id)
    requires HasTask(s, id)
    ensures Footprint(s, ActNotify(s, pid, id), Some(id),
                      None)
  {
  }

  lemma DrainTables(s: State, pid: Pid, batch: seq<nat>, logged: bool)
    ensures var s' := ActDrain(s, pid, batch, logged);
      && s'.tasks == s.tasks && s'.attempts == s.attempts && s'.stories == s.stories
      && s'.outbox == s.outbox && s'.bindings == s.bindings
  {
    if batch == [] { } else if logged { } else { }
  }

  lemma DrainGrows(s: State, pid: Pid, batch: seq<nat>, logged: bool)
    ensures var s' := ActDrain(s, pid, batch, logged); Extends(s.log, s'.log) && s.written <= s'.written
  {
    if batch == [] { } else if logged { } else { }
  }

  lemma DrainFoot(cfg: Config, s: State, pid: Pid, batch: seq<nat>, logged: bool)
    ensures Footprint(s, ActDrain(s, pid, batch, logged), None,
                      None)
  {
    hide Footprint, Extends;
    DrainTables(s, pid, batch, logged);
    DrainGrows(s, pid, batch, logged);
    hide ActDrain;
    Aside(s, ActDrain(s, pid, batch, logged));
  }

  /** The task a thread's next step works on. */
  ghost function Target(cfg: Config, s: State, a: Actor, inp: Input): Option<Id> {
    match a
    case Creating(_) => Some(inp.newId)
    case Claiming(cand, at, _) => if cand in s.tasks && Claimable(s.tasks[cand], cfg.due, at) then Some(cand) else None
    case _ => Touch(a)
  }

  /** The row that step writes, if it writes one. */
  ghost function Written(cfg: Config, s: State, a: Actor, inp: Input): Option<Task>
    requires ActEnabled(cfg, s, a, inp)
  {
    match a
    case Creating(req) =>
      if DepthOf(s.tasks) < cfg.maxDepth then Some(NewTask(req.verb, req.budget, s.now)) else None
    case Canceling(_, id, _) => Some(Superseded(s.tasks[id], s.now))
    case Accepting(_, id) => Some(Touched(s.tasks[id], s.now))
    case HandingOff(_, id) =>
      Some(if cfg.syncExec then InlineStarted(s.tasks[id], s.now) else HandedOff(s.tasks[id], s.now))
    case Claiming(cand, at, _) =>
      if cand in s.tasks && Claimable(s.tasks[cand], cfg.due, at) then Some(Claimed(s.tasks[cand], s.now)) else None
    case Gating(id, snap) => if snap.verb in s.catalog then None else Some(UnknownVerb(s.tasks[id], s.now))
    case Refused(id, _) => Some(Requeued(s.tasks[id], inp.at + SECOND, s.now))
    case Launching(id, _, _) => Some(Marked(s.tasks[id], s.now))
    case InRun(x, ph) => RunWrites(cfg, s, x, ph, inp)
    case _ => None
  }

  function RunWrites(cfg: Config, s: State, x: Exec, ph: Phase, inp: Input): Option<Task>
    requires HasTask(s, x.id)
  {
    match ph
    case Recorded(_, out) => if CommitsFirst(x, out) then Some(Finished(s.tasks[x.id], s.now)) else None
    case Judged(_, out) =>
      Some(if out == RunOk then Finished(s.tasks[x.id], s.now) else AfterFail(cfg, s, x, out, inp))
    case _ => None
  }

  lemma Wider(s: State, s': State, i: Option<Id>)
    requires Footprint(s, s', None, None)
    ensures Footprint(s, s', i, None)
  {
  }

  lemma ActFoot(cfg: Config, s: State, pid: Pid, inp: Input)
    requires pid in s.actors && ActEnabled(cfg, s, s.actors[pid], inp)
    ensures Footprint(s, DoAct(cfg, s, pid, s.actors[pid], inp), Target(cfg, s, s.actors[pid], inp),
                      Written(cfg, s, s.actors[pid], inp))
  {
    hide Footprint, DepthOf, Claimable, AfterFail, ActFind, ActPeek, ActCreate, ActSave, ActRefind, ActCancel,
         ActReplay, ActAccept, ActHandOff,
         ActSelect, ActClaim, ActReadBack, ActGate, ActRefuse, ActLaunch, Praise, ActNotify, ActDrain, DoRun;
    var a := s.actors[pid];
    var s' := DoAct(cfg, s, pid, a, inp);
    match a
    case Finding(req) => FindFoot(cfg, s, pid, req);
    case Peeking(req) => PeekFoot(cfg, s, pid, req);
    case Creating(req) => CreateFoot(cfg, s, pid, req, inp.newId);
    case Saving(req, id) => SaveFoot(cfg, s, pid, req, id); Wider(s, s', Some(id));
    case Refinding(req, id) => RefindFoot(cfg, s, pid, req, id); Wider(s, s', Some(id));
    case Canceling(req, id, win) => CancelFoot(cfg, s, pid, req, id, win);
    case Replaying(req, id, win) => ReplayFoot(cfg, s, pid, req, id, win); Wider(s, s', Some(id));
    case Accepting(req, id) => AcceptFoot(cfg, s, pid, req, id);
    case HandingOff(req, id) => HandOffFoot(cfg, s, pid, req, id);
    case Selecting(at, tries) => SelectFoot(cfg, s, pid, at, tries, inp.found);
    case Claiming(cand, at, tries) => ClaimFoot(cfg, s, pid, cand, at, tries);
    case ReadingBack(id) => ReadBackFoot(cfg, s, pid, id); Wider(s, s', Some(id));
    case Gating(id, snap) => GateFoot(cfg, s, pid, id, snap);
    case Refused(id, _) => RefuseFoot(cfg, s, pid, id, inp.at);
    case Launching(id, snap, _) => LaunchFoot(cfg, s, pid, id, snap, inp.at);
    case InRun(x, ph) => RunFoot(cfg, s, pid, x, ph, inp);
    case Praising(verb, trip) => PraiseFoot(cfg, s, pid, verb, trip);
    case Notifying(id) => NotifyFoot(cfg, s, pid, id);
    case Draining(batch, logged) => DrainFoot(cfg, s, pid, batch, logged);
  }

  lemma RunFoot(cfg: Config, s: State, pid: Pid, x: Exec, ph: Phase, inp: Input)
    requires HasTask(s, x.id)
    ensures Footprint(s, DoRun(cfg, s, pid, x, ph, inp), Some(x.id), RunWrites(cfg, s, x, ph, inp))
  {
    hide Footprint, AfterFail, ActSpawn, ActEnd, ActRecord, ActJudge, ActFinish, ActFail;
    match ph
    case Spawning(start) => SpawnFoot(cfg, s, pid, x, start);
    case Running(start) => EndFoot(cfg, s, pid, x, start, inp.out);
    case Ran(start, end, out) => RecordFoot(cfg, s, pid, x, start, end, out);
    case Recorded(end, out) =>
      if CommitsFirst(x, out) { FinishFoot(cfg, s, pid, x); }
      else {
        JudgeFoot(cfg, s, pid, x, end, out);
        Wider(s, DoRun(cfg, s, pid, x, ph, inp), Some(x.id));
      }
    case Judged(_, out) =>
      if out == RunOk { FinishFoot(cfg, s, pid, x); } else { FailFoot(cfg, s, pid, x, out, inp); }
  }
}
