/** What a step of one thread leaves alone: the other threads, the clock, the boot
    flag and the catalog. */
module EngineThreads {
  import opened Tasks
  import opened Requests
  import opened Engine
  import B = Breaker

  ghost predicate OnlyThread(s: State, s': State, pid: Pid) {
    && s'.now == s.now && s'.booting == s.booting && s'.catalog == s.catalog
    && forall q :: q != pid ==> (q in s'.actors <==> q in s.actors) && (q in s.actors ==> s'.actors[q] == s.actors[q])
  }

  lemma Moves(s: State, s1: State, pid: Pid, a: Actor)
    requires s1.now == s.now && s1.booting == s.booting && s1.catalog == s.catalog && s1.actors == s.actors
    ensures OnlyThread(s, To(s1, pid, a), pid) && OnlyThread(s, Done(s1, pid), pid)
  {
  }

  lemma FindThread(s: State, pid: Pid, req: Request)
    ensures OnlyThread(s, ActFind(s, pid, req), pid)
  {
    hide FindAnswer, OnlyThread;
    match FindAnswer(s, req)
    case None => Moves(s, s, pid, Peeking(req));
    case Some(r) => Moves(s, Answer(s, r), pid, Peeking(req));
  }

  lemma PeekThread(cfg: Config, s: State, pid: Pid, req: Request)
    ensures OnlyThread(s, ActPeek(cfg, s, pid, req), pid)
  {
    hide CellFor, B.Settle, OnlyThread;
    if cfg.circuits {
      var cell := CellFor(cfg, s, req.verb, req.trip);
      var st := B.Settle(cell.settings, cell.st, s.now);
      var s1 := SetBreaker(cfg, s, req.verb, req.trip, st);
      Moves(s, s1, pid, Creating(req));
      Moves(s, Answer(s1, Rejected(req, true)), pid, Creating(req));
    } else {
      Moves(s, s, pid, Creating(req));
    }
  }

  lemma CreateThread(cfg: Config, s: State, pid: Pid, req: Request, id: Id)
    ensures OnlyThread(s, ActCreate(cfg, s, pid, req, id), pid)
  {
    hide DepthOf, NewTask;
    if DepthOf(s.tasks) >= cfg.maxDepth { } else { }
  }

  lemma SaveThread(s: State, pid: Pid, req: Request, id: Id)
    ensures OnlyThread(s, ActSave(s, pid, req, id), pid)
  {
    hide HashOf;
    if req.key == "" { } else if req.key in s.bindings { } else { }
  }

  lemma RefindThread(s: State, pid: Pid, req: Request, id: Id)
    ensures OnlyThread(s, ActRefind(s, pid, req, id), pid)
  {
    hide OnlyThread;
    if req.key in s.bindings { Moves(s, s, pid, Canceling(req, id, s.bindings[req.key].taskId)); }
    Moves(s, s, pid, Accepting(req, id));
  }

  lemma CancelThread(s: State, pid: Pid, req: Request, id: Id, win: Id)
    requires id in s.tasks
    ensures OnlyThread(s, ActCancel(s, pid, req, id, win), pid)
  {
  }

  lemma ReplayThread(s: State, pid: Pid, req: Request, id: Id, win: Id)
    ensures OnlyThread(s, ActReplay(s, pid, req, id, win), pid)
  {
    hide OnlyThread;
    Moves(s, Answer(s, Replay(req, win, false)), pid, Accepting(req, id));
    Moves(s, s, pid, Accepting(req, id));
  }

  lemma AcceptThread(s: State, pid: Pid, req: Request, id: Id)
    requires id in s.tasks
    ensures OnlyThread(s, ActAccept(s, pid, req, id), pid)
  {
  }

  lemma HandOffThread(cfg: Config, s: State, pid: Pid, req: Request, id: Id)
    requires id in s.tasks
    ensures OnlyThread(s, ActHandOff(cfg, s, pid, req, id), pid)
  {
    if cfg.syncExec { } else { }
  }

  lemma SelectThread(s: State, pid: Pid, at: int, tries: nat, found: Option<Id>)
    ensures OnlyThread(s, ActSelect(s, pid, at, tries, found), pid)
  {
  }

  lemma ClaimThread(cfg: Config, s: State, pid: Pid, cand: Id, at: int, tries: nat)
    ensures OnlyThread(s, ActClaim(cfg, s, pid, cand, at, tries), pid)
  {
    hide Claimable, Claimed, OnlyThread;
    if cand in s.tasks && Claimable(s.tasks[cand], cfg.due, at) {
      Moves(s, s.(tasks := s.tasks[cand := Claimed(s.tasks[cand], s.now)]), pid, ReadingBack(cand));
    } else if tries + 1 < CLAIM_TRIES {
      Moves(s, s, pid, Selecting(at, tries + 1));
    } else {
      Moves(s, s, pid, Selecting(at, tries + 1));
    }
  }

  lemma ReadBackThread(s: State, pid: Pid, id: Id)
    requires id in s.tasks
    ensures OnlyThread(s, ActReadBack(s, pid, id), pid)
  {
  }

  lemma GateThread(cfg: Config, s: State, pid: Pid, id: Id, snap: Task)
    requires id in s.tasks
    ensures OnlyThread(s, ActGate(cfg, s, pid, id, snap), pid)
  {
    hide CellFor, B.AllowResult, B.AfterAllow;
    if snap.verb !in s.catalog { } else if !cfg.circuits { } else { }
  }

  lemma RefuseThread(s: State, pid: Pid, id: Id, at: int)
    requires id in s.tasks
    ensures OnlyThread(s, ActRefuse(s, pid, id, at), pid)
  {
  }

  lemma LaunchThread(cfg: Config, s: State, pid: Pid, id: Id, snap: Task, at: int)
    requires id in s.tasks
    ensures OnlyThread(s, ActLaunch(cfg, s, pid, id, snap, at), pid)
  {
  }

  lemma ChildThread(s: State, pid: Pid, x: Exec, start: int, end: int, out: Outcome)
    requires HasTask(s, x.id)
    ensures OnlyThread(s, ActSpawn(s, pid, x, start), pid) && OnlyThread(s, ActEnd(s, pid, x, start, out), pid)
    ensures OnlyThread(s, ActRecord(s, pid, x, start, end, out), pid)
  {
    hide Ended;
  }

  lemma JudgeThread(cfg: Config, s: State, pid: Pid, x: Exec, end: int, out: Outcome)
    ensures OnlyThread(s, ActJudge(cfg, s, pid, x, end, out), pid)
  {
    hide CellFor, B.AfterFailure, B.AfterSuccess;
    if out == RunOk { } else { }
  }

  lemma FinishThread(s: State, pid: Pid, x: Exec)
    requires x.id in s.tasks
    ensures OnlyThread(s, ActFinish(s, pid, x), pid)
  {
    if x.inline { } else { }
  }

  lemma FailThread(cfg: Config, s: State, pid: Pid, x: Exec, out: Outcome, inp: Input)
    requires x.id in s.tasks
    ensures OnlyThread(s, ActFail(cfg, s, pid, x, out, inp), pid)
  {
    hide DelayFor, GivenUp, RetryLater;
    if x.n >= x.limit { } else { }
  }

  lemma PraiseThread(cfg: Config, s: State, pid: Pid, verb: string, trip: int)
    ensures OnlyThread(s, Done(Praise(cfg, s, verb, trip), pid), pid)
  {
    hide CellFor;
  }

  lemma NotifyThread(s: State, pid: Pid, id: Id)
    requires id in s.stories
    ensures OnlyThread(s, ActNotify(s, pid, id), pid)
  {
  }

  lemma DrainThread(s: State, pid: Pid, batch: seq<nat>, logged: bool)
    ensures OnlyThread(s, ActDrain(s, pid, batch, logged), pid)
  {
    hide OnlyThread;
    if batch == [] {
      Moves(s, s, pid, Draining(batch, true));
    } else if !logged {
      Moves(s, s.(log := s.log + [batch[0]]), pid, Draining(batch, true));
    } else {
      Moves(s, s.(written := s.written + {batch[0]}), pid, Draining(batch[1..], false));
    }
  }

  lemma RunThread(cfg: Config, s: State, pid: Pid, x: Exec, ph: Phase, inp: Input)
    requires HasTask(s, x.id)
    ensures OnlyThread(s, DoRun(cfg, s, pid, x, ph, inp), pid)
  {
    hide ActFail, ActFinish, ActSpawn, ActEnd, ActRecord, ActJudge, OnlyThread;
    match ph
    case Spawning(start) => ChildThread(s, pid, x, start, 0, RunOk);
    case Running(start) => ChildThread(s, pid, x, start, 0, inp.out);
    case Ran(start, end, out) => ChildThread(s, pid, x, start, end, out);
    case Recorded(end, out) =>
      if CommitsFirst(x, out) { FinishThread(s, pid, x); } else { JudgeThread(cfg, s, pid, x, end, out); }
    case Judged(_, out) =>
      if out == RunOk { FinishThread(s, pid, x); } else { FailThread(cfg, s, pid, x, out, inp); }
  }

  lemma ActThread(cfg: Config, s: State, pid: Pid, inp: Input)
    requires pid in s.actors && ActEnabled(cfg, s, s.actors[pid], inp)
    ensures OnlyThread(s, DoAct(cfg, s, pid, s.actors[pid], inp), pid)
  {
    hide ActFind, ActPeek, ActCreate, ActSave, ActRefind, ActCancel, ActReplay, ActAccept, ActHandOff, ActSelect,
         ActClaim, ActReadBack, ActGate, ActRefuse, ActLaunch, DoRun, Praise, ActNotify, ActDrain, OnlyThread;
    match s.actors[pid]
    case Finding(req) => FindThread(s, pid, req);
    case Peeking(req) => PeekThread(cfg, s, pid, req);
    case Creating(req) => CreateThread(cfg, s, pid, req, inp.newId);
    case Saving(req, id) => SaveThread(s, pid, req, id);
    case Refinding(req, id) => RefindThread(s, pid, req, id);
    case Canceling(req, id, win) => CancelThread(s, pid, req, id, win);
    case Replaying(req, id, win) => ReplayThread(s, pid, req, id, win);
    case Accepting(req, id) => AcceptThread(s, pid, req, id);
    case HandingOff(req, id) => HandOffThread(cfg, s, pid, req, id);
    case Selecting(at, tries) => SelectThread(s, pid, at, tries, inp.found);
    case Claiming(cand, at, tries) => ClaimThread(cfg, s, pid, cand, at, tries);
    case ReadingBack(id) => ReadBackThread(s, pid, id);
    case Gating(id, snap) => GateThread(cfg, s, pid, id, snap);
    case Refused(id, _) => RefuseThread(s, pid, id, inp.at);
    case Launching(id, snap, _) => LaunchThread(cfg, s, pid, id, snap, inp.at);
    case InRun(x, ph) => RunThread(cfg, s, pid, x, ph, inp);
    case Praising(verb, trip) => PraiseThread(cfg, s, pid, verb, trip);
    case Notifying(id) => NotifyThread(s, pid, id);
    case Draining(batch, logged) => DrainThread(s, pid, batch, logged);
  }
}
