/** The invariant holds in every reachable state: boot, crash and clock steps,
    the dispatch over all steps, and the induction over runs. */
module EngineRuns {
  import opened Tasks
  import opened Engine
  import opened EngineInv
  import opened EngineUpdates
  import opened EngineSteps

  lemma ActKeeps(cfg: Config, s: State, pid: Pid, inp: Input)
    requires Inv(cfg, s) && pid in s.actors && ActEnabled(cfg, s, s.actors[pid], inp)
    ensures Inv(cfg, DoAct(cfg, s, pid, s.actors[pid], inp))
  {
    hide Inv, TaskOk, LatestLabel, DepthOf;
    match s.actors[pid]
    case Finding(req) => FindKeeps(cfg, s, pid, req);
    case Peeking(req) => PeekKeeps(cfg, s, pid, req);
    case Creating(req) => CreateKeeps(cfg, s, pid, req, inp.newId);
    case Saving(req, id) => SaveKeeps(cfg, s, pid, req, id);
    case Refinding(req, id) => RefindKeeps(cfg, s, pid, req, id);
    case Canceling(req, id, win) => CancelKeeps(cfg, s, pid, req, id, win);
    case Replaying(req, id, win) => ReplayKeeps(cfg, s, pid, req, id, win);
    case Accepting(req, id) => AcceptKeeps(cfg, s, pid, req, id);
    case HandingOff(req, id) =>
      if cfg.syncExec { InlineKeeps(cfg, s, pid, req, id); } else { QueueKeeps(cfg, s, pid, req, id); }
    case Selecting(at, tries) => SelectKeeps(cfg, s, pid, at, tries, inp.found);
    case Claiming(cand, at, tries) => ClaimKeeps(cfg, s, pid, cand, at, tries);
    case ReadingBack(id) => ReadBackKeeps(cfg, s, pid, id);
    case Gating(id, snap) => GateKeeps(cfg, s, pid, id, snap);
    case Refused(id, snap) => RefuseKeeps(cfg, s, pid, id, snap, inp.at);
    case Launching(id, snap, since) => LaunchKeeps(cfg, s, pid, id, snap, since, inp.at);
    case InRun(x, ph) => RunPhaseKeeps(cfg, s, pid, x, ph, inp);
    case Praising(verb, trip) => PraiseKeeps(cfg, s, pid, verb, trip);
    case Notifying(id) => NotifyKeeps(cfg, s, pid, id);
    case Draining(batch, logged) => DrainKeeps(cfg, s, pid, batch, logged);
  }

  lemma RunPhaseKeeps(cfg: Config, s: State, pid: Pid, x: Exec, ph: Phase, inp: Input)
    requires Inv(cfg, s) && pid in s.actors && s.actors[pid] == InRun(x, ph) && HasTask(s, x.id)
    requires ph.Judged? ==> ph.end <= inp.at <= s.now
    ensures Inv(cfg, DoRun(cfg, s, pid, x, ph, inp))
  {
    hide Inv, TaskOk, LatestLabel, DepthOf;
    match ph
    case Spawning(start) => SpawnKeeps(cfg, s, pid, x, start);
    case Running(start) => EndKeeps(cfg, s, pid, x, start, inp.out);
    case Ran(start, end, out) => RecordKeeps(cfg, s, pid, x, start, end, out);
    case Recorded(end, out) =>
      if CommitsFirst(x, out) { FinishKeeps(cfg, s, pid, x, ph); } else { JudgeKeeps(cfg, s, pid, x, end, out); }
    case Judged(end, out) =>
      if out == RunOk { FinishKeeps(cfg, s, pid, x, ph); }
      else if x.n >= x.limit { GiveUpKeeps(cfg, s, pid, x, end, out, inp); }
      else { RetryKeeps(cfg, s, pid, x, end, out, inp); }
  }

  /** A new thread starts with no task. */
  lemma StartKeeps(cfg: Config, s: State, pid: Pid, a: Actor)
    requires Inv(cfg, s) && !s.booting && pid !in s.actors
    requires Touch(a) == None && ActorOk(cfg, To(s, pid, a), a)
    ensures Inv(cfg, To(s, pid, a))
  {
    hide Inv, TaskOk, ActorOk;
    var s' := To(s, pid, a);
    Tables(cfg, s);
    assert RepliesOk(s') by {
      forall i | 0 <= i < |s'.replies| ensures ReplyOk(s', s'.replies[i]) { assert ReplyOk(s, s.replies[i]); }
    }
    QuietStep(cfg, s, s', pid, Some(a));
  }

  lemma AbandonKeeps(cfg: Config, s: State, pid: Pid)
    requires Inv(cfg, s) && pid in s.actors && s.actors[pid].Draining?
    ensures Inv(cfg, Done(s, pid))
  {
    hide Inv, TaskOk, ActorOk;
    Mine(cfg, s, pid);
    MoveThread(cfg, s, Done(s, pid), pid, None);
  }

  lemma TickKeeps(cfg: Config, s: State, to: int)
    requires Inv(cfg, s) && s.now <= to
    ensures Inv(cfg, s.(now := to))
  {
    hide TaskOk, LatestLabel, DepthOf;
    var s' := s.(now := to);
    forall id | id in s'.tasks ensures TaskOkAt(cfg, s', id) {
      assert TaskOkAt(cfg, s, id);
      LaterOk(cfg, s.tasks[id], s.attempts[id], s.stories[id], LatestLabel(s.outbox, id), s.now, to, s.booting);
    }
    assert ActorsOk(cfg, s') by {
      forall p | p in s'.actors ensures ActorOk(cfg, s', s'.actors[p]) {
        ActorLater(cfg, s, to, s.actors[p]);
      }
    }
    hide ActorOk, OneOwner;
    assert RepliesOk(s') by {
      forall i | 0 <= i < |s'.replies| ensures ReplyOk(s', s'.replies[i]) { assert ReplyOk(s, s.replies[i]); }
    }
    TickTables(cfg, s, s');
  }

  lemma ActorLater(cfg: Config, s: State, to: int, a: Actor)
    requires ActorOk(cfg, s, a) && s.now <= to
    ensures ActorOk(cfg, s.(now := to), a)
  {
    hide FreeAt;
  }

  /** Tables that no clock, boot or crash step is about. */
  lemma TickTables(cfg: Config, s: State, s': State)
    requires Inv(cfg, s) && s' == s.(now := s'.now)
    ensures BindingsOk(s') && StartedBound(s') && RowsOk(s') && LogOk(s') && OneOwner(s') && Phases(s')
  {
    hide TaskOk, LatestLabel, DepthOf, ActorOk, HashOf, RepliesOk;
  }

  // ---- crash

  lemma CrashKeeps(cfg: Config, s: State, catalog: map<string, VerbEntry>)
    requires Inv(cfg, s)
    ensures Inv(cfg, DoCrash(s, catalog))
  {
    hide TaskOk, LatestLabel, DepthOf, ActorOk, HashOf, OneOwner, Owned;
    var s' := DoCrash(s, catalog);
    assert s'.stories.Keys == s.stories.Keys;
    assert SameRequests(s, s');
    assert TasksOk(cfg, s') by {
      forall id | id in s'.tasks ensures TaskOkAt(cfg, s', id) {
        assert TaskOkAt(cfg, s, id);
        if !s.booting {
          CrashedOk(cfg, s.tasks[id], s.attempts[id], s.stories[id], LatestLabel(s.outbox, id), s.now);
        }
      }
    }
    CrashTables(cfg, s, s');
    assert OneOwner(s') by { NobodyHome(s'); }
  }

  lemma NobodyHome(s: State)
    requires s.actors == map[]
    ensures OneOwner(s)
  {
  }

  ghost predicate SameRequests(s: State, s': State) {
    forall id :: id in s.stories ==> id in s'.stories && s'.stories[id].req == s.stories[id].req
  }

  lemma CrashTables(cfg: Config, s: State, s': State)
    requires Inv(cfg, s) && SameRequests(s, s') && s'.stories.Keys == s.stories.Keys && s'.tasks == s.tasks
    requires s'.bindings == s.bindings && s'.outbox == s.outbox && s'.log == s.log && s'.written == s.written
    requires s'.replies == s.replies
    ensures BindingsOk(s') && StartedBound(s') && RowsOk(s') && LogOk(s') && RepliesOk(s')
  {
    hide TaskOk, LatestLabel, DepthOf, ActorOk, HashOf;
    assert RepliesOk(s') by {
      forall i | 0 <= i < |s'.replies| ensures ReplyOk(s', s'.replies[i]) { assert ReplyOk(s, s.replies[i]); }
    }
  }

  // ---- boot

  lemma BootFacts(cfg: Config, s: State, i: Id)
    requires Inv(cfg, s) && s.booting && i in s.tasks
    ensures HasTask(s, i) && TaskOkAt(cfg, s, i) && s.actors == map[]
  {
    hide TaskOk, LatestLabel, DepthOf, ActorOk, HashOf;
  }

  /** A boot step on one task, with at most one audit row. */
  lemma BootStep(cfg: Config, s: State, s': State, i: Id, c: Change)
    requires Inv(cfg, s) && s.booting && i in s.tasks && SameBut(s, s', i, c)
    requires s'.actors == map[]
    requires TaskOk(cfg, c.t, c.att, c.h, if c.row.Some? then Some(c.row.value.mark) else LatestLabel(s.outbox, i),
                    s.now, true)
    requires Active(s.tasks[i].state) && (Started(c.t.state) ==> Started(s.tasks[i].state))
    requires c.row.Some? && TerminalLabel(c.row.value.mark) ==> c.t.state == c.row.value.mark.state
    ensures Inv(cfg, s')
  {
    hide LatestLabel, TaskOk, ActorOk;
    Tables(cfg, s) by { hide Inv; }
    SameButIsOnlyTask(s, s', i, c);
    StoriesKeepBindings(s, s', i, c);
    hide SameBut, StartedBound, BindingsOk, LogOk, RepliesOk, DepthOf;
    assert TasksOk(cfg, s') by {
      hide RowsOk, OnlyTask;
      OtherTasksKeep(cfg, s, s', i);
    }
    BootRows(s, s', i, c);
    BootBound(s, s', i, c);
    LogAndRepliesKept(s, s', i) by { hide OnlyTask; }
    DepthKept(s, s', i, cfg.maxDepth);
    hide RowsOk, OnlyTask;
    NobodyHome(s');
  }

  lemma BootRows(s: State, s': State, i: Id, c: Change)
    requires RowsOk(s) && SameBut(s, s', i, c) && Active(s.tasks[i].state)
    requires c.row.Some? && TerminalLabel(c.row.value.mark) ==> c.t.state == c.row.value.mark.state
    ensures RowsOk(s')
  {
    forall k | 0 <= k < |s'.outbox|
      ensures s'.outbox[k].id in s'.tasks
      ensures TerminalLabel(s'.outbox[k].mark) ==> s'.tasks[s'.outbox[k].id].state == s'.outbox[k].mark.state
    {
      if k < |s.outbox| { assert s'.outbox[k] == s.outbox[k]; }
    }
  }

  lemma BootBound(s: State, s': State, i: Id, c: Change)
    requires StartedBound(s) && SameBut(s, s', i, c) && SameDomains(s)
    requires Started(c.t.state) ==> Started(s.tasks[i].state)
    ensures StartedBound(s')
  {
  }

  lemma ResumeKeeps(cfg: Config, s: State, i: Id)
    requires Inv(cfg, s) && s.booting && i in s.tasks && s.tasks[i].state == Executing
    ensures Inv(cfg, s.(tasks := s.tasks[i := Resumed(s.tasks[i], s.now)]))
  {
    hide Inv, TaskOk, LatestLabel;
    BootFacts(cfg, s, i);
    var t, att, h := s.tasks[i], s.attempts[i], s.stories[i];
    ResumedOk(cfg, t, att, h, LatestLabel(s.outbox, i), s.now);
    BootStep(cfg, s, s.(tasks := s.tasks[i := Resumed(t, s.now)]), i, Change(Resumed(t, s.now), att, h, None));
  }

  lemma LeftoverKeeps(cfg: Config, s: State, i: Id)
    requires Inv(cfg, s) && s.booting && LeftoverNext(s, i)
    ensures Inv(cfg, UpdateAndAudit(s, i, CanceledOnRestart(s.tasks[i], s.now), Lifecycle(Canceled), 0))
  {
    hide Inv, TaskOk, LatestLabel;
    BootFacts(cfg, s, i);
    var t, att, h := s.tasks[i], s.attempts[i], s.stories[i];
    LeftoverOk(cfg, t, att, h, LatestLabel(s.outbox, i), s.now);
    var t' := CanceledOnRestart(t, s.now);
    BootStep(cfg, s, UpdateAndAudit(s, i, t', Lifecycle(Canceled), 0), i,
             Change(t', att, h, Some(Row(i, Lifecycle(Canceled), 0))));
  }

  lemma BootDoneKeeps(cfg: Config, s: State)
    requires Inv(cfg, s) && Enabled(cfg, s, BootDone)
    ensures Inv(cfg, s.(booting := false))
  {
    hide TaskOk, LatestLabel, DepthOf, ActorOk, HashOf;
    var s' := s.(booting := false);
    assert TasksOk(cfg, s') by {
      forall id | id in s'.tasks ensures TaskOkAt(cfg, s', id) {
        assert TaskOkAt(cfg, s, id);
        BootedOk(cfg, s.tasks[id], s.attempts[id], s.stories[id], LatestLabel(s.outbox, id), s.now);
      }
    }
    assert SameRequests(s, s');
    CrashTables(cfg, s, s');
    NobodyHome(s');
  }

  // ---- every step, every run

  lemma StepKeeps(cfg: Config, s: State, step: Step)
    requires Inv(cfg, s) && Enabled(cfg, s, step)
    ensures Inv(cfg, Do(cfg, s, step))
  {
    hide Inv, TaskOk, LatestLabel, DepthOf;
    match step
    case Tick(to) => TickKeeps(cfg, s, to);
    case Post(pid, verb, args, stdin, key) =>
      var v := s.catalog[verb];
      StartKeeps(cfg, s, pid, Finding(Request(verb, args, stdin, key, BudgetOf(cfg, v), v.trip)));
    case Poll(pid) => StartKeeps(cfg, s, pid, Selecting(s.now, 0));
    case Drain(pid, rows) => StartKeeps(cfg, s, pid, Draining(rows, false));
    case Abandon(pid) => AbandonKeeps(cfg, s, pid);
    case Act(pid, inp) => ActKeeps(cfg, s, pid, inp);
    case Crash(catalog) => CrashKeeps(cfg, s, catalog);
    case ResumeExecuting(id) => ResumeKeeps(cfg, s, id);
    case CancelLeftover(id) => LeftoverKeeps(cfg, s, id);
    case BootDone => BootDoneKeeps(cfg, s);
  }

  lemma InitOk(cfg: Config, s: State)
    requires Init(cfg, s) && WellTimed(cfg)
    ensures Inv(cfg, s)
  {
  }

  lemma {:induction false} RunKeeps(cfg: Config, s: State, steps: seq<Step>)
    requires Inv(cfg, s) && Valid(cfg, s, steps)
    ensures Inv(cfg, After(cfg, s, steps))
  {
    if steps != [] {
      hide Inv;
      var before := steps[..|steps| - 1];
      RunKeeps(cfg, s, before);
      StepKeeps(cfg, After(cfg, s, before), steps[|steps| - 1]);
    }
  }

  lemma ReachableOk(cfg: Config, s: State)
    requires WellTimed(cfg) && Reachable(cfg, s)
    ensures Inv(cfg, s)
  {
    hide Inv, Init;
    var init: State, steps: seq<Step> :| Init(cfg, init) && Valid(cfg, init, steps) && After(cfg, init, steps) == s;
    InitOk(cfg, init);
    RunKeeps(cfg, init, steps);
  }
}
