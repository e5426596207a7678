/** Every update the daemon makes to a task keeps that task in order. These are
    facts about one row, its attempts and its story, with no threads in sight. */
module EngineUpdates {
  import opened Tasks
  import opened Engine
  import opened EngineInv

  lemma NewTaskOk(cfg: Config, req: Request, now: int)
    ensures TaskOk(cfg, NewTask(req.verb, req.budget, now), map[], Story(Some(req), [], 0, 0),
                   Some(Lifecycle(Accepted)), now, false)
  {
  }

  lemma SupersededOk(cfg: Config, t: Task, att: map<nat, Attempt>, h: Story, last: Option<Label>, now: int)
    requires TaskOk(cfg, t, att, h, last, now, false) && t.state == Accepted
    ensures TaskOk(cfg, Superseded(t, now), att, h, Some(Lifecycle(Canceled)), now, false)
  {
  }

  lemma TouchedOk(cfg: Config, t: Task, att: map<nat, Attempt>, h: Story, last: Option<Label>, now: int)
    requires TaskOk(cfg, t, att, h, last, now, false) && t.state == Accepted
    ensures TaskOk(cfg, Touched(t, now), att, h, Some(Lifecycle(Accepted)), now, false)
  {
  }

  lemma AdmittedOk(cfg: Config, t: Task, att: map<nat, Attempt>, h: Story, last: Option<Label>, now: int)
    requires TaskOk(cfg, t, att, h, last, now, false) && t.state == Accepted
    ensures TaskOk(cfg, HandedOff(t, now), att, h, Some(Lifecycle(Pending)), now, false)
    ensures TaskOk(cfg, InlineStarted(t, now), att, h, Some(Lifecycle(Executing)), now, false)
    ensures t.attempt == 0 && h.runs == [] && FreeAt(cfg, h.runs, 0, now)
  {
  }

  lemma ClaimedOk(cfg: Config, t: Task, att: map<nat, Attempt>, h: Story, last: Option<Label>, now: int, at: int)
    requires TaskOk(cfg, t, att, h, last, now, false)
    requires WellTimed(cfg) && Claimable(t, cfg.due, at) && at <= now
    ensures TaskOk(cfg, Claimed(t, now), att, h, last, now, false)
    ensures |h.runs| <= t.attempt + h.crashes && Started(t.state)
  {
    assert FreeAt(cfg, h.runs, t.attempt, now);
  }

  lemma ReadyOk(cfg: Config, t: Task, att: map<nat, Attempt>, h: Story, last: Option<Label>, now: int)
    requires TaskOk(cfg, t, att, h, last, now, false) && t.state == Executing
    ensures FreeAt(cfg, h.runs, t.attempt, now)
  {
  }

  lemma UnknownVerbOk(cfg: Config, t: Task, att: map<nat, Attempt>, h: Story, last: Option<Label>, now: int)
    requires TaskOk(cfg, t, att, h, last, now, false) && t.state == Executing
    ensures TaskOk(cfg, UnknownVerb(t, now), att, h, Some(Lifecycle(Exhausted)), now, false)
  {
  }

  lemma RequeuedOk(cfg: Config, t: Task, att: map<nat, Attempt>, h: Story, last: Option<Label>, now: int, next: int)
    requires TaskOk(cfg, t, att, h, last, now, false) && t.state == Executing
    requires |h.runs| <= t.attempt + h.crashes
    ensures TaskOk(cfg, Requeued(t, next, now), att, h, Some(CircuitOpen), now, false)
  {
  }

  lemma MarkedOk(cfg: Config, t: Task, att: map<nat, Attempt>, h: Story, last: Option<Label>, now: int)
    requires TaskOk(cfg, t, att, h, last, now, false) && t.state == Executing
    ensures TaskOk(cfg, Marked(t, now), att, h, Some(Lifecycle(Executing)), now, false)
    ensures FreeAt(cfg, h.runs, t.attempt, now)
  {
  }

  lemma SpawnedOk(cfg: Config, t: Task, att: map<nat, Attempt>, h: Story, last: Option<Label>, now: int, start: int,
                  inline: bool)
    requires TaskOk(cfg, t, att, h, last, now, false) && t.state == Executing
    requires |h.runs| <= t.attempt + h.crashes && FreeAt(cfg, h.runs, t.attempt, start)
    ensures TaskOk(cfg, t, att, h.(runs := h.runs + [RunRecord(t.attempt, start, inline, None, None)]), last, now,
                   false)
  {
    var r := RunRecord(t.attempt, start, inline, None, None);
    assert Spaced(cfg, h.runs + [r]) && Past(h.runs + [r], t.attempt, now) && FreeAt(cfg, h.runs + [r], t.attempt, now);
  }

  lemma EndedOk(cfg: Config, t: Task, att: map<nat, Attempt>, h: Story, last: Option<Label>, now: int, out: Outcome)
    requires TaskOk(cfg, t, att, h, last, now, false) && t.state == Executing
    requires h.runs != [] && h.runs[|h.runs| - 1].attempt == t.attempt
    ensures TaskOk(cfg, t, att, h.(runs := Ended(h.runs, now, out)), last, now, false)
    ensures Past(Ended(h.runs, now, out), t.attempt, now)
  {
    var runs := Ended(h.runs, now, out);
    assert Spaced(cfg, runs) && Past(runs, t.attempt, now) && FreeAt(cfg, runs, t.attempt, now);
  }

  lemma RecordedOk(cfg: Config, t: Task, att: map<nat, Attempt>, h: Story, last: Option<Label>, now: int, a: Attempt)
    requires TaskOk(cfg, t, att, h, last, now, false) && t.state == Executing
    ensures TaskOk(cfg, t, att[t.attempt := a], h, last, now, false)
  {
  }

  lemma FinishedOk(cfg: Config, t: Task, att: map<nat, Attempt>, h: Story, last: Option<Label>, now: int)
    requires TaskOk(cfg, t, att, h, last, now, false) && t.state == Executing && t.attempt in att
    ensures TaskOk(cfg, Finished(t, now), att, h, Some(Lifecycle(Executed)), now, false)
  {
  }

  lemma GivenUpOk(cfg: Config, t: Task, att: map<nat, Attempt>, h: Story, last: Option<Label>, now: int,
                  out: Outcome, err: string)
    requires TaskOk(cfg, t, att, h, last, now, false) && t.state == Executing && t.attempt in att
    requires t.attempt >= EffectiveMax(cfg, t) || (t.attempt == 0 && t.maxRetries == 0)
    ensures TaskOk(cfg, GivenUp(t, out, err, now), att, h, Some(Lifecycle(Exhausted)), now, false)
    ensures h.notices == 0
  {
  }

  lemma RetryLaterOk(cfg: Config, t: Task, att: map<nat, Attempt>, h: Story, last: Option<Label>, now: int,
                     end: int, next: int, out: Outcome, err: string)
    requires TaskOk(cfg, t, att, h, last, now, false) && t.state == Executing && t.attempt in att
    requires Past(h.runs, t.attempt, end)
    requires t.attempt < EffectiveMax(cfg, t) && next >= end + Floor(cfg, t.attempt)
    ensures TaskOk(cfg, RetryLater(t, t.attempt, next, out, err, now), att, h, Some(WillRetry), now, false)
  {
    assert FreeAtOrNow(cfg, h.runs, t.attempt + 1, next, now) && Past(h.runs, t.attempt + 1, now) by {
      hide Floor;
    }
    hide Floor, Spaced, Past, FreeAt, FreeAtOrNow;
  }

  lemma NotifiedOk(cfg: Config, t: Task, att: map<nat, Attempt>, h: Story, last: Option<Label>, now: int)
    requires TaskOk(cfg, t, att, h, last, now, false) && t.state == Exhausted && h.notices == 0
    ensures TaskOk(cfg, t, att, h.(notices := 1), last, now, false)
  {
  }

  // ---- what a task in order tells

  lemma ExhaustedFacts(cfg: Config, t: Task, att: map<nat, Attempt>, h: Story, last: Option<Label>, now: int,
                       booting: bool)
    requires TaskOk(cfg, t, att, h, last, now, booting) && t.state == Exhausted && t.error != UNKNOWN_VERB
    ensures t.attempt in att && AttemptsExact(att, t.attempt) && LastAttempt(cfg, t)
  {
  }

  lemma BudgetFacts(cfg: Config, t: Task, att: map<nat, Attempt>, h: Story, last: Option<Label>, now: int,
                    booting: bool)
    requires TaskOk(cfg, t, att, h, last, now, booting)
    ensures t.attempt <= EffectiveMax(cfg, t) && AttemptsExact(att, t.attempt) && RunsCounted(t, h, true)
  {
  }

  // ---- crash and boot

  lemma CrashedOk(cfg: Config, t: Task, att: map<nat, Attempt>, h: Story, last: Option<Label>, now: int)
    requires TaskOk(cfg, t, att, h, last, now, false)
    ensures TaskOk(cfg, t, att, OneMoreCrash(t, h), last, now, true)
  {
  }

  lemma ResumedOk(cfg: Config, t: Task, att: map<nat, Attempt>, h: Story, last: Option<Label>, now: int)
    requires TaskOk(cfg, t, att, h, last, now, true) && t.state == Executing
    ensures TaskOk(cfg, Resumed(t, now), att, h, last, now, true)
  {
  }

  lemma LeftoverOk(cfg: Config, t: Task, att: map<nat, Attempt>, h: Story, last: Option<Label>, now: int)
    requires TaskOk(cfg, t, att, h, last, now, true) && (t.state == Accepted || t.state == PendingApproval)
    ensures TaskOk(cfg, CanceledOnRestart(t, now), att, h, Some(Lifecycle(Canceled)), now, true)
  {
  }

  lemma BootedOk(cfg: Config, t: Task, att: map<nat, Attempt>, h: Story, last: Option<Label>, now: int)
    requires TaskOk(cfg, t, att, h, last, now, true) && t.state != Executing
    ensures TaskOk(cfg, t, att, h, last, now, false)
  {
  }

  lemma LaterOk(cfg: Config, t: Task, att: map<nat, Attempt>, h: Story, last: Option<Label>, now: int, later: int,
                booting: bool)
    requires TaskOk(cfg, t, att, h, last, now, booting) && now <= later
    ensures TaskOk(cfg, t, att, h, last, later, booting)
  {
  }
}
