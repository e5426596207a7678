/** The worker loop run on its own (internal/worker/worker.go): claim one due
    task, execute it, commit the outcome. The child process and the clock are
    inputs. */
module Worker {
  import opened Tasks
  import opened Memory
  import B = Breaker
  import E = Engine
  import D = EngineDrain
  import Backoff

  /** One tick: what the clock said along the way, in order, and how the child
      ended. */
  datatype TickInput = TickInput(now: int, claim: int, gate: int, start: int, verdict: int, next: int, commit: int,
                                 out: Outcome, err: string, word: nat)

  /** The row an execution leaves. */
  function ExecuteResult(cfg: E.Config, known: bool, allowed: bool, t: Task, k: TickInput): Task {
    if !known then UnknownVerb(t, k.commit)
    else if !allowed then Requeued(t, k.next + SECOND, k.commit)
    else if k.out == RunOk then Finished(t, k.commit)
    else if t.attempt >= E.EffectiveMax(cfg, t) then GivenUp(t, k.out, k.err, k.commit)
    else RetryLater(t, t.attempt, k.next + E.DelayFor(cfg, false, t.attempt, k.word), k.out, k.err, k.commit)
  }

  /** The audit rows it appends. */
  function ExecuteRows(cfg: E.Config, known: bool, allowed: bool, id: Id, t: Task, k: TickInput): seq<Row> {
    if !known then [Row(id, Lifecycle(Exhausted), 0)]
    else if !allowed then [Row(id, CircuitOpen, 0)]
    else [Row(id, Lifecycle(Executing), t.attempt),
          Row(id, if k.out == RunOk then Lifecycle(Executed)
                  else if t.attempt >= E.EffectiveMax(cfg, t) then Lifecycle(Exhausted)
                  else WillRetry, t.attempt)]
  }

  /** What an execution makes of the row t, in figures: t' is what it leaves. */
  ghost predicate Fate(cfg: E.Config, known: bool, allowed: bool, t: Task, t': Task, k: TickInput) {
    && t'.verb == t.verb && t'.maxRetries == t.maxRetries && t'.createdAt == t.createdAt && t'.updatedAt == k.commit
    && if !known then
         && t'.state == Exhausted && t'.attempt == t.attempt && t'.error == "unknown verb in catalog"
         && t'.lastOutcome == Some(RunFailed) && t'.nextRunAt == t.nextRunAt
       else if !allowed then
         && t'.state == RetryScheduled && t'.attempt == t.attempt && t'.error == "circuit_open"
         && t'.lastOutcome == t.lastOutcome && t'.nextRunAt == Some(k.next + 1_000_000_000)
       else if k.out == RunOk then
         && t'.state == Executed && t'.attempt == t.attempt && t'.error == ""
         && t'.lastOutcome == Some(RunOk) && t'.nextRunAt == None
       else
         var limit := if t.maxRetries > 0 then t.maxRetries else cfg.maxRetries;
         && t'.lastOutcome == Some(k.out) && t'.error == k.err
         && if t.attempt < limit then
              && t'.state == RetryScheduled && t'.attempt == t.attempt + 1
              && t'.nextRunAt.Some?
              && InWindow(t'.nextRunAt.value - k.next, if cfg.base > 0 then cfg.base else 1_000_000_000, t.attempt)
            else
              t'.state == Exhausted && t'.attempt == t.attempt && t'.nextRunAt == None
  }

  /** The scheduled delay after failed attempt n, capped at 300 s, plus less than
      250 ms. */
  ghost predicate InWindow(delay: int, base: nat, n: nat) {
    var d := Backoff.Scheduled(base, n, 300_000_000_000);
    d <= delay < d + 250_000_000
  }

  lemma DelayIsInWindow(cfg: E.Config, inline: bool, n: nat, word: nat)
    ensures InWindow(E.DelayFor(cfg, inline, n, word), if cfg.base > 0 || inline then cfg.base else SECOND, n)
  {
    var base := if cfg.base == 0 && !inline then SECOND else cfg.base;
    Backoff.ScheduledRange(base, n, Backoff.MAX_DELAY);
    assert 0 <= Backoff.Jitter(Backoff.MAX_JITTER, word) < Backoff.MAX_JITTER;
  }

  lemma ExecuteFate(cfg: E.Config, known: bool, allowed: bool, t: Task, k: TickInput)
    ensures Fate(cfg, known, allowed, t, ExecuteResult(cfg, known, allowed, t, k), k)
  {
    hide InWindow, E.DelayFor;
    DelayIsInWindow(cfg, false, t.attempt, k.word);
  }

  /** Does the gate let a task of this verb through? */
  function GateOpen(circuits: bool, cell: B.Cell, at: int): bool {
    !circuits || B.AllowResult(cell.settings, cell.st, at)
  }

  /** The verb's breaker after gate and verdict. */
  function CellAfter(cell: B.Cell, k: TickInput): B.Cell
    requires cell.settings.Sane()
  {
    var asked := cell.Asked(k.gate);
    if GateOpen(true, cell, k.gate) then asked.Told(k.out == RunOk, k.verdict) else asked
  }

  /** The exhaustion notice, if one is due. */
  function ExecuteNotices(cfg: E.Config, known: bool, allowed: bool, id: Id, t: Task, k: TickInput): seq<Id> {
    if known && allowed && k.out != RunOk && t.attempt >= E.EffectiveMax(cfg, t) then [id] else []
  }

  class Worker {
    const store: Memory
    const circuits: B.Registry?
    const cfg: E.Config
    const catalog: map<string, E.VerbEntry>
    var notices: seq<Id>

    ghost predicate Valid()
      reads circuits
    {
      && Backoff.Int64(cfg.base)
      && (circuits != null <==> cfg.circuits)
      && (circuits != null ==> circuits.Valid() && circuits.Default() == B.NewSettings(cfg.trip, cfg.openFor))
    }

    ghost function Breakers(): set<object>
      reads circuits
    {
      if circuits == null then {} else {circuits} + circuits.breakers.Values
    }

    /** Neither the store nor the worker is one of its breakers. */
    ghost predicate Apart()
      reads circuits
    {
      store as object !in Breakers() && this as object !in Breakers()
    }

    constructor (store: Memory, circuits: B.Registry?, cfg: E.Config, catalog: map<string, E.VerbEntry>)
      requires Backoff.Int64(cfg.base)
      requires circuits != null <==> cfg.circuits
      requires circuits != null ==> circuits.Valid() && circuits.Default() == B.NewSettings(cfg.trip, cfg.openFor)
      ensures Valid() && notices == []
      ensures this.store == store && this.circuits == circuits && this.cfg == cfg && this.catalog == catalog
    {
      this.store, this.circuits, this.cfg, this.catalog := store, circuits, cfg, catalog;
      notices := [];
    }

    ghost function Cells(): (cells: map<string, B.Cell>)
      reads circuits, Breakers()
      ensures Valid() ==> B.SaneCells(cells)
    {
      if circuits == null then map[] else circuits.Cells()
    }

    /** The breaker that gates the verb, among these. */
    function CellIn(cells: map<string, B.Cell>, verb: string): (cell: B.Cell)
      requires verb in catalog
      ensures B.SaneCells(cells) ==> cell.settings.Sane()
    {
      E.CellAmong(cfg, cells, verb, catalog[verb].trip)
    }

    /** Asks the verb's breaker, if breakers are on, for leave to run. */
    method Allowed(verb: string, gate: int) returns (allowed: bool)
      requires Valid() && verb in catalog && Apart()
      modifies Breakers()
      ensures Valid() && fresh(Breakers() - old(Breakers())) && Apart()
      ensures allowed == GateOpen(cfg.circuits, CellIn(old(Cells()), verb), gate)
      ensures circuits != null ==>
        verb in circuits.breakers && Cells() == old(Cells())[verb := CellIn(old(Cells()), verb).Asked(gate)]
    {
      hide B.CellOf, B.AllowResult, B.Cell.Asked;
      if circuits == null { return true; }
      allowed := circuits.Ask(verb, catalog[verb].trip, gate);
    }

    /** One execution of a claimed task: its row, its audit rows, at most one
        notice and its verb's breaker, and nothing else. A task of an unknown verb
        is given up without asking; any other runs exactly when its verb's
        breaker grants it. */
    method Execute(id: Id, k: TickInput) returns (allowed: bool)
      requires Valid() && id in store.tasks && store.tasks[id].state == Executing
      requires Backoff.Int64(store.tasks[id].attempt)
      requires Apart()
      modifies store`tasks, store`audit, this`notices, Breakers()
      ensures Valid() && fresh(Breakers() - old(Breakers()))
      ensures var t := old(store.tasks[id]);
        var known := t.verb in catalog;
        && allowed == (known ==> GateOpen(cfg.circuits, CellIn(old(Cells()), t.verb), k.gate))
        && store.tasks == old(store.tasks)[id := ExecuteResult(cfg, known, allowed, t, k)]
        && store.audit == old(store.audit) + ExecuteRows(cfg, known, allowed, id, t, k)
        && notices == old(notices) + ExecuteNotices(cfg, known, allowed, id, t, k)
        && Cells() == (if !known || circuits == null then old(Cells())
                       else old(Cells())[t.verb := CellAfter(CellIn(old(Cells()), t.verb), k)])
        && Fate(cfg, known, allowed, t, store.tasks[id], k)
        && notices == old(notices) + (if known && store.tasks[id].state == Exhausted then [id] else [])
    {
      hide CellIn, GateOpen, CellAfter, E.DelayFor, Fate;
      ExecuteFate(cfg, store.tasks[id].verb in catalog, true, store.tasks[id], k);
      ExecuteFate(cfg, store.tasks[id].verb in catalog, false, store.tasks[id], k);
      var task := store.tasks[id];
      if task.verb !in catalog {
        var done := store.UpdateAndAudit(id, (t: Task) => UnknownVerb(t, 0), Lifecycle(Exhausted), 0, k.commit);
        return true;
      }
      allowed := GateAndRun(id, task, k);
    }

    /** The part after the verb is found: ask its breaker, then requeue or run. */
    method GateAndRun(id: Id, task: Task, k: TickInput) returns (allowed: bool)
      requires Valid() && id in store.tasks && store.tasks[id] == task && task.state == Executing
      requires Backoff.Int64(task.attempt) && task.verb in catalog
      requires Apart()
      modifies store`tasks, store`audit, this`notices, Breakers()
      ensures Valid() && fresh(Breakers() - old(Breakers()))
      ensures allowed == GateOpen(cfg.circuits, CellIn(old(Cells()), task.verb), k.gate)
      ensures store.tasks == old(store.tasks)[id := ExecuteResult(cfg, true, allowed, task, k)]
      ensures store.audit == old(store.audit) + ExecuteRows(cfg, true, allowed, id, task, k)
      ensures notices == old(notices) + ExecuteNotices(cfg, true, allowed, id, task, k)
      ensures Cells() == if circuits == null then old(Cells())
                         else old(Cells())[task.verb := CellAfter(CellIn(old(Cells()), task.verb), k)]
    {
      hide CellIn, B.Cell.Asked, B.Cell.Told, B.AllowResult, Apart, B.SaneCells, ExecuteResult, ExecuteRows;
      allowed := Allowed(task.verb, k.gate);
      if allowed {
        RunAndCommit(id, task, k);
      } else {
        PutBack(id, task, k);
      }
    }

    /** Requeues a task whose circuit is open. */
    method PutBack(id: Id, task: Task, k: TickInput)
      requires id in store.tasks && store.tasks[id] == task
      modifies store`tasks, store`audit
      ensures store.tasks == old(store.tasks)[id := ExecuteResult(cfg, true, false, task, k)]
      ensures store.audit == old(store.audit) + ExecuteRows(cfg, true, false, id, task, k)
    {
      var next := k.next + SECOND;
      var done := store.UpdateAndAudit(id, (t: Task) => Requeued(t, next, 0), CircuitOpen, 0, k.commit);
    }

    /** The part after the gate: mark, run the child, tell the breaker, commit. */
    method RunAndCommit(id: Id, task: Task, k: TickInput)
      requires Valid() && id in store.tasks && store.tasks[id] == task && task.state == Executing
      requires Backoff.Int64(task.attempt) && (circuits != null ==> task.verb in circuits.breakers)
      requires Apart()
      modifies store`tasks, store`audit, this`notices, if circuits == null then {} else {circuits.breakers[task.verb]}
      ensures store.tasks == old(store.tasks)[id := ExecuteResult(cfg, true, true, task, k)]
      ensures store.audit == old(store.audit) + ExecuteRows(cfg, true, true, id, task, k)
      ensures notices == old(notices) + ExecuteNotices(cfg, true, true, id, task, k)
      ensures circuits != null ==>
        Cells() == old(Cells())[task.verb := old(Cells())[task.verb].Told(k.out == RunOk, k.verdict)]
      ensures Fate(cfg, true, true, task, store.tasks[id], k)
    {
      hide B.Cell.Told, ExecuteResult, E.EffectiveMax, B.SaneCells, Fate;
      ExecuteFate(cfg, true, true, task, k);
      ghost var was, cells := store.tasks, Cells();
      var marked := store.UpdateAndAudit(id, (t: Task) => Marked(t, 0), Lifecycle(Executing), task.attempt, k.start);
      assert Cells() == cells;
      CommitAndTell(id, task, k);
      Overwrites(was, id, Marked(task, k.start), ExecuteResult(cfg, true, true, task, k));
    }

    /** A success is committed before the breaker hears of it, a failure after. */
    method CommitAndTell(id: Id, task: Task, k: TickInput)
      requires Valid() && id in store.tasks && store.tasks[id] == Marked(task, k.start) && task.state == Executing
      requires Backoff.Int64(task.attempt) && (circuits != null ==> task.verb in circuits.breakers) && Apart()
      modifies store`tasks, store`audit, this`notices, if circuits == null then {} else {circuits.breakers[task.verb]}
      ensures store.tasks == old(store.tasks)[id := ExecuteResult(cfg, true, true, task, k)]
      ensures store.audit == old(store.audit) + ExecuteRows(cfg, true, true, id, task, k)[1..]
      ensures notices == old(notices) + ExecuteNotices(cfg, true, true, id, task, k)
      ensures circuits != null ==>
        Cells() == old(Cells())[task.verb := old(Cells())[task.verb].Told(k.out == RunOk, k.verdict)]
    {
      hide B.Cell.Told, ExecuteResult, ExecuteRows, ExecuteNotices, E.EffectiveMax, B.SaneCells;
      ghost var cells := Cells();
      if k.out == RunOk {
        Commit(id, task, k);
        assert Cells() == cells;
        if circuits != null { circuits.Tell(task.verb, true, k.verdict); }
      } else {
        if circuits != null { circuits.Tell(task.verb, false, k.verdict); }
        ghost var told := Cells();
        Commit(id, task, k);
        assert Cells() == told;
      }
    }

    /** The row of a finished run, with its audit row and notice. */
    method Commit(id: Id, task: Task, k: TickInput)
      requires Valid() && id in store.tasks && store.tasks[id] == Marked(task, k.start) && task.state == Executing
      requires Backoff.Int64(task.attempt)
      modifies store`tasks, store`audit, this`notices
      ensures store.tasks == old(store.tasks)[id := ExecuteResult(cfg, true, true, task, k)]
      ensures store.audit == old(store.audit) + ExecuteRows(cfg, true, true, id, task, k)[1..]
      ensures notices == old(notices) + ExecuteNotices(cfg, true, true, id, task, k)
    {
      var n := task.attempt;
      if k.out == RunOk {
        var done := store.UpdateAndAudit(id, (t: Task) => Finished(t, 0), Lifecycle(Executed), n, k.commit);
        return;
      }
      var maxRetries := if task.maxRetries == 0 then cfg.maxRetries else task.maxRetries;
      if Backoff.ShouldExhaust(n, maxRetries) {
        var done :=
          store.UpdateAndAudit(id, (t: Task) => GivenUp(t, k.out, k.err, 0), Lifecycle(Exhausted), n, k.commit);
        notices := notices + [id];
        return;
      }
      var base := if cfg.base == 0 then SECOND else cfg.base;
      var delay := Backoff.DelayAfterFailure(base, n, Backoff.MAX_JITTER, k.word);
      var next := k.next + delay;
      var done :=
        store.UpdateAndAudit(id, (t: Task) => RetryLater(t, n, next, k.out, k.err, 0), WillRetry, n, k.commit);
    }

    /** Claims the first due task and executes it; does nothing if none is due. */
    method RunOnce(k: TickInput) returns (ran: Option<Id>, allowed: bool)
      requires Valid() && IntAttempts(store.tasks)
      requires Apart()
      modifies store`tasks, store`audit, this`notices, Breakers()
      ensures Valid() && fresh(Breakers() - old(Breakers()))
      ensures circuits == null ==> allowed
      ensures ran == None <==> forall id :: id in old(store.tasks) ==> !DueNow(old(store.tasks), id, k.now)
      ensures ran == None ==>
        store.tasks == old(store.tasks) && store.audit == old(store.audit) && notices == old(notices) &&
        Cells() == old(Cells())
      ensures ran.Some? ==> FirstDue(old(store.tasks), ran.value, k.now)
      ensures ran.Some? ==>
        var t := old(store.tasks)[ran.value];
        && allowed == (t.verb in catalog ==> GateOpen(cfg.circuits, CellIn(old(Cells()), t.verb), k.gate))
        && store.tasks == old(store.tasks)[ran.value := AfterRun(t, allowed, k)]
        && store.audit ==
           old(store.audit) + ExecuteRows(cfg, t.verb in catalog, allowed, ran.value, Claimed(t, k.claim), k)
        && notices == old(notices) + ExecuteNotices(cfg, t.verb in catalog, allowed, ran.value, Claimed(t, k.claim), k)
        && Cells() == (if t.verb !in catalog || circuits == null then old(Cells())
                       else old(Cells())[t.verb := CellAfter(CellIn(old(Cells()), t.verb), k)])
        && Fate(cfg, t.verb in catalog, allowed, Claimed(t, k.claim), store.tasks[ran.value], k)
    {
      hide Fate, CellAfter, CellIn, ExecuteResult, ExecuteRows, ExecuteNotices;
      ran := store.ClaimDue(k.now, k.claim);
      if ran == None { return None, true; }
      var id := ran.value;
      allowed := Execute(id, k);
    }

    /** What becomes of a due task that is claimed and executed. */
    function AfterRun(t: Task, allowed: bool, k: TickInput): Task {
      ExecuteResult(cfg, t.verb in catalog, allowed, Claimed(t, k.claim), k)
    }

    /** The loop over the ticks it is given. Every execution that its breaker lets
        through uses up a unit of the queue's potential, so that as many executions
        as the potential empty the queue; without breakers every tick executes a
        task unless nothing is due. */
    method Run(ticks: seq<TickInput>) returns (executed: nat, idle: nat)
      requires Valid() && IntAttempts(store.tasks) && Backoff.Int64(cfg.maxRetries)
      requires Apart() && Settled(cfg, store.tasks)
      modifies store`tasks, store`audit, this`notices, Breakers()
      ensures Settled(cfg, store.tasks)
      ensures executed + D.Potential(cfg, store.tasks) <= D.Potential(cfg, old(store.tasks))
      ensures executed >= D.Potential(cfg, old(store.tasks)) ==> DepthOf(store.tasks) == 0
      ensures circuits == null ==> executed + idle == |ticks|
    {
      hide Fate, GateOpen, CellAfter, CellIn, ExecuteResult, ExecuteRows, ExecuteNotices;
      executed, idle := 0, 0;
      ghost var was := store.tasks;
      for i := 0 to |ticks|
        invariant Valid() && fresh(Breakers() - old(Breakers())) && Apart()
        invariant IntAttempts(store.tasks) && Settled(cfg, store.tasks)
        invariant executed + D.Potential(cfg, store.tasks) <= D.Potential(cfg, was)
        invariant circuits == null ==> executed + idle == i
      {
        ghost var before := store.tasks;
        var ran, allowed := RunOnce(ticks[i]);
        if ran == None {
          idle := idle + 1;
        } else {
          OneExecution(cfg, before, ran.value, before[ran.value].verb in catalog, allowed, ticks[i]);
          if allowed { executed := executed + 1; }
        }
      }
      if executed >= D.Potential(cfg, was) { D.NothingOwed(cfg, store.tasks); }
    }

    /** The first time from `now` on at which some task is due; none when no task
        is active. */
    method NextReady(now: int) returns (at: Option<int>)
      requires Settled(cfg, store.tasks)
      ensures at == None <==> DepthOf(store.tasks) == 0
      ensures at.Some? ==> now <= at.value && exists id :: DueNow(store.tasks, id, at.value)
      ensures at.Some? ==> forall id, sooner :: now <= sooner < at.value ==> !DueNow(store.tasks, id, sooner)
    {
      at := None;
      var rest := store.tasks.Keys;
      while rest != {}
        invariant rest <= store.tasks.Keys
        invariant at == None ==> forall id :: id in ActiveIds(store.tasks) ==> id in rest
        invariant at.Some? ==> now <= at.value && exists id :: DueNow(store.tasks, id, at.value)
        invariant at.Some? ==>
          forall id, sooner :: id !in rest && now <= sooner < at.value ==> !DueNow(store.tasks, id, sooner)
        decreases |rest|
      {
        var id :| id in rest;
        rest := rest - {id};
        var t := store.tasks[id];
        if Active(t.state) {
          var ready := if t.state == Pending || t.nextRunAt == None then now else Later(now, t.nextRunAt.value);
          assert DueNow(store.tasks, id, ready);
          if at == None || ready < at.value { at := Some(ready); }
        }
      }
      if at.Some? {
        var id :| DueNow(store.tasks, id, at.value);
        assert id in ActiveIds(store.tasks);
      } else {
        assert ActiveIds(store.tasks) == {};
      }
    }

    /** A loop that moves the clock to the next time at which a task is due and
        executes one, however its runs end and however long they take, empties the
        queue within as many executions as the potential. */
    method DrainAll(start: int, runs: nat -> TickInput) returns (executed: nat)
      requires Valid() && circuits == null && IntAttempts(store.tasks) && Backoff.Int64(cfg.maxRetries)
      requires Apart() && Settled(cfg, store.tasks)
      modifies store`tasks, store`audit, this`notices
      ensures DepthOf(store.tasks) == 0
      ensures executed <= D.Potential(cfg, old(store.tasks))
    {
      executed := 0;
      var now := start;
      ghost var was := store.tasks;
      while true
        invariant Valid() && Apart() && IntAttempts(store.tasks) && Settled(cfg, store.tasks)
        invariant executed + D.Potential(cfg, store.tasks) <= D.Potential(cfg, was)
        decreases D.Potential(cfg, store.tasks)
      {
        var at := NextReady(now);
        if at == None { return; }
        now := at.value;
        ghost var before := store.tasks;
        var k := runs(executed).(now := now);
        var ran, allowed := RunOnce(k);
        OneExecution(cfg, before, ran.value, before[ran.value].verb in catalog, allowed, k);
        executed := executed + 1;
      }
    }
  }

  function Later(a: int, b: int): int { if a < b then b else a }

  /** Attempt numbers and limits fit the machine's int. */
  ghost predicate IntAttempts(tasks: map<Id, Task>) {
    forall id :: id in tasks ==> Backoff.Int64(tasks[id].attempt) && Backoff.Int64(tasks[id].maxRetries)
  }

  /** A queue as the resume leaves it: within budget, everything active can run. */
  ghost predicate Settled(cfg: E.Config, tasks: map<Id, Task>) {
    forall id :: id in tasks ==>
      && tasks[id].attempt <= E.EffectiveMax(cfg, tasks[id])
      && (Active(tasks[id].state) ==> tasks[id].state == Pending || tasks[id].state == RetryScheduled)
  }

  lemma ResultOwesLess(cfg: E.Config, known: bool, allowed: bool, t: Task, k: TickInput)
    requires Active(t.state) && t.attempt <= E.EffectiveMax(cfg, t)
    ensures var t' := ExecuteResult(cfg, known, allowed, Claimed(t, k.claim), k);
      && t'.attempt <= E.EffectiveMax(cfg, t') && t'.maxRetries == t.maxRetries
      && (Active(t'.state) ==> t'.state == RetryScheduled)
      && D.Weight(cfg, t') + (if allowed then 1 else 0) <= D.Weight(cfg, t)
  {
    hide E.DelayFor;
  }

  lemma OneExecution(cfg: E.Config, tasks: map<Id, Task>, id: Id, known: bool, allowed: bool, k: TickInput)
    requires Settled(cfg, tasks) && IntAttempts(tasks) && Backoff.Int64(cfg.maxRetries) && DueNow(tasks, id, k.now)
    ensures var t' := ExecuteResult(cfg, known, allowed, Claimed(tasks[id], k.claim), k);
      && Settled(cfg, tasks[id := t']) && IntAttempts(tasks[id := t'])
      && D.Potential(cfg, tasks[id := t']) + (if allowed then 1 else 0) <= D.Potential(cfg, tasks)
  {
    hide ExecuteResult, D.Weight, D.Potential;
    ResultOwesLess(cfg, known, allowed, tasks[id], k);
    D.PotentialAfterWrite(cfg, tasks, id, ExecuteResult(cfg, known, allowed, Claimed(tasks[id], k.claim), k));
  }
}

/** The worker's method does what its steps in the state machine do when nobody
    interferes. */
module WorkerRefinement {
  import opened Tasks
  import opened Memory
  import opened Engine
  import opened Worker
  import B = Breaker

  ghost predicate Leads(cfg: Config, s: State, s': State) {
    exists steps: seq<Step> :: Valid(cfg, s, steps) && After(cfg, s, steps) == s'
  }

  lemma Stays(cfg: Config, s: State)
    ensures Leads(cfg, s, s)
  {
    assert Valid(cfg, s, []) && After(cfg, s, []) == s;
  }

  lemma Goes(cfg: Config, s0: State, s: State, step: Step)
    requires Leads(cfg, s0, s) && Enabled(cfg, s, step)
    ensures Leads(cfg, s0, Do(cfg, s, step))
  {
    hide Enabled, Do;
    var steps: seq<Step> :| Valid(cfg, s0, steps) && After(cfg, s0, steps) == s;
    assert (steps + [step])[..|steps|] == steps;
    assert Valid(cfg, s0, steps + [step]) && After(cfg, s0, steps + [step]) == Do(cfg, s, step);
  }

  /** The clock moves to `at`, then the thread takes its step. */
  lemma MovesAt(cfg: Config, s0: State, s: State, pid: Pid, at: int, inp: Input) returns (s': State)
    requires Leads(cfg, s0, s) && s.now <= at && pid in s.actors
    requires ActEnabled(cfg, s.(now := at), s.actors[pid], inp)
    ensures Leads(cfg, s0, s')
    ensures s' == DoAct(cfg, s.(now := at), pid, s.actors[pid], inp)
  {
    hide Leads, DoAct, ActEnabled;
    Goes(cfg, s0, s, Tick(at));
    var s1 := s.(now := at);
    Goes(cfg, s0, s1, Act(pid, inp));
    s' := Do(cfg, s1, Act(pid, inp));
  }

  predicate InOrder(s: State, k: TickInput) {
    s.now <= k.gate <= k.start <= k.verdict <= k.next <= k.commit
  }

  function InputOf(k: TickInput, at: int): Input { Input("", None, k.word, k.out, k.err, at) }

  /** Does the breaker of the task's verb let it through at this gate? */
  predicate LetThrough(cfg: Config, s: State, t: Task, k: TickInput) {
    t.verb in s.catalog ==> GateOpen(cfg.circuits, CellFor(cfg, s, t.verb, s.catalog[t.verb].trip), k.gate)
  }

  /** The breakers an execution leaves. */
  function BreakersAfter(cfg: Config, s: State, t: Task, k: TickInput): map<string, B.Cell>
    requires B.SaneCells(s.breakers)
  {
    if t.verb !in s.catalog || !cfg.circuits then s.breakers
    else s.breakers[t.verb := CellAfter(CellFor(cfg, s, t.verb, s.catalog[t.verb].trip), k)]
  }

  /** The breakers a verdict leaves. */
  function BreakersTold(cfg: Config, s: State, verb: string, trip: int, k: TickInput): map<string, B.Cell>
    requires B.SaneCells(s.breakers)
  {
    if !cfg.circuits then s.breakers
    else s.breakers[verb := CellFor(cfg, s, verb, trip).Told(k.out == RunOk, k.verdict)]
  }

  /** A thread that has read its claimed task back can go on alone to what the
      method leaves: the row, the audit rows, the notice and the breakers. */
  lemma ExecuteIsSteps(cfg: Config, s: State, pid: Pid, id: Id, k: TickInput) returns (s': State)
    requires HasTask(s, id) && pid in s.actors && s.actors[pid] == Gating(id, s.tasks[id]) && InOrder(s, k)
    requires s.tasks[id].state == Executing && B.SaneCells(s.breakers)
    ensures Leads(cfg, s, s') && pid !in s'.actors
    ensures var t := s.tasks[id];
      var known, allowed := t.verb in s.catalog, LetThrough(cfg, s, t, k);
      && s'.tasks == s.tasks[id := ExecuteResult(cfg, known, allowed, t, k)]
      && s'.outbox == s.outbox + ExecuteRows(cfg, known, allowed, id, t, k)
      && Notified(s, s', id, |ExecuteNotices(cfg, known, allowed, id, t, k)|)
      && s'.breakers == BreakersAfter(cfg, s, t, k)
  {
    hide Leads, LetThrough, ExecuteResult, ExecuteRows, ExecuteNotices, BreakersAfter, B.SaneCells;
    var t := s.tasks[id];
    if t.verb !in s.catalog {
      s' := UnknownIsSteps(cfg, s, pid, id, k);
    } else {
      var s1 := GateIsSteps(cfg, s, pid, id, k);
      if LetThrough(cfg, s, t, k) {
        s' := PassedIsSteps(cfg, s, s1, pid, id, t, k);
      } else {
        s' := RefusedIsSteps(cfg, s, s1, pid, id, t, k);
      }
    }
  }

  lemma UnknownIsSteps(cfg: Config, s: State, pid: Pid, id: Id, k: TickInput) returns (s': State)
    requires HasTask(s, id) && pid in s.actors && s.actors[pid] == Gating(id, s.tasks[id]) && InOrder(s, k)
    requires s.tasks[id].verb !in s.catalog && B.SaneCells(s.breakers)
    ensures Leads(cfg, s, s') && pid !in s'.actors
    ensures var t := s.tasks[id];
      && LetThrough(cfg, s, t, k)
      && s'.tasks == s.tasks[id := ExecuteResult(cfg, false, true, t, k)]
      && s'.outbox == s.outbox + ExecuteRows(cfg, false, true, id, t, k)
      && Notified(s, s', id, |ExecuteNotices(cfg, false, true, id, t, k)|) && s'.breakers == BreakersAfter(cfg, s, t, k)
  {
    hide Leads;
    Stays(cfg, s);
    s' := MovesAt(cfg, s, s, pid, k.commit, InputOf(k, k.gate));
  }

  /** The thread at `a` after the gate, with the breaker asked. */
  ghost predicate Gated(cfg: Config, s: State, s1: State, pid: Pid, t: Task, k: TickInput, a: Actor)
    requires t.verb in s.catalog
  {
    && s1 == s.(now := k.gate, actors := s.actors[pid := a], breakers := s1.breakers)
    && s1.breakers == if !cfg.circuits then s.breakers
                      else s.breakers[t.verb := CellFor(cfg, s, t.verb, s.catalog[t.verb].trip).Asked(k.gate)]
  }

  lemma PassedIsSteps(cfg: Config, s: State, s1: State, pid: Pid, id: Id, t: Task, k: TickInput) returns (s': State)
    requires Leads(cfg, s, s1) && HasTask(s, id) && s.tasks[id] == t && t.state == Executing && InOrder(s, k)
    requires B.SaneCells(s.breakers) && t.verb in s.catalog && LetThrough(cfg, s, t, k)
    requires Gated(cfg, s, s1, pid, t, k, Launching(id, t, k.gate))
    ensures Leads(cfg, s, s') && pid !in s'.actors
    ensures s'.tasks == s.tasks[id := ExecuteResult(cfg, true, true, t, k)]
    ensures s'.outbox == s.outbox + ExecuteRows(cfg, true, true, id, t, k)
    ensures Notified(s, s', id, |ExecuteNotices(cfg, true, true, id, t, k)|)
    ensures s'.breakers == BreakersAfter(cfg, s, t, k)
  {
    hide Leads, CellFor, B.Cell.Told, ExecuteResult, ExecuteRows, ExecuteNotices, B.SaneCells, B.AllowResult;
    SaneGate(cfg, s, s1, t, k);
    s' := LaunchedIsSteps(cfg, s, s1, pid, id, t, k);
  }

  lemma RefusedIsSteps(cfg: Config, s: State, s1: State, pid: Pid, id: Id, t: Task, k: TickInput) returns (s': State)
    requires Leads(cfg, s, s1) && HasTask(s, id) && s.tasks[id] == t && InOrder(s, k)
    requires B.SaneCells(s.breakers) && t.verb in s.catalog && !LetThrough(cfg, s, t, k)
    requires Gated(cfg, s, s1, pid, t, k, Refused(id, t))
    ensures Leads(cfg, s, s') && pid !in s'.actors
    ensures s'.tasks == s.tasks[id := ExecuteResult(cfg, true, false, t, k)]
    ensures s'.outbox == s.outbox + ExecuteRows(cfg, true, false, id, t, k)
    ensures Notified(s, s', id, |ExecuteNotices(cfg, true, false, id, t, k)|)
    ensures s'.breakers == BreakersAfter(cfg, s, t, k)
  {
    hide Leads, CellFor, B.Cell.Told, B.Cell.Asked, B.SaneCells, B.AllowResult;
    s' := MovesAt(cfg, s, s1, pid, k.commit, InputOf(k, k.next));
  }

  lemma GateIsSteps(cfg: Config, s: State, pid: Pid, id: Id, k: TickInput) returns (s': State)
    requires HasTask(s, id) && pid in s.actors && s.actors[pid] == Gating(id, s.tasks[id]) && InOrder(s, k)
    requires s.tasks[id].verb in s.catalog
    ensures Leads(cfg, s, s')
    ensures var t := s.tasks[id];
      Gated(cfg, s, s', pid, t, k, if LetThrough(cfg, s, t, k) then Launching(id, t, k.gate) else Refused(id, t))
  {
    hide Leads, B.CellOf, B.AllowResult, B.AfterAllow;
    Stays(cfg, s);
    GateIgnoresClock(cfg, s, s.tasks[id], k);
    s' := MovesAt(cfg, s, s, pid, k.gate, InputOf(k, k.gate));
  }

  /** The task got so many more notices. */
  predicate Notified(s: State, s': State, id: Id, more: nat) {
    HasTask(s, id) && HasTask(s', id) && s'.stories[id].notices == s.stories[id].notices + more
  }

  /** The breakers after the gate are in order, and the verb's is the one asked. */
  lemma SaneGate(cfg: Config, s: State, s1: State, t: Task, k: TickInput)
    requires B.SaneCells(s.breakers) && t.verb in s.catalog
    requires s1.breakers == if !cfg.circuits then s.breakers
                            else s.breakers[t.verb := CellFor(cfg, s, t.verb, s.catalog[t.verb].trip).Asked(k.gate)]
    ensures B.SaneCells(s1.breakers)
    ensures cfg.circuits ==>
      var trip := s.catalog[t.verb].trip;
      CellFor(cfg, s1, t.verb, trip) == CellFor(cfg, s, t.verb, trip).Asked(k.gate)
  {
  }

  lemma GateIgnoresClock(cfg: Config, s: State, t: Task, k: TickInput)
    requires t.verb in s.catalog
    ensures CellFor(cfg, s.(now := k.gate), t.verb, s.catalog[t.verb].trip)
         == CellFor(cfg, s, t.verb, s.catalog[t.verb].trip)
  {
  }

  lemma LaunchedIsSteps(cfg: Config, s0: State, s: State, pid: Pid, id: Id, t: Task, k: TickInput) returns (s': State)
    requires Leads(cfg, s0, s) && HasTask(s, id) && pid in s.actors && s.tasks[id] == t && t.state == Executing
    requires s.actors[pid] == Launching(id, t, k.gate) && s.now == k.gate && t.verb in s.catalog
    requires k.gate <= k.start <= k.verdict <= k.next <= k.commit && B.SaneCells(s.breakers)
    ensures Leads(cfg, s0, s') && pid !in s'.actors
    ensures s'.tasks == s.tasks[id := ExecuteResult(cfg, true, true, t, k)]
    ensures s'.outbox == s.outbox + ExecuteRows(cfg, true, true, id, t, k)
    ensures Notified(s, s', id, |ExecuteNotices(cfg, true, true, id, t, k)|)
    ensures s'.breakers == BreakersTold(cfg, s, t.verb, s.catalog[t.verb].trip, k)
  {
    hide Leads, DelayFor, CellFor;
    var trip := s.catalog[t.verb].trip;
    var x := Exec(id, t.verb, trip, t.attempt, EffectiveMax(cfg, t), false);
    hide DoAct, BreakersTold, B.SaneCells;
    var s1 := LaunchIsSteps(cfg, s0, s, pid, id, t, k, x);
    var s4 := ChildIsSteps(cfg, s0, s1, pid, x, k);
    s' := RecordedIsSteps(cfg, s0, s4, pid, x, Marked(t, k.start), k);
    Overwrites(s.tasks, id, Marked(t, k.start), ExecuteResult(cfg, true, true, t, k));
    SameBreakers(cfg, s, s4, t.verb, trip, k);
  }

  lemma LaunchIsSteps(cfg: Config, s0: State, s: State, pid: Pid, id: Id, t: Task, k: TickInput, x: Exec)
      returns (s': State)
    requires Leads(cfg, s0, s) && HasTask(s, id) && pid in s.actors && s.tasks[id] == t && t.verb in s.catalog
    requires s.actors[pid] == Launching(id, t, k.gate) && s.now == k.gate <= k.start
    requires x == Exec(id, t.verb, s.catalog[t.verb].trip, t.attempt, EffectiveMax(cfg, t), false)
    ensures Leads(cfg, s0, s')
    ensures s' == UpdateAndAudit(s, id, Marked(t, k.start), Lifecycle(Executing), t.attempt)
                  .(now := k.start, actors := s.actors[pid := InRun(x, Spawning(k.start))])
  {
    hide Leads;
    s' := MovesAt(cfg, s0, s, pid, k.start, InputOf(k, k.start));
  }

  lemma SameBreakers(cfg: Config, s: State, s1: State, verb: string, trip: int, k: TickInput)
    requires s1.breakers == s.breakers && B.SaneCells(s.breakers)
    ensures BreakersTold(cfg, s1, verb, trip, k) == BreakersTold(cfg, s, verb, trip, k)
  {
  }

  /** What a child's run leaves alone. */
  ghost predicate OnlyRuns(s: State, s': State, id: Id) {
    && s'.tasks == s.tasks && s'.outbox == s.outbox && s'.breakers == s.breakers && s'.bindings == s.bindings
    && s'.catalog == s.catalog && s'.replies == s.replies && Notified(s, s', id, 0)
  }

  lemma ChildIsSteps(cfg: Config, s0: State, s: State, pid: Pid, x: Exec, k: TickInput) returns (s': State)
    requires Leads(cfg, s0, s) && HasTask(s, x.id) && pid in s.actors && s.now == k.start <= k.verdict
    requires s.actors[pid] == InRun(x, Spawning(k.start))
    ensures Leads(cfg, s0, s') && OnlyRuns(s, s', x.id)
    ensures s'.now == k.verdict && s'.actors == s.actors[pid := InRun(x, Recorded(k.verdict, k.out))]
  {
    hide Leads, DoAct;
    var s1 := SpawnIsSteps(cfg, s0, s, pid, x, k);
    var s2 := EndIsSteps(cfg, s0, s1, pid, x, k);
    s' := RecordIsSteps(cfg, s0, s2, pid, x, k);
  }

  lemma SpawnIsSteps(cfg: Config, s0: State, s: State, pid: Pid, x: Exec, k: TickInput) returns (s': State)
    requires Leads(cfg, s0, s) && HasTask(s, x.id) && pid in s.actors && s.now == k.start
    requires s.actors[pid] == InRun(x, Spawning(k.start))
    ensures Leads(cfg, s0, s') && OnlyRuns(s, s', x.id) && s'.now == k.start
    ensures s'.actors == s.actors[pid := InRun(x, Running(k.start))]
  {
    hide Leads;
    s' := MovesAt(cfg, s0, s, pid, k.start, InputOf(k, k.start));
  }

  lemma EndIsSteps(cfg: Config, s0: State, s: State, pid: Pid, x: Exec, k: TickInput) returns (s': State)
    requires Leads(cfg, s0, s) && HasTask(s, x.id) && pid in s.actors && s.now == k.start <= k.verdict
    requires s.actors[pid] == InRun(x, Running(k.start))
    ensures Leads(cfg, s0, s') && OnlyRuns(s, s', x.id) && s'.now == k.verdict
    ensures s'.actors == s.actors[pid := InRun(x, Ran(k.start, k.verdict, k.out))]
  {
    hide Leads, Ended;
    s' := MovesAt(cfg, s0, s, pid, k.verdict, InputOf(k, k.start));
  }

  lemma RecordIsSteps(cfg: Config, s0: State, s: State, pid: Pid, x: Exec, k: TickInput) returns (s': State)
    requires Leads(cfg, s0, s) && HasTask(s, x.id) && pid in s.actors && s.now == k.verdict
    requires s.actors[pid] == InRun(x, Ran(k.start, k.verdict, k.out))
    ensures Leads(cfg, s0, s') && OnlyRuns(s, s', x.id) && s'.now == k.verdict
    ensures s'.actors == s.actors[pid := InRun(x, Recorded(k.verdict, k.out))]
  {
    hide Leads;
    s' := MovesAt(cfg, s0, s, pid, k.verdict, InputOf(k, k.start));
  }

  lemma RecordedIsSteps(cfg: Config, s0: State, s: State, pid: Pid, x: Exec, t: Task, k: TickInput) returns (s': State)
    requires Leads(cfg, s0, s) && HasTask(s, x.id) && pid in s.actors && s.tasks[x.id] == t
    requires s.actors[pid] == InRun(x, Recorded(k.verdict, k.out)) && s.now == k.verdict
    requires !x.inline && x.n == t.attempt && x.limit == EffectiveMax(cfg, t)
    requires k.verdict <= k.next <= k.commit && B.SaneCells(s.breakers)
    ensures Leads(cfg, s0, s') && pid !in s'.actors
    ensures s'.tasks == s.tasks[x.id := ExecuteResult(cfg, true, true, t, k)]
    ensures s'.outbox == s.outbox + ExecuteRows(cfg, true, true, x.id, t, k)[1..]
    ensures Notified(s, s', x.id, |ExecuteNotices(cfg, true, true, x.id, t, k)|)
    ensures s'.breakers == BreakersTold(cfg, s, x.verb, x.trip, k)
  {
    hide Leads, DelayFor, CellFor, DoAct, BreakersTold;
    if k.out == RunOk {
      var s1 := FinishFirst(cfg, s0, s, pid, x, k);
      SameBreakers(cfg, s, s1, x.verb, x.trip, k);
      s' := PraiseIsSteps(cfg, s0, s1, pid, x, k);
    } else {
      var s1 := JudgeIsSteps(cfg, s0, s, pid, x, k);
      s' := FailureIsSteps(cfg, s0, s1, pid, x, t, k);
    }
  }

  /** A worker commits a success before it tells the breaker. */
  lemma FinishFirst(cfg: Config, s0: State, s: State, pid: Pid, x: Exec, k: TickInput) returns (s': State)
    requires Leads(cfg, s0, s) && HasTask(s, x.id) && pid in s.actors && s.now <= k.commit
    requires s.actors[pid] == InRun(x, Recorded(k.verdict, RunOk)) && !x.inline
    ensures Leads(cfg, s0, s')
    ensures s' == UpdateAndAudit(s, x.id, Finished(s.tasks[x.id], k.commit), Lifecycle(Executed), x.n)
                  .(now := k.commit, actors := s.actors[pid := Praising(x.verb, x.trip)])
  {
    hide Leads;
    s' := MovesAt(cfg, s0, s, pid, k.commit, InputOf(k, k.next));
  }

  lemma PraiseIsSteps(cfg: Config, s0: State, s: State, pid: Pid, x: Exec, k: TickInput) returns (s': State)
    requires Leads(cfg, s0, s) && HasTask(s, x.id) && pid in s.actors && s.actors[pid] == Praising(x.verb, x.trip)
    requires B.SaneCells(s.breakers) && k.out == RunOk
    ensures Leads(cfg, s0, s') && pid !in s'.actors
    ensures s'.tasks == s.tasks && s'.outbox == s.outbox && Notified(s, s', x.id, 0)
    ensures s'.breakers == BreakersTold(cfg, s, x.verb, x.trip, k)
  {
    hide Leads;
    s' := MovesAt(cfg, s0, s, pid, s.now, InputOf(k, k.next));
  }

  lemma JudgeIsSteps(cfg: Config, s0: State, s: State, pid: Pid, x: Exec, k: TickInput) returns (s': State)
    requires Leads(cfg, s0, s) && HasTask(s, x.id) && pid in s.actors && s.now == k.verdict
    requires s.actors[pid] == InRun(x, Recorded(k.verdict, k.out))
    requires !CommitsFirst(x, k.out) && B.SaneCells(s.breakers)
    ensures Leads(cfg, s0, s') && s'.now == s.now && s'.bindings == s.bindings && s'.replies == s.replies
    ensures s'.actors == s.actors[pid := InRun(x, Judged(k.verdict, k.out))]
    ensures s'.tasks == s.tasks && s'.outbox == s.outbox && Notified(s, s', x.id, 0)
    ensures s'.breakers == BreakersTold(cfg, s, x.verb, x.trip, k)
  {
    hide Leads;
    s' := MovesAt(cfg, s0, s, pid, k.verdict, InputOf(k, k.next));
  }

  lemma FailureIsSteps(cfg: Config, s0: State, s: State, pid: Pid, x: Exec, t: Task, k: TickInput) returns (s': State)
    requires Leads(cfg, s0, s) && HasTask(s, x.id) && pid in s.actors && s.tasks[x.id] == t
    requires s.actors[pid] == InRun(x, Judged(k.verdict, k.out)) && s.now == k.verdict && k.out != RunOk
    requires !x.inline && x.n == t.attempt && x.limit == EffectiveMax(cfg, t)
    requires k.verdict <= k.next <= k.commit
    ensures Leads(cfg, s0, s') && pid !in s'.actors && s'.breakers == s.breakers
    ensures s'.tasks == s.tasks[x.id := ExecuteResult(cfg, true, true, t, k)]
    ensures s'.outbox == s.outbox + ExecuteRows(cfg, true, true, x.id, t, k)[1..]
    ensures Notified(s, s', x.id, |ExecuteNotices(cfg, true, true, x.id, t, k)|)
  {
    hide Leads, DelayFor;
    if x.n >= x.limit {
      s' := GiveUpIsSteps(cfg, s0, s, pid, x, k);
    } else {
      s' := RetryIsSteps(cfg, s0, s, pid, x, k);
    }
  }

  /** What the last step of a run leaves alone. */
  ghost predicate JudgedStays(s: State, s': State, pid: Pid) {
    && s'.actors == s.actors - {pid} && s'.breakers == s.breakers
    && s'.bindings == s.bindings && s'.replies == s.replies
  }

  lemma RetryIsSteps(cfg: Config, s0: State, s: State, pid: Pid, x: Exec, k: TickInput) returns (s': State)
    requires Leads(cfg, s0, s) && HasTask(s, x.id) && pid in s.actors
    requires s.actors[pid] == InRun(x, Judged(k.verdict, k.out)) && s.now == k.verdict && k.out != RunOk
    requires x.n < x.limit && k.verdict <= k.next <= k.commit
    ensures Leads(cfg, s0, s') && JudgedStays(s, s', pid) && Notified(s, s', x.id, 0)
    ensures var next := k.next + DelayFor(cfg, x.inline, x.n, k.word);
      s'.tasks == s.tasks[x.id := RetryLater(s.tasks[x.id], x.n, next, k.out, k.err, k.commit)]
    ensures s'.outbox == s.outbox + [Row(x.id, WillRetry, x.n)]
  {
    hide Leads, DelayFor;
    s' := MovesAt(cfg, s0, s, pid, k.commit, InputOf(k, k.next));
  }

  lemma GiveUpIsSteps(cfg: Config, s0: State, s: State, pid: Pid, x: Exec, k: TickInput) returns (s': State)
    requires Leads(cfg, s0, s) && HasTask(s, x.id) && pid in s.actors
    requires s.actors[pid] == InRun(x, Judged(k.verdict, k.out)) && s.now == k.verdict && k.out != RunOk
    requires x.n >= x.limit && k.verdict <= k.next <= k.commit
    ensures Leads(cfg, s0, s') && JudgedStays(s, s', pid) && Notified(s, s', x.id, 1)
    ensures s'.tasks == s.tasks[x.id := GivenUp(s.tasks[x.id], k.out, k.err, k.commit)]
    ensures s'.outbox == s.outbox + [Row(x.id, Lifecycle(Exhausted), x.n)]
  {
    hide Leads, DoAct;
    var s1 := ExhaustIsSteps(cfg, s0, s, pid, x, k);
    s' := NotifyIsSteps(cfg, s0, s1, pid, x.id, k);
  }

  lemma ExhaustIsSteps(cfg: Config, s0: State, s: State, pid: Pid, x: Exec, k: TickInput) returns (s': State)
    requires Leads(cfg, s0, s) && HasTask(s, x.id) && pid in s.actors
    requires s.actors[pid] == InRun(x, Judged(k.verdict, k.out)) && s.now == k.verdict && k.out != RunOk
    requires x.n >= x.limit && k.verdict <= k.next <= k.commit
    ensures Leads(cfg, s0, s')
    ensures s' == UpdateAndAudit(s, x.id, GivenUp(s.tasks[x.id], k.out, k.err, k.commit), Lifecycle(Exhausted), x.n)
                  .(now := k.commit, actors := s.actors[pid := Notifying(x.id)])
  {
    hide Leads, DelayFor;
    s' := MovesAt(cfg, s0, s, pid, k.commit, InputOf(k, k.next));
  }

  lemma NotifyIsSteps(cfg: Config, s0: State, s: State, pid: Pid, id: Id, k: TickInput) returns (s': State)
    requires Leads(cfg, s0, s) && HasTask(s, id) && pid in s.actors && s.actors[pid] == Notifying(id)
    ensures Leads(cfg, s0, s') && s'.actors == s.actors - {pid} && Notified(s, s', id, 1)
    ensures s' == s.(actors := s'.actors, stories := s'.stories)
  {
    hide Leads;
    s' := MovesAt(cfg, s0, s, pid, s.now, InputOf(k, k.next));
  }

  // ---- the claim

  /** The store tests next_run_at against the clock exactly. */
  ghost predicate ExactClock(cfg: Config) {
    forall next: int, at: int :: cfg.due(next, at) <==> next <= at
  }

  lemma SelectIsSteps(cfg: Config, s: State, pid: Pid, k: TickInput, found: Option<Id>) returns (s': State)
    requires !s.booting && pid !in s.actors && s.now <= k.now && Selectable(cfg, s, k.now, found)
    ensures Leads(cfg, s, s')
    ensures s' == s.(now := k.now, actors := if found.Some? then s.actors[pid := Claiming(found.value, k.now, 0)]
                                             else s.actors)
  {
    hide Leads;
    Stays(cfg, s);
    var s0 := s.(now := k.now);
    Goes(cfg, s, s, Tick(k.now));
    Goes(cfg, s, s0, Poll(pid));
    var s1 := s0.(actors := s.actors[pid := Selecting(k.now, 0)]);
    assert Do(cfg, s0, Poll(pid)) == s1;
    hide Do, Enabled;
    s' := FoundIsSteps(cfg, s, s0, s1, pid, k, found);
  }

  lemma FoundIsSteps(cfg: Config, s0: State, s: State, s1: State, pid: Pid, k: TickInput, found: Option<Id>)
      returns (s': State)
    requires Leads(cfg, s0, s1) && pid !in s.actors && s.now == k.now && Selectable(cfg, s, k.now, found)
    requires s1 == s.(actors := s.actors[pid := Selecting(k.now, 0)])
    ensures Leads(cfg, s0, s')
    ensures s' == s.(actors := if found.Some? then s.actors[pid := Claiming(found.value, k.now, 0)] else s.actors)
  {
    hide Leads, Claimable;
    s' := MovesAt(cfg, s0, s1, pid, k.now, InputOf(k, k.now).(found := found));
    assert s.actors[pid := Selecting(k.now, 0)] - {pid} == s.actors;
  }

  lemma ClaimedIsSteps(cfg: Config, s0: State, s: State, pid: Pid, id: Id, k: TickInput) returns (s': State)
    requires Leads(cfg, s0, s) && pid in s.actors && s.actors[pid] == Claiming(id, k.now, 0)
    requires HasTask(s, id) && Claimable(s.tasks[id], cfg.due, k.now) && s.now == k.now <= k.claim
    ensures Leads(cfg, s0, s')
    ensures var t := Claimed(s.tasks[id], k.claim);
      s' == s.(now := k.claim, tasks := s.tasks[id := t], actors := s.actors[pid := Gating(id, t)])
  {
    hide Leads, Claimable;
    var s1 := MovesAt(cfg, s0, s, pid, k.claim, InputOf(k, k.now));
    assert s1.tasks == s.tasks[id := Claimed(s.tasks[id], k.claim)];
    assert s1.actors == s.actors[pid := ReadingBack(id)];
    s' := MovesAt(cfg, s0, s1, pid, k.claim, InputOf(k, k.now));
  }

  /** The whole of RunOnce: a thread that polls, alone, claims the task the method
      claims and goes on to what the method leaves; when nothing is due it goes
      away and leaves everything as it was. */
  lemma RunOnceIsSteps(cfg: Config, s: State, pid: Pid, ran: Option<Id>, k: TickInput) returns (s': State)
    requires ExactClock(cfg) && !s.booting && pid !in s.actors && B.SaneCells(s.breakers)
    requires s.now <= k.now <= k.claim <= k.gate <= k.start <= k.verdict <= k.next <= k.commit
    requires match ran
             case None => forall id :: !DueNow(s.tasks, id, k.now)
             case Some(id) => FirstDue(s.tasks, id, k.now) && HasTask(s, id)
    ensures Leads(cfg, s, s') && pid !in s'.actors
    ensures ran == None ==> s' == s.(now := k.now)
    ensures ran.Some? ==>
      var id := ran.value;
      var t := Claimed(s.tasks[id], k.claim);
      var known, allowed := t.verb in s.catalog, LetThrough(cfg, s, t, k);
      && s'.tasks == s.tasks[id := ExecuteResult(cfg, known, allowed, t, k)]
      && s'.outbox == s.outbox + ExecuteRows(cfg, known, allowed, id, t, k)
      && Notified(s, s', id, |ExecuteNotices(cfg, known, allowed, id, t, k)|)
      && s'.breakers == BreakersAfter(cfg, s, t, k)
  {
    hide Leads, LetThrough, BreakersAfter, ExecuteResult, ExecuteRows, ExecuteNotices, B.SaneCells;
    DueIsSelectable(cfg, s, ran, k.now);
    var s1 := SelectIsSteps(cfg, s, pid, k, ran);
    if ran == None { return s1; }
    var id := ran.value;
    var s2 := ClaimedIsSteps(cfg, s, s1, pid, id, k);
    var s3 := ExecuteIsSteps(cfg, s2, pid, id, k);
    Joined(cfg, s, s2, s3);
    SameGate(cfg, s, s2, s2.tasks[id], k);
    Overwrites(s.tasks, id, s2.tasks[id], s3.tasks[id]);
    s' := s3;
  }

  /** What is first due is what a SELECT may find. */
  lemma DueIsSelectable(cfg: Config, s: State, ran: Option<Id>, now: int)
    requires ExactClock(cfg)
    requires match ran
             case None => forall id :: !DueNow(s.tasks, id, now)
             case Some(id) => DueNow(s.tasks, id, now)
    ensures Selectable(cfg, s, now, ran)
  {
    forall id | id in s.tasks ensures Claimable(s.tasks[id], cfg.due, now) <==> DueNow(s.tasks, id, now) {
    }
  }

  lemma SameGate(cfg: Config, s: State, s2: State, t: Task, k: TickInput)
    requires s2.breakers == s.breakers && s2.catalog == s.catalog && B.SaneCells(s.breakers)
    ensures LetThrough(cfg, s2, t, k) == LetThrough(cfg, s, t, k)
    ensures BreakersAfter(cfg, s2, t, k) == BreakersAfter(cfg, s, t, k)
  {
  }

  lemma Joined(cfg: Config, s0: State, s: State, s': State)
    requires Leads(cfg, s0, s) && Leads(cfg, s, s')
    ensures Leads(cfg, s0, s')
  {
    var a: seq<Step> :| Valid(cfg, s0, a) && After(cfg, s0, a) == s;
    var b: seq<Step> :| Valid(cfg, s, b) && After(cfg, s, b) == s';
    RunsJoin(cfg, s0, s, a, b);
  }

  lemma {:induction false} RunsJoin(cfg: Config, s0: State, s: State, a: seq<Step>, b: seq<Step>)
    requires Valid(cfg, s0, a) && After(cfg, s0, a) == s && Valid(cfg, s, b)
    ensures Valid(cfg, s0, a + b) && After(cfg, s0, a + b) == After(cfg, s, b)
  {
    hide Do, Enabled;
    if b == [] {
      assert a + b == a;
    } else {
      RunsJoin(cfg, s0, s, a, b[..|b| - 1]);
      assert (a + b)[..|a + b| - 1] == a + b[..|b| - 1];
    }
  }
}
