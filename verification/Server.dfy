/** Admission of one POST from start to end, with nobody interfering
    (internal/api/server.go:204-503). */
module Server {
  import opened Tasks
  import opened Requests
  import opened Memory
  import B = Breaker
  import E = Engine
  import T = Template
  import W = Worker
  import Backoff

  datatype Response =
    | NoSuchVerb
    | MissingArg(name: string)
    | Conflict(id: Id)
    | Replayed(id: Id, state: Status)
    | CircuitIsOpen
    | QueueIsFull
    | Admitted(id: Id, state: Status)

  /** How the inline run went, and what the clock said along the way. */
  datatype InlineInput = InlineInput(verdict: int, next: int, commit: int, out: Outcome, err: string, word: nat)

  /** The row the inline path leaves: it takes the verb's limit literally. */
  function InlineResult(cfg: E.Config, budget: nat, t: Task, k: InlineInput): Task {
    if k.out == RunOk then Finished(t.(attempt := 0), k.commit)
    else if budget == 0 then GivenUp(t.(attempt := 0), k.out, k.err, k.commit)
    else RetryLater(t, 0, k.next + E.DelayFor(cfg, true, 0, k.word), k.out, k.err, k.commit)
  }

  function InlineMark(budget: nat, k: InlineInput): Label {
    if k.out == RunOk then Lifecycle(Executed) else if budget == 0 then Lifecycle(Exhausted) else WillRetry
  }

  /** The audit rows of the pipeline. */
  function PipelineRows(cfg: E.Config, budget: nat, id: Id, k: InlineInput): seq<Row> {
    [Row(id, Lifecycle(Accepted), 0)] +
    (if !cfg.syncExec then [Row(id, Lifecycle(Pending), 0)]
     else [Row(id, Lifecycle(Executing), 0), Row(id, InlineMark(budget, k), 0)])
  }

  function InlineNotices(cfg: E.Config, budget: nat, id: Id, k: InlineInput): seq<Id> {
    if cfg.syncExec && k.out != RunOk && budget == 0 then [id] else []
  }

  /** The audit rows of the create, and of a lost race whose winner is gone. */
  function EntryRows(idem: map<string, Binding>, key: string, id: Id): seq<Row> {
    [Row(id, Lifecycle(Accepted), 0)] +
    (if key != "" && key in idem then [Row(id, Lifecycle(Canceled), 0)] else [])
  }

  /** The audit rows of an admission. */
  function AdmitRows(cfg: E.Config, idem: map<string, Binding>, budget: nat, key: string, id: Id, k: InlineInput)
      : seq<Row>
  {
    EntryRows(idem, key, id) + PipelineRows(cfg, budget, id, k)
  }

  /** The verb's breaker, among these. */
  function CellIn(cfg: E.Config, catalog: map<string, E.VerbEntry>, cells: map<string, B.Cell>, verb: string)
      : (cell: B.Cell)
    requires verb in catalog
    ensures B.SaneCells(cells) ==> cell.settings.Sane()
  {
    E.CellAmong(cfg, cells, verb, catalog[verb].trip)
  }

  /** The breaker, if breakers are on, would refuse a request now. */
  function OpenAt(cfg: E.Config, catalog: map<string, E.VerbEntry>, cells: map<string, B.Cell>, verb: string, now: int)
      : bool
    requires verb in catalog
  {
    cfg.circuits && CellIn(cfg, catalog, cells, verb).Peeked(now).st.mode == B.Open
  }

  /** One POST: its verb, the first required argument it lacks, its digest and key,
      the id a task made for it gets, and what the clock and the child bring. */
  datatype Posted = Posted(verb: string, missing: T.Option<string>, hash: string, key: string, newId: Id, clock: int,
                           k: InlineInput)

  function StdinField(v: T.Verb): set<string> { if v.stdinArg.Some? then {v.stdinArg.value} else {} }

  /** The first required argument a request for this verb lacks. The stdin argument
      never counts as given. */
  function MissingIn(v: T.Verb, values: map<string, string>): T.Option<string> {
    T.FirstLacking(v.args, values - StdinField(v))
  }

  /** What a POST may change. */
  datatype World = World(tasks: map<Id, Task>, audit: seq<Row>, idem: map<string, Binding>, cells: map<string, B.Cell>)

  /** The new task as an admitted POST leaves it. */
  function TaskMade(cfg: E.Config, catalog: map<string, E.VerbEntry>, idem: map<string, Binding>, p: Posted): Task
    requires p.verb in catalog
  {
    var budget := E.BudgetOf(cfg, catalog[p.verb]);
    Outgoing(cfg, budget, Entrant(idem, p.verb, budget, p.key, p.clock), p.clock, p.k)
  }

  /** A POST is admitted exactly when its verb is known, no required argument is
      missing, the first look-up gives no answer, the verb's breaker is not open and the queue has room. */
  function AnswerTo(cfg: E.Config, catalog: map<string, E.VerbEntry>, w: World, p: Posted): Response {
    if p.verb !in catalog then NoSuchVerb
    else if p.missing.Some? then MissingArg(p.missing.value)
    else
      var first := FirstAnswer(w.tasks, w.idem, p.verb, p.hash, p.key);
      if first.Some? then first.value
      else if OpenAt(cfg, catalog, w.cells, p.verb, p.clock) then CircuitIsOpen
      else if DepthOf(w.tasks) >= cfg.maxDepth then QueueIsFull
      else Admitted(p.newId, TaskMade(cfg, catalog, w.idem, p).state)
  }

  /** The row an admitted POST leaves, in figures: it bears the time and the verb of
      the request and the limit of its catalog entry, and waits for a worker or
      tells how its one inline run went. (A key bound to a task that is gone leaves
      its "superseded" behind.) */
  ghost predicate MadeBy(cfg: E.Config, catalog: map<string, E.VerbEntry>, w: World, p: Posted, t: Task)
    requires p.verb in catalog
  {
    && t.verb == p.verb && t.createdAt == p.clock
    && (match catalog[p.verb].retries
        case Some(own) => t.maxRetries == own
        case None => t.maxRetries == cfg.maxRetries)
    && if !cfg.syncExec then
         && t.state == Pending && t.attempt == 0 && t.updatedAt == p.clock
         && t.lastOutcome == None && t.nextRunAt == None
         && (p.key == "" || p.key !in w.idem ==> t.error == "")
       else if p.k.out == RunOk then
         && t.state == Executed && t.attempt == 0 && t.updatedAt == p.k.commit
         && t.lastOutcome == Some(RunOk) && t.error == "" && t.nextRunAt == None
       else
         && t.lastOutcome == Some(p.k.out) && t.error == p.k.err && t.updatedAt == p.k.commit
         && if t.maxRetries == 0 then t.state == Exhausted && t.attempt == 0 && t.nextRunAt == None
            else
              && t.state == RetryScheduled && t.attempt == 1 && t.nextRunAt.Some?
              && W.InWindow(t.nextRunAt.value - p.k.next, cfg.base, 0)
  }

  lemma MadeSays(cfg: E.Config, catalog: map<string, E.VerbEntry>, w: World, p: Posted)
    requires p.verb in catalog
    ensures MadeBy(cfg, catalog, w, p, TaskMade(cfg, catalog, w.idem, p))
  {
    hide E.DelayFor, W.InWindow;
    W.DelayIsInWindow(cfg, true, 0, p.k.word);
  }

  /** What an answer means for the store: a replay reports the bound task and its
      state, a conflict a key bound for another request, a new task its own state
      and room in the queue; a key that is bound to a task there is always answered
      one way or the other. */
  ghost predicate AnswerMeans(cfg: E.Config, catalog: map<string, E.VerbEntry>, w: World, p: Posted, resp: Response) {
    var bound := p.key != "" && p.key in w.idem && w.idem[p.key].taskId in w.tasks;
    match resp
    case NoSuchVerb => p.verb !in catalog
    case MissingArg(name) => p.missing == T.Some(name)
    case Replayed(id, state) =>
      && bound && id == w.idem[p.key].taskId && state == w.tasks[id].state
      && w.idem[p.key].verb == p.verb && w.idem[p.key].hash == p.hash
    case Conflict(id) =>
      && p.key != "" && p.key in w.idem && id == w.idem[p.key].taskId
      && (w.idem[p.key].verb != p.verb || w.idem[p.key].hash != p.hash)
    case CircuitIsOpen => cfg.circuits && !bound
    case QueueIsFull => !bound && DepthOf(w.tasks) >= cfg.maxDepth
    case Admitted(id, _) => !bound && id == p.newId && DepthOf(w.tasks) < cfg.maxDepth
  }

  lemma AnswersMean(cfg: E.Config, catalog: map<string, E.VerbEntry>, w: World, p: Posted)
    ensures AnswerMeans(cfg, catalog, w, p, AnswerTo(cfg, catalog, w, p))
  {
    hide DepthOf, TaskMade, CellIn, B.Cell.Peeked;
  }

  /** What the answer says of the store the POST leaves. */
  lemma EffectMeans(cfg: E.Config, catalog: map<string, E.VerbEntry>, w: World, p: Posted)
    requires B.SaneCells(w.cells)
    ensures var resp, w' := AnswerTo(cfg, catalog, w, p), Effect(cfg, catalog, w, p);
      && AnswerMeans(cfg, catalog, w, p, resp)
      && (resp.Replayed? ==> resp.id in w'.tasks && resp.state == w'.tasks[resp.id].state)
      && (resp.Admitted? ==>
            && resp.id in w'.tasks && resp.state == w'.tasks[resp.id].state
            && p.verb in catalog && p.missing == T.None
            && MadeBy(cfg, catalog, w, p, w'.tasks[resp.id]))
  {
    hide DepthOf, OpenAt, TaskMade, MadeBy, AdmitRows, Rebound, CellsAfter;
    AnswersMean(cfg, catalog, w, p);
    if p.verb in catalog { MadeSays(cfg, catalog, w, p); }
  }

  /** An argument is missing exactly when a required one is not given or is the
      stdin argument. */
  lemma MissingExactly(v: T.Verb, values: map<string, string>)
    ensures MissingIn(v, values).Some? <==>
      exists i :: 0 <= i < |v.args| && v.args[i].required &&
                  (v.args[i].name !in values || v.stdinArg == T.Some(v.args[i].name))
  {
    T.FirstLackingIsFirst(v.args, values - StdinField(v));
    forall i | 0 <= i < |v.args|
      ensures T.Lacks(v.args[i], values - StdinField(v))
         <==> v.args[i].required && (v.args[i].name !in values || v.stdinArg == T.Some(v.args[i].name))
    {
    }
  }

  /** An admitted POST leaves the new task, its audit rows, its key and, after an
      inline run, the verdict on its breaker. Any other changes at most the
      breaker it looked at. */
  function Effect(cfg: E.Config, catalog: map<string, E.VerbEntry>, w: World, p: Posted): World
    requires B.SaneCells(w.cells)
  {
    match AnswerTo(cfg, catalog, w, p)
    case Admitted(id, _) =>
      var budget := E.BudgetOf(cfg, catalog[p.verb]);
      World(w.tasks[id := TaskMade(cfg, catalog, w.idem, p)],
            w.audit + AdmitRows(cfg, w.idem, budget, p.key, id, p.k),
            Rebound(w.idem, p.verb, p.hash, p.key, id),
            CellsAfter(cfg, catalog, w, p, cfg.syncExec))
    case CircuitIsOpen => w.(cells := CellsAfter(cfg, catalog, w, p, false))
    case QueueIsFull => w.(cells := CellsAfter(cfg, catalog, w, p, false))
    case _ => w
  }

  /** The breakers after a look at the verb's and, if the task ran, its verdict. */
  function CellsAfter(cfg: E.Config, catalog: map<string, E.VerbEntry>, w: World, p: Posted, ran: bool)
      : (cells: map<string, B.Cell>)
    requires B.SaneCells(w.cells) && p.verb in catalog
    ensures B.SaneCells(cells)
  {
    if !cfg.circuits then w.cells
    else
      var peeked := CellIn(cfg, catalog, w.cells, p.verb).Peeked(p.clock);
      w.cells[p.verb := if ran then peeked.Told(p.k.out == RunOk, p.k.verdict) else peeked]
  }

  function NoticesFor(cfg: E.Config, catalog: map<string, E.VerbEntry>, w: World, p: Posted): seq<Id> {
    if AnswerTo(cfg, catalog, w, p).Admitted?
    then InlineNotices(cfg, E.BudgetOf(cfg, catalog[p.verb]), p.newId, p.k)
    else []
  }

  /** The effect of a request the first look-up has no answer for, step by step:
      the look at the breaker, then the admission, then the inline run. */
  lemma EffectOf(cfg: E.Config, catalog: map<string, E.VerbEntry>, w: World, p: Posted, w': World, resp: Response,
                 n: seq<Id>)
    requires B.SaneCells(w.cells) && p.verb in catalog && p.missing == T.None
    requires FirstAnswer(w.tasks, w.idem, p.verb, p.hash, p.key) == None
    requires var budget, cells := E.BudgetOf(cfg, catalog[p.verb]), CellsAfter(cfg, catalog, w, p, false);
      if OpenAt(cfg, catalog, w.cells, p.verb, p.clock) then
        resp == CircuitIsOpen && w' == w.(cells := cells) && n == []
      else if DepthOf(w.tasks) >= cfg.maxDepth then
        resp == QueueIsFull && w' == w.(cells := cells) && n == []
      else
        && resp == Admitted(p.newId, TaskMade(cfg, catalog, w.idem, p).state)
        && w'.tasks == w.tasks[p.newId := TaskMade(cfg, catalog, w.idem, p)]
        && w'.audit == w.audit + AdmitRows(cfg, w.idem, budget, p.key, p.newId, p.k)
        && w'.idem == Rebound(w.idem, p.verb, p.hash, p.key, p.newId)
        && n == InlineNotices(cfg, budget, p.newId, p.k)
        && (if !cfg.circuits || !cfg.syncExec then w'.cells == cells
            else p.verb in cells && cells[p.verb].settings.Sane() &&
                 w'.cells == cells[p.verb := cells[p.verb].Told(p.k.out == RunOk, p.k.verdict)])
    ensures resp == AnswerTo(cfg, catalog, w, p) && w' == Effect(cfg, catalog, w, p)
    ensures n == NoticesFor(cfg, catalog, w, p)
  {
    hide B.Cell.Told, B.Cell.Peeked, TaskMade, DepthOf, AdmitRows, Rebound, InlineNotices, CellIn, FirstAnswer;
  }

  lemma RefusedChangesNothing(cfg: E.Config, catalog: map<string, E.VerbEntry>, w: World, p: Posted)
    requires B.SaneCells(w.cells)
    requires p.verb !in catalog || p.missing.Some? || FirstAnswer(w.tasks, w.idem, p.verb, p.hash, p.key).Some?
    ensures Effect(cfg, catalog, w, p) == w && NoticesFor(cfg, catalog, w, p) == []
    ensures AnswerTo(cfg, catalog, w, p)
         == if p.verb !in catalog then NoSuchVerb
            else if p.missing.Some? then MissingArg(p.missing.value)
            else FirstAnswer(w.tasks, w.idem, p.verb, p.hash, p.key).value
  {
  }

  class Server {
    const store: Memory
    const circuits: B.Registry?
    const cfg: E.Config
    const catalog: map<string, E.VerbEntry>
    const templates: map<string, T.Verb>
    var notices: seq<Id>

    ghost predicate Valid()
      reads circuits
    {
      && Backoff.Int64(cfg.base) && catalog.Keys == templates.Keys
      && (circuits != null <==> cfg.circuits)
      && (circuits != null ==> circuits.Valid() && circuits.Default() == B.NewSettings(cfg.trip, cfg.openFor))
    }

    ghost function Breakers(): set<object>
      reads circuits
    {
      if circuits == null then {} else {circuits} + circuits.breakers.Values
    }

    /** Neither the store nor the server is one of its breakers. */
    ghost predicate Apart()
      reads circuits
    {
      store as object !in Breakers() && this as object !in Breakers()
    }

    constructor (store: Memory, circuits: B.Registry?, cfg: E.Config, catalog: map<string, E.VerbEntry>,
                 templates: map<string, T.Verb>)
      requires Backoff.Int64(cfg.base) && catalog.Keys == templates.Keys
      requires circuits != null <==> cfg.circuits
      requires circuits != null ==> circuits.Valid() && circuits.Default() == B.NewSettings(cfg.trip, cfg.openFor)
      ensures Valid() && notices == []
      ensures this.store == store && this.circuits == circuits && this.cfg == cfg && this.catalog == catalog
      ensures this.templates == templates
    {
      this.templates := templates;
      this.store, this.circuits, this.cfg, this.catalog := store, circuits, cfg, catalog;
      notices := [];
    }

    ghost function Cells(): (cells: map<string, B.Cell>)
      reads circuits, Breakers()
      ensures Valid() ==> B.SaneCells(cells)
    {
      if circuits == null then map[] else circuits.Cells()
    }

    /** Looks at the verb's breaker without taking a probe. */
    method Peek(verb: string, now: int) returns (open: bool)
      requires Valid() && verb in catalog && Apart()
      modifies Breakers()
      ensures Valid() && fresh(Breakers() - old(Breakers())) && Apart()
      ensures open == OpenAt(cfg, catalog, old(Cells()), verb, now)
      ensures circuits != null ==> verb in circuits.breakers
      ensures circuits != null ==>
        Cells() == old(Cells())[verb := CellIn(cfg, catalog, old(Cells()), verb).Peeked(now)]
    {
      hide B.CellOf, B.Cell.Peeked;
      if circuits == null { return false; }
      var mode := circuits.Peek(verb, catalog[verb].trip, now);
      return mode == B.Open;
    }

    /** The first look-up of the key: an answer, or nothing. */
    method FindFirst(verb: string, hash: string, key: string) returns (answer: Option<Response>)
      ensures answer == FirstAnswer(store.tasks, store.idem, verb, hash, key)
    {
      if key == "" { return None; }
      var prior := store.FindIdempotency(key);
      if prior == None { return None; }
      if prior.value.verb != verb || prior.value.hash != hash { return Some(Conflict(prior.value.taskId)); }
      var t := store.Get(prior.value.taskId);
      if t.Some? { return Some(Replayed(prior.value.taskId, t.value.state)); }
      return None;
    }

    /** Binds the key to the new task; on a lost race cancels the task and
        answers with the winner, if the winner can be read. */
    method BindOrYield(id: Id, verb: string, hash: string, key: string, clock: int) returns (answer: Option<Response>)
      requires id in store.tasks
      modifies store
      ensures var b := old(store.idem);
        if key == "" || key !in b then
          && answer == None && store.tasks == old(store.tasks) && store.audit == old(store.audit)
          && store.idem == if key == "" then b else b[key := Binding(verb, hash, id)]
        else
          && store.idem == b
          && store.tasks == old(store.tasks)[id := Superseded(old(store.tasks)[id], clock)]
          && store.audit == old(store.audit) + [Row(id, Lifecycle(Canceled), 0)]
          && answer == if b[key].taskId in store.tasks
                       then Some(Replayed(b[key].taskId, store.tasks[b[key].taskId].state)) else None
    {
      if key == "" { return None; }
      var ok := store.SaveIdempotency(key, Binding(verb, hash, id));
      if !ok {
        var win := store.FindIdempotency(key);
        if win.Some? {
          var canceled := store.UpdateAndAudit(id, (t: Task) => Superseded(t, 0), Lifecycle(Canceled), 0, clock);
          var t := store.Get(win.value.taskId);
          if t.Some? { return Some(Replayed(win.value.taskId, t.value.state)); }
        }
      }
      return None;
    }

    /** runPipeline: hand the task to the workers, or run it here once. */
    method RunPipeline(id: Id, verb: string, budget: nat, clock: int, k: InlineInput)
      requires Valid() && id in store.tasks && (circuits != null ==> verb in circuits.breakers)
      requires Apart()
      modifies store`tasks, store`audit, this`notices, if circuits == null then {} else {circuits.breakers[verb]}
      ensures store.tasks == old(store.tasks)[id := Outgoing(cfg, budget, old(store.tasks[id]), clock, k)]
      ensures store.audit == old(store.audit) + PipelineRows(cfg, budget, id, k)
      ensures notices == old(notices) + InlineNotices(cfg, budget, id, k)
      ensures Cells() == if circuits == null || !cfg.syncExec then old(Cells())
                         else old(Cells())[verb := old(Cells())[verb].Told(k.out == RunOk, k.verdict)]
    {
      hide B.Cell.Told, InlineResult, InlineMark, B.SaneCells;
      ghost var was, t0, cells := store.tasks, store.tasks[id], Cells();
      AcceptOrQueue(id, clock);
      assert Cells() == cells;
      if cfg.syncExec {
        ExecuteOnce(id, verb, budget, clock, k);
        TouchedRunsAlike(cfg, budget, t0, clock, k);
        Overwrites(was, id, Touched(t0, clock), InlineResult(cfg, budget, t0, k));
      }
    }

    /** The accept marker and, unless the task runs here, the hand-over. */
    method AcceptOrQueue(id: Id, clock: int)
      requires id in store.tasks
      modifies store`tasks, store`audit
      ensures store.tasks == old(store.tasks)[id := if cfg.syncExec then Touched(old(store.tasks[id]), clock)
                                                    else HandedOff(old(store.tasks[id]), clock)]
      ensures store.audit == old(store.audit) + [Row(id, Lifecycle(Accepted), 0)] +
                (if cfg.syncExec then [] else [Row(id, Lifecycle(Pending), 0)])
    {
      ghost var was, t0 := store.tasks, store.tasks[id];
      var accepted := store.UpdateAndAudit(id, (t: Task) => t, Lifecycle(Accepted), 0, clock);
      if !cfg.syncExec {
        Overwrites(was, id, Touched(t0, clock), HandedOff(t0, clock));
        var pending := store.UpdateAndAudit(id, (t: Task) => HandedOff(t, 0), Lifecycle(Pending), 0, clock);
      }
    }

    /** executeOnce: mark, run the child, tell the breaker, commit. */
    method ExecuteOnce(id: Id, verb: string, budget: nat, clock: int, k: InlineInput)
      requires Valid() && id in store.tasks && (circuits != null ==> verb in circuits.breakers)
      requires Apart() && cfg.syncExec
      modifies store`tasks, store`audit, this`notices, if circuits == null then {} else {circuits.breakers[verb]}
      ensures store.tasks == old(store.tasks)[id := InlineResult(cfg, budget, old(store.tasks[id]), k)]
      ensures store.audit == old(store.audit) + [Row(id, Lifecycle(Executing), 0), Row(id, InlineMark(budget, k), 0)]
      ensures notices == old(notices) + InlineNotices(cfg, budget, id, k)
      ensures Cells() == if circuits == null then old(Cells())
                         else old(Cells())[verb := old(Cells())[verb].Told(k.out == RunOk, k.verdict)]
    {
      hide B.Cell.Told, InlineResult, InlineMark, B.SaneCells;
      ghost var was, t0, cells := store.tasks, store.tasks[id], Cells();
      var marked := store.UpdateAndAudit(id, (t: Task) => InlineStarted(t, 0), Lifecycle(Executing), 0, clock);
      assert Cells() == cells;
      TellAndCommit(id, verb, budget, k);
      StartedRunsAlike(cfg, budget, t0, clock, k);
      Overwrites(was, id, InlineStarted(t0, clock), InlineResult(cfg, budget, t0, k));
    }

    /** The breaker hears of the verdict before the row does. */
    method TellAndCommit(id: Id, verb: string, budget: nat, k: InlineInput)
      requires Valid() && id in store.tasks && store.tasks[id].state == Executing && store.tasks[id].attempt == 0
      requires Apart() && cfg.syncExec && (circuits != null ==> verb in circuits.breakers)
      modifies store`tasks, store`audit, this`notices, if circuits == null then {} else {circuits.breakers[verb]}
      ensures store.tasks == old(store.tasks)[id := InlineResult(cfg, budget, old(store.tasks[id]), k)]
      ensures store.audit == old(store.audit) + [Row(id, InlineMark(budget, k), 0)]
      ensures notices == old(notices) + InlineNotices(cfg, budget, id, k)
      ensures Cells() == if circuits == null then old(Cells())
                         else old(Cells())[verb := old(Cells())[verb].Told(k.out == RunOk, k.verdict)]
    {
      hide B.Cell.Told, InlineResult, InlineMark, InlineNotices, B.SaneCells;
      if circuits != null { circuits.Tell(verb, k.out == RunOk, k.verdict); }
      ghost var told := Cells();
      Commit(id, budget, k);
      assert Cells() == told;
    }

    /** The verdict on the row: executed, exhausted at a literal limit of 0, or
        first retry. */
    method Commit(id: Id, budget: nat, k: InlineInput)
      requires Valid() && id in store.tasks && store.tasks[id].state == Executing && store.tasks[id].attempt == 0
      requires cfg.syncExec
      modifies store`tasks, store`audit, this`notices
      ensures store.tasks == old(store.tasks)[id := InlineResult(cfg, budget, old(store.tasks[id]), k)]
      ensures store.audit == old(store.audit) + [Row(id, InlineMark(budget, k), 0)]
      ensures notices == old(notices) + InlineNotices(cfg, budget, id, k)
    {
      if k.out == RunOk {
        var done := store.UpdateAndAudit(id, (t: Task) => Finished(t, 0), Lifecycle(Executed), 0, k.commit);
        return;
      }
      if Backoff.ShouldExhaust(0, budget) {
        var done :=
          store.UpdateAndAudit(id, (t: Task) => GivenUp(t, k.out, k.err, 0), Lifecycle(Exhausted), 0, k.commit);
        notices := notices + [id];
        return;
      }
      var delay := Backoff.DelayAfterFailure(cfg.base, 0, Backoff.MAX_JITTER, k.word);
      var next := k.next + delay;
      var done :=
        store.UpdateAndAudit(id, (t: Task) => RetryLater(t, 0, next, k.out, k.err, 0), WillRetry, 0, k.commit);
    }

    /** From the limited create to the hand-over. A key that is bound by now can
        only be bound to a task that is gone: the new task is canceled for it
        and goes on nevertheless. (No binding of the state machine ever dangles.) */
    method Admit(verb: string, hash: string, key: string, newId: Id, clock: int, k: InlineInput)
        returns (resp: Response)
      requires Valid() && verb in catalog && newId !in store.tasks && FreshFor(store.idem, newId)
      requires circuits != null ==> verb in circuits.breakers
      requires Apart()
      requires FirstAnswer(store.tasks, store.idem, verb, hash, key) == None
      modifies store, this`notices, if circuits == null then {} else {circuits.breakers[verb]}
      ensures Valid()
      ensures var budget := E.BudgetOf(cfg, catalog[verb]);
        if DepthOf(old(store.tasks)) >= cfg.maxDepth then
          && resp == QueueIsFull && store.tasks == old(store.tasks) && store.audit == old(store.audit)
          && store.idem == old(store.idem) && notices == old(notices) && Cells() == old(Cells())
        else
          var out := TaskMade(cfg, catalog, old(store.idem), Posted(verb, T.None, hash, key, newId, clock, k));
          && resp == Admitted(newId, out.state)
          && store.tasks == old(store.tasks)[newId := out]
          && store.audit == old(store.audit) + AdmitRows(cfg, old(store.idem), budget, key, newId, k)
          && store.idem == Rebound(old(store.idem), verb, hash, key, newId)
          && notices == old(notices) + InlineNotices(cfg, budget, newId, k)
          && Cells() == if circuits == null || !cfg.syncExec then old(Cells())
                        else old(Cells())[verb := old(Cells())[verb].Told(k.out == RunOk, k.verdict)]
    {
      hide B.Cell.Told, Outgoing, PipelineRows, InlineNotices, DepthOf, Entrant, Rebound, FirstAnswer, B.SaneCells,
           EntryRows, FreshFor;
      ghost var was, idem, cells := store.tasks, store.idem, Cells();
      var budget := E.BudgetOf(cfg, catalog[verb]);
      var made := Enter(verb, hash, key, newId, budget, clock);
      assert Cells() == cells;
      if !made { return QueueIsFull; }
      ghost var t := Entrant(idem, verb, budget, key, clock);
      RunPipeline(newId, verb, budget, clock, k);
      assert Cells() == if circuits == null || !cfg.syncExec then cells
                        else cells[verb := cells[verb].Told(k.out == RunOk, k.verdict)];
      Overwrites(was, newId, t, Outgoing(cfg, budget, t, clock, k));
      var done := store.Get(newId);
      return Admitted(newId, done.value.state);
    }

    /** The limited create and the binding of the key. */
    method Enter(verb: string, hash: string, key: string, newId: Id, budget: nat, clock: int) returns (made: bool)
      requires newId !in store.tasks && FreshFor(store.idem, newId)
      requires FirstAnswer(store.tasks, store.idem, verb, hash, key) == None
      modifies store
      ensures made == (DepthOf(old(store.tasks)) < cfg.maxDepth)
      ensures !made ==>
        store.tasks == old(store.tasks) && store.audit == old(store.audit) && store.idem == old(store.idem)
      ensures made ==>
        && store.tasks == old(store.tasks)[newId := Entrant(old(store.idem), verb, budget, key, clock)]
        && store.audit == old(store.audit) + EntryRows(old(store.idem), key, newId)
        && store.idem == Rebound(old(store.idem), verb, hash, key, newId)
    {
      ghost var was := store.tasks;
      var t := store.CreateAndAuditLimited(newId, verb, budget, cfg.maxDepth, clock);
      if t == None { return false; }
      var yielded := BindOrYield(newId, verb, hash, key, clock);
      assert yielded == None;
      Overwrites(was, newId, NewTask(verb, budget, clock), store.tasks[newId]);
      return true;
    }

    /** One POST: the answer, and all that changes. */
    method PostVerb(verb: string, args: JsonText, values: map<string, string>, stdin: string, key: string, newId: Id,
                    clock: int, k: InlineInput) returns (resp: Response)
      requires Valid() && newId !in store.tasks && FreshFor(store.idem, newId) && Apart()
      modifies store, this`notices, Breakers()
      ensures Valid() && fresh(Breakers() - old(Breakers()))
      ensures var missing := if verb in catalog then MissingIn(templates[verb], values) else T.None;
        var p := Posted(verb, missing, RequestHash(verb, args, stdin), key, newId, clock, k);
        && resp == AnswerTo(cfg, catalog, old(View()), p)
        && View() == Effect(cfg, catalog, old(View()), p)
        && notices == old(notices) + NoticesFor(cfg, catalog, old(View()), p)
        && AnswerMeans(cfg, catalog, old(View()), p, resp)
      ensures resp.Replayed? ==> resp.id in store.tasks && resp.state == store.tasks[resp.id].state
      ensures resp.Admitted? ==>
        && resp.id in store.tasks && resp.state == store.tasks[resp.id].state && verb in catalog
        && MadeBy(cfg, catalog, old(View()), Posted(verb, T.None, RequestHash(verb, args, stdin), key, newId, clock, k),
                  store.tasks[resp.id])
    {
      hide RequestHash, Effect, AnswerTo, NoticesFor, FirstAnswer, Apart, B.SaneCells, AnswerMeans, MadeBy;
      var hash := RequestHash(verb, args, stdin);
      ghost var lacking := if verb in catalog then MissingIn(templates[verb], values) else T.None;
      ghost var w, p := View(), Posted(verb, lacking, hash, key, newId, clock, k);
      EffectMeans(cfg, catalog, w, p);
      if verb !in catalog {
        RefusedChangesNothing(cfg, catalog, w, p);
        return NoSuchVerb;
      }
      var v := templates[verb];
      var missing := T.CheckRequired(v.args, values - StdinField(v));
      if missing.Some? {
        RefusedChangesNothing(cfg, catalog, w, p);
        return MissingArg(missing.value);
      }
      var first := FindFirst(verb, hash, key);
      if first.Some? {
        RefusedChangesNothing(cfg, catalog, w, p);
        return first.value;
      }
      resp := Proceed(verb, hash, key, newId, clock, k);
    }

    /** A request the first look-up has no answer for: peek, then admit. */
    method Proceed(verb: string, hash: string, key: string, newId: Id, clock: int, k: InlineInput)
        returns (resp: Response)
      requires Valid() && verb in catalog && newId !in store.tasks && FreshFor(store.idem, newId) && Apart()
      requires FirstAnswer(store.tasks, store.idem, verb, hash, key) == None
      modifies store, this`notices, Breakers()
      ensures Valid() && fresh(Breakers() - old(Breakers()))
      ensures var p := Posted(verb, T.None, hash, key, newId, clock, k);
        && resp == AnswerTo(cfg, catalog, old(View()), p)
        && View() == Effect(cfg, catalog, old(View()), p)
        && notices == old(notices) + NoticesFor(cfg, catalog, old(View()), p)
    {
      hide B.Cell.Told, B.Cell.Peeked, TaskMade, DepthOf, AdmitRows, Rebound, InlineNotices, CellIn, FirstAnswer, Apart,
           AnswerTo, Effect, NoticesFor, OpenAt;
      ghost var w, p := View(), Posted(verb, T.None, hash, key, newId, clock, k);
      var open := Peek(verb, clock);
      assert Cells() == CellsAfter(cfg, catalog, w, p, false);
      if open {
        EffectOf(cfg, catalog, w, p, View(), CircuitIsOpen, []);
        return CircuitIsOpen;
      }
      resp := Admit(verb, hash, key, newId, clock, k);
      ghost var n := if resp.Admitted? then InlineNotices(cfg, E.BudgetOf(cfg, catalog[verb]), newId, k) else [];
      EffectOf(cfg, catalog, w, p, View(), resp, n);
    }

    ghost function View(): (w: World)
      reads store, circuits, Breakers()
      ensures Valid() ==> B.SaneCells(w.cells)
    {
      World(store.tasks, store.audit, store.idem, Cells())
    }
  }

  /** Starting a run leaves nothing that its verdict does not overwrite. */
  lemma StartedRunsAlike(cfg: E.Config, budget: nat, t: Task, clock: int, k: InlineInput)
    ensures InlineResult(cfg, budget, InlineStarted(t, clock), k) == InlineResult(cfg, budget, t, k)
  {
    hide E.DelayFor;
  }

  lemma TouchedRunsAlike(cfg: E.Config, budget: nat, t: Task, clock: int, k: InlineInput)
    ensures InlineResult(cfg, budget, Touched(t, clock), k) == InlineResult(cfg, budget, t, k)
  {
    hide E.DelayFor;
  }

  /** No binding names the id: ids are never made twice. */
  ghost predicate FreshFor(idem: map<string, Binding>, id: Id) { forall k :: k in idem ==> idem[k].taskId != id }

  /** The row as the pipeline finds it. */
  function Entrant(idem: map<string, Binding>, verb: string, budget: nat, key: string, clock: int): Task {
    var t := NewTask(verb, budget, clock);
    if key != "" && key in idem then Superseded(t, clock) else t
  }

  /** The row as the pipeline leaves it. */
  function Outgoing(cfg: E.Config, budget: nat, t: Task, clock: int, k: InlineInput): Task {
    if cfg.syncExec then InlineResult(cfg, budget, t, k) else HandedOff(t, clock)
  }

  function Rebound(idem: map<string, Binding>, verb: string, hash: string, key: string, id: Id): map<string, Binding> {
    if key == "" || key in idem then idem else idem[key := Binding(verb, hash, id)]
  }

  /** What the first look-up of the key answers, if anything. */
  function FirstAnswer(tasks: map<Id, Task>, idem: map<string, Binding>, verb: string, hash: string, key: string)
      : (r: Option<Response>)
    ensures r.Some? ==> r.value.Conflict? || r.value.Replayed?
  {
    if key == "" || key !in idem then None
    else if idem[key].verb != verb || idem[key].hash != hash then Some(Conflict(idem[key].taskId))
    else if idem[key].taskId in tasks then Some(Replayed(idem[key].taskId, tasks[idem[key].taskId].state))
    else None
  }
}

/** The handler's method does what its steps in the state machine do when nobody
    interferes. */
module ServerRefinement {
  import opened Tasks
  import opened Requests
  import opened Engine
  import opened WorkerRefinement
  import W = Worker
  import B = Breaker
  import T = Template
  import S = Server

  function WorldOf(s: State): S.World { S.World(s.tasks, s.outbox, s.bindings, s.breakers) }

  /** The clock and the child of an inline run, as the run's steps take them. */
  function Inline(p: S.Posted): W.TickInput {
    W.TickInput(p.clock, p.clock, p.clock, p.clock, p.k.verdict, p.k.next, p.k.commit, p.k.out, p.k.err, p.k.word)
  }

  predicate InOrderFrom(now: int, p: S.Posted) { now <= p.clock <= p.k.verdict <= p.k.next <= p.k.commit }

  /** The request the handler works on. */
  function RequestOf(cfg: Config, s: State, p: S.Posted, args: JsonText, stdin: string): Request
    requires p.verb in s.catalog
  {
    Request(p.verb, args, stdin, p.key, BudgetOf(cfg, s.catalog[p.verb]), s.catalog[p.verb].trip)
  }

  /** The reply the state machine notes down for an answer. */
  function Noted(req: Request, resp: S.Response): seq<Reply> {
    match resp
    case Conflict(id) => [Conflict(req, id)]
    case Replayed(id, _) => [Replay(req, id, true)]
    case CircuitIsOpen => [Rejected(req, true)]
    case QueueIsFull => [Rejected(req, false)]
    case _ => []
  }

  /** What no part of one POST touches. */
  ghost predicate Aside(s: State, s': State) {
    s'.now >= s.now && s'.catalog == s.catalog && s'.booting == s.booting
  }

  /** Thread pid is at `a`, at time `now`. */
  predicate At(s: State, pid: Pid, a: Actor, now: int) { pid in s.actors && s.actors[pid] == a && s.now == now }

  // ---- the pipeline

  /** What the pipeline leaves, from the row t of the task on. */
  ghost predicate Piped(cfg: Config, s: State, s': State, pid: Pid, req: Request, t: Task, p: S.Posted) {
    && s'.actors == s.actors - {pid} && s'.bindings == s.bindings && s'.replies == s.replies
    && s'.tasks == s.tasks[p.newId := S.Outgoing(cfg, req.budget, t, p.clock, p.k)]
    && s'.outbox == s.outbox + S.PipelineRows(cfg, req.budget, p.newId, p.k)
    && Notified(s, s', p.newId, |S.InlineNotices(cfg, req.budget, p.newId, p.k)|)
    && B.SaneCells(s.breakers)
    && s'.breakers == if cfg.syncExec then BreakersTold(cfg, s, req.verb, req.trip, Inline(p)) else s.breakers
  }

  lemma PipelineIsSteps(cfg: Config, s0: State, s: State, pid: Pid, req: Request, p: S.Posted) returns (s': State)
    requires Leads(cfg, s0, s) && At(s, pid, Accepting(req, p.newId), p.clock) && HasTask(s, p.newId)
    requires InOrderFrom(s.now, p) && B.SaneCells(s.breakers)
    ensures Leads(cfg, s0, s') && Piped(cfg, s, s', pid, req, s.tasks[p.newId], p)
  {
    hide Leads, BreakersTold, B.SaneCells, S.InlineResult, S.InlineMark, DoAct;
    var t := s.tasks[p.newId];
    var s2 := HandOffIsSteps(cfg, s0, s, pid, req, p);
    if !cfg.syncExec {
      s' := s2;
    } else {
      s' := InlineIsSteps(cfg, s0, s2, pid, ExecOf(req, p.newId), p);
      S.StartedRunsAlike(cfg, req.budget, t, p.clock, p.k);
      SameBreakers(cfg, s, s2, req.verb, req.trip, Inline(p));
      Overwrites(s.tasks, p.newId, InlineStarted(t, p.clock), S.InlineResult(cfg, req.budget, t, p.k));
    }
  }

  function ExecOf(req: Request, id: Id): Exec { Exec(id, req.verb, req.trip, 0, req.budget, true) }

  /** The task is the workers', or about to run here. */
  ghost predicate Handed(cfg: Config, s: State, s2: State, pid: Pid, req: Request, t: Task, p: S.Posted) {
    && s2.bindings == s.bindings && s2.replies == s.replies && s2.breakers == s.breakers && s2.now == s.now
    && Notified(s, s2, p.newId, 0)
    && s2.actors == (if cfg.syncExec then s.actors[pid := InRun(ExecOf(req, p.newId), Spawning(p.clock))]
                     else s.actors - {pid})
    && s2.tasks == s.tasks[p.newId := if cfg.syncExec then InlineStarted(t, p.clock) else HandedOff(t, p.clock)]
    && s2.outbox == s.outbox + [Row(p.newId, Lifecycle(Accepted), 0),
                                Row(p.newId, Lifecycle(if cfg.syncExec then Executing else Pending), 0)]
  }

  lemma HandOffIsSteps(cfg: Config, s0: State, s: State, pid: Pid, req: Request, p: S.Posted) returns (s': State)
    requires Leads(cfg, s0, s) && At(s, pid, Accepting(req, p.newId), p.clock) && HasTask(s, p.newId)
    ensures Leads(cfg, s0, s') && Handed(cfg, s, s', pid, req, s.tasks[p.newId], p)
  {
    hide Leads, DoAct;
    var s1 := AcceptIsSteps(cfg, s0, s, pid, req, p);
    s' := HandIsSteps(cfg, s0, s1, pid, req, p);
    var t := s.tasks[p.newId];
    Overwrites(s.tasks, p.newId, Touched(t, p.clock),
               if cfg.syncExec then InlineStarted(t, p.clock) else HandedOff(t, p.clock));
  }

  lemma AcceptIsSteps(cfg: Config, s0: State, s: State, pid: Pid, req: Request, p: S.Posted) returns (s': State)
    requires Leads(cfg, s0, s) && At(s, pid, Accepting(req, p.newId), p.clock) && HasTask(s, p.newId)
    ensures Leads(cfg, s0, s')
    ensures s' == UpdateAndAudit(s, p.newId, Touched(s.tasks[p.newId], p.clock), Lifecycle(Accepted), 0)
                  .(actors := s.actors[pid := HandingOff(req, p.newId)])
  {
    hide Leads;
    s' := MovesAt(cfg, s0, s, pid, p.clock, InputOf(Inline(p), p.clock));
  }

  lemma HandIsSteps(cfg: Config, s0: State, s: State, pid: Pid, req: Request, p: S.Posted) returns (s': State)
    requires Leads(cfg, s0, s) && At(s, pid, HandingOff(req, p.newId), p.clock) && HasTask(s, p.newId)
    ensures Leads(cfg, s0, s')
    ensures var t := s.tasks[p.newId];
      s' == if cfg.syncExec
            then UpdateAndAudit(s, p.newId, InlineStarted(t, p.clock), Lifecycle(Executing), 0)
                 .(actors := s.actors[pid := InRun(ExecOf(req, p.newId), Spawning(p.clock))])
            else UpdateAndAudit(s, p.newId, HandedOff(t, p.clock), Lifecycle(Pending), 0).(actors := s.actors - {pid})
  {
    hide Leads;
    s' := MovesAt(cfg, s0, s, pid, p.clock, InputOf(Inline(p), p.clock));
    if cfg.syncExec { } else { }
  }

  lemma InlineIsSteps(cfg: Config, s0: State, s: State, pid: Pid, x: Exec, p: S.Posted) returns (s': State)
    requires Leads(cfg, s0, s) && At(s, pid, InRun(x, Spawning(p.clock)), p.clock) && HasTask(s, p.newId)
    requires x.inline && x.id == p.newId && x.n == 0 && InOrderFrom(s.now, p) && B.SaneCells(s.breakers) && cfg.syncExec
    requires s.tasks[p.newId].attempt == 0 && s.tasks[p.newId].state == Executing
    ensures Leads(cfg, s0, s') && s'.actors == s.actors - {pid} && s'.bindings == s.bindings && s'.replies == s.replies
    ensures s'.tasks == s.tasks[p.newId := S.InlineResult(cfg, x.limit, s.tasks[p.newId], p.k)]
    ensures s'.outbox == s.outbox + [Row(p.newId, S.InlineMark(x.limit, p.k), 0)]
    ensures Notified(s, s', p.newId, |S.InlineNotices(cfg, x.limit, p.newId, p.k)|)
    ensures s'.breakers == BreakersTold(cfg, s, x.verb, x.trip, Inline(p))
  {
    hide Leads, DoAct, BreakersTold, B.SaneCells, S.InlineResult, S.InlineMark, S.InlineNotices;
    var k := Inline(p);
    var s1 := ChildIsSteps(cfg, s0, s, pid, x, k);
    SameBreakers(cfg, s, s1, x.verb, x.trip, k);
    var s2 := JudgeIsSteps(cfg, s0, s1, pid, x, k);
    s' := VerdictIsSteps(cfg, s0, s2, pid, x, p);
  }

  /** The row after the verdict has reached the breaker. */
  lemma VerdictIsSteps(cfg: Config, s0: State, s: State, pid: Pid, x: Exec, p: S.Posted) returns (s': State)
    requires Leads(cfg, s0, s) && At(s, pid, InRun(x, Judged(p.k.verdict, p.k.out)), p.k.verdict) && HasTask(s, p.newId)
    requires x.inline && x.id == p.newId && x.n == 0 && p.k.verdict <= p.k.next <= p.k.commit && cfg.syncExec
    requires s.tasks[p.newId].attempt == 0 && s.tasks[p.newId].state == Executing
    ensures Leads(cfg, s0, s') && JudgedStays(s, s', pid)
    ensures s'.tasks == s.tasks[p.newId := S.InlineResult(cfg, x.limit, s.tasks[p.newId], p.k)]
    ensures s'.outbox == s.outbox + [Row(p.newId, S.InlineMark(x.limit, p.k), 0)]
    ensures Notified(s, s', p.newId, |S.InlineNotices(cfg, x.limit, p.newId, p.k)|)
  {
    hide Leads, DoAct, DelayFor, JudgedStays;
    var k, s2 := Inline(p), s;
    if k.out == RunOk {
      s' := FinishIsSteps(cfg, s0, s2, pid, x, k);
    } else if x.n >= x.limit {
      s' := GiveUpIsSteps(cfg, s0, s2, pid, x, k);
    } else {
      s' := RetryIsSteps(cfg, s0, s2, pid, x, k);
    }
  }

  lemma FinishIsSteps(cfg: Config, s0: State, s: State, pid: Pid, x: Exec, k: W.TickInput) returns (s': State)
    requires Leads(cfg, s0, s) && At(s, pid, InRun(x, Judged(k.verdict, RunOk)), k.verdict) && HasTask(s, x.id)
    requires x.inline && k.verdict <= k.next <= k.commit
    ensures Leads(cfg, s0, s') && JudgedStays(s, s', pid) && Notified(s, s', x.id, 0)
    ensures s'.tasks == s.tasks[x.id := Finished(s.tasks[x.id], k.commit)]
    ensures s'.outbox == s.outbox + [Row(x.id, Lifecycle(Executed), x.n)]
  {
    hide Leads;
    s' := MovesAt(cfg, s0, s, pid, k.commit, InputOf(k, k.next));
  }

  // ---- the entry

  /** What the limited create and the binding leave. */
  ghost predicate Entered(cfg: Config, s: State, s': State, pid: Pid, req: Request, p: S.Posted) {
    && At(s', pid, Accepting(req, p.newId), s.now) && s'.actors == s.actors[pid := Accepting(req, p.newId)]
    && s'.tasks == s.tasks[p.newId := S.Entrant(s.bindings, req.verb, req.budget, req.key, p.clock)]
    && s'.outbox == s.outbox + S.EntryRows(s.bindings, req.key, p.newId)
    && s'.bindings == S.Rebound(s.bindings, req.verb, HashOf(req), req.key, p.newId)
    && s'.breakers == s.breakers && s'.replies == s.replies
    && HasTask(s', p.newId) && s'.stories[p.newId] == Story(Some(req), [], 0, 0)
  }

  lemma EntryIsSteps(cfg: Config, s0: State, s: State, pid: Pid, req: Request, p: S.Posted) returns (s': State)
    requires Leads(cfg, s0, s) && At(s, pid, Creating(req), p.clock) && req.key == p.key
    requires p.newId !in s.tasks && S.FreshFor(s.bindings, p.newId) && DepthOf(s.tasks) < cfg.maxDepth
    requires req.key != "" && req.key in s.bindings ==> s.bindings[req.key].taskId !in s.tasks
    ensures Leads(cfg, s0, s') && Entered(cfg, s, s', pid, req, p)
  {
    hide Leads, DepthOf, HashOf, DoAct, Entered, NewTask;
    var s1 := CreateIsSteps(cfg, s0, s, pid, req, p);
    if req.key == "" || req.key !in s.bindings {
      s' := SaveIsSteps(cfg, s0, s1, pid, req, p);
      BoundIsEntered(cfg, s, s1, s', pid, req, p);
    } else {
      s' := YieldIsSteps(cfg, s0, s1, pid, req, p);
      YieldedIsEntered(cfg, s, s1, s', pid, req, p);
    }
  }

  /** The new task is made and its handler holds it. */
  ghost predicate Made(s: State, s1: State, pid: Pid, req: Request, p: S.Posted) {
    && HasTask(s1, p.newId) && s1.stories[p.newId] == Story(Some(req), [], 0, 0)
    && s1 == UpdateAndAudit(s, p.newId, NewTask(req.verb, req.budget, p.clock), Lifecycle(Accepted), 0)
             .(actors := s.actors[pid := Saving(req, p.newId)], attempts := s1.attempts, stories := s1.stories)
  }

  lemma BoundIsEntered(cfg: Config, s: State, s1: State, s': State, pid: Pid, req: Request, p: S.Posted)
    requires Made(s, s1, pid, req, p) && s.now == p.clock && (req.key == "" || req.key !in s.bindings)
    requires s' == s1.(bindings := S.Rebound(s1.bindings, req.verb, HashOf(req), req.key, p.newId),
                       actors := s1.actors[pid := Accepting(req, p.newId)])
    ensures Entered(cfg, s, s', pid, req, p)
  {
    hide HashOf, S.Rebound;
  }

  lemma YieldedIsEntered(cfg: Config, s: State, s1: State, s': State, pid: Pid, req: Request, p: S.Posted)
    requires Made(s, s1, pid, req, p) && s.now == p.clock && req.key != "" && req.key in s.bindings
    requires s' == UpdateAndAudit(s1, p.newId, Superseded(s1.tasks[p.newId], p.clock), Lifecycle(Canceled), 0)
                   .(actors := s1.actors[pid := Accepting(req, p.newId)])
    ensures Entered(cfg, s, s', pid, req, p)
  {
    hide HashOf;
    Overwrites(s.tasks, p.newId, NewTask(req.verb, req.budget, p.clock), s'.tasks[p.newId]);
  }

  lemma CreateIsSteps(cfg: Config, s0: State, s: State, pid: Pid, req: Request, p: S.Posted) returns (s': State)
    requires Leads(cfg, s0, s) && At(s, pid, Creating(req), p.clock)
    requires p.newId !in s.tasks && DepthOf(s.tasks) < cfg.maxDepth
    ensures Leads(cfg, s0, s') && Made(s, s', pid, req, p)
  {
    hide Leads, DepthOf, HashOf;
    s' := MovesAt(cfg, s0, s, pid, p.clock, InputOf(Inline(p), p.clock).(newId := p.newId));
  }

  lemma SaveIsSteps(cfg: Config, s0: State, s: State, pid: Pid, req: Request, p: S.Posted) returns (s': State)
    requires Leads(cfg, s0, s) && At(s, pid, Saving(req, p.newId), p.clock) && (req.key == "" || req.key !in s.bindings)
    ensures Leads(cfg, s0, s')
    ensures s' == s.(bindings := S.Rebound(s.bindings, req.verb, HashOf(req), req.key, p.newId),
                     actors := s.actors[pid := Accepting(req, p.newId)])
  {
    hide Leads, HashOf;
    s' := MovesAt(cfg, s0, s, pid, p.clock, InputOf(Inline(p), p.clock));
  }

  /** The key is bound to a task that is gone. */
  lemma YieldIsSteps(cfg: Config, s0: State, s: State, pid: Pid, req: Request, p: S.Posted) returns (s': State)
    requires Leads(cfg, s0, s) && At(s, pid, Saving(req, p.newId), p.clock) && HasTask(s, p.newId)
    requires req.key != "" && req.key in s.bindings && s.bindings[req.key].taskId !in s.tasks
    ensures Leads(cfg, s0, s')
    ensures s' == UpdateAndAudit(s, p.newId, Superseded(s.tasks[p.newId], p.clock), Lifecycle(Canceled), 0)
                  .(actors := s.actors[pid := Accepting(req, p.newId)])
  {
    hide Leads;
    var id, win, inp := p.newId, s.bindings[req.key].taskId, InputOf(Inline(p), p.clock);
    var s1 := MovesAt(cfg, s0, s, pid, p.clock, inp);
    assert s1 == s.(actors := s.actors[pid := Refinding(req, id)]);
    var s2 := MovesAt(cfg, s0, s1, pid, p.clock, inp);
    assert s2 == s.(actors := s.actors[pid := Canceling(req, id, win)]);
    s' := CanceledIsSteps(cfg, s0, s, s2, pid, req, p, win);
  }

  lemma CanceledIsSteps(cfg: Config, s0: State, s: State, s2: State, pid: Pid, req: Request, p: S.Posted, win: Id)
      returns (s': State)
    requires Leads(cfg, s0, s2) && HasTask(s, p.newId) && pid in s.actors && s.now == p.clock
    requires s2 == s.(actors := s.actors[pid := Canceling(req, p.newId, win)]) && win !in s.tasks
    ensures Leads(cfg, s0, s')
    ensures s' == UpdateAndAudit(s, p.newId, Superseded(s.tasks[p.newId], p.clock), Lifecycle(Canceled), 0)
                  .(actors := s.actors[pid := Accepting(req, p.newId)])
  {
    hide Leads, DoAct, Superseded;
    var s3 := CancelIsSteps(cfg, s0, s2, pid, req, p, win);
    s' := NoWinnerIsSteps(cfg, s0, s3, pid, req, p, win);
  }

  lemma CancelIsSteps(cfg: Config, s0: State, s: State, pid: Pid, req: Request, p: S.Posted, win: Id)
      returns (s': State)
    requires Leads(cfg, s0, s) && At(s, pid, Canceling(req, p.newId, win), p.clock) && HasTask(s, p.newId)
    ensures Leads(cfg, s0, s')
    ensures s' == UpdateAndAudit(s, p.newId, Superseded(s.tasks[p.newId], p.clock), Lifecycle(Canceled), 0)
                  .(actors := s.actors[pid := Replaying(req, p.newId, win)])
  {
    hide Leads;
    s' := MovesAt(cfg, s0, s, pid, p.clock, InputOf(Inline(p), p.clock));
  }

  lemma NoWinnerIsSteps(cfg: Config, s0: State, s: State, pid: Pid, req: Request, p: S.Posted, win: Id)
      returns (s': State)
    requires Leads(cfg, s0, s) && At(s, pid, Replaying(req, p.newId, win), p.clock) && win !in s.tasks
    requires HasTask(s, p.newId)
    ensures Leads(cfg, s0, s') && s' == s.(actors := s.actors[pid := Accepting(req, p.newId)])
  {
    hide Leads;
    s' := MovesAt(cfg, s0, s, pid, p.clock, InputOf(Inline(p), p.clock));
  }

  // ---- the whole POST

  lemma FindIsSteps(cfg: Config, s: State, pid: Pid, req: Request, p: S.Posted, args: JsonText, stdin: string)
      returns (s': State)
    requires !s.booting && pid !in s.actors && p.verb in s.catalog && s.now <= p.clock
    requires req == RequestOf(cfg, s, p, args, stdin)
    ensures Leads(cfg, s, s')
    ensures s' == match FindAnswer(s, req)
                  case None => s.(now := p.clock, actors := s.actors[pid := Peeking(req)])
                  case Some(r) => s.(now := p.clock, replies := s.replies + [r])
  {
    hide Leads, FindAnswer, BudgetOf;
    Stays(cfg, s);
    var s0 := s.(now := p.clock);
    Goes(cfg, s, s, Tick(p.clock));
    var post := Post(pid, p.verb, args, stdin, p.key);
    Goes(cfg, s, s0, post);
    var s1 := Do(cfg, s0, post);
    assert s1 == s0.(actors := s.actors[pid := Finding(req)]);
    SameFind(s, s0, req);
    hide Do, Enabled;
    s' := LookIsSteps(cfg, s, s0, s1, pid, req, p);
  }

  lemma LookIsSteps(cfg: Config, s0: State, s: State, s1: State, pid: Pid, req: Request, p: S.Posted)
      returns (s': State)
    requires Leads(cfg, s0, s1) && pid !in s.actors && s.now == p.clock
    requires s1 == s.(actors := s.actors[pid := Finding(req)])
    ensures Leads(cfg, s0, s')
    ensures s' == match FindAnswer(s, req)
                  case None => s.(actors := s.actors[pid := Peeking(req)])
                  case Some(r) => s.(replies := s.replies + [r])
  {
    hide Leads, FindAnswer;
    SameFind(s, s1, req);
    assert s1.(now := p.clock) == s1;
    s' := MovesAt(cfg, s0, s1, pid, p.clock, InputOf(Inline(p), p.clock));
    LookLeaves(s, s1, pid, req);
  }

  lemma LookLeaves(s: State, s1: State, pid: Pid, req: Request)
    requires pid !in s.actors && s1 == s.(actors := s.actors[pid := Finding(req)])
    requires FindAnswer(s1, req) == FindAnswer(s, req)
    ensures ActFind(s1, pid, req) == match FindAnswer(s, req)
                                     case None => s.(actors := s.actors[pid := Peeking(req)])
                                     case Some(r) => s.(replies := s.replies + [r])
  {
    hide FindAnswer;
    assert s.actors[pid := Finding(req)] - {pid} == s.actors;
  }

  lemma SameFind(s: State, s1: State, req: Request)
    requires s1.bindings == s.bindings && s1.tasks == s.tasks
    ensures FindAnswer(s1, req) == FindAnswer(s, req)
  {
  }

  /** Both look-ups give the same answer. */
  lemma FindAgrees(s: State, req: Request)
    ensures var first := S.FirstAnswer(s.tasks, s.bindings, req.verb, HashOf(req), req.key);
      && (FindAnswer(s, req) == None <==> first == None)
      && (first.Some? ==> [FindAnswer(s, req).value] == Noted(req, first.value))
  {
    hide HashOf;
  }

  /** The breakers after a look at the verb's. */
  function BreakersPeeked(cfg: Config, s: State, req: Request, at: int): map<string, B.Cell> {
    if !cfg.circuits then s.breakers
    else s.breakers[req.verb := CellFor(cfg, s, req.verb, req.trip).Peeked(at)]
  }

  lemma PeekIsSteps(cfg: Config, s0: State, s: State, pid: Pid, req: Request, p: S.Posted) returns (s': State)
    requires Leads(cfg, s0, s) && At(s, pid, Peeking(req), p.clock)
    ensures Leads(cfg, s0, s')
    ensures var s1 := s.(breakers := BreakersPeeked(cfg, s, req, p.clock));
      s' == if cfg.circuits && CellFor(cfg, s, req.verb, req.trip).Peeked(p.clock).st.mode == B.Open
            then s1.(actors := s.actors - {pid}, replies := s.replies + [Rejected(req, true)])
            else s1.(actors := s.actors[pid := Creating(req)])
  {
    hide Leads, B.CellOf, B.Settle;
    s' := MovesAt(cfg, s0, s, pid, p.clock, InputOf(Inline(p), p.clock));
  }

  lemma FullIsSteps(cfg: Config, s0: State, s: State, pid: Pid, req: Request, p: S.Posted) returns (s': State)
    requires Leads(cfg, s0, s) && At(s, pid, Creating(req), p.clock)
    requires p.newId !in s.tasks && DepthOf(s.tasks) >= cfg.maxDepth
    ensures Leads(cfg, s0, s')
    ensures s' == s.(actors := s.actors - {pid}, replies := s.replies + [Rejected(req, false)])
  {
    hide Leads, DepthOf;
    s' := MovesAt(cfg, s0, s, pid, p.clock, InputOf(Inline(p), p.clock).(newId := p.newId));
  }

  /** A handler that nobody interferes with goes through steps of the state machine
      to exactly what the method answers and leaves. */
  lemma PostIsSteps(cfg: Config, s: State, pid: Pid, p: S.Posted, args: JsonText, stdin: string) returns (s': State)
    requires !s.booting && pid !in s.actors && p.verb in s.catalog && p.missing == T.None
    requires p.hash == RequestHash(p.verb, args, stdin)
    requires p.newId !in s.tasks && S.FreshFor(s.bindings, p.newId)
    requires InOrderFrom(s.now, p) && B.SaneCells(s.breakers)
    ensures Leads(cfg, s, s') && s'.actors == s.actors
    ensures WorldOf(s') == S.Effect(cfg, s.catalog, WorldOf(s), p)
    ensures s'.replies == s.replies +
              Noted(RequestOf(cfg, s, p, args, stdin), S.AnswerTo(cfg, s.catalog, WorldOf(s), p))
    ensures S.AnswerTo(cfg, s.catalog, WorldOf(s), p).Admitted? ==>
      p.newId in s'.stories && s'.stories[p.newId].notices == |S.NoticesFor(cfg, s.catalog, WorldOf(s), p)|
  {
    hide Leads, DepthOf, RequestHash, FindAnswer, S.FirstAnswer, Do, Enabled, DoAct, S.Effect, S.AnswerTo, S.NoticesFor;
    var req := RequestOf(cfg, s, p, args, stdin);
    FindAgrees(s, req);
    var s1 := FindIsSteps(cfg, s, pid, req, p, args, stdin);
    if FindAnswer(s, req).Some? {
      s' := s1;
      S.RefusedChangesNothing(cfg, s.catalog, WorldOf(s), p);
    } else {
      s' := ProceedIsSteps(cfg, s, s1, pid, req, p);
    }
  }

  /** The handler holds the request, and its thread is new. */
  ghost predicate Holds(cfg: Config, s: State, pid: Pid, req: Request, p: S.Posted) {
    && pid !in s.actors && p.verb in s.catalog && p.missing == T.None
    && B.SaneCells(s.breakers) && InOrderFrom(s.now, p)
    && req.verb == p.verb && req.key == p.key && HashOf(req) == p.hash
    && req.budget == BudgetOf(cfg, s.catalog[p.verb]) && req.trip == s.catalog[p.verb].trip
    && p.newId !in s.tasks && S.FreshFor(s.bindings, p.newId)
    && S.FirstAnswer(s.tasks, s.bindings, p.verb, p.hash, p.key) == None
  }

  /** What is left when the POST is answered. */
  ghost predicate Answered(cfg: Config, s: State, s': State, req: Request, p: S.Posted)
    requires B.SaneCells(s.breakers)
  {
    var resp := S.AnswerTo(cfg, s.catalog, WorldOf(s), p);
    && s'.actors == s.actors && WorldOf(s') == S.Effect(cfg, s.catalog, WorldOf(s), p)
    && s'.replies == s.replies + Noted(req, resp)
    && (resp.Admitted? ==>
          p.newId in s'.stories && s'.stories[p.newId].notices == |S.NoticesFor(cfg, s.catalog, WorldOf(s), p)|)
  }

  lemma ProceedIsSteps(cfg: Config, s: State, s1: State, pid: Pid, req: Request, p: S.Posted) returns (s': State)
    requires Leads(cfg, s, s1) && Holds(cfg, s, pid, req, p)
    requires s1 == s.(now := p.clock, actors := s.actors[pid := Peeking(req)])
    ensures Leads(cfg, s, s') && Answered(cfg, s, s', req, p)
  {
    hide Leads, DepthOf, DoAct, Answered, S.CellsAfter, S.OpenAt, Holds, B.SaneCells;
    HoldsFacts(cfg, s, pid, req, p);
    var s2 := LookedIsSteps(cfg, s, s1, pid, req, p);
    if S.OpenAt(cfg, s.catalog, s.breakers, p.verb, p.clock) {
      s' := s2;
      RefusedIsAnswer(cfg, s, s', pid, req, p, S.CircuitIsOpen);
    } else if DepthOf(s.tasks) >= cfg.maxDepth {
      s' := FullIsAnswer(cfg, s, s2, pid, req, p);
    } else {
      s' := AdmitIsSteps(cfg, s, s2, pid, req, p);
    }
  }

  lemma HoldsFacts(cfg: Config, s: State, pid: Pid, req: Request, p: S.Posted)
    requires Holds(cfg, s, pid, req, p)
    ensures pid !in s.actors && p.verb in s.catalog && B.SaneCells(s.breakers) && p.newId !in s.tasks
    ensures req.verb == p.verb && req.trip == s.catalog[p.verb].trip
  {
  }

  /** The look at the breaker, told in the handler's terms. */
  lemma LookedIsSteps(cfg: Config, s: State, s1: State, pid: Pid, req: Request, p: S.Posted) returns (s2: State)
    requires Leads(cfg, s, s1) && p.verb in s.catalog && B.SaneCells(s.breakers)
    requires req.verb == p.verb && req.trip == s.catalog[p.verb].trip
    requires s1 == s.(now := p.clock, actors := s.actors[pid := Peeking(req)])
    ensures Leads(cfg, s, s2)
    ensures var seen := s.(now := p.clock, breakers := S.CellsAfter(cfg, s.catalog, WorldOf(s), p, false));
      s2 == if S.OpenAt(cfg, s.catalog, s.breakers, p.verb, p.clock)
            then seen.(actors := s1.actors - {pid}, replies := s.replies + [Rejected(req, true)])
            else seen.(actors := s.actors[pid := Creating(req)])
  {
    hide Leads, DoAct, S.CellsAfter, S.OpenAt, BreakersPeeked, B.SaneCells, B.Cell.Peeked, B.CellOf;
    s2 := PeekIsSteps(cfg, s, s1, pid, req, p);
    LookAgrees(cfg, s, s1, req, p);
  }

  /** Handler and state machine look at the same breaker. */
  lemma LookAgrees(cfg: Config, s: State, s1: State, req: Request, p: S.Posted)
    requires p.verb in s.catalog && B.SaneCells(s.breakers) && req.verb == p.verb && req.trip == s.catalog[p.verb].trip
    requires s1.breakers == s.breakers
    ensures BreakersPeeked(cfg, s1, req, p.clock) == S.CellsAfter(cfg, s.catalog, WorldOf(s), p, false)
    ensures S.OpenAt(cfg, s.catalog, s.breakers, p.verb, p.clock)
        <==> cfg.circuits && CellFor(cfg, s1, req.verb, req.trip).Peeked(p.clock).st.mode == B.Open
  {
  }

  lemma RefusedIsAnswer(cfg: Config, s: State, s': State, pid: Pid, req: Request, p: S.Posted, resp: S.Response)
    requires Holds(cfg, s, pid, req, p)
    requires resp == if S.OpenAt(cfg, s.catalog, s.breakers, p.verb, p.clock) then S.CircuitIsOpen else S.QueueIsFull
    requires resp.QueueIsFull? ==> DepthOf(s.tasks) >= cfg.maxDepth
    requires WorldOf(s') == WorldOf(s).(cells := S.CellsAfter(cfg, s.catalog, WorldOf(s), p, false))
    requires s'.actors - {pid} == s.actors && pid !in s'.actors && s'.replies == s.replies + Noted(req, resp)
    ensures Answered(cfg, s, s', req, p)
  {
    hide S.FirstAnswer, S.Effect, S.AnswerTo, S.NoticesFor, S.CellsAfter, S.OpenAt, DepthOf;
    S.EffectOf(cfg, s.catalog, WorldOf(s), p, WorldOf(s'), resp, []);
  }

  lemma FullIsAnswer(cfg: Config, s: State, s2: State, pid: Pid, req: Request, p: S.Posted) returns (s': State)
    requires Leads(cfg, s, s2) && Holds(cfg, s, pid, req, p)
    requires !S.OpenAt(cfg, s.catalog, s.breakers, p.verb, p.clock) && DepthOf(s.tasks) >= cfg.maxDepth
    requires s2 == s.(now := p.clock, actors := s.actors[pid := Creating(req)],
                      breakers := S.CellsAfter(cfg, s.catalog, WorldOf(s), p, false))
    ensures Leads(cfg, s, s') && Answered(cfg, s, s', req, p)
  {
    hide Leads, DepthOf, DoAct, Answered, S.CellsAfter, S.OpenAt;
    s' := FullIsSteps(cfg, s, s2, pid, req, p);
    RefusedIsAnswer(cfg, s, s', pid, req, p, S.QueueIsFull);
  }

  lemma AdmitIsSteps(cfg: Config, s: State, s2: State, pid: Pid, req: Request, p: S.Posted) returns (s': State)
    requires Leads(cfg, s, s2) && Holds(cfg, s, pid, req, p)
    requires !S.OpenAt(cfg, s.catalog, s.breakers, p.verb, p.clock) && DepthOf(s.tasks) < cfg.maxDepth
    requires s2 == s.(now := p.clock, actors := s.actors[pid := Creating(req)],
                      breakers := S.CellsAfter(cfg, s.catalog, WorldOf(s), p, false))
    ensures Leads(cfg, s, s') && Answered(cfg, s, s', req, p)
  {
    hide Leads, DepthOf, HashOf, DoAct, S.Effect, S.AnswerTo, S.NoticesFor, B.CellOf, B.Cell.Peeked, Answered;
    var s3 := EntryIsSteps(cfg, s, s2, pid, req, p);
    assert B.SaneCells(s3.breakers);
    s' := PipelineIsSteps(cfg, s, s3, pid, req, p);
    AdmittedIsAnswer(cfg, s, s2, s3, s', pid, req, p);
  }

  lemma AdmittedIsAnswer(cfg: Config, s: State, s2: State, s3: State, s': State, pid: Pid, req: Request, p: S.Posted)
    requires Holds(cfg, s, pid, req, p)
    requires !S.OpenAt(cfg, s.catalog, s.breakers, p.verb, p.clock) && DepthOf(s.tasks) < cfg.maxDepth
    requires s2 == s.(now := p.clock, actors := s.actors[pid := Creating(req)],
                      breakers := S.CellsAfter(cfg, s.catalog, WorldOf(s), p, false))
    requires Entered(cfg, s2, s3, pid, req, p)
    requires Piped(cfg, s3, s', pid, req, s3.tasks[p.newId], p)
    ensures Answered(cfg, s, s', req, p)
  {
    hide S.FirstAnswer, S.Effect, S.AnswerTo, S.NoticesFor, S.OpenAt, DepthOf, HashOf, S.Outgoing, S.Entrant,
         S.EntryRows, S.PipelineRows, S.InlineNotices, S.Rebound, B.Cell.Told, B.Cell.Peeked, S.FreshFor;
    var w := WorldOf(s);
    var t := S.Entrant(s.bindings, req.verb, req.budget, req.key, p.clock);
    var out := S.Outgoing(cfg, req.budget, t, p.clock, p.k);
    Overwrites(s.tasks, p.newId, t, out);
    assert s'.actors == s.actors;
    S.EffectOf(cfg, s.catalog, w, p, WorldOf(s'), S.Admitted(p.newId, out.state),
               S.InlineNotices(cfg, req.budget, p.newId, p.k));
  }
}
