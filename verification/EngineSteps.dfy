/** Every step of the daemon keeps its invariant. */
module EngineSteps {
  import opened Tasks
  import opened Requests
  import opened Engine
  import opened EngineInv
  import opened EngineUpdates
  import B = Breaker
  import Backoff

  /** No other thread works on task i. */
  ghost predicate Alone(s: State, pid: Pid, i: Id) {
    forall q :: q in s.actors && q != pid ==> Touch(s.actors[q]) != Some(i)
  }

  /** What a thread may rely on when it moves. */
  lemma Mine(cfg: Config, s: State, pid: Pid)
    requires Inv(cfg, s) && pid in s.actors
    ensures !s.booting && WellTimed(cfg) && ActorOk(cfg, s, s.actors[pid])
    ensures Touch(s.actors[pid]).Some? ==>
      var i := Touch(s.actors[pid]).value;
      && HasTask(s, i) && TaskOkAt(cfg, s, i)
      && Alone(s, pid, i)
  {
    hide TaskOk, RepliesOk, BindingsOk, LogOk, RowsOk, StartedBound, Owned, DepthOf, LatestLabel;
    if Touch(s.actors[pid]).Some? { TouchedExists(cfg, s, s.actors[pid]); }
  }

  lemma TouchedExists(cfg: Config, s: State, a: Actor)
    requires ActorOk(cfg, s, a) && Touch(a).Some?
    ensures Touch(a).value in s.tasks
  {
    hide TaskOk, LatestLabel;
  }

  /** What a step leaves of the task it works on, and the audit row it adds. */
  datatype Change = Change(t: Task, att: map<nat, Attempt>, h: Story, row: Option<Row>)

  /** s' differs from s in task i, at most one audit row about it, and threads. */
  ghost predicate SameBut(s: State, s': State, i: Id, c: Change) {
    && HasTask(s, i) && c.h.req == s.stories[i].req && (c.row.Some? ==> c.row.value.id == i)
    && (s'.tasks == s.tasks[i := c.t] || (s'.tasks == s.tasks && c.t == s.tasks[i]))
    && (s'.attempts == s.attempts[i := c.att] || (s'.attempts == s.attempts && c.att == s.attempts[i]))
    && (s'.stories == s.stories[i := c.h] || (s'.stories == s.stories && c.h == s.stories[i]))
    && s'.outbox == (if c.row.Some? then s.outbox + [c.row.value] else s.outbox)
    && s'.bindings == s.bindings && s'.written == s.written && s'.log == s.log && s'.replies == s.replies
    && s'.now == s.now && s'.booting == s.booting
  }

  ghost predicate FineAfter(cfg: Config, s: State, i: Id, c: Change)
    requires HasTask(s, i)
  {
    var t := s.tasks[i];
    && TaskOk(cfg, c.t, c.att, c.h, if c.row.Some? then Some(c.row.value.mark) else LatestLabel(s.outbox, i),
              s.now, false)
    && c.t.state != PendingApproval
    && (Terminal(t.state) ==> c.t.state == t.state)
    && (c.row.Some? && TerminalLabel(c.row.value.mark) ==> c.t.state == c.row.value.mark.state)
    && (Started(c.t.state) && !Started(t.state) && c.h.req.Some? ==> BoundTo(s, c.h.req.value, i))
  }

  lemma SameButIsOnlyTask(s: State, s': State, i: Id, c: Change)
    requires SameDomains(s) && SameBut(s, s', i, c)
    ensures SameDomains(s') && OnlyTask(s, s', i)
    ensures s'.tasks[i] == c.t && s'.attempts[i] == c.att && s'.stories[i] == c.h
    ensures LatestLabel(s'.outbox, i) == if c.row.Some? then Some(c.row.value.mark) else LatestLabel(s.outbox, i)
  {
    hide LatestLabel;
    SameButInMaps(s, s', i, c);
    if c.row.Some? {
      LatestAfterAppend(s.outbox, c.row.value);
      assert s'.outbox == s.outbox + [c.row.value] && c.row.value.id == i;
    }
  }

  lemma SameButInMaps(s: State, s': State, i: Id, c: Change)
    requires SameDomains(s) && SameBut(s, s', i, c)
    ensures SameDomains(s') && s'.tasks.Keys == s.tasks.Keys
    ensures s'.tasks[i] == c.t && s'.attempts[i] == c.att && s'.stories[i] == c.h
    ensures forall j :: j in s.tasks && j != i ==>
              s'.tasks[j] == s.tasks[j] && s'.attempts[j] == s.attempts[j] && s'.stories[j] == s.stories[j]
  {
    assert s'.tasks.Keys == s.tasks.Keys && s'.attempts.Keys == s.attempts.Keys && s'.stories.Keys == s.stories.Keys;
  }

  lemma StoriesKeepBindings(s: State, s': State, i: Id, c: Change)
    requires BindingsOk(s) && SameBut(s, s', i, c)
    ensures BindingsOk(s')
  {
  }

  /** A thread moves its own task, or one nobody works on. */
  lemma MoveTask(cfg: Config, s: State, s': State, pid: Pid, i: Id, c: Change, a: Option<Actor>)
    requires Inv(cfg, s) && !s.booting && SameBut(s, s', i, c) && ThreadMoves(s, s', pid, a)
    requires FineAfter(cfg, s, i, c)
    requires pid in s.actors && (Touch(s.actors[pid]) == None || Touch(s.actors[pid]) == Some(i))
    requires Alone(s, pid, i)
    requires a.Some? ==> ActorOk(cfg, s', a.value) && (Touch(a.value) == None || Touch(a.value) == Some(i))
    requires a == None || Touch(a.value) == None ==> !NeedsOwner(c.t.state)
    ensures Inv(cfg, s')
  {
    hide Inv, TaskOk, ActorOk;
    Tables(cfg, s);
    SameButIsOnlyTask(s, s', i, c);
    StoriesKeepBindings(s, s', i, c);
    FineIsGood(cfg, s, s', i, c);
    hide LatestLabel, StartedBound, BindingsOk, OnlyTask, GoodFor;
    TaskStep(cfg, s, s', pid, i, a);
  }

  // ---- the three shapes of a step on one task

  function Onward(s: State, pid: Pid, a: Option<Actor>): State { if a.Some? then To(s, pid, a.value) else Done(s, pid) }

  /** A row is rewritten, with one audit row. */
  lemma AuditedShape(s: State, pid: Pid, i: Id, t: Task, mark: Label, n: nat, a: Option<Actor>)
    requires HasTask(s, i)
    ensures var s' := Onward(UpdateAndAudit(s, i, t, mark, n), pid, a);
      && SameBut(s, s', i, Change(t, s.attempts[i], s.stories[i], Some(Row(i, mark, n)))) && ThreadMoves(s, s', pid, a)
      && s'.attempts == s.attempts && s'.stories == s.stories
  {
  }

  /** Only the story of the task goes on. */
  lemma StoryShape(s: State, pid: Pid, i: Id, h: Story, a: Option<Actor>)
    requires HasTask(s, i) && h.req == s.stories[i].req
    ensures var s' := Onward(s.(stories := s.stories[i := h]), pid, a);
      SameBut(s, s', i, Change(s.tasks[i], s.attempts[i], h, None)) && ThreadMoves(s, s', pid, a)
  {
  }

  /** An attempt is recorded. */
  lemma AttemptShape(s: State, pid: Pid, i: Id, att: map<nat, Attempt>, a: Option<Actor>)
    requires HasTask(s, i)
    ensures var s' := Onward(s.(attempts := s.attempts[i := att]), pid, a);
      SameBut(s, s', i, Change(s.tasks[i], att, s.stories[i], None)) && ThreadMoves(s, s', pid, a)
  {
  }

  lemma Tables(cfg: Config, s: State)
    requires Inv(cfg, s)
    ensures SameDomains(s) && BindingsOk(s) && StartedBound(s) && LogOk(s) && RepliesOk(s)
  {
    hide TaskOk, ActorOk, RepliesOk, LogOk, RowsOk, OneOwner, Owned, DepthOf, LatestLabel, StartedBound, BindingsOk;
  }

  lemma FineIsGood(cfg: Config, s: State, s': State, i: Id, c: Change)
    requires SameDomains(s) && StartedBound(s) && !s.booting && SameBut(s, s', i, c) && FineAfter(cfg, s, i, c)
    requires SameDomains(s')
    requires s'.tasks[i] == c.t && s'.attempts[i] == c.att && s'.stories[i] == c.h
    requires LatestLabel(s'.outbox, i) == if c.row.Some? then Some(c.row.value.mark) else LatestLabel(s.outbox, i)
    ensures GoodFor(cfg, s, s', i)
  {
    hide TaskOk, LatestLabel;
    forall r | s'.outbox == s.outbox + [r] && TerminalLabel(r.mark) ensures s'.tasks[i].state == r.mark.state {
      assert (s.outbox + [r])[|s.outbox|] == r;
    }
  }

  /** A thread moves and no task changes. */
  lemma MoveThread(cfg: Config, s: State, s': State, pid: Pid, a: Option<Actor>)
    requires Inv(cfg, s) && !s.booting && pid in s.actors && ThreadMoves(s, s', pid, a)
    requires NoTaskTouched(s, s') && s'.log == s.log && s'.written == s.written && s'.replies == s.replies
    requires a.Some? ==> ActorOk(cfg, s', a.value) && Touch(a.value) == Touch(s.actors[pid])
    requires a == None ==> Touch(s.actors[pid]) == None
    ensures Inv(cfg, s')
  {
    hide TaskOk, ActorOk, OneOwner, Owned, DepthOf, LatestLabel, StartedBound, BindingsOk, RowsOk;
    assert RepliesOk(s') by {
      forall i | 0 <= i < |s'.replies| ensures ReplyOk(s', s'.replies[i]) { assert ReplyOk(s, s.replies[i]); }
    }
    QuietStep(cfg, s, s', pid, a);
  }

  /** A handler answers and is done. */
  lemma MoveAnswer(cfg: Config, s: State, s': State, pid: Pid, r: Reply)
    requires Inv(cfg, s) && !s.booting && pid in s.actors && ThreadMoves(s, s', pid, None)
    requires NoTaskTouched(s, s') && s'.log == s.log && s'.written == s.written && s'.replies == s.replies + [r]
    requires ReplyOk(s, r)
    requires Touch(s.actors[pid]).Some? ==>
      Touch(s.actors[pid]).value in s.tasks && !NeedsOwner(s.tasks[Touch(s.actors[pid]).value].state)
    ensures Inv(cfg, s')
  {
    hide TaskOk, ActorOk, OneOwner, Owned, DepthOf, LatestLabel, StartedBound, BindingsOk, RowsOk, RepliesOk;
    ReplyAdded(s, s', r);
    QuietStep(cfg, s, s', pid, None);
  }

  /** What is asked of the row and the thread a step leaves. */
  ghost predicate LeftInOrder(cfg: Config, s: State, s': State, i: Id, t: Task, a: Option<Actor>)
    requires HasTask(s, i)
  {
    && t.state != PendingApproval && (Terminal(s.tasks[i].state) ==> t.state == s.tasks[i].state)
    && (Started(t.state) && !Started(s.tasks[i].state) && s.stories[i].req.Some? ==>
          BoundTo(s, s.stories[i].req.value, i))
    && (a.Some? ==> ActorOk(cfg, s', a.value) && (Touch(a.value) == None || Touch(a.value) == Some(i)))
    && (a == None || Touch(a.value) == None ==> !NeedsOwner(t.state))
  }

  /** A thread that lets go of a task it ran owes nothing more to it. */
  lemma LetGoInOrder(cfg: Config, s: State, s': State, i: Id, t: Task)
    requires HasTask(s, i) && s.tasks[i].state == Executing && t.state != PendingApproval && !NeedsOwner(t.state)
    ensures LeftInOrder(cfg, s, s', i, t, None)
  {
  }

  /** A thread that runs on with its task leaves it as it was. */
  lemma RunsOnInOrder(cfg: Config, s: State, s': State, i: Id, a: Actor)
    requires HasTask(s, i) && s.tasks[i].state == Executing && ActorOk(cfg, s', a) && Touch(a) == Some(i)
    ensures LeftInOrder(cfg, s, s', i, s.tasks[i], Some(a))
  {
    hide ActorOk;
  }

  /** A thread rewrites the row of its own task, with one audit row. */
  lemma MoveAudited(cfg: Config, s: State, pid: Pid, i: Id, t: Task, mark: Label, n: nat, a: Option<Actor>)
    requires Inv(cfg, s) && pid in s.actors && Touch(s.actors[pid]) == Some(i) && HasTask(s, i)
    requires TaskOk(cfg, t, s.attempts[i], s.stories[i], Some(mark), s.now, false)
    requires TerminalLabel(mark) ==> t.state == mark.state
    requires LeftInOrder(cfg, s, Onward(UpdateAndAudit(s, i, t, mark, n), pid, a), i, t, a)
    ensures Inv(cfg, Onward(UpdateAndAudit(s, i, t, mark, n), pid, a))
  {
    hide Inv, TaskOk, LatestLabel, ActorOk, Touch, BoundTo, Alone;
    Mine(cfg, s, pid);
    AuditedShape(s, pid, i, t, mark, n, a);
    hide SameBut, ThreadMoves, Onward, UpdateAndAudit;
    MoveTask(cfg, s, Onward(UpdateAndAudit(s, i, t, mark, n), pid, a), pid, i,
             Change(t, s.attempts[i], s.stories[i], Some(Row(i, mark, n))), a);
  }

  /** A thread goes on with its own task, whose row stays. */
  lemma MoveStory(cfg: Config, s: State, pid: Pid, i: Id, h: Story, a: Option<Actor>)
    requires Inv(cfg, s) && pid in s.actors && Touch(s.actors[pid]) == Some(i) && HasTask(s, i)
    requires h.req == s.stories[i].req
    requires TaskOk(cfg, s.tasks[i], s.attempts[i], h, LatestLabel(s.outbox, i), s.now, false)
    requires LeftInOrder(cfg, s, Onward(s.(stories := s.stories[i := h]), pid, a), i, s.tasks[i], a)
    ensures Inv(cfg, Onward(s.(stories := s.stories[i := h]), pid, a))
  {
    hide Inv, TaskOk, LatestLabel, ActorOk, Touch, BoundTo, Alone;
    Mine(cfg, s, pid);
    StoryShape(s, pid, i, h, a);
    hide SameBut, ThreadMoves, Onward;
    MoveTask(cfg, s, Onward(s.(stories := s.stories[i := h]), pid, a), pid, i,
             Change(s.tasks[i], s.attempts[i], h, None), a);
  }

  lemma MoveAttempt(cfg: Config, s: State, pid: Pid, i: Id, att: map<nat, Attempt>, a: Option<Actor>)
    requires Inv(cfg, s) && pid in s.actors && Touch(s.actors[pid]) == Some(i) && HasTask(s, i)
    requires TaskOk(cfg, s.tasks[i], att, s.stories[i], LatestLabel(s.outbox, i), s.now, false)
    requires LeftInOrder(cfg, s, Onward(s.(attempts := s.attempts[i := att]), pid, a), i, s.tasks[i], a)
    ensures Inv(cfg, Onward(s.(attempts := s.attempts[i := att]), pid, a))
  {
    hide Inv, TaskOk, LatestLabel, ActorOk, Touch, BoundTo, Alone;
    Mine(cfg, s, pid);
    AttemptShape(s, pid, i, att, a);
    hide SameBut, ThreadMoves, Onward;
    MoveTask(cfg, s, Onward(s.(attempts := s.attempts[i := att]), pid, a), pid, i,
             Change(s.tasks[i], att, s.stories[i], None), a);
  }

  lemma BindingFacts(cfg: Config, s: State, key: string)
    requires Inv(cfg, s) && key in s.bindings
    ensures var b := s.bindings[key];
      && b.taskId in s.tasks && b.taskId in s.stories && s.stories[b.taskId].req.Some?
      && var r := s.stories[b.taskId].req.value;
      && r.key == key && r.verb == b.verb && HashOf(r) == b.hash
  {
    hide TaskOk, ActorOk, OneOwner, Owned, DepthOf, LatestLabel, StartedBound, RowsOk, RepliesOk;
  }

  // ---- handler

  lemma FindKeeps(cfg: Config, s: State, pid: Pid, req: Request)
    requires Inv(cfg, s) && pid in s.actors && s.actors[pid] == Finding(req)
    ensures Inv(cfg, ActFind(s, pid, req))
  {
    hide Inv, TaskOk, LatestLabel, Floor, DepthOf, Alone;
    Mine(cfg, s, pid);
    var s' := ActFind(s, pid, req);
    FindAnswerOk(cfg, s, req);
    hide FindAnswer, ReplyOk;
    match FindAnswer(s, req)
    case None => MoveThread(cfg, s, s', pid, Some(Peeking(req)));
    case Some(r) => MoveAnswer(cfg, s, s', pid, r);
  }

  lemma FindAnswerOk(cfg: Config, s: State, req: Request)
    requires Inv(cfg, s)
    ensures match FindAnswer(s, req)
      case None => true
      case Some(r) => ReplyOk(s, r)
  {
    hide Inv;
    if req.key in s.bindings { BindingFacts(cfg, s, req.key); }
  }

  lemma PeekKeeps(cfg: Config, s: State, pid: Pid, req: Request)
    requires Inv(cfg, s) && pid in s.actors && s.actors[pid] == Peeking(req)
    ensures Inv(cfg, ActPeek(cfg, s, pid, req))
  {
    hide Inv, TaskOk, LatestLabel, Floor, DepthOf, Alone, CommitsFirst, WellTimed, InRunOk;
    Mine(cfg, s, pid);
    var s' := ActPeek(cfg, s, pid, req);
    if pid !in s'.actors {
      MoveAnswer(cfg, s, s', pid, Rejected(req, true));
    } else {
      MoveThread(cfg, s, s', pid, Some(Creating(req)));
    }
  }

  lemma NobodyOnNew(cfg: Config, s: State, id: Id)
    requires Inv(cfg, s) && id !in s.tasks
    ensures forall q :: q in s.actors ==> Touch(s.actors[q]) != Some(id)
    ensures forall k :: k in s.bindings ==> s.bindings[k].taskId != id
    ensures SameDomains(s) && LatestLabel(s.outbox, id) == None
  {
    forall q | q in s.actors ensures Touch(s.actors[q]) != Some(id) {
      if Touch(s.actors[q]).Some? { TouchedExists(cfg, s, s.actors[q]); }
    }
    LatestIsARow(s.outbox, id);
  }

  lemma CreateKeeps(cfg: Config, s: State, pid: Pid, req: Request, id: Id)
    requires Inv(cfg, s) && pid in s.actors && s.actors[pid] == Creating(req) && id !in s.tasks
    ensures Inv(cfg, ActCreate(cfg, s, pid, req, id))
  {
    hide Inv, TaskOk, LatestLabel, Floor, DepthOf, Alone;
    Mine(cfg, s, pid);
    var s' := ActCreate(cfg, s, pid, req, id);
    if DepthOf(s.tasks) >= cfg.maxDepth {
      MoveAnswer(cfg, s, s', pid, Rejected(req, false));
    } else {
      Created(cfg, s, s', pid, req, id);
    }
  }

  lemma Created(cfg: Config, s: State, s': State, pid: Pid, req: Request, id: Id)
    requires Inv(cfg, s) && !s.booting && pid in s.actors && s.actors[pid] == Creating(req)
    requires id !in s.tasks && DepthOf(s.tasks) < cfg.maxDepth && s' == ActCreate(cfg, s, pid, req, id)
    ensures Inv(cfg, s')
  {
    hide Inv, TaskOk, LatestLabel, Floor, DepthOf, Alone;
    NobodyOnNew(cfg, s, id);
    CreatedShape(cfg, s, s', pid, req, id);
    CreatedIsGood(cfg, s, s', pid, req, id);
    hide OnlyTask, GoodFor, BindingsOk;
    TaskStep(cfg, s, s', pid, id, Some(Saving(req, id)));
  }

  lemma CreatedShape(cfg: Config, s: State, s': State, pid: Pid, req: Request, id: Id)
    requires Inv(cfg, s) && id !in s.tasks && DepthOf(s.tasks) < cfg.maxDepth
    requires s' == ActCreate(cfg, s, pid, req, id)
    ensures SameDomains(s') && OnlyTask(s, s', id) && BindingsOk(s')
  {
    hide Inv, TaskOk, LatestLabel, DepthOf, NewTask, RepliesOk, LogOk, StartedBound, BindingsOk;
    Tables(cfg, s);
    CreatedIsOnly(cfg, s, s', pid, req, id);
    CreatedBindings(s, s', id);
  }

  lemma CreatedIsOnly(cfg: Config, s: State, s': State, pid: Pid, req: Request, id: Id)
    requires SameDomains(s) && id !in s.tasks && DepthOf(s.tasks) < cfg.maxDepth
    requires s' == ActCreate(cfg, s, pid, req, id)
    ensures SameDomains(s') && OnlyTask(s, s', id)
  {
    hide DepthOf, NewTask;
    CreatedDomains(cfg, s, s', pid, req, id);
    var row := Row(id, Lifecycle(Accepted), 0);
    assert s'.outbox == s.outbox + [row];
  }

  lemma CreatedDomains(cfg: Config, s: State, s': State, pid: Pid, req: Request, id: Id)
    requires SameDomains(s) && id !in s.tasks && DepthOf(s.tasks) < cfg.maxDepth
    requires s' == ActCreate(cfg, s, pid, req, id)
    ensures SameDomains(s') && s'.tasks.Keys == s.tasks.Keys + {id}
    ensures forall j :: j in s.tasks ==>
      s'.tasks[j] == s.tasks[j] && s'.attempts[j] == s.attempts[j] && s'.stories[j] == s.stories[j]
  {
    hide DepthOf, NewTask, ActCreate;
    CreatedTables(cfg, s, s', pid, req, id);
  }

  lemma CreatedTables(cfg: Config, s: State, s': State, pid: Pid, req: Request, id: Id)
    requires DepthOf(s.tasks) < cfg.maxDepth && s' == ActCreate(cfg, s, pid, req, id)
    ensures s'.tasks == s.tasks[id := NewTask(req.verb, req.budget, s.now)]
    ensures s'.attempts == s.attempts[id := map[]] && s'.stories == s.stories[id := Story(Some(req), [], 0, 0)]
  {
    hide DepthOf, NewTask;
  }

  lemma CreatedBindings(s: State, s': State, id: Id)
    requires BindingsOk(s) && SameDomains(s) && id !in s.tasks
    requires s'.bindings == s.bindings && s'.tasks.Keys == s.tasks.Keys + {id}
    requires s'.stories.Keys == s.stories.Keys + {id} && forall j :: j in s.stories ==> s'.stories[j] == s.stories[j]
    ensures BindingsOk(s')
  {
    hide HashOf;
  }

  lemma CreatedIsGood(cfg: Config, s: State, s': State, pid: Pid, req: Request, id: Id)
    requires SameDomains(s) && !s.booting && id !in s.tasks && DepthOf(s.tasks) < cfg.maxDepth
    requires s' == ActCreate(cfg, s, pid, req, id) && SameDomains(s')
    ensures GoodFor(cfg, s, s', id)
  {
    hide TaskOk, DepthOf, Alone;
    NewTaskOk(cfg, req, s.now);
    var row := Row(id, Lifecycle(Accepted), 0);
    LatestAfterAppend(s.outbox, row);
    hide LatestLabel;
    forall r | s'.outbox == s.outbox + [r] ensures r == row {
      assert (s.outbox + [r])[|s.outbox|] == r;
    }
  }

  lemma BindKeeps(cfg: Config, s: State, s': State, pid: Pid, req: Request, id: Id)
    requires Inv(cfg, s) && pid in s.actors && s.actors[pid] == Saving(req, id) && !s.booting
    requires req.key != "" && req.key !in s.bindings
    requires s' == s.(bindings := s.bindings[req.key := Binding(req.verb, HashOf(req), id)],
                      actors := s.actors[pid := Accepting(req, id)])
    requires NewOf(s, req, id) && TaskOkAt(cfg, s, id)
    requires Alone(s, pid, id)
    ensures Inv(cfg, s')
  {
    hide Inv, TaskOk, LatestLabel, OnlyTask, GoodFor, BindingsOk, StartedBound, LogOk, RepliesOk, HashOf;
    Tables(cfg, s);
    BoundIsGood(cfg, s, s', id);
    TaskStep(cfg, s, s', pid, id, Some(Accepting(req, id)));
  }

  lemma BoundIsGood(cfg: Config, s: State, s': State, id: Id)
    requires SameDomains(s) && BindingsOk(s) && HasTask(s, id) && s.tasks[id].state == Accepted
    requires TaskOkAt(cfg, s, id) && s.stories[id].req.Some?
    requires var req := s.stories[id].req.value;
      && req.key != "" && req.key !in s.bindings
      && s' == s.(bindings := s.bindings[req.key := Binding(req.verb, HashOf(req), id)], actors := s'.actors)
    ensures SameDomains(s') && OnlyTask(s, s', id) && GoodFor(cfg, s, s', id) && BindingsOk(s')
  {
    hide TaskOk, LatestLabel, OnlyTask, BindingsOk;
    BoundIsOnly(s, s', id);
    BindingAdded(s, s', id);
    forall r ensures s'.outbox != s.outbox + [r] {
      assert |s.outbox + [r]| != |s.outbox|;
    }
  }

  lemma BoundIsOnly(s: State, s': State, id: Id)
    requires SameDomains(s) && HasTask(s, id) && s.stories[id].req.Some?
    requires var req := s.stories[id].req.value;
      && req.key != "" && req.key !in s.bindings
      && s' == s.(bindings := s.bindings[req.key := Binding(req.verb, HashOf(req), id)], actors := s'.actors)
    ensures OnlyTask(s, s', id)
  {
    hide HashOf;
  }

  lemma BindingAdded(s: State, s': State, id: Id)
    requires BindingsOk(s) && HasTask(s, id) && s.stories[id].req.Some?
    requires var req := s.stories[id].req.value;
      && req.key != "" && req.key !in s.bindings
      && s' == s.(bindings := s.bindings[req.key := Binding(req.verb, HashOf(req), id)], actors := s'.actors)
    ensures BindingsOk(s')
  {
    hide HashOf;
  }

  lemma SaveKeeps(cfg: Config, s: State, pid: Pid, req: Request, id: Id)
    requires Inv(cfg, s) && pid in s.actors && s.actors[pid] == Saving(req, id)
    ensures Inv(cfg, ActSave(s, pid, req, id))
  {
    hide Inv, TaskOk, LatestLabel, Floor, DepthOf, Alone;
    Mine(cfg, s, pid);
    var s' := ActSave(s, pid, req, id);
    if req.key == "" {
      MoveThread(cfg, s, s', pid, Some(Accepting(req, id)));
    } else if req.key in s.bindings {
      MoveThread(cfg, s, s', pid, Some(Refinding(req, id)));
    } else {
      BindKeeps(cfg, s, s', pid, req, id);
    }
  }

  lemma RefindKeeps(cfg: Config, s: State, pid: Pid, req: Request, id: Id)
    requires Inv(cfg, s) && pid in s.actors && s.actors[pid] == Refinding(req, id)
    ensures Inv(cfg, ActRefind(s, pid, req, id))
  {
    hide Inv, TaskOk, LatestLabel, Floor, DepthOf, Alone;
    Mine(cfg, s, pid);
    MoveThread(cfg, s, ActRefind(s, pid, req, id), pid, Some(Canceling(req, id, s.bindings[req.key].taskId)));
  }

  lemma CancelKeeps(cfg: Config, s: State, pid: Pid, req: Request, id: Id, win: Id)
    requires Inv(cfg, s) && pid in s.actors && s.actors[pid] == Canceling(req, id, win) && HasTask(s, id)
    ensures Inv(cfg, ActCancel(s, pid, req, id, win))
  {
    hide Inv, TaskOk, LatestLabel, Floor, DepthOf, Alone;
    Mine(cfg, s, pid);
    var t, att, h := s.tasks[id], s.attempts[id], s.stories[id];
    SupersededOk(cfg, t, att, h, LatestLabel(s.outbox, id), s.now);
    MoveAudited(cfg, s, pid, id, Superseded(t, s.now), Lifecycle(Canceled), 0,
                Some(Replaying(req, id, win)));
  }

  lemma ReplayKeeps(cfg: Config, s: State, pid: Pid, req: Request, id: Id, win: Id)
    requires Inv(cfg, s) && pid in s.actors && s.actors[pid] == Replaying(req, id, win)
    ensures Inv(cfg, ActReplay(s, pid, req, id, win))
  {
    hide Inv, TaskOk, LatestLabel, Floor, DepthOf, Alone;
    Mine(cfg, s, pid);
    BindingFacts(cfg, s, req.key);
    MoveAnswer(cfg, s, ActReplay(s, pid, req, id, win), pid, Replay(req, win, false));
  }

  lemma AcceptKeeps(cfg: Config, s: State, pid: Pid, req: Request, id: Id)
    requires Inv(cfg, s) && pid in s.actors && s.actors[pid] == Accepting(req, id) && HasTask(s, id)
    ensures Inv(cfg, ActAccept(s, pid, req, id))
  {
    hide Inv, TaskOk, LatestLabel, Floor, DepthOf, Alone;
    Mine(cfg, s, pid);
    var t, att, h := s.tasks[id], s.attempts[id], s.stories[id];
    TouchedOk(cfg, t, att, h, LatestLabel(s.outbox, id), s.now);
    MoveAudited(cfg, s, pid, id, Touched(t, s.now), Lifecycle(Accepted), 0,
                Some(HandingOff(req, id)));
  }

  lemma QueueKeeps(cfg: Config, s: State, pid: Pid, req: Request, id: Id)
    requires Inv(cfg, s) && pid in s.actors && s.actors[pid] == HandingOff(req, id) && !cfg.syncExec && HasTask(s, id)
    ensures Inv(cfg, ActHandOff(cfg, s, pid, req, id))
  {
    hide Inv, TaskOk, LatestLabel, Floor, DepthOf, Alone;
    Mine(cfg, s, pid);
    var t, att, h := s.tasks[id], s.attempts[id], s.stories[id];
    AdmittedOk(cfg, t, att, h, LatestLabel(s.outbox, id), s.now);
    MoveAudited(cfg, s, pid, id, HandedOff(t, s.now), Lifecycle(Pending), 0,
                None);
  }

  lemma InlineKeeps(cfg: Config, s: State, pid: Pid, req: Request, id: Id)
    requires Inv(cfg, s) && pid in s.actors && s.actors[pid] == HandingOff(req, id) && cfg.syncExec && HasTask(s, id)
    ensures Inv(cfg, ActHandOff(cfg, s, pid, req, id))
  {
    hide Inv, TaskOk, LatestLabel, Floor, DepthOf, Alone, Past;
    Mine(cfg, s, pid);
    var t, att, h := s.tasks[id], s.attempts[id], s.stories[id];
    AdmittedOk(cfg, t, att, h, LatestLabel(s.outbox, id), s.now);
    MoveAudited(cfg, s, pid, id, InlineStarted(t, s.now), Lifecycle(Executing), 0,
                Some(InRun(Exec(id, req.verb, req.trip, 0, req.budget, true), Spawning(s.now))));
  }

  // ---- worker

  lemma SelectKeeps(cfg: Config, s: State, pid: Pid, at: int, tries: nat, found: Option<Id>)
    requires Inv(cfg, s) && pid in s.actors && s.actors[pid] == Selecting(at, tries)
    ensures Inv(cfg, ActSelect(s, pid, at, tries, found))
  {
    hide Inv, TaskOk, LatestLabel, Floor, DepthOf, Alone;
    Mine(cfg, s, pid);
    MoveThread(cfg, s, ActSelect(s, pid, at, tries, found), pid,
               if found.Some? then Some(Claiming(found.value, at, tries)) else None);
  }

  /** A task somebody works on is never claimable. */
  lemma OwnerMeansBusy(cfg: Config, s: State, a: Actor)
    requires ActorOk(cfg, s, a) && Touch(a).Some?
    ensures Touch(a).value in s.tasks
    ensures s.tasks[Touch(a).value].state != Pending && s.tasks[Touch(a).value].state != RetryScheduled
  {
  }

  lemma NobodyOnClaimable(cfg: Config, s: State, id: Id, at: int)
    requires Inv(cfg, s) && id in s.tasks && Claimable(s.tasks[id], cfg.due, at)
    ensures forall p :: Alone(s, p, id)
    ensures HasTask(s, id) && TaskOkAt(cfg, s, id)
  {
    forall q | q in s.actors ensures Touch(s.actors[q]) != Some(id) {
      if Touch(s.actors[q]).Some? { OwnerMeansBusy(cfg, s, s.actors[q]); }
    }
  }

  lemma ClaimWon(cfg: Config, s: State, pid: Pid, cand: Id, at: int, tries: nat)
    requires Inv(cfg, s) && pid in s.actors && s.actors[pid] == Claiming(cand, at, tries)
    requires !s.booting && WellTimed(cfg)
    requires at <= s.now && cand in s.tasks && Claimable(s.tasks[cand], cfg.due, at)
    ensures Inv(cfg, ActClaim(cfg, s, pid, cand, at, tries))
  {
    hide Inv, TaskOk, LatestLabel, Floor, DepthOf, Alone;
    var s' := ActClaim(cfg, s, pid, cand, at, tries);
    NobodyOnClaimable(cfg, s, cand, at);
    var t, att, h := s.tasks[cand], s.attempts[cand], s.stories[cand];
    ClaimedOk(cfg, t, att, h, LatestLabel(s.outbox, cand), s.now, at);
    MoveTask(cfg, s, s', pid, cand, Change(Claimed(t, s.now), att, h, None), Some(ReadingBack(cand)));
  }

  lemma ClaimKeeps(cfg: Config, s: State, pid: Pid, cand: Id, at: int, tries: nat)
    requires Inv(cfg, s) && pid in s.actors && s.actors[pid] == Claiming(cand, at, tries)
    ensures Inv(cfg, ActClaim(cfg, s, pid, cand, at, tries))
  {
    hide Inv, TaskOk, LatestLabel, Floor, DepthOf, Alone;
    Mine(cfg, s, pid);
    var s' := ActClaim(cfg, s, pid, cand, at, tries);
    if cand in s.tasks && Claimable(s.tasks[cand], cfg.due, at) {
      ClaimWon(cfg, s, pid, cand, at, tries);
    } else {
      MoveThread(cfg, s, s', pid, if tries + 1 < CLAIM_TRIES then Some(Selecting(at, tries + 1)) else None);
    }
  }

  lemma ReadBackKeeps(cfg: Config, s: State, pid: Pid, id: Id)
    requires Inv(cfg, s) && pid in s.actors && s.actors[pid] == ReadingBack(id) && HasTask(s, id)
    ensures Inv(cfg, ActReadBack(s, pid, id))
  {
    hide Inv, TaskOk, LatestLabel, Floor, DepthOf, Alone;
    Mine(cfg, s, pid);
    MoveThread(cfg, s, ActReadBack(s, pid, id), pid, Some(Gating(id, s.tasks[id])));
  }

  lemma GateKeeps(cfg: Config, s: State, pid: Pid, id: Id, snap: Task)
    requires Inv(cfg, s) && pid in s.actors && s.actors[pid] == Gating(id, snap) && HasTask(s, id)
    ensures Inv(cfg, ActGate(cfg, s, pid, id, snap))
  {
    hide Inv, TaskOk, LatestLabel, ActGate, FreeAt;
    Mine(cfg, s, pid);
    if snap.verb !in s.catalog {
      UnknownKeeps(cfg, s, pid, id, snap);
    } else {
      ReadyOk(cfg, s.tasks[id], s.attempts[id], s.stories[id], LatestLabel(s.outbox, id), s.now);
      var breakers, a := GatePasses(cfg, s, pid, id, snap);
      MoveThread(cfg, s, ActGate(cfg, s, pid, id, snap), pid, Some(a));
    }
  }

  lemma GatePasses(cfg: Config, s: State, pid: Pid, id: Id, snap: Task)
      returns (breakers: map<string, B.Cell>, a: Actor)
    requires id in s.tasks && snap.verb in s.catalog
    ensures a == Launching(id, snap, s.now) || a == Refused(id, snap)
    ensures ActGate(cfg, s, pid, id, snap) == s.(breakers := breakers, actors := s.actors[pid := a])
  {
    hide CellFor, B.AfterAllow, B.AllowResult;
    var s' := ActGate(cfg, s, pid, id, snap);
    breakers, a := s'.breakers, s'.actors[pid];
  }

  lemma GateGivesUp(cfg: Config, s: State, pid: Pid, id: Id, snap: Task)
    requires id in s.tasks && snap.verb !in s.catalog
    ensures ActGate(cfg, s, pid, id, snap)
         == Done(UpdateAndAudit(s, id, UnknownVerb(s.tasks[id], s.now), Lifecycle(Exhausted), 0), pid)
  {
  }

  lemma UnknownKeeps(cfg: Config, s: State, pid: Pid, id: Id, snap: Task)
    requires Inv(cfg, s) && pid in s.actors && s.actors[pid] == Gating(id, snap) && snap.verb !in s.catalog
    requires HasTask(s, id)
    ensures Inv(cfg, ActGate(cfg, s, pid, id, snap))
  {
    hide Inv, TaskOk, LatestLabel, Alone, FreeAt, ActGate, LeftInOrder;
    Mine(cfg, s, pid);
    GateGivesUp(cfg, s, pid, id, snap);
    LetGoInOrder(cfg, s, ActGate(cfg, s, pid, id, snap), id, UnknownVerb(s.tasks[id], s.now));
    UnknownVerbOk(cfg, s.tasks[id], s.attempts[id], s.stories[id], LatestLabel(s.outbox, id), s.now);
    MoveAudited(cfg, s, pid, id, UnknownVerb(s.tasks[id], s.now), Lifecycle(Exhausted), 0, None);
  }

  lemma RefuseKeeps(cfg: Config, s: State, pid: Pid, id: Id, snap: Task, at: int)
    requires Inv(cfg, s) && pid in s.actors && s.actors[pid] == Refused(id, snap) && HasTask(s, id)
    ensures Inv(cfg, ActRefuse(s, pid, id, at))
  {
    hide Inv, TaskOk, LatestLabel, Floor, DepthOf, Alone;
    Mine(cfg, s, pid);
    var t, att, h := s.tasks[id], s.attempts[id], s.stories[id];
    RequeuedOk(cfg, t, att, h, LatestLabel(s.outbox, id), s.now, at + SECOND);
    MoveAudited(cfg, s, pid, id, Requeued(t, at + SECOND, s.now), CircuitOpen, 0,
                None);
  }

  lemma LaunchKeeps(cfg: Config, s: State, pid: Pid, id: Id, snap: Task, since: int, at: int)
    requires Inv(cfg, s) && pid in s.actors && s.actors[pid] == Launching(id, snap, since) && HasTask(s, id)
    requires since <= at <= s.now
    ensures Inv(cfg, ActLaunch(cfg, s, pid, id, snap, at))
  {
    hide Inv, TaskOk, LatestLabel, Floor, DepthOf, Alone, TerminalLabel, WellTimed;
    Mine(cfg, s, pid);
    var t, att, h := s.tasks[id], s.attempts[id], s.stories[id];
    MarkedOk(cfg, t, att, h, LatestLabel(s.outbox, id), s.now);
    MoveAudited(cfg, s, pid, id, Marked(t, s.now), Lifecycle(Executing), snap.attempt,
                Some(ActLaunch(cfg, s, pid, id, snap, at).actors[pid]));
  }

  // ---- run

  lemma SpawnKeeps(cfg: Config, s: State, pid: Pid, x: Exec, start: int)
    requires Inv(cfg, s) && pid in s.actors && s.actors[pid] == InRun(x, Spawning(start)) && HasTask(s, x.id)
    ensures Inv(cfg, ActSpawn(s, pid, x, start))
  {
    hide Inv, TaskOk, LatestLabel, Floor, DepthOf, Alone;
    Mine(cfg, s, pid);
    var t, att, h := s.tasks[x.id], s.attempts[x.id], s.stories[x.id];
    var begun := BegunAt(s, x, start);
    SpawnedOk(cfg, t, att, h, LatestLabel(s.outbox, x.id), s.now, begun, x.inline);
    MoveStory(cfg, s, pid, x.id, h.(runs := h.runs + [RunRecord(x.n, begun, x.inline, None, None)]),
              Some(InRun(x, Running(begun))));
  }

  lemma EndKeeps(cfg: Config, s: State, pid: Pid, x: Exec, start: int, out: Outcome)
    requires Inv(cfg, s) && pid in s.actors && s.actors[pid] == InRun(x, Running(start)) && HasTask(s, x.id)
    ensures Inv(cfg, ActEnd(s, pid, x, start, out))
  {
    hide Inv, TaskOk, LatestLabel, Floor, DepthOf, Alone;
    Mine(cfg, s, pid);
    var t, att, h := s.tasks[x.id], s.attempts[x.id], s.stories[x.id];
    EndedOk(cfg, t, att, h, LatestLabel(s.outbox, x.id), s.now, out);
    hide Ended;
    MoveStory(cfg, s, pid, x.id, h.(runs := Ended(h.runs, s.now, out)), Some(InRun(x, Ran(start, s.now, out))));
  }

  lemma RecordKeeps(cfg: Config, s: State, pid: Pid, x: Exec, start: int, end: int, out: Outcome)
    requires Inv(cfg, s) && pid in s.actors && s.actors[pid] == InRun(x, Ran(start, end, out)) && HasTask(s, x.id)
    ensures Inv(cfg, ActRecord(s, pid, x, start, end, out))
  {
    hide Inv, TaskOk, LatestLabel, FreeAt, Past, Alone, LeftInOrder;
    Mine(cfg, s, pid);
    var t, att, h := s.tasks[x.id], s.attempts[x.id], s.stories[x.id];
    RecordedOk(cfg, t, att, h, LatestLabel(s.outbox, x.id), s.now, Attempt(start, end, out));
    var a := InRun(x, Recorded(end, out));
    RunsOnInOrder(cfg, s, ActRecord(s, pid, x, start, end, out), x.id, a);
    MoveAttempt(cfg, s, pid, x.id, if x.n in att then att else att[x.n := Attempt(start, end, out)], Some(a));
  }

  lemma JudgeKeeps(cfg: Config, s: State, pid: Pid, x: Exec, end: int, out: Outcome)
    requires Inv(cfg, s) && pid in s.actors && s.actors[pid] == InRun(x, Recorded(end, out)) && !CommitsFirst(x, out)
    ensures Inv(cfg, ActJudge(cfg, s, pid, x, end, out))
  {
    hide Inv, TaskOk, LatestLabel, Floor, DepthOf, Alone, CommitsFirst, Past, WellTimed;
    Mine(cfg, s, pid);
    MoveThread(cfg, s, ActJudge(cfg, s, pid, x, end, out), pid, Some(InRun(x, Judged(end, out))));
  }

  lemma FinishKeeps(cfg: Config, s: State, pid: Pid, x: Exec, ph: Phase)
    requires Inv(cfg, s) && pid in s.actors && s.actors[pid] == InRun(x, ph) && (ph.Recorded? || ph.Judged?)
    requires HasTask(s, x.id)
    ensures Inv(cfg, ActFinish(s, pid, x))
  {
    hide Inv, TaskOk, LatestLabel, Floor, DepthOf, Alone;
    Mine(cfg, s, pid);
    var t, att, h := s.tasks[x.id], s.attempts[x.id], s.stories[x.id];
    FinishedOk(cfg, t, att, h, LatestLabel(s.outbox, x.id), s.now);
    MoveAudited(cfg, s, pid, x.id, Finished(t, s.now), Lifecycle(Executed), x.n,
                if x.inline then None else Some(Praising(x.verb, x.trip)));
  }

  lemma DelayReachesFloor(cfg: Config, inline: bool, n: nat, word: nat)
    ensures DelayFor(cfg, inline, n, word) >= Floor(cfg, n)
  {
    var base := if cfg.base == 0 && !inline then SECOND else cfg.base;
    Backoff.ScheduledMonotone(cfg.base, base, n, n, Backoff.MAX_DELAY);
    Backoff.ScheduledRange(base, n, Backoff.MAX_DELAY);
    assert 0 <= Backoff.Jitter(Backoff.MAX_JITTER, word) < Backoff.MAX_JITTER;
  }

  /** What a thread with a failed run knows of its task; either path gives up only
      when nothing is left of the budget. */
  lemma JudgedFacts(cfg: Config, s: State, pid: Pid, x: Exec, end: int, out: Outcome)
    requires Inv(cfg, s) && pid in s.actors && s.actors[pid] == InRun(x, Judged(end, out)) && HasTask(s, x.id)
    ensures !s.booting && WellTimed(cfg) && TaskOkAt(cfg, s, x.id)
    ensures var t := s.tasks[x.id];
      && t.state == Executing && t.attempt == x.n && t.attempt in s.attempts[x.id]
      && Past(s.stories[x.id].runs, x.n, end)
      && (if x.n >= x.limit then t.attempt >= EffectiveMax(cfg, t) || (t.attempt == 0 && t.maxRetries == 0)
          else t.attempt < EffectiveMax(cfg, t))
  {
    hide Inv, TaskOk, LatestLabel, FreeAt, Alone;
    Mine(cfg, s, pid);
  }

  lemma FailGivesUp(cfg: Config, s: State, pid: Pid, x: Exec, out: Outcome, inp: Input)
    requires x.id in s.tasks && x.n >= x.limit
    ensures ActFail(cfg, s, pid, x, out, inp) ==
      To(UpdateAndAudit(s, x.id, GivenUp(s.tasks[x.id], out, inp.err, s.now), Lifecycle(Exhausted), x.n),
         pid, Notifying(x.id))
  {
  }

  lemma GiveUpKeeps(cfg: Config, s: State, pid: Pid, x: Exec, end: int, out: Outcome, inp: Input)
    requires Inv(cfg, s) && pid in s.actors && s.actors[pid] == InRun(x, Judged(end, out)) && x.n >= x.limit
    requires HasTask(s, x.id)
    ensures Inv(cfg, ActFail(cfg, s, pid, x, out, inp))
  {
    hide Inv, TaskOk, LatestLabel, InRunOk, Past, EffectiveMax, ActFail, LeftInOrder, FreeAt, BoundTo, ActorOk,
         UpdateAndAudit, Terminal, WellTimed, NeedsOwner, TerminalLabel;
    JudgedFacts(cfg, s, pid, x, end, out);
    var t, att, h := s.tasks[x.id], s.attempts[x.id], s.stories[x.id];
    var t' := GivenUp(t, out, inp.err, s.now);
    GivenUpOk(cfg, t, att, h, LatestLabel(s.outbox, x.id), s.now, out, inp.err);
    FailGivesUp(cfg, s, pid, x, out, inp);
    NoticeIsDue(cfg, s, pid, x, t');
    MoveAudited(cfg, s, pid, x.id, t', Lifecycle(Exhausted), x.n, Some(Notifying(x.id)));
  }

  lemma NoticeIsDue(cfg: Config, s: State, pid: Pid, x: Exec, t: Task)
    requires HasTask(s, x.id) && s.tasks[x.id].state == Executing
    requires s.stories[x.id].notices == 0 && t.state == Exhausted
    ensures var a := Some(Notifying(x.id));
      LeftInOrder(cfg, s, Onward(UpdateAndAudit(s, x.id, t, Lifecycle(Exhausted), x.n), pid, a), x.id, t, a)
  {
  }

  lemma FailRetries(cfg: Config, s: State, pid: Pid, x: Exec, out: Outcome, inp: Input)
    requires x.id in s.tasks && x.n < x.limit
    ensures var next := inp.at + DelayFor(cfg, x.inline, x.n, inp.word);
      ActFail(cfg, s, pid, x, out, inp) ==
      Done(UpdateAndAudit(s, x.id, RetryLater(s.tasks[x.id], x.n, next, out, inp.err, s.now), WillRetry, x.n), pid)
  {
    hide DelayFor;
  }

  lemma RetryKeeps(cfg: Config, s: State, pid: Pid, x: Exec, end: int, out: Outcome, inp: Input)
    requires Inv(cfg, s) && pid in s.actors && s.actors[pid] == InRun(x, Judged(end, out)) && x.n < x.limit
    requires HasTask(s, x.id) && end <= inp.at <= s.now
    ensures Inv(cfg, ActFail(cfg, s, pid, x, out, inp))
  {
    hide Inv, TaskOk, LatestLabel, InRunOk, Past, EffectiveMax, Floor, DelayFor, ActFail, LeftInOrder, FreeAt,
         Terminal, BoundTo, UpdateAndAudit;
    JudgedFacts(cfg, s, pid, x, end, out);
    var t, att, h := s.tasks[x.id], s.attempts[x.id], s.stories[x.id];
    var next := inp.at + DelayFor(cfg, x.inline, x.n, inp.word);
    DelayReachesFloor(cfg, x.inline, x.n, inp.word);
    RetryLaterOk(cfg, t, att, h, LatestLabel(s.outbox, x.id), s.now, end, next, out, inp.err);
    FailRetries(cfg, s, pid, x, out, inp);
    LetGoInOrder(cfg, s, ActFail(cfg, s, pid, x, out, inp), x.id, RetryLater(t, x.n, next, out, inp.err, s.now));
    MoveAudited(cfg, s, pid, x.id, RetryLater(t, x.n, next, out, inp.err, s.now), WillRetry, x.n, None);
  }

  lemma PraiseKeeps(cfg: Config, s: State, pid: Pid, verb: string, trip: int)
    requires Inv(cfg, s) && pid in s.actors && s.actors[pid] == Praising(verb, trip)
    ensures Inv(cfg, Done(Praise(cfg, s, verb, trip), pid))
  {
    hide Inv, TaskOk, LatestLabel, Floor, DepthOf, Alone;
    Mine(cfg, s, pid);
    MoveThread(cfg, s, Done(Praise(cfg, s, verb, trip), pid), pid, None);
  }

  lemma NotifyShape(s: State, pid: Pid, id: Id)
    requires HasTask(s, id)
    ensures var h := s.stories[id];
      ActNotify(s, pid, id) == Onward(s.(stories := s.stories[id := h.(notices := h.notices + 1)]), pid, None)
  {
  }

  lemma NotifyKeeps(cfg: Config, s: State, pid: Pid, id: Id)
    requires Inv(cfg, s) && pid in s.actors && s.actors[pid] == Notifying(id) && HasTask(s, id)
    ensures Inv(cfg, ActNotify(s, pid, id))
  {
    hide Inv, TaskOk, LatestLabel, Alone, ActNotify, Onward;
    Mine(cfg, s, pid);
    NotifyShape(s, pid, id);
    var h := s.stories[id];
    NotifiedOk(cfg, s.tasks[id], s.attempts[id], h, LatestLabel(s.outbox, id), s.now);
    MoveStory(cfg, s, pid, id, h.(notices := h.notices + 1), None);
  }

  // ---- drainer

  lemma DrainKeeps(cfg: Config, s: State, pid: Pid, batch: seq<nat>, logged: bool)
    requires Inv(cfg, s) && pid in s.actors && s.actors[pid] == Draining(batch, logged)
    ensures Inv(cfg, ActDrain(s, pid, batch, logged))
  {
    hide Inv, TaskOk, LatestLabel, Alone, BindingsOk, StartedBound, RepliesOk, NoTaskTouched, InRunOk;
    Mine(cfg, s, pid);
    Tables(cfg, s);
    DrainTouchesNone(s, pid, batch, logged);
    if batch == [] {
      MoveDrainer(cfg, s, Done(s, pid), pid, None);
    } else if !logged {
      MoveDrainer(cfg, s, ActDrain(s, pid, batch, logged), pid, Some(Draining(batch, true)));
    } else {
      MoveDrainer(cfg, s, ActDrain(s, pid, batch, logged), pid, Some(Draining(batch[1..], false)));
    }
  }

  lemma DrainTouchesNone(s: State, pid: Pid, batch: seq<nat>, logged: bool)
    ensures NoTaskTouched(s, ActDrain(s, pid, batch, logged))
  {
    if batch == [] { } else if logged { } else { }
  }

  /** A drainer moves: only the file, the written marks and its own place change. */
  lemma MoveDrainer(cfg: Config, s: State, s': State, pid: Pid, a: Option<Actor>)
    requires Inv(cfg, s) && !s.booting && pid in s.actors && Touch(s.actors[pid]) == None
    requires NoTaskTouched(s, s') && ThreadMoves(s, s', pid, a) && s'.replies == s.replies && LogOk(s')
    requires a.Some? ==> Touch(a.value) == None && ActorOk(cfg, s', a.value)
    ensures Inv(cfg, s')
  {
    hide Inv, TaskOk, LatestLabel, DepthOf, ActorOk, LogOk, BindingsOk, StartedBound;
    Tables(cfg, s);
    assert RepliesOk(s') by {
      forall i | 0 <= i < |s'.replies| ensures ReplyOk(s', s'.replies[i]) { assert ReplyOk(s, s.replies[i]); }
    }
    QuietStep(cfg, s, s', pid, a);
  }
}
