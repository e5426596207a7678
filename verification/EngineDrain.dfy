/** Draining: how many executions a run can complete, and why a quiet queue that
    is not empty can always go on. */
module EngineDrain {
  import opened Tasks
  import opened Engine
  import opened EngineInv
  import opened EngineFoot
  import opened EngineSteps
  import opened EngineRuns

  /** Executions a task may still complete. */
  function Weight(cfg: Config, t: Task): nat {
    if Active(t.state) && t.attempt <= EffectiveMax(cfg, t) then EffectiveMax(cfg, t) - t.attempt + 1 else 0
  }

  ghost function Potential(cfg: Config, tasks: map<Id, Task>): nat
    decreases |tasks|
  {
    if tasks == map[] then 0
    else
      var id :| id in tasks;
      Weight(cfg, tasks[id]) + Potential(cfg, tasks - {id})
  }

  lemma {:induction false} PotentialWithout(cfg: Config, tasks: map<Id, Task>, id: Id)
    requires id in tasks
    ensures Potential(cfg, tasks) == Weight(cfg, tasks[id]) + Potential(cfg, tasks - {id})
    decreases |tasks|
  {
    var x: Id :| x in tasks && Potential(cfg, tasks) == Weight(cfg, tasks[x]) + Potential(cfg, tasks - {x});
    if x != id {
      PotentialWithout(cfg, tasks - {x}, id);
      PotentialWithout(cfg, tasks - {id}, x);
      assert tasks - {x} - {id} == tasks - {id} - {x};
    }
  }

  lemma PotentialAfterWrite(cfg: Config, tasks: map<Id, Task>, id: Id, t: Task)
    ensures Potential(cfg, tasks[id := t]) + (if id in tasks then Weight(cfg, tasks[id]) else 0)
         == Potential(cfg, tasks) + Weight(cfg, t)
  {
    PotentialWithout(cfg, tasks[id := t], id);
    if id in tasks {
      PotentialWithout(cfg, tasks, id);
      assert tasks[id := t] - {id} == tasks - {id};
    } else {
      assert tasks[id := t] - {id} == tasks;
    }
  }

  /** The step commits the outcome of an execution. */
  predicate Completes(s: State, step: Step) {
    step.Act? && step.pid in s.actors &&
    match s.actors[step.pid]
    case Gating(_, snap) => snap.verb !in s.catalog
    case InRun(x, ph) => ph.Judged? || (ph.Recorded? && CommitsFirst(x, ph.out))
    case _ => false
  }

  /** Executions the step lets in: those of a task it creates. */
  function Admits(cfg: Config, s: State, step: Step): nat {
    if step.Act? && step.pid in s.actors && s.actors[step.pid].Creating? && DepthOf(s.tasks) < cfg.maxDepth
    then var req := s.actors[step.pid].req; Weight(cfg, NewTask(req.verb, req.budget, s.now))
    else 0
  }

  lemma WriteBalance(cfg: Config, s: State, pid: Pid, inp: Input)
    requires Inv(cfg, s) && pid in s.actors && ActEnabled(cfg, s, s.actors[pid], inp)
    ensures var a := s.actors[pid];
      var i, w := Target(cfg, s, a, inp), Written(cfg, s, a, inp);
      if w == None then !Completes(s, Act(pid, inp))
      else if a.Creating? then i.Some? && i.value !in s.tasks
      else
        && i.Some? && i.value in s.tasks
        && Weight(cfg, w.value) + (if Completes(s, Act(pid, inp)) then 1 else 0) <= Weight(cfg, s.tasks[i.value])
  {
    hide Inv, TaskOk, LatestLabel, FreeAt, DelayFor, DepthOf;
    Mine(cfg, s, pid);
    WithinBudget(cfg, s, pid);
  }

  lemma WithinBudget(cfg: Config, s: State, pid: Pid)
    requires Inv(cfg, s) && pid in s.actors
    ensures Touch(s.actors[pid]).Some? ==>
      var id := Touch(s.actors[pid]).value;
      && id in s.tasks && s.tasks[id].attempt <= EffectiveMax(cfg, s.tasks[id])
      && (s.tasks[id].state == Accepted ==> s.tasks[id].attempt == 0)
  {
    hide Inv, LatestLabel, Spaced, Past, FreeAt, FreeAtOrNow, AttemptsExact, RunsCounted, ActorOk;
    Mine(cfg, s, pid);
  }

  lemma ActBalance(cfg: Config, s: State, pid: Pid, inp: Input)
    requires Inv(cfg, s) && pid in s.actors && ActEnabled(cfg, s, s.actors[pid], inp)
    ensures var step := Act(pid, inp);
      Potential(cfg, DoAct(cfg, s, pid, s.actors[pid], inp).tasks) + (if Completes(s, step) then 1 else 0)
      <= Potential(cfg, s.tasks) + Admits(cfg, s, step)
  {
    hide Inv, TaskOk, LatestLabel, DoAct, DepthOf, ActorOk, Weight, DelayFor;
    ActFoot(cfg, s, pid, inp);
    WriteBalance(cfg, s, pid, inp);
    var i, w := Target(cfg, s, s.actors[pid], inp), Written(cfg, s, s.actors[pid], inp);
    if i.Some? && w.Some? { PotentialAfterWrite(cfg, s.tasks, i.value, w.value); }
  }

  lemma StepBalance(cfg: Config, s: State, step: Step)
    requires Inv(cfg, s) && Enabled(cfg, s, step)
    ensures Potential(cfg, Do(cfg, s, step).tasks) + (if Completes(s, step) then 1 else 0)
         <= Potential(cfg, s.tasks) + Admits(cfg, s, step)
  {
    hide Inv, TaskOk, LatestLabel, DoAct, DepthOf, ActorOk, HasTask, CommitsFirst, Potential, ActDrain;
    match step
    case Act(pid, inp) => ActBalance(cfg, s, pid, inp);
    case ResumeExecuting(id) => PotentialAfterWrite(cfg, s.tasks, id, Resumed(s.tasks[id], s.now));
    case CancelLeftover(id) => PotentialAfterWrite(cfg, s.tasks, id, CanceledOnRestart(s.tasks[id], s.now));
    case _ =>
  }

  ghost function Completed(cfg: Config, init: State, steps: seq<Step>): nat
    requires Valid(cfg, init, steps)
    decreases |steps|
  {
    if steps == [] then 0
    else
      var before := steps[..|steps| - 1];
      Completed(cfg, init, before) + (if Completes(After(cfg, init, before), steps[|steps| - 1]) then 1 else 0)
  }

  ghost function Admitted(cfg: Config, init: State, steps: seq<Step>): nat
    requires Valid(cfg, init, steps)
    decreases |steps|
  {
    if steps == [] then 0
    else
      var before := steps[..|steps| - 1];
      Admitted(cfg, init, before) + Admits(cfg, After(cfg, init, before), steps[|steps| - 1])
  }

  /** Over any run, crashes included: executions completed plus executions still
      owed never exceed what was owed at the start plus what was let in. With no
      new posts the queue's work is bounded by its potential. */
  lemma {:induction false} WorkIsBounded(cfg: Config, init: State, steps: seq<Step>)
    requires Inv(cfg, init) && Valid(cfg, init, steps)
    ensures Completed(cfg, init, steps) + Potential(cfg, After(cfg, init, steps).tasks)
         <= Potential(cfg, init.tasks) + Admitted(cfg, init, steps)
  {
    hide Inv, Do, Completes, Admits;
    if steps != [] {
      var before := steps[..|steps| - 1];
      WorkIsBounded(cfg, init, before);
      RunKeeps(cfg, init, before);
      StepBalance(cfg, After(cfg, init, before), steps[|steps| - 1]);
    }
  }

  /** A task put back because its circuit is open still owes as much as before: its
      attempt number stands, no attempt is recorded, and it waits one second from
      the clock its thread has read. */
  lemma RequeueOwesTheSame(cfg: Config, s: State, pid: Pid, inp: Input)
    requires Inv(cfg, s) && pid in s.actors && s.actors[pid].Refused? && ActEnabled(cfg, s, s.actors[pid], inp)
    ensures var id, s' := s.actors[pid].id, DoAct(cfg, s, pid, s.actors[pid], inp);
      && Potential(cfg, s'.tasks) == Potential(cfg, s.tasks) && s'.attempts == s.attempts && s'.stories == s.stories
      && s'.tasks[id].state == RetryScheduled && s'.tasks[id].attempt == s.tasks[id].attempt
      && s'.tasks[id].nextRunAt == Some(inp.at + 1_000_000_000)
  {
    hide Inv, TaskOk, LatestLabel, DepthOf, ActorOk, Potential, Weight;
    var id := s.actors[pid].id;
    SameWeight(cfg, s, pid, inp.at + SECOND);
    PotentialAfterWrite(cfg, s.tasks, id, Requeued(s.tasks[id], inp.at + SECOND, s.now));
  }

  lemma SameWeight(cfg: Config, s: State, pid: Pid, next: int)
    requires Inv(cfg, s) && pid in s.actors && s.actors[pid].Refused?
    ensures var id := s.actors[pid].id;
      id in s.tasks && Weight(cfg, Requeued(s.tasks[id], next, s.now)) == Weight(cfg, s.tasks[id])
  {
    hide Inv, TaskOk, LatestLabel;
    Mine(cfg, s, pid);
  }

  /** What a task owes: as many executions as attempts are left to the limit that
      counts on the worker path, the present one included, and none once it is
      over. */
  lemma OwedExactly(cfg: Config, s: State, id: Id)
    requires Inv(cfg, s) && id in s.tasks
    ensures var t := s.tasks[id];
      var limit := if t.maxRetries > 0 then t.maxRetries else cfg.maxRetries;
      Weight(cfg, t) == if Terminal(t.state) then 0 else limit + 1 - t.attempt
  {
    hide ActorOk, LatestLabel, Spaced, Past, FreeAt, FreeAtOrNow, AttemptsExact, RunsCounted, DepthOf;
    assert TaskOkAt(cfg, s, id);
  }

  lemma NothingOwed(cfg: Config, tasks: map<Id, Task>)
    requires Potential(cfg, tasks) == 0
    requires forall id :: id in tasks ==> tasks[id].attempt <= EffectiveMax(cfg, tasks[id])
    ensures DepthOf(tasks) == 0
  {
    if ActiveIds(tasks) != {} {
      var id :| id in ActiveIds(tasks);
      PotentialWithout(cfg, tasks, id);
    }
  }

  /** Some thread works on the task. */
  predicate AtWork(s: State, id: Id) {
    exists p :: p in s.actors && Touch(s.actors[p]) == Some(id)
  }

  /** At a time when every scheduled retry is due, the claim finds nothing
      exactly when every active task has a thread at work on it: no task is
      stuck. */
  lemma QuietQueueMoves(cfg: Config, s: State, at: int)
    requires WellTimed(cfg) && Reachable(cfg, s) && !s.booting
    requires forall id :: id in s.tasks && s.tasks[id].nextRunAt.Some? ==> cfg.due(s.tasks[id].nextRunAt.value, at)
    ensures Selectable(cfg, s, at, None) <==> forall id :: id in ActiveIds(s.tasks) ==> AtWork(s, id)
  {
    hide Reachable, TaskOk, ActorOk, LatestLabel, BindingsOk, StartedBound, RowsOk, LogOk, RepliesOk, OneOwner;
    ReachableOk(cfg, s);
    forall id | id in s.tasks
      ensures Claimable(s.tasks[id], cfg.due, at) <==> id in ActiveIds(s.tasks) && !AtWork(s, id)
    {
      if AtWork(s, id) { BusyIsNotReady(cfg, s, id, at); }
    }
  }

  lemma BusyIsNotReady(cfg: Config, s: State, id: Id, at: int)
    requires Inv(cfg, s) && id in s.tasks && AtWork(s, id)
    ensures !Claimable(s.tasks[id], cfg.due, at)
  {
    hide Inv, TaskOk, LatestLabel, DepthOf;
    var p :| p in s.actors && Touch(s.actors[p]) == Some(id);
    Mine(cfg, s, p);
    OwnerMeansBusy(cfg, s, s.actors[p]);
  }
}
