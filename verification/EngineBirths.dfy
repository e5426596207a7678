/** What a task keeps from the step that made it, and what it tells of the order in
    which tasks are claimed. */
module EngineBirths {
  import opened Tasks
  import opened Memory
  import opened Engine
  import opened EngineFoot
  import opened EngineSteps
  import opened EngineRuns
  import opened EngineInv

  /** Creation time, verb and stored limit stand. */
  predicate SameBirth(t: Task, t': Task) {
    t'.createdAt == t.createdAt && t'.verb == t.verb && t'.maxRetries == t.maxRetries
  }

  /** A rewritten row keeps them and bears the time of the step; a new one is born
      at it. */
  lemma WrittenBirth(cfg: Config, s: State, pid: Pid, inp: Input)
    requires pid in s.actors && ActEnabled(cfg, s, s.actors[pid], inp)
    ensures var i, w := Target(cfg, s, s.actors[pid], inp), Written(cfg, s, s.actors[pid], inp);
      w.Some? ==>
        && i.Some? && w.value.updatedAt == s.now
        && (i.value in s.tasks ==> SameBirth(s.tasks[i.value], w.value))
        && (i.value !in s.tasks ==> s.actors[pid].Creating? && w.value.createdAt == s.now)
  {
    hide DelayFor, DepthOf, Claimable;
  }

  lemma ActBirth(cfg: Config, s: State, pid: Pid, inp: Input)
    requires pid in s.actors && ActEnabled(cfg, s, s.actors[pid], inp)
    ensures BirthsKept(s, DoAct(cfg, s, pid, s.actors[pid], inp))
  {
    hide DoAct, Target, Written;
    ActFoot(cfg, s, pid, inp);
    WrittenBirth(cfg, s, pid, inp);
  }

  /** Tasks keep their births, new ones are born now, and no row changes without
      bearing the time of the change. */
  ghost predicate BirthsKept(s: State, s': State) {
    && (forall id :: id in s.tasks ==> id in s'.tasks && SameBirth(s.tasks[id], s'.tasks[id]))
    && (forall id :: id in s'.tasks && id !in s.tasks ==> s'.tasks[id].createdAt == s.now)
    && (forall id :: id in s.tasks && id in s'.tasks && s'.tasks[id] != s.tasks[id] ==> s'.tasks[id].updatedAt == s.now)
  }

  lemma StepBirths(cfg: Config, s: State, step: Step)
    requires Enabled(cfg, s, step)
    ensures BirthsKept(s, Do(cfg, s, step))
  {
    hide DoAct;
    if step.Act? { ActBirth(cfg, s, step.pid, step.inp); }
  }

  /** Over every run: a task's creation time is the clock of the step that made it,
      and that never changes. */
  lemma {:induction false} BornWhenMade(cfg: Config, init: State, steps: seq<Step>, k: nat, id: Id)
    requires Init(cfg, init) && Valid(cfg, init, steps) && k < |steps|
    requires Valid(cfg, init, steps[..k]) && Valid(cfg, init, steps[..k + 1])
    requires id !in After(cfg, init, steps[..k]).tasks && id in After(cfg, init, steps[..k + 1]).tasks
    ensures var s := After(cfg, init, steps);
      id in s.tasks && s.tasks[id].createdAt == After(cfg, init, steps[..k]).now
  {
    hide Init, Do, Enabled;
    var before := steps[..|steps| - 1];
    StepBirths(cfg, After(cfg, init, before), steps[|steps| - 1]);
    if k == |steps| - 1 {
      assert steps[..k + 1] == steps && steps[..k] == before;
    } else {
      assert before[..k] == steps[..k] && before[..k + 1] == steps[..k + 1];
      BornWhenMade(cfg, init, before, k, id);
    }
  }

  /** Step k of the run made the task, at that time. */
  ghost predicate MadeAt(cfg: Config, init: State, steps: seq<Step>, k: nat, id: Id, at: int)
    requires k < |steps|
  {
    && Valid(cfg, init, steps[..k]) && Valid(cfg, init, steps[..k + 1])
    && id !in After(cfg, init, steps[..k]).tasks && id in After(cfg, init, steps[..k + 1]).tasks
    && After(cfg, init, steps[..k]).now == at
  }

  /** First come, first served: of two tasks that are due, one made strictly earlier
      comes first, so the other is not the one a claim picks. */
  lemma FirstComeFirstServed(cfg: Config, init: State, steps: seq<Step>, j: nat, k: nat, a: Id, b: Id, early: int,
                             late: int, at: int)
    requires Init(cfg, init) && Valid(cfg, init, steps) && j < |steps| && k < |steps| && early < late
    requires MadeAt(cfg, init, steps, j, a, early) && MadeAt(cfg, init, steps, k, b, late)
    ensures var tasks := After(cfg, init, steps).tasks;
      && a in tasks && b in tasks && tasks[a].createdAt == early && tasks[b].createdAt == late
      && Earlier(tasks, a, b)
      && (DueNow(tasks, a, at) ==> !FirstDue(tasks, b, at))
  {
    hide Init, Do, Enabled, Valid, After;
    BornWhenMade(cfg, init, steps, j, a);
    BornWhenMade(cfg, init, steps, k, b);
    var tasks := After(cfg, init, steps).tasks;
    EarlierTotal(tasks, a, b);
  }
}
