/**
 What a dispatched, reported or verified task stands on, over whole runs of the coordinator: its
 dependencies, verified at its own tree, as long as every admitted dispatch was at the tree of its
 dependencies, and not otherwise.
 */
module DependencyClosure {
  import opened Prelude
  import opened Contracts
  import opened Registry
  import opened Engine
  import opened Qa
  import opened Coordinator
  import TaskDag

  predicate UnderWayOrDone(a: Aggregate) {
    a.state in {DISPATCHED, PROCESS_SUCCEEDED, VERIFIED}
  }

  /** Every direct dependency is verified, and at this task's tree. */
  ghost predicate StandsOnDependencies(c: Coord, k: string)
    requires Shaped(c) && k in c.tasks
  {
    forall d | d in c.dependencies[k] ::
      c.tasks[d].state == VERIFIED && c.tasks[d].verifiedTree == Some(c.tasks[k].task.treeSha)
  }

  ghost predicate Founded(c: Coord)
    requires Shaped(c)
  {
    forall k | k in c.tasks && UnderWayOrDone(c.tasks[k]) :: StandsOnDependencies(c, k)
  }

  /** What a caller can see before the call: the task is at the tree its dependencies are at. */
  predicate Aligned(c: Coord, k: string)
    requires Shaped(c) && k in c.tasks
  {
    forall d | d in c.dependencies[k] :: c.tasks[d].task.treeSha == c.tasks[k].task.treeSha
  }

  ghost predicate Admits(w: World, op: Op)
    requires Shaped(w.c)
    ensures Admits(w, op) ==> op.DoBegin? && op.taskId in w.c.tasks
  {
    op.DoBegin? && Drawable(w, op) && Begin(w.c, op.taskId, op.pm, op.key, op.tokens, op.cost, op.freshId).1.Ok?
  }

  lemma AdmittedBegin(w: World, op: Op)
    requires Inv(w) && Admits(w, op)
    ensures DependenciesVerified(w.c, op.taskId) && w.c.tasks[op.taskId].state == FROZEN
    ensures var c' := Begin(w.c, op.taskId, op.pm, op.key, op.tokens, op.cost, op.freshId).0;
            && op.taskId in c'.tasks
            && c'.tasks == w.c.tasks[op.taskId := c'.tasks[op.taskId]] && c'.dependencies == w.c.dependencies
            && c'.tasks[op.taskId].state == DISPATCHED && c'.tasks[op.taskId].task == w.c.tasks[op.taskId].task
  {
    AdmissionNeverStrands(w, op.taskId, op.pm, op.key, op.tokens, op.cost, op.freshId);
    BeginTouches(w.c, op.taskId, op.pm, op.key, op.tokens, op.cost, op.freshId);
  }

  lemma StepBegins(w: World, op: Op)
    requires Shaped(w.c) && op.DoBegin? && Drawable(w, op)
    ensures Step(w, op).c == Begin(w.c, op.taskId, op.pm, op.key, op.tokens, op.cost, op.freshId).0
  {}

  lemma StepMovesTree(w: World, op: Op)
    requires Shaped(w.c) && op.DoUpdateTree?
    ensures Step(w, op).c == if op.tree == "" then w.c else UpdateTree(w.c, op.tree).value
  {}

  lemma AdmittedDispatch(w: World, op: Op)
    requires Inv(w) && Admits(w, op)
    ensures DependenciesVerified(w.c, op.taskId) && w.c.tasks[op.taskId].state == FROZEN
    ensures Inv(Step(w, op)) && op.taskId in Step(w, op).c.tasks
    ensures var c' := Step(w, op).c;
            && c'.tasks == w.c.tasks[op.taskId := c'.tasks[op.taskId]] && c'.dependencies == w.c.dependencies
            && c'.tasks[op.taskId].state == DISPATCHED && c'.tasks[op.taskId].task == w.c.tasks[op.taskId].task
  {
    StepKeepsInv(w, op);
    AdmittedBegin(w, op);
    StepBegins(w, op);
  }

  /** The property of one dispatch, exactly: it stands on its dependencies if and only if it was at their tree. */
  lemma DispatchFoundedIff(w: World, op: Op)
    requires Inv(w) && Admits(w, op)
    ensures Inv(Step(w, op)) && op.taskId in Step(w, op).c.tasks
    ensures StandsOnDependencies(Step(w, op).c, op.taskId) <==> Aligned(w.c, op.taskId)
  {
    AdmittedDispatch(w, op);
    var k, c, c' := op.taskId, w.c, Step(w, op).c;
    forall d | d in c.dependencies[k] ensures d != k && c.tasks[d].verifiedTree == Some(c.tasks[d].task.treeSha) {
      assert TaskOk(c, d);
    }
  }

  /** A task other than the one dispatched is under way afterwards only if it was before, on the same dependencies. */
  lemma EvolutionKeepsFounded(w: World, op: Op, k: string)
    requires Inv(w) && Founded(w.c) && !op.DoUpdateTree? && k in w.c.tasks && !(Admits(w, op) && op.taskId == k)
    ensures Inv(Step(w, op)) && k in Step(w, op).c.tasks
    ensures UnderWayOrDone(Step(w, op).c.tasks[k]) ==> StandsOnDependencies(Step(w, op).c, k)
  {
    StepKeepsPlan(w, op);
    StepEvolves(w, op, k);
    var c, c' := w.c, Step(w, op).c;
    if UnderWayOrDone(c'.tasks[k]) {
      assert UnderWayOrDone(c.tasks[k]) by { NotDispatchedUnlessAdmitted(w, op, k); }
      assert StandsOnDependencies(c, k);
      forall d | d in c.dependencies[k] ensures c'.tasks[d] == c.tasks[d] {
        StepEvolves(w, op, d);
      }
    }
  }

  lemma NotDispatchedUnlessAdmitted(w: World, op: Op, k: string)
    requires Inv(w) && !op.DoUpdateTree? && k in w.c.tasks && !(Admits(w, op) && op.taskId == k)
    requires k in Step(w, op).c.tasks && UnderWayOrDone(Step(w, op).c.tasks[k])
    ensures UnderWayOrDone(w.c.tasks[k])
  {
    StepEvolves(w, op, k);
    if op.DoBegin? && Drawable(w, op) {
      AdmissionNeverStrands(w, op.taskId, op.pm, op.key, op.tokens, op.cost, op.freshId);
    }
  }

  lemma TreeUpdateKeepsFounded(w: World, tree: string)
    requires Inv(w) && Founded(w.c) && tree != ""
    ensures Inv(w.(c := UpdateTree(w.c, tree).value)) && Founded(UpdateTree(w.c, tree).value)
  {
    UpdateTreeKeepsInv(w, tree);
    var c, c' := w.c, UpdateTree(w.c, tree).value;
    forall k | k in c'.tasks && UnderWayOrDone(c'.tasks[k]) ensures StandsOnDependencies(c', k) {
      MovedCases(c.tasks[k], tree);
      assert c'.tasks[k] == c.tasks[k] && c.tasks[k].task.treeSha == tree;
      assert StandsOnDependencies(c, k);
      forall d | d in c.dependencies[k] ensures c'.tasks[d] == c.tasks[d] {
        assert TaskOk(c, d);
      }
    }
  }

  /** No call but a misaligned dispatch ever takes a dependency away from under a task. */
  lemma StepFoundedIff(w: World, op: Op)
    requires Inv(w) && Founded(w.c)
    ensures Inv(Step(w, op))
    ensures Founded(Step(w, op).c) <==> (Admits(w, op) ==> Aligned(w.c, op.taskId))
  {
    StepKeepsPlan(w, op);
    if op.DoUpdateTree? {
      if op.tree != "" { TreeUpdateKeepsFounded(w, op.tree); }
    } else {
      forall k | k in w.c.tasks && !(Admits(w, op) && op.taskId == k) && UnderWayOrDone(Step(w, op).c.tasks[k])
        ensures StandsOnDependencies(Step(w, op).c, k)
      {
        EvolutionKeepsFounded(w, op, k);
      }
      if Admits(w, op) {
        AdmittedDispatch(w, op);
        DispatchFoundedIff(w, op);
      }
    }
  }

  /** Every dispatch that a run admits is at the tree of its dependencies. */
  ghost predicate DispatchesAligned(w: World, ops: seq<Op>)
    requires Inv(w)
    decreases |ops|
  {
    ops == []
    || ((Admits(w, ops[0]) ==> Aligned(w.c, ops[0].taskId))
        && (StepKeepsInv(w, ops[0]); DispatchesAligned(Step(w, ops[0]), ops[1..])))
  }

  ghost predicate FoundedThroughout(w: World, ops: seq<Op>)
    requires Inv(w)
    decreases |ops|
  {
    Founded(w.c) && (ops == [] || (StepKeepsInv(w, ops[0]); FoundedThroughout(Step(w, ops[0]), ops[1..])))
  }

  lemma {:induction false} RunFoundedIff(w: World, ops: seq<Op>)
    requires Inv(w) && Founded(w.c)
    ensures FoundedThroughout(w, ops) <==> DispatchesAligned(w, ops)
    ensures FoundedThroughout(w, ops) ==> Founded(Run(w, ops).c)
    decreases |ops|
  {
    if ops != [] {
      StepFoundedIff(w, ops[0]);
      if Founded(Step(w, ops[0]).c) { RunFoundedIff(Step(w, ops[0]), ops[1..]); }
    }
  }

  /**
   Dependency closure, exactly: at every point of a run all that is dispatched, reported or verified
   stands on dependencies verified at its own tree, if and only if every admitted dispatch was at the
   tree its dependencies were at.
   */
  lemma ClosureIff(start: World, ops: seq<Op>)
    requires Initial(start)
    ensures Inv(start) && (FoundedThroughout(start, ops) <==> DispatchesAligned(start, ops))
  {
    InitialInv(start);
    RunFoundedIff(start, ops);
  }

  /** Along every chain of dependencies below such a task, everything is verified at its tree. */
  lemma {:induction false} ChainVerified(c: Coord, p: seq<string>)
    requires Shaped(c) && TasksOk(c) && Founded(c)
    requires |p| >= 2 && TaskDag.Chain(c.dependencies, p) && p[0] in c.tasks && UnderWayOrDone(c.tasks[p[0]])
    ensures var d := p[|p| - 1];
            d in c.tasks && c.tasks[d].state == VERIFIED && c.tasks[d].verifiedTree == Some(c.tasks[p[0]].task.treeSha)
    decreases |p|
  {
    assert StandsOnDependencies(c, p[0]);
    assert p[1] in c.dependencies[p[0]];
    assert TaskOk(c, p[1]);
    if |p| > 2 {
      ChainVerified(c, p[1..]);
    }
  }

  lemma AlignedRunFounded(start: World, ops: seq<Op>)
    requires Initial(start) && Inv(start) && DispatchesAligned(start, ops)
    ensures Founded(Reached(start, ops).c)
  {
    RunFoundedIff(start, ops);
  }

  lemma DependencyClosure(start: World, ops: seq<Op>, p: seq<string>)
    requires Initial(start) && Inv(start) && DispatchesAligned(start, ops)
    requires |p| >= 2 && TaskDag.Chain(Reached(start, ops).c.dependencies, p)
    requires p[0] in Reached(start, ops).c.tasks && UnderWayOrDone(Reached(start, ops).c.tasks[p[0]])
    ensures var c, d := Reached(start, ops).c, p[|p| - 1];
            && d in c.tasks && c.tasks[d].state == VERIFIED
            && c.tasks[d].verifiedTree == Some(c.tasks[p[0]].task.treeSha)
  {
    assert Founded(Reached(start, ops).c) by { AlignedRunFounded(start, ops); }
    ChainVerified(Reached(start, ops).c, p);
  }

  // ---------------------------------------------------------------- a discipline that keeps dispatches aligned

  /** The tree of the last accepted change. */
  function TreeAfter(current: string, op: Op): string {
    if op.DoUpdateTree? && op.tree != "" then op.tree else current
  }

  /** Every task but the stranded ones is at the current tree. */
  ghost predicate OneTree(c: Coord, current: string) {
    forall k | k in c.tasks && c.tasks[k].state != RECOVERY_REQUIRED :: c.tasks[k].task.treeSha == current
  }

  /** The caller's duty: a stranded task is reconciled to the tree everyone else is at. */
  ghost predicate ReconcilesToCurrent(c: Coord, op: Op, current: string) {
    op.DoReconcile? && op.taskId in c.tasks ==> TreeOr(op.newTree, c.tasks[op.taskId].task.treeSha) == current
  }

  lemma TreeUpdateKeepsOneTree(c: Coord, tree: string)
    requires tree != ""
    ensures OneTree(UpdateTree(c, tree).value, tree)
  {
    forall k | k in c.tasks && Moved(c.tasks[k], tree).state != RECOVERY_REQUIRED
      ensures Moved(c.tasks[k], tree).task.treeSha == tree
    {
      MovedCases(c.tasks[k], tree);
    }
  }

  lemma CallKeepsOneTree(w: World, op: Op, current: string, k: string)
    requires Inv(w) && OneTree(w.c, current) && ReconcilesToCurrent(w.c, op, current) && !op.DoUpdateTree?
    requires k in w.c.tasks
    ensures k in Step(w, op).c.tasks
    ensures Step(w, op).c.tasks[k].state != RECOVERY_REQUIRED ==> Step(w, op).c.tasks[k].task.treeSha == current
  {
    StepEvolves(w, op, k);
  }

  lemma CallKeepsTrees(w: World, op: Op, current: string)
    requires Inv(w) && OneTree(w.c, current) && ReconcilesToCurrent(w.c, op, current) && !op.DoUpdateTree?
    requires Step(w, op).c.tasks.Keys == w.c.tasks.Keys
    ensures OneTree(Step(w, op).c, current)
  {
    var c' := Step(w, op).c;
    forall k | k in c'.tasks && c'.tasks[k].state != RECOVERY_REQUIRED ensures c'.tasks[k].task.treeSha == current {
      CallKeepsOneTree(w, op, current, k);
    }
  }

  lemma StepKeepsOneTree(w: World, op: Op, current: string)
    requires Inv(w) && OneTree(w.c, current) && ReconcilesToCurrent(w.c, op, current)
    ensures Inv(Step(w, op)) && OneTree(Step(w, op).c, TreeAfter(current, op))
  {
    StepKeepsPlan(w, op);
    if !op.DoUpdateTree? {
      CallKeepsTrees(w, op, current);
    } else {
      StepMovesTree(w, op);
      if op.tree != "" { TreeUpdateKeepsOneTree(w.c, op.tree); }
    }
  }

  ghost predicate AllReconcileToCurrent(w: World, ops: seq<Op>, current: string)
    requires Inv(w)
    decreases |ops|
  {
    ops == [] || (ReconcilesToCurrent(w.c, ops[0], current)
                  && (StepKeepsInv(w, ops[0]); AllReconcileToCurrent(Step(w, ops[0]), ops[1..],
                                                                     TreeAfter(current, ops[0]))))
  }

  /** From one shared tree, reconciling stranded tasks to the current tree only keeps every dispatch aligned. */
  lemma {:induction false} DutySuffices(w: World, ops: seq<Op>, current: string)
    requires Inv(w) && OneTree(w.c, current) && AllReconcileToCurrent(w, ops, current)
    ensures DispatchesAligned(w, ops)
    decreases |ops|
  {
    if ops != [] {
      if Admits(w, ops[0]) { AdmittedDispatch(w, ops[0]); }
      StepKeepsOneTree(w, ops[0], current);
      DutySuffices(Step(w, ops[0]), ops[1..], TreeAfter(current, ops[0]));
    }
  }

  /** A reconciliation keeps the shared tree if and only if it goes to the current one. */
  lemma ReconcileKeepsOneTreeIff(w: World, taskId: string, pm: Principal, newTree: Option<string>, current: string)
    requires Inv(w) && OneTree(w.c, current) && ReconcileRecovery(w.c, taskId, pm, newTree).Ok?
    ensures OneTree(ReconcileRecovery(w.c, taskId, pm, newTree).value, current)
            <==> TreeOr(newTree, w.c.tasks[taskId].task.treeSha) == current
  {
    ReconcileTouches(w.c, taskId, pm, newTree);
  }
}
