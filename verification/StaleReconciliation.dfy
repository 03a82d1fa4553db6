/**
 The run in which dependency closure is lost: B depends on A. A is verified at t1 and B dispatched
 there; the tree moves to t2, which takes A back to FROZEN and strands B; B is reconciled at the tree
 it was stranded at; A is verified again, at t2; and B is dispatched, at t1.
 */
module StaleReconciliation {
  import opened Prelude
  import opened Contracts
  import opened Registry
  import opened Engine
  import opened Coordinator
  import opened DependencyClosure
  import opened TaskProgress
  import Budget

  const DEPENDENCIES: map<string, seq<string>> := map["A" := [], "B" := ["A"]]
  const MEMBERS: Members := map["pm" := (PM, 1), "dev" := (DEVELOPER, 2), "exec" := (EXECUTOR, 3), "qa" := (QA, 4)]
  const CREW := Crew(Principal("pm", PM, 1), Principal("dev", DEVELOPER, 2), Principal("exec", EXECUTOR, 3),
                     Principal("qa", QA, 4))

  function NewTask(taskId: string): Aggregate {
    NewAggregate(Task(taskId, "run", ["it works"], "t1", "policy"))
  }

  function Start(): World {
    World(Coord(DEPENDENCIES, map["A" := NewTask("A"), "B" := NewTask("B")], map[], map["A" := 0, "B" := 0],
                Budget.Ledger(0, 0, 1, map[]), Records(map[], map[], map[]), MEMBERS, map["test" := "pin"]), {})
  }

  /** What matters of one task along the run. */
  predicate Is(a: Aggregate, state: TaskState, tree: string, usedKeys: set<string>) {
    a.state == state && a.task.treeSha == tree && a.usedKeys == usedKeys
  }

  /** Two tasks, the crew, and one slot that is free or not. */
  ghost predicate Scene(c: Coord, free: bool) {
    && c.dependencies == DEPENDENCIES && c.members == MEMBERS && c.fixRounds == map["A" := 0, "B" := 0]
    && c.tasks.Keys == {"A", "B"} && c.budget.maxWorkers == 1 && (free <==> c.budget.reservations == map[])
  }

  lemma StartScene()
    ensures Initial(Start()) && OneTree(Start().c, "t1") && Scene(Start().c, true)
  {
    assert Start().c.dependencies["B"] == ["A"];
  }

  lemma Frozen(c: Coord, k: string)
    requires Shaped(c) && Scene(c, true) && k in {"A", "B"} && c.tasks[k].state == CREATED
    ensures Effect(c, DoFreeze(k, CREW.pm)) == c.(tasks := c.tasks[k := c.tasks[k].(state := FROZEN)])
  {}

  /** The slot free, and each task at a given stage. */
  ghost predicate Rest(w: World, a: TaskState, aTree: string, aKeys: set<string>, bKeys: set<string>, ids: set<string>)
  {
    && Inv(w) && Scene(w.c, true) && w.ids == ids
    && Is(w.c.tasks["A"], a, aTree, aKeys) && Is(w.c.tasks["B"], FROZEN, "t1", bKeys)
  }

  /** The slot taken by a dispatch of B at t1. */
  ghost predicate Held(w: World, a: TaskState, aTree: string, aKeys: set<string>, b: TaskState, bKeys: set<string>,
                       ids: set<string>)
  {
    && Inv(w) && Scene(w.c, false) && "B" in w.c.activeIds && w.ids == ids
    && Is(w.c.tasks["A"], a, aTree, aKeys) && Is(w.c.tasks["B"], b, "t1", bKeys)
  }

  lemma Verified(w: World, tree: string, aKeys: set<string>, bKeys: set<string>, drawn: set<string>, key: string,
                 ids: Ids)
    requires Rest(w, FROZEN, tree, aKeys, bKeys, drawn) && tree != "" && key != "" && key !in aKeys && Fresh(w, ids)
    ensures Rest(Run(w, VerifyOps(w.c, "A", CREW, key, ids)), VERIFIED, tree, aKeys + {key}, bKeys, drawn + All(ids))
  {
    FrozenTaskCanBeVerified(w, "A", CREW, key, ids);
  }

  lemma Started(w: World, tree: string, aKeys: set<string>, bKeys: set<string>, drawn: set<string>, key: string,
                id: string)
    requires Rest(w, VERIFIED, tree, aKeys, bKeys, drawn) && key != "" && key !in bKeys && id != "" && id !in drawn
    ensures Held(Step(w, BeginOp("B", CREW.pm, key, id)), VERIFIED, tree, aKeys, DISPATCHED, bKeys + {key},
                 drawn + {id})
  {
    BeginStep(w, "B", CREW.pm, key, id);
    StepKeepsInv(w, BeginOp("B", CREW.pm, key, id));
    assert id in WithSlot(w.c.budget, id).reservations;
  }

  lemma TreeMoved(c: Coord, tree: string)
    requires Shaped(c) && Scene(c, false) && tree != "" && c.tasks["A"].state == VERIFIED
             && c.tasks["B"].state == DISPATCHED
    requires c.tasks["A"].task.treeSha != tree && c.tasks["B"].task.treeSha != tree
    ensures var c' := UpdateTree(c, tree).value;
            && Scene(c', false) && c' == c.(tasks := c'.tasks)
            && Is(c'.tasks["A"], FROZEN, tree, c.tasks["A"].usedKeys)
            && Is(c'.tasks["B"], RECOVERY_REQUIRED, c.tasks["B"].task.treeSha, c.tasks["B"].usedKeys)
  {
    var c' := UpdateTree(c, tree).value;
    assert c'.tasks["A"] == Moved(c.tasks["A"], tree) && c'.tasks["B"] == Moved(c.tasks["B"], tree);
  }

  lemma OneReservation(m: map<string, Budget.Reservation>, id: string)
    requires id in m && |m| <= 1
    ensures m - {id} == map[]
  {
    assert |m.Keys - {id}| == |m.Keys| - 1;
    assert (m - {id}).Keys == m.Keys - {id};
  }

  /** Without a new tree the task goes back to FROZEN at the tree it was stranded at. */
  lemma ReconciledAtItsTree(c: Coord)
    requires SlotsOk(c) && Scene(c, false) && c.tasks["B"].state == RECOVERY_REQUIRED && "B" in c.activeIds
    ensures var r := ReconcileRecovery(c, "B", CREW.pm, None);
            && r.Ok? && Scene(r.value, true) && r.value.tasks["A"] == c.tasks["A"]
            && Is(r.value.tasks["B"], FROZEN, c.tasks["B"].task.treeSha, c.tasks["B"].usedKeys)
  {
    ReleaseSucceeds(c, "B");
    assert c.activeIds["B"] in c.budget.reservations by { assert HoldsSlot(c, "B"); }
    OneReservation(c.budget.reservations, c.activeIds["B"]);
  }

  // ---------------------------------------------------------------- the run, in four parts

  lemma {:induction false} RunConcat(w: World, first: seq<Op>, rest: seq<Op>)
    requires Inv(w)
    ensures Run(w, first + rest) == Run(Run(w, first), rest)
    decreases |first|
  {
    if first == [] {
      assert first + rest == rest;
    } else {
      RunFirst(w, first[0], first[1..] + rest);
      assert first + rest == [first[0]] + (first[1..] + rest);
      RunConcat(Step(w, first[0]), first[1..], rest);
    }
  }

  const FIRST := Ids("d1", "r1", "e1", "v1")
  const SECOND := Ids("d3", "r3", "e3", "v3")

  lemma NamesDiffer()
    ensures "d2" !in All(FIRST) && "d4" !in All(FIRST) + {"d2"} + All(SECOND)
    ensures forall w: World :: (w.ids == {} ==> Fresh(w, FIRST)) && (w.ids == All(FIRST) + {"d2"} ==> Fresh(w, SECOND))
  {}

  lemma UpdateTreeIs(w: World, tree: string)
    requires Shaped(w.c) && tree != ""
    ensures Step(w, DoUpdateTree(tree)) == w.(c := UpdateTree(w.c, tree).value)
  {}

  lemma ReconcileIs(w: World, taskId: string)
    requires Shaped(w.c) && ReconcileRecovery(w.c, taskId, CREW.pm, None).Ok?
    ensures Step(w, DoReconcile(taskId, CREW.pm, None)) == w.(c := ReconcileRecovery(w.c, taskId, CREW.pm, None).value)
  {}

  lemma MoveStrands(w: World, aKeys: set<string>, bKeys: set<string>, drawn: set<string>)
    requires Held(w, VERIFIED, "t1", aKeys, DISPATCHED, bKeys, drawn)
    ensures Held(Step(w, DoUpdateTree("t2")), FROZEN, "t2", aKeys, RECOVERY_REQUIRED, bKeys, drawn)
  {
    UpdateTreeIs(w, "t2");
    TreeMoved(w.c, "t2");
    StepKeepsInv(w, DoUpdateTree("t2"));
  }

  lemma Returned(w: World, aKeys: set<string>, bKeys: set<string>, drawn: set<string>)
    requires Held(w, FROZEN, "t2", aKeys, RECOVERY_REQUIRED, bKeys, drawn)
    ensures Rest(Step(w, DoReconcile("B", CREW.pm, None)), FROZEN, "t2", aKeys, bKeys, drawn)
  {
    ReconciledAtItsTree(w.c);
    ReconcileIs(w, "B");
    StepKeepsInv(w, DoReconcile("B", CREW.pm, None));
  }

  /** What the run has come to: B under way at t1, on A verified at t2. */
  ghost predicate Lost(w: World) {
    exists aKeys, bKeys, drawn :: Held(w, VERIFIED, "t2", aKeys, DISPATCHED, bKeys, drawn)
  }

  // The parts of the run, each followed by the rest of it.

  lemma DispatchAgain(w: World) returns (ops: seq<Op>)
    requires Rest(w, VERIFIED, "t2", {"k1"} + {"k2"}, {} + {"k1"}, {} + All(FIRST) + {"d2"} + All(SECOND))
    ensures Lost(Run(w, ops))
  {
    NamesDiffer();
    Started(w, "t2", {"k1"} + {"k2"}, {} + {"k1"}, {} + All(FIRST) + {"d2"} + All(SECOND), "k2", "d4");
    RunOne(w, BeginOp("B", CREW.pm, "k2", "d4"));
    ops := [BeginOp("B", CREW.pm, "k2", "d4")];
  }

  lemma VerifyAgain(w: World) returns (ops: seq<Op>)
    requires Rest(w, FROZEN, "t2", {} + {"k1"}, {} + {"k1"}, {} + All(FIRST) + {"d2"})
    ensures Lost(Run(w, ops))
  {
    var again := VerifyOps(w.c, "A", CREW, "k2", SECOND);
    NamesDiffer();
    assert {} + All(FIRST) + {"d2"} == All(FIRST) + {"d2"};
    Verified(w, "t2", {} + {"k1"}, {} + {"k1"}, {} + All(FIRST) + {"d2"}, "k2", SECOND);
    assert {} + {"k1"} + {"k2"} == {"k1"} + {"k2"};
    var rest := DispatchAgain(Run(w, again));
    RunConcat(w, again, rest);
    ops := again + rest;
  }

  lemma MoveAndReconcile(w: World) returns (ops: seq<Op>)
    requires Held(w, VERIFIED, "t1", {} + {"k1"}, DISPATCHED, {} + {"k1"}, {} + All(FIRST) + {"d2"})
    ensures Lost(Run(w, ops))
  {
    var move, reconcile := DoUpdateTree("t2"), DoReconcile("B", CREW.pm, None);
    MoveStrands(w, {} + {"k1"}, {} + {"k1"}, {} + All(FIRST) + {"d2"});
    Returned(Step(w, move), {} + {"k1"}, {} + {"k1"}, {} + All(FIRST) + {"d2"});
    var rest := VerifyAgain(Step(Step(w, move), reconcile));
    RunFirst(Step(w, move), reconcile, rest);
    RunFirst(w, move, [reconcile] + rest);
    ops := [move] + ([reconcile] + rest);
  }

  lemma Dispatch(w: World) returns (ops: seq<Op>)
    requires Rest(w, VERIFIED, "t1", {} + {"k1"}, {}, {} + All(FIRST))
    ensures Lost(Run(w, ops))
  {
    NamesDiffer();
    Started(w, "t1", {} + {"k1"}, {}, {} + All(FIRST), "k1", "d2");
    var rest := MoveAndReconcile(Step(w, BeginOp("B", CREW.pm, "k1", "d2")));
    RunFirst(w, BeginOp("B", CREW.pm, "k1", "d2"), rest);
    ops := [BeginOp("B", CREW.pm, "k1", "d2")] + rest;
  }

  lemma VerifyFirst(w: World) returns (ops: seq<Op>)
    requires Rest(w, FROZEN, "t1", {}, {}, {})
    ensures Lost(Run(w, ops))
  {
    var first := VerifyOps(w.c, "A", CREW, "k1", FIRST);
    NamesDiffer();
    Verified(w, "t1", {}, {}, {}, "k1", FIRST);
    var rest := Dispatch(Run(w, first));
    RunConcat(w, first, rest);
    ops := first + rest;
  }

  lemma FreezeIs(w: World, k: string)
    requires Shaped(w.c) && Scene(w.c, true) && k in {"A", "B"} && w.c.tasks[k].state == CREATED
    ensures var w' := Step(w, DoFreeze(k, CREW.pm));
            && w' == w.(c := w.c.(tasks := w.c.tasks[k := w.c.tasks[k].(state := FROZEN)])) && Scene(w'.c, true)
  {
    Frozen(w.c, k);
  }

  lemma BothFrozen(w: World)
    requires Inv(w) && Scene(w.c, true) && w.ids == {} && Is(w.c.tasks["A"], CREATED, "t1", {})
             && Is(w.c.tasks["B"], CREATED, "t1", {})
    ensures Rest(Run(w, [DoFreeze("A", CREW.pm)] + [DoFreeze("B", CREW.pm)]), FROZEN, "t1", {}, {}, {})
  {
    FreezeIs(w, "A");
    RunFirst(w, DoFreeze("A", CREW.pm), [DoFreeze("B", CREW.pm)]);
    var next := Step(w, DoFreeze("A", CREW.pm));
    FreezeIs(next, "B");
    RunOne(next, DoFreeze("B", CREW.pm));
  }

  /**
   Reached from a newly built coordinator over one shared tree: B is DISPATCHED at t1 although the
   task it depends on is verified at t2.
   */
  lemma ClosureFails() returns (ops: seq<Op>)
    ensures Initial(Start()) && OneTree(Start().c, "t1")
    ensures var c := Reached(Start(), ops).c;
            && c.tasks.Keys == {"A", "B"} && c.dependencies["B"] == ["A"]
            && c.tasks["B"].state == DISPATCHED && c.tasks["B"].task.treeSha == "t1"
            && c.tasks["A"].state == VERIFIED && c.tasks["A"].task.treeSha == "t2"
            && !Founded(c)
  {
    StartScene();
    var freezes := [DoFreeze("A", CREW.pm)] + [DoFreeze("B", CREW.pm)];
    BothFrozen(Start());
    var rest := VerifyFirst(Run(Start(), freezes));
    RunConcat(Start(), freezes, rest);
    ops := freezes + rest;
    NotFounded(Reached(Start(), ops));
  }

  lemma NotFounded(w: World)
    requires Inv(w) && Lost(w)
    ensures var c := w.c;
            && c.tasks.Keys == {"A", "B"} && c.dependencies == DEPENDENCIES
            && c.tasks["B"].state == DISPATCHED && c.tasks["B"].task.treeSha == "t1"
            && c.tasks["A"].state == VERIFIED && c.tasks["A"].task.treeSha == "t2"
            && !Founded(c)
  {
    assert "A" in w.c.dependencies["B"];
    assert TaskOk(w.c, "A");
  }
}
