/** Runs from a task not started yet that show what the conditions proved of resuming keep out. */
module CrashRuns {
  import opened Prelude
  import opened CrashRecovery
  import opened CrashSafety
  import opened CrashGuard
  import opened CrashOrder
  import opened CrashRecord

  const FILES := Files({}, {})

  function NewWorld(head: string): World {
    World(PENDING, [], map[], [], Some(head), FILES, None, [])
  }

  function ClaimedIn(w: World): World {
    w.(status := RUNNING, mem := Some(Claimed(w.unverified)))
  }

  /** The world with a round under way as planned. */
  function RunningIn(w: World, plan: Plan): World
    requires plan.Go?
  {
    w.(status := RUNNING,
       mem := Some(Running(plan.remaining, plan.completed, plan.index, w.head, Ready, plan.done, w.unverified)))
  }

  lemma PlanGoes(job: Job, w: World, plan: Plan)
    requires w.mem == Some(Claimed(w.unverified)) && Decide(job, w, w.unverified) == plan && plan.Go?
    ensures Step(job, Step(job, w, Look(Usable)), Start(true)) == RunningIn(w, plan)
  {}

  lemma ClaimAndPlan(job: Job, w: World, plan: Plan, ops: seq<Op>)
    requires w.mem.None? && w.status !in CLOSED && Decide(job, ClaimedIn(w), w.unverified) == plan && plan.Go?
    ensures Run(job, w, [Claim] + ([Look(Usable)] + ([Start(true)] + ops))) == Run(job, RunningIn(w, plan), ops)
  {
    RunFirst(job, w, Claim, [Look(Usable)] + ([Start(true)] + ops));
    RunFirst(job, ClaimedIn(w), Look(Usable), [Start(true)] + ops);
    RunFirst(job, Step(job, ClaimedIn(w), Look(Usable)), Start(true), ops);
    PlanGoes(job, ClaimedIn(w), plan);
  }

  /** One step performed, noted and checkpointed. */
  function Saved(job: Job, w: World): World
    requires AtStage(w, Ready) && w.mem.value.remaining != []
  {
    var m, item := w.mem.value, w.mem.value.remaining[0];
    var completed, done := m.completed + [Label(item.step, m.index + 1)], m.done + {item.position};
    var row := Checkpoint(job.dispatchId, job.taskId, job.teamId, m.index + 1, completed, m.commit, 0, done);
    World(RUNNING, completed, w.loaded, SaveCheckpoint(w.checkpoints, row), w.head, w.files,
          Some(Running(m.remaining[1..], completed, m.index + 1, m.commit, Ready, done, completed)),
          w.log + [Dispatched(item.position)] + [Checkpointed(done)])
  }

  lemma PerformAndSave(job: Job, w: World, ops: seq<Op>)
    requires AtStage(w, Ready) && w.mem.value.remaining != []
    ensures Run(job, w, [Perform] + ([NoteDone] + ([Save(0)] + ops))) == Run(job, Saved(job, w), ops)
  {
    var performed := Step(job, w, Perform);
    var noted := Step(job, performed, NoteDone);
    RunFirst(job, w, Perform, [NoteDone] + ([Save(0)] + ops));
    RunFirst(job, performed, NoteDone, [Save(0)] + ops);
    RunFirst(job, noted, Save(0), ops);
  }

  lemma AuditFails(job: Job, w: World)
    requires w.status == RUNNING && w.loaded == map[]
    ensures Step(job, Step(job, w, Read(0)), Write(0, Audit(false))) == w.(status := FAILED)
  {
    assert map[0 := CrashRecovery.Row(w.status, w.unverified)] - {0} == w.loaded;
  }

  lemma DieAndAudit(job: Job, w: World, ops: seq<Op>)
    requires w.status == RUNNING && w.loaded == map[]
    ensures Run(job, w, [Crash] + ([Read(0)] + ([Write(0, Audit(false))] + ops)))
            == Run(job, w.(mem := None, status := FAILED), ops)
  {
    var dead := w.(mem := None);
    RunFirst(job, w, Crash, [Read(0)] + ([Write(0, Audit(false))] + ops));
    RunFirst(job, dead, Read(0), [Write(0, Audit(false))] + ops);
    RunFirst(job, Step(job, dead, Read(0)), Write(0, Audit(false)), ops);
    AuditFails(job, dead);
  }

  /** Claim, plan, and the first step up to its checkpoint. */
  function FirstStepOps(ops: seq<Op>): seq<Op> {
    [Claim] + ([Look(Usable)] + ([Start(true)] + ([Perform] + ([NoteDone] + ([Save(0)] + ops)))))
  }

  lemma FirstStepRun(job: Job, w: World, plan: Plan, ops: seq<Op>)
    requires w.mem.None? && w.status !in CLOSED
    requires Decide(job, ClaimedIn(w), w.unverified) == plan && plan.Go? && plan.remaining != []
    ensures Run(job, w, FirstStepOps(ops)) == Run(job, Saved(job, RunningIn(w, plan)), ops)
  {
    ClaimAndPlan(job, w, plan, [Perform] + ([NoteDone] + ([Save(0)] + ops)));
    PerformAndSave(job, RunningIn(w, plan), ops);
  }

  /** One whole round that dies after its first step is checkpointed, and the audit that finds it dead. */
  function RoundOps(ops: seq<Op>): seq<Op> {
    FirstStepOps([Crash] + ([Read(0)] + ([Write(0, Audit(false))] + ops)))
  }

  lemma RoundRun(job: Job, w: World, plan: Plan, ops: seq<Op>)
    requires w.mem.None? && w.status !in CLOSED && w.loaded == map[]
    requires Decide(job, ClaimedIn(w), w.unverified) == plan && plan.Go? && plan.remaining != []
    ensures Run(job, w, RoundOps(ops)) == Run(job, Saved(job, RunningIn(w, plan)).(mem := None, status := FAILED), ops)
  {
    FirstStepRun(job, w, plan, [Crash] + ([Read(0)] + ([Write(0, Audit(false))] + ops)));
    DieAndAudit(job, Saved(job, RunningIn(w, plan)), ops);
  }

  // ---------------------------------------------------------------- a finished task performed again

  const BUILD := Job("d", "t", "team", [WorkStep(Some("build"), None, false)], [])

  function Rest(log: seq<Event>, cps: seq<Checkpoint>, unverified: seq<string>): World {
    World(FAILED, unverified, map[], cps, Some("c0"), FILES, None, log)
  }

  function Row(index: nat, completed: seq<string>): Checkpoint {
    Checkpoint("d", "t", "team", index, completed, Some("c0"), 0, {0})
  }

  lemma FirstPlan(job: Job, w: World, noted: seq<string>)
    requires w.checkpoints == [] && noted == [] && job.steps != [] && Distinct(Labels(Remaining(job.steps, [])))
    ensures Decide(job, w, noted) == Go(Remaining(job.steps, []), [], 0, {})
  {
    RemainingAll(job.steps, 0);
  }

  lemma BuildItems()
    ensures Remaining(BUILD.steps, []) == [Item(0, BUILD.steps[0])] && Remaining(BUILD.steps, ["build"]) == []
  {
    RemainingAll(BUILD.steps, 0);
    assert RemainingFrom(BUILD.steps, ["build"], 1) == [];
  }

  lemma BuildAgain(w: World, noted: seq<string>)
    requires w.checkpoints == [Row(1, ["build"])] && w.head == Some("c0")
    ensures Decide(BUILD, w, noted) == Go([Item(0, BUILD.steps[0])], [], 1, {})
  {
    BuildItems();
    assert Latest(w.checkpoints) == Some(Row(1, ["build"])) by { assert w.checkpoints[1..] == []; }
    assert Verified(BUILD, w.files, ["build"]) == ["build"] by {
      assert ["build"][1..] == [] && ["build"][0] == "build";
      assert Verified(BUILD, w.files, []) == [];
    }
  }

  lemma BuildDies()
    ensures var w, plan := NewWorld("c0"), Go([Item(0, BUILD.steps[0])], [], 0, {});
            && Decide(BUILD, ClaimedIn(w), w.unverified) == plan
            && Saved(BUILD, RunningIn(w, plan)).(mem := None, status := FAILED)
               == Rest([Dispatched(0), Checkpointed({0})], [Row(1, ["build"])], ["build"])
  {
    BuildItems();
    FirstPlan(BUILD, ClaimedIn(NewWorld("c0")), []);
    assert {} + {0} == {0} && [] + ["build"] == ["build"];
    assert [] + [Dispatched(0)] + [Checkpointed({0})] == [Dispatched(0), Checkpointed({0})];
  }

  lemma PerformOnly(job: Job, w: World)
    requires AtStage(w, Ready) && w.mem.value.remaining != []
    ensures Run(job, w, [Perform]).log == w.log + [Dispatched(w.mem.value.remaining[0].position)]
  {
    RunFirst(job, w, Perform, []);
    assert [Perform] + [] == [Perform];
  }

  lemma BuildOnceMore(w: World)
    requires w == Rest([Dispatched(0), Checkpointed({0})], [Row(1, ["build"])], ["build"])
    ensures Run(BUILD, w, [Claim] + ([Look(Usable)] + ([Start(true)] + [Perform]))).log
            == [Dispatched(0), Checkpointed({0}), Dispatched(0)]
  {
    BuildAgain(ClaimedIn(w), w.unverified);
    var plan := Go([Item(0, BUILD.steps[0])], [], 1, {});
    ClaimAndPlan(BUILD, w, plan, [Perform]);
    PerformOnly(BUILD, RunningIn(w, plan));
  }

  /**
   One step without an artifact, checkpointed at the present HEAD, and a crash before COMPLETED was
   stored. Nothing vanished and nobody interfered, yet the next resume performs the step a second time.
   */
  lemma FinishedTaskIsReplayed() returns (ops: seq<Op>)
    ensures Initial(BUILD, NewWorld("c0"))
    ensures var log := Run(BUILD, NewWorld("c0"), ops).log;
            log == [Dispatched(0), Checkpointed({0}), Dispatched(0)] && !NeverRepeats(log)
  {
    var last := [Claim] + ([Look(Usable)] + ([Start(true)] + [Perform]));
    ops := RoundOps(last);
    BuildDies();
    RoundRun(BUILD, NewWorld("c0"), Go([Item(0, BUILD.steps[0])], [], 0, {}), last);
    BuildOnceMore(Rest([Dispatched(0), Checkpointed({0})], [Row(1, ["build"])], ["build"]));
    var log := [Dispatched(0), Checkpointed({0}), Dispatched(0)];
    assert log[1].Checkpointed? && log[2].Dispatched?;
  }

  // ---------------------------------------------------------------- a round that HEAD leaves behind

  const TWO := Job("d", "t", "team", [WorkStep(Some("a"), None, false), WorkStep(Some("b"), None, false)], [])

  function TwoItems(): seq<Item> {
    [Item(0, TWO.steps[0])] + [Item(1, TWO.steps[1])]
  }

  lemma TwoRemaining()
    ensures Remaining(TWO.steps, []) == TwoItems() && Distinct(Labels(TwoItems()))
  {
    RemainingAll(TWO.steps, 0);
    assert Remaining(TWO.steps, []) == TwoItems();
    assert Labels(TwoItems())[0] == "a" && Labels(TwoItems())[1] == "b";
  }

  function MidRound(): World {
    World(RUNNING, ["a"], map[], [Row(1, ["a"])], Some("c0"), FILES,
          Some(Running([Item(1, TWO.steps[1])], ["a"], 1, Some("c0"), Ready, {0}, ["a"])),
          [Dispatched(0), Checkpointed({0})])
  }

  /** The first round of two steps, up to the checkpoint of the first. */
  lemma TwoStarts(w: World)
    requires w == NewWorld("c0").(loaded := w.loaded)
    ensures Decide(TWO, ClaimedIn(w), w.unverified) == Go(TwoItems(), [], 0, {})
    ensures Saved(TWO, RunningIn(w, Go(TwoItems(), [], 0, {}))) == MidRound().(loaded := w.loaded)
  {
    TwoRemaining();
    FirstPlan(TWO, ClaimedIn(w), []);
    assert TwoItems()[1..] == [Item(1, TWO.steps[1])];
    assert {} + {0} == {0} && [] + ["a"] == ["a"];
    assert [] + [Dispatched(0)] + [Checkpointed({0})] == [Dispatched(0), Checkpointed({0})];
  }

  lemma NotAtHead(w: World)
    requires w.checkpoints == [Row(1, ["a"])] && w.head == Some("c1")
    ensures Own(TWO, w, Row(1, ["a"])) && OffRecord(TWO, w)
  {
    assert Latest(w.checkpoints) == Some(Row(1, ["a"])) by { assert w.checkpoints[1..] == []; }
    assert "c0"[1] != "c1"[1];
    assert Own(TWO, w, Row(1, ["a"]));
  }

  lemma ToMidRound(ops: seq<Op>)
    ensures Run(TWO, NewWorld("c0"), FirstStepOps(ops)) == Run(TWO, MidRound(), ops)
  {
    TwoStarts(NewWorld("c0"));
    FirstStepRun(TWO, NewWorld("c0"), Go(TwoItems(), [], 0, {}), ops);
  }

  lemma MoveRun()
    ensures Run(TWO, NewWorld("c0"), FirstStepOps([HeadMoves(Some("c1"))] + [])) == MidRound().(head := Some("c1"))
  {
    ToMidRound([HeadMoves(Some("c1"))] + []);
    RunFirst(TWO, MidRound(), HeadMoves(Some("c1")), []);
  }

  /** HEAD moves after the first of two steps: the second is dispatched although no checkpoint is valid any more. */
  lemma HeadMovesMidRound() returns (ops: seq<Op>)
    ensures Initial(TWO, NewWorld("c0"))
    ensures var w := Run(TWO, NewWorld("c0"), ops);
            OffRecord(TWO, w) && Dispatches(w, Perform) && Step(TWO, w, Perform).log == w.log + [Dispatched(1)]
  {
    ops := FirstStepOps([HeadMoves(Some("c1"))] + []);
    MoveRun();
    NotAtHead(Run(TWO, NewWorld("c0"), ops));
  }

  // ---------------------------------------------------------------- a step lost to another one's number

  const LOST := Job("d", "t", "team", [WorkStep(None, None, false), WorkStep(Some("step_2"), None, false)], [])

  function Both(): seq<Item> {
    [Item(0, LOST.steps[0])] + [Item(1, LOST.steps[1])]
  }

  lemma Numerals()
    ensures Label(LOST.steps[0], 1) == "step_1" && Label(LOST.steps[0], 2) == "step_2"
            && Label(LOST.steps[0], 3) == "step_3"
    ensures "step_1" != "step_2" && "step_2" != "step_3" && "step_1" != "step_3"
  {
    assert "step_1"[5] == '1' && "step_2"[5] == '2' && "step_3"[5] == '3';
  }

  lemma LostRemaining(completed: seq<string>)
    ensures Remaining(LOST.steps, completed) == if "step_2" in completed then [Item(0, LOST.steps[0])] else Both()
  {
    assert RemainingFrom(LOST.steps, completed, 2) == [];
    assert RemainingFrom(LOST.steps, completed, 1) == if "step_2" in completed then [] else [Item(1, LOST.steps[1])];
  }

  lemma LostVerified(files: Files, completed: seq<string>)
    ensures Verified(LOST, files, completed) == completed
  {
    forall n ensures ArtifactStands(LOST, files, n) {
      assert LOST.steps[1..][1..] == [];
      assert StepNamed(LOST.steps[1..][1..], n) == None;
    }
    VerifiedAll(LOST, files, completed);
  }

  lemma BothDistinct()
    ensures Distinct(Labels(Both()))
  {
    Numerals();
    assert Labels(Both())[0] == "step_1" && Labels(Both())[1] == "step_2";
  }

  /** A round with something left to do. */
  lemma NextPlan(job: Job, w: World, noted: seq<string>, cp: Checkpoint, rest: seq<Item>)
    requires ValidLatest(job, w) == Some(cp) && Completed(job, w) == cp.completed
    requires Remaining(job.steps, cp.completed) == rest && rest != [] && Distinct(Labels(rest))
    ensures Decide(job, w, noted) == Go(rest, cp.completed, cp.index, cp.steps - Positions(rest))
  {}

  /** What is left of the list either way: the first step is in it. */
  function LostRest(completed: seq<string>): (rest: seq<Item>)
    ensures rest != [] && Distinct(Labels(rest)) && {0} - Positions(rest) == {}
  {
    BothDistinct();
    if "step_2" in completed then
      var rest := [Item(0, LOST.steps[0])];
      assert rest[0] in rest;
      rest
    else
      assert Both()[0] in Both();
      Both()
  }

  lemma LostValid(w: World, row: Checkpoint)
    requires Latest(w.checkpoints) == Some(row) && row == Row(row.index, row.completed) && w.head == Some("c0")
    ensures ValidLatest(LOST, w) == Some(row) && Completed(LOST, w) == row.completed
  {
    LostVerified(w.files, row.completed);
  }

  /** What a later round plans: it skips by name. */
  lemma LostPlan(w: World, noted: seq<string>, row: Checkpoint)
    requires Latest(w.checkpoints) == Some(row) && row == Row(row.index, row.completed) && w.head == Some("c0")
    ensures Decide(LOST, w, noted) == Go(LostRest(row.completed), row.completed, row.index, {})
  {
    LostValid(w, row);
    LostRemaining(row.completed);
    NextPlan(LOST, w, noted, row, LostRest(row.completed));
  }

  function Lost1(): World {
    Rest([Dispatched(0), Checkpointed({0})], [Row(1, ["step_1"])], ["step_1"])
  }

  function Lost2(): World {
    Rest([Dispatched(0), Checkpointed({0}), Dispatched(0), Checkpointed({0})],
         [Row(1, ["step_1"]), Row(2, ["step_1", "step_2"])], ["step_1", "step_2"])
  }

  lemma FirstLossPlan()
    ensures Decide(LOST, ClaimedIn(NewWorld("c0")), []) == Go(Both(), [], 0, {})
  {
    LostRemaining([]);
    BothDistinct();
    FirstPlan(LOST, ClaimedIn(NewWorld("c0")), []);
  }

  lemma FirstLoss()
    ensures Saved(LOST, RunningIn(NewWorld("c0"), Go(Both(), [], 0, {}))).(mem := None, status := FAILED) == Lost1()
  {
    Numerals();
    assert {} + {0} == {0} && [] + ["step_1"] == ["step_1"];
    assert [] + [Dispatched(0)] + [Checkpointed({0})] == [Dispatched(0), Checkpointed({0})];
  }

  lemma SecondPlan()
    ensures Decide(LOST, ClaimedIn(Lost1()), Lost1().unverified) == Go(Both(), ["step_1"], 1, {})
  {
    Numerals();
    var cps := [Row(1, ["step_1"])];
    assert Latest(cps) == Some(Row(1, ["step_1"])) by { assert cps[1..] == []; }
    LostPlan(ClaimedIn(Lost1()), Lost1().unverified, Row(1, ["step_1"]));
  }

  lemma SecondLoss()
    ensures Saved(LOST, RunningIn(Lost1(), Go(Both(), ["step_1"], 1, {}))).(mem := None, status := FAILED) == Lost2()
  {
    Numerals();
    assert {} + {0} == {0} && ["step_1"] + ["step_2"] == ["step_1", "step_2"];
    var row := Row(2, ["step_1", "step_2"]);
    assert SaveCheckpoint([Row(1, ["step_1"])], row) == [Row(1, ["step_1"]), row] by {
      SavedRows([Row(1, ["step_1"])], row, row);
    }
  }

  lemma ThirdPlan()
    ensures Decide(LOST, ClaimedIn(Lost2()), Lost2().unverified)
            == Go([Item(0, LOST.steps[0])], ["step_1", "step_2"], 2, {})
  {
    var row, cps := Row(2, ["step_1", "step_2"]), [Row(1, ["step_1"]), Row(2, ["step_1", "step_2"])];
    assert cps[1..] == [row] && [row][1..] == [];
    assert Latest([row]) == Some(row) && Latest(cps) == Some(row);
    LostPlan(ClaimedIn(Lost2()), Lost2().unverified, row);
  }

  lemma FinishOnly(job: Job, w: World)
    requires AtStage(w, Ready) && w.mem.value.remaining == []
    ensures Run(job, w, [Finish]).log == w.log + [Finished]
  {
    RunFirst(job, w, Finish, []);
    assert [Finish] + [] == [Finish];
  }

  function ThirdRound(): World {
    RunningIn(Lost2(), Go([Item(0, LOST.steps[0])], ["step_1", "step_2"], 2, {}))
  }

  lemma ThirdSaved()
    ensures var w := Saved(LOST, ThirdRound());
            AtStage(w, Ready) && w.mem.value.remaining == []
              && w.log == Lost2().log + [Dispatched(0)] + [Checkpointed({0})]
  {
    assert {} + {0} == {0};
  }

  lemma ThirdStarts(ops: seq<Op>)
    ensures Run(LOST, Lost2(), FirstStepOps(ops)) == Run(LOST, Saved(LOST, ThirdRound()), ops)
  {
    ThirdPlan();
    FirstStepRun(LOST, Lost2(), Go([Item(0, LOST.steps[0])], ["step_1", "step_2"], 2, {}), ops);
  }

  /** The third round performs the unnamed step once more and calls the task complete. */
  lemma LostFinishes()
    ensures Run(LOST, Lost2(), FirstStepOps([Finish])).log
            == Lost2().log + [Dispatched(0)] + [Checkpointed({0})] + [Finished]
  {
    ThirdStarts([Finish]);
    ThirdSaved();
    FinishOnly(LOST, Saved(LOST, ThirdRound()));
  }

  lemma LostFirst(ops: seq<Op>)
    ensures Run(LOST, NewWorld("c0"), RoundOps(ops)) == Run(LOST, Lost1(), ops)
  {
    FirstLossPlan();
    FirstLoss();
    RoundRun(LOST, NewWorld("c0"), Go(Both(), [], 0, {}), ops);
  }

  lemma LostSecond(ops: seq<Op>)
    ensures Run(LOST, Lost1(), RoundOps(ops)) == Run(LOST, Lost2(), ops)
  {
    SecondPlan();
    SecondLoss();
    RoundRun(LOST, Lost1(), Go(Both(), ["step_1"], 1, {}), ops);
  }

  lemma LostRun()
    ensures Run(LOST, NewWorld("c0"), RoundOps(RoundOps(FirstStepOps([Finish])))).log
            == Lost2().log + [Dispatched(0)] + [Checkpointed({0})] + [Finished]
  {
    LostFirst(RoundOps(FirstStepOps([Finish])));
    LostSecond(FirstStepOps([Finish]));
    LostFinishes();
  }

  lemma LostLog(log: seq<Event>)
    requires log == Lost2().log + [Dispatched(0)] + [Checkpointed({0})] + [Finished]
    ensures Finished in log && Dispatched(1) !in log
  {
    assert log[|log| - 1] == Finished;
  }

  lemma MissedStep(job: Job, start: World, ops: seq<Op>, p: nat)
    requires Initial(job, start) && p < |job.steps|
    requires Finished in Run(job, start, ops).log && Dispatched(p) !in Run(job, start, ops).log
    ensures !NeverAliases(job, start, ops)
  {
    if NeverAliases(job, start, ops) { CompletedIsRecorded(job, start, ops, Crash); }
  }

  /**
   An unnamed step, then one named "step_2". After a crash the unnamed one is performed again, now as
   number 2; after another one the step of that name counts as done. COMPLETED is stored, and it was
   never performed.
   */
  lemma StepIsLost() returns (ops: seq<Op>)
    ensures Initial(LOST, NewWorld("c0"))
    ensures var w := Run(LOST, NewWorld("c0"), ops);
            Finished in w.log && Dispatched(1) !in w.log && !NeverAliases(LOST, NewWorld("c0"), ops)
  {
    ops := RoundOps(RoundOps(FirstStepOps([Finish])));
    LostRun();
    LostLog(Run(LOST, NewWorld("c0"), ops).log);
    MissedStep(LOST, NewWorld("c0"), ops, 1);
  }

  // ---------------------------------------------------------------- a payload put back

  /** The first step of two done and noted, with the row in the hands of an auditor who read it before. */
  function Waiting(): map<nat, Row> {
    map[0 := CrashRecovery.Row(RUNNING, [])]
  }

  /** After the audit's write, the orchestrator's death and a move of HEAD. */
  function Erased(): World {
    World(FAILED, [], map[], [Row(1, ["a"])], Some("c1"), FILES, None, [Dispatched(0), Checkpointed({0})])
  }

  lemma ErasedPlan()
    ensures OffRecord(TWO, ClaimedIn(Erased()))
    ensures Decide(TWO, ClaimedIn(Erased()), []) == Go(TwoItems(), [], 0, {})
  {
    NotAtHead(ClaimedIn(Erased()));
    TwoRemaining();
  }

  function EraseOps(ops: seq<Op>): seq<Op> {
    [Write(0, Audit(false))] + ([Crash] + ([HeadMoves(Some("c1"))] + ops))
  }

  lemma WriteErases(w: World, ops: seq<Op>)
    requires w == MidRound().(loaded := Waiting())
    ensures Run(TWO, w, EraseOps(ops)) == Run(TWO, Erased(), ops)
    ensures Erases(TWO, w, Write(0, Audit(false)))
  {
    RunFirst(TWO, w, Write(0, Audit(false)), [Crash] + ([HeadMoves(Some("c1"))] + ops));
    assert Waiting() - {0} == map[];
    var written := Step(TWO, w, Write(0, Audit(false)));
    RunFirst(TWO, written, Crash, [HeadMoves(Some("c1"))] + ops);
    RunFirst(TWO, Step(TWO, written, Crash), HeadMoves(Some("c1")), ops);
    assert Own(TWO, w, Row(1, ["a"]));
  }

  /** A first round during which the row is read, up to the checkpoint of its first step. */
  function ReadMidway(ops: seq<Op>): seq<Op> {
    [Claim] + ([Look(Usable)] + ([Start(true)] + ([Read(0)] + ([Perform] + ([NoteDone] + ([Save(0)] + ops))))))
  }

  lemma ReadOnly(w: World, plan: Plan, ops: seq<Op>)
    requires w.loaded == map[] && w.unverified == [] && plan.Go?
    ensures Run(TWO, RunningIn(w, plan), [Read(0)] + ops) == Run(TWO, RunningIn(w.(loaded := Waiting()), plan), ops)
  {
    RunFirst(TWO, RunningIn(w, plan), Read(0), ops);
    assert Step(TWO, RunningIn(w, plan), Read(0)) == RunningIn(w.(loaded := Waiting()), plan);
  }

  lemma ReadMidwayRun(ops: seq<Op>)
    ensures Run(TWO, NewWorld("c0"), ReadMidway(ops)) == Run(TWO, MidRound().(loaded := Waiting()), ops)
  {
    var w, plan, rest := NewWorld("c0"), Go(TwoItems(), [], 0, {}), [Perform] + ([NoteDone] + ([Save(0)] + ops));
    TwoStarts(w);
    ClaimAndPlan(TWO, w, plan, [Read(0)] + rest);
    ReadOnly(w, plan, rest);
    TwoStarts(w.(loaded := Waiting()));
    PerformAndSave(TWO, RunningIn(w.(loaded := Waiting()), plan), ops);
  }

  lemma {:induction false} RunConcat(job: Job, w: World, ops: seq<Op>, more: seq<Op>)
    ensures Run(job, w, ops + more) == Run(job, Run(job, w, ops), more)
    ensures RoundsOnRecord(job, w, ops + more) ==> RoundsOnRecord(job, Run(job, w, ops), more)
    decreases |ops|
  {
    if ops == [] {
      assert ops + more == more;
    } else {
      assert (ops + more)[1..] == ops[1..] + more;
      RunConcat(job, Step(job, w, ops[0]), ops[1..], more);
    }
  }

  lemma EraseRun()
    ensures Run(TWO, NewWorld("c0"), ReadMidway(EraseOps([Claim] + []))) == ClaimedIn(Erased())
  {
    ReadMidwayRun(EraseOps([Claim] + []));
    WriteErases(MidRound().(loaded := Waiting()), [Claim] + []);
    RunFirst(TWO, Erased(), Claim, []);
  }

  /** The claim that follows plans the whole list, the checkpointed step included, on a record that is not valid. */
  lemma ErasedRound()
    ensures Run(TWO, ClaimedIn(Erased()), [Look(Usable)] + ([Start(true)] + [Perform])).log
            == [Dispatched(0), Checkpointed({0})] + [Dispatched(0)]
    ensures !RoundsOnRecord(TWO, ClaimedIn(Erased()), [Look(Usable)] + ([Start(true)] + [Perform]))
  {
    var w, plan := ClaimedIn(Erased()), Go(TwoItems(), [], 0, {});
    ErasedPlan();
    RunFirst(TWO, w, Look(Usable), [Start(true)] + [Perform]);
    RunFirst(TWO, Step(TWO, w, Look(Usable)), Start(true), [Perform]);
    PlanGoes(TWO, w, plan);
    PerformOnly(TWO, RunningIn(w, plan));
  }

  /**
   The audit reads the row before the first step is noted and writes it back after the step is
   checkpointed: the note is gone. HEAD moves, and the next resume plans the checkpointed step anew.
   */
  lemma LateAuditErasesNote() returns (before: seq<Op>, ops: seq<Op>)
    ensures Initial(TWO, NewWorld("c0")) && before <= ops
    ensures var w := Run(TWO, NewWorld("c0"), before); OffRecord(TWO, w) && Plans(TWO, w, Look(Usable))
    ensures var log := Run(TWO, NewWorld("c0"), ops).log;
            log == [Dispatched(0), Checkpointed({0}), Dispatched(0)] && !NeverRepeats(log)
    ensures !RoundsOnRecord(TWO, NewWorld("c0"), ops) && !NeverErases(TWO, NewWorld("c0"), ops)
  {
    before := ReadMidway(EraseOps([Claim] + []));
    EraseRun();
    ErasedPlan();
    var last := [Look(Usable)] + ([Start(true)] + [Perform]);
    ops := before + last;
    RunConcat(TWO, NewWorld("c0"), before, last);
    ErasedRound();
    var log := [Dispatched(0), Checkpointed({0}), Dispatched(0)];
    assert log[1].Checkpointed? && log[2].Dispatched?;
    if NeverErases(TWO, NewWorld("c0"), ops) { NoRoundOnUntrustedRecord(TWO, NewWorld("c0"), ops); }
  }
}
