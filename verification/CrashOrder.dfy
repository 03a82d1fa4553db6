/**
 Resuming when the evidence behind each checkpoint stands: no step twice once checkpointed, and list order
 throughout.
 */
module CrashOrder {
  import opened Prelude
  import opened CrashRecovery
  import opened CrashGuard
  import opened CrashSafety

  /** What a round takes up is good: nothing is on file, or a valid checkpoint whose evidence stands. */
  ghost predicate Grounded(job: Job, w: World) {
    OnFile(job, w) ==> ValidLatest(job, w).Some? && EvidenceStands(job, w, ValidLatest(job, w).value)
  }

  ghost predicate AlwaysGrounded(job: Job, w: World, ops: seq<Op>)
    decreases |ops|
  {
    ops != [] ==> (Plans(job, w, ops[0]) ==> Grounded(job, w)) && AlwaysGrounded(job, Step(job, w, ops[0]), ops[1..])
  }

  /** The part of it that is about files. */
  ghost predicate Evidenced(job: Job, w: World, op: Op) {
    Plans(job, w, op) && ValidLatest(job, w).Some? ==> EvidenceStands(job, w, ValidLatest(job, w).value)
  }

  ghost predicate AlwaysEvidenced(job: Job, w: World, ops: seq<Op>)
    decreases |ops|
  {
    ops != [] ==> Evidenced(job, w, ops[0]) && AlwaysEvidenced(job, Step(job, w, ops[0]), ops[1..])
  }

  /** The other part is the guard's. */
  lemma {:induction false} GroundedIff(job: Job, w: World, ops: seq<Op>)
    ensures AlwaysGrounded(job, w, ops) ==> RoundsOnRecord(job, w, ops)
    ensures RoundsOnRecord(job, w, ops) && AlwaysEvidenced(job, w, ops) ==> AlwaysGrounded(job, w, ops)
    decreases |ops|
  {
    if ops != [] { GroundedIff(job, Step(job, w, ops[0]), ops[1..]); }
  }

  /** One name for each of the first steps of the list, and no name of any other. */
  ghost predicate IsPrefix(job: Job, completed: seq<string>, steps: set<nat>) {
    && |completed| <= |job.steps| && (forall p: nat :: p in steps <==> p < |completed|)
    && (forall p | p in steps && job.steps[p].name.Some? :: job.steps[p].name.value in completed)
    && (forall n | n in completed :: Covered(job, steps, n) || !NamedUpTo(job, |completed|))
  }

  predicate NamedUpTo(job: Job, k: nat) {
    forall p | 0 <= p < k && p < |job.steps| :: job.steps[p].name.Some?
  }

  /** The rest of the list, in its order. */
  ghost predicate Ahead(steps: seq<WorkStep>, items: seq<Item>, k: nat) {
    k <= |steps| && |items| == |steps| - k && forall i | 0 <= i < |items| :: items[i] == Item(k + i, steps[k + i])
  }

  /** How many steps the checkpoints of this task record. */
  function Top(job: Job, cps: seq<Checkpoint>): nat {
    if cps == [] then 0
    else
      var rest := Top(job, cps[1..]);
      if cps[0].dispatchId == job.dispatchId && |cps[0].completed| > rest then |cps[0].completed| else rest
  }

  lemma {:induction false} TopBounds(job: Job, cps: seq<Checkpoint>)
    ensures forall c | c in cps && c.dispatchId == job.dispatchId :: |c.completed| <= Top(job, cps)
    ensures Top(job, cps) == 0
            || exists c :: c in cps && c.dispatchId == job.dispatchId && |c.completed| == Top(job, cps)
  {
    if cps != [] {
      TopBounds(job, cps[1..]);
      var rest := Top(job, cps[1..]);
      if Top(job, cps) == rest && rest != 0 {
        var c :| c in cps[1..] && c.dispatchId == job.dispatchId && |c.completed| == rest;
        assert c in cps;
      } else if Top(job, cps) != 0 {
        assert cps[0] in cps;
      }
    }
  }

  lemma TopIs(job: Job, cps: seq<Checkpoint>, k: nat)
    requires forall c | c in cps && c.dispatchId == job.dispatchId :: |c.completed| <= k
    requires k == 0 || exists c :: c in cps && c.dispatchId == job.dispatchId && |c.completed| == k
    ensures Top(job, cps) == k
  {
    TopBounds(job, cps);
  }

  /** No step is dispatched that an earlier checkpoint already records. */
  ghost predicate NeverRepeats(log: seq<Event>) {
    forall i, j | 0 <= i < j < |log| && log[i].Checkpointed? && log[j].Dispatched? :: log[j].step !in log[i].steps
  }

  ghost predicate Ordered(log: seq<Event>) {
    forall i, j | 0 <= i < j < |log| && log[i].Dispatched? && log[j].Dispatched? :: log[i].step <= log[j].step
  }

  ghost predicate RowsSteady(job: Job, w: World) {
    && (forall c | Own(job, w, c) :: IsPrefix(job, c.completed, c.steps))
    && (forall a, b | Own(job, w, a) && Own(job, w, b) && a.index <= b.index :: |a.completed| <= |b.completed|)
  }

  ghost predicate ResumerSteady(job: Job, w: World) {
    w.mem.Some? ==>
      match w.mem.value
      case Claimed(_) => true
      case Looked(plan, _, _) =>
        plan.Go? ==>
          && IsPrefix(job, plan.completed, plan.done) && Ahead(job.steps, plan.remaining, |plan.completed|)
          && |plan.completed| == Top(job, w.checkpoints)
      case Running(remaining, completed, _, _, stage, done, _) =>
        && IsPrefix(job, completed, done) && Ahead(job.steps, remaining, |completed|)
        && |completed| == Top(job, w.checkpoints) + if stage == Ready then 0 else 1
  }

  ghost predicate LogSteady(log: seq<Event>, top: nat) {
    && (forall i | 0 <= i < |log| && log[i].Checkpointed? :: forall p | p in log[i].steps :: p < top)
    && (forall i | 0 <= i < |log| && log[i].Dispatched? :: log[i].step <= top)
    && NeverRepeats(log) && Ordered(log)
  }

  ghost predicate Steady(job: Job, w: World) {
    && Inv(job, w) && Numbered(job, w) && RowsSteady(job, w) && ResumerSteady(job, w)
    && LogSteady(w.log, Top(job, w.checkpoints))
  }

  lemma {:induction false} VerifiedAll(job: Job, files: Files, names: seq<string>)
    requires forall n | n in names :: ArtifactStands(job, files, n)
    ensures Verified(job, files, names) == names
  {
    if names != [] { VerifiedAll(job, files, names[1..]); }
  }

  /** Skipping exactly the first steps leaves the rest of the list, in its order. */
  lemma {:induction false} RemainingSuffix(steps: seq<WorkStep>, completed: seq<string>, k: nat, i: nat)
    requires k <= |steps| && i <= |steps| && forall p | 0 <= p < |steps| :: Skipped(steps[p], completed) <==> p < k
    ensures Ahead(steps, RemainingFrom(steps, completed, i), if i < k then k else i)
    decreases |steps| - i
  {
    if i < |steps| {
      RemainingSuffix(steps, completed, k, i + 1);
      var rest := RemainingFrom(steps, completed, i + 1);
      if i < k {
        assert RemainingFrom(steps, completed, i) == [] + rest == rest;
      } else {
        assert RemainingFrom(steps, completed, i) == [Item(i, steps[i])] + rest;
      }
    }
  }

  lemma OwnRowsTop(job: Job, w: World)
    ensures forall c | Own(job, w, c) :: |c.completed| <= Top(job, w.checkpoints)
    ensures Top(job, w.checkpoints) == 0 || exists c :: Own(job, w, c) && |c.completed| == Top(job, w.checkpoints)
  {
    TopBounds(job, w.checkpoints);
    if Top(job, w.checkpoints) != 0 {
      var c :| c in w.checkpoints && c.dispatchId == job.dispatchId && |c.completed| == Top(job, w.checkpoints);
      assert Own(job, w, c);
    }
  }

  /** The newest checkpoint records the most. */
  lemma LatestIsTop(job: Job, w: World)
    requires RowsSteady(job, w) && ValidLatest(job, w).Some?
    ensures var cp := ValidLatest(job, w).value;
            Own(job, w, cp) && |cp.completed| == Top(job, w.checkpoints)
  {
    var cp := ValidLatest(job, w).value;
    OwnRowsTop(job, w);
    assert Own(job, w, cp);
    if c :| Own(job, w, c) && |c.completed| == Top(job, w.checkpoints) {
      assert c.index <= cp.index;
    }
  }

  /** On standing evidence exactly the recorded steps are skipped. */
  lemma SkippedArePrefix(job: Job, w: World, cp: Checkpoint, p: nat)
    requires Own(job, w, cp) && IsPrefix(job, cp.completed, cp.steps) && NamesDiffer(job.steps)
    requires EvidenceStands(job, w, cp) && p < |job.steps|
    ensures Skipped(job.steps[p], cp.completed) <==> p < |cp.completed|
  {
    if p >= |cp.completed| {
      forall n | n in cp.completed ensures Some(n) != job.steps[p].name {
        assert Covered(job, cp.steps, n);
        var q :| q in cp.steps && Named(job, q, n);
      }
    }
  }

  lemma SteadyCompleted(job: Job, w: World)
    requires Steady(job, w) && ValidLatest(job, w).Some? && EvidenceStands(job, w, ValidLatest(job, w).value)
    ensures var cp := ValidLatest(job, w).value;
            && |cp.completed| == Top(job, w.checkpoints) && IsPrefix(job, cp.completed, cp.steps)
            && Completed(job, w) == cp.completed && Ahead(job.steps, Remaining(job.steps, cp.completed), |cp.completed|)
  {
    var cp := ValidLatest(job, w).value;
    LatestIsTop(job, w);
    assert RowOk(job, cp) && IsPrefix(job, cp.completed, cp.steps);
    WholePlanNamesDiffer(job.steps);
    forall n | n in cp.completed ensures ArtifactStands(job, w.files, n) {
      assert Covered(job, cp.steps, n);
    }
    VerifiedAll(job, w.files, cp.completed);
    forall p: nat | p < |job.steps| ensures Skipped(job.steps[p], cp.completed) <==> p < |cp.completed| {
      SkippedArePrefix(job, w, cp, p);
    }
    RemainingSuffix(job.steps, cp.completed, |cp.completed|, 0);
  }

  /** A round on good ground takes up the list exactly where the checkpoints leave off. */
  lemma PlanTakesUpTheList(job: Job, w: World, noted: seq<string>)
    requires Steady(job, w) && Grounded(job, w) && Decide(job, w, noted).Go?
    ensures var plan := Decide(job, w, noted);
            && |plan.completed| == Top(job, w.checkpoints) && IsPrefix(job, plan.completed, plan.done)
            && Ahead(job.steps, plan.remaining, |plan.completed|)
  {
    OwnRowsTop(job, w);
    if ValidLatest(job, w).Some? {
      var cp := ValidLatest(job, w).value;
      assert Own(job, w, cp);
      SteadyCompleted(job, w);
      AheadDisjoint(job.steps, Remaining(job.steps, cp.completed), cp.steps, |cp.completed|);
    } else {
      RemainingSuffix(job.steps, [], 0, 0);
    }
  }

  /** Good ground is exactly what it takes: otherwise a round plans anew a step that some checkpoint records. */
  lemma RoundReplaysIff(job: Job, w: World, noted: seq<string>)
    requires Steady(job, w) && Decide(job, w, noted).Go?
    ensures (exists c, p :: Own(job, w, c) && p in c.steps && p in Positions(Decide(job, w, noted).remaining))
            <==> !Grounded(job, w)
  {
    var remaining := Decide(job, w, noted).remaining;
    if Grounded(job, w) {
      PlanTakesUpTheList(job, w, noted);
      OwnRowsTop(job, w);
      forall c, p | Own(job, w, c) && p in c.steps ensures p !in Positions(remaining) {
        assert IsPrefix(job, c.completed, c.steps);
      }
    } else if ValidLatest(job, w).Some? {
      var cp := ValidLatest(job, w).value;
      assert Own(job, w, cp);
      ReplayIffEvidenceGone(job, w, noted, cp);
    } else {
      var c :| Own(job, w, c);
      assert RowOk(job, c);
      var p :| p in c.steps;
      RemainingKeeps(job.steps, [], p);
      assert p in Positions(remaining);
    }
  }

  lemma AheadDisjoint(steps: seq<WorkStep>, items: seq<Item>, done: set<nat>, k: nat)
    requires Ahead(steps, items, k) && forall p: nat :: p in done <==> p < k
    ensures done - Positions(items) == done
  {}

  /** A step that neither plans, dispatches nor saves. */
  lemma OtherKeepsSteady(job: Job, w: World, op: Op)
    requires Steady(job, w) && !Plans(job, w, op) && !Dispatches(w, op) && !(op.Save? && AtStage(w, Noted))
    ensures Steady(job, Step(job, w, op))
  {
    var w' := Step(job, w, op);
    StepKeepsInv(job, w, op);
    StepKeepsNumbered(job, w, op);
    StepKeepsOwn(job, w, op);
    OwnTop(job, w, w');
    OtherLog(job, w, op);
    OtherResumer(job, w, op);
  }

  lemma OwnTop(job: Job, w: World, w': World)
    requires SameRows(job, w, w')
    ensures Top(job, w'.checkpoints) == Top(job, w.checkpoints)
  {
    OwnRowsTop(job, w);
    forall c | c in w'.checkpoints && c.dispatchId == job.dispatchId ensures |c.completed| <= Top(job, w.checkpoints) {
      assert Own(job, w', c);
    }
    if Top(job, w.checkpoints) != 0 {
      var c :| Own(job, w, c) && |c.completed| == Top(job, w.checkpoints);
      assert Own(job, w', c);
    }
    TopIs(job, w'.checkpoints, Top(job, w.checkpoints));
  }

  lemma OtherLog(job: Job, w: World, op: Op)
    requires LogSteady(w.log, Top(job, w.checkpoints)) && !Dispatches(w, op) && !(op.Save? && AtStage(w, Noted))
    ensures LogSteady(Step(job, w, op).log, Top(job, w.checkpoints))
  {
    if op.Start? && w.mem.Some? && w.mem.value.Looked? { StartOutcomes(w, op.granted); }
    FinishedKeepsLog(w.log, Top(job, w.checkpoints));
  }

  lemma FinishedKeepsLog(log: seq<Event>, top: nat)
    requires LogSteady(log, top)
    ensures LogSteady(log + [Finished], top)
  {}

  lemma OtherResumer(job: Job, w: World, op: Op)
    requires ResumerSteady(job, w) && !Plans(job, w, op) && !Dispatches(w, op) && !(op.Save? && AtStage(w, Noted))
    requires Top(job, Step(job, w, op).checkpoints) == Top(job, w.checkpoints)
    ensures ResumerSteady(job, Step(job, w, op))
  {
    if op.Start? && w.mem.Some? && w.mem.value.Looked? { StartOutcomes(w, op.granted); }
  }

  lemma PlanKeepsSteady(job: Job, w: World, op: Op)
    requires Steady(job, w) && Plans(job, w, op) && Grounded(job, w)
    ensures Steady(job, Step(job, w, op))
  {
    StepKeepsInv(job, w, op);
    StepKeepsNumbered(job, w, op);
    StepKeepsOwn(job, w, op);
    PlanTakesUpTheList(job, w, w.mem.value.noted);
  }

  /** The step a resumer performs next is the first that no checkpoint records. */
  lemma PerformKeepsLog(log: seq<Event>, top: nat)
    requires LogSteady(log, top)
    ensures LogSteady(log + [Dispatched(top)], top)
  {}

  lemma PerformedPrefix(job: Job, m: Resumer, name: string)
    requires m.Running? && IsPrefix(job, m.completed, m.done) && |m.completed| < |job.steps|
    requires job.steps[|m.completed|].name.Some? ==> name == job.steps[|m.completed|].name.value
    ensures IsPrefix(job, m.completed + [name], m.done + {|m.completed|})
  {
    var k, completed, done := |m.completed|, m.completed + [name], m.done + {|m.completed|};
    forall n | n in completed && NamedUpTo(job, k + 1) ensures Covered(job, done, n) {
      if n in m.completed {
        assert NamedUpTo(job, k) && Covered(job, m.done, n);
        var p :| p in m.done && Named(job, p, n);
        assert p in done;
      } else {
        assert job.steps[k].name.Some?;
        assert k in done && Named(job, k, n);
      }
    }
  }

  lemma PerformedSteady(job: Job, w: World)
    requires Steady(job, w) && Dispatches(w, Perform)
    ensures ResumerSteady(job, DoPerform(w))
  {
    var m := w.mem.value;
    PerformedPrefix(job, m, Label(m.remaining[0].step, m.index + 1));
  }

  lemma PerformKeepsSteady(job: Job, w: World)
    requires Steady(job, w) && Dispatches(w, Perform)
    ensures Steady(job, DoPerform(w))
  {
    StepKeepsInv(job, w, Perform);
    StepKeepsNumbered(job, w, Perform);
    StepKeepsOwn(job, w, Perform);
    PerformKeepsLog(w.log, Top(job, w.checkpoints));
    PerformedSteady(job, w);
  }

  lemma SaveKeepsRows(job: Job, w: World, at: nat)
    requires Steady(job, w) && AtStage(w, Noted)
    ensures RowsSteady(job, DoSave(job, w, at))
    ensures Top(job, DoSave(job, w, at).checkpoints) == |w.mem.value.completed|
  {
    var w', m := DoSave(job, w, at), w.mem.value;
    SaveAdds(job, w, at);
    OwnRowsTop(job, w);
    forall c | c in w'.checkpoints && c.dispatchId == job.dispatchId ensures |c.completed| <= |m.completed| {
      assert Own(job, w', c);
    }
    assert Own(job, w', NewRow(job, m, at));
    TopIs(job, w'.checkpoints, |m.completed|);
  }

  lemma SaveKeepsLog(log: seq<Event>, top: nat, steps: set<nat>)
    requires LogSteady(log, top) && forall p | p in steps :: p < top + 1
    ensures LogSteady(log + [Checkpointed(steps)], top + 1)
  {}

  lemma SaveKeepsResumer(job: Job, w: World, at: nat)
    requires ResumerSteady(job, w) && AtStage(w, Noted)
    requires Top(job, DoSave(job, w, at).checkpoints) == |w.mem.value.completed|
    ensures ResumerSteady(job, DoSave(job, w, at))
  {}

  lemma SavedLogSteady(job: Job, w: World, at: nat)
    requires AtStage(w, Noted) && ResumerSteady(job, w) && LogSteady(w.log, Top(job, w.checkpoints))
    ensures LogSteady(DoSave(job, w, at).log, |w.mem.value.completed|)
  {
    SaveKeepsLog(w.log, Top(job, w.checkpoints), w.mem.value.done);
  }

  /** What a save leaves, put together. */
  lemma SteadyAgain(job: Job, w: World)
    requires Inv(job, w) && Numbered(job, w) && RowsSteady(job, w) && ResumerSteady(job, w)
    requires LogSteady(w.log, Top(job, w.checkpoints))
    ensures Steady(job, w)
  {}

  lemma SavedInv(job: Job, w: World, at: nat)
    requires Inv(job, w)
    ensures Inv(job, DoSave(job, w, at))
  {
    StepKeepsInv(job, w, Save(at));
  }

  lemma SaveKeepsSteady(job: Job, w: World, at: nat)
    requires Steady(job, w) && AtStage(w, Noted)
    ensures Steady(job, DoSave(job, w, at))
  {
    SavedInv(job, w, at);
    SaveKeepsNumbered(job, w, at);
    SaveKeepsRows(job, w, at);
    SaveKeepsResumer(job, w, at);
    SavedLogSteady(job, w, at);
    SteadyAgain(job, DoSave(job, w, at));
  }

  lemma StepKeepsSteady(job: Job, w: World, op: Op)
    requires Steady(job, w) && (Plans(job, w, op) ==> Grounded(job, w))
    ensures Steady(job, Step(job, w, op))
  {
    if Plans(job, w, op) {
      PlanKeepsSteady(job, w, op);
    } else if Dispatches(w, op) {
      PerformKeepsSteady(job, w);
    } else if op.Save? && AtStage(w, Noted) {
      SaveKeepsSteady(job, w, op.at);
    } else {
      OtherKeepsSteady(job, w, op);
    }
  }

  lemma {:induction false} RunKeepsSteady(job: Job, w: World, ops: seq<Op>)
    requires Steady(job, w) && AlwaysGrounded(job, w, ops)
    ensures Steady(job, Run(job, w, ops))
    decreases |ops|
  {
    if ops != [] {
      StepKeepsSteady(job, w, ops[0]);
      RunKeepsSteady(job, Step(job, w, ops[0]), ops[1..]);
    }
  }

  lemma InitialSteady(job: Job, start: World)
    requires Initial(job, start)
    ensures Steady(job, start)
  {
    InitialInv(job, start);
    OwnRowsTop(job, start);
  }

  /** No round plans a step that some checkpoint records. */
  ghost predicate NeverReplans(job: Job, w: World, ops: seq<Op>)
    decreases |ops|
  {
    ops != [] ==>
      && (Plans(job, w, ops[0]) ==>
            forall c, p | Own(job, w, c) && p in c.steps ::
              p !in Positions(Decide(job, w, w.mem.value.noted).remaining))
      && NeverReplans(job, Step(job, w, ops[0]), ops[1..])
  }

  lemma {:induction false} RunNeverReplansIff(job: Job, w: World, ops: seq<Op>)
    requires Steady(job, w)
    ensures NeverReplans(job, w, ops) <==> AlwaysGrounded(job, w, ops)
    decreases |ops|
  {
    if ops != [] {
      if Plans(job, w, ops[0]) { RoundReplaysIff(job, w, w.mem.value.noted); }
      if Plans(job, w, ops[0]) ==> Grounded(job, w) {
        StepKeepsSteady(job, w, ops[0]);
        RunNeverReplansIff(job, Step(job, w, ops[0]), ops[1..]);
      }
    }
  }

  /** Over whole runs good ground is the exact condition for plans that leave every checkpointed step alone. */
  lemma NeverReplansIff(job: Job, start: World, ops: seq<Op>)
    requires Initial(job, start)
    ensures NeverReplans(job, start, ops) <==> AlwaysGrounded(job, start, ops)
  {
    InitialSteady(job, start);
    RunNeverReplansIff(job, start, ops);
  }

  /**
   Resume safety over any number of crashes, outside writes and rounds of one resumer at a time: as long as
   every round is planned on good ground, a checkpointed step is never dispatched again, and steps are
   dispatched in list order across all rounds.
   */
  lemma ResumeSafety(job: Job, start: World, ops: seq<Op>)
    requires Initial(job, start) && AlwaysGrounded(job, start, ops)
    ensures NeverRepeats(Run(job, start, ops).log) && Ordered(Run(job, start, ops).log)
  {
    InitialSteady(job, start);
    RunKeepsSteady(job, start, ops);
  }

  /**
   What callers can answer for: the evidence stands at each plan, and no write puts back a payload read before the
   first note.
   */
  lemma GuardedResumeSafety(job: Job, start: World, ops: seq<Op>)
    requires Initial(job, start) && AlwaysEvidenced(job, start, ops) && NeverErases(job, start, ops)
    ensures NeverRepeats(Run(job, start, ops).log) && Ordered(Run(job, start, ops).log)
  {
    NoRoundOnUntrustedRecord(job, start, ops);
    GroundedIff(job, start, ops);
    ResumeSafety(job, start, ops);
  }
}
