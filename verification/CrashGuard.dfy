/**
 The guard against replaying on a record that cannot be trusted, `_unverified_completed_steps`, and what
 becomes of it when the row is written back by someone who read it earlier.
 */
module CrashGuard {
  import opened Prelude
  import opened CrashRecovery
  import opened CrashSafety

  // ---------------------------------------------------------------- the guard

  /**
   Once a step is checkpointed, and already between its note and its checkpoint, the row names steps
   observed done; and so does the copy of every resumer that has claimed the task since.
   */
  ghost predicate Guarded(job: Job, w: World) {
    && (OnFile(job, w) || AtStage(w, Noted) ==> w.unverified != [])
    && (OnFile(job, w) && w.mem.Some? ==> w.mem.value.noted != [])
  }

  /** What an editor can see before writing: its copy names nothing, although steps were observed done by now. */
  ghost predicate Erases(job: Job, w: World, op: Op) {
    && op.Write? && op.editor in w.loaded && Edited(w.loaded[op.editor].status, op.edit).Some?
    && w.loaded[op.editor].unverified == [] && (OnFile(job, w) || AtStage(w, Noted))
  }

  lemma SaveKeepsGuarded(job: Job, w: World, at: nat)
    requires Inv(job, w) && Guarded(job, w)
    ensures Guarded(job, DoSave(job, w, at))
  {
    if AtStage(w, Noted) { assert w.mem.value.noted != []; }
  }

  /** The guard is lost to an erasing write, and to nothing else. */
  lemma StepGuardedIff(job: Job, w: World, op: Op)
    requires Inv(job, w) && Guarded(job, w)
    ensures Guarded(job, Step(job, w, op)) <==> !Erases(job, w, op)
  {
    if op.Save? && AtStage(w, Noted) {
      SaveKeepsGuarded(job, w, op.at);
    } else {
      StepKeepsOwn(job, w, op);
      assert OnFile(job, Step(job, w, op)) <==> OnFile(job, w);
      if op.Start? && w.mem.Some? && w.mem.value.Looked? { StartOutcomes(w, op.granted); }
    }
  }

  ghost predicate NeverErases(job: Job, w: World, ops: seq<Op>)
    decreases |ops|
  {
    ops != [] ==> !Erases(job, w, ops[0]) && NeverErases(job, Step(job, w, ops[0]), ops[1..])
  }

  ghost predicate GuardedThroughout(job: Job, w: World, ops: seq<Op>)
    decreases |ops|
  {
    Guarded(job, w) && (ops != [] ==> GuardedThroughout(job, Step(job, w, ops[0]), ops[1..]))
  }

  lemma {:induction false} RunGuardedIff(job: Job, w: World, ops: seq<Op>)
    requires Inv(job, w) && Guarded(job, w)
    ensures GuardedThroughout(job, w, ops) <==> NeverErases(job, w, ops)
    decreases |ops|
  {
    if ops != [] {
      StepKeepsInv(job, w, ops[0]);
      StepGuardedIff(job, w, ops[0]);
      if Guarded(job, Step(job, w, ops[0])) { RunGuardedIff(job, Step(job, w, ops[0]), ops[1..]); }
    }
  }

  /** From a task not started yet the guard stands throughout if and only if no write erases it. */
  lemma GuardedIffNeverErases(job: Job, start: World, ops: seq<Op>)
    requires Initial(job, start)
    ensures GuardedThroughout(job, start, ops) <==> NeverErases(job, start, ops)
  {
    InitialInv(job, start);
    RunGuardedIff(job, start, ops);
  }

  // ---------------------------------------------------------------- starting a round

  /** This step, taken now, plans a round. */
  ghost predicate Plans(job: Job, w: World, op: Op) {
    op.Look? && op.session.Usable? && w.mem.Some? && w.mem.value.Claimed? && Decide(job, w, w.mem.value.noted).Go?
  }

  /** With a step on file, but no checkpoint of this task at the present HEAD. */
  ghost predicate OffRecord(job: Job, w: World) {
    OnFile(job, w) && ValidLatest(job, w).None?
  }

  /** A round is planned off the record if and only if the resumer's copy of the row names no step. */
  lemma PlanOffRecordIff(job: Job, w: World, op: Op)
    requires Inv(job, w) && OffRecord(job, w) && op.Look? && op.session.Usable? && w.mem.Some? && w.mem.value.Claimed?
    ensures Plans(job, w, op) <==> w.mem.value.noted == []
  {
    var c :| Own(job, w, c);
    assert RowOk(job, c);
    var p :| p in c.steps;
    RemainingAll(job.steps, 0);
  }

  ghost predicate RoundsOnRecord(job: Job, w: World, ops: seq<Op>)
    decreases |ops|
  {
    ops != [] ==>
      && (Plans(job, w, ops[0]) ==> !OffRecord(job, w))
      && RoundsOnRecord(job, Step(job, w, ops[0]), ops[1..])
  }

  ghost predicate CopiesName(job: Job, w: World, ops: seq<Op>)
    decreases |ops|
  {
    ops != [] ==>
      && (ops[0].Look? && ops[0].session.Usable? && w.mem.Some? && w.mem.value.Claimed? && OffRecord(job, w)
          ==> w.mem.value.noted != [])
      && CopiesName(job, Step(job, w, ops[0]), ops[1..])
  }

  lemma {:induction false} RunRoundsOnRecordIff(job: Job, w: World, ops: seq<Op>)
    requires Inv(job, w)
    ensures RoundsOnRecord(job, w, ops) <==> CopiesName(job, w, ops)
    decreases |ops|
  {
    if ops != [] {
      if OffRecord(job, w) && ops[0].Look? && ops[0].session.Usable? && w.mem.Some? && w.mem.value.Claimed? {
        PlanOffRecordIff(job, w, ops[0]);
      }
      StepKeepsInv(job, w, ops[0]);
      RunRoundsOnRecordIff(job, Step(job, w, ops[0]), ops[1..]);
    }
  }

  /**
   Over any run, crashes, moved HEADs, foreign checkpoints and late writes included: no round of a
   checkpointed task is planned without a checkpoint of its own at the present HEAD, if and only if no
   resumer looks at such a record with a copy of the row that names no step.
   */
  lemma RoundsOnRecordIff(job: Job, start: World, ops: seq<Op>)
    requires Initial(job, start)
    ensures RoundsOnRecord(job, start, ops) <==> CopiesName(job, start, ops)
  {
    InitialInv(job, start);
    RunRoundsOnRecordIff(job, start, ops);
  }

  lemma {:induction false} GuardedRounds(job: Job, w: World, ops: seq<Op>)
    requires Inv(job, w) && Guarded(job, w) && NeverErases(job, w, ops)
    ensures RoundsOnRecord(job, w, ops)
    decreases |ops|
  {
    if ops != [] {
      StepKeepsInv(job, w, ops[0]);
      StepGuardedIff(job, w, ops[0]);
      GuardedRounds(job, Step(job, w, ops[0]), ops[1..]);
    }
  }

  /** In particular none is, as long as no write puts back a payload read before the first step was noted. */
  lemma NoRoundOnUntrustedRecord(job: Job, start: World, ops: seq<Op>)
    requires Initial(job, start) && NeverErases(job, start, ops)
    ensures RoundsOnRecord(job, start, ops)
  {
    InitialInv(job, start);
    GuardedRounds(job, start, ops);
  }

  // ---------------------------------------------------------------- the numbering of the checkpoints

  /** The newest row is the one at this number, if there is any, and it is bound to this commit. */
  ghost predicate AtNewest(job: Job, w: World, index: nat, commit: Option<string>) {
    && (forall c | Own(job, w, c) :: c.index <= index && (c.index == index ==> c.commit == commit))
    && (OnFile(job, w) ==> exists c :: Own(job, w, c) && c.index == index)
  }

  /** Checkpoints are numbered without repetition, and a round takes the numbering up where they end. */
  ghost predicate Numbered(job: Job, w: World) {
    && (forall c, d | Own(job, w, c) && Own(job, w, d) && c.index == d.index :: c == d)
    && (w.mem.Some? ==>
          match w.mem.value
          case Claimed(_) => true
          case Looked(plan, commit, _) => plan.Go? ==> AtNewest(job, w, plan.index, commit)
          case Running(_, _, index, commit, stage, _, _) =>
            if stage == Ready then AtNewest(job, w, index, commit) else forall c | Own(job, w, c) :: c.index < index)
  }

  lemma PlannedAtNewest(job: Job, w: World, op: Op)
    requires Numbered(job, w) && Plans(job, w, op) && !OffRecord(job, w)
    ensures AtNewest(job, w, Decide(job, w, w.mem.value.noted).index, w.head)
  {
    if ValidLatest(job, w).Some? {
      assert Own(job, w, ValidLatest(job, w).value);
    }
  }

  /** On the record, a save adds one row, above all the others of the task. */
  lemma SaveAdds(job: Job, w: World, at: nat)
    requires Numbered(job, w) && AtStage(w, Noted)
    ensures DoSave(job, w, at).checkpoints == w.checkpoints + [NewRow(job, w.mem.value, at)]
    ensures forall c :: Own(job, DoSave(job, w, at), c) <==> Own(job, w, c) || c == NewRow(job, w.mem.value, at)
  {
    var cp := NewRow(job, w.mem.value, at);
    SavedRows(w.checkpoints, cp, cp);
    forall d | d in w.checkpoints ensures (d.dispatchId, d.index) != (cp.dispatchId, cp.index) {
      if d.dispatchId == job.dispatchId { assert Own(job, w, d); }
    }
  }

  lemma SaveKeepsNumbered(job: Job, w: World, at: nat)
    requires Numbered(job, w)
    ensures Numbered(job, DoSave(job, w, at))
  {
    if AtStage(w, Noted) {
      SaveAdds(job, w, at);
      assert Own(job, DoSave(job, w, at), NewRow(job, w.mem.value, at));
    }
  }

  lemma SameRowsNumbered(job: Job, w: World, w': World, index: nat, commit: Option<string>)
    requires SameRows(job, w, w') && AtNewest(job, w, index, commit)
    ensures AtNewest(job, w', index, commit)
  {
    assert OnFile(job, w') ==> OnFile(job, w);
  }

  lemma LookKeepsNumbered(job: Job, w: World, op: Op)
    requires Numbered(job, w) && op.Look? && (Plans(job, w, op) ==> !OffRecord(job, w))
    ensures Numbered(job, DoLook(job, w, op.session))
  {
    var w' := DoLook(job, w, op.session);
    assert SameRows(job, w, w');
    if Plans(job, w, op) {
      PlannedAtNewest(job, w, op);
      SameRowsNumbered(job, w, w', Decide(job, w, w.mem.value.noted).index, w.head);
    } else if w' == w {
    } else {
      assert w'.mem.Some? ==> w'.mem.value.Looked? && !w'.mem.value.plan.Go?;
    }
  }

  lemma OtherKeepsNumbered(job: Job, w: World, op: Op)
    requires Numbered(job, w) && !op.Look? && !op.Save?
    ensures Numbered(job, Step(job, w, op))
  {
    var w' := Step(job, w, op);
    StepKeepsOwn(job, w, op);
    if op.Start? && w.mem.Some? && w.mem.value.Looked? { StartOutcomes(w, op.granted); }
    if w'.mem.Some? && w.mem.Some? {
      match w'.mem.value
      case Claimed(_) =>
      case Looked(plan, commit, _) => if plan.Go? { SameRowsNumbered(job, w, w', plan.index, commit); }
      case Running(_, _, index, commit, stage, _, _) =>
        if stage == Ready { SameRowsNumbered(job, w, w', index, commit); }
    }
  }

  /** As long as rounds are planned on the record the numbering stands. */
  lemma StepKeepsNumbered(job: Job, w: World, op: Op)
    requires Numbered(job, w) && (Plans(job, w, op) ==> !OffRecord(job, w))
    ensures Numbered(job, Step(job, w, op))
  {
    match op
    case Look(_) => LookKeepsNumbered(job, w, op);
    case Save(at) => SaveKeepsNumbered(job, w, at);
    case _ => OtherKeepsNumbered(job, w, op);
  }

  // ---------------------------------------------------------------- dispatches and the record

  /** This step, taken now, dispatches a step of the task. */
  ghost predicate Dispatches(w: World, op: Op) {
    op.Perform? && AtStage(w, Ready) && w.mem.value.remaining != []
  }

  /**
   What a caller sees of the round under way: HEAD has moved since it was planned, its HEAD was no commit, or another
   dispatch wrote the newest row.
   */
  ghost predicate Disturbed(job: Job, w: World)
    requires AtStage(w, Ready)
  {
    var commit, newest := w.mem.value.commit, Latest(w.checkpoints);
    w.head != commit || commit.None? || commit.value == ""
      || (newest.Some? && newest.value.dispatchId != job.dispatchId)
  }

  /**
   A round in progress does not look at the record again. Once a step of the task is checkpointed, a
   dispatch is made without a checkpoint that is valid at that moment if and only if the round was
   disturbed.
   */
  lemma DispatchOffRecordIff(job: Job, w: World, op: Op)
    requires Inv(job, w) && Numbered(job, w) && Dispatches(w, op) && OnFile(job, w)
    ensures ValidLatest(job, w).None? <==> Disturbed(job, w)
  {
    var m, newest := w.mem.value, Latest(w.checkpoints).value;
    var own :| Own(job, w, own) && own.index == m.index;
    assert own.index <= newest.index;
    if newest.dispatchId == job.dispatchId {
      assert Own(job, w, newest) && RowOk(job, newest);
    }
  }

  ghost predicate DispatchesOnRecord(job: Job, w: World, ops: seq<Op>)
    decreases |ops|
  {
    ops != [] ==>
      && (Dispatches(w, ops[0]) ==> !OffRecord(job, w))
      && DispatchesOnRecord(job, Step(job, w, ops[0]), ops[1..])
  }

  ghost predicate NeverDisturbed(job: Job, w: World, ops: seq<Op>)
    decreases |ops|
  {
    ops != [] ==>
      && (Dispatches(w, ops[0]) && OnFile(job, w) ==> !Disturbed(job, w))
      && NeverDisturbed(job, Step(job, w, ops[0]), ops[1..])
  }

  lemma {:induction false} RunOnRecordIff(job: Job, w: World, ops: seq<Op>)
    requires Inv(job, w) && Numbered(job, w) && RoundsOnRecord(job, w, ops)
    ensures DispatchesOnRecord(job, w, ops) <==> NeverDisturbed(job, w, ops)
    decreases |ops|
  {
    if ops != [] {
      if Dispatches(w, ops[0]) && OnFile(job, w) { DispatchOffRecordIff(job, w, ops[0]); }
      StepKeepsInv(job, w, ops[0]);
      StepKeepsNumbered(job, w, ops[0]);
      RunOnRecordIff(job, Step(job, w, ops[0]), ops[1..]);
    }
  }

  /**
   Over whole runs whose rounds are planned on the record: every dispatch after the first checkpoint is made
   on a checkpoint of this very task at the present HEAD, if and only if no round is disturbed between its
   plan and its dispatches.
   */
  lemma DispatchesOnRecordIff(job: Job, start: World, ops: seq<Op>)
    requires Initial(job, start) && RoundsOnRecord(job, start, ops)
    ensures DispatchesOnRecord(job, start, ops) <==> NeverDisturbed(job, start, ops)
  {
    InitialInv(job, start);
    RunOnRecordIff(job, start, ops);
  }

  /**
   HEAD and the worker's checkpoints left alone, on a real commit and with no rows of other dispatches to begin with.
   */
  ghost predicate Quiet(job: Job, w: World) {
    && w.head.Some? && w.head.value != ""
    && (forall c | c in w.checkpoints :: c.dispatchId == job.dispatchId && c.commit == w.head)
    && (w.mem.Some? && !w.mem.value.Claimed? ==> w.mem.value.commit == w.head)
  }

  lemma StepKeepsQuiet(job: Job, w: World, op: Op)
    requires Quiet(job, w) && !op.HeadMoves? && !op.ForeignCheckpoint?
    ensures Quiet(job, Step(job, w, op))
  {
    match op
    case Start(granted) => if w.mem.Some? && w.mem.value.Looked? { StartOutcomes(w, granted); }
    case Save(at) =>
      if AtStage(w, Noted) {
        var cp := NewRow(job, w.mem.value, at);
        forall c | c in SaveCheckpoint(w.checkpoints, cp) ensures c.dispatchId == job.dispatchId && c.commit == w.head {
          SavedRows(w.checkpoints, cp, c);
        }
      }
    case _ =>
  }

  lemma QuietIsOnRecord(job: Job, w: World)
    requires Inv(job, w) && Quiet(job, w)
    ensures !OffRecord(job, w)
  {
    if OnFile(job, w) {
      var newest := Latest(w.checkpoints).value;
      assert Own(job, w, newest) && RowOk(job, newest);
    }
  }

  /** Left alone in this way a task plans and dispatches on the record throughout, whoever rewrites its row. */
  lemma {:induction false} QuietRunOnRecord(job: Job, w: World, ops: seq<Op>)
    requires Inv(job, w) && Quiet(job, w)
    requires forall i | 0 <= i < |ops| :: !ops[i].HeadMoves? && !ops[i].ForeignCheckpoint?
    ensures RoundsOnRecord(job, w, ops) && DispatchesOnRecord(job, w, ops)
    decreases |ops|
  {
    QuietIsOnRecord(job, w);
    if ops != [] {
      StepKeepsInv(job, w, ops[0]);
      StepKeepsQuiet(job, w, ops[0]);
      QuietRunOnRecord(job, Step(job, w, ops[0]), ops[1..]);
    }
  }
}
