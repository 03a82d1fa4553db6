/** What a stored COMPLETED stands for, and the one way in which it stands for less. */
module CrashRecord {
  import opened Prelude
  import opened CrashRecovery
  import opened CrashGuard
  import opened CrashSafety

  // ---------------------------------------------------------------- the history is the dispatches made

  ghost predicate Made(log: seq<Event>, steps: set<nat>) {
    forall p | p in steps :: Dispatched(p) in log
  }

  /** Positions held as done, in a plan or in a round under way. */
  function Done(m: Resumer): set<nat> {
    if m.Running? then m.done else if m.Looked? && m.plan.Go? then m.plan.done else {}
  }

  ghost predicate HistoryTrue(job: Job, w: World) {
    && (forall c | Own(job, w, c) :: Made(w.log, c.steps))
    && (w.mem.Some? ==> Made(w.log, Done(w.mem.value)))
  }

  lemma LogGrows(job: Job, w: World, op: Op)
    ensures w.log <= Step(job, w, op).log
  {
    if op.Start? && w.mem.Some? && w.mem.value.Looked? { StartOutcomes(w, op.granted); }
  }

  lemma LookKeepsHistory(job: Job, w: World, session: Session)
    requires HistoryTrue(job, w)
    ensures HistoryTrue(job, DoLook(job, w, session))
  {
    assert SameRows(job, w, DoLook(job, w, session));
    if ValidLatest(job, w).Some? { assert Own(job, w, ValidLatest(job, w).value); }
  }

  lemma SaveKeepsHistory(job: Job, w: World, at: nat)
    requires Inv(job, w) && HistoryTrue(job, w)
    ensures HistoryTrue(job, DoSave(job, w, at))
  {
    if AtStage(w, Noted) {
      forall c | Own(job, DoSave(job, w, at), c) ensures Made(DoSave(job, w, at).log, c.steps) {
        SavedOwn(job, w, at, c);
      }
    }
  }

  lemma StepKeepsHistory(job: Job, w: World, op: Op)
    requires Inv(job, w) && HistoryTrue(job, w)
    ensures HistoryTrue(job, Step(job, w, op))
  {
    LogGrows(job, w, op);
    match op
    case Look(session) => LookKeepsHistory(job, w, session);
    case Save(at) => SaveKeepsHistory(job, w, at);
    case Start(granted) =>
      StepKeepsOwn(job, w, op);
      if w.mem.Some? && w.mem.value.Looked? { StartOutcomes(w, granted); }
    case _ => StepKeepsOwn(job, w, op);
  }

  // ---------------------------------------------------------------- names that mislead

  /** No name stands for a step that was not done. */
  predicate Faithful(job: Job, completed: seq<string>, done: set<nat>) {
    forall p | 0 <= p < |job.steps| && Skipped(job.steps[p], completed) :: p in done
  }

  ghost predicate FaithfulResumer(job: Job, m: Resumer) {
    && (m.Looked? && m.plan.Go? ==> Faithful(job, m.plan.completed, m.plan.done))
    && (m.Running? ==> Faithful(job, m.completed, m.done))
  }

  ghost predicate FaithfulNow(job: Job, w: World) {
    && (forall c | Own(job, w, c) :: Faithful(job, c.completed, c.steps))
    && (w.mem.Some? ==> FaithfulResumer(job, w.mem.value))
  }

  /**
   What a caller can see before a dispatch: the step goes by a number that is the name of another one, not done yet.
   */
  predicate Aliases(job: Job, w: World)
    requires AtStage(w, Ready) && w.mem.value.remaining != []
  {
    var m := w.mem.value;
    exists p :: && 0 <= p < |job.steps| && p != m.remaining[0].position && p !in m.done
                && job.steps[p].name == Some(Label(m.remaining[0].step, m.index + 1))
  }

  lemma PerformFaithfulIff(job: Job, w: World)
    requires Inv(job, w) && FaithfulNow(job, w) && Dispatches(w, Perform)
    ensures FaithfulNow(job, DoPerform(w)) <==> !Aliases(job, w)
  {
    var w', m := DoPerform(w), w.mem.value;
    assert SameRows(job, w, w');
    var entry := Label(m.remaining[0].step, m.index + 1);
    assert w'.mem.value.completed == m.completed + [entry];
    if Aliases(job, w) {
      var p :| 0 <= p < |job.steps| && p != m.remaining[0].position && p !in m.done && job.steps[p].name == Some(entry);
      assert Skipped(job.steps[p], w'.mem.value.completed);
    }
  }

  lemma PlannedFaithful(job: Job, w: World, noted: seq<string>)
    requires FaithfulNow(job, w) && Decide(job, w, noted).Go?
    ensures Faithful(job, Decide(job, w, noted).completed, Decide(job, w, noted).done)
    ensures forall p | 0 <= p < |job.steps| ::
              p in Decide(job, w, noted).done || p in Positions(Decide(job, w, noted).remaining)
  {
    var plan, completed := Decide(job, w, noted), Completed(job, w);
    if ValidLatest(job, w).Some? { assert Own(job, w, ValidLatest(job, w).value); }
    forall p: nat | p < |job.steps|
      ensures Skipped(job.steps[p], completed) ==> ValidLatest(job, w).Some? && p in ValidLatest(job, w).value.steps
      ensures p in Positions(Remaining(job.steps, completed)) <==> !Skipped(job.steps[p], completed)
      ensures p in Positions(Remaining(job.steps, []))
    {
      RemainingKeeps(job.steps, completed, p);
      RemainingKeeps(job.steps, [], p);
      if Skipped(job.steps[p], completed) {
        VerifiedKeeps(job, w.files, ValidLatest(job, w).value.completed, job.steps[p].name.value);
      }
    }
  }

  lemma LookKeepsFaithful(job: Job, w: World, session: Session)
    requires FaithfulNow(job, w)
    ensures FaithfulNow(job, DoLook(job, w, session))
  {
    assert SameRows(job, w, DoLook(job, w, session));
    if w.mem.Some? && w.mem.value.Claimed? && Decide(job, w, w.mem.value.noted).Go? {
      PlannedFaithful(job, w, w.mem.value.noted);
    }
  }

  lemma SaveKeepsFaithful(job: Job, w: World, at: nat)
    requires Inv(job, w) && FaithfulNow(job, w)
    ensures FaithfulNow(job, DoSave(job, w, at))
  {
    if AtStage(w, Noted) {
      forall c | Own(job, DoSave(job, w, at), c) ensures Faithful(job, c.completed, c.steps) {
        SavedOwn(job, w, at, c);
      }
    }
  }

  lemma StepFaithfulIff(job: Job, w: World, op: Op)
    requires Inv(job, w) && FaithfulNow(job, w)
    ensures FaithfulNow(job, Step(job, w, op)) <==> (Dispatches(w, op) ==> !Aliases(job, w))
  {
    if Dispatches(w, op) {
      PerformFaithfulIff(job, w);
    } else {
      match op
      case Look(session) => LookKeepsFaithful(job, w, session);
      case Save(at) => SaveKeepsFaithful(job, w, at);
      case Start(granted) =>
        StepKeepsOwn(job, w, op);
        if w.mem.Some? && w.mem.value.Looked? { StartOutcomes(w, granted); }
      case _ => StepKeepsOwn(job, w, op);
    }
  }

  ghost predicate NeverAliases(job: Job, w: World, ops: seq<Op>)
    decreases |ops|
  {
    ops != [] ==>
      && (Dispatches(w, ops[0]) ==> !Aliases(job, w))
      && NeverAliases(job, Step(job, w, ops[0]), ops[1..])
  }

  ghost predicate FaithfulThroughout(job: Job, w: World, ops: seq<Op>)
    decreases |ops|
  {
    FaithfulNow(job, w) && (ops != [] ==> FaithfulThroughout(job, Step(job, w, ops[0]), ops[1..]))
  }

  /**
   The record never names a step that was not done, if and only if no unnamed step is recorded under another one's
   name.
   */
  lemma {:induction false} FaithfulIffNeverAliases(job: Job, w: World, ops: seq<Op>)
    requires Inv(job, w) && FaithfulNow(job, w)
    ensures FaithfulThroughout(job, w, ops) <==> NeverAliases(job, w, ops)
    decreases |ops|
  {
    if ops != [] {
      StepKeepsInv(job, w, ops[0]);
      StepFaithfulIff(job, w, ops[0]);
      if FaithfulNow(job, Step(job, w, ops[0])) { FaithfulIffNeverAliases(job, Step(job, w, ops[0]), ops[1..]); }
    }
  }

  /** Where every step has a name it cannot happen. */
  lemma {:induction false} NamedNeverAliases(job: Job, w: World, ops: seq<Op>)
    requires Inv(job, w) && AllNamed(job)
    ensures NeverAliases(job, w, ops)
    decreases |ops|
  {
    if ops != [] {
      if Dispatches(w, ops[0]) {
        assert w.mem.value.remaining[0] in w.mem.value.remaining;
        WholePlanNamesDiffer(job.steps);
      }
      StepKeepsInv(job, w, ops[0]);
      NamedNeverAliases(job, Step(job, w, ops[0]), ops[1..]);
    }
  }

  // ---------------------------------------------------------------- COMPLETED

  predicate Whole(job: Job, steps: set<nat>) {
    forall p | 0 <= p < |job.steps| :: p in steps
  }

  /** Some checkpoint of this task records every step (or there are none to record). */
  ghost predicate Recorded(job: Job, w: World) {
    job.steps == [] || exists c :: Own(job, w, c) && Whole(job, c.steps)
  }

  /** Every step is done or ahead, and a plan that calls the task complete has the record for it. */
  ghost predicate Accounted(job: Job, w: World) {
    w.mem.Some? ==>
      match w.mem.value
      case Claimed(_) => true
      case Looked(plan, _, _) =>
        && (plan.AllDone? ==> Recorded(job, w))
        && (plan.Go? ==> forall p | 0 <= p < |job.steps| :: p in plan.done || p in Positions(plan.remaining))
      case Running(remaining, _, _, _, _, done, _) =>
        forall p | 0 <= p < |job.steps| :: p in done || p in Positions(remaining)
  }

  /** Whoever rewrites the row: where COMPLETED was stored by a resume, every step was dispatched before. */
  ghost predicate RecordInv(job: Job, w: World) {
    && Inv(job, w) && HistoryTrue(job, w) && FaithfulNow(job, w) && Accounted(job, w)
    && (Finished in w.log ==> forall p: nat | p < |job.steps| :: Dispatched(p) in w.log)
  }

  lemma RowsKeepRecord(job: Job, w: World, w': World)
    requires Recorded(job, w) && forall c :: Own(job, w, c) ==> Own(job, w', c)
    ensures Recorded(job, w')
  {}

  lemma AllDoneIsRecorded(job: Job, w: World, noted: seq<string>)
    requires Inv(job, w) && Decide(job, w, noted).AllDone?
    ensures Recorded(job, w)
  {
    if job.steps != [] {
      NothingLeft(job, w, 0);
      var cp := ValidLatest(job, w).value;
      forall p: nat | p < |job.steps| ensures p in cp.steps { NothingLeft(job, w, p); }
      assert Own(job, w, cp) && Whole(job, cp.steps);
    }
  }

  /** This step stores COMPLETED. */
  ghost predicate Completes(w: World, op: Op) {
    || (op.Start? && w.mem.Some? && w.mem.value.Looked? && w.mem.value.plan.AllDone?)
    || (op.Finish? && AtStage(w, Ready) && w.mem.value.remaining == [])
  }

  /** At the very moment COMPLETED is stored a checkpoint of the task records every step. */
  lemma CompletesOnRecord(job: Job, w: World, op: Op)
    requires RecordInv(job, w) && Completes(w, op)
    ensures Recorded(job, w) && Recorded(job, Step(job, w, op))
  {
    if op.Finish? && job.steps != [] {
      var c :| Own(job, w, c) && c.steps == w.mem.value.done;
      assert Whole(job, c.steps);
    }
    StepKeepsOwn(job, w, op);
    RowsKeepRecord(job, w, Step(job, w, op));
  }

  lemma RecordedWasDispatched(job: Job, w: World)
    requires HistoryTrue(job, w) && Recorded(job, w)
    ensures forall p: nat | p < |job.steps| :: Dispatched(p) in w.log
  {
    if job.steps != [] {
      var c :| Own(job, w, c) && Whole(job, c.steps);
      assert Made(w.log, c.steps);
    }
  }

  lemma StepFinishes(job: Job, w: World, op: Op)
    requires RecordInv(job, w)
    ensures Finished in Step(job, w, op).log ==> forall p: nat | p < |job.steps| ::
            Dispatched(p) in Step(job, w, op).log
  {
    LogGrows(job, w, op);
    if Completes(w, op) {
      CompletesOnRecord(job, w, op);
      RecordedWasDispatched(job, w);
    } else if op.Start? && w.mem.Some? && w.mem.value.Looked? {
      StartOutcomes(w, op.granted);
    }
  }

  lemma PerformAccounts(job: Job, w: World)
    requires Accounted(job, w)
    ensures Accounted(job, DoPerform(w))
  {
    if AtStage(w, Ready) && w.mem.value.remaining != [] {
      var m := w.mem.value;
      assert m.remaining == [m.remaining[0]] + m.remaining[1..];
      PositionsConcat([m.remaining[0]], m.remaining[1..]);
    }
  }

  lemma LookAccounts(job: Job, w: World, session: Session)
    requires Inv(job, w) && FaithfulNow(job, w) && Accounted(job, w)
    ensures Accounted(job, DoLook(job, w, session))
  {
    var w' := DoLook(job, w, session);
    assert SameRows(job, w, w');
    if w.mem.Some? && w.mem.value.Claimed? && session.Usable? {
      var noted := w.mem.value.noted;
      if Decide(job, w, noted).AllDone? {
        AllDoneIsRecorded(job, w, noted);
        RowsKeepRecord(job, w, w');
      } else if Decide(job, w, noted).Go? {
        PlannedFaithful(job, w, noted);
      }
    }
  }

  lemma SaveAccounts(job: Job, w: World, at: nat)
    requires Accounted(job, w)
    ensures Accounted(job, DoSave(job, w, at))
  {}

  lemma StartAccounts(job: Job, w: World, granted: bool)
    requires Accounted(job, w)
    ensures Accounted(job, DoStart(w, granted))
  {
    if w.mem.Some? && w.mem.value.Looked? { StartOutcomes(w, granted); }
  }

  lemma StepAccounts(job: Job, w: World, op: Op)
    requires Inv(job, w) && FaithfulNow(job, w) && Accounted(job, w)
    ensures Accounted(job, Step(job, w, op))
  {
    match op
    case Look(session) => LookAccounts(job, w, session);
    case Perform => PerformAccounts(job, w);
    case Start(granted) => StartAccounts(job, w, granted);
    case Save(at) => SaveAccounts(job, w, at);
    case _ =>
      StepKeepsOwn(job, w, op);
      if Recorded(job, w) { RowsKeepRecord(job, w, Step(job, w, op)); }
  }

  lemma {:induction false} RunKeepsRecord(job: Job, w: World, ops: seq<Op>)
    requires RecordInv(job, w) && NeverAliases(job, w, ops)
    ensures RecordInv(job, Run(job, w, ops))
    decreases |ops|
  {
    if ops != [] {
      StepKeepsInv(job, w, ops[0]);
      StepKeepsHistory(job, w, ops[0]);
      StepFaithfulIff(job, w, ops[0]);
      StepAccounts(job, w, ops[0]);
      StepFinishes(job, w, ops[0]);
      RunKeepsRecord(job, Step(job, w, ops[0]), ops[1..]);
    }
  }

  /**
   A resume stores COMPLETED only when a checkpoint of the task records every step, and every step was
   really dispatched; whoever rewrites the row, as long as no unnamed step is recorded under another one's name.
   */
  lemma CompletedIsRecorded(job: Job, start: World, ops: seq<Op>, op: Op)
    requires Initial(job, start) && NeverAliases(job, start, ops)
    ensures var w := Run(job, start, ops);
            && (Completes(w, op) ==> Recorded(job, Step(job, w, op)))
            && (Finished in w.log ==> forall p: nat | p < |job.steps| :: Dispatched(p) in w.log)
  {
    InitialInv(job, start);
    RunKeepsRecord(job, start, ops);
    var w := Run(job, start, ops);
    if Completes(w, op) { CompletesOnRecord(job, w, op); }
  }

  // ---------------------------------------------------------------- and stays recorded

  lemma StepKeepsRecorded(job: Job, w: World, op: Op)
    requires Recorded(job, w) && Numbered(job, w)
    ensures Recorded(job, Step(job, w, op))
  {
    if op.Save? && AtStage(w, Noted) {
      SaveAdds(job, w, op.at);
    } else {
      StepKeepsOwn(job, w, op);
    }
    RowsKeepRecord(job, w, Step(job, w, op));
  }

  lemma {:induction false} RunStaysRecorded(job: Job, w: World, ops: seq<Op>)
    requires RecordInv(job, w) && NeverAliases(job, w, ops) && Numbered(job, w) && RoundsOnRecord(job, w, ops)
    requires Finished in w.log ==> Recorded(job, w)
    ensures Finished in Run(job, w, ops).log ==> Recorded(job, Run(job, w, ops))
    decreases |ops|
  {
    if ops != [] {
      var next := Step(job, w, ops[0]);
      RunKeepsRecord(job, w, [ops[0]]) by { assert [ops[0]][1..] == []; }
      assert Run(job, w, [ops[0]]) == next by { assert [ops[0]][1..] == []; }
      StepKeepsNumbered(job, w, ops[0]);
      if Finished in next.log {
        if Finished in w.log {
          StepKeepsRecorded(job, w, ops[0]);
        } else {
          FinishedByCompletion(job, w, ops[0]);
          CompletesOnRecord(job, w, ops[0]);
        }
      }
      RunStaysRecorded(job, next, ops[1..]);
    }
  }

  lemma FinishedByCompletion(job: Job, w: World, op: Op)
    requires Finished !in w.log && Finished in Step(job, w, op).log
    ensures Completes(w, op)
  {
    if op.Start? && w.mem.Some? && w.mem.value.Looked? { StartOutcomes(w, op.granted); }
  }

  /** And the record stays, where rounds are planned on the record. */
  lemma CompletedStaysRecorded(job: Job, start: World, ops: seq<Op>)
    requires Initial(job, start) && NeverAliases(job, start, ops) && RoundsOnRecord(job, start, ops)
    ensures Finished in Run(job, start, ops).log ==> Recorded(job, Run(job, start, ops))
  {
    InitialInv(job, start);
    RunStaysRecorded(job, start, ops);
  }
}
