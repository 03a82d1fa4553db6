/** What resuming keeps over any number of crashes, retries, audits and changes around it. */
module CrashSafety {
  import opened Prelude
  import opened CrashRecovery

  // ---------------------------------------------------------------- planning

  lemma {:induction false} VerifiedKeeps(job: Job, files: Files, names: seq<string>, n: string)
    ensures n in Verified(job, files, names) <==> n in names && ArtifactStands(job, files, n)
  {
    if names != [] { VerifiedKeeps(job, files, names[1..], n); }
  }

  lemma {:induction false} RemainingFromKeeps(steps: seq<WorkStep>, completed: seq<string>, i: nat, p: nat)
    requires i <= |steps|
    ensures p in Positions(RemainingFrom(steps, completed, i)) <==> i <= p < |steps| && !Skipped(steps[p], completed)
    decreases |steps| - i
  {
    if i < |steps| {
      RemainingFromKeeps(steps, completed, i + 1, p);
      var head, rest := if Skipped(steps[i], completed) then [] else [Item(i, steps[i])],
        RemainingFrom(steps, completed, i + 1);
      assert RemainingFrom(steps, completed, i) == head + rest;
      PositionsConcat(head, rest);
    }
  }

  lemma PositionsConcat(a: seq<Item>, b: seq<Item>)
    ensures Positions(a + b) == Positions(a) + Positions(b)
  {
    forall p | p in Positions(a) + Positions(b) ensures p in Positions(a + b) {
      var item :| (item in a || item in b) && item.position == p;
      assert item in a + b;
    }
  }

  /** The steps that are left are those not skipped. */
  lemma RemainingKeeps(steps: seq<WorkStep>, completed: seq<string>, p: nat)
    ensures p in Positions(Remaining(steps, completed)) <==> p < |steps| && !Skipped(steps[p], completed)
  {
    RemainingFromKeeps(steps, completed, 0, p);
  }

  /** Each step stands beside its own position. */
  predicate InPlace(steps: seq<WorkStep>, items: seq<Item>) {
    forall item | item in items :: item.position < |steps| && item.step == steps[item.position]
  }

  lemma {:induction false} RemainingInPlace(steps: seq<WorkStep>, completed: seq<string>, i: nat)
    requires i <= |steps|
    ensures InPlace(steps, RemainingFrom(steps, completed, i))
    decreases |steps| - i
  {
    if i < |steps| {
      RemainingInPlace(steps, completed, i + 1);
    }
  }

  predicate Named(job: Job, p: nat, name: string) {
    p < |job.steps| && job.steps[p].name == Some(name)
  }

  predicate NamesDiffer(steps: seq<WorkStep>) {
    forall p, q | 0 <= p < q < |steps| && steps[p].name.Some? :: steps[p].name != steps[q].name
  }

  lemma {:induction false} RemainingAll(steps: seq<WorkStep>, i: nat)
    requires i <= |steps|
    ensures |RemainingFrom(steps, [], i)| == |steps| - i
    ensures forall k | 0 <= k < |steps| - i :: RemainingFrom(steps, [], i)[k] == Item(i + k, steps[i + k])
    decreases |steps| - i
  {
    if i < |steps| { RemainingAll(steps, i + 1); }
  }

  /** A plan over all the steps that passes the check for duplicates has no name twice. */
  lemma WholePlanNamesDiffer(steps: seq<WorkStep>)
    requires Distinct(Labels(Remaining(steps, [])))
    ensures NamesDiffer(steps)
  {
    RemainingAll(steps, 0);
    var labels := Labels(Remaining(steps, []));
    forall p, q | 0 <= p < q < |steps| && steps[p].name.Some? && steps[q].name.Some?
      ensures steps[p].name != steps[q].name {
      assert labels[p] == steps[p].name.value && labels[q] == steps[q].name.value;
    }
  }

  // ---------------------------------------------------------------- the invariant

  ghost predicate Own(job: Job, w: World, c: Checkpoint) {
    c in w.checkpoints && c.dispatchId == job.dispatchId
  }

  predicate AllNamed(job: Job) {
    forall p | 0 <= p < |job.steps| :: job.steps[p].name.Some?
  }

  ghost predicate Covered(job: Job, done: set<nat>, name: string) {
    exists p :: p in done && Named(job, p, name)
  }

  /**
   Names and history agree: a named step that was done is in the names, and without unnamed steps the names are of
   steps done.
   */
  ghost predicate Justified(job: Job, completed: seq<string>, done: set<nat>) {
    && (forall p | p in done :: p < |job.steps|)
    && (forall p | p in done && job.steps[p].name.Some? :: job.steps[p].name.value in completed)
    && (AllNamed(job) ==> forall n | n in completed :: Covered(job, done, n))
  }

  /** A list whose names would pass the check for duplicates when planned as a whole. */
  predicate Plannable(job: Job) {
    Distinct(Labels(Remaining(job.steps, [])))
  }

  ghost predicate RowOk(job: Job, c: Checkpoint) {
    && c.taskId == job.taskId && c.teamId == job.teamId && c.completed != [] && c.steps != {}
    && Justified(job, c.completed, c.steps) && Plannable(job)
  }

  /** Some step of the task is checkpointed. */
  ghost predicate OnFile(job: Job, w: World) {
    exists c :: Own(job, w, c)
  }

  /** What a round sets out with. */
  ghost predicate SetOut(job: Job, remaining: seq<Item>, completed: seq<string>, done: set<nat>) {
    InPlace(job.steps, remaining) && Justified(job, completed, done) && Plannable(job)
  }

  ghost predicate ResumerOk(job: Job, w: World) {
    w.mem.Some? ==>
      match w.mem.value
      case Claimed(_) => true
      case Looked(plan, _, _) =>
        plan.Go? ==> SetOut(job, plan.remaining, plan.completed, plan.done) && (plan.remaining != [] || job.steps == [])
      case Running(remaining, completed, _, _, stage, done, noted) =>
        && SetOut(job, remaining, completed, done)
        && (stage != Ready ==> completed != [] && done != {}) && (stage == Noted ==> noted == completed)
        && (stage == Ready ==> || remaining != [] || job.steps == []
                               || exists c :: Own(job, w, c) && c.completed == completed && c.steps == done)
  }

  /** What every step keeps, whoever rewrites the row meanwhile. */
  ghost predicate Inv(job: Job, w: World) {
    (forall c | Own(job, w, c) :: RowOk(job, c)) && ResumerOk(job, w)
  }

  // ---------------------------------------------------------------- a replayed step

  /**
   The evidence behind the checkpoint: every recorded step can be recognized and its artifact is there, and a
   finished task can show for it.
   */
  ghost predicate EvidenceStands(job: Job, w: World, cp: Checkpoint) {
    && (forall p | p in cp.steps ::
          p < |job.steps| && job.steps[p].name.Some? && ArtifactStands(job, w.files, job.steps[p].name.value))
    && (job.steps != [] && Remaining(job.steps, Completed(job, w)) == [] ==> FinishingEvidence(job, w.files))
  }

  /**
   Which recorded steps a round plans anew: one without a name, one whose artifact is gone, or any if nothing shows
   for a finished task.
   */
  lemma ReplayedStep(job: Job, w: World, noted: seq<string>, cp: Checkpoint, p: nat)
    requires Inv(job, w) && ValidLatest(job, w) == Some(cp) && Decide(job, w, noted).Go? && p in cp.steps
    ensures p < |job.steps|
    ensures p in Positions(Decide(job, w, noted).remaining)
            <==> || job.steps[p].name.None? || !ArtifactStands(job, w.files, job.steps[p].name.value)
                 || Remaining(job.steps, Completed(job, w)) == []
  {
    assert Own(job, w, cp) && RowOk(job, cp);
    if job.steps[p].name.Some? { VerifiedKeeps(job, w.files, cp.completed, job.steps[p].name.value); }
    RemainingKeeps(job.steps, Completed(job, w), p);
    RemainingKeeps(job.steps, [], p);
  }

  /** If no step is left, the checkpoint records every one. */
  lemma NothingLeft(job: Job, w: World, p: nat)
    requires Inv(job, w) && Remaining(job.steps, Completed(job, w)) == [] && p < |job.steps|
    ensures ValidLatest(job, w).Some? && p in ValidLatest(job, w).value.steps
  {
    var cp, completed := ValidLatest(job, w), Completed(job, w);
    forall q | 0 <= q < |job.steps| ensures Skipped(job.steps[q], completed) {
      RemainingKeeps(job.steps, completed, q);
    }
    var name := job.steps[p].name.value;
    assert name in completed;
    VerifiedKeeps(job, w.files, cp.value.completed, name);
    assert Own(job, w, cp.value) && RowOk(job, cp.value);
    assert Covered(job, cp.value.steps, name);
    WholePlanNamesDiffer(job.steps);
  }

  /**
   The rule as the code has it is weaker than "a checkpointed step is never dispatched again": a round
   plans a recorded step anew if and only if the evidence behind the checkpoint does not stand.
   */
  lemma ReplayIffEvidenceGone(job: Job, w: World, noted: seq<string>, cp: Checkpoint)
    requires Inv(job, w) && ValidLatest(job, w) == Some(cp) && Decide(job, w, noted).Go?
    ensures (exists p :: p in cp.steps && p in Positions(Decide(job, w, noted).remaining))
            <==> !EvidenceStands(job, w, cp)
  {
    forall p | p in cp.steps
      ensures p < |job.steps|
      ensures p in Positions(Decide(job, w, noted).remaining)
              <==> || job.steps[p].name.None? || !ArtifactStands(job, w.files, job.steps[p].name.value)
                   || Remaining(job.steps, Completed(job, w)) == []
    {
      ReplayedStep(job, w, noted, cp, p);
    }
    if job.steps != [] && Remaining(job.steps, Completed(job, w)) == [] {
      NothingLeft(job, w, 0);
    }
  }

  /** The same of a list whose steps are all named, in the terms of the stored record. */
  lemma NamedReplayIff(job: Job, w: World, noted: seq<string>, cp: Checkpoint)
    requires Inv(job, w) && AllNamed(job) && ValidLatest(job, w) == Some(cp) && Decide(job, w, noted).Go?
    ensures (exists item :: item in Decide(job, w, noted).remaining && Skipped(item.step, cp.completed))
            <==> || (exists name :: name in cp.completed && !ArtifactStands(job, w.files, name))
                 || (job.steps != [] && Remaining(job.steps, Completed(job, w)) == []
                     && !FinishingEvidence(job, w.files))
  {
    var remaining := Decide(job, w, noted).remaining;
    assert Own(job, w, cp) && RowOk(job, cp);
    PlannedInPlace(job, w, noted);
    forall item | item in remaining
      ensures Skipped(item.step, cp.completed) ==>
                || !ArtifactStands(job, w.files, item.step.name.value)
                || (job.steps != [] && Remaining(job.steps, Completed(job, w)) == [])
    {
      RemainingKeeps(job.steps, Completed(job, w), item.position);
      if item.step.name.Some? { VerifiedKeeps(job, w.files, cp.completed, item.step.name.value); }
      assert item.position in Positions(remaining);
    }
    if name :| name in cp.completed && !ArtifactStands(job, w.files, name) {
      assert Covered(job, cp.steps, name);
      var p :| p in cp.steps && Named(job, p, name);
      ReplayedStep(job, w, noted, cp, p);
      var item :| item in remaining && item.position == p;
      assert Skipped(item.step, cp.completed);
    } else if job.steps != [] && Remaining(job.steps, Completed(job, w)) == [] {
      NothingLeft(job, w, 0);
      ReplayedStep(job, w, noted, cp, 0);
      var item :| item in remaining && item.position == 0;
      assert Skipped(item.step, cp.completed);
    }
  }

  // ---------------------------------------------------------------- rows

  /** Saving writes its own row and no other; on a conflict the stored team and creation time stay. */
  lemma {:induction false} SavedRows(cps: seq<Checkpoint>, cp: Checkpoint, c: Checkpoint)
    ensures c in SaveCheckpoint(cps, cp) ==>
              || c in cps || c == cp
              || exists d :: d in cps && (d.dispatchId, d.index) == (cp.dispatchId, cp.index)
                             && c == cp.(at := d.at, teamId := d.teamId)
    ensures c in cps && (c.dispatchId, c.index) != (cp.dispatchId, cp.index) ==> c in SaveCheckpoint(cps, cp)
    ensures (forall d | d in cps :: (d.dispatchId, d.index) != (cp.dispatchId, cp.index))
            ==> SaveCheckpoint(cps, cp) == cps + [cp]
  {
    if cps != [] {
      if (cps[0].dispatchId, cps[0].index) != (cp.dispatchId, cp.index) {
        SavedRows(cps[1..], cp, c);
      } else if c in SaveCheckpoint(cps, cp) && c !in cps {
        assert cps[0] in cps && c == cp.(at := cps[0].at, teamId := cps[0].teamId);
      }
    }
  }

  /** The row it writes. */
  lemma {:induction false} SavedRow(cps: seq<Checkpoint>, cp: Checkpoint) returns (c: Checkpoint)
    ensures c in SaveCheckpoint(cps, cp) && c == cp.(at := c.at, teamId := c.teamId)
  {
    if cps == [] {
      c := cp;
    } else if (cps[0].dispatchId, cps[0].index) == (cp.dispatchId, cp.index) {
      c := cp.(at := cps[0].at, teamId := cps[0].teamId);
    } else {
      c := SavedRow(cps[1..], cp);
    }
  }

  /** Saving on behalf of another dispatch touches none of this one's rows. */
  lemma ForeignKeepsOwn(job: Job, w: World, cp: Checkpoint, c: Checkpoint)
    requires cp.dispatchId != job.dispatchId
    ensures Own(job, w.(checkpoints := SaveCheckpoint(w.checkpoints, cp)), c) <==> Own(job, w, c)
  {
    SavedRows(w.checkpoints, cp, c);
  }

  ghost predicate SameRows(job: Job, w: World, w': World) {
    forall c :: Own(job, w', c) <==> Own(job, w, c)
  }

  /** A step that saves no checkpoint of the task leaves its rows alone. */
  lemma StepKeepsOwn(job: Job, w: World, op: Op)
    requires !(op.Save? && AtStage(w, Noted))
    ensures SameRows(job, w, Step(job, w, op))
  {
    var w' := Step(job, w, op);
    if op.ForeignCheckpoint? && op.cp.dispatchId != job.dispatchId {
      forall c ensures Own(job, w', c) <==> Own(job, w, c) { ForeignKeepsOwn(job, w, op.cp, c); }
    } else {
      assert w'.checkpoints == w.checkpoints;
    }
  }

  lemma SameRowsKeepInv(job: Job, w: World, w': World)
    requires Inv(job, w) && SameRows(job, w, w') && (w'.mem == w.mem || w'.mem.None? || w'.mem.value.Claimed?)
    ensures Inv(job, w')
  {}

  lemma TakenOverJustified(job: Job, cp: Checkpoint, files: Files)
    requires Justified(job, cp.completed, cp.steps)
    ensures var completed := Verified(job, files, cp.completed);
            Justified(job, completed, cp.steps - Positions(Remaining(job.steps, completed)))
  {
    var completed := Verified(job, files, cp.completed);
    var remaining := Remaining(job.steps, completed);
    forall p: nat ensures p in Positions(remaining) <==> p < |job.steps| && !Skipped(job.steps[p], completed) {
      RemainingKeeps(job.steps, completed, p);
    }
    if AllNamed(job) {
      forall n | n in completed ensures Covered(job, cp.steps - Positions(remaining), n) {
        VerifiedKeeps(job, files, cp.completed, n);
        assert Covered(job, cp.steps, n);
        var p :| p in cp.steps && Named(job, p, n);
        assert p in cp.steps - Positions(remaining);
      }
    }
  }

  lemma TakenOver(job: Job, w: World, noted: seq<string>)
    requires Inv(job, w) && Decide(job, w, noted).Go?
    ensures Justified(job, Decide(job, w, noted).completed, Decide(job, w, noted).done)
  {
    if ValidLatest(job, w).Some? && Remaining(job.steps, Completed(job, w)) != [] {
      var cp := ValidLatest(job, w).value;
      assert Own(job, w, cp) && RowOk(job, cp);
      TakenOverJustified(job, cp, w.files);
    }
  }

  lemma PlannedPlannable(job: Job, w: World, noted: seq<string>)
    requires Inv(job, w) && Decide(job, w, noted).Go?
    ensures Plannable(job)
  {
    if ValidLatest(job, w).Some? {
      assert Own(job, w, ValidLatest(job, w).value) && RowOk(job, ValidLatest(job, w).value);
    }
  }

  lemma PlannedInPlace(job: Job, w: World, noted: seq<string>)
    requires Decide(job, w, noted).Go?
    ensures InPlace(job.steps, Decide(job, w, noted).remaining)
    ensures Decide(job, w, noted).remaining != [] || job.steps == []
  {
    RemainingInPlace(job.steps, Completed(job, w), 0);
    RemainingInPlace(job.steps, [], 0);
    RemainingAll(job.steps, 0);
  }

  lemma LookKeepsInv(job: Job, w: World, session: Session)
    requires Inv(job, w)
    ensures Inv(job, DoLook(job, w, session))
  {
    assert SameRows(job, w, DoLook(job, w, session));
    if w.mem.Some? && w.mem.value.Claimed? && session.Usable? && Decide(job, w, w.mem.value.noted).Go? {
      TakenOver(job, w, w.mem.value.noted);
      PlannedPlannable(job, w, w.mem.value.noted);
      PlannedInPlace(job, w, w.mem.value.noted);
    }
  }

  /** The ways a plan is carried out: running, complete, or given up for now. */
  lemma StartOutcomes(w: World, granted: bool)
    requires w.mem.Some? && w.mem.value.Looked?
    ensures var (w', m) := (DoStart(w, granted), w.mem.value);
            && w'.checkpoints == w.checkpoints && w'.loaded == w.loaded && w'.head == w.head && w'.files == w.files
            && (|| (w'.log == w.log && w'.mem.None?)
                || (m.plan.AllDone? && w'.log == w.log + [Finished] && w'.mem.None?)
                || (&& m.plan.Go? && w'.log == w.log && w'.status == RUNNING && w'.unverified == m.noted
                    && w'.mem == Some(Running(m.plan.remaining, m.plan.completed, m.plan.index, m.commit, Ready,
                                              m.plan.done, m.noted))))
  {
    match w.mem.value.plan
    case AllDone =>
    case Blocked =>
    case Malformed =>
    case Go(remaining, completed, index, done) =>
  }

  lemma StartKeepsInv(job: Job, w: World, granted: bool)
    requires Inv(job, w)
    ensures Inv(job, DoStart(w, granted))
  {
    if w.mem.Some? && w.mem.value.Looked? {
      StartOutcomes(w, granted);
      assert SameRows(job, w, DoStart(w, granted));
    }
  }

  lemma PerformJustified(job: Job, m: Resumer)
    requires m.Running? && m.remaining != [] && InPlace(job.steps, m.remaining) && Justified(job, m.completed, m.done)
    ensures var item := m.remaining[0];
            Justified(job, m.completed + [Label(item.step, m.index + 1)], m.done + {item.position})
  {
    var item := m.remaining[0];
    assert item in m.remaining;
    var completed, done := m.completed + [Label(item.step, m.index + 1)], m.done + {item.position};
    if AllNamed(job) {
      forall n | n in completed ensures Covered(job, done, n) {
        if n in m.completed {
          assert Covered(job, m.done, n);
          var p :| p in m.done && Named(job, p, n);
          assert p in done;
        } else {
          assert item.position in done && Named(job, item.position, n);
        }
      }
    }
  }

  lemma PerformKeepsInv(job: Job, w: World)
    requires Inv(job, w)
    ensures Inv(job, DoPerform(w))
  {
    assert SameRows(job, w, DoPerform(w));
    if DoPerform(w) != w {
      PerformJustified(job, w.mem.value);
      assert w.mem.value.remaining[0].position in DoPerform(w).mem.value.done;
    }
  }

  lemma NoteKeepsInv(job: Job, w: World)
    requires Inv(job, w)
    ensures Inv(job, DoNote(w))
  {
    assert SameRows(job, w, DoNote(w));
  }

  /** The row a resumer saves. */
  function NewRow(job: Job, m: Resumer, at: nat): Checkpoint
    requires m.Running?
  {
    Checkpoint(job.dispatchId, job.taskId, job.teamId, m.index, m.completed, m.commit, at, m.done)
  }

  /** What the task's rows are after a save: its own earlier ones, and what was just recorded. */
  lemma SavedOwn(job: Job, w: World, at: nat, c: Checkpoint)
    requires Inv(job, w) && AtStage(w, Noted) && Own(job, DoSave(job, w, at), c)
    ensures Own(job, w, c) || c == NewRow(job, w.mem.value, c.at)
  {
    SavedRows(w.checkpoints, NewRow(job, w.mem.value, at), c);
    var cp := NewRow(job, w.mem.value, at);
    if d :| d in w.checkpoints && d.dispatchId == job.dispatchId && c == cp.(at := d.at, teamId := d.teamId) {
      assert Own(job, w, d) && RowOk(job, d);
    }
  }

  lemma SaveKeepsInv(job: Job, w: World, at: nat)
    requires Inv(job, w)
    ensures Inv(job, DoSave(job, w, at))
  {
    if AtStage(w, Noted) {
      var w', m := DoSave(job, w, at), w.mem.value;
      forall c | Own(job, w', c) ensures RowOk(job, c) { SavedOwn(job, w, at, c); }
      var c := SavedRow(w.checkpoints, NewRow(job, m, at));
      assert Own(job, w', c) && c.completed == m.completed && c.steps == m.done;
    }
  }

  lemma StepKeepsInv(job: Job, w: World, op: Op)
    requires Inv(job, w)
    ensures Inv(job, Step(job, w, op))
  {
    match op
    case Look(session) => LookKeepsInv(job, w, session);
    case Start(granted) => StartKeepsInv(job, w, granted);
    case Perform => PerformKeepsInv(job, w);
    case NoteDone => NoteKeepsInv(job, w);
    case Save(at) => SaveKeepsInv(job, w, at);
    case _ =>
      StepKeepsOwn(job, w, op);
      SameRowsKeepInv(job, w, Step(job, w, op));
  }

  lemma InitialInv(job: Job, start: World)
    requires Initial(job, start)
    ensures Inv(job, start) && !OnFile(job, start)
  {}

  lemma {:induction false} RunKeepsInv(job: Job, w: World, ops: seq<Op>)
    requires Inv(job, w)
    ensures Inv(job, Run(job, w, ops))
    decreases |ops|
  {
    if ops != [] {
      StepKeepsInv(job, w, ops[0]);
      RunKeepsInv(job, Step(job, w, ops[0]), ops[1..]);
    }
  }
}
