/**
 Several orchestrators resuming one task. The claim of storage/team_store.py keeps them apart by the
 stored status alone; audits, interruptions, operators and status updates rewrite that status from a row
 they read earlier.
 */
module CrashTeam {
  import opened Prelude
  import opened CrashRecovery
  import opened CrashGuard
  import opened CrashOrder
  import opened CrashSafety

  /** The rows and files everyone shares, with `mem` left empty, and who is in the middle of a resume. */
  datatype Team = Team(shared: World, resumers: map<nat, Resumer>)

  datatype Act = Act(who: nat, op: Op)

  /** The world as one orchestrator sees it. */
  function Seen(t: Team, who: nat): World {
    t.shared.(mem := if who in t.resumers then Some(t.resumers[who]) else None)
  }

  function TeamStep(job: Job, t: Team, act: Act): Team {
    var w := Step(job, Seen(t, act.who), act.op);
    Team(w.(mem := None), if w.mem.Some? then t.resumers[act.who := w.mem.value] else t.resumers - {act.who})
  }

  function TeamRun(job: Job, t: Team, acts: seq<Act>): Team
    decreases |acts|
  {
    if acts == [] then t else TeamRun(job, TeamStep(job, t, acts[0]), acts[1..])
  }

  ghost predicate NewTeam(job: Job, t: Team) {
    Initial(job, t.shared) && t.resumers == map[]
  }

  /** At most one resumer, with a status under which nobody else may claim. */
  ghost predicate Alone(t: Team) {
    && t.shared.mem.None?
    && (forall a, b | a in t.resumers && b in t.resumers :: a == b)
    && (t.resumers != map[] ==> t.shared.status in CLOSED)
  }

  /** A write from outside that finds a resume under way and leaves the task open to another claim. */
  predicate Opens(t: Team, act: Act) {
    && act.op.Write? && t.resumers != map[] && act.op.editor in t.shared.loaded
    && var after := Edited(t.shared.loaded[act.op.editor].status, act.op.edit);
       after.Some? && after.value !in CLOSED
  }

  /** What a step of the one resumer, or any step while there is none, makes of the status. */
  lemma StepStatus(job: Job, w: World, op: Op)
    requires w.mem.Some? ==> w.status in CLOSED
    requires !op.Write?
    ensures Step(job, w, op).mem.Some? ==> Step(job, w, op).status in CLOSED
    ensures w.mem.None? && Step(job, w, op).mem.Some? ==> op.Claim?
  {
    if op.Start? && w.mem.Some? && w.mem.value.Looked? { StartOutcomes(w, op.granted); }
  }

  /** What the others can do to the status of a task under way: cancel it, or hand it off. */
  lemma OutsiderStatus(job: Job, w: World, op: Op)
    requires w.mem.None? && w.status in CLOSED && !op.Write?
    ensures Step(job, w, op).mem.None? && Step(job, w, op).status in CLOSED
  {}

  lemma WriteOpensIff(job: Job, t: Team, act: Act)
    requires Alone(t) && act.op.Write?
    ensures Alone(TeamStep(job, t, act)) <==> !Opens(t, act)
  {
    var t' := TeamStep(job, t, act);
    assert t'.resumers == t.resumers by {
      assert act.who !in t.resumers ==> t.resumers - {act.who} == t.resumers;
      assert act.who in t.resumers ==> t.resumers[act.who := t.resumers[act.who]] == t.resumers;
    }
  }

  /** Resumers stay apart until such a write, and not beyond it. */
  lemma StepAloneIff(job: Job, t: Team, act: Act)
    requires Alone(t)
    ensures Alone(TeamStep(job, t, act)) <==> !Opens(t, act)
  {
    var w := Seen(t, act.who);
    if act.op.Write? {
      WriteOpensIff(job, t, act);
    } else if act.who in t.resumers || t.resumers == map[] {
      StepStatus(job, w, act.op);
    } else {
      OutsiderStatus(job, w, act.op);
    }
  }

  ghost predicate NeverOpens(job: Job, t: Team, acts: seq<Act>)
    decreases |acts|
  {
    acts != [] ==> !Opens(t, acts[0]) && NeverOpens(job, TeamStep(job, t, acts[0]), acts[1..])
  }

  ghost predicate AloneThroughout(job: Job, t: Team, acts: seq<Act>)
    decreases |acts|
  {
    Alone(t) && (acts != [] ==> AloneThroughout(job, TeamStep(job, t, acts[0]), acts[1..]))
  }

  lemma {:induction false} RunAloneIff(job: Job, t: Team, acts: seq<Act>)
    requires Alone(t)
    ensures AloneThroughout(job, t, acts) <==> NeverOpens(job, t, acts)
    ensures NeverOpens(job, t, acts) ==> Alone(TeamRun(job, t, acts))
    decreases |acts|
  {
    if acts != [] {
      StepAloneIff(job, t, acts[0]);
      if Alone(TeamStep(job, t, acts[0])) { RunAloneIff(job, TeamStep(job, t, acts[0]), acts[1..]); }
    }
  }

  /**
   At every point of a run there is at most one resumer, with a status under which nobody else can claim, if
   and only if no outside write finds a resume under way and leaves the task open.
   */
  lemma AloneIffNeverOpens(job: Job, start: Team, acts: seq<Act>)
    requires NewTeam(job, start)
    ensures AloneThroughout(job, start, acts) <==> NeverOpens(job, start, acts)
  {
    RunAloneIff(job, start, acts);
  }

  /** In such runs, while one resume is under way the claim of every other orchestrator is refused. */
  lemma ClaimIsExclusive(job: Job, start: Team, acts: seq<Act>, who: nat)
    requires NewTeam(job, start) && NeverOpens(job, start, acts) && TeamRun(job, start, acts).resumers != map[]
    ensures var t := TeamRun(job, start, acts);
            && |t.resumers| == 1
            && (who !in t.resumers ==> TeamStep(job, t, Act(who, Claim)) == t)
  {
    RunAloneIff(job, start, acts);
    var t := TeamRun(job, start, acts);
    var r :| r in t.resumers;
    assert t.resumers.Keys == {r};
    assert |t.resumers| == |t.resumers.Keys|;
    if who !in t.resumers { assert t.resumers - {who} == t.resumers; }
  }

  /**
   After a write to a task under way, the next claim of another orchestrator succeeds if and only if the write opened
   it.
   */
  lemma SecondClaimIff(job: Job, t: Team, act: Act, who: nat)
    requires Alone(t) && t.resumers != map[] && who !in t.resumers && act.op.Write?
    ensures who in TeamStep(job, TeamStep(job, t, act), Act(who, Claim)).resumers <==> Opens(t, act)
  {}

  // ---------------------------------------------------------------- as if there were one resumer only

  ghost function Whole(t: Team): World {
    t.shared.(mem := if t.resumers == map[] then None else var who :| who in t.resumers; Some(t.resumers[who]))
  }

  predicate Around(op: Op) {
    || op.Read? || op.Write? || op.HandOff? || op.Cancel? || op.HeadMoves? || op.FilesChange? || op.ForeignCheckpoint?
  }

  /** A step of an orchestrator that holds no claim while another does: it comes to nothing. */
  predicate Idle(t: Team, act: Act) {
    t.resumers != map[] && act.who !in t.resumers && !Around(act.op)
  }

  ghost function Projected(job: Job, t: Team, acts: seq<Act>): seq<Op>
    decreases |acts|
  {
    if acts == [] then []
    else (if Idle(t, acts[0]) then [] else [acts[0].op]) + Projected(job, TeamStep(job, t, acts[0]), acts[1..])
  }

  lemma IdleStep(job: Job, t: Team, act: Act)
    requires Alone(t) && Idle(t, act)
    ensures TeamStep(job, t, act) == t
  {
    assert t.resumers - {act.who} == t.resumers;
  }

  lemma SoleResumer(t: Team, who: nat)
    requires Alone(t) && who in t.resumers
    ensures Whole(t) == Seen(t, who) && t.resumers == map[who := t.resumers[who]]
  {}

  lemma AroundStep(job: Job, w: World, mem: Option<Resumer>, op: Op)
    requires Around(op)
    ensures Step(job, w.(mem := mem), op) == Step(job, w, op).(mem := mem)
  {}

  lemma StepProjects(job: Job, t: Team, act: Act)
    requires Alone(t) && Alone(TeamStep(job, t, act)) && !Idle(t, act)
    ensures Whole(TeamStep(job, t, act)) == Step(job, Whole(t), act.op)
  {
    var t' := TeamStep(job, t, act);
    if act.who in t.resumers {
      SoleResumer(t, act.who);
      if act.who in t'.resumers { SoleResumer(t', act.who); }
    } else if t.resumers == map[] {
      if act.who in t'.resumers { SoleResumer(t', act.who); }
    } else {
      var r :| r in t.resumers;
      SoleResumer(t, r);
      AroundStep(job, t.shared, Some(t.resumers[r]), act.op);
      AroundStep(job, t.shared, None, act.op);
      assert t.resumers - {act.who} == t.resumers;
      SoleResumer(t', r);
    }
  }

  lemma {:induction false} RunProjects(job: Job, t: Team, acts: seq<Act>)
    requires Alone(t) && NeverOpens(job, t, acts)
    ensures Whole(TeamRun(job, t, acts)) == Run(job, Whole(t), Projected(job, t, acts))
    decreases |acts|
  {
    if acts != [] {
      var t' := TeamStep(job, t, acts[0]);
      StepAloneIff(job, t, acts[0]);
      RunProjects(job, t', acts[1..]);
      if Idle(t, acts[0]) {
        IdleStep(job, t, acts[0]);
        assert Projected(job, t, acts) == Projected(job, t', acts[1..]);
      } else {
        StepProjects(job, t, acts[0]);
        assert Projected(job, t, acts)[1..] == Projected(job, t', acts[1..]);
      }
    }
  }

  ghost predicate TeamGrounded(job: Job, t: Team, acts: seq<Act>)
    decreases |acts|
  {
    acts != [] ==>
      && (Plans(job, Seen(t, acts[0].who), acts[0].op) ==> Grounded(job, t.shared))
      && TeamGrounded(job, TeamStep(job, t, acts[0]), acts[1..])
  }

  /** Ground and plans are the same to everybody. */
  lemma SameGround(job: Job, w: World, w': World)
    requires w' == w.(mem := w'.mem)
    ensures Grounded(job, w) <==> Grounded(job, w')
  {
    assert SameRows(job, w, w');
    assert OnFile(job, w) <==> OnFile(job, w');
  }

  lemma {:induction false} GroundProjects(job: Job, t: Team, acts: seq<Act>)
    requires Alone(t) && NeverOpens(job, t, acts) && TeamGrounded(job, t, acts)
    ensures AlwaysGrounded(job, Whole(t), Projected(job, t, acts))
    decreases |acts|
  {
    if acts != [] {
      var t' := TeamStep(job, t, acts[0]);
      StepAloneIff(job, t, acts[0]);
      GroundProjects(job, t', acts[1..]);
      if Idle(t, acts[0]) {
        IdleStep(job, t, acts[0]);
        assert Projected(job, t, acts) == Projected(job, t', acts[1..]);
      } else {
        StepProjects(job, t, acts[0]);
        PlanIsGrounded(job, t, acts[0]);
        assert Projected(job, t, acts)[1..] == Projected(job, t', acts[1..]);
      }
    }
  }

  lemma PlanIsGrounded(job: Job, t: Team, act: Act)
    requires Alone(t) && !Idle(t, act) && (Plans(job, Seen(t, act.who), act.op) ==> Grounded(job, t.shared))
    ensures Plans(job, Whole(t), act.op) ==> Grounded(job, Whole(t))
  {
    if act.who in t.resumers { SoleResumer(t, act.who); }
    SameGround(job, t.shared, Whole(t));
  }

  /**
   Resume safety for any number of orchestrators: no write opens the task, and every round is planned on good ground.
   */
  lemma TeamResumeSafety(job: Job, start: Team, acts: seq<Act>)
    requires NewTeam(job, start) && NeverOpens(job, start, acts) && TeamGrounded(job, start, acts)
    ensures var log := TeamRun(job, start, acts).shared.log;
            NeverRepeats(log) && Ordered(log)
  {
    GroundProjects(job, start, acts);
    RunProjects(job, start, acts);
    ResumeSafety(job, start.shared, Projected(job, start, acts));
  }

  /** The evidence behind a valid checkpoint stands whenever anybody plans a round. */
  ghost predicate TeamEvidenced(job: Job, t: Team, acts: seq<Act>)
    decreases |acts|
  {
    acts != [] ==>
      Evidenced(job, Seen(t, acts[0].who), acts[0].op) && TeamEvidenced(job, TeamStep(job, t, acts[0]), acts[1..])
  }

  /** The copy written back names nothing, although a step is checkpointed or some orchestrator has noted one. */
  ghost predicate ErasesNote(job: Job, t: Team, act: Act) {
    && act.op.Write? && act.op.editor in t.shared.loaded
    && Edited(t.shared.loaded[act.op.editor].status, act.op.edit).Some?
    && t.shared.loaded[act.op.editor].unverified == []
    && (OnFile(job, t.shared) || exists r :: r in t.resumers && AtStage(Seen(t, r), Noted))
  }

  ghost predicate NeverErasesNote(job: Job, t: Team, acts: seq<Act>)
    decreases |acts|
  {
    acts != [] ==> !ErasesNote(job, t, acts[0]) && NeverErasesNote(job, TeamStep(job, t, acts[0]), acts[1..])
  }

  lemma EvidenceIsShared(job: Job, t: Team, act: Act)
    requires Alone(t) && !Idle(t, act) && Evidenced(job, Seen(t, act.who), act.op)
    ensures Evidenced(job, Whole(t), act.op)
  {
    if act.who in t.resumers { SoleResumer(t, act.who); }
  }

  lemma NoteIsShared(job: Job, t: Team, act: Act)
    requires Alone(t)
    ensures ErasesNote(job, t, act) <==> Erases(job, Whole(t), act.op)
  {
    assert OnFile(job, Whole(t)) <==> OnFile(job, t.shared) by { assert SameRows(job, t.shared, Whole(t)); }
    if r :| r in t.resumers { SoleResumer(t, r); }
  }

  lemma {:induction false} CareProjects(job: Job, t: Team, acts: seq<Act>)
    requires Alone(t) && NeverOpens(job, t, acts) && TeamEvidenced(job, t, acts) && NeverErasesNote(job, t, acts)
    ensures AlwaysEvidenced(job, Whole(t), Projected(job, t, acts))
    ensures NeverErases(job, Whole(t), Projected(job, t, acts))
    decreases |acts|
  {
    if acts != [] {
      var t' := TeamStep(job, t, acts[0]);
      StepAloneIff(job, t, acts[0]);
      CareProjects(job, t', acts[1..]);
      if Idle(t, acts[0]) {
        IdleStep(job, t, acts[0]);
        assert Projected(job, t, acts) == Projected(job, t', acts[1..]);
      } else {
        StepProjects(job, t, acts[0]);
        EvidenceIsShared(job, t, acts[0]);
        NoteIsShared(job, t, acts[0]);
        assert Projected(job, t, acts)[1..] == Projected(job, t', acts[1..]);
      }
    }
  }

  /**
   In the terms of what callers can answer for: no write opens the task or erases its note, and the evidence behind a
   valid checkpoint stands whenever a round is planned.
   */
  lemma GuardedTeamSafety(job: Job, start: Team, acts: seq<Act>)
    requires NewTeam(job, start) && NeverOpens(job, start, acts)
    requires TeamEvidenced(job, start, acts) && NeverErasesNote(job, start, acts)
    ensures var log := TeamRun(job, start, acts).shared.log;
            NeverRepeats(log) && Ordered(log)
  {
    CareProjects(job, start, acts);
    RunProjects(job, start, acts);
    GuardedResumeSafety(job, start.shared, Projected(job, start, acts));
  }
}
