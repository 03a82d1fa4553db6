/** Runs of several orchestrators, from a task nobody resumes yet, in which a second one gets in. */
module CrashTeamRuns {
  import opened Prelude
  import opened CrashRecovery
  import opened CrashOrder
  import opened CrashTeam
  import opened CrashRuns

  lemma TeamRunFirst(job: Job, t: Team, act: Act, acts: seq<Act>)
    ensures TeamRun(job, t, [act] + acts) == TeamRun(job, TeamStep(job, t, act), acts)
  {
    assert ([act] + acts)[1..] == acts;
  }

  // ---------------------------------------------------------------- two claims

  lemma ClaimAlone(job: Job, t: Team, who: nat)
    requires t.resumers == map[] && t.shared.mem.None? && t.shared.status !in CLOSED
    ensures TeamStep(job, t, Act(who, Claim))
            == Team(t.shared.(status := RUNNING), map[who := Claimed(t.shared.unverified)])
  {}

  lemma ReadByOther(job: Job, t: Team, who: nat, editor: nat)
    requires who !in t.resumers && t.shared.mem.None?
    ensures TeamStep(job, t, Act(who, Read(editor)))
            == t.(shared := t.shared.(loaded := t.shared.loaded[editor := CrashRecovery.Row(t.shared.status,
                t.shared.unverified)]))
  {
    assert t.resumers - {who} == t.resumers;
  }

  /** The write and the claim after it. */
  lemma WriteAndClaim(job: Job, t: Team, editor: nat, edit: Edit)
    requires Alone(t) && 1 in t.resumers && 2 !in t.resumers && Opens(t, Act(3, Write(editor, edit)))
    ensures var t' := TeamRun(job, t, [Act(3, Write(editor, edit))] + ([Act(2, Claim)] + []));
            1 in t'.resumers && 2 in t'.resumers
  {
    var reopened := TeamStep(job, t, Act(3, Write(editor, edit)));
    TeamRunFirst(job, t, Act(3, Write(editor, edit)), [Act(2, Claim)] + []);
    TeamRunFirst(job, reopened, Act(2, Claim), []);
    SecondClaimIff(job, t, Act(3, Write(editor, edit)), 2);
  }

  /**
   `interrupt_worker` during a resume: it finds the item RUNNING and sets it to INTERRUPTED, from which the
   next orchestrator claims it while the first one is still at work. No audit takes part.
   */
  lemma InterruptLetsTwoIn(job: Job, start: Team) returns (acts: seq<Act>)
    requires NewTeam(job, start) && start.shared.status !in CLOSED
    ensures forall i | 0 <= i < |acts| :: acts[i].op.Write? ==> acts[i].op.edit.Interrupt?
    ensures var t := TeamRun(job, start, acts); 1 in t.resumers && 2 in t.resumers
  {
    var last := [Act(3, Write(0, Interrupt))] + ([Act(2, Claim)] + []);
    acts := [Act(1, Claim)] + ([Act(3, Read(0))] + last);
    TeamRunFirst(job, start, Act(1, Claim), [Act(3, Read(0))] + last);
    ClaimAlone(job, start, 1);
    var claimed := TeamStep(job, start, Act(1, Claim));
    TeamRunFirst(job, claimed, Act(3, Read(0)), last);
    ReadByOther(job, claimed, 3, 0);
    WriteAndClaim(job, TeamStep(job, claimed, Act(3, Read(0))), 0, Interrupt);
  }

  /**
   `reconcile_ambiguous_task` decides on the item as it read it: it may store PENDING after somebody has
   claimed the task in between.
   */
  lemma LateRetryLetsTwoIn(job: Job, start: Team) returns (acts: seq<Act>)
    requires NewTeam(job, start) && start.shared.status in {FAILED, AMBIGUOUS, DISPATCHED}
    ensures forall i | 0 <= i < |acts| :: acts[i].op.Write? ==> acts[i].op.edit == Resolve(Retry)
    ensures var t := TeamRun(job, start, acts); 1 in t.resumers && 2 in t.resumers
  {
    var last := [Act(3, Write(0, Resolve(Retry)))] + ([Act(2, Claim)] + []);
    acts := [Act(3, Read(0))] + ([Act(1, Claim)] + last);
    TeamRunFirst(job, start, Act(3, Read(0)), [Act(1, Claim)] + last);
    ReadByOther(job, start, 3, 0);
    var read := TeamStep(job, start, Act(3, Read(0)));
    TeamRunFirst(job, read, Act(1, Claim), last);
    ClaimAlone(job, read, 1);
    WriteAndClaim(job, TeamStep(job, read, Act(1, Claim)), 0, Resolve(Retry));
  }

  // ---------------------------------------------------------------- an audit between two resumers

  const CLAIMED := Claimed([])
  const PLANNED := Running([Item(0, BUILD.steps[0])], [], 0, Some("c0"), Ready, {}, [])
  const LOOKED := Looked(Go([Item(0, BUILD.steps[0])], [], 0, {}), Some("c0"), [])
  const PERFORMED := Running([], ["build"], 1, Some("c0"), Performed, {0}, [])
  const NOTED := Running([], ["build"], 1, Some("c0"), Noted, {0}, ["build"])
  const SAVED := Running([], ["build"], 1, Some("c0"), Ready, {0}, ["build"])

  /** What the two share, at each point of the run, as the one with this in hand sees it. */
  function Sees(status: Status, unverified: seq<string>, cps: seq<Checkpoint>, log: seq<Event>, mem: Option<Resumer>)
    : World
  {
    World(status, unverified, map[], cps, Some("c0"), FILES, mem, log)
  }

  lemma ResumerSteps(job: Job, t: Team, who: nat, op: Op, w: World)
    requires Step(job, Seen(t, who), op) == w && w.mem.Some?
    ensures TeamStep(job, t, Act(who, op)) == Team(w.(mem := None), t.resumers[who := w.mem.value])
  {}

  /** A step of the first one, alone. */
  lemma FirstSteps(w: World, op: Op, w': World, rest: seq<Act>)
    requires w.mem.Some? && w'.mem.Some? && Step(BUILD, w, op) == w'
    ensures TeamRun(BUILD, Team(w.(mem := None), map[1 := w.mem.value]), [Act(1, op)] + rest)
            == TeamRun(BUILD, Team(w'.(mem := None), map[1 := w'.mem.value]), rest)
  {
    var t := Team(w.(mem := None), map[1 := w.mem.value]);
    TeamRunFirst(BUILD, t, Act(1, op), rest);
    ResumerSteps(BUILD, t, 1, op, w');
    assert map[1 := w.mem.value][1 := w'.mem.value] == map[1 := w'.mem.value];
  }

  /** A step of the second one, with the first still at work. */
  lemma SecondSteps(w: World, op: Op, w': World, rest: seq<Act>)
    requires w.mem.Some? && w'.mem.Some? && Step(BUILD, w, op) == w'
    ensures TeamRun(BUILD, Team(w.(mem := None), map[1 := PLANNED, 2 := w.mem.value]), [Act(2, op)] + rest)
            == TeamRun(BUILD, Team(w'.(mem := None), map[1 := PLANNED, 2 := w'.mem.value]), rest)
  {
    var t := Team(w.(mem := None), map[1 := PLANNED, 2 := w.mem.value]);
    TeamRunFirst(BUILD, t, Act(2, op), rest);
    ResumerSteps(BUILD, t, 2, op, w');
    assert t.resumers[2 := w'.mem.value] == map[1 := PLANNED, 2 := w'.mem.value];
  }

  lemma BuildLook()
    ensures Step(BUILD, Sees(RUNNING, [], [], [], Some(CLAIMED)), Look(Usable))
            == Sees(RUNNING, [], [], [], Some(LOOKED))
  {
    BuildItems();
    FirstPlan(BUILD, Sees(RUNNING, [], [], [], Some(CLAIMED)), []);
  }

  lemma BuildStart()
    ensures Step(BUILD, Sees(RUNNING, [], [], [], Some(LOOKED)), Start(true))
            == Sees(RUNNING, [], [], [], Some(PLANNED))
  {}

  lemma BuildPerform(w: World)
    requires w.mem == Some(PLANNED)
    ensures Step(BUILD, w, Perform) == w.(log := w.log + [Dispatched(0)], mem := Some(PERFORMED))
  {
    assert PLANNED.remaining[1..] == [] && [] + ["build"] == ["build"] && {} + {0} == {0};
  }

  lemma BuildSaves()
    ensures Step(BUILD, Sees(RUNNING, [], [], [Dispatched(0)], Some(PERFORMED)), NoteDone)
            == Sees(RUNNING, ["build"], [], [Dispatched(0)], Some(NOTED))
    ensures Step(BUILD, Sees(RUNNING, ["build"], [], [Dispatched(0)], Some(NOTED)), Save(0))
            == Sees(RUNNING, ["build"], [CrashRuns.Row(1, ["build"])], [Dispatched(0), Checkpointed({0})], Some(SAVED))
  {
    assert [Dispatched(0)] + [Checkpointed({0})] == [Dispatched(0), Checkpointed({0})];
  }

  lemma FirstStarts(rest: seq<Act>)
    ensures TeamRun(BUILD, Team(NewWorld("c0"), map[]),
                    [Act(1, Claim)] + ([Act(1, Look(Usable))] + ([Act(1, Start(true))] + rest)))
            == TeamRun(BUILD, Team(Sees(RUNNING, [], [], [], None), map[1 := PLANNED]), rest)
  {
    TeamRunFirst(BUILD, Team(NewWorld("c0"), map[]), Act(1, Claim),
                 [Act(1, Look(Usable))] + ([Act(1, Start(true))] + rest));
    ClaimAlone(BUILD, Team(NewWorld("c0"), map[]), 1);
    BuildLook();
    var claimed, looked := Sees(RUNNING, [], [], [], Some(CLAIMED)), Sees(RUNNING, [], [], [], Some(LOOKED));
    FirstSteps(claimed, Look(Usable), looked, [Act(1, Start(true))] + rest);
    BuildStart();
    FirstSteps(looked, Start(true), Sees(RUNNING, [], [], [], Some(PLANNED)), rest);
  }

  lemma Audited(rest: seq<Act>)
    ensures TeamRun(BUILD, Team(Sees(RUNNING, [], [], [], None), map[1 := PLANNED]),
                    [Act(3, Read(0))] + ([Act(3, Write(0, Audit(false)))] + rest))
            == TeamRun(BUILD, Team(Sees(FAILED, [], [], [], None), map[1 := PLANNED]), rest)
  {
    var t := Team(Sees(RUNNING, [], [], [], None), map[1 := PLANNED]);
    TeamRunFirst(BUILD, t, Act(3, Read(0)), [Act(3, Write(0, Audit(false)))] + rest);
    ReadByOther(BUILD, t, 3, 0);
    var read := TeamStep(BUILD, t, Act(3, Read(0)));
    TeamRunFirst(BUILD, read, Act(3, Write(0, Audit(false))), rest);
    AuditFails(BUILD, t.shared);
    assert read.resumers - {3} == read.resumers;
  }

  lemma SecondClaims()
    ensures TeamStep(BUILD, Team(Sees(FAILED, [], [], [], None), map[1 := PLANNED]), Act(2, Claim))
            == Team(Sees(RUNNING, [], [], [], None), map[1 := PLANNED, 2 := CLAIMED])
  {
    ResumerSteps(BUILD, Team(Sees(FAILED, [], [], [], None), map[1 := PLANNED]), 2, Claim,
                 Sees(RUNNING, [], [], [], Some(CLAIMED)));
    assert map[1 := PLANNED][2 := CLAIMED] == map[1 := PLANNED, 2 := CLAIMED];
  }

  lemma SecondStarts(rest: seq<Act>)
    ensures TeamRun(BUILD, Team(Sees(FAILED, [], [], [], None), map[1 := PLANNED]),
                    [Act(2, Claim)] + ([Act(2, Look(Usable))] + ([Act(2, Start(true))] + rest)))
            == TeamRun(BUILD, Team(Sees(RUNNING, [], [], [], None), map[1 := PLANNED, 2 := PLANNED]), rest)
  {
    TeamRunFirst(BUILD, Team(Sees(FAILED, [], [], [], None), map[1 := PLANNED]), Act(2, Claim),
                 [Act(2, Look(Usable))] + ([Act(2, Start(true))] + rest));
    SecondClaims();
    BuildLook();
    var claimed, looked := Sees(RUNNING, [], [], [], Some(CLAIMED)), Sees(RUNNING, [], [], [], Some(LOOKED));
    SecondSteps(claimed, Look(Usable), looked, [Act(2, Start(true))] + rest);
    BuildStart();
    SecondSteps(looked, Start(true), Sees(RUNNING, [], [], [], Some(PLANNED)), rest);
  }

  /** Both are at work now; what the second one saves. */
  function Done(): World {
    Sees(RUNNING, ["build"], [CrashRuns.Row(1, ["build"])], [Dispatched(0), Checkpointed({0})], Some(SAVED))
  }

  lemma SecondFinishes(rest: seq<Act>)
    ensures TeamRun(BUILD, Team(Sees(RUNNING, [], [], [], None), map[1 := PLANNED, 2 := PLANNED]),
                    [Act(2, Perform)] + ([Act(2, NoteDone)] + ([Act(2, Save(0))] + rest)))
            == TeamRun(BUILD, Team(Done().(mem := None), map[1 := PLANNED, 2 := SAVED]), rest)
  {
    var planned := Sees(RUNNING, [], [], [], Some(PLANNED));
    var performed := Sees(RUNNING, [], [], [Dispatched(0)], Some(PERFORMED));
    var noted := Sees(RUNNING, ["build"], [], [Dispatched(0)], Some(NOTED));
    BuildPerform(planned);
    assert [] + [Dispatched(0)] == [Dispatched(0)];
    SecondSteps(planned, Perform, performed, [Act(2, NoteDone)] + ([Act(2, Save(0))] + rest));
    BuildSaves();
    SecondSteps(performed, NoteDone, noted, [Act(2, Save(0))] + rest);
    SecondSteps(noted, Save(0), Done(), rest);
  }

  lemma FirstPerforms()
    ensures TeamRun(BUILD, Team(Done().(mem := None), map[1 := PLANNED, 2 := SAVED]), [Act(1, Perform)] + []).shared.log
            == [Dispatched(0), Checkpointed({0}), Dispatched(0)]
  {
    var t := Team(Done().(mem := None), map[1 := PLANNED, 2 := SAVED]);
    TeamRunFirst(BUILD, t, Act(1, Perform), []);
    BuildPerform(Seen(t, 1));
  }

  /**
   With an audit between the claim of one orchestrator and its first dispatch, a second one claims the
   task too, and performs and checkpoints its step; then the first performs it again.
   */
  lemma AuditLetsTwoIn() returns (acts: seq<Act>)
    ensures NewTeam(BUILD, Team(NewWorld("c0"), map[]))
    ensures var log := TeamRun(BUILD, Team(NewWorld("c0"), map[]), acts).shared.log;
            log == [Dispatched(0), Checkpointed({0}), Dispatched(0)] && !NeverRepeats(log)
  {
    var last := [Act(1, Perform)] + [];
    var performs := [Act(2, Perform)] + ([Act(2, NoteDone)] + ([Act(2, Save(0))] + last));
    var starts := [Act(2, Claim)] + ([Act(2, Look(Usable))] + ([Act(2, Start(true))] + performs));
    var audit := [Act(3, Read(0))] + ([Act(3, Write(0, Audit(false)))] + starts);
    acts := [Act(1, Claim)] + ([Act(1, Look(Usable))] + ([Act(1, Start(true))] + audit));
    FirstStarts(audit);
    Audited(starts);
    SecondStarts(performs);
    SecondFinishes(last);
    FirstPerforms();
    var log := [Dispatched(0), Checkpointed({0}), Dispatched(0)];
    assert log[1].Checkpointed? && log[2].Dispatched?;
  }
}
