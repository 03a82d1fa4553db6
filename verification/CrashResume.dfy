/** The imperative side of resuming in recovery/crash_recovery.py: one call that nothing interrupts. */
module CrashResume {
  import opened Prelude
  import opened CrashRecovery

  /** The step loop run to its end, with the worker's answers given. */
  function Drive(job: Job, w: World, answers: seq<bool>, now: nat): World
    requires AtStage(w, Ready) ==> |w.mem.value.remaining| <= |answers|
    decreases |answers|
  {
    if !AtStage(w, Ready) then w
    else if w.mem.value.remaining == [] then DoFinish(w)
    else if !answers[0] then DoStepFails(DoPerform(w))
    else Drive(job, DoSave(job, DoNote(DoPerform(w)), now), answers[1..], now)
  }

  function DriveOps(remaining: seq<Item>, answers: seq<bool>, now: nat): seq<Op>
    requires |remaining| <= |answers|
    decreases |answers|
  {
    if remaining == [] then [Finish]
    else if !answers[0] then [Perform] + [StepFails]
    else [Perform] + ([NoteDone] + ([Save(now)] + DriveOps(remaining[1..], answers[1..], now)))
  }

  lemma RunOne(job: Job, w: World, op: Op)
    ensures Run(job, w, [op]) == Step(job, w, op)
  {}

  lemma TurnRun(job: Job, w: World, now: nat, ops: seq<Op>)
    requires AtStage(w, Ready) && w.mem.value.remaining != []
    ensures var next := DoSave(job, DoNote(DoPerform(w)), now);
            && Run(job, w, [Perform] + ([NoteDone] + ([Save(now)] + ops))) == Run(job, next, ops)
            && AtStage(next, Ready) && next.mem.value.remaining == w.mem.value.remaining[1..]
  {
    var performed := DoPerform(w);
    RunFirst(job, w, Perform, [NoteDone] + ([Save(now)] + ops));
    RunFirst(job, performed, NoteDone, [Save(now)] + ops);
    RunFirst(job, DoNote(performed), Save(now), ops);
  }

  lemma FailureRun(job: Job, w: World)
    ensures Run(job, w, [Perform] + [StepFails]) == DoStepFails(DoPerform(w))
  {
    RunFirst(job, w, Perform, [StepFails]);
    RunOne(job, DoPerform(w), StepFails);
  }

  /** An uninterrupted step loop is one run of the protocol, so everything proved of runs holds of it. */
  lemma {:induction false} DriveIsRun(job: Job, w: World, answers: seq<bool>, now: nat)
    requires AtStage(w, Ready) && |w.mem.value.remaining| <= |answers|
    ensures Drive(job, w, answers, now) == Run(job, w, DriveOps(w.mem.value.remaining, answers, now))
    decreases |answers|
  {
    var remaining := w.mem.value.remaining;
    if remaining == [] {
      RunOne(job, w, Finish);
    } else if answers[0] {
      TurnRun(job, w, now, DriveOps(remaining[1..], answers[1..], now));
      DriveIsRun(job, DoSave(job, DoNote(DoPerform(w)), now), answers[1..], now);
    } else {
      FailureRun(job, w);
    }
  }

  /** What the claim, the reads and the decision make of the task. */
  function Started(job: Job, w: World, session: Session, granted: bool): World {
    DoStart(DoLook(job, DoClaim(w), session), granted)
  }

  /**
   What one call of `resume_task_from_checkpoint` makes of the task when nothing interrupts it. A worker
   that is alive without this orchestrator holding its pipes is refused before the claim.
   */
  function Resumed(job: Job, w: World, orphaned: bool, session: Session, granted: bool, answers: seq<bool>, now: nat)
    : World
    requires |job.steps| <= |answers|
  {
    if orphaned || DoClaim(w) == w then w
    else
      StartedWithinSteps(job, w, session, granted);
      Drive(job, Started(job, w, session, granted), answers, now)
  }

  lemma {:induction false} RemainingIsShorter(steps: seq<WorkStep>, completed: seq<string>, i: nat)
    requires i <= |steps|
    ensures |RemainingFrom(steps, completed, i)| <= |steps| - i
    decreases |steps| - i
  {
    if i < |steps| { RemainingIsShorter(steps, completed, i + 1); }
  }

  lemma DecidedWithinSteps(job: Job, w: World, noted: seq<string>)
    requires Decide(job, w, noted).Go?
    ensures |Decide(job, w, noted).remaining| <= |job.steps|
  {
    RemainingIsShorter(job.steps, Completed(job, w), 0);
    RemainingIsShorter(job.steps, [], 0);
  }

  lemma StartedWithinSteps(job: Job, w: World, session: Session, granted: bool)
    requires DoClaim(w) != w
    ensures AtStage(Started(job, w, session, granted), Ready)
            ==> |Started(job, w, session, granted).mem.value.remaining| <= |job.steps|
  {
    if Decide(job, DoClaim(w), w.unverified).Go? { DecidedWithinSteps(job, DoClaim(w), w.unverified); }
  }

  function ResumeOps(job: Job, w: World, orphaned: bool, session: Session, granted: bool, answers: seq<bool>, now: nat)
    : seq<Op>
    requires |job.steps| <= |answers|
  {
    if orphaned || DoClaim(w) == w then []
    else
      StartedWithinSteps(job, w, session, granted);
      var started := Started(job, w, session, granted);
      [Claim] + ([Look(session)] + ([Start(granted)]
                 + if AtStage(started, Ready) then DriveOps(started.mem.value.remaining, answers, now) else []))
  }

  /** The call as a whole is a run of the protocol, so everything proved of runs holds of calls. */
  lemma ResumedIsRun(job: Job, w: World, orphaned: bool, session: Session, granted: bool, answers: seq<bool>, now: nat)
    requires |job.steps| <= |answers|
    ensures Resumed(job, w, orphaned, session, granted, answers, now)
            == Run(job, w, ResumeOps(job, w, orphaned, session, granted, answers, now))
  {
    if !orphaned && DoClaim(w) != w {
      StartedWithinSteps(job, w, session, granted);
      var looked, started := DoLook(job, DoClaim(w), session), Started(job, w, session, granted);
      var rest := if AtStage(started, Ready) then DriveOps(started.mem.value.remaining, answers, now) else [];
      if AtStage(started, Ready) { DriveIsRun(job, started, answers, now); }
      RunFirst(job, w, Claim, [Look(session)] + ([Start(granted)] + rest));
      RunFirst(job, DoClaim(w), Look(session), [Start(granted)] + rest);
      RunFirst(job, looked, Start(granted), rest);
    }
  }

  /** A decision looks at the checkpoints, HEAD and the files only. */
  lemma DecidedAlike(job: Job, w: World, w': World, noted: seq<string>)
    requires (w.checkpoints, w.head, w.files) == (w'.checkpoints, w'.head, w'.files)
    ensures Decide(job, w, noted) == Decide(job, w', noted)
  {}

  /** The outcomes of a call that is not refused outright. */
  lemma ResumedCases(job: Job, w: World, session: Session, granted: bool, answers: seq<bool>, now: nat)
    requires |job.steps| <= |answers| && w.mem.None? && w.status !in CLOSED
    ensures var claimed, noted := w.(status := RUNNING, mem := Some(Claimed(w.unverified))), w.unverified;
            Resumed(job, w, false, session, granted, answers, now)
            == match session
               case Missing => w.(status := RUNNING)
               case Unsafe => w.(status := DISPATCHED)
               case Usable =>
                 match Decide(job, claimed, noted)
                 case AllDone => w.(status := COMPLETED, log := w.log + [Finished])
                 case Blocked => w.(status := DISPATCHED)
                 case Malformed => w.(status := RUNNING)
                 case Go(remaining, completed, index, done) =>
                   if (exists item | item in remaining :: item.step.command) && !granted then w.(status := DISPATCHED)
                   else
                     (DecidedWithinSteps(job, claimed, noted);
                      var running := Running(remaining, completed, index, w.head, Ready, done, noted);
                      Drive(job, w.(status := RUNNING, mem := Some(running)), answers, now))
  {
    StartedWithinSteps(job, w, session, granted);
  }

  /** The rows the step loop writes. */
  datatype Stored = Stored(status: Status, unverified: seq<string>, checkpoints: seq<Checkpoint>, log: seq<Event>)

  /** The step loop on the stored rows, with the caller's own copy of what the row notes. */
  function StepLoop(job: Job, s: Stored, remaining: seq<Item>, completed: seq<string>, done: set<nat>, index: nat,
                    commit: Option<string>, noted: seq<string>, answers: seq<bool>, now: nat): Stored
    requires |remaining| <= |answers|
    decreases |remaining|
  {
    if remaining == [] then s.(status := COMPLETED, unverified := noted, log := s.log + [Finished])
    else if !answers[0] then AfterFailure(s, remaining[0], noted)
    else
      var item, names := remaining[0], completed + [Label(remaining[0].step, index + 1)];
      StepLoop(job, AfterStep(job, s, item, completed, done, index + 1, commit, now), remaining[1..], names,
               done + {item.position}, index + 1, commit, names, answers[1..], now)
  }

  function AfterFailure(s: Stored, item: Item, noted: seq<string>): Stored {
    s.(status := FAILED, unverified := noted, log := s.log + [Dispatched(item.position)])
  }

  function AfterStep(job: Job, s: Stored, item: Item, completed: seq<string>, done: set<nat>, index: nat,
                     commit: Option<string>, now: nat): Stored
  {
    var names, steps := completed + [Label(item.step, index)], done + {item.position};
    var cp := Checkpoint(job.dispatchId, job.taskId, job.teamId, index, names, commit, now, steps);
    Stored(RUNNING, names, SaveCheckpoint(s.checkpoints, cp),
           s.log + [Dispatched(item.position)] + [Checkpointed(steps)])
  }

  function StoredOf(w: World): Stored {
    Stored(w.status, w.unverified, w.checkpoints, w.log)
  }

  /** What the worlds of the protocol and the rows of the loop agree on. */
  ghost predicate Stores(w: World, s: Stored, before: World) {
    w == World(s.status, s.unverified, before.loaded, s.checkpoints, before.head, before.files, None, s.log)
  }

  lemma OneTurn(job: Job, w: World, now: nat)
    requires AtStage(w, Ready) && w.mem.value.remaining != []
    ensures var m, next := w.mem.value, DoSave(job, DoNote(DoPerform(w)), now);
            var item := m.remaining[0];
            var names := m.completed + [Label(item.step, m.index + 1)];
            && StoredOf(next) == AfterStep(job, StoredOf(w), item, m.completed, m.done, m.index + 1, m.commit, now)
            && next.mem == Some(Running(m.remaining[1..], names, m.index + 1, m.commit, Ready, m.done + {item.position},
                                        names))
            && next.head == w.head && next.files == w.files && next.loaded == w.loaded
  {}

  /** The loop on the rows and the steps of the protocol come to the same end. */
  lemma {:induction false} StepLoopIsDrive(job: Job, w: World, answers: seq<bool>, now: nat)
    requires AtStage(w, Ready) && |w.mem.value.remaining| <= |answers|
    ensures var m := w.mem.value;
            Stores(Drive(job, w, answers, now),
                   StepLoop(job, StoredOf(w), m.remaining, m.completed, m.done, m.index, m.commit, m.noted, answers,
                            now),
                   w)
    decreases |answers|
  {
    var m := w.mem.value;
    if m.remaining != [] && answers[0] {
      OneTurn(job, w, now);
      StepLoopIsDrive(job, DoSave(job, DoNote(DoPerform(w)), now), answers[1..], now);
    }
  }

  class TaskRecovery {
    const job: Job
    var status: Status
    var unverified: seq<string>
    var checkpoints: seq<Checkpoint>
    var head: Option<string>
    var files: Files
    ghost var loaded: map<nat, Row>
    ghost var log: seq<Event>

    ghost function View(mem: Option<Resumer>): World
      reads this
    {
      World(status, unverified, loaded, checkpoints, head, files, mem, log)
    }

    method Dispatch(item: Item, answer: bool) returns (completed: bool)
      modifies this`log
      ensures completed == answer && log == old(log) + [Dispatched(item.position)]
    {
      log := log + [Dispatched(item.position)];
      completed := answer;
    }

    method SaveQueueItem(newStatus: Status, noted: seq<string>)
      modifies this`status, this`unverified
      ensures status == newStatus && unverified == noted
    {
      status, unverified := newStatus, noted;
    }

    method ResumeTaskFromCheckpoint(orphaned: bool, session: Session, granted: bool, answers: seq<bool>, now: nat)
      requires |job.steps| <= |answers|
      modifies this`status, this`unverified, this`checkpoints, this`log
      ensures View(None) == Resumed(job, old(View(None)), orphaned, session, granted, answers, now)
    {
      if orphaned || status in CLOSED {
        return;
      }
      status := RUNNING;
      var noted := unverified;
      ghost var claimed := View(Some(Claimed(noted)));
      ResumedCases(job, old(View(None)), session, granted, answers, now);
      if session.Missing? {
        return;
      }
      if session.Unsafe? {
        SaveQueueItem(DISPATCHED, noted);
        return;
      }
      var plan := Decide(job, World(status, unverified, map[], checkpoints, head, files, None, []), noted);
      DecidedAlike(job, World(status, unverified, map[], checkpoints, head, files, None, []), claimed, noted);
      match plan
      case AllDone =>
        SaveQueueItem(COMPLETED, noted);
        log := log + [Finished];
      case Blocked => SaveQueueItem(DISPATCHED, noted);
      case Malformed =>
      case Go(remaining, completed, index, done) =>
        if (exists item | item in remaining :: item.step.command) && !granted {
          SaveQueueItem(DISPATCHED, noted);
          return;
        }
        SaveQueueItem(RUNNING, noted);
        DecidedWithinSteps(job, claimed, noted);
        ghost var running := Running(remaining, completed, index, head, Ready, done, noted);
        StepLoopIsDrive(job, View(Some(running)), answers, now);
        RunSteps(remaining, completed, done, index, noted, answers, now);
    }

    /** Dispatch a step, note it as observed, then checkpoint it; a failed step fails the task. */
    method RunStep(item: Item, completed: seq<string>, done: set<nat>, index: nat, commit: Option<string>,
                   noted: seq<string>, answer: bool, now: nat)
      returns (succeeded: bool)
      modifies this`status, this`unverified, this`checkpoints, this`log
      ensures succeeded == answer
      ensures Rows() == if answer then AfterStep(job, old(Rows()), item, completed, done, index, commit, now)
                        else AfterFailure(old(Rows()), item, noted)
    {
      succeeded := Dispatch(item, answer);
      if !succeeded {
        SaveQueueItem(FAILED, noted);
        return;
      }
      var names := completed + [Label(item.step, index)];
      SaveQueueItem(RUNNING, names);
      var cp := Checkpoint(job.dispatchId, job.taskId, job.teamId, index, names, commit, now, done + {item.position});
      checkpoints := SaveCheckpoint(checkpoints, cp);
      log := log + [Checkpointed(done + {item.position})];
    }

    ghost function Rows(): Stored
      reads this
    {
      Stored(status, unverified, checkpoints, log)
    }

    method RunSteps(remaining: seq<Item>, completed: seq<string>, done: set<nat>, index: nat, noted: seq<string>,
                    answers: seq<bool>, now: nat)
      requires |remaining| <= |answers|
      modifies this`status, this`unverified, this`checkpoints, this`log
      ensures Rows() == StepLoop(job, old(Rows()), remaining, completed, done, index, head, noted, answers, now)
    {
      var names, steps, copy := completed, done, noted;
      for i := 0 to |remaining|
        invariant head == old(head)
        invariant StepLoop(job, Rows(), remaining[i..], names, steps, index + i, head, copy, answers[i..], now)
                  == StepLoop(job, old(Rows()), remaining, completed, done, index, head, noted, answers, now)
      {
        assert remaining[i..][1..] == remaining[i + 1..] && answers[i..][1..] == answers[i + 1..];
        var succeeded := RunStep(remaining[i], names, steps, index + i + 1, head, copy, answers[i], now);
        if !succeeded {
          return;
        }
        names, steps := names + [Label(remaining[i].step, index + i + 1)], steps + {remaining[i].position};
        copy := names;
      }
      SaveQueueItem(COMPLETED, copy);
      log := log + [Finished];
    }
  }
}
