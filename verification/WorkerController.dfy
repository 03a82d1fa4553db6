/** The admission bookkeeping of `WorkerProcessController`, for any number of workers. */
module WorkerController {
  import opened Prelude
  import opened WorkerProtocol

  datatype Answer = NotAlive | Denied | PipeError | TimedOut | Done(result: string) | NotOutstanding | Detached

  /** What the controller knows of one worker. */
  datatype Slot = Slot(busy: bool, task: Option<string>, status: Status)

  /** What a harness switch comes to: False, an exception before or after anything was sent, or True. */
  datatype Switched = Gone | Refused | Unsupported | Unconfirmed | Confirmed

  /** A worker in that state with no thread inside a call. */
  function Quiet(s: Slot, alive: bool, pipe: bool): World {
    World(alive, pipe, s.busy, s.task, s.status, false, map[], map[], [], 0, [], if s.busy then ByTask(0) else Free)
  }

  function SlotOf(w: World): Slot {
    Slot(w.busy, w.busyTask, w.status)
  }

  /** The steps of one uninterrupted synchronous dispatch. */
  function DispatchSteps(task: string, pipe: bool, answered: bool): seq<Op> {
    [Admit(0, task), WriteTask(0)]
    + if !pipe then [DropClaim(0), ForgetTask(0)]
      else if answered then [Answers(0), Consume(0), Release(0)]
      else [GiveUp(0)]
  }

  lemma RunThree(w: World, ops: seq<Op>)
    requires |ops| >= 3
    ensures Run(w, ops) == Run(Step(Step(Step(w, ops[0]), ops[1]), ops[2]), ops[3..])
  {
    RunSplits(w, ops);
    RunSplits(Step(w, ops[0]), ops[1..]);
    RunSplits(Step(Step(w, ops[0]), ops[1]), ops[1..][1..]);
    assert ops[1..][1..][1..] == ops[3..];
  }

  /** After the TASK is written and answered, its RESULT is the one line there is. */
  lemma AnsweredSteps(s: Slot, task: string)
    ensures var w := Step(Step(Step(Quiet(s, true, true), Admit(0, task)), WriteTask(0)), Answers(0));
            if s.busy || s.status !in {IDLE, RUNNING} then w == Quiet(s, true, true)
            else w.alive && !w.switching && w.threads == map[0 := Waiting(task)] && w.lines == [Result(task, 0)]
                 && w.status == s.status
  {}

  lemma AnsweredRun(s: Slot, task: string)
    ensures SlotOf(Run(Quiet(s, true, true), DispatchSteps(task, true, true)))
            == if s.busy || s.status !in {IDLE, RUNNING} then s else Slot(false, None, s.status)
  {
    var w, ops := Quiet(s, true, true), DispatchSteps(task, true, true);
    RunThree(w, ops);
    AnsweredSteps(s, task);
    var w3 := Step(Step(Step(w, ops[0]), ops[1]), ops[2]);
    assert ops[3..] == [Consume(0), Release(0)];
    RunSplits(w3, ops[3..]);
    var w4 := Step(w3, Consume(0));
    assert w4 == w3 || (w4.threads == map[0 := Holding(task)] && w4.status == w3.status && !w4.switching && w4.alive);
    RunSplits(w4, [Release(0)]);
    assert Run(w3, ops[3..]) == Step(w4, Release(0));
  }

  lemma {:induction false} DeadRun(w: World, ops: seq<Op>)
    requires !w.alive
    ensures Run(w, ops) == w
    decreases |ops|
  {
    if ops != [] { DeadRun(w, ops[1..]); }
  }

  /**
   How a dispatch leaves a worker: free after the RESULT or a failed write, claimed after a timeout, untouched if
   denied.
   */
  lemma DispatchRun(s: Slot, task: string, alive: bool, pipe: bool, answered: bool)
    ensures SlotOf(Run(Quiet(s, alive, pipe), DispatchSteps(task, pipe, answered)))
            == if !alive || s.busy || s.status !in {IDLE, RUNNING} then s
               else if pipe && !answered then Slot(true, Some(task), s.status)
               else Slot(false, None, s.status)
  {
    var w, ops := Quiet(s, alive, pipe), DispatchSteps(task, pipe, answered);
    if !alive {
      DeadRun(w, ops);
    } else if pipe && answered {
      AnsweredRun(s, task);
    } else {
      RunThree(w, ops);
      RunSplits(Step(Step(Step(w, ops[0]), ops[1]), ops[2]), ops[3..]);
    }
  }

  /** The steps of an uninterrupted pause and resume. */
  const PAUSE_STEPS := [CheckPause(0), SetStatus(0)]
  const RESUME_STEPS := [CheckPaused(0), CheckClaim(0), SetStatus(0)]

  lemma PauseRun(s: Slot, alive: bool)
    ensures SlotOf(Run(Quiet(s, alive, true), PAUSE_STEPS))
            == if alive && s.status in {IDLE, RUNNING} then s.(status := PAUSED) else s
  {
    var w := Quiet(s, alive, true);
    RunSplits(w, PAUSE_STEPS);
    RunSplits(Step(w, CheckPause(0)), PAUSE_STEPS[1..]);
    assert PAUSE_STEPS[1..] == [SetStatus(0)];
  }

  lemma ResumeRun(s: Slot, alive: bool)
    ensures SlotOf(Run(Quiet(s, alive, true), RESUME_STEPS))
            == if alive && s.status in {PAUSED, INTERRUPTED} && !s.busy then s.(status := IDLE) else s
  {
    RunThree(Quiet(s, alive, true), RESUME_STEPS);
  }

  lemma RunSplits(w: World, ops: seq<Op>)
    ensures ops != [] ==> Run(w, ops) == Run(Step(w, ops[0]), ops[1..])
  {}

  class WorkerProcessController {
    var busyWorkers: set<string>
    var busyTaskIds: map<string, string>
    var statuses: map<string, Status>

    function At(worker: string): Slot
      reads this
      requires worker in statuses
    {
      Slot(worker in busyWorkers, if worker in busyTaskIds then Some(busyTaskIds[worker]) else None, statuses[worker])
    }

    constructor ()
      ensures busyWorkers == {} && busyTaskIds == map[] && statuses == map[]
    {
      busyWorkers, busyTaskIds, statuses := {}, map[], map[];
    }

    /** One call changes what is known of one worker only. */
    twostate predicate OnlyAbout(worker: string)
      reads this
    {
      && statuses.Keys == old(statuses.Keys)
      && (forall k | k in statuses && k != worker :: At(k) == old(At(k)))
    }

    method DispatchTaskToWorker(worker: string, task: string, alive: bool, ticketRefused: bool, writes: bool,
                                reply: Option<string>)
      returns (r: Answer)
      requires worker in statuses
      modifies this`busyWorkers, this`busyTaskIds
      ensures OnlyAbout(worker)
      ensures At(worker) == if ticketRefused then old(At(worker))
                            else SlotOf(Run(Quiet(old(At(worker)), alive, writes),
                                            DispatchSteps(task, writes, reply.Some?)))
      ensures r == if !alive then NotAlive
                   else if ticketRefused || old(At(worker).busy) || statuses[worker] !in {IDLE, RUNNING} then Denied
                   else if !writes then PipeError
                   else if reply.None? then TimedOut else Done(reply.value)
    {
      DispatchRun(At(worker), task, alive, writes, reply.Some?);
      if !alive {
        return NotAlive;
      }
      if statuses[worker] in {PAUSED, INTERRUPTED} || worker in busyWorkers || ticketRefused {
        return Denied;
      }
      if worker in busyWorkers || statuses[worker] in {PAUSED, INTERRUPTED, FAILED, ARCHIVED} {
        return Denied;
      }
      assert statuses[worker].IDLE? || statuses[worker].RUNNING?;
      busyWorkers, busyTaskIds := busyWorkers + {worker}, busyTaskIds[worker := task];
      if !writes {
        busyWorkers, busyTaskIds := busyWorkers - {worker}, busyTaskIds - {worker};
        return PipeError;
      }
      if reply.None? {
        return TimedOut;
      }
      busyWorkers, busyTaskIds := busyWorkers - {worker}, busyTaskIds - {worker};
      r := Done(reply.value);
    }

    /** Only the exact outstanding task can be collected, and collecting it is what frees the worker. */
    method CollectAsyncResult(worker: string, task: string, attached: bool, reply: Option<string>) returns (r: Answer)
      requires worker in statuses
      modifies this`busyWorkers, this`busyTaskIds
      ensures OnlyAbout(worker)
      ensures r == if old(At(worker).task) != Some(task) then NotOutstanding
                   else if !attached then Detached
                   else if reply.None? then TimedOut else Done(reply.value)
      ensures At(worker) == if r.Done? then Slot(false, None, statuses[worker]) else old(At(worker))
    {
      if worker !in busyTaskIds || busyTaskIds[worker] != task {
        return NotOutstanding;
      }
      if !attached {
        return Detached;
      }
      if reply.None? {
        return TimedOut;
      }
      busyWorkers, busyTaskIds := busyWorkers - {worker}, busyTaskIds - {worker};
      r := Done(reply.value);
    }

    method PauseWorker(worker: string, alive: bool) returns (paused: bool)
      requires worker in statuses
      modifies this`statuses
      ensures OnlyAbout(worker)
      ensures At(worker) == SlotOf(Run(Quiet(old(At(worker)), alive, true), PAUSE_STEPS))
      ensures paused <==> alive && old(statuses[worker]) in {IDLE, RUNNING}
    {
      PauseRun(At(worker), alive);
      if !alive || statuses[worker] !in {IDLE, RUNNING} {
        return false;
      }
      statuses := statuses[worker := PAUSED];
      paused := true;
    }

    method ResumeWorker(worker: string, alive: bool) returns (resumed: bool)
      requires worker in statuses
      modifies this`statuses
      ensures OnlyAbout(worker)
      ensures At(worker) == SlotOf(Run(Quiet(old(At(worker)), alive, true), RESUME_STEPS))
      ensures resumed <==> alive && old(statuses[worker]) in {PAUSED, INTERRUPTED} && worker !in busyWorkers
    {
      ResumeRun(At(worker), alive);
      if !alive || statuses[worker] !in {PAUSED, INTERRUPTED} || worker in busyWorkers {
        return false;
      }
      statuses := statuses[worker := IDLE];
      resumed := true;
    }

    /** The process is gone: what its exit code makes of the worker, and with it goes the claim. */
    method TerminateWorker(worker: string, exitCode: int)
      requires worker in statuses
      modifies this
      ensures OnlyAbout(worker)
      ensures At(worker) == SlotOf(Step(Quiet(old(At(worker)), true, true), Terminate))
                            .(status := if exitCode == 0 then ARCHIVED else FAILED)
    {
      statuses := statuses[worker := if exitCode == 0 then ARCHIVED else FAILED];
      busyWorkers, busyTaskIds := busyWorkers - {worker}, busyTaskIds - {worker};
    }

    /**
     A refused switch changes nothing; an unconfirmed one costs the worker its process and its claim.
     `supported` says that harness, model, provider and effort go together and a session is stored.
     */
    method SwitchWorkerHarness(worker: string, alive: bool, supported: bool, acked: bool, exitCode: int)
      returns (r: Switched)
      requires worker in statuses
      modifies this
      ensures OnlyAbout(worker)
      ensures r == if !alive then Gone
                   else if old(At(worker).busy) || old(statuses[worker]) !in {IDLE, PAUSED} then Refused
                   else if !supported then Unsupported
                   else if acked then Confirmed else Unconfirmed
      ensures At(worker) == if !r.Unconfirmed? then old(At(worker))
                            else Slot(false, None, if exitCode == 0 then ARCHIVED else FAILED)
    {
      if !alive {
        return Gone;
      }
      if statuses[worker] !in {IDLE, PAUSED} || worker in busyWorkers {
        return Refused;
      }
      if !supported {
        return Unsupported;
      }
      if !acked {
        TerminateWorker(worker, exitCode);
        return Unconfirmed;
      }
      r := Confirmed;
    }
  }
}
