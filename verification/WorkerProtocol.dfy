/**
 The one-outstanding-task protocol of execution/worker_process.py for one live worker. Every step
 is what one thread does between two points at which another thread can run.
 */
module WorkerProtocol {
  import opened Prelude

  datatype Status = IDLE | RUNNING | PAUSED | INTERRUPTED | FAILED | ARCHIVED

  /** Where a thread stands inside a dispatch, an async send, a collection or a change of status. */
  datatype Phase =
    | Admitted(task: string)   // has claimed the worker, TASK not yet written
    | Waiting(task: string)    // in `readline_matching` for the RESULT
    | Holding(task: string)    // has consumed the RESULT, claim not yet released
    | Failing                  // the pipe refused the TASK, claim not yet dropped
    | Clearing                 // claim dropped, task id not yet forgotten
    | Resuming                 // has seen the worker paused, has not looked at the claim yet
    | Changing(status: Status) // past every test, status not yet set

  /**
   A line from the worker: the RESULT of the task written as number `serial`, one more RESULT that answers no
   task written, or anything else.
   */
  datatype Output = Result(task: string, serial: nat) | Stray(task: string) | Chatter

  datatype Event = WroteTask(serial: nat) | WroteReconfigure | Consumed(serial: nat) | ConsumedStray

  /** Whose business the busy claim is; `Earlier` is that of a process that had the worker id before. */
  datatype Owner = Free | Earlier | ByThread(thread: nat) | ByTask(serial: nat)

  /** `log` and `owner` record history for the proofs; no step looks at them. `switching` is the held state lock. */
  datatype World = World(alive: bool, pipe: bool, busy: bool, busyTask: Option<string>, status: Status, switching: bool,
                         threads: map<nat, Phase>, unanswered: map<nat, string>, lines: seq<Output>, serials: nat,
                         log: seq<Event>, owner: Owner)

  datatype Op =
    | Admit(thread: nat, task: string)
    | WriteTask(thread: nat)
    | DropClaim(thread: nat)
    | ForgetTask(thread: nat)
    | GiveUp(thread: nat)
    | Collect(thread: nat, task: string)
    | Consume(thread: nat)
    | Release(thread: nat)
    | CheckPause(thread: nat)
    | CheckPaused(thread: nat)
    | CheckClaim(thread: nat)
    | SendInterrupt(thread: nat)
    | SetStatus(thread: nat)
    | SwitchBegin | SwitchAcked | SwitchFailed
    | Answers(serial: nat) | Strays(task: string) | Chats | TakeChatter(at: nat)
    | PipeBreaks | Terminate

  predicate Answered(line: Output, task: string) {
    !line.Chatter? && line.task == task
  }

  /** The place of the first RESULT for the task, which is what a selective read takes. */
  function FirstResult(lines: seq<Output>, task: string): (i: Option<nat>)
    ensures i.Some? ==> i.value < |lines| && Answered(lines[i.value], task)
    ensures i.Some? ==> forall j | 0 <= j < i.value :: !Answered(lines[j], task)
    ensures i.None? ==> forall j | 0 <= j < |lines| :: !Answered(lines[j], task)
  {
    if lines == [] then None
    else if Answered(lines[0], task) then Some(0)
    else
      match FirstResult(lines[1..], task)
      case Some(i) => Some(i + 1)
      case None => None
  }

  function Drop(lines: seq<Output>, i: nat): seq<Output>
    requires i < |lines|
  {
    lines[..i] + lines[i + 1..]
  }

  /** Under the state lock: claim the worker if nobody has. */
  function DoAdmit(w: World, thread: nat, task: string): World {
    if thread in w.threads || w.switching || w.busy || w.status !in {IDLE, RUNNING} then w
    else w.(busy := true, busyTask := Some(task), threads := w.threads[thread := Admitted(task)],
            owner := ByThread(thread))
  }

  function DoWriteTask(w: World, thread: nat): World {
    if !(thread in w.threads && w.threads[thread].Admitted?) then w
    else if !w.pipe then w.(threads := w.threads[thread := Failing])
    else
      var task := w.threads[thread].task;
      w.(threads := w.threads[thread := Waiting(task)], unanswered := w.unanswered[w.serials := task],
         serials := w.serials + 1,
         log := w.log + [WroteTask(w.serials)], owner := ByTask(w.serials))
  }

  /** The two unlocked statements after a failed write. */
  function DoDropClaim(w: World, thread: nat): World {
    if !(thread in w.threads && w.threads[thread].Failing?) then w
    else w.(busy := false, threads := w.threads[thread := Clearing], owner := Free)
  }

  function DoForgetTask(w: World, thread: nat): World {
    if !(thread in w.threads && w.threads[thread].Clearing?) then w
    else w.(busyTask := None, threads := w.threads - {thread})
  }

  /** A timeout, or the return of an async send: the claim stays. */
  function DoGiveUp(w: World, thread: nat): World {
    if !(thread in w.threads && w.threads[thread].Waiting?) then w else w.(threads := w.threads - {thread})
  }

  function DoCollect(w: World, thread: nat, task: string): World {
    if thread in w.threads || w.busyTask != Some(task) then w else w.(threads := w.threads[thread := Waiting(task)])
  }

  function DoConsume(w: World, thread: nat): World {
    if !(thread in w.threads && w.threads[thread].Waiting?) then w
    else
      var task := w.threads[thread].task;
      match FirstResult(w.lines, task)
      case None => w
      case Some(i) =>
        w.(threads := w.threads[thread := Holding(task)], lines := Drop(w.lines, i),
           log := w.log + [if w.lines[i].Result? then Consumed(w.lines[i].serial) else ConsumedStray],
           owner := ByThread(thread))
  }

  /** Under the state lock, after the token count is stored. */
  function DoRelease(w: World, thread: nat): World {
    if !(thread in w.threads && w.threads[thread].Holding?) || w.switching then w
    else w.(busy := false, busyTask := None, threads := w.threads - {thread}, owner := Free)
  }

  /** The tests of a pause, of a resume and of an interrupt; no lock holds between a test and what follows. */
  function DoCheckPause(w: World, thread: nat): World {
    if thread in w.threads || w.status !in {IDLE, RUNNING} then w
    else w.(threads := w.threads[thread := Changing(PAUSED)])
  }

  function DoCheckPaused(w: World, thread: nat): World {
    if thread in w.threads || w.status !in {PAUSED, INTERRUPTED} then w
    else w.(threads := w.threads[thread := Resuming])
  }

  function DoCheckClaim(w: World, thread: nat): World {
    if !(thread in w.threads && w.threads[thread].Resuming?) then w
    else w.(threads := if w.busy then w.threads - {thread} else w.threads[thread := Changing(IDLE)])
  }

  function DoSendInterrupt(w: World, thread: nat): World {
    if thread in w.threads || !w.pipe then w else w.(threads := w.threads[thread := Changing(INTERRUPTED)])
  }

  function DoSetStatus(w: World, thread: nat): World {
    if !(thread in w.threads && w.threads[thread].Changing?) then w
    else w.(status := w.threads[thread].status, threads := w.threads - {thread})
  }

  function DoSwitchBegin(w: World): World {
    if w.switching || w.busy || w.status !in {IDLE, PAUSED} then w
    else w.(switching := true, log := if w.pipe then w.log + [WroteReconfigure] else w.log)
  }

  function DoAnswers(w: World, serial: nat): World {
    if serial !in w.unanswered then w
    else w.(unanswered := w.unanswered - {serial}, lines := w.lines + [Result(w.unanswered[serial], serial)])
  }

  function Dead(w: World): World {
    w.(alive := false, busy := false, busyTask := None, switching := false)
  }

  function Step(w: World, op: Op): World {
    if !w.alive then w
    else
      match op
      case Admit(thread, task) => DoAdmit(w, thread, task)
      case WriteTask(thread) => DoWriteTask(w, thread)
      case DropClaim(thread) => DoDropClaim(w, thread)
      case ForgetTask(thread) => DoForgetTask(w, thread)
      case GiveUp(thread) => DoGiveUp(w, thread)
      case Collect(thread, task) => DoCollect(w, thread, task)
      case Consume(thread) => DoConsume(w, thread)
      case Release(thread) => DoRelease(w, thread)
      case CheckPause(thread) => DoCheckPause(w, thread)
      case CheckPaused(thread) => DoCheckPaused(w, thread)
      case CheckClaim(thread) => DoCheckClaim(w, thread)
      case SendInterrupt(thread) => DoSendInterrupt(w, thread)
      case SetStatus(thread) => DoSetStatus(w, thread)
      case SwitchBegin => DoSwitchBegin(w)
      case SwitchAcked => w.(switching := false)
      case SwitchFailed => if w.switching then Dead(w) else w
      case Answers(serial) => DoAnswers(w, serial)
      case Strays(task) => w.(lines := w.lines + [Stray(task)])
      case Chats => w.(lines := w.lines + [Chatter])
      case TakeChatter(at) => if at < |w.lines| && w.lines[at].Chatter? then w.(lines := Drop(w.lines, at)) else w
      case PipeBreaks => w.(pipe := false)
      case Terminate => Dead(w)
  }

  function Run(w: World, ops: seq<Op>): World
    decreases |ops|
  {
    if ops == [] then w else Run(Step(w, ops[0]), ops[1..])
  }

  /** A worker that has just reported ready. */
  const SPAWNED := World(true, true, false, None, IDLE, false, map[], map[], [], 0, [], Free)

  // ---------------------------------------------------------------- what every interleaving keeps

  predicate Claims(p: Phase) {
    p.Admitted? || p.Holding? || p.Failing?
  }

  /** The claim is set exactly while somebody owns it: one thread on its way in or out, or the one written task. */
  ghost predicate ClaimOk(w: World) {
    && (w.busy <==> w.owner != Free)
    && (w.switching ==> !w.busy)
    && (forall t | t in w.threads :: Claims(w.threads[t]) <==> w.owner == ByThread(t))
    && (w.owner.ByThread? ==> w.owner.thread in w.threads)
  }

  /** The task was written and its RESULT has not been consumed. */
  ghost predicate Outstanding(w: World, serial: nat) {
    serial in w.unanswered || exists i :: 0 <= i < |w.lines| && w.lines[i].Result? && w.lines[i].serial == serial
  }

  /** A written task whose RESULT is not consumed is either with the worker or one line in the buffer. */
  ghost predicate OutstandingOk(w: World) {
    && (w.owner.ByTask? ==> Outstanding(w, w.owner.serial))
    && (forall s | s in w.unanswered :: w.owner == ByTask(s) && w.busyTask == Some(w.unanswered[s]))
    && (forall i | 0 <= i < |w.lines| && w.lines[i].Result? ::
          w.owner == ByTask(w.lines[i].serial) && w.busyTask == Some(w.lines[i].task) && w.unanswered == map[])
    && (forall i, j | 0 <= i < j < |w.lines| :: !(w.lines[i].Result? && w.lines[j].Result?))
  }

  /** A failed write is seen on a broken pipe only, so its clean-up cannot hide a task that was really written. */
  ghost predicate CleanUpOk(w: World) {
    && (forall t | t in w.threads && (w.threads[t].Failing? || w.threads[t].Clearing?) :: !w.pipe && !w.owner.ByTask?)
    && (forall t | t in w.threads && w.threads[t].Admitted? && w.pipe :: w.busyTask == Some(w.threads[t].task))
  }

  ghost predicate ClosedAfter(log: seq<Event>, i: nat, serial: nat, end: nat) {
    exists k :: i < k < end <= |log| && log[k] == Consumed(serial)
  }

  ghost predicate LogOk(w: World) {
    && (forall i | 0 <= i < |w.log| && w.log[i].WroteTask? ::
          w.log[i].serial < w.serials
            && (w.owner == ByTask(w.log[i].serial) || ClosedAfter(w.log, i, w.log[i].serial, |w.log|)))
    && (forall i, j | 0 <= i < j < |w.log| && w.log[i].WroteTask? && !w.log[j].Consumed? ::
          ClosedAfter(w.log, i, w.log[i].serial, j))
  }

  /** The claim and the task id noted with it stand for exactly the thread or the task under way. */
  ghost predicate Kept(w: World) {
    w.alive ==> ClaimOk(w) && OutstandingOk(w) && CleanUpOk(w)
  }

  ghost predicate Inv(w: World) {
    Kept(w) && LogOk(w)
  }

  /** The thread takes a RESULT that answers no task written, on a claim that is not an earlier process's. */
  predicate TakesStray(w: World, op: Op) {
    && w.alive && op.Consume? && op.thread in w.threads && w.threads[op.thread].Waiting? && !w.owner.Earlier?
    && var i := FirstResult(w.lines, w.threads[op.thread].task);
       i.Some? && w.lines[i.value].Stray?
  }

  lemma LogGrows(log: seq<Event>, e: Event, i: nat, serial: nat, end: nat)
    requires ClosedAfter(log, i, serial, end)
    ensures ClosedAfter(log + [e], i, serial, end)
    ensures end == |log| ==> ClosedAfter(log + [e], i, serial, |log| + 1)
  {
    var k :| i < k < end && log[k] == Consumed(serial);
    assert (log + [e])[k] == Consumed(serial);
  }

  /** Writing a TASK or a RECONFIGURE while no task is outstanding. */
  lemma WriteKeepsLog(w: World, w': World, e: Event)
    requires LogOk(w) && !w.owner.ByTask? && w'.log == w.log + [e] && !e.Consumed?
    requires w'.serials >= w.serials && (e.WroteTask? ==> e.serial < w'.serials && w'.owner == ByTask(e.serial))
    ensures LogOk(w')
  {
    forall i | 0 <= i < |w.log| && w.log[i].WroteTask?
      ensures ClosedAfter(w'.log, i, w.log[i].serial, |w.log|) && ClosedAfter(w'.log, i, w.log[i].serial, |w'.log|)
    {
      LogGrows(w.log, e, i, w.log[i].serial, |w.log|);
    }
    forall i, j | 0 <= i < j < |w.log| && w.log[i].WroteTask? && !w.log[j].Consumed?
      ensures ClosedAfter(w'.log, i, w.log[i].serial, j)
    {
      LogGrows(w.log, e, i, w.log[i].serial, j);
    }
  }

  lemma ConsumeKeepsLog(w: World, w': World, serial: nat)
    requires LogOk(w) && w.owner == ByTask(serial) && w'.log == w.log + [Consumed(serial)] && w'.serials == w.serials
    ensures LogOk(w')
  {
    var e := Consumed(serial);
    forall i | 0 <= i < |w.log| && w.log[i].WroteTask? ensures ClosedAfter(w'.log, i, w.log[i].serial, |w'.log|) {
      if w.log[i].serial == serial {
        assert w'.log[|w.log|] == e;
      } else {
        LogGrows(w.log, e, i, w.log[i].serial, |w.log|);
      }
    }
    forall i, j | 0 <= i < j < |w.log| && w.log[i].WroteTask? && !w.log[j].Consumed?
      ensures ClosedAfter(w'.log, i, w.log[i].serial, j)
    {
      LogGrows(w.log, e, i, w.log[i].serial, j);
    }
  }

  lemma SameLogKept(w: World, w': World)
    requires LogOk(w) && w'.log == w.log && w'.serials == w.serials
    requires w.owner.ByTask? ==> w'.owner == w.owner
    ensures LogOk(w')
  {}

  lemma AdmitKeepsInv(w: World, thread: nat, task: string)
    requires w.alive && Inv(w)
    ensures Inv(DoAdmit(w, thread, task))
  {}

  lemma WriteKeepsInv(w: World, thread: nat)
    requires w.alive && Inv(w)
    ensures Inv(DoWriteTask(w, thread))
  {
    var w' := DoWriteTask(w, thread);
    if w'.log == w.log {
      SameLogKept(w, w');
    } else {
      assert w.owner == ByThread(thread);
      assert w.unanswered == map[];
      WriteKeepsLog(w, w', WroteTask(w.serials));
    }
  }

  lemma CleanUpKeepsInv(w: World, thread: nat)
    requires w.alive && Inv(w)
    ensures Inv(DoDropClaim(w, thread)) && Inv(DoForgetTask(w, thread))
  {}

  lemma GiveUpKeepsInv(w: World, thread: nat)
    requires w.alive && Inv(w)
    ensures Inv(DoGiveUp(w, thread))
  {
    SameLogKept(w, DoGiveUp(w, thread));
  }

  lemma CollectKeepsInv(w: World, thread: nat, task: string)
    requires w.alive && Inv(w)
    ensures Inv(DoCollect(w, thread, task))
  {
    SameLogKept(w, DoCollect(w, thread, task));
  }

  lemma DropKeepsLines(lines: seq<Output>, i: nat, j: nat)
    requires i < |lines| && j < |Drop(lines, i)|
    ensures Drop(lines, i)[j] == lines[if j < i then j else j + 1]
  {}

  lemma ConsumeKeepsInv(w: World, thread: nat)
    requires w.alive && Inv(w) && !TakesStray(w, Consume(thread))
    ensures Inv(DoConsume(w, thread))
  {
    var w' := DoConsume(w, thread);
    if w' != w {
      var i := FirstResult(w.lines, w.threads[thread].task).value;
      if w.lines[i].Result? {
        ConsumeKeepsLog(w, w', w.lines[i].serial);
      } else {
        WriteKeepsLog(w, w', ConsumedStray);
      }
      forall j | 0 <= j < |w'.lines| ensures !w'.lines[j].Result? {
        DropKeepsLines(w.lines, i, j);
      }
      assert w.unanswered == map[];
    }
  }

  lemma ReleaseKeepsInv(w: World, thread: nat)
    requires w.alive && Inv(w)
    ensures Inv(DoRelease(w, thread))
  {}

  lemma SwitchKeepsInv(w: World)
    requires w.alive && Inv(w)
    ensures Inv(DoSwitchBegin(w))
  {
    var w' := DoSwitchBegin(w);
    if w'.log == w.log { SameLogKept(w, w'); } else { WriteKeepsLog(w, w', WroteReconfigure); }
  }

  lemma AnswerKeepsInv(w: World, serial: nat)
    requires w.alive && Inv(w)
    ensures Inv(DoAnswers(w, serial))
  {
    var w' := DoAnswers(w, serial);
    if w' != w { assert w'.lines[|w.lines|] == Result(w.unanswered[serial], serial); }
  }

  lemma OutstandingKept(w: World, w': World, at: nat)
    requires w'.unanswered == w.unanswered && at < |w.lines| && !w.lines[at].Result? && w'.lines == Drop(w.lines, at)
    ensures forall s :: Outstanding(w, s) ==> Outstanding(w', s)
  {
    forall s, i | 0 <= i < |w.lines| && w.lines[i].Result? && w.lines[i].serial == s ensures Outstanding(w', s) {
      assert w'.lines[if i < at then i else i - 1] == w.lines[i];
    }
  }

  lemma ChatterKeepsInv(w: World, at: nat)
    requires w.alive && Inv(w) && at < |w.lines| && w.lines[at].Chatter?
    ensures Inv(w.(lines := Drop(w.lines, at)))
  {
    OutstandingKept(w, w.(lines := Drop(w.lines, at)), at);
  }

  /** One more line that answers nothing. */
  lemma NoiseKeepsInv(w: World, line: Output)
    requires w.alive && Inv(w) && !line.Result?
    ensures Inv(w.(lines := w.lines + [line]))
  {
    var w' := w.(lines := w.lines + [line]);
    forall i | 0 <= i < |w.lines| ensures w'.lines[i] == w.lines[i] {}
  }

  /** A change of status leaves the claim and all threads under way with a task alone. */
  predicate StatusOnly(w: World, w': World) {
    && w' == w.(status := w'.status, threads := w'.threads)
    && (forall t | t in w.threads && !AtStatus(w.threads[t]) :: t in w'.threads && w'.threads[t] == w.threads[t])
    && (forall t | t in w'.threads && !AtStatus(w'.threads[t]) :: t in w.threads && w'.threads[t] == w.threads[t])
  }

  predicate AtStatus(p: Phase) {
    p.Resuming? || p.Changing?
  }

  lemma StatusOnlyKeepsInv(w: World, w': World)
    requires w.alive && Inv(w) && StatusOnly(w, w')
    ensures Inv(w')
  {
    assert forall s :: Outstanding(w, s) ==> Outstanding(w', s);
    assert forall t | t in w'.threads :: Claims(w'.threads[t]) <==> w'.owner == ByThread(t);
    SameLogKept(w, w');
  }

  lemma ChangesStatusOnly(w: World, op: Op)
    requires w.alive
    requires op.CheckPause? || op.CheckPaused? || op.CheckClaim? || op.SendInterrupt? || op.SetStatus?
    ensures StatusOnly(w, Step(w, op))
  {}

  lemma StatusKeepsInv(w: World, op: Op)
    requires w.alive && Inv(w)
    requires op.CheckPause? || op.CheckPaused? || op.CheckClaim? || op.SendInterrupt? || op.SetStatus?
    ensures Inv(Step(w, op))
  {
    ChangesStatusOnly(w, op);
    StatusOnlyKeepsInv(w, Step(w, op));
  }

  lemma EndsKeepInv(w: World, op: Op)
    requires w.alive && Inv(w) && op in {SwitchAcked, SwitchFailed, PipeBreaks, Terminate}
    ensures Inv(Step(w, op))
  {
    SameLogKept(w, Step(w, op));
  }

  lemma StepKeepsInv(w: World, op: Op)
    requires Inv(w) && !TakesStray(w, op)
    ensures Inv(Step(w, op))
  {
    if w.alive {
      match op
      case Admit(thread, task) => AdmitKeepsInv(w, thread, task);
      case WriteTask(thread) => WriteKeepsInv(w, thread);
      case DropClaim(thread) => CleanUpKeepsInv(w, thread);
      case ForgetTask(thread) => CleanUpKeepsInv(w, thread);
      case GiveUp(thread) => GiveUpKeepsInv(w, thread);
      case Collect(thread, task) => CollectKeepsInv(w, thread, task);
      case Consume(thread) => ConsumeKeepsInv(w, thread);
      case Release(thread) => ReleaseKeepsInv(w, thread);
      case SwitchBegin => SwitchKeepsInv(w);
      case Answers(serial) => AnswerKeepsInv(w, serial);
      case Strays(task) => NoiseKeepsInv(w, Stray(task));
      case Chats => NoiseKeepsInv(w, Chatter);
      case TakeChatter(at) => if at < |w.lines| && w.lines[at].Chatter? { ChatterKeepsInv(w, at); }
      case SwitchAcked | SwitchFailed | PipeBreaks | Terminate => EndsKeepInv(w, op);
      case _ => StatusKeepsInv(w, op);
    }
  }

  ghost predicate NeverTakesStray(w: World, ops: seq<Op>)
    decreases |ops|
  {
    ops != [] ==> !TakesStray(w, ops[0]) && NeverTakesStray(Step(w, ops[0]), ops[1..])
  }

  /** Over every interleaving in which no stray RESULT is taken for a task's own. */
  lemma {:induction false} RunKeepsInv(w: World, ops: seq<Op>)
    requires Inv(w) && NeverTakesStray(w, ops)
    ensures Inv(Run(w, ops))
    decreases |ops|
  {
    if ops != [] {
      StepKeepsInv(w, ops[0]);
      RunKeepsInv(Step(w, ops[0]), ops[1..]);
    }
  }

  // ---------------------------------------------------------------- the worker that answers too often

  /** The claim stands for one thread or one task, and for the very task that is outstanding. */
  ghost predicate Covered(w: World) {
    w.alive ==> ClaimOk(w) && forall s | Outstanding(w, s) :: w.owner == ByTask(s)
  }

  /** A stray RESULT taken frees a claim that is still needed, or is nobody's to free. */
  lemma StrayUncovers(w: World, op: Op)
    requires Inv(w) && TakesStray(w, op)
    ensures !Covered(Step(w, op))
  {
    var w' := Step(w, op);
    if w.owner.ByTask? {
      OutstandingKept(w, w', FirstResult(w.lines, w.threads[op.thread].task).value);
      assert Outstanding(w', w.owner.serial) && w'.owner.ByThread?;
    } else if w.owner.ByThread? {
      assert Claims(w.threads[w.owner.thread]) && !Claims(w.threads[op.thread]);
      assert w'.threads[w.owner.thread] == w.threads[w.owner.thread] && w'.owner != w.owner;
    }
  }

  ghost predicate CoveredThroughout(w: World, ops: seq<Op>)
    decreases |ops|
  {
    Covered(w) && (ops != [] ==> CoveredThroughout(Step(w, ops[0]), ops[1..]))
  }

  lemma {:induction false} RunCoveredIff(w: World, ops: seq<Op>)
    requires Inv(w)
    ensures CoveredThroughout(w, ops) <==> NeverTakesStray(w, ops)
    decreases |ops|
  {
    if ops != [] {
      if TakesStray(w, ops[0]) {
        StrayUncovers(w, ops[0]);
      } else {
        StepKeepsInv(w, ops[0]);
        RunCoveredIff(Step(w, ops[0]), ops[1..]);
      }
    }
  }

  /**
   Whatever the worker writes: the claim covers the outstanding task at every point of a run if and only if
   no dispatch or collection takes a RESULT that answers no task written.
   */
  lemma CoveredIffNoStrayTaken(ops: seq<Op>)
    ensures CoveredThroughout(SPAWNED, ops) <==> NeverTakesStray(SPAWNED, ops)
  {
    RunCoveredIff(SPAWNED, ops);
  }

  lemma StepNotEarlier(w: World, op: Op)
    requires !w.owner.Earlier?
    ensures !Step(w, op).owner.Earlier?
  {}

  /** Within one process no claim is an earlier one's. */
  lemma {:induction false} NeverEarlier(w: World, ops: seq<Op>)
    requires !w.owner.Earlier?
    ensures !Run(w, ops).owner.Earlier?
    decreases |ops|
  {
    if ops != [] {
      StepNotEarlier(w, ops[0]);
      NeverEarlier(Step(w, ops[0]), ops[1..]);
    }
  }

  lemma {:induction false} NoStrays(w: World, ops: seq<Op>)
    requires forall i | 0 <= i < |w.lines| :: !w.lines[i].Stray?
    requires forall op | op in ops :: !op.Strays?
    ensures NeverTakesStray(w, ops)
    decreases |ops|
  {
    if ops != [] {
      NoStrayLines(w, ops[0]);
      NoStrays(Step(w, ops[0]), ops[1..]);
    }
  }

  lemma NoStrayLines(w: World, op: Op)
    requires !op.Strays? && forall i | 0 <= i < |w.lines| :: !w.lines[i].Stray?
    ensures forall i | 0 <= i < |Step(w, op).lines| :: !Step(w, op).lines[i].Stray?
  {}

  /** In particular none is taken from a worker that answers each TASK at most once. */
  lemma OneAnswerEach(ops: seq<Op>)
    requires forall op | op in ops :: !op.Strays?
    ensures NeverTakesStray(SPAWNED, ops)
  {
    NoStrays(SPAWNED, ops);
  }

  // ---------------------------------------------------------------- over whole runs

  /**
   One outstanding task: over every interleaving without a stray RESULT taken, a live worker has at most one
   TASK whose RESULT is unconsumed; while it has one the claim is set, and the task can still be collected by its id.
   */
  lemma OneOutstanding(ops: seq<Op>, s: nat, s': nat)
    requires NeverTakesStray(SPAWNED, ops)
    requires var w := Run(SPAWNED, ops); w.alive && Outstanding(w, s) && Outstanding(w, s')
    ensures var w := Run(SPAWNED, ops);
            && s == s' && w.busy && w.busyTask.Some?
            && (s in w.unanswered ==> w.busyTask == Some(w.unanswered[s]))
            && (forall i | 0 <= i < |w.lines| && w.lines[i].Result? :: w.busyTask == Some(w.lines[i].task))
  {
    RunKeepsInv(SPAWNED, ops);
  }

  /** While a task is outstanding nobody is admitted, the harness is not switched and no resume passes its tests. */
  lemma OutstandingBlocksAdmission(ops: seq<Op>, s: nat, op: Op)
    requires NeverTakesStray(SPAWNED, ops)
    requires var w := Run(SPAWNED, ops); w.alive && Outstanding(w, s)
    ensures var w := Run(SPAWNED, ops);
            && (op.Admit? || op.SwitchBegin? ==> Step(w, op) == w)
            && (op.CheckClaim? && op.thread in w.threads && w.threads[op.thread].Resuming?
                ==> Step(w, op) == w.(threads := w.threads - {op.thread}))
  {
    RunKeepsInv(SPAWNED, ops);
  }

  lemma ReleasedByHolder(w: World, op: Op) returns (thread: nat)
    requires w.alive && w.busy && Step(w, op).alive && !Step(w, op).busy
    ensures thread in w.threads && Claims(w.threads[thread])
  {
    thread := op.thread;
  }

  /** The claim is given back only when nothing is outstanding: a timeout alone never frees the worker. */
  lemma ReleaseOnlyWhenConsumed(ops: seq<Op>, op: Op, s: nat)
    requires NeverTakesStray(SPAWNED, ops)
    requires var w := Run(SPAWNED, ops);
             w.alive && w.busy && Step(w, op).alive && !Step(w, op).busy
    ensures !Outstanding(Run(SPAWNED, ops), s)
  {
    RunKeepsInv(SPAWNED, ops);
    var thread := ReleasedByHolder(Run(SPAWNED, ops), op);
    assert Run(SPAWNED, ops).owner == ByThread(thread);
  }

  /** On the wire: between a TASK and the consumption of its RESULT there is neither another TASK nor a RECONFIGURE. */
  lemma WindowsNeverOverlap(ops: seq<Op>, i: nat, j: nat)
    requires NeverTakesStray(SPAWNED, ops)
    requires var log := Run(SPAWNED, ops).log; i < j < |log| && log[i].WroteTask? && !log[j].Consumed?
    ensures var log := Run(SPAWNED, ops).log; exists k :: i < k < j && log[k] == Consumed(log[i].serial)
  {
    RunKeepsInv(SPAWNED, ops);
    var log := Run(SPAWNED, ops).log;
    assert ClosedAfter(log, i, log[i].serial, j);
  }
}
