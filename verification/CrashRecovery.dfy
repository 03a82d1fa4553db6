/**
 Resuming a multi-step queue task: recovery/crash_recovery.py with the queue and checkpoint rows of
 storage/team_store.py. A step of the model ends wherever a crash could fall between two durable writes.
 */
module CrashRecovery {
  import opened Prelude
  import opened Keys

  datatype Status = PENDING | DISPATCHED | RUNNING | INTERRUPTED | COMPLETED | CANCELLED | FAILED | AMBIGUOUS

  /** A step of the work list need not be named. */
  datatype WorkStep = WorkStep(name: Option<string>, artifact: Option<string>, command: bool)

  datatype Job = Job(dispatchId: string, taskId: string, teamId: string, steps: seq<WorkStep>, expected: seq<string>)

  /** A step and its position in the work list. */
  datatype Item = Item(position: nat, step: WorkStep)

  /**
   `at` is the row's creation time. `steps` is history that no step decides by: the positions whose
   completion the names in `completed` were written down for.
   */
  datatype Checkpoint = Checkpoint(dispatchId: string, taskId: string, teamId: string, index: nat,
                                   completed: seq<string>, commit: Option<string>, at: nat, steps: set<nat>)

  /** The worktree: which files exist, and which of those are not empty. */
  datatype Files = Files(present: set<string>, filled: set<string>)

  datatype Stage = Ready | Performed | Noted

  /** What is modelled of the queue row: its status and, of its payload, the names of the steps observed done. */
  datatype Row = Row(status: Status, unverified: seq<string>)

  datatype Plan = AllDone | Blocked | Malformed | Go(remaining: seq<Item>, completed: seq<string>, index: nat,
                                                     done: set<nat>)

  /**
   The orchestrator in the middle of a resume; lost in a crash. It read the row when it claimed the task and
   writes its own copy of the payload back: `noted`. `done` is history like `Checkpoint.steps`.
   */
  datatype Resumer =
    | Claimed(noted: seq<string>)
    | Looked(plan: Plan, commit: Option<string>, noted: seq<string>)
    | Running(remaining: seq<Item>, completed: seq<string>, index: nat, commit: Option<string>, stage: Stage,
              done: set<nat>, noted: seq<string>)

  datatype Event = Dispatched(step: nat) | Checkpointed(steps: set<nat>) | Finished

  /**
   `loaded` is the row as read by each of those who change it from outside a resume and have not yet written it back.
   */
  datatype World = World(status: Status, unverified: seq<string>, loaded: map<nat, Row>, checkpoints: seq<Checkpoint>,
                         head: Option<string>, files: Files, mem: Option<Resumer>, log: seq<Event>)

  // ---------------------------------------------------------------- planning a round

  /** A step without a name goes by its number. */
  function Label(step: WorkStep, number: nat): string {
    if step.name.Some? then step.name.value else "step_" + Decimal(number)
  }

  /** The names a plan is checked for: an unnamed step goes by its place among the remaining ones. */
  function Labels(items: seq<Item>): (labels: seq<string>)
    ensures |labels| == |items| && forall i | 0 <= i < |labels| :: labels[i] == Label(items[i].step, i + 1)
  {
    seq(|items|, i requires 0 <= i < |items| => Label(items[i].step, i + 1))
  }

  function Positions(items: seq<Item>): set<nat> {
    set item | item in items :: item.position
  }

  function StepNamed(steps: seq<WorkStep>, name: string): Option<WorkStep> {
    if steps == [] then None else if steps[0].name == Some(name) then Some(steps[0]) else StepNamed(steps[1..], name)
  }

  /** A completed step still counts if it declares no artifact or its artifact is there and not empty. */
  predicate ArtifactStands(job: Job, files: Files, name: string) {
    var step := StepNamed(job.steps, name);
    step.Some? && step.value.artifact.Some? ==> step.value.artifact.value in files.filled
  }

  function Verified(job: Job, files: Files, names: seq<string>): seq<string> {
    if names == [] then []
    else (if ArtifactStands(job, files, names[0]) then [names[0]] else []) + Verified(job, files, names[1..])
  }

  /** Only a step's own name is looked up, never the number it goes by. */
  predicate Skipped(step: WorkStep, completed: seq<string>) {
    step.name.Some? && step.name.value in completed
  }

  function RemainingFrom(steps: seq<WorkStep>, completed: seq<string>, i: nat): seq<Item>
    requires i <= |steps|
    decreases |steps| - i
  {
    if i == |steps| then []
    else (if Skipped(steps[i], completed) then [] else [Item(i, steps[i])]) + RemainingFrom(steps, completed, i + 1)
  }

  function Remaining(steps: seq<WorkStep>, completed: seq<string>): seq<Item> {
    RemainingFrom(steps, completed, 0)
  }

  /** What is asked before a task whose steps are all checkpointed is called complete. */
  predicate FinishingEvidence(job: Job, files: Files) {
    if job.expected != [] then forall a | a in job.expected :: a in files.filled
    else job.steps == [] || exists s | s in job.steps :: s.artifact.Some? && s.artifact.value in files.present
  }

  predicate Newer(a: Checkpoint, b: Checkpoint) {
    a.index > b.index || (a.index == b.index && a.at > b.at)
  }

  /** ORDER BY step_index DESC, created_at DESC LIMIT 1 */
  function Latest(cps: seq<Checkpoint>): (r: Option<Checkpoint>)
    ensures r.None? <==> cps == []
    ensures r.Some? ==> r.value in cps && forall c | c in cps :: c.index <= r.value.index
  {
    if cps == [] then None
    else
      var rest := Latest(cps[1..]);
      if rest.Some? && Newer(rest.value, cps[0]) then rest else Some(cps[0])
  }

  predicate Bound(job: Job, cp: Checkpoint, head: Option<string>) {
    && (cp.dispatchId, cp.taskId, cp.teamId) == (job.dispatchId, job.taskId, job.teamId)
    && cp.commit.Some? && cp.commit.value != "" && cp.commit == head
  }

  function ValidLatest(job: Job, w: World): Option<Checkpoint> {
    var latest := Latest(w.checkpoints);
    if latest.Some? && Bound(job, latest.value, w.head) then latest else None
  }

  function Completed(job: Job, w: World): seq<string> {
    var cp := ValidLatest(job, w);
    if cp.Some? then Verified(job, w.files, cp.value.completed) else []
  }

  /** `noted` is what the resumer's copy of the payload says was observed done. */
  function Decide(job: Job, w: World, noted: seq<string>): Plan {
    var cp, completed := ValidLatest(job, w), Completed(job, w);
    var rest := Remaining(job.steps, completed);
    if rest == [] && FinishingEvidence(job, w.files) then AllDone
    else
      var remaining := if rest == [] then Remaining(job.steps, []) else rest;
      if noted != [] && cp.None? then Blocked
      else if !Distinct(Labels(remaining)) then Malformed
      else
        Go(remaining, if rest == [] then [] else completed, if cp.Some? then cp.value.index else 0,
           if cp.Some? && rest != [] then cp.value.steps - Positions(remaining) else {})
  }

  // ---------------------------------------------------------------- the steps

  datatype Session = Usable | Unsafe | Missing

  datatype Resolution = Retry | MarkCompleted | MarkFailed

  /** The changes to the row from outside a resume, each a read of the row and a later write of the whole of it. */
  datatype Edit = Audit(ambiguous: bool) | Interrupt | Resolve(resolution: Resolution) | SetStatus(status: Status)

  datatype Op =
    | Claim
    | Look(session: Session)
    | Start(granted: bool)
    | Perform
    | StepFails
    | NoteDone
    | Save(at: nat)
    | Finish
    | Crash
    | Read(editor: nat)
    | Write(editor: nat, edit: Edit)
    | HandOff(editor: nat)
    | Cancel
    | HeadMoves(head: Option<string>)
    | FilesChange(files: Files)
    | ForeignCheckpoint(cp: Checkpoint)

  /** `save_checkpoint` updates the row of the same dispatch and index, team and creation time excepted, or adds one. */
  function SaveCheckpoint(cps: seq<Checkpoint>, cp: Checkpoint): seq<Checkpoint> {
    if cps == [] then [cp]
    else if (cps[0].dispatchId, cps[0].index) == (cp.dispatchId, cp.index) then
      [cp.(at := cps[0].at, teamId := cps[0].teamId)] + cps[1..]
    else [cps[0]] + SaveCheckpoint(cps[1..], cp)
  }

  /** The statuses under which `mark_task_resuming` refuses. */
  const CLOSED: set<Status> := {RUNNING, COMPLETED, CANCELLED}

  /**
   `mark_task_resuming`: one transaction reads the row and claims the task, for a resumer that is not under way
   already.
   */
  function DoClaim(w: World): World {
    if w.mem.Some? || w.status in CLOSED then w else w.(status := RUNNING, mem := Some(Claimed(w.unverified)))
  }

  /** `save_queue_item`: the whole row, payload included. */
  function Store(w: World, status: Status, unverified: seq<string>): World {
    w.(status := status, unverified := unverified)
  }

  /** The reads before a round: the worker's session, HEAD, the newest checkpoint and the artifacts. */
  function DoLook(job: Job, w: World, session: Session): World {
    if !(w.mem.Some? && w.mem.value.Claimed?) then w
    else
      var noted := w.mem.value.noted;
      match session
      case Missing => w.(mem := None)
      case Unsafe => Store(w.(mem := None), DISPATCHED, noted)
      case Usable => w.(mem := Some(Looked(Decide(job, w, noted), w.head, noted)))
  }

  /** And what is stored of the decision. */
  function DoStart(w: World, granted: bool): World {
    if !(w.mem.Some? && w.mem.value.Looked?) then w
    else
      var noted := w.mem.value.noted;
      match w.mem.value.plan
      case AllDone => Store(w.(mem := None, log := w.log + [Finished]), COMPLETED, noted)
      case Blocked => Store(w.(mem := None), DISPATCHED, noted)
      case Malformed => w.(mem := None)
      case Go(remaining, completed, index, done) =>
        if (exists item | item in remaining :: item.step.command) && !granted then
          Store(w.(mem := None), DISPATCHED, noted)
        else
          Store(w.(mem := Some(Running(remaining, completed, index, w.mem.value.commit, Ready, done, noted))), RUNNING,
                noted)
  }

  predicate AtStage(w: World, stage: Stage) {
    w.mem.Some? && w.mem.value.Running? && w.mem.value.stage == stage
  }

  function DoPerform(w: World): World {
    if !AtStage(w, Ready) || w.mem.value.remaining == [] then w
    else
      var m := w.mem.value;
      var item := m.remaining[0];
      w.(log := w.log + [Dispatched(item.position)],
         mem := Some(m.(remaining := m.remaining[1..], completed := m.completed + [Label(item.step, m.index + 1)],
                        index := m.index + 1, stage := Performed, done := m.done + {item.position})))
  }

  /** The worker answers with anything but COMPLETED. */
  function DoStepFails(w: World): World {
    if !AtStage(w, Performed) then w else Store(w.(mem := None), FAILED, w.mem.value.noted)
  }

  function DoNote(w: World): World {
    if !AtStage(w, Performed) then w
    else
      var m := w.mem.value;
      Store(w.(mem := Some(m.(stage := Noted, noted := m.completed))), RUNNING, m.completed)
  }

  function DoSave(job: Job, w: World, at: nat): World {
    if !AtStage(w, Noted) then w
    else
      var m := w.mem.value;
      var cp := Checkpoint(job.dispatchId, job.taskId, job.teamId, m.index, m.completed, m.commit, at, m.done);
      w.(checkpoints := SaveCheckpoint(w.checkpoints, cp), mem := Some(m.(stage := Ready)),
         log := w.log + [Checkpointed(m.done)])
  }

  function DoFinish(w: World): World {
    if !AtStage(w, Ready) || w.mem.value.remaining != [] then w
    else Store(w.(mem := None, log := w.log + [Finished]), COMPLETED, w.mem.value.noted)
  }

  predicate InFlight(status: Status) {
    status in {PENDING, DISPATCHED, RUNNING}
  }

  /** In-flight work of a dead worker is failed, or set aside for an operator; it is never taken for completed. */
  function StoppedStatus(status: Status, ambiguous: bool): Status {
    if !InFlight(status) then status
    else if ambiguous && status != PENDING then AMBIGUOUS
    else FAILED
  }

  /** What an edit makes of the status it read; None if it leaves the row alone. */
  function Edited(status: Status, edit: Edit): Option<Status> {
    match edit
    case Audit(ambiguous) => if InFlight(status) then Some(StoppedStatus(status, ambiguous)) else None
    case Interrupt => if InFlight(status) then Some(INTERRUPTED) else None
    case Resolve(resolution) =>
      if status !in {AMBIGUOUS, FAILED, DISPATCHED} then None
      else Some(match resolution case Retry => PENDING case MarkCompleted => COMPLETED case MarkFailed => FAILED)
    case SetStatus(newStatus) => Some(newStatus)
  }

  /** The edit is decided on the row as it was read, and puts that row's payload back. */
  function DoWrite(w: World, editor: nat, edit: Edit): World {
    if editor !in w.loaded then w
    else
      var row, after := w.loaded[editor], w.(loaded := w.loaded - {editor});
      if Edited(row.status, edit).None? then after else Store(after, Edited(row.status, edit).value, row.unverified)
  }

  /** `finalize_handoff_transaction`, after the item was read and found under way. */
  function DoHandOff(w: World, editor: nat): World {
    if editor !in w.loaded then w
    else
      var after := w.(loaded := w.loaded - {editor});
      if w.loaded[editor].status in {DISPATCHED, RUNNING} && w.status !in {COMPLETED, CANCELLED} then
        after.(status := COMPLETED)
      else after
  }

  function Step(job: Job, w: World, op: Op): World {
    match op
    case Claim => DoClaim(w)
    case Look(session) => DoLook(job, w, session)
    case Start(granted) => DoStart(w, granted)
    case Perform => DoPerform(w)
    case StepFails => DoStepFails(w)
    case NoteDone => DoNote(w)
    case Save(at) => DoSave(job, w, at)
    case Finish => DoFinish(w)
    case Crash => w.(mem := None)
    case Read(editor) => w.(loaded := w.loaded[editor := Row(w.status, w.unverified)])
    case Write(editor, edit) => DoWrite(w, editor, edit)
    case HandOff(editor) => DoHandOff(w, editor)
    case Cancel => if InFlight(w.status) then w.(status := CANCELLED) else w
    case HeadMoves(head) => w.(head := head)
    case FilesChange(files) => w.(files := files)
    case ForeignCheckpoint(cp) =>
      if cp.dispatchId == job.dispatchId then w else w.(checkpoints := SaveCheckpoint(w.checkpoints, cp))
  }

  function Run(job: Job, w: World, ops: seq<Op>): World
    decreases |ops|
  {
    if ops == [] then w else Run(job, Step(job, w, ops[0]), ops[1..])
  }

  lemma RunFirst(job: Job, w: World, op: Op, ops: seq<Op>)
    ensures Run(job, w, [op] + ops) == Run(job, Step(job, w, op), ops)
  {
    assert ([op] + ops)[1..] == ops;
  }

  /** A task not started yet; its worker may have checkpoints of other dispatches. */
  ghost predicate Initial(job: Job, w: World) {
    && w.unverified == [] && w.mem.None? && w.log == []
    && forall c | c in w.checkpoints :: c.dispatchId != job.dispatchId
  }
}
