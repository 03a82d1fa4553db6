/**
 One worker id and the processes that have it one after the other, execution/worker_process.py. The claim and
 the task id noted with it belong to the worker id, so the threads a process leaves behind, and whoever cleans
 up after it, still act on those of its successor.
 */
module WorkerRestart {
  import opened Prelude
  import opened WorkerProtocol

  /** What a thread has yet to do that met an earlier process, or that sweeps up after one. */
  datatype Late =
    | Left(phase: Phase, reader: nat) // inside a call on an earlier process, with that process's reader
    | Sweeping                        // a spawn, termination or reaping that has not dropped the claim yet
    | SweepingId                      // and not yet forgotten the task id

  /** `readers` holds, process by process, what was left in the reader of each that is gone. */
  datatype Life = Life(now: World, late: map<nat, Late>, readers: seq<seq<Output>>)

  datatype Move =
    | Now(op: Op)
    | Dies
    | BeginSweep(thread: nat)
    | Publish(thread: nat)
    | LateAdmit(thread: nat, task: string)
    | LateWrite(thread: nat, closed: bool)
    | LateConsume(thread: nat)
    | LateLeave(thread: nat)
    | LateDropClaim(thread: nat)
    | LateForget(thread: nat)
    | LateRelease(thread: nat)
    | Sweep(thread: nat)
    | SweepId(thread: nat)

  /** The thread that takes the step is still inside an earlier call. */
  predicate Engaged(op: Op, late: map<nat, Late>) {
    match op
    case Admit(thread, _) => thread in late
    case WriteTask(thread) => thread in late
    case DropClaim(thread) => thread in late
    case ForgetTask(thread) => thread in late
    case GiveUp(thread) => thread in late
    case Collect(thread, _) => thread in late
    case Consume(thread) => thread in late
    case Release(thread) => thread in late
    case CheckPause(thread) => thread in late
    case CheckPaused(thread) => thread in late
    case CheckClaim(thread) => thread in late
    case SendInterrupt(thread) => thread in late
    case SetStatus(thread) => thread in late
    case _ => false
  }

  /** The process is gone; its threads are left behind. */
  function Bury(l: Life): Life {
    Life(l.now.(threads := map[]), l.late + map t | t in l.now.threads :: Left(l.now.threads[t], |l.readers|),
         l.readers + [l.now.lines])
  }

  function DoNow(l: Life, op: Op): Life {
    if Engaged(op, l.late) then l
    else
      var after := l.(now := Step(l.now, op));
      if l.now.alive && !after.now.alive then Bury(after) else after
  }

  /** The process ends by itself and nobody has noticed yet: the claim stays. */
  function DoDies(l: Life): Life {
    if !l.now.alive || l.now.switching then l else Bury(l.(now := l.now.(alive := false)))
  }

  /** `terminate_worker` or `reap_dead_workers`, past its removal of the process. */
  function DoBeginSweep(l: Life, thread: nat): Life {
    if l.now.alive || thread in l.late then l else l.(late := l.late[thread := Sweeping])
  }

  /** `spawn_worker` publishes the new process before it drops the claim of the old one. */
  function DoPublish(l: Life, thread: nat): Life {
    if l.now.alive || thread in l.late then l
    else
      var owner := if l.now.busy then Earlier else Free;
      Life(SPAWNED.(busy := l.now.busy, busyTask := l.now.busyTask, owner := owner), l.late[thread := Sweeping],
           l.readers)
  }

  /** A dispatch that looked the worker up before its process was replaced. */
  function DoLateAdmit(l: Life, thread: nat, task: string): Life {
    if thread in l.late || thread in l.now.threads || l.readers == [] || l.now.busy || l.now.switching then l
    else
      l.(now := l.now.(busy := true, busyTask := Some(task), owner := Earlier),
         late := l.late[thread := Left(Admitted(task), |l.readers| - 1)])
  }

  predicate LeftBehind(l: Life, thread: nat) {
    thread in l.late && l.late[thread].Left?
  }

  /** A dead process's pipe refuses the TASK; a pipe closed by a termination raises past the clean-up. */
  function DoLateWrite(l: Life, thread: nat, closed: bool): Life {
    if !(LeftBehind(l, thread) && l.late[thread].phase.Admitted?) then l
    else if closed then l.(late := l.late - {thread})
    else l.(late := l.late[thread := Left(Failing, l.late[thread].reader)])
  }

  function DoLateConsume(l: Life, thread: nat): Life {
    if !(LeftBehind(l, thread) && l.late[thread].phase.Waiting? && l.late[thread].reader < |l.readers|) then l
    else
      var reader, task := l.late[thread].reader, l.late[thread].phase.task;
      match FirstResult(l.readers[reader], task)
      case None => l
      case Some(i) =>
        l.(late := l.late[thread := Left(Holding(task), reader)],
           readers := l.readers[reader := Drop(l.readers[reader], i)])
  }

  /** A timeout, or the end of a change of status, which touches the record of the old process only. */
  function DoLateLeave(l: Life, thread: nat): Life {
    if !(LeftBehind(l, thread) && (l.late[thread].phase.Waiting? || AtStatus(l.late[thread].phase))) then l
    else l.(late := l.late - {thread})
  }

  /** The claim is dropped by worker id, whosever it is by now. */
  function Unclaimed(w: World): World {
    w.(busy := false, owner := if w.owner.Earlier? then Free else w.owner)
  }

  function Unlabelled(w: World): World {
    w.(busyTask := None)
  }

  predicate DropsClaim(l: Life, move: Move) {
    || (move.LateDropClaim? && LeftBehind(l, move.thread) && l.late[move.thread].phase.Failing?)
    || (move.LateRelease? && LeftBehind(l, move.thread) && l.late[move.thread].phase.Holding? && !l.now.switching)
    || (move.Sweep? && move.thread in l.late && l.late[move.thread].Sweeping?)
  }

  predicate DropsId(l: Life, move: Move) {
    || (move.LateForget? && LeftBehind(l, move.thread) && l.late[move.thread].phase.Clearing?)
    || (move.SweepId? && move.thread in l.late && l.late[move.thread].SweepingId?)
  }

  function MoveStep(l: Life, move: Move): Life {
    match move
    case Now(op) => DoNow(l, op)
    case Dies => DoDies(l)
    case BeginSweep(thread) => DoBeginSweep(l, thread)
    case Publish(thread) => DoPublish(l, thread)
    case LateAdmit(thread, task) => DoLateAdmit(l, thread, task)
    case LateWrite(thread, closed) => DoLateWrite(l, thread, closed)
    case LateConsume(thread) => DoLateConsume(l, thread)
    case LateLeave(thread) => DoLateLeave(l, thread)
    case LateDropClaim(thread) =>
      if !DropsClaim(l, move) then l
      else l.(now := Unclaimed(l.now), late := l.late[thread := Left(Clearing, l.late[thread].reader)])
    case LateForget(thread) =>
      if !DropsId(l, move) then l else l.(now := Unlabelled(l.now), late := l.late - {thread})
    case LateRelease(thread) =>
      if !DropsClaim(l, move) then l else l.(now := Unlabelled(Unclaimed(l.now)), late := l.late - {thread})
    case Sweep(thread) =>
      if !DropsClaim(l, move) then l else l.(now := Unclaimed(l.now), late := l.late[thread := SweepingId])
    case SweepId(thread) =>
      if !DropsId(l, move) then l else l.(now := Unlabelled(l.now), late := l.late - {thread})
  }

  function MoveRun(l: Life, moves: seq<Move>): Life
    decreases |moves|
  {
    if moves == [] then l else MoveRun(MoveStep(l, moves[0]), moves[1..])
  }

  /** The first process of this worker id. */
  const FIRST := Life(SPAWNED, map[], [])

  // ---------------------------------------------------------------- the exact condition

  /** The claim is that of the present process. */
  predicate OwnClaim(w: World) {
    w.alive && (w.owner.ByThread? || w.owner.ByTask?)
  }

  /** A TASK about to be written, or written and not consumed, is known by the noted id. */
  ghost predicate IdNeeded(w: World) {
    w.alive && ((exists t :: t in w.threads && w.threads[t].Admitted? && w.pipe) || exists s :: Outstanding(w, s))
  }

  /** A step of the past finds a claim, or an id, of the present process; or a stray RESULT is taken. */
  ghost predicate Strips(l: Life, move: Move) {
    || (move.Now? && !Engaged(move.op, l.late) && TakesStray(l.now, move.op))
    || (DropsClaim(l, move) && OwnClaim(l.now))
    || (DropsId(l, move) && IdNeeded(l.now))
  }

  ghost predicate LifeInv(l: Life) {
    l.now.alive ==> Inv(l.now)
  }

  lemma UnclaimedIff(w: World)
    requires w.alive && Inv(w)
    ensures OwnClaim(w) ==> !Kept(Unclaimed(w)) && !Kept(Unlabelled(Unclaimed(w)))
    ensures !OwnClaim(w) ==> Inv(Unclaimed(w)) && Inv(Unlabelled(Unclaimed(w)))
  {
    if !OwnClaim(w) {
      NothingOutstanding(w);
      SameLogKept(w, Unclaimed(w));
      SameLogKept(w, Unlabelled(Unclaimed(w)));
    }
  }

  lemma NothingOutstanding(w: World)
    requires w.alive && Inv(w) && !OwnClaim(w)
    ensures forall s :: !Outstanding(w, s)
    ensures !IdNeeded(w) && w.unanswered == map[]
  {}

  lemma UnlabelledIff(w: World)
    requires w.alive && Inv(w)
    ensures Kept(Unlabelled(w)) <==> !IdNeeded(w)
    ensures !IdNeeded(w) ==> Inv(Unlabelled(w))
  {
    var w' := Unlabelled(w);
    SameLogKept(w, w');
    if s :| Outstanding(w, s) {
      assert !OutstandingOk(w');
    }
  }

  lemma NowIff(l: Life, op: Op)
    requires LifeInv(l)
    ensures !Strips(l, Now(op)) ==> LifeInv(DoNow(l, op))
    ensures Strips(l, Now(op)) ==> !Kept(DoNow(l, op).now)
  {
    if l.now.alive && !Engaged(op, l.late) {
      if TakesStray(l.now, op) {
        StrayUncovers(l.now, op);
      } else {
        StepKeepsInv(l.now, op);
      }
    }
  }

  lemma LateAdmitKeeps(l: Life, thread: nat, task: string)
    requires LifeInv(l)
    ensures LifeInv(DoLateAdmit(l, thread, task))
  {
    var l' := DoLateAdmit(l, thread, task);
    if l' != l && l.now.alive {
      NothingOutstanding(l.now);
      SameLogKept(l.now, l'.now);
    }
  }

  lemma DropIff(l: Life, move: Move)
    requires LifeInv(l) && (DropsClaim(l, move) || DropsId(l, move))
    ensures !Strips(l, move) ==> LifeInv(MoveStep(l, move))
    ensures Strips(l, move) ==> !Kept(MoveStep(l, move).now)
  {
    if l.now.alive {
      UnclaimedIff(l.now);
      UnlabelledIff(l.now);
    }
  }

  /** The claim of the present process is lost to such a step, and to nothing else. */
  lemma MoveKeptIff(l: Life, move: Move)
    requires LifeInv(l)
    ensures !Strips(l, move) ==> LifeInv(MoveStep(l, move))
    ensures Strips(l, move) ==> !Kept(MoveStep(l, move).now)
  {
    if DropsClaim(l, move) || DropsId(l, move) {
      DropIff(l, move);
    } else {
      match move
      case Now(op) => NowIff(l, op);
      case LateAdmit(thread, task) => LateAdmitKeeps(l, thread, task);
      case _ =>
    }
  }

  ghost predicate NeverStrips(l: Life, moves: seq<Move>)
    decreases |moves|
  {
    moves != [] ==> !Strips(l, moves[0]) && NeverStrips(MoveStep(l, moves[0]), moves[1..])
  }

  ghost predicate KeptThroughout(l: Life, moves: seq<Move>)
    decreases |moves|
  {
    Kept(l.now) && (moves != [] ==> KeptThroughout(MoveStep(l, moves[0]), moves[1..]))
  }

  lemma {:induction false} RunKeptIff(l: Life, moves: seq<Move>)
    requires LifeInv(l)
    ensures KeptThroughout(l, moves) <==> NeverStrips(l, moves)
    ensures NeverStrips(l, moves) ==> LifeInv(MoveRun(l, moves))
    decreases |moves|
  {
    if moves != [] {
      MoveKeptIff(l, moves[0]);
      if !Strips(l, moves[0]) { RunKeptIff(MoveStep(l, moves[0]), moves[1..]); }
    }
  }

  /**
   Over any number of processes under one worker id: at every point the claim and the noted id stand for exactly
   what is under way with the present process, if and only if no thread of an earlier one, and no clean-up after
   it, drops a claim or an id that the present process has set, and no stray RESULT is taken.
   */
  lemma KeptIffNeverStrips(moves: seq<Move>)
    ensures KeptThroughout(FIRST, moves) <==> NeverStrips(FIRST, moves)
  {
    RunKeptIff(FIRST, moves);
  }

  /** One outstanding task across restarts. */
  lemma OneOutstandingAcross(moves: seq<Move>, s: nat, s': nat)
    requires NeverStrips(FIRST, moves)
    requires var w := MoveRun(FIRST, moves).now; w.alive && Outstanding(w, s) && Outstanding(w, s')
    ensures var w := MoveRun(FIRST, moves).now;
            && s == s' && w.busy && w.busyTask.Some?
            && (s in w.unanswered ==> w.busyTask == Some(w.unanswered[s]))
            && (forall i | 0 <= i < |w.lines| && w.lines[i].Result? :: w.busyTask == Some(w.lines[i].task))
  {
    RunKeptIff(FIRST, moves);
  }

  // ---------------------------------------------------------------- what callers can do

  /** A worker is given a task only when nothing of its earlier processes is left to do. */
  predicate Settled(l: Life, move: Move) {
    move.Now? && move.op.Admit? && DoNow(l, move.op) != l ==> l.late == map[]
  }

  ghost predicate AlwaysSettled(l: Life, moves: seq<Move>)
    decreases |moves|
  {
    moves != [] ==> Settled(l, moves[0]) && AlwaysSettled(MoveStep(l, moves[0]), moves[1..])
  }

  ghost predicate Quiet(l: Life) {
    && LifeInv(l) && (forall i | 0 <= i < |l.now.lines| :: !l.now.lines[i].Stray?)
    && (OwnClaim(l.now) ==> l.late == map[])
  }

  lemma QuietNeverStrips(l: Life, move: Move)
    requires Quiet(l)
    ensures !Strips(l, move)
  {
    if l.now.alive && !OwnClaim(l.now) { NothingOutstanding(l.now); }
  }

  /** Only an admission turns a claim of nobody's, or of the past, into one of the present. */
  lemma OwnClaimBegins(w: World, op: Op)
    requires w.alive && Inv(w) && !OwnClaim(w) && OwnClaim(Step(w, op))
    requires forall i | 0 <= i < |w.lines| :: !w.lines[i].Stray?
    ensures op.Admit?
  {
    NothingOutstanding(w);
  }

  lemma NowKeepsQuiet(l: Life, op: Op)
    requires Quiet(l) && Settled(l, Now(op)) && !op.Strays?
    ensures Quiet(DoNow(l, op))
  {
    QuietNeverStrips(l, Now(op));
    NowIff(l, op);
    NoStrayLines(l.now, op);
    if l.now.alive && !OwnClaim(l.now) && OwnClaim(Step(l.now, op)) { OwnClaimBegins(l.now, op); }
  }

  lemma MoveKeepsQuiet(l: Life, move: Move)
    requires Quiet(l) && Settled(l, move) && !(move.Now? && move.op.Strays?)
    ensures Quiet(MoveStep(l, move))
  {
    QuietNeverStrips(l, move);
    MoveKeptIff(l, move);
    if move.Now? { NowKeepsQuiet(l, move.op); }
  }

  lemma {:induction false} RunSettled(l: Life, moves: seq<Move>)
    requires Quiet(l) && AlwaysSettled(l, moves)
    requires forall m | m in moves :: !(m.Now? && m.op.Strays?)
    ensures NeverStrips(l, moves)
    decreases |moves|
  {
    if moves != [] {
      QuietNeverStrips(l, moves[0]);
      MoveKeepsQuiet(l, moves[0]);
      RunSettled(MoveStep(l, moves[0]), moves[1..]);
    }
  }

  /**
   It suffices to give a worker tasks only once every call on its earlier processes, and the clean-up after them,
   has come to its end; from workers that answer each TASK at most once.
   */
  lemma SettledSuffices(moves: seq<Move>)
    requires AlwaysSettled(FIRST, moves) && forall m | m in moves :: !(m.Now? && m.op.Strays?)
    ensures KeptThroughout(FIRST, moves)
  {
    RunSettled(FIRST, moves);
    KeptIffNeverStrips(moves);
  }
}
