/** Runs of the worker protocol that show what its conditions keep out. */
module WorkerRuns {
  import opened Prelude
  import opened WorkerProtocol
  import opened WorkerRestart

  lemma RunFirst(w: World, op: Op, ops: seq<Op>)
    ensures Run(w, [op] + ops) == Run(Step(w, op), ops)
  {
    assert ([op] + ops)[1..] == ops;
  }

  // ---------------------------------------------------------------- a paused worker set going

  /** The worker with these threads inside a call, before and after TASK "t" is written. */
  function At(status: Status, threads: map<nat, Phase>, written: bool): World {
    if written then
      World(true, true, true, Some("t"), status, false, threads, map[0 := "t"], [], 1, [WroteTask(0)], ByTask(0))
    else World(true, true, false, None, status, false, threads, map[], [], 0, [], Free)
  }

  lemma PauseRun(threads: map<nat, Phase>, written: bool, ops: seq<Op>)
    requires 1 !in threads
    ensures Run(At(IDLE, threads, written), [CheckPause(1)] + ([SetStatus(1)] + ops))
            == Run(At(PAUSED, threads, written), ops)
  {
    var checked := At(IDLE, threads[1 := Changing(PAUSED)], written);
    RunFirst(At(IDLE, threads, written), CheckPause(1), [SetStatus(1)] + ops);
    RunFirst(checked, SetStatus(1), ops);
    assert threads[1 := Changing(PAUSED)] - {1} == threads;
  }

  lemma ResumeChecks(threads: map<nat, Phase>, thread: nat, ops: seq<Op>)
    requires thread !in threads
    ensures Run(At(PAUSED, threads, false), [CheckPaused(thread)] + ([CheckClaim(thread)] + ops))
            == Run(At(PAUSED, threads[thread := Changing(IDLE)], false), ops)
  {
    RunFirst(At(PAUSED, threads, false), CheckPaused(thread), [CheckClaim(thread)] + ops);
    RunFirst(At(PAUSED, threads[thread := Resuming], false), CheckClaim(thread), ops);
    assert threads[thread := Resuming][thread := Changing(IDLE)] == threads[thread := Changing(IDLE)];
  }

  lemma ResumeEnds(threads: map<nat, Phase>, thread: nat, ops: seq<Op>)
    requires thread !in threads
    ensures Run(At(PAUSED, threads[thread := Changing(IDLE)], false), [SetStatus(thread)] + ops)
            == Run(At(IDLE, threads, false), ops)
  {
    RunFirst(At(PAUSED, threads[thread := Changing(IDLE)], false), SetStatus(thread), ops);
    assert threads[thread := Changing(IDLE)] - {thread} == threads;
  }

  lemma SendRun(threads: map<nat, Phase>, ops: seq<Op>)
    requires 3 !in threads
    ensures Run(At(IDLE, threads, false), [Admit(3, "t")] + ([WriteTask(3)] + ([GiveUp(3)] + ops)))
            == Run(At(IDLE, threads, true), ops)
  {
    var admitted := At(IDLE, threads[3 := Admitted("t")], false).(busy := true, busyTask := Some("t"),
                                                                  owner := ByThread(3));
    var sent := At(IDLE, threads[3 := Waiting("t")], true);
    RunFirst(At(IDLE, threads, false), Admit(3, "t"), [WriteTask(3)] + ([GiveUp(3)] + ops));
    RunFirst(admitted, WriteTask(3), [GiveUp(3)] + ops);
    assert Step(admitted, WriteTask(3)) == sent by {
      assert threads[3 := Admitted("t")][3 := Waiting("t")] == threads[3 := Waiting("t")];
      assert [] + [WroteTask(0)] == [WroteTask(0)];
    }
    RunFirst(sent, GiveUp(3), ops);
    assert threads[3 := Waiting("t")] - {3} == threads;
  }

  function HeldUp(): map<nat, Phase> {
    map[2 := Changing(IDLE)]
  }

  /** A pause, and a resume that is held up before it sets the status. */
  lemma HeldUpRun(ops: seq<Op>)
    ensures Run(SPAWNED, [CheckPause(1)] + ([SetStatus(1)] + ([CheckPaused(2)] + ([CheckClaim(2)] + ops))))
            == Run(At(PAUSED, HeldUp(), false), ops)
  {
    PauseRun(map[], false, [CheckPaused(2)] + ([CheckClaim(2)] + ops));
    ResumeChecks(map[], 2, ops);
    assert map[][2 := Changing(IDLE)] == HeldUp();
  }

  predicate Clean(ops: seq<Op>) {
    forall op | op in ops :: !op.Strays?
  }

  lemma PauseAgain(threads: map<nat, Phase>) returns (ops: seq<Op>)
    requires 1 !in threads
    ensures Run(At(IDLE, threads, true), ops) == At(PAUSED, threads, true) && Clean(ops)
  {
    ops := [CheckPause(1)] + ([SetStatus(1)] + []);
    PauseRun(threads, true, []);
  }

  lemma SendAndPause() returns (ops: seq<Op>)
    ensures Run(At(IDLE, HeldUp(), false), ops) == At(PAUSED, HeldUp(), true) && Clean(ops)
  {
    var pause := PauseAgain(HeldUp());
    ops := [Admit(3, "t")] + ([WriteTask(3)] + ([GiveUp(3)] + pause));
    SendRun(HeldUp(), pause);
  }

  /** Another resume, an async send and another pause. */
  lemma Meanwhile() returns (ops: seq<Op>)
    ensures Run(At(PAUSED, HeldUp(), false), ops) == At(PAUSED, HeldUp(), true) && Clean(ops)
  {
    var send := SendAndPause();
    ops := [CheckPaused(3)] + ([CheckClaim(3)] + ([SetStatus(3)] + send));
    ResumeChecks(HeldUp(), 3, [SetStatus(3)] + send);
    ResumeEnds(HeldUp(), 3, send);
  }

  /**
   `resume_worker` passes its tests on a paused, free worker and is held up before it sets the status. Another
   resume, an async send and a pause later it goes on: the paused worker is IDLE with its task outstanding.
   */
  lemma LateResume() returns (ops: seq<Op>)
    ensures NeverTakesStray(SPAWNED, ops)
    ensures var w := Run(SPAWNED, ops);
            && w.alive && w.status == PAUSED && Outstanding(w, 0)
            && Step(w, SetStatus(2)) == w.(status := IDLE, threads := map[])
  {
    var meanwhile := Meanwhile();
    ops := [CheckPause(1)] + ([SetStatus(1)] + ([CheckPaused(2)] + ([CheckClaim(2)] + meanwhile)));
    HeldUpRun(meanwhile);
    OneAnswerEach(ops);
    assert HeldUp() - {2} == map[];
  }

  // ---------------------------------------------------------------- a worker that answers twice

  /** After the first TASK "t" was answered twice and one RESULT of the two consumed. */
  function AnsweredTwice(threads: map<nat, Phase>): World {
    SPAWNED.(threads := threads, lines := [Stray("t")], serials := 1, log := [WroteTask(0), Consumed(0)])
  }

  function FirstOps(ops: seq<Op>): seq<Op> {
    [Admit(1, "t")] + ([WriteTask(1)] + ([Answers(0)] + ([Strays("t")] + ([Consume(1)] + ([Release(1)] + ops)))))
  }

  lemma FirstSent(ops: seq<Op>)
    ensures Run(SPAWNED, [Admit(1, "t")] + ([WriteTask(1)] + ops)) == Run(At(IDLE, map[1 := Waiting("t")], true), ops)
  {
    var admitted := At(IDLE, map[1 := Admitted("t")], false).(busy := true, busyTask := Some("t"),
                                                              owner := ByThread(1));
    RunFirst(SPAWNED, Admit(1, "t"), [WriteTask(1)] + ops);
    assert Step(SPAWNED, Admit(1, "t")) == admitted;
    RunFirst(admitted, WriteTask(1), ops);
    assert Step(admitted, WriteTask(1)) == At(IDLE, map[1 := Waiting("t")], true) by {
      assert [] + [WroteTask(0)] == [WroteTask(0)];
    }
  }

  function TwoLines(): World {
    At(IDLE, map[1 := Waiting("t")], true).(unanswered := map[], lines := [Result("t", 0), Stray("t")])
  }

  function OneLine(): World {
    At(IDLE, map[1 := Waiting("t")], true).(unanswered := map[], lines := [Result("t", 0)])
  }

  lemma TwoAnswers()
    ensures Step(At(IDLE, map[1 := Waiting("t")], true), Answers(0)) == OneLine()
    ensures Step(OneLine(), Strays("t")) == TwoLines()
  {
    assert map[0 := "t"] - {0} == map[] && [] + [Result("t", 0)] == [Result("t", 0)];
    assert [Result("t", 0)] + [Stray("t")] == [Result("t", 0), Stray("t")];
  }

  lemma AnsweredRun(ops: seq<Op>)
    ensures Run(At(IDLE, map[1 := Waiting("t")], true), [Answers(0)] + ([Strays("t")] + ops)) == Run(TwoLines(), ops)
  {
    RunFirst(At(IDLE, map[1 := Waiting("t")], true), Answers(0), [Strays("t")] + ops);
    TwoAnswers();
    RunFirst(OneLine(), Strays("t"), ops);
  }

  lemma FirstTaken()
    ensures Step(Step(TwoLines(), Consume(1)), Release(1)) == AnsweredTwice(map[])
  {
    var w := TwoLines();
    assert FirstResult(w.lines, "t") == Some(0);
    assert Drop(w.lines, 0) == [Stray("t")];
    assert [WroteTask(0)] + [Consumed(0)] == [WroteTask(0), Consumed(0)];
  }

  lemma FirstRun(ops: seq<Op>)
    ensures Run(SPAWNED, FirstOps(ops)) == Run(AnsweredTwice(map[]), ops)
  {
    FirstSent([Answers(0)] + ([Strays("t")] + ([Consume(1)] + ([Release(1)] + ops))));
    AnsweredRun([Consume(1)] + ([Release(1)] + ops));
    RunFirst(TwoLines(), Consume(1), [Release(1)] + ops);
    RunFirst(Step(TwoLines(), Consume(1)), Release(1), ops);
    FirstTaken();
  }

  /** TASK "t" is written once more, and the second answer to the first one is taken for its own. */
  function SecondSent(): World {
    SPAWNED.(busy := true, busyTask := Some("t"), threads := map[1 := Waiting("t")], unanswered := map[1 := "t"],
             lines := [Stray("t")], serials := 2, log := [WroteTask(0), Consumed(0), WroteTask(1)], owner := ByTask(1))
  }

  lemma SecondSend()
    ensures Step(Step(AnsweredTwice(map[]), Admit(1, "t")), WriteTask(1)) == SecondSent()
  {
    assert [WroteTask(0), Consumed(0)] + [WroteTask(1)] == [WroteTask(0), Consumed(0), WroteTask(1)];
  }

  function Freed(): World {
    SPAWNED.(unanswered := map[1 := "t"], serials := 2,
             log := [WroteTask(0), Consumed(0), WroteTask(1), ConsumedStray])
  }

  lemma StrayTaken()
    ensures TakesStray(SecondSent(), Consume(1))
    ensures Step(Step(SecondSent(), Consume(1)), Release(1)) == Freed()
  {
    assert FirstResult([Stray("t")], "t") == Some(0);
    assert Drop([Stray("t")], 0) == [];
    assert [WroteTask(0), Consumed(0), WroteTask(1)] + [ConsumedStray]
        == [WroteTask(0), Consumed(0), WroteTask(1), ConsumedStray];
  }

  lemma SecondRun(ops: seq<Op>)
    ensures Run(AnsweredTwice(map[]), [Admit(1, "t")] + ([WriteTask(1)] + ([Consume(1)] + ([Release(1)] + ops))))
            == Run(Freed(), ops)
  {
    var w := AnsweredTwice(map[]);
    RunFirst(w, Admit(1, "t"), [WriteTask(1)] + ([Consume(1)] + ([Release(1)] + ops)));
    RunFirst(Step(w, Admit(1, "t")), WriteTask(1), [Consume(1)] + ([Release(1)] + ops));
    SecondSend();
    RunFirst(SecondSent(), Consume(1), [Release(1)] + ops);
    RunFirst(Step(SecondSent(), Consume(1)), Release(1), ops);
    StrayTaken();
  }

  /**
   A worker answers TASK "t" twice, and the task id is used again: the left-over RESULT frees the worker while it is
   still at work, and a third TASK is written beside the second.
   */
  lemma StrayLetsTwoIn() returns (ops: seq<Op>)
    ensures var w := Run(SPAWNED, ops); w.alive && Outstanding(w, 1) && Outstanding(w, 2)
    ensures !NeverTakesStray(SPAWNED, ops)
  {
    var third := [Admit(1, "u")] + ([WriteTask(1)] + []);
    var second := [Admit(1, "t")] + ([WriteTask(1)] + ([Consume(1)] + ([Release(1)] + third)));
    ops := FirstOps(second);
    FirstRun(second);
    SecondRun(third);
    RunFirst(Freed(), Admit(1, "u"), [WriteTask(1)] + []);
    RunFirst(Step(Freed(), Admit(1, "u")), WriteTask(1), []);
    var w := Run(SPAWNED, ops);
    assert w.unanswered == map[1 := "t", 2 := "u"];
    if NeverTakesStray(SPAWNED, ops) { OneOutstanding(ops, 1, 2); }
  }

  // ---------------------------------------------------------------- a worker id used again

  lemma MoveFirst(l: Life, move: Move, moves: seq<Move>)
    ensures MoveRun(l, [move] + moves) == MoveRun(MoveStep(l, move), moves)
  {
    assert ([move] + moves)[1..] == moves;
  }

  lemma PresentFirst(l: Life, op: Op, moves: seq<Move>)
    requires !Engaged(op, l.late) && Step(l.now, op).alive
    ensures MoveRun(l, [Now(op)] + moves) == MoveRun(l.(now := Step(l.now, op)), moves)
  {
    MoveFirst(l, Now(op), moves);
  }

  /** The present process, fresh, is given TASK "t" by thread 2. */
  lemma FreshSent(l: Life, moves: seq<Move>)
    requires l.now == SPAWNED && 2 !in l.late
    ensures MoveRun(l, [Now(Admit(2, "t"))] + ([Now(WriteTask(2))] + moves))
            == MoveRun(l.(now := At(IDLE, map[2 := Waiting("t")], true)), moves)
  {
    var admitted := At(IDLE, map[2 := Admitted("t")], false).(busy := true, busyTask := Some("t"),
                                                              owner := ByThread(2));
    PresentFirst(l, Admit(2, "t"), [Now(WriteTask(2))] + moves);
    assert Step(SPAWNED, Admit(2, "t")) == admitted;
    PresentFirst(l.(now := admitted), WriteTask(2), moves);
    assert Step(admitted, WriteTask(2)) == At(IDLE, map[2 := Waiting("t")], true) by {
      assert map[2 := Admitted("t")][2 := Waiting("t")] == map[2 := Waiting("t")] && map[][0 := "t"] == map[0 := "t"];
      assert [] + [WroteTask(0)] == [WroteTask(0)];
    }
  }

  /** With the claim dropped, thread 3 is let in beside it. */
  lemma SecondIn(l: Life) returns (moves: seq<Move>)
    requires 3 !in l.late && l.now == At(IDLE, map[2 := Waiting("t")], true).(busy := false, busyTask := l.now.busyTask)
    ensures var w := MoveRun(l, moves).now; w.alive && Outstanding(w, 0) && Outstanding(w, 1)
  {
    moves := [Now(Admit(3, "u"))] + ([Now(WriteTask(3))] + []);
    var admitted := Step(l.now, Admit(3, "u"));
    PresentFirst(l, Admit(3, "u"), [Now(WriteTask(3))] + []);
    PresentFirst(l.(now := admitted), WriteTask(3), []);
    assert Step(admitted, WriteTask(3)).unanswered == map[0 := "t", 1 := "u"];
  }

  lemma TwoOutstandingStrips(moves: seq<Move>)
    requires var w := MoveRun(FIRST, moves).now; w.alive && Outstanding(w, 0) && Outstanding(w, 1)
    ensures !NeverStrips(FIRST, moves)
  {
    if NeverStrips(FIRST, moves) { OneOutstandingAcross(moves, 0, 1); }
  }

  function Respawned(): Life {
    Life(SPAWNED, map[9 := Sweeping], [[]])
  }

  lemma RespawnRun(moves: seq<Move>)
    ensures MoveRun(FIRST, [Dies] + ([Publish(9)] + moves)) == MoveRun(Respawned(), moves)
  {
    var dead := Life(SPAWNED.(alive := false), map[], [[]]);
    MoveFirst(FIRST, Dies, [Publish(9)] + moves);
    assert MoveStep(FIRST, Dies) == dead;
    MoveFirst(dead, Publish(9), moves);
    assert map[][9 := Sweeping] == map[9 := Sweeping];
  }

  /**
   `spawn_worker` makes the new process known before it drops the claim of the old one: a dispatch that comes in
   between loses its claim to the spawn, and a second task is written beside the first.
   */
  lemma SpawnDropsNewClaim() returns (moves: seq<Move>)
    ensures var w := MoveRun(FIRST, moves).now; w.alive && Outstanding(w, 0) && Outstanding(w, 1)
    ensures !NeverStrips(FIRST, moves)
  {
    var sent := Respawned().(now := At(IDLE, map[2 := Waiting("t")], true));
    var swept := MoveStep(sent, Sweep(9));
    var last := SecondIn(swept);
    moves := [Dies] + ([Publish(9)] + ([Now(Admit(2, "t"))] + ([Now(WriteTask(2))] + ([Sweep(9)] + last))));
    RespawnRun([Now(Admit(2, "t"))] + ([Now(WriteTask(2))] + ([Sweep(9)] + last)));
    FreshSent(Respawned(), [Sweep(9)] + last);
    MoveFirst(sent, Sweep(9), last);
    TwoOutstandingStrips(moves);
  }

  /** TASK "s" of the first process, its RESULT consumed by thread 1. */
  function Consumed1(): World {
    SPAWNED.(busy := true, busyTask := Some("s"), threads := map[1 := Holding("s")], serials := 1,
             log := [WroteTask(0), Consumed(0)], owner := ByThread(1))
  }

  function Answered1(lines: seq<Output>): World {
    SPAWNED.(busy := true, busyTask := Some("s"), threads := map[1 := Waiting("s")], lines := lines, serials := 1,
             unanswered := if lines == [] then map[0 := "s"] else map[], log := [WroteTask(0)], owner := ByTask(0))
  }

  lemma FirstSteps()
    ensures Step(Step(SPAWNED, Admit(1, "s")), WriteTask(1)) == Answered1([])
    ensures Step(Answered1([]), Answers(0)) == Answered1([Result("s", 0)])
    ensures Step(Answered1([Result("s", 0)]), Consume(1)) == Consumed1()
  {
    assert map[1 := Admitted("s")][1 := Waiting("s")] == map[1 := Waiting("s")];
    assert [] + [WroteTask(0)] == [WroteTask(0)] && map[0 := "s"] - {0} == map[];
    assert FirstResult([Result("s", 0)], "s") == Some(0) && Drop([Result("s", 0)], 0) == [];
    assert [WroteTask(0)] + [Consumed(0)] == [WroteTask(0), Consumed(0)];
  }

  lemma FirstTask(moves: seq<Move>)
    ensures MoveRun(FIRST, [Now(Admit(1, "s"))] + ([Now(WriteTask(1))] + ([Now(Answers(0))] + ([Now(Consume(1))]
                           + moves))))
            == MoveRun(FIRST.(now := Consumed1()), moves)
  {
    FirstSteps();
    var admitted := Step(SPAWNED, Admit(1, "s"));
    PresentFirst(FIRST, Admit(1, "s"), [Now(WriteTask(1))] + ([Now(Answers(0))] + ([Now(Consume(1))] + moves)));
    PresentFirst(FIRST.(now := admitted), WriteTask(1), [Now(Answers(0))] + ([Now(Consume(1))] + moves));
    PresentFirst(FIRST.(now := Answered1([])), Answers(0), [Now(Consume(1))] + moves);
    PresentFirst(FIRST.(now := Answered1([Result("s", 0)])), Consume(1), moves);
  }

  /** Died and spawned anew, the sweep complete; thread 1 still holds the old RESULT. */
  function StillHolding(late: map<nat, Late>): map<nat, Late> {
    late[1 := Left(Holding("s"), 0)]
  }

  function Republished(): Life {
    Life(SPAWNED.(busy := true, busyTask := Some("s"), owner := Earlier), StillHolding(map[9 := Sweeping]), [[]])
  }

  lemma RepublishRun(moves: seq<Move>)
    ensures MoveRun(FIRST.(now := Consumed1()), [Dies] + ([Publish(9)] + moves)) == MoveRun(Republished(), moves)
  {
    var dead := Life(Consumed1().(alive := false, threads := map[]), StillHolding(map[]), [[]]);
    MoveFirst(FIRST.(now := Consumed1()), Dies, [Publish(9)] + moves);
    assert MoveStep(FIRST.(now := Consumed1()), Dies) == dead;
    MoveFirst(dead, Publish(9), moves);
    assert StillHolding(map[])[9 := Sweeping] == StillHolding(map[9 := Sweeping]);
  }

  lemma SweptRun(moves: seq<Move>)
    ensures MoveRun(Republished(), [Sweep(9)] + ([SweepId(9)] + moves))
            == MoveRun(Life(SPAWNED, StillHolding(map[]), [[]]), moves)
  {
    var swept := Life(SPAWNED.(busyTask := Some("s")), StillHolding(map[9 := SweepingId]), [[]]);
    MoveFirst(Republished(), Sweep(9), [SweepId(9)] + moves);
    assert MoveStep(Republished(), Sweep(9)) == swept by {
      assert StillHolding(map[9 := Sweeping])[9 := SweepingId] == StillHolding(map[9 := SweepingId]);
    }
    MoveFirst(swept, SweepId(9), moves);
    assert StillHolding(map[9 := SweepingId]) - {9} == StillHolding(map[]);
  }

  /**
   A dispatch has consumed its RESULT and is held up before it releases the claim. The process dies, another one
   is spawned under the same id and given a task; the release frees it, and a second task is written.
   */
  lemma LateReleaseFreesSuccessor() returns (moves: seq<Move>)
    ensures var w := MoveRun(FIRST, moves).now; w.alive && Outstanding(w, 0) && Outstanding(w, 1)
    ensures !NeverStrips(FIRST, moves)
  {
    var successor := Life(SPAWNED, StillHolding(map[]), [[]]);
    var sent := successor.(now := At(IDLE, map[2 := Waiting("t")], true));
    var last := SecondIn(MoveStep(sent, LateRelease(1)));
    var sends := [Now(Admit(2, "t"))] + ([Now(WriteTask(2))] + ([LateRelease(1)] + last));
    var sweeps := [Sweep(9)] + ([SweepId(9)] + sends);
    var spawns := [Dies] + ([Publish(9)] + sweeps);
    moves := [Now(Admit(1, "s"))] + ([Now(WriteTask(1))] + ([Now(Answers(0))] + ([Now(Consume(1))] + spawns)));
    FirstTask(spawns);
    RepublishRun(sweeps);
    SweptRun(sends);
    FreshSent(successor, [LateRelease(1)] + last);
    MoveFirst(sent, LateRelease(1), last);
    TwoOutstandingStrips(moves);
  }
}
