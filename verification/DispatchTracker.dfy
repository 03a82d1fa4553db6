/** Dispatch idempotency: domain/dispatch.py. */
module DispatchTracker {
  import opened Prelude

  datatype Status = INITIALIZED | ACTIVE | COMPLETED | FAILED | SUPERSEDED

  datatype Attempt = Attempt(dispatchId: string, taskId: string, runId: string, number: nat, treeSha: string,
                             policy: string, status: Status)

  datatype Refusal = NoActiveDispatch | Stale | AlreadyOver

  datatype Tracker = Tracker(active: map<string, Attempt>, history: seq<Attempt>)

  const FRESH := Tracker(map[], [])

  function Start(t: Tracker, dispatchId: string, taskId: string, runId: string, treeSha: string, policy: string)
    : (Tracker, Attempt)
  {
    var prior := if taskId in t.active then Some(t.active[taskId]) else None;
    var number := if prior.Some? then prior.value.number + 1 else 1;
    var history :=
      if prior.Some? && prior.value.status == ACTIVE then t.history + [prior.value.(status := SUPERSEDED)]
        else t.history;
    var attempt := Attempt(dispatchId, taskId, runId, number, treeSha, policy, ACTIVE);
    (Tracker(t.active[taskId := attempt], history), attempt)
  }

  function ActiveDispatch(t: Tracker, taskId: string, dispatchId: string): Result<Attempt, Refusal> {
    if taskId !in t.active then Err(NoActiveDispatch)
    else if t.active[taskId].dispatchId != dispatchId then Err(Stale)
    else if t.active[taskId].status != ACTIVE then Err(AlreadyOver)
    else Ok(t.active[taskId])
  }

  function Complete(t: Tracker, taskId: string, dispatchId: string, success: bool): Result<(Tracker, Attempt), Refusal>
  {
    match ActiveDispatch(t, taskId, dispatchId)
    case Err(e) => Err(e)
    case Ok(active) =>
      var completed := active.(status := if success then COMPLETED else FAILED);
      Ok((Tracker(t.active[taskId := completed], t.history + [completed]), completed))
  }

  datatype Op =
    | DoStart(dispatchId: string, taskId: string, runId: string, treeSha: string, policy: string)
    | DoComplete(taskId: string, dispatchId: string, success: bool)

  function Step(t: Tracker, op: Op): Tracker {
    match op
    case DoStart(dispatchId, taskId, runId, treeSha, policy) => Start(t, dispatchId, taskId, runId, treeSha, policy).0
    case DoComplete(taskId, dispatchId, success) =>
      (match Complete(t, taskId, dispatchId, success) case Ok(r) => r.0 case Err(_) => t)
  }

  function Run(t: Tracker, ops: seq<Op>): Tracker
    decreases |ops|
  {
    if ops == [] then t else Run(Step(t, ops[0]), ops[1..])
  }

  /** One task's part of the history, in order. */
  function HistoryOf(history: seq<Attempt>, taskId: string): seq<Attempt> {
    if history == [] then []
    else
      var last := history[|history| - 1];
      HistoryOf(history[..|history| - 1], taskId) + if last.taskId == taskId then [last] else []
  }

  lemma HistoryOfLonger(history: seq<Attempt>, a: Attempt, taskId: string)
    ensures HistoryOf(history + [a], taskId) == HistoryOf(history, taskId) + if a.taskId == taskId then [a] else []
  {
    assert (history + [a])[..|history|] == history;
  }

  /** Attempts 1, 2, 3, ... without gap or repeat, all of them over. */
  ghost predicate Numbered(hs: seq<Attempt>) {
    forall i | 0 <= i < |hs| :: hs[i].number == i + 1 && hs[i].status in {COMPLETED, FAILED, SUPERSEDED}
  }

  /** A task's current attempt is its newest, and the only one that can be ACTIVE. */
  ghost predicate Coherent(hs: seq<Attempt>, current: Option<Attempt>, taskId: string) {
    && Numbered(hs)
    && match current
       case None => hs == []
       case Some(a) =>
         && a.taskId == taskId && a.status in {ACTIVE, COMPLETED, FAILED}
         && (if a.status == ACTIVE then a.number == |hs| + 1 else hs != [] && hs[|hs| - 1] == a)
  }

  function Current(t: Tracker, taskId: string): Option<Attempt> {
    if taskId in t.active then Some(t.active[taskId]) else None
  }

  ghost predicate TaskOk(t: Tracker, taskId: string) {
    Coherent(HistoryOf(t.history, taskId), Current(t, taskId), taskId)
  }

  ghost predicate Valid(t: Tracker) {
    forall taskId :: TaskOk(t, taskId)
  }

  /** What a step adds to a task's history, and what it makes of the task's current attempt. */
  lemma StepOnTask(t: Tracker, op: Op, taskId: string, added: seq<Attempt>)
    requires |added| <= 1 && Step(t, op).history == t.history + added
    ensures HistoryOf(Step(t, op).history, taskId)
            == HistoryOf(t.history, taskId) + if added != [] && added[0].taskId == taskId then added else []
  {
    if added == [] {
      assert t.history + added == t.history;
    } else {
      assert added == [added[0]];
      HistoryOfLonger(t.history, added[0], taskId);
    }
  }

  lemma StartedCoherent(hs: seq<Attempt>, prior: Option<Attempt>, attempt: Attempt, taskId: string)
    requires Coherent(hs, prior, taskId) && attempt.taskId == taskId && attempt.status == ACTIVE
    requires attempt.number == if prior.Some? then prior.value.number + 1 else 1
    ensures var over := if prior.Some? && prior.value.status == ACTIVE then [prior.value.(status := SUPERSEDED)]
            else [];
            Coherent(hs + over, Some(attempt), taskId)
  {}

  lemma StartKeepsTask(t: Tracker, op: Op, taskId: string)
    requires op.DoStart? && TaskOk(t, taskId) && TaskOk(t, op.taskId)
    ensures TaskOk(Step(t, op), taskId)
  {
    var prior := Current(t, op.taskId);
    var over := if prior.Some? && prior.value.status == ACTIVE then [prior.value.(status := SUPERSEDED)] else [];
    StepOnTask(t, op, taskId, over);
    if op.taskId == taskId {
      StartedCoherent(HistoryOf(t.history, taskId), prior, Step(t, op).active[taskId], taskId);
    }
  }

  lemma CompletedCoherent(hs: seq<Attempt>, a: Attempt, completed: Attempt, taskId: string)
    requires Coherent(hs, Some(a), taskId) && a.status == ACTIVE
    requires completed.status in {COMPLETED, FAILED} && completed == a.(status := completed.status)
    ensures Coherent(hs + [completed], Some(completed), taskId)
  {}

  /** A completion replaces the current attempt of its own task, which was ACTIVE, and records it. */
  lemma CompletionIs(t: Tracker, op: Op)
    requires op.DoComplete? && TaskOk(t, op.taskId) && Step(t, op) != t
    ensures op.taskId in t.active && t.active[op.taskId].status == ACTIVE && t.active[op.taskId].taskId == op.taskId
    ensures var a := t.active[op.taskId];
            var completed := a.(status := if op.success then COMPLETED else FAILED);
            Step(t, op) == Tracker(t.active[op.taskId := completed], t.history + [completed])
  {}

  lemma CompletionKeepsTask(t: Tracker, op: Op, taskId: string)
    requires op.DoComplete? && TaskOk(t, taskId) && TaskOk(t, op.taskId)
    ensures TaskOk(Step(t, op), taskId)
  {
    if Step(t, op) != t {
      CompletionIs(t, op);
      var a := t.active[op.taskId];
      var completed := a.(status := if op.success then COMPLETED else FAILED);
      HistoryOfLonger(t.history, completed, taskId);
      if op.taskId == taskId { CompletedCoherent(HistoryOf(t.history, taskId), a, completed, taskId); }
    }
  }

  lemma StepKeepsValid(t: Tracker, op: Op)
    requires Valid(t)
    ensures Valid(Step(t, op))
  {
    forall taskId ensures TaskOk(Step(t, op), taskId) {
      assert TaskOk(t, taskId) && TaskOk(t, op.taskId);
      if op.DoStart? { StartKeepsTask(t, op, taskId); } else { CompletionKeepsTask(t, op, taskId); }
    }
  }

  lemma {:induction false} RunKeepsValid(t: Tracker, ops: seq<Op>)
    requires Valid(t)
    ensures Valid(Run(t, ops))
    decreases |ops|
  {
    if ops != [] {
      StepKeepsValid(t, ops[0]);
      RunKeepsValid(Step(t, ops[0]), ops[1..]);
    }
  }

  /** What has been recorded stays recorded. */
  lemma {:induction false} HistoryOnlyGrows(t: Tracker, ops: seq<Op>)
    ensures t.history <= Run(t, ops).history
    decreases |ops|
  {
    if ops != [] {
      assert t.history <= Step(t, ops[0]).history;
      HistoryOnlyGrows(Step(t, ops[0]), ops[1..]);
    }
  }

  /**
   Whole runs: a task's history is attempts 1, 2, 3, ... in order, and only the newest attempt may still be ACTIVE.
   */
  lemma AttemptsInOrder(ops: seq<Op>, taskId: string)
    ensures var t := Run(FRESH, ops);
            var hs := HistoryOf(t.history, taskId);
            && (forall i | 0 <= i < |hs| :: hs[i].number == i + 1 && hs[i].status != ACTIVE)
            && (taskId in t.active ==> t.active[taskId].number == |hs| + if t.active[taskId].status == ACTIVE then 1
                else 0)
            && (taskId !in t.active ==> hs == [])
  {
    assert Valid(FRESH) by { forall k ensures TaskOk(FRESH, k) {} }
    RunKeepsValid(FRESH, ops);
    assert TaskOk(Run(FRESH, ops), taskId);
  }

  /** A dispatch that cannot complete now: superseded, or over. */
  predicate Dead(t: Tracker, taskId: string, dispatchId: string) {
    ActiveDispatch(t, taskId, dispatchId).Err?
  }

  predicate Reissues(op: Op, taskId: string, dispatchId: string) {
    op.DoStart? && op.taskId == taskId && op.dispatchId == dispatchId
  }

  /**
   A stale dispatch stays stale: it can complete again if and only if its very id is handed out for the task once
   more.
   */
  lemma StaleRevivedIffReissued(t: Tracker, op: Op, taskId: string, dispatchId: string)
    requires Dead(t, taskId, dispatchId)
    ensures Dead(Step(t, op), taskId, dispatchId) <==> !Reissues(op, taskId, dispatchId)
  {}

  lemma {:induction false} StaleNeverCompletes(t: Tracker, ops: seq<Op>, taskId: string, dispatchId: string,
                                               success: bool)
    requires Dead(t, taskId, dispatchId)
    requires forall i | 0 <= i < |ops| :: !Reissues(ops[i], taskId, dispatchId)
    ensures Complete(Run(t, ops), taskId, dispatchId, success).Err?
    decreases |ops|
  {
    if ops != [] {
      StaleRevivedIffReissued(t, ops[0], taskId, dispatchId);
      StaleNeverCompletes(Step(t, ops[0]), ops[1..], taskId, dispatchId, success);
    }
  }

  /** Completing once, or starting a newer attempt, is what makes a dispatch stale. */
  lemma CompletionAndSupersessionKill(t: Tracker, op: Op, taskId: string, dispatchId: string)
    requires ActiveDispatch(t, taskId, dispatchId).Ok?
    ensures Dead(Step(t, op), taskId, dispatchId)
            <==> op.taskId == taskId && if op.DoComplete? then op.dispatchId == dispatchId
              else op.dispatchId != dispatchId
  {}

  class DispatchIdempotencyTracker {
    var activeAttempts: map<string, Attempt>
    var history: seq<Attempt>

    function View(): Tracker
      reads this
    {
      Tracker(activeAttempts, history)
    }

    constructor ()
      ensures View() == FRESH && Valid(View())
    {
      activeAttempts, history := map[], [];
      new;
      forall k ensures TaskOk(View(), k) {}
    }

    method StartDispatch(dispatchId: string, taskId: string, runId: string, treeSha: string, policy: string)
      returns (attempt: Attempt)
      requires Valid(View())
      modifies this
      ensures (View(), attempt) == Start(old(View()), dispatchId, taskId, runId, treeSha, policy)
      ensures Valid(View()) && ActiveDispatch(View(), taskId, dispatchId) == Ok(attempt)
    {
      StepKeepsValid(View(), DoStart(dispatchId, taskId, runId, treeSha, policy));
      var number := 1;
      if taskId in activeAttempts {
        var prior := activeAttempts[taskId];
        number := prior.number + 1;
        if prior.status == ACTIVE {
          history := history + [prior.(status := SUPERSEDED)];
        }
      }
      attempt := Attempt(dispatchId, taskId, runId, number, treeSha, policy, ACTIVE);
      activeAttempts := activeAttempts[taskId := attempt];
    }

    method CompleteDispatch(taskId: string, dispatchId: string, success: bool) returns (r: Result<Attempt, Refusal>)
      requires Valid(View())
      modifies this
      ensures match Complete(old(View()), taskId, dispatchId, success)
              case Ok((t, attempt)) => View() == t && r == Ok(attempt)
              case Err(e) => View() == old(View()) && r == Err(e)
      ensures Valid(View())
    {
      StepKeepsValid(View(), DoComplete(taskId, dispatchId, success));
      var active := ActiveDispatch(View(), taskId, dispatchId);
      if active.Err? {
        return Err(active.error);
      }
      var completed := active.value.(status := if success then COMPLETED else FAILED);
      activeAttempts := activeAttempts[taskId := completed];
      history := history + [completed];
      r := Ok(completed);
    }
  }
}
