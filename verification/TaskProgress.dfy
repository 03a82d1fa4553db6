/** A run of the coordinator that takes a FROZEN task to VERIFIED, from any state in which it may be dispatched. */
module TaskProgress {
  import opened Prelude
  import opened Contracts
  import opened Registry
  import opened Engine
  import opened Qa
  import opened Coordinator
  import opened DependencyClosure
  import Budget

  /** One principal for each of the four roles a verification needs. */
  datatype Crew = Crew(pm: Principal, developer: Principal, executor: Principal, qa: Principal)

  predicate Staffed(members: Members, crew: Crew) {
    && Holds(members, crew.pm, PM) && Holds(members, crew.developer, DEVELOPER)
    && Holds(members, crew.executor, EXECUTOR) && Holds(members, crew.qa, QA)
  }

  /** The identifiers the run draws. */
  datatype Ids = Ids(dispatchId: string, receiptId: string, evidenceId: string, verdictId: string)

  function All(ids: Ids): set<string> {
    {ids.dispatchId, ids.receiptId, ids.evidenceId, ids.verdictId}
  }

  predicate Fresh(w: World, ids: Ids) {
    && "" !in All(ids) && ids.dispatchId !in w.ids && ids.receiptId !in w.ids + {ids.dispatchId}
    && ids.evidenceId !in w.ids + {ids.dispatchId, ids.receiptId}
    && ids.verdictId !in w.ids + {ids.dispatchId, ids.receiptId, ids.evidenceId}
  }

  predicate MayDispatch(c: Coord, k: string, pm: Principal, key: string)
    requires Shaped(c)
  {
    && Holds(c.members, pm, PM) && k in c.tasks && c.tasks[k].state == FROZEN && DependenciesVerified(c, k)
    && key != "" && key !in c.tasks[k].usedKeys && |c.budget.reservations| < c.budget.maxWorkers
  }

  function BeginOp(k: string, pm: Principal, key: string, id: string): Op {
    DoBegin(k, pm, key, 0, 0, id)
  }

  /** The submission a developer's own evidence allows: every frozen criterion, the frozen tests, the task's tree. */
  function FullSubmission(c: Coord, k: string, evidence: Evidence): Submission
    requires k in c.tasks
  {
    Submission([evidence], c.tasks[k].task.criteria, c.testHashes, c.tasks[k].task.treeSha, true, false)
  }

  function ReviewOp(c: Coord, k: string, qa: Principal, ids: Ids): Op
    requires k in c.tasks
  {
    var evidence := Evidence(ids.evidenceId, ids.receiptId, k, ids.dispatchId, c.tasks[k].task.treeSha);
    DoReview(qa, k, FullSubmission(c, k, evidence), 0, ids.verdictId)
  }

  function ReportOps(k: string, crew: Crew, key: string, id: string, tree: string, rest: seq<Op>): seq<Op> {
    [BeginOp(k, crew.pm, key, id)] + ([DoReport(crew.developer, k, id, tree)] + rest)
  }

  function EvidenceOps(k: string, executor: Principal, ids: Ids, tree: string, rest: seq<Op>): seq<Op> {
    [DoIssue(executor, k, ids.dispatchId, tree, 0, ids.receiptId)]
    + ([DoEvidence(ids.receiptId, k, ids.dispatchId, tree, ids.evidenceId)] + rest)
  }

  /** Dispatch, report, receipt, evidence, review. */
  function VerifyOps(c: Coord, k: string, crew: Crew, key: string, ids: Ids): seq<Op>
    requires k in c.tasks
  {
    var tree := c.tasks[k].task.treeSha;
    ReportOps(k, crew, key, ids.dispatchId, tree,
              EvidenceOps(k, crew.executor, ids, tree, [ReviewOp(c, k, crew.qa, ids)]))
  }

  // What each of the calls makes of the state.

  function Begun(a: Aggregate, key: string, id: string): Aggregate {
    a.(usedKeys := a.usedKeys + {key}, attempt := a.attempt + 1, state := DISPATCHED,
       active := Some(Dispatch(id, a.task.taskId, a.attempt + 1, key, a.task.treeSha, a.task.policy)))
  }

  function WithSlot(b: Budget.Ledger, id: string): Budget.Ledger {
    b.(reservations := b.reservations[id := Budget.Reservation(0, 0)])
  }

  function Dispatched(w: World, k: string, key: string, id: string): World
    requires k in w.c.tasks
  {
    World(w.c.(tasks := w.c.tasks[k := Begun(w.c.tasks[k], key, id)], budget := WithSlot(w.c.budget, id),
               activeIds := w.c.activeIds[k := id]), w.ids + {id})
  }

  lemma Admission(c: Coord, k: string, pm: Principal, key: string, id: string)
    requires Shaped(c) && MayDispatch(c, k, pm, key) && Budget.Sound(c.budget) && id != ""
             && id !in c.budget.reservations
    ensures var (c', r) := Begin(c, k, pm, key, 0, 0, id);
            && r.Ok?
            && c' == c.(tasks := c.tasks[k := Begun(c.tasks[k], key, id)], budget := WithSlot(c.budget, id),
                        activeIds := c.activeIds[k := id])
  {}

  lemma NoSlotYet(w: World, k: string, id: string)
    requires Inv(w) && k in w.c.tasks && w.c.tasks[k].state == FROZEN && id !in w.ids
    ensures k !in w.c.activeIds && id !in w.c.budget.reservations && w.c.tasks[k].task.taskId == k && k in w.c.fixRounds
  {
    FrozenHoldsNoSlot(w.c, k);
  }

  lemma BeginStep(w: World, k: string, pm: Principal, key: string, id: string)
    requires Inv(w) && MayDispatch(w.c, k, pm, key) && id != "" && id !in w.ids
    ensures Step(w, BeginOp(k, pm, key, id)) == Dispatched(w, k, key, id) && Admits(w, BeginOp(k, pm, key, id))
  {
    NoSlotYet(w, k, id);
    Admission(w.c, k, pm, key, id);
  }

  lemma ReportedStep(w: World, k: string, developer: Principal, id: string)
    requires Shaped(w.c) && k in w.c.tasks && Holds(w.c.members, developer, DEVELOPER)
    requires w.c.tasks[k].state == DISPATCHED && IsCurrent(w.c.tasks[k], id, w.c.tasks[k].task.treeSha)
    ensures Step(w, DoReport(developer, k, id, w.c.tasks[k].task.treeSha))
            == w.(c := w.c.(tasks := w.c.tasks[k := w.c.tasks[k].(state := PROCESS_SUCCEEDED)]))
  {}

  lemma IssuedStep(w: World, k: string, executor: Principal, id: string, tree: string, receiptId: string)
    requires Shaped(w.c) && Holds(w.c.members, executor, EXECUTOR) && k != "" && id != "" && tree != ""
    requires receiptId != "" && receiptId !in w.ids
    ensures var receipt := Receipt(receiptId, executor.principalId, k, id, tree, 0);
            Step(w, DoIssue(executor, k, id, tree, 0, receiptId))
            == World(w.c.(records := w.c.records.(receipts := w.c.records.receipts[receiptId := receipt])),
                     w.ids + {receiptId})
  {}

  lemma EvidenceStep(w: World, k: string, id: string, tree: string, receiptId: string, evidenceId: string)
    requires Shaped(w.c) && evidenceId != "" && evidenceId !in w.ids && receiptId in w.c.records.receipts
    requires ReceiptBinds(w.c.records.receipts[receiptId], k, id, tree) && w.c.records.receipts[receiptId].exitCode == 0
    ensures var evidence := Evidence(evidenceId, receiptId, k, id, tree);
            Step(w, DoEvidence(receiptId, k, id, tree, evidenceId))
            == World(w.c.(records := w.c.records.(evidence := w.c.records.evidence[evidenceId := evidence])),
                     w.ids + {evidenceId})
  {}

  predicate ReviewPasses(c: Coord, k: string, qa: Principal, evidence: Evidence) {
    && k in c.tasks && k in c.fixRounds && Holds(c.members, qa, QA)
    && c.tasks[k].state == PROCESS_SUCCEEDED && c.tasks[k].active.Some? && c.fixRounds[k] < 3
      && c.tasks[k].task.treeSha != ""
    && EvidenceOk(c.records, evidence, k, c.tasks[k].active.value.dispatchId, c.tasks[k].task.treeSha)
  }

  /** A review with the frozen criteria covered and one item of standing evidence passes. */
  lemma GatePasses(c: Coord, k: string, qa: Principal, evidence: Evidence, verdictId: string)
    requires ReviewPasses(c, k, qa, evidence)
    ensures var (rec, decision, verdict) := Gate(c, qa, k, FullSubmission(c, k, evidence), c.fixRounds[k], verdictId);
            && verdict.Some? && decision.status == QaPassed
            && rec == c.records.(verdicts := c.records.verdicts[verdictId := verdict.value])
  {}

  lemma ReviewVerifies(w: World, k: string, qa: Principal, evidence: Evidence, verdictId: string)
    requires Inv(w) && ReviewPasses(w.c, k, qa, evidence) && verdictId !in w.ids
    ensures var c', rec := QaReview(w.c, qa, k, FullSubmission(w.c, k, evidence), 0, verdictId).0,
                           Gate(w.c, qa, k, FullSubmission(w.c, k, evidence), w.c.fixRounds[k], verdictId).0;
            && verdictId in rec.verdicts
            && c' == ReleaseActive(w.c.(records := rec,
                                        tasks := w.c.tasks[k := Passed(w.c.tasks[k], rec.verdicts[verdictId])]), k)
  {
    GatePasses(w.c, k, qa, evidence, verdictId);
    PassedReviewFinalizes(w, qa, k, FullSubmission(w.c, k, evidence), w.c.fixRounds[k], verdictId);
  }

  // ---------------------------------------------------------------- the whole run

  lemma RunFirst(w: World, op: Op, ops: seq<Op>)
    requires Inv(w)
    ensures Inv(Step(w, op)) && Run(w, [op] + ops) == Run(Step(w, op), ops)
  {
    StepKeepsInv(w, op);
    assert ([op] + ops)[1..] == ops;
  }

  /** The world once the task's process has reported. */
  function Reported(w: World, k: string, key: string, id: string): World
    requires k in w.c.tasks
  {
    World(w.c.(tasks := w.c.tasks[k := Begun(w.c.tasks[k], key, id).(state := PROCESS_SUCCEEDED)],
               budget := WithSlot(w.c.budget, id), activeIds := w.c.activeIds[k := id]), w.ids + {id})
  }

  /** And once a receipt and evidence for it are registered. */
  function Evidenced(w: World, k: string, executor: Principal, ids: Ids, tree: string): World {
    var receipt := Receipt(ids.receiptId, executor.principalId, k, ids.dispatchId, tree, 0);
    var evidence := Evidence(ids.evidenceId, ids.receiptId, k, ids.dispatchId, tree);
    World(w.c.(records := w.c.records.(receipts := w.c.records.receipts[ids.receiptId := receipt],
                                       evidence := w.c.records.evidence[ids.evidenceId := evidence])),
          w.ids + {ids.receiptId} + {ids.evidenceId})
  }

  ghost predicate MayVerify(w: World, k: string, crew: Crew, key: string, ids: Ids)
    requires Inv(w)
  {
    && Staffed(w.c.members, crew) && MayDispatch(w.c, k, crew.pm, key) && Fresh(w, ids)
    && k != "" && w.c.tasks[k].task.treeSha != "" && w.c.fixRounds[k] < 3
  }

  lemma ReportAfterBegin(w: World, k: string, developer: Principal, key: string, id: string)
    requires k in w.c.tasks && Shaped(Dispatched(w, k, key, id).c) && Holds(w.c.members, developer, DEVELOPER)
    ensures Step(Dispatched(w, k, key, id), DoReport(developer, k, id, w.c.tasks[k].task.treeSha))
            == Reported(w, k, key, id)
  {
    var begun := Dispatched(w, k, key, id);
    ReportedStep(begun, k, developer, id);
    assert begun.c.tasks[k := begun.c.tasks[k].(state := PROCESS_SUCCEEDED)] == Reported(w, k, key, id).c.tasks;
  }

  lemma ToReported(w: World, k: string, crew: Crew, key: string, id: string, ops: seq<Op>)
    requires Inv(w) && MayDispatch(w.c, k, crew.pm, key) && Staffed(w.c.members, crew) && id != "" && id !in w.ids
    ensures Inv(Reported(w, k, key, id))
    ensures Run(w, ReportOps(k, crew, key, id, w.c.tasks[k].task.treeSha, ops)) == Run(Reported(w, k, key, id), ops)
  {
    var report := DoReport(crew.developer, k, id, w.c.tasks[k].task.treeSha);
    RunFirst(w, BeginOp(k, crew.pm, key, id), [report] + ops);
    BeginStep(w, k, crew.pm, key, id);
    RunFirst(Dispatched(w, k, key, id), report, ops);
    ReportAfterBegin(w, k, crew.developer, key, id);
  }

  lemma ToEvidenced(w: World, k: string, executor: Principal, ids: Ids, tree: string, ops: seq<Op>)
    requires Inv(w) && Holds(w.c.members, executor, EXECUTOR) && k != "" && ids.dispatchId != "" && tree != ""
    requires ids.receiptId != "" && ids.evidenceId != "" && ids.receiptId !in w.ids
             && ids.evidenceId !in w.ids + {ids.receiptId}
    ensures Inv(Evidenced(w, k, executor, ids, tree))
    ensures Run(w, EvidenceOps(k, executor, ids, tree, ops)) == Run(Evidenced(w, k, executor, ids, tree), ops)
  {
    var issue := DoIssue(executor, k, ids.dispatchId, tree, 0, ids.receiptId);
    var evidence := DoEvidence(ids.receiptId, k, ids.dispatchId, tree, ids.evidenceId);
    RunFirst(w, issue, [evidence] + ops);
    IssuedStep(w, k, executor, ids.dispatchId, tree, ids.receiptId);
    RunFirst(Step(w, issue), evidence, ops);
    EvidenceStep(Step(w, issue), k, ids.dispatchId, tree, ids.receiptId, ids.evidenceId);
  }

  /** What taking one task to VERIFIED leaves behind: that task, the records, and the identifiers drawn. */
  ghost predicate OnlyVerified(w: World, w': World, k: string, key: string, ids: Ids)
    requires k in w.c.tasks
  {
    && w'.ids == w.ids + All(ids) && k in w'.c.tasks
    && w'.c == w.c.(tasks := w.c.tasks[k := w'.c.tasks[k]], records := w'.c.records)
    && w'.c.tasks[k].state == VERIFIED && w'.c.tasks[k].task == w.c.tasks[k].task
    && w'.c.tasks[k].verifiedTree == Some(w.c.tasks[k].task.treeSha)
    && w'.c.tasks[k].usedKeys == w.c.tasks[k].usedKeys + {key}
  }

  /** Giving the slot back restores the budget and the active dispatches. */
  lemma ReleaseUndoesSlot(c: Coord, k: string, id: string, tasks: map<string, Aggregate>, rec: Records)
    requires k !in c.activeIds && id !in c.budget.reservations
    ensures ReleaseActive(c.(tasks := tasks, records := rec, budget := WithSlot(c.budget, id),
                             activeIds := c.activeIds[k := id]), k)
            == c.(tasks := tasks, records := rec)
  {
    assert c.activeIds[k := id] - {k} == c.activeIds;
    assert WithSlot(c.budget, id).reservations - {id} == c.budget.reservations;
  }

  /** What the review finds: the reported task, its slot, and evidence of a passing receipt. */
  lemma EvidencePasses(w: World, k: string, crew: Crew, key: string, ids: Ids)
    requires k in w.c.tasks && k in w.c.fixRounds && Holds(w.c.members, crew.qa, QA) && w.c.fixRounds[k] < 3
    requires w.c.tasks[k].task.treeSha != "" && w.c.tasks[k].task.taskId == k
    ensures var tree, r := w.c.tasks[k].task.treeSha, Reported(w, k, key, ids.dispatchId);
            ReviewPasses(Evidenced(r, k, crew.executor, ids, tree).c, k, crew.qa,
                         Evidence(ids.evidenceId, ids.receiptId, k, ids.dispatchId, tree))
  {}

  lemma ReviewStep(w: World, k: string, qa: Principal, s: Submission, verdictId: string)
    requires Shaped(w.c) && verdictId != "" && verdictId !in w.ids
    ensures Step(w, DoReview(qa, k, s, 0, verdictId)) == World(QaReview(w.c, qa, k, s, 0, verdictId).0,
                                                               w.ids + {verdictId})
  {}

  lemma VerifiedAfterRelease(w: World, k: string, key: string, crew: Crew, ids: Ids, rec: Records, verdict: Verdict)
    requires k in w.c.tasks && k !in w.c.activeIds && ids.dispatchId !in w.c.budget.reservations
    ensures var e := Evidenced(Reported(w, k, key, ids.dispatchId), k, crew.executor, ids, w.c.tasks[k].task.treeSha);
            var c' := ReleaseActive(e.c.(records := rec, tasks := e.c.tasks[k := Passed(e.c.tasks[k], verdict)]), k);
            OnlyVerified(w, World(c', e.ids + {ids.verdictId}), k, key, ids)
  {
    var e := Evidenced(Reported(w, k, key, ids.dispatchId), k, crew.executor, ids, w.c.tasks[k].task.treeSha);
    var tasks := e.c.tasks[k := Passed(e.c.tasks[k], verdict)];
    ReleaseUndoesSlot(w.c, k, ids.dispatchId, tasks, rec);
    assert tasks == w.c.tasks[k := tasks[k]];
  }

  lemma ToVerified(w: World, e: World, k: string, key: string, crew: Crew, ids: Ids)
    requires k in w.c.tasks && k in w.c.fixRounds && k !in w.c.activeIds && ids.dispatchId !in w.c.budget.reservations
    requires w.c.tasks[k].task.taskId == k && w.c.tasks[k].task.treeSha != ""
    requires Holds(w.c.members, crew.qa, QA) && w.c.fixRounds[k] < 3
    requires Inv(e) && ids.verdictId !in e.ids && ids.verdictId != ""
    requires e == Evidenced(Reported(w, k, key, ids.dispatchId), k, crew.executor, ids, w.c.tasks[k].task.treeSha)
    ensures OnlyVerified(w, Step(e, ReviewOp(w.c, k, crew.qa, ids)), k, key, ids)
  {
    var evidence := Evidence(ids.evidenceId, ids.receiptId, k, ids.dispatchId, w.c.tasks[k].task.treeSha);
    EvidencePasses(w, k, crew, key, ids);
    ReviewVerifies(e, k, crew.qa, evidence, ids.verdictId);
    ReviewStep(e, k, crew.qa, FullSubmission(e.c, k, evidence), ids.verdictId);
    var rec := Gate(e.c, crew.qa, k, FullSubmission(e.c, k, evidence), e.c.fixRounds[k], ids.verdictId).0;
    VerifiedAfterRelease(w, k, key, crew, ids, rec, rec.verdicts[ids.verdictId]);
  }

  lemma IdsStayFresh(w: World, k: string, key: string, executor: Principal, ids: Ids, tree: string)
    requires Fresh(w, ids) && k in w.c.tasks
    ensures var r := Reported(w, k, key, ids.dispatchId);
            && ids.receiptId !in r.ids && ids.evidenceId !in r.ids + {ids.receiptId}
            && ids.verdictId !in Evidenced(r, k, executor, ids, tree).ids
    ensures ids.dispatchId != "" && ids.receiptId != "" && ids.evidenceId != "" && ids.verdictId != ""
  {}

  lemma ReachesEvidence(w: World, k: string, crew: Crew, key: string, ids: Ids)
    requires Inv(w) && MayVerify(w, k, crew, key, ids)
    ensures var e := Evidenced(Reported(w, k, key, ids.dispatchId), k, crew.executor, ids, w.c.tasks[k].task.treeSha);
            Inv(e) && Run(w, VerifyOps(w.c, k, crew, key, ids)) == Run(e, [ReviewOp(w.c, k, crew.qa, ids)])
  {
    var tree, r := w.c.tasks[k].task.treeSha, Reported(w, k, key, ids.dispatchId);
    var review := [ReviewOp(w.c, k, crew.qa, ids)];
    IdsStayFresh(w, k, key, crew.executor, ids, tree);
    ToReported(w, k, crew, key, ids.dispatchId, EvidenceOps(k, crew.executor, ids, tree, review));
    ToEvidenced(r, k, crew.executor, ids, tree, review);
  }

  lemma RunOne(w: World, op: Op)
    requires Inv(w)
    ensures Run(w, [op]) == Step(w, op)
  {
    RunFirst(w, op, []);
    assert [op] + [] == [op];
  }

  /**
   Progress: a FROZEN task on verified dependencies can be taken to VERIFIED whenever a slot is free,
   whatever else is going on, and doing so leaves every other task, the budget and the slots as they were.
   */
  lemma FrozenTaskCanBeVerified(w: World, k: string, crew: Crew, key: string, ids: Ids)
    requires Inv(w) && MayVerify(w, k, crew, key, ids)
    ensures OnlyVerified(w, Run(w, VerifyOps(w.c, k, crew, key, ids)), k, key, ids)
  {
    var e := Evidenced(Reported(w, k, key, ids.dispatchId), k, crew.executor, ids, w.c.tasks[k].task.treeSha);
    ReachesEvidence(w, k, crew, key, ids);
    RunOne(e, ReviewOp(w.c, k, crew.qa, ids));
    NoSlotYet(w, k, ids.dispatchId);
    IdsStayFresh(w, k, key, crew.executor, ids, w.c.tasks[k].task.treeSha);
    ToVerified(w, e, k, key, crew, ids);
  }
}
