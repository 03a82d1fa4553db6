/**
 The supervised coordinator of team/coordinator.py on values: five state machines (tasks,
 identities and receipts, QA gate, budget, fix rounds) stepping together.
 */
module Coordinator {
  import opened Prelude
  import opened Contracts
  import opened Registry
  import opened Engine
  import opened Qa
  import Budget
  import TaskDag

  datatype Coord = Coord(dependencies: map<string, seq<string>>, tasks: map<string, Aggregate>,
                         activeIds: map<string, string>, fixRounds: map<string, nat>, budget: Budget.Ledger,
                         records: Records, members: Members, testHashes: map<string, string>)

  datatype Plan = Plan(taskId: string, dispatchId: string, policy: string, treeSha: string)

  /** Every dependency of a coordinator is one of its tasks: the DAG validator's doing. */
  predicate Shaped(c: Coord) {
    && c.tasks.Keys == c.dependencies.Keys == c.fixRounds.Keys
    && TaskDag.Closed(c.dependencies)
    && forall k | k in c.tasks :: c.tasks[k].task.taskId == k
  }

  /** Pops the task's reservation and releases it; a refused release is swallowed. */
  function ReleaseActive(c: Coord, taskId: string): Coord {
    if taskId !in c.activeIds then c
    else
      var released := Budget.Release(c.budget, c.activeIds[taskId], 0, 0);
      c.(activeIds := c.activeIds - {taskId}, budget := if released.Ok? then released.value else c.budget)
  }

  function FreezeTask(c: Coord, taskId: string, pm: Principal): Result<Coord, Fault> {
    if !Holds(c.members, pm, PM) then Err(NotAuthorized)
    else if taskId !in c.tasks then Err(UnknownKey)
    else
      match Freeze(c.tasks[taskId], c.members, pm)
      case Ok(a) => Ok(c.(tasks := c.tasks[taskId := a]))
      case Err(e) => Err(e)
  }

  predicate DependenciesVerified(c: Coord, taskId: string)
    requires Shaped(c) && taskId in c.tasks
  {
    forall d | d in c.dependencies[taskId] :: c.tasks[d].state == VERIFIED
  }

  /** A refused reservation leaves the task in RECOVERY_REQUIRED: the consumed key cannot be given back. */
  function Admit(c: Coord, taskId: string, pm: Principal, key: string, tokens: int, cost: int, freshId: string)
    : (Coord, Result<Plan, Fault>)
    requires taskId in c.tasks
  {
    match StartDispatch(c.tasks[taskId], c.members, pm, key, freshId)
    case Err(e) => (c, Err(e))
    case Ok(started) =>
      match Budget.Reserve(c.budget, freshId, tokens, cost)
      case Err(e) => (c.(tasks := c.tasks[taskId := RecoverUnknown(started)]), Err(e))
      case Ok(b) =>
        (c.(tasks := c.tasks[taskId := started], budget := b, activeIds := c.activeIds[taskId := freshId]),
         Ok(Plan(taskId, freshId, started.task.policy, started.task.treeSha)))
  }

  function Begin(c: Coord, taskId: string, pm: Principal, key: string, tokens: int, cost: int, freshId: string)
    : (Coord, Result<Plan, Fault>)
    requires Shaped(c)
  {
    if !Holds(c.members, pm, PM) then (c, Err(NotAuthorized))
    else if taskId !in c.tasks then (c, Err(UnknownKey))
    else if c.tasks[taskId].state != FROZEN || !DependenciesVerified(c, taskId) then (c, Err(InvalidTransition))
    else if tokens < 0 || cost < 0 then (c, Err(InvalidValue))
    else if key == "" then (c, Err(InvalidTransition))
    else if |c.budget.reservations| >= c.budget.maxWorkers || tokens > c.budget.tokens || cost > c.budget.cost then
      (c, Err(BudgetExceeded))
    else Admit(c, taskId, pm, key, tokens, cost, freshId)
  }

  function ReportSucceeded(c: Coord, developer: Principal, taskId: string, dispatchId: string, treeSha: string)
    : Result<Coord, Fault>
  {
    if !Holds(c.members, developer, DEVELOPER) then Err(NotAuthorized)
    else if taskId !in c.tasks then Err(UnknownKey)
    else
      match ProcessSucceeded(c.tasks[taskId], dispatchId, treeSha)
      case Ok(a) => Ok(c.(tasks := c.tasks[taskId := a]))
      case Err(e) => Err(e)
  }

  /** Starting a task neither adds nor renames one. */
  lemma BeginKeepsShape(c: Coord, taskId: string, pm: Principal, key: string, tokens: int, cost: int, freshId: string)
    requires Shaped(c)
    ensures Shaped(Begin(c, taskId, pm, key, tokens, cost, freshId).0)
  {}

  function BlockAndRelease(c: Coord, taskId: string): Coord
    requires taskId in c.tasks
  {
    ReleaseActive(c.(tasks := c.tasks[taskId := Block(c.tasks[taskId])]), taskId)
  }

  const EXHAUSTED := Decision(HumanRequired, RoundsExhausted)

  /** The caller may raise the round it reviews in, never lower it. */
  function CurrentRound(c: Coord, taskId: string, claimed: int): nat
    requires taskId in c.fixRounds
  {
    if claimed > c.fixRounds[taskId] then claimed else c.fixRounds[taskId]
  }

  /** The gate passed: both finalizing transitions, then the slot is given back without a refund. */
  function Accept(judged: Coord, qa: Principal, taskId: string, verdict: Verdict, decision: Decision)
    : (Coord, Result<Decision, Fault>)
    requires taskId in judged.tasks
  {
    match QaVerified(judged.tasks[taskId], judged.members, judged.records, qa, verdict)
    case Err(e) => (judged, Err(e))
    case Ok(accepted) =>
      match MarkVerified(accepted, judged.members, qa)
      case Err(e) => (judged.(tasks := judged.tasks[taskId := accepted]), Err(e))
      case Ok(final) => (ReleaseActive(judged.(tasks := judged.tasks[taskId := final]), taskId), Ok(decision))
  }

  /** The gate objected: one more fix round, and the third blocks the task. */
  function Reject(judged: Coord, taskId: string, round: nat, decision: Decision): (Coord, Result<Decision, Fault>)
    requires taskId in judged.tasks
  {
    var counted := judged.(fixRounds := judged.fixRounds[taskId := round + 1]);
    if round + 1 >= 3 then (BlockAndRelease(counted, taskId), Ok(EXHAUSTED)) else (counted, Ok(decision))
  }

  function Gate(c: Coord, qa: Principal, taskId: string, s: Submission, round: nat, freshId: string)
    : (Records, Decision, Option<Verdict>)
    requires taskId in c.tasks && c.tasks[taskId].active.Some?
  {
    var a := c.tasks[taskId];
    Check(c.records, c.members, a.task.criteria, c.testHashes, qa, s, taskId, a.active.value.dispatchId, a.task.treeSha,
          round, freshId)
  }

  function Judge(c: Coord, qa: Principal, taskId: string, s: Submission, round: nat, freshId: string)
    : (Coord, Result<Decision, Fault>)
    requires taskId in c.tasks && c.tasks[taskId].active.Some?
  {
    var (rec, decision, verdict) := Gate(c, qa, taskId, s, round, freshId);
    if verdict.Some? && decision.status == QaPassed then
      Accept(c.(records := rec), qa, taskId, verdict.value, decision)
    else Reject(c.(records := rec), taskId, round, decision)
  }

  function QaReview(c: Coord, qa: Principal, taskId: string, s: Submission, claimedRound: int, freshId: string)
    : (Coord, Result<Decision, Fault>)
    requires Shaped(c)
  {
    if !Holds(c.members, qa, QA) then (c, Err(NotAuthorized))
    else if taskId !in c.tasks then (c, Err(UnknownKey))
    else if c.tasks[taskId].state != PROCESS_SUCCEEDED || c.tasks[taskId].active.None? then (c, Err(InvalidTransition))
    else
      var round := CurrentRound(c, taskId, claimedRound);
      if round >= 3 then (BlockAndRelease(c, taskId), Ok(EXHAUSTED))
      else Judge(c, qa, taskId, s, round, freshId)
  }

  function ReconcileRecovery(c: Coord, taskId: string, pm: Principal, newTree: Option<string>): Result<Coord, Fault> {
    if !Holds(c.members, pm, PM) then Err(NotAuthorized)
    else if taskId !in c.tasks then Err(UnknownKey)
    else
      match Reconcile(c.tasks[taskId], c.members, pm, newTree)
      case Err(e) => Err(e)
      case Ok(a) =>
        var released := ReleaseActive(c, taskId);
        Ok(released.(tasks := released.tasks[taskId := a]))
  }

  /** What a tree change makes of one task: active dispatches are stranded, not forgotten. */
  function Moved(a: Aggregate, tree: string): Aggregate
    requires tree != ""
  {
    if a.task.treeSha == tree then a
    else if a.state in {DISPATCHED, PROCESS_SUCCEEDED} then RecoverUnknown(a)
    else if a.state == RECOVERY_REQUIRED then a
    else if a.state == CREATED then a.(task := a.task.(treeSha := tree))
    else ChangeTree(a, tree).value
  }

  function UpdateTree(c: Coord, tree: string): Result<Coord, Fault> {
    if tree == "" then Err(InvalidValue)
    else Ok(c.(tasks := map k | k in c.tasks :: Moved(c.tasks[k], tree)))
  }

  // ---------------------------------------------------------------- runs

  /** `ids` are the identifiers drawn so far; the generator never repeats one. */
  datatype World = World(c: Coord, ids: set<string>)

  datatype Op =
    | Register(principalId: string, role: Role, secret: nat)
    | DoIssue(executor: Principal, taskId: string, dispatchId: string, treeSha: string, exitCode: int, freshId: string)
    | DoEvidence(receiptId: string, taskId: string, dispatchId: string, treeSha: string, freshId: string)
    | DoVerdict(qa: Principal, evidence: seq<Evidence>, taskId: string, dispatchId: string, treeSha: string,
                accepted: bool, freshId: string)
    | DoFreeze(taskId: string, pm: Principal)
    | DoBegin(taskId: string, pm: Principal, key: string, tokens: int, cost: int, freshId: string)
    | DoRelease(taskId: string)
    | DoReport(developer: Principal, taskId: string, dispatchId: string, treeSha: string)
    | DoReview(qa: Principal, taskId: string, submission: Submission, claimedRound: int, freshId: string)
    | DoReconcile(taskId: string, pm: Principal, newTree: Option<string>)
    | DoUpdateTree(tree: string)

  predicate Draws(op: Op) {
    op.DoIssue? || op.DoEvidence? || op.DoVerdict? || op.DoBegin? || op.DoReview?
  }

  function Or(r: Result<Coord, Fault>, c: Coord): Coord {
    if r.Ok? then r.value else c
  }

  function RecordsAfter<T>(r: Result<(Records, T), Fault>, rec: Records): Records {
    if r.Ok? then r.value.0 else rec
  }

  function Effect(c: Coord, op: Op): Coord
    requires Shaped(c)
  {
    match op
    case Register(principalId, role, secret) =>
      if principalId == "" || principalId in c.members then c
        else c.(members := c.members[principalId := (role, secret)])
    case DoIssue(executor, taskId, dispatchId, treeSha, exitCode, freshId) =>
      c.(records := RecordsAfter(Issue(c.records, c.members, executor, taskId, dispatchId, treeSha, exitCode, freshId),
                                 c.records))
    case DoEvidence(receiptId, taskId, dispatchId, treeSha, freshId) =>
      c.(records := RecordsAfter(CreateEvidence(c.records, receiptId, taskId, dispatchId, treeSha, freshId), c.records))
    case DoVerdict(qa, evidence, taskId, dispatchId, treeSha, accepted, freshId) =>
      c.(records := RecordsAfter(
           CreateVerdict(c.records, c.members, qa, evidence, taskId, dispatchId, treeSha, accepted, freshId),
             c.records))
    case DoFreeze(taskId, pm) => Or(FreezeTask(c, taskId, pm), c)
    case DoBegin(taskId, pm, key, tokens, cost, freshId) => Begin(c, taskId, pm, key, tokens, cost, freshId).0
    case DoRelease(taskId) => ReleaseActive(c, taskId)
    case DoReport(developer, taskId, dispatchId, treeSha) =>
      Or(ReportSucceeded(c, developer, taskId, dispatchId, treeSha), c)
    case DoReview(qa, taskId, submission, claimedRound, freshId) =>
      QaReview(c, qa, taskId, submission, claimedRound, freshId).0
    case DoReconcile(taskId, pm, newTree) => Or(ReconcileRecovery(c, taskId, pm, newTree), c)
    case DoUpdateTree(tree) => Or(UpdateTree(c, tree), c)
  }

  predicate Drawable(w: World, op: Op) {
    Draws(op) ==> op.freshId != "" && op.freshId !in w.ids
  }

  /** One call on the coordinator or its registries; an id that was drawn before cannot be drawn again. */
  ghost function Step(w: World, op: Op): World
    requires Shaped(w.c)
  {
    if !Drawable(w, op) then w
    else World(Effect(w.c, op), if Draws(op) then w.ids + {op.freshId} else w.ids)
  }

  // ---------------------------------------------------------------- what every reachable state keeps

  ghost predicate IsRole(members: Members, principalId: string, role: Role) {
    principalId in members && members[principalId].0 == role
  }

  /** Every receipt was issued by a registered executor. */
  ghost predicate ReceiptsIssued(c: Coord) {
    forall id | id in c.records.receipts :: IsRole(c.members, c.records.receipts[id].issuerId, EXECUTOR)
  }

  ghost predicate PassingReceipt(c: Coord, id: string, taskId: string, dispatchId: string, treeSha: string) {
    && id in c.records.receipts
    && ReceiptBinds(c.records.receipts[id], taskId, dispatchId, treeSha)
    && c.records.receipts[id].exitCode == 0
    && IsRole(c.members, c.records.receipts[id].issuerId, EXECUTOR)
  }

  ghost predicate VerdictSound(c: Coord, v: Verdict, taskId: string, dispatchId: string, treeSha: string) {
    && VerdictStands(c.records, v, taskId, dispatchId, treeSha)
    && IsRole(c.members, v.qaPrincipalId, QA)
    && forall id | id in v.receiptIds :: PassingReceipt(c, id, taskId, dispatchId, treeSha)
  }

  /** The provenance of a verified task. */
  ghost predicate SoundlyVerified(c: Coord, a: Aggregate) {
    && a.verifiedTree == Some(a.task.treeSha) && a.active.Some? && a.verdict.Some?
    && VerdictSound(c, a.verdict.value, a.task.taskId, a.active.value.dispatchId, a.task.treeSha)
  }

  /** What holds of one task: verified only with provenance and rounds left, and never caught between QA and final. */
  ghost predicate TaskOk(c: Coord, k: string)
    requires Shaped(c) && k in c.tasks
  {
    && c.tasks[k].state != QA_VERIFIED
    && (c.tasks[k].state == VERIFIED ==> SoundlyVerified(c, c.tasks[k]) && c.fixRounds[k] < 3)
  }

  ghost predicate TasksOk(c: Coord)
    requires Shaped(c)
  {
    forall k | k in c.tasks :: TaskOk(c, k)
  }

  ghost predicate HoldsSlot(c: Coord, k: string) {
    && k in c.tasks && k in c.activeIds
    && c.tasks[k].state in {DISPATCHED, PROCESS_SUCCEEDED, RECOVERY_REQUIRED}
    && c.tasks[k].active.Some? && c.tasks[k].active.value.dispatchId == c.activeIds[k]
    && c.activeIds[k] in c.budget.reservations
  }

  ghost predicate Injective(m: map<string, string>) {
    forall j, k | j in m && k in m && m[j] == m[k] :: j == k
  }

  /** Each active dispatch holds a reservation of its own, and there are no more reservations than that. */
  ghost predicate SlotsOk(c: Coord) {
    && Budget.Sound(c.budget)
    && (forall k | k in c.activeIds :: HoldsSlot(c, k))
    && Injective(c.activeIds) && |c.activeIds| == |c.budget.reservations|
  }

  ghost predicate IdsDrawn(w: World) {
    && w.c.budget.reservations.Keys <= w.ids
    && w.c.records.receipts.Keys <= w.ids && w.c.records.evidence.Keys <= w.ids && w.c.records.verdicts.Keys <= w.ids
  }

  ghost predicate Inv(w: World) {
    Shaped(w.c) && ReceiptsIssued(w.c) && TasksOk(w.c) && SlotsOk(w.c) && IdsDrawn(w)
  }

  /** A newly built coordinator over an empty ledger and empty registries. */
  ghost predicate Initial(w: World) {
    && Shaped(w.c)
    && (forall k | k in w.c.tasks :: w.c.tasks[k] == NewAggregate(w.c.tasks[k].task) && w.c.fixRounds[k] == 0)
    && w.c.activeIds == map[] && Budget.Sound(w.c.budget) && w.c.budget.reservations == map[]
    && w.c.records == Records(map[], map[], map[])
  }

  lemma InitialInv(w: World)
    requires Initial(w)
    ensures Inv(w)
  {}

  // ---------------------------------------------------------------- pieces of the steps

  /** The registries only grow, and only under new ids. */
  ghost predicate Grows(c: Coord, c': Coord) {
    && (forall id | id in c.records.receipts ::
          id in c'.records.receipts && c'.records.receipts[id] == c.records.receipts[id])
    && (forall id | id in c.records.verdicts ::
          id in c'.records.verdicts && c'.records.verdicts[id] == c.records.verdicts[id])
    && (forall p | p in c.members :: p in c'.members && c'.members[p] == c.members[p])
  }

  lemma GrowthKeepsVerdict(c: Coord, c': Coord, a: Aggregate)
    requires Grows(c, c') && SoundlyVerified(c, a)
    ensures SoundlyVerified(c', a)
  {}

  /** Growth of the registries alone keeps everything. */
  lemma GrowthKeepsInv(w: World, w': World)
    requires Inv(w) && Grows(w.c, w'.c)
    requires w'.c == w.c.(records := w'.c.records, members := w'.c.members)
    requires ReceiptsIssued(w'.c) && IdsDrawn(w')
    ensures Inv(w')
  {
    forall k | k in w'.c.tasks ensures TaskOk(w'.c, k) {
      assert TaskOk(w.c, k);
      if w.c.tasks[k].state == VERIFIED { GrowthKeepsVerdict(w.c, w'.c, w.c.tasks[k]); }
    }
    forall k | k in w'.c.activeIds ensures HoldsSlot(w'.c, k) {
      assert HoldsSlot(w.c, k);
    }
  }

  /** New records under one fresh id, receipts by registered executors only. */
  ghost predicate Adds(c: Coord, rec: Records, freshId: string) {
    && Grows(c, c.(records := rec)) && ReceiptsIssued(c.(records := rec))
    && rec.receipts.Keys <= c.records.receipts.Keys + {freshId}
    && rec.evidence.Keys <= c.records.evidence.Keys + {freshId}
    && rec.verdicts.Keys <= c.records.verdicts.Keys + {freshId}
  }

  lemma RecordsKeepInv(w: World, rec: Records, freshId: string)
    requires Inv(w) && Adds(w.c, rec, freshId)
    ensures Inv(World(w.c.(records := rec), w.ids + {freshId}))
  {
    GrowthKeepsInv(w, World(w.c.(records := rec), w.ids + {freshId}));
  }

  /** Under the invariant the release never fails, and it frees exactly the task's own reservation. */
  lemma ReleaseSucceeds(c: Coord, taskId: string)
    requires SlotsOk(c) && taskId in c.activeIds
    ensures Budget.Release(c.budget, c.activeIds[taskId], 0, 0).Ok?
    ensures ReleaseActive(c, taskId).budget.reservations == c.budget.reservations - {c.activeIds[taskId]}
  {}

  /** A task may change state freely once it holds no slot. */
  lemma ReleaseKeepsSlots(c: Coord, taskId: string)
    requires SlotsOk(c)
    ensures SlotsOk(ReleaseActive(c, taskId))
    ensures taskId !in ReleaseActive(c, taskId).activeIds
    ensures ReleaseActive(c, taskId).budget.reservations.Keys <= c.budget.reservations.Keys
  {
    if taskId in c.activeIds {
      ReleaseSucceeds(c, taskId);
      var c', gone := ReleaseActive(c, taskId), c.activeIds[taskId];
      Budget.ApplyKeepsSound(c.budget, Budget.DoRelease(gone, 0, 0));
      forall k | k in c'.activeIds ensures HoldsSlot(c', k) {
        assert HoldsSlot(c, k);
        assert c.activeIds[k] != gone;
      }
      assert c'.activeIds.Keys == c.activeIds.Keys - {taskId};
      assert c'.budget.reservations.Keys == c.budget.reservations.Keys - {gone};
    }
  }

  /** Replacing one task keeps the slots if it holds none, or keeps its dispatch and a slot-holding state. */
  lemma ReplaceKeepsSlots(c: Coord, k: string, a: Aggregate)
    requires SlotsOk(c)
    requires k in c.activeIds ==>
               a.state in {DISPATCHED, PROCESS_SUCCEEDED, RECOVERY_REQUIRED} && a.active == c.tasks[k].active
    ensures SlotsOk(c.(tasks := c.tasks[k := a]))
  {}

  /** What SoundlyVerified reads is the registries and the aggregate, so unrelated fields may change. */
  lemma SameRecordsKeepTasks(c: Coord, c': Coord)
    requires Shaped(c) && Shaped(c') && TasksOk(c)
    requires c'.tasks == c.tasks && c'.fixRounds == c.fixRounds && Grows(c, c')
    ensures TasksOk(c')
  {
    forall k | k in c'.tasks ensures TaskOk(c', k) {
      assert TaskOk(c, k);
      if c.tasks[k].state == VERIFIED { GrowthKeepsVerdict(c, c', c.tasks[k]); }
    }
  }

  /** Replacing one task by an aggregate that claims nothing, or claims soundly, keeps every other claim. */
  lemma ReplaceKeepsTasks(c: Coord, k: string, a: Aggregate)
    requires Shaped(c) && TasksOk(c) && k in c.tasks
    requires a.state != QA_VERIFIED && a.task.taskId == k
    requires a.state == VERIFIED ==> SoundlyVerified(c, a) && c.fixRounds[k] < 3
    ensures Shaped(c.(tasks := c.tasks[k := a])) && TasksOk(c.(tasks := c.tasks[k := a]))
  {}

  lemma NewSlotHeld(c: Coord, c': Coord, taskId: string, id: string)
    requires (forall k | k in c.activeIds :: HoldsSlot(c, k)) && HoldsSlot(c', taskId)
    requires c'.tasks == c.tasks && c'.activeIds == c.activeIds[taskId := id]
    requires c.budget.reservations.Keys <= c'.budget.reservations.Keys
    ensures forall k | k in c'.activeIds :: HoldsSlot(c', k)
  {}

  lemma NewSlotKeepsSlots(c: Coord, c': Coord, taskId: string, id: string)
    requires SlotsOk(c) && HoldsSlot(c', taskId) && taskId !in c.activeIds && id !in c.budget.reservations
    requires c'.tasks == c.tasks && c'.activeIds == c.activeIds[taskId := id] && Budget.Sound(c'.budget)
    requires c'.budget.reservations.Keys == c.budget.reservations.Keys + {id}
    ensures SlotsOk(c')
  {
    NewSlotHeld(c, c', taskId, id);
    forall k | k in c.activeIds ensures c.activeIds[k] != id { assert HoldsSlot(c, k); }
    assert |c'.budget.reservations| == |c'.budget.reservations.Keys|;
  }

  lemma ReserveAdds(b: Budget.Ledger, id: string, tokens: int, cost: int)
    requires Budget.Sound(b) && Budget.Reserve(b, id, tokens, cost).Ok?
    ensures var after := Budget.Reserve(b, id, tokens, cost).value;
            Budget.Sound(after) && id !in b.reservations && after.reservations.Keys == b.reservations.Keys + {id}
  {}

  lemma AdmitKeepsSlots(c: Coord, taskId: string, id: string, tokens: int, cost: int)
    requires SlotsOk(c) && taskId in c.tasks && taskId !in c.activeIds
    requires c.tasks[taskId].state == DISPATCHED
    requires c.tasks[taskId].active.Some? && c.tasks[taskId].active.value.dispatchId == id
    requires Budget.Reserve(c.budget, id, tokens, cost).Ok?
    ensures SlotsOk(c.(budget := Budget.Reserve(c.budget, id, tokens, cost).value,
                       activeIds := c.activeIds[taskId := id]))
  {
    var c' := c.(budget := Budget.Reserve(c.budget, id, tokens, cost).value, activeIds := c.activeIds[taskId := id]);
    ReserveAdds(c.budget, id, tokens, cost);
    assert HoldsSlot(c', taskId);
    NewSlotKeepsSlots(c, c', taskId, id);
  }

  // ---------------------------------------------------------------- one lemma for each operation

  lemma FreezeKeepsInv(w: World, taskId: string, pm: Principal)
    requires Inv(w) && FreezeTask(w.c, taskId, pm).Ok?
    ensures Inv(w.(c := FreezeTask(w.c, taskId, pm).value))
  {
    assert taskId in w.c.activeIds ==> HoldsSlot(w.c, taskId);
    var a := Freeze(w.c.tasks[taskId], w.c.members, pm).value;
    ReplaceKeepsSlots(w.c, taskId, a);
    ReplaceKeepsTasks(w.c, taskId, a);
  }

  lemma ReportKeepsInv(w: World, developer: Principal, taskId: string, dispatchId: string, treeSha: string)
    requires Inv(w) && ReportSucceeded(w.c, developer, taskId, dispatchId, treeSha).Ok?
    ensures Inv(w.(c := ReportSucceeded(w.c, developer, taskId, dispatchId, treeSha).value))
  {
    var a := ProcessSucceeded(w.c.tasks[taskId], dispatchId, treeSha).value;
    ReplaceKeepsSlots(w.c, taskId, a);
    ReplaceKeepsTasks(w.c, taskId, a);
  }

  /** In a coordinator that owns its ledger the admission check cannot be overtaken: no dispatch is stranded. */
  lemma AdmissionNeverStrands(w: World, taskId: string, pm: Principal, key: string, tokens: int, cost: int,
                              freshId: string)
    requires Inv(w) && freshId != "" && freshId !in w.ids
    ensures var (c', r) := Begin(w.c, taskId, pm, key, tokens, cost, freshId);
            && (r.Err? ==> c' == w.c)
            && (r.Ok? ==> && taskId in c'.activeIds && c'.activeIds[taskId] == r.value.dispatchId == freshId
                          && Budget.Reserve(w.c.budget, freshId, tokens, cost) == Ok(c'.budget)
                          && c'.tasks == w.c.tasks[taskId := c'.tasks[taskId]] && c'.tasks[taskId].state == DISPATCHED)
  {}

  lemma FrozenHoldsNoSlot(c: Coord, taskId: string)
    requires SlotsOk(c) && taskId in c.tasks && c.tasks[taskId].state == FROZEN
    ensures taskId !in c.activeIds
  {
    assert taskId in c.activeIds ==> HoldsSlot(c, taskId);
  }

  lemma BeginKeepsInv(w: World, taskId: string, pm: Principal, key: string, tokens: int, cost: int, freshId: string)
    requires Inv(w) && freshId != "" && freshId !in w.ids
    ensures Inv(World(Begin(w.c, taskId, pm, key, tokens, cost, freshId).0, w.ids + {freshId}))
  {
    var c, c' := w.c, Begin(w.c, taskId, pm, key, tokens, cost, freshId).0;
    AdmissionNeverStrands(w, taskId, pm, key, tokens, cost, freshId);
    if c' != c {
      var a := StartDispatch(c.tasks[taskId], c.members, pm, key, freshId).value;
      var mid := w.(c := c.(tasks := c.tasks[taskId := a]));
      FrozenHoldsNoSlot(c, taskId);
      ReplaceKeepsInv(w, taskId, a);
      AdmitKeepsSlots(mid.c, taskId, freshId, tokens, cost);
      SameRecordsKeepTasks(mid.c, c');
    }
  }

  lemma ReleaseKeepsInv(w: World, taskId: string)
    requires Inv(w)
    ensures Inv(w.(c := ReleaseActive(w.c, taskId)))
  {
    ReleaseKeepsSlots(w.c, taskId);
    SameRecordsKeepTasks(w.c, ReleaseActive(w.c, taskId));
  }

  lemma ReconcileKeepsInv(w: World, taskId: string, pm: Principal, newTree: Option<string>)
    requires Inv(w) && ReconcileRecovery(w.c, taskId, pm, newTree).Ok?
    ensures Inv(w.(c := ReconcileRecovery(w.c, taskId, pm, newTree).value))
  {
    ReleaseKeepsInv(w, taskId);
    ReleaseKeepsSlots(w.c, taskId);
    ReplaceKeepsInv(w.(c := ReleaseActive(w.c, taskId)), taskId,
                    Reconcile(w.c.tasks[taskId], w.c.members, pm, newTree).value);
  }

  /** A task that holds no slot may be replaced by any aggregate that claims nothing, or claims soundly. */
  lemma ReplaceKeepsInv(w: World, taskId: string, a: Aggregate)
    requires Inv(w) && taskId in w.c.tasks && taskId !in w.c.activeIds && a.state != QA_VERIFIED
             && a.task.taskId == taskId
    requires a.state == VERIFIED ==> SoundlyVerified(w.c, a) && w.c.fixRounds[taskId] < 3
    ensures Inv(w.(c := w.c.(tasks := w.c.tasks[taskId := a])))
  {
    ReplaceKeepsSlots(w.c, taskId, a);
    ReplaceKeepsTasks(w.c, taskId, a);
  }

  lemma ReplaceThenRelease(c: Coord, taskId: string, a: Aggregate)
    ensures ReleaseActive(c.(tasks := c.tasks[taskId := a]), taskId)
            == ReleaseActive(c, taskId).(tasks := c.tasks[taskId := a])
  {}

  lemma BlockKeepsInv(w: World, taskId: string)
    requires Inv(w) && taskId in w.c.tasks
    ensures Inv(w.(c := BlockAndRelease(w.c, taskId)))
  {
    ReleaseKeepsInv(w, taskId);
    ReleaseKeepsSlots(w.c, taskId);
    ReplaceThenRelease(w.c, taskId, Block(w.c.tasks[taskId]));
    ReplaceKeepsInv(w.(c := ReleaseActive(w.c, taskId)), taskId, Block(w.c.tasks[taskId]));
  }

  lemma MovedCases(a: Aggregate, tree: string)
    requires tree != ""
    ensures var m := Moved(a, tree);
            && m.task.taskId == a.task.taskId
            && (m.state == VERIFIED ==> m == a && a.task.treeSha == tree)
            && (m.state == QA_VERIFIED ==> m == a)
            && (a.state in {DISPATCHED, PROCESS_SUCCEEDED, RECOVERY_REQUIRED} ==>
                  m.state in {DISPATCHED, PROCESS_SUCCEEDED, RECOVERY_REQUIRED} && m.active == a.active)
            && (m.state != RECOVERY_REQUIRED ==> m.task.treeSha == tree)
            && (m.state in {DISPATCHED, PROCESS_SUCCEEDED} ==> m == a)
  {}

  lemma UpdateTreeKeepsInv(w: World, tree: string)
    requires Inv(w) && tree != ""
    ensures Inv(w.(c := UpdateTree(w.c, tree).value))
  {
    var c, c' := w.c, UpdateTree(w.c, tree).value;
    forall k | k in c'.tasks ensures c'.tasks[k].task.taskId == k {
      MovedCases(c.tasks[k], tree);
    }
    assert Shaped(c');
    forall k | k in c'.tasks ensures TaskOk(c', k) {
      assert TaskOk(c, k);
      MovedCases(c.tasks[k], tree);
      if c'.tasks[k].state == VERIFIED { GrowthKeepsVerdict(c, c', c.tasks[k]); }
    }
    forall k | k in c'.activeIds ensures HoldsSlot(c', k) {
      assert HoldsSlot(c, k);
      MovedCases(c.tasks[k], tree);
    }
  }

  /** A verdict the registry creates is sound for exactly the dispatch and tree it was asked about. */
  lemma CreatedVerdictSound(c: Coord, qa: Principal, evidence: seq<Evidence>, taskId: string, dispatchId: string,
                            treeSha: string, freshId: string)
    requires ReceiptsIssued(c)
    requires CreateVerdict(c.records, c.members, qa, evidence, taskId, dispatchId, treeSha, true, freshId).Ok?
    ensures var (rec, v) := CreateVerdict(c.records, c.members, qa, evidence, taskId, dispatchId, treeSha, true,
                                          freshId).value;
            VerdictSound(c.(records := rec), v, taskId, dispatchId, treeSha) && v.qaPrincipalId == qa.principalId
  {}

  ghost predicate Reviewable(c: Coord, qa: Principal, taskId: string) {
    && taskId in c.tasks && Holds(c.members, qa, QA)
    && c.tasks[taskId].state == PROCESS_SUCCEEDED && c.tasks[taskId].active.Some?
  }

  /** The task as a passed review leaves it. */
  function Passed(a: Aggregate, v: Verdict): Aggregate {
    a.(state := VERIFIED, verdict := Some(v), verifiedTree := Some(a.task.treeSha))
  }

  /**
   A review whose gate passes always goes through to VERIFIED: neither the two finalizing
   transitions nor the release can refuse, so no task is left between QA and final.
   */
  lemma PassedReviewFinalizes(w: World, qa: Principal, taskId: string, s: Submission, round: nat, freshId: string)
    requires Inv(w) && freshId !in w.ids && Reviewable(w.c, qa, taskId)
    requires Gate(w.c, qa, taskId, s, round, freshId).2.Some?
    ensures var (rec, decision, verdict) := Gate(w.c, qa, taskId, s, round, freshId);
            var judged, after := w.c.(records := rec), Passed(w.c.tasks[taskId], verdict.value);
            && decision == Decision(QaPassed, Matched)
            && SoundlyVerified(judged, after)
            && Accept(judged, qa, taskId, verdict.value, decision)
               == (ReleaseActive(judged.(tasks := judged.tasks[taskId := after]), taskId), Ok(decision))
  {
    var a := w.c.tasks[taskId];
    CreatedVerdictSound(w.c, qa, s.evidence, taskId, a.active.value.dispatchId, a.task.treeSha, freshId);
  }

  lemma PassKeepsInv(w: World, taskId: string, a: Aggregate)
    requires Inv(w) && taskId in w.c.tasks && a.task.taskId == taskId
    requires a.state == VERIFIED && SoundlyVerified(w.c, a) && w.c.fixRounds[taskId] < 3
    ensures Inv(w.(c := ReleaseActive(w.c.(tasks := w.c.tasks[taskId := a]), taskId)))
  {
    var released := ReleaseActive(w.c, taskId);
    ReleaseKeepsInv(w, taskId);
    ReleaseKeepsSlots(w.c, taskId);
    ReplaceThenRelease(w.c, taskId, a);
    ReplaceKeepsInv(w.(c := released), taskId, a);
  }

  lemma CountKeepsTasks(c: Coord, taskId: string, round: nat)
    requires Shaped(c) && TasksOk(c) && taskId in c.tasks && c.tasks[taskId].state == PROCESS_SUCCEEDED
    ensures Shaped(c.(fixRounds := c.fixRounds[taskId := round]))
            && TasksOk(c.(fixRounds := c.fixRounds[taskId := round]))
  {}

  lemma CountKeepsSlots(c: Coord, rounds: map<string, nat>)
    requires SlotsOk(c)
    ensures SlotsOk(c.(fixRounds := rounds))
  {}

  /** Counting a fix round against a task that is not verified. */
  lemma CountKeepsInv(w: World, taskId: string, round: nat)
    requires Inv(w) && taskId in w.c.tasks && w.c.tasks[taskId].state == PROCESS_SUCCEEDED
    ensures Inv(w.(c := w.c.(fixRounds := w.c.fixRounds[taskId := round])))
  {
    CountKeepsTasks(w.c, taskId, round);
    CountKeepsSlots(w.c, w.c.fixRounds[taskId := round]);
  }

  /** Whatever the gate answers, it adds to the records at most one verdict, under the fresh id. */
  lemma GateAdds(c: Coord, qa: Principal, taskId: string, s: Submission, round: nat, freshId: string)
    requires taskId in c.tasks && c.tasks[taskId].active.Some? && freshId !in c.records.verdicts && ReceiptsIssued(c)
    ensures Adds(c, Gate(c, qa, taskId, s, round, freshId).0, freshId)
  {}

  lemma GateKeepsInv(w: World, qa: Principal, taskId: string, s: Submission, round: nat, freshId: string)
    requires Inv(w) && freshId !in w.ids && Reviewable(w.c, qa, taskId)
    ensures Inv(World(w.c.(records := Gate(w.c, qa, taskId, s, round, freshId).0), w.ids + {freshId}))
  {
    GateAdds(w.c, qa, taskId, s, round, freshId);
    RecordsKeepInv(w, Gate(w.c, qa, taskId, s, round, freshId).0, freshId);
  }

  lemma RejectKeepsInv(w: World, taskId: string, round: nat, decision: Decision)
    requires Inv(w) && taskId in w.c.tasks && w.c.tasks[taskId].state == PROCESS_SUCCEEDED
    ensures Inv(w.(c := Reject(w.c, taskId, round, decision).0))
  {
    CountKeepsInv(w, taskId, round + 1);
    BlockKeepsInv(w.(c := w.c.(fixRounds := w.c.fixRounds[taskId := round + 1])), taskId);
  }

  lemma MoreIdsKeepInv(w: World, freshId: string)
    requires Inv(w)
    ensures Inv(w.(ids := w.ids + {freshId}))
  {}

  lemma JudgedReviewKeepsInv(w: World, qa: Principal, taskId: string, s: Submission, round: nat, freshId: string)
    requires Inv(w) && freshId !in w.ids && Reviewable(w.c, qa, taskId) && w.c.fixRounds[taskId] <= round < 3
    ensures var (rec, decision, verdict) := Gate(w.c, qa, taskId, s, round, freshId);
            var judged := World(w.c.(records := rec), w.ids + {freshId});
            if verdict.Some? then Inv(judged.(c := Accept(judged.c, qa, taskId, verdict.value, decision).0))
            else Inv(judged.(c := Reject(judged.c, taskId, round, decision).0))
  {
    GateKeepsInv(w, qa, taskId, s, round, freshId);
    var (rec, decision, verdict) := Gate(w.c, qa, taskId, s, round, freshId);
    var judged := World(w.c.(records := rec), w.ids + {freshId});
    if verdict.Some? {
      PassedReviewFinalizes(w, qa, taskId, s, round, freshId);
      PassKeepsInv(judged, taskId, Passed(w.c.tasks[taskId], verdict.value));
    } else {
      RejectKeepsInv(judged, taskId, round, decision);
    }
  }

  lemma ReviewKeepsInv(w: World, qa: Principal, taskId: string, s: Submission, claimedRound: int, freshId: string)
    requires Inv(w) && freshId !in w.ids
    ensures Inv(World(QaReview(w.c, qa, taskId, s, claimedRound, freshId).0, w.ids + {freshId}))
  {
    var after := QaReview(w.c, qa, taskId, s, claimedRound, freshId).0;
    if !Reviewable(w.c, qa, taskId) {
      assert after == w.c;
      MoreIdsKeepInv(w, freshId);
    } else {
      var round := CurrentRound(w.c, taskId, claimedRound);
      if round >= 3 {
        assert after == BlockAndRelease(w.c, taskId);
        MoreIdsKeepInv(w, freshId);
        BlockKeepsInv(w.(ids := w.ids + {freshId}), taskId);
      } else {
        JudgedReviewKeepsInv(w, qa, taskId, s, round, freshId);
      }
    }
  }

  // The same, stated of a step of the world.

  lemma MemberStep(w: World, op: Op)
    requires Inv(w) && op.Register?
    ensures Inv(Step(w, op))
  {
    if op.principalId != "" && op.principalId !in w.c.members {
      GrowthKeepsInv(w, w.(c := w.c.(members := w.c.members[op.principalId := (op.role, op.secret)])));
    }
  }

  lemma IssueAdds(c: Coord, executor: Principal, taskId: string, dispatchId: string, treeSha: string, exitCode: int,
                  freshId: string)
    requires ReceiptsIssued(c) && freshId !in c.records.receipts
    ensures Adds(c, RecordsAfter(Issue(c.records, c.members, executor, taskId, dispatchId, treeSha, exitCode, freshId),
                                 c.records), freshId)
  {}

  lemma EvidenceAdds(c: Coord, receiptId: string, taskId: string, dispatchId: string, treeSha: string, freshId: string)
    requires ReceiptsIssued(c)
    ensures Adds(c, RecordsAfter(CreateEvidence(c.records, receiptId, taskId, dispatchId, treeSha, freshId), c.records),
                 freshId)
  {}

  lemma VerdictAdds(c: Coord, qa: Principal, evidence: seq<Evidence>, taskId: string, dispatchId: string,
                    treeSha: string, accepted: bool, freshId: string)
    requires ReceiptsIssued(c) && freshId !in c.records.verdicts
    ensures var created := CreateVerdict(c.records, c.members, qa, evidence, taskId, dispatchId, treeSha, accepted,
                                         freshId);
            Adds(c, RecordsAfter(created, c.records), freshId)
  {}

  lemma ReceiptStep(w: World, op: Op)
    requires Inv(w) && Drawable(w, op) && op.DoIssue?
    ensures Inv(Step(w, op))
  {
    var issued := Issue(w.c.records, w.c.members, op.executor, op.taskId, op.dispatchId, op.treeSha, op.exitCode,
                        op.freshId);
    IssueAdds(w.c, op.executor, op.taskId, op.dispatchId, op.treeSha, op.exitCode, op.freshId);
    RecordsKeepInv(w, RecordsAfter(issued, w.c.records), op.freshId);
  }

  lemma ItemStep(w: World, op: Op)
    requires Inv(w) && Drawable(w, op) && op.DoEvidence?
    ensures Inv(Step(w, op))
  {
    var created := CreateEvidence(w.c.records, op.receiptId, op.taskId, op.dispatchId, op.treeSha, op.freshId);
    EvidenceAdds(w.c, op.receiptId, op.taskId, op.dispatchId, op.treeSha, op.freshId);
    RecordsKeepInv(w, RecordsAfter(created, w.c.records), op.freshId);
  }

  lemma VerdictStep(w: World, op: Op)
    requires Inv(w) && Drawable(w, op) && op.DoVerdict?
    ensures Inv(Step(w, op))
  {
    var created := CreateVerdict(w.c.records, w.c.members, op.qa, op.evidence, op.taskId, op.dispatchId, op.treeSha,
                                 op.accepted, op.freshId);
    VerdictAdds(w.c, op.qa, op.evidence, op.taskId, op.dispatchId, op.treeSha, op.accepted, op.freshId);
    RecordsKeepInv(w, RecordsAfter(created, w.c.records), op.freshId);
  }

  lemma FreezeStep(w: World, op: Op)
    requires Inv(w) && op.DoFreeze?
    ensures Inv(Step(w, op))
  {
    var frozen := FreezeTask(w.c, op.taskId, op.pm);
    assert Step(w, op) == w.(c := Or(frozen, w.c));
    if frozen.Ok? { FreezeKeepsInv(w, op.taskId, op.pm); }
  }

  lemma ReportStep(w: World, op: Op)
    requires Inv(w) && op.DoReport?
    ensures Inv(Step(w, op))
  {
    var reported := ReportSucceeded(w.c, op.developer, op.taskId, op.dispatchId, op.treeSha);
    assert Step(w, op) == w.(c := Or(reported, w.c));
    if reported.Ok? { ReportKeepsInv(w, op.developer, op.taskId, op.dispatchId, op.treeSha); }
  }

  lemma ReleaseStep(w: World, op: Op)
    requires Inv(w) && op.DoRelease?
    ensures Inv(Step(w, op))
  {
    ReleaseKeepsInv(w, op.taskId);
  }

  lemma ReconcileStep(w: World, op: Op)
    requires Inv(w) && op.DoReconcile?
    ensures Inv(Step(w, op))
  {
    var reconciled := ReconcileRecovery(w.c, op.taskId, op.pm, op.newTree);
    assert Step(w, op) == w.(c := Or(reconciled, w.c));
    if reconciled.Ok? { ReconcileKeepsInv(w, op.taskId, op.pm, op.newTree); }
  }

  lemma UpdateTreeStep(w: World, op: Op)
    requires Inv(w) && op.DoUpdateTree?
    ensures Inv(Step(w, op))
  {
    if op.tree != "" { UpdateTreeKeepsInv(w, op.tree); }
  }

  lemma DispatchStep(w: World, op: Op)
    requires Inv(w) && Drawable(w, op) && op.DoBegin?
    ensures Inv(Step(w, op))
  {
    BeginKeepsInv(w, op.taskId, op.pm, op.key, op.tokens, op.cost, op.freshId);
  }

  lemma ReviewStep(w: World, op: Op)
    requires Inv(w) && Drawable(w, op) && op.DoReview?
    ensures Inv(Step(w, op))
  {
    ReviewKeepsInv(w, op.qa, op.taskId, op.submission, op.claimedRound, op.freshId);
  }

  lemma StepKeepsInv(w: World, op: Op)
    requires Inv(w)
    ensures Inv(Step(w, op))
  {
    if Drawable(w, op) {
      match op
      case Register(_, _, _) => MemberStep(w, op);
      case DoFreeze(_, _) => FreezeStep(w, op);
      case DoReport(_, _, _, _) => ReportStep(w, op);
      case DoRelease(_) => ReleaseStep(w, op);
      case DoReconcile(_, _, _) => ReconcileStep(w, op);
      case DoUpdateTree(_) => UpdateTreeStep(w, op);
      case DoBegin(_, _, _, _, _, _) => DispatchStep(w, op);
      case DoReview(_, _, _, _, _) => ReviewStep(w, op);
      case DoIssue(_, _, _, _, _, _) => ReceiptStep(w, op);
      case DoEvidence(_, _, _, _, _) => ItemStep(w, op);
      case DoVerdict(_, _, _, _, _, _, _) => VerdictStep(w, op);
    }
  }

  ghost function Run(w: World, ops: seq<Op>): World
    requires Inv(w)
    ensures Inv(Run(w, ops))
    decreases |ops|
  {
    if ops == [] then w
    else
      StepKeepsInv(w, ops[0]);
      Run(Step(w, ops[0]), ops[1..])
  }

  // ---------------------------------------------------------------- whole runs

  /** The world after any calls on a newly built coordinator. */
  ghost function Reached(start: World, ops: seq<Op>): (w: World)
    requires Initial(start)
    ensures Inv(w)
  {
    InitialInv(start);
    Run(start, ops)
  }

  /** Provenance of VERIFIED, and no task ever rests between QA and final. */
  lemma VerifiedProvenance(start: World, ops: seq<Op>, k: string)
    requires Initial(start) && k in Reached(start, ops).c.tasks
    ensures var c := Reached(start, ops).c;
            && c.tasks[k].state != QA_VERIFIED
            && (c.tasks[k].state == VERIFIED ==> SoundlyVerified(c, c.tasks[k]))
  {}

  /**
   No slot leak: at every point of every run the open reservations are the image of the active
   dispatches, one each, and giving any of them back cannot fail.
   */
  lemma NoSlotLeak(start: World, ops: seq<Op>)
    requires Initial(start)
    ensures var c := Reached(start, ops).c;
            && c.budget.reservations.Keys == c.activeIds.Values
            && |c.activeIds| == |c.budget.reservations| <= c.budget.maxWorkers
            && forall k | k in c.activeIds ::
                 && k in c.tasks && c.tasks[k].state in {DISPATCHED, PROCESS_SUCCEEDED, RECOVERY_REQUIRED}
                 && Budget.Release(c.budget, c.activeIds[k], 0, 0).Ok?
                 && ReleaseActive(c, k).budget.reservations == c.budget.reservations - {c.activeIds[k]}
  {
    var c := Reached(start, ops).c;
    SlotsAreTheImage(c);
    forall k | k in c.activeIds
      ensures k in c.tasks && c.tasks[k].state in {DISPATCHED, PROCESS_SUCCEEDED, RECOVERY_REQUIRED}
      ensures Budget.Release(c.budget, c.activeIds[k], 0, 0).Ok?
      ensures ReleaseActive(c, k).budget.reservations == c.budget.reservations - {c.activeIds[k]}
    {
      assert HoldsSlot(c, k);
      ReleaseSucceeds(c, k);
    }
  }

  lemma ReleaseTakesNoSlot(c: Coord, taskId: string)
    ensures ReleaseActive(c, taskId).budget.reservations.Keys <= c.budget.reservations.Keys
  {}

  lemma JudgeTakesNoSlot(c: Coord, qa: Principal, taskId: string, s: Submission, round: nat, freshId: string)
    requires taskId in c.tasks && c.tasks[taskId].active.Some? && taskId in c.fixRounds
    ensures Judge(c, qa, taskId, s, round, freshId).0.budget.reservations.Keys <= c.budget.reservations.Keys
  {}

  lemma ReviewTakesNoSlot(c: Coord, qa: Principal, taskId: string, s: Submission, claimedRound: int, freshId: string)
    requires Shaped(c)
    ensures QaReview(c, qa, taskId, s, claimedRound, freshId).0.budget.reservations.Keys <= c.budget.reservations.Keys
  {
    if Reviewable(c, qa, taskId) {
      var round := CurrentRound(c, taskId, claimedRound);
      if round >= 3 {
        ReleaseTakesNoSlot(c.(tasks := c.tasks[taskId := Block(c.tasks[taskId])]), taskId);
      } else {
        JudgeTakesNoSlot(c, qa, taskId, s, round, freshId);
      }
    }
  }

  lemma BeginTakesOneSlot(c: Coord, taskId: string, pm: Principal, key: string, tokens: int, cost: int, freshId: string)
    requires Shaped(c)
    ensures Begin(c, taskId, pm, key, tokens, cost, freshId).0.budget.reservations.Keys <= c.budget.reservations.Keys
            + {freshId}
  {}

  /** Reservations are opened by dispatches only, each under the identifier the dispatch draws. */
  lemma StepReserves(w: World, op: Op)
    requires Shaped(w.c)
    ensures Step(w, op).c.budget.reservations.Keys - w.c.budget.reservations.Keys <= Step(w, op).ids - w.ids
  {
    if Drawable(w, op) && op.DoReview? {
      ReviewTakesNoSlot(w.c, op.qa, op.taskId, op.submission, op.claimedRound, op.freshId);
    } else if Drawable(w, op) && op.DoBegin? {
      BeginTakesOneSlot(w.c, op.taskId, op.pm, op.key, op.tokens, op.cost, op.freshId);
    }
  }

  /** The open reservations before and after every call of a run. */
  ghost function Slots(w: World, ops: seq<Op>): seq<set<string>>
    requires Inv(w)
    decreases |ops|
  {
    if ops == [] then [w.c.budget.reservations.Keys]
    else
      StepKeepsInv(w, ops[0]);
      [w.c.budget.reservations.Keys] + Slots(Step(w, ops[0]), ops[1..])
  }

  lemma {:induction false} SlotsEnds(w: World, ops: seq<Op>)
    requires Inv(w)
    ensures var slots := Slots(w, ops);
            && |slots| == |ops| + 1 && slots[0] == w.c.budget.reservations.Keys
            && slots[|ops|] == Run(w, ops).c.budget.reservations.Keys
    decreases |ops|
  {
    if ops != [] {
      StepKeepsInv(w, ops[0]);
      SlotsEnds(Step(w, ops[0]), ops[1..]);
    }
  }

  /** How often the reservation of one identifier is opened, and how often it is given back. */
  function Openings(slots: seq<set<string>>, id: string): nat {
    if |slots| < 2 then 0 else (if id !in slots[0] && id in slots[1] then 1 else 0) + Openings(slots[1..], id)
  }

  function Releases(slots: seq<set<string>>, id: string): nat {
    if |slots| < 2 then 0 else (if id in slots[0] && id !in slots[1] then 1 else 0) + Releases(slots[1..], id)
  }

  lemma {:induction false} SlotBalance(slots: seq<set<string>>, id: string)
    requires slots != []
    ensures Openings(slots, id) - Releases(slots, id)
            == (if id in slots[|slots| - 1] then 1 else 0) - (if id in slots[0] then 1 else 0)
  {
    if |slots| >= 2 { SlotBalance(slots[1..], id); }
  }

  /** An identifier is drawn once, so what it names is opened once. */
  lemma OpenedOnceMore(slots: seq<set<string>>, drawn: set<string>, drawnAfter: set<string>, id: string)
    requires |slots| >= 2 && drawn <= drawnAfter && slots[1] - slots[0] <= drawnAfter - drawn
    requires Openings(slots[1..], id) <= if id in drawnAfter then 0 else 1
    ensures Openings(slots, id) <= if id in drawn then 0 else 1
  {
    if id !in slots[0] && id in slots[1] { assert id in slots[1] - slots[0]; }
  }

  lemma {:induction false} OpenedOnce(w: World, ops: seq<Op>, id: string)
    requires Inv(w)
    ensures Openings(Slots(w, ops), id) <= if id in w.ids then 0 else 1
    decreases |ops|
  {
    if ops != [] {
      StepKeepsInv(w, ops[0]);
      var next := Step(w, ops[0]);
      StepReserves(w, ops[0]);
      SlotsEnds(next, ops[1..]);
      OpenedOnce(next, ops[1..], id);
      assert Slots(w, ops)[1..] == Slots(next, ops[1..]);
      OpenedOnceMore(Slots(w, ops), w.ids, next.ids, id);
    }
  }

  /**
   A slot is taken at most once and given back at most once in any run, and it is held at the end
   exactly if it was taken and not given back.
   */
  lemma ReleasedAtMostOnce(start: World, ops: seq<Op>, id: string)
    requires Initial(start)
    ensures Inv(start) && Releases(Slots(start, ops), id) <= Openings(Slots(start, ops), id) <= 1
    ensures id in Reached(start, ops).c.budget.reservations
            <==> Openings(Slots(start, ops), id) == 1 && Releases(Slots(start, ops), id) == 0
  {
    InitialInv(start);
    OpenedOnce(start, ops, id);
    SlotsEnds(start, ops);
    SlotBalance(Slots(start, ops), id);
  }

  lemma SlotsAreTheImage(c: Coord)
    requires SlotsOk(c)
    ensures c.budget.reservations.Keys == c.activeIds.Values
  {
    forall id | id in c.activeIds.Values ensures id in c.budget.reservations {
      var k :| k in c.activeIds && c.activeIds[k] == id;
      assert HoldsSlot(c, k);
    }
    ImageSize(c.activeIds);
    SameSizeSubset(c.activeIds.Values, c.budget.reservations.Keys);
  }

  lemma SameSizeSubset(a: set<string>, b: set<string>)
    requires a <= b && |a| == |b|
    ensures a == b
  {
    assert |b - a| == |b| - |a|;
  }

  lemma {:induction false} ImageSize(m: map<string, string>)
    requires forall j, k | j in m && k in m && m[j] == m[k] :: j == k
    ensures |m| == |m.Values|
    decreases |m|
  {
    if m != map[] {
      var k :| k in m;
      var rest := m - {k};
      ImageSize(rest);
      assert m.Values == rest.Values + {m[k]} by {
        forall v | v in m.Values ensures v in rest.Values + {m[k]} {
          var j :| j in m && m[j] == v;
          assert j != k ==> j in rest && rest[j] == v;
        }
      }
      assert m[k] !in rest.Values;
      assert m.Keys == rest.Keys + {k};
    }
  }

  ghost predicate Has(c: Coord, k: string) {
    k in c.tasks && k in c.fixRounds
  }

  /** How one call other than a tree change may move one task. */
  ghost predicate Evolves(c: Coord, c': Coord, op: Op, k: string)
    requires Has(c, k) && Has(c', k)
  {
    var a, a' := c.tasks[k], c'.tasks[k];
    && c'.fixRounds[k] >= c.fixRounds[k]
    && (a.state == VERIFIED ==> a' == a)
    && (a'.state in {DISPATCHED, PROCESS_SUCCEEDED, VERIFIED} ==>
          a.state in {DISPATCHED, PROCESS_SUCCEEDED, VERIFIED} || (op.DoBegin? && op.taskId == k))
    && ((a'.task == a.task && (a.state == RECOVERY_REQUIRED ==> a'.state == RECOVERY_REQUIRED))
        || (op.DoReconcile? && op.taskId == k && a.state == RECOVERY_REQUIRED && a'.state == FROZEN
            && a'.task == a.task.(treeSha := TreeOr(op.newTree, a.task.treeSha))))
  }

  /** A review touches the task under review only, and that one only while it is PROCESS_SUCCEEDED. */
  ghost predicate Touches(c: Coord, c': Coord, taskId: string) {
    && c'.dependencies == c.dependencies
    && taskId in c.tasks && taskId in c.fixRounds && taskId in c'.tasks && taskId in c'.fixRounds
    && c'.tasks == c.tasks[taskId := c'.tasks[taskId]]
    && c'.fixRounds == c.fixRounds[taskId := c'.fixRounds[taskId]] && c'.fixRounds[taskId] >= c.fixRounds[taskId]
    && c'.tasks[taskId].task == c.tasks[taskId].task
    && c'.tasks[taskId].state in {PROCESS_SUCCEEDED, QA_VERIFIED, VERIFIED, BLOCKED}
  }

  lemma BlockTouches(c: Coord, taskId: string)
    requires Shaped(c) && taskId in c.tasks
    ensures Touches(c, BlockAndRelease(c, taskId), taskId)
  {}

  lemma RejectTouches(c: Coord, taskId: string, round: nat, decision: Decision)
    requires Shaped(c) && taskId in c.tasks && c.tasks[taskId].state == PROCESS_SUCCEEDED
             && round >= c.fixRounds[taskId]
    ensures Touches(c, Reject(c, taskId, round, decision).0, taskId)
  {}

  lemma AcceptTouches(c: Coord, qa: Principal, taskId: string, verdict: Verdict, decision: Decision)
    requires Shaped(c) && taskId in c.tasks && c.tasks[taskId].state == PROCESS_SUCCEEDED
    ensures Touches(c, Accept(c, qa, taskId, verdict, decision).0, taskId)
  {}

  lemma JudgeTouches(c: Coord, qa: Principal, taskId: string, s: Submission, round: nat, freshId: string)
    requires Shaped(c) && Reviewable(c, qa, taskId) && round >= c.fixRounds[taskId]
    ensures Touches(c, Judge(c, qa, taskId, s, round, freshId).0, taskId)
  {
    var (rec, decision, verdict) := Gate(c, qa, taskId, s, round, freshId);
    var judged := c.(records := rec);
    if verdict.Some? && decision.status == QaPassed {
      AcceptTouches(judged, qa, taskId, verdict.value, decision);
      assert Judge(c, qa, taskId, s, round, freshId) == Accept(judged, qa, taskId, verdict.value, decision);
    } else {
      RejectTouches(judged, taskId, round, decision);
      assert Judge(c, qa, taskId, s, round, freshId) == Reject(judged, taskId, round, decision);
    }
  }

  lemma ReviewTouches(c: Coord, qa: Principal, taskId: string, s: Submission, claimedRound: int, freshId: string)
    requires Shaped(c)
    ensures var c' := QaReview(c, qa, taskId, s, claimedRound, freshId).0;
            c' == c || (Reviewable(c, qa, taskId) && Touches(c, c', taskId))
  {
    if Reviewable(c, qa, taskId) {
      var round := CurrentRound(c, taskId, claimedRound);
      if round >= 3 { BlockTouches(c, taskId); } else { JudgeTouches(c, qa, taskId, s, round, freshId); }
    }
  }

  /** A start touches a FROZEN task or nothing. */
  ghost predicate Started(c: Coord, c': Coord, taskId: string) {
    c' == c || (&& taskId in c.tasks && taskId in c'.tasks && c.tasks[taskId].state == FROZEN
                && c'.dependencies == c.dependencies && c'.fixRounds == c.fixRounds
                && c'.tasks == c.tasks[taskId := c'.tasks[taskId]] && c'.tasks[taskId].task == c.tasks[taskId].task)
  }

  lemma BeginTouches(c: Coord, taskId: string, pm: Principal, key: string, tokens: int, cost: int, freshId: string)
    requires Shaped(c)
    ensures Started(c, Begin(c, taskId, pm, key, tokens, cost, freshId).0, taskId)
  {}

  /** A reconciliation takes a stranded task back to FROZEN, at the tree it names. */
  ghost predicate Reconciled(c: Coord, c': Coord, taskId: string, newTree: Option<string>) {
    && c'.dependencies == c.dependencies && c'.fixRounds == c.fixRounds
    && taskId in c.tasks && taskId in c'.tasks && c.tasks[taskId].state == RECOVERY_REQUIRED
    && c'.tasks == c.tasks[taskId := c'.tasks[taskId]] && c'.tasks[taskId].state == FROZEN
    && c'.tasks[taskId].task == c.tasks[taskId].task.(treeSha := TreeOr(newTree, c.tasks[taskId].task.treeSha))
  }

  lemma ReconcileTouches(c: Coord, taskId: string, pm: Principal, newTree: Option<string>)
    requires Shaped(c) && ReconcileRecovery(c, taskId, pm, newTree).Ok?
    ensures Reconciled(c, ReconcileRecovery(c, taskId, pm, newTree).value, taskId, newTree)
  {}

  predicate NextStage(before: TaskState, after: TaskState) {
    (before in {CREATED, BLOCKED} && after == FROZEN) || (before == DISPATCHED && after == PROCESS_SUCCEEDED)
  }

  /** A freeze or a report moves one task from one stage to the next, or nothing. */
  ghost predicate Staged(c: Coord, c': Coord, taskId: string) {
    && c'.fixRounds == c.fixRounds && c'.dependencies == c.dependencies
    && (c'.tasks == c.tasks
        || (&& taskId in c.tasks && taskId in c'.tasks && c'.tasks == c.tasks[taskId := c'.tasks[taskId]]
            && c'.tasks[taskId].task == c.tasks[taskId].task
            && NextStage(c.tasks[taskId].state, c'.tasks[taskId].state)))
  }

  lemma FreezeTouches(c: Coord, taskId: string, pm: Principal)
    requires Shaped(c)
    ensures Staged(c, Or(FreezeTask(c, taskId, pm), c), taskId)
  {}

  lemma ReportTouches(c: Coord, developer: Principal, taskId: string, dispatchId: string, treeSha: string)
    requires Shaped(c)
    ensures Staged(c, Or(ReportSucceeded(c, developer, taskId, dispatchId, treeSha), c), taskId)
  {}

  /** What each call can change of the tasks, the plan and the fix rounds. */
  ghost predicate Changes(c: Coord, c': Coord, op: Op) {
    match op
    case DoFreeze(taskId, _) => Staged(c, c', taskId)
    case DoReport(_, taskId, _, _) => Staged(c, c', taskId)
    case DoBegin(taskId, _, _, _, _, _) => Started(c, c', taskId)
    case DoReview(qa, taskId, _, _, _) => c' == c || (Reviewable(c, qa, taskId) && Touches(c, c', taskId))
    case DoReconcile(taskId, _, newTree) => c' == c || Reconciled(c, c', taskId, newTree)
    case DoUpdateTree(_) => c'.fixRounds == c.fixRounds && c'.dependencies == c.dependencies
    case _ => c'.tasks == c.tasks && c'.fixRounds == c.fixRounds && c'.dependencies == c.dependencies
  }

  lemma EffectChanges(c: Coord, op: Op)
    requires Shaped(c)
    ensures Changes(c, Effect(c, op), op)
  {
    match op
    case DoFreeze(taskId, pm) => FreezeTouches(c, taskId, pm);
    case DoReport(developer, taskId, dispatchId, treeSha) => ReportTouches(c, developer, taskId, dispatchId, treeSha);
    case DoBegin(taskId, pm, key, tokens, cost, freshId) => BeginTouches(c, taskId, pm, key, tokens, cost, freshId);
    case DoReview(qa, taskId, s, claimedRound, freshId) => ReviewTouches(c, qa, taskId, s, claimedRound, freshId);
    case DoReconcile(taskId, pm, newTree) =>
      if ReconcileRecovery(c, taskId, pm, newTree).Ok? { ReconcileTouches(c, taskId, pm, newTree); }
    case _ =>
  }

  lemma TouchedEvolves(c: Coord, c': Coord, op: Op, taskId: string, k: string)
    requires Has(c, k) && Has(c', k)
    requires Touches(c, c', taskId) && c.tasks[taskId].state == PROCESS_SUCCEEDED
    ensures Evolves(c, c', op, k)
  {}

  lemma StartedEvolves(c: Coord, c': Coord, op: Op, k: string)
    requires Has(c, k) && Has(c', k) && op.DoBegin? && Started(c, c', op.taskId)
    ensures Evolves(c, c', op, k)
  {}

  lemma ReconciledEvolves(c: Coord, c': Coord, op: Op, k: string)
    requires Has(c, k) && Has(c', k) && op.DoReconcile? && Reconciled(c, c', op.taskId, op.newTree)
    ensures Evolves(c, c', op, k)
  {}

  lemma StagedEvolves(c: Coord, c': Coord, op: Op, taskId: string, k: string)
    requires Has(c, k) && Has(c', k) && Staged(c, c', taskId)
    ensures Evolves(c, c', op, k)
  {}

  lemma ChangesEvolve(c: Coord, c': Coord, op: Op, k: string)
    requires Has(c, k) && Has(c', k) && Changes(c, c', op) && !op.DoUpdateTree?
    ensures Evolves(c, c', op, k)
  {
    match op
    case DoFreeze(taskId, _) => StagedEvolves(c, c', op, taskId, k);
    case DoReport(_, taskId, _, _) => StagedEvolves(c, c', op, taskId, k);
    case DoBegin(_, _, _, _, _, _) => StartedEvolves(c, c', op, k);
    case DoReview(_, taskId, _, _, _) => if c' != c { TouchedEvolves(c, c', op, taskId, k); }
    case DoReconcile(_, _, _) => if c' != c { ReconciledEvolves(c, c', op, k); }
    case _ =>
  }

  lemma ChangesKeepPlan(c: Coord, c': Coord, op: Op, k: string)
    requires Changes(c, c', op)
    ensures c'.dependencies == c.dependencies
    ensures k in c.fixRounds && k in c'.fixRounds ==> c'.fixRounds[k] >= c.fixRounds[k]
  {}

  /** The set of tasks is fixed by the plan. */
  lemma StepKeepsPlan(w: World, op: Op)
    requires Inv(w)
    ensures Inv(Step(w, op))
    ensures Step(w, op).c.tasks.Keys == w.c.tasks.Keys && Step(w, op).c.dependencies == w.c.dependencies
  {
    StepKeepsInv(w, op);
    if Drawable(w, op) {
      EffectChanges(w.c, op);
      ChangesKeepPlan(w.c, Step(w, op).c, op, "");
    }
  }

  /** Fix rounds are never given back. */
  lemma RoundsGrow(w: World, op: Op, k: string)
    requires Inv(w) && k in w.c.tasks
    ensures Inv(Step(w, op)) && k in Step(w, op).c.tasks && Step(w, op).c.fixRounds[k] >= w.c.fixRounds[k]
  {
    StepKeepsPlan(w, op);
    if Drawable(w, op) {
      EffectChanges(w.c, op);
      ChangesKeepPlan(w.c, Step(w, op).c, op, k);
    }
  }

  lemma StepEvolves(w: World, op: Op, k: string)
    requires Inv(w) && k in w.c.tasks && !op.DoUpdateTree?
    ensures Inv(Step(w, op)) && k in Step(w, op).c.tasks && Evolves(w.c, Step(w, op).c, op, k)
  {
    StepKeepsPlan(w, op);
    if Drawable(w, op) {
      EffectChanges(w.c, op);
      ChangesEvolve(w.c, Step(w, op).c, op, k);
    }
  }

  /**
   Three rounds are final: whatever happens afterwards, freezing and tree changes included, the task is never
   VERIFIED.
   */
  lemma {:induction false} FixRoundCap(w: World, ops: seq<Op>, k: string)
    requires Inv(w) && k in w.c.tasks && w.c.fixRounds[k] >= 3
    ensures k in Run(w, ops).c.tasks && Run(w, ops).c.fixRounds[k] >= 3
    ensures Run(w, ops).c.tasks[k].state != VERIFIED
    decreases |ops|
  {
    assert TaskOk(w.c, k);
    if ops != [] {
      RoundsGrow(w, ops[0], k);
      FixRoundCap(Step(w, ops[0]), ops[1..], k);
    }
  }
}
