/**
 The coordinator object of team/coordinator.py: the dictionary of task aggregates, the active
 dispatches and the fix rounds, updated in place together with the ledger and the receipt
 registry it shares. Every method is proved to perform the step of the same name in Coordinator.
 */
module SupervisedCoordinator {
  import opened Prelude
  import opened Contracts
  import opened Registry
  import opened Engine
  import opened Qa
  import opened Budget
  import TaskDag
  import Spec = Coordinator

  class SupervisedCoordinator {
    const order: seq<string>
    const dependencies: map<string, seq<string>>
    const identities: IdentityRegistry
    const receipts: ReceiptIssuerRegistry
    const budget: BudgetLedger
    const testHashes: map<string, string>
    var tasks: map<string, Aggregate>
    var activeIds: map<string, string>
    var fixRounds: map<string, nat>

    function View(): Spec.Coord
      reads this, identities, receipts, budget
    {
      Spec.Coord(dependencies, tasks, activeIds, fixRounds, budget.View(), receipts.View(), identities.members,
                 testHashes)
    }

    ghost predicate Valid()
      reads this, identities, receipts, budget
    {
      receipts.identities == identities && Spec.Shaped(View())
    }

    /** Over a validated plan: every task CREATED, nothing dispatched, no fix round used. */
    constructor (order: seq<string>, plan: map<string, Task>, dependencies: map<string, seq<string>>,
                 identities: IdentityRegistry,
                 receipts: ReceiptIssuerRegistry, budget: BudgetLedger, testHashes: map<string, string>)
      requires plan.Keys == dependencies.Keys && TaskDag.Closed(dependencies)
      requires forall k | k in plan :: plan[k].taskId == k
      requires receipts.identities == identities
      ensures Valid() && this.order == order
      ensures View() == Spec.Coord(dependencies, map k | k in plan :: NewAggregate(plan[k]), map[],
                                   map k | k in plan :: 0,
                                   budget.View(), receipts.View(), identities.members, testHashes)
    {
      this.order, this.dependencies, this.identities, this.receipts := order, dependencies, identities, receipts;
      this.budget, this.testHashes := budget, testHashes;
      tasks := map k | k in plan :: NewAggregate(plan[k]);
      activeIds := map[];
      fixRounds := map k | k in plan :: 0;
    }

    method FreezeTask(taskId: string, pm: Principal) returns (r: Option<Fault>)
      requires Valid()
      modifies this`tasks
      ensures Valid()
      ensures Performs(Spec.FreezeTask(old(View()), taskId, pm), old(View()), View(), r)
    {
      if !Holds(identities.members, pm, PM) {
        return Some(NotAuthorized);
      }
      if taskId !in tasks {
        return Some(UnknownKey);
      }
      var frozen := Freeze(tasks[taskId], identities.members, pm);
      if frozen.Err? {
        return Some(frozen.error);
      }
      tasks := tasks[taskId := frozen.value];
      r := None;
    }

    /** Gives a task's reservation back, at most once: the pop comes first, a failing release is swallowed. */
    method ReleaseDispatch(taskId: string)
      requires Valid()
      modifies this`activeIds, budget
      ensures Valid()
      ensures View() == Spec.ReleaseActive(old(View()), taskId)
    {
      if taskId in activeIds {
        var dispatchId := activeIds[taskId];
        activeIds := activeIds - {taskId};
        var _ := budget.ReleaseFor(dispatchId, 0, 0);
      }
    }

    /** Dispatch first, reserve second; a refused reservation strands the task. */
    method DispatchAndReserve(taskId: string, pm: Principal, key: string, tokenAllowance: int, costAllowance: int,
                              freshId: string)
      returns (r: Result<Spec.Plan, Fault>)
      requires Valid() && taskId in tasks
      modifies this`tasks, this`activeIds, budget
      ensures (View(), r) == Spec.Admit(old(View()), taskId, pm, key, tokenAllowance, costAllowance, freshId)
    {
      var started := StartDispatch(tasks[taskId], identities.members, pm, key, freshId);
      if started.Err? {
        return Err(started.error);
      }
      tasks := tasks[taskId := started.value];
      var ceiling := budget.ReserveFor(freshId, tokenAllowance, costAllowance);
      if ceiling.Some? {
        tasks := tasks[taskId := RecoverUnknown(started.value)];
        assert tasks == old(tasks)[taskId := RecoverUnknown(started.value)];
        return Err(ceiling.value);
      }
      activeIds := activeIds[taskId := freshId];
      r := Ok(Spec.Plan(taskId, freshId, started.value.task.policy, started.value.task.treeSha));
    }

    method BeginTask(taskId: string, pm: Principal, key: string, tokenAllowance: int, costAllowance: int,
                     freshId: string)
      returns (r: Result<Spec.Plan, Fault>)
      requires Valid()
      modifies this`tasks, this`activeIds, budget
      ensures Valid()
      ensures (View(), r) == Spec.Begin(old(View()), taskId, pm, key, tokenAllowance, costAllowance, freshId)
    {
      Spec.BeginKeepsShape(View(), taskId, pm, key, tokenAllowance, costAllowance, freshId);
      if !Holds(identities.members, pm, PM) {
        return Err(NotAuthorized);
      }
      if taskId !in tasks {
        return Err(UnknownKey);
      }
      if tasks[taskId].state != FROZEN || exists d | d in dependencies[taskId] :: tasks[d].state != VERIFIED {
        return Err(InvalidTransition);
      }
      if tokenAllowance < 0 || costAllowance < 0 {
        return Err(InvalidValue);
      }
      if key == "" {
        return Err(InvalidTransition);
      }
      if |budget.reservations| >= budget.maxWorkers || tokenAllowance > budget.tokens || costAllowance > budget.cost {
        return Err(BudgetExceeded);
      }
      r := DispatchAndReserve(taskId, pm, key, tokenAllowance, costAllowance, freshId);
    }

    method ReportProcessSucceeded(developer: Principal, taskId: string, dispatchId: string, treeSha: string)
      returns (r: Option<Fault>)
      requires Valid()
      modifies this`tasks
      ensures Valid()
      ensures Performs(Spec.ReportSucceeded(old(View()), developer, taskId, dispatchId, treeSha), old(View()), View(),
                       r)
    {
      if !Holds(identities.members, developer, DEVELOPER) {
        return Some(NotAuthorized);
      }
      if taskId !in tasks {
        return Some(UnknownKey);
      }
      var reported := ProcessSucceeded(tasks[taskId], dispatchId, treeSha);
      if reported.Err? {
        return Some(reported.error);
      }
      tasks := tasks[taskId := reported.value];
      r := None;
    }

    method BlockAndRelease(taskId: string)
      requires Valid() && taskId in tasks
      modifies this`tasks, this`activeIds, budget
      ensures Valid()
      ensures View() == Spec.BlockAndRelease(old(View()), taskId)
    {
      tasks := tasks[taskId := Block(tasks[taskId])];
      ReleaseDispatch(taskId);
    }

    method AcceptVerdict(qa: Principal, taskId: string, verdict: Verdict, decision: Decision)
      returns (r: Result<Decision, Fault>)
      requires Valid() && taskId in tasks
      modifies this`tasks, this`activeIds, budget
      ensures Valid()
      ensures (View(), r) == Spec.Accept(old(View()), qa, taskId, verdict, decision)
    {
      var accepted := QaVerified(tasks[taskId], identities.members, receipts.View(), qa, verdict);
      if accepted.Err? {
        return Err(accepted.error);
      }
      ghost var before := tasks;
      tasks := tasks[taskId := accepted.value];
      var final := MarkVerified(tasks[taskId], identities.members, qa);
      assert final.Ok?;  // the principal and the verdict are the ones accepted just above
      tasks := tasks[taskId := final.value];
      assert tasks == before[taskId := final.value];
      ReleaseDispatch(taskId);
      r := Ok(decision);
    }

    method CountRejection(taskId: string, round: nat, decision: Decision) returns (r: Result<Decision, Fault>)
      requires Valid() && taskId in tasks
      modifies this`tasks, this`activeIds, this`fixRounds, budget
      ensures Valid()
      ensures (View(), r) == Spec.Reject(old(View()), taskId, round, decision)
    {
      fixRounds := fixRounds[taskId := round + 1];
      if fixRounds[taskId] >= 3 {
        BlockAndRelease(taskId);
        return Ok(Spec.EXHAUSTED);
      }
      r := Ok(decision);
    }

    method JudgeReview(qa: Principal, taskId: string, s: Submission, round: nat, freshId: string)
      returns (r: Result<Decision, Fault>)
      requires Valid() && taskId in tasks && tasks[taskId].active.Some?
      modifies this`tasks, this`activeIds, this`fixRounds, budget, receipts
      ensures Valid()
      ensures (View(), r) == Spec.Judge(old(View()), qa, taskId, s, round, freshId)
    {
      var aggregate := tasks[taskId];
      var gate := new QaEvidenceGate(receipts, aggregate.task.criteria, testHashes);
      var decision, verdict := gate.CheckSubmission(qa, s, taskId, aggregate.active.value.dispatchId,
                                                    aggregate.task.treeSha,
                                                    round, freshId);
      assert (View(), decision, verdict) == (old(View()).(records := receipts.View()), decision, verdict)
             && (receipts.View(), decision, verdict) == Spec.Gate(old(View()), qa, taskId, s, round, freshId);
      if verdict.Some? && decision.status == QaPassed {
        r := AcceptVerdict(qa, taskId, verdict.value, decision);
      } else {
        r := CountRejection(taskId, round, decision);
      }
    }

    method QaReview(qa: Principal, taskId: string, s: Submission, claimedRound: int, freshId: string)
      returns (r: Result<Decision, Fault>)
      requires Valid()
      modifies this`tasks, this`activeIds, this`fixRounds, budget, receipts
      ensures Valid()
      ensures (View(), r) == Spec.QaReview(old(View()), qa, taskId, s, claimedRound, freshId)
    {
      if !Holds(identities.members, qa, QA) {
        return Err(NotAuthorized);
      }
      if taskId !in tasks {
        return Err(UnknownKey);
      }
      if tasks[taskId].state != PROCESS_SUCCEEDED || tasks[taskId].active.None? {
        return Err(InvalidTransition);
      }
      var round: nat := if claimedRound > fixRounds[taskId] then claimedRound else fixRounds[taskId];
      if round >= 3 {
        BlockAndRelease(taskId);
        return Ok(Spec.EXHAUSTED);
      }
      r := JudgeReview(qa, taskId, s, round, freshId);
    }

    method ReconcileRecovery(taskId: string, pm: Principal, newTree: Option<string>) returns (r: Option<Fault>)
      requires Valid()
      modifies this`tasks, this`activeIds, budget
      ensures Valid()
      ensures Performs(Spec.ReconcileRecovery(old(View()), taskId, pm, newTree), old(View()), View(), r)
    {
      if !Holds(identities.members, pm, PM) {
        return Some(NotAuthorized);
      }
      if taskId !in tasks {
        return Some(UnknownKey);
      }
      if tasks[taskId].state != RECOVERY_REQUIRED {
        return Some(InvalidTransition);
      }
      ReleaseDispatch(taskId);
      tasks := tasks[taskId := Reconcile(tasks[taskId], identities.members, pm, newTree).value];
      r := None;
    }

    /** Revokes success in every task that is not already at the new tree, one after the other. */
    method MoveAll(tree: string)
      requires tree != ""
      modifies this`tasks
      ensures tasks == map k | k in old(tasks) :: Spec.Moved(old(tasks)[k], tree)
    {
      ghost var before := tasks;
      var todo := tasks.Keys;
      while todo != {}
        invariant todo <= tasks.Keys == before.Keys
        invariant forall k | k in before :: tasks[k] == if k in todo then before[k] else Spec.Moved(before[k], tree)
        decreases |todo|
      {
        var k :| k in todo;
        todo := todo - {k};
        var a := tasks[k];
        if a.task.treeSha == tree {
          continue;
        }
        if a.state in {DISPATCHED, PROCESS_SUCCEEDED} {
          tasks := tasks[k := RecoverUnknown(a)];
          continue;
        }
        if a.state == RECOVERY_REQUIRED {
          continue;
        }
        if a.state == CREATED {
          tasks := tasks[k := a.(task := a.task.(treeSha := tree))];
        } else {
          tasks := tasks[k := ChangeTree(a, tree).value];
        }
      }
    }

    method UpdateTree(tree: string) returns (r: Option<Fault>)
      requires Valid()
      modifies this`tasks
      ensures Valid()
      ensures Performs(Spec.UpdateTree(old(View()), tree), old(View()), View(), r)
    {
      if tree == "" {
        return Some(InvalidValue);
      }
      ghost var before := tasks;
      MoveAll(tree);
      forall k | k in tasks ensures tasks[k].task.taskId == k {
        Spec.MovedCases(before[k], tree);
      }
      r := None;
    }
  }

  datatype BuildError = MismatchedPlan | MismatchedIdentity | BadPlan(cause: TaskDag.DagError) | NoTestPins

  /** The checks a coordinator makes before it exists. */
  method Build(runId: string, policy: string, plan: map<string, Task>, dependencies: map<string, seq<string>>,
               identities: IdentityRegistry, receipts: ReceiptIssuerRegistry, budget: BudgetLedger,
                 testHashes: map<string, string>)
    returns (r: Result<SupervisedCoordinator, BuildError>)
    requires receipts.identities == identities
    ensures r.Ok? ==> fresh(r.value) && r.value.Valid()
    ensures r.Ok? ==>
              TaskDag.DependencyOrder(dependencies, r.value.order) && TaskDag.Covers(dependencies, r.value.order)
    ensures r.Ok? && budget.reservations == map[] && Sound(budget.View())
            && receipts.View() == Records(map[], map[], map[]) ==>
              Spec.Initial(Spec.World(r.value.View(), {}))
    ensures r == Err(BadPlan(TaskDag.DependencyCycle)) ==> TaskDag.HasCycle(dependencies)
  {
    if plan == map[] || plan.Keys != dependencies.Keys {
      return Err(MismatchedPlan);
    }
    if exists k | k in plan.Keys :: plan[k].taskId != k || plan[k].runId != runId || plan[k].policy != policy {
      return Err(MismatchedIdentity);
    }
    var order := TaskDag.ValidateTaskDag(dependencies, map k | k in plan :: plan[k].criteria);
    if order.Err? {
      return Err(BadPlan(order.error));
    }
    if testHashes == map[] {
      return Err(NoTestPins);
    }
    var coordinator := new SupervisedCoordinator(order.value, plan, dependencies, identities, receipts, budget,
                                                 testHashes);
    r := Ok(coordinator);
  }
}
