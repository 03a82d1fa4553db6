/** The task aggregate of domain/engine.py: one task, its dispatch, and its stage. */
module Engine {
  import opened Prelude
  import opened Contracts
  import opened Registry

  datatype Aggregate = Aggregate(task: Task, state: TaskState, active: Option<Dispatch>, verifiedTree: Option<string>,
                                 verdict: Option<Verdict>, usedKeys: set<string>, attempt: nat)

  function NewAggregate(task: Task): Aggregate {
    Aggregate(task, CREATED, None, None, None, {}, 0)
  }

  function Freeze(a: Aggregate, members: Members, pm: Principal): Result<Aggregate, Fault> {
    if !Holds(members, pm, PM) then Err(NotAuthorized)
    else if a.state !in {CREATED, BLOCKED} then Err(InvalidTransition)
    else Ok(a.(state := FROZEN))
  }

  function StartDispatch(a: Aggregate, members: Members, pm: Principal, key: string, freshId: string)
    : Result<Aggregate, Fault>
  {
    if !Holds(members, pm, PM) then Err(NotAuthorized)
    else if a.state != FROZEN then Err(InvalidTransition)
    else if key == "" || key in a.usedKeys then Err(InvalidTransition)
    else
      Ok(a.(usedKeys := a.usedKeys + {key}, attempt := a.attempt + 1, state := DISPATCHED,
            active := Some(Dispatch(freshId, a.task.taskId, a.attempt + 1, key, a.task.treeSha, a.task.policy))))
  }

  predicate IsCurrent(a: Aggregate, dispatchId: string, treeSha: string) {
    a.active.Some? && a.active.value.dispatchId == dispatchId && a.active.value.treeSha == treeSha
      && treeSha == a.task.treeSha
  }

  function ProcessSucceeded(a: Aggregate, dispatchId: string, treeSha: string): Result<Aggregate, Fault> {
    if !IsCurrent(a, dispatchId, treeSha) then Err(StaleDispatch)
    else if a.state != DISPATCHED then Err(InvalidTransition)
    else Ok(a.(state := PROCESS_SUCCEEDED))
  }

  function QaVerified(a: Aggregate, members: Members, rec: Records, qa: Principal, verdict: Verdict)
    : Result<Aggregate, Fault>
  {
    if !Holds(members, qa, QA) then Err(NotAuthorized)
    else if a.state != PROCESS_SUCCEEDED || a.active.None? then Err(InvalidTransition)
    else if !VerdictStands(rec, verdict, a.task.taskId, a.active.value.dispatchId, a.task.treeSha) then
      Err(NotAuthorized)
    else if verdict.qaPrincipalId != qa.principalId then Err(NotAuthorized)
    else Ok(a.(verdict := Some(verdict), state := QA_VERIFIED))
  }

  function MarkVerified(a: Aggregate, members: Members, qa: Principal): Result<Aggregate, Fault> {
    if !Holds(members, qa, QA) then Err(NotAuthorized)
    else if a.state != QA_VERIFIED || a.verdict.None? then Err(InvalidTransition)
    else if a.verdict.value.qaPrincipalId != qa.principalId then Err(NotAuthorized)
    else Ok(a.(state := VERIFIED, verifiedTree := Some(a.task.treeSha)))
  }

  function ChangeTree(a: Aggregate, tree: string): Result<Aggregate, Fault> {
    if tree == "" then Err(InvalidValue)
    else if tree == a.task.treeSha then Ok(a)
    else if a.state == RECOVERY_REQUIRED then Err(InvalidTransition)
    else Ok(a.(task := a.task.(treeSha := tree), state := FROZEN, verifiedTree := None, verdict := None,
               active := None))
  }

  /** `new_tree_sha or self.task.tree_sha` */
  function TreeOr(newTree: Option<string>, current: string): string {
    if newTree.None? || newTree.value == "" then current else newTree.value
  }

  function Reconcile(a: Aggregate, members: Members, pm: Principal, newTree: Option<string>): Result<Aggregate, Fault> {
    if !Holds(members, pm, PM) then Err(NotAuthorized)
    else if a.state != RECOVERY_REQUIRED then Err(InvalidTransition)
    else Ok(a.(task := a.task.(treeSha := TreeOr(newTree, a.task.treeSha)), state := FROZEN,
               active := None, verifiedTree := None, verdict := None))
  }

  function Block(a: Aggregate): Aggregate {
    a.(state := BLOCKED, verdict := None, verifiedTree := None)
  }

  function RecoverUnknown(a: Aggregate): Aggregate {
    a.(state := RECOVERY_REQUIRED, verdict := None, verifiedTree := None)
  }

  /** A method that performs a specification step, or refuses and changes nothing. */
  ghost predicate Performs<S>(step: Result<S, Fault>, before: S, after: S, r: Option<Fault>) {
    match step
    case Ok(next) => after == next && r == None
    case Err(e) => after == before && r == Some(e)
  }

  class TaskAggregate {
    const identities: IdentityRegistry
    const receipts: ReceiptIssuerRegistry
    var task: Task
    var state: TaskState
    var active: Option<Dispatch>
    var verifiedTree: Option<string>
    var qaVerdict: Option<Verdict>
    var usedKeys: set<string>
    var attempt: nat

    function View(): Aggregate
      reads this
    {
      Aggregate(task, state, active, verifiedTree, qaVerdict, usedKeys, attempt)
    }

    constructor (task: Task, identities: IdentityRegistry, receipts: ReceiptIssuerRegistry)
      ensures this.identities == identities && this.receipts == receipts
      ensures View() == NewAggregate(task)
    {
      this.task, this.identities, this.receipts := task, identities, receipts;
      state, active, verifiedTree, qaVerdict, usedKeys, attempt := CREATED, None, None, None, {}, 0;
    }

    method FreezeTask(pm: Principal) returns (r: Option<Fault>)
      modifies this
      ensures Performs(Freeze(old(View()), identities.members, pm), old(View()), View(), r)
    {
      if !Holds(identities.members, pm, PM) {
        return Some(NotAuthorized);
      }
      if state !in {CREATED, BLOCKED} {
        return Some(InvalidTransition);
      }
      state := FROZEN;
      r := None;
    }

    method DispatchTask(pm: Principal, key: string, freshId: string) returns (r: Option<Fault>)
      modifies this
      ensures Performs(StartDispatch(old(View()), identities.members, pm, key, freshId), old(View()), View(), r)
    {
      if !Holds(identities.members, pm, PM) {
        return Some(NotAuthorized);
      }
      if state != FROZEN || key == "" || key in usedKeys {
        return Some(InvalidTransition);
      }
      usedKeys := usedKeys + {key};
      attempt := attempt + 1;
      active := Some(Dispatch(freshId, task.taskId, attempt, key, task.treeSha, task.policy));
      state := DISPATCHED;
      r := None;
    }

    method ReportSucceeded(dispatchId: string, treeSha: string) returns (r: Option<Fault>)
      modifies this
      ensures Performs(ProcessSucceeded(old(View()), dispatchId, treeSha), old(View()), View(), r)
    {
      if !IsCurrent(View(), dispatchId, treeSha) {
        return Some(StaleDispatch);
      }
      if state != DISPATCHED {
        return Some(InvalidTransition);
      }
      state := PROCESS_SUCCEEDED;
      r := None;
    }

    method AcceptVerdict(qa: Principal, verdict: Verdict) returns (r: Option<Fault>)
      modifies this
      ensures Performs(QaVerified(old(View()), identities.members, receipts.View(), qa, verdict), old(View()), View(),
                       r)
    {
      if !Holds(identities.members, qa, QA) {
        return Some(NotAuthorized);
      }
      if state != PROCESS_SUCCEEDED || active.None? {
        return Some(InvalidTransition);
      }
      if !VerdictStands(receipts.View(), verdict, task.taskId, active.value.dispatchId, task.treeSha)
         || verdict.qaPrincipalId != qa.principalId {
        return Some(NotAuthorized);
      }
      qaVerdict := Some(verdict);
      state := QA_VERIFIED;
      r := None;
    }

    method Finalize(qa: Principal) returns (r: Option<Fault>)
      modifies this
      ensures Performs(MarkVerified(old(View()), identities.members, qa), old(View()), View(), r)
    {
      if !Holds(identities.members, qa, QA) {
        return Some(NotAuthorized);
      }
      if state != QA_VERIFIED || qaVerdict.None? {
        return Some(InvalidTransition);
      }
      if qaVerdict.value.qaPrincipalId != qa.principalId {
        return Some(NotAuthorized);
      }
      state := VERIFIED;
      verifiedTree := Some(task.treeSha);
      r := None;
    }

    method MoveTree(tree: string) returns (r: Option<Fault>)
      modifies this
      ensures Performs(ChangeTree(old(View()), tree), old(View()), View(), r)
    {
      if tree == "" {
        return Some(InvalidValue);
      }
      if tree == task.treeSha {
        return None;
      }
      if state == RECOVERY_REQUIRED {
        return Some(InvalidTransition);
      }
      task := task.(treeSha := tree);
      state := FROZEN;
      verifiedTree, qaVerdict, active := None, None, None;
      r := None;
    }

    method ReconcileTask(pm: Principal, newTree: Option<string>) returns (r: Option<Fault>)
      modifies this
      ensures Performs(Reconcile(old(View()), identities.members, pm, newTree), old(View()), View(), r)
    {
      if !Holds(identities.members, pm, PM) {
        return Some(NotAuthorized);
      }
      if state != RECOVERY_REQUIRED {
        return Some(InvalidTransition);
      }
      task := task.(treeSha := TreeOr(newTree, task.treeSha));
      state := FROZEN;
      active, verifiedTree, qaVerdict := None, None, None;
      r := None;
    }

    method BlockTask()
      modifies this
      ensures View() == Block(old(View()))
    {
      state := BLOCKED;
      qaVerdict, verifiedTree := None, None;
    }

    method LoseTask()
      modifies this
      ensures View() == RecoverUnknown(old(View()))
    {
      state := RECOVERY_REQUIRED;
      qaVerdict, verifiedTree := None, None;
    }
  }
}
