/** The value contracts of domain/contracts.py and the failures the control plane raises. */
module Contracts {
  datatype Role = PM | DEVELOPER | QA | SPECIALIST | EXECUTOR

  datatype TaskState = CREATED | FROZEN | DISPATCHED | PROCESS_SUCCEEDED | QA_VERIFIED | VERIFIED | BLOCKED
    | RECOVERY_REQUIRED

  datatype Task = Task(taskId: string, runId: string, criteria: seq<string>, treeSha: string, policy: string)

  datatype Dispatch = Dispatch(dispatchId: string, taskId: string, attempt: nat, key: string, treeSha: string,
                               policy: string)

  datatype Evidence = Evidence(evidenceId: string, receiptId: string, taskId: string, dispatchId: string,
                               treeSha: string)

  datatype Message = Message(messageId: string, sender: string, recipient: string, taskId: string, dispatchId: string,
                             payload: string)

  datatype Fault =
    | NotAuthorized      // PermissionError
    | InvalidValue       // ValueError
    | UnknownKey         // KeyError
    | InvalidTransition
    | StaleDispatch
    | BudgetExceeded
}
