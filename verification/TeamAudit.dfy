/** The audit after a crash: `reconcile_team_after_crash` of recovery/crash_recovery.py. */
module TeamAudit {
  import opened CrashRecovery

  datatype WorkerStatus = IDLE | RUNNING | PAUSED | INTERRUPTED | FAILED | ARCHIVED

  datatype WorkerRow = WorkerRow(sessionId: string, isWorker: bool, alive: bool, status: WorkerStatus)

  datatype QueueRow = QueueRow(dispatchId: string, sessionId: string, status: Status)

  predicate Died(s: WorkerRow) {
    s.isWorker && !s.alive && s.status in {WorkerStatus.RUNNING, WorkerStatus.PAUSED, WorkerStatus.IDLE}
  }

  function Stopped(item: QueueRow, ambiguous: bool): QueueRow {
    item.(status := StoppedStatus(item.status, ambiguous))
  }

  /** In-flight work of a dead worker is stopped; nothing else changes, and nothing is ever taken for completed. */
  predicate Audited(before: QueueRow, after: QueueRow, workers: seq<WorkerRow>, ambiguous: bool) {
    after == if exists s | s in workers :: Died(s) && s.sessionId == before.sessionId then Stopped(before, ambiguous)
      else before
  }

  class TeamAudit {
    var workers: seq<WorkerRow>
    var queue: seq<QueueRow>

    method StopTasksOf(sessionId: string, ambiguous: bool)
      modifies this`queue
      ensures |queue| == |old(queue)|
      ensures forall j | 0 <= j < |queue| ::
                queue[j] == if old(queue)[j].sessionId == sessionId then Stopped(old(queue)[j], ambiguous)
                  else old(queue)[j]
    {
      for j := 0 to |queue|
        invariant |queue| == |old(queue)|
        invariant forall k | 0 <= k < |queue| ::
                    queue[k] == if k < j && old(queue)[k].sessionId == sessionId then Stopped(old(queue)[k], ambiguous)
                                else old(queue)[k]
      {
        var item := queue[j];
        if item.sessionId == sessionId && item.status in {PENDING, DISPATCHED, Status.RUNNING} {
          if ambiguous && item.status in {DISPATCHED, Status.RUNNING} {
            queue := queue[j := item.(status := AMBIGUOUS)];
          } else {
            queue := queue[j := item.(status := Status.FAILED)];
          }
        }
      }
    }

    method ReconcileTeamAfterCrash(ambiguous: bool)
      modifies this
      ensures |workers| == |old(workers)| && |queue| == |old(queue)|
      ensures forall i | 0 <= i < |workers| ::
                workers[i] == if Died(old(workers)[i]) then old(workers)[i].(status := WorkerStatus.FAILED)
                  else old(workers)[i]
      ensures forall j | 0 <= j < |queue| :: Audited(old(queue)[j], queue[j], old(workers), ambiguous)
    {
      for i := 0 to |workers|
        invariant |workers| == |old(workers)| && |queue| == |old(queue)|
        invariant forall k | 0 <= k < |workers| ::
                    workers[k] == if k < i && Died(old(workers)[k]) then old(workers)[k].(status := WorkerStatus.FAILED)
                                  else old(workers)[k]
        invariant forall j | 0 <= j < |queue| :: Audited(old(queue)[j], queue[j], old(workers)[..i], ambiguous)
      {
        var s := workers[i];
        ghost var seen := old(workers)[..i + 1];
        assert seen == old(workers)[..i] + [s];
        if Died(s) {
          workers := workers[i := s.(status := WorkerStatus.FAILED)];
          StopTasksOf(s.sessionId, ambiguous);
        }
      }
      assert old(workers)[..|old(workers)|] == old(workers);
    }
  }
}
