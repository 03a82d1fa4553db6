/** `DurableMessageBus` of messaging/bus.py over the shared audit ledger. */
module MessageBus {
  import opened Prelude
  import opened BusProtocol
  import opened AuditChain
  import AuditLedger
  import Keys

  class DurableMessageBus {
    const ledger: AuditLedger.AuditLedger
    const stream: string

    constructor (ledger: AuditLedger.AuditLedger, stream: string)
      requires stream != ""
      ensures this.ledger == ledger && this.stream == stream
    {
      this.ledger, this.stream := ledger, stream;
    }

    method SendOnce(key: string, kind: string, payload: map<string, Json>) returns (r: Result<bool, Fault>)
      modifies ledger`events
      ensures var (l, answer) := AppendOnce(ledger.digest, old(ledger.View()), stream, key, kind, payload);
              ledger.View() == l && r == Created(answer)
    {
      var answer := ledger.AppendOnce(stream, key, kind, payload);
      r := if answer.Ok? then Ok(answer.value.1) else Err(answer.error);
    }

    method Enqueue(m: Message, activeTaskId: string, activeDispatchId: string) returns (r: Result<bool, Fault>)
      modifies ledger`events
      ensures var op := BusOp.Enqueue(m, activeTaskId, activeDispatchId);
              && ledger.View() == BusStep(ledger.digest, old(ledger.View()), stream, op)
              && r == Answer(ledger.digest, old(ledger.View()), stream, op)
    {
      if (m.taskId, m.dispatchId) != (activeTaskId, activeDispatchId) || m.sender == "*" || m.recipient == "*" {
        return Err(AccessDenied);
      }
      if Utf8Length(m.payload) > 65536 {
        return Err(InvalidValue);
      }
      r := SendOnce(Keys.MessageKey(m.messageId), QUEUED, Wire(m));
    }

    method Ack(messageId: string, recipientId: string) returns (r: Result<bool, Fault>)
      modifies ledger`events
      ensures var op := BusOp.Ack(messageId, recipientId, |Rows(old(ledger.View()), stream)|);
              && ledger.View() == BusStep(ledger.digest, old(ledger.View()), stream, op)
              && r == Answer(ledger.digest, old(ledger.View()), stream, op)
    {
      if messageId == "" || recipientId == "" {
        return Err(InvalidValue);
      }
      assert ReadBack(ledger.View(), stream, |Rows(ledger.View(), stream)|) == ledger.ReadRows(stream);
      var events := ledger.Read(stream, stream);
      if events.Err? {
        return Err(events.error);
      }
      var refusal := AckRefusal(ledger.digest, stream, events.value, messageId, recipientId);
      if refusal.Some? {
        return Err(refusal.value);
      }
      r := SendOnce(Keys.AckKey(messageId, recipientId), ACKED, AckData(messageId, recipientId));
    }
  }
}
