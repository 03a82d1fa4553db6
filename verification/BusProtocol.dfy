/** The message bus of messaging/bus.py as a client of the audit chain, on values. */
module BusProtocol {
  import opened Prelude
  import opened AuditChain
  import Contracts
  import Keys

  type Message = Contracts.Message

  const QUEUED := "MESSAGE_QUEUED"
  const ACKED := "MESSAGE_ACK"

  function Utf8Length(s: string): nat {
    if s == [] then 0
    else
      var c := s[0] as int;
      (if c < 0x80 then 1 else if c < 0x800 then 2 else if c < 0x10000 then 3 else 4) + Utf8Length(s[1..])
  }

  function Wire(m: Message): map<string, Json> {
    map["message_id" := JText(m.messageId), "from_principal" := JText(m.sender), "to_principal" := JText(m.recipient),
        "task_id" := JText(m.taskId), "dispatch_id" := JText(m.dispatchId), "payload" := JText(m.payload)]
  }

  function AckData(messageId: string, recipientId: string): map<string, Json> {
    map["message_id" := JText(messageId), "recipient_id" := JText(recipientId)]
  }

  predicate HasField(r: Row, name: string) {
    r.payload.JObject? && name in r.payload.fields
  }

  predicate FieldIs(r: Row, name: string, value: string) {
    HasField(r, name) && r.payload.fields[name] == JText(value)
  }

  function Found(rows: seq<Row>, messageId: string): seq<Row> {
    if rows == [] then []
    else
      (if rows[0].kind == QUEUED && FieldIs(rows[0], "message_id", messageId) then [rows[0]] else [])
      + Found(rows[1..], messageId)
  }

  /** Why a message is turned away before it reaches the ledger. */
  function EnqueueRefusal(m: Message, activeTaskId: string, activeDispatchId: string): Option<Fault> {
    if (m.taskId, m.dispatchId) != (activeTaskId, activeDispatchId) then Some(AccessDenied)
    else if m.sender == "*" || m.recipient == "*" then Some(AccessDenied)
    else if Utf8Length(m.payload) > 65536 then Some(InvalidValue)
    else None
  }

  /** Why an acknowledgement is turned away: it looks at the stream as it was read, which may be out of date. */
  function AckRefusal(digest: Digest, stream: string, seen: seq<Row>, messageId: string, recipientId: string)
    : Option<Fault>
  {
    var found := Found(seen, messageId);
    if messageId == "" || recipientId == "" then Some(InvalidValue)
    else if !Chained(digest, stream, seen) then Some(IntegrityMismatch)
    else if exists r | r in seen :: r.kind == QUEUED && !HasField(r, "message_id") then Some(UnknownKey)
    else if |found| != 1 then Some(AccessDenied)
    else if !HasField(found[0], "to_principal") then Some(UnknownKey)
    else if !FieldIs(found[0], "to_principal", recipientId) then Some(AccessDenied)
    else None
  }

  /** `Other` is any other client of the ledger; `seen` is how many rows the acknowledgement's read returned. */
  datatype BusOp =
    | Enqueue(m: Message, activeTaskId: string, activeDispatchId: string)
    | Ack(messageId: string, recipientId: string, seen: nat)
    | Other(op: Op)

  /** The rows of the stream at an earlier moment: streams only grow, so it is a prefix. */
  function ReadBack(l: Ledger, stream: string, seen: nat): seq<Row> {
    var rows := Rows(l, stream);
    if seen <= |rows| then rows[..seen] else rows
  }

  function Refusal(digest: Digest, l: Ledger, stream: string, op: BusOp): Option<Fault> {
    match op
    case Enqueue(m, activeTaskId, activeDispatchId) => EnqueueRefusal(m, activeTaskId, activeDispatchId)
    case Ack(messageId, recipientId, seen) =>
      AckRefusal(digest, stream, ReadBack(l, stream, seen), messageId, recipientId)
    case Other(_) => None
  }

  function Call(stream: string, op: BusOp): Op {
    match op
    case Enqueue(m, _, _) => Append(stream, Keys.MessageKey(m.messageId), QUEUED, Wire(m))
    case Ack(messageId, recipientId, _) =>
      Append(stream, Keys.AckKey(messageId, recipientId), ACKED, AckData(messageId, recipientId))
    case Other(o) => o
  }

  function BusStep(digest: Digest, l: Ledger, stream: string, op: BusOp): Ledger {
    if Refusal(digest, l, stream, op).Some? then l else Step(digest, l, Call(stream, op))
  }

  function Created(r: Result<(Row, bool), Fault>): Result<bool, Fault> {
    match r case Ok(answer) => Ok(answer.1) case Err(e) => Err(e)
  }

  /** What `enqueue` and `ack` answer: whether this call was the first. */
  function Answer(digest: Digest, l: Ledger, stream: string, op: BusOp): Result<bool, Fault>
    requires !op.Other?
  {
    match Refusal(digest, l, stream, op)
    case Some(e) => Err(e)
    case None =>
      var call := Call(stream, op);
      Created(AppendOnce(digest, l, stream, call.key, call.kind, call.payload).1)
  }

  function BusRun(digest: Digest, l: Ledger, stream: string, ops: seq<BusOp>): Ledger
    decreases |ops|
  {
    if ops == [] then l else BusRun(digest, BusStep(digest, l, stream, ops[0]), stream, ops[1..])
  }

  /** Nobody appends to the bus's stream but the bus; sessions may be reconciled on it, and other streams are free. */
  predicate Proper(stream: string, op: BusOp) {
    op.Other? && op.op.Append? ==> op.op.stream != stream
  }

  predicate AllProper(stream: string, ops: seq<BusOp>) {
    forall i | 0 <= i < |ops| :: Proper(stream, ops[i])
  }

  // ---------------------------------------------------------------- what a bus stream consists of

  ghost predicate Carries(r: Row, m: Message) {
    r.key == Keys.MessageKey(m.messageId) && r.kind == QUEUED && r.payload == JObject(Wire(m))
  }

  ghost predicate AckOf(r: Row, messageId: string, recipientId: string) {
    r.key == Keys.AckKey(messageId, recipientId) && r.kind == ACKED
      && r.payload == JObject(AckData(messageId, recipientId))
  }

  ghost predicate Addressed(rows: seq<Row>, i: nat, messageId: string, recipientId: string) {
    exists j, m :: 0 <= j < i <= |rows| && Carries(rows[j], m) && m.messageId == messageId && m.recipient == recipientId
  }

  ghost predicate BusRow(rows: seq<Row>, i: nat)
    requires i < |rows|
  {
    || (exists m :: Carries(rows[i], m))
    || (exists messageId, recipientId ::
          AckOf(rows[i], messageId, recipientId) && Addressed(rows, i, messageId, recipientId))
    || (exists sessionId, evidenceKey :: ClosingRow(rows[i], sessionId, evidenceKey))
  }

  ghost predicate BusRows(rows: seq<Row>) {
    forall i | 0 <= i < |rows| :: BusRow(rows, i)
  }

  ghost predicate BusInv(digest: Digest, l: Ledger, stream: string) {
    Inv(digest, l) && BusRows(Rows(l, stream))
  }

  /** One character at which a lower-case name differs from every private name of its length. */
  lemma NotPrivate(name: string, at: nat)
    requires at < |name| && forall i | 0 <= i < |name| :: name[i] != '-' && Lowered(name[i]) == name[i]
    requires forall k | k in PRIVATE_KEYS && |k| == |name| :: k[at] != name[at]
    ensures !Private(name)
  {}

  /** Nothing in a flat record of texts under public names is masked. */
  lemma PublicTextsKept(fields: map<string, Json>)
    requires forall k | k in fields :: !Private(k) && fields[k].JText?
    ensures Scrub(JObject(fields)) == JObject(fields)
  {}

  lemma IdentityNamesPublic()
    ensures !Private("message_id") && !Private("from_principal") && !Private("to_principal")
  {
    NotPrivate("message_id", 7);
    NotPrivate("from_principal", 0);
    NotPrivate("to_principal", 0);
  }

  lemma ScopeNamesPublic()
    ensures !Private("task_id") && !Private("dispatch_id")
  {
    NotPrivate("task_id", 0);
    NotPrivate("dispatch_id", 1);
  }

  lemma ContentNamesPublic()
    ensures !Private("payload") && !Private("recipient_id")
  {
    NotPrivate("payload", 6);
    NotPrivate("recipient_id", 5);
  }

  lemma WireIsKept(m: Message)
    ensures Scrub(JObject(Wire(m))) == JObject(Wire(m))
  {
    IdentityNamesPublic();
    ScopeNamesPublic();
    ContentNamesPublic();
    PublicTextsKept(Wire(m));
  }

  lemma AckDataIsKept(messageId: string, recipientId: string)
    ensures Scrub(JObject(AckData(messageId, recipientId))) == JObject(AckData(messageId, recipientId))
  {
    IdentityNamesPublic();
    ContentNamesPublic();
    PublicTextsKept(AckData(messageId, recipientId));
  }

  lemma NotBlank(s: string)
    requires s != [] && !Space(s[0])
    ensures !Blank(s)
  {}

  /** A bus that is not refused appends exactly the row its call describes. */
  lemma PlainAppend(digest: Digest, l: Ledger, stream: string, op: BusOp)
    requires BusInv(digest, l, stream) && !op.Other? && Refusal(digest, l, stream, op).None? && !Blank(stream)
    ensures var call, rows := Call(stream, op), Rows(l, stream);
            && Scrub(JObject(call.payload)) == JObject(call.payload)
            && (match FindKey(rows, call.key)
                case None =>
                  && Answer(digest, l, stream, op) == Ok(true)
                  && Rows(BusStep(digest, l, stream, op), stream)
                     == rows + [NextRow(digest, stream, rows, call.key, call.kind, JObject(call.payload))]
                case Some(r) =>
                  && BusStep(digest, l, stream, op) == l
                  && Answer(digest, l, stream, op)
                     == if (r.kind, r.payload) == (call.kind, JObject(call.payload)) then Ok(false)
                       else Err(ReplayConflict))
  {
    var call := Call(stream, op);
    if op.Enqueue? { WireIsKept(op.m); } else { AckDataIsKept(op.messageId, op.recipientId); }
    InvAtAnyStream(digest, l, stream);
    NotBlank(call.key);
    NotBlank(call.kind);
  }

  // ---------------------------------------------------------------- the invariant over every interleaving

  lemma PrefixKeepsBusRows(rows: seq<Row>, row: Row)
    requires BusRows(rows)
    requires BusRow(rows + [row], |rows|)
    ensures BusRows(rows + [row])
  {
    var longer := rows + [row];
    forall i | 0 <= i < |rows| ensures BusRow(longer, i) {
      assert BusRow(rows, i) && longer[i] == rows[i];
      if m, r :| AckOf(rows[i], m, r) && Addressed(rows, i, m, r) {
        var j, msg :| 0 <= j < i && Carries(rows[j], msg) && msg.messageId == m && msg.recipient == r;
        assert longer[j] == rows[j];
        assert Addressed(longer, i, m, r);
      }
    }
  }

  lemma FoundIsThere(rows: seq<Row>, messageId: string, r: Row)
    requires r in Found(rows, messageId)
    ensures r in rows && r.kind == QUEUED && FieldIs(r, "message_id", messageId)
  {}

  /** A queued row that names a message is that message's row. */
  lemma QueuedRowCarries(rows: seq<Row>, i: nat) returns (m: Message)
    requires BusRows(rows) && i < |rows| && rows[i].kind == QUEUED
    ensures Carries(rows[i], m)
  {
    assert BusRow(rows, i);
    assert QUEUED != ACKED && QUEUED != RECONCILED by {
      assert |QUEUED| == 14 && |ACKED| == 11 && |RECONCILED| == 19;
    }
    m :| Carries(rows[i], m);
  }

  lemma AckedRowAddressed(rows: seq<Row>, i: nat) returns (messageId: string, recipientId: string)
    requires BusRows(rows) && i < |rows| && rows[i].kind == ACKED
    ensures AckOf(rows[i], messageId, recipientId) && Addressed(rows, i, messageId, recipientId)
  {
    assert BusRow(rows, i);
    assert QUEUED != ACKED && ACKED != RECONCILED by {
      assert |QUEUED| == 14 && |ACKED| == 11 && |RECONCILED| == 19;
    }
    messageId, recipientId :| AckOf(rows[i], messageId, recipientId) && Addressed(rows, i, messageId, recipientId);
  }

  /** The queued row of a message among those a read returned. */
  ghost predicate QueuedTo(seen: seq<Row>, messageId: string, recipientId: string) {
    exists j, m :: 0 <= j < |seen| && Carries(seen[j], m) && m.messageId == messageId && m.recipient == recipientId
  }

  lemma PassedIsQueuedTo(digest: Digest, l: Ledger, stream: string, seen: seq<Row>, messageId: string,
                         recipientId: string)
    requires BusInv(digest, l, stream) && seen <= Rows(l, stream)
    requires AckRefusal(digest, stream, seen, messageId, recipientId).None?
    ensures QueuedTo(seen, messageId, recipientId)
  {
    var rows, r := Rows(l, stream), Found(seen, messageId)[0];
    FoundIsThere(seen, messageId, r);
    var j :| 0 <= j < |seen| && seen[j] == r;
    assert rows[j] == r;
    var m := QueuedRowCarries(rows, j);
    assert Carries(seen[j], m) && JText(m.messageId) == JText(messageId) && JText(m.recipient) == JText(recipientId);
  }

  /** An acknowledgement that passes its check is for a message that is queued to that very recipient. */
  lemma AcceptedAckAddressed(digest: Digest, l: Ledger, stream: string, op: BusOp)
    requires BusInv(digest, l, stream) && op.Ack? && Refusal(digest, l, stream, op).None?
    ensures Addressed(Rows(l, stream), |Rows(l, stream)|, op.messageId, op.recipientId)
  {
    var rows, seen := Rows(l, stream), ReadBack(l, stream, op.seen);
    PassedIsQueuedTo(digest, l, stream, seen, op.messageId, op.recipientId);
    var j, m :| 0 <= j < |seen| && Carries(seen[j], m) && m.messageId == op.messageId && m.recipient == op.recipientId;
    assert Carries(rows[j], m);
  }

  lemma BusCallKeepsInv(digest: Digest, l: Ledger, stream: string, op: BusOp)
    requires BusInv(digest, l, stream) && !op.Other? && Refusal(digest, l, stream, op).None? && !Blank(stream)
    ensures BusInv(digest, BusStep(digest, l, stream, op), stream)
  {
    var call, rows := Call(stream, op), Rows(l, stream);
    StepKeepsInv(digest, l, call);
    PlainAppend(digest, l, stream, op);
    if FindKey(rows, call.key).None? {
      var row := NextRow(digest, stream, rows, call.key, call.kind, JObject(call.payload));
      var longer := rows + [row];
      if op.Enqueue? {
        assert Carries(longer[|rows|], op.m);
      } else {
        AcceptedAckAddressed(digest, l, stream, op);
        AddressedInLonger(rows, row, op.messageId, op.recipientId);
        assert AckOf(longer[|rows|], op.messageId, op.recipientId);
      }
      PrefixKeepsBusRows(rows, row);
    }
  }

  lemma AddressedInLonger(rows: seq<Row>, row: Row, messageId: string, recipientId: string)
    requires Addressed(rows, |rows|, messageId, recipientId)
    ensures Addressed(rows + [row], |rows|, messageId, recipientId)
  {
    var j, m :| 0 <= j < |rows| && Carries(rows[j], m) && m.messageId == messageId && m.recipient == recipientId;
    assert Carries((rows + [row])[j], m);
  }

  lemma OtherKeepsInv(digest: Digest, l: Ledger, stream: string, op: BusOp)
    requires BusInv(digest, l, stream) && op.Other? && Proper(stream, op)
    ensures BusInv(digest, BusStep(digest, l, stream, op), stream)
  {
    var rows, l' := Rows(l, stream), BusStep(digest, l, stream, op);
    StepKeepsInv(digest, l, op.op);
    StepExtends(digest, l, op.op, stream);
    if Rows(l', stream) != rows {
      var o := op.op;
      var row := NextRow(digest, stream, rows, Keys.RecoveryKey(o.sessionId, o.evidenceKey), RECONCILED,
                         ClosingData(o.sessionId, o.evidenceKey));
      assert Rows(l', stream) == rows + [row];
      assert ClosingRow((rows + [row])[|rows|], o.sessionId, o.evidenceKey);
      PrefixKeepsBusRows(rows, row);
    }
  }

  lemma {:induction false} BusRunKeepsInv(digest: Digest, l: Ledger, stream: string, ops: seq<BusOp>)
    requires BusInv(digest, l, stream) && AllProper(stream, ops) && !Blank(stream)
    ensures BusInv(digest, BusRun(digest, l, stream, ops), stream)
    decreases |ops|
  {
    if ops != [] {
      assert Proper(stream, ops[0]);
      if Refusal(digest, l, stream, ops[0]).None? {
        if ops[0].Other? {
          OtherKeepsInv(digest, l, stream, ops[0]);
        } else {
          BusCallKeepsInv(digest, l, stream, ops[0]);
        }
      }
      BusRunKeepsInv(digest, BusStep(digest, l, stream, ops[0]), stream, ops[1..]);
    }
  }

  // ---------------------------------------------------------------- exactly once

  /** In every reachable bus stream a message id is queued at most once. */
  lemma QueuedOnce(digest: Digest, l: Ledger, stream: string, i: nat, j: nat, messageId: string)
    requires BusInv(digest, l, stream) && i < |Rows(l, stream)| && j < |Rows(l, stream)|
    requires var rows := Rows(l, stream);
             && rows[i].kind == QUEUED && FieldIs(rows[i], "message_id", messageId)
             && rows[j].kind == QUEUED && FieldIs(rows[j], "message_id", messageId)
    ensures i == j
  {
    InvAtAnyStream(digest, l, stream);
    var m := QueuedRowCarries(Rows(l, stream), i);
    var m' := QueuedRowCarries(Rows(l, stream), j);
    assert m.messageId == m'.messageId;
  }

  lemma AddresseeRow(rows: seq<Row>, i: nat) returns (j: nat)
    requires BusRows(rows) && i < |rows| && rows[i].kind == ACKED
    ensures j < i && rows[j].kind == QUEUED
    ensures HasField(rows[i], "message_id") && HasField(rows[j], "message_id")
    ensures HasField(rows[i], "recipient_id") && HasField(rows[j], "to_principal")
    ensures rows[j].payload.fields["message_id"] == rows[i].payload.fields["message_id"]
    ensures rows[j].payload.fields["to_principal"] == rows[i].payload.fields["recipient_id"]
  {
    var messageId, recipientId := AckedRowAddressed(rows, i);
    var k, m :| 0 <= k < i && Carries(rows[k], m) && m.messageId == messageId && m.recipient == recipientId;
    j := k;
  }

  /** An acknowledgement stands after the queued message it names, and its author is the message's addressee. */
  lemma AckedByAddressee(digest: Digest, l: Ledger, stream: string, i: nat) returns (j: nat)
    requires BusInv(digest, l, stream) && i < |Rows(l, stream)| && Rows(l, stream)[i].kind == ACKED
    ensures var rows := Rows(l, stream);
            && j < i && rows[j].kind == QUEUED
            && HasField(rows[i], "message_id") && HasField(rows[j], "message_id")
            && HasField(rows[i], "recipient_id") && HasField(rows[j], "to_principal")
            && rows[j].payload.fields["message_id"] == rows[i].payload.fields["message_id"]
            && rows[j].payload.fields["to_principal"] == rows[i].payload.fields["recipient_id"]
  {
    InvAtAnyStream(digest, l, stream);
    j := AddresseeRow(Rows(l, stream), i);
  }

  /** ... and there is at most one acknowledgement of a message, whoever else may ask. */
  lemma AckedOnce(digest: Digest, l: Ledger, stream: string, i: nat, j: nat, messageId: string)
    requires BusInv(digest, l, stream) && i < |Rows(l, stream)| && j < |Rows(l, stream)|
    requires var rows := Rows(l, stream);
             && rows[i].kind == ACKED && FieldIs(rows[i], "message_id", messageId)
             && rows[j].kind == ACKED && FieldIs(rows[j], "message_id", messageId)
    ensures i == j
  {
    InvAtAnyStream(digest, l, stream);
    var rows := Rows(l, stream);
    var a, r := AckedRowAddressed(rows, i);
    var a', r' := AckedRowAddressed(rows, j);
    var p := AckedByAddressee(digest, l, stream, i);
    var p' := AckedByAddressee(digest, l, stream, j);
    QueuedOnce(digest, l, stream, p, p', messageId);
    assert JText(r) == JText(r');
  }

  /** A row whose key is a message key is that message's queued row: no other key can look like it. */
  lemma MessageKeyMeansQueued(rows: seq<Row>, i: nat, messageId: string)
    requires BusRows(rows) && i < |rows|
    ensures rows[i].key == Keys.MessageKey(messageId)
            <==> rows[i].kind == QUEUED && FieldIs(rows[i], "message_id", messageId)
  {
    assert BusRow(rows, i);
    if m :| Carries(rows[i], m) {
      Keys.MessageKeyInjective(m.messageId, messageId);
    } else if a, r :| AckOf(rows[i], a, r) {
      Keys.KeySpacesDisjoint(messageId, a, r, "", "");
      assert |QUEUED| == 14 && |ACKED| == 11;
    } else {
      var s, e :| ClosingRow(rows[i], s, e);
      Keys.KeySpacesDisjoint(messageId, "", "", s, e);
      assert |QUEUED| == 14 && |RECONCILED| == 19;
    }
  }

  lemma AckKeyMeansAcked(rows: seq<Row>, i: nat, messageId: string, recipientId: string)
    requires BusRows(rows) && i < |rows| && rows[i].key == Keys.AckKey(messageId, recipientId)
    ensures AckOf(rows[i], messageId, recipientId)
  {
    assert BusRow(rows, i);
    if a, r :| AckOf(rows[i], a, r) {
      Keys.AckKeyInjective(a, r, messageId, recipientId);
    } else if m :| Carries(rows[i], m) {
      Keys.KeySpacesDisjoint(m.messageId, messageId, recipientId, "", "");
      assert false;
    } else {
      var s, e :| ClosingRow(rows[i], s, e);
      Keys.KeySpacesDisjoint("", messageId, recipientId, s, e);
      assert false;
    }
  }

  ghost predicate IsQueued(rows: seq<Row>, messageId: string) {
    exists i :: 0 <= i < |rows| && rows[i].kind == QUEUED && FieldIs(rows[i], "message_id", messageId)
  }

  ghost predicate IsAcked(rows: seq<Row>, messageId: string) {
    exists i :: 0 <= i < |rows| && rows[i].kind == ACKED && FieldIs(rows[i], "message_id", messageId)
  }

  lemma KeyFoundIffQueued(rows: seq<Row>, messageId: string)
    requires BusRows(rows)
    ensures FindKey(rows, Keys.MessageKey(messageId)).Some? <==> IsQueued(rows, messageId)
  {
    var key := Keys.MessageKey(messageId);
    forall i | 0 <= i < |rows|
      ensures rows[i].key == key <==> rows[i].kind == QUEUED && FieldIs(rows[i], "message_id", messageId)
    {
      MessageKeyMeansQueued(rows, i, messageId);
    }
    if FindKey(rows, key).Some? {
      var i :| 0 <= i < |rows| && rows[i] == FindKey(rows, key).value;
    }
  }

  lemma CarriedIsFound(rows: seq<Row>, m: Message)
    requires UniqueKeys(rows)
    ensures (exists i :: 0 <= i < |rows| && Carries(rows[i], m))
            <==> FindKey(rows, Keys.MessageKey(m.messageId)).Some?
                 && Carries(FindKey(rows, Keys.MessageKey(m.messageId)).value, m)
  {}

  /**
   What `enqueue` answers to an admissible message: True exactly when its id was never queued,
   False exactly when this very message was, and a conflict exactly when another with its id was.
   */
  lemma EnqueueAnswers(digest: Digest, l: Ledger, stream: string, op: BusOp)
    requires BusInv(digest, l, stream) && !Blank(stream) && op.Enqueue? && Refusal(digest, l, stream, op).None?
    ensures var rows, answer := Rows(l, stream), Answer(digest, l, stream, op);
            && (answer == Ok(true) <==> !IsQueued(rows, op.m.messageId))
            && (answer == Ok(false) <==> exists i :: 0 <= i < |rows| && Carries(rows[i], op.m))
            && (answer.Err? ==> answer.error == ReplayConflict)
  {
    PlainAppend(digest, l, stream, op);
    InvAtAnyStream(digest, l, stream);
    KeyFoundIffQueued(Rows(l, stream), op.m.messageId);
    CarriedIsFound(Rows(l, stream), op.m);
  }

  /** What `ack` answers once its check has passed: True exactly for the first acknowledgement; it never conflicts. */
  lemma AckAnswers(digest: Digest, l: Ledger, stream: string, op: BusOp)
    requires BusInv(digest, l, stream) && !Blank(stream) && op.Ack? && Refusal(digest, l, stream, op).None?
    ensures Answer(digest, l, stream, op) == Ok(!IsAcked(Rows(l, stream), op.messageId))
  {
    var rows, key := Rows(l, stream), Keys.AckKey(op.messageId, op.recipientId);
    PlainAppend(digest, l, stream, op);
    if FindKey(rows, key).Some? {
      var i :| 0 <= i < |rows| && rows[i] == FindKey(rows, key).value;
      AckKeyMeansAcked(rows, i, op.messageId, op.recipientId);
      assert FieldIs(rows[i], "message_id", op.messageId);
    } else if i :| 0 <= i < |rows| && rows[i].kind == ACKED && FieldIs(rows[i], "message_id", op.messageId) {
      OnlyAddresseeAcks(digest, l, stream, op, i);
      assert false;
    }
  }

  lemma OnlyAddresseeAcks(digest: Digest, l: Ledger, stream: string, op: BusOp, i: nat)
    requires BusInv(digest, l, stream) && op.Ack? && Refusal(digest, l, stream, op).None?
    requires i < |Rows(l, stream)| && Rows(l, stream)[i].kind == ACKED
             && FieldIs(Rows(l, stream)[i], "message_id", op.messageId)
    ensures Rows(l, stream)[i].key == Keys.AckKey(op.messageId, op.recipientId)
  {
    var rows := Rows(l, stream);
    var a, r := AckedRowAddressed(rows, i);
    var p, msg :| 0 <= p < i && Carries(rows[p], msg) && msg.messageId == a && msg.recipient == r;
    AcceptedAckAddressed(digest, l, stream, op);
    var q, m :| 0 <= q < |rows| && Carries(rows[q], m) && m.messageId == op.messageId && m.recipient == op.recipientId;
    CarriedFields(rows[p], msg);
    CarriedFields(rows[q], m);
    assert JText(a) == JText(op.messageId);
    QueuedOnce(digest, l, stream, p, q, op.messageId);
    assert JText(msg.recipient) == JText(m.recipient);
  }

  lemma SeenIsSound(digest: Digest, l: Ledger, stream: string, seen: seq<Row>)
    requires BusInv(digest, l, stream) && seen <= Rows(l, stream)
    ensures Chained(digest, stream, seen)
    ensures forall r | r in seen && r.kind == QUEUED :: HasField(r, "message_id")
  {
    var rows := Rows(l, stream);
    InvAtAnyStream(digest, l, stream);
    ChainedPrefix(digest, stream, rows, |seen|);
    assert seen == rows[..|seen|];
    forall r | r in seen && r.kind == QUEUED ensures HasField(r, "message_id") {
      var i :| 0 <= i < |seen| && seen[i] == r;
      assert rows[i] == r;
      var m := QueuedRowCarries(rows, i);
    }
  }

  lemma CarriedFields(r: Row, m: Message)
    requires Carries(r, m)
    ensures r.kind == QUEUED && FieldIs(r, "message_id", m.messageId) && FieldIs(r, "to_principal", m.recipient)
  {}

  lemma SoleRowPasses(digest: Digest, stream: string, seen: seq<Row>, r: Row, messageId: string, recipientId: string)
    requires messageId != "" && recipientId != "" && Chained(digest, stream, seen)
    requires forall row | row in seen && row.kind == QUEUED :: HasField(row, "message_id")
    requires Found(seen, messageId) == [r] && FieldIs(r, "to_principal", recipientId)
    ensures AckRefusal(digest, stream, seen, messageId, recipientId).None?
  {}

  lemma QueuedToPasses(digest: Digest, l: Ledger, stream: string, seen: seq<Row>, messageId: string,
                       recipientId: string)
    requires BusInv(digest, l, stream) && seen <= Rows(l, stream) && messageId != "" && recipientId != ""
    requires QueuedTo(seen, messageId, recipientId)
    ensures AckRefusal(digest, stream, seen, messageId, recipientId).None?
  {
    var j, m :| 0 <= j < |seen| && Carries(seen[j], m) && m.messageId == messageId && m.recipient == recipientId;
    CarriedFields(seen[j], m);
    assert Found(seen, messageId) == [seen[j]] by {
      FoundIsUnique(digest, l, stream, seen, messageId);
      FoundComplete(seen, messageId, j);
    }
    SeenIsSound(digest, l, stream, seen);
    SoleRowPasses(digest, stream, seen, seen[j], messageId, recipientId);
  }

  /** Which acknowledgements pass: exactly those of a message the read saw queued, by its addressee. */
  lemma AckPassesIff(digest: Digest, l: Ledger, stream: string, op: BusOp)
    requires BusInv(digest, l, stream) && op.Ack? && op.messageId != "" && op.recipientId != ""
    ensures Refusal(digest, l, stream, op).None?
            <==> QueuedTo(ReadBack(l, stream, op.seen), op.messageId, op.recipientId)
  {
    var seen := ReadBack(l, stream, op.seen);
    if QueuedTo(seen, op.messageId, op.recipientId) {
      QueuedToPasses(digest, l, stream, seen, op.messageId, op.recipientId);
    } else if Refusal(digest, l, stream, op).None? {
      PassedIsQueuedTo(digest, l, stream, seen, op.messageId, op.recipientId);
    }
  }

  lemma {:induction false} FoundComplete(rows: seq<Row>, messageId: string, j: nat)
    requires j < |rows| && rows[j].kind == QUEUED && FieldIs(rows[j], "message_id", messageId)
    ensures rows[j] in Found(rows, messageId)
  {
    if j > 0 { FoundComplete(rows[1..], messageId, j - 1); }
  }

  lemma {:induction false} FoundSize(rows: seq<Row>, messageId: string)
    requires forall i, j | 0 <= i < j < |rows| && rows[i].kind == QUEUED && rows[j].kind == QUEUED ::
               !(FieldIs(rows[i], "message_id", messageId) && FieldIs(rows[j], "message_id", messageId))
    ensures |Found(rows, messageId)| <= 1
  {
    if rows != [] {
      FoundSize(rows[1..], messageId);
      var rest := Found(rows[1..], messageId);
      if rest != [] && rows[0].kind == QUEUED && FieldIs(rows[0], "message_id", messageId) {
        FoundIsThere(rows[1..], messageId, rest[0]);
        assert false;
      }
    }
  }

  lemma FoundIsUnique(digest: Digest, l: Ledger, stream: string, seen: seq<Row>, messageId: string)
    requires BusInv(digest, l, stream) && seen <= Rows(l, stream)
    ensures |Found(seen, messageId)| <= 1
  {
    var rows := Rows(l, stream);
    forall i, j | 0 <= i < j < |seen| && seen[i].kind == QUEUED && seen[j].kind == QUEUED
      ensures !(FieldIs(seen[i], "message_id", messageId) && FieldIs(seen[j], "message_id", messageId))
    {
      assert rows[i] == seen[i] && rows[j] == seen[j];
      if FieldIs(seen[i], "message_id", messageId) && FieldIs(seen[j], "message_id", messageId) {
        QueuedOnce(digest, l, stream, i, j, messageId);
        assert false;
      }
    }
    FoundSize(seen, messageId);
  }

  /** The calls of a run that were told they were the first under their key. */
  function FirstWrites(digest: Digest, l: Ledger, stream: string, ops: seq<BusOp>, key: string): nat
    decreases |ops|
  {
    if ops == [] then 0
    else
      (if !ops[0].Other? && Call(stream, ops[0]).key == key && Answer(digest, l, stream, ops[0]) == Ok(true) then 1
       else 0)
      + FirstWrites(digest, BusStep(digest, l, stream, ops[0]), stream, ops[1..], key)
  }

  lemma FirstWriteCreates(digest: Digest, l: Ledger, stream: string, op: BusOp, key: string)
    requires Proper(stream, op) && (forall s, e :: key != Keys.RecoveryKey(s, e))
    ensures var first := !op.Other? && Call(stream, op).key == key && Answer(digest, l, stream, op) == Ok(true);
            && (HasKey(BusStep(digest, l, stream, op), stream, key) <==> HasKey(l, stream, key) || first)
            && (first ==> !HasKey(l, stream, key))
  {
    if Refusal(digest, l, stream, op).None? {
      StepCreates(digest, l, Call(stream, op), stream, key);
    }
  }

  /**
   Delivery is exactly once over any interleaving of senders, recipients and other clients: of all
   the calls under one message or acknowledgement key, exactly one is told it was the first, if the
   event is there at the end and was not before; otherwise none is.
   */
  lemma {:induction false} FirstExactlyOnce(digest: Digest, l: Ledger, stream: string, ops: seq<BusOp>, key: string)
    requires AllProper(stream, ops) && (forall s, e :: key != Keys.RecoveryKey(s, e))
    ensures FirstWrites(digest, l, stream, ops, key)
            == if HasKey(BusRun(digest, l, stream, ops), stream, key) && !HasKey(l, stream, key) then 1 else 0
    ensures HasKey(l, stream, key) ==> HasKey(BusRun(digest, l, stream, ops), stream, key)
    decreases |ops|
  {
    if ops != [] {
      assert Proper(stream, ops[0]);
      FirstWriteCreates(digest, l, stream, ops[0], key);
      FirstExactlyOnce(digest, BusStep(digest, l, stream, ops[0]), stream, ops[1..], key);
    }
  }
}
