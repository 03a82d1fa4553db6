/** The length-prefixed idempotency keys of the audit ledger and the message bus. */
module Keys {
  function Digit(d: nat): char
    requires d < 10
  {
    ('0' as int + d) as char
  }

  function Decimal(n: nat): (s: string)
    ensures s != [] && ':' !in s
  {
    if n < 10 then [Digit(n)] else Decimal(n / 10) + [Digit(n % 10)]
  }

  /** What a decimal numeral stands for: the inverse that makes `Decimal` injective. */
  ghost function Value(s: string): int {
    if s == [] then 0 else 10 * Value(s[..|s| - 1]) + (s[|s| - 1] as int - '0' as int)
  }

  lemma {:induction false} ValueOfDecimal(n: nat)
    ensures Value(Decimal(n)) == n
  {
    if n >= 10 {
      ValueOfDecimal(n / 10);
      assert Decimal(n)[..|Decimal(n)| - 1] == Decimal(n / 10);
    }
  }

  /** `{len(id)}:{id}:{rest}` */
  function Framed(id: string, rest: string): string {
    Decimal(|id|) + ":" + id + ":" + rest
  }

  function MessageKey(messageId: string): string {
    "message:" + messageId
  }

  function AckKey(messageId: string, recipientId: string): string {
    "ack:" + Framed(messageId, recipientId)
  }

  function RecoveryKey(sessionId: string, evidenceKey: string): string {
    "recovery:" + Framed(sessionId, evidenceKey)
  }

  /** A text is cut at its first colon in one way only. */
  lemma FirstColon(a: string, x: string, b: string, y: string)
    requires ':' !in a && ':' !in b && a + ":" + x == b + ":" + y
    ensures a == b && x == y
  {
    var s := a + ":" + x;
    assert s[|a|] == ':' && s[|b|] == ':' by { assert s == b + ":" + y; }
    assert s[..|a|] == a && s[..|b|] == b && s[|a| + 1..] == x && s[|b| + 1..] == y;
  }

  lemma FramedInjective(id: string, rest: string, id': string, rest': string)
    requires Framed(id, rest) == Framed(id', rest')
    ensures id == id' && rest == rest'
  {
    var x, y := id + ":" + rest, id' + ":" + rest';
    assert Framed(id, rest) == Decimal(|id|) + ":" + x && Framed(id', rest') == Decimal(|id'|) + ":" + y;
    FirstColon(Decimal(|id|), x, Decimal(|id'|), y);
    ValueOfDecimal(|id|);
    ValueOfDecimal(|id'|);
    assert x[..|id|] == id && y[..|id'|] == id' && x[|id| + 1..] == rest && y[|id'| + 1..] == rest';
  }

  lemma DropPrefix(p: string, x: string, y: string)
    requires p + x == p + y
    ensures x == y
  {
    assert (p + x)[|p|..] == x && (p + y)[|p|..] == y;
  }

  lemma AckKeyInjective(messageId: string, recipientId: string, messageId': string, recipientId': string)
    ensures AckKey(messageId, recipientId) == AckKey(messageId', recipientId')
            <==> messageId == messageId' && recipientId == recipientId'
  {
    if AckKey(messageId, recipientId) == AckKey(messageId', recipientId') {
      DropPrefix("ack:", Framed(messageId, recipientId), Framed(messageId', recipientId'));
      FramedInjective(messageId, recipientId, messageId', recipientId');
    }
  }

  lemma RecoveryKeyInjective(sessionId: string, evidenceKey: string, sessionId': string, evidenceKey': string)
    ensures RecoveryKey(sessionId, evidenceKey) == RecoveryKey(sessionId', evidenceKey')
            <==> sessionId == sessionId' && evidenceKey == evidenceKey'
  {
    if RecoveryKey(sessionId, evidenceKey) == RecoveryKey(sessionId', evidenceKey') {
      DropPrefix("recovery:", Framed(sessionId, evidenceKey), Framed(sessionId', evidenceKey'));
      FramedInjective(sessionId, evidenceKey, sessionId', evidenceKey');
    }
  }

  lemma MessageKeyInjective(messageId: string, messageId': string)
    ensures MessageKey(messageId) == MessageKey(messageId') <==> messageId == messageId'
  {
    if MessageKey(messageId) == MessageKey(messageId') { DropPrefix("message:", messageId, messageId'); }
  }

  /** No message key is ever an acknowledgement or a reconciliation key, whatever the ids contain. */
  lemma KeySpacesDisjoint(messageId: string, messageId': string, recipientId: string, sessionId: string,
                          evidenceKey: string)
    ensures MessageKey(messageId) != AckKey(messageId', recipientId)
    ensures MessageKey(messageId) != RecoveryKey(sessionId, evidenceKey)
    ensures AckKey(messageId', recipientId) != RecoveryKey(sessionId, evidenceKey)
  {
    assert MessageKey(messageId)[0] == 'm' && AckKey(messageId', recipientId)[0] == 'a'
           && RecoveryKey(sessionId, evidenceKey)[0] == 'r';
  }
}
