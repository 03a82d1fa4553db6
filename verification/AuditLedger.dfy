/** `AuditLedger` of storage/audit_ledger.py; each method body is one committed or rolled back transaction. */
module AuditLedger {
  import opened Prelude
  import opened AuditChain
  import Keys

  class AuditLedger {
    const digest: Digest
    var events: map<string, seq<Row>>
    var recovery: map<(string, string), Recovery>

    function View(): Ledger
      reads this
    {
      Ledger(events, recovery)
    }

    constructor (digest: Digest)
      ensures this.digest == digest && View() == EMPTY
    {
      this.digest := digest;
      events, recovery := map[], map[];
    }

    function ReadRows(stream: string): seq<Row>
      reads this`events
    {
      if stream in events then events[stream] else []
    }

    /** The walk along the chain accepts exactly the chained streams, and answers their tail. */
    method CheckRows(stream: string, rows: seq<Row>) returns (r: Result<string, Fault>)
      ensures r == if Chained(digest, stream, rows) then Ok(TailOf(rows)) else Err(IntegrityMismatch)
    {
      var prev := GENESIS;
      for i := 0 to |rows|
        invariant prev == TailOf(rows[..i])
        invariant forall k | 0 <= k < i :: Linked(digest, stream, rows, k)
      {
        var row := rows[i];
        if row.number != i + 1 || row.prev != prev
           || digest(stream, row.number, row.key, row.kind, row.payload, prev) != row.sha {
          assert !Linked(digest, stream, rows, i);
          return Err(IntegrityMismatch);
        }
        prev := row.sha;
      }
      assert rows[..|rows|] == rows;
      r := Ok(prev);
    }

    method AppendOnce(stream: string, key: string, kind: string, payload: map<string, Json>)
      returns (r: Result<(Row, bool), Fault>)
      modifies this`events
      ensures (View(), r) == AuditChain.AppendOnce(digest, old(View()), stream, key, kind, payload)
    {
      if Blank(stream) || Blank(key) || Blank(kind) {
        return Err(InvalidValue);
      }
      var data := Scrub(JObject(payload));
      var existing := ReadRows(stream);
      var tail := CheckRows(stream, existing);
      if tail.Err? {
        return Err(tail.error);
      }
      var replay := FindKey(existing, key);
      if replay.Some? {
        if replay.value.kind != kind || replay.value.payload != data {
          return Err(ReplayConflict);
        }
        return Ok((replay.value, false));
      }
      var prev := if existing != [] then existing[|existing| - 1].sha else GENESIS;
      var sha := digest(stream, |existing| + 1, key, kind, data, prev);
      var row := Row(|existing| + 1, key, kind, data, prev, sha);
      events := events[stream := existing + [row]];
      r := Ok((row, true));
    }

    method Verify(stream: string, expectedTail: Option<string>) returns (r: Result<string, Fault>)
      ensures r.Ok? <==> Chained(digest, stream, ReadRows(stream))
                         && (expectedTail.Some? ==> TailOf(ReadRows(stream)) == expectedTail.value)
      ensures r == Ok(TailOf(ReadRows(stream))) || r == Err(IntegrityMismatch)
    {
      r := CheckRows(stream, ReadRows(stream));
      if r.Ok? && expectedTail.Some? && r.value != expectedTail.value {
        r := Err(IntegrityMismatch);
      }
    }

    method Read(stream: string, readerStream: string) returns (r: Result<seq<Row>, Fault>)
      ensures r == if stream != readerStream then Err(AccessDenied)
                   else if Chained(digest, stream, ReadRows(stream)) then Ok(ReadRows(stream))
                   else Err(IntegrityMismatch)
    {
      if stream != readerStream {
        return Err(AccessDenied);
      }
      var tail := CheckRows(stream, ReadRows(stream));
      r := if tail.Ok? then Ok(ReadRows(stream)) else Err(tail.error);
    }

    method NoteUnreconciled(stream: string, sessionId: string, cause: string) returns (r: Result<(), Fault>)
      modifies this`recovery
      ensures match AuditChain.NoteUnreconciled(old(View()), stream, sessionId, cause)
              case Ok(l) => View() == l && r == Ok(())
              case Err(e) => View() == old(View()) && r == Err(e)
    {
      if stream == "" || sessionId == "" || cause == "" {
        return Err(InvalidValue);
      }
      recovery := recovery[(stream, sessionId) := Recovery(RECOVERY_REQUIRED, cause)];
      r := Ok(());
    }

    method ReconcileClosed(stream: string, sessionId: string, evidenceKey: string) returns (r: Result<(), Fault>)
      modifies this
      ensures match AuditChain.ReconcileClosed(digest, old(View()), stream, sessionId, evidenceKey)
              case Ok(l) => View() == l && r == Ok(())
              case Err(e) => View() == old(View()) && r == Err(e)
    {
      if stream == "" || sessionId == "" || evidenceKey == "" || !Unresolved(View(), stream, sessionId) {
        return Err(InvalidValue);
      }
      var existing := ReadRows(stream);
      var tail := CheckRows(stream, existing);
      if tail.Err? {
        return Err(tail.error);
      }
      var key := Keys.RecoveryKey(sessionId, evidenceKey);
      if FindKey(existing, key).Some? {
        return Err(ReplayConflict);
      }
      var data := ClosingData(sessionId, evidenceKey);
      var prev := if existing != [] then existing[|existing| - 1].sha else GENESIS;
      var sha := digest(stream, |existing| + 1, key, RECONCILED, data, prev);
      events := events[stream := existing + [Row(|existing| + 1, key, RECONCILED, data, prev, sha)]];
      var closed := recovery[(stream, sessionId)].(phase := RECONCILED_CLOSED);
      recovery := recovery[(stream, sessionId) := closed];
      r := Ok(());
    }
  }
}
