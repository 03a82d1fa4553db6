/** The append-only hash chain of storage/audit_ledger.py, on values. */
module AuditChain {
  import opened Prelude
  import Keys

  datatype Json =
    | JNull | JBool(b: bool) | JNumber(n: int) | JText(s: string)
    | JList(items: seq<Json>)
    | JObject(fields: map<string, Json>)

  const GENESIS: string := "0000000000000000000000000000000000000000000000000000000000000000"

  const PRIVATE_KEYS: set<string> :=
    {"api_key", "authorization", "access_token", "refresh_token", "secret", "password", "credential", "credentials",
     "private_key"}

  const REDACTED := JText("[REDACTED]")

  /** Lower case as far as it can produce one of the private names: ASCII capitals and the Kelvin sign. */
  function Lowered(c: char): char {
    if 'A' <= c <= 'Z' then (c as int + 32) as char else if c == '\U{212A}' then 'k' else c
  }

  predicate Private(key: string) {
    seq(|key|, i requires 0 <= i < |key| => if key[i] == '-' then '_' else Lowered(key[i])) in PRIVATE_KEYS
  }

  function Scrub(j: Json): Json
    decreases j
  {
    match j
    case JObject(fields) => JObject(map k | k in fields :: if Private(k) then REDACTED else Scrub(fields[k]))
    case JList(items) => JList(seq(|items|, i requires 0 <= i < |items| => Scrub(items[i])))
    case _ => j
  }

  /** At no depth does a private key carry anything but the marker. */
  ghost predicate Clean(j: Json)
    decreases j
  {
    match j
    case JObject(fields) => forall k | k in fields :: if Private(k) then fields[k] == REDACTED else Clean(fields[k])
    case JList(items) => forall i | 0 <= i < |items| :: Clean(items[i])
    case _ => true
  }

  lemma {:induction false} ScrubCleans(j: Json)
    ensures Clean(Scrub(j))
    decreases j
  {
    match j
    case JObject(fields) =>
      forall k | k in fields && !Private(k) ensures Clean(Scrub(fields[k])) { ScrubCleans(fields[k]); }
    case JList(items) =>
      forall i | 0 <= i < |items| ensures Clean(Scrub(items[i])) { ScrubCleans(items[i]); }
    case _ =>
  }

  /** Scrubbing changes a payload if and only if there is something to hide in it. */
  lemma {:induction false} ScrubFixesExactlyClean(j: Json)
    ensures Scrub(j) == j <==> Clean(j)
    decreases j
  {
    match j
    case JObject(fields) =>
      forall k | k in fields ensures Scrub(fields[k]) == fields[k] <==> Clean(fields[k]) {
        ScrubFixesExactlyClean(fields[k]);
      }
      assert Scrub(j) == j ==> forall k | k in fields :: Scrub(j).fields[k] == fields[k];
      if Clean(j) { assert Scrub(j).fields == fields; }
    case JList(items) =>
      forall i | 0 <= i < |items| ensures Scrub(items[i]) == items[i] <==> Clean(items[i]) {
        ScrubFixesExactlyClean(items[i]);
      }
      assert Scrub(j) == j ==> forall i | 0 <= i < |items| :: Scrub(j).items[i] == items[i];
      if Clean(j) { assert Scrub(j).items == items; }
    case _ =>
  }

  // ---------------------------------------------------------------- the chain

  datatype Row = Row(number: nat, key: string, kind: string, payload: Json, prev: string, sha: string)

  /** SHA-256 over the canonical form of stream, sequence number, key, type, payload and previous digest. */
  type Digest = (string, nat, string, string, Json, string) -> string

  function Sealed(digest: Digest, stream: string, number: nat, key: string, kind: string, payload: Json, prev: string)
    : Row
  {
    Row(number, key, kind, payload, prev, digest(stream, number, key, kind, payload, prev))
  }

  function SealOf(digest: Digest, stream: string, r: Row): string {
    digest(stream, r.number, r.key, r.kind, r.payload, r.prev)
  }

  function TailOf(rows: seq<Row>): string {
    if rows == [] then GENESIS else rows[|rows| - 1].sha
  }

  predicate Linked(digest: Digest, stream: string, rows: seq<Row>, i: nat)
    requires i < |rows|
  {
    rows[i].number == i + 1 && rows[i].prev == TailOf(rows[..i]) && rows[i].sha == SealOf(digest, stream, rows[i])
  }

  predicate Chained(digest: Digest, stream: string, rows: seq<Row>) {
    forall i | 0 <= i < |rows| :: Linked(digest, stream, rows, i)
  }

  lemma ChainedPrefix(digest: Digest, stream: string, rows: seq<Row>, n: nat)
    requires Chained(digest, stream, rows) && n <= |rows|
    ensures Chained(digest, stream, rows[..n])
  {
    forall i | 0 <= i < n ensures Linked(digest, stream, rows[..n], i) {
      assert Linked(digest, stream, rows, i);
      assert rows[..n][..i] == rows[..i];
    }
  }

  /** Two different rows with one digest. */
  ghost predicate Collide(r: Row, r': Row) {
    r != r' && r.sha == r'.sha
  }

  /** What an attacker on the digest would have to show: two rows that seal alike, or a row that seals to GENESIS. */
  ghost predicate Broken(a: seq<Row>, b: seq<Row>) {
    || (exists i, j | 0 <= i < |a| && 0 <= j < |b| :: Collide(a[i], b[j]))
    || (exists i | 0 <= i < |a| :: a[i].sha == GENESIS)
    || (exists j | 0 <= j < |b| :: b[j].sha == GENESIS)
  }

  /**
   Tail binding: two streams that pass the check with the same tail are equal row for row, or the digest is broken.
   */
  lemma {:induction false} TailBinding(digest: Digest, stream: string, a: seq<Row>, b: seq<Row>)
    requires Chained(digest, stream, a) && Chained(digest, stream, b) && TailOf(a) == TailOf(b)
    ensures a == b || Broken(a, b)
    decreases |a|
  {
    if a != [] && b != [] {
      var i, j := |a| - 1, |b| - 1;
      if !Collide(a[i], b[j]) {
        assert Linked(digest, stream, a, i) && Linked(digest, stream, b, j);
        ChainedPrefix(digest, stream, a, i);
        ChainedPrefix(digest, stream, b, j);
        TailBinding(digest, stream, a[..i], b[..j]);
        assert a == a[..i] + [a[i]] && b == b[..j] + [b[j]];
      }
    }
  }

  ghost predicate SameContent(r: Row, r': Row) {
    (r.number, r.key, r.kind, r.payload, r.prev) == (r'.number, r'.key, r'.kind, r'.payload, r'.prev)
  }

  /** An injective digest whose image leaves out GENESIS. */
  ghost predicate Ideal(digest: Digest) {
    && (forall s, r :: SealOf(digest, s, r) != GENESIS)
    && (forall s, r, s', r' :: SealOf(digest, s, r) == SealOf(digest, s', r') ==> s == s' && SameContent(r, r'))
  }

  /** Under an ideal digest the tail pins the whole stream. */
  lemma TailPins(digest: Digest, stream: string, a: seq<Row>, b: seq<Row>)
    requires Ideal(digest) && Chained(digest, stream, a) && Chained(digest, stream, b)
    ensures TailOf(a) == TailOf(b) <==> a == b
  {
    if TailOf(a) == TailOf(b) && a != b {
      TailBinding(digest, stream, a, b);
      forall i | 0 <= i < |a| ensures a[i].sha == SealOf(digest, stream, a[i]) { assert Linked(digest, stream, a, i); }
      forall j | 0 <= j < |b| ensures b[j].sha == SealOf(digest, stream, b[j]) { assert Linked(digest, stream, b, j); }
      assert false;
    }
  }

  // ---------------------------------------------------------------- the operations

  datatype Fault =
    | InvalidValue       // ValueError
    | AccessDenied       // PermissionError
    | UnknownKey         // KeyError
    | IntegrityMismatch
    | ReplayConflict

  datatype Phase = RECOVERY_REQUIRED | RECONCILED_CLOSED

  datatype Recovery = Recovery(phase: Phase, cause: string)

  /** `events` holds each stream's rows in sequence order; `recovery` is keyed by stream and session. */
  datatype Ledger = Ledger(events: map<string, seq<Row>>, recovery: map<(string, string), Recovery>)

  function Rows(l: Ledger, stream: string): seq<Row> {
    if stream in l.events then l.events[stream] else []
  }

  function FindKey(rows: seq<Row>, key: string): (r: Option<Row>)
    ensures r.Some? ==> r.value in rows && r.value.key == key
    ensures r.None? <==> forall i | 0 <= i < |rows| :: rows[i].key != key
  {
    if rows == [] then None
    else if rows[0].key == key then Some(rows[0])
    else FindKey(rows[1..], key)
  }

  /** The characters Python's `strip` removes. */
  predicate Space(c: char) {
    || '\U{09}' <= c <= '\U{0D}' || '\U{1C}' <= c <= '\U{20}' || c in {'\U{85}', '\U{A0}', '\U{1680}'}
    || '\U{2000}' <= c <= '\U{200A}' || c in {'\U{2028}', '\U{2029}', '\U{202F}', '\U{205F}', '\U{3000}'}
  }

  predicate Blank(s: string) {
    forall c | c in s :: Space(c)
  }

  function NextRow(digest: Digest, stream: string, rows: seq<Row>, key: string, kind: string, payload: Json): Row {
    Sealed(digest, stream, |rows| + 1, key, kind, payload, TailOf(rows))
  }

  function AppendOnce(digest: Digest, l: Ledger, stream: string, key: string, kind: string, payload: map<string, Json>)
    : (Ledger, Result<(Row, bool), Fault>)
  {
    var rows, data := Rows(l, stream), Scrub(JObject(payload));
    if Blank(stream) || Blank(key) || Blank(kind) then (l, Err(InvalidValue))
    else if !Chained(digest, stream, rows) then (l, Err(IntegrityMismatch))
    else
      match FindKey(rows, key)
      case Some(r) => (l, if r.kind != kind || r.payload != data then Err(ReplayConflict) else Ok((r, false)))
      case None =>
        var row := NextRow(digest, stream, rows, key, kind, data);
        (l.(events := l.events[stream := rows + [row]]), Ok((row, true)))
  }

  function NoteUnreconciled(l: Ledger, stream: string, sessionId: string, cause: string): Result<Ledger, Fault> {
    if stream == "" || sessionId == "" || cause == "" then Err(InvalidValue)
    else Ok(l.(recovery := l.recovery[(stream, sessionId) := Recovery(RECOVERY_REQUIRED, cause)]))
  }

  const RECONCILED := "RECOVERY_RECONCILED"

  function ClosingData(sessionId: string, evidenceKey: string): Json {
    JObject(map["session_id" := JText(sessionId), "evidence_key" := JText(evidenceKey)])
  }

  predicate Unresolved(l: Ledger, stream: string, sessionId: string) {
    (stream, sessionId) in l.recovery && l.recovery[(stream, sessionId)].phase == RECOVERY_REQUIRED
  }

  /** The proof row and the closed state are written together or not at all. */
  function ReconcileClosed(digest: Digest, l: Ledger, stream: string, sessionId: string, evidenceKey: string)
    : Result<Ledger, Fault>
  {
    var rows, key := Rows(l, stream), Keys.RecoveryKey(sessionId, evidenceKey);
    if stream == "" || sessionId == "" || evidenceKey == "" || !Unresolved(l, stream, sessionId) then Err(InvalidValue)
    else if !Chained(digest, stream, rows) then Err(IntegrityMismatch)
    else if FindKey(rows, key).Some? then Err(ReplayConflict)
    else
      var row := NextRow(digest, stream, rows, key, RECONCILED, ClosingData(sessionId, evidenceKey));
      Ok(Ledger(l.events[stream := rows + [row]],
                l.recovery[(stream, sessionId) := l.recovery[(stream, sessionId)].(phase := RECONCILED_CLOSED)]))
  }

  // ---------------------------------------------------------------- runs

  /** One committed transaction of one of any number of writers. */
  datatype Op =
    | Append(stream: string, key: string, kind: string, payload: map<string, Json>)
    | Note(stream: string, sessionId: string, cause: string)
    | Close(stream: string, sessionId: string, evidenceKey: string)

  function Step(digest: Digest, l: Ledger, op: Op): Ledger {
    match op
    case Append(stream, key, kind, payload) => AppendOnce(digest, l, stream, key, kind, payload).0
    case Note(stream, sessionId, cause) =>
      (match NoteUnreconciled(l, stream, sessionId, cause) case Ok(l') => l' case Err(_) => l)
    case Close(stream, sessionId, evidenceKey) =>
      (match ReconcileClosed(digest, l, stream, sessionId, evidenceKey) case Ok(l') => l' case Err(_) => l)
  }

  function Run(digest: Digest, l: Ledger, ops: seq<Op>): Ledger
    decreases |ops|
  {
    if ops == [] then l else Run(digest, Step(digest, l, ops[0]), ops[1..])
  }

  ghost predicate UniqueKeys(rows: seq<Row>) {
    forall i, j | 0 <= i < j < |rows| :: rows[i].key != rows[j].key
  }

  ghost predicate AllClean(rows: seq<Row>) {
    forall i | 0 <= i < |rows| :: Clean(rows[i].payload)
  }

  ghost predicate StreamOk(digest: Digest, l: Ledger, stream: string) {
    var rows := Rows(l, stream);
    Chained(digest, stream, rows) && UniqueKeys(rows) && AllClean(rows)
  }

  ghost predicate ClosingRow(r: Row, sessionId: string, evidenceKey: string) {
    r.key == Keys.RecoveryKey(sessionId, evidenceKey) && r.kind == RECONCILED
      && r.payload == ClosingData(sessionId, evidenceKey)
  }

  /** A closed session has its proof in the chain of its own stream. */
  ghost predicate Proven(l: Ledger, stream: string, sessionId: string) {
    exists i, evidenceKey :: 0 <= i < |Rows(l, stream)| && ClosingRow(Rows(l, stream)[i], sessionId, evidenceKey)
  }

  ghost predicate Inv(digest: Digest, l: Ledger) {
    && (forall s | s in l.events :: StreamOk(digest, l, s))
    && (forall s, sid | (s, sid) in l.recovery && l.recovery[(s, sid)].phase == RECONCILED_CLOSED :: Proven(l, s, sid))
  }

  const EMPTY := Ledger(map[], map[])

  lemma InvAtAnyStream(digest: Digest, l: Ledger, stream: string)
    requires Inv(digest, l)
    ensures StreamOk(digest, l, stream)
  {}

  lemma NextRowKeepsStream(digest: Digest, stream: string, rows: seq<Row>, key: string, kind: string, payload: Json)
    requires Chained(digest, stream, rows) && UniqueKeys(rows) && AllClean(rows) && Clean(payload)
             && FindKey(rows, key).None?
    ensures var rows' := rows + [NextRow(digest, stream, rows, key, kind, payload)];
            Chained(digest, stream, rows') && UniqueKeys(rows') && AllClean(rows')
  {
    var rows' := rows + [NextRow(digest, stream, rows, key, kind, payload)];
    forall i | 0 <= i < |rows'| ensures Linked(digest, stream, rows', i) {
      assert rows'[..i] == rows[..i];
      if i < |rows| { assert Linked(digest, stream, rows, i); } else { assert rows[..i] == rows; }
    }
  }

  /** Growing one stream keeps every proof that was in it. */
  lemma GrownStreamKeepsProofs(l: Ledger, l': Ledger, stream: string, sessionId: string)
    requires Proven(l, stream, sessionId) && Rows(l, stream) <= Rows(l', stream)
    ensures Proven(l', stream, sessionId)
  {}

  lemma AppendKeepsInv(digest: Digest, l: Ledger, stream: string, key: string, kind: string, payload: map<string, Json>)
    requires Inv(digest, l)
    ensures Inv(digest, AppendOnce(digest, l, stream, key, kind, payload).0)
  {
    var l' := AppendOnce(digest, l, stream, key, kind, payload).0;
    if l' != l {
      InvAtAnyStream(digest, l, stream);
      ScrubCleans(JObject(payload));
      NextRowKeepsStream(digest, stream, Rows(l, stream), key, kind, Scrub(JObject(payload)));
      forall s | s in l'.events ensures StreamOk(digest, l', s) {
        if s != stream { assert StreamOk(digest, l, s); }
      }
      forall s, sid | (s, sid) in l'.recovery && l'.recovery[(s, sid)].phase == RECONCILED_CLOSED
        ensures Proven(l', s, sid) {
        GrownStreamKeepsProofs(l, l', s, sid);
      }
    }
  }

  lemma ClosingDataClean(sessionId: string, evidenceKey: string)
    ensures Clean(ClosingData(sessionId, evidenceKey))
  {
    assert |"session_id"| == 10 && |"evidence_key"| == 12;
    assert "session_id"[2] == 's' && "evidence_key"[2] == 'i';
    assert forall k | k in PRIVATE_KEYS && |k| == 10 :: k == "credential";
    assert "credential"[0] == 'c';
    assert forall k | k in PRIVATE_KEYS && |k| == 12 :: k == "access_token";
    assert "access_token"[0] == 'a';
    assert !Private("session_id") && !Private("evidence_key");
  }

  lemma CloseKeepsInv(digest: Digest, l: Ledger, stream: string, sessionId: string, evidenceKey: string)
    requires Inv(digest, l) && ReconcileClosed(digest, l, stream, sessionId, evidenceKey).Ok?
    ensures Inv(digest, ReconcileClosed(digest, l, stream, sessionId, evidenceKey).value)
  {
    var l', rows := ReconcileClosed(digest, l, stream, sessionId, evidenceKey).value, Rows(l, stream);
    InvAtAnyStream(digest, l, stream);
    ClosingDataClean(sessionId, evidenceKey);
    NextRowKeepsStream(digest, stream, rows, Keys.RecoveryKey(sessionId, evidenceKey), RECONCILED,
                       ClosingData(sessionId, evidenceKey));
    forall s | s in l'.events ensures StreamOk(digest, l', s) {
      if s != stream { assert StreamOk(digest, l, s); }
    }
    forall s, sid | (s, sid) in l'.recovery && l'.recovery[(s, sid)].phase == RECONCILED_CLOSED
      ensures Proven(l', s, sid) {
      if (s, sid) == (stream, sessionId) {
        assert ClosingRow(Rows(l', stream)[|rows|], sessionId, evidenceKey);
      } else {
        GrownStreamKeepsProofs(l, l', s, sid);
      }
    }
  }

  lemma NoteKeepsInv(digest: Digest, l: Ledger, stream: string, sessionId: string, cause: string)
    requires Inv(digest, l) && NoteUnreconciled(l, stream, sessionId, cause).Ok?
    ensures Inv(digest, NoteUnreconciled(l, stream, sessionId, cause).value)
  {}

  lemma StepKeepsInv(digest: Digest, l: Ledger, op: Op)
    requires Inv(digest, l)
    ensures Inv(digest, Step(digest, l, op))
  {
    match op
    case Append(stream, key, kind, payload) => AppendKeepsInv(digest, l, stream, key, kind, payload);
    case Note(stream, sessionId, cause) =>
      if NoteUnreconciled(l, stream, sessionId, cause).Ok? { NoteKeepsInv(digest, l, stream, sessionId, cause); }
    case Close(stream, sessionId, evidenceKey) =>
      if ReconcileClosed(digest, l, stream, sessionId, evidenceKey).Ok? {
        CloseKeepsInv(digest, l, stream, sessionId, evidenceKey);
      }
  }

  /** Every reachable ledger: chains intact, keys unique, secrets masked, closed sessions proven. */
  lemma {:induction false} RunKeepsInv(digest: Digest, l: Ledger, ops: seq<Op>)
    requires Inv(digest, l)
    ensures Inv(digest, Run(digest, l, ops))
    decreases |ops|
  {
    if ops != [] {
      StepKeepsInv(digest, l, ops[0]);
      RunKeepsInv(digest, Step(digest, l, ops[0]), ops[1..]);
    }
  }

  /** A step adds at most one row, at the end of its own stream. */
  lemma StepExtends(digest: Digest, l: Ledger, op: Op, stream: string)
    ensures Rows(l, stream) <= Rows(Step(digest, l, op), stream)
    ensures op.stream != stream ==> Rows(Step(digest, l, op), stream) == Rows(l, stream)
    ensures |Rows(Step(digest, l, op), stream)| <= |Rows(l, stream)| + 1
  {}

  /** Append-only over whole runs: what was written stays where it was, and streams nobody wrote to are untouched. */
  lemma {:induction false} RunExtends(digest: Digest, l: Ledger, ops: seq<Op>, stream: string)
    ensures Rows(l, stream) <= Rows(Run(digest, l, ops), stream)
    ensures (forall i | 0 <= i < |ops| :: ops[i].stream != stream)
            ==> Rows(Run(digest, l, ops), stream) == Rows(l, stream)
    decreases |ops|
  {
    if ops != [] {
      StepExtends(digest, l, ops[0], stream);
      RunExtends(digest, Step(digest, l, ops[0]), ops[1..], stream);
    }
  }

  predicate HasKey(l: Ledger, stream: string, key: string) {
    FindKey(Rows(l, stream), key).Some?
  }

  /** The calls that report a first write of the key: `append_once` answering True, or a successful reconciliation. */
  predicate Creates(digest: Digest, l: Ledger, op: Op, stream: string, key: string) {
    match op
    case Append(s, k, kind, payload) =>
      var r := AppendOnce(digest, l, s, k, kind, payload).1;
      s == stream && k == key && r.Ok? && r.value.1
    case Note(_, _, _) => false
    case Close(s, sid, evidence) =>
      s == stream && Keys.RecoveryKey(sid, evidence) == key && ReconcileClosed(digest, l, s, sid, evidence).Ok?
  }

  function Creations(digest: Digest, l: Ledger, ops: seq<Op>, stream: string, key: string): nat
    decreases |ops|
  {
    if ops == [] then 0
    else
      (if Creates(digest, l, ops[0], stream, key) then 1 else 0) + Creations(digest, Step(digest, l, ops[0]), ops[1..],
                                                                             stream, key)
  }

  lemma FindInLonger(rows: seq<Row>, row: Row, key: string)
    ensures FindKey(rows + [row], key).Some? <==> FindKey(rows, key).Some? || row.key == key
  {
    var longer := rows + [row];
    if FindKey(longer, key).None? {
      forall i | 0 <= i < |rows| ensures rows[i].key != key { assert longer[i] == rows[i]; }
      assert longer[|rows|] == row;
    }
  }

  lemma StepCreates(digest: Digest, l: Ledger, op: Op, stream: string, key: string)
    ensures HasKey(Step(digest, l, op), stream, key) <==> HasKey(l, stream, key) || Creates(digest, l, op, stream, key)
    ensures Creates(digest, l, op, stream, key) ==> !HasKey(l, stream, key)
  {
    var rows, rows' := Rows(l, stream), Rows(Step(digest, l, op), stream);
    if rows' != rows {
      StepExtends(digest, l, op, stream);
      var row := rows'[|rows|];
      assert rows' == rows + [row];
      FindInLonger(rows, row, key);
    }
  }

  /**
   Exactly once: over any interleaving, a key is reported as created once if it is there at the end and was not
   before, and never otherwise.
   */
  lemma {:induction false} CreatedExactlyOnce(digest: Digest, l: Ledger, ops: seq<Op>, stream: string, key: string)
    ensures Creations(digest, l, ops, stream, key)
            == if HasKey(Run(digest, l, ops), stream, key) && !HasKey(l, stream, key) then 1 else 0
    ensures HasKey(l, stream, key) ==> HasKey(Run(digest, l, ops), stream, key)
    decreases |ops|
  {
    if ops != [] {
      StepCreates(digest, l, ops[0], stream, key);
      CreatedExactlyOnce(digest, Step(digest, l, ops[0]), ops[1..], stream, key);
    }
  }

  lemma FindStable(a: seq<Row>, b: seq<Row>, key: string)
    requires a <= b && UniqueKeys(b) && FindKey(a, key).Some?
    ensures FindKey(b, key) == FindKey(a, key)
  {}

  /**
   Replays stay exact forever: the same content gets back the very row first written, any other content is a
   conflict.
   */
  lemma ReplayForever(digest: Digest, l: Ledger, ops: seq<Op>, stream: string, key: string, kind: string,
                      payload: map<string, Json>, row: Row)
    requires Inv(digest, l) && FindKey(Rows(l, stream), key) == Some(row)
    requires !Blank(stream) && !Blank(key) && !Blank(kind)
    ensures var l' := Run(digest, l, ops);
            AppendOnce(digest, l', stream, key, kind, payload)
            == (l', if (row.kind, row.payload) == (kind, Scrub(JObject(payload))) then Ok((row, false))
                else Err(ReplayConflict))
  {
    var l' := Run(digest, l, ops);
    RunKeepsInv(digest, l, ops);
    RunExtends(digest, l, ops, stream);
    InvAtAnyStream(digest, l', stream);
    FindStable(Rows(l, stream), Rows(l', stream), key);
  }

  /** One piece of evidence closes one session once: reopened or not, the same receipt never closes it again. */
  lemma EvidenceClosesOnce(digest: Digest, l: Ledger, stream: string, sessionId: string, evidenceKey: string,
                           ops: seq<Op>)
    requires Inv(digest, l) && ReconcileClosed(digest, l, stream, sessionId, evidenceKey).Ok?
    ensures ReconcileClosed(digest, Run(digest, ReconcileClosed(digest, l, stream, sessionId, evidenceKey).value, ops),
                            stream, sessionId, evidenceKey).Err?
  {
    var op := Close(stream, sessionId, evidenceKey);
    var closed, key := Step(digest, l, op), Keys.RecoveryKey(sessionId, evidenceKey);
    StepCreates(digest, l, op, stream, key);
    CreatedExactlyOnce(digest, closed, ops, stream, key);
  }

  /**
   A tail noted earlier still matches if and only if nothing was appended to the stream since, or the digest is
   broken.
   */
  lemma CheckpointMatchesIffUnchanged(digest: Digest, l: Ledger, ops: seq<Op>, stream: string)
    requires Inv(digest, l)
    ensures var before, after := Rows(l, stream), Rows(Run(digest, l, ops), stream);
            && (before == after ==> TailOf(before) == TailOf(after))
            && (TailOf(before) == TailOf(after) ==> before == after || Broken(before, after))
  {
    RunKeepsInv(digest, l, ops);
    InvAtAnyStream(digest, l, stream);
    InvAtAnyStream(digest, Run(digest, l, ops), stream);
    if TailOf(Rows(l, stream)) == TailOf(Rows(Run(digest, l, ops), stream)) {
      TailBinding(digest, stream, Rows(l, stream), Rows(Run(digest, l, ops), stream));
    }
  }
}
