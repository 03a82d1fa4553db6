/** The legacy schema migration of storage/team_store.py. */
module Migration {
  import opened Prelude

  /** The six tables that are merged under a timestamp tolerance; the queue is merged exactly. */
  datatype Kind = Teams | Sessions | Worktrees | Handoffs | ChannelMessages | Checkpoints

  /** `team` and `worker` are the columns that refer to other tables, where the table has them. */
  datatype Row = Row(team: string, worker: string, texts: seq<string>, numbers: seq<int>, times: seq<real>)

  type Table = map<string, Row>

  datatype QueueRow = QueueRow(team: string, texts: seq<string>, dedup: Option<string>, priority: int, steering: string,
                               times: seq<real>)

  type Queue = map<string, QueueRow>

  /** The legacy queue may lack three columns; the values of absent columns mean nothing. */
  datatype LegacyQueue = LegacyQueue(hasDedup: bool, hasPriority: bool, hasSteering: bool, rows: Queue)

  /** `unknown` are tables whose names look like legacy ones but are none of the seven. */
  datatype Db = Db(tables: map<Kind, Table>, queue: Queue, legacy: map<Kind, Table>, legacyQueue: Option<LegacyQueue>,
                   unknown: set<string>, views: bool, versions: map<int, real>)

  /** `Broken` is the connection giving out, whatever the data. */
  datatype Fault = Conflict | IntegrityFailure | BackupFailure | Broken

  const TOLERANCE := 0.001

  function Of(tables: map<Kind, Table>, kind: Kind): Table {
    if kind in tables then tables[kind] else map[]
  }

  predicate Close(a: real, b: real) {
    -TOLERANCE <= a - b <= TOLERANCE
  }

  /** Equal in every column, times within a millisecond. */
  predicate SameRow(a: Row, b: Row) {
    && (a.team, a.worker, a.texts, a.numbers) == (b.team, b.worker, b.texts, b.numbers)
    && |a.times| == |b.times| && forall i | 0 <= i < |a.times| :: Close(a.times[i], b.times[i])
  }

  predicate Compatible(legacy: Table, current: Table) {
    forall k | k in legacy && k in current :: SameRow(legacy[k], current[k])
  }

  /** Present columns keep their values, absent ones get the defaults. */
  function Filled(q: LegacyQueue, r: QueueRow): QueueRow {
    r.(dedup := if q.hasDedup then r.dedup else None, priority := if q.hasPriority then r.priority else 0,
       steering := if q.hasSteering then r.steering else "[]")
  }

  function FilledRows(q: LegacyQueue): Queue {
    map k | k in q.rows :: Filled(q, q.rows[k])
  }

  function LegacyQueueRows(db: Db): Queue {
    if db.legacyQueue.Some? then FilledRows(db.legacyQueue.value) else map[]
  }

  predicate CompatibleQueue(legacy: Queue, current: Queue) {
    forall k | k in legacy && k in current :: legacy[k] == current[k]
  }

  predicate NoConflict(db: Db) {
    && (forall kind | kind in db.legacy :: Compatible(db.legacy[kind], Of(db.tables, kind)))
    && CompatibleQueue(LegacyQueueRows(db), db.queue)
  }

  const KINDS: set<Kind> := {Teams, Sessions, Worktrees, Handoffs, ChannelMessages, Checkpoints}

  /** Every call first creates the tables that do not exist yet. */
  function Created(tables: map<Kind, Table>): map<Kind, Table> {
    map kind | kind in KINDS :: Of(tables, kind)
  }

  /** The current rows stay as they are; legacy rows are added under keys that are free. */
  function Merged(db: Db): map<Kind, Table> {
    map kind | kind in KINDS :: Of(db.legacy, kind) + Of(db.tables, kind)
  }

  function MergedQueue(db: Db): Queue {
    LegacyQueueRows(db) + db.queue
  }

  predicate TeamsKnown(tables: map<Kind, Table>, kind: Kind) {
    forall k | k in Of(tables, kind) :: Of(tables, kind)[k].team in Of(tables, Teams)
  }

  /** No orphans: everything names an existing team, worktrees and checkpoints an existing session. */
  predicate Referential(tables: map<Kind, Table>, queue: Queue) {
    && TeamsKnown(tables, Sessions) && TeamsKnown(tables, Worktrees) && TeamsKnown(tables, Handoffs)
    && TeamsKnown(tables, ChannelMessages) && TeamsKnown(tables, Checkpoints)
    && (forall k | k in queue :: queue[k].team in Of(tables, Teams))
    && (forall k | k in Of(tables, Worktrees) :: k in Of(tables, Sessions))
    && (forall k | k in Of(tables, Checkpoints) :: Of(tables, Checkpoints)[k].worker in Of(tables, Sessions))
  }

  predicate HasLegacy(db: Db) {
    db.legacy != map[] || db.legacyQueue.Some? || db.unknown != {}
  }

  predicate UpToDate(db: Db) {
    exists v | v in db.versions :: v >= 2
  }

  function Fails(db: Db, backedUp: bool): Option<Fault> {
    if UpToDate(db) && !HasLegacy(db) then None
    else if HasLegacy(db) && !backedUp then Some(BackupFailure)
    else if HasLegacy(db) && !NoConflict(db) then Some(Conflict)
    else if HasLegacy(db) && !Referential(Merged(db), MergedQueue(db)) then Some(IntegrityFailure)
    else None
  }

  /** What a call leaves behind: everything merged and recorded, or exactly what was there. */
  function Migrated(db: Db, backedUp: bool, now: real): Db {
    if Fails(db, backedUp).Some? then db
    else if UpToDate(db) && !HasLegacy(db) then db.(tables := Created(db.tables), views := true)
    else Db(if HasLegacy(db) then Merged(db) else Created(db.tables), if HasLegacy(db) then MergedQueue(db)
            else db.queue,
            map[], None, db.unknown, true, db.versions[2 := now])
  }

  // ---------------------------------------------------------------- what is promised

  /** What a query for a legacy table name sees: the old table, or else the view over the new one. */
  function Query(db: Db, kind: Kind): Option<Table> {
    if kind in db.legacy then Some(db.legacy[kind]) else if db.views then Some(Of(db.tables, kind)) else None
  }

  function QueryQueue(db: Db): Option<Queue> {
    if db.legacyQueue.Some? then Some(FilledRows(db.legacyQueue.value)) else if db.views then Some(db.queue) else None
  }

  /** Every row that a client could see before is there afterwards under its old name, the same up to the tolerance. */
  ghost predicate StillSeen(before: Option<Table>, after: Option<Table>) {
    before.Some? ==>
      after.Some? && forall k | k in before.value :: k in after.value && SameRow(before.value[k], after.value[k])
  }

  /** Merging takes every legacy row over, the same up to the tolerance, and alters no current one. */
  lemma MergedRows(db: Db, kind: Kind)
    requires NoConflict(db)
    ensures var before, legacy, after := Of(db.tables, kind), Of(db.legacy, kind), Of(Merged(db), kind);
            && (forall k | k in before :: k in after && after[k] == before[k])
            && (forall k | k in legacy :: k in after && SameRow(legacy[k], after[k]))
            && after.Keys == before.Keys + legacy.Keys
  {
    assert Of(Merged(db), kind) == Of(db.legacy, kind) + Of(db.tables, kind);
    if kind in db.legacy { assert Compatible(db.legacy[kind], Of(db.tables, kind)); }
    forall r: Row ensures SameRow(r, r) {}
  }

  lemma Unchanged(before: Option<Table>, after: Option<Table>)
    requires before.Some? ==> after == before
    ensures StillSeen(before, after)
  {}

  /**
   Zero loss: after a migration that commits, every legacy row is still found by its old name; every
   current row is untouched; and no row comes from anywhere else.
   */
  lemma ZeroLoss(db: Db, backedUp: bool, now: real, kind: Kind)
    requires Fails(db, backedUp).None?
    ensures var after := Migrated(db, backedUp, now);
            && StillSeen(Query(db, kind), Query(after, kind))
            && (forall k | k in Of(db.tables, kind) ::
                  k in Of(after.tables, kind) && Of(after.tables, kind)[k] == Of(db.tables, kind)[k])
            && Of(after.tables, kind).Keys == Of(db.tables, kind).Keys + Of(db.legacy, kind).Keys
            && after.legacy == map[] && after.legacyQueue.None? && after.views
  {
    if HasLegacy(db) {
      MergedRows(db, kind);
      if kind !in db.legacy { forall r: Row ensures SameRow(r, r) {} }
    } else {
      Unchanged(Query(db, kind), Query(Migrated(db, backedUp, now), kind));
    }
  }

  ghost predicate Keeps(before: Queue, after: Queue) {
    forall k | k in before :: k in after && after[k] == before[k]
  }

  lemma MergedQueueRows(db: Db)
    requires NoConflict(db)
    ensures Keeps(db.queue, MergedQueue(db)) && MergedQueue(db).Keys == db.queue.Keys + LegacyQueueRows(db).Keys
    ensures Keeps(LegacyQueueRows(db), MergedQueue(db))
  {}

  /** The queue is carried over exactly, with the defaults for the columns it lacked. */
  lemma ZeroLossQueue(db: Db, backedUp: bool, now: real)
    requires Fails(db, backedUp).None?
    ensures var after := Migrated(db, backedUp, now);
            && (QueryQueue(db).Some? ==>
                  QueryQueue(after).Some? && Keeps(QueryQueue(db).value, QueryQueue(after).value))
            && Keeps(db.queue, after.queue)
            && after.queue.Keys == db.queue.Keys + LegacyQueueRows(db).Keys
  {
    if HasLegacy(db) { MergedQueueRows(db); }
  }

  lemma MergedNothing(db: Db)
    requires db.legacy == map[] && db.legacyQueue.None?
    ensures Merged(db) == Created(db.tables) && MergedQueue(db) == db.queue
  {
    assert forall kind :: map[] + Of(db.tables, kind) == Of(db.tables, kind);
  }

  lemma EveryKind(kind: Kind)
    ensures kind in KINDS
  {}

  lemma MigratedIsUpToDate(db: Db, backedUp: bool, now: real)
    requires Fails(db, backedUp).None?
    ensures var once := Migrated(db, backedUp, now);
            && UpToDate(once) && once.views && once.legacy == map[] && once.legacyQueue.None?
            && once.unknown == db.unknown && Created(once.tables) == once.tables
            && (db.unknown != {} ==> Referential(once.tables, once.queue))
  {
    if !(UpToDate(db) && !HasLegacy(db)) { assert 2 in Migrated(db, backedUp, now).versions; }
  }

  /** What can go wrong the second time: only a backup, and only if something still looks legacy. */
  lemma SecondRunFailsIff(db: Db, backedUp: bool, now: real, again: bool)
    requires Fails(db, backedUp).None?
    ensures Fails(Migrated(db, backedUp, now), again).Some? <==> db.unknown != {} && !again
  {
    MigratedIsUpToDate(db, backedUp, now);
    MergedNothing(Migrated(db, backedUp, now));
  }

  lemma RestampedIff(versions: map<int, real>, later: real)
    ensures versions[2 := later] == versions <==> 2 in versions && versions[2] == later
  {
    assert versions[2 := later][2] == later;
  }

  /**
   A second run changes nothing if and only if no unrecognized legacy-looking table was left, or its
   backup does not succeed, or the clock has not moved since the version was stamped: such a table is
   never dropped, so it defeats the early return for good and the version is stamped anew.
   */
  lemma SecondRun(db: Db, backedUp: bool, now: real, again: bool, later: real)
    requires Fails(db, backedUp).None?
    ensures var once := Migrated(db, backedUp, now);
            Migrated(once, again, later) == once
            <==> db.unknown == {} || !again || (2 in once.versions && once.versions[2] == later)
  {
    var once := Migrated(db, backedUp, now);
    MigratedIsUpToDate(db, backedUp, now);
    SecondRunFailsIff(db, backedUp, now, again);
    MergedNothing(once);
    if db.unknown != {} && again {
      RestampedIff(once.versions, later);
      assert Migrated(once, again, later) == once.(versions := once.versions[2 := later]);
    }
  }

  /** With the seven known tables only, migrating is idempotent, whatever the backup does the second time. */
  lemma SecondRunOfKnownTables(db: Db, backedUp: bool, now: real, again: bool, later: real)
    requires Fails(db, backedUp).None? && db.unknown == {}
    ensures var once := Migrated(db, backedUp, now);
            Fails(once, again).None? && Migrated(once, again, later) == once
  {
    SecondRunFailsIff(db, backedUp, now, again);
    SecondRun(db, backedUp, now, again, later);
  }

  // ---------------------------------------------------------------- one write at a time

  datatype Write =
    | CreateTables
    | PutRow(kind: Kind, key: string, row: Row)
    | PutQueueRow(key: string, queueRow: QueueRow)
    | DropLegacy
    | CreateViews
    | Stamp(now: real)

  function Apply(db: Db, write: Write): Db {
    match write
    case CreateTables => db.(tables := Created(db.tables))
    case PutRow(kind, key, row) => db.(tables := db.tables[kind := Of(db.tables, kind)[key := row]])
    case PutQueueRow(key, row) => db.(queue := db.queue[key := row])
    case DropLegacy => db.(legacy := map[], legacyQueue := None)
    case CreateViews => db.(views := true)
    case Stamp(now) => db.(versions := db.versions[2 := now])
  }

  function ApplyAll(db: Db, writes: seq<Write>): Db {
    if writes == [] then db else Apply(ApplyAll(db, writes[..|writes| - 1]), writes[|writes| - 1])
  }

  /** The legacy rows whose keys are free. */
  ghost predicate Missing(db: Db, kind: Kind, key: string) {
    kind in db.legacy && key in db.legacy[kind] && key !in Of(db.tables, kind)
  }

  ghost predicate MissingFromQueue(db: Db, key: string) {
    key in LegacyQueueRows(db) && key !in db.queue
  }

  /** `rows` and `keys` name exactly what has to be inserted, in whatever order it is read. */
  ghost predicate Enumerates(db: Db, rows: seq<(Kind, string)>, keys: seq<string>) {
    && (forall kind, key :: (kind, key) in rows <==> Missing(db, kind, key))
    && (forall key :: key in keys <==> MissingFromQueue(db, key))
  }

  ghost function RowWrites(db: Db, rows: seq<(Kind, string)>): (ws: seq<Write>)
    requires forall r | r in rows :: Missing(db, r.0, r.1)
  {
    if rows == [] then []
    else
      var r := rows[|rows| - 1];
      assert r in rows && Missing(db, r.0, r.1);
      RowWrites(db, rows[..|rows| - 1]) + [PutRow(r.0, r.1, db.legacy[r.0][r.1])]
  }

  ghost function QueueWrites(db: Db, keys: seq<string>): seq<Write>
    requires forall key | key in keys :: MissingFromQueue(db, key)
  {
    if keys == [] then []
    else
      var key := keys[|keys| - 1];
      assert key in keys && MissingFromQueue(db, key);
      QueueWrites(db, keys[..|keys| - 1]) + [PutQueueRow(key, LegacyQueueRows(db)[key])]
  }

  ghost function Script(db: Db, now: real, rows: seq<(Kind, string)>, keys: seq<string>): seq<Write>
    requires Enumerates(db, rows, keys)
  {
    [CreateTables] + RowWrites(db, rows) + QueueWrites(db, keys) + [DropLegacy, CreateViews, Stamp(now)]
  }

  lemma ApplyLast(db: Db, writes: seq<Write>, write: Write)
    ensures ApplyAll(db, writes + [write]) == Apply(ApplyAll(db, writes), write)
  {
    assert (writes + [write])[..|writes|] == writes;
  }

  lemma {:induction false} ApplyInTwo(db: Db, a: seq<Write>, b: seq<Write>)
    ensures ApplyAll(db, a + b) == ApplyAll(ApplyAll(db, a), b)
  {
    if b == [] {
      assert a + b == a;
    } else {
      var front, last := b[..|b| - 1], b[|b| - 1];
      assert b == front + [last] && a + b == (a + front) + [last];
      ApplyInTwo(db, a, front);
      ApplyLast(db, a + front, last);
      ApplyLast(ApplyAll(db, a), front, last);
    }
  }

  function Chosen(legacy: Table, kind: Kind, rows: seq<(Kind, string)>): Table {
    map k | k in legacy && (kind, k) in rows :: legacy[k]
  }

  /** The tables with some of the missing rows put in. */
  function PartlyFilled(db: Db, rows: seq<(Kind, string)>): map<Kind, Table> {
    map kind | kind in KINDS :: FilledAt(db, kind, rows)
  }

  function FilledAt(db: Db, kind: Kind, rows: seq<(Kind, string)>): Table {
    Chosen(Of(db.legacy, kind), kind, rows) + Of(db.tables, kind)
  }

  lemma ChosenOneMore(legacy: Table, kind: Kind, rows: seq<(Kind, string)>, r: (Kind, string))
    requires r.0 == kind ==> r.1 in legacy
    ensures Chosen(legacy, kind, rows + [r]) == if r.0 == kind then Chosen(legacy, kind, rows)[r.1 := legacy[r.1]]
            else Chosen(legacy, kind, rows)
  {}

  lemma PutUnder(chosen: Table, current: Table, key: string, row: Row)
    requires key !in current
    ensures chosen[key := row] + current == (chosen + current)[key := row]
  {}

  lemma FilledAtOneMore(db: Db, kind: Kind, rows: seq<(Kind, string)>, r: (Kind, string))
    requires Missing(db, r.0, r.1)
    ensures FilledAt(db, kind, rows + [r])
            == if kind == r.0 then FilledAt(db, kind, rows)[r.1 := db.legacy[kind][r.1]] else FilledAt(db, kind, rows)
  {
    ChosenOneMore(Of(db.legacy, kind), kind, rows, r);
    if kind == r.0 {
      PutUnder(Chosen(db.legacy[kind], kind, rows), Of(db.tables, kind), r.1, db.legacy[kind][r.1]);
    }
  }

  lemma FilledOneMore(db: Db, rows: seq<(Kind, string)>, r: (Kind, string), row: Row)
    requires Missing(db, r.0, r.1) && db.legacy[r.0][r.1] == row
    ensures PartlyFilled(db, rows + [r]) == PartlyFilled(db, rows)[r.0 := FilledAt(db, r.0, rows)[r.1 := row]]
  {
    EveryKind(r.0);
    forall kind | kind in KINDS
      ensures PartlyFilled(db, rows + [r])[kind]
              == PartlyFilled(db, rows)[r.0 := FilledAt(db, r.0, rows)[r.1 := row]][kind]
    {
      FilledAtOneMore(db, kind, rows, r);
    }
  }

  lemma RowPut(db: Db, rows: seq<(Kind, string)>, r: (Kind, string), row: Row)
    requires Missing(db, r.0, r.1) && db.legacy[r.0][r.1] == row
    ensures Apply(db.(tables := PartlyFilled(db, rows)), PutRow(r.0, r.1, row))
            == db.(tables := PartlyFilled(db, rows + [r]))
  {
    FilledOneMore(db, rows, r, row);
    EveryKind(r.0);
    assert Of(PartlyFilled(db, rows), r.0) == FilledAt(db, r.0, rows);
  }

  lemma NothingPut(db: Db)
    ensures PartlyFilled(db, []) == Created(db.tables)
  {
    forall kind | kind in KINDS ensures FilledAt(db, kind, []) == Of(db.tables, kind) {
      assert Chosen(Of(db.legacy, kind), kind, []) == map[];
    }
  }

  lemma {:induction false} RowsArePut(db: Db, rows: seq<(Kind, string)>)
    requires forall r | r in rows :: Missing(db, r.0, r.1)
    ensures ApplyAll(Apply(db, CreateTables), RowWrites(db, rows)) == db.(tables := PartlyFilled(db, rows))
  {
    if rows == [] {
      NothingPut(db);
    } else {
      var front, r := rows[..|rows| - 1], rows[|rows| - 1];
      assert rows == front + [r] && r in rows && Missing(db, r.0, r.1);
      var row, created := db.legacy[r.0][r.1], Apply(db, CreateTables);
      RowsArePut(db, front);
      ApplyLast(created, RowWrites(db, front), PutRow(r.0, r.1, row));
      RowPut(db, front, r, row);
    }
  }

  lemma AllChosen(legacy: Table, current: Table, kind: Kind, rows: seq<(Kind, string)>)
    requires forall k | k in legacy && k !in current :: (kind, k) in rows
    ensures Chosen(legacy, kind, rows) + current == legacy + current
  {}

  lemma AllPutIsMerged(db: Db, rows: seq<(Kind, string)>)
    requires forall kind, key | Missing(db, kind, key) :: (kind, key) in rows
    ensures PartlyFilled(db, rows) == Merged(db)
  {
    forall kind | kind in KINDS ensures PartlyFilled(db, rows)[kind] == Merged(db)[kind] {
      forall k | k in Of(db.legacy, kind) && k !in Of(db.tables, kind) ensures (kind, k) in rows {
        assert Missing(db, kind, k);
      }
      AllChosen(Of(db.legacy, kind), Of(db.tables, kind), kind, rows);
    }
  }

  function ChosenQueue(legacy: Queue, keys: seq<string>): Queue {
    map k | k in legacy && k in keys :: legacy[k]
  }

  lemma ChosenQueueOneMore(legacy: Queue, current: Queue, keys: seq<string>, key: string)
    requires key in legacy && key !in current
    ensures ChosenQueue(legacy, keys + [key]) + current == (ChosenQueue(legacy, keys) + current)[key := legacy[key]]
  {
    assert ChosenQueue(legacy, keys + [key]) == ChosenQueue(legacy, keys)[key := legacy[key]];
  }

  lemma QueueRowPut(db: Db, mid: Db, keys: seq<string>, key: string)
    requires MissingFromQueue(db, key)
    ensures Apply(mid.(queue := ChosenQueue(LegacyQueueRows(db), keys) + db.queue),
                  PutQueueRow(key, LegacyQueueRows(db)[key]))
            == mid.(queue := ChosenQueue(LegacyQueueRows(db), keys + [key]) + db.queue)
  {
    ChosenQueueOneMore(LegacyQueueRows(db), db.queue, keys, key);
  }

  lemma {:induction false} QueueIsPut(db: Db, mid: Db, keys: seq<string>)
    requires mid.queue == db.queue && forall key | key in keys :: MissingFromQueue(db, key)
    ensures ApplyAll(mid, QueueWrites(db, keys)) == mid.(queue := ChosenQueue(LegacyQueueRows(db), keys) + db.queue)
  {
    if keys == [] {
      assert ChosenQueue(LegacyQueueRows(db), keys) + db.queue == db.queue;
    } else {
      var front, key := keys[..|keys| - 1], keys[|keys| - 1];
      assert keys == front + [key] && key in keys && MissingFromQueue(db, key);
      QueueIsPut(db, mid, front);
      ApplyLast(mid, QueueWrites(db, front), PutQueueRow(key, LegacyQueueRows(db)[key]));
      QueueRowPut(db, mid, front, key);
    }
  }

  lemma AllQueuePut(db: Db, keys: seq<string>)
    requires forall key | MissingFromQueue(db, key) :: key in keys
    ensures ChosenQueue(LegacyQueueRows(db), keys) + db.queue == MergedQueue(db)
  {
    var rows := LegacyQueueRows(db);
    assert forall k | k in rows && k !in db.queue :: MissingFromQueue(db, k);
  }

  lemma ClosingWrites(db: Db, now: real)
    ensures ApplyAll(db, [DropLegacy, CreateViews, Stamp(now)])
            == db.(legacy := map[], legacyQueue := None, views := true, versions := db.versions[2 := now])
  {
    ApplyInTwo(db, [DropLegacy, CreateViews], [Stamp(now)]);
    ApplyInTwo(db, [DropLegacy], [CreateViews]);
    OneWrite(db, DropLegacy);
    OneWrite(Apply(db, DropLegacy), CreateViews);
    OneWrite(Apply(Apply(db, DropLegacy), CreateViews), Stamp(now));
    assert [DropLegacy, CreateViews, Stamp(now)] == ([DropLegacy] + [CreateViews]) + [Stamp(now)];
    assert [DropLegacy, CreateViews] == [DropLegacy] + [CreateViews];
  }

  lemma OneWrite(db: Db, write: Write)
    ensures ApplyAll(db, [write]) == Apply(db, write)
  {
    assert [write][..0] == [];
  }

  /** The writes up to the last row leave the tables and the queue merged. */
  lemma InsertsMerge(db: Db, rows: seq<(Kind, string)>, keys: seq<string>)
    requires Enumerates(db, rows, keys)
    ensures ApplyAll(db, [CreateTables] + RowWrites(db, rows) + QueueWrites(db, keys))
            == db.(tables := Merged(db), queue := MergedQueue(db))
  {
    ApplyInTwo(db, [CreateTables] + RowWrites(db, rows), QueueWrites(db, keys));
    ApplyInTwo(db, [CreateTables], RowWrites(db, rows));
    OneWrite(db, CreateTables);
    RowsArePut(db, rows);
    AllPutIsMerged(db, rows);
    QueueIsPut(db, db.(tables := Merged(db)), keys);
    AllQueuePut(db, keys);
  }

  /** In whatever order the missing rows are inserted one by one, they add up to the migrated database. */
  lemma ScriptMigrates(db: Db, backedUp: bool, now: real, rows: seq<(Kind, string)>, keys: seq<string>)
    requires Fails(db, backedUp).None? && HasLegacy(db) && Enumerates(db, rows, keys)
    ensures ApplyAll(db, Script(db, now, rows, keys)) == Migrated(db, backedUp, now)
  {
    var inserts := [CreateTables] + RowWrites(db, rows) + QueueWrites(db, keys);
    ApplyInTwo(db, inserts, [DropLegacy, CreateViews, Stamp(now)]);
    InsertsMerge(db, rows, keys);
    ClosingWrites(db.(tables := Merged(db), queue := MergedQueue(db)), now);
  }
}
