/** `migrate_schema` of storage/team_store.py as it works on the database: in place, inside one transaction. */
module SchemaMigration {
  import opened Prelude
  import opened Migration

  const ORDER: seq<Kind> := [Teams, Sessions, Worktrees, Handoffs, ChannelMessages, Checkpoints]

  /** The created tables when the kinds in `done` have been merged. */
  function PartlyMerged(db: Db, done: set<Kind>): map<Kind, Table> {
    map kind | kind in KINDS :: if kind in done then Of(db.legacy, kind) + Of(db.tables, kind) else Of(db.tables, kind)
  }

  lemma AllMerged(db: Db, done: set<Kind>)
    requires KINDS <= done
    ensures PartlyMerged(db, done) == Merged(db)
  {}

  lemma NoneMerged(db: Db)
    requires db.tables.Keys == KINDS
    ensures PartlyMerged(db, {}) == db.tables
  {}

  lemma OneMoreMerged(db: Db, done: set<Kind>, kind: Kind)
    requires kind !in done
    ensures var before := PartlyMerged(db, done);
            && Of(before, kind) == Of(db.tables, kind)
            && PartlyMerged(db, done + {kind})
               == if kind in db.legacy then before[kind := db.legacy[kind] + Of(db.tables, kind)] else before
  {
    EveryKind(kind);
    assert map[] + Of(db.tables, kind) == Of(db.tables, kind);
  }

  /** The queue when all legacy rows but those in `left` have been taken over. */
  function Taken(rows: Queue, left: set<string>, before: Queue): Queue {
    (rows - left) + before
  }

  ghost predicate NoClash(rows: Queue, left: set<string>, before: Queue) {
    CompatibleQueue(rows - left, before)
  }

  /** One more queue row taken over: a held key keeps its row, a free one receives the legacy row. */
  lemma TakeRow(rows: Queue, left: set<string>, before: Queue, k: string)
    requires k in left && k in rows
    ensures Taken(rows, left - {k}, before)
            == if k in before then Taken(rows, left, before) else Taken(rows, left, before)[k := rows[k]]
    ensures NoClash(rows, left - {k}, before) <==> NoClash(rows, left, before) && (k in before ==> rows[k] == before[k])
    ensures k in Taken(rows, left, before) <==> k in before
    ensures k in before ==> Taken(rows, left, before)[k] == before[k]
  {
    assert rows - (left - {k}) == (rows - left)[k := rows[k]];
  }

  lemma TakeEnds(rows: Queue, before: Queue)
    ensures Taken(rows, rows.Keys, before) == before && NoClash(rows, rows.Keys, before)
    ensures Taken(rows, {}, before) == rows + before
    ensures NoClash(rows, {}, before) <==> CompatibleQueue(rows, before)
  {
    assert rows - rows.Keys == map[] && rows - {} == rows;
  }

  lemma ClashIsFinal(rows: Queue, left: set<string>, before: Queue)
    requires !NoClash(rows, left, before)
    ensures !CompatibleQueue(rows, before)
  {}

  lemma EveryKindInOrder(kind: Kind)
    ensures kind in ORDER
  {
    match kind
    case Teams => assert ORDER[0] == kind;
    case Sessions => assert ORDER[1] == kind;
    case Worktrees => assert ORDER[2] == kind;
    case Handoffs => assert ORDER[3] == kind;
    case ChannelMessages => assert ORDER[4] == kind;
    case Checkpoints => assert ORDER[5] == kind;
  }

  lemma CreationKeepsMerge(db: Db, created: Db)
    requires created == db.(tables := Created(db.tables))
    ensures NoConflict(created) == NoConflict(db) && Merged(created) == Merged(db)
            && Created(created.tables) == created.tables
  {
    forall kind: Kind ensures Of(created.tables, kind) == Of(db.tables, kind) { EveryKind(kind); }
  }

  /** Creating the missing tables is invisible to everything that is decided later. */
  lemma CreationChangesNothing(db: Db, created: Db, backedUp: bool, now: real)
    requires created == db.(tables := Created(db.tables))
    ensures Fails(created, backedUp) == Fails(db, backedUp)
    ensures Fails(db, backedUp).None? ==> Migrated(created, backedUp, now) == Migrated(db, backedUp, now)
  {
    CreationKeepsMerge(db, created);
    assert MergedQueue(created) == MergedQueue(db) && HasLegacy(created) == HasLegacy(db)
           && UpToDate(created) == UpToDate(db);
  }

  class TeamDatabase {
    var tables: map<Kind, Table>
    var queue: Queue
    var legacy: map<Kind, Table>
    var legacyQueue: Option<LegacyQueue>
    var unknown: set<string>
    var views: bool
    var versions: map<int, real>
    /** The statements the connection still carries out before it raises; None if it never does. */
    var serves: Option<nat>

    function View(): Db
      reads this
    {
      Db(tables, queue, legacy, legacyQueue, unknown, views, versions)
    }

    /** Only a connection that has given out breaks anything. */
    ghost predicate Excused(served: Option<nat>, fault: Option<Fault>)
      reads this`serves
    {
      (served.None? ==> serves.None?) && (fault == Some(Broken) ==> serves == Some(0))
    }

    /** Before each statement that writes. */
    method Execute() returns (fault: Option<Fault>)
      modifies this`serves
      ensures fault in {None, Some(Broken)} && Excused(old(serves), fault)
      ensures fault.Some? <==> old(serves) == Some(0)
    {
      if serves == Some(0) {
        return Some(Broken);
      }
      if serves.Some? {
        serves := Some(serves.value - 1);
      }
      fault := None;
    }

    /** Conflict check, insertion of what is missing, and the row-by-row verification, which never finds anything. */
    method MergeTable(kind: Kind) returns (fault: Option<Fault>)
      requires kind in legacy
      modifies this`tables, this`serves
      ensures Excused(old(serves), fault)
      ensures fault != Some(Broken)
              ==> fault == if Compatible(legacy[kind], Of(old(tables), kind)) then None else Some(Conflict)
      ensures tables == if fault.None? then old(tables)[kind := legacy[kind] + Of(old(tables), kind)] else old(tables)
    {
      var source, current := legacy[kind], Of(tables, kind);
      if !Compatible(source, current) {
        return Some(Conflict);
      }
      fault := Execute();
      if fault.Some? {
        return;
      }
      tables := tables[kind := source + current];
      var todo := source.Keys;
      while todo != {}
        invariant todo <= source.Keys
        decreases |todo|
      {
        var k :| k in todo;
        if k !in tables[kind] || !SameRow(source[k], tables[kind][k]) {
          assert false;
        }
        todo := todo - {k};
      }
    }

    /** Row by row: a taken key must hold exactly the same row, a free one receives it. */
    method TakeRows(source: LegacyQueue) returns (fault: Option<Fault>)
      modifies this`queue, this`serves
      ensures Excused(old(serves), fault)
      ensures fault != Some(Broken)
              ==> fault == if CompatibleQueue(FilledRows(source), old(queue)) then None else Some(Conflict)
      ensures fault.None? ==> queue == FilledRows(source) + old(queue)
    {
      ghost var rows, before := FilledRows(source), queue;
      TakeEnds(rows, before);
      var todo := source.rows.Keys;
      while todo != {}
        invariant todo <= rows.Keys && queue == Taken(rows, todo, before) && NoClash(rows, todo, before)
        invariant Excused(old(serves), None)
        decreases |todo|
      {
        var k :| k in todo;
        TakeRow(rows, todo, before, k);
        var values := Filled(source, source.rows[k]);
        if k in queue {
          if queue[k] != values {
            ClashIsFinal(rows, todo - {k}, before);
            return Some(Conflict);
          }
        } else {
          fault := Execute();
          if fault.Some? {
            return;
          }
          queue := queue[k := values];
        }
        todo := todo - {k};
      }
      fault := None;
    }

    /** One kind of table, if there is a legacy one. */
    method MergeIfLegacy(kind: Kind, ghost db: Db, ghost done: set<Kind>) returns (fault: Option<Fault>)
      requires kind !in done && legacy == db.legacy && tables == PartlyMerged(db, done)
      modifies this`tables, this`serves
      ensures Excused(old(serves), fault)
      ensures fault != Some(Broken)
              ==> fault == if kind in legacy ==> Compatible(legacy[kind], Of(db.tables, kind)) then None
                           else Some(Conflict)
      ensures fault.None? ==> tables == PartlyMerged(db, done + {kind})
    {
      OneMoreMerged(db, done, kind);
      fault := None;
      if kind in legacy {
        fault := MergeTable(kind);
      }
    }

    method MergeTables() returns (fault: Option<Fault>)
      requires tables.Keys == KINDS
      modifies this`tables, this`serves
      ensures Excused(old(serves), fault)
      ensures fault != Some(Broken)
              ==> fault == if forall kind | kind in legacy :: Compatible(legacy[kind], Of(old(tables), kind)) then None
                           else Some(Conflict)
      ensures fault.None? ==> tables == Merged(old(View()))
    {
      ghost var db := View();
      ghost var done: set<Kind> := {};
      NoneMerged(db);
      for i := 0 to |ORDER|
        invariant legacy == db.legacy && tables == PartlyMerged(db, done) && Excused(old(serves), None)
        invariant forall j | 0 <= j < |ORDER| :: ORDER[j] in done <==> j < i
        invariant forall j | 0 <= j < i && ORDER[j] in legacy :: Compatible(legacy[ORDER[j]], Of(db.tables, ORDER[j]))
      {
        fault := MergeIfLegacy(ORDER[i], db, done);
        if fault.Some? {
          return;
        }
        done := done + {ORDER[i]};
      }
      forall kind: Kind ensures kind in done && (kind in legacy ==> Compatible(legacy[kind], Of(db.tables, kind))) {
        EveryKindInOrder(kind);
      }
      AllMerged(db, done);
      fault := None;
    }

    method MergeAll() returns (fault: Option<Fault>)
      requires tables.Keys == KINDS
      modifies this`tables, this`queue, this`serves
      ensures Excused(old(serves), fault)
      ensures fault != Some(Broken)
              ==> fault == if !NoConflict(old(View())) then Some(Conflict)
                           else if !Referential(Merged(old(View())), MergedQueue(old(View()))) then
                             Some(IntegrityFailure)
                           else None
      ensures fault.None? ==> tables == Merged(old(View())) && queue == MergedQueue(old(View()))
    {
      fault := MergeTables();
      if fault.Some? {
        return;
      }
      if legacyQueue.Some? {
        fault := TakeRows(legacyQueue.value);
        if fault.Some? {
          return;
        }
      }
      assert queue == MergedQueue(old(View()));
      fault := if Referential(tables, queue) then None else Some(IntegrityFailure);
    }

    method BackUpAndMerge(backedUp: bool) returns (fault: Option<Fault>)
      requires tables.Keys == KINDS && HasLegacy(View())
      modifies this`tables, this`queue, this`serves
      ensures Excused(old(serves), fault)
      ensures fault != Some(Broken)
              ==> fault == if !backedUp then Some(BackupFailure)
                           else if !NoConflict(old(View())) then Some(Conflict)
                           else if !Referential(Merged(old(View())), MergedQueue(old(View()))) then
                             Some(IntegrityFailure)
                           else None
      ensures fault.None? ==> tables == Merged(old(View())) && queue == MergedQueue(old(View()))
    {
      if backedUp {
        fault := MergeAll();
      } else {
        fault := Some(BackupFailure);
      }
    }

    /** The statements from the first dropped table to the commit. */
    method Close(now: real) returns (fault: Option<Fault>)
      modifies this`legacy, this`legacyQueue, this`views, this`versions, this`serves
      ensures Excused(old(serves), fault) && fault in {None, Some(Broken)}
      ensures fault.None? ==> legacy == map[] && legacyQueue.None? && views && versions == old(versions)[2 := now]
    {
      if HasLegacy(View()) {
        fault := Execute();
        if fault.Some? {
          return;
        }
        legacy, legacyQueue := map[], None;
      }
      fault := Execute();
      if fault.Some? {
        return;
      }
      views := true;
      fault := Execute();
      if fault.Some? {
        return;
      }
      versions := versions[2 := now];
      fault := Execute();
    }

    method ShowViews() returns (fault: Option<Fault>)
      modifies this`views, this`serves
      ensures Excused(old(serves), fault) && fault in {None, Some(Broken)}
      ensures fault.None? ==> views
    {
      fault := Execute();
      if fault.Some? {
        return;
      }
      views := true;
      fault := Execute();
    }

    /** Everything after the tables exist; a fault may leave the work half done. */
    method MergeAndRecord(backedUp: bool, now: real) returns (fault: Option<Fault>)
      requires tables.Keys == KINDS
      modifies this`tables, this`queue, this`legacy, this`legacyQueue, this`views, this`versions, this`serves
      ensures Excused(old(serves), fault)
      ensures fault != Some(Broken) ==> fault == Fails(old(View()), backedUp)
      ensures fault.None? ==> View() == Migrated(old(View()), backedUp, now)
    {
      assert Created(tables) == tables;
      if UpToDate(View()) && !HasLegacy(View()) {
        fault := ShowViews();
        return;
      }
      if HasLegacy(View()) {
        fault := BackUpAndMerge(backedUp);
        if fault.Some? {
          return;
        }
      }
      fault := Close(now);
    }

    method CreateAndMerge(backedUp: bool, now: real) returns (fault: Option<Fault>)
      modifies this`tables, this`queue, this`legacy, this`legacyQueue, this`views, this`versions, this`serves
      ensures Excused(old(serves), fault)
      ensures fault != Some(Broken) ==> fault == Fails(old(View()), backedUp)
      ensures fault.None? ==> View() == Migrated(old(View()), backedUp, now)
    {
      fault := Execute();
      if fault.Some? {
        return;
      }
      CreationChangesNothing(View(), View().(tables := Created(tables)), backedUp, now);
      tables := Created(tables);
      fault := MergeAndRecord(backedUp, now);
    }

    method RollBack(before: Db)
      requires before.unknown == unknown
      modifies this`tables, this`queue, this`legacy, this`legacyQueue, this`views, this`versions
      ensures View() == before
    {
      tables, queue, legacy, legacyQueue := before.tables, before.queue, before.legacy, before.legacyQueue;
      views, versions := before.views, before.versions;
    }

    /**
     The whole transaction. Whatever goes wrong in it, and at whatever statement the connection gives out, the
     database is as it was found; otherwise it is migrated. A sound connection reports a defect of the data only.
     */
    method MigrateSchema(backedUp: bool, now: real) returns (fault: Option<Fault>)
      modifies this
      ensures fault != Some(Broken) ==> fault == Fails(old(View()), backedUp)
      ensures Excused(old(serves), fault)
      ensures View() == if fault.Some? then old(View()) else Migrated(old(View()), backedUp, now)
    {
      var before := View();
      fault := CreateAndMerge(backedUp, now);
      if fault.Some? {
        RollBack(before);
      }
    }
  }
}
