/** The token/cost/worker budget of planner/budget.py, in memory and in its SQLite form. */
module Budget {
  import opened Prelude
  import opened Contracts

  datatype Reservation = Reservation(tokens: int, cost: int)

  datatype Ledger = Ledger(tokens: int, cost: int, maxWorkers: int, reservations: map<string, Reservation>)

  function Reserve(b: Ledger, id: string, tokens: int, cost: int): Result<Ledger, Fault> {
    if id == "" || tokens < 0 || cost < 0 then Err(InvalidValue)
    else if id in b.reservations then Err(BudgetExceeded)
    else if |b.reservations| >= b.maxWorkers || tokens > b.tokens || cost > b.cost then Err(BudgetExceeded)
    else Ok(Ledger(b.tokens - tokens, b.cost - cost, b.maxWorkers, b.reservations[id := Reservation(tokens, cost)]))
  }

  function Release(b: Ledger, id: string, unusedTokens: int, unusedCost: int): Result<Ledger, Fault> {
    if unusedTokens < 0 || unusedCost < 0 then Err(InvalidValue)
    else if id !in b.reservations then Err(UnknownKey)
    else if unusedTokens > b.reservations[id].tokens || unusedCost > b.reservations[id].cost then Err(InvalidValue)
    else Ok(Ledger(b.tokens + unusedTokens, b.cost + unusedCost, b.maxWorkers, b.reservations - {id}))
  }

  predicate GoodCeilings(tokens: int, cost: int, maxWorkers: int) {
    tokens >= 0 && cost >= 0 && maxWorkers > 0
  }

  // ---------------------------------------------------------------- sums over the open reservations

  ghost function TokensHeld(m: map<string, Reservation>): int
    decreases |m|
  {
    if m == map[] then 0 else var k :| k in m; m[k].tokens + TokensHeld(m - {k})
  }

  ghost function CostHeld(m: map<string, Reservation>): int
    decreases |m|
  {
    if m == map[] then 0 else var k :| k in m; m[k].cost + CostHeld(m - {k})
  }

  lemma {:induction false} HeldWithout(m: map<string, Reservation>, k: string)
    requires k in m
    ensures TokensHeld(m) == m[k].tokens + TokensHeld(m - {k})
    ensures CostHeld(m) == m[k].cost + CostHeld(m - {k})
    decreases |m|
  {
    var j :| j in m && TokensHeld(m) == m[j].tokens + TokensHeld(m - {j});
    var c :| c in m && CostHeld(m) == m[c].cost + CostHeld(m - {c});
    if j != k {
      HeldWithout(m - {j}, k);
      HeldWithout(m - {k}, j);
      assert m - {j} - {k} == m - {k} - {j};
    }
    if c != k {
      HeldWithout(m - {c}, k);
      HeldWithout(m - {k}, c);
      assert m - {c} - {k} == m - {k} - {c};
    }
  }

  lemma HeldWith(m: map<string, Reservation>, k: string, r: Reservation)
    requires k !in m
    ensures TokensHeld(m[k := r]) == r.tokens + TokensHeld(m)
    ensures CostHeld(m[k := r]) == r.cost + CostHeld(m)
  {
    HeldWithout(m[k := r], k);
    assert m[k := r] - {k} == m;
  }

  // ---------------------------------------------------------------- runs

  datatype Op =
    | DoReserve(id: string, tokens: int, cost: int)
    | DoRelease(id: string, unusedTokens: int, unusedCost: int)

  function Attempt(b: Ledger, op: Op): Result<Ledger, Fault> {
    match op
    case DoReserve(id, tokens, cost) => Reserve(b, id, tokens, cost)
    case DoRelease(id, unusedTokens, unusedCost) => Release(b, id, unusedTokens, unusedCost)
  }

  function Apply(b: Ledger, op: Op): Ledger {
    if Attempt(b, op).Ok? then Attempt(b, op).value else b
  }

  ghost function Run(b: Ledger, ops: seq<Op>): Ledger
    decreases |ops|
  {
    if ops == [] then b else Run(Apply(b, ops[0]), ops[1..])
  }

  /** What one operation takes out of the budget, and gives back; a refused one does neither. */
  function Taken(b: Ledger, op: Op): Reservation {
    if op.DoReserve? && Attempt(b, op).Ok? then Reservation(op.tokens, op.cost) else Reservation(0, 0)
  }

  function Refunded(b: Ledger, op: Op): Reservation {
    if op.DoRelease? && Attempt(b, op).Ok? then Reservation(op.unusedTokens, op.unusedCost) else Reservation(0, 0)
  }

  function Plus(x: Reservation, y: Reservation): Reservation {
    Reservation(x.tokens + y.tokens, x.cost + y.cost)
  }

  ghost function AllTaken(b: Ledger, ops: seq<Op>): Reservation
    decreases |ops|
  {
    if ops == [] then Reservation(0, 0) else Plus(Taken(b, ops[0]), AllTaken(Apply(b, ops[0]), ops[1..]))
  }

  ghost function AllRefunded(b: Ledger, ops: seq<Op>): Reservation
    decreases |ops|
  {
    if ops == [] then Reservation(0, 0) else Plus(Refunded(b, ops[0]), AllRefunded(Apply(b, ops[0]), ops[1..]))
  }

  ghost predicate Sound(b: Ledger) {
    && b.tokens >= 0 && b.cost >= 0 && |b.reservations| <= b.maxWorkers
    && forall id | id in b.reservations :: b.reservations[id].tokens >= 0 && b.reservations[id].cost >= 0
  }

  /** A refund comes out of its own reservation, which is gone afterwards. */
  lemma RefundBounded(b: Ledger, id: string, unusedTokens: int, unusedCost: int)
    ensures Release(b, id, unusedTokens, unusedCost).Ok? ==>
              && id in b.reservations && id !in Release(b, id, unusedTokens, unusedCost).value.reservations
              && 0 <= unusedTokens <= b.reservations[id].tokens && 0 <= unusedCost <= b.reservations[id].cost
              && Release(Release(b, id, unusedTokens, unusedCost).value, id, 0, 0) == Err(UnknownKey)
  {}

  lemma ApplyKeepsSound(b: Ledger, op: Op)
    requires Sound(b)
    ensures Sound(Apply(b, op)) && Apply(b, op).maxWorkers == b.maxWorkers
  {}

  lemma ApplyBalances(b: Ledger, op: Op)
    requires Sound(b)
    ensures var b' := Apply(b, op);
            b'.tokens + TokensHeld(b'.reservations) <= b.tokens + TokensHeld(b.reservations)
            && b'.cost + CostHeld(b'.reservations) <= b.cost + CostHeld(b.reservations)
  {
    if Attempt(b, op).Ok? {
      match op
      case DoReserve(id, tokens, cost) => HeldWith(b.reservations, id, Reservation(tokens, cost));
      case DoRelease(id, _, _) => HeldWithout(b.reservations, id);
    }
  }

  lemma {:induction false} HeldNonNegative(m: map<string, Reservation>)
    requires forall k | k in m :: m[k].tokens >= 0 && m[k].cost >= 0
    ensures TokensHeld(m) >= 0 && CostHeld(m) >= 0
    decreases |m|
  {
    if m != map[] {
      var k :| k in m;
      HeldWithout(m, k);
      HeldNonNegative(m - {k});
    }
  }

  lemma ApplyAccounts(b: Ledger, op: Op)
    ensures Apply(b, op).tokens == b.tokens - Taken(b, op).tokens + Refunded(b, op).tokens
    ensures Apply(b, op).cost == b.cost - Taken(b, op).cost + Refunded(b, op).cost
  {}

  /**
   Conservation over any run: what is available is the start minus everything ever admitted
   plus every refund.
   */
  lemma {:induction false} Conservation(b: Ledger, ops: seq<Op>)
    ensures Run(b, ops).tokens == b.tokens - AllTaken(b, ops).tokens + AllRefunded(b, ops).tokens
    ensures Run(b, ops).cost == b.cost - AllTaken(b, ops).cost + AllRefunded(b, ops).cost
    decreases |ops|
  {
    if ops != [] {
      ApplyAccounts(b, ops[0]);
      Conservation(Apply(b, ops[0]), ops[1..]);
    }
  }

  /** No balance goes negative, the worker ceiling holds, and no run mints budget. */
  lemma {:induction false} RunKeepsSound(b: Ledger, ops: seq<Op>)
    requires Sound(b)
    ensures var b' := Run(b, ops);
            && Sound(b') && b'.maxWorkers == b.maxWorkers
            && b'.tokens + TokensHeld(b'.reservations) <= b.tokens + TokensHeld(b.reservations)
            && b'.cost + CostHeld(b'.reservations) <= b.cost + CostHeld(b.reservations)
    decreases |ops|
  {
    if ops != [] {
      ApplyKeepsSound(b, ops[0]);
      ApplyBalances(b, ops[0]);
      RunKeepsSound(Apply(b, ops[0]), ops[1..]);
    }
  }

  /** From a new ledger, availability never exceeds the initial budget. */
  lemma NeverMinted(tokens: int, cost: int, maxWorkers: int, ops: seq<Op>)
    requires GoodCeilings(tokens, cost, maxWorkers)
    ensures var b := Run(Ledger(tokens, cost, maxWorkers, map[]), ops);
            0 <= b.tokens <= tokens && 0 <= b.cost <= cost && |b.reservations| <= maxWorkers
  {
    var b := Ledger(tokens, cost, maxWorkers, map[]);
    RunKeepsSound(b, ops);
    HeldNonNegative(Run(b, ops).reservations);
  }

  // ---------------------------------------------------------------- the in-memory object

  class BudgetLedger {
    var tokens: int
    var cost: int
    const maxWorkers: int
    var reservations: map<string, Reservation>

    function View(): Ledger
      reads this
    {
      Ledger(tokens, cost, maxWorkers, reservations)
    }

    constructor (tokens: int, cost: int, maxWorkers: int)
      requires GoodCeilings(tokens, cost, maxWorkers)
      ensures View() == Ledger(tokens, cost, maxWorkers, map[]) && Sound(View())
    {
      this.tokens, this.cost, this.maxWorkers, reservations := tokens, cost, maxWorkers, map[];
    }

    method ReserveFor(id: string, tokenAllowance: int, costAllowance: int) returns (r: Option<Fault>)
      modifies this
      ensures match Reserve(old(View()), id, tokenAllowance, costAllowance)
              case Ok(b) => View() == b && r == None
              case Err(e) => View() == old(View()) && r == Some(e)
    {
      if id == "" || tokenAllowance < 0 || costAllowance < 0 {
        return Some(InvalidValue);
      }
      if id in reservations || |reservations| >= maxWorkers || tokenAllowance > tokens || costAllowance > cost {
        return Some(BudgetExceeded);
      }
      tokens := tokens - tokenAllowance;
      cost := cost - costAllowance;
      reservations := reservations[id := Reservation(tokenAllowance, costAllowance)];
      r := None;
    }

    method ReleaseFor(id: string, unusedTokens: int, unusedCost: int) returns (r: Option<Fault>)
      modifies this
      ensures match Release(old(View()), id, unusedTokens, unusedCost)
              case Ok(b) => View() == b && r == None
              case Err(e) => View() == old(View()) && r == Some(e)
    {
      if unusedTokens < 0 || unusedCost < 0 {
        return Some(InvalidValue);
      }
      if id !in reservations {
        return Some(UnknownKey);
      }
      var held := reservations[id];
      if unusedTokens > held.tokens || unusedCost > held.cost {
        return Some(InvalidValue);
      }
      tokens := tokens + unusedTokens;
      cost := cost + unusedCost;
      reservations := reservations - {id};
      r := None;
    }
  }
}

/** DurableBudgetLedger: several ledgers share two tables, keyed by ledger and dispatch. */
module DurableBudget {
  import opened Prelude
  import opened Contracts
  import opened Budget

  datatype LedgerRow = LedgerRow(tokens: int, cost: int, maxWorkers: int)

  datatype Tables = Tables(ledgers: map<string, LedgerRow>, reservations: map<(string, string), Reservation>)

  /** COUNT(*) of one ledger's reservation rows. */
  function RowCount(db: Tables, ledgerId: string): nat {
    |set k | k in db.reservations && k.0 == ledgerId|
  }

  /** The in-memory ledger that a ledger id's rows stand for. */
  ghost function Meaning(db: Tables, ledgerId: string): Ledger
    requires ledgerId in db.ledgers
  {
    var row := db.ledgers[ledgerId];
    Ledger(row.tokens, row.cost, row.maxWorkers,
           map k | k in db.reservations && k.0 == ledgerId :: k.1 := db.reservations[k])
  }

  lemma {:induction false} PairsCount(pairs: set<(string, string)>, names: set<string>, ledgerId: string)
    requires forall k | k in pairs :: k.0 == ledgerId && k.1 in names
    requires forall n | n in names :: (ledgerId, n) in pairs
    ensures |pairs| == |names|
    decreases |names|
  {
    if names == {} {
      assert pairs == {};
    } else {
      var n :| n in names;
      PairsCount(pairs - {(ledgerId, n)}, names - {n}, ledgerId);
    }
  }

  lemma CountIsMeaning(db: Tables, ledgerId: string)
    requires ledgerId in db.ledgers
    ensures RowCount(db, ledgerId) == |Meaning(db, ledgerId).reservations|
  {
    var m := Meaning(db, ledgerId).reservations;
    PairsCount((set k | k in db.reservations && k.0 == ledgerId), m.Keys, ledgerId);
  }

  /** The two statements of an admitted reservation. */
  function Debited(db: Tables, ledgerId: string, id: string, r: Reservation): Tables
    requires ledgerId in db.ledgers
  {
    var row := db.ledgers[ledgerId];
    Tables(db.ledgers[ledgerId := LedgerRow(row.tokens - r.tokens, row.cost - r.cost, row.maxWorkers)],
           db.reservations[(ledgerId, id) := r])
  }

  /** The two statements of an accepted release. */
  function Credited(db: Tables, ledgerId: string, id: string, unused: Reservation): Tables
    requires ledgerId in db.ledgers
  {
    var row := db.ledgers[ledgerId];
    Tables(db.ledgers[ledgerId := LedgerRow(row.tokens + unused.tokens, row.cost + unused.cost, row.maxWorkers)],
           db.reservations - {(ledgerId, id)})
  }

  lemma DebitedMeaning(db: Tables, ledgerId: string, id: string, r: Reservation)
    requires ledgerId in db.ledgers
    ensures var b := Meaning(db, ledgerId);
            Meaning(Debited(db, ledgerId, id, r), ledgerId)
            == Ledger(b.tokens - r.tokens, b.cost - r.cost, b.maxWorkers, b.reservations[id := r])
  {
    var after := Meaning(Debited(db, ledgerId, id, r), ledgerId).reservations;
    assert (ledgerId, id) in Debited(db, ledgerId, id, r).reservations;
    assert id in after;
    assert after == Meaning(db, ledgerId).reservations[id := r];
  }

  lemma CreditedMeaning(db: Tables, ledgerId: string, id: string, unused: Reservation)
    requires ledgerId in db.ledgers
    ensures var b := Meaning(db, ledgerId);
            Meaning(Credited(db, ledgerId, id, unused), ledgerId)
            == Ledger(b.tokens + unused.tokens, b.cost + unused.cost, b.maxWorkers, b.reservations - {id})
  {}

  /** Rows of one ledger id are invisible to every other. */
  lemma OthersUntouched(db: Tables, ledgerId: string, id: string, r: Reservation, other: string)
    requires ledgerId in db.ledgers && other in db.ledgers && other != ledgerId
    ensures Meaning(Debited(db, ledgerId, id, r), other) == Meaning(db, other)
    ensures Meaning(Credited(db, ledgerId, id, r), other) == Meaning(db, other)
  {
    assert Meaning(Debited(db, ledgerId, id, r), other).reservations == Meaning(db, other).reservations;
    assert Meaning(Credited(db, ledgerId, id, r), other).reservations == Meaning(db, other).reservations;
  }

  /** What every other ledger id stands for is the same. */
  ghost predicate OthersKept(before: Tables, after: Tables, ledgerId: string) {
    && after.ledgers.Keys == before.ledgers.Keys
    && forall other | other in after.ledgers && other != ledgerId :: Meaning(after, other) == Meaning(before, other)
  }

  lemma WritesKeepOthers(db: Tables, ledgerId: string, id: string, r: Reservation)
    requires ledgerId in db.ledgers
    ensures OthersKept(db, Debited(db, ledgerId, id, r), ledgerId)
            && OthersKept(db, Credited(db, ledgerId, id, r), ledgerId)
  {
    forall other | other in db.ledgers && other != ledgerId
      ensures Meaning(Debited(db, ledgerId, id, r), other) == Meaning(db, other)
      ensures Meaning(Credited(db, ledgerId, id, r), other) == Meaning(db, other)
    {
      OthersUntouched(db, ledgerId, id, r, other);
    }
  }

  lemma ReserveValue(b: Ledger, id: string, r: Reservation)
    requires Reserve(b, id, r.tokens, r.cost).Ok?
    ensures Reserve(b, id, r.tokens, r.cost)
            == Ok(Ledger(b.tokens - r.tokens, b.cost - r.cost, b.maxWorkers, b.reservations[id := r]))
  {}

  lemma ReleaseValue(b: Ledger, id: string, unused: Reservation)
    requires Release(b, id, unused.tokens, unused.cost).Ok?
    ensures Release(b, id, unused.tokens, unused.cost)
            == Ok(Ledger(b.tokens + unused.tokens, b.cost + unused.cost, b.maxWorkers, b.reservations - {id}))
  {}

  /** The rows of an admitted reservation stand for the ledger that `Reserve` answers. */
  lemma DebitRefines(db: Tables, ledgerId: string, id: string, r: Reservation)
    requires ledgerId in db.ledgers && Reserve(Meaning(db, ledgerId), id, r.tokens, r.cost).Ok?
    ensures Reserve(Meaning(db, ledgerId), id, r.tokens, r.cost) == Ok(Meaning(Debited(db, ledgerId, id, r), ledgerId))
  {
    var b := Meaning(db, ledgerId);
    assert Meaning(Debited(db, ledgerId, id, r), ledgerId)
           == Ledger(b.tokens - r.tokens, b.cost - r.cost, b.maxWorkers, b.reservations[id := r]) by {
      DebitedMeaning(db, ledgerId, id, r);
    }
    ReserveValue(b, id, r);
  }

  lemma CreditRefines(db: Tables, ledgerId: string, id: string, unused: Reservation)
    requires ledgerId in db.ledgers && Release(Meaning(db, ledgerId), id, unused.tokens, unused.cost).Ok?
    ensures Release(Meaning(db, ledgerId), id, unused.tokens, unused.cost)
            == Ok(Meaning(Credited(db, ledgerId, id, unused), ledgerId))
  {
    ReleaseValue(Meaning(db, ledgerId), id, unused);
    CreditedMeaning(db, ledgerId, id, unused);
  }

  // ---------------------------------------------------------------- any interleaving over several ledger ids

  datatype Call = Call(ledgerId: string, op: Op)

  /** The transaction of one call: its two statements if the call is admitted, nothing otherwise. */
  ghost function Commit(db: Tables, call: Call): Tables {
    if call.ledgerId !in db.ledgers || Attempt(Meaning(db, call.ledgerId), call.op).Err? then db
    else
      match call.op
      case DoReserve(id, tokens, cost) => Debited(db, call.ledgerId, id, Reservation(tokens, cost))
      case DoRelease(id, unusedTokens, unusedCost) =>
        Credited(db, call.ledgerId, id, Reservation(unusedTokens, unusedCost))
  }

  ghost function CommitAll(db: Tables, calls: seq<Call>): Tables
    decreases |calls|
  {
    if calls == [] then db else CommitAll(Commit(db, calls[0]), calls[1..])
  }

  /** One ledger's part of the calls, in order. */
  function OpsOn(calls: seq<Call>, ledgerId: string): seq<Op> {
    if calls == [] then []
    else (if calls[0].ledgerId == ledgerId then [calls[0].op] else []) + OpsOn(calls[1..], ledgerId)
  }

  lemma CommitRefines(db: Tables, call: Call, ledgerId: string)
    requires ledgerId in db.ledgers
    ensures ledgerId in Commit(db, call).ledgers
    ensures Meaning(Commit(db, call), ledgerId)
            == if call.ledgerId == ledgerId then Apply(Meaning(db, ledgerId), call.op) else Meaning(db, ledgerId)
  {
    if call.ledgerId in db.ledgers && Attempt(Meaning(db, call.ledgerId), call.op).Ok? {
      var r := match call.op case DoReserve(_, t, c) => Reservation(t, c) case DoRelease(_, t, c) => Reservation(t, c);
      if call.ledgerId != ledgerId {
        OthersUntouched(db, call.ledgerId, call.op.id, r, ledgerId);
      } else if call.op.DoReserve? {
        DebitRefines(db, ledgerId, call.op.id, r);
      } else {
        CreditRefines(db, ledgerId, call.op.id, r);
      }
    }
  }

  lemma RunStep(b: Ledger, op: Op, ops: seq<Op>)
    ensures Run(b, [op] + ops) == Run(Apply(b, op), ops)
  {
    assert ([op] + ops)[1..] == ops;
  }

  /** Calls on any ledger ids interleave in one store: each id goes through the in-memory run of its own calls. */
  lemma {:induction false} RunsRefine(db: Tables, calls: seq<Call>, ledgerId: string)
    requires ledgerId in db.ledgers
    ensures ledgerId in CommitAll(db, calls).ledgers
    ensures Meaning(CommitAll(db, calls), ledgerId) == Run(Meaning(db, ledgerId), OpsOn(calls, ledgerId))
    decreases |calls|
  {
    if calls != [] {
      CommitRefines(db, calls[0], ledgerId);
      RunsRefine(Commit(db, calls[0]), calls[1..], ledgerId);
      if calls[0].ledgerId == ledgerId {
        RunStep(Meaning(db, ledgerId), calls[0].op, OpsOn(calls[1..], ledgerId));
      } else {
        assert OpsOn(calls, ledgerId) == OpsOn(calls[1..], ledgerId);
      }
    }
  }

  class BudgetStore {
    var tables: Tables

    constructor ()
      ensures tables == Tables(map[], map[])
    {
      tables := Tables(map[], map[]);
    }
  }

  class DurableBudgetLedger {
    const store: BudgetStore
    const ledgerId: string

    ghost predicate Valid()
      reads store
    {
      ledgerId in store.tables.ledgers
    }

    ghost function View(): Ledger
      reads store
      requires Valid()
    {
      Meaning(store.tables, ledgerId)
    }

    /** Opens a ledger; an existing row keeps its balances and its own worker ceiling. */
    constructor (store: BudgetStore, ledgerId: string, tokens: int, cost: int, maxWorkers: int)
      requires GoodCeilings(tokens, cost, maxWorkers)
      modifies store
      ensures this.store == store && this.ledgerId == ledgerId && Valid()
      ensures ledgerId in old(store.tables.ledgers) ==> store.tables == old(store.tables)
      ensures ledgerId !in old(store.tables.ledgers) ==>
                store.tables == old(store.tables).(ledgers := old(store.tables.ledgers)[ledgerId := LedgerRow(tokens,
                    cost, maxWorkers)])
    {
      this.store := store;
      this.ledgerId := ledgerId;
      new;
      if ledgerId !in store.tables.ledgers {
        store.tables := store.tables.(ledgers := store.tables.ledgers[ledgerId := LedgerRow(tokens, cost, maxWorkers)]);
      }
    }

    /** Refines `Reserve`, and leaves what every other ledger id stands for alone. */
    method ReserveFor(id: string, tokenAllowance: int, costAllowance: int) returns (r: Option<Fault>)
      requires Valid()
      modifies store
      ensures Valid() && OthersKept(old(store.tables), store.tables, ledgerId)
      ensures match Reserve(old(View()), id, tokenAllowance, costAllowance)
              case Ok(b) => View() == b && r == None
              case Err(e) => store.tables == old(store.tables) && r == Some(e)
      ensures store.tables == Commit(old(store.tables), Call(ledgerId, DoReserve(id, tokenAllowance, costAllowance)))
    {
      if id == "" || tokenAllowance < 0 || costAllowance < 0 {
        return Some(InvalidValue);
      }
      var row := store.tables.ledgers[ledgerId];
      if (ledgerId, id) in store.tables.reservations {
        return Some(BudgetExceeded);
      }
      CountIsMeaning(store.tables, ledgerId);
      if RowCount(store.tables, ledgerId) >= row.maxWorkers || tokenAllowance > row.tokens || costAllowance > row.cost {
        return Some(BudgetExceeded);
      }
      var debit := Reservation(tokenAllowance, costAllowance);
      DebitRefines(store.tables, ledgerId, id, debit);
      WritesKeepOthers(store.tables, ledgerId, id, debit);
      store.tables := Debited(store.tables, ledgerId, id, debit);
      r := None;
    }

    method ReleaseFor(id: string, unusedTokens: int, unusedCost: int) returns (r: Option<Fault>)
      requires Valid()
      modifies store
      ensures Valid() && OthersKept(old(store.tables), store.tables, ledgerId)
      ensures match Release(old(View()), id, unusedTokens, unusedCost)
              case Ok(b) => View() == b && r == None
              case Err(e) => store.tables == old(store.tables) && r == Some(e)
      ensures store.tables == Commit(old(store.tables), Call(ledgerId, DoRelease(id, unusedTokens, unusedCost)))
    {
      if unusedTokens < 0 || unusedCost < 0 {
        return Some(InvalidValue);
      }
      if (ledgerId, id) !in store.tables.reservations {
        return Some(UnknownKey);
      }
      var held := store.tables.reservations[(ledgerId, id)];
      if unusedTokens > held.tokens || unusedCost > held.cost {
        return Some(InvalidValue);
      }
      var credit := Reservation(unusedTokens, unusedCost);
      CreditRefines(store.tables, ledgerId, id, credit);
      WritesKeepOthers(store.tables, ledgerId, id, credit);
      store.tables := Credited(store.tables, ledgerId, id, credit);
      r := None;
    }
  }
}
