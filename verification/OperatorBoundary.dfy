/**
 The boundary object itself: a supervisor's memory (`_requests`, `_consumed_nonces`) beside the
 shared durable table. Each method is proved to perform the atomic steps of OperatorApproval;
 OperatorProtocol says what any interleaving of those steps keeps.
 */
module OperatorBoundary {
  import opened Prelude
  import opened OperatorApproval

  class ApprovalStore {
    var rows: Rows

    constructor ()
      ensures rows == map[]
    {
      rows := map[];
    }
  }

  /** The reload loop on the two dictionaries: every row into memory, every spent nonce remembered. */
  method LoadRows(memory: Rows, nonces: set<string>, rows: Rows, now: real)
    returns (requests: Rows, consumed: set<string>, loaded: nat)
    ensures requests == Loaded(memory, rows, {}, now) && consumed == Spent(nonces, rows, {})
    ensures loaded == |rows|
  {
    requests, consumed, loaded := memory, nonces, 0;
    var todo := rows.Keys;
    NothingLoaded(memory, nonces, rows, now);
    while todo != {}
      invariant todo <= rows.Keys && loaded + |todo| == |rows|
      invariant requests == Loaded(memory, rows, todo, now) && consumed == Spent(nonces, rows, todo)
      decreases |todo|
    {
      var a :| a in todo;
      LoadOneMore(memory, rows, todo, a, now);
      SpendOneMore(nonces, rows, todo, a);
      requests := requests[a := Reloaded(rows[a], now)];
      consumed := consumed + if rows[a].state == Consumed then {rows[a].ctx.nonce} else {};
      todo := todo - {a};
      loaded := loaded + 1;
    }
  }

  class IndependentOperatorApprovalBoundary {
    const store: ApprovalStore
    const identityVerifier: bool
    const decisionVerifier: bool
    var requests: Rows
    var consumedNonces: set<string>

    ghost function Snapshot(): Supervisor
      reads this
    {
      Supervisor(requests, consumedNonces, identityVerifier, decisionVerifier)
    }

    constructor (store: ApprovalStore, identityVerifier: bool, decisionVerifier: bool)
      ensures this.store == store
      ensures Snapshot() == Supervisor(map[], {}, identityVerifier, decisionVerifier)
    {
      this.store := store;
      this.identityVerifier := identityVerifier;
      this.decisionVerifier := decisionVerifier;
      requests := map[];
      consumedNonces := {};
    }

    method PersistNew(req: Request) returns (r: Option<Refusal>)
      modifies store
      ensures match Insert(old(store.rows), req)
              case Ok(written) => store.rows == written && r == None
              case Err(e) => store.rows == old(store.rows) && r == Some(e)
    {
      if req.ctx.actionId in store.rows || exists a | a in store.rows.Keys :: store.rows[a].ctx.nonce == req.ctx.nonce {
        return Some(AlreadyStored);
      }
      store.rows := store.rows[req.ctx.actionId := req];
      r := None;
    }

    method PersistTransition(req: Request, expected: Request) returns (r: Option<Refusal>)
      modifies store
      ensures match Swap(old(store.rows), req, expected)
              case Ok(written) => store.rows == written && r == None
              case Err(e) => store.rows == old(store.rows) && r == Some(e)
    {
      if req.ctx != expected.ctx {
        return Some(ContextChanged);
      }
      if !Permitted(expected.state, req.state) {
        return Some(StaleTransition);
      }
      var id := expected.ctx.actionId;
      if id !in store.rows || !RowMatches(store.rows[id], expected) {
        return Some(ChangedElsewhere);
      }
      store.rows := store.rows[id := req.(ctx := store.rows[id].ctx)];
      r := None;
    }

    /** Reads every row back, showing active rows past their time as EXPIRED. */
    method RehydrateFromDisk(now: real) returns (rehydrated: nat)
      modifies this
      ensures Snapshot() == Rehydrate(old(Snapshot()), store.rows, now)
      ensures rehydrated == |store.rows|
    {
      requests, consumedNonces, rehydrated := LoadRows(requests, consumedNonces, store.rows, now);
    }

    method CreateRequest(actionId: string, sessionId: string, taskId: string, command: seq<string>, workspace: string,
                         questions: seq<string>, nonce: string, ttl: real, now: real)
      returns (r: Result<Request, Refusal>)
      modifies this, store
      ensures !GoodRequest(sessionId, taskId, command, workspace, ttl) ==>
                r == Err(BadRequest) && Snapshot() == old(Snapshot()) && store.rows == old(store.rows)
      ensures GoodRequest(sessionId, taskId, command, workspace, ttl) ==>
                After(Snapshot(), store.rows, r)
                == Create(old(Snapshot()), old(store.rows),
                          FreshRequest(actionId, sessionId, taskId, command, workspace, questions, nonce, now, ttl))
    {
      if !GoodRequest(sessionId, taskId, command, workspace, ttl) {
        return Err(BadRequest);
      }
      var req := FreshRequest(actionId, sessionId, taskId, command, workspace, questions, nonce, now, ttl);
      requests := requests[actionId := req];
      var refused := PersistNew(req);
      r := if refused.Some? then Err(refused.value) else Ok(req);
    }

    /**
     Expires a due request. When another process got there first the memory is reloaded, a
     second atomic step at its own clock reading.
     */
    method ExpireIfDue(actionId: string, now: real, reloadAt: real) returns (current: Request)
      requires actionId in requests
      modifies this, store
      ensures var tried := TryExpire(old(Snapshot()), old(store.rows), actionId, now);
              && store.rows == tried.rows
              && Snapshot() == (if tried.result.Ok? then tried.sup else Rehydrate(tried.sup, tried.rows, reloadAt))
              && actionId in requests
              && (tried.result.Ok? ==> current == tried.result.value)
              && (tried.result.Err? ==> current == requests[actionId])
    {
      var req := requests[actionId];
      if !Due(req, now) {
        return req;
      }
      var expired := req.(state := Expired);
      var refused := PersistTransition(expired, req);
      if refused.Some? {
        var _ := RehydrateFromDisk(reloadAt);
        return requests[actionId];
      }
      requests := requests[actionId := expired];
      current := expired;
    }

    method ResolveByOperator(actionId: string, decision: Decision, operator: Operator, notes: string,
                             answers: map<string, string>, identityOk: bool, proofOk: bool, now: real, reloadAt: real)
      returns (r: Result<Request, Refusal>)
      modifies this, store
      ensures var done := Resolve(old(Snapshot()), old(store.rows), actionId, decision, operator, notes, answers,
                                  identityOk, proofOk, now);
              && store.rows == done.rows && r == done.result
              && Snapshot() in {done.sup, Rehydrate(done.sup, done.rows, reloadAt)}
              && (r != Err(RequestExpired) ==> Snapshot() == done.sup)
    {
      if !identityVerifier {
        return Err(NoVerifier);
      }
      if !identityOk {
        return Err(NotAuthenticated);
      }
      if !RulingRole(operator.role) {
        return Err(RoleDenied);
      }
      if actionId !in requests {
        return Err(UnknownAction);
      }
      var req := requests[actionId];
      if req.state in {Blocked, QuestionPending} && now >= req.ctx.expiresAt {
        var _ := ExpireIfDue(actionId, now, reloadAt);
        return Err(RequestExpired);
      }
      if req.state !in {Blocked, QuestionPending} {
        return Err(NotResolvable);
      }
      if req.ctx.nonce in consumedNonces {
        return Err(NonceReplay);
      }
      if decisionVerifier && !proofOk {
        return Err(ProofInvalid);
      }
      // Copy on write: the memory shows the decision only once the table has accepted it.
      var updated := Ruled(req, decision, operator, notes, answers, decisionVerifier);
      var refused := PersistTransition(updated, req);
      if refused.Some? {
        return Err(refused.value);
      }
      requests := requests[actionId := updated];
      r := Ok(updated);
    }

    method ConsumeForExecution(actionId: string, sessionId: string, taskId: string, command: seq<string>,
                               workspace: string, ticketTtl: real, now: real, reloadAt: real)
      returns (r: Result<Ticket, Refusal>)
      modifies this, store
      ensures var done := Consume(old(Snapshot()), old(store.rows), actionId, sessionId, taskId, command, workspace,
                                  ticketTtl, now);
              && store.rows == done.rows && r == done.result
              && Snapshot() in {done.sup, Rehydrate(done.sup, done.rows, reloadAt)}
              && (r != Err(RequestExpired) ==> Snapshot() == done.sup)
    {
      if !(0.0 < ticketTtl <= 60.0) {
        return Err(BadTicketLifetime);
      }
      if actionId !in requests {
        return Err(UnknownAction);
      }
      var req := requests[actionId];
      if now >= req.ctx.expiresAt {
        var _ := ExpireIfDue(actionId, now, reloadAt);
        return Err(RequestExpired);
      }
      if req.state != Approved {
        return Err(NotApproved);
      }
      if !req.verified {
        return Err(NoProvenance);
      }
      if !identityVerifier {
        return Err(NoVerifier);
      }
      if decisionVerifier && !req.bound {
        return Err(NotBound);
      }
      if req.ctx.nonce in consumedNonces {
        return Err(NonceReplay);
      }
      if req.ctx.sessionId != sessionId {
        return Err(SessionMismatch);
      }
      if req.ctx.taskId != taskId {
        return Err(TaskMismatch);
      }
      if req.ctx.command != command || req.ctx.workspace != workspace {
        return Err(CommandMismatch);
      }
      var id := req.ctx.actionId;
      if id !in store.rows || !Spendable(store.rows[id], req.ctx.nonce, decisionVerifier, now) {
        return Err(ChangedElsewhere);
      }
      store.rows := store.rows[id := store.rows[id].(state := Consumed)];
      requests := requests[actionId := req.(state := Consumed)];
      consumedNonces := consumedNonces + {req.ctx.nonce};
      r := Ok(Ticket(actionId, sessionId, taskId, command, workspace, req.ctx.nonce, now + ticketTtl));
    }
  }
}
