/**
 The operator approval boundary of approval/operator_boundary.py. Many supervisors share one
 durable row per action and each decides from its own, possibly stale, memory snapshot; every
 durable change is a compare-and-swap. This module holds the rows, the snapshots and the atomic
 steps; OperatorProtocol proves what every interleaving of them keeps, and OperatorBoundary is
 the object that performs them.
 */
module OperatorApproval {
  import opened Prelude

  datatype Decision = AllowOnce | Deny | AnswerQuestions

  datatype ApprovalState = Blocked | Approved | Denied | QuestionPending | Expired | Consumed

  datatype Operator = Operator(id: string, role: string, channel: string)

  /** The part of a request fixed at creation: what is to be run, and until when. */
  datatype Context = Context(actionId: string, sessionId: string, taskId: string, command: seq<string>,
                             workspace: string, nonce: string, createdAt: real, expiresAt: real)

  datatype Request = Request(ctx: Context, state: ApprovalState, decision: Option<Decision>, operator: Operator,
                             notes: string, questions: seq<string>, answers: map<string, string>,
                             verified: bool, bound: bool)

  /** Rows by action id: the durable table, and equally a supervisor's memory. */
  type Rows = map<string, Request>

  datatype Supervisor = Supervisor(requests: Rows, consumed: set<string>,
                                   identityVerifier: bool, decisionVerifier: bool)

  datatype Ticket = Ticket(actionId: string, sessionId: string, taskId: string, command: seq<string>,
                           workspace: string, nonce: string, expiry: real)

  datatype Refusal =
    | BadRequest | BadTicketLifetime
    | NoVerifier | NotAuthenticated | RoleDenied | UnknownAction | RequestExpired | NotResolvable
    | NonceReplay | ProofInvalid | NotApproved | NoProvenance | NotBound
    | SessionMismatch | TaskMismatch | CommandMismatch
    | AlreadyStored | ContextChanged | StaleTransition | ChangedElsewhere

  predicate Active(s: ApprovalState) {
    s in {Blocked, QuestionPending, Approved}
  }

  predicate Terminal(s: ApprovalState) {
    s in {Denied, Expired, Consumed}
  }

  predicate RulingRole(role: string) {
    role in {"security_lead", "security_admin", "operator"}
  }

  // ---------------------------------------------------------------- the durable table

  predicate Permitted(source: ApprovalState, target: ApprovalState) {
    match source
    case Blocked => target in {QuestionPending, Approved, Denied, Expired}
    case QuestionPending => target in {QuestionPending, Approved, Denied, Expired}
    case Approved => target == Expired
    case _ => false
  }

  /** INSERT: both the action id and the nonce are unique columns. */
  function Insert(rows: Rows, req: Request): Result<Rows, Refusal> {
    if req.ctx.actionId in rows || exists a | a in rows.Keys :: rows[a].ctx.nonce == req.ctx.nonce
    then Err(AlreadyStored)
    else Ok(rows[req.ctx.actionId := req])
  }

  /** The WHERE clause of the UPDATE: every stored column except the two times. */
  predicate RowMatches(row: Request, expected: Request) {
    row == expected.(ctx := expected.ctx.(createdAt := row.ctx.createdAt, expiresAt := row.ctx.expiresAt))
  }

  /** Compare-and-swap of one permitted state transition; the context columns are not written. */
  function Swap(rows: Rows, req: Request, expected: Request): Result<Rows, Refusal> {
    if req.ctx != expected.ctx then Err(ContextChanged)
    else if !Permitted(expected.state, req.state) then Err(StaleTransition)
    else if expected.ctx.actionId in rows && RowMatches(rows[expected.ctx.actionId], expected)
    then Ok(rows[expected.ctx.actionId := req.(ctx := rows[expected.ctx.actionId].ctx)])
    else Err(ChangedElsewhere)
  }

  predicate Spendable(row: Request, nonce: string, needBound: bool, now: real) {
    && row.state == Approved && row.ctx.nonce == nonce && row.verified
    && (needBound ==> row.bound) && row.ctx.expiresAt > now
  }

  // ---------------------------------------------------------------- the supervisor's steps

  /** How a stored row looks when it is read back at a given time. */
  function Reloaded(row: Request, now: real): Request {
    if Active(row.state) && now >= row.ctx.expiresAt then row.(state := Expired) else row
  }

  /** A memory into which every row has been read back but those named by `left`. */
  ghost function Loaded(memory: Rows, rows: Rows, left: set<string>, now: real): Rows {
    memory + map a | a in rows && a !in left :: Reloaded(rows[a], now)
  }

  function NonceOf(row: Request): string {
    row.ctx.nonce
  }

  ghost function Spent(nonces: set<string>, rows: Rows, left: set<string>): set<string> {
    nonces + set a | a in rows && a !in left && rows[a].state == Consumed :: NonceOf(rows[a])
  }

  lemma NothingLoaded(memory: Rows, nonces: set<string>, rows: Rows, now: real)
    ensures Loaded(memory, rows, rows.Keys, now) == memory && Spent(nonces, rows, rows.Keys) == nonces
  {}

  lemma LoadOneMore(memory: Rows, rows: Rows, left: set<string>, id: string, now: real)
    requires id in rows
    ensures Loaded(memory, rows, left - {id}, now) == Loaded(memory, rows, left, now)[id := Reloaded(rows[id], now)]
  {}

  lemma SpendOneMore(nonces: set<string>, rows: Rows, left: set<string>, id: string)
    requires id in rows
    ensures Spent(nonces, rows, left - {id})
            == Spent(nonces, rows, left) + if rows[id].state == Consumed then {rows[id].ctx.nonce} else {}
  {}

  ghost function Rehydrate(sup: Supervisor, rows: Rows, now: real): Supervisor {
    sup.(requests := Loaded(sup.requests, rows, {}, now), consumed := Spent(sup.consumed, rows, {}))
  }

  predicate Due(req: Request, now: real) {
    now >= req.ctx.expiresAt && Active(req.state)
  }

  /** The state a step leaves, and its result. */
  datatype After<T> = After(sup: Supervisor, rows: Rows, result: Result<T, Refusal>)

  /** The compare-and-swap attempt of an expiry; on refusal the caller rehydrates. */
  function TryExpire(sup: Supervisor, rows: Rows, actionId: string, now: real): After<Request>
    requires actionId in sup.requests
  {
    var req := sup.requests[actionId];
    if !Due(req, now) then After(sup, rows, Ok(req))
    else
      match Swap(rows, req.(state := Expired), req)
      case Ok(written) =>
        After(sup.(requests := sup.requests[actionId := req.(state := Expired)]), written, Ok(req.(state := Expired)))
      case Err(e) => After(sup, rows, Err(e))
  }

  function FreshRequest(actionId: string, sessionId: string, taskId: string, command: seq<string>, workspace: string,
                        questions: seq<string>, nonce: string, now: real, ttl: real): Request
  {
    Request(Context(actionId, sessionId, taskId, command, workspace, nonce, now, now + ttl),
            Blocked, None, Operator("", "", ""), "", questions, map[], false, false)
  }

  predicate GoodRequest(sessionId: string, taskId: string, command: seq<string>, workspace: string, ttl: real) {
    sessionId != "" && taskId != "" && command != [] && workspace != "" && 0.0 < ttl <= 86400.0
  }

  /** The snapshot is taken before the insert, so a refused insert leaves it in memory. */
  function Create(sup: Supervisor, rows: Rows, req: Request): After<Request> {
    var kept := sup.(requests := sup.requests[req.ctx.actionId := req]);
    match Insert(rows, req)
    case Ok(written) => After(kept, written, Ok(req))
    case Err(e) => After(kept, rows, Err(e))
  }

  /** The row a decision makes of a request. */
  function Ruled(req: Request, decision: Decision, operator: Operator, notes: string,
                 answers: map<string, string>, bound: bool): Request
  {
    var stamped := req.(decision := Some(decision), operator := operator, notes := notes,
                        verified := true, bound := bound);
    match decision
    case AllowOnce => stamped.(state := Approved)
    case Deny => stamped.(state := Denied)
    case AnswerQuestions => stamped.(state := QuestionPending, answers := req.answers + answers)
  }

  function Resolve(sup: Supervisor, rows: Rows, actionId: string, decision: Decision, operator: Operator,
                   notes: string, answers: map<string, string>, identityOk: bool, proofOk: bool, now: real)
    : After<Request>
  {
    if !sup.identityVerifier then After(sup, rows, Err(NoVerifier))
    else if !identityOk then After(sup, rows, Err(NotAuthenticated))
    else if !RulingRole(operator.role) then After(sup, rows, Err(RoleDenied))
    else if actionId !in sup.requests then After(sup, rows, Err(UnknownAction))
    else
      var req := sup.requests[actionId];
      if req.state in {Blocked, QuestionPending} && now >= req.ctx.expiresAt then
        TryExpire(sup, rows, actionId, now).(result := Err(RequestExpired))
      else if req.state !in {Blocked, QuestionPending} then After(sup, rows, Err(NotResolvable))
      else if req.ctx.nonce in sup.consumed then After(sup, rows, Err(NonceReplay))
      else if sup.decisionVerifier && !proofOk then After(sup, rows, Err(ProofInvalid))
      else
        var updated := Ruled(req, decision, operator, notes, answers, sup.decisionVerifier);
        match Swap(rows, updated, req)
        case Ok(written) => After(sup.(requests := sup.requests[actionId := updated]), written, Ok(updated))
        case Err(e) => After(sup, rows, Err(e))
  }

  function Consume(sup: Supervisor, rows: Rows, actionId: string, sessionId: string, taskId: string,
                   command: seq<string>, workspace: string, ticketTtl: real, now: real): After<Ticket>
  {
    if !(0.0 < ticketTtl <= 60.0) then After(sup, rows, Err(BadTicketLifetime))
    else if actionId !in sup.requests then After(sup, rows, Err(UnknownAction))
    else
      var req := sup.requests[actionId];
      if now >= req.ctx.expiresAt then
        var expired := TryExpire(sup, rows, actionId, now);
        After(expired.sup, expired.rows, Err(RequestExpired))
      else if req.state != Approved then After(sup, rows, Err(NotApproved))
      else if !req.verified then After(sup, rows, Err(NoProvenance))
      else if !sup.identityVerifier then After(sup, rows, Err(NoVerifier))
      else if sup.decisionVerifier && !req.bound then After(sup, rows, Err(NotBound))
      else if req.ctx.nonce in sup.consumed then After(sup, rows, Err(NonceReplay))
      else if req.ctx.sessionId != sessionId then After(sup, rows, Err(SessionMismatch))
      else if req.ctx.taskId != taskId then After(sup, rows, Err(TaskMismatch))
      else if (req.ctx.command, req.ctx.workspace) != (command, workspace) then After(sup, rows, Err(CommandMismatch))
      else if req.ctx.actionId in rows
        && Spendable(rows[req.ctx.actionId], req.ctx.nonce, sup.decisionVerifier, now) then
        After(sup.(requests := sup.requests[actionId := req.(state := Consumed)],
                   consumed := sup.consumed + {req.ctx.nonce}),
              rows[req.ctx.actionId := rows[req.ctx.actionId].(state := Consumed)],
              Ok(Ticket(actionId, sessionId, taskId, command, workspace, req.ctx.nonce, now + ticketTtl)))
      else After(sup, rows, Err(ChangedElsewhere))
  }
}

/** Every interleaving of any number of supervisors over one durable table. */
module OperatorProtocol {
  import opened Prelude
  import opened OperatorApproval

  /** What the durable table was told, in order. */
  datatype Event =
    | Decided(actionId: string, decision: Decision, operator: Operator, bound: bool, at: real)
    | Issued(ticket: Ticket, needBound: bool, at: real)

  /** `nonces` is every nonce ever drawn: the generator never repeats one. */
  datatype World = World(rows: Rows, sups: map<nat, Supervisor>, nonces: set<string>, log: seq<Event>)

  datatype Op =
    | Start(s: nat, identityVerifier: bool, decisionVerifier: bool)
    | DoCreate(s: nat, actionId: string, sessionId: string, taskId: string, command: seq<string>, workspace: string,
               questions: seq<string>, nonce: string, ttl: real, now: real)
    | DoRehydrate(s: nat, now: real)
    | DoExpire(s: nat, actionId: string, now: real)
    | DoResolve(s: nat, actionId: string, decision: Decision, operator: Operator, notes: string,
                answers: map<string, string>, identityOk: bool, proofOk: bool, now: real)
    | DoConsume(s: nat, actionId: string, sessionId: string, taskId: string, command: seq<string>,
                workspace: string, ticketTtl: real, now: real)

  /** One atomic step of one supervisor. Starting an existing one again is a process restart. */
  ghost function Step(w: World, op: Op): World {
    if op.Start? then
      w.(sups := w.sups[op.s := Supervisor(map[], {}, op.identityVerifier, op.decisionVerifier)])
    else if op.s !in w.sups then w
    else
      var sup := w.sups[op.s];
      match op
      case DoCreate(s, a, sessionId, taskId, command, workspace, questions, nonce, ttl, now) =>
        if nonce in w.nonces || !GoodRequest(sessionId, taskId, command, workspace, ttl) then w
        else
          var done := Create(sup, w.rows, FreshRequest(a, sessionId, taskId, command, workspace, questions, nonce, now,
                                                       ttl));
          w.(rows := done.rows, sups := w.sups[s := done.sup], nonces := w.nonces + {nonce})
      case DoRehydrate(s, now) =>
        w.(sups := w.sups[s := Rehydrate(sup, w.rows, now)])
      case DoExpire(s, a, now) =>
        if a !in sup.requests then w
        else
          var done := TryExpire(sup, w.rows, a, now);
          w.(rows := done.rows, sups := w.sups[s := done.sup])
      case DoResolve(s, a, decision, operator, notes, answers, identityOk, proofOk, now) =>
        var done := Resolve(sup, w.rows, a, decision, operator, notes, answers, identityOk, proofOk, now);
        World(done.rows, w.sups[s := done.sup], w.nonces,
              if done.result.Ok? then w.log + [Decided(a, decision, operator, sup.decisionVerifier, now)] else w.log)
      case DoConsume(s, a, sessionId, taskId, command, workspace, ticketTtl, now) =>
        var done := Consume(sup, w.rows, a, sessionId, taskId, command, workspace, ticketTtl, now);
        World(done.rows, w.sups[s := done.sup], w.nonces,
              if done.result.Ok? then w.log + [Issued(done.result.value, sup.decisionVerifier, now)] else w.log)
  }

  ghost function Run(w: World, ops: seq<Op>): World
    decreases |ops|
  {
    if ops == [] then w else Run(Step(w, ops[0]), ops[1..])
  }

  /** Rows left by releases that recorded no proof of the operator: never trusted. */
  ghost predicate LegacyRows(rows: Rows) {
    && (forall a | a in rows :: rows[a].ctx.actionId == a && !rows[a].verified && !rows[a].bound)
    && (forall a, b | a in rows && b in rows && rows[a].ctx.nonce == rows[b].ctx.nonce :: a == b)
  }

  ghost function Initial(rows: Rows): World {
    World(rows, map[], set a | a in rows :: rows[a].ctx.nonce, [])
  }

  // ---------------------------------------------------------------- the invariant

  ghost predicate RowsKeyed(w: World) {
    && (forall a | a in w.rows :: w.rows[a].ctx.actionId == a && w.rows[a].ctx.nonce in w.nonces)
    && (forall a, b | a in w.rows && b in w.rows && w.rows[a].ctx.nonce == w.rows[b].ctx.nonce :: a == b)
  }

  /** A snapshot may be arbitrarily old, but it never disagrees with the row of its nonce about the context. */
  ghost predicate SnapshotOk(w: World, a: string, snap: Request) {
    && snap.ctx.actionId == a && snap.ctx.nonce in w.nonces
    && (a in w.rows && w.rows[a].ctx.nonce == snap.ctx.nonce ==> w.rows[a].ctx == snap.ctx)
  }

  ghost predicate SnapshotsOk(w: World) {
    forall s, a | s in w.sups && a in w.sups[s].requests :: SnapshotOk(w, a, w.sups[s].requests[a])
  }

  ghost predicate AllowedBefore(log: seq<Event>, i: nat, a: string, needBound: bool)
    requires i <= |log|
  {
    exists j | 0 <= j < i :: log[j].Decided? && log[j].actionId == a && log[j].decision == AllowOnce
                             && RulingRole(log[j].operator.role) && (needBound ==> log[j].bound)
  }

  /** Every row whose approval counts goes back to a recorded decision. */
  ghost predicate Provenance(w: World) {
    forall a | a in w.rows && w.rows[a].verified && w.rows[a].state in {Approved, Consumed} ::
      AllowedBefore(w.log, |w.log|, a, w.rows[a].bound)
  }

  ghost predicate TicketBacked(w: World, i: nat)
    requires i < |w.log| && w.log[i].Issued?
  {
    var t := w.log[i].ticket;
    && t.actionId in w.rows
    && var row := w.rows[t.actionId];
       && row.state == Consumed
       && (t.sessionId, t.taskId, t.command, t.workspace, t.nonce)
          == (row.ctx.sessionId, row.ctx.taskId, row.ctx.command, row.ctx.workspace, row.ctx.nonce)
       && w.log[i].at < row.ctx.expiresAt
       && AllowedBefore(w.log, i, t.actionId, w.log[i].needBound)
  }

  ghost predicate TicketsOk(w: World) {
    && (forall i | 0 <= i < |w.log| && w.log[i].Issued? :: TicketBacked(w, i))
    && (forall i, j | 0 <= i < j < |w.log| && w.log[i].Issued? && w.log[j].Issued? ::
          w.log[i].ticket.actionId != w.log[j].ticket.actionId)
  }

  ghost predicate Inv(w: World) {
    RowsKeyed(w) && SnapshotsOk(w) && Provenance(w) && TicketsOk(w)
  }

  // ---------------------------------------------------------------- what one step does to the durable row

  function RowOf(rows: Rows, a: string): Option<Request> {
    if a in rows then Some(rows[a]) else None
  }

  /** The decision of `op` applied to the current durable row, as a single supervisor would. */
  ghost predicate RuledFrom(row: Request, after: Request, op: Op, bound: bool) {
    && op.DoResolve? && op.actionId == row.ctx.actionId && op.identityOk && RulingRole(op.operator.role)
    && (bound ==> op.proofOk)
    && row.state in {Blocked, QuestionPending} && op.now < row.ctx.expiresAt
    && after == Ruled(row, op.decision, op.operator, op.notes, op.answers, bound)
  }

  ghost predicate LapsedFrom(row: Request, after: Request, op: Op) {
    && (op.DoExpire? || op.DoResolve? || op.DoConsume?) && op.actionId == row.ctx.actionId
    && Due(row, op.now) && after == row.(state := Expired)
  }

  ghost predicate SpentFrom(row: Request, after: Request, op: Op) {
    && op.DoConsume? && op.actionId == row.ctx.actionId
    && row.state == Approved && row.verified && op.now < row.ctx.expiresAt
    && (op.sessionId, op.taskId, op.command, op.workspace)
       == (row.ctx.sessionId, row.ctx.taskId, row.ctx.command, row.ctx.workspace)
    && after == row.(state := Consumed)
  }

  ghost predicate SequentialStep(before: Option<Request>, after: Option<Request>, op: Op, bound: bool) {
    || before == after
    || (before.None? && after.Some? && op.DoCreate? && after.value.ctx.actionId == op.actionId
        && after.value.state == Blocked && !after.value.verified)
    || (before.Some? && after.Some?
        && (LapsedFrom(before.value, after.value, op) || SpentFrom(before.value, after.value, op)
            || RuledFrom(before.value, after.value, op, bound)))
  }

  /** A swap that goes through has compared against exactly the current row. */
  lemma SwapSeesCurrent(w: World, s: nat, a: string, req: Request)
    requires Inv(w) && s in w.sups && a in w.sups[s].requests
    requires Swap(w.rows, req, w.sups[s].requests[a]).Ok?
    ensures a in w.rows && w.rows[a] == w.sups[s].requests[a]
    ensures Swap(w.rows, req, w.sups[s].requests[a]).value == w.rows[a := req]
  {}

  ghost predicate StepIsSequential(w: World, op: Op, a: string) {
    SequentialStep(RowOf(w.rows, a), RowOf(Step(w, op).rows, a), op, op.s in w.sups && w.sups[op.s].decisionVerifier)
  }

  /** An expiry attempt on a current snapshot, whichever call makes it. */
  lemma ExpiryIsSequential(w: World, op: Op, a: string)
    requires Inv(w) && op.s in w.sups && (op.DoExpire? || op.DoResolve? || op.DoConsume?)
    requires op.actionId in w.sups[op.s].requests
    ensures SequentialStep(RowOf(w.rows, a), RowOf(TryExpire(w.sups[op.s], w.rows, op.actionId, op.now).rows, a), op,
                           w.sups[op.s].decisionVerifier)
  {}

  lemma ResolveIsSequential(w: World, op: Op, a: string)
    requires Inv(w) && op.s in w.sups && op.DoResolve?
    ensures StepIsSequential(w, op, a)
  {
    var sup := w.sups[op.s];
    if op.actionId in sup.requests {
      var req := sup.requests[op.actionId];
      ExpiryIsSequential(w, op, a);
      assert SnapshotOk(w, op.actionId, req);
      var updated := Ruled(req, op.decision, op.operator, op.notes, op.answers, sup.decisionVerifier);
      if Swap(w.rows, updated, req).Ok? {
        SwapSeesCurrent(w, op.s, op.actionId, updated);
      }
    }
  }

  lemma ConsumeIsSequential(w: World, op: Op, a: string)
    requires Inv(w) && op.s in w.sups && op.DoConsume?
    ensures StepIsSequential(w, op, a)
  {}

  /**
   No lost update: from whatever snapshot it works, a supervisor changes a durable row only
   into what the same decision, expiry or consumption makes of the current row.
   */
  lemma NoLostUpdate(w: World, op: Op, a: string)
    requires Inv(w)
    ensures SequentialStep(RowOf(w.rows, a), RowOf(Step(w, op).rows, a), op,
                           op.s in w.sups && w.sups[op.s].decisionVerifier)
  {
    if op.s in w.sups {
      match op
      case DoExpire(_, id, _) => if id in w.sups[op.s].requests { ExpiryIsSequential(w, op, a); }
      case DoResolve(_, _, _, _, _, _, _, _, _) => ResolveIsSequential(w, op, a);
      case DoConsume(_, _, _, _, _, _, _, _) => ConsumeIsSequential(w, op, a);
      case _ =>
    }
  }

  // ---------------------------------------------------------------- the invariant is kept

  lemma AllowedMonotone(log: seq<Event>, e: Event, a: string, needBound: bool, i: nat)
    requires i <= |log| && AllowedBefore(log, i, a, needBound)
    ensures AllowedBefore(log + [e], i, a, needBound) && AllowedBefore(log + [e], |log| + 1, a, needBound)
  {
    var j :| 0 <= j < i && log[j].Decided? && log[j].actionId == a && log[j].decision == AllowOnce
             && RulingRole(log[j].operator.role) && (needBound ==> log[j].bound);
    assert (log + [e])[j] == log[j];
  }

  /** A context in the table after a step was there before, or is being created under a fresh nonce. */
  ghost predicate CreatedBy(op: Op, w: World, ctx: Context, a: string) {
    op.DoCreate? && a == op.actionId && ctx.actionId == a && ctx.nonce == op.nonce && op.nonce !in w.nonces
  }

  lemma RowContextOrigin(w: World, op: Op, a: string)
    requires Inv(w) && a in Step(w, op).rows
    ensures var ctx := Step(w, op).rows[a].ctx;
            if a in w.rows then ctx == w.rows[a].ctx
            else CreatedBy(op, w, ctx, a) && op.nonce in Step(w, op).nonces
                 && a in Step(w, op).sups[op.s].requests && Step(w, op).sups[op.s].requests[a].ctx == ctx
  {
    NoLostUpdate(w, op, a);
  }

  /** Expiring, deciding and consuming leave every snapshot's context alone. */
  ghost predicate SameContexts(before: Supervisor, after: Supervisor) {
    forall a | a in after.requests :: a in before.requests && after.requests[a].ctx == before.requests[a].ctx
  }

  lemma ResolveKeepsContexts(sup: Supervisor, rows: Rows, actionId: string, decision: Decision, operator: Operator,
                             notes: string, answers: map<string, string>, identityOk: bool, proofOk: bool, now: real)
    ensures SameContexts(sup, Resolve(sup, rows, actionId, decision, operator, notes, answers, identityOk, proofOk,
                                      now).sup)
  {}

  lemma ConsumeKeepsContexts(sup: Supervisor, rows: Rows, actionId: string, sessionId: string, taskId: string,
                             command: seq<string>, workspace: string, ticketTtl: real, now: real)
    ensures SameContexts(sup, Consume(sup, rows, actionId, sessionId, taskId, command, workspace, ticketTtl, now).sup)
  {}

  /** Deciding and consuming bring no context into a snapshot. */
  lemma SpendingKeepsContexts(w: World, op: Op, s: nat, a: string)
    requires op.DoResolve? || op.DoConsume?
    requires s in Step(w, op).sups && a in Step(w, op).sups[s].requests
    ensures s in w.sups && a in w.sups[s].requests && Step(w, op).sups[s].requests[a].ctx == w.sups[s].requests[a].ctx
  {
    if op.s in w.sups && s == op.s {
      match op
      case DoResolve(_, id, decision, operator, notes, answers, identityOk, proofOk, now) =>
        ResolveKeepsContexts(w.sups[s], w.rows, id, decision, operator, notes, answers, identityOk, proofOk, now);
      case DoConsume(_, id, sessionId, taskId, command, workspace, ticketTtl, now) =>
        ConsumeKeepsContexts(w.sups[s], w.rows, id, sessionId, taskId, command, workspace, ticketTtl, now);
    }
  }

  lemma SnapshotContextOrigin(w: World, op: Op, s: nat, a: string)
    requires Inv(w) && s in Step(w, op).sups && a in Step(w, op).sups[s].requests
    ensures var ctx := Step(w, op).sups[s].requests[a].ctx;
            || (s in w.sups && a in w.sups[s].requests && ctx == w.sups[s].requests[a].ctx)
            || (a in w.rows && ctx == w.rows[a].ctx)
            || (CreatedBy(op, w, ctx, a) && s == op.s && op.nonce in Step(w, op).nonces)
  {
    if op.DoResolve? || op.DoConsume? {
      SpendingKeepsContexts(w, op, s, a);
    }
  }

  lemma NoncesGrow(w: World, op: Op)
    ensures w.nonces <= Step(w, op).nonces
  {}

  lemma StepKeepsKeys(w: World, op: Op)
    requires Inv(w)
    ensures RowsKeyed(Step(w, op))
  {
    NoncesGrow(w, op);
    var rows, nonces := Step(w, op).rows, Step(w, op).nonces;
    forall a | a in rows ensures rows[a].ctx.actionId == a && rows[a].ctx.nonce in nonces {
      RowContextOrigin(w, op, a);
    }
    forall a, b | a in rows && b in rows && rows[a].ctx.nonce == rows[b].ctx.nonce ensures a == b {
      RowContextOrigin(w, op, a);
      RowContextOrigin(w, op, b);
    }
  }

  lemma StepKeepsSnapshots(w: World, op: Op)
    requires Inv(w)
    ensures SnapshotsOk(Step(w, op))
  {
    NoncesGrow(w, op);
    var w' := Step(w, op);
    forall s, a | s in w'.sups && a in w'.sups[s].requests ensures SnapshotOk(w', a, w'.sups[s].requests[a]) {
      SnapshotContextOrigin(w, op, s, a);
      if a in w'.rows {
        RowContextOrigin(w, op, a);
      }
      if s in w.sups && a in w.sups[s].requests {
        assert SnapshotOk(w, a, w.sups[s].requests[a]);
      }
    }
  }

  lemma LogGrows(w: World, op: Op)
    ensures w.log <= Step(w, op).log && |Step(w, op).log| <= |w.log| + 1
    ensures Step(w, op).log != w.log ==> (op.DoResolve? || op.DoConsume?) && op.s in w.sups
  {}

  lemma OldDecisionsStand(w: World, op: Op, i: nat, a: string, needBound: bool)
    requires i <= |w.log| && AllowedBefore(w.log, i, a, needBound)
    ensures i <= |Step(w, op).log| && AllowedBefore(Step(w, op).log, i, a, needBound)
    ensures AllowedBefore(Step(w, op).log, |Step(w, op).log|, a, needBound)
  {
    var w' := Step(w, op);
    LogGrows(w, op);
    if w'.log == w.log {
      var j :| 0 <= j < i && w.log[j].Decided? && w.log[j].actionId == a && w.log[j].decision == AllowOnce
               && RulingRole(w.log[j].operator.role) && (needBound ==> w.log[j].bound);
    } else {
      assert w'.log == w.log + [w'.log[|w.log|]];
      AllowedMonotone(w.log, w'.log[|w.log|], a, needBound, i);
    }
  }

  /** An approval that counts and was not there before is this step's recorded ALLOW_ONCE. */
  lemma NewApprovalDecided(w: World, op: Op, a: string)
    requires Inv(w) && a in Step(w, op).rows && Step(w, op).rows[a].verified
             && Step(w, op).rows[a].state in {Approved, Consumed}
    requires !(a in w.rows && w.rows[a].verified && w.rows[a].state in {Approved, Consumed})
    ensures AllowedBefore(Step(w, op).log, |Step(w, op).log|, a, Step(w, op).rows[a].bound)
  {
    var w' := Step(w, op);
    NoLostUpdate(w, op, a);
    assert a in w.rows && RuledFrom(w.rows[a], w'.rows[a], op, op.s in w.sups && w.sups[op.s].decisionVerifier);
    assert w'.log == w.log + [Decided(a, op.decision, op.operator, w.sups[op.s].decisionVerifier, op.now)];
    assert w'.log[|w.log|].Decided?;
  }

  lemma StepKeepsProvenance(w: World, op: Op)
    requires Inv(w)
    ensures Provenance(Step(w, op))
  {
    var w' := Step(w, op);
    forall a | a in w'.rows && w'.rows[a].verified && w'.rows[a].state in {Approved, Consumed}
      ensures AllowedBefore(w'.log, |w'.log|, a, w'.rows[a].bound)
    {
      if a in w.rows && w.rows[a].verified && w.rows[a].state in {Approved, Consumed} {
        NoLostUpdate(w, op, a);
        OldDecisionsStand(w, op, |w.log|, a, w.rows[a].bound);
      } else {
        NewApprovalDecided(w, op, a);
      }
    }
  }

  /** What holds of the durable row at the moment its ticket is issued. */
  lemma IssueFacts(w: World, op: Op)
    requires Inv(w) && op.DoConsume? && op.s in w.sups && Step(w, op).log != w.log
    ensures var w', a := Step(w, op), op.actionId;
            && a in w.rows && w.rows[a].verified && w.rows[a].state == Approved && op.now < w.rows[a].ctx.expiresAt
            && (w.sups[op.s].decisionVerifier ==> w.rows[a].bound)
            && w'.rows == w.rows[a := w.rows[a].(state := Consumed)]
            && |w'.log| == |w.log| + 1 && w'.log[|w.log|].Issued?
            && var e, ctx := w'.log[|w.log|], w.rows[a].ctx;
               && e.at == op.now && e.needBound == w.sups[op.s].decisionVerifier
               && (e.ticket.actionId, e.ticket.sessionId, e.ticket.taskId, e.ticket.command, e.ticket.workspace,
                   e.ticket.nonce)
                  == (a, ctx.sessionId, ctx.taskId, ctx.command, ctx.workspace, ctx.nonce)
  {
    assert SnapshotOk(w, op.actionId, w.sups[op.s].requests[op.actionId]);
  }

  lemma OldTicketBacked(w: World, op: Op, i: nat)
    requires Inv(w) && i < |w.log| && w.log[i].Issued?
    ensures i < |Step(w, op).log| && Step(w, op).log[i] == w.log[i] && TicketBacked(Step(w, op), i)
  {
    assert TicketBacked(w, i);
    LogGrows(w, op);
    NoLostUpdate(w, op, w.log[i].ticket.actionId);
    OldDecisionsStand(w, op, i, w.log[i].ticket.actionId, w.log[i].needBound);
  }

  lemma NewTicketBacked(w: World, op: Op)
    requires Inv(w) && op.DoConsume? && op.s in w.sups && Step(w, op).log != w.log
    ensures |Step(w, op).log| == |w.log| + 1 && Step(w, op).log[|w.log|].Issued? && TicketBacked(Step(w, op), |w.log|)
    ensures forall i | 0 <= i < |w.log| && w.log[i].Issued? :: w.log[i].ticket.actionId != op.actionId
    ensures Step(w, op).log[|w.log|].ticket.actionId == op.actionId
  {
    IssueFacts(w, op);
    LogGrows(w, op);
    var a := op.actionId;
    assert AllowedBefore(w.log, |w.log|, a, w.rows[a].bound);
    OldDecisionsStand(w, op, |w.log|, a, w.rows[a].bound);
    forall i | 0 <= i < |w.log| && w.log[i].Issued? ensures w.log[i].ticket.actionId != a {
      assert TicketBacked(w, i);
    }
  }

  lemma StepKeepsTickets(w: World, op: Op)
    requires Inv(w)
    ensures TicketsOk(Step(w, op))
  {
    var w' := Step(w, op);
    LogGrows(w, op);
    if op.DoConsume? && w'.log != w.log { NewTicketBacked(w, op); }
    forall i | 0 <= i < |w.log| && w.log[i].Issued? ensures TicketBacked(w', i) {
      OldTicketBacked(w, op, i);
    }
    TicketsKept(w, w');
  }

  /** Old tickets stay backed, and a new one is for an action that had none. */
  lemma TicketsKept(w: World, w': World)
    requires TicketsOk(w) && w.log <= w'.log && |w'.log| <= |w.log| + 1
    requires forall i | 0 <= i < |w.log| && w.log[i].Issued? :: TicketBacked(w', i)
    requires var n := |w.log|;
             |w'.log| > n && w'.log[n].Issued? ==>
               && TicketBacked(w', n)
               && forall i | 0 <= i < n && w.log[i].Issued? :: w.log[i].ticket.actionId != w'.log[n].ticket.actionId
    ensures TicketsOk(w')
  {}

  lemma StepKeepsInv(w: World, op: Op)
    requires Inv(w)
    ensures Inv(Step(w, op))
  {
    StepKeepsKeys(w, op);
    StepKeepsSnapshots(w, op);
    StepKeepsProvenance(w, op);
    StepKeepsTickets(w, op);
  }

  lemma {:induction false} RunKeepsInv(w: World, ops: seq<Op>)
    requires Inv(w)
    ensures Inv(Run(w, ops))
    decreases |ops|
  {
    if ops != [] {
      StepKeepsInv(w, ops[0]);
      RunKeepsInv(Step(w, ops[0]), ops[1..]);
    }
  }

  // ---------------------------------------------------------------- whole runs

  /**
   Single use, over every interleaving and from any table of unverified legacy rows: an action
   yields at most one ticket; the ticket names what its row names, was issued while the clock
   read below the row's expiry, and follows a recorded ALLOW_ONCE of a ruling operator.
   */
  lemma SingleUse(rows: Rows, ops: seq<Op>, i: nat)
    requires LegacyRows(rows)
    requires i < |Run(Initial(rows), ops).log| && Run(Initial(rows), ops).log[i].Issued?
    ensures var w := Run(Initial(rows), ops);
            && TicketBacked(w, i)
            && forall j | 0 <= j < |w.log| && j != i && w.log[j].Issued? ::
                 w.log[j].ticket.actionId != w.log[i].ticket.actionId
  {
    RunKeepsInv(Initial(rows), ops);
  }

  lemma TerminalRowKept(before: Option<Request>, after: Option<Request>, op: Op, bound: bool)
    requires SequentialStep(before, after, op, bound) && before.Some? && Terminal(before.value.state)
    ensures after == before
  {}

  lemma ContextKept(before: Option<Request>, after: Option<Request>, op: Op, bound: bool)
    requires SequentialStep(before, after, op, bound) && before.Some?
    ensures after.Some? && after.value.ctx == before.value.ctx && after.value.questions == before.value.questions
  {}

  /** DENIED, EXPIRED and CONSUMED are never left, and no later step touches such a row at all. */
  lemma {:induction false} TerminalForever(w: World, ops: seq<Op>, a: string)
    requires Inv(w) && a in w.rows && Terminal(w.rows[a].state)
    ensures RowOf(Run(w, ops).rows, a) == Some(w.rows[a])
    decreases |ops|
  {
    if ops != [] {
      var w', bound := Step(w, ops[0]), ops[0].s in w.sups && w.sups[ops[0].s].decisionVerifier;
      assert Inv(w') by { StepKeepsInv(w, ops[0]); }
      assert RowOf(w'.rows, a) == RowOf(w.rows, a) by {
        NoLostUpdate(w, ops[0], a);
        TerminalRowKept(RowOf(w.rows, a), RowOf(w'.rows, a), ops[0], bound);
      }
      TerminalForever(w', ops[1..], a);
    }
  }

  /** Rows are never deleted and the context an operator decided on never changes. */
  lemma {:induction false} ContextForever(w: World, ops: seq<Op>, a: string)
    requires Inv(w) && a in w.rows
    ensures a in Run(w, ops).rows && Run(w, ops).rows[a].ctx == w.rows[a].ctx
    ensures Run(w, ops).rows[a].questions == w.rows[a].questions
    decreases |ops|
  {
    if ops != [] {
      var w', bound := Step(w, ops[0]), ops[0].s in w.sups && w.sups[ops[0].s].decisionVerifier;
      assert Inv(w') by { StepKeepsInv(w, ops[0]); }
      assert a in w'.rows && w'.rows[a].ctx == w.rows[a].ctx && w'.rows[a].questions == w.rows[a].questions by {
        NoLostUpdate(w, ops[0], a);
        ContextKept(RowOf(w.rows, a), RowOf(w'.rows, a), ops[0], bound);
      }
      ContextForever(w', ops[1..], a);
    }
  }
}
