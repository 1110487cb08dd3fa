/** The shared database and its transactions, as functions from database to database.
    A transaction that raises leaves the database as it was, unless it commits a refusal first. */
module Database {
  import opened Common
  import opened Orders
  import opened Journal

  datatype RequestStatus = Pending | Authorized | Invalidated | ExpiredRequest | Attempted

  predicate Active(s: RequestStatus) {
    s == Pending || s == Authorized
  }

  /** Digests are opaque and injective: a fingerprint is what was hashed. */
  datatype Fingerprint =
    | DraftPrint(text: string)
    | CancelPrint(orderId: Id, version: int, state: OrderState, accountId: string, remaining: real)

  datatype Request = Request(
    orderId: Id, expectedVersion: int, expectedState: OrderState, accountId: string,
    fingerprint: Fingerprint, createdAt: int, expiresAt: int,
    status: RequestStatus, invalidation: Option<Reason>)

  /** A one-time authorization code; its salt and digest are not modelled. */
  datatype Code = Code(
    action: Action, draftId: Option<Id>, requestId: Option<Id>, orderId: Option<Id>,
    payload: Fingerprint, accountId: string, createdAt: int, expiresAt: int,
    consumedAt: Option<int>, invalidation: Option<Reason>, failedAttempts: int)

  predicate Usable(c: Code) {
    c.consumedAt.None? && c.invalidation.None?
  }

  /** Orders of one provider account share a reconciliation gate. */
  datatype Group = Group(provider: string, accountId: string)

  function GroupOf(o: Order): Group {
    Group(o.terms.provider, o.terms.accountId)
  }

  datatype Db = Db(
    drafts: map<Id, Draft>, orders: map<Id, Order>, requests: map<Id, Request>,
    codes: map<Id, Code>, gates: map<Group, int>, events: seq<Event>)

  const EMPTY := Db(map[], map[], map[], map[], map[], [])

  datatype Error =
    | MissingRecord | ConcurrentUpdate | IllegalTransition | InvalidValue | IntegrityError
    | RequestMissing | RequestNotPending | RequestExpired | FingerprintMismatch
    | RequestStale | OrderNotCancelable

  datatype Reply =
    | Done
    | Ordered(orderId: Id, created: bool)
    | CancelReply(attemptId: Option<Id>, started: bool)
    | Claimed(order: Order)
    | Throttled(nextAt: int)
    | TargetChanged(nextAt: int, target: Option<Id>)
    | Answer(yes: bool)
    | Failed(error: Error)

  // ---------- Withdrawing requests ----------

  function ActiveRequests(db: Db, k: Id, only: Option<Id>): set<Id> {
    set id | id in db.requests && db.requests[id].orderId == k && Active(db.requests[id].status)
             && (only.Some? ==> id == only.value)
  }

  function InvalidationEvent(o: Order, k: Id, id: Id, reason: Reason, now: int, actor: Actor): Event {
    Event(Some(k), Some(o.draftId), CancellationRequestInvalidated, actor, None, None, None,
          RequestInvalidated(id, reason), Max(now, o.updatedAt))
  }

  /** One event for each withdrawn request; the query fixes no order. */
  ghost function InvalidationEvents(o: Order, k: Id, hits: set<Id>, reason: Reason, now: int,
                                    actor: Actor): (events: seq<Event>)
    ensures |events| == |hits|
    ensures forall e <- events :: exists id <- hits :: e == InvalidationEvent(o, k, id, reason, now, actor)
    ensures forall id <- hits :: InvalidationEvent(o, k, id, reason, now, actor) in events
  {
    if hits == {} then []
    else
      var id :| id in hits;
      [InvalidationEvent(o, k, id, reason, now, actor)] + InvalidationEvents(o, k, hits - {id}, reason, now, actor)
  }

  function WithdrawnRequest(r: Request, reason: Reason): Request {
    r.(status := if reason == PastExpiry then ExpiredRequest else Invalidated, invalidation := Some(reason))
  }

  function WithdrawRequests(requests: map<Id, Request>, hits: set<Id>, reason: Reason): map<Id, Request> {
    map id | id in requests :: if id in hits then WithdrawnRequest(requests[id], reason) else requests[id]
  }

  function WithdrawCodes(codes: map<Id, Code>, hits: set<Id>, reason: Reason): map<Id, Code> {
    map c | c in codes ::
      if Usable(codes[c]) && codes[c].requestId.Some? && codes[c].requestId.value in hits
      then codes[c].(invalidation := Some(reason)) else codes[c]
  }

  /** Withdraws the active requests of order k (or only one of them), their usable codes, and says so
      in the log. */
  ghost function InvalidateRequests(db: Db, k: Id, reason: Reason, now: int, actor: Actor, only: Option<Id>): Db {
    var hits := ActiveRequests(db, k, only);
    db.(requests := WithdrawRequests(db.requests, hits, reason),
        codes := WithdrawCodes(db.codes, hits, reason),
        events := db.events + if k in db.orders
                              then InvalidationEvents(db.orders[k], k, hits, reason, now, actor) else [])
  }

  // ---------- Writing an order ----------

  function OrderEvent(o: Order, k: Id, kind: EventKind, actor: Actor, previous: Option<OrderState>,
                      next: Option<OrderState>, code: Option<string>, details: Details, at: int): Event {
    Event(Some(k), Some(o.draftId), kind, actor, previous, next, code, details, at)
  }

  /** The shape every status write shares: some events, the new record, every active request withdrawn,
      then the status events. */
  ghost function Commit(db: Db, k: Id, o': Order, before: seq<Event>, reason: Reason, actor: Actor,
                        status: seq<Event>): Db {
    var written := db.(orders := db.orders[k := o'], events := db.events + before);
    var quiet := InvalidateRequests(written, k, reason, o'.updatedAt, actor, None);
    quiet.(events := quiet.events + status)
  }

  const KNOWN_CODES: set<string> := {
    "accepted", "partially_filled", "filled", "expired", "rejected", "unknown", "matched",
    "draft_expired", "validation_failed", "authorization_invalid", "confirmation_required",
    "draft_not_found", "draft_changed", "quote_unavailable", "quote_stale", "capability_unavailable",
    "execution_unsupported", "trading_blocked", "not_found", "ambiguous", "incomplete", "mismatch",
    "stale", "provider_error", "canceled"}

  function EventCode(resultCode: Option<string>, state: OrderState): string {
    if resultCode.Some? then
      if resultCode.value in KNOWN_CODES then resultCode.value else "validation_failed"
    else match state
      case Accepted => "accepted"
      case PartiallyFilled => "partially_filled"
      case Filled => "filled"
      case Rejected => "rejected"
      case Expired => "expired"
      case Unknown => "unknown"
      case _ => "validation_failed"
  }

  // ---------- Submission ----------

  function SaveDraft(db: Db, draftId: Id, draft: Draft, actor: Actor): (Db, Reply) {
    if draftId in db.drafts then (db, Failed(IntegrityError))
    else (db.(drafts := db.drafts[draftId := draft],
              events := db.events + [Event(None, Some(draftId), DraftCreated, actor, None, None, None, NoDetails,
                                           draft.createdAt)]),
          Done)
  }

  ghost predicate IsOrderFor(db: Db, draftId: Id, k: Id) {
    k in db.orders && db.orders[k].draftId == draftId
  }

  function NewOrder(draftId: Id, draft: Draft, clientOrderId: string, now: int): Order {
    Order(draftId, clientOrderId, draft.fingerprint, draft.terms, Submitting, 1,
          None, None, None, None, None, None, None, now, now)
  }

  /** The dashboard records the authorization it grants itself. */
  function SelfAuthorization(k: Id, draftId: Id, authorizationId: Id, action: Action, actor: Actor,
                             now: int): seq<Event> {
    if actor == Dashboard then
      [Event(Some(k), Some(draftId), AuthorizationCreated, actor, None, None, None,
             Authorization(authorizationId, action), now),
       Event(Some(k), Some(draftId), AuthorizationConsumed, actor, None, None, None,
             Authorization(authorizationId, action), now)]
    else []
  }

  ghost function BeginSubmission(db: Db, draftId: Id, k: Id, clientOrderId: string, authorizationId: Id, now: int,
                                 actor: Actor): (Db, Reply) {
    if exists x :: IsOrderFor(db, draftId, x) then
      var x :| IsOrderFor(db, draftId, x);
      (db, Ordered(x, false))
    else if draftId !in db.drafts || k in db.orders
      || (exists x <- db.orders :: db.orders[x].clientOrderId == clientOrderId)
    then (db, Failed(IntegrityError))
    else
      var o := NewOrder(draftId, db.drafts[draftId], clientOrderId, now);
      (db.(orders := db.orders[k := o],
           events := db.events
                     + SelfAuthorization(k, draftId, authorizationId, SubmitAction, actor, now)
                     + [OrderEvent(o, k, SubmissionStarted, actor, None, Some(Submitting), None, NoDetails, now)]),
       Ordered(k, true))
  }

  function MarkStarted(db: Db, k: Id, expectedVersion: int, at: int): (Db, Reply) {
    if k in db.orders && db.orders[k].version == expectedVersion && db.orders[k].state == Submitting
    then (db.(orders := db.orders[k := db.orders[k].(submissionStartedAt := Some(at))]), Done)
    else (db, Failed(ConcurrentUpdate))
  }

  function RecoveredOrder(o: Order, now: int): Order {
    o.(state := Unknown, resultCode := Some("unknown"), resultSource := Some(FromSystem),
       updatedAt := Max(now, o.updatedAt), version := o.version + 1)
  }

  ghost function RecoverOne(db: Db, k: Id, now: int): (Db, Reply) {
    if k !in db.orders || db.orders[k].state != Submitting then (db, Answer(false))
    else
      var o' := RecoveredOrder(db.orders[k], now);
      (Commit(db, k, o', [], StateChanged, System,
              [OrderEvent(o', k, StatusTransition, System, Some(Submitting), Some(Unknown), Some("unknown"),
                          Status(FromSystem, None), o'.updatedAt)]),
       Answer(true))
  }

  /** What a submission result carries into the record. */
  datatype Submitted = Submitted(state: OrderState, brokerOrderId: Option<string>, code: Option<string>,
                                 fill: Option<RawFill>, source: StatusSource)

  /** None stands for the ValueError on an unacceptable fill. */
  function SubmittedFill(o: Order, r: Submitted): Option<Option<Fill>> {
    if r.fill.None? then Some(None)
    else
      var fill := ValidateFill(r.fill.value, o.terms.quantity, o.Filled());
      if fill.None?
         || (r.state == Filled && fill.value.quantity.value != o.terms.quantity)
         || (r.state == PartiallyFilled && fill.value.quantity.value >= o.terms.quantity)
      then None
      else Some(fill)
  }

  function FinishedOrder(o: Order, r: Submitted, fill: Option<Fill>, now: int): Order {
    o.(state := r.state,
       brokerOrderId := if r.brokerOrderId.Some? then r.brokerOrderId else o.brokerOrderId,
       resultCode := r.code, resultSource := Some(r.source),
       fill := if fill.Some? then fill else o.fill,
       updatedAt := Max(now, o.updatedAt), version := o.version + 1)
  }

  predicate DraftExpiryLogged(db: Db, draftId: Id) {
    exists e <- db.events :: e.kind == DraftExpired && e.draftId == Some(draftId)
  }

  ghost function FinishSubmission(db: Db, k: Id, expectedVersion: int, r: Submitted, now: int, actor: Actor): (Db,
        Reply) {
    if k !in db.orders then (db, Failed(MissingRecord))
    else
      var o := db.orders[k];
      if o.version != expectedVersion then (db, Failed(ConcurrentUpdate))
      else if !CanTransition(o.state, r.state) then (db, Failed(IllegalTransition))
      else if SubmittedFill(o, r).None? then (db, Failed(InvalidValue))
      else
        var fill := SubmittedFill(o, r).value;
        var o' := FinishedOrder(o, r, fill, now);
        var kind := if o.state == Submitting then SubmissionResult else StatusTransition;
        var result := OrderEvent(o', k, kind, actor, Some(o.state), Some(r.state), Some(EventCode(r.code, r.state)),
                                 Status(r.source, fill), o'.updatedAt);
        var expiry := if r.code == Some("draft_expired") && o.draftId in db.drafts && !DraftExpiryLogged(db, o.draftId)
                      then [OrderEvent(o', k, DraftExpired, actor, None, None, Some("draft_expired"),
                                       Expiry(db.drafts[o.draftId].expiresAt), o'.updatedAt)]
                      else [];
        (Commit(db, k, o', [], StateChanged, System, [result] + expiry), Done)
  }

  /** Logs that a draft expired, at most once. */
  function RecordDraftExpiry(db: Db, draftId: Id, now: int): (Db, Reply) {
    if draftId !in db.drafts || now <= db.drafts[draftId].expiresAt || DraftExpiryLogged(db, draftId)
    then (db, Answer(false))
    else (db.(events := db.events + [Event(None, Some(draftId), DraftExpired, Dashboard, None, None,
                                           Some("draft_expired"), Expiry(db.drafts[draftId].expiresAt), now)]),
          Answer(true))
  }

  // ---------- Cancellation requests ----------

  function PrintOf(k: Id, o: Order): Fingerprint {
    CancelPrint(k, o.version, o.state, o.terms.accountId, o.ReviewedRemainder())
  }

  function NewRequest(k: Id, reviewed: Order, now: int, expiresAt: int): Request {
    Request(k, reviewed.version, reviewed.state, reviewed.terms.accountId, PrintOf(k, reviewed), now, expiresAt,
            Pending, None)
  }

  /** `reviewed` is the record the caller read earlier. */
  ghost function CreateRequest(db: Db, k: Id, reviewed: Order, requestId: Id, now: int, expiresAt: int): (Db, Reply) {
    if k !in db.orders
       || db.orders[k].version != reviewed.version
       || db.orders[k].state != reviewed.state
       || db.orders[k].terms.accountId != reviewed.terms.accountId
    then (db, Failed(ConcurrentUpdate))
    else if !db.orders[k].CanCancel() then (db, Failed(OrderNotCancelable))
    else if requestId in db.requests then (db, Failed(IntegrityError))
    else
      var cleared := InvalidateRequests(db, k, Superseded, now, Mcp, None);
      (cleared.(requests := cleared.requests[requestId := NewRequest(k, reviewed, now, expiresAt)],
                events := cleared.events
                          + [OrderEvent(db.orders[k], k, CancellationRequestCreated, Mcp, None, None, None,
                                        RequestCreated(requestId, expiresAt), now)]),
       Done)
  }

  ghost function InvalidateAll(db: Db, k: Id, reason: Reason, now: int): (Db, Reply) {
    (InvalidateRequests(db, k, reason, now, System, None), Done)
  }

  function CancelCode(r: Request, requestId: Id, now: int, expiresAt: int): Code {
    Code(CancelAction, None, Some(requestId), Some(r.orderId), r.fingerprint, r.accountId, now, expiresAt, None,
         None, 0)
  }

  function SupersedeCodes(codes: map<Id, Code>, action: Option<Action>, draftId: Option<Id>,
                          requestId: Option<Id>): map<Id, Code> {
    map c | c in codes ::
      if Usable(codes[c])
         && (action.Some? ==> codes[c].action == action.value)
         && (draftId.Some? ==> codes[c].draftId == draftId)
         && (requestId.Some? ==> codes[c].requestId == requestId)
      then codes[c].(invalidation := Some(Superseded)) else codes[c]
  }

  /** The owner approves a pending request on the dashboard and receives a code for it. */
  ghost function AuthorizeRequest(db: Db, requestId: Id, expected: Fingerprint, codeId: Id, now: int,
                                  expiresAt: int): (Db, Reply) {
    if requestId !in db.requests then (db, Failed(RequestMissing))
    else
      var r := db.requests[requestId];
      if r.status != Pending then (db, Failed(RequestNotPending))
      else if now > r.expiresAt then
        (InvalidateRequests(db, r.orderId, PastExpiry, now, Mcp, Some(requestId)), Failed(RequestExpired))
      else if r.fingerprint != expected then (db, Failed(FingerprintMismatch))
      else if r.orderId !in db.orders || db.orders[r.orderId].version != r.expectedVersion
              || db.orders[r.orderId].state != r.expectedState then
        (InvalidateRequests(db, r.orderId, StateChanged, now, Dashboard, None), Failed(RequestStale))
      else if !db.orders[r.orderId].CanCancel() then
        (InvalidateRequests(db, r.orderId, NotCancelable, now, Dashboard, None), Failed(OrderNotCancelable))
      else if codeId in db.codes then (db, Failed(IntegrityError))
      else
        var o := db.orders[r.orderId];
        (db.(requests := db.requests[requestId := r.(status := Authorized)],
             codes := SupersedeCodes(db.codes, None, None,
                                     Some(requestId))[codeId := CancelCode(r, requestId, now, expiresAt)],
             events := db.events
                       + [OrderEvent(o, r.orderId, AuthorizationCreated, Dashboard, None, None, None,
                                     Authorization(codeId, CancelAction), now)]),
         Done)
  }

  /** Reading a request retires it once its time has passed. */
  ghost function ReadRequest(db: Db, requestId: Id, now: int): (Db, Reply) {
    if requestId in db.requests && Active(db.requests[requestId].status) && now > db.requests[requestId].expiresAt
    then (InvalidateRequests(db, db.requests[requestId].orderId, PastExpiry, now, System, Some(requestId)), Done)
    else (db, Done)
  }

  ghost function ExpireRequest(db: Db, requestId: Id, now: int): (Db, Reply) {
    if requestId in db.requests && Active(db.requests[requestId].status)
    then (InvalidateRequests(db, db.requests[requestId].orderId, PastExpiry, now, Mcp, Some(requestId)), Done)
    else (db, Done)
  }

  /** The unconditional status write for "attempted". */
  function MarkAttempted(db: Db, requestId: Id): (Db, Reply) {
    if requestId in db.requests
    then (db.(requests := db.requests[requestId := db.requests[requestId].(status := Attempted)]), Done)
    else (db, Done)
  }

  // ---------- Cancellation ----------

  function AttemptOf(db: Db, found: Option<nat>): Option<Id>
    requires found.Some? ==> found.value < |db.events| && db.events[found.value].details.Attempt?
  {
    if found.Some? then Some(db.events[found.value].details.attemptId) else None
  }

  predicate AttemptLogged(events: seq<Event>, k: Id, attemptId: Id) {
    exists e <- events :: IsAttempt(e, k) && e.details.attemptId == attemptId
  }

  function PendingOrder(o: Order, now: int): Order {
    o.(state := CancelPending, version := o.version + 1, updatedAt := Max(now, o.updatedAt))
  }

  function AttemptEvent(o: Order, k: Id, attemptId: Id, actor: Actor, now: int): Event {
    OrderEvent(o, k, CancellationRequested, actor, None, None, None, Attempt(attemptId), now)
  }

  /** `found` is the row the database returned for the latest attempt. */
  ghost function BeginCancellation(db: Db, k: Id, expectedVersion: int, expectedState: OrderState,
                                   attemptId: Id, now: int, actor: Actor, found: Option<nat>): (Db, Reply)
    requires LatestAttempt(db.events, k, found)
  {
    if k !in db.orders then (db, Failed(MissingRecord))
    else
      var o := db.orders[k];
      if o.state == Canceled then (db, CancelReply(None, false))
      else if o.state == CancelPending then (db, CancelReply(AttemptOf(db, found), false))
      else if o.version != expectedVersion || o.state != expectedState then (db, Failed(ConcurrentUpdate))
      else if !o.CanCancel() then (db, Failed(OrderNotCancelable))
      else if AttemptLogged(db.events, k, attemptId) then (db, Failed(IntegrityError))
      else
        var o' := PendingOrder(o, now);
        (Commit(db, k, o',
                SelfAuthorization(k, o.draftId, attemptId, CancelAction, actor, now)
                  + [AttemptEvent(o, k, attemptId, actor, now)],
                CancellationStarted, actor,
                [OrderEvent(o', k, StatusTransition, actor, Some(o.state), Some(CancelPending), None,
                            Status(FromLocal, o'.fill), o'.updatedAt)]),
         CancelReply(Some(attemptId), true))
  }

  function KindOutcome(kind: CancellationKind): Outcome {
    match kind
    case KindCanceled => OutcomeCanceled
    case KindRefused => Refused
    case KindUnknown => OutcomeUnknown
  }

  function KindCode(kind: CancellationKind): string {
    match kind
    case KindCanceled => "canceled"
    case KindRefused => "cancel_rejected"
    case KindUnknown => "unknown"
  }

  function KindSource(kind: CancellationKind): StatusSource {
    if kind == KindUnknown then FromSystem else FromProvider
  }

  function ResolvedOrder(o: Order, r: Resolution, now: int): Order {
    o.(state := r.state, version := o.version + 1, resultCode := Some(KindCode(r.kind)),
       resultSource := Some(KindSource(r.kind)), fill := CumulativeFill(o.fill, r.fill),
       updatedAt := Max(now, o.updatedAt))
  }

  ghost function FinishCancellation(db: Db, k: Id, attemptId: Id, seen: CancellationObservation,
                                    now: int, actor: Actor, found: Option<nat>): (Db, Reply)
    requires LatestAttempt(db.events, k, found)
  {
    if k !in db.orders then (db, Failed(MissingRecord))
    else
      var o := db.orders[k];
      if o.state != CancelPending then (db, Done)
      else if found.Some? && AttemptOf(db, found) != Some(attemptId) then (db, Done)
      else
        var r := ResolveCancellation(o.terms.quantity, o.Filled(), seen);
        if !CanTransition(o.state, r.state) then (db, Failed(IllegalTransition))
        else
          var o' := ResolvedOrder(o, r, now);
          (Commit(db, k, o', [], OrderBecame(r.state), actor,
                  [OrderEvent(o', k, CancellationResult, actor, Some(CancelPending), Some(r.state),
                              Some(EventCode(Some(KindCode(r.kind)), r.state)),
                                CancelOutcome(attemptId, KindOutcome(r.kind)), o'.updatedAt),
                   OrderEvent(o', k, StatusTransition, actor, Some(CancelPending), Some(r.state), None,
                              Status(KindSource(r.kind), o'.fill), o'.updatedAt)]),
           Done)
  }

  // ---------- Reconciliation ----------

  function GateNextAt(db: Db, g: Group, now: int, interval: int): int {
    if g in db.gates then Max(now, db.gates[g] + interval) else now
  }

  predicate GateOpen(db: Db, g: Group, at: int, interval: int) {
    g in db.gates ==> db.gates[g] <= at - interval
  }

  function AttemptedEvent(o: Order, k: Id, attemptId: Id, at: int): Event {
    OrderEvent(o, k, ReconciliationAttempted, System, None, None, None, Attempt(attemptId), at)
  }

  function ClaimThroughGate(db: Db, k: Id, attemptId: Id, at: int, interval: int): (Db, Reply)
    requires k in db.orders
  {
    var o := db.orders[k];
    if GateOpen(db, GroupOf(o), at, interval) then
      (db.(gates := db.gates[GroupOf(o) := at], events := db.events + [AttemptedEvent(o, k, attemptId, at)]),
       Claimed(o))
    else (db, Throttled(GateNextAt(db, GroupOf(o), at, interval)))
  }

  function ClaimReconciliation(db: Db, k: Id, attemptId: Id, at: int, interval: int): (Db, Reply) {
    if interval < 0 then (db, Failed(InvalidValue))
    else if k !in db.orders then (db, Failed(MissingRecord))
    else ClaimThroughGate(db, k, attemptId, at, interval)
  }

  predicate IsReconciliationAttempt(e: Event, k: Id) {
    e.kind == ReconciliationAttempted && e.orderId == Some(k)
  }

  /** The largest attempt time logged for k; None when it was never attempted. */
  function LastAttemptAt(events: seq<Event>, k: Id): (last: Option<int>)
    ensures last.None? <==> forall e <- events :: !IsReconciliationAttempt(e, k)
    ensures last.Some? ==> forall e <- events :: IsReconciliationAttempt(e, k) ==> e.occurredAt <= last.value
    ensures last.Some? ==> exists e <- events :: IsReconciliationAttempt(e, k) && e.occurredAt == last.value
    decreases |events|
  {
    if events == [] then None
    else
      var e := events[|events| - 1];
      var rest := LastAttemptAt(events[..|events| - 1], k);
      assert events == events[..|events| - 1] + [e];
      if !IsReconciliationAttempt(e, k) then rest
      else if rest.None? then Some(e.occurredAt)
      else Some(Max(rest.value, e.occurredAt))
  }

  /** Identifiers are compared as text. */
  predicate TextBefore(a: string, b: string)
    decreases |a|
  {
    if b == "" then false
    else if a == "" then true
    else if a[0] != b[0] then a[0] < b[0]
    else TextBefore(a[1..], b[1..])
  }

  /** Order a is due before order b: never attempted first, then the older attempt, then the older
      order, then the smaller id. */
  predicate DueBefore(db: Db, a: Id, b: Id)
    requires a in db.orders && b in db.orders
  {
    var x, y := LastAttemptAt(db.events, a), LastAttemptAt(db.events, b);
    if x != y then
      x.None? || (y.Some? && x.value < y.value)
    else if db.orders[a].createdAt != db.orders[b].createdAt then
      db.orders[a].createdAt < db.orders[b].createdAt
    else TextBefore(a, b)
  }

  function Candidates(db: Db, g: Group): set<Id> {
    set k | k in db.orders && GroupOf(db.orders[k]) == g && Syncable(db.orders[k].state)
  }

  /** The first candidate of the group in due order. */
  ghost predicate IsTarget(db: Db, g: Group, target: Option<Id>) {
    match target
    case None => Candidates(db, g) == {}
    case Some(k) => k in Candidates(db, g) && forall j <- Candidates(db, g) :: j != k ==> DueBefore(db, k, j)
  }

  const MINIMUM_INTERVAL := 30_000_000

  ghost function ClaimPlanned(db: Db, k: Id, attemptId: Id, at: int, interval: int, target: Option<Id>): (Db, Reply)
    requires k in db.orders ==> IsTarget(db, GroupOf(db.orders[k]), target)
  {
    if interval < MINIMUM_INTERVAL then (db, Failed(InvalidValue))
    else if k !in db.orders then (db, Failed(MissingRecord))
    else if target != Some(k) then (db, TargetChanged(GateNextAt(db, GroupOf(db.orders[k]), at, interval), target))
    else ClaimThroughGate(db, k, attemptId, at, interval)
  }

  /** The values a reconciliation attempt wants to write. */
  datatype Finding = Finding(state: OrderState, outcome: Outcome, brokerOrderId: Option<string>,
                             fill: Option<RawFill>, providerUpdatedAt: Option<int>,
                             statusLabel: Option<string>, source: StatusSource)

  const STATUS_LABELS: set<string> := {"OPEN", "PARTIALLY_FILLED", "FILLED", "REJECTED", "CANCELED", "EXPIRED"}

  function OutcomeText(outcome: Outcome): string {
    match outcome
    case Matched => "matched"
    case NotFound => "not_found"
    case Ambiguous => "ambiguous"
    case Incomplete => "incomplete"
    case Mismatch => "mismatch"
    case Stale => "stale"
    case ProviderError => "provider_error"
    case OutcomeCanceled => "canceled"
    case OutcomeUnknown => "unknown"
    case Refused => "refused"
  }

  function ReconciledOrder(o: Order, f: Finding, fill: Option<Fill>, now: int): Order {
    o.(state := f.state, version := o.version + 1,
       brokerOrderId := if f.brokerOrderId.Some?
         && f.brokerOrderId.value != "" then f.brokerOrderId else o.brokerOrderId,
       resultCode := Some(OutcomeText(f.outcome)), resultSource := Some(f.source),
       fill := CumulativeFill(o.fill, fill),
       providerUpdatedAt := if f.providerUpdatedAt.Some? then f.providerUpdatedAt else o.providerUpdatedAt,
       providerStatusLabel := if f.statusLabel.Some? then f.statusLabel else o.providerStatusLabel,
       updatedAt := Max(now, o.updatedAt))
  }

  /** The error a finding meets, if any, in the order the checks are made. */
  function FindingError(o: Order, f: Finding): Option<Error> {
    if f.state != o.state && !CanTransition(o.state, f.state) then Some(IllegalTransition)
    else if f.fill.Some? && ValidateFill(f.fill.value, o.terms.quantity, o.Filled()).None? then Some(InvalidValue)
    else
      var total := CumulativeFill(o.fill, FindingFill(o, f));
      if f.state == Filled && FilledQuantity(total) != Some(o.terms.quantity) then Some(InvalidValue)
      else if f.state == PartiallyFilled && total.Some? && total.value.quantity.value >= o.terms.quantity
      then Some(InvalidValue)
      else None
  }

  function FindingFill(o: Order, f: Finding): Option<Fill> {
    if f.fill.Some? then ValidateFill(f.fill.value, o.terms.quantity, o.Filled()) else None
  }

  function OutcomeCode(outcome: Outcome): string {
    if OutcomeText(outcome) in KNOWN_CODES then OutcomeText(outcome) else "unknown"
  }

  /** The result of an attempt, and the transition when the state changed. */
  function ReconciliationEvents(o: Order, o': Order, k: Id, attemptId: Id, f: Finding, fill: Option<Fill>): seq<Event> {
    var result := OrderEvent(o', k, ReconciliationResult, System, Some(o.state), Some(f.state),
                             Some(OutcomeCode(f.outcome)),
                             Reconciled(attemptId, f.outcome, f.source, fill, f.providerUpdatedAt, f.statusLabel),
                               o'.updatedAt);
    if f.state == o.state then [result]
    else [result, OrderEvent(o', k, StatusTransition, System, Some(o.state), Some(f.state),
                             Some(EventCode(Some(OutcomeText(f.outcome)), f.state)), Status(f.source, fill),
                               o'.updatedAt)]
  }

  ghost function FinishReconciliation(db: Db, k: Id, attemptId: Id, expectedVersion: int, expectedState: OrderState,
                                      f: Finding, now: int): (Db, Reply) {
    if f.statusLabel.Some? && f.statusLabel.value !in STATUS_LABELS then (db, Failed(InvalidValue))
    else if k !in db.orders then (db, Failed(MissingRecord))
    else
      var o := db.orders[k];
      if o.version != expectedVersion || o.state != expectedState then (db, Failed(ConcurrentUpdate))
      else if FindingError(o, f).Some? then (db, Failed(FindingError(o, f).value))
      else
        var fill := FindingFill(o, f);
        var o' := ReconciledOrder(o, f, fill, now);
        (Commit(db, k, o', [], if f.state == o.state then StateChanged else OrderBecame(f.state), System,
                ReconciliationEvents(o, o', k, attemptId, f, fill)),
         Done)
  }

  // ---------- Authorization codes ----------

  /** A submit code is bound to its draft. */
  function CreateSubmitCode(db: Db, codeId: Id, draftId: Id, now: int, expiresAt: int): (Db, Reply) {
    if draftId !in db.drafts then (db, Failed(MissingRecord))
    else if codeId in db.codes then (db, Failed(IntegrityError))
    else
      var d := db.drafts[draftId];
      var code := Code(SubmitAction, Some(draftId), None, None, DraftPrint(d.fingerprint), d.terms.accountId,
                       now, expiresAt, None, None, 0);
      (db.(codes := SupersedeCodes(db.codes, Some(SubmitAction), Some(draftId), None)[codeId := code],
           events := db.events + [Event(None, Some(draftId), AuthorizationCreated, Dashboard, None, None, None,
                                        Authorization(codeId, SubmitAction), now)]),
       Done)
  }

  const MAX_FAILURES := 5

  function FailedCode(c: Code, reason: FailureReason): Code {
    if reason == AuthorizationExpired then c.(invalidation := Some(PastExpiry))
    else if reason == VerificationFailed && Usable(c) then
      c.(failedAttempts := c.failedAttempts + 1,
         invalidation := if c.failedAttempts + 1 >= MAX_FAILURES then Some(MaxAttempts) else None)
    else c
  }

  /** Logs a failed use of a code and counts it. */
  function RecordFailure(db: Db, codeId: Option<Id>, draftId: Option<Id>, requestId: Option<Id>, action: Action,
                         reason: FailureReason, attemptId: Id, now: int): (Db, Reply) {
    var code := if codeId.Some? && codeId.value in db.codes then Some(db.codes[codeId.value]) else None;
    var eventDraft := if code.Some? then code.value.draftId else draftId;
    var eventRequest := if code.Some? then code.value.requestId else requestId;
    var orderRef := if code.Some? then code.value.orderId
                    else if eventRequest.Some? && eventRequest.value in db.requests
                    then Some(db.requests[eventRequest.value].orderId) else None;
    var orderId := if orderRef.Some? && orderRef.value in db.orders then orderRef else None;
    (db.(codes := if code.Some? then db.codes[codeId.value := FailedCode(code.value, reason)] else db.codes,
         events := db.events
                   + [Event(orderId, if eventDraft.Some? && eventDraft.value in db.drafts then eventDraft else None,
                            AuthorizationFailed, Mcp, None, None, Some("authorization_invalid"),
                            Failure(attemptId, if code.Some? then code.value.action else action, Some(reason)),
                            if orderId.Some? then Max(now, db.orders[orderId.value].updatedAt) else now)]),
     Done)
  }

  function ConsumeCode(db: Db, codeId: Id, now: int): (Db, Reply) {
    if codeId in db.codes && Usable(db.codes[codeId]) then
      var c := db.codes[codeId];
      (db.(codes := db.codes[codeId := c.(consumedAt := Some(now))],
           events := db.events + [Event(c.orderId, c.draftId, AuthorizationConsumed, Mcp, None, None, None,
                                        Authorization(codeId, c.action), now)]),
       Answer(true))
    else (db, Answer(false))
  }

  // ---------- Transactions as data ----------

  /** One committed (or refused) transaction with everything its caller, its clock and its random
      identifiers supplied. */
  datatype Tx =
    | TxSaveDraft(draftId: Id, draft: Draft, actor: Actor)
    | TxBeginSubmission(draftId: Id, k: Id, clientOrderId: string, authorizationId: Id, now: int, actor: Actor)
    | TxMarkStarted(k: Id, expectedVersion: int, now: int)
    | TxRecoverOne(k: Id, now: int)
    | TxFinishSubmission(k: Id, expectedVersion: int, result: Submitted, now: int, actor: Actor)
    | TxRecordDraftExpiry(draftId: Id, now: int)
    | TxCreateRequest(k: Id, reviewed: Order, requestId: Id, now: int, expiresAt: int)
    | TxInvalidateAll(k: Id, reason: Reason, now: int)
    | TxAuthorizeRequest(requestId: Id, expected: Fingerprint, codeId: Id, now: int, expiresAt: int)
    | TxReadRequest(requestId: Id, now: int)
    | TxExpireRequest(requestId: Id, now: int)
    | TxMarkAttempted(requestId: Id)
    | TxBeginCancellation(k: Id, expectedVersion: int, expectedState: OrderState, attemptId: Id, now: int,
                          actor: Actor, found: Option<nat>)
    | TxFinishCancellation(k: Id, attemptId: Id, seen: CancellationObservation, now: int, actor: Actor,
                           found: Option<nat>)
    | TxClaim(k: Id, attemptId: Id, now: int, interval: int)
    | TxClaimPlanned(k: Id, attemptId: Id, now: int, interval: int, target: Option<Id>)
    | TxFinishReconciliation(k: Id, attemptId: Id, expectedVersion: int, expectedState: OrderState, finding: Finding,
                             now: int)
    | TxCreateSubmitCode(codeId: Id, draftId: Id, now: int, expiresAt: int)
    | TxRecordFailure(code: Option<Id>, forDraft: Option<Id>, forRequest: Option<Id>, action: Action,
                      failure: FailureReason, attemptId: Id, now: int)
    | TxConsumeCode(codeId: Id, now: int)

  /** The rows a transaction claims to have been handed are rows its queries may return. */
  ghost predicate Answerable(db: Db, tx: Tx) {
    match tx
    case TxBeginCancellation(k, _, _, _, _, _, found) => LatestAttempt(db.events, k, found)
    case TxFinishCancellation(k, _, _, _, _, found) => LatestAttempt(db.events, k, found)
    case TxClaimPlanned(k, _, _, _, target) => k in db.orders ==> IsTarget(db, GroupOf(db.orders[k]), target)
    case _ => true
  }

  ghost function Run(db: Db, tx: Tx): (Db, Reply)
    requires Answerable(db, tx)
  {
    match tx
    case TxSaveDraft(draftId, draft, actor) => SaveDraft(db, draftId, draft, actor)
    case TxBeginSubmission(draftId, k, clientOrderId, authorizationId, now, actor) =>
      BeginSubmission(db, draftId, k, clientOrderId, authorizationId, now, actor)
    case TxMarkStarted(k, version, now) => MarkStarted(db, k, version, now)
    case TxRecoverOne(k, now) => RecoverOne(db, k, now)
    case TxFinishSubmission(k, version, result, now, actor) => FinishSubmission(db, k, version, result, now, actor)
    case TxRecordDraftExpiry(draftId, now) => RecordDraftExpiry(db, draftId, now)
    case TxCreateRequest(k, reviewed, requestId, now, expiresAt) =>
      CreateRequest(db, k, reviewed, requestId, now, expiresAt)
    case TxInvalidateAll(k, reason, now) => InvalidateAll(db, k, reason, now)
    case TxAuthorizeRequest(requestId, expected, codeId, now, expiresAt) =>
      AuthorizeRequest(db, requestId, expected, codeId, now, expiresAt)
    case TxReadRequest(requestId, now) => ReadRequest(db, requestId, now)
    case TxExpireRequest(requestId, now) => ExpireRequest(db, requestId, now)
    case TxMarkAttempted(requestId) => MarkAttempted(db, requestId)
    case TxBeginCancellation(k, version, state, attemptId, now, actor, found) =>
      BeginCancellation(db, k, version, state, attemptId, now, actor, found)
    case TxFinishCancellation(k, attemptId, seen, now, actor, found) =>
      FinishCancellation(db, k, attemptId, seen, now, actor, found)
    case TxClaim(k, attemptId, now, interval) => ClaimReconciliation(db, k, attemptId, now, interval)
    case TxClaimPlanned(k, attemptId, now, interval, target) => ClaimPlanned(db, k, attemptId, now, interval, target)
    case TxFinishReconciliation(k, attemptId, version, state, finding, now) =>
      FinishReconciliation(db, k, attemptId, version, state, finding, now)
    case TxCreateSubmitCode(codeId, draftId, now, expiresAt) => CreateSubmitCode(db, codeId, draftId, now, expiresAt)
    case TxRecordFailure(codeId, draftId, requestId, action, failure, attemptId, now) =>
      RecordFailure(db, codeId, draftId, requestId, action, failure, attemptId, now)
    case TxConsumeCode(codeId, now) => ConsumeCode(db, codeId, now)
  }

  ghost function Apply(db: Db, tx: Tx): Db
    requires Answerable(db, tx)
  {
    Run(db, tx).0
  }
}
