/** What every reachable database satisfies, and how one transaction may change it.
    Each part of the invariant names only the tables it speaks about. */
module Invariants {
  import opened Common
  import opened Orders
  import opened Journal
  import opened Database

  // ---------- The invariant ----------

  function LedgerOf(o: Order): Ledger {
    Ledger(Some(o.state), o.version, o.fill, o.updatedAt, true)
  }

  ghost predicate DraftsOk(drafts: map<Id, Draft>) {
    forall d <- drafts :: drafts[d].terms.quantity > 0.0
  }

  ghost predicate OrderOfDraft(o: Order, drafts: map<Id, Draft>) {
    && o.draftId in drafts
    && o.terms == drafts[o.draftId].terms
    && o.fingerprint == drafts[o.draftId].fingerprint
  }

  ghost predicate OrdersOk(orders: map<Id, Order>, drafts: map<Id, Draft>) {
    && (forall k <- orders :: OrderOk(orders[k]) && OrderOfDraft(orders[k], drafts))
    && (forall a <- orders, b <- orders :: orders[a].draftId == orders[b].draftId ==> a == b)
  }

  /** Replaying the log of an order gives its stored state, version, fill and time. */
  ghost predicate JournalOk(events: seq<Event>, orders: map<Id, Order>) {
    && (forall k <- orders :: Replay(events, k) == LedgerOf(orders[k]))
    && Grounded(events, orders)
  }

  ghost predicate Grounded(events: seq<Event>, orders: map<Id, Order>) {
    forall e <- events :: e.orderId.Some? ==> e.orderId.value in orders
  }

  /** An active request speaks about the order as it is now. */
  ghost predicate RequestOk(r: Request, orders: map<Id, Order>) {
    && r.orderId in orders
    && var o := orders[r.orderId];
    && r.accountId == o.terms.accountId
    && r.expectedVersion <= o.version
    && (r.expectedVersion == o.version ==> r.expectedState == o.state && r.fingerprint == PrintOf(r.orderId, o))
    && (Active(r.status) ==> r.expectedVersion == o.version && o.CanCancel())
  }

  ghost predicate OneActiveRequest(requests: map<Id, Request>) {
    forall a <- requests, b <- requests ::
      Active(requests[a].status) && Active(requests[b].status) && requests[a].orderId == requests[b].orderId ==> a == b
  }

  ghost predicate RequestsOk(requests: map<Id, Request>, orders: map<Id, Order>) {
    (forall id <- requests :: RequestOk(requests[id], orders)) && OneActiveRequest(requests)
  }

  ghost predicate CodeOk(c: Code, requests: map<Id, Request>, drafts: map<Id, Draft>) {
    && 0 <= c.failedAttempts <= MAX_FAILURES
    && (Usable(c) ==> c.failedAttempts < MAX_FAILURES)
    && match c.action
       case SubmitAction =>
         && c.requestId.None? && c.orderId.None? && c.draftId.Some? && c.draftId.value in drafts
         && c.payload == DraftPrint(drafts[c.draftId.value].fingerprint)
       case CancelAction =>
         && c.draftId.None? && c.requestId.Some? && c.requestId.value in requests
         && var r := requests[c.requestId.value];
         && c.orderId == Some(r.orderId)
         && c.payload == r.fingerprint
         && r.status != Pending
         && (Usable(c) ==> r.status == Authorized)
  }

  /** A draft has at most one usable code; a request has at most one code ever. */
  ghost predicate CodesOk(codes: map<Id, Code>, requests: map<Id, Request>, drafts: map<Id, Draft>) {
    && (forall c <- codes :: CodeOk(codes[c], requests, drafts))
    && (forall a <- codes, b <- codes ::
        codes[a].requestId.Some? && codes[a].requestId == codes[b].requestId ==> a == b)
    && (forall a <- codes, b <- codes ::
          Usable(codes[a]) && Usable(codes[b]) && codes[a].draftId.Some? && codes[a].draftId == codes[b].draftId ==>
            a == b)
  }

  ghost predicate DistinctAttempts(events: seq<Event>) {
    forall k, i, j :: 0 <= i < j < |events| && IsAttempt(events[i], k) && IsAttempt(events[j], k) ==>
                        events[i].details.attemptId != events[j].details.attemptId
  }

  ghost predicate AttemptsOk(events: seq<Event>, orders: map<Id, Order>) {
    && (forall k <- orders :: orders[k].state == CancelPending ==> exists e <- events :: IsAttempt(e, k))
    && DistinctAttempts(events)
  }

  ghost predicate AttemptBehindGate(e: Event, orders: map<Id, Order>, gates: map<Group, int>) {
    e.kind == ReconciliationAttempted ==>
      && e.orderId.Some? && e.orderId.value in orders
      && GroupOf(orders[e.orderId.value]) in gates
      && e.occurredAt <= gates[GroupOf(orders[e.orderId.value])]
  }

  ghost predicate GatesOk(events: seq<Event>, orders: map<Id, Order>, gates: map<Group, int>) {
    forall e <- events :: AttemptBehindGate(e, orders, gates)
  }

  ghost predicate Inv(db: Db) {
    && DraftsOk(db.drafts)
    && OrdersOk(db.orders, db.drafts)
    && JournalOk(db.events, db.orders)
    && RequestsOk(db.requests, db.orders)
    && CodesOk(db.codes, db.requests, db.drafts)
    && AttemptsOk(db.events, db.orders)
    && GatesOk(db.events, db.orders, db.gates)
  }

  lemma EmptyInv()
    ensures Inv(EMPTY)
  {
  }

  // ---------- One step ----------

  /** An order is untouched, or marked as handed to the provider, or written once. */
  ghost predicate OrderStep(o: Order, o': Order) {
    || o' == o
    || (o.state == Submitting && o'.submissionStartedAt.Some?
        && o' == o.(submissionStartedAt := o'.submissionStartedAt))
    || OrderWrite(o, o')
  }

  predicate RequestStep(r: Request, r': Request) {
    && r' == r.(status := r'.status, invalidation := r'.invalidation)
    && (Active(r'.status) ==> Active(r.status))
    && (r'.status == Pending ==> r.status == Pending)
  }

  /** A spent or withdrawn code stays that way, and a code is consumed at most once. */
  predicate CodeStep(c: Code, c': Code) {
    && c' == c.(consumedAt := c'.consumedAt, invalidation := c'.invalidation, failedAttempts := c'.failedAttempts)
    && (c.consumedAt.Some? ==> c'.consumedAt == c.consumedAt)
    && (c.consumedAt.None? && c'.consumedAt.Some? ==> Usable(c))
    && (Usable(c') ==> Usable(c))
    && c.failedAttempts <= c'.failedAttempts
  }

  ghost predicate DraftsEvolve(drafts: map<Id, Draft>, drafts': map<Id, Draft>) {
    forall d <- drafts :: d in drafts' && drafts'[d] == drafts[d]
  }

  ghost predicate OrdersEvolve(orders: map<Id, Order>, orders': map<Id, Order>) {
    && (forall k <- orders :: k in orders' && OrderStep(orders[k], orders'[k]))
    && (forall k <- orders' :: k !in orders ==> orders'[k].state == Submitting && orders'[k].version == 1)
  }

  ghost predicate RequestsEvolve(requests: map<Id, Request>, requests': map<Id, Request>) {
    forall id <- requests :: id in requests' && RequestStep(requests[id], requests'[id])
  }

  ghost predicate CodesEvolve(codes: map<Id, Code>, codes': map<Id, Code>) {
    forall c <- codes :: c in codes' && CodeStep(codes[c], codes'[c])
  }

  ghost predicate GatesEvolve(gates: map<Group, int>, gates': map<Group, int>) {
    forall g <- gates :: g in gates' && gates[g] <= gates'[g]
  }

  ghost predicate Evolves(db: Db, db': Db) {
    && DraftsEvolve(db.drafts, db'.drafts)
    && OrdersEvolve(db.orders, db'.orders)
    && RequestsEvolve(db.requests, db'.requests)
    && CodesEvolve(db.codes, db'.codes)
    && GatesEvolve(db.gates, db'.gates)
    && db.events <= db'.events
  }

  lemma Reflexive(db: Db)
    ensures Evolves(db, db)
  {
  }

  // ---------- Arguments the services supply ----------

  /** What the services guarantee about the arguments of a transaction, on top of their types. */
  ghost predicate Faithful(db: Db, tx: Tx) {
    match tx
    case TxSaveDraft(_, draft, _) => draft.terms.quantity > 0.0
    case TxFinishSubmission(_, version, r, _, _) =>
      version == 1 && (r.brokerOrderId.Some? ==> Stripped(r.brokerOrderId.value))
    case TxCreateRequest(k, reviewed, _, _, _) =>
      Current(db, k, reviewed.version) ==> SameReview(db.orders[k], reviewed)
    case TxMarkAttempted(requestId) => CodeSpentFor(db.codes, requestId)
    case TxFinishReconciliation(k, _, version, state, f, _) =>
      state != Submitting && (Current(db, k, version) ==> FindingFits(db.orders[k], f))
    case _ => true
  }

  ghost predicate CodeSpentFor(codes: map<Id, Code>, requestId: Id) {
    exists c <- codes :: codes[c].requestId == Some(requestId) && codes[c].consumedAt.Some?
  }

  predicate Current(db: Db, k: Id, version: int) {
    k in db.orders && db.orders[k].version == version && db.orders[k].state != Submitting
  }

  predicate SameReview(o: Order, reviewed: Order) {
    o.state == reviewed.state && o.fill == reviewed.fill && o.terms == reviewed.terms
  }

  /** The broker id and provider time of a finding do not contradict the record, and reconciliation
      never starts a cancellation. */
  predicate FindingFits(o: Order, f: Finding) {
    && (f.state == CancelPending ==> o.state == CancelPending)
    && (f.brokerOrderId.Some? ==> Stripped(f.brokerOrderId.value))
    && (f.brokerOrderId.Some? && f.brokerOrderId.value != "" && o.brokerOrderId.Some? ==>
        f.brokerOrderId == o.brokerOrderId)
    && (f.providerUpdatedAt.Some? && o.providerUpdatedAt.Some? ==>
        o.providerUpdatedAt.value <= f.providerUpdatedAt.value)
  }
}
