/** What goes through when nothing interferes: an approved cancellation from request to provider, and a run
    that gets an order there. */
module Lifecycles {
  import opened Common
  import opened Orders
  import opened Journal
  import opened Database
  import opened Invariants
  import opened Preservation
  import opened WriteSets
  import opened Runs
  import opened OrderTheorems

  /** A request stays open exactly until its expiry: the owner's approval, quoting the order as reviewed,
      goes through up to that moment and is refused after it. */
  lemma RequestOpensUntilExpiry(db: Db, k: Id, requestId: Id, now: int, expiresAt: int, later: int, codeId: Id,
                                codeExpiry: int)
    requires Inv(db) && k in db.orders && db.orders[k].CanCancel() && requestId !in db.requests && codeId !in db.codes
    ensures var o := db.orders[k];
            var (created, reply) := CreateRequest(db, k, o, requestId, now, expiresAt);
            && reply == Done
            && AuthorizeRequest(created, requestId, PrintOf(k, o), codeId, later, codeExpiry).1
               == if later <= expiresAt then Done else Failed(RequestExpired)
  {
    hide Inv, Order.CanCancel, InvalidationEvents, SupersedeCodes;
  }

  /** The approval's code can be spent, for the order as reviewed and until the expiry it was given. */
  lemma ApprovalIssuesWorkingCode(db: Db, requestId: Id, expected: Fingerprint, codeId: Id, now: int, expiresAt: int,
                                  spentAt: int)
    requires AuthorizeRequest(db, requestId, expected, codeId, now, expiresAt).1 == Done
    ensures var approved := AuthorizeRequest(db, requestId, expected, codeId, now, expiresAt).0;
            && approved.orders == db.orders && approved.events[..|db.events|] == db.events
            && codeId in approved.codes && Usable(approved.codes[codeId])
            && approved.codes[codeId].payload == expected && approved.codes[codeId].expiresAt == expiresAt
            && ConsumeCode(approved, codeId, spentAt).1 == Answer(true)
  {
    hide InvalidateRequests, Order.CanCancel;
  }

  lemma ApprovalLeavesAttempts(db: Db, requestId: Id, expected: Fingerprint, codeId: Id, now: int, expiresAt: int,
                               k: Id, attemptId: Id)
    requires AuthorizeRequest(db, requestId, expected, codeId, now, expiresAt).1 == Done
             && !AttemptLogged(db.events, k, attemptId)
    ensures !AttemptLogged(AuthorizeRequest(db, requestId, expected, codeId, now, expiresAt).0.events, k, attemptId)
  {
    hide InvalidateRequests, Order.CanCancel, SupersedeCodes;
  }

  /** An approved cancellation goes through: reviewed, requested, approved in time and spent, it moves the
      very order that was reviewed to CancelPending under a fresh attempt. */
  lemma ApprovedCancellationStarts(db: Db, k: Id, requestId: Id, codeId: Id, attemptId: Id, expiresAt: int,
                                   codeExpiry: int,
                                   t0: int, t1: int, t2: int, t3: int, found: Option<nat>)
    requires Inv(db) && k in db.orders && db.orders[k].CanCancel() && requestId !in db.requests && codeId !in db.codes
    requires !AttemptLogged(db.events, k, attemptId) && t1 <= expiresAt
    requires var o := db.orders[k];
             var created := CreateRequest(db, k, o, requestId, t0, expiresAt).0;
             var approved := AuthorizeRequest(created, requestId, PrintOf(k, o), codeId, t1, codeExpiry).0;
             var spent := MarkAttempted(ConsumeCode(approved, codeId, t2).0, requestId).0;
             LatestAttempt(spent.events, k, found)
    ensures var o := db.orders[k];
            var created := CreateRequest(db, k, o, requestId, t0, expiresAt).0;
            var approved := AuthorizeRequest(created, requestId, PrintOf(k, o), codeId, t1, codeExpiry).0;
            var spent := MarkAttempted(ConsumeCode(approved, codeId, t2).0, requestId).0;
            var (started, reply) := BeginCancellation(spent, k, o.version, o.state, attemptId, t3, Mcp, found);
            && reply == CancelReply(Some(attemptId), true)
            && k in started.orders && started.orders[k] == PendingOrder(o, t3)
  {
    hide Inv, Order.CanCancel, CreateRequest, AuthorizeRequest, AttemptLogged, LatestAttempt, BeginCancellation;
    var o := db.orders[k];
    var created := CreateRequest(db, k, o, requestId, t0, expiresAt).0;
    RequestOpensUntilExpiry(db, k, requestId, t0, expiresAt, t1, codeId, codeExpiry);
    CreatingLeavesOrders(db, k, o, requestId, t0, expiresAt, attemptId);
    ApprovalIssuesWorkingCode(created, requestId, PrintOf(k, o), codeId, t1, codeExpiry, t2);
    ApprovalLeavesAttempts(created, requestId, PrintOf(k, o), codeId, t1, codeExpiry, k, attemptId);
    var approved := AuthorizeRequest(created, requestId, PrintOf(k, o), codeId, t1, codeExpiry).0;
    var spent := MarkAttempted(ConsumeCode(approved, codeId, t2).0, requestId).0;
    SpendingLeavesAttempts(approved, codeId, t2, requestId, k, attemptId);
    BeginCancellationWrites(spent, k, o.version, o.state, attemptId, t3, Mcp, found);
    StartsWhenCurrent(spent, k, attemptId, t3, Mcp, found);
  }

  lemma CreatingLeavesOrders(db: Db, k: Id, reviewed: Order, requestId: Id, now: int, expiresAt: int, attemptId: Id)
    requires !AttemptLogged(db.events, k, attemptId)
    ensures var created := CreateRequest(db, k, reviewed, requestId, now, expiresAt).0;
            created.orders == db.orders && !AttemptLogged(created.events, k, attemptId)
  {
    hide Order.CanCancel, ActiveRequests, WithdrawRequests, WithdrawCodes;
  }

  lemma SpendingLeavesAttempts(db: Db, codeId: Id, now: int, requestId: Id, k: Id, attemptId: Id)
    requires !AttemptLogged(db.events, k, attemptId)
    ensures var spent := MarkAttempted(ConsumeCode(db, codeId, now).0, requestId).0;
            spent.orders == db.orders && !AttemptLogged(spent.events, k, attemptId)
  {
  }

  lemma StartsWhenCurrent(db: Db, k: Id, attemptId: Id, now: int, actor: Actor, found: Option<nat>)
    requires LatestAttempt(db.events, k, found) && k in db.orders && db.orders[k].CanCancel()
             && !AttemptLogged(db.events, k, attemptId)
    ensures var o := db.orders[k];
            BeginCancellation(db, k, o.version, o.state, attemptId, now, actor, found).1
              == CancelReply(Some(attemptId), true)
  {
    hide LatestAttempt, AttemptLogged, Commit;
  }

  // ---------- When each step goes through ----------

  lemma SameRecord(h: seq<Db>, txs: seq<Tx>, i: nat, j: nat, k: Id)
    requires IsRun(h, txs) && i <= j < |h| && k in h[i].orders
    ensures k in h[j].orders
    ensures h[j].orders[k].version == h[i].orders[k].version && h[j].orders[k].state != Submitting ==>
              h[j].orders[k] == h[i].orders[k]
  {
    hide IsRun, Inv, Evolves, OrderOk, Descends, Healthy;
    OrdersOnlyDescend(h, txs, i, j, k);
    OrdersOnlyDescend(h, txs, i, i, k);
    if h[j].orders[k].version == h[i].orders[k].version && h[j].orders[k].state != Submitting {
      CurrentMeansUnchanged(h[i], h[j], k);
    }
  }

  /** What a created request says, and what creating it does to the others. */
  ghost predicate RequestIsCreated(db: Db, db': Db, k: Id, requestId: Id, now: int, expiresAt: int) {
    && k in db.orders && db'.orders == db.orders && requestId in db'.requests
    && var r, o := db'.requests[requestId], db.orders[k];
    && r.orderId == k && r.status == Pending && r.createdAt == now && r.expiresAt == expiresAt
    && r.expectedVersion == o.version && r.expectedState == o.state && r.accountId == o.terms.accountId
    && r.fingerprint == PrintOf(k, o) && r.invalidation.None?
    && forall id <- db.requests ::
         && id in db'.requests && id != requestId
         && if db.requests[id].orderId == k && Active(db.requests[id].status)
            then !Active(db'.requests[id].status) && db'.requests[id].invalidation == Some(Superseded)
            else db'.requests[id] == db.requests[id]
  }

  /** A request for a cancellation is created if and only if the order is still exactly as the caller read it, can
      be canceled, and the identifier is new; it then replaces the order's active request and no other. */
  lemma RequestsAreCreatedExactly(h: seq<Db>, txs: seq<Tx>, i: nat, j: nat, k: Id, requestId: Id, now: int,
                                  expiresAt: int)
    requires IsRun(h, txs) && i <= j < |h| && k in h[i].orders
    ensures k in h[j].orders
    ensures var reviewed := h[i].orders[k];
            var (db', reply) := CreateRequest(h[j], k, reviewed, requestId, now, expiresAt);
            && (reply == Done <==>
                  h[j].orders[k] == reviewed && reviewed.CanCancel() && requestId !in h[j].requests)
            && (reply == Done ==> RequestIsCreated(h[j], db', k, requestId, now, expiresAt))
            && (reply != Done ==> db' == h[j])
  {
    hide IsRun, InvalidateRequests, RequestIsCreated;
    SameRecord(h, txs, i, j, k);
    NotWhileSubmitting(h[j].orders[k]);
    hide Order.CanCancel;
    if CreateRequest(h[j], k, h[i].orders[k], requestId, now, expiresAt).1 == Done {
      CreatingReplaces(h[j], k, requestId, now, expiresAt);
    }
  }

  lemma NotWhileSubmitting(o: Order)
    ensures o.CanCancel() ==> o.state != Submitting
  {
    CancelableExactly(o);
  }

  lemma CreatingReplaces(db: Db, k: Id, requestId: Id, now: int, expiresAt: int)
    requires k in db.orders && CreateRequest(db, k, db.orders[k], requestId, now, expiresAt).1 == Done
    ensures RequestIsCreated(db, CreateRequest(db, k, db.orders[k], requestId, now, expiresAt).0, k, requestId, now,
                             expiresAt)
  {
    hide Order.CanCancel, InvalidationEvents, WithdrawCodes;
  }

  /** A cancellation starts if and only if the order is still exactly as the caller read it, can be canceled, and
      the attempt's identifier is new. */
  lemma CancellationsStartExactly(h: seq<Db>, txs: seq<Tx>, i: nat, j: nat, k: Id, attemptId: Id, now: int,
                                  actor: Actor, found: Option<nat>)
    requires IsRun(h, txs) && i <= j < |h| && k in h[i].orders && LatestAttempt(h[j].events, k, found)
    ensures k in h[j].orders
    ensures var read := h[i].orders[k];
            BeginCancellation(h[j], k, read.version, read.state, attemptId, now, actor, found).1
              == CancelReply(Some(attemptId), true)
            <==> h[j].orders[k] == read && read.CanCancel() && !AttemptLogged(h[j].events, k, attemptId)
  {
    hide IsRun, LatestAttempt, AttemptLogged, Commit;
    SameRecord(h, txs, i, j, k);
    NotWhileSubmitting(h[j].orders[k]);
    CancelableExactly(h[j].orders[k]);
    hide Order.CanCancel;
  }

  /** A submit code is issued exactly for a draft that exists, under a new identifier; it can be used once, for that
      draft and until its expiry, and replaces the draft's usable codes and no others. */
  lemma SubmitCodeIsIssued(db: Db, codeId: Id, draftId: Id, now: int, expiresAt: int)
    ensures var (db', reply) := CreateSubmitCode(db, codeId, draftId, now, expiresAt);
            && (reply == Done <==> draftId in db.drafts && codeId !in db.codes)
            && (reply != Done ==> db' == db)
            && (reply == Done ==>
                  && codeId in db'.codes
                  && var code := db'.codes[codeId];
                  && code.action == SubmitAction && code.draftId == Some(draftId) && code.requestId.None?
                  && code.payload == DraftPrint(db.drafts[draftId].fingerprint)
                  && code.accountId == db.drafts[draftId].terms.accountId
                  && code.createdAt == now && code.expiresAt == expiresAt && code.failedAttempts == 0
                  && code.consumedAt.None? && code.invalidation.None?
                  && forall c <- db.codes ::
                       && c in db'.codes && c != codeId
                       && db'.codes[c] ==
                          if Usable(db.codes[c]) && db.codes[c].action == SubmitAction
                             && db.codes[c].draftId == Some(draftId)
                          then db.codes[c].(invalidation := Some(Superseded)) else db.codes[c])
  {
  }

  /** Reading a request retires it, with its usable codes, exactly when it is still active past its expiry. */
  lemma ReadingExpires(db: Db, requestId: Id, now: int)
    ensures var db' := ReadRequest(db, requestId, now).0;
            if requestId in db.requests && Active(db.requests[requestId].status)
              && now > db.requests[requestId].expiresAt
            then
              && requestId in db'.requests && db'.requests[requestId].status == ExpiredRequest
              && (forall id <- db.requests | id != requestId ::
                    id in db'.requests && db'.requests[id] == db.requests[id])
              && (forall c <- db.codes ::
                    && c in db'.codes
                    && db'.codes[c] == if Usable(db.codes[c]) && db.codes[c].requestId == Some(requestId)
                                       then db.codes[c].(invalidation := Some(PastExpiry)) else db.codes[c])
            else db' == db
  {
    hide InvalidationEvents;
  }
}
