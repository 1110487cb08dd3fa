/** Which order record a transaction may write, and when. */
module WriteSets {
  import opened Common
  import opened Orders
  import opened Journal
  import opened Database

  lemma InvalidateKeepsOrders(db: Db, k: Id, reason: Reason, now: int, actor: Actor, only: Option<Id>)
    ensures InvalidateRequests(db, k, reason, now, actor, only).orders == db.orders
  {
  }

  lemma CommitOrders(db: Db, k: Id, o': Order, before: seq<Event>, reason: Reason, actor: Actor, status: seq<Event>)
    ensures Commit(db, k, o', before, reason, actor, status).orders == db.orders[k := o']
  {
    InvalidateKeepsOrders(db.(orders := db.orders[k := o'], events := db.events + before), k, reason, o'.updatedAt,
                          actor, None);
    hide InvalidateRequests;
  }

  /** Only the record of k differs. */
  predicate WritesOnly(orders: map<Id, Order>, orders': map<Id, Order>, k: Id) {
    k in orders && k in orders' && orders' == orders[k := orders'[k]]
  }

  lemma RecoverOneWrites(db: Db, k: Id, now: int)
    ensures var orders' := RecoverOne(db, k, now).0.orders;
            orders' == db.orders || (WritesOnly(db.orders, orders', k)
                                     && CanTransition(db.orders[k].state, orders'[k].state))
  {
    hide Commit;
    forall o': Order, status: seq<Event> ensures Commit(db, k, o', [], StateChanged, System, status).orders
      == db.orders[k := o'] {
      CommitOrders(db, k, o', [], StateChanged, System, status);
    }
  }

  lemma FinishSubmissionWrites(db: Db, k: Id, version: int, r: Submitted, now: int, actor: Actor)
    ensures var (db', reply) := FinishSubmission(db, k, version, r, now, actor);
            && (reply != Done ==> db' == db)
            && (reply == Done ==>
                  && WritesOnly(db.orders, db'.orders, k)
                  && db.orders[k].version == version && CanTransition(db.orders[k].state, r.state)
                  && SubmittedFill(db.orders[k], r).Some?
                  && db'.orders[k] == FinishedOrder(db.orders[k], r, SubmittedFill(db.orders[k], r).value, now))
  {
    hide Commit, SubmittedFill, EventCode, DraftExpiryLogged;
    forall o': Order, status: seq<Event> ensures Commit(db, k, o', [], StateChanged, System, status).orders
      == db.orders[k := o'] {
      CommitOrders(db, k, o', [], StateChanged, System, status);
    }
  }

  lemma BeginCancellationWrites(db: Db, k: Id, version: int, state: OrderState, attemptId: Id, now: int, actor: Actor,
                                found: Option<nat>)
    requires LatestAttempt(db.events, k, found)
    ensures var (db', reply) := BeginCancellation(db, k, version, state, attemptId, now, actor, found);
            && (reply != CancelReply(Some(attemptId), true) ==> db' == db)
            && (reply == CancelReply(Some(attemptId), true) ==>
                  && WritesOnly(db.orders, db'.orders, k)
                  && db.orders[k].version == version && db.orders[k].state == state && db.orders[k].CanCancel()
                  && !AttemptLogged(db.events, k, attemptId)
                  && db'.orders[k] == PendingOrder(db.orders[k], now))
  {
    hide Commit, LatestAttempt, AttemptLogged, SelfAuthorization;
    forall o': Order, before: seq<Event>, status: seq<Event>
      ensures Commit(db, k, o', before, CancellationStarted, actor, status).orders == db.orders[k := o']
    {
      CommitOrders(db, k, o', before, CancellationStarted, actor, status);
    }
  }

  lemma FinishCancellationWrites(db: Db, k: Id, attemptId: Id, seen: CancellationObservation, now: int, actor: Actor,
                                 found: Option<nat>)
    requires LatestAttempt(db.events, k, found)
    ensures var db' := FinishCancellation(db, k, attemptId, seen, now, actor, found).0;
            db' == db || (
              && WritesOnly(db.orders, db'.orders, k) && db.orders[k].state == CancelPending
              && var r := ResolveCancellation(db.orders[k].terms.quantity, db.orders[k].Filled(), seen);
              && CanTransition(CancelPending, r.state)
              && db'.orders[k] == ResolvedOrder(db.orders[k], r, now))
  {
    hide Commit, ResolveCancellation, EventCode;
    forall o': Order, reason: Reason,
      status: seq<Event> ensures Commit(db, k, o', [], reason, actor, status).orders == db.orders[k := o'] {
      CommitOrders(db, k, o', [], reason, actor, status);
    }
  }

  lemma FinishReconciliationWrites(db: Db, k: Id, attemptId: Id, version: int, state: OrderState, f: Finding, now: int)
    ensures var (db', reply) := FinishReconciliation(db, k, attemptId, version, state, f, now);
            && (reply != Done ==> db' == db)
            && (reply == Done ==>
                  && WritesOnly(db.orders, db'.orders, k)
                  && db.orders[k].version == version && db.orders[k].state == state
                  && FindingError(db.orders[k], f).None?
                  && db'.orders[k] == ReconciledOrder(db.orders[k], f, FindingFill(db.orders[k], f), now))
  {
    hide Commit, FindingError, FindingFill, ReconciliationEvents;
    forall o': Order, reason: Reason,
      status: seq<Event> ensures Commit(db, k, o', [], reason, System, status).orders == db.orders[k := o'] {
      CommitOrders(db, k, o', [], reason, System, status);
    }
  }

  /** The order a transaction writes, if it writes one that existed. */
  function Written(tx: Tx): Option<Id> {
    match tx
    case TxMarkStarted(k, _, _) => Some(k)
    case TxRecoverOne(k, _) => Some(k)
    case TxFinishSubmission(k, _, _, _, _) => Some(k)
    case TxBeginCancellation(k, _, _, _, _, _, _) => Some(k)
    case TxFinishCancellation(k, _, _, _, _, _) => Some(k)
    case TxFinishReconciliation(k, _, _, _, _, _) => Some(k)
    case _ => None
  }

  /** Transactions on cancellation requests write no order. */
  predicate OnRequests(tx: Tx) {
    || tx.TxCreateRequest? || tx.TxInvalidateAll? || tx.TxAuthorizeRequest? || tx.TxReadRequest? || tx.TxExpireRequest?
    || tx.TxMarkAttempted?
  }

  lemma AuthorizationKeepsOrders(db: Db, requestId: Id, expected: Fingerprint, codeId: Id, now: int, expiresAt: int)
    ensures AuthorizeRequest(db, requestId, expected, codeId, now, expiresAt).0.orders == db.orders
  {
    hide InvalidateRequests;
    if requestId in db.requests {
      var x := db.requests[requestId].orderId;
      InvalidateKeepsOrders(db, x, PastExpiry, now, Mcp, Some(requestId));
      InvalidateKeepsOrders(db, x, StateChanged, now, Dashboard, None);
      InvalidateKeepsOrders(db, x, NotCancelable, now, Dashboard, None);
    }
  }

  lemma RequestsKeepOrders(db: Db, tx: Tx)
    requires OnRequests(tx)
    ensures Apply(db, tx).orders == db.orders
  {
    hide InvalidateRequests, AuthorizeRequest;
    match tx
    case TxCreateRequest(x, _, _, now, _) => InvalidateKeepsOrders(db, x, Superseded, now, Mcp, None);
    case TxInvalidateAll(x, reason, now) => InvalidateKeepsOrders(db, x, reason, now, System, None);
    case TxAuthorizeRequest(requestId, expected, codeId, now, expiresAt) =>
      AuthorizationKeepsOrders(db, requestId, expected, codeId, now, expiresAt);
    case TxReadRequest(requestId, now) =>
      if requestId in db.requests {
        InvalidateKeepsOrders(db, db.requests[requestId].orderId, PastExpiry, now, System, Some(requestId));
      }
    case TxExpireRequest(requestId, now) =>
      if requestId in db.requests {
        InvalidateKeepsOrders(db, db.requests[requestId].orderId, PastExpiry, now, Mcp, Some(requestId));
      }
    case TxMarkAttempted(_) =>
  }

  lemma RestKeepsOthers(db: Db, tx: Tx, k: Id)
    requires Answerable(db, tx) && k in db.orders && Written(tx) != Some(k) && !OnRequests(tx)
    requires Written(tx).None? || tx.TxMarkStarted?
    ensures k in Apply(db, tx).orders && Apply(db, tx).orders[k] == db.orders[k]
  {
    hide InvalidateRequests, SupersedeCodes, IsTarget, LatestAttempt;
  }

  lemma OtherOrdersUntouched(db: Db, tx: Tx, k: Id)
    requires Answerable(db, tx) && k in db.orders && Written(tx) != Some(k)
    ensures k in Apply(db, tx).orders && Apply(db, tx).orders[k] == db.orders[k]
  {
    hide RecoverOne, FinishSubmission, BeginCancellation, FinishCancellation, FinishReconciliation, LatestAttempt;
    hide CanTransition, SubmittedFill, FinishedOrder, PendingOrder, ResolveCancellation, ResolvedOrder, FindingFill;
    hide FindingError, ReconciledOrder, AttemptLogged;
    match tx
    case TxRecoverOne(x, now) => RecoverOneWrites(db, x, now);
    case TxFinishSubmission(x, version, r, now, actor) => FinishSubmissionWrites(db, x, version, r, now, actor);
    case TxBeginCancellation(x, version, state, attemptId, now, actor, found) =>
      BeginCancellationWrites(db, x, version, state, attemptId, now, actor, found);
    case TxFinishCancellation(x, attemptId, seen, now, actor, found) =>
      FinishCancellationWrites(db, x, attemptId, seen, now, actor, found);
    case TxFinishReconciliation(x, attemptId, version, state, f, now) =>
      FinishReconciliationWrites(db, x, attemptId, version, state, f, now);
    case _ =>
      hide Apply;
      if OnRequests(tx) {
        RequestsKeepOrders(db, tx);
      } else {
        RestKeepsOthers(db, tx, k);
      }
  }
}
