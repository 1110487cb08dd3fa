/** What callers may rely on in every run of the order store. */
module OrderTheorems {
  import opened Common
  import opened Orders
  import opened Journal
  import opened Database
  import opened Invariants
  import opened Preservation
  import opened WriteSets
  import opened Reconciliation
  import opened Runs

  lemma InvAt(h: seq<Db>, txs: seq<Tx>, i: nat)
    requires IsRun(h, txs) && i < |h|
    ensures Inv(h[i])
  {
    hide Inv, IsRun, Evolves;
    RunIsHealthy(h, txs);
  }

  lemma StepAt(h: seq<Db>, txs: seq<Tx>, i: nat)
    requires IsRun(h, txs) && i < |txs|
    ensures i + 1 < |h| && Answerable(h[i], txs[i]) && h[i + 1] == Apply(h[i], txs[i])
    ensures Inv(h[i]) && Inv(h[i + 1]) && Evolves(h[i], h[i + 1])
  {
    hide Inv, Evolves, Apply, Answerable, Served;
    RunIsHealthy(h, txs);
  }

  // ---------- The audit log ----------

  /** The log is the record: at any later moment j, the part of the log that existed at moment i still
      replays, unbroken, to every order as it was at i. */
  lemma LogReplaysEveryPastRecord(h: seq<Db>, txs: seq<Tx>, i: nat, j: nat, k: Id)
    requires IsRun(h, txs) && i <= j < |h| && k in h[i].orders
    ensures h[i].events <= h[j].events
    ensures Replay(h[j].events[..|h[i].events|], k) == LedgerOf(h[i].orders[k])
  {
    hide IsRun, Evolves, Healthy, DraftsOk, OrdersOk, RequestsOk, CodesOk, AttemptsOk, GatesOk, Grounded;
    RunIsHealthy(h, txs);
    HistoryEvents(h, i, j);
    assert h[j].events[..|h[i].events|] == h[i].events;
    InvAt(h, txs, i);
  }

  // ---------- States, versions, fills ----------

  /** Every committed change of a record is an edge of the state table (or a reconciliation that keeps
      the state) and adds exactly one to the version; everything else leaves state, version and fill
      alone. New orders start at version 1 in Submitting. */
  lemma ChangesFollowTheTable(h: seq<Db>, txs: seq<Tx>, i: nat, k: Id)
    requires IsRun(h, txs) && i < |txs| && k in h[i + 1].orders
    ensures k !in h[i].orders ==> h[i + 1].orders[k].state == Submitting && h[i + 1].orders[k].version == 1
    ensures k in h[i].orders ==>
              var o, o' := h[i].orders[k], h[i + 1].orders[k];
              || (o'.state == o.state && o'.version == o.version && o'.fill == o.fill && o'.updatedAt == o.updatedAt)
              || (&& o'.version == o.version + 1
                  && (CanTransition(o.state, o'.state) || (o'.state == o.state && txs[i].TxFinishReconciliation?)))
    ensures h[i + 1].orders[k].version == 1 <==> h[i + 1].orders[k].state == Submitting
  {
    hide IsRun, Inv, Apply, Run, Answerable, DraftsEvolve, RequestsEvolve, CodesEvolve, GatesEvolve;
    StepAt(h, txs, i);
    OrderOkIn(h[i + 1], k);
    if k in h[i].orders {
      assert OrderStep(h[i].orders[k], h[i + 1].orders[k]);
      if !txs[i].TxFinishReconciliation? {
        OnlyReconciliationKeepsState(h[i], txs[i], k);
      }
    }
  }

  lemma OnlyReconciliationKeepsState(db: Db, tx: Tx, k: Id)
    requires Answerable(db, tx) && k in db.orders && !tx.TxFinishReconciliation? && k in Apply(db, tx).orders
    ensures var o, o' := db.orders[k], Apply(db, tx).orders[k];
            o'.version == o.version || CanTransition(o.state, o'.state)
  {
    hide RecoverOne, FinishSubmission, BeginCancellation, FinishCancellation, ResolveCancellation, LatestAttempt,
         IsTarget;
    if Written(tx) != Some(k) {
      OtherOrdersUntouched(db, tx, k);
    } else {
      match tx
      case TxMarkStarted(_, _, _) =>
      case TxRecoverOne(x, now) => RecoverOneWrites(db, x, now);
      case TxFinishSubmission(x, version, r, now, actor) => FinishSubmissionWrites(db, x, version, r, now, actor);
      case TxBeginCancellation(x, version, state, attemptId, now, actor, found) =>
        BeginCancellationWrites(db, x, version, state, attemptId, now, actor, found);
      case TxFinishCancellation(x, attemptId, seen, now, actor, found) =>
        FinishCancellationWrites(db, x, attemptId, seen, now, actor, found);
    }
  }

  /** An order only ever descends: versions, times and fills grow, a known broker id never changes, a
      terminal state is final, an unchanged version means an unchanged record, and an order that
      reaches Filled other than by its submission is filled completely. */
  lemma OrdersOnlyDescend(h: seq<Db>, txs: seq<Tx>, i: nat, j: nat, k: Id)
    requires IsRun(h, txs) && i <= j < |h| && k in h[i].orders
    ensures k in h[j].orders && Descends(h[i].orders[k], h[j].orders[k]) && OrderOk(h[j].orders[k])
  {
    RunIsHealthy(h, txs);
    HistoryDescends(h, i, j, k);
  }

  /** One draft never yields two orders. */
  lemma OneOrderPerDraft(h: seq<Db>, txs: seq<Tx>, i: nat, j: nat, a: Id, b: Id)
    requires IsRun(h, txs) && i <= j < |h| && a in h[i].orders && b in h[j].orders
    requires h[i].orders[a].draftId == h[j].orders[b].draftId
    ensures a == b
  {
    RunIsHealthy(h, txs);
    HistoryDescends(h, i, j, a);
    InvAt(h, txs, j);
    hide IsRun, Healthy, JournalOk, RequestsOk, CodesOk, AttemptsOk, GatesOk;
  }

  /** A submission that reports Filled leaves the fill complete exactly when it carries a fill; without
      one, the order is Filled with nothing recorded. */
  lemma FilledBySubmission(db: Db, k: Id, r: Submitted, now: int, actor: Actor)
    requires k in db.orders && OrderOk(db.orders[k]) && r.state == Filled
    requires FinishSubmission(db, k, 1, r, now, actor).1 == Done
    ensures var o' := FinishSubmission(db, k, 1, r, now, actor).0.orders[k];
            && o'.state == Filled
            && (o'.Filled() == Some(o'.terms.quantity) <==> r.fill.Some?)
            && (r.fill.None? ==> o'.fill.None?)
  {
    FinishSubmissionWrites(db, k, 1, r, now, actor);
    hide FinishSubmission;
  }

  // ---------- Pending cancellations ----------

  /** The record a run's reconciliation was planned for is the one it writes. */
  lemma PlannedForThisRecord(h: seq<Db>, tx: Tx)
    requires h != [] && Healthy(h) && tx.TxFinishReconciliation? && Served(h, tx)
    requires Current(h[|h| - 1], tx.k, tx.expectedVersion)
    ensures var o := h[|h| - 1].orders[tx.k];
            tx.finding == KeepFinding(o, Refused) || exists answer, plan ::
              PlannedFor(o, answer, plan) && tx.finding == PlanFinding(o, plan)
  {
    hide Healthy, Inv, Evolves, OrderOk, PlannedFor, PlanFinding, KeepFinding;
    var k, last := tx.k, h[|h| - 1];
    var i, j :| 0 <= i <= j < |h| && ClaimedAndPlanned(h[i], h[j], k, tx.expectedVersion, tx.expectedState, tx.finding);
    HistoryDescends(h, j, j, k);
    HistoryDescends(h, j, |h| - 1, k);
    CurrentMeansUnchanged(h[j], last, k);
  }

  /** Only the finish of a cancellation takes an order from CancelPending back to Accepted or
      PartiallyFilled: in no run does a reconciliation do it, however stale the record it started from and
      whatever the broker answered. */
  lemma OnlyItsFinishReopensPending(h: seq<Db>, txs: seq<Tx>, n: nat, k: Id)
    requires IsRun(h, txs) && n < |txs| && k in h[n].orders && h[n].orders[k].state == CancelPending
    requires !txs[n].TxFinishCancellation?
    ensures k in h[n + 1].orders
    ensures h[n + 1].orders[k].state != Accepted && h[n + 1].orders[k].state != PartiallyFilled
  {
    hide Inv, Evolves, Run, IsTarget, OrderOk;
    RunIsHealthy(h, txs);
    var db, tx := h[n], txs[n];
    assert Served(h[..n + 1], tx) && h[n + 1] == Apply(db, tx);
    OrderOkIn(db, k);
    if Written(tx) != Some(k) {
      OtherOrdersUntouched(db, tx, k);
    } else if tx.TxFinishReconciliation? {
      PrefixIsHealthy(h, n);
      ReconciliationKeepsPending(h[..n + 1], tx);
    } else {
      PendingUntouched(db, tx);
    }
  }

  lemma PrefixIsHealthy(h: seq<Db>, n: nat)
    requires Healthy(h) && n < |h|
    ensures Healthy(h[..n + 1]) && h[..n + 1][n] == h[n]
  {
    hide Inv, Evolves;
  }

  lemma ReconciliationKeepsPending(h: seq<Db>, tx: Tx)
    requires h != [] && Healthy(h) && tx.TxFinishReconciliation? && Served(h, tx)
    requires tx.k in h[|h| - 1].orders && h[|h| - 1].orders[tx.k].state == CancelPending
    ensures var orders' := Apply(h[|h| - 1], tx).orders;
            tx.k in orders' && orders'[tx.k].state != Accepted && orders'[tx.k].state != PartiallyFilled
  {
    hide Healthy, Inv, FinishReconciliation, PlannedFor, PlanFinding, FindingError, FindingFill, Served;
    var db, k := h[|h| - 1], tx.k;
    FinishReconciliationWrites(db, k, tx.attemptId, tx.expectedVersion, tx.expectedState, tx.finding, tx.now);
    if Current(db, k, tx.expectedVersion) {
      PlannedForThisRecord(h, tx);
      var o := db.orders[k];
      if tx.finding != KeepFinding(o, Refused) {
        var answer, plan :| PlannedFor(o, answer, plan) && tx.finding == PlanFinding(o, plan);
        PendingIsNotReopened(o, answer, plan);
      }
    }
  }

  /** Recovery, submission results and new attempts leave a pending order as it is. */
  lemma PendingUntouched(db: Db, tx: Tx)
    requires tx.TxMarkStarted? || tx.TxRecoverOne? || (tx.TxFinishSubmission? && tx.expectedVersion == 1)
             || tx.TxBeginCancellation?
    requires Answerable(db, tx) && tx.k in db.orders && OrderOk(db.orders[tx.k])
             && db.orders[tx.k].state == CancelPending
    ensures Apply(db, tx).orders == db.orders
  {
    hide Commit, LatestAttempt, IsTarget;
  }

  // ---------- What reconciliation may find ----------

  /** An order that was syncable when a service read it can always keep its state later: it settles as
      Filled only with its whole quantity, so recording "unchanged" is never refused. */
  lemma KeepingIsNeverRefused(h: seq<Db>, txs: seq<Tx>, i: nat, j: nat, k: Id, outcome: Outcome)
    requires IsRun(h, txs) && i <= j < |h| && k in h[i].orders && Syncable(h[i].orders[k].state)
    ensures k in h[j].orders && h[j].orders[k].state != Submitting
    ensures h[j].orders[k].state == Filled ==> h[j].orders[k].Filled() == Some(h[j].orders[k].terms.quantity)
    ensures FindingError(h[j].orders[k], KeepFinding(h[j].orders[k], outcome)).None?
  {
    hide Inv, Evolves, Served, Run, FindingError;
    RunIsHealthy(h, txs);
    HistoryDescends(h, i, j, k);
    KeepFailsExactlyForUnfilledFilled(h[j].orders[k], outcome);
  }

  // ---------- Cancellation requests and codes ----------

  /** The review behind a cancellation is never stale: an active request, and a code that can still be
      consumed, describe the order exactly as it is now, and the order can still be canceled. */
  lemma ReviewsAreFresh(h: seq<Db>, txs: seq<Tx>, i: nat)
    requires IsRun(h, txs) && i < |h|
    ensures var db := h[i];
            forall id <- db.requests | Active(db.requests[id].status) ::
              var r := db.requests[id];
              && r.orderId in db.orders
              && r.expectedVersion == db.orders[r.orderId].version
              && r.expectedState == db.orders[r.orderId].state
              && r.fingerprint == PrintOf(r.orderId, db.orders[r.orderId])
              && db.orders[r.orderId].CanCancel()
    ensures var db := h[i];
            forall a <- db.requests, b <- db.requests ::
              && Active(db.requests[a].status) && Active(db.requests[b].status)
              && db.requests[a].orderId == db.requests[b].orderId
              ==> a == b
    ensures var db := h[i];
            forall c <- db.codes | db.codes[c].action == CancelAction && Usable(db.codes[c]) ::
              && db.codes[c].requestId.Some? && db.codes[c].requestId.value in db.requests
              && var r := db.requests[db.codes[c].requestId.value];
              && r.status == Authorized
              && r.orderId in db.orders
              && db.codes[c].payload == PrintOf(r.orderId, db.orders[r.orderId])
  {
    InvAt(h, txs, i);
    var db := h[i];
    hide IsRun, JournalOk, OrdersOk, AttemptsOk, GatesOk;
    forall c <- db.codes | db.codes[c].action == CancelAction && Usable(db.codes[c])
      ensures db.codes[c].requestId.Some? && db.codes[c].requestId.value in db.requests
      ensures db.requests[db.codes[c].requestId.value].status == Authorized
      ensures RequestOk(db.requests[db.codes[c].requestId.value], db.orders)
      ensures db.codes[c].payload == db.requests[db.codes[c].requestId.value].fingerprint
    {
      assert CodeOk(db.codes[c], db.requests, db.drafts);
    }
    forall id <- db.requests ensures RequestOk(db.requests[id], db.orders) {
    }
  }

  /** So the owner's approval of a pending request never finds it out of date: it fails only because
      the request is missing, decided, expired or misquoted (or a fresh identifier is taken). */
  lemma ApprovalNeverFindsStaleRequest(db: Db, requestId: Id, expected: Fingerprint, codeId: Id, now: int,
                                       expiresAt: int)
    requires Inv(db)
    ensures var reply := AuthorizeRequest(db, requestId, expected, codeId, now, expiresAt).1;
            && reply != Failed(RequestStale) && reply != Failed(OrderNotCancelable)
            && (reply == Done <==>
                  && requestId in db.requests && db.requests[requestId].status == Pending
                  && now <= db.requests[requestId].expiresAt
                  && expected == PrintOf(db.requests[requestId].orderId, db.orders[db.requests[requestId].orderId])
                  && codeId !in db.codes)
  {
    hide JournalOk, OrdersOk, AttemptsOk, GatesOk, CodesOk;
    if requestId in db.requests {
      assert RequestOk(db.requests[requestId], db.orders);
    }
  }

  predicate SameTarget(c: Code, d: Code) {
    c.action == d.action && c.draftId == d.draftId && c.requestId == d.requestId
  }

  /** A code's life: consumed at most once and at one time, never usable again after being spent,
      withdrawn or failed five times, and at most one usable code per draft or per request. */
  lemma CodesAreSpentOnce(h: seq<Db>, txs: seq<Tx>, i: nat, j: nat, c: Id)
    requires IsRun(h, txs) && i <= j < |h| && c in h[i].codes
    ensures c in h[j].codes && CodeStep(h[i].codes[c], h[j].codes[c])
    ensures h[j].codes[c].failedAttempts <= MAX_FAILURES
    ensures Usable(h[j].codes[c]) ==> h[j].codes[c].failedAttempts < MAX_FAILURES
    ensures forall d <- h[j].codes ::
              SameTarget(h[j].codes[c], h[j].codes[d]) && Usable(h[j].codes[c]) && Usable(h[j].codes[d]) ==> c == d
  {
    RunIsHealthy(h, txs);
    HistoryCodes(h, i, j, c);
    InvAt(h, txs, j);
    hide IsRun, Healthy, JournalOk, OrdersOk, RequestsOk, AttemptsOk, GatesOk;
    forall d <- h[j].codes ensures CodeOk(h[j].codes[d], h[j].requests, h[j].drafts) {
    }
  }

  /** Of any number of consumers of one code, whatever runs in between, at most one is told yes. */
  lemma AtMostOneConsumer(h: seq<Db>, txs: seq<Tx>, i: nat, j: nat)
    requires IsRun(h, txs) && i < j < |txs|
    requires txs[i].TxConsumeCode? && txs[j].TxConsumeCode? && txs[i].codeId == txs[j].codeId
    requires Run(h[i], txs[i]).1 == Answer(true)
    ensures Run(h[j], txs[j]).1 == Answer(false)
  {
    hide IsRun, Healthy, Inv, Evolves, Run, Apply, Answerable;
    StepAt(h, txs, i);
    StepAt(h, txs, j);
    ConsumedIsSpent(h[i], txs[i]);
    RunIsHealthy(h, txs);
    HistoryCodes(h, i + 1, j, txs[i].codeId);
    SpentIsRefused(h[j], txs[j]);
  }

  lemma ConsumedIsSpent(db: Db, tx: Tx)
    requires tx.TxConsumeCode? && Run(db, tx).1 == Answer(true)
    ensures tx.codeId in Apply(db, tx).codes && !Usable(Apply(db, tx).codes[tx.codeId])
  {
  }

  lemma SpentIsRefused(db: Db, tx: Tx)
    requires tx.TxConsumeCode? && tx.codeId in db.codes && !Usable(db.codes[tx.codeId])
    ensures Run(db, tx).1 == Answer(false)
  {
  }

  /** The order state "Filled" does not always come with its quantity: a submission result that says
      Filled and carries no fill is recorded as it is. */
  lemma FilledWithoutFillIsAccepted(db: Db, k: Id, now: int, actor: Actor)
    requires k in db.orders && OrderOk(db.orders[k]) && db.orders[k].version == 1
    ensures var r := Submitted(Filled, Some("broker-1"), Some("filled"), None, FromProvider);
            var (db', reply) := FinishSubmission(db, k, 1, r, now, actor);
            reply == Done && k in db'.orders && db'.orders[k].state == Filled && db'.orders[k].fill.None?
  {
    FinishSubmissionWrites(db, k, 1, Submitted(Filled, Some("broker-1"), Some("filled"), None, FromProvider), now,
                           actor);
    hide Commit, EventCode, DraftExpiryLogged;
  }

  /** A code is spent, or withdrawn, but not both. */
  predicate OneMark(c: Code) {
    c.consumedAt.None? || c.invalidation.None?
  }

  ghost predicate OneMarkEach(codes: map<Id, Code>) {
    forall c <- codes :: OneMark(codes[c])
  }

  /** Nothing happens to a code but that a usable one is withdrawn; new codes are usable and count no failures. */
  predicate OnlyWithdrawn(codes: map<Id, Code>, c: Id, after: Code) {
    if c in codes then after == codes[c] || (Usable(codes[c]) && after == codes[c].(invalidation := after.invalidation))
    else Usable(after) && after.failedAttempts == 0
  }

  ghost predicate OnlyWithdraws(codes: map<Id, Code>, codes': map<Id, Code>) {
    codes.Keys <= codes'.Keys && forall c <- codes' :: OnlyWithdrawn(codes, c, codes'[c])
  }

  lemma InvalidateOnlyWithdraws(db: Db, k: Id, reason: Reason, now: int, actor: Actor, only: Option<Id>)
    ensures OnlyWithdraws(db.codes, InvalidateRequests(db, k, reason, now, actor, only).codes)
  {
  }

  lemma CommitOnlyWithdraws(db: Db, k: Id, o': Order, before: seq<Event>, reason: Reason, actor: Actor,
                            status: seq<Event>)
    ensures OnlyWithdraws(db.codes, Commit(db, k, o', before, reason, actor, status).codes)
  {
    InvalidateOnlyWithdraws(db.(orders := db.orders[k := o'], events := db.events + before), k, reason, o'.updatedAt,
                            actor, None);
    hide InvalidateRequests;
  }

  lemma UnchangedOnlyWithdraws(codes: map<Id, Code>)
    ensures OnlyWithdraws(codes, codes)
  {
  }

  lemma WritersOnlyWithdraw(db: Db, tx: Tx)
    requires Answerable(db, tx)
    requires tx.TxRecoverOne? || tx.TxFinishSubmission? || tx.TxBeginCancellation? || tx.TxFinishCancellation?
             || tx.TxFinishReconciliation?
    ensures OnlyWithdraws(db.codes, Apply(db, tx).codes)
  {
    hide Commit, OnlyWithdraws, LatestAttempt, IsTarget, ResolveCancellation, FindingError, FindingFill, EventCode,
         SubmittedFill,
         DraftExpiryLogged, AttemptLogged, SelfAuthorization, ReconciliationEvents, Successors, FinishedOrder,
           ReconciledOrder, ResolvedOrder;
    UnchangedOnlyWithdraws(db.codes);
    forall k: Id, o': Order, before: seq<Event>, reason: Reason, actor: Actor, status: seq<Event>
      ensures OnlyWithdraws(db.codes, Commit(db, k, o', before, reason, actor, status).codes)
    {
      CommitOnlyWithdraws(db, k, o', before, reason, actor, status);
    }
  }

  lemma IssueOnlyWithdraws(codes: map<Id, Code>, action: Option<Action>, draftId: Option<Id>, requestId: Option<Id>,
                           codeId: Id, code: Code)
    requires codeId !in codes && Usable(code) && code.failedAttempts == 0
    ensures OnlyWithdraws(codes, SupersedeCodes(codes, action, draftId, requestId)[codeId := code])
  {
  }

  lemma RequestsOnlyWithdraw(db: Db, tx: Tx)
    requires tx.TxCreateRequest? || tx.TxInvalidateAll? || tx.TxAuthorizeRequest? || tx.TxReadRequest?
             || tx.TxExpireRequest?
             || tx.TxMarkAttempted? || tx.TxCreateSubmitCode?
    ensures OnlyWithdraws(db.codes, Apply(db, tx).codes)
  {
    hide InvalidateRequests, SupersedeCodes, OnlyWithdraws;
    UnchangedOnlyWithdraws(db.codes);
    forall k: Id, reason: Reason, now: int, actor: Actor, only: Option<Id>
      ensures OnlyWithdraws(db.codes, InvalidateRequests(db, k, reason, now, actor, only).codes)
    {
      InvalidateOnlyWithdraws(db, k, reason, now, actor, only);
    }
    if tx.TxAuthorizeRequest? && tx.requestId in db.requests && tx.codeId !in db.codes {
      IssueOnlyWithdraws(db.codes, None, None, Some(tx.requestId), tx.codeId,
                         CancelCode(db.requests[tx.requestId], tx.requestId, tx.now, tx.expiresAt));
    }
    if tx.TxCreateSubmitCode? && tx.draftId in db.drafts && tx.codeId !in db.codes {
      var d := db.drafts[tx.draftId];
      IssueOnlyWithdraws(db.codes, Some(SubmitAction), Some(tx.draftId), None, tx.codeId,
                         Code(SubmitAction, Some(tx.draftId), None, None, DraftPrint(d.fingerprint), d.terms.accountId,
                              tx.now, tx.expiresAt, None, None, 0));
    }
  }

  /** Every transaction but a consumption and a recorded failure only withdraws codes. */
  lemma MostTransactionsOnlyWithdraw(db: Db, tx: Tx)
    requires Answerable(db, tx) && !tx.TxConsumeCode? && !tx.TxRecordFailure?
    ensures OnlyWithdraws(db.codes, Apply(db, tx).codes)
  {
    hide LatestAttempt, IsTarget, OnlyWithdraws;
    if tx.TxRecoverOne? || tx.TxFinishSubmission? || tx.TxBeginCancellation? || tx.TxFinishCancellation?
      || tx.TxFinishReconciliation? {
      hide Run, Apply;
      WritersOnlyWithdraw(db, tx);
    } else if tx.TxCreateRequest? || tx.TxInvalidateAll? || tx.TxAuthorizeRequest? || tx.TxReadRequest?
      || tx.TxExpireRequest?
              || tx.TxMarkAttempted? || tx.TxCreateSubmitCode? {
      hide Run, Apply;
      RequestsOnlyWithdraw(db, tx);
    } else {
      UnchangedOnlyWithdraws(db.codes);
    }
  }

  /** The marks exclude each other except through one unguarded write: while every code has one mark, a
      transaction gives a code both exactly when it records an expiry failure against a spent code. */
  lemma MarksExcludeEachOtherExactly(db: Db, tx: Tx)
    requires Answerable(db, tx) && OneMarkEach(db.codes)
    ensures OneMarkEach(Apply(db, tx).codes) <==>
            !(tx.TxRecordFailure? && tx.failure == AuthorizationExpired
              && tx.code.Some? && tx.code.value in db.codes && db.codes[tx.code.value].consumedAt.Some?)
  {
    if tx.TxRecordFailure? {
      FailureMarks(db, tx);
    } else if tx.TxConsumeCode? {
      hide LatestAttempt, IsTarget;
    } else {
      hide Run, Apply;
      MostTransactionsOnlyWithdraw(db, tx);
    }
  }

  lemma FailureMarks(db: Db, tx: Tx)
    requires tx.TxRecordFailure? && OneMarkEach(db.codes)
    ensures OneMarkEach(Apply(db, tx).codes) <==>
            !(tx.failure == AuthorizationExpired
              && tx.code.Some? && tx.code.value in db.codes && db.codes[tx.code.value].consumedAt.Some?)
  {
    var codes := Apply(db, tx).codes;
    if tx.code.Some? && tx.code.value in db.codes {
      var c := tx.code.value;
      assert codes == db.codes[c := FailedCode(db.codes[c], tx.failure)];
      assert OneMark(db.codes[c]);
      assert c in codes && OneMark(codes[c]) == OneMark(FailedCode(db.codes[c], tx.failure));
    } else {
      assert codes == db.codes;
    }
  }

  /** Every spent code was spent by the time it expires. */
  ghost predicate SpentInTime(codes: map<Id, Code>) {
    forall c <- codes :: codes[c].consumedAt.Some? ==> codes[c].consumedAt.value <= codes[c].expiresAt
  }

  lemma OneCodeInTime(codes: map<Id, Code>, c: Id, code: Code)
    requires SpentInTime(codes) && (code.consumedAt.Some? ==> code.consumedAt.value <= code.expiresAt)
    ensures SpentInTime(codes[c := code])
  {
  }

  /** Only a consumption can break that, and only a late one. */
  lemma OnlyLateConsumptionIsLate(db: Db, tx: Tx)
    requires Answerable(db, tx) && SpentInTime(db.codes)
    requires tx.TxConsumeCode? && tx.codeId in db.codes ==> tx.now <= db.codes[tx.codeId].expiresAt
    ensures SpentInTime(Apply(db, tx).codes)
  {
    if tx.TxConsumeCode? {
      ConsumedInTime(db, tx);
    } else if tx.TxRecordFailure? {
      FailedInTime(db, tx);
    } else {
      hide Run, Apply, Answerable;
      MostTransactionsOnlyWithdraw(db, tx);
    }
  }

  lemma ConsumedInTime(db: Db, tx: Tx)
    requires tx.TxConsumeCode? && SpentInTime(db.codes)
    requires tx.codeId in db.codes ==> tx.now <= db.codes[tx.codeId].expiresAt
    ensures SpentInTime(Apply(db, tx).codes)
  {
    if tx.codeId in db.codes {
      var code := db.codes[tx.codeId].(consumedAt := Some(tx.now));
      OneCodeInTime(db.codes, tx.codeId, code);
      hide SpentInTime;
    }
  }

  lemma FailedInTime(db: Db, tx: Tx)
    requires tx.TxRecordFailure? && SpentInTime(db.codes)
    ensures SpentInTime(Apply(db, tx).codes)
  {
    if tx.code.Some? && tx.code.value in db.codes {
      var code := FailedCode(db.codes[tx.code.value], tx.failure);
      assert db.codes[tx.code.value].consumedAt == code.consumedAt
        && db.codes[tx.code.value].expiresAt == code.expiresAt;
      OneCodeInTime(db.codes, tx.code.value, code);
      hide SpentInTime;
    }
  }
}
