/** Every event the transactions write is one its readers accept. */
module AuditWriters {
  import opened Common
  import opened Orders
  import opened Journal
  import opened Database
  import opened Invariants
  import opened WriteSets
  import opened Runs
  import opened EventCodec
  import opened AuditReadability

  ghost predicate AllSound(events: seq<Event>) {
    forall e <- events :: Sound(e)
  }

  ghost predicate UuidKeys(keys: set<Id>) {
    forall id <- keys :: UuidText(id)
  }

  /** All events are sound, and requests and codes are keyed by UUID texts. */
  ghost predicate Readable(db: Db) {
    AllSound(db.events) && UuidKeys(db.requests.Keys) && UuidKeys(db.codes.Keys)
  }

  /** The identifiers a transaction draws from uuid4, and the reasons its callers give. */
  predicate FreshUuids(tx: Tx) {
    match tx
    case TxBeginSubmission(_, _, _, authorizationId, _, _) => UuidText(authorizationId)
    case TxCreateRequest(_, _, requestId, _, _) => UuidText(requestId)
    case TxInvalidateAll(_, reason, _) => reason == StateChanged || reason == NotCancelable
    case TxAuthorizeRequest(_, _, codeId, _, _) => UuidText(codeId)
    case TxBeginCancellation(_, _, _, attemptId, _, _, _) => UuidText(attemptId)
    case TxFinishCancellation(_, attemptId, _, _, _, _) => UuidText(attemptId)
    case TxClaim(_, attemptId, _, _) => UuidText(attemptId)
    case TxClaimPlanned(_, attemptId, _, _, _) => UuidText(attemptId)
    case TxFinishReconciliation(_, attemptId, _, _, _, _) => UuidText(attemptId)
    case TxCreateSubmitCode(codeId, _, _, _) => UuidText(codeId)
    case TxRecordFailure(_, _, _, _, _, attemptId, _) => UuidText(attemptId)
    case _ => true
  }

  lemma Appended(events: seq<Event>, more: seq<Event>)
    requires AllSound(events) && AllSound(more)
    ensures AllSound(events + more)
  {
    hide Sound;
  }

  lemma InvalidateIsReadable(db: Db, k: Id, reason: Reason, now: int, actor: Actor, only: Option<Id>)
    requires Readable(db) && reason != MaxAttempts
    ensures Readable(InvalidateRequests(db, k, reason, now, actor, only))
  {
    hide UuidKeys, AllSound, InvalidateRequests;
    InvalidateKeepsKeys(db, k, reason, now, actor, only);
    InvalidateKeepsSound(db, k, reason, now, actor, only);
  }

  lemma InvalidateKeepsKeys(db: Db, k: Id, reason: Reason, now: int, actor: Actor, only: Option<Id>)
    ensures var db' := InvalidateRequests(db, k, reason, now, actor, only);
            db'.requests.Keys == db.requests.Keys && db'.codes.Keys == db.codes.Keys
  {
    hide ActiveRequests, InvalidationEvents, WithdrawnRequest, Usable;
  }

  lemma InvalidateKeepsSound(db: Db, k: Id, reason: Reason, now: int, actor: Actor, only: Option<Id>)
    requires Readable(db) && reason != MaxAttempts
    ensures AllSound(InvalidateRequests(db, k, reason, now, actor, only).events)
  {
    hide UuidKeys, AllSound, InvalidationEvents, WithdrawRequests, WithdrawCodes;
    var hits := ActiveRequests(db, k, only);
    if k in db.orders {
      WithdrawalsAreSound(db, k, hits, reason, now, actor);
      Appended(db.events, InvalidationEvents(db.orders[k], k, hits, reason, now, actor));
    } else {
      assert db.events + [] == db.events;
    }
  }

  lemma WithdrawalsAreSound(db: Db, k: Id, hits: set<Id>, reason: Reason, now: int, actor: Actor)
    requires Readable(db) && reason != MaxAttempts && hits <= db.requests.Keys && k in db.orders
    ensures AllSound(InvalidationEvents(db.orders[k], k, hits, reason, now, actor))
  {
    hide UuidText, InvalidationEvents, KNOWN_CODES, AllSound;
    var events := InvalidationEvents(db.orders[k], k, hits, reason, now, actor);
    forall e <- events ensures Sound(e) {
      var id :| id in hits && e == InvalidationEvent(db.orders[k], k, id, reason, now, actor);
      assert id in db.requests.Keys;
    }
    SoundEach(events);
  }

  lemma SoundEach(events: seq<Event>)
    requires forall e <- events :: Sound(e)
    ensures AllSound(events)
  {
    hide Sound;
  }

  lemma CommitIsReadable(db: Db, k: Id, o': Order, before: seq<Event>, reason: Reason, actor: Actor, status: seq<Event>)
    requires Readable(db) && reason != MaxAttempts && AllSound(before) && AllSound(status)
    ensures Readable(Commit(db, k, o', before, reason, actor, status))
  {
    hide AllSound, UuidKeys, InvalidateRequests;
    var written := db.(orders := db.orders[k := o'], events := db.events + before);
    Appended(db.events, before);
    InvalidateIsReadable(written, k, reason, o'.updatedAt, actor, None);
    var quiet := InvalidateRequests(written, k, reason, o'.updatedAt, actor, None);
    Appended(quiet.events, status);
  }

  lemma EventCodeIsKnown(code: Option<string>, state: OrderState)
    ensures EventCode(code, state) in KNOWN_CODES
  {
  }

  lemma OutcomeCodeIsKnown(outcome: Outcome)
    ensures OutcomeCode(outcome) in KNOWN_CODES
  {
    hide OutcomeText;
  }

  lemma FixedCodesAreKnown()
    ensures "unknown" in KNOWN_CODES && "draft_expired" in KNOWN_CODES && "authorization_invalid" in KNOWN_CODES
  {
  }

  lemma OneSound(e: Event)
    requires Sound(e)
    ensures AllSound([e])
  {
  }

  lemma SelfAuthorizationIsSound(k: Id, draftId: Id, authorizationId: Id, action: Action, actor: Actor, now: int)
    requires UuidText(authorizationId)
    ensures AllSound(SelfAuthorization(k, draftId, authorizationId, action, actor, now))
  {
    hide UuidText;
  }

  // ---------- The writers ----------

  lemma BeginSubmissionReadable(db: Db, draftId: Id, k: Id, clientOrderId: string, authorizationId: Id, now: int,
                                actor: Actor)
    requires Readable(db) && UuidText(authorizationId)
    ensures Readable(BeginSubmission(db, draftId, k, clientOrderId, authorizationId, now, actor).0)
  {
    hide AllSound, UuidKeys, UuidText, SelfAuthorization, KNOWN_CODES;
    var grant := SelfAuthorization(k, draftId, authorizationId, SubmitAction, actor, now);
    SelfAuthorizationIsSound(k, draftId, authorizationId, SubmitAction, actor, now);
    Appended(db.events, grant);
    if draftId in db.drafts {
      var started := OrderEvent(NewOrder(draftId, db.drafts[draftId], clientOrderId, now), k, SubmissionStarted, actor,
                                None, Some(Submitting), None, NoDetails, now);
      OneSound(started);
      Appended(db.events + grant, [started]);
    }
  }

  lemma RecoverOneReadable(db: Db, k: Id, now: int)
    requires Readable(db)
    ensures Readable(RecoverOne(db, k, now).0)
  {
    hide Commit, Readable;
    if k in db.orders && db.orders[k].state == Submitting {
      var o' := RecoveredOrder(db.orders[k], now);
      var e := OrderEvent(o', k, StatusTransition, System, Some(Submitting), Some(Unknown), Some("unknown"),
                          Status(FromSystem, None), o'.updatedAt);
      FixedCodesAreKnown();
      OneSound(e);
      NoneSound();
      hide AllSound;
      CommitIsReadable(db, k, o', [], StateChanged, System, [e]);
    }
  }

  lemma NoneSound()
    ensures AllSound([])
  {
  }

  lemma FinishSubmissionReadable(db: Db, k: Id, version: int, r: Submitted, now: int, actor: Actor)
    requires Readable(db)
    ensures Readable(FinishSubmission(db, k, version, r, now, actor).0)
  {
    hide Commit, Readable, DraftExpiryLogged, EventCode, KNOWN_CODES, Successors, FinishedOrder, AllSound;
    if k in db.orders && SubmittedFill(db.orders[k], r).Some? {
      var o := db.orders[k];
      var fill := SubmittedFill(o, r).value;
      var o' := FinishedOrder(o, r, fill, now);
      var kind := if o.state == Submitting then SubmissionResult else StatusTransition;
      var result := OrderEvent(o', k, kind, actor, Some(o.state), Some(r.state), Some(EventCode(r.code, r.state)),
                               Status(r.source, fill), o'.updatedAt);
      assert Printable(fill);
      hide SubmittedFill;
      EventCodeIsKnown(r.code, r.state);
      OneSound(result);
      NoneSound();
      FixedCodesAreKnown();
      CommitIsReadable(db, k, o', [], StateChanged, System, [result] + []) by { Appended([result], []); }
      if o.draftId in db.drafts {
        var expiry := OrderEvent(o', k, DraftExpired, actor, None, None, Some("draft_expired"),
                                 Expiry(db.drafts[o.draftId].expiresAt), o'.updatedAt);
        OneSound(expiry);
        Appended([result], [expiry]);
        CommitIsReadable(db, k, o', [], StateChanged, System, [result] + [expiry]);
      }
    }
  }

  lemma BeginCancellationReadable(db: Db, k: Id, version: int, state: OrderState, attemptId: Id, now: int, actor: Actor,
                                  found: Option<nat>)
    requires Readable(db) && LatestAttempt(db.events, k, found) && UuidText(attemptId)
    requires k in db.orders ==> Printable(db.orders[k].fill)
    ensures Readable(BeginCancellation(db, k, version, state, attemptId, now, actor, found).0)
  {
    hide Commit, Readable, LatestAttempt, AttemptLogged, AllSound, UuidText, SelfAuthorization, KNOWN_CODES,
         Order.CanCancel;
    if k in db.orders {
      var o := db.orders[k];
      var o' := PendingOrder(o, now);
      var grant := SelfAuthorization(k, o.draftId, attemptId, CancelAction, actor, now);
      var attempt := AttemptEvent(o, k, attemptId, actor, now);
      var moved := OrderEvent(o', k, StatusTransition, actor, Some(o.state), Some(CancelPending), None,
                              Status(FromLocal, o'.fill), o'.updatedAt);
      SelfAuthorizationIsSound(k, o.draftId, attemptId, CancelAction, actor, now);
      OneSound(attempt);
      OneSound(moved);
      Appended(grant, [attempt]);
      CommitIsReadable(db, k, o', grant + [attempt], CancellationStarted, actor, [moved]);
    }
  }

  lemma FinishCancellationReadable(db: Db, k: Id, attemptId: Id, seen: CancellationObservation, now: int, actor: Actor,
                                   found: Option<nat>)
    requires Readable(db) && LatestAttempt(db.events, k, found) && UuidText(attemptId)
    requires k in db.orders ==> Printable(db.orders[k].fill)
    ensures Readable(FinishCancellation(db, k, attemptId, seen, now, actor, found).0)
  {
    hide Commit, Readable, LatestAttempt, AllSound, UuidText, KNOWN_CODES, ResolveCancellation, EventCode, Successors,
         ResolvedOrder;
    if k in db.orders {
      var o := db.orders[k];
      var r := ResolveCancellation(o.terms.quantity, o.Filled(), seen);
      var o' := ResolvedOrder(o, r, now);
      ResolvedFillIsPrintable(o, seen, now);
      var result := OrderEvent(o', k, CancellationResult, actor, Some(CancelPending), Some(r.state),
                               Some(EventCode(Some(KindCode(r.kind)), r.state)),
                                 CancelOutcome(attemptId, KindOutcome(r.kind)), o'.updatedAt);
      var moved := OrderEvent(o', k, StatusTransition, actor, Some(CancelPending), Some(r.state), None,
                              Status(KindSource(r.kind), o'.fill), o'.updatedAt);
      EventCodeIsKnown(Some(KindCode(r.kind)), r.state);
      OneSound(result);
      OneSound(moved);
      Appended([result], [moved]);
      assert [result] + [moved] == [result, moved];
      NoneSound();
      CommitIsReadable(db, k, o', [], OrderBecame(r.state), actor, [result, moved]);
    }
  }

  lemma ResolvedFillIsPrintable(o: Order, seen: CancellationObservation, now: int)
    requires Printable(o.fill)
    ensures Printable(ResolvedOrder(o, ResolveCancellation(o.terms.quantity, o.Filled(), seen), now).fill)
  {
  }

  lemma FinishReconciliationReadable(db: Db, k: Id, attemptId: Id, version: int, state: OrderState, f: Finding,
                                     now: int)
    requires Readable(db) && UuidText(attemptId)
    ensures Readable(FinishReconciliation(db, k, attemptId, version, state, f, now).0)
  {
    hide Commit, Readable, AllSound, UuidText, KNOWN_CODES, FindingError, OutcomeCode, EventCode, ReconciledOrder,
         ReconciliationEvents;
    if k in db.orders && (f.statusLabel.Some? ==> f.statusLabel.value in STATUS_LABELS) {
      var o := db.orders[k];
      var fill := FindingFill(o, f);
      assert Printable(fill);
      var o' := ReconciledOrder(o, f, fill, now);
      ReconciliationEventsAreSound(o, o', k, attemptId, f, fill);
      NoneSound();
      CommitIsReadable(db, k, o', [], if f.state == o.state then StateChanged else OrderBecame(f.state), System,
                       ReconciliationEvents(o, o', k, attemptId, f, fill));
    }
  }

  lemma ReconciliationEventsAreSound(o: Order, o': Order, k: Id, attemptId: Id, f: Finding, fill: Option<Fill>)
    requires UuidText(attemptId) && Printable(fill) && (f.statusLabel.Some? ==> f.statusLabel.value in STATUS_LABELS)
    ensures AllSound(ReconciliationEvents(o, o', k, attemptId, f, fill))
  {
    hide UuidText, KNOWN_CODES, OutcomeCode, EventCode, STATUS_LABELS, OutcomeText;
    OutcomeCodeIsKnown(f.outcome);
    EventCodeIsKnown(Some(OutcomeText(f.outcome)), f.state);
  }

  lemma InvalidationsAreReadable(db: Db)
    requires Readable(db)
    ensures forall k: Id, reason: Reason, now: int, actor: Actor, only: Option<Id> ::
              reason != MaxAttempts ==> Readable(InvalidateRequests(db, k, reason, now, actor, only))
  {
    hide InvalidateRequests, Readable;
    forall k: Id, reason: Reason, now: int, actor: Actor, only: Option<Id> | reason != MaxAttempts
      ensures Readable(InvalidateRequests(db, k, reason, now, actor, only))
    {
      InvalidateIsReadable(db, k, reason, now, actor, only);
    }
  }

  lemma OneMoreKey(keys: set<Id>, id: Id)
    requires UuidKeys(keys) && UuidText(id)
    ensures UuidKeys(keys + {id})
  {
    hide UuidText;
  }

  lemma CreateRequestReadable(db: Db, k: Id, reviewed: Order, requestId: Id, now: int, expiresAt: int)
    requires Readable(db) && UuidText(requestId)
    ensures Readable(CreateRequest(db, k, reviewed, requestId, now, expiresAt).0)
  {
    hide InvalidateRequests, UuidText, UuidKeys, AllSound, KNOWN_CODES;
    InvalidationsAreReadable(db);
    if k in db.orders {
      var clear := InvalidateRequests(db, k, Superseded, now, Mcp, None);
      var created := OrderEvent(db.orders[k], k, CancellationRequestCreated, Mcp, None, None, None,
                                RequestCreated(requestId, expiresAt), now);
      OneSound(created);
      Appended(clear.events, [created]);
      OneMoreKey(clear.requests.Keys, requestId);
      assert clear.requests[requestId := NewRequest(k, reviewed, now, expiresAt)].Keys
             == clear.requests.Keys + {requestId};
    }
  }

  lemma AuthorizeRequestReadable(db: Db, requestId: Id, expected: Fingerprint, codeId: Id, now: int, expiresAt: int)
    requires Readable(db) && UuidText(codeId)
    ensures Readable(AuthorizeRequest(db, requestId, expected, codeId, now, expiresAt).0)
  {
    hide InvalidateRequests, UuidText, SupersedeCodes, KNOWN_CODES;
    InvalidationsAreReadable(db);
    SupersedeKeepsKeys(db.codes);
  }

  lemma RequestsReadable(db: Db, tx: Tx)
    requires Readable(db) && FreshUuids(tx)
    requires tx.TxCreateRequest? || tx.TxInvalidateAll? || tx.TxAuthorizeRequest? || tx.TxReadRequest?
             || tx.TxExpireRequest? || tx.TxMarkAttempted?
    ensures Readable(Apply(db, tx))
  {
    hide InvalidateRequests, CreateRequest, AuthorizeRequest, UuidText, AllSound;
    if tx.TxCreateRequest? {
      CreateRequestReadable(db, tx.k, tx.reviewed, tx.requestId, tx.now, tx.expiresAt);
    } else if tx.TxAuthorizeRequest? {
      AuthorizeRequestReadable(db, tx.requestId, tx.expected, tx.codeId, tx.now, tx.expiresAt);
    } else {
      InvalidationsAreReadable(db);
    }
  }

  lemma SupersedeKeepsKeys(codes: map<Id, Code>)
    ensures forall action: Option<Action>, draftId: Option<Id>, requestId: Option<Id> ::
              SupersedeCodes(codes, action, draftId, requestId).Keys == codes.Keys
  {
  }

  lemma OthersReadable(db: Db, tx: Tx)
    requires Readable(db) && FreshUuids(tx) && Answerable(db, tx)
    requires tx.TxSaveDraft? || tx.TxMarkStarted? || tx.TxRecordDraftExpiry? || tx.TxClaim? || tx.TxClaimPlanned?
             || tx.TxCreateSubmitCode? || tx.TxRecordFailure? || tx.TxConsumeCode?
    ensures Readable(Apply(db, tx))
  {
    hide UuidText, SupersedeCodes, KNOWN_CODES, FailedCode, DraftExpiryLogged, IsTarget;
    FixedCodesAreKnown();
    SupersedeKeepsKeys(db.codes);
  }

  /** No transaction makes the log unreadable. */
  lemma TransactionStaysReadable(db: Db, tx: Tx)
    requires Inv(db) && Readable(db) && Answerable(db, tx) && FreshUuids(tx)
    ensures Readable(Apply(db, tx))
  {
    hide Readable, UuidText, Inv, BeginSubmission, RecoverOne, FinishSubmission, BeginCancellation, FinishCancellation,
         FinishReconciliation;
    hide LatestAttempt, IsTarget;
    match tx
    case TxBeginSubmission(draftId, k, clientOrderId, authorizationId, now, actor) =>
      BeginSubmissionReadable(db, draftId, k, clientOrderId, authorizationId, now, actor);
    case TxRecoverOne(k, now) => RecoverOneReadable(db, k, now);
    case TxFinishSubmission(k, version, r, now, actor) => FinishSubmissionReadable(db, k, version, r, now, actor);
    case TxBeginCancellation(k, version, state, attemptId, now, actor, found) =>
      StoredFillIsPrintable(db, k);
      BeginCancellationReadable(db, k, version, state, attemptId, now, actor, found);
    case TxFinishCancellation(k, attemptId, seen, now, actor, found) =>
      StoredFillIsPrintable(db, k);
      FinishCancellationReadable(db, k, attemptId, seen, now, actor, found);
    case TxFinishReconciliation(k, attemptId, version, state, f, now) =>
      FinishReconciliationReadable(db, k, attemptId, version, state, f, now);
    case TxCreateRequest(_, _, _, _, _) => RequestsReadable(db, tx);
    case TxInvalidateAll(_, _, _) => RequestsReadable(db, tx);
    case TxAuthorizeRequest(_, _, _, _, _) => RequestsReadable(db, tx);
    case TxReadRequest(_, _) => RequestsReadable(db, tx);
    case TxExpireRequest(_, _) => RequestsReadable(db, tx);
    case TxMarkAttempted(_) => RequestsReadable(db, tx);
    case _ => OthersReadable(db, tx);
  }

  lemma StoredFillIsPrintable(db: Db, k: Id)
    requires Inv(db)
    ensures k in db.orders ==> Printable(db.orders[k].fill)
  {
    if k in db.orders {
      OrderOkIn(db, k);
    }
    hide Inv;
  }

  lemma {:induction false} RunIsReadable(h: seq<Db>, txs: seq<Tx>, i: nat)
    requires IsRun(h, txs) && i < |h| && forall tx <- txs :: FreshUuids(tx)
    ensures Readable(h[i])
    decreases i
  {
    hide Inv, Evolves, Served, Run, Readable, FreshUuids;
    RunIsHealthy(h, txs);
    if i == 0 {
      EmptyIsReadable();
    } else {
      RunIsReadable(h, txs, i - 1);
      assert txs[i - 1] in txs && h[i] == Apply(h[i - 1], txs[i - 1]);
      TransactionStaysReadable(h[i - 1], txs[i - 1]);
    }
  }

  lemma EmptyIsReadable()
    ensures Readable(EMPTY)
  {
  }

  /** In every run, every event in the log was accepted by the encoder when it was written, is accepted
      again when it is read, and reads back as it was stored: no reader ever finds it corrupted. */
  lemma NoEventIsCorrupted(h: seq<Db>, txs: seq<Tx>, i: nat, e: Event, show: int -> string, times: iset<string>)
    requires IsRun(h, txs) && i < |h| && e in h[i].events && (forall tx <- txs :: FreshUuids(tx))
             && PrintsTimes(show, times)
    ensures var stored := Encode(e.kind, Fields(e.details, show), times);
            && stored.Some? && Encode(e.kind, Decode(stored.value), times) == stored
            && (e.code.Some? ==> e.code.value in KNOWN_CODES)
  {
    hide IsRun, FreshUuids, Encode, PrintsTimes, UuidKeys, Fields, KNOWN_CODES;
    RunIsReadable(h, txs, i);
    SoundIsAccepted(e, show, times);
    EncodeDecodeEncode(e.kind, Fields(e.details, show), times);
  }
}
