/** Every transaction keeps the invariant and evolves the database legally. */
module Preservation {
  import opened Common
  import opened Orders
  import opened Journal
  import opened Database
  import opened Invariants
  import opened TableLemmas

  ghost predicate Keeps(db: Db, db': Db) {
    Inv(db') && Evolves(db, db')
  }

  lemma Untouched(db: Db)
    requires Inv(db)
    ensures Keeps(db, db)
  {
    hide Inv;
    Reflexive(db);
  }

  lemma LogKeeps(db: Db, more: seq<Event>)
    requires Inv(db) && Inert(more) && Grounded(more, db.orders)
    ensures Keeps(db, db.(events := db.events + more))
  {
    hide JournalOk, AttemptsOk, GatesOk, RequestsOk, CodesOk, OrdersOk, Inert, Grounded;
    hide OrdersEvolve, RequestsEvolve, CodesEvolve, GatesEvolve, DraftsEvolve;
    InertLog(db, more);
    Reflexive(db);
  }

  /** Changing codes only, and saying so in the log. */
  lemma CodesKeep(db: Db, codes: map<Id, Code>, more: seq<Event>)
    requires Inv(db) && Inert(more) && Grounded(more, db.orders)
    requires CodesOk(codes, db.requests, db.drafts) && CodesEvolve(db.codes, codes)
    ensures Keeps(db, db.(codes := codes, events := db.events + more))
  {
    hide JournalOk, AttemptsOk, GatesOk, RequestsOk, CodesOk, OrdersOk, Inert, Grounded;
    hide OrdersEvolve, RequestsEvolve, CodesEvolve, GatesEvolve, DraftsEvolve;
    LogKeeps(db, more);
  }

  // ---------- Submission ----------

  lemma MoreDrafts(orders: map<Id, Order>, codes: map<Id, Code>, requests: map<Id, Request>, drafts: map<Id, Draft>,
                   d: Id, draft: Draft)
    requires d !in drafts && OrdersOk(orders, drafts) && CodesOk(codes, requests, drafts)
    ensures OrdersOk(orders, drafts[d := draft]) && CodesOk(codes, requests, drafts[d := draft])
    ensures DraftsEvolve(drafts, drafts[d := draft])
  {
    forall c <- codes ensures CodeOk(codes[c], requests, drafts[d := draft]) {
      assert CodeOk(codes[c], requests, drafts);
    }
  }

  lemma SaveDraftKeeps(db: Db, draftId: Id, draft: Draft, actor: Actor)
    requires Inv(db) && draft.terms.quantity > 0.0
    ensures Keeps(db, SaveDraft(db, draftId, draft, actor).0)
  {
    hide JournalOk, AttemptsOk, GatesOk, RequestsOk, CodesOk, OrdersOk;
    hide OrdersEvolve, RequestsEvolve, CodesEvolve, GatesEvolve, DraftsEvolve;
    if draftId !in db.drafts {
      var more := [Event(None, Some(draftId), DraftCreated, actor, None, None, None, NoDetails, draft.createdAt)];
      LogKeeps(db, more);
      MoreDrafts(db.orders, db.codes, db.requests, db.drafts, draftId, draft);
    } else {
      Untouched(db);
    }
  }

  lemma NewOrderJournal(events: seq<Event>, orders: map<Id, Order>, k: Id, o: Order, before: seq<Event>, started: Event)
    requires JournalOk(events, orders) && k !in orders
    requires Inert(before) && About(before, k)
    requires started.orderId == Some(k) && Fold(BLANK, [started], k) == LedgerOf(o)
    ensures JournalOk(events + before + [started], orders[k := o])
  {
    var all, orders' := events + before + [started], orders[k := o];
    forall x <- orders' ensures Replay(all, x) == LedgerOf(orders'[x]) {
      if x == k {
        assert Replay(events, k) == BLANK by { FoldQuiet(BLANK, events, k); }
        ReplayWrite(events, before, [started], k);
      } else {
        ReplayQuiet(events, before, x);
        ReplayQuiet(events + before, [started], x);
      }
    }
  }

  lemma NewOrderRest(db: Db, k: Id, o: Order, more: seq<Event>)
    requires Inv(db) && k !in db.orders && OrderOk(o) && o.state == Submitting && OrderOfDraft(o, db.drafts)
    requires forall x <- db.orders :: db.orders[x].draftId != o.draftId
    requires forall e <- more :: e.kind != CancellationRequested && e.kind != ReconciliationAttempted
    ensures var orders := db.orders[k := o];
            && OrdersOk(orders, db.drafts) && OrdersEvolve(db.orders, orders)
            && RequestsOk(db.requests, orders)
            && AttemptsOk(db.events + more, orders)
            && GatesOk(db.events + more, orders, db.gates)
  {
    hide Inv, OrdersOk, RequestsOk, AttemptsOk, GatesOk, OrderOk, OrderOfDraft, OrdersEvolve;
    InvParts(db);
    NewOrderOrders(db.orders, db.drafts, k, o);
    NewOrderRequests(db.requests, db.orders, k, o);
    InertAttempts(db.events, more, db.orders);
    NewOrderLog(db.events + more, db.orders, db.gates, k, o);
    InertGates(db.events, more, db.orders, db.gates);
  }

  lemma NewOrderOrders(orders: map<Id, Order>, drafts: map<Id, Draft>, k: Id, o: Order)
    requires OrdersOk(orders, drafts) && k !in orders && OrderOk(o) && o.state == Submitting && OrderOfDraft(o, drafts)
    requires forall x <- orders :: orders[x].draftId != o.draftId
    ensures OrdersOk(orders[k := o], drafts) && OrdersEvolve(orders, orders[k := o])
  {
    hide OrderOfDraft;
  }

  lemma NewOrderRequests(requests: map<Id, Request>, orders: map<Id, Order>, k: Id, o: Order)
    requires RequestsOk(requests, orders) && k !in orders
    ensures RequestsOk(requests, orders[k := o])
  {
    hide OneActiveRequest;
    forall id <- requests ensures RequestOk(requests[id], orders[k := o]) {
      assert RequestOk(requests[id], orders);
    }
  }

  /** A new order that is not pending changes nothing about attempts and gates. */
  lemma NewOrderLog(events: seq<Event>, orders: map<Id, Order>, gates: map<Group, int>, k: Id, o: Order)
    requires k !in orders && o.state == Submitting
    ensures AttemptsOk(events, orders) ==> AttemptsOk(events, orders[k := o])
    ensures GatesOk(events, orders, gates) ==> GatesOk(events, orders[k := o], gates)
  {
    hide DistinctAttempts, IsAttempt;
    if GatesOk(events, orders, gates) {
      forall e <- events ensures AttemptBehindGate(e, orders[k := o], gates) {
        assert AttemptBehindGate(e, orders, gates);
      }
    }
  }

  lemma InvParts(db: Db)
    requires Inv(db)
    ensures DraftsOk(db.drafts) && OrdersOk(db.orders, db.drafts) && JournalOk(db.events, db.orders)
    ensures RequestsOk(db.requests, db.orders) && CodesOk(db.codes, db.requests, db.drafts)
    ensures AttemptsOk(db.events, db.orders) && GatesOk(db.events, db.orders, db.gates)
  {
  }

  lemma BegunWrites(db: Db, draftId: Id, k: Id, clientOrderId: string, authorizationId: Id, now: int, actor: Actor)
    ensures var (db', reply) := BeginSubmission(db, draftId, k, clientOrderId, authorizationId, now, actor);
            if reply == Ordered(k, true) then
              && k !in db.orders && draftId in db.drafts && (forall x <- db.orders :: db.orders[x].draftId != draftId)
              && var o := NewOrder(draftId, db.drafts[draftId], clientOrderId, now);
              && db' == db.(orders := db.orders[k := o],
                            events := db.events + SelfAuthorization(k, draftId, authorizationId, SubmitAction, actor,
                                                                    now)
                                      + [StartedEvent(o, k, actor, now)])
            else db' == db
  {
    hide SelfAuthorization;
    if BeginSubmission(db, draftId, k, clientOrderId, authorizationId, now, actor).1 == Ordered(k, true) {
      forall x <- db.orders ensures db.orders[x].draftId != draftId {
        assert !IsOrderFor(db, draftId, x);
      }
    }
  }

  function StartedEvent(o: Order, k: Id, actor: Actor, now: int): Event {
    OrderEvent(o, k, SubmissionStarted, actor, None, Some(Submitting), None, NoDetails, now)
  }

  lemma GrantIsInert(k: Id, draftId: Id, authorizationId: Id, action: Action, actor: Actor, now: int)
    ensures var grant := SelfAuthorization(k, draftId, authorizationId, action, actor, now);
      Inert(grant) && About(grant, k)
  {
  }

  lemma NewOrderFits(db: Db, draftId: Id, clientOrderId: string, now: int)
    requires DraftsOk(db.drafts) && draftId in db.drafts
    ensures var o := NewOrder(draftId, db.drafts[draftId], clientOrderId, now); OrderOk(o) && OrderOfDraft(o, db.drafts)
  {
  }

  lemma NewOrderKeeps(db: Db, k: Id, draftId: Id, clientOrderId: string, now: int, grant: seq<Event>, actor: Actor)
    requires Inv(db) && k !in db.orders && draftId in db.drafts
             && (forall x <- db.orders :: db.orders[x].draftId != draftId)
    requires Inert(grant) && About(grant, k)
    ensures var o := NewOrder(draftId, db.drafts[draftId], clientOrderId, now);
            Keeps(db, db.(orders := db.orders[k := o], events := db.events + grant + [StartedEvent(o, k, actor, now)]))
  {
    hide DraftsOk, OrdersOk, JournalOk, RequestsOk, CodesOk, AttemptsOk, GatesOk, OrderOk, OrderOfDraft;
    hide OrdersEvolve, RequestsEvolve, CodesEvolve, GatesEvolve, DraftsEvolve;
    var o := NewOrder(draftId, db.drafts[draftId], clientOrderId, now);
    var started := StartedEvent(o, k, actor, now);
    FoldOne(BLANK, started, k);
    NewOrderJournal(db.events, db.orders, k, o, grant, started);
    NewOrderFits(db, draftId, clientOrderId, now);
    assert db.events + grant + [started] == db.events + (grant + [started]);
    NewOrderRest(db, k, o, grant + [started]);
    Reflexive(db);
  }

  lemma BeginSubmissionKeeps(db: Db, draftId: Id, k: Id, clientOrderId: string, authorizationId: Id, now: int,
                             actor: Actor)
    requires Inv(db)
    ensures Keeps(db, BeginSubmission(db, draftId, k, clientOrderId, authorizationId, now, actor).0)
  {
    hide Inv, Evolves, BeginSubmission, SelfAuthorization, Keeps, NewOrder, StartedEvent, Inert, About;
    BegunWrites(db, draftId, k, clientOrderId, authorizationId, now, actor);
    if BeginSubmission(db, draftId, k, clientOrderId, authorizationId, now, actor).1 == Ordered(k, true) {
      GrantIsInert(k, draftId, authorizationId, SubmitAction, actor, now);
      NewOrderKeeps(db, k, draftId, clientOrderId, now,
                    SelfAuthorization(k, draftId, authorizationId, SubmitAction, actor, now), actor);
    } else {
      Untouched(db);
    }
  }

  ghost predicate OnlyMarked(o: Order, o': Order) {
    o.state == Submitting && o'.submissionStartedAt.Some? && o' == o.(submissionStartedAt := o'.submissionStartedAt)
  }

  lemma MarkedOrders(orders: map<Id, Order>, drafts: map<Id, Draft>, k: Id, o': Order)
    requires OrdersOk(orders, drafts) && k in orders && OnlyMarked(orders[k], o')
    ensures OrdersOk(orders[k := o'], drafts) && OrdersEvolve(orders, orders[k := o'])
  {
  }

  lemma MarkedJournal(events: seq<Event>, orders: map<Id, Order>, k: Id, o': Order)
    requires JournalOk(events, orders) && k in orders && OnlyMarked(orders[k], o')
    ensures JournalOk(events, orders[k := o'])
  {
  }

  lemma MarkedRequests(requests: map<Id, Request>, orders: map<Id, Order>, k: Id, o': Order)
    requires RequestsOk(requests, orders) && k in orders && OnlyMarked(orders[k], o')
    ensures RequestsOk(requests, orders[k := o'])
  {
    forall id <- requests ensures RequestOk(requests[id], orders[k := o']) {
      assert RequestOk(requests[id], orders);
    }
  }

  lemma MarkedLog(events: seq<Event>, orders: map<Id, Order>, gates: map<Group, int>, k: Id, o': Order)
    requires AttemptsOk(events, orders) && GatesOk(events, orders, gates) && k in orders && OnlyMarked(orders[k], o')
    ensures AttemptsOk(events, orders[k := o']) && GatesOk(events, orders[k := o'], gates)
  {
    hide DistinctAttempts;
    forall e <- events ensures AttemptBehindGate(e, orders[k := o'], gates) {
      assert AttemptBehindGate(e, orders, gates);
    }
  }

  lemma MarkStartedKeeps(db: Db, k: Id, expectedVersion: int, at: int)
    requires Inv(db)
    ensures Keeps(db, MarkStarted(db, k, expectedVersion, at).0)
  {
    hide JournalOk, AttemptsOk, GatesOk, RequestsOk, CodesOk, OrdersOk;
    hide OrdersEvolve, RequestsEvolve, CodesEvolve, GatesEvolve, DraftsEvolve;
    if MarkStarted(db, k, expectedVersion, at).1 == Done {
      var o' := db.orders[k].(submissionStartedAt := Some(at));
      MarkedOrders(db.orders, db.drafts, k, o');
      MarkedJournal(db.events, db.orders, k, o');
      MarkedRequests(db.requests, db.orders, k, o');
      MarkedLog(db.events, db.orders, db.gates, k, o');
    }
    Reflexive(db);
  }

  /** A single status event. */
  lemma FoldOne(l: Ledger, e: Event, k: Id)
    ensures Fold(l, [e], k) == Advance(l, e, k)
  {
    assert [e][1..] == [];
  }

  /** Two events of one write. */
  lemma FoldTwo(l: Ledger, e: Event, f: Event, k: Id)
    ensures Fold(l, [e, f], k) == Advance(Advance(l, e, k), f, k)
  {
    assert [e, f][1..] == [f];
    FoldOne(Advance(l, e, k), f, k);
  }

  lemma OrderInDb(db: Db, k: Id)
    requires Inv(db) && k in db.orders
    ensures OrderOk(db.orders[k])
  {
  }

  lemma RecoverOneKeeps(db: Db, k: Id, now: int)
    requires Inv(db)
    ensures Keeps(db, RecoverOne(db, k, now).0)
  {
    hide Inv, Evolves, Commit;
    if k in db.orders && db.orders[k].state == Submitting {
      OrderInDb(db, k);
      var o := db.orders[k];
      var o' := RecoveredOrder(o, now);
      var e := OrderEvent(o', k, StatusTransition, System, Some(Submitting), Some(Unknown), Some("unknown"),
                          Status(FromSystem, None), o'.updatedAt);
      FoldOne(LedgerOf(o), e, k);
      CommitKeepsInv(db, k, o', [], StateChanged, System, [e]);
    } else {
      Untouched(db);
    }
  }

  lemma FinishedIsWrite(o: Order, r: Submitted, now: int)
    requires OrderOk(o) && o.version == 1 && CanTransition(o.state, r.state) && SubmittedFill(o, r).Some?
    requires r.brokerOrderId.Some? ==> Stripped(r.brokerOrderId.value)
    ensures OrderWrite(o, FinishedOrder(o, r, SubmittedFill(o, r).value, now))
  {
    hide Stripped;
  }

  function ResultEvent(o: Order, o': Order, k: Id, r: Submitted, fill: Option<Fill>, actor: Actor): Event {
    OrderEvent(o', k, SubmissionResult, actor, Some(o.state), Some(r.state), Some(EventCode(r.code, r.state)),
               Status(r.source, fill), o'.updatedAt)
  }

  function ExpiryEvent(db: Db, o: Order, o': Order, k: Id, actor: Actor): Event
    requires o.draftId in db.drafts
  {
    OrderEvent(o', k, DraftExpired, actor, None, None, Some("draft_expired"), Expiry(db.drafts[o.draftId].expiresAt),
               o'.updatedAt)
  }

  /** The events of a submission result, with or without the draft's expiry, record the write. */
  lemma ResultEventsWrite(db: Db, k: Id, o: Order, r: Submitted, now: int, actor: Actor)
    requires o.state == Submitting && SubmittedFill(o, r).Some?
    ensures var fill := SubmittedFill(o, r).value;
            var o' := FinishedOrder(o, r, fill, now);
            var e := ResultEvent(o, o', k, r, fill, actor);
            && (r.state != CancelPending ==> WriteEvents(db.events, k, o, o', [], [e]))
            && (r.state != CancelPending && o.draftId in db.drafts ==>
                  WriteEvents(db.events, k, o, o', [], [e, ExpiryEvent(db, o, o', k, actor)]))
  {
    hide SubmittedFill, EventCode;
    var fill := SubmittedFill(o, r).value;
    var o' := FinishedOrder(o, r, fill, now);
    var e := ResultEvent(o, o', k, r, fill, actor);
    FoldOne(LedgerOf(o), e, k);
    if o.draftId in db.drafts {
      FoldTwo(LedgerOf(o), e, ExpiryEvent(db, o, o', k, actor), k);
    }
  }

  lemma FinishSubmissionKeeps(db: Db, k: Id, r: Submitted, now: int, actor: Actor)
    requires Inv(db)
    requires r.brokerOrderId.Some? ==> Stripped(r.brokerOrderId.value)
    ensures Keeps(db, FinishSubmission(db, k, 1, r, now, actor).0)
  {
    hide Inv, Evolves, Commit, OrderWrite, WriteEvents, SubmittedFill, FinishedOrder, EventCode, DraftExpiryLogged,
         Stripped;
    if FinishSubmission(db, k, 1, r, now, actor).1 == Done {
      var o := db.orders[k];
      OrderInDb(db, k);
      FinishedIsWrite(o, r, now);
      ResultEventsWrite(db, k, o, r, now, actor);
      var fill := SubmittedFill(o, r).value;
      var o' := FinishedOrder(o, r, fill, now);
      var e := ResultEvent(o, o', k, r, fill, actor);
      if r.code == Some("draft_expired") && o.draftId in db.drafts && !DraftExpiryLogged(db, o.draftId) {
        var expiry := ExpiryEvent(db, o, o', k, actor);
        assert [e] + [expiry] == [e, expiry];
        CommitKeepsInv(db, k, o', [], StateChanged, System, [e, expiry]);
      } else {
        assert [e] + [] == [e];
        CommitKeepsInv(db, k, o', [], StateChanged, System, [e]);
      }
    } else {
      Untouched(db);
    }
  }

  lemma RecordDraftExpiryKeeps(db: Db, draftId: Id, now: int)
    requires Inv(db)
    ensures Keeps(db, RecordDraftExpiry(db, draftId, now).0)
  {
    hide Inv, Evolves;
    if RecordDraftExpiry(db, draftId, now).1 == Answer(true) {
      LogKeeps(db, [Event(None, Some(draftId), DraftExpired, Dashboard, None, None, Some("draft_expired"),
                          Expiry(db.drafts[draftId].expiresAt), now)]);
    } else {
      Untouched(db);
    }
  }

  // ---------- Cancellation requests ----------

  lemma RequestsTrans(a: map<Id, Request>, b: map<Id, Request>, c: map<Id, Request>)
    requires RequestsEvolve(a, b) && RequestsEvolve(b, c)
    ensures RequestsEvolve(a, c)
  {
  }

  lemma CodesTrans(a: map<Id, Code>, b: map<Id, Code>, c: map<Id, Code>)
    requires CodesEvolve(a, b) && CodesEvolve(b, c)
    ensures CodesEvolve(a, c)
  {
    forall x <- a ensures x in c && CodeStep(a[x], c[x]) {
      assert CodeStep(a[x], b[x]) && CodeStep(b[x], c[x]);
    }
  }

  /** Two steps in one transaction, when the first leaves orders, drafts and gates alone. */
  lemma KeepsTrans(a: Db, b: Db, c: Db)
    requires Keeps(a, b) && b.orders == a.orders && b.drafts == a.drafts && b.gates == a.gates && Keeps(b, c)
    ensures Keeps(a, c)
  {
    hide Inv, OrdersEvolve, RequestsEvolve, CodesEvolve, GatesEvolve, DraftsEvolve;
    RequestsTrans(a.requests, b.requests, c.requests);
    CodesTrans(a.codes, b.codes, c.codes);
  }

  lemma InvalidateClears(db: Db, k: Id, reason: Reason, now: int, actor: Actor)
    ensures var db' := InvalidateRequests(db, k, reason, now, actor, None);
            && db'.requests.Keys == db.requests.Keys
            && db'.orders == db.orders && db'.drafts == db.drafts && db'.gates == db.gates
            && forall id <- db'.requests :: db'.requests[id].orderId == k ==> !Active(db'.requests[id].status)
  {
  }

  lemma CreateRequestKeeps(db: Db, k: Id, reviewed: Order, requestId: Id, now: int, expiresAt: int)
    requires Inv(db)
    requires Current(db, k, reviewed.version) ==> SameReview(db.orders[k], reviewed)
    ensures Keeps(db, CreateRequest(db, k, reviewed, requestId, now, expiresAt).0)
  {
    hide Inv, Evolves, InvalidateRequests;
    if CreateRequest(db, k, reviewed, requestId, now, expiresAt).1 == Done {
      var o := db.orders[k];
      var mid := InvalidateRequests(db, k, Superseded, now, Mcp, None);
      var more := [OrderEvent(o, k, CancellationRequestCreated, Mcp, None, None, None,
                              RequestCreated(requestId, expiresAt), now)];
      var last := mid.(events := mid.events + more);
      InvalidateClears(db, k, Superseded, now, Mcp);
      InvalidateKeepsInv(db, k, Superseded, now, Mcp, None);
      LogKeeps(mid, more);
      AddRequestKeeps(last, k, requestId, NewRequest(k, reviewed, now, expiresAt));
      KeepsTrans(db, mid, last);
      KeepsTrans(db, last, CreateRequest(db, k, reviewed, requestId, now, expiresAt).0);
    } else {
      Untouched(db);
    }
  }

  lemma AddRequestKeeps(db: Db, k: Id, requestId: Id, r: Request)
    requires Inv(db) && k in db.orders && requestId !in db.requests
    requires forall id <- db.requests :: db.requests[id].orderId == k ==> !Active(db.requests[id].status)
    requires r.orderId == k && r.status == Pending && db.orders[k].CanCancel()
    requires r.expectedVersion == db.orders[k].version && r.expectedState == db.orders[k].state
    requires r.accountId == db.orders[k].terms.accountId && r.fingerprint == PrintOf(k, db.orders[k])
    ensures Keeps(db, db.(requests := db.requests[requestId := r]))
  {
    var requests := db.requests[requestId := r];
    MoreRequests(db, requestId, r);
    hide JournalOk, AttemptsOk, GatesOk, RequestsOk, CodesOk, OrdersOk;
    hide OrdersEvolve, RequestsEvolve, CodesEvolve, GatesEvolve, DraftsEvolve;
    Reflexive(db);
  }

  lemma MoreRequests(db: Db, requestId: Id, r: Request)
    requires RequestsOk(db.requests, db.orders) && CodesOk(db.codes, db.requests, db.drafts)
             && requestId !in db.requests
    requires RequestOk(r, db.orders)
    requires forall id <- db.requests :: db.requests[id].orderId == r.orderId ==> !Active(db.requests[id].status)
    ensures var requests := db.requests[requestId := r];
            && RequestsOk(requests, db.orders) && CodesOk(db.codes, requests, db.drafts)
            && RequestsEvolve(db.requests, requests)
  {
    forall c <- db.codes ensures CodeOk(db.codes[c], db.requests[requestId := r], db.drafts) {
      assert CodeOk(db.codes[c], db.requests, db.drafts);
    }
  }

  lemma AuthorizeRequestKeeps(db: Db, requestId: Id, expected: Fingerprint, codeId: Id, now: int, expiresAt: int)
    requires Inv(db)
    ensures Keeps(db, AuthorizeRequest(db, requestId, expected, codeId, now, expiresAt).0)
  {
    hide Inv, Evolves, InvalidateRequests;
    var (db', reply) := AuthorizeRequest(db, requestId, expected, codeId, now, expiresAt);
    if reply == Failed(RequestExpired) {
      InvalidateKeepsInv(db, db.requests[requestId].orderId, PastExpiry, now, Mcp, Some(requestId));
    } else if reply == Failed(RequestStale) {
      InvalidateKeepsInv(db, db.requests[requestId].orderId, StateChanged, now, Dashboard, None);
    } else if reply == Failed(OrderNotCancelable) {
      InvalidateKeepsInv(db, db.requests[requestId].orderId, NotCancelable, now, Dashboard, None);
    } else if reply == Done {
      var r := db.requests[requestId];
      var more := [OrderEvent(db.orders[r.orderId], r.orderId, AuthorizationCreated, Dashboard, None, None, None,
                              Authorization(codeId, CancelAction), now)];
      LogKeeps(db, more);
      GrantCodeKeeps(db.(events := db.events + more), requestId, codeId, now, expiresAt);
      KeepsTrans(db, db.(events := db.events + more), db');
    } else {
      Untouched(db);
    }
  }

  /** A pending request has no code yet, so superseding its codes finds none. */
  lemma NothingToSupersede(codes: map<Id, Code>, requests: map<Id, Request>, drafts: map<Id, Draft>, requestId: Id)
    requires CodesOk(codes, requests, drafts) && requestId in requests && requests[requestId].status == Pending
    ensures forall c <- codes :: codes[c].requestId != Some(requestId)
    ensures SupersedeCodes(codes, None, None, Some(requestId)) == codes
  {
    forall c <- codes ensures codes[c].requestId != Some(requestId) {
      assert CodeOk(codes[c], requests, drafts);
    }
  }

  lemma AuthorizedRequestOk(requests: map<Id, Request>, orders: map<Id, Order>, requestId: Id)
    requires RequestsOk(requests, orders) && requestId in requests && requests[requestId].status == Pending
    ensures var requests' := requests[requestId := requests[requestId].(status := Authorized)];
            RequestsOk(requests', orders) && RequestsEvolve(requests, requests')
  {
    var requests' := requests[requestId := requests[requestId].(status := Authorized)];
    forall id <- requests' ensures RequestOk(requests'[id], orders) {
      assert RequestOk(requests[id], orders);
    }
  }

  lemma GrantCode(codes: map<Id, Code>, requests: map<Id, Request>, orders: map<Id, Order>, drafts: map<Id, Draft>,
                  requestId: Id, codeId: Id, now: int, expiresAt: int)
    requires CodesOk(codes, requests, drafts) && RequestsOk(requests, orders)
    requires requestId in requests && requests[requestId].status == Pending && codeId !in codes
    ensures var requests' := requests[requestId := requests[requestId].(status := Authorized)];
            var code := CancelCode(requests[requestId], requestId, now, expiresAt);
            var codes' := SupersedeCodes(codes, None, None, Some(requestId))[codeId := code];
            && CodesOk(codes', requests', drafts) && RequestsOk(requests', orders)
            && RequestsEvolve(requests, requests') && CodesEvolve(codes, codes')
  {
    hide SupersedeCodes, RequestsOk, RequestsEvolve;
    NothingToSupersede(codes, requests, drafts, requestId);
    AuthorizedRequestOk(requests, orders, requestId);
    var requests' := requests[requestId := requests[requestId].(status := Authorized)];
    var codes' := codes[codeId := CancelCode(requests[requestId], requestId, now, expiresAt)];
    forall c <- codes' ensures CodeOk(codes'[c], requests', drafts) {
      if c != codeId {
        assert CodeOk(codes[c], requests, drafts);
      }
    }
  }

  lemma GrantCodeKeeps(db: Db, requestId: Id, codeId: Id, now: int, expiresAt: int)
    requires Inv(db) && requestId in db.requests && db.requests[requestId].status == Pending && codeId !in db.codes
    ensures var r := db.requests[requestId];
            Keeps(db, db.(requests := db.requests[requestId := r.(status := Authorized)],
                          codes := SupersedeCodes(db.codes, None, None, Some(requestId))
                                   [codeId := CancelCode(r, requestId, now, expiresAt)]))
  {
    hide JournalOk, AttemptsOk, GatesOk, RequestsOk, CodesOk, OrdersOk, SupersedeCodes;
    hide OrdersEvolve, RequestsEvolve, CodesEvolve, GatesEvolve, DraftsEvolve;
    GrantCode(db.codes, db.requests, db.orders, db.drafts, requestId, codeId, now, expiresAt);
    Reflexive(db);
  }

  lemma SpendRequest(codes: map<Id, Code>, requests: map<Id, Request>, orders: map<Id, Order>, drafts: map<Id, Draft>,
                     requestId: Id)
    requires CodesOk(codes, requests, drafts) && RequestsOk(requests, orders) && requestId in requests
    requires CodeSpentFor(codes, requestId)
    ensures var requests' := requests[requestId := requests[requestId].(status := Attempted)];
            CodesOk(codes, requests', drafts) && RequestsOk(requests', orders) && RequestsEvolve(requests, requests')
  {
    var requests' := requests[requestId := requests[requestId].(status := Attempted)];
    var spent :| spent in codes && codes[spent].requestId == Some(requestId) && codes[spent].consumedAt.Some?;
    assert CodeOk(codes[spent], requests, drafts);
    forall c <- codes ensures CodeOk(codes[c], requests', drafts) {
      assert CodeOk(codes[c], requests, drafts);
    }
    forall id <- requests' ensures RequestOk(requests'[id], orders) {
      assert RequestOk(requests[id], orders);
    }
  }

  lemma MarkAttemptedKeeps(db: Db, requestId: Id)
    requires Inv(db) && CodeSpentFor(db.codes, requestId)
    ensures Keeps(db, MarkAttempted(db, requestId).0)
  {
    hide JournalOk, AttemptsOk, GatesOk, RequestsOk, CodesOk, OrdersOk, CodeSpentFor;
    hide OrdersEvolve, RequestsEvolve, CodesEvolve, GatesEvolve, DraftsEvolve;
    if requestId in db.requests {
      SpendRequest(db.codes, db.requests, db.orders, db.drafts, requestId);
    }
    Reflexive(db);
  }

  // ---------- Cancellation ----------

  lemma BeginEventsWrite(events: seq<Event>, k: Id, o: Order, attemptId: Id, now: int, actor: Actor)
    requires !AttemptLogged(events, k, attemptId)
    ensures var o' := PendingOrder(o, now);
            WriteEvents(events, k, o, o',
                        SelfAuthorization(k, o.draftId, attemptId, CancelAction, actor, now)
                          + [AttemptEvent(o, k, attemptId, actor, now)],
                        [OrderEvent(o', k, StatusTransition, actor, Some(o.state), Some(CancelPending), None,
                                    Status(FromLocal, o'.fill), o'.updatedAt)])
  {
    var o' := PendingOrder(o, now);
    var grant := SelfAuthorization(k, o.draftId, attemptId, CancelAction, actor, now);
    var attempt := AttemptEvent(o, k, attemptId, actor, now);
    var e := OrderEvent(o', k, StatusTransition, actor, Some(o.state), Some(CancelPending), None,
                        Status(FromLocal, o'.fill), o'.updatedAt);
    FoldOne(LedgerOf(o), e, k);
    assert attempt in grant + [attempt] && IsAttempt(attempt, k);
  }

  lemma BeginCancellationKeeps(db: Db, k: Id, expectedVersion: int, expectedState: OrderState, attemptId: Id, now: int,
                               actor: Actor, found: Option<nat>)
    requires Inv(db) && LatestAttempt(db.events, k, found)
    ensures Keeps(db, BeginCancellation(db, k, expectedVersion, expectedState, attemptId, now, actor, found).0)
  {
    hide Inv, Evolves, Commit, SelfAuthorization, AttemptLogged, WriteEvents;
    if BeginCancellation(db, k, expectedVersion, expectedState, attemptId, now, actor, found).1
      == CancelReply(Some(attemptId), true) {
      var o := db.orders[k];
      OrderInDb(db, k);
      var o' := PendingOrder(o, now);
      BeginEventsWrite(db.events, k, o, attemptId, now, actor);
      CommitKeepsInv(db, k, o',
                     SelfAuthorization(k, o.draftId, attemptId, CancelAction, actor, now)
                       + [AttemptEvent(o, k, attemptId, actor, now)],
                     CancellationStarted, actor,
                     [OrderEvent(o', k, StatusTransition, actor, Some(o.state), Some(CancelPending), None,
                                 Status(FromLocal, o'.fill), o'.updatedAt)]);
    } else {
      Untouched(db);
    }
  }

  function OutcomeEvent(o': Order, k: Id, r: Resolution, attemptId: Id, actor: Actor): Event {
    OrderEvent(o', k, CancellationResult, actor, Some(CancelPending), Some(r.state),
               Some(EventCode(Some(KindCode(r.kind)), r.state)),
               CancelOutcome(attemptId, KindOutcome(r.kind)), o'.updatedAt)
  }

  function SettledEvent(o': Order, k: Id, r: Resolution, actor: Actor): Event {
    OrderEvent(o', k, StatusTransition, actor, Some(CancelPending), Some(r.state), None,
               Status(KindSource(r.kind), o'.fill), o'.updatedAt)
  }

  lemma OutcomeEventsWrite(events: seq<Event>, k: Id, o: Order, r: Resolution, attemptId: Id, now: int, actor: Actor)
    requires o.state == CancelPending
    ensures var o' := ResolvedOrder(o, r, now);
            WriteEvents(events, k, o, o', [], [OutcomeEvent(o', k, r, attemptId, actor), SettledEvent(o', k, r, actor)])
  {
    hide EventCode, KindCode, KindOutcome, KindSource;
    var o' := ResolvedOrder(o, r, now);
    FoldTwo(LedgerOf(o), OutcomeEvent(o', k, r, attemptId, actor), SettledEvent(o', k, r, actor), k);
  }

  lemma FinishCancellationKeeps(db: Db, k: Id, attemptId: Id, seen: CancellationObservation, now: int, actor: Actor,
                                found: Option<nat>)
    requires Inv(db) && LatestAttempt(db.events, k, found)
    ensures Keeps(db, FinishCancellation(db, k, attemptId, seen, now, actor, found).0)
  {
    hide Inv, Evolves, Commit, ResolveCancellation, OrderWrite, WriteEvents, ResolvedOrder, EventCode, KindCode,
         KindOutcome, KindSource;
    FoundIsAttempt(db.events, k, found);
    hide LatestAttempt;
    if k !in db.orders || db.orders[k].state != CancelPending
      || (found.Some? && AttemptOf(db, found) != Some(attemptId)) {
      Untouched(db);
    } else {
      var o := db.orders[k];
      OrderInDb(db, k);
      ResolvedIsWrite(o, seen, now);
      var r := ResolveCancellation(o.terms.quantity, o.Filled(), seen);
      var o' := ResolvedOrder(o, r, now);
      OutcomeEventsWrite(db.events, k, o, r, attemptId, now, actor);
      CommitKeepsInv(db, k, o', [], OrderBecame(r.state), actor,
                     [OutcomeEvent(o', k, r, attemptId, actor), SettledEvent(o', k, r, actor)]);
    }
  }

  lemma FoundIsAttempt(events: seq<Event>, k: Id, found: Option<nat>)
    requires LatestAttempt(events, k, found)
    ensures found.Some? ==> found.value < |events| && events[found.value].details.Attempt?
  {
  }

  lemma ResolvedIsWrite(o: Order, seen: CancellationObservation, now: int)
    requires OrderOk(o) && o.state == CancelPending
    ensures var r := ResolveCancellation(o.terms.quantity, o.Filled(), seen);
            CanTransition(CancelPending, r.state) && OrderWrite(o, ResolvedOrder(o, r, now))
  {
    ResolutionIsLegal(o.terms.quantity, o.fill, seen);
    ResolutionFillPrints(o.terms.quantity, o.Filled(), seen);
    hide ResolveCancellation;
  }

  lemma ResolutionFillPrints(ordered: real, filled: Option<real>, seen: CancellationObservation)
    ensures var r := ResolveCancellation(ordered, filled, seen);
            r.fill.Some? ==> PrintableFill(r.fill.value) && 0.0 < r.fill.value.quantity.value <= ordered
  {
  }

  // ---------- Reconciliation ----------

  lemma OpenGate(events: seq<Event>, orders: map<Id, Order>, gates: map<Group, int>, k: Id, e: Event, at: int)
    requires GatesOk(events, orders, gates) && k in orders
    requires e.kind == ReconciliationAttempted && e.orderId == Some(k) && e.occurredAt == at
    requires GroupOf(orders[k]) in gates ==> gates[GroupOf(orders[k])] <= at
    ensures GatesOk(events + [e], orders, gates[GroupOf(orders[k]) := at])
    ensures GatesEvolve(gates, gates[GroupOf(orders[k]) := at])
  {
    forall x <- events + [e] ensures AttemptBehindGate(x, orders, gates[GroupOf(orders[k]) := at]) {
      if x in events {
        assert AttemptBehindGate(x, orders, gates);
      }
    }
  }

  lemma ClaimThroughGateKeeps(db: Db, k: Id, attemptId: Id, at: int, interval: int)
    requires Inv(db) && k in db.orders && interval >= 0
    ensures Keeps(db, ClaimThroughGate(db, k, attemptId, at, interval).0)
  {
    if GateOpen(db, GroupOf(db.orders[k]), at, interval) {
      hide JournalOk, AttemptsOk, GatesOk, RequestsOk, CodesOk, OrdersOk;
      hide OrdersEvolve, RequestsEvolve, CodesEvolve, GatesEvolve, DraftsEvolve;
      var e := AttemptedEvent(db.orders[k], k, attemptId, at);
      assert JournalOk(db.events + [e], db.orders) by {
        AttemptedJournal(db.events, e, db.orders, k);
      }
      InertAttempts(db.events, [e], db.orders);
      OpenGate(db.events, db.orders, db.gates, k, e, at);
      Reflexive(db);
    } else {
      Untouched(db);
    }
  }

  lemma AttemptedJournal(events: seq<Event>, e: Event, orders: map<Id, Order>, k: Id)
    requires JournalOk(events, orders) && k in orders && e.kind == ReconciliationAttempted && e.orderId == Some(k)
    ensures JournalOk(events + [e], orders)
  {
    forall x <- orders ensures Replay(events + [e], x) == LedgerOf(orders[x]) {
      ReplayQuiet(events, [e], x);
    }
  }

  lemma ReconciledIsWrite(o: Order, f: Finding, now: int)
    requires OrderOk(o) && o.state != Submitting && FindingError(o, f).None? && FindingFits(o, f)
    ensures OrderWrite(o, ReconciledOrder(o, f, FindingFill(o, f), now))
  {
  }

  lemma ReconciliationWrites(events: seq<Event>, k: Id, o: Order, attemptId: Id, f: Finding, fill: Option<Fill>,
                             now: int)
    requires o.state != Submitting
    requires f.state == CancelPending ==> o.state == CancelPending
    ensures var o' := ReconciledOrder(o, f, fill, now);
            WriteEvents(events, k, o, o', [], ReconciliationEvents(o, o', k, attemptId, f, fill))
  {
    hide OutcomeText, EventCode, OutcomeCode;
    var o' := ReconciledOrder(o, f, fill, now);
    var status := ReconciliationEvents(o, o', k, attemptId, f, fill);
    if f.state == o.state {
      FoldOne(LedgerOf(o), status[0], k);
    } else {
      FoldTwo(LedgerOf(o), status[0], status[1], k);
    }
  }

  lemma FinishReconciliationKeeps(db: Db, k: Id, attemptId: Id, expectedVersion: int, expectedState: OrderState,
                                  f: Finding, now: int)
    requires Inv(db) && expectedState != Submitting
    requires Current(db, k, expectedVersion) ==> FindingFits(db.orders[k], f)
    ensures Keeps(db, FinishReconciliation(db, k, attemptId, expectedVersion, expectedState, f, now).0)
  {
    hide Inv, Evolves, Commit, FindingError, FindingFill, OrderWrite, ReconciliationEvents, WriteEvents,
         ReconciledOrder;
    if FinishReconciliation(db, k, attemptId, expectedVersion, expectedState, f, now).1 == Done {
      var o := db.orders[k];
      OrderInDb(db, k);
      ReconciledIsWrite(o, f, now);
      var fill := FindingFill(o, f);
      var o' := ReconciledOrder(o, f, fill, now);
      ReconciliationWrites(db.events, k, o, attemptId, f, fill, now);
      CommitKeepsInv(db, k, o', [], if f.state == o.state then StateChanged else OrderBecame(f.state), System,
                     ReconciliationEvents(o, o', k, attemptId, f, fill));
    } else {
      Untouched(db);
    }
  }

  // ---------- Codes ----------

  lemma IssueSubmitCode(codes: map<Id, Code>, requests: map<Id, Request>, drafts: map<Id, Draft>, codeId: Id,
                        draftId: Id, code: Code)
    requires CodesOk(codes, requests, drafts) && codeId !in codes && draftId in drafts
    requires code.action == SubmitAction && code.draftId == Some(draftId) && Usable(code)
             && CodeOk(code, requests, drafts)
    ensures var codes' := SupersedeCodes(codes, Some(SubmitAction), Some(draftId), None)[codeId := code];
            CodesOk(codes', requests, drafts) && CodesEvolve(codes, codes')
  {
    var codes' := SupersedeCodes(codes, Some(SubmitAction), Some(draftId), None)[codeId := code];
    forall c <- codes ensures SupersededCode(codes[c],
                                             SupersedeCodes(codes, Some(SubmitAction), Some(draftId), None)[c],
                                               draftId) {
      assert CodeOk(codes[c], requests, drafts);
    }
    hide SupersedeCodes;
    forall c <- codes' ensures CodeOk(codes'[c], requests, drafts) {
      if c != codeId {
        assert CodeOk(codes[c], requests, drafts);
      }
    }
  }

  /** A superseded code keeps its target, and is no longer usable if that target is the draft. */
  predicate SupersededCode(c: Code, c': Code, draftId: Id) {
    && c' == c.(invalidation := c'.invalidation)
    && (Usable(c') ==> c' == c && c.draftId != Some(draftId))
  }

  lemma CreateSubmitCodeKeeps(db: Db, codeId: Id, draftId: Id, now: int, expiresAt: int)
    requires Inv(db)
    ensures Keeps(db, CreateSubmitCode(db, codeId, draftId, now, expiresAt).0)
  {
    if CreateSubmitCode(db, codeId, draftId, now, expiresAt).1 == Done {
      var d := db.drafts[draftId];
      var code := Code(SubmitAction, Some(draftId), None, None, DraftPrint(d.fingerprint), d.terms.accountId,
                       now, expiresAt, None, None, 0);
      IssueSubmitCode(db.codes, db.requests, db.drafts, codeId, draftId, code);
      hide Inv, Evolves, CodesOk, CodesEvolve, SupersedeCodes;
      CodesKeep(db, SupersedeCodes(db.codes, Some(SubmitAction), Some(draftId), None)[codeId := code],
                [Event(None, Some(draftId), AuthorizationCreated, Dashboard, None, None, None,
                       Authorization(codeId, SubmitAction), now)]);
    } else {
      Untouched(db);
    }
  }

  /** Replacing one code by a later stage of itself. */
  lemma StepCode(codes: map<Id, Code>, requests: map<Id, Request>, drafts: map<Id, Draft>, id: Id, c: Code)
    requires CodesOk(codes, requests, drafts) && id in codes && CodeStep(codes[id], c)
             && c.failedAttempts <= MAX_FAILURES
    requires Usable(c) ==> c.failedAttempts < MAX_FAILURES
    ensures CodesOk(codes[id := c], requests, drafts) && CodesEvolve(codes, codes[id := c])
  {
    forall x <- codes ensures CodeOk(codes[id := c][x], requests, drafts) {
      assert CodeOk(codes[x], requests, drafts);
    }
  }

  lemma CodeIsOk(db: Db, c: Id)
    requires Inv(db) && c in db.codes
    ensures CodesOk(db.codes, db.requests, db.drafts) && CodeOk(db.codes[c], db.requests, db.drafts)
    ensures db.codes[c].orderId.Some? ==> db.codes[c].orderId.value in db.orders
  {
    hide JournalOk, OrdersOk, AttemptsOk, GatesOk;
    assert CodeOk(db.codes[c], db.requests, db.drafts);
    if db.codes[c].requestId.Some? {
      assert RequestOk(db.requests[db.codes[c].requestId.value], db.orders);
    }
  }

  /** Counting a failure, or withdrawing for one, is a legal step of a code. */
  lemma FailedCodeIsOk(c: Code, requests: map<Id, Request>, drafts: map<Id, Draft>, reason: FailureReason)
    requires CodeOk(c, requests, drafts)
    ensures CodeOk(FailedCode(c, reason), requests, drafts) && CodeStep(c, FailedCode(c, reason))
  {
  }

  lemma FailureLogs(db: Db, code: Option<Id>, draftId: Option<Id>, requestId: Option<Id>, action: Action,
                    reason: FailureReason, attemptId: Id, now: int) returns (e: Event)
    ensures e.kind == AuthorizationFailed && (e.orderId.Some? ==> e.orderId.value in db.orders)
    ensures RecordFailure(db, code, draftId, requestId, action, reason, attemptId, now).0
         == db.(codes := if code.Some? && code.value in db.codes
                         then db.codes[code.value := FailedCode(db.codes[code.value], reason)] else db.codes,
                events := db.events + [e])
  {
    hide FailedCode;
    var db' := RecordFailure(db, code, draftId, requestId, action, reason, attemptId, now).0;
    e := db'.events[|db.events|];
  }

  lemma RecordFailureKeeps(db: Db, code: Option<Id>, draftId: Option<Id>, requestId: Option<Id>, action: Action,
                           reason: FailureReason, attemptId: Id, now: int)
    requires Inv(db)
    ensures Keeps(db, RecordFailure(db, code, draftId, requestId, action, reason, attemptId, now).0)
  {
    hide Inv, Keeps, Evolves, CodesOk, CodeOk, CodeStep, CodesEvolve, RecordFailure, FailedCode;
    var e := FailureLogs(db, code, draftId, requestId, action, reason, attemptId, now);
    if code.Some? && code.value in db.codes {
      CodeIsOk(db, code.value);
      FailedCodeIsOk(db.codes[code.value], db.requests, db.drafts, reason);
      StepCode(db.codes, db.requests, db.drafts, code.value, FailedCode(db.codes[code.value], reason));
      CodesKeep(db, db.codes[code.value := FailedCode(db.codes[code.value], reason)], [e]);
    } else {
      LogKeeps(db, [e]);
    }
  }

  lemma SpentCodeIsOk(c: Code, requests: map<Id, Request>, drafts: map<Id, Draft>, now: int)
    requires CodeOk(c, requests, drafts) && Usable(c)
    ensures CodeOk(c.(consumedAt := Some(now)), requests, drafts) && CodeStep(c, c.(consumedAt := Some(now)))
  {
  }

  lemma ConsumeCodeKeeps(db: Db, codeId: Id, now: int)
    requires Inv(db)
    ensures Keeps(db, ConsumeCode(db, codeId, now).0)
  {
    hide Inv, Keeps, Evolves, CodesOk, CodeOk, CodeStep, CodesEvolve;
    if codeId in db.codes && Usable(db.codes[codeId]) {
      var c := db.codes[codeId];
      var e := Event(c.orderId, c.draftId, AuthorizationConsumed, Mcp, None, None, None,
                     Authorization(codeId, c.action), now);
      CodeIsOk(db, codeId);
      SpentCodeIsOk(c, db.requests, db.drafts, now);
      StepCode(db.codes, db.requests, db.drafts, codeId, c.(consumedAt := Some(now)));
      CodesKeep(db, db.codes[codeId := c.(consumedAt := Some(now))], [e]);
    } else {
      Untouched(db);
    }
  }

  // ---------- All transactions ----------

  /** Whatever transaction the services run, with whatever clock reading, provider answer and random
      identifiers, the invariant survives and the database evolves legally. */
  lemma TransactionKeeps(db: Db, tx: Tx)
    requires Inv(db) && Answerable(db, tx) && Faithful(db, tx)
    ensures Inv(Apply(db, tx)) && Evolves(db, Apply(db, tx))
  {
    hide Inv, Evolves, SaveDraft, BeginSubmission, MarkStarted, RecoverOne, FinishSubmission, RecordDraftExpiry;
    hide CreateRequest, InvalidateRequests, AuthorizeRequest, MarkAttempted, BeginCancellation, FinishCancellation;
    hide ClaimThroughGate, FinishReconciliation, CreateSubmitCode, RecordFailure, ConsumeCode, LatestAttempt, IsTarget;
    match tx
    case TxSaveDraft(draftId, draft, actor) => SaveDraftKeeps(db, draftId, draft, actor);
    case TxBeginSubmission(draftId, k, clientOrderId, authorizationId, now, actor) =>
      BeginSubmissionKeeps(db, draftId, k, clientOrderId, authorizationId, now, actor);
    case TxMarkStarted(k, version, now) => MarkStartedKeeps(db, k, version, now);
    case TxRecoverOne(k, now) => RecoverOneKeeps(db, k, now);
    case TxFinishSubmission(k, version, result, now, actor) => FinishSubmissionKeeps(db, k, result, now, actor);
    case TxRecordDraftExpiry(draftId, now) => RecordDraftExpiryKeeps(db, draftId, now);
    case TxCreateRequest(k, reviewed, requestId, now, expiresAt) =>
      CreateRequestKeeps(db, k, reviewed, requestId, now, expiresAt);
    case TxInvalidateAll(k, reason, now) => InvalidateKeepsInv(db, k, reason, now, System, None);
    case TxAuthorizeRequest(requestId, expected, codeId, now, expiresAt) =>
      AuthorizeRequestKeeps(db, requestId, expected, codeId, now, expiresAt);
    case TxReadRequest(requestId, now) =>
      Untouched(db);
      if requestId in db.requests {
        InvalidateKeepsInv(db, db.requests[requestId].orderId, PastExpiry, now, System, Some(requestId));
      }
    case TxExpireRequest(requestId, now) =>
      Untouched(db);
      if requestId in db.requests {
        InvalidateKeepsInv(db, db.requests[requestId].orderId, PastExpiry, now, Mcp, Some(requestId));
      }
    case TxMarkAttempted(requestId) => MarkAttemptedKeeps(db, requestId);
    case TxBeginCancellation(k, version, state, attemptId, now, actor, found) =>
      BeginCancellationKeeps(db, k, version, state, attemptId, now, actor, found);
    case TxFinishCancellation(k, attemptId, seen, now, actor, found) =>
      FinishCancellationKeeps(db, k, attemptId, seen, now, actor, found);
    case TxClaim(k, attemptId, now, interval) =>
      Untouched(db);
      if k in db.orders && interval >= 0 {
        ClaimThroughGateKeeps(db, k, attemptId, now, interval);
      }
    case TxClaimPlanned(k, attemptId, now, interval, target) =>
      Untouched(db);
      if k in db.orders && interval >= 0 {
        ClaimThroughGateKeeps(db, k, attemptId, now, interval);
      }
    case TxFinishReconciliation(k, attemptId, version, state, finding, now) =>
      FinishReconciliationKeeps(db, k, attemptId, version, state, finding, now);
    case TxCreateSubmitCode(codeId, draftId, now, expiresAt) =>
      CreateSubmitCodeKeeps(db, codeId, draftId, now, expiresAt);
    case TxRecordFailure(codeId, draftId, requestId, action, failure, attemptId, now) =>
      RecordFailureKeeps(db, codeId, draftId, requestId, action, failure, attemptId, now);
    case TxConsumeCode(codeId, now) => ConsumeCodeKeeps(db, codeId, now);
  }
}
