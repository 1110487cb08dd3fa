/** The log is complete: it tells the result each order carries, which codes were spent and when, and which requests
    were withdrawn and why. */
module AuditCompleteness {
  import opened Common
  import opened Orders
  import opened Journal
  import opened Database
  import opened Invariants
  import opened TableLemmas
  import opened Preservation
  import opened Runs
  import opened OrderTheorems

  // ---------- Results ----------

  /** What a reader of the log last heard about the result of an order. */
  datatype Told = Told(code: Option<string>, source: Option<StatusSource>, at: Option<int>, word: Option<string>)

  const NOTHING_TOLD := Told(None, None, None, None)

  predicate Speaks(e: Event) {
    || e.kind == SubmissionResult || e.kind == ReconciliationResult || e.kind == CancellationResult
    || (e.kind == StatusTransition && e.next != Some(CancelPending))
  }

  function Latest<T>(said: Option<T>, before: Option<T>): Option<T> {
    if said.Some? then said else before
  }

  function Hear(t: Told, e: Event, k: Id): Told {
    if e.orderId != Some(k) || !Speaks(e) then t
    else match e.details
      case Status(source, _) => Told(Latest(e.code, t.code), Some(source), t.at, t.word)
      case Reconciled(_, _, source, _, at, word) =>
        Told(Latest(e.code, t.code), Some(source), Latest(at, t.at), Latest(word, t.word))
      case _ => t.(code := Latest(e.code, t.code))
  }

  function Heard(events: seq<Event>, k: Id): Told {
    if events == [] then NOTHING_TOLD else Hear(Heard(events[..|events| - 1], k), events[|events| - 1], k)
  }

  /** A result code is logged as it is stored, unless it is not one of the codes of the log. */
  predicate CodeTold(said: Option<string>, stored: Option<string>) {
    stored.Some? ==>
      && said.Some?
      && (stored.value in KNOWN_CODES ==> said == stored)
      && (stored.value !in KNOWN_CODES ==> said.value == "unknown" || said.value == "validation_failed")
  }

  predicate Tells(t: Told, o: Order) {
    && CodeTold(t.code, o.resultCode)
    && t.source == o.resultSource && t.at == o.providerUpdatedAt && t.word == o.providerStatusLabel
  }

  ghost predicate ResultsTold(events: seq<Event>, orders: map<Id, Order>) {
    forall k <- orders :: Tells(Heard(events, k), orders[k])
  }

  // ---------- Spent codes and withdrawn requests ----------

  /** An agent's code being spent; the dashboard logs its own authorizations as it grants them. */
  predicate IsSpending(e: Event) {
    e.kind == AuthorizationConsumed && e.actor == Mcp
  }

  predicate SaysSpent(e: Event, c: Id, at: int) {
    IsSpending(e) && e.details.Authorization? && e.details.authorizationId == c && e.occurredAt == at
  }

  /** A code was spent at a moment if and only if the log says so. */
  ghost predicate SpendingTold(events: seq<Event>, codes: map<Id, Code>) {
    && (forall c <- codes | codes[c].consumedAt.Some? ::
          exists e <- events :: SaysSpent(e, c, codes[c].consumedAt.value))
    && (forall e <- events | IsSpending(e) ::
          && e.details.Authorization? && e.details.authorizationId in codes
          && codes[e.details.authorizationId].consumedAt == Some(e.occurredAt))
  }

  predicate IsWithdrawal(e: Event) {
    e.kind == CancellationRequestInvalidated
  }

  predicate SaysWithdrawn(e: Event, id: Id, k: Id, reason: Reason) {
    IsWithdrawal(e) && e.orderId == Some(k) && e.details == RequestInvalidated(id, reason)
  }

  /** A request was withdrawn for a reason if and only if the log says so. */
  ghost predicate WithdrawalsTold(events: seq<Event>, requests: map<Id, Request>) {
    && (forall id <- requests | requests[id].invalidation.Some? ::
          exists e <- events :: SaysWithdrawn(e, id, requests[id].orderId, requests[id].invalidation.value))
    && (forall e <- events | IsWithdrawal(e) ::
          && e.details.RequestInvalidated? && e.details.requestId in requests
          && e.orderId == Some(requests[e.details.requestId].orderId)
          && requests[e.details.requestId].invalidation == Some(e.details.reason))
    && (forall id <- requests | Active(requests[id].status) :: requests[id].invalidation.None?)
  }

  ghost predicate Complete(db: Db) {
    && ResultsTold(db.events, db.orders) && SpendingTold(db.events, db.codes)
    && WithdrawalsTold(db.events, db.requests)
  }

  // ---------- Events that say nothing of these ----------

  predicate Mute(e: Event) {
    !Speaks(e) && !IsSpending(e) && !IsWithdrawal(e)
  }

  lemma HearOne(events: seq<Event>, e: Event, k: Id)
    ensures Heard(events + [e], k) == Hear(Heard(events, k), e, k)
  {
    assert (events + [e])[..|events|] == events;
  }

  lemma {:induction false} HearNone(events: seq<Event>, more: seq<Event>, k: Id)
    requires forall e <- more :: e.orderId != Some(k) || !Speaks(e)
    ensures Heard(events + more, k) == Heard(events, k)
    decreases |more|
  {
    hide Speaks, Heard;
    if more == [] {
      assert events + more == events;
    } else {
      var rest, e := more[..|more| - 1], more[|more| - 1];
      HearNone(events, rest, k);
      HearOne(events + rest, e, k);
      assert events + more == events + rest + [e];
    }
  }

  lemma NothingHeard(events: seq<Event>, orders: map<Id, Order>, k: Id)
    requires Grounded(events, orders) && k !in orders
    ensures Heard(events, k) == NOTHING_TOLD
  {
    HearNone([], events, k);
    assert [] + events == events;
  }

  predicate SameResult(o: Order, o': Order) {
    && o'.resultCode == o.resultCode && o'.resultSource == o.resultSource
    && o'.providerUpdatedAt == o.providerUpdatedAt && o'.providerStatusLabel == o.providerStatusLabel
  }

  predicate NoResult(o: Order) {
    o.resultCode.None? && o.resultSource.None? && o.providerUpdatedAt.None? && o.providerStatusLabel.None?
  }

  ghost predicate SameResults(orders: map<Id, Order>, orders': map<Id, Order>) {
    forall k <- orders' :: if k in orders then SameResult(orders[k], orders'[k]) else NoResult(orders'[k])
  }

  ghost predicate SameSpending(codes: map<Id, Code>, codes': map<Id, Code>) {
    && codes.Keys <= codes'.Keys
    && forall c <- codes' :: codes'[c].consumedAt == if c in codes then codes[c].consumedAt else None
  }

  ghost predicate SameWithdrawals(requests: map<Id, Request>, requests': map<Id, Request>) {
    && requests.Keys <= requests'.Keys
    && forall id <- requests' ::
         if id in requests then
           && requests'[id].invalidation == requests[id].invalidation
           && requests'[id].orderId == requests[id].orderId
           && (Active(requests'[id].status) ==> Active(requests[id].status))
         else requests'[id].invalidation.None?
  }

  lemma ResultsStay(events: seq<Event>, more: seq<Event>, orders: map<Id, Order>, orders': map<Id, Order>)
    requires ResultsTold(events, orders) && Grounded(events, orders) && SameResults(orders, orders')
    requires forall e <- more :: !Speaks(e)
    ensures ResultsTold(events + more, orders')
  {
    hide Heard, CodeTold, Speaks;
    forall k <- orders' ensures Tells(Heard(events + more, k), orders'[k]) {
      HearNone(events, more, k);
      if k !in orders {
        NothingHeard(events, orders, k);
        NothingTells(orders'[k]);
      }
    }
  }

  lemma NothingTells(o: Order)
    requires NoResult(o)
    ensures Tells(NOTHING_TOLD, o)
  {
  }

  lemma SpendingStays(events: seq<Event>, more: seq<Event>, codes: map<Id, Code>, codes': map<Id, Code>)
    requires SpendingTold(events, codes) && SameSpending(codes, codes') && forall e <- more :: !IsSpending(e)
    ensures SpendingTold(events + more, codes')
  {
    forall c <- codes' | codes'[c].consumedAt.Some?
      ensures exists e <- events + more :: SaysSpent(e, c, codes'[c].consumedAt.value)
    {
      var e :| e in events && SaysSpent(e, c, codes[c].consumedAt.value);
      assert e in events + more;
    }
  }

  lemma WithdrawalsStay(events: seq<Event>, more: seq<Event>, requests: map<Id, Request>, requests': map<Id, Request>)
    requires WithdrawalsTold(events, requests) && SameWithdrawals(requests, requests')
    requires forall e <- more :: !IsWithdrawal(e)
    ensures WithdrawalsTold(events + more, requests')
  {
    forall id <- requests' | requests'[id].invalidation.Some?
      ensures exists e <- events + more ::
                SaysWithdrawn(e, id, requests'[id].orderId, requests'[id].invalidation.value)
    {
      var e :| e in events && SaysWithdrawn(e, id, requests[id].orderId, requests[id].invalidation.value);
      assert e in events + more;
    }
  }

  ghost predicate AllMute(events: seq<Event>) {
    forall e <- events :: Mute(e)
  }

  lemma StaysComplete(db: Db, db': Db, more: seq<Event>)
    requires Complete(db) && Grounded(db.events, db.orders)
    requires db'.events == db.events + more && AllMute(more)
    requires SameResults(db.orders, db'.orders) && SameSpending(db.codes, db'.codes)
    requires SameWithdrawals(db.requests, db'.requests)
    ensures Complete(db')
  {
    hide ResultsTold, SpendingTold, WithdrawalsTold, SameResults, SameSpending, SameWithdrawals, Speaks;
    ResultsStay(db.events, more, db.orders, db'.orders);
    SpendingStays(db.events, more, db.codes, db'.codes);
    WithdrawalsStay(db.events, more, db.requests, db'.requests);
  }

  // ---------- Withdrawing ----------

  /** Active requests of order k. */
  ghost predicate AreActive(requests: map<Id, Request>, hits: set<Id>, k: Id) {
    forall id <- hits :: id in requests && requests[id].orderId == k && Active(requests[id].status)
  }

  lemma WithdrawnSaysSo(o: Order, k: Id, hits: set<Id>, reason: Reason, now: int, actor: Actor, id: Id)
    requires id in hits
    ensures exists e <- InvalidationEvents(o, k, hits, reason, now, actor) :: SaysWithdrawn(e, id, k, reason)
  {
    var events := InvalidationEvents(o, k, hits, reason, now, actor);
    hide InvalidationEvents;
    var e := InvalidationEvent(o, k, id, reason, now, actor);
    assert e in events && SaysWithdrawn(e, id, k, reason);
  }

  lemma SomeSaysSo(events: seq<Event>, more: seq<Event>, id: Id, k: Id, reason: Reason)
    requires (exists e <- events :: SaysWithdrawn(e, id, k, reason)) || exists e <- more ::
               SaysWithdrawn(e, id, k, reason)
    ensures exists e <- events + more :: SaysWithdrawn(e, id, k, reason)
  {
    hide SaysWithdrawn;
    if e :| e in events && SaysWithdrawn(e, id, k, reason) {
      assert e in events + more;
    } else {
      var e :| e in more && SaysWithdrawn(e, id, k, reason);
      assert e in events + more;
    }
  }

  lemma WithdrawalsAreSaid(events: seq<Event>, requests: map<Id, Request>, hits: set<Id>, o: Order, k: Id,
                           reason: Reason, now: int, actor: Actor, id: Id)
    requires WithdrawalsTold(events, requests) && AreActive(requests, hits, k)
    requires var requests' := WithdrawRequests(requests, hits, reason);
             id in requests' && requests'[id].invalidation.Some?
    ensures var r := WithdrawRequests(requests, hits, reason)[id];
            exists e <- events + InvalidationEvents(o, k, hits, reason, now, actor) ::
              SaysWithdrawn(e, id, r.orderId, r.invalidation.value)
  {
    hide InvalidationEvents, SaysWithdrawn, IsWithdrawal;
    var more := InvalidationEvents(o, k, hits, reason, now, actor);
    if id in hits {
      WithdrawnSaysSo(o, k, hits, reason, now, actor, id);
      SomeSaysSo(events, more, id, k, reason);
    } else {
      SomeSaysSo(events, more, id, requests[id].orderId, requests[id].invalidation.value);
    }
  }

  lemma SaidAreWithdrawn(events: seq<Event>, requests: map<Id, Request>, hits: set<Id>, o: Order, k: Id,
                         reason: Reason, now: int, actor: Actor, e: Event)
    requires WithdrawalsTold(events, requests) && AreActive(requests, hits, k) && IsWithdrawal(e)
    requires e in events + InvalidationEvents(o, k, hits, reason, now, actor)
    ensures var requests' := WithdrawRequests(requests, hits, reason);
            && e.details.RequestInvalidated? && e.details.requestId in requests'
            && e.orderId == Some(requests'[e.details.requestId].orderId)
            && requests'[e.details.requestId].invalidation == Some(e.details.reason)
  {
    hide SaysWithdrawn;
    var more := InvalidationEvents(o, k, hits, reason, now, actor);
    hide InvalidationEvents;
    if e !in events {
      assert e in more;
    }
  }

  lemma WithdrawalsAreTold(events: seq<Event>, requests: map<Id, Request>, hits: set<Id>, o: Order, k: Id,
                           reason: Reason, now: int, actor: Actor)
    requires WithdrawalsTold(events, requests) && AreActive(requests, hits, k)
    ensures WithdrawalsTold(events + InvalidationEvents(o, k, hits, reason, now, actor),
                            WithdrawRequests(requests, hits, reason))
  {
    hide InvalidationEvents, SaysWithdrawn, IsWithdrawal;
    var all := events + InvalidationEvents(o, k, hits, reason, now, actor);
    var requests' := WithdrawRequests(requests, hits, reason);
    forall id <- requests' | requests'[id].invalidation.Some?
      ensures exists e <- all :: SaysWithdrawn(e, id, requests'[id].orderId, requests'[id].invalidation.value)
    {
      WithdrawalsAreSaid(events, requests, hits, o, k, reason, now, actor, id);
    }
    forall e <- all | IsWithdrawal(e)
      ensures && e.details.RequestInvalidated? && e.details.requestId in requests'
              && e.orderId == Some(requests'[e.details.requestId].orderId)
              && requests'[e.details.requestId].invalidation == Some(e.details.reason)
    {
      SaidAreWithdrawn(events, requests, hits, o, k, reason, now, actor, e);
    }
    hide AreActive;
  }

  lemma WithdrawnAreMute(o: Order, k: Id, hits: set<Id>, reason: Reason, now: int, actor: Actor)
    ensures forall e <- InvalidationEvents(o, k, hits, reason, now, actor) :: !Speaks(e) && !IsSpending(e)
  {
    hide InvalidationEvents;
  }

  lemma WithdrawalSpendsNothing(codes: map<Id, Code>, hits: set<Id>, reason: Reason)
    ensures SameSpending(codes, WithdrawCodes(codes, hits, reason))
  {
  }

  lemma SameResultsAlways(orders: map<Id, Order>)
    ensures SameResults(orders, orders)
  {
  }

  lemma InvalidateIsComplete(db: Db, k: Id, reason: Reason, now: int, actor: Actor, only: Option<Id>)
    requires Complete(db) && Grounded(db.events, db.orders)
    requires forall id <- db.requests :: db.requests[id].orderId in db.orders
    ensures Complete(InvalidateRequests(db, k, reason, now, actor, only))
  {
    hide ResultsTold, SpendingTold, WithdrawalsTold, WithdrawRequests, WithdrawCodes, InvalidationEvents, Grounded,
         SameResults, SameSpending, Speaks, IsSpending;
    var hits := ActiveRequests(db, k, only);
    SameResultsAlways(db.orders);
    WithdrawalSpendsNothing(db.codes, hits, reason);
    if k in db.orders {
      var more := InvalidationEvents(db.orders[k], k, hits, reason, now, actor);
      WithdrawnAreMute(db.orders[k], k, hits, reason, now, actor);
      WithdrawalsAreTold(db.events, db.requests, hits, db.orders[k], k, reason, now, actor);
      ResultsStay(db.events, more, db.orders, db.orders);
      SpendingStays(db.events, more, db.codes, WithdrawCodes(db.codes, hits, reason));
    } else {
      assert hits == {};
      assert WithdrawRequests(db.requests, {}, reason) == db.requests by { NothingWithdrawn(db.requests, reason); }
      SpendingStays(db.events, [], db.codes, WithdrawCodes(db.codes, hits, reason));
      assert db.events + [] == db.events;
    }
  }

  lemma NothingWithdrawn(requests: map<Id, Request>, reason: Reason)
    ensures WithdrawRequests(requests, {}, reason) == requests
  {
  }

  // ---------- Writing an order ----------

  /** The status events of a write tell the result of the new record, whatever was told before. */
  ghost predicate TellsWrite(o: Order, o': Order, status: seq<Event>, k: Id) {
    && About(status, k)
    && (forall e <- status :: !IsSpending(e) && !IsWithdrawal(e))
    && forall events: seq<Event> :: Tells(Heard(events, k), o) ==> Tells(Heard(events + status, k), o')
  }

  lemma WriteTellsResults(events: seq<Event>, orders: map<Id, Order>, k: Id, o': Order, quiet: seq<Event>,
                          status: seq<Event>)
    requires ResultsTold(events, orders) && k in orders && TellsWrite(orders[k], o', status, k)
    requires forall e <- quiet :: !Speaks(e)
    ensures ResultsTold(events + quiet + status, orders[k := o'])
  {
    hide Tells, Heard, Speaks, IsSpending, IsWithdrawal;
    forall x <- orders ensures Tells(Heard(events + quiet + status, x), orders[k := o'][x]) {
      HearNone(events, quiet, x);
      if x != k {
        HearNone(events + quiet, status, x);
      }
    }
  }

  lemma CommitIsComplete(db: Db, k: Id, o': Order, before: seq<Event>, reason: Reason, actor: Actor, status: seq<Event>)
    requires Complete(db) && Grounded(db.events, db.orders) && k in db.orders
    requires AllMute(before) && TellsWrite(db.orders[k], o', status, k)
    ensures Complete(Commit(db, k, o', before, reason, actor, status))
  {
    hide ResultsTold, SpendingTold, WithdrawalsTold, WithdrawRequests, WithdrawCodes, InvalidationEvents, Grounded,
         SameSpending, SameWithdrawals, Speaks, IsSpending, IsWithdrawal, Heard, Tells;
    var hits := ActiveRequests(db, k, None);
    var codes' := WithdrawCodes(db.codes, hits, reason);
    var requests' := WithdrawRequests(db.requests, hits, reason);
    var withdrawn := InvalidationEvents(o', k, hits, reason, o'.updatedAt, actor);
    assert ActiveRequests(db.(orders := db.orders[k := o'], events := db.events + before), k, None) == hits;
    WithdrawnAreMute(o', k, hits, reason, o'.updatedAt, actor);
    WithdrawalSpendsNothing(db.codes, hits, reason);
    SameTables(db);
    WithdrawalsStay(db.events, before, db.requests, db.requests);
    WithdrawalsAreTold(db.events + before, db.requests, hits, o', k, reason, o'.updatedAt, actor);
    WithdrawalsStay(db.events + before + withdrawn, status, requests', requests') by { SameRequests(requests'); }
    SpendingStays(db.events, before + withdrawn + status, db.codes, codes');
    WriteTellsResults(db.events, db.orders, k, o', before + withdrawn, status);
    assert db.events + (before + withdrawn + status) == db.events + before + withdrawn + status;
    assert db.events + (before + withdrawn) + status == db.events + before + withdrawn + status;
  }

  lemma SameRequests(requests: map<Id, Request>)
    ensures SameWithdrawals(requests, requests)
  {
  }

  lemma SameTables(db: Db)
    ensures SameResults(db.orders, db.orders) && SameSpending(db.codes, db.codes)
    ensures SameWithdrawals(db.requests, db.requests)
  {
  }

  /** One event that tells it. */
  lemma OneTells(o: Order, o': Order, e: Event, k: Id)
    requires e.orderId == Some(k) && !IsSpending(e) && !IsWithdrawal(e)
    requires forall t: Told :: Tells(t, o) ==> Tells(Hear(t, e, k), o')
    ensures TellsWrite(o, o', [e], k)
  {
    hide Tells, Hear, IsSpending, IsWithdrawal;
    forall events: seq<Event> | Tells(Heard(events, k), o) ensures Tells(Heard(events + [e], k), o') {
      HearOne(events, e, k);
    }
  }

  lemma TwoTell(o: Order, o': Order, e: Event, f: Event, k: Id)
    requires e.orderId == Some(k) && !IsSpending(e) && !IsWithdrawal(e)
    requires f.orderId == Some(k) && !IsSpending(f) && !IsWithdrawal(f)
    requires forall t: Told :: Tells(t, o) ==> Tells(Hear(Hear(t, e, k), f, k), o')
    ensures TellsWrite(o, o', [e, f], k)
  {
    hide Tells, Hear, IsSpending, IsWithdrawal;
    forall events: seq<Event> | Tells(Heard(events, k), o) ensures Tells(Heard(events + [e, f], k), o') {
      HearOne(events, e, k);
      HearOne(events + [e], f, k);
      assert events + [e, f] == events + [e] + [f];
    }
  }

  lemma RecoveryTells(db: Db, k: Id, now: int)
    requires Complete(db) && Grounded(db.events, db.orders)
    ensures Complete(RecoverOne(db, k, now).0)
  {
    hide Complete, Grounded, Commit, TellsWrite;
    if k in db.orders && db.orders[k].state == Submitting {
      var o' := RecoveredOrder(db.orders[k], now);
      var e := OrderEvent(o', k, StatusTransition, System, Some(Submitting), Some(Unknown), Some("unknown"),
                          Status(FromSystem, None), o'.updatedAt);
      OneTells(db.orders[k], o', e, k);
      CommitIsComplete(db, k, o', [], StateChanged, System, [e]);
    }
  }

  lemma EventCodeTells(code: Option<string>, state: OrderState)
    ensures CodeTold(Some(EventCode(code, state)), code)
  {
  }

  lemma SubmissionTells(db: Db, k: Id, r: Submitted, now: int, actor: Actor)
    requires Inv(db) && Complete(db)
    ensures Complete(FinishSubmission(db, k, 1, r, now, actor).0)
  {
    hide Complete, Commit, TellsWrite, EventCode, SubmittedFill, KNOWN_CODES, DraftExpiryLogged, FinishedOrder;
    var (db', reply) := FinishSubmission(db, k, 1, r, now, actor);
    if reply == Done {
      var o := db.orders[k];
      OrderInDb(db, k);
      hide Inv;
      InvParts(db);
      hide JournalOk;
      var fill := SubmittedFill(o, r).value;
      var o' := FinishedOrder(o, r, fill, now);
      var e := ResultEvent(o, o', k, r, fill, actor);
      ResultTells(o, k, r, fill, now, actor);
      GroundedLog(db);
      if r.code == Some("draft_expired") && o.draftId in db.drafts && !DraftExpiryLogged(db, o.draftId) {
        var expiry := ExpiryEvent(db, o, o', k, actor);
        ExpiryTellsNothing(db, o, k, r, fill, now, actor);
        assert [e] + [expiry] == [e, expiry];
        CommitIsComplete(db, k, o', [], StateChanged, System, [e, expiry]);
      } else {
        assert [e] + [] == [e];
        CommitIsComplete(db, k, o', [], StateChanged, System, [e]);
      }
    }
  }

  lemma GroundedLog(db: Db)
    requires Inv(db)
    ensures Grounded(db.events, db.orders)
    ensures forall id <- db.requests :: db.requests[id].orderId in db.orders
  {
    forall id <- db.requests ensures db.requests[id].orderId in db.orders {
      assert RequestOk(db.requests[id], db.orders);
    }
  }

  lemma ResultHeard(o: Order, k: Id, r: Submitted, fill: Option<Fill>, now: int, actor: Actor, t: Told)
    requires o.state == Submitting && Tells(t, o)
    ensures var o' := FinishedOrder(o, r, fill, now);
            Tells(Hear(t, ResultEvent(o, o', k, r, fill, actor), k), o')
  {
    hide EventCode, CodeTold;
    EventCodeTells(r.code, r.state);
  }

  lemma ResultTells(o: Order, k: Id, r: Submitted, fill: Option<Fill>, now: int, actor: Actor)
    requires o.state == Submitting
    ensures var o' := FinishedOrder(o, r, fill, now); TellsWrite(o, o', [ResultEvent(o, o', k, r, fill, actor)], k)
  {
    hide Tells, Hear, EventCode, FinishedOrder, TellsWrite;
    var o' := FinishedOrder(o, r, fill, now);
    forall t: Told | Tells(t, o) ensures Tells(Hear(t, ResultEvent(o, o', k, r, fill, actor), k), o') {
      ResultHeard(o, k, r, fill, now, actor, t);
    }
    OneTells(o, o', ResultEvent(o, o', k, r, fill, actor), k);
  }

  lemma ExpiryTellsNothing(db: Db, o: Order, k: Id, r: Submitted, fill: Option<Fill>, now: int, actor: Actor)
    requires o.state == Submitting && o.draftId in db.drafts
    ensures var o' := FinishedOrder(o, r, fill, now);
            TellsWrite(o, o', [ResultEvent(o, o', k, r, fill, actor), ExpiryEvent(db, o, o', k, actor)], k)
  {
    hide Tells, EventCode, FinishedOrder, TellsWrite;
    var o' := FinishedOrder(o, r, fill, now);
    var e, f := ResultEvent(o, o', k, r, fill, actor), ExpiryEvent(db, o, o', k, actor);
    forall t: Told | Tells(t, o) ensures Tells(Hear(Hear(t, e, k), f, k), o') {
      ResultHeard(o, k, r, fill, now, actor, t);
    }
    TwoTell(o, o', e, f, k);
  }

  lemma GrantIsMute(k: Id, draftId: Id, authorizationId: Id, action: Action, actor: Actor, now: int)
    ensures AllMute(SelfAuthorization(k, draftId, authorizationId, action, actor, now))
  {
  }

  lemma StartTells(db: Db, k: Id, version: int, state: OrderState, attemptId: Id, now: int, actor: Actor,
                   found: Option<nat>)
    requires Complete(db) && Grounded(db.events, db.orders) && LatestAttempt(db.events, k, found)
    ensures Complete(BeginCancellation(db, k, version, state, attemptId, now, actor, found).0)
  {
    hide Complete, Grounded, Commit, TellsWrite, SelfAuthorization, AttemptLogged, AllMute, Order.CanCancel;
    if BeginCancellation(db, k, version, state, attemptId, now, actor, found).1 == CancelReply(Some(attemptId), true) {
      hide LatestAttempt;
      var o := db.orders[k];
      var o' := PendingOrder(o, now);
      var grant := SelfAuthorization(k, o.draftId, attemptId, CancelAction, actor, now);
      var attempt := AttemptEvent(o, k, attemptId, actor, now);
      var e := OrderEvent(o', k, StatusTransition, actor, Some(o.state), Some(CancelPending), None,
                          Status(FromLocal, o'.fill), o'.updatedAt);
      OneTells(o, o', e, k);
      GrantIsMute(k, o.draftId, attemptId, CancelAction, actor, now);
      OneMoreMute(grant, attempt);
      CommitIsComplete(db, k, o', grant + [attempt], CancellationStarted, actor, [e]);
    }
  }

  lemma OneMoreMute(events: seq<Event>, e: Event)
    requires AllMute(events) && Mute(e)
    ensures AllMute(events + [e])
  {
  }

  lemma SettlingTells(db: Db, k: Id, attemptId: Id, seen: CancellationObservation, now: int, actor: Actor,
                      found: Option<nat>)
    requires Inv(db) && Complete(db) && LatestAttempt(db.events, k, found)
    ensures Complete(FinishCancellation(db, k, attemptId, seen, now, actor, found).0)
  {
    hide Inv, Complete, Grounded, Commit, ResolveCancellation, TellsWrite, ResolvedOrder, EventCode, KindCode,
         KindOutcome, KindSource;
    FoundIsAttempt(db.events, k, found);
    hide LatestAttempt;
    if k in db.orders && db.orders[k].state == CancelPending
       && (found.Some? ==> AttemptOf(db, found) == Some(attemptId)) {
      var o := db.orders[k];
      OrderInDb(db, k);
      GroundedLog(db);
      ResolvedIsWrite(o, seen, now);
      var r := ResolveCancellation(o.terms.quantity, o.Filled(), seen);
      var o' := ResolvedOrder(o, r, now);
      ResolutionTells(o, k, r, attemptId, now, actor);
      CommitIsComplete(db, k, o', [], OrderBecame(r.state), actor,
                       [OutcomeEvent(o', k, r, attemptId, actor), SettledEvent(o', k, r, actor)]);
    }
  }

  lemma ResolutionTells(o: Order, k: Id, r: Resolution, attemptId: Id, now: int, actor: Actor)
    requires r.state != CancelPending
    ensures var o' := ResolvedOrder(o, r, now);
            TellsWrite(o, o', [OutcomeEvent(o', k, r, attemptId, actor), SettledEvent(o', k, r, actor)], k)
  {
    hide EventCode, KindCode, KindOutcome, KindSource, CodeTold, TellsWrite;
    var o' := ResolvedOrder(o, r, now);
    EventCodeTells(Some(KindCode(r.kind)), r.state);
    TwoTell(o, o', OutcomeEvent(o', k, r, attemptId, actor), SettledEvent(o', k, r, actor), k);
  }

  lemma OutcomeCodeTells(outcome: Outcome)
    ensures CodeTold(Some(OutcomeCode(outcome)), Some(OutcomeText(outcome)))
  {
  }

  /** What a cancellation or a reconciliation stores as its result is what it logs, unless it was refused: the log has
      no code for a refusal, and calls a refused cancellation a failed validation. */
  lemma LoggedAsStoredExactly(kind: CancellationKind, outcome: Outcome, state: OrderState)
    ensures EventCode(Some(KindCode(kind)), state) == KindCode(kind) <==> kind != KindRefused
    ensures OutcomeCode(outcome) == OutcomeText(outcome) <==> outcome != Refused
    ensures EventCode(Some(KindCode(KindRefused)), state) == "validation_failed" && OutcomeCode(Refused) == "unknown"
  {
  }

  lemma FindingTells(o: Order, k: Id, attemptId: Id, f: Finding, fill: Option<Fill>, now: int)
    ensures var o' := ReconciledOrder(o, f, fill, now);
            TellsWrite(o, o', ReconciliationEvents(o, o', k, attemptId, f, fill), k)
  {
    hide EventCode, OutcomeCode, OutcomeText, CodeTold, TellsWrite;
    var o' := ReconciledOrder(o, f, fill, now);
    var events := ReconciliationEvents(o, o', k, attemptId, f, fill);
    OutcomeCodeTells(f.outcome);
    EventCodeTells(Some(OutcomeText(f.outcome)), f.state);
    if f.state == o.state {
      OneTells(o, o', events[0], k);
    } else {
      TwoTell(o, o', events[0], events[1], k);
    }
  }

  lemma ReconcilingTells(db: Db, k: Id, attemptId: Id, version: int, state: OrderState, f: Finding, now: int)
    requires Complete(db) && Grounded(db.events, db.orders)
    ensures Complete(FinishReconciliation(db, k, attemptId, version, state, f, now).0)
  {
    hide Complete, Grounded, Commit, FindingError, FindingFill, ReconciliationEvents, TellsWrite, ReconciledOrder;
    if FinishReconciliation(db, k, attemptId, version, state, f, now).1 == Done {
      var o := db.orders[k];
      var fill := FindingFill(o, f);
      var o' := ReconciledOrder(o, f, fill, now);
      FindingTells(o, k, attemptId, f, fill, now);
      CommitIsComplete(db, k, o', [], if f.state == o.state then StateChanged else OrderBecame(f.state), System,
                       ReconciliationEvents(o, o', k, attemptId, f, fill));
    }
  }

  // ---------- The other transactions ----------

  lemma ConsumptionTells(db: Db, c: Id, now: int)
    requires Complete(db) && Grounded(db.events, db.orders)
    ensures Complete(ConsumeCode(db, c, now).0)
  {
    hide ResultsTold, WithdrawalsTold, Grounded, SpendingTold;
    if c in db.codes && Usable(db.codes[c]) {
      var code := db.codes[c];
      var e := Event(code.orderId, code.draftId, AuthorizationConsumed, Mcp, None, None, None,
                     Authorization(c, code.action), now);
      SameTables(db);
      ResultsStay(db.events, [e], db.orders, db.orders);
      WithdrawalsStay(db.events, [e], db.requests, db.requests);
      SpentIsTold(db.events, db.codes, c, e, now);
    }
  }

  lemma SpentIsTold(events: seq<Event>, codes: map<Id, Code>, c: Id, e: Event, now: int)
    requires SpendingTold(events, codes) && c in codes && codes[c].consumedAt.None? && SaysSpent(e, c, now)
    ensures SpendingTold(events + [e], codes[c := codes[c].(consumedAt := Some(now))])
  {
    var codes' := codes[c := codes[c].(consumedAt := Some(now))];
    forall x <- codes' | codes'[x].consumedAt.Some?
      ensures exists f <- events + [e] :: SaysSpent(f, x, codes'[x].consumedAt.value)
    {
      if x == c {
        assert e in events + [e];
      } else {
        var f :| f in events && SaysSpent(f, x, codes[x].consumedAt.value);
        assert f in events + [e];
      }
    }
  }

  lemma RequestTells(db: Db, k: Id, reviewed: Order, requestId: Id, now: int, expiresAt: int)
    requires Inv(db) && Complete(db)
    ensures Complete(CreateRequest(db, k, reviewed, requestId, now, expiresAt).0)
  {
    hide Inv, Complete, InvalidateRequests, Order.CanCancel;
    if CreateRequest(db, k, reviewed, requestId, now, expiresAt).1 == Done {
      var clear := InvalidateRequests(db, k, Superseded, now, Mcp, None);
      GroundedLog(db);
      InvalidateIsComplete(db, k, Superseded, now, Mcp, None);
      WithdrawnTables(db, k, Superseded, now, Mcp, None);
      InvalidateKeepsInv(db, k, Superseded, now, Mcp, None);
      GroundedLog(clear);
      var e := OrderEvent(db.orders[k], k, CancellationRequestCreated, Mcp, None, None, None,
                          RequestCreated(requestId, expiresAt), now);
      SameTables(clear);
      NewRequestTellsNothing(clear.requests, requestId, NewRequest(k, reviewed, now, expiresAt));
      StaysComplete(clear, CreateRequest(db, k, reviewed, requestId, now, expiresAt).0, [e]);
    }
  }

  lemma WithdrawnTables(db: Db, k: Id, reason: Reason, now: int, actor: Actor, only: Option<Id>)
    ensures var db' := InvalidateRequests(db, k, reason, now, actor, only);
            db'.orders == db.orders && db'.requests.Keys == db.requests.Keys
  {
    hide InvalidationEvents, ActiveRequests, WithdrawnRequest;
  }

  lemma NewRequestTellsNothing(requests: map<Id, Request>, id: Id, r: Request)
    requires id !in requests && r.invalidation.None?
    ensures SameWithdrawals(requests, requests[id := r])
  {
  }

  lemma ApprovalTells(db: Db, requestId: Id, expected: Fingerprint, codeId: Id, now: int, expiresAt: int)
    requires Inv(db) && Complete(db)
    ensures Complete(AuthorizeRequest(db, requestId, expected, codeId, now, expiresAt).0)
  {
    hide Inv, Complete, InvalidateRequests, Order.CanCancel, SupersedeCodes;
    GroundedLog(db);
    InvalidationsAreComplete(db);
    if AuthorizeRequest(db, requestId, expected, codeId, now, expiresAt).1 == Done {
      var r := db.requests[requestId];
      var o := db.orders[r.orderId];
      var e := OrderEvent(o, r.orderId, AuthorizationCreated, Dashboard, None, None, None,
                          Authorization(codeId, CancelAction), now);
      SameTables(db);
      IssuingSpendsNothing(db.codes, None, None, Some(requestId), codeId, CancelCode(r, requestId, now, expiresAt));
      StaysComplete(db, AuthorizeRequest(db, requestId, expected, codeId, now, expiresAt).0, [e]);
    }
  }

  lemma IssuingSpendsNothing(codes: map<Id, Code>, action: Option<Action>, draftId: Option<Id>, requestId: Option<Id>,
                             c: Id, code: Code)
    requires c !in codes && code.consumedAt.None?
    ensures SameSpending(codes, SupersedeCodes(codes, action, draftId, requestId)[c := code])
  {
  }

  lemma InvalidationsAreComplete(db: Db)
    requires Complete(db) && Grounded(db.events, db.orders)
    requires forall id <- db.requests :: db.requests[id].orderId in db.orders
    ensures forall k: Id, reason: Reason, now: int, actor: Actor, only: Option<Id> ::
              Complete(InvalidateRequests(db, k, reason, now, actor, only))
  {
    hide Complete, Grounded, InvalidateRequests;
    forall k: Id, reason: Reason, now: int, actor: Actor, only: Option<Id>
      ensures Complete(InvalidateRequests(db, k, reason, now, actor, only))
    {
      InvalidateIsComplete(db, k, reason, now, actor, only);
    }
  }

  lemma BeginningTells(db: Db, draftId: Id, k: Id, clientOrderId: string, authorizationId: Id, now: int, actor: Actor)
    requires Complete(db) && Grounded(db.events, db.orders)
    ensures Complete(BeginSubmission(db, draftId, k, clientOrderId, authorizationId, now, actor).0)
  {
    hide Complete, Grounded, BeginSubmission, SelfAuthorization, SameResults, SameSpending, SameWithdrawals, AllMute;
    BegunWrites(db, draftId, k, clientOrderId, authorizationId, now, actor);
    var (db', reply) := BeginSubmission(db, draftId, k, clientOrderId, authorizationId, now, actor);
    if reply == Ordered(k, true) {
      var o := NewOrder(draftId, db.drafts[draftId], clientOrderId, now);
      var grant := SelfAuthorization(k, draftId, authorizationId, SubmitAction, actor, now);
      GrantIsMute(k, draftId, authorizationId, SubmitAction, actor, now);
      OneMoreMute(grant, StartedEvent(o, k, actor, now));
      SameTables(db);
      OneNewOrder(db.orders, k, o);
      assert db.events + grant + [StartedEvent(o, k, actor, now)]
             == db.events + (grant + [StartedEvent(o, k, actor, now)]);
      StaysComplete(db, db', grant + [StartedEvent(o, k, actor, now)]);
    }
  }

  lemma OneNewOrder(orders: map<Id, Order>, k: Id, o: Order)
    requires k !in orders && NoResult(o)
    ensures SameResults(orders, orders[k := o])
  {
  }

  /** Everything but the log, and what it is about, stays. */
  ghost predicate SaysNothing(db: Db, db': Db) {
    && SameResults(db.orders, db'.orders) && SameSpending(db.codes, db'.codes)
    && SameWithdrawals(db.requests, db'.requests)
    && (db'.events == db.events || exists e :: db'.events == db.events + [e] && Mute(e))
  }

  lemma SilenceIsComplete(db: Db, db': Db)
    requires Complete(db) && Grounded(db.events, db.orders) && SaysNothing(db, db')
    ensures Complete(db')
  {
    hide Complete, Grounded, Mute, SameResults, SameSpending, SameWithdrawals;
    if db'.events == db.events {
      StaysComplete(db, db', []);
    } else {
      var e :| db'.events == db.events + [e] && Mute(e);
      StaysComplete(db, db', [e]);
    }
  }

  lemma OneMuteEvent(db: Db, db': Db, e: Event)
    requires SameResults(db.orders, db'.orders) && SameSpending(db.codes, db'.codes)
    requires SameWithdrawals(db.requests, db'.requests)
    requires db'.events == db.events + [e] && Mute(e)
    ensures SaysNothing(db, db')
  {
    hide Mute, SameResults, SameSpending, SameWithdrawals;
  }

  lemma DraftsSayNothing(db: Db, tx: Tx)
    requires tx.TxSaveDraft? || tx.TxRecordDraftExpiry?
    ensures SaysNothing(db, Apply(db, tx))
  {
    hide DraftExpiryLogged, SaysNothing, SameResults, SameSpending, SameWithdrawals;
    SameTables(db);
    var db' := Apply(db, tx);
    if db'.events == db.events {
      SilentStep(db, db');
    } else {
      OneMuteEvent(db, db', db'.events[|db.events|]);
    }
  }

  lemma SilentStep(db: Db, db': Db)
    requires SameResults(db.orders, db'.orders) && SameSpending(db.codes, db'.codes)
    requires SameWithdrawals(db.requests, db'.requests) && db'.events == db.events
    ensures SaysNothing(db, db')
  {
  }

  lemma MarkingSaysNothing(db: Db, k: Id, version: int, at: int)
    ensures SaysNothing(db, MarkStarted(db, k, version, at).0)
  {
    hide SaysNothing, SameSpending, SameWithdrawals;
    SameTables(db);
    SilentStep(db, MarkStarted(db, k, version, at).0);
  }

  lemma AttemptingSaysNothing(db: Db, requestId: Id)
    ensures SaysNothing(db, MarkAttempted(db, requestId).0)
  {
    hide SaysNothing, SameSpending, SameResults;
    SameTables(db);
    SilentStep(db, MarkAttempted(db, requestId).0);
  }

  lemma ClaimSaysNothing(db: Db, k: Id, attemptId: Id, at: int, interval: int)
    requires k in db.orders
    ensures SaysNothing(db, ClaimThroughGate(db, k, attemptId, at, interval).0)
  {
    hide SaysNothing, SameResults, SameSpending, SameWithdrawals, GateOpen;
    SameTables(db);
    var db' := ClaimThroughGate(db, k, attemptId, at, interval).0;
    if GateOpen(db, GroupOf(db.orders[k]), at, interval) {
      OneMuteEvent(db, db', AttemptedEvent(db.orders[k], k, attemptId, at));
    } else {
      SilentStep(db, db');
    }
  }

  lemma NothingSaysNothing(db: Db)
    ensures SaysNothing(db, db)
  {
    hide SaysNothing, SameResults, SameSpending, SameWithdrawals;
    SameTables(db);
    SilentStep(db, db);
  }

  lemma ClaimsSayNothing(db: Db, k: Id, attemptId: Id, at: int, interval: int, target: Option<Id>)
    ensures SaysNothing(db, ClaimReconciliation(db, k, attemptId, at, interval).0)
    ensures (k in db.orders ==> IsTarget(db, GroupOf(db.orders[k]), target)) ==>
              SaysNothing(db, ClaimPlanned(db, k, attemptId, at, interval, target).0)
  {
    hide SaysNothing, ClaimThroughGate, IsTarget;
    NothingSaysNothing(db);
    if k in db.orders {
      ClaimSaysNothing(db, k, attemptId, at, interval);
    }
  }

  lemma IssuingSaysNothing(db: Db, codeId: Id, draftId: Id, now: int, expiresAt: int)
    ensures SaysNothing(db, CreateSubmitCode(db, codeId, draftId, now, expiresAt).0)
  {
    hide SupersedeCodes, SaysNothing, SameResults, SameSpending, SameWithdrawals;
    SameTables(db);
    var (db', reply) := CreateSubmitCode(db, codeId, draftId, now, expiresAt);
    if reply == Done {
      var d := db.drafts[draftId];
      IssuingSpendsNothing(db.codes, Some(SubmitAction), Some(draftId), None, codeId,
                           Code(SubmitAction, Some(draftId), None, None, DraftPrint(d.fingerprint), d.terms.accountId,
                                now, expiresAt, None, None, 0));
      OneMuteEvent(db, db', db'.events[|db.events|]);
    } else {
      SilentStep(db, db');
    }
  }

  lemma FailureSpendsNothing(codes: map<Id, Code>, c: Id, reason: FailureReason)
    requires c in codes
    ensures SameSpending(codes, codes[c := FailedCode(codes[c], reason)])
  {
  }

  lemma FailureSaysNothing(db: Db, code: Option<Id>, draftId: Option<Id>, requestId: Option<Id>, action: Action,
                           reason: FailureReason, attemptId: Id, now: int)
    ensures SaysNothing(db, RecordFailure(db, code, draftId, requestId, action, reason, attemptId, now).0)
  {
    hide FailedCode, SaysNothing, SameResults, SameSpending, SameWithdrawals;
    SameTables(db);
    if code.Some? && code.value in db.codes {
      FailureSpendsNothing(db.codes, code.value, reason);
    }
    var db' := RecordFailure(db, code, draftId, requestId, action, reason, attemptId, now).0;
    OneMuteEvent(db, db', db'.events[|db.events|]);
  }

  lemma RestTells(db: Db, tx: Tx)
    requires Answerable(db, tx) && Complete(db) && Grounded(db.events, db.orders)
    requires tx.TxSaveDraft? || tx.TxMarkStarted? || tx.TxRecordDraftExpiry? || tx.TxClaim? || tx.TxClaimPlanned?
             || tx.TxCreateSubmitCode? || tx.TxRecordFailure? || tx.TxMarkAttempted?
    ensures Complete(Apply(db, tx))
  {
    hide Complete, Grounded, SaysNothing, IsTarget, CreateSubmitCode, RecordFailure, SaveDraft, RecordDraftExpiry,
         MarkStarted, MarkAttempted, ClaimReconciliation, ClaimPlanned;
    match tx {
      case TxCreateSubmitCode(codeId, draftId, now, expiresAt) =>
        IssuingSaysNothing(db, codeId, draftId, now, expiresAt);
      case TxRecordFailure(code, draftId, requestId, action, failure, attemptId, now) =>
        FailureSaysNothing(db, code, draftId, requestId, action, failure, attemptId, now);
      case TxMarkStarted(k, version, now) => MarkingSaysNothing(db, k, version, now);
      case TxMarkAttempted(requestId) => AttemptingSaysNothing(db, requestId);
      case TxClaim(k, attemptId, now, interval) => ClaimsSayNothing(db, k, attemptId, now, interval, None);
      case TxClaimPlanned(k, attemptId, now, interval, target) =>
        ClaimsSayNothing(db, k, attemptId, now, interval, target);
      case _ => DraftsSayNothing(db, tx);
    }
    SilenceIsComplete(db, Apply(db, tx));
  }

  // ---------- Runs ----------

  /** Every transaction keeps the log complete. */
  lemma TransactionStaysComplete(db: Db, tx: Tx)
    requires Inv(db) && Complete(db) && Answerable(db, tx)
    requires tx.TxFinishSubmission? ==> tx.expectedVersion == 1
    ensures Complete(Apply(db, tx))
  {
    hide Inv, Complete, Grounded, BeginSubmission, RecoverOne, FinishSubmission, BeginCancellation, FinishCancellation,
         FinishReconciliation, CreateRequest, AuthorizeRequest, InvalidateRequests, ConsumeCode;
    hide LatestAttempt, IsTarget;
    GroundedLog(db);
    match tx
    case TxBeginSubmission(draftId, k, clientOrderId, authorizationId, now, actor) =>
      BeginningTells(db, draftId, k, clientOrderId, authorizationId, now, actor);
    case TxRecoverOne(k, now) => RecoveryTells(db, k, now);
    case TxFinishSubmission(k, _, r, now, actor) => SubmissionTells(db, k, r, now, actor);
    case TxBeginCancellation(k, version, state, attemptId, now, actor, found) =>
      StartTells(db, k, version, state, attemptId, now, actor, found);
    case TxFinishCancellation(k, attemptId, seen, now, actor, found) =>
      SettlingTells(db, k, attemptId, seen, now, actor, found);
    case TxFinishReconciliation(k, attemptId, version, state, f, now) =>
      ReconcilingTells(db, k, attemptId, version, state, f, now);
    case TxCreateRequest(k, reviewed, requestId, now, expiresAt) =>
      RequestTells(db, k, reviewed, requestId, now, expiresAt);
    case TxAuthorizeRequest(requestId, expected, codeId, now, expiresAt) =>
      ApprovalTells(db, requestId, expected, codeId, now, expiresAt);
    case TxInvalidateAll(_, _, _) => InvalidationsAreComplete(db);
    case TxReadRequest(_, _) => InvalidationsAreComplete(db);
    case TxExpireRequest(_, _) => InvalidationsAreComplete(db);
    case TxConsumeCode(c, now) => ConsumptionTells(db, c, now);
    case _ => RestTells(db, tx);
  }

  lemma EmptyIsComplete()
    ensures Complete(EMPTY)
  {
  }

  /** At every moment of every run the log tells the result of each order, and it says that a code was spent, or a
      request withdrawn, if and only if it was. */
  lemma {:induction false} LogIsComplete(h: seq<Db>, txs: seq<Tx>, i: nat)
    requires IsRun(h, txs) && i < |h|
    ensures Complete(h[i])
    decreases i
  {
    hide Inv, Evolves, Complete, Healthy;
    RunIsHealthy(h, txs);
    if i == 0 {
      EmptyIsComplete();
    } else {
      LogIsComplete(h, txs, i - 1);
      InvAt(h, txs, i - 1);
      assert Served(h[..i], txs[i - 1]) && h[i] == Apply(h[i - 1], txs[i - 1]);
      TransactionStaysComplete(h[i - 1], txs[i - 1]);
    }
  }
}
