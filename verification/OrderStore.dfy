/** The order store as its methods update it: each method is one transaction, written step by step, and
    proved to do to the tables exactly what its function in module Database says. */
module OrderStore {
  import opened Common
  import opened Orders
  import opened Journal
  import opened Database
  import opened Invariants
  import opened TableLemmas
  import opened Preservation
  import opened WriteSets
  import opened Scheduler
  import opened Reconciliation

  /** Orders left in Submitting whose draft's lock is free. */
  function Stranded(orders: map<Id, Order>, held: set<Id>): set<Id> {
    set k | k in orders && orders[k].state == Submitting && orders[k].draftId !in held
  }

  /** The records with those in `done` recovered. */
  function RecoveredOrders(orders: map<Id, Order>, done: set<Id>, now: int): map<Id, Order> {
    map k | k in orders :: if k in done then RecoveredOrder(orders[k], now) else orders[k]
  }

  /** What the recovery loop knows: the stranded orders are done or still to come. */
  ghost predicate Progress(orders: map<Id, Order>, held: set<Id>, candidates: set<Id>, done: set<Id>) {
    && done <= Stranded(orders, held) <= done + candidates
    && done !! candidates && candidates <= orders.Keys
  }

  lemma RecoveryStarts(orders: map<Id, Order>, held: set<Id>, now: int)
    ensures RecoveredOrders(orders, {}, now) == orders
    ensures Progress(orders, held, set k | k in orders && orders[k].state == Submitting, {})
  {
  }

  lemma RecoveryStep(orders: map<Id, Order>, held: set<Id>, candidates: set<Id>, done: set<Id>, k: Id, now: int)
    requires Progress(orders, held, candidates, done) && k in candidates
    ensures k in orders && |done + {k}| == |done| + 1
    ensures if orders[k].state == Submitting && orders[k].draftId !in held
            then Progress(orders, held, candidates - {k}, done + {k})
            else Progress(orders, held, candidates - {k}, done)
    ensures var recovered := RecoveredOrders(orders, done, now);
            && k in recovered && recovered[k] == orders[k]
            && recovered[k := RecoveredOrder(recovered[k], now)] == RecoveredOrders(orders, done + {k}, now)
  {
    assert k !in done;
  }

  /** Orders in Submitting whose draft nobody holds become Unknown, and nothing else changes. */
  ghost predicate OnlyStrandedBecomeUnknown(orders: map<Id, Order>, orders': map<Id, Order>, held: set<Id>, now: int) {
    && orders'.Keys == orders.Keys
    && forall k <- orders ::
         orders'[k] ==
         if orders[k].state == Submitting && orders[k].draftId !in held
         then orders[k].(state := Unknown, version := orders[k].version + 1, resultCode := Some("unknown"),
                         resultSource := Some(FromSystem), updatedAt := Max(now, orders[k].updatedAt))
         else orders[k]
  }

  lemma RecoveredBecomeUnknown(orders: map<Id, Order>, held: set<Id>, now: int)
    ensures OnlyStrandedBecomeUnknown(orders, RecoveredOrders(orders, Stranded(orders, held), now), held, now)
  {
  }

  lemma RecoveryEnds(orders: map<Id, Order>, held: set<Id>, done: set<Id>, now: int)
    requires Progress(orders, held, {}, done)
    ensures done == Stranded(orders, held)
    ensures Stranded(RecoveredOrders(orders, done, now), held) == {}
  {
  }

  lemma WithdrawnStays(db: Db, k: Id, reason: Reason, now: int, actor: Actor, only: Option<Id>, id: Id)
    requires id in db.requests
    ensures id in InvalidateRequests(db, k, reason, now, actor, only).requests
  {
  }

  lemma ActiveAtMostOnce(db: Db, k: Id, only: Option<Id>)
    requires Inv(db)
    ensures |ActiveRequests(db, k, only)| <= 1
  {
    hide DraftsOk, OrdersOk, JournalOk, CodesOk, AttemptsOk, GatesOk, RequestOk;
    var hits := ActiveRequests(db, k, only);
    if hits != {} {
      var id :| id in hits;
      assert hits == {id};
    }
  }

  /** The rows of a query: each hit once. */
  ghost predicate Lists(rows: seq<Id>, hits: set<Id>) {
    && (forall i, j :: 0 <= i < j < |rows| ==> rows[i] != rows[j])
    && (forall id :: id in rows <==> id in hits)
  }

  function RowEvents(o: Order, k: Id, rows: seq<Id>, reason: Reason, now: int, actor: Actor): seq<Event> {
    seq(|rows|, i requires 0 <= i < |rows| => InvalidationEvent(o, k, rows[i], reason, now, actor))
  }

  /** The requests of `done`, in the order of `rows`, their usable codes and the log, and nothing else. */
  ghost predicate Withdrawn(db: Db, db': Db, k: Id, rows: seq<Id>, done: set<Id>, reason: Reason, now: int,
                            actor: Actor) {
    && Lists(rows, done)
    && db' == db.(requests := WithdrawRequests(db.requests, done, reason),
                  codes := WithdrawCodes(db.codes, done, reason),
                  events := db.events + if k in db.orders then RowEvents(db.orders[k], k, rows, reason, now, actor)
                    else [])
  }

  /** The update of the usable codes of one request. */
  function WithCodesOf(codes: map<Id, Code>, id: Id, reason: Reason): map<Id, Code> {
    map c | c in codes ::
      if Usable(codes[c]) && codes[c].requestId == Some(id) then codes[c].(invalidation := Some(reason)) else codes[c]
  }

  lemma NothingWithdrawn(db: Db, k: Id, reason: Reason, now: int, actor: Actor)
    ensures Withdrawn(db, db, k, [], {}, reason, now, actor)
  {
    assert WithdrawRequests(db.requests, {}, reason) == db.requests;
    assert WithdrawCodes(db.codes, {}, reason) == db.codes;
  }

  lemma OneMoreWithdrawn(db: Db, db': Db, k: Id, rows: seq<Id>, done: set<Id>, reason: Reason, now: int, actor: Actor,
                         id: Id)
    requires Withdrawn(db, db', k, rows, done, reason, now, actor) && id in db.requests && id !in done
    ensures id in db'.requests && db'.orders == db.orders
    ensures Withdrawn(db, db'.(requests := db'.requests[id := WithdrawnRequest(db'.requests[id], reason)],
                               codes := WithCodesOf(db'.codes, id, reason),
                               events := db'.events + if k in db.orders
                                                      then [InvalidationEvent(db.orders[k], k, id, reason, now, actor)]
                                                      else []),
                      k, rows + [id], done + {id}, reason, now, actor)
  {
    hide InvalidationEvent, WithdrawnRequest;
    WithdrawMore(db.requests, db.codes, done, id, reason);
    hide WithdrawRequests, WithdrawCodes;
    assert db'.events + [] == db'.events;
    if k in db.orders {
      MoreRows(db.orders[k], k, rows, reason, now, actor, id);
    }
  }

  lemma MoreRows(o: Order, k: Id, rows: seq<Id>, reason: Reason, now: int, actor: Actor, id: Id)
    ensures RowEvents(o, k, rows + [id], reason, now, actor)
         == RowEvents(o, k, rows, reason, now, actor) + [InvalidationEvent(o, k, id, reason, now, actor)]
  {
  }

  /** The events of a submission's result, one more when the draft expired unnoticed. */
  function ResultEvents(o: Order, k: Id, previous: OrderState, r: Submitted, fill: Option<Fill>, actor: Actor,
                        expiry: Option<int>): seq<Event> {
    [OrderEvent(o, k, if previous == Submitting then SubmissionResult else StatusTransition, actor, Some(previous),
                Some(r.state), Some(EventCode(r.code, r.state)), Status(r.source, fill), o.updatedAt)]
    + if expiry.None? then []
      else [OrderEvent(o, k, DraftExpired, actor, None, None, Some("draft_expired"), Expiry(expiry.value), o.updatedAt)]
  }

  /** With at most one row there is only one order. */
  lemma OneRowIsEnough(db: Db, db': Db, k: Id, rows: seq<Id>, reason: Reason, now: int, actor: Actor, only: Option<Id>)
    requires Withdrawn(db, db', k, rows, ActiveRequests(db, k, only), reason, now, actor)
    ensures |ActiveRequests(db, k, only)| <= 1 ==> db' == InvalidateRequests(db, k, reason, now, actor, only)
  {
    hide ActiveRequests, WithdrawRequests, WithdrawCodes;
    var hits := ActiveRequests(db, k, only);
    if |hits| <= 1 && k in db.orders {
      SingleRowEvents(db.orders[k], k, rows, hits, reason, now, actor);
      hide RowEvents, InvalidationEvents;
    }
  }

  lemma SingleRowEvents(o: Order, k: Id, rows: seq<Id>, hits: set<Id>, reason: Reason, now: int, actor: Actor)
    requires Lists(rows, hits) && |hits| <= 1
    ensures RowEvents(o, k, rows, reason, now, actor) == InvalidationEvents(o, k, hits, reason, now, actor)
  {
    CountRows(rows, hits);
    if rows == [] {
      assert hits == {};
    } else {
      assert rows == [rows[0]] && rows[0] in hits;
      AtMostOneIsSingleton(hits, rows[0]);
      assert hits - {rows[0]} == {};
    }
  }

  lemma {:induction false} CountRows(rows: seq<Id>, hits: set<Id>)
    requires Lists(rows, hits)
    ensures |rows| == |hits|
  {
    if rows == [] {
      assert hits == {};
    } else {
      var n := |rows| - 1;
      assert rows == rows[..n] + [rows[n]];
      CountRows(rows[..n], hits - {rows[n]});
    }
  }

  lemma WithdrawMore(requests: map<Id, Request>, codes: map<Id, Code>, done: set<Id>, id: Id, reason: Reason)
    requires id in requests && id !in done
    ensures var before := WithdrawRequests(requests, done, reason);
            id in before && WithdrawRequests(requests, done + {id}, reason)
              == before[id := WithdrawnRequest(before[id], reason)]
    ensures WithdrawCodes(codes, done + {id}, reason) == WithCodesOf(WithdrawCodes(codes, done, reason), id, reason)
  {
  }

  lemma HitIsRequest(db: Db, k: Id, only: Option<Id>, id: Id)
    requires id in ActiveRequests(db, k, only)
    ensures id in db.requests
  {
  }

  datatype RefreshPlan = RefreshPlan(group: Group, target: Id, nextAt: int)

  /** Groups sort by provider, then account. */
  predicate GroupBefore(a: Group, b: Group) {
    TextBefore(a.provider, b.provider) || (a.provider == b.provider && TextBefore(a.accountId, b.accountId))
  }

  lemma GroupBeforeMeans(a: Group, b: Group)
    ensures GroupBefore(a, b) <==>
            SmallerText(a.provider, b.provider) || (a.provider == b.provider && SmallerText(a.accountId, b.accountId))
  {
    hide TextBefore, SmallerText;
    TextBeforeMeans(a.provider, b.provider);
    TextBeforeMeans(a.accountId, b.accountId);
  }

  lemma GroupOrder(a: Group, b: Group, c: Group)
    ensures GroupBefore(a, b) && GroupBefore(b, c) ==> GroupBefore(a, c)
    ensures a != b ==> GroupBefore(a, b) || GroupBefore(b, a)
  {
    hide TextBefore;
    TextOrder(a.provider, b.provider, c.provider);
    TextOrder(a.accountId, b.accountId, c.accountId);
  }

  method LeastGroup(groups: set<Group>) returns (least: Group)
    requires groups != {}
    ensures least in groups && forall g <- groups :: g != least ==> GroupBefore(least, g)
  {
    hide GroupBefore;
    least :| least in groups;
    var rest := groups - {least};
    while rest != {}
      invariant least in groups && least !in rest && rest <= groups
      invariant forall g <- groups - rest :: g != least ==> GroupBefore(least, g)
    {
      var g :| g in rest;
      if GroupBefore(g, least) {
        forall h <- groups - rest ensures h != g ==> GroupBefore(g, h) {
          GroupOrder(g, least, h);
        }
        least := g;
      } else {
        GroupOrder(least, g, g);
      }
      rest := rest - {g};
    }
  }

  class Store {
    var drafts: map<Id, Draft>
    var orders: map<Id, Order>
    var requests: map<Id, Request>
    var codes: map<Id, Code>
    var gates: map<Group, int>
    var events: seq<Event>

    function Contents(): Db
      reads this
    {
      Db(drafts, orders, requests, codes, gates, events)
    }

    ghost predicate Valid()
      reads this
    {
      Inv(Contents())
    }

    constructor ()
      ensures Valid() && Contents() == EMPTY
    {
      drafts, orders, requests, codes, gates, events := map[], map[], map[], map[], map[], [];
      new;
      EmptyInv();
    }

    // ---------- Helpers ----------

    /** Retires the active requests of order k, or one of them, one row at a time; `rows` is the order in
        which the query returned them. */
    method Withdraw(k: Id, reason: Reason, now: int, actor: Actor, only: Option<Id>) returns (rows: seq<Id>)
      modifies this`requests, this`codes, this`events
      ensures Withdrawn(old(Contents()), Contents(), k, rows, ActiveRequests(old(Contents()), k, only), reason, now,
                        actor)
      ensures |ActiveRequests(old(Contents()), k, only)| <= 1 ==>
                Contents() == InvalidateRequests(old(Contents()), k, reason, now, actor, only)
    {
      hide ActiveRequests, Withdrawn, InvalidateRequests, InvalidationEvent, WithdrawnRequest, WithCodesOf;
      var rest := ActiveRequests(Contents(), k, only);
      ghost var hits := rest;
      ghost var done := {};
      rows := [];
      NothingWithdrawn(Contents(), k, reason, now, actor);
      while rest != {}
        invariant done + rest == hits && done !! rest
        invariant Withdrawn(old(Contents()), Contents(), k, rows, done, reason, now, actor)
      {
        var id :| id in rest;
        HitIsRequest(old(Contents()), k, only, id);
        ghost var before := Contents();
        OneMoreWithdrawn(old(Contents()), before, k, rows, done, reason, now, actor, id);
        assert before.events + [] == before.events;
        requests := requests[id := WithdrawnRequest(requests[id], reason)];
        codes := WithCodesOf(codes, id, reason);
        if k in orders {
          events := events + [InvalidationEvent(orders[k], k, id, reason, now, actor)];
        }
        rows := rows + [id];
        rest, done := rest - {id}, done + {id};
      }
      assert done == hits;
      OneRowIsEnough(old(Contents()), Contents(), k, rows, reason, now, actor, only);
    }

    /** What every status write begins with: the record is stored, and the requests that reviewed it as it
        was are retired. */
    method Save(k: Id, record: Order, reason: Reason, actor: Actor)
      requires Inv(Contents())
      modifies this
      ensures Contents() == InvalidateRequests(old(Contents()).(orders := old(orders)[k := record]), k, reason,
                                               record.updatedAt, actor, None)
    {
      hide Inv, InvalidateRequests, Withdrawn, ActiveRequests;
      ActiveAtMostOnce(Contents(), k, None);
      orders := orders[k := record];
      SameActive(old(Contents()), Contents(), k, None);
      var rows := Withdraw(k, reason, record.updatedAt, actor, None);
    }

    /** The row of the latest cancellation attempt of k: the largest time, the first such row. */
    method LatestAttemptRow(k: Id) returns (found: Option<nat>)
      ensures LatestAttempt(events, k, found)
    {
      found := None;
      for i := 0 to |events|
        invariant LatestAttempt(events[..i], k, found)
      {
        assert events[..i + 1] == events[..i] + [events[i]];
        if IsAttempt(events[i], k) && (found.None? || events[i].occurredAt > events[found.value].occurredAt) {
          found := Some(i);
        }
      }
      assert events[..|events|] == events;
    }

    /** The dashboard logs the authorization it grants itself. */
    method GrantSelf(k: Id, draftId: Id, authorizationId: Id, action: Action, actor: Actor, now: int)
      modifies this`events
      ensures events == old(events) + SelfAuthorization(k, draftId, authorizationId, action, actor, now)
    {
      if actor == Dashboard {
        var details := Authorization(authorizationId, action);
        events := events + [Event(Some(k), Some(draftId), AuthorizationCreated, actor, None, None, None, details, now)];
        events := events + [Event(Some(k), Some(draftId), AuthorizationConsumed, actor, None, None, None, details,
                                  now)];
      }
    }

    // ---------- Submission ----------

    method BeginSubmission(draftId: Id, k: Id, clientOrderId: string, authorizationId: Id, now: int, actor: Actor)
      returns (reply: Reply)
      requires Valid()
      modifies this`orders, this`events
      ensures (Contents(), reply)
              == Database.BeginSubmission(old(Contents()), draftId, k, clientOrderId, authorizationId, now, actor)
      ensures Keeps(old(Contents()), Contents())
    {
      hide Inv, Evolves;
      BeginSubmissionKeeps(Contents(), draftId, k, clientOrderId, authorizationId, now, actor);
      AtMostOneOrderFor(Contents(), draftId);
      if x :| x in orders && orders[x].draftId == draftId {
        assert IsOrderFor(Contents(), draftId, x);
        return Ordered(x, false);
      }
      if draftId !in drafts || k in orders || exists x :: x in orders && orders[x].clientOrderId == clientOrderId {
        return Failed(IntegrityError);
      }
      var record := NewOrder(draftId, drafts[draftId], clientOrderId, now);
      orders := orders[k := record];
      GrantSelf(k, draftId, authorizationId, SubmitAction, actor, now);
      events := events + [OrderEvent(record, k, SubmissionStarted, actor, None, Some(Submitting), None, NoDetails,
                                     now)];
      reply := Ordered(k, true);
    }

    method MarkStarted(k: Id, expectedVersion: int, at: int) returns (reply: Reply)
      requires Valid()
      modifies this`orders
      ensures (Contents(), reply) == Database.MarkStarted(old(Contents()), k, expectedVersion, at)
      ensures Keeps(old(Contents()), Contents())
    {
      hide Inv, Evolves;
      MarkStartedKeeps(Contents(), k, expectedVersion, at);
      if k !in orders || orders[k].version != expectedVersion || orders[k].state != Submitting {
        return Failed(ConcurrentUpdate);
      }
      orders := orders[k := orders[k].(submissionStartedAt := Some(at))];
      reply := Done;
    }

    /** None when the reported fill is unacceptable for the order or for the reported state. */
    static method CheckFill(record: Order, r: Submitted) returns (accepted: Option<Option<Fill>>)
      ensures accepted == SubmittedFill(record, r)
    {
      if r.fill.None? {
        return Some(None);
      }
      var fill := ValidateFill(r.fill.value, record.terms.quantity, record.Filled());
      if fill.None? {
        return None;
      }
      if r.state == Filled && fill.value.quantity.value != record.terms.quantity {
        return None;
      }
      if r.state == PartiallyFilled && fill.value.quantity.value >= record.terms.quantity {
        return None;
      }
      accepted := Some(fill);
    }

    static method WriteResult(before: Order, r: Submitted, fill: Option<Fill>, now: int) returns (record: Order)
      ensures record == FinishedOrder(before, r, fill, now)
    {
      record := before.(state := r.state);
      if r.brokerOrderId.Some? {
        record := record.(brokerOrderId := r.brokerOrderId);
      }
      record := record.(resultCode := r.code, resultSource := Some(r.source));
      if fill.Some? {
        record := record.(fill := fill);
      }
      record := record.(updatedAt := Max(now, record.updatedAt), version := record.version + 1);
    }

    method FinishSubmission(k: Id, expectedVersion: int, r: Submitted, now: int, actor: Actor) returns (reply: Reply)
      requires Valid()
      modifies this
      ensures (Contents(), reply) == Database.FinishSubmission(old(Contents()), k, expectedVersion, r, now, actor)
      ensures Faithful(old(Contents()), TxFinishSubmission(k, expectedVersion, r, now, actor)) ==>
                Keeps(old(Contents()), Contents())
    {
      hide Inv, Evolves, Keeps, InvalidateRequests, Withdrawn, ActiveRequests, ValidateFill, Successors, EventCode,
           DraftExpiryLogged, SubmittedFill, Commit, FinishedOrder;
      if expectedVersion == 1 && (r.brokerOrderId.Some? ==> Stripped(r.brokerOrderId.value)) {
        FinishSubmissionKeeps(Contents(), k, r, now, actor);
      }
      if k !in orders {
        return Failed(MissingRecord);
      }
      var record := orders[k];
      if record.version != expectedVersion {
        return Failed(ConcurrentUpdate);
      }
      var previous, draftId := record.state, record.draftId;
      if !CanTransition(previous, r.state) {
        return Failed(IllegalTransition);
      }
      var accepted := CheckFill(record, r);
      if accepted.None? {
        return Failed(InvalidValue);
      }
      var fill := accepted.value;
      var expiring := r.code == Some("draft_expired") && draftId in drafts && !DraftExpiryLogged(Contents(), draftId);
      var expiry := if expiring then Some(drafts[draftId].expiresAt) else None;
      record := WriteResult(record, r, fill, now);
      assert old(events) + [] == old(events);
      Save(k, record, StateChanged, System);
      ghost var saved := Contents();
      LogResult(record, k, previous, r, fill, actor, expiry);
      Committed(old(Contents()), k, record, [], StateChanged, System,
                ResultEvents(record, k, previous, r, fill, actor, expiry), saved, Contents());
      reply := Done;
    }

    method LogResult(record: Order, k: Id, previous: OrderState, r: Submitted, fill: Option<Fill>, actor: Actor,
                     expiry: Option<int>)
      modifies this`events
      ensures events == old(events) + ResultEvents(record, k, previous, r, fill, actor, expiry)
    {
      hide EventCode;
      var result := OrderEvent(record, k, if previous == Submitting then SubmissionResult else StatusTransition, actor,
                               Some(previous), Some(r.state), Some(EventCode(r.code, r.state)), Status(r.source, fill),
                               record.updatedAt);
      events := events + [result];
      if expiry.Some? {
        events := events + [OrderEvent(record, k, DraftExpired, actor, None, None, Some("draft_expired"),
                                       Expiry(expiry.value),
                                       record.updatedAt)];
      }
    }

    // ---------- Cancellation ----------

    /** `found` is the row the latest-attempt query returned. */
    method BeginCancellation(k: Id, expectedVersion: int, expectedState: OrderState, attemptId: Id, now: int,
                             actor: Actor)
      returns (reply: Reply, found: Option<nat>)
      requires Valid()
      modifies this
      ensures LatestAttempt(old(events), k, found)
      ensures (Contents(), reply)
              == Database.BeginCancellation(old(Contents()), k, expectedVersion, expectedState, attemptId, now, actor,
                                            found)
      ensures Keeps(old(Contents()), Contents())
    {
      hide Inv, Evolves, Keeps, InvalidateRequests, Withdrawn, ActiveRequests, LatestAttempt, AttemptLogged,
           Order.CanCancel, Commit, SelfAuthorization;
      found := LatestAttemptRow(k);
      BeginCancellationKeeps(Contents(), k, expectedVersion, expectedState, attemptId, now, actor, found);
      ActiveAtMostOnce(Contents(), k, None);
      FoundIsAttempt(events, k, found);
      if k !in orders {
        return Failed(MissingRecord), found;
      }
      var record := orders[k];
      if record.state == Canceled {
        return CancelReply(None, false), found;
      }
      if record.state == CancelPending {
        return CancelReply(if found.Some? then Some(events[found.value].details.attemptId) else None, false), found;
      }
      if record.version != expectedVersion || record.state != expectedState {
        return Failed(ConcurrentUpdate), found;
      }
      if !record.CanCancel() {
        return Failed(OrderNotCancelable), found;
      }
      if AttemptLogged(events, k, attemptId) {
        return Failed(IntegrityError), found;
      }
      record := record.(state := CancelPending, version := record.version + 1, updatedAt := Max(now, record.updatedAt));
      orders := orders[k := record];
      GrantSelf(k, record.draftId, attemptId, CancelAction, actor, now);
      events := events + [OrderEvent(record, k, CancellationRequested, actor, None, None, None, Attempt(attemptId),
                                     now)];
      ghost var granted := SelfAuthorization(k, record.draftId, attemptId, CancelAction, actor, now)
                           + [AttemptEvent(old(orders)[k], k, attemptId, actor, now)];
      assert events == old(events) + granted;
      SameActive(old(Contents()), Contents(), k, None);
      var rows := Withdraw(k, CancellationStarted, record.updatedAt, actor, None);
      ghost var withdrawn := Contents();
      var transition := OrderEvent(record, k, StatusTransition, actor, Some(expectedState), Some(CancelPending), None,
                                   Status(FromLocal, record.fill), record.updatedAt);
      events := events + [transition];
      Committed(old(Contents()), k, record, granted, CancellationStarted, actor, [transition], withdrawn, Contents());
      reply := CancelReply(Some(attemptId), true);
    }

    method FinishCancellation(k: Id, attemptId: Id, seen: CancellationObservation, now: int, actor: Actor)
      returns (reply: Reply, found: Option<nat>)
      requires Valid()
      modifies this
      ensures LatestAttempt(old(events), k, found)
      ensures (Contents(), reply) == Database.FinishCancellation(old(Contents()), k, attemptId, seen, now, actor, found)
      ensures Keeps(old(Contents()), Contents())
    {
      hide Inv, Evolves, Keeps, InvalidateRequests, Withdrawn, ActiveRequests, LatestAttempt, ResolveCancellation,
           EventCode, Successors, KindCode, KindSource, KindOutcome, Order.Filled, Commit;
      found := LatestAttemptRow(k);
      FinishCancellationKeeps(Contents(), k, attemptId, seen, now, actor, found);
      FoundIsAttempt(events, k, found);
      if k !in orders {
        return Failed(MissingRecord), found;
      }
      var record := orders[k];
      if record.state != CancelPending {
        return Done, found;
      }
      if found.Some? && events[found.value].details.attemptId != attemptId {
        return Done, found;
      }
      var r := ResolveCancellation(record.terms.quantity, record.Filled(), seen);
      if !CanTransition(record.state, r.state) {
        return Failed(IllegalTransition), found;
      }
      record := WriteOutcome(record, r, now);
      assert old(events) + [] == old(events);
      Save(k, record, OrderBecame(r.state), actor);
      ghost var saved := Contents();
      LogOutcome(record, k, attemptId, r, actor);
      Committed(old(Contents()), k, record, [], OrderBecame(r.state), actor,
                [OutcomeEvent(record, k, r, attemptId, actor), SettledEvent(record, k, r, actor)], saved, Contents());
      reply := Done;
    }

    static method WriteOutcome(before: Order, r: Resolution, now: int) returns (record: Order)
      ensures record == ResolvedOrder(before, r, now)
    {
      record := before;
      if r.fill.Some? {
        record := record.(fill := r.fill);
      }
      record := record.(state := r.state, resultCode := Some(KindCode(r.kind)),
                        resultSource := Some(KindSource(r.kind)));
      record := record.(updatedAt := Max(now, record.updatedAt), version := record.version + 1);
    }

    method LogOutcome(record: Order, k: Id, attemptId: Id, r: Resolution, actor: Actor)
      modifies this`events
      ensures events == old(events) + [OutcomeEvent(record, k, r, attemptId, actor), SettledEvent(record, k, r, actor)]
    {
      hide EventCode, KindCode, KindOutcome, KindSource;
      var result := OrderEvent(record, k, CancellationResult, actor, Some(CancelPending), Some(r.state),
                               Some(EventCode(Some(KindCode(r.kind)), r.state)),
                               CancelOutcome(attemptId, KindOutcome(r.kind)), record.updatedAt);
      events := events + [result];
      var transition := OrderEvent(record, k, StatusTransition, actor, Some(CancelPending), Some(r.state), None,
                                   Status(KindSource(r.kind), record.fill), record.updatedAt);
      events := events + [transition];
    }

    /** One pass of recovery: every order left in Submitting whose draft nobody holds becomes Unknown.
        `held` are the drafts whose locks other processes hold. */
    method RecoverStranded(now: int, held: set<Id>) returns (recovered: nat)
      requires Valid()
      modifies this
      ensures Valid()
      ensures recovered == |Stranded(old(orders), held)|
      ensures Stranded(orders, held) == {}
      ensures orders == RecoveredOrders(old(orders), Stranded(old(orders), held), now)
      ensures OnlyStrandedBecomeUnknown(old(orders), orders, held, now)
    {
      hide OnlyStrandedBecomeUnknown;
      hide Inv, Evolves, Keeps, RecoveredOrder, Database.RecoverOne, RecoveredOrders, Stranded, Progress;
      var candidates := set k | k in orders && orders[k].state == Submitting;
      recovered := 0;
      ghost var done := {};
      RecoveryStarts(orders, held, now);
      while candidates != {}
        invariant Valid() && orders == RecoveredOrders(old(orders), done, now)
        invariant Progress(old(orders), held, candidates, done) && recovered == |done|
      {
        var k :| k in candidates;
        RecoveryStep(old(orders), held, candidates, done, k, now);
        candidates := candidates - {k};
        if orders[k].draftId !in held {
          var moved := RecoverOne(k, now);
          if moved {
            recovered := recovered + 1;
            done := done + {k};
          }
        }
      }
      RecoveryEnds(old(orders), held, done, now);
      RecoveredBecomeUnknown(old(orders), held, now);
    }

    /** One conditional update of recovery. */
    method RecoverOne(k: Id, now: int) returns (moved: bool)
      requires Valid()
      modifies this
      ensures (Contents(), Answer(moved)) == Database.RecoverOne(old(Contents()), k, now)
      ensures Valid() && Keeps(old(Contents()), Contents())
      ensures moved <==> k in old(orders) && old(orders)[k].state == Submitting
      ensures orders == if moved then old(orders)[k := RecoveredOrder(old(orders)[k], now)] else old(orders)
    {
      hide Inv, Evolves, InvalidateRequests, Withdrawn, ActiveRequests, Commit;
      RecoverOneKeeps(Contents(), k, now);
      ActiveAtMostOnce(Contents(), k, None);
      if k !in orders || orders[k].state != Submitting {
        return false;
      }
      var record := orders[k];
      record := record.(state := Unknown, resultCode := Some("unknown"), resultSource := Some(FromSystem));
      record := record.(updatedAt := Max(now, record.updatedAt), version := record.version + 1);
      orders := orders[k := record];
      SameActive(old(Contents()), Contents(), k, None);
      assert events == old(events) + [];
      var rows := Withdraw(k, StateChanged, record.updatedAt, System, None);
      ghost var withdrawn := Contents();
      InvalidateKeepsOrders(old(Contents()).(orders := old(orders)[k := record], events := old(events) + []), k,
                            StateChanged,
                            record.updatedAt, System, None);
      var transition := OrderEvent(record, k, StatusTransition, System, Some(Submitting), Some(Unknown),
                                   Some("unknown"),
                                   Status(FromSystem, None), record.updatedAt);
      events := events + [transition];
      Committed(old(Contents()), k, record, [], StateChanged, System, [transition], withdrawn, Contents());
      moved := true;
    }

    // ---------- Cancellation requests ----------

    method CreateRequest(k: Id, reviewed: Order, requestId: Id, now: int, expiresAt: int) returns (reply: Reply)
      requires Valid()
      modifies this
      ensures (Contents(), reply) == Database.CreateRequest(old(Contents()), k, reviewed, requestId, now, expiresAt)
      ensures Faithful(old(Contents()), TxCreateRequest(k, reviewed, requestId, now, expiresAt)) ==>
                Keeps(old(Contents()), Contents())
    {
      hide Inv, Evolves, Keeps, InvalidateRequests, Withdrawn, ActiveRequests, Order.CanCancel;
      if Current(Contents(), k, reviewed.version) ==> SameReview(orders[k], reviewed) {
        CreateRequestKeeps(Contents(), k, reviewed, requestId, now, expiresAt);
      }
      ActiveAtMostOnce(Contents(), k, None);
      if k !in orders || orders[k].version != reviewed.version || orders[k].state != reviewed.state
         || orders[k].terms.accountId != reviewed.terms.accountId {
        return Failed(ConcurrentUpdate);
      }
      if !orders[k].CanCancel() {
        return Failed(OrderNotCancelable);
      }
      if requestId in requests {
        return Failed(IntegrityError);
      }
      var rows := Withdraw(k, Superseded, now, Mcp, None);
      requests := requests[requestId := NewRequest(k, reviewed, now, expiresAt)];
      events := events + [OrderEvent(orders[k], k, CancellationRequestCreated, Mcp, None, None, None,
                                     RequestCreated(requestId, expiresAt), now)];
      reply := Done;
      InvalidateKeepsOrders(old(Contents()), k, Superseded, now, Mcp, None);
    }

    method AuthorizeRequest(requestId: Id, expected: Fingerprint, codeId: Id, now: int, expiresAt: int)
      returns (reply: Reply)
      requires Valid()
      modifies this
      ensures (Contents(), reply)
              == Database.AuthorizeRequest(old(Contents()), requestId, expected, codeId, now, expiresAt)
      ensures Keeps(old(Contents()), Contents())
    {
      hide Inv, Evolves, Keeps, InvalidateRequests, Withdrawn, ActiveRequests, Order.CanCancel, SupersedeCodes;
      AuthorizeRequestKeeps(Contents(), requestId, expected, codeId, now, expiresAt);
      if requestId !in requests {
        return Failed(RequestMissing);
      }
      var request := requests[requestId];
      ActiveAtMostOnce(Contents(), request.orderId, None);
      ActiveAtMostOnce(Contents(), request.orderId, Some(requestId));
      if request.status != Pending {
        return Failed(RequestNotPending);
      }
      if now > request.expiresAt {
        var rows := Withdraw(request.orderId, PastExpiry, now, Mcp, Some(requestId));
        return Failed(RequestExpired);
      }
      if request.fingerprint != expected {
        return Failed(FingerprintMismatch);
      }
      if request.orderId !in orders || orders[request.orderId].version != request.expectedVersion
         || orders[request.orderId].state != request.expectedState {
        var rows := Withdraw(request.orderId, StateChanged, now, Dashboard, None);
        return Failed(RequestStale);
      }
      var record := orders[request.orderId];
      if !record.CanCancel() {
        var rows := Withdraw(request.orderId, NotCancelable, now, Dashboard, None);
        return Failed(OrderNotCancelable);
      }
      if codeId in codes {
        return Failed(IntegrityError);
      }
      requests := requests[requestId := request.(status := Authorized)];
      codes := SupersedeCodes(codes, None, None, Some(requestId));
      codes := codes[codeId := CancelCode(request, requestId, now, expiresAt)];
      events := events + [OrderEvent(record, request.orderId, AuthorizationCreated, Dashboard, None, None, None,
                                     Authorization(codeId, CancelAction), now)];
      reply := Done;
    }

    method ReadRequest(requestId: Id, now: int) returns (request: Option<Request>)
      requires Valid()
      modifies this
      ensures Contents() == Database.ReadRequest(old(Contents()), requestId, now).0
      ensures Keeps(old(Contents()), Contents())
      ensures request == if requestId in requests then Some(requests[requestId]) else None
    {
      hide Inv, Evolves, InvalidateRequests, Withdrawn, ActiveRequests;
      Untouched(Contents());
      if requestId !in requests {
        return None;
      }
      var record := requests[requestId];
      if Active(record.status) && now > record.expiresAt {
        ActiveAtMostOnce(Contents(), record.orderId, Some(requestId));
        InvalidateKeepsInv(Contents(), record.orderId, PastExpiry, now, System, Some(requestId));
        var rows := Withdraw(record.orderId, PastExpiry, now, System, Some(requestId));
        WithdrawnStays(old(Contents()), record.orderId, PastExpiry, now, System, Some(requestId), requestId);
      }
      request := Some(requests[requestId]);
    }

    /** "expired" withdraws the request; "attempted" overwrites its status, whatever it was. */
    method UpdateRequestStatus(requestId: Id, expired: bool, now: int)
      requires Valid()
      modifies this
      ensures Contents() == if expired then Database.ExpireRequest(old(Contents()), requestId, now).0
                            else Database.MarkAttempted(old(Contents()), requestId).0
      ensures expired || CodeSpentFor(old(codes), requestId) ==> Keeps(old(Contents()), Contents())
    {
      hide Inv, Evolves, InvalidateRequests, Withdrawn, ActiveRequests, CodeSpentFor;
      Untouched(Contents());
      if CodeSpentFor(codes, requestId) {
        MarkAttemptedKeeps(Contents(), requestId);
      }
      if requestId in requests {
        if !expired {
          requests := requests[requestId := requests[requestId].(status := Attempted)];
        } else if Active(requests[requestId].status) {
          var k := requests[requestId].orderId;
          ActiveAtMostOnce(Contents(), k, Some(requestId));
          InvalidateKeepsInv(Contents(), k, PastExpiry, now, Mcp, Some(requestId));
          var rows := Withdraw(k, PastExpiry, now, Mcp, Some(requestId));
        }
      }
    }

    // ---------- Reconciliation ----------

    /** The group's first candidate in due order, kept as the orders are walked in any order. */
    method Target(g: Group) returns (target: Option<Id>)
      ensures IsTarget(Contents(), g, target)
      ensures target.None? <==> Candidates(Contents(), g) == {}
      ensures target.Some? ==> ComesFirst(Contents(), g, target.value)
    {
      hide DueBefore, ComesFirst;
      target := None;
      var rest := orders.Keys;
      ghost var seen := {};
      while rest != {}
        invariant seen + rest == orders.Keys
        invariant target.None? ==> seen * Candidates(Contents(), g) == {}
        invariant target.Some? ==>
                    && target.value in seen * Candidates(Contents(), g)
                    && forall j <- seen * Candidates(Contents(), g) ::
                      j != target.value ==> DueBefore(Contents(), target.value, j)
      {
        var k :| k in rest;
        var due := target.None? || DueBefore(Contents(), k, target.value);
        if GroupOf(orders[k]) == g && Syncable(orders[k].state) && due {
          if target.Some? {
            forall j <- seen * Candidates(Contents(), g) ensures j != k ==> DueBefore(Contents(), k, j) {
              DueIsTotal(Contents(), k, target.value, j);
            }
          }
          target := Some(k);
        } else if target.Some? && k in Candidates(Contents(), g) {
          DueIsTotal(Contents(), k, target.value, k);
        }
        rest, seen := rest - {k}, seen + {k};
      }
      assert seen == orders.Keys;
      if target.Some? {
        TargetComesFirst(Contents(), g, target.value);
      }
    }

    /** The plans shown to clients: for each group that has one, its target and the next time a claim
        would pass, in the order of the groups. None stands for the ValueError on a short interval. */
    method RefreshPlans(groups: set<Group>, now: int, interval: int) returns (plans: Option<seq<RefreshPlan>>)
      ensures plans.None? <==> interval < MINIMUM_INTERVAL
      ensures plans.Some? ==> forall i, j ::
                0 <= i < j < |plans.value| ==> GroupBefore(plans.value[i].group, plans.value[j].group)
      ensures plans.Some? ==> forall p <- plans.value ::
                p.group in groups && IsTarget(Contents(), p.group, Some(p.target))
                  && ComesFirst(Contents(), p.group, p.target)
                  && p.nextAt == GateNextAt(Contents(), p.group, now, interval)
      ensures plans.Some? ==> forall g <- groups :: Candidates(Contents(), g) != {} ==> exists p <- plans.value ::
                p.group == g
    {
      if interval < MINIMUM_INTERVAL {
        return None;
      }
      hide GroupBefore, DueBefore, ComesFirst;
      var rest := groups;
      var found: seq<RefreshPlan> := [];
      while rest != {}
        invariant rest <= groups
        invariant forall i, j :: 0 <= i < j < |found| ==> GroupBefore(found[i].group, found[j].group)
        invariant forall i, g :: 0 <= i < |found| && g in rest ==> GroupBefore(found[i].group, g)
        invariant forall p <- found ::
                    p.group in groups && IsTarget(Contents(), p.group, Some(p.target))
                      && ComesFirst(Contents(), p.group, p.target)
                      && p.nextAt == GateNextAt(Contents(), p.group, now, interval)
        invariant forall g <- groups - rest :: Candidates(Contents(), g) != {} ==> exists p <- found :: p.group == g
      {
        var g := LeastGroup(rest);
        var target := Target(g);
        ghost var earlier := found;
        if target.Some? {
          found := found + [RefreshPlan(g, target.value, GateNextAt(Contents(), g, now, interval))];
          assert found[|earlier|] in found;
        }
        forall h <- groups - (rest - {g}) | Candidates(Contents(), h) != {} ensures exists p <- found :: p.group == h {
          if h != g {
            var p :| p in earlier && p.group == h;
            assert p in found;
          }
        }
        rest := rest - {g};
      }
      plans := Some(found);
    }

    method ClaimReconciliation(k: Id, attemptId: Id, at: int, interval: int) returns (reply: Reply)
      requires Valid()
      modifies this`gates, this`events
      ensures (Contents(), reply) == Database.ClaimReconciliation(old(Contents()), k, attemptId, at, interval)
      ensures Keeps(old(Contents()), Contents())
    {
      hide Inv, Evolves;
      Untouched(Contents());
      if interval < 0 {
        return Failed(InvalidValue);
      }
      if k !in orders {
        return Failed(MissingRecord);
      }
      reply := PassGate(k, attemptId, at, interval);
    }

    /** The upsert on the gate: inserts it, or moves it when its last time is an interval old. */
    method PassGate(k: Id, attemptId: Id, at: int, interval: int) returns (reply: Reply)
      requires Valid() && k in orders && interval >= 0
      modifies this`gates, this`events
      ensures (Contents(), reply) == ClaimThroughGate(old(Contents()), k, attemptId, at, interval)
      ensures Keeps(old(Contents()), Contents())
    {
      hide Inv, Evolves;
      ClaimThroughGateKeeps(Contents(), k, attemptId, at, interval);
      var g := GroupOf(orders[k]);
      if g in gates && gates[g] > at - interval {
        return Throttled(Max(at, gates[g] + interval));
      }
      gates := gates[g := at];
      events := events + [OrderEvent(orders[k], k, ReconciliationAttempted, System, None, None, None,
                                     Attempt(attemptId), at)];
      reply := Claimed(orders[k]);
    }

    method ClaimPlanned(k: Id, attemptId: Id, at: int, interval: int) returns (reply: Reply, target: Option<Id>)
      requires Valid()
      modifies this`gates, this`events
      ensures k in old(orders) ==> IsTarget(old(Contents()), GroupOf(old(orders)[k]), target)
      ensures (Contents(), reply) == Database.ClaimPlanned(old(Contents()), k, attemptId, at, interval, target)
      ensures Keeps(old(Contents()), Contents())
    {
      hide Inv, Evolves, IsTarget;
      Untouched(Contents());
      target := None;
      if k in orders {
        target := Target(GroupOf(orders[k]));
      }
      if interval < MINIMUM_INTERVAL {
        return Failed(InvalidValue), target;
      }
      if k !in orders {
        return Failed(MissingRecord), target;
      }
      if target != Some(k) {
        return TargetChanged(GateNextAt(Contents(), GroupOf(orders[k]), at, interval), target), target;
      }
      reply := PassGate(k, attemptId, at, interval);
    }

    method FinishReconciliation(k: Id, attemptId: Id, expectedVersion: int, expectedState: OrderState, f: Finding,
                                now: int)
      returns (reply: Reply)
      requires Valid()
      modifies this
      ensures (Contents(), reply)
              == Database.FinishReconciliation(old(Contents()), k, attemptId, expectedVersion, expectedState, f, now)
      ensures Faithful(old(Contents()),
                       TxFinishReconciliation(k, attemptId, expectedVersion, expectedState, f, now)) ==>
                Keeps(old(Contents()), Contents())
    {
      hide Inv, Evolves, Keeps, InvalidateRequests, Withdrawn, ActiveRequests, FindingFits, FindingError, FindingFill,
           ReconciliationEvents, Commit, ReconciledOrder, STATUS_LABELS;
      if expectedState != Submitting && (Current(Contents(), k, expectedVersion) ==> FindingFits(orders[k], f)) {
        FinishReconciliationKeeps(Contents(), k, attemptId, expectedVersion, expectedState, f, now);
      }
      if f.statusLabel.Some? && f.statusLabel.value !in STATUS_LABELS {
        return Failed(InvalidValue);
      }
      if k !in orders {
        return Failed(MissingRecord);
      }
      var record := orders[k];
      if record.version != expectedVersion || record.state != expectedState {
        return Failed(ConcurrentUpdate);
      }
      var error, fill := CheckFinding(record, f);
      if error.Some? {
        return Failed(error.value);
      }
      var before := record;
      record := ReconciledOrder(before, f, fill, now);
      assert old(events) + [] == old(events);
      var reason := if f.state == expectedState then StateChanged else OrderBecame(f.state);
      Save(k, record, reason, System);
      ghost var saved := Contents();
      LogReconciliation(before, record, k, attemptId, f, fill);
      Committed(old(Contents()), k, record, [], reason, System,
                ReconciliationEvents(before, record, k, attemptId, f, fill), saved, Contents());
      reply := Done;
    }

    method LogReconciliation(before: Order, record: Order, k: Id, attemptId: Id, f: Finding, fill: Option<Fill>)
      modifies this`events
      ensures events == old(events) + ReconciliationEvents(before, record, k, attemptId, f, fill)
    {
      var result := OrderEvent(record, k, ReconciliationResult, System, Some(before.state), Some(f.state),
                               Some(OutcomeCode(f.outcome)),
                               Reconciled(attemptId, f.outcome, f.source, fill, f.providerUpdatedAt, f.statusLabel),
                                 record.updatedAt);
      events := events + [result];
      if f.state != before.state {
        var transition := OrderEvent(record, k, StatusTransition, System, Some(before.state), Some(f.state),
                                     Some(EventCode(Some(OutcomeText(f.outcome)), f.state)), Status(f.source, fill),
                                       record.updatedAt);
        events := events + [transition];
      }
    }

    static method CheckFinding(record: Order, f: Finding) returns (error: Option<Error>, fill: Option<Fill>)
      ensures error == FindingError(record, f) && fill == FindingFill(record, f)
    {
      hide ValidateFill, Successors;
      fill := FindingFill(record, f);
      if f.state != record.state && !CanTransition(record.state, f.state) {
        return Some(IllegalTransition), fill;
      }
      if f.fill.Some? && fill.None? {
        return Some(InvalidValue), fill;
      }
      var filled := if fill.Some? then FilledQuantity(fill) else record.Filled();
      if f.state == Filled && filled != Some(record.terms.quantity) {
        return Some(InvalidValue), fill;
      }
      if f.state == PartiallyFilled && filled.Some? && filled.value >= record.terms.quantity {
        return Some(InvalidValue), fill;
      }
      error := None;
    }

    // ---------- Authorization codes ----------

    method CreateSubmitCode(codeId: Id, draftId: Id, now: int, expiresAt: int) returns (reply: Reply)
      requires Valid()
      modifies this`codes, this`events
      ensures (Contents(), reply) == Database.CreateSubmitCode(old(Contents()), codeId, draftId, now, expiresAt)
      ensures Keeps(old(Contents()), Contents())
    {
      hide Inv, Evolves, SupersedeCodes;
      CreateSubmitCodeKeeps(Contents(), codeId, draftId, now, expiresAt);
      if draftId !in drafts {
        return Failed(MissingRecord);
      }
      if codeId in codes {
        return Failed(IntegrityError);
      }
      codes := SupersedeCodes(codes, Some(SubmitAction), Some(draftId), None);
      var draft := drafts[draftId];
      codes := codes[codeId := Code(SubmitAction, Some(draftId), None, None, DraftPrint(draft.fingerprint),
                                    draft.terms.accountId,
                                    now, expiresAt, None, None, 0)];
      events := events + [Event(None, Some(draftId), AuthorizationCreated, Dashboard, None, None, None,
                                Authorization(codeId, SubmitAction), now)];
      reply := Done;
    }

    method ConsumeCode(codeId: Id, now: int) returns (consumed: bool)
      requires Valid()
      modifies this`codes, this`events
      ensures (Contents(), Answer(consumed)) == Database.ConsumeCode(old(Contents()), codeId, now)
      ensures Keeps(old(Contents()), Contents())
    {
      hide Inv, Evolves;
      ConsumeCodeKeeps(Contents(), codeId, now);
      consumed := codeId in codes && codes[codeId].consumedAt.None? && codes[codeId].invalidation.None?;
      if consumed {
        var code := codes[codeId];
        codes := codes[codeId := code.(consumedAt := Some(now))];
        events := events + [Event(code.orderId, code.draftId, AuthorizationConsumed, Mcp, None, None, None,
                                  Authorization(codeId, code.action), now)];
      }
    }

    method CountFailure(codeId: Id, reason: FailureReason)
      requires codeId in codes
      modifies this`codes
      ensures codes == old(codes)[codeId := FailedCode(old(codes)[codeId], reason)]
    {
      var code := codes[codeId];
      if reason == AuthorizationExpired {
        codes := codes[codeId := code.(invalidation := Some(PastExpiry))];
      } else if reason == VerificationFailed && Usable(code) {
        var failures := code.failedAttempts + 1;
        codes := codes[codeId := code.(failedAttempts := failures,
                                       invalidation := if failures >= MAX_FAILURES then Some(MaxAttempts) else None)];
      }
    }

    method RecordFailure(codeId: Option<Id>, draftId: Option<Id>, requestId: Option<Id>, action: Action,
                         reason: FailureReason, attemptId: Id, now: int) returns (reply: Reply)
      requires Valid()
      modifies this`codes, this`events
      ensures (Contents(), reply)
              == Database.RecordFailure(old(Contents()), codeId, draftId, requestId, action, reason, attemptId, now)
      ensures Keeps(old(Contents()), Contents())
    {
      hide Inv, Evolves, FailedCode;
      RecordFailureKeeps(Contents(), codeId, draftId, requestId, action, reason, attemptId, now);
      var code := None;
      var eventDraft, eventRequest, eventAction := draftId, requestId, action;
      if codeId.Some? && codeId.value in codes {
        code := Some(codes[codeId.value]);
        CountFailure(codeId.value, reason);
        eventDraft, eventRequest, eventAction := code.value.draftId, code.value.requestId, code.value.action;
      }
      var eventOrder := None;
      if code.Some? {
        eventOrder := code.value.orderId;
      } else if eventRequest.Some? && eventRequest.value in requests {
        eventOrder := Some(requests[eventRequest.value].orderId);
      }
      if eventOrder.Some? && eventOrder.value !in orders {
        eventOrder := None;
      }
      var at := if eventOrder.Some? then Max(now, orders[eventOrder.value].updatedAt) else now;
      events := events + [Event(eventOrder, if eventDraft.Some? && eventDraft.value in drafts then eventDraft else None,
                                AuthorizationFailed, Mcp, None, None, Some("authorization_invalid"),
                                Failure(attemptId, eventAction, Some(reason)), at)];
      reply := Done;
    }
  }

  /** The steps that end every status write. */
  lemma Committed(db: Db, k: Id, o': Order, before: seq<Event>, reason: Reason, actor: Actor, status: seq<Event>,
                  withdrawn: Db, after: Db)
    requires withdrawn == InvalidateRequests(db.(orders := db.orders[k := o'], events := db.events + before), k, reason,
                                             o'.updatedAt, actor, None)
    requires after == withdrawn.(events := withdrawn.events + status)
    ensures after == Commit(db, k, o', before, reason, actor, status)
  {
    hide InvalidateRequests;
  }

  lemma SameActive(db: Db, db': Db, k: Id, only: Option<Id>)
    requires db.requests == db'.requests
    ensures ActiveRequests(db, k, only) == ActiveRequests(db', k, only)
  {
  }

  lemma AtMostOneOrderFor(db: Db, draftId: Id)
    requires Inv(db)
    ensures forall x, y :: IsOrderFor(db, draftId, x) && IsOrderFor(db, draftId, y) ==> x == y
  {
    hide JournalOk, RequestsOk, CodesOk, AttemptsOk, GatesOk;
  }
}
