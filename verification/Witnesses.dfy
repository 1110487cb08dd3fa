/** Concrete runs: orders that can be canceled exist, and so do the inputs on which the code promises less
    than its names suggest. */
module Witnesses {
  import opened Common
  import opened Orders
  import opened Journal
  import opened Database
  import opened Invariants
  import opened WriteSets
  import opened Reconciliation
  import opened Runs
  import opened OrderTheorems
  import opened AttemptOwnership
  import opened Lifecycles

  function Last(h: seq<Db>): Db
    requires h != []
  {
    h[|h| - 1]
  }

  ghost predicate Reached(h: seq<Db>, txs: seq<Tx>) {
    |h| == |txs| + 1 && IsRun(h, txs)
  }

  lemma Extend(h: seq<Db>, txs: seq<Tx>, tx: Tx)
    requires Reached(h, txs) && Answerable(Last(h), tx) && Served(h, tx)
    ensures Reached(h + [Apply(Last(h), tx)], txs + [tx])
  {
    hide Apply, Served, Answerable;
    var h', txs' := h + [Apply(Last(h), tx)], txs + [tx];
    forall i | 0 <= i < |txs'|
      ensures Answerable(h'[i], txs'[i]) && Served(h'[..i + 1], txs'[i]) && h'[i + 1] == Apply(h'[i], txs'[i])
    {
      assert h'[..i + 1] == h[..i + 1];
    }
  }

  // ---------- An accepted order ----------

  const TERMS := Terms("account", "provider", "instrument", "SYM", "buy", "limit", 10.0, Some(5.0))
  const DRAFT := Draft(TERMS, "print", 0, 100)
  const ACCEPTED := Submitted(Accepted, Some("broker-1"), Some("accepted"), None, FromProvider)

  lemma BrokerIdCounts()
    ensures Strip("broker-1") == "broker-1" && Stripped("broker-1")
  {
    StripIsIdempotent("broker-1");
  }

  lemma StartsEmpty()
    ensures Reached([EMPTY], [])
  {
  }

  lemma Drafted() returns (h: seq<Db>, txs: seq<Tx>)
    ensures Reached(h, txs) && Last(h).drafts == map["draft" := DRAFT] && Last(h).orders == map[]
            && Last(h).codes == map[]
    ensures NoAttempts(Last(h).events)
  {
    StartsEmpty();
    var tx := TxSaveDraft("draft", DRAFT, Dashboard);
    Extend([EMPTY], [], tx);
    h, txs := [EMPTY] + [Apply(EMPTY, tx)], [] + [tx];
  }

  ghost predicate NoAttempts(events: seq<Event>) {
    forall e <- events :: e.kind != CancellationRequested
  }

  /** The log grows without a cancellation attempt. */
  ghost predicate Calm(events: seq<Event>, events': seq<Event>) {
    && events <= events'
    && forall i :: |events| <= i < |events'| ==> events'[i].kind != CancellationRequested
  }

  /** The record of the witnesses' only order, at its broker and unfilled. */
  predicate AtBroker(db: Db, state: OrderState, version: int) {
    && "order" in db.orders
    && var o := db.orders["order"];
    && o.state == state && o.version == version && o.terms == TERMS && o.draftId == "draft"
    && o.brokerOrderId == Some("broker-1") && o.fill.None? && o.providerUpdatedAt.None?
  }

  lemma FirstOrderBegins(db: Db, actor: Actor)
    requires db.orders == map[] && db.drafts == map["draft" := DRAFT] && NoAttempts(db.events)
    ensures var (db', reply) := BeginSubmission(db, "draft", "order", "client", "authorization", 1, actor);
            && reply == Ordered("order", true) && db'.orders == map["order" := NewOrder("draft", DRAFT, "client", 1)]
            && NoAttempts(db'.events)
  {
  }

  lemma FirstOrderIsMarked(db: Db)
    requires db.orders == map["order" := NewOrder("draft", DRAFT, "client", 1)]
    ensures var (db', reply) := MarkStarted(db, "order", 1, 2);
            && reply == Done && db'.events == db.events
            && db'.orders == map["order" := NewOrder("draft", DRAFT, "client", 1).(submissionStartedAt := Some(2))]
  {
  }

  lemma FirstOrderIsAccepted(db: Db, actor: Actor)
    requires db.orders == map["order" := NewOrder("draft", DRAFT, "client", 1).(submissionStartedAt := Some(2))]
             && NoAttempts(db.events)
    ensures var (db', reply) := FinishSubmission(db, "order", 1, ACCEPTED, 3, actor);
            reply == Done && AtBroker(db', Accepted, 2) && NoAttempts(db'.events)
  {
    hide Commit, EventCode;
    FinishSubmissionWrites(db, "order", 1, ACCEPTED, 3, actor);
    var o := db.orders["order"];
    var o' := FinishedOrder(o, ACCEPTED, None, 3);
    var result := OrderEvent(o', "order", SubmissionResult, actor, Some(Submitting), Some(Accepted),
                             Some(EventCode(ACCEPTED.code, Accepted)), Status(FromProvider, None), o'.updatedAt);
    var rest := CommitEvents(db, "order", o', [], StateChanged, System, [result] + []);
  }

  /** A draft is saved, submitted, handed over and accepted. */
  lemma AcceptedOrder() returns (h: seq<Db>, txs: seq<Tx>)
    ensures Reached(h, txs) && AtBroker(Last(h), Accepted, 2) && NoAttempts(Last(h).events)
  {
    hide BeginSubmission, FinishSubmission, NoAttempts, Strip, Stripped, IsRun;
    h, txs := Drafted();
    BrokerIdCounts();
    FirstOrderBegins(Last(h), Mcp);
    var begin := TxBeginSubmission("draft", "order", "client", "authorization", 1, Mcp);
    Extend(h, txs, begin);
    h, txs := h + [Apply(Last(h), begin)], txs + [begin];
    FirstOrderIsMarked(Last(h));
    var mark := TxMarkStarted("order", 1, 2);
    Extend(h, txs, mark);
    h, txs := h + [Apply(Last(h), mark)], txs + [mark];
    FirstOrderIsAccepted(Last(h), Mcp);
    var finish := TxFinishSubmission("order", 1, ACCEPTED, 3, Mcp);
    Extend(h, txs, finish);
    h, txs := h + [Apply(Last(h), finish)], txs + [finish];
  }

  lemma AtBrokerIsCancelable(db: Db, version: int)
    requires AtBroker(db, Accepted, version)
    ensures db.orders["order"].CanCancel()
  {
    BrokerIdCounts();
    hide Strip;
  }

  /** Runs reach orders that can be canceled. */
  lemma SomeRunReachesCancelableOrder() returns (h: seq<Db>, txs: seq<Tx>)
    ensures h != [] && IsRun(h, txs) && "order" in Last(h).orders && Last(h).orders["order"].CanCancel()
  {
    hide IsRun, NoAttempts;
    h, txs := AcceptedOrder();
    AtBrokerIsCancelable(Last(h), 2);
  }

  // ---------- A code with both marks ----------

  lemma CodeIsMarkedTwice(db: Db)
    requires db.drafts == map["draft" := DRAFT] && db.codes == map[]
    ensures var issued := CreateSubmitCode(db, "code", "draft", 0, 50).0;
            var spent := ConsumeCode(issued, "code", 49).0;
            var failed := RecordFailure(spent, Some("code"), None, None, SubmitAction, AuthorizationExpired, "failure",
                                        51).0;
            && "code" in failed.codes
            && failed.codes["code"].consumedAt.Some? && failed.codes["code"].invalidation.Some?
  {
  }

  /** A run in which a code ends up both spent and withdrawn: it is spent a moment before it expires, and a
      failure that found it expired is recorded after that. */
  lemma SomeRunMarksACodeTwice() returns (h: seq<Db>, txs: seq<Tx>)
    ensures h != [] && IsRun(h, txs) && "code" in Last(h).codes
    ensures Last(h).codes["code"].consumedAt.Some? && Last(h).codes["code"].invalidation.Some?
  {
    hide CreateSubmitCode, ConsumeCode, RecordFailure, IsRun, NoAttempts;
    h, txs := Drafted();
    CodeIsMarkedTwice(Last(h));
    var issue := TxCreateSubmitCode("code", "draft", 0, 50);
    Extend(h, txs, issue);
    h, txs := h + [Apply(Last(h), issue)], txs + [issue];
    var spend := TxConsumeCode("code", 49);
    Extend(h, txs, spend);
    h, txs := h + [Apply(Last(h), spend)], txs + [spend];
    var fail := TxRecordFailure(Some("code"), None, None, SubmitAction, AuthorizationExpired, "failure", 51);
    Extend(h, txs, fail);
    h, txs := h + [Apply(Last(h), fail)], txs + [fail];
  }

  // ---------- A late result that is applied ----------

  /** Row i holds the attempt `id`, and no attempt on the order has a later time. */
  ghost predicate Leads(events: seq<Event>, i: nat, id: Id, at: int) {
    && i < |events| && IsAttempt(events[i], "order") && events[i].details.attemptId == id && events[i].occurredAt == at
    && forall e <- events :: IsAttempt(e, "order") ==> e.occurredAt <= at
  }

  /** All attempts on the order are `id`. */
  ghost predicate Only(events: seq<Event>, id: Id) {
    forall e <- events :: IsAttempt(e, "order") ==> e.details.attemptId == id
  }

  lemma LeadsThroughCalm(events: seq<Event>, events': seq<Event>, i: nat, id: Id, at: int)
    requires Leads(events, i, id, at) && Only(events, id) && Calm(events, events')
    ensures Leads(events', i, id, at) && Only(events', id)
  {
    forall e <- events' | IsAttempt(e, "order") ensures e.occurredAt <= at && e.details.attemptId == id {
      var j :| 0 <= j < |events'| && events'[j] == e;
      assert events[j] in events;
    }
  }

  lemma LeadsIsLatest(events: seq<Event>, i: nat, id: Id, at: int)
    requires Leads(events, i, id, at)
    ensures LatestAttempt(events, "order", Some(i))
  {
  }

  /** A new attempt: it leads if no other attempt is later, and leaves the lead to one that is not earlier. */
  lemma AttemptBegins(db: Db, version: int, id: Id, now: int, found: Option<nat>) returns (i: nat)
    requires AtBroker(db, Accepted, version) && LatestAttempt(db.events, "order", found)
             && !AttemptLogged(db.events, "order", id)
    ensures var (db', reply) := BeginCancellation(db, "order", version, Accepted, id, now, Dashboard, found);
            && reply == CancelReply(Some(id), true) && AtBroker(db', CancelPending, version + 1)
            && (NoAttempts(db.events) ==> Leads(db'.events, i, id, now))
            && (forall j, other, at :: Leads(db.events, j, other, at) && now <= at ==> Leads(db'.events, j, other, at))
            && OwnsPending(db'.events, "order", i) && db'.events[i].details.attemptId == id
            && (NoAttempts(db.events) ==> Only(db'.events, id))
  {
    hide LatestAttempt, AttemptLogged, BeginCancellation, Leads, OwnerIsLatest, Only;
    AtBrokerIsCancelable(db, version);
    StartsWhenCurrent(db, "order", id, now, Dashboard, found);
    BeginCancellationWrites(db, "order", version, Accepted, id, now, Dashboard, found);
    var rest := BeginCommits(db, "order", version, Accepted, id, now, Dashboard, found);
    var o := db.orders["order"];
    var grant := SelfAuthorization("order", o.draftId, id, CancelAction, Dashboard, now);
    i := |db.events| + |grant|;
    var db' := BeginCancellation(db, "order", version, Accepted, id, now, Dashboard, found).0;
    var attempt := AttemptEvent(o, "order", id, Dashboard, now);
    AttemptLeads(db.events, grant, attempt, rest, id, now);
    OwnerOfAppended(db.events, grant, attempt, rest, "order");
  }

  lemma AttemptLeads(events: seq<Event>, grant: seq<Event>, attempt: Event, rest: seq<Event>, id: Id, now: int)
    requires IsAttempt(attempt, "order") && attempt.details.attemptId == id && attempt.occurredAt == now
    requires NoAttempts(grant) && NoAttempts(rest)
    ensures var events' := events + grant + [attempt] + rest;
            && (NoAttempts(events) ==> Leads(events', |events| + |grant|, id, now))
            && (forall j, other, at :: Leads(events, j, other, at) && now <= at ==> Leads(events', j, other, at))
            && (NoAttempts(events) ==> Only(events', id))
  {
    var events' := events + grant + [attempt] + rest;
    forall e <- events' ensures e in events || e in grant || e == attempt || e in rest {
    }
  }

  function Seen(state: OrderState): Snapshot {
    Snapshot("broker-1", None, "account", "instrument", "buy", "limit", Some(Finite(Amount(10.0, "10"))),
             Some(Finite(Amount(5.0, "5"))), "day", Naive(0), state, None, None, None)
  }

  function Found(state: OrderState): Finding {
    Finding(state, Matched, Some("broker-1"), None, None, None, FromProvider)
  }

  lemma SeenMatches(o: Order, state: OrderState)
    requires o.brokerOrderId == Some("broker-1") && o.terms == TERMS
    ensures Matches(o, Seen(state))
  {
    BrokerIdCounts();
    hide Strip;
  }

  lemma SeenIsPlanned(o: Order, state: OrderState)
    requires o.brokerOrderId == Some("broker-1") && o.terms == TERMS
             && (state == Unknown || (state == Accepted && o.state != CancelPending))
    ensures PlannedFor(o, Search(Some([Seen(state)]), true), PlanMatch(o, Seen(state)))
    ensures PlanMatch(o, Seen(state)) == Try(Found(state))
  {
    SeenMatches(o, state);
    BrokerIdCounts();
    var s := Seen(state);
    hide Matches, View, Strip;
    assert MatchingViews(o, [s]) == {View(s)};
    assert s in [s];
  }

  lemma FoundIsWritten(db: Db, version: int, from: OrderState, to: OrderState, attemptId: Id, now: int)
    requires AtBroker(db, from, version) && CanTransition(from, to) && from != to && (to == Unknown || to == Accepted)
    ensures var (db', reply) := FinishReconciliation(db, "order", attemptId, version, from, Found(to), now);
            reply == Done && AtBroker(db', to, version + 1) && Calm(db.events, db'.events)
  {
    hide Commit, EventCode, OutcomeCode, Successors;
    FinishReconciliationWrites(db, "order", attemptId, version, from, Found(to), now);
    var o := db.orders["order"];
    var o' := ReconciledOrder(o, Found(to), None, now);
    var status := ReconciliationEvents(o, o', "order", attemptId, Found(to), None);
    var rest := CommitEvents(db, "order", o', [], OrderBecame(to), System, status);
    assert db.events + [] + rest == db.events + rest;
    assert forall i :: |db.events| <= i < |db.events + rest| ==> (db.events + rest)[i] == rest[i - |db.events|];
  }

  /** The broker reports the order's state, and it is recorded. */
  lemma Reconciled(h: seq<Db>, txs: seq<Tx>, version: int, from: OrderState, to: OrderState, attemptId: Id, now: int)
    returns (h': seq<Db>, txs': seq<Tx>)
    requires Reached(h, txs) && AtBroker(Last(h), from, version) && Syncable(from)
    requires CanTransition(from, to) && from != to && (to == Unknown || (to == Accepted && from != CancelPending))
    ensures Reached(h', txs') && AtBroker(Last(h'), to, version + 1) && Calm(Last(h).events, Last(h').events)
  {
    hide IsRun, FinishReconciliation, PlannedFor, PlanMatch, Calm, Successors;
    var db := Last(h);
    var o := db.orders["order"];
    SeenIsPlanned(o, to);
    FoundIsWritten(db, version, from, to, attemptId, now);
    var tx := TxFinishReconciliation("order", attemptId, version, from, Found(to), now);
    assert PlanFinding(o, PlanMatch(o, Seen(to))) == Found(to);
    assert ClaimedAndPlanned(h[|h| - 1], h[|h| - 1], "order", version, from, Found(to));
    Extend(h, txs, tx);
    h', txs' := h + [Apply(db, tx)], txs + [tx];
  }

  /** A run in which an older attempt's late result is applied: the first attempt is stamped at 10 and its
      provider call hangs; the broker's reports take the order out of CancelPending and back to Accepted;
      the second attempt begins with a clock that reads 5; then the first attempt's answer arrives and
      cancels the order the second attempt owns. */
  lemma SomeRunAppliesALateResult() returns (h: seq<Db>, txs: seq<Tx>, i: nat)
    ensures |h| == |txs| + 1 && IsRun(h, txs) && |txs| > 0
    ensures var db, tx := h[|txs| - 1], txs[|txs| - 1];
            && "order" in db.orders && db.orders["order"].state == CancelPending
            && OwnsPending(db.events, "order", i) && db.events[i].details.attemptId == "second"
            && tx.TxFinishCancellation? && tx.k == "order" && tx.attemptId == "first"
            && "order" in Last(h).orders && Last(h).orders["order"].state == Canceled
  {
    hide IsRun, NoAttempts, Leads, Only, AttemptLogged, LatestAttempt, BeginCancellation, Calm, OwnsPending;
    h, txs := AcceptedOrder();
    NothingLogged(Last(h).events);
    var begin := TxBeginCancellation("order", 2, Accepted, "first", 10, Dashboard, None);
    var row := AttemptBegins(Last(h), 2, "first", 10, None);
    Extend(h, txs, begin);
    h, txs := h + [Apply(Last(h), begin)], txs + [begin];
    var calm := Last(h).events;
    h, txs := Reconciled(h, txs, 3, CancelPending, Unknown, "lookup-1", 11);
    LeadsThroughCalm(calm, Last(h).events, row, "first", 10);
    calm := Last(h).events;
    h, txs := Reconciled(h, txs, 4, Unknown, Accepted, "lookup-2", 12);
    LeadsThroughCalm(calm, Last(h).events, row, "first", 10);
    h, txs, i := SecondAttempt(h, txs, row);
    h, txs := LateResult(h, txs, row);
  }

  lemma NothingLogged(events: seq<Event>)
    requires NoAttempts(events)
    ensures LatestAttempt(events, "order", None) && !AttemptLogged(events, "order", "first")
  {
  }

  lemma SecondAttempt(h: seq<Db>, txs: seq<Tx>, row: nat) returns (h': seq<Db>, txs': seq<Tx>, i: nat)
    requires Reached(h, txs) && AtBroker(Last(h), Accepted, 5) && Leads(Last(h).events, row, "first", 10)
             && Only(Last(h).events, "first")
    ensures Reached(h', txs') && AtBroker(Last(h'), CancelPending, 6) && Leads(Last(h').events, row, "first", 10)
    ensures OwnsPending(Last(h').events, "order", i) && Last(h').events[i].details.attemptId == "second"
  {
    hide IsRun, NoAttempts, Leads, Only, LatestAttempt, BeginCancellation, AttemptLogged, OwnsPending;
    LeadsIsLatest(Last(h).events, row, "first", 10);
    OnlyFirstIsLogged(Last(h).events);
    i := AttemptBegins(Last(h), 5, "second", 5, Some(row));
    var begin := TxBeginCancellation("order", 5, Accepted, "second", 5, Dashboard, Some(row));
    Extend(h, txs, begin);
    h', txs' := h + [Apply(Last(h), begin)], txs + [begin];
  }

  lemma OnlyFirstIsLogged(events: seq<Event>)
    requires Only(events, "first")
    ensures !AttemptLogged(events, "order", "second")
  {
  }

  lemma LateResult(h: seq<Db>, txs: seq<Tx>, row: nat) returns (h': seq<Db>, txs': seq<Tx>)
    requires Reached(h, txs) && AtBroker(Last(h), CancelPending, 6) && Leads(Last(h).events, row, "first", 10)
    ensures txs' == txs + [TxFinishCancellation("order", "first", CANCELED, 20, Dashboard, Some(row))]
    ensures Reached(h', txs') && |h'| == |h| + 1 && h'[..|h|] == h
    ensures "order" in Last(h').orders && Last(h').orders["order"].state == Canceled
  {
    hide IsRun, LatestAttempt, Served;
    LeadsIsLatest(Last(h).events, row, "first", 10);
    var finish := TxFinishCancellation("order", "first", CANCELED, 20, Dashboard, Some(row));
    LateResultIsCanceled(Last(h), row);
    Extend(h, txs, finish) by { AnyFinishIsServed(h, finish); }
    h', txs' := h + [Apply(Last(h), finish)], txs + [finish];
  }

  const CANCELED := CancellationObservation(KindCanceled, None, None)

  lemma AnyFinishIsServed(h: seq<Db>, tx: Tx)
    requires h != [] && tx.TxFinishCancellation?
    ensures Served(h, tx)
  {
  }

  lemma LateResultIsCanceled(db: Db, row: nat)
    requires AtBroker(db, CancelPending, 6) && Leads(db.events, row, "first", 10)
             && LatestAttempt(db.events, "order", Some(row))
    ensures var db' := FinishCancellation(db, "order", "first", CANCELED, 20, Dashboard, Some(row)).0;
            "order" in db'.orders && db'.orders["order"].state == Canceled
  {
    hide LatestAttempt, EventCode, InvalidateRequests, Commit;
    FinishCancellationWrites(db, "order", "first", CANCELED, 20, Dashboard, Some(row));
    LateCommitOrders(db);
  }

  lemma LateCommitOrders(db: Db)
    ensures forall o': Order, reason: Reason, status: seq<Event> ::
              Commit(db, "order", o', [], reason, Dashboard, status).orders == db.orders["order" := o']
  {
    forall o': Order, reason: Reason, status: seq<Event>
      ensures Commit(db, "order", o', [], reason, Dashboard, status).orders == db.orders["order" := o']
    {
      CommitOrders(db, "order", o', [], reason, Dashboard, status);
    }
  }
}
