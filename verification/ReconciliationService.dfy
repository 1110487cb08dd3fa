/** Executing a claimed reconciliation: from the broker's answer to exactly one recorded result. */
module ReconciliationService {
  import opened Common
  import opened Orders
  import opened Journal
  import opened Database
  import opened Invariants
  import opened TableLemmas
  import opened Preservation
  import opened WriteSets
  import opened Reconciliation
  import opened ReconciliationOutcomes
  import opened Runs
  import opened OrderTheorems
  import opened OrderStore

  /** A rejected match is recorded as a refusal that keeps the state; a concurrent change is not. */
  ghost function Conclude(db: Db, k: Id, attemptId: Id, o: Order, plan: Plan, now: int): (Db, Reply) {
    var tried := FinishReconciliation(db, k, attemptId, o.version, o.state, PlanFinding(o, plan), now);
    if plan.Try? && tried.1.Failed? && tried.1.error != ConcurrentUpdate
    then FinishReconciliation(db, k, attemptId, o.version, o.state, KeepFinding(o, Refused), now)
    else tried
  }

  /** o is a record the store once held for k, at a version past its submission. */
  ghost predicate WasRead(db: Db, k: Id, o: Order) {
    && o.state != Submitting && OrderOk(o)
    && (Current(db, k, o.version) ==> db.orders[k] == o)
  }

  method FinishWithoutMatch(store: Store, k: Id, o: Order, attemptId: Id, now: int, outcome: Outcome)
    returns (reply: Reply)
    requires store.Valid()
    modifies store
    ensures (store.Contents(), reply)
         == FinishReconciliation(old(store.Contents()), k, attemptId, o.version, o.state, KeepFinding(o, outcome), now)
    ensures WasRead(old(store.Contents()), k, o) ==> store.Valid()
  {
    hide Inv, Evolves, FinishReconciliation, FindingFits;
    KeepFits(o, outcome);
    reply := store.FinishReconciliation(k, attemptId, o.version, o.state, KeepFinding(o, outcome), now);
  }

  method FinishMatch(store: Store, k: Id, o: Order, attemptId: Id, now: int, s: Snapshot) returns (reply: Reply)
    requires store.Valid()
    modifies store
    ensures (store.Contents(), reply) == Conclude(old(store.Contents()), k, attemptId, o, PlanMatch(o, s), now)
    ensures WasRead(old(store.Contents()), k, o) && Matches(o, s) ==> store.Valid()
  {
    hide Inv, Evolves, FinishReconciliation, FindingFits, OrderOk, Matches, SameNumber, Current;
    if OrderOk(o) && Matches(o, s) {
      MatchFits(o, s);
    }
    if !Reportable(s.state) {
      reply := FinishWithoutMatch(store, k, o, attemptId, now, Refused);
      return;
    }
    var state := s.state;
    if o.state == CancelPending && (state == Accepted || state == PartiallyFilled) {
      state := CancelPending;
    }
    var updatedAt := None;
    if s.updatedAt.Some? {
      if s.updatedAt.value.Naive? {
        reply := FinishWithoutMatch(store, k, o, attemptId, now, Mismatch);
        return;
      }
      updatedAt := Some(s.updatedAt.value.at);
      if o.providerUpdatedAt.Some? && updatedAt.value < o.providerUpdatedAt.value {
        reply := FinishWithoutMatch(store, k, o, attemptId, now, Stale);
        return;
      }
    }
    if s.statusLabel.Some? && s.statusLabel.value !in STATUS_LABELS {
      reply := FinishWithoutMatch(store, k, o, attemptId, now, Mismatch);
      return;
    }
    if state == Filled && !SameNumber(CandidateQuantity(o, s), Some(o.terms.quantity)) {
      reply := FinishWithoutMatch(store, k, o, attemptId, now, Mismatch);
      return;
    }
    var finding := Finding(state, Matched, Some(Strip(s.brokerOrderId)), s.fill, updatedAt, s.statusLabel,
                           FromProvider);
    ghost var before := store.Contents();
    FailureChangesNothing(before, k, attemptId, o.version, o.state, finding, now);
    reply := store.FinishReconciliation(k, attemptId, o.version, o.state, finding, now);
    if reply.Failed? && reply.error != ConcurrentUpdate {
      reply := FinishWithoutMatch(store, k, o, attemptId, now, Refused);
    }
  }

  lemma FailureChangesNothing(db: Db, k: Id, attemptId: Id, version: int, state: OrderState, f: Finding, now: int)
    ensures var (db', reply) := FinishReconciliation(db, k, attemptId, version, state, f, now);
      reply != Done ==> db' == db
  {
    FinishReconciliationWrites(db, k, attemptId, version, state, f, now);
    hide FinishReconciliation;
  }

  /** What a claim leads to: the plan its answer calls for, concluded; and unless the record changed since the
      claim, exactly one result, which is the one that the record and the answer deserve. */
  method ExecuteClaim(store: Store, k: Id, o: Order, attemptId: Id, now: int, answer: Search)
    returns (reply: Reply, plan: Plan, readStarted: bool)
    requires store.Valid()
    modifies store
    ensures PlannedFor(o, answer, plan)
    ensures (store.Contents(), reply) == Conclude(old(store.Contents()), k, attemptId, o, plan, now)
    ensures WasRead(old(store.Contents()), k, o) ==> store.Valid()
    ensures k in old(store.orders) && old(store.orders)[k] == o && o.state != Submitting
            && (o.state == Filled ==> o.Filled() == Some(o.terms.quantity)) ==>
              reply == Done && EndsWithOneResult(old(store.Contents()), store.Contents(), k, attemptId, answer, now)
    ensures readStarted <==> o.brokerOrderId.Some? || o.submissionStartedAt.Some?
  {
    hide Inv, Evolves, FinishReconciliation, Matches, MatchingViews, Verdict, PlanMatch, OrderOk, Current,
         EndsWithOneResult, Conclude, PlannedFor;
    reply, plan, readStarted := ConcludeClaim(store, k, o, attemptId, now, answer);
    if k in old(store.orders) && old(store.orders)[k] == o && o.state != Submitting
       && (o.state == Filled ==> o.Filled() == Some(o.terms.quantity)) {
      ReconciliationIsTotal(old(store.Contents()), k, attemptId, answer, plan, now);
    }
  }

  /** The provider's answer, whatever it is, ends in one write to the store. */
  method ConcludeClaim(store: Store, k: Id, o: Order, attemptId: Id, now: int, answer: Search)
    returns (reply: Reply, plan: Plan, readStarted: bool)
    requires store.Valid()
    modifies store
    ensures PlannedFor(o, answer, plan)
    ensures (store.Contents(), reply) == Conclude(old(store.Contents()), k, attemptId, o, plan, now)
    ensures WasRead(old(store.Contents()), k, o) ==> store.Valid()
    ensures readStarted <==> o.brokerOrderId.Some? || o.submissionStartedAt.Some?
  {
    hide Inv, Evolves, FinishReconciliation, Matches, MatchingViews, Verdict, PlanMatch, OrderOk, Current;
    readStarted := o.brokerOrderId.Some? || o.submissionStartedAt.Some?;
    var outcome := ProviderError;
    match answer {
      case Raised =>
      case NotASearch => outcome := Incomplete;
      case Search(orders, complete) =>
        if !complete || orders.None? {
          outcome := Incomplete;
        } else {
          var found, verdict := SingleExactMatch(o, orders.value);
          if found.Some? {
            reply := FinishMatch(store, k, o, attemptId, now, found.value);
            plan := PlanMatch(o, found.value);
            return;
          }
          outcome := verdict;
        }
    }
    reply := FinishWithoutMatch(store, k, o, attemptId, now, outcome);
    plan := Keep(outcome);
  }

  // ---------- Totality ----------

  /** The log grew by events of which exactly one is a reconciliation result: this attempt's, for k. */
  ghost predicate OneResult(events: seq<Event>, events': seq<Event>, k: Id, attemptId: Id, previous: OrderState,
                            next: OrderState, outcome: Outcome) {
    && events <= events'
    && exists i | |events| <= i < |events'| ::
         && IsResult(events'[i], k, attemptId, previous, next, outcome)
         && forall j | |events| <= j < |events'| :: j != i ==> events'[j].kind != ReconciliationResult
  }

  predicate IsResult(e: Event, k: Id, attemptId: Id, previous: OrderState, next: OrderState, outcome: Outcome) {
    && e.kind == ReconciliationResult && e.orderId == Some(k) && e.previous == Some(previous) && e.next == Some(next)
    && e.details.Reconciled? && e.details.attemptId == attemptId && e.details.outcome == outcome
  }

  lemma OneResultOfCommit(events: seq<Event>, withdrawn: seq<Event>, status: seq<Event>, k: Id, attemptId: Id,
                          previous: OrderState, next: OrderState, outcome: Outcome)
    requires Inert(withdrawn) && status != [] && IsResult(status[0], k, attemptId, previous, next, outcome)
    requires forall j :: 0 < j < |status| ==> status[j].kind != ReconciliationResult
    ensures OneResult(events, events + withdrawn + status, k, attemptId, previous, next, outcome)
  {
    var all, i := events + withdrawn + status, |events| + |withdrawn|;
    assert all[i] == status[0];
    assert forall j :: |events| <= j < i ==> all[j] == withdrawn[j - |events|];
    assert forall j :: i < j < |all| ==> all[j] == status[j - i];
  }

  lemma FinishedWithOneResult(db: Db, k: Id, attemptId: Id, f: Finding, now: int)
    requires k in db.orders && FindingError(db.orders[k], f).None?
    requires f.statusLabel.Some? ==> f.statusLabel.value in STATUS_LABELS
    ensures var o := db.orders[k];
            var (db', reply) := FinishReconciliation(db, k, attemptId, o.version, o.state, f, now);
            && reply == Done && db'.orders == db.orders[k := ReconciledOrder(o, f, FindingFill(o, f), now)]
            && OneResult(db.events, db'.events, k, attemptId, o.state, f.state, f.outcome)
  {
    hide OneResult, ReconciledOrder, FindingFill, FindingError, InvalidationEvents;
    var o := db.orders[k];
    var fill := FindingFill(o, f);
    var o' := ReconciledOrder(o, f, fill, now);
    var reason := if f.state == o.state then StateChanged else OrderBecame(f.state);
    var status := ReconciliationEvents(o, o', k, attemptId, f, fill);
    CommitOrders(db, k, o', [], reason, System, status);
    var written := db.(orders := db.orders[k := o'], events := db.events + []);
    var withdrawn := InvalidationEvents(o', k, ActiveRequests(written, k, None), reason, o'.updatedAt, System);
    InvalidationEventsAreInert(o', k, ActiveRequests(written, k, None), reason, o'.updatedAt, System);
    assert written.events == db.events;
    OneResultOfCommit(db.events, withdrawn, status, k, attemptId, o.state, f.state, f.outcome);
  }

  lemma TriedLabelIsKnown(o: Order, answer: Search, plan: Plan)
    requires PlannedFor(o, answer, plan)
    ensures var f := PlanFinding(o, plan); f.statusLabel.Some? ==> f.statusLabel.value in STATUS_LABELS
    ensures plan.Keep? ==> plan.outcome != Matched
    ensures plan.Try? ==> plan.finding.outcome == Matched
  {
    hide MatchingViews, Matches, Conflicting;
  }

  lemma RejectedFindingFails(db: Db, k: Id, attemptId: Id, f: Finding, now: int)
    requires k in db.orders && FindingError(db.orders[k], f).Some?
    requires f.statusLabel.Some? ==> f.statusLabel.value in STATUS_LABELS
    ensures var o := db.orders[k];
            FinishReconciliation(db, k, attemptId, o.version, o.state, f, now) == (db, Failed(FindingError(o, f).value))
  {
    hide FindingError;
  }

  lemma RejectionIsNotConcurrency(o: Order, f: Finding)
    ensures FindingError(o, f) != Some(ConcurrentUpdate)
    ensures FindingError(o, f).None? && f.state != o.state ==> CanTransition(o.state, f.state)
  {
  }

  /** The attempt ended with exactly one result, the one that the record and the answer deserve. The version
      grew by one, the move was legal, and no other record changed. */
  ghost predicate EndsWithOneResult(db: Db, db': Db, k: Id, attemptId: Id, answer: Search, now: int)
    requires k in db.orders
  {
    && k in db'.orders && db'.orders == db.orders[k := db'.orders[k]]
    && var o, o' := db.orders[k], db'.orders[k];
    && OrderWrite(o, o')
    && (CanTransition(o.state, o'.state) || o'.state == o.state)
    && exists outcome ::
         && OneResult(db.events, db'.events, k, attemptId, o.state, o'.state, outcome)
         && EndsAs(o, o', answer, outcome, now)
  }

  /** Reconciliation is total: from any claimed record past its submission that is not Filled short of its
      quantity, with no concurrent change, every answer of the broker (including an exception, a malformed
      search and any snapshot) ends the attempt with exactly one result. */
  lemma ReconciliationIsTotal(db: Db, k: Id, attemptId: Id, answer: Search, plan: Plan, now: int)
    requires Inv(db) && k in db.orders && db.orders[k].state != Submitting && PlannedFor(db.orders[k], answer, plan)
    requires db.orders[k].state == Filled ==> db.orders[k].Filled() == Some(db.orders[k].terms.quantity)
    ensures var (db', reply) := Conclude(db, k, attemptId, db.orders[k], plan, now);
            reply == Done && EndsWithOneResult(db, db', k, attemptId, answer, now)
  {
    hide Inv, OrderOk, OrderWrite, OneResult, PlanMatch, MatchingViews, Matches, Verdict, FinishReconciliation,
         FindingError, FindingFits, PlannedFor, EndsAs;
    var o := db.orders[k];
    OrderInDb(db, k);
    forall outcome ensures FindingError(o, KeepFinding(o, outcome)).None? {
      KeepFailsExactlyForUnfilledFilled(o, outcome);
    }
    PlanFits(o, answer, plan);
    var f := PlanFinding(o, plan);
    TriedLabelIsKnown(o, answer, plan);
    RejectionIsNotConcurrency(o, f);
    PlanEnds(o, answer, plan, now);
    if FindingError(o, f).None? {
      FinishedWithOneResult(db, k, attemptId, f, now);
      ReconciledIsWrite(o, f, now);
    } else {
      RejectedFindingFails(db, k, attemptId, f, now);
      FinishedWithOneResult(db, k, attemptId, KeepFinding(o, Refused), now);
      ReconciledIsWrite(o, KeepFinding(o, Refused), now);
    }
  }

  /** In every run: once a service has read an order as syncable, a claim of it at any later moment, on
      whatever the order has become meanwhile, ends with exactly one result unless the order changes
      again before the result is written. */
  lemma EveryAttemptEndsWithOneResult(h: seq<Db>, txs: seq<Tx>, i: nat, j: nat, k: Id, attemptId: Id, answer: Search,
                                      plan: Plan, now: int)
    requires IsRun(h, txs) && i <= j < |h| && k in h[i].orders && Syncable(h[i].orders[k].state)
    requires k in h[j].orders && PlannedFor(h[j].orders[k], answer, plan)
    ensures var (db', reply) := Conclude(h[j], k, attemptId, h[j].orders[k], plan, now);
            reply == Done && EndsWithOneResult(h[j], db', k, attemptId, answer, now)
  {
    hide Inv, Evolves, Served, Run, PlannedFor, Conclude, EndsWithOneResult;
    KeepingIsNeverRefused(h, txs, i, j, k, Refused);
    InvAt(h, txs, j);
    ReconciliationIsTotal(h[j], k, attemptId, answer, plan, now);
  }
}
