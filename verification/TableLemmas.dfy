/** How each part of the invariant survives changes to the tables it reads. */
module TableLemmas {
  import opened Common
  import opened Orders
  import opened Journal
  import opened Database
  import opened Invariants

  // ---------- The log ----------

  /** Events that concern neither replay, nor cancellation attempts, nor gates. */
  ghost predicate Inert(events: seq<Event>) {
    forall e <- events :: !RecordsStatus(e) && e.kind != CancellationRequested && e.kind != ReconciliationAttempted
  }

  ghost predicate About(events: seq<Event>, k: Id) {
    forall e <- events :: e.orderId == Some(k)
  }

  lemma InvalidationEventsAreInert(o: Order, k: Id, hits: set<Id>, reason: Reason, now: int, actor: Actor)
    ensures Inert(InvalidationEvents(o, k, hits, reason, now, actor))
    ensures About(InvalidationEvents(o, k, hits, reason, now, actor), k)
  {
  }

  lemma InertJournal(events: seq<Event>, more: seq<Event>, orders: map<Id, Order>)
    requires JournalOk(events, orders) && Inert(more) && Grounded(more, orders)
    ensures JournalOk(events + more, orders)
  {
    forall k <- orders ensures Replay(events + more, k) == LedgerOf(orders[k]) {
      ReplayQuiet(events, more, k);
    }
  }

  lemma InertAttempts(events: seq<Event>, more: seq<Event>, orders: map<Id, Order>)
    requires AttemptsOk(events, orders)
    requires forall e <- more :: e.kind != CancellationRequested
    ensures AttemptsOk(events + more, orders)
  {
    forall k <- orders | orders[k].state == CancelPending ensures exists e <- events + more :: IsAttempt(e, k) {
      var e :| e in events && IsAttempt(e, k);
      assert e in events + more;
    }
  }

  lemma InertGates(events: seq<Event>, more: seq<Event>, orders: map<Id, Order>, gates: map<Group, int>)
    requires GatesOk(events, orders, gates)
    requires forall e <- more :: e.kind != ReconciliationAttempted
    ensures GatesOk(events + more, orders, gates)
  {
  }

  /** Appending inert events about known orders. */
  lemma InertLog(db: Db, more: seq<Event>)
    requires JournalOk(db.events, db.orders) && AttemptsOk(db.events, db.orders)
             && GatesOk(db.events, db.orders, db.gates)
    requires Inert(more) && Grounded(more, db.orders)
    ensures var events := db.events + more;
            JournalOk(events, db.orders) && AttemptsOk(events, db.orders) && GatesOk(events, db.orders, db.gates)
    ensures db.events <= db.events + more
  {
    hide JournalOk, AttemptsOk, GatesOk;
    InertJournal(db.events, more, db.orders);
    InertAttempts(db.events, more, db.orders);
    InertGates(db.events, more, db.orders, db.gates);
  }

  // ---------- Writing one order ----------

  lemma WriteJournal(events: seq<Event>, orders: map<Id, Order>, k: Id, o': Order, quiet: seq<Event>,
                     status: seq<Event>)
    requires JournalOk(events, orders) && k in orders
    requires Quiet(quiet, k) && About(quiet, k) && About(status, k)
    requires Fold(LedgerOf(orders[k]), status, k) == LedgerOf(o')
    ensures JournalOk(events + quiet + status, orders[k := o'])
  {
    var orders' := orders[k := o'];
    forall x <- orders' ensures Replay(events + quiet + status, x) == LedgerOf(orders'[x]) {
      if x == k {
        ReplayWrite(events, quiet, status, k);
      } else {
        ReplayQuiet(events, quiet, x);
        ReplayQuiet(events + quiet, status, x);
      }
    }
  }

  /** The attempts among the events of a write: at most one, and new. */
  ghost predicate NewAttempt(events: seq<Event>, before: seq<Event>, k: Id) {
    && About(before, k)
    && (forall i, j :: 0 <= i < j < |before| && IsAttempt(before[i], k) ==> !IsAttempt(before[j], k))
    && (forall e <- before :: IsAttempt(e, k) ==> !AttemptLogged(events, k, e.details.attemptId))
  }

  lemma AttemptsStayDistinct(events: seq<Event>, before: seq<Event>, rest: seq<Event>, k: Id)
    requires DistinctAttempts(events) && NewAttempt(events, before, k)
    requires forall e <- rest :: e.kind != CancellationRequested
    ensures DistinctAttempts(events + before + rest)
  {
    var all := events + before + rest;
    forall x, i, j | 0 <= i < j < |all| && IsAttempt(all[i], x) && IsAttempt(all[j], x)
      ensures all[i].details.attemptId != all[j].details.attemptId
    {
      assert j < |events| + |before|;
      if i < |events| <= j {
        assert all[j] in before && all[i] in events;
        assert !AttemptLogged(events, k, all[j].details.attemptId);
      }
    }
  }

  lemma WriteAttempts(events: seq<Event>, orders: map<Id, Order>, k: Id, o': Order, before: seq<Event>,
                      rest: seq<Event>)
    requires AttemptsOk(events, orders) && k in orders
    requires NewAttempt(events, before, k)
    requires forall e <- rest :: e.kind != CancellationRequested
    requires o'.state == CancelPending ==> orders[k].state == CancelPending || exists e <- before :: IsAttempt(e, k)
    ensures AttemptsOk(events + before + rest, orders[k := o'])
  {
    var orders', all := orders[k := o'], events + before + rest;
    forall x <- orders' | orders'[x].state == CancelPending ensures exists e <- all :: IsAttempt(e, x) {
      if x != k || orders[k].state == CancelPending {
        var e :| e in events && IsAttempt(e, x);
        assert e in all;
      } else {
        var e :| e in before && IsAttempt(e, x);
        assert e in all;
      }
    }
    AttemptsStayDistinct(events, before, rest, k);
  }

  lemma WriteGates(events: seq<Event>, orders: map<Id, Order>, gates: map<Group, int>, k: Id, o': Order,
                   more: seq<Event>)
    requires GatesOk(events, orders, gates) && k in orders && o'.terms == orders[k].terms
    requires forall e <- more :: e.kind != ReconciliationAttempted
    ensures GatesOk(events + more, orders[k := o'], gates)
  {
    forall e <- events + more ensures AttemptBehindGate(e, orders[k := o'], gates) {
      if e in events {
        assert AttemptBehindGate(e, orders, gates);
      }
    }
  }

  lemma WriteOrders(orders: map<Id, Order>, drafts: map<Id, Draft>, k: Id, o': Order)
    requires OrdersOk(orders, drafts) && k in orders && OrderWrite(orders[k], o')
    ensures OrdersOk(orders[k := o'], drafts) && OrdersEvolve(orders, orders[k := o'])
  {
  }

  /** A write to k leaves no active request on k, so the remaining ones still fit. */
  lemma WriteRequests(db: Db, k: Id, o': Order, reason: Reason)
    requires RequestsOk(db.requests, db.orders) && k in db.orders && OrderWrite(db.orders[k], o')
    ensures RequestsOk(WithdrawRequests(db.requests, ActiveRequests(db, k, None), reason), db.orders[k := o'])
  {
    var requests' := WithdrawRequests(db.requests, ActiveRequests(db, k, None), reason);
    forall id <- requests' ensures RequestOk(requests'[id], db.orders[k := o']) {
      assert RequestOk(db.requests[id], db.orders);
    }
  }

  // ---------- Withdrawing requests and codes ----------

  lemma WithdrawnCodeOk(requests: map<Id, Request>, codes: map<Id, Code>, drafts: map<Id, Draft>, hits: set<Id>,
                        reason: Reason, c: Id)
    requires c in codes && CodeOk(codes[c], requests, drafts)
    ensures CodeOk(WithdrawCodes(codes, hits, reason)[c], WithdrawRequests(requests, hits, reason), drafts)
  {
  }

  lemma WithdrawalKeepsTargets(codes: map<Id, Code>, hits: set<Id>, reason: Reason, c: Id)
    requires c in codes
    ensures c in WithdrawCodes(codes, hits, reason)
    ensures var after := WithdrawCodes(codes, hits, reason)[c];
            && after.requestId == codes[c].requestId && after.draftId == codes[c].draftId
            && (Usable(after) ==> Usable(codes[c]))
  {
  }

  lemma Withdraw(requests: map<Id, Request>, codes: map<Id, Code>, drafts: map<Id, Draft>, hits: set<Id>,
                 reason: Reason)
    requires CodesOk(codes, requests, drafts)
    ensures CodesOk(WithdrawCodes(codes, hits, reason), WithdrawRequests(requests, hits, reason), drafts)
  {
    hide CodeOk, Usable, WithdrawRequests;
    var requests', codes' := WithdrawRequests(requests, hits, reason), WithdrawCodes(codes, hits, reason);
    assert codes'.Keys == codes.Keys;
    hide WithdrawCodes;
    forall c <- codes'
      ensures CodeOk(codes'[c], requests', drafts)
      ensures codes'[c].requestId == codes[c].requestId && codes'[c].draftId == codes[c].draftId
      ensures Usable(codes'[c]) ==> Usable(codes[c])
    {
      WithdrawnCodeOk(requests, codes, drafts, hits, reason, c);
      WithdrawalKeepsTargets(codes, hits, reason, c);
    }
  }

  lemma WithdrawEvolves(requests: map<Id, Request>, codes: map<Id, Code>, hits: set<Id>, reason: Reason)
    ensures RequestsEvolve(requests, WithdrawRequests(requests, hits, reason))
    ensures CodesEvolve(codes, WithdrawCodes(codes, hits, reason))
  {
  }

  lemma WithdrawnRequestOk(requests: map<Id, Request>, orders: map<Id, Order>, hits: set<Id>, reason: Reason, id: Id)
    requires id in requests && RequestOk(requests[id], orders)
    ensures id in WithdrawRequests(requests, hits, reason)
    ensures var after := WithdrawRequests(requests, hits, reason)[id];
            && RequestOk(after, orders)
            && after.orderId == requests[id].orderId && (Active(after.status) ==> Active(requests[id].status))
  {
  }

  lemma WithdrawnRequestsOk(requests: map<Id, Request>, orders: map<Id, Order>, hits: set<Id>, reason: Reason)
    requires RequestsOk(requests, orders)
    ensures RequestsOk(WithdrawRequests(requests, hits, reason), orders)
  {
    hide RequestOk, Active;
    var requests' := WithdrawRequests(requests, hits, reason);
    assert requests'.Keys == requests.Keys;
    hide WithdrawRequests;
    forall id <- requests'
      ensures RequestOk(requests'[id], orders)
      ensures requests'[id].orderId == requests[id].orderId
              && (Active(requests'[id].status) ==> Active(requests[id].status))
    {
      WithdrawnRequestOk(requests, orders, hits, reason, id);
    }
  }

  // ---------- The two building blocks of every transaction ----------

  /** Withdrawing requests while the orders stay as they are. */
  lemma InvalidateKeepsInv(db: Db, k: Id, reason: Reason, now: int, actor: Actor, only: Option<Id>)
    requires Inv(db)
    ensures var db' := InvalidateRequests(db, k, reason, now, actor, only); Inv(db') && Evolves(db, db')
  {
    hide DraftsOk, OrdersOk, JournalOk, RequestsOk, CodesOk, AttemptsOk, GatesOk;
    hide RequestsEvolve, CodesEvolve, ActiveRequests, WithdrawRequests, WithdrawCodes, InvalidationEvents;
    var hits := ActiveRequests(db, k, only);
    var more := if k in db.orders then InvalidationEvents(db.orders[k], k, hits, reason, now, actor) else [];
    if k in db.orders {
      InvalidationEventsAreInert(db.orders[k], k, hits, reason, now, actor);
    }
    InertLog(db, more);
    WithdrawEvolves(db.requests, db.codes, hits, reason);
    WithdrawnRequestsOk(db.requests, db.orders, hits, reason);
    Withdraw(db.requests, db.codes, db.drafts, hits, reason);
    Reflexive(db);
  }

  /** What the events of a write must say for the log to keep replaying to the record. */
  ghost predicate WriteEvents(events: seq<Event>, k: Id, o: Order, o': Order, before: seq<Event>, status: seq<Event>) {
    && About(status, k)
    && (forall e <- before :: !RecordsStatus(e) && e.kind != ReconciliationAttempted)
    && (forall e <- status :: e.kind != CancellationRequested && e.kind != ReconciliationAttempted)
    && Fold(LedgerOf(o), status, k) == LedgerOf(o')
    && NewAttempt(events, before, k)
    && (o'.state == CancelPending ==> o.state == CancelPending || exists e <- before :: IsAttempt(e, k))
  }

  lemma WriteLog(db: Db, k: Id, o': Order, before: seq<Event>, withdrawn: seq<Event>, status: seq<Event>)
    requires JournalOk(db.events, db.orders) && AttemptsOk(db.events, db.orders)
             && GatesOk(db.events, db.orders, db.gates)
    requires k in db.orders && o'.terms == db.orders[k].terms
    requires WriteEvents(db.events, k, db.orders[k], o', before, status)
    requires Inert(withdrawn) && About(withdrawn, k)
    ensures var events := db.events + before + withdrawn + status;
            var orders := db.orders[k := o'];
            && JournalOk(events, orders) && AttemptsOk(events, orders) && GatesOk(events, orders, db.gates)
            && db.events <= events
  {
    hide JournalOk, AttemptsOk, GatesOk;
    var events := db.events + before + withdrawn + status;
    assert JournalOk(events, db.orders[k := o']) by {
      assert events == db.events + (before + withdrawn) + status;
      WriteJournal(db.events, db.orders, k, o', before + withdrawn, status);
    }
    assert AttemptsOk(events, db.orders[k := o']) by {
      assert events == db.events + before + (withdrawn + status);
      WriteAttempts(db.events, db.orders, k, o', before, withdrawn + status);
    }
    assert GatesOk(events, db.orders[k := o'], db.gates) by {
      assert events == db.events + (before + withdrawn + status);
      WriteGates(db.events, db.orders, db.gates, k, o', before + withdrawn + status);
    }
  }

  /** The one proof behind every status write: submission results, recovery, both ends of a
      cancellation and every reconciliation result. */
  lemma CommitKeepsInv(db: Db, k: Id, o': Order, before: seq<Event>, reason: Reason, actor: Actor, status: seq<Event>)
    requires Inv(db) && k in db.orders && OrderWrite(db.orders[k], o')
    requires WriteEvents(db.events, k, db.orders[k], o', before, status)
    ensures var db' := Commit(db, k, o', before, reason, actor, status); Inv(db') && Evolves(db, db')
  {
    var written := db.(orders := db.orders[k := o'], events := db.events + before);
    assert ActiveRequests(written, k, None) == ActiveRequests(db, k, None);
    hide DraftsOk, OrdersOk, JournalOk, RequestsOk, CodesOk, AttemptsOk, GatesOk, WriteEvents;
    hide OrdersEvolve, RequestsEvolve, CodesEvolve, ActiveRequests, WithdrawRequests, WithdrawCodes, InvalidationEvents;
    var hits := ActiveRequests(db, k, None);
    var withdrawn := InvalidationEvents(o', k, hits, reason, o'.updatedAt, actor);
    InvalidationEventsAreInert(o', k, hits, reason, o'.updatedAt, actor);
    WriteLog(db, k, o', before, withdrawn, status);
    WriteRequests(db, k, o', reason);
    WriteOrders(db.orders, db.drafts, k, o');
    WithdrawEvolves(db.requests, db.codes, hits, reason);
    Withdraw(db.requests, db.codes, db.drafts, hits, reason);
    Reflexive(db);
  }
}
