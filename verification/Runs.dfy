/** Whole runs: any interleaving of transactions, with every service call free to act on records it
    read at any earlier moment, or to stop for good. */
module Runs {
  import opened Common
  import opened Orders
  import opened Journal
  import opened Database
  import opened Invariants
  import opened Preservation
  import opened Reconciliation

  // ---------- What a record may become ----------

  /** How an order record at one moment relates to the same order at any later moment. */
  ghost predicate Descends(o: Order, o': Order) {
    && o'.terms == o.terms && o'.draftId == o.draftId && o'.clientOrderId == o.clientOrderId
    && o'.createdAt == o.createdAt
    && o.version <= o'.version
    && o.updatedAt <= o'.updatedAt
    && FillGrows(o.fill, o'.fill)
    && (o.brokerOrderId.Some? ==> o'.brokerOrderId == o.brokerOrderId)
    && (o.providerUpdatedAt.Some? ==>
          o'.providerUpdatedAt.Some? && o.providerUpdatedAt.value <= o'.providerUpdatedAt.value)
    && (o.state != Submitting ==> o'.state != Submitting)
    && (o.state != Submitting && o'.version == o.version ==> o' == o)
    && (Terminal(o.state) ==> o'.state == o.state)
    && (o.state != Submitting && o.state != Filled && o'.state == Filled ==> o'.Filled() == Some(o'.terms.quantity))
  }

  lemma StepDescends(o: Order, o': Order)
    requires OrderOk(o) && OrderOk(o') && OrderStep(o, o')
    ensures Descends(o, o')
  {
  }

  lemma DescendsTransitive(a: Order, b: Order, c: Order)
    requires OrderOk(c) && Descends(a, b) && Descends(b, c)
    ensures Descends(a, c)
  {
  }

  // ---------- Runs ----------

  /** `h` is the history so far, current database last. A caller's arguments come from records it read
      earlier, from the provider, from its clock, or from chance. */
  ghost predicate Served(h: seq<Db>, tx: Tx)
    requires h != []
  {
    match tx
    case TxCreateRequest(k, reviewed, _, _, _) => exists i | 0 <= i < |h| ::
      k in h[i].orders && h[i].orders[k] == reviewed
    case TxMarkAttempted(requestId) => exists i | 0 <= i < |h| :: CodeSpentFor(h[i].codes, requestId)
    case TxFinishReconciliation(k, _, version, state, finding, _) =>
      exists i, j | 0 <= i <= j < |h| :: ClaimedAndPlanned(h[i], h[j], k, version, state, finding)
    case TxSaveDraft(_, draft, _) => draft.terms.quantity > 0.0
    case TxFinishSubmission(_, version, r, _, _) =>
      version == 1 && (r.brokerOrderId.Some? ==> Stripped(r.brokerOrderId.value))
    case _ => true
  }

  /** The order was syncable when the service first read it; the claim then returned a later record,
      and the finding answers that record. */
  ghost predicate ClaimedAndPlanned(read: Db, claimed: Db, k: Id, version: int, state: OrderState, finding: Finding) {
    && k in read.orders && Syncable(read.orders[k].state)
    && k in claimed.orders
    && var o := claimed.orders[k];
    && o.version == version && o.state == state
    && (finding == KeepFinding(o, Refused)
        || exists answer, plan :: PlannedFor(o, answer, plan) && finding == PlanFinding(o, plan))
  }

  ghost predicate IsRun(h: seq<Db>, txs: seq<Tx>) {
    && |h| == |txs| + 1
    && h[0] == EMPTY
    && forall i :: 0 <= i < |txs| ==>
      Answerable(h[i], txs[i]) && Served(h[..i + 1], txs[i]) && h[i + 1] == Apply(h[i], txs[i])
  }

  /** All databases of a history satisfy the invariant, and neighbours evolve legally. */
  ghost predicate Healthy(h: seq<Db>) {
    && (forall i :: 0 <= i < |h| ==> Inv(h[i]))
    && (forall i :: 0 < i < |h| ==> Evolves(h[i - 1], h[i]))
  }

  lemma OrderOkIn(db: Db, k: Id)
    requires Inv(db) && k in db.orders
    ensures OrderOk(db.orders[k])
  {
  }

  lemma {:induction false} HistoryDescends(h: seq<Db>, i: nat, j: nat, k: Id)
    requires Healthy(h) && i <= j < |h| && k in h[i].orders
    ensures k in h[j].orders && OrderOk(h[j].orders[k]) && Descends(h[i].orders[k], h[j].orders[k])
    decreases j
  {
    hide Inv, Descends, OrderOk;
    OrderOkIn(h[i], k);
    if i == j {
      StepDescends(h[i].orders[k], h[i].orders[k]);
    } else {
      HistoryDescends(h, i, j - 1, k);
      assert Evolves(h[j - 1], h[j]);
      OrderOkIn(h[j], k);
      StepDescends(h[j - 1].orders[k], h[j].orders[k]);
      DescendsTransitive(h[i].orders[k], h[j - 1].orders[k], h[j].orders[k]);
    }
  }

  /** Codes along a history. */
  lemma {:induction false} HistoryCodes(h: seq<Db>, i: nat, j: nat, c: Id)
    requires Healthy(h) && i <= j < |h| && c in h[i].codes
    ensures c in h[j].codes && CodeStep(h[i].codes[c], h[j].codes[c])
    decreases j
  {
    hide Inv, OrdersEvolve, RequestsEvolve, GatesEvolve;
    if i < j {
      HistoryCodes(h, i, j - 1, c);
      assert Evolves(h[j - 1], h[j]);
    }
  }

  /** Requests along a history. */
  lemma {:induction false} HistoryRequests(h: seq<Db>, i: nat, j: nat, id: Id)
    requires Healthy(h) && i <= j < |h| && id in h[i].requests
    ensures id in h[j].requests && RequestStep(h[i].requests[id], h[j].requests[id])
    decreases j
  {
    hide Inv, OrdersEvolve, CodesEvolve, GatesEvolve;
    if i < j {
      HistoryRequests(h, i, j - 1, id);
      assert Evolves(h[j - 1], h[j]);
    }
  }

  /** The log along a history. */
  lemma {:induction false} HistoryEvents(h: seq<Db>, i: nat, j: nat)
    requires Healthy(h) && i <= j < |h|
    ensures h[i].events <= h[j].events
    decreases j
  {
    hide Inv, OrdersEvolve, RequestsEvolve, CodesEvolve, GatesEvolve;
    if i < j {
      HistoryEvents(h, i, j - 1);
      assert Evolves(h[j - 1], h[j]);
    }
  }

  // ---------- Stale reads are harmless ----------

  lemma ReviewIsFaithful(h: seq<Db>, tx: Tx)
    requires h != [] && Healthy(h) && tx.TxCreateRequest? && Served(h, tx)
    ensures Faithful(h[|h| - 1], tx)
  {
    hide Healthy, Inv, Evolves;
    var i :| 0 <= i < |h| && tx.k in h[i].orders && h[i].orders[tx.k] == tx.reviewed;
    HistoryDescends(h, i, i, tx.k);
    HistoryDescends(h, i, |h| - 1, tx.k);
    if Current(h[|h| - 1], tx.k, tx.reviewed.version) {
      CurrentMeansUnchanged(h[i], h[|h| - 1], tx.k);
    }
  }

  /** The optimistic version is sound: a record that still carries the version read earlier is the
      record that was read. */
  lemma CurrentMeansUnchanged(a: Db, b: Db, k: Id)
    requires k in a.orders && k in b.orders && OrderOk(a.orders[k]) && OrderOk(b.orders[k])
    requires Descends(a.orders[k], b.orders[k]) && Current(b, k, a.orders[k].version)
    ensures b.orders[k] == a.orders[k]
  {
  }

  lemma SpentIsFaithful(h: seq<Db>, tx: Tx)
    requires h != [] && Healthy(h) && tx.TxMarkAttempted? && Served(h, tx)
    ensures Faithful(h[|h| - 1], tx)
  {
    hide Healthy, Inv, Evolves;
    var i :| 0 <= i < |h| && CodeSpentFor(h[i].codes, tx.requestId);
    var c :| c in h[i].codes && h[i].codes[c].requestId == Some(tx.requestId) && h[i].codes[c].consumedAt.Some?;
    HistoryCodes(h, i, |h| - 1, c);
  }

  lemma FindingIsFaithful(h: seq<Db>, tx: Tx)
    requires h != [] && Healthy(h) && tx.TxFinishReconciliation? && Served(h, tx)
    ensures Faithful(h[|h| - 1], tx)
  {
    hide Healthy, Inv, Evolves, FindingFits, OrderOk, PlannedFor, PlanFinding, KeepFinding;
    var k, last := tx.k, h[|h| - 1];
    var i, j :| 0 <= i <= j < |h| && ClaimedAndPlanned(h[i], h[j], k, tx.expectedVersion, tx.expectedState, tx.finding);
    HistoryDescends(h, i, j, k);
    HistoryDescends(h, j, |h| - 1, k);
    var o := h[j].orders[k];
    HistoryDescends(h, j, j, k);
    if Current(last, k, tx.expectedVersion) {
      assert last.orders[k] == o;
      if tx.finding == KeepFinding(o, Refused) {
        KeepFits(o, Refused);
      } else {
        var answer, plan :| PlannedFor(o, answer, plan) && tx.finding == PlanFinding(o, plan);
        PlanFits(o, answer, plan);
      }
    }
  }

  lemma KeepFits(o: Order, outcome: Outcome)
    ensures FindingFits(o, KeepFinding(o, outcome))
  {
  }

  /** The services' arguments are faithful however old the records they were taken from. */
  lemma ServedIsFaithful(h: seq<Db>, tx: Tx)
    requires h != [] && Healthy(h) && Served(h, tx)
    ensures Faithful(h[|h| - 1], tx)
  {
    hide Healthy;
    if tx.TxCreateRequest? {
      ReviewIsFaithful(h, tx);
    } else if tx.TxMarkAttempted? {
      SpentIsFaithful(h, tx);
    } else if tx.TxFinishReconciliation? {
      FindingIsFaithful(h, tx);
    }
  }

  /** The invariant and legal evolution hold throughout every run. */
  lemma {:induction false} RunIsHealthy(h: seq<Db>, txs: seq<Tx>)
    requires IsRun(h, txs)
    ensures Healthy(h)
    decreases |txs|
  {
    hide Inv, Evolves, Faithful, Served, Answerable, Apply;
    if txs == [] {
      EmptyInv();
    } else {
      var n := |txs| - 1;
      var earlier := h[..n + 1];
      assert IsRun(earlier, txs[..n]) by {
        forall i | 0 <= i < n
          ensures Answerable(earlier[i], txs[i]) && Served(earlier[..i + 1], txs[i])
                  && earlier[i + 1] == Apply(earlier[i], txs[i])
        {
          assert earlier[..i + 1] == h[..i + 1];
        }
      }
      RunIsHealthy(earlier, txs[..n]);
      ServedIsFaithful(earlier, txs[n]);
      TransactionKeeps(h[n], txs[n]);
      forall i | 0 <= i < |h| ensures Inv(h[i]) {
        assert i <= n ==> h[i] == earlier[i];
      }
      forall i | 0 < i < |h| ensures Evolves(h[i - 1], h[i]) {
        assert i <= n ==> h[i] == earlier[i] && h[i - 1] == earlier[i - 1];
      }
    }
  }
}
