/** Matching a broker's answer to an order and planning what to write. */
module Reconciliation {
  import opened Common
  import opened Orders
  import opened Journal
  import opened Database
  import opened Invariants

  /** A timestamp from outside: an instant, or the wall-clock reading of one that lacks its zone. */
  datatype Stamp = Aware(at: int) | Naive(wall: int)

  datatype Snapshot = Snapshot(
    brokerOrderId: string, clientOrderId: Option<string>, accountId: string, instrumentId: string,
    side: string, orderType: string, quantity: Option<Number>, limitPrice: Option<Number>,
    timeInForce: string, submittedAt: Stamp, state: OrderState, updatedAt: Option<Stamp>,
    statusLabel: Option<string>, fill: Option<RawFill>)

  /** What the lookup produced: an exception or timeout, something that is not a search, or a search
      whose orders may not be a tuple of snapshots. */
  datatype Search = Raised | NotASearch | Search(orders: Option<seq<Snapshot>>, complete: bool)

  const MATCH_BEFORE := 30_000_000
  const MATCH_AFTER := 120_000_000
  const MAX_BROKER_ID := 128

  predicate SameNumber(n: Option<Number>, value: Option<real>) {
    match n
    case None => value.None?
    case Some(NotFinite) => false
    case Some(Finite(a)) => value == Some(a.value)
  }

  predicate Identifies(o: Order, s: Snapshot) {
    if o.brokerOrderId.Some? then s.brokerOrderId == o.brokerOrderId.value
    else
      && o.submissionStartedAt.Some?
      && s.submittedAt.Aware?
      && o.submissionStartedAt.value - MATCH_BEFORE <= s.submittedAt.at <= o.submissionStartedAt.value + MATCH_AFTER
  }

  predicate Matches(o: Order, s: Snapshot) {
    && Identifies(o, s)
    && 0 < |Strip(s.brokerOrderId)| <= MAX_BROKER_ID
    && s.accountId == o.terms.accountId
    && (s.clientOrderId.None? || s.clientOrderId.value == o.clientOrderId)
    && s.instrumentId == o.terms.instrumentId
    && s.side == o.terms.side
    && s.orderType == o.terms.orderType
    && SameNumber(s.quantity, Some(o.terms.quantity))
    && SameNumber(s.limitPrice, o.terms.limitPrice)
    && s.timeInForce == "day"
  }

  /** A snapshot of the order as the broker would report it, with what the broker alone decides taken from s. */
  function OwnSnapshot(o: Order, s: Snapshot): Snapshot {
    s.(accountId := o.terms.accountId, instrumentId := o.terms.instrumentId, side := o.terms.side,
       orderType := o.terms.orderType, timeInForce := "day",
       clientOrderId := if s.clientOrderId.Some? then Some(o.clientOrderId) else None)
  }

  predicate SameAmounts(o: Order, s: Snapshot) {
    && s.quantity.Some? && s.quantity.value.Finite? && s.quantity.value.amount.value == o.terms.quantity
    && (s.limitPrice.Some? <==> o.terms.limitPrice.Some?)
    && (s.limitPrice.Some? ==>
          s.limitPrice.value.Finite? && s.limitPrice.value.amount.value == o.terms.limitPrice.value)
  }

  /** A snapshot is taken for the order exactly when it is the order's own: nothing in it differs from the terms,
      its amounts are the ordered ones however they are written, and its broker id is the recorded one or, before
      one is known, a usable one of an order that reached the broker around the time this one was handed over. */
  lemma MatchesOwnSnapshotsExactly(o: Order, s: Snapshot)
    ensures Matches(o, s) <==>
            && s == OwnSnapshot(o, s) && SameAmounts(o, s)
            && !Blank(s.brokerOrderId) && |Strip(s.brokerOrderId)| <= 128
            && (o.brokerOrderId.Some? ==> o.brokerOrderId.value == s.brokerOrderId)
            && (o.brokerOrderId.None? ==>
                  && o.submissionStartedAt.Some? && s.submittedAt.Aware?
                  && var late := s.submittedAt.at - o.submissionStartedAt.value; -30_000_000 <= late <= 120_000_000)
  {
    StripOfBlank(s.brokerOrderId);
    hide Strip, Blank;
  }

  // ---------- Equality of snapshots ----------

  function NumberView(n: Number): Number {
    if n.Finite? then Finite(n.amount.(text := "")) else n
  }

  function NumberOptionView(n: Option<Number>): Option<Number> {
    if n.Some? then Some(NumberView(n.value)) else None
  }

  /** Decimals compare by value: a snapshot without the texts its decimals print as. */
  function View(s: Snapshot): (v: Snapshot)
    ensures v.brokerOrderId == s.brokerOrderId
  {
    s.(quantity := NumberOptionView(s.quantity),
       limitPrice := NumberOptionView(s.limitPrice),
       fill := if s.fill.Some?
               then Some(RawFill(NumberView(s.fill.value.quantity), NumberOptionView(s.fill.value.averagePrice)))
               else None)
  }

  // ---------- Exactly one match ----------

  /** The distinct matching values in an answer. */
  function MatchingViews(o: Order, snapshots: seq<Snapshot>): set<Snapshot> {
    set s | s in snapshots && Matches(o, s) :: View(s)
  }

  ghost predicate Conflicting(views: set<Snapshot>) {
    exists a <- views, b <- views :: a.brokerOrderId == b.brokerOrderId && a != b
  }

  /** The outcome as a property of the set of matching values alone. */
  ghost function Verdict(views: set<Snapshot>, anything: bool): Outcome {
    if Conflicting(views) then Mismatch
    else if |views| > 1 then Ambiguous
    else if |views| == 1 then Matched
    else if anything then Mismatch
    else NotFound
  }

  lemma {:induction false} AtMostOneIsSingleton<T>(s: set<T>, x: T)
    requires x in s && |s| <= 1
    ensures s == {x}
  {
    assert |s - {x}| == |s| - 1;
  }

  /** Walks the matches once, keeping the last snapshot seen for each broker id and stopping at the
      first contradiction. */
  method SingleExactMatch(o: Order, snapshots: seq<Snapshot>) returns (found: Option<Snapshot>, outcome: Outcome)
    ensures o.brokerOrderId.None? && o.submissionStartedAt.None? ==> found.None? && outcome == NotFound
    ensures o.brokerOrderId.Some? || o.submissionStartedAt.Some? ==>
              outcome == Verdict(MatchingViews(o, snapshots), snapshots != [])
    ensures found.Some? <==> outcome == Matched
    ensures found.Some? ==>
              found.value in snapshots && Matches(o, found.value) && MatchingViews(o, snapshots) == {View(found.value)}
  {
    hide Matches, View;
    if o.brokerOrderId.None? && o.submissionStartedAt.None? {
      return None, NotFound;
    }
    ghost var views := MatchingViews(o, snapshots);
    var byId: map<string, Snapshot> := map[];
    for i := 0 to |snapshots|
      invariant forall id <- byId :: byId[id] in snapshots && Matches(o, byId[id]) && byId[id].brokerOrderId == id
      invariant forall j :: 0 <= j < i && Matches(o, snapshots[j]) ==>
                              && snapshots[j].brokerOrderId in byId
                              && View(byId[snapshots[j].brokerOrderId]) == View(snapshots[j])
    {
      var s := snapshots[i];
      if Matches(o, s) {
        if s.brokerOrderId in byId && View(byId[s.brokerOrderId]) != View(s) {
          assert View(s) in views && View(byId[s.brokerOrderId]) in views;
          assert Conflicting(views);
          return None, Mismatch;
        }
        byId := byId[s.brokerOrderId := s];
      }
    }
    AllViewsKept(o, snapshots, byId, views);
    ViewsCountIds(byId, views);
    if |byId| > 1 {
      return None, Ambiguous;
    }
    if |byId| == 1 {
      var id :| id in byId;
      AtMostOneIsSingleton(views, View(byId[id]));
      return Some(byId[id]), Matched;
    }
    return None, if snapshots != [] then Mismatch else NotFound;
  }

  lemma AllViewsKept(o: Order, snapshots: seq<Snapshot>, byId: map<string, Snapshot>, views: set<Snapshot>)
    requires views == MatchingViews(o, snapshots)
    requires forall id <- byId :: byId[id] in snapshots && Matches(o, byId[id]) && byId[id].brokerOrderId == id
    requires forall s <- snapshots ::
               Matches(o, s) ==> s.brokerOrderId in byId && View(byId[s.brokerOrderId]) == View(s)
    ensures views == set id | id in byId.Keys :: View(byId[id])
    ensures !Conflicting(views)
  {
    hide Matches, View;
    forall v <- views ensures v.brokerOrderId in byId && v == View(byId[v.brokerOrderId]) {
      var s :| s in snapshots && Matches(o, s) && v == View(s);
    }
  }

  lemma {:induction false} ViewsCountIds(byId: map<string, Snapshot>, views: set<Snapshot>)
    requires forall id <- byId :: byId[id].brokerOrderId == id
    requires views == set id | id in byId.Keys :: View(byId[id])
    ensures |views| == |byId|
    decreases |byId|
  {
    if byId.Keys == {} {
      assert |byId| == |byId.Keys|;
      assert views == {};
    } else {
      var id :| id in byId;
      var rest := byId - {id};
      var fewer := views - {View(byId[id])};
      assert byId.Keys == rest.Keys + {id};
      assert |byId| == |byId.Keys| && |rest| == |rest.Keys|;
      forall v | v in fewer ensures v in set x | x in rest.Keys :: View(rest[x]) {
        var x :| x in byId.Keys && v == View(byId[x]);
        assert x in rest.Keys;
      }
      assert fewer == set x | x in rest.Keys :: View(rest[x]);
      ViewsCountIds(rest, fewer);
    }
  }

  /** Every snapshot of a appears in b, up to the texts of its decimals. */
  ghost predicate Covers(b: seq<Snapshot>, a: seq<Snapshot>) {
    forall s <- a :: exists t <- b :: View(t) == View(s)
  }

  lemma CoversEmptiness(b: seq<Snapshot>, a: seq<Snapshot>)
    requires Covers(b, a) && a != []
    ensures b != []
  {
    assert a[0] in a;
  }

  /** Reordering, repeating or reprinting the snapshots of an answer changes nothing. */
  lemma VerdictIgnoresOrderAndRepeats(o: Order, a: seq<Snapshot>, b: seq<Snapshot>)
    requires Covers(a, b) && Covers(b, a)
    ensures MatchingViews(o, a) == MatchingViews(o, b)
    ensures Verdict(MatchingViews(o, a), a != []) == Verdict(MatchingViews(o, b), b != [])
  {
    hide Matches, View, Verdict, Covers, MatchingViews;
    ViewsCovered(o, a, b);
    ViewsCovered(o, b, a);
    if a != [] {
      CoversEmptiness(b, a);
    }
    if b != [] {
      CoversEmptiness(a, b);
    }
  }

  lemma ViewsCovered(o: Order, a: seq<Snapshot>, b: seq<Snapshot>)
    requires Covers(b, a)
    ensures MatchingViews(o, a) <= MatchingViews(o, b)
  {
    hide Matches, View;
    forall v <- MatchingViews(o, a) ensures v in MatchingViews(o, b) {
      var s :| s in a && Matches(o, s) && v == View(s);
      var t :| t in b && View(t) == View(s);
      MatchesByView(o, s, t);
    }
  }

  lemma MatchesByView(o: Order, s: Snapshot, t: Snapshot)
    requires View(s) == View(t)
    ensures Matches(o, s) <==> Matches(o, t)
  {
    SameNumberByView(s.quantity, t.quantity, Some(o.terms.quantity));
    SameNumberByView(s.limitPrice, t.limitPrice, o.terms.limitPrice);
    hide SameNumber, NumberOptionView;
  }

  lemma SameNumberByView(m: Option<Number>, n: Option<Number>, value: Option<real>)
    requires NumberOptionView(m) == NumberOptionView(n)
    ensures SameNumber(m, value) <==> SameNumber(n, value)
  {
  }

  // ---------- What to write ----------

  /** Keep the stored state with an outcome, or try to apply what the broker says. */
  datatype Plan = Keep(outcome: Outcome) | Try(finding: Finding)

  function KeepFinding(o: Order, outcome: Outcome): Finding {
    Finding(o.state, outcome, None, None, None, None, FromSystem)
  }

  function PlanFinding(o: Order, p: Plan): Finding {
    match p
    case Keep(outcome) => KeepFinding(o, outcome)
    case Try(finding) => finding
  }

  predicate Reportable(s: OrderState) {
    s != Submitting && s != CancelPending
  }

  /** A pending cancellation is not reopened by a broker that has not seen it yet. */
  function AppliedState(o: Order, s: Snapshot): OrderState {
    if o.state == CancelPending && (s.state == Accepted || s.state == PartiallyFilled) then CancelPending else s.state
  }

  function CandidateQuantity(o: Order, s: Snapshot): Option<Number> {
    if s.fill.Some? then Some(s.fill.value.quantity)
    else if o.fill.Some? then Some(Finite(o.fill.value.quantity))
    else None
  }

  function PlanMatch(o: Order, s: Snapshot): Plan {
    if !Reportable(s.state) then Keep(Refused)
    else if s.updatedAt.Some? && s.updatedAt.value.Naive? then Keep(Mismatch)
    else if s.updatedAt.Some? && o.providerUpdatedAt.Some? && s.updatedAt.value.at < o.providerUpdatedAt.value
      then Keep(Stale)
    else if s.statusLabel.Some? && s.statusLabel.value !in STATUS_LABELS then Keep(Mismatch)
    else if AppliedState(o, s) == Filled && !SameNumber(CandidateQuantity(o, s), Some(o.terms.quantity))
      then Keep(Mismatch)
    else Try(Finding(AppliedState(o, s), Matched, Some(Strip(s.brokerOrderId)), s.fill,
                     if s.updatedAt.Some? then Some(s.updatedAt.value.at) else None, s.statusLabel, FromProvider))
  }

  /** The plan an answer leads to; `matched` is the snapshot the matching loop returned, if any. */
  ghost predicate PlannedFor(o: Order, answer: Search, plan: Plan) {
    match answer
    case Raised => plan == Keep(ProviderError)
    case NotASearch => plan == Keep(Incomplete)
    case Search(orders, complete) =>
      if !complete || orders.None? then plan == Keep(Incomplete)
      else if o.brokerOrderId.None? && o.submissionStartedAt.None? then plan == Keep(NotFound)
      else
        var views := MatchingViews(o, orders.value);
        if Verdict(views, orders.value != []) == Matched
        then exists s <- orders.value :: Matches(o, s) && plan == PlanMatch(o, s)
        else plan == Keep(Verdict(views, orders.value != []))
  }

  lemma MatchFits(o: Order, s: Snapshot)
    requires OrderOk(o) && Matches(o, s)
    ensures FindingFits(o, PlanFinding(o, PlanMatch(o, s)))
  {
    StripIsIdempotent(s.brokerOrderId);
    hide SameNumber, Strip, Stripped;
  }

  /** Each plan made for a record fits that record. */
  lemma PlanFits(o: Order, answer: Search, plan: Plan)
    requires OrderOk(o) && PlannedFor(o, answer, plan)
    ensures FindingFits(o, PlanFinding(o, plan)) && FindingFits(o, KeepFinding(o, Refused))
  {
    if plan.Try? {
      var s :| s in answer.orders.value && Matches(o, s) && plan == PlanMatch(o, s);
      hide Matches, PlanMatch;
      MatchFits(o, s);
    }
  }

  /** Keeping the state is refused exactly for an order that is Filled without its whole quantity. */
  lemma KeepFailsExactlyForUnfilledFilled(o: Order, outcome: Outcome)
    requires OrderOk(o)
    ensures FindingError(o, KeepFinding(o, outcome)).None? <==>
            !(o.state == Filled && o.Filled() != Some(o.terms.quantity))
  {
  }

  /** Reconciliation never moves a pending cancellation back to Accepted or PartiallyFilled. */
  lemma PendingIsNotReopened(o: Order, answer: Search, plan: Plan)
    requires o.state == CancelPending && PlannedFor(o, answer, plan)
    ensures PlanFinding(o, plan).state != Accepted && PlanFinding(o, plan).state != PartiallyFilled
  {
  }
}
