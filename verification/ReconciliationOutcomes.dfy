/** How a reconciliation ends, said from the record and the broker's answer alone. */
module ReconciliationOutcomes {
  import opened Common
  import opened Orders
  import opened Journal
  import opened Database
  import opened Invariants
  import opened Reconciliation

  // ---------- The snapshots an answer holds ----------

  ghost predicate Answers(answer: Search) {
    answer.Search? && answer.complete && answer.orders.Some?
  }

  predicate Identified(o: Order) {
    o.brokerOrderId.Some? || o.submissionStartedAt.Some?
  }

  /** s is the one distinct snapshot of the answer that matches. */
  ghost predicate OnlyMatch(o: Order, snapshots: seq<Snapshot>, s: Snapshot) {
    && s in snapshots && Matches(o, s)
    && forall t <- snapshots :: Matches(o, t) ==> View(t) == View(s)
  }

  /** Two matching snapshots of one broker order disagree. */
  ghost predicate Contradiction(o: Order, snapshots: seq<Snapshot>) {
    exists s <- snapshots, t <- snapshots ::
      Matches(o, s) && Matches(o, t) && s.brokerOrderId == t.brokerOrderId && View(s) != View(t)
  }

  ghost predicate NoMatch(o: Order, snapshots: seq<Snapshot>) {
    forall s <- snapshots :: !Matches(o, s)
  }

  /** The outcome of an answer without a single match. */
  ghost predicate UnmatchedAs(o: Order, answer: Search, outcome: Outcome) {
    && (outcome == ProviderError <==> answer.Raised?)
    && (outcome == Incomplete <==> !answer.Raised? && !Answers(answer))
    && (Answers(answer) ==>
          var seen := answer.orders.value;
          && (outcome == NotFound <==> !Identified(o) || seen == [])
          && (outcome == Mismatch <==>
                Identified(o) && seen != [] && (NoMatch(o, seen) || Contradiction(o, seen)))
          && (outcome == Ambiguous <==>
                Identified(o) && !NoMatch(o, seen) && !Contradiction(o, seen)))
  }

  // ---------- What a single match leads to ----------

  predicate IsReported(s: Snapshot) {
    s.state != Submitting && s.state != CancelPending
  }

  /** The snapshot is older than what the record was last updated from. */
  predicate IsOld(o: Order, s: Snapshot) {
    && s.updatedAt.Some? && s.updatedAt.value.Aware?
    && o.providerUpdatedAt.Some? && s.updatedAt.value.at < o.providerUpdatedAt.value
  }

  /** It contradicts itself: a time without a zone, a status nobody knows, or FILLED without the quantity. */
  predicate IsOdd(o: Order, s: Snapshot) {
    || (s.updatedAt.Some? && s.updatedAt.value.Naive?)
    || (s.statusLabel.Some? && s.statusLabel.value !in STATUS_LABELS)
    || (s.state == Filled && FilledAfter(o.fill, s.fill) != Some(o.terms.quantity))
  }

  /** A pending cancellation the broker has not seen yet. */
  predicate NotSeenYet(o: Order, s: Snapshot) {
    o.state == CancelPending && (s.state == Accepted || s.state == PartiallyFilled)
  }

  /** The store takes it: a legal move, or none, with a fill that fits. */
  predicate Fits(o: Order, s: Snapshot) {
    && (s.state == o.state || CanTransition(o.state, s.state))
    && Trustworthy(o.terms.quantity, o.fill, s.fill)
    && var total := FilledAfter(o.fill, s.fill);
    && (s.state == PartiallyFilled && !NotSeenYet(o, s) && total.Some? ==> total.value < o.terms.quantity)
  }

  predicate MatchedAs(o: Order, s: Snapshot, outcome: Outcome) {
    && (outcome == Stale <==> IsReported(s) && IsOld(o, s))
    && (outcome == Mismatch <==> IsReported(s) && !IsOld(o, s) && IsOdd(o, s))
    && (outcome == Refused <==> !IsReported(s) || (!IsOld(o, s) && !IsOdd(o, s) && !Fits(o, s)))
    && (outcome == Matched <==> IsReported(s) && !IsOld(o, s) && !IsOdd(o, s) && Fits(o, s))
  }

  // ---------- What is written ----------

  /** The word an outcome is stored as. */
  predicate Says(code: Option<string>, outcome: Outcome) {
    && (outcome == Matched ==> code == Some("matched"))
    && (outcome == NotFound ==> code == Some("not_found"))
    && (outcome == Ambiguous ==> code == Some("ambiguous"))
    && (outcome == Incomplete ==> code == Some("incomplete"))
    && (outcome == Mismatch ==> code == Some("mismatch"))
    && (outcome == Stale ==> code == Some("stale"))
    && (outcome == ProviderError ==> code == Some("provider_error"))
    && (outcome == Refused ==> code == Some("refused"))
  }

  /** Nothing is learned but the outcome. */
  predicate KeepsAll(o: Order, o': Order, outcome: Outcome, now: int) {
    && o' == o.(version := o.version + 1, resultCode := o'.resultCode, resultSource := Some(FromSystem),
                updatedAt := Max(now, o.updatedAt))
    && Says(o'.resultCode, outcome)
  }

  /** The record takes over what the broker reported: its state, unless a pending cancellation has not been seen
      yet, its order id, and its fill, time and status where it gives them. */
  predicate TakesMatch(o: Order, o': Order, s: Snapshot, now: int) {
    && o' == o.(state := o'.state, version := o.version + 1, brokerOrderId := Some(Strip(s.brokerOrderId)),
                fill := o'.fill, providerUpdatedAt := o'.providerUpdatedAt,
                providerStatusLabel := o'.providerStatusLabel,
                resultCode := Some("matched"), resultSource := Some(FromProvider), updatedAt := Max(now, o.updatedAt))
    && (NotSeenYet(o, s) ==> o'.state == CancelPending)
    && (!NotSeenYet(o, s) ==> o'.state == s.state)
    && (if s.fill.Some? then Carries(o'.fill, s.fill) else o'.fill == o.fill)
    && (if s.updatedAt.Some? then o'.providerUpdatedAt.Some? && s.updatedAt.value == Aware(o'.providerUpdatedAt.value)
        else o'.providerUpdatedAt == o.providerUpdatedAt)
    && (if s.statusLabel.Some? then o'.providerStatusLabel == s.statusLabel
        else o'.providerStatusLabel == o.providerStatusLabel)
  }

  /** How an attempt ends for record o and an answer. */
  ghost predicate EndsAs(o: Order, o': Order, answer: Search, outcome: Outcome, now: int) {
    if Answers(answer) && exists s <- answer.orders.value :: OnlyMatch(o, answer.orders.value, s) then
      exists s <- answer.orders.value | OnlyMatch(o, answer.orders.value, s) ::
        && MatchedAs(o, s, outcome)
        && if outcome == Matched then TakesMatch(o, o', s, now) else KeepsAll(o, o', outcome, now)
    else UnmatchedAs(o, answer, outcome) && KeepsAll(o, o', outcome, now)
  }

  // ---------- Plans end so ----------

  lemma KeptRecord(o: Order, outcome: Outcome, now: int)
    ensures KeepsAll(o, ReconciledOrder(o, KeepFinding(o, outcome), None, now), outcome, now)
  {
  }

  lemma SameQuantity(o: Order, s: Snapshot)
    ensures SameNumber(CandidateQuantity(o, s), Some(o.terms.quantity)) <==>
            FilledAfter(o.fill, s.fill) == Some(o.terms.quantity)
  {
  }

  /** The plan for a match keeps the state with the outcome the snapshot deserves, or tries to apply it. */
  lemma KeptAsDeserved(o: Order, s: Snapshot)
    ensures match PlanMatch(o, s)
            case Keep(outcome) => MatchedAs(o, s, outcome) && outcome != Matched
            case Try(_) => IsReported(s) && !IsOld(o, s) && !IsOdd(o, s)
  {
    SameQuantity(o, s);
    hide SameNumber, CandidateQuantity, FilledAfter, Fits, STATUS_LABELS;
  }

  lemma TriedFields(o: Order, s: Snapshot)
    requires PlanMatch(o, s).Try?
    ensures var f := PlanMatch(o, s).finding;
            && f.outcome == Matched && f.source == FromProvider && f.fill == s.fill && f.statusLabel == s.statusLabel
            && f.brokerOrderId == Some(Strip(s.brokerOrderId))
            && (f.state == if NotSeenYet(o, s) then CancelPending else s.state)
            && (f.providerUpdatedAt.Some? <==> s.updatedAt.Some?)
            && (f.providerUpdatedAt.Some? ==> s.updatedAt.value == Aware(f.providerUpdatedAt.value))
  {
    hide SameNumber, CandidateQuantity, STATUS_LABELS, Strip;
  }

  /** What is tried is accepted exactly when it fits. */
  lemma TriedFits(o: Order, s: Snapshot)
    requires OrderOk(o) && PlanMatch(o, s).Try?
    ensures FindingError(o, PlanMatch(o, s).finding).None? <==> Fits(o, s)
  {
    KeptAsDeserved(o, s);
    TriedFields(o, s);
    hide PlanMatch, ValidateFill, AcceptableFill, STATUS_LABELS, Strip, Carries;
    if s.fill.Some? {
      FillIsItsQuantity(o, s.fill.value);
    }
  }

  lemma FillIsItsQuantity(o: Order, raw: RawFill)
    ensures var fill := ValidateFill(raw, o.terms.quantity, o.Filled());
            && (fill.Some? <==> AcceptableFill(raw, o.terms.quantity, o.Filled()))
            && (fill.Some? ==> FilledAfter(o.fill, Some(raw)) == Some(fill.value.quantity.value))
  {
  }

  lemma TriedRecord(o: Order, s: Snapshot, now: int)
    requires Matches(o, s) && PlanMatch(o, s).Try? && FindingError(o, PlanMatch(o, s).finding).None?
    ensures var f := PlanMatch(o, s).finding; TakesMatch(o, ReconciledOrder(o, f, FindingFill(o, f), now), s, now)
  {
    TriedFields(o, s);
    hide PlanMatch, STATUS_LABELS, Strip, AcceptableFill;
  }

  /** An answer that is not planned from a match is planned as unmatched. */
  lemma UnmatchedPlan(o: Order, answer: Search, plan: Plan)
    requires PlannedFor(o, answer, plan)
    requires !(Answers(answer) && exists s <- answer.orders.value :: OnlyMatch(o, answer.orders.value, s))
    ensures plan.Keep? && UnmatchedAs(o, answer, plan.outcome) && plan.outcome != Matched
  {
    hide Matches, View, PlanMatch, Verdict, MatchingViews, NoMatch, Contradiction, OnlyMatch;
    if Answers(answer) && Identified(o) {
      VerdictFromSnapshots(o, answer.orders.value);
    }
  }

  lemma MatchedPlan(o: Order, answer: Search, plan: Plan)
    requires PlannedFor(o, answer, plan)
    requires Answers(answer) && exists s <- answer.orders.value :: OnlyMatch(o, answer.orders.value, s)
    ensures exists s <- answer.orders.value :: OnlyMatch(o, answer.orders.value, s) && plan == PlanMatch(o, s)
  {
    hide View, PlanMatch, Verdict;
    var seen := answer.orders.value;
    var s :| s in seen && OnlyMatch(o, seen, s);
    OneView(o, seen, s);
    hide Matches;
    assert Verdict(MatchingViews(o, seen), seen != []) == Matched by { OneIsMatched(View(s), seen != []); }
    var t :| t in seen && Matches(o, t) && plan == PlanMatch(o, t);
    assert OnlyMatch(o, seen, t);
  }

  lemma OneView(o: Order, seen: seq<Snapshot>, s: Snapshot)
    requires OnlyMatch(o, seen, s)
    ensures MatchingViews(o, seen) == {View(s)}
  {
    hide Matches, View;
  }

  lemma OneIsMatched(v: Snapshot, anything: bool)
    ensures Verdict({v}, anything) == Matched
  {
  }

  /** The verdict on the distinct values, read off the snapshots. */
  lemma VerdictFromSnapshots(o: Order, seen: seq<Snapshot>)
    requires !exists s <- seen :: OnlyMatch(o, seen, s)
    ensures var verdict := Verdict(MatchingViews(o, seen), seen != []);
            && (verdict == NotFound <==> seen == [])
            && (verdict == Mismatch <==> seen != [] && (NoMatch(o, seen) || Contradiction(o, seen)))
            && (verdict == Ambiguous <==> !NoMatch(o, seen) && !Contradiction(o, seen))
            && verdict in {NotFound, Mismatch, Ambiguous}
  {
    hide Matches, View, MatchingViews, NoMatch, Contradiction, OnlyMatch, Conflicting;
    var views := MatchingViews(o, seen);
    ConflictsAlike(o, seen);
    NoViewsWithoutMatch(o, seen);
    if !NoMatch(o, seen) {
      ManyViews(o, seen);
    }
  }

  lemma NoViewsWithoutMatch(o: Order, seen: seq<Snapshot>)
    ensures NoMatch(o, seen) <==> MatchingViews(o, seen) == {}
    ensures seen == [] ==> NoMatch(o, seen)
    ensures NoMatch(o, seen) ==> !Contradiction(o, seen)
  {
    hide Matches, View;
    if s :| s in seen && Matches(o, s) {
      assert View(s) in MatchingViews(o, seen);
    }
  }

  lemma MatchIsViewed(o: Order, seen: seq<Snapshot>, s: Snapshot)
    requires s in seen && Matches(o, s)
    ensures View(s) in MatchingViews(o, seen)
  {
    hide Matches, View;
  }

  lemma AnotherMatch(o: Order, seen: seq<Snapshot>, s: Snapshot) returns (t: Snapshot)
    requires s in seen && Matches(o, s) && !OnlyMatch(o, seen, s)
    ensures t in seen && Matches(o, t) && View(t) != View(s)
  {
    hide Matches, View;
    t :| t in seen && Matches(o, t) && View(t) != View(s);
  }

  lemma ManyViews(o: Order, seen: seq<Snapshot>)
    requires !NoMatch(o, seen) && !exists s <- seen :: OnlyMatch(o, seen, s)
    ensures |MatchingViews(o, seen)| > 1
  {
    hide Matches, View, MatchingViews;
    var s :| s in seen && Matches(o, s);
    var t := AnotherMatch(o, seen, s);
    MatchIsViewed(o, seen, s);
    MatchIsViewed(o, seen, t);
    TwoAreMany(MatchingViews(o, seen), View(s), View(t));
  }

  lemma TwoAreMany<T>(all: set<T>, a: T, b: T)
    requires a in all && b in all && a != b
    ensures |all| > 1
  {
    assert |all - {a}| == |all| - 1 && b in all - {a};
  }

  lemma ConflictsAlike(o: Order, seen: seq<Snapshot>)
    ensures Conflicting(MatchingViews(o, seen)) <==> Contradiction(o, seen)
  {
    hide Matches, View;
    var views := MatchingViews(o, seen);
    if Conflicting(views) {
      var a, b :| a in views && b in views && a.brokerOrderId == b.brokerOrderId && a != b;
      var s :| s in seen && Matches(o, s) && View(s) == a;
      var t :| t in seen && Matches(o, t) && View(t) == b;
    }
    if Contradiction(o, seen) {
      var s, t :| s in seen && t in seen && Matches(o, s) && Matches(o, t) && s.brokerOrderId == t.brokerOrderId
                  && View(s) != View(t);
      assert View(s) in views && View(t) in views;
    }
  }

  /** The record a plan leaves: what was tried, or the old one when the plan keeps it or the store refuses. */
  ghost function Left(o: Order, plan: Plan, now: int): Order {
    var f := PlanFinding(o, plan);
    if plan.Try? && FindingError(o, f).Some? then ReconciledOrder(o, KeepFinding(o, Refused), None, now)
    else ReconciledOrder(o, f, FindingFill(o, f), now)
  }

  function LeftOutcome(o: Order, plan: Plan): Outcome {
    match plan
    case Keep(outcome) => outcome
    case Try(f) => if FindingError(o, f).Some? then Refused else Matched
  }

  /** Every plan for an answer ends as the answer deserves. */
  lemma PlanEnds(o: Order, answer: Search, plan: Plan, now: int)
    requires OrderOk(o) && PlannedFor(o, answer, plan)
    ensures EndsAs(o, Left(o, plan, now), answer, LeftOutcome(o, plan), now)
  {
    hide Matches, View, PlanMatch, MatchedAs, UnmatchedAs, KeepsAll, TakesMatch, FindingError, ReconciledOrder, OrderOk,
         PlannedFor, OnlyMatch;
    if Answers(answer) && exists s <- answer.orders.value :: OnlyMatch(o, answer.orders.value, s) {
      MatchedPlan(o, answer, plan);
      var s :| s in answer.orders.value && OnlyMatch(o, answer.orders.value, s) && plan == PlanMatch(o, s);
      MatchEnds(o, answer.orders.value, s, now);
    } else {
      UnmatchedPlan(o, answer, plan);
      KeptRecord(o, plan.outcome, now);
    }
  }

  lemma MatchEnds(o: Order, seen: seq<Snapshot>, s: Snapshot, now: int)
    requires OrderOk(o) && OnlyMatch(o, seen, s)
    ensures var plan := PlanMatch(o, s);
            var outcome := LeftOutcome(o, plan);
            && MatchedAs(o, s, outcome)
            && if outcome == Matched then TakesMatch(o, Left(o, plan, now), s, now)
               else KeepsAll(o, Left(o, plan, now), outcome, now)
  {
    hide Matches, View, PlanMatch, KeepsAll, TakesMatch, FindingError, ReconciledOrder, OrderOk, IsOld, IsOdd, Fits,
         IsReported;
    var plan := PlanMatch(o, s);
    KeptAsDeserved(o, s);
    match plan
    case Keep(outcome) => KeptRecord(o, outcome, now);
    case Try(f) =>
      KeptRecord(o, Refused, now);
      TriedFields(o, s);
      TriedFits(o, s);
      if FindingError(o, f).None? {
        TriedRecord(o, s, now);
      }
  }
}
