/** The reconciliation scheduler: its throttle, its choice of target, and why no order waits forever. */
module Scheduler {
  import opened Common
  import opened Orders
  import opened Journal
  import opened Database
  import opened Invariants
  import opened WriteSets
  import opened Runs
  import opened OrderTheorems

  predicate IsClaim(tx: Tx) {
    tx.TxClaim? || tx.TxClaimPlanned?
  }

  /** The order a transaction claims from db, if the claim succeeds. */
  ghost function ClaimedBy(db: Db, tx: Tx): Option<Id>
    requires Answerable(db, tx)
  {
    if IsClaim(tx) && Run(db, tx).1.Claimed? then Some(tx.k) else None
  }

  // ---------- The gate ----------

  /** A claim succeeds exactly when the planned next time computed at that moment is the moment itself;
      otherwise it is told a later time, at which, and not before, it succeeds if nobody else got in. */
  lemma ClaimSucceedsExactlyWhenDue(db: Db, k: Id, attemptId: Id, at: int, interval: int, later: int)
    requires k in db.orders && interval >= 0 && at <= later
    ensures var g := GroupOf(db.orders[k]);
            var reply := ClaimReconciliation(db, k, attemptId, at, interval).1;
            && (reply.Claimed? <==> GateNextAt(db, g, at, interval) == at)
            && (!reply.Claimed? ==>
                  && reply.Throttled? && at < reply.nextAt
                  && (ClaimReconciliation(db, k, attemptId, later, interval).1.Claimed? <==> reply.nextAt <= later))
  {
  }

  /** A planned claim adds only the condition that the order is its group's target. */
  lemma PlannedClaimIsClaimOfTarget(db: Db, k: Id, attemptId: Id, at: int, interval: int, target: Option<Id>)
    requires k in db.orders && interval >= MINIMUM_INTERVAL && IsTarget(db, GroupOf(db.orders[k]), target)
    ensures var (db', reply) := ClaimPlanned(db, k, attemptId, at, interval, target);
            if target == Some(k) then (db', reply) == ClaimReconciliation(db, k, attemptId, at, interval)
            else db' == db && reply.TargetChanged? && reply.target == target
  {
    hide IsTarget;
  }

  // ---------- The throttle ----------

  /** The gate of a successful claim holds the claim's time afterwards, and was at least the interval
      behind it before. */
  lemma ClaimMovesGate(db: Db, tx: Tx)
    requires Answerable(db, tx) && ClaimedBy(db, tx).Some?
    ensures tx.k in db.orders
    ensures var g := GroupOf(db.orders[tx.k]);
            && g in Apply(db, tx).gates && Apply(db, tx).gates[g] == tx.now
            && (g in db.gates ==> db.gates[g] + tx.interval <= tx.now)
            && tx.interval >= 0
  {
    hide IsTarget;
  }

  ghost predicate ClaimsGroup(h: seq<Db>, txs: seq<Tx>, i: nat, g: Group)
    requires IsRun(h, txs) && i < |txs|
  {
    && IsClaim(txs[i]) && ClaimedBy(h[i], txs[i]).Some?
    && txs[i].k in h[i].orders && GroupOf(h[i].orders[txs[i].k]) == g
  }

  lemma {:induction false} GatesRise(h: seq<Db>, i: nat, j: nat, g: Group)
    requires Healthy(h) && i <= j < |h| && g in h[i].gates
    ensures g in h[j].gates && h[i].gates[g] <= h[j].gates[g]
    decreases j
  {
    hide Inv, OrdersEvolve, RequestsEvolve, CodesEvolve, DraftsEvolve;
    if i < j {
      GatesRise(h, i, j - 1, g);
      assert Evolves(h[j - 1], h[j]);
    }
  }

  /** Whatever happens in between, and however the clock jumps, two successful claims of one group are
      at least the later claim's interval apart. */
  lemma ClaimsAreSpaced(h: seq<Db>, txs: seq<Tx>, i: nat, j: nat, g: Group)
    requires IsRun(h, txs) && i < j < |txs| && ClaimsGroup(h, txs, i, g) && ClaimsGroup(h, txs, j, g)
    ensures txs[i].now + txs[j].interval <= txs[j].now
  {
    hide Inv, Evolves, Served, Run, IsTarget, Healthy;
    RunIsHealthy(h, txs);
    assert h[i + 1] == Apply(h[i], txs[i]);
    hide IsRun, Apply;
    ClaimMovesGate(h[i], txs[i]);
    ClaimMovesGate(h[j], txs[j]);
    GatesRise(h, i + 1, j, g);
  }

  /** The times of the successful claims of g among the first n steps, in the order they were made. */
  ghost function ClaimTimes(h: seq<Db>, txs: seq<Tx>, n: nat, g: Group): seq<int>
    requires IsRun(h, txs) && n <= |txs|
  {
    if n == 0 then []
    else if ClaimsGroup(h, txs, n - 1, g) then ClaimTimes(h, txs, n - 1, g) + [txs[n - 1].now]
    else ClaimTimes(h, txs, n - 1, g)
  }

  ghost predicate Spaced(times: seq<int>, interval: int) {
    forall a, b :: 0 <= a < b < |times| ==> times[a] + interval <= times[b]
  }

  /** Every claim asks for an interval of at least `interval`. */
  ghost predicate ClaimsAskFor(txs: seq<Tx>, interval: int) {
    forall i | 0 <= i < |txs| :: IsClaim(txs[i]) ==> txs[i].interval >= interval
  }

  lemma ClaimsAreClaims(h: seq<Db>, txs: seq<Tx>, i: nat, g: Group)
    requires IsRun(h, txs) && i < |txs| && ClaimsGroup(h, txs, i, g)
    ensures IsClaim(txs[i])
  {
  }

  ghost predicate BehindGate(times: seq<int>, gates: map<Group, int>, g: Group) {
    && (times != [] ==> g in gates)
    && forall t <- times :: t <= gates[g]
  }

  /** One step: the gate only rises, and a claim of g is made an interval after it and sets it. */
  lemma StepKeepsBehindGate(h: seq<Db>, txs: seq<Tx>, n: nat, g: Group, times: seq<int>, interval: int)
    requires IsRun(h, txs) && Healthy(h) && n < |txs| && ClaimsAskFor(txs, interval)
    requires BehindGate(times, h[n].gates, g)
    ensures ClaimsGroup(h, txs, n, g) ==>
              BehindGate(times + [txs[n].now], h[n + 1].gates, g) && forall t <- times :: t + interval <= txs[n].now
    ensures BehindGate(times, h[n + 1].gates, g)
  {
    hide Inv, Evolves, Run, Served, IsTarget;
    assert h[n + 1] == Apply(h[n], txs[n]);
    hide IsRun;
    if g in h[n].gates {
      GatesRise(h, n, n + 1, g);
    }
    hide Healthy;
    if ClaimsGroup(h, txs, n, g) {
      ClaimMovesGate(h[n], txs[n]);
    }
    hide ClaimedBy, Apply, Answerable;
  }

  lemma {:induction false} ClaimTimesAreSpaced(h: seq<Db>, txs: seq<Tx>, n: nat, g: Group, interval: int)
    requires IsRun(h, txs) && Healthy(h) && n <= |txs| && interval >= 0 && ClaimsAskFor(txs, interval)
    ensures var times := ClaimTimes(h, txs, n, g); Spaced(times, interval) && BehindGate(times, h[n].gates, g)
    decreases n
  {
    hide Healthy, ClaimsGroup, BehindGate, ClaimsAskFor;
    if n > 0 {
      ClaimTimesAreSpaced(h, txs, n - 1, g, interval);
      var times := ClaimTimes(h, txs, n - 1, g);
      StepKeepsBehindGate(h, txs, n - 1, g, times, interval);
      if ClaimsGroup(h, txs, n - 1, g) {
        assert IsClaim(txs[n - 1]) by { ClaimsAreClaims(h, txs, n - 1, g); }
        SpacedAppend(times, txs[n - 1].now, interval);
      }
    } else {
      assert BehindGate([], h[0].gates, g) by { hide *; NothingBehindGate(h[0].gates, g); }
    }
  }

  lemma SpacedAppend(times: seq<int>, at: int, interval: int)
    requires Spaced(times, interval)
    ensures (forall t <- times :: t + interval <= at) ==> Spaced(times + [at], interval)
  {
    assert forall a :: 0 <= a < |times| ==> times[a] in times;
  }

  lemma NothingBehindGate(gates: map<Group, int>, g: Group)
    ensures BehindGate([], gates, g)
  {
  }

  function Within(times: seq<int>, from: int, width: int): (within: seq<int>)
    ensures forall t <- within :: from <= t <= from + width
  {
    if times == [] then []
    else
      var t := times[|times| - 1];
      Within(times[..|times| - 1], from, width) + if from <= t <= from + width then [t] else []
  }

  lemma {:induction false} WithinStaysSpaced(times: seq<int>, from: int, width: int, interval: int)
    requires Spaced(times, interval)
    ensures Spaced(Within(times, from, width), interval)
    ensures forall t <- Within(times, from, width) :: t in times
  {
    if times != [] {
      var n := |times| - 1;
      WithinStaysSpaced(times[..n], from, width, interval);
      var rest := Within(times[..n], from, width);
      forall a | 0 <= a < |rest| ensures rest[a] + interval <= times[n] {
        assert rest[a] in rest && rest[a] in times[..n];
      }
    }
  }

  lemma {:induction false} SpacedSpan(times: seq<int>, interval: int)
    requires Spaced(times, interval) && times != []
    ensures times[0] + (|times| - 1) * interval <= times[|times| - 1]
  {
    var n := |times| - 1;
    if n > 0 {
      SpacedSpan(times[..n], interval);
      assert (n - 1) * interval + interval == n * interval;
    }
  }

  /** The throttle bound: whatever the clock does, the successful claims of a group are at least an
      interval apart, and a window of any width holds at most width / interval + 1 of them. */
  lemma ThrottleBound(h: seq<Db>, txs: seq<Tx>, g: Group, from: int, width: nat, interval: int)
    requires IsRun(h, txs) && interval > 0 && ClaimsAskFor(txs, interval)
    ensures Spaced(ClaimTimes(h, txs, |txs|, g), interval)
    ensures |Within(ClaimTimes(h, txs, |txs|, g), from, width)| <= width / interval + 1
  {
    hide Healthy, ClaimTimes, Within, BehindGate, Inv, Evolves, Served, Run, IsTarget;
    RunIsHealthy(h, txs);
    ClaimTimesAreSpaced(h, txs, |txs|, g, interval);
    hide IsRun;
    var times := ClaimTimes(h, txs, |txs|, g);
    WithinStaysSpaced(times, from, width, interval);
    var within := Within(times, from, width);
    if within != [] {
      SpacedSpan(within, interval);
      assert within[0] in within && within[|within| - 1] in within;
      DivisionBound(|within| - 1, width, interval);
    }
  }

  lemma MulSign(x: int, y: int)
    requires y > 0
    ensures x >= 0 ==> x * y >= 0
  {
  }

  lemma DivisionBound(n: nat, width: nat, interval: int)
    requires interval > 0 && n * interval <= width
    ensures n <= width / interval
  {
    var q := width / interval;
    assert width == q * interval + width % interval;
    assert (n - q - 1) * interval == n * interval - q * interval - interval;
    MulSign(n - q - 1, interval);
  }

  // ---------- Due order ----------

  lemma {:induction false} TextOrder(a: string, b: string, c: string)
    ensures !TextBefore(a, a)
    ensures TextBefore(a, b) && TextBefore(b, c) ==> TextBefore(a, c)
    ensures a != b ==> TextBefore(a, b) || TextBefore(b, a)
    decreases |a|
  {
    if a != "" && b != "" && c != "" {
      TextOrder(a[1..], b[1..], c[1..]);
      assert a == [a[0]] + a[1..] && b == [b[0]] + b[1..];
    } else if a != "" && b != "" {
      TextOrder(a[1..], b[1..], "");
      assert a == [a[0]] + a[1..] && b == [b[0]] + b[1..];
    } else if a != "" {
      TextOrder(a[1..], "", "");
    }
  }

  /** a is a proper prefix of b, or smaller at the first character in which they differ. */
  ghost predicate SmallerText(a: string, b: string) {
    a < b || exists i: nat :: SmallerAt(a, b, i)
  }

  lemma {:induction false} TextBeforeMeans(a: string, b: string)
    ensures TextBefore(a, b) <==> SmallerText(a, b)
    decreases |a|
  {
    if a != "" && b != "" {
      if a[0] == b[0] {
        TextBeforeMeans(a[1..], b[1..]);
        SameHead(a, b);
      } else {
        DifferentHeads(a, b);
      }
    }
  }

  /** The two texts agree up to i and a is smaller there. */
  predicate SmallerAt(a: string, b: string, i: nat) {
    i < |a| && i < |b| && a[..i] == b[..i] && a[i] < b[i]
  }

  lemma SmallerAtHead(a: string, b: string, i: nat)
    requires a != "" && b != "" && a[0] == b[0]
    ensures !SmallerAt(a, b, 0)
    ensures SmallerAt(a, b, i + 1) <==> SmallerAt(a[1..], b[1..], i)
  {
    if i < |a[1..]| && i < |b[1..]| {
      assert a[..i + 1] == [a[0]] + a[1..][..i] && b[..i + 1] == [b[0]] + b[1..][..i];
      assert a[..i + 1][1..] == a[1..][..i] && b[..i + 1][1..] == b[1..][..i];
    }
  }

  lemma PrefixHead(a: string, b: string)
    requires a != "" && b != "" && a[0] == b[0]
    ensures a < b <==> a[1..] < b[1..]
  {
    assert a == [a[0]] + a[1..] && b == [b[0]] + b[1..];
  }

  lemma SameHead(a: string, b: string)
    requires a != "" && b != "" && a[0] == b[0]
    ensures SmallerText(a, b) <==> SmallerText(a[1..], b[1..])
  {
    hide SmallerAt;
    PrefixHead(a, b);
    forall i: nat ensures SmallerAt(a, b, i + 1) <==> SmallerAt(a[1..], b[1..], i) {
      SmallerAtHead(a, b, i);
    }
    if i: nat :| SmallerAt(a, b, i) {
      SmallerAtHead(a, b, if i > 0 then i - 1 else 0);
      if i > 0 {
        assert SmallerAt(a[1..], b[1..], i - 1);
      }
    }
    if i: nat :| SmallerAt(a[1..], b[1..], i) {
      assert SmallerAt(a, b, i + 1);
    }
  }

  lemma DifferentHeads(a: string, b: string)
    requires a != "" && b != "" && a[0] != b[0]
    ensures SmallerText(a, b) <==> a[0] < b[0]
  {
    forall i: nat | SmallerAt(a, b, i) ensures i == 0 {
      if i > 0 {
        HeadsAgree(a, b, i);
      }
    }
    assert a[..0] == b[..0];
    assert SmallerAt(a, b, 0) <==> a[0] < b[0];
  }

  lemma HeadsAgree(a: string, b: string, i: nat)
    requires SmallerAt(a, b, i) && i > 0
    ensures a[0] == b[0]
  {
    assert a[..i][0] == b[..i][0];
  }

  /** What a group's target is: never attempted if any candidate never was, otherwise attempted no later than
      any; then created no later than any that ties with it; then the smallest id of those. */
  ghost predicate ComesFirst(db: Db, g: Group, k: Id) {
    && k in Candidates(db, g)
    && forall j <- Candidates(db, g) ::
         var mine, other := LastAttemptAt(db.events, k), LastAttemptAt(db.events, j);
         && (mine.Some? ==> other.Some? && mine.value <= other.value)
         && (mine == other ==> db.orders[k].createdAt <= db.orders[j].createdAt)
         && (mine == other && db.orders[k].createdAt == db.orders[j].createdAt && j != k ==> SmallerText(k, j))
  }

  lemma TargetComesFirst(db: Db, g: Group, k: Id)
    ensures IsTarget(db, g, Some(k)) <==> ComesFirst(db, g, k)
  {
    hide TextBefore, SmallerText, LastAttemptAt;
    forall j <- Candidates(db, g) ensures TextBefore(k, j) <==> SmallerText(k, j) {
      TextBeforeMeans(k, j);
    }
  }

  /** Due order is a strict total order, so a group with candidates has exactly one target. */
  lemma DueIsTotal(db: Db, a: Id, b: Id, c: Id)
    requires a in db.orders && b in db.orders && c in db.orders
    ensures !DueBefore(db, a, a)
    ensures DueBefore(db, a, b) && DueBefore(db, b, c) ==> DueBefore(db, a, c)
    ensures a != b ==> DueBefore(db, a, b) || DueBefore(db, b, a)
  {
    TextOrder(a, b, c);
    hide TextBefore;
  }

  lemma TargetIsUnique(db: Db, g: Group, s: Option<Id>, t: Option<Id>)
    requires IsTarget(db, g, s) && IsTarget(db, g, t)
    ensures s == t
  {
    hide DueBefore;
    if s.Some? && t.Some? && s != t {
      DueIsTotal(db, s.value, t.value, s.value);
    }
  }

  // ---------- Attempts in the log ----------

  /** The log grows without a reconciliation attempt. */
  ghost predicate Unattempted(events: seq<Event>, events': seq<Event>) {
    && events <= events'
    && forall i :: |events| <= i < |events'| ==> events'[i].kind != ReconciliationAttempted
  }

  lemma InvalidateUnattempted(db: Db, k: Id, reason: Reason, now: int, actor: Actor, only: Option<Id>)
    ensures Unattempted(db.events, InvalidateRequests(db, k, reason, now, actor, only).events)
  {
    if k in db.orders {
      var more := InvalidationEvents(db.orders[k], k, ActiveRequests(db, k, only), reason, now, actor);
      assert forall i :: 0 <= i < |more| ==> more[i] in more;
    }
  }

  lemma CommitUnattempted(db: Db, k: Id, o': Order, before: seq<Event>, reason: Reason, actor: Actor,
                          status: seq<Event>)
    requires (forall e <- before :: e.kind != ReconciliationAttempted)
             && (forall e <- status :: e.kind != ReconciliationAttempted)
    ensures Unattempted(db.events, Commit(db, k, o', before, reason, actor, status).events)
  {
    var written := db.(orders := db.orders[k := o'], events := db.events + before);
    InvalidateUnattempted(written, k, reason, o'.updatedAt, actor, None);
    hide InvalidateRequests;
  }

  lemma SubmissionUnattempted(db: Db, tx: Tx)
    requires tx.TxRecoverOne? || tx.TxFinishSubmission?
    ensures Unattempted(db.events, Apply(db, tx).events)
  {
    hide Commit, SubmittedFill, EventCode, DraftExpiryLogged, FinishedOrder;
    forall k: Id, o': Order, status: seq<Event> | forall e <- status :: e.kind != ReconciliationAttempted
      ensures Unattempted(db.events, Commit(db, k, o', [], StateChanged, System, status).events)
    {
      CommitUnattempted(db, k, o', [], StateChanged, System, status);
    }
    hide Unattempted;
    assert Unattempted(db.events, db.events) by { hide *; SameUnattempted(db.events); }
  }

  lemma SameUnattempted(events: seq<Event>)
    ensures Unattempted(events, events)
  {
  }

  lemma CancellationUnattempted(db: Db, tx: Tx)
    requires Answerable(db, tx) && (tx.TxBeginCancellation? || tx.TxFinishCancellation? || tx.TxFinishReconciliation?)
    ensures Unattempted(db.events, Apply(db, tx).events)
  {
    hide Commit, LatestAttempt, ResolveCancellation, EventCode, FindingError, FindingFill, AttemptLogged;
    hide CanTransition, PendingOrder, ResolvedOrder, ReconciledOrder, Order.CanCancel, STATUS_LABELS, OutcomeCode;
    forall k: Id, o': Order, before: seq<Event>, reason: Reason, actor: Actor, status: seq<Event>
      | (forall e <- before :: e.kind != ReconciliationAttempted)
        && (forall e <- status :: e.kind != ReconciliationAttempted)
      ensures Unattempted(db.events, Commit(db, k, o', before, reason, actor, status).events)
    {
      CommitUnattempted(db, k, o', before, reason, actor, status);
    }
    hide Unattempted;
    SameUnattempted(db.events);
  }

  /** Only claims log attempts. */
  lemma OnlyClaimsAttempt(db: Db, tx: Tx)
    requires Answerable(db, tx) && ClaimedBy(db, tx).None?
    ensures Unattempted(db.events, Apply(db, tx).events)
  {
    hide InvalidateRequests, SupersedeCodes, LatestAttempt, IsTarget, RecoverOne, FinishSubmission, BeginCancellation,
         FinishCancellation;
    hide FinishReconciliation, AttemptLogged, DraftExpiryLogged, FailedCode;
    forall k: Id, reason: Reason, now: int, actor: Actor, only: Option<Id>
      ensures Unattempted(db.events, InvalidateRequests(db, k, reason, now, actor, only).events)
    {
      InvalidateUnattempted(db, k, reason, now, actor, only);
    }
    if tx.TxRecoverOne? || tx.TxFinishSubmission? {
      SubmissionUnattempted(db, tx);
    } else if tx.TxBeginCancellation? || tx.TxFinishCancellation? || tx.TxFinishReconciliation? {
      CancellationUnattempted(db, tx);
    }
  }

  lemma {:induction false} LastAttemptUnchanged(events: seq<Event>, events': seq<Event>, k: Id)
    requires Unattempted(events, events')
    ensures LastAttemptAt(events', k) == LastAttemptAt(events, k)
    decreases |events'|
  {
    if |events'| > |events| {
      LastAttemptUnchanged(events, events'[..|events'| - 1], k);
    } else {
      assert events' == events;
    }
  }

  lemma LastAttemptAppended(events: seq<Event>, e: Event, k: Id)
    ensures var last, now := LastAttemptAt(events, k), LastAttemptAt(events + [e], k);
            if !IsReconciliationAttempt(e, k) then now == last
            else now == Some(if last.None? then e.occurredAt else Max(last.value, e.occurredAt))
  {
    assert (events + [e])[..|events|] == events;
  }

  // ---------- No starvation ----------

  /** The candidates of the group that will be served before x. */
  ghost function Ahead(db: Db, g: Group, x: Id): set<Id>
    requires x in Candidates(db, g)
  {
    set k | k in Candidates(db, g) && k != x && DueBefore(db, k, x)
  }

  ghost function Newcomers(db: Db, db': Db, g: Group): set<Id> {
    Candidates(db', g) - Candidates(db, g)
  }

  /** Nothing but a newly syncable order gets ahead of x without a claim. */
  lemma QuietStepKeepsAhead(db: Db, db': Db, g: Group, x: Id)
    requires x in Candidates(db, g) && x in Candidates(db', g)
    requires Evolves(db, db') && Unattempted(db.events, db'.events)
    ensures Ahead(db', g, x) <= Ahead(db, g, x) + Newcomers(db, db', g)
  {
    hide RequestsEvolve, CodesEvolve, GatesEvolve, DraftsEvolve, Unattempted, OrderWrite, TextBefore, LastAttemptAt;
    LastAttemptUnchanged(db.events, db'.events, x);
    forall k <- Ahead(db', g, x) | k in Candidates(db, g) ensures k in Ahead(db, g, x) {
      LastAttemptUnchanged(db.events, db'.events, k);
      SameBirth(db.orders[k], db'.orders[k]);
      SameBirth(db.orders[x], db'.orders[x]);
    }
  }

  lemma SameBirth(o: Order, o': Order)
    requires OrderStep(o, o')
    ensures o'.createdAt == o.createdAt && o'.terms == o.terms
  {
  }

  lemma AttemptsBehindGate(db: Db, x: Id)
    requires Inv(db) && x in db.orders
    ensures var last, g := LastAttemptAt(db.events, x), GroupOf(db.orders[x]);
            last.Some? ==> g in db.gates && last.value <= db.gates[g]
  {
    hide OrdersOk, JournalOk, RequestsOk, CodesOk, AttemptsOk, LastAttemptAt;
    var last := LastAttemptAt(db.events, x);
    if last.Some? {
      var e :| e in db.events && IsReconciliationAttempt(e, x) && e.occurredAt == last.value;
      assert AttemptBehindGate(e, db.orders, db.gates);
    }
  }

  lemma ClaimLogs(db: Db, tx: Tx)
    requires Answerable(db, tx) && ClaimedBy(db, tx).Some?
    ensures tx.k in db.orders && Apply(db, tx).orders == db.orders
    ensures Apply(db, tx).events == db.events + [AttemptedEvent(db.orders[tx.k], tx.k, tx.attemptId, tx.now)]
  {
    hide IsTarget;
  }

  /** An attempt on y later than x's last one puts y behind x and moves nobody else. */
  lemma AttemptSendsBack(db: Db, db': Db, g: Group, x: Id, y: Id, at: int)
    requires x in Candidates(db, g) && y != x && y in db.orders && db'.orders == db.orders
    requires forall k: Id :: k != y ==> LastAttemptAt(db'.events, k) == LastAttemptAt(db.events, k)
    requires GroupOf(db.orders[y]) == g ==>
               && LastAttemptAt(db'.events, y) == Some(at)
               && (LastAttemptAt(db.events, x).Some? ==> LastAttemptAt(db.events, x).value < at)
    ensures Candidates(db', g) == Candidates(db, g)
    ensures Ahead(db', g, x) <= Ahead(db, g, x) - {y}
  {
    hide LastAttemptAt, TextBefore;
  }

  /** A successful claim of another order of the group lets nobody past x and puts the claimed order
      behind x: its attempt time exceeds every earlier one of the group. */
  lemma ClaimKeepsAhead(db: Db, tx: Tx, x: Id, g: Group)
    requires Inv(db) && Answerable(db, tx) && ClaimedBy(db, tx).Some? && tx.interval > 0
    requires x in Candidates(db, g) && tx.k != x
    ensures x in Candidates(Apply(db, tx), g)
    ensures Ahead(Apply(db, tx), g, x) <= Ahead(db, g, x) - {tx.k}
  {
    hide Inv, IsTarget, DueBefore, LastAttemptAt, Run, Apply, Ahead, Answerable;
    var db', y := Apply(db, tx), tx.k;
    ClaimMovesGate(db, tx);
    ClaimLogs(db, tx);
    AttemptsBehindGate(db, x);
    AttemptsBehindGate(db, y);
    var e := AttemptedEvent(db.orders[y], y, tx.attemptId, tx.now);
    forall k: Id ensures k != y ==> LastAttemptAt(db'.events, k) == LastAttemptAt(db.events, k) {
      LastAttemptAppended(db.events, e, k);
    }
    LastAttemptAppended(db.events, e, y);
    AttemptSendsBack(db, db', g, x, y, tx.now);
  }

  /** A scheduled claim that passes x over serves an order that was ahead of it. */
  lemma ScheduledClaimIsAhead(db: Db, tx: Tx, x: Id, g: Group)
    requires Answerable(db, tx) && tx.TxClaimPlanned? && ClaimedBy(db, tx).Some?
    requires x in Candidates(db, g) && tx.k != x && GroupOf(db.orders[tx.k]) == g
    ensures tx.k in Ahead(db, g, x)
  {
    hide DueBefore, ClaimThroughGate;
    assert IsTarget(db, g, Some(tx.k));
  }

  /** How many scheduled claims of g succeed at steps i..j, and how many orders of g become syncable. */
  ghost function Scheduled(h: seq<Db>, txs: seq<Tx>, i: nat, j: nat, g: Group): nat
    requires IsRun(h, txs) && i <= j <= |txs|
    decreases j
  {
    if i == j then 0
    else Scheduled(h, txs, i, j - 1, g)
         + if txs[j - 1].TxClaimPlanned? && ClaimsGroup(h, txs, j - 1, g) then 1 else 0
  }

  ghost function Arrivals(h: seq<Db>, i: nat, j: nat, g: Group): nat
    requires i <= j < |h|
    decreases j
  {
    if i == j then 0 else Arrivals(h, i, j - 1, g) + |Newcomers(h[j - 1], h[j], g)|
  }

  ghost predicate WaitsThroughout(h: seq<Db>, txs: seq<Tx>, i: nat, j: nat, g: Group, x: Id)
    requires IsRun(h, txs) && i <= j <= |txs|
  {
    && (forall n | i <= n <= j :: x in Candidates(h[n], g))
    && (forall n | i <= n < j :: ClaimedBy(h[n], txs[n]) != Some(x))
  }

  lemma SetSizes<T>(a: set<T>, b: set<T>, c: set<T>)
    ensures a <= b ==> |a| <= |b|
    ensures a <= b + c ==> |a| <= |b| + |c|
  {
    if a <= b {
      assert b == a + (b - a);
    }
    if a <= b + c {
      assert b + c == a + (b + c - a);
      assert b + c == b + (c - b) && c == (c - b) + (c * b);
    }
  }

  lemma StepShortensQueue(h: seq<Db>, txs: seq<Tx>, n: nat, g: Group, x: Id)
    requires IsRun(h, txs) && Healthy(h) && ClaimsAskFor(txs, 1) && n < |txs|
    requires x in Candidates(h[n], g) && x in Candidates(h[n + 1], g) && ClaimedBy(h[n], txs[n]) != Some(x)
    ensures |Ahead(h[n + 1], g, x)| + (if txs[n].TxClaimPlanned? && ClaimsGroup(h, txs, n, g) then 1 else 0)
            <= |Ahead(h[n], g, x)| + |Newcomers(h[n], h[n + 1], g)|
  {
    hide Inv, Evolves, Run, Served, IsTarget, Ahead, Candidates, Newcomers;
    var db, db', tx := h[n], h[n + 1], txs[n];
    assert Inv(db) && Evolves(db, db') && db' == Apply(db, tx);
    hide IsRun, Healthy, Apply, Answerable;
    if ClaimedBy(db, tx).Some? {
      ClaimKeepsAhead(db, tx, x, g);
      assert |Newcomers(db, db', g)| >= 0;
      if tx.TxClaimPlanned? && ClaimsGroup(h, txs, n, g) {
        ScheduledClaimIsAhead(db, tx, x, g);
        assert |Ahead(db, g, x) - {tx.k}| == |Ahead(db, g, x)| - 1;
      }
      SetSizes(Ahead(db', g, x), Ahead(db, g, x) - {tx.k}, {});
      SetSizes(Ahead(db, g, x) - {tx.k}, Ahead(db, g, x), {});
    } else {
      OnlyClaimsAttempt(db, tx);
      QuietStepKeepsAhead(db, db', g, x);
      SetSizes(Ahead(db', g, x), Ahead(db, g, x), Newcomers(db, db', g));
    }
  }

  /** No starvation: while x waits, every scheduled claim of its group uses up one order that was ahead
      of it or arrived meanwhile. Manual claims, in any number, never push x back. */
  lemma {:induction false} ScheduledClaimsUseUpTheQueue(h: seq<Db>, txs: seq<Tx>, i: nat, j: nat, g: Group, x: Id)
    requires IsRun(h, txs) && ClaimsAskFor(txs, 1) && i <= j <= |txs| && WaitsThroughout(h, txs, i, j, g, x)
    ensures |Ahead(h[j], g, x)| + Scheduled(h, txs, i, j, g) <= |Ahead(h[i], g, x)| + Arrivals(h, i, j, g)
    decreases j
  {
    hide Inv, Evolves, Served, Run, IsTarget, Healthy, ClaimsAskFor, Ahead, Candidates, Newcomers, ClaimsGroup;
    RunIsHealthy(h, txs);
    hide IsRun, ClaimedBy;
    if i < j {
      ScheduledClaimsUseUpTheQueue(h, txs, i, j - 1, g, x);
      StepShortensQueue(h, txs, j - 1, g, x);
    }
  }

  /** So an order that stays syncable is attempted no later than the first scheduled claim beyond those
      its queue and the newcomers account for. */
  lemma AttemptedInTime(h: seq<Db>, txs: seq<Tx>, i: nat, j: nat, g: Group, x: Id)
    requires IsRun(h, txs) && ClaimsAskFor(txs, 1) && i <= j <= |txs|
    requires forall n | i <= n <= j :: x in Candidates(h[n], g)
    requires Scheduled(h, txs, i, j, g) > |Ahead(h[i], g, x)| + Arrivals(h, i, j, g)
    ensures exists n | i <= n < j :: ClaimedBy(h[n], txs[n]) == Some(x)
  {
    hide Inv, Served, Run, Ahead, Candidates;
    if forall n | i <= n < j :: ClaimedBy(h[n], txs[n]) != Some(x) {
      ScheduledClaimsUseUpTheQueue(h, txs, i, j, g, x);
    }
  }
}
