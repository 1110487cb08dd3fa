/** The guarantees of the services over every execution: interleavings, crashes, lost answers, retries. */
module ServiceTheorems {
  import opened Common
  import opened Orders
  import opened Journal
  import opened Database
  import opened Invariants
  import opened Preservation
  import opened Runs
  import opened WriteSets
  import opened OrderTheorems
  import opened Services
  import opened ServiceSafety

  // ---------- Submission ----------

  lemma {:induction false} NoRepeatsCounts<T>(s: seq<T>, x: T)
    requires NoRepeats(s)
    ensures multiset(s)[x] <= 1
  {
    if s != [] {
      var rest := s[..|s| - 1];
      assert s == rest + [s[|s| - 1]];
      NoRepeatsCounts(rest, x);
    }
  }

  /** The provider is asked to submit a draft at most once, ever, and only after the order was committed
      as handed over, so a lost answer always leaves an order that reconciliation can look for. */
  lemma SubmittedAtMostOnce(ws: seq<World>, acts: seq<Act>, i: nat, d: Id)
    requires IsExecution(ws, acts) && i < |ws|
    ensures multiset(ws[i].provider)[SubmitCall(d)] <= 1
    ensures SubmitCall(d) in ws[i].provider ==> HandedOver(ws[i].db.orders, d)
  {
    ExecutionIsSafe(ws, acts, i);
    hide IsExecution, PastOk, LocksOk, SubmittersOk, OwnersOk, AuthorityOk, HandedOver;
    NoRepeatsCounts(ws[i].provider, SubmitCall(d));
  }

  /** A live submitter never meets a version conflict on its own order: marking succeeds, a result is
      refused only for what it says, and recording UNKNOWN always succeeds. */
  lemma OwnFinishNeverConflicts(w: World, call: nat, r: Submitted, now: int, actor: Actor)
    requires Safe(w) && call in w.calls && Submits(w.calls[call]).Some?
    ensures var k := Submits(w.calls[call]).value;
            && MarkStarted(w.db, k, 1, now).1 == Done
            && FinishSubmission(w.db, k, 1, r, now, actor).1 != Failed(ConcurrentUpdate)
            && FinishSubmission(w.db, k, 1, r, now, actor).1 != Failed(MissingRecord)
            && (r.state == Unknown && r.fill.None? ==> FinishSubmission(w.db, k, 1, r, now, actor).1 == Done)
  {
    hide Safe, Commit, EventCode, DraftExpiryLogged;
    OwnOrder(w, call);
  }

  lemma OwnOrder(w: World, call: nat)
    requires Safe(w) && call in w.calls && Submits(w.calls[call]).Some?
    ensures var k := Submits(w.calls[call]).value;
            k in w.db.orders && w.db.orders[k].state == Submitting && w.db.orders[k].version == 1
  {
    hide PastOk, LocksOk, ProviderOk, OwnersOk, AuthorityOk;
    WasLive(w, call);
  }

  /** Recovery takes an order only when no live call is submitting it. */
  lemma RecoveryTakesOnlyAbandoned(w: World, a: Act, c: nat)
    requires Safe(w) && Enabled(w, a) && a.Recover? && c in w.calls
    ensures Submits(w.calls[c]) != Some(w.calls[a.call].k)
  {
    hide PastOk, ProviderOk, OwnersOk, AuthorityOk;
    assert LiveOk(w.calls[a.call], w.db.orders, w.provider);
    assert LiveOk(w.calls[c], w.db.orders, w.provider);
  }

  // ---------- Cancellation ----------

  function SentAttempts(provider: seq<ProviderCall>, k: Id): set<Id> {
    set p | p in provider && p.CancelCall? && p.k == k :: p.attemptId
  }

  /** Attempts for which the provider was called or may still be called. */
  function UsedAttempts(w: World, k: Id): set<Id> {
    SentAttempts(w.provider, k) + set c | c in w.calls && w.calls[c].CancelOwned? && w.calls[c].k == k ::
      w.calls[c].attemptId
  }

  predicate Enters(db: Db, db': Db, k: Id) {
    k in db'.orders && db'.orders[k].state == CancelPending && !(k in db.orders && db.orders[k].state == CancelPending)
  }

  /** How often order k entered CancelPending in the first n steps. */
  function Entries(ws: seq<World>, n: nat, k: Id): nat
    requires n < |ws|
  {
    if n == 0 then 0
    else Entries(ws, n - 1, k) + if Enters(ws[n - 1].db, ws[n].db, k) then 1 else 0
  }

  lemma BeginEnters(db: Db, k: Id, version: int, state: OrderState, attemptId: Id, now: int, actor: Actor,
                    found: Option<nat>)
    requires LatestAttempt(db.events, k, found)
    requires BeginCancellation(db, k, version, state, attemptId, now, actor, found).1
             == CancelReply(Some(attemptId), true)
    ensures Enters(db, BeginCancellation(db, k, version, state, attemptId, now, actor, found).0, k)
    ensures db.orders[k].version == version && db.orders[k].state == state
  {
    BeginCancellationWrites(db, k, version, state, attemptId, now, actor, found);
    hide BeginCancellation, LatestAttempt;
  }

  /** No other step makes an attempt usable. */
  lemma UsedUnlessBegun(w: World, r: World, a: Act, reply: Reply, k: Id)
    requires Enabled(w, a) && r.calls == w.calls && r.provider == w.provider
    requires a.BeginCancel? ==> reply != CancelReply(Some(a.attemptId), true)
    ensures UsedAttempts(Moved(r, a, reply), k) <= UsedAttempts(w, k)
  {
    hide Served, Answerable, LatestAttempt;
  }

  lemma UsedOnceBegun(w: World, call: nat, begun: Id, attemptId: Id, actor: Actor, k: Id)
    ensures var now := At(w, call, CancelOwned(begun, attemptId, actor));
            UsedAttempts(now, k) <= UsedAttempts(w, k) + if begun == k then {attemptId} else {}
  {
  }

  /** What a begun cancellation changes, in the database and in its call. */
  lemma BegunCancellation(w: World, a: Act)
    requires Enabled(w, a) && a.BeginCancel? && ReplyOf(w, a) == CancelReply(Some(a.attemptId), true)
    ensures Enters(w.db, Next(w, a).db, a.k)
    ensures var n, actor := Next(w, a), if a.call in w.calls then Mcp else Dashboard;
            n.provider == w.provider && n.calls == w.calls[a.call := CancelOwned(a.k, a.attemptId, actor)]
  {
    hide BeginCancellation, LatestAttempt, ReviewedAs, Served, Answerable, Enters;
    BeginEnters(w.db, a.k, a.version, a.state, a.attemptId, a.now, if a.call in w.calls then Mcp else Dashboard,
                a.found);
  }

  /** A step makes an attempt usable only by moving its order into CancelPending. */
  lemma UsedGrowsByEntering(w: World, a: Act, k: Id)
    requires Enabled(w, a)
    ensures UsedAttempts(Next(w, a), k) <= UsedAttempts(w, k)
            || (Enters(w.db, Next(w, a).db, k) && exists x :: UsedAttempts(Next(w, a), k) <= UsedAttempts(w, k) + {x})
  {
    hide Enabled, Ran, ReplyOf, Moved, Enters;
    if a.BeginCancel? && ReplyOf(w, a) == CancelReply(Some(a.attemptId), true) {
      var n, actor := Next(w, a), if a.call in w.calls then Mcp else Dashboard;
      BegunCancellation(w, a);
      UsedOnceBegun(w, a.call, a.k, a.attemptId, actor, k);
      assert UsedAttempts(n, k) == UsedAttempts(At(w, a.call, CancelOwned(a.k, a.attemptId, actor)), k);
      if a.k == k {
        assert UsedAttempts(n, k) <= UsedAttempts(w, k) + {a.attemptId};
      }
    } else {
      RanKeepsCalls(w, a);
      UsedUnlessBegun(w, Ran(w, a), a, ReplyOf(w, a), k);
    }
  }

  lemma SubsetSize<T>(a: set<T>, b: set<T>)
    requires a <= b
    ensures |a| <= |b|
  {
    assert b == a + (b - a);
  }

  lemma {:induction false} UsedWithinEntries(ws: seq<World>, acts: seq<Act>, i: nat, k: Id)
    requires IsExecution(ws, acts) && i < |ws|
    ensures |UsedAttempts(ws[i], k)| <= Entries(ws, i, k)
    decreases i
  {
    hide Enabled, Next, UsedAttempts;
    if i == 0 {
      assert UsedAttempts(START, k) == {} by { hide *; StartUsesNothing(k); }
    } else {
      UsedWithinEntries(ws, acts, i - 1, k);
      UsedGrowsByEntering(ws[i - 1], acts[i - 1], k);
      var before, after := UsedAttempts(ws[i - 1], k), UsedAttempts(ws[i], k);
      if after <= before {
        SubsetSize(after, before);
      } else {
        var x :| after <= before + {x};
        SubsetSize(after, before + {x});
      }
    }
  }

  lemma StartUsesNothing(k: Id)
    ensures UsedAttempts(START, k) == {}
  {
  }

  /** The provider is asked to cancel an order at most as often as the order entered CancelPending, and
      never twice for one attempt. */
  lemma CancelCallsWithinEntries(ws: seq<World>, acts: seq<Act>, i: nat, k: Id, attemptId: Id)
    requires IsExecution(ws, acts) && i < |ws|
    ensures |SentAttempts(ws[i].provider, k)| <= Entries(ws, i, k)
    ensures multiset(ws[i].provider)[CancelCall(k, attemptId)] <= 1
  {
    UsedWithinEntries(ws, acts, i, k);
    ExecutionIsSafe(ws, acts, i);
    hide IsExecution, PastOk, LocksOk, SubmittersOk, OwnersOk, AuthorityOk;
    SubsetSize(SentAttempts(ws[i].provider, k), UsedAttempts(ws[i], k));
    NoRepeatsCounts(ws[i].provider, CancelCall(k, attemptId));
  }

  // ---------- Authority ----------

  lemma HeldRequestCode(w: World, call: nat)
    requires Safe(w) && call in w.calls && w.calls[call].CancelSpent?
    ensures var pc := w.calls[call];
            && pc.code in w.db.codes && w.db.codes[pc.code].consumedAt.Some? && pc.code !in w.acted
            && pc.requestId in w.db.requests
            && w.db.codes[pc.code].payload == w.db.requests[pc.requestId].fingerprint
            && RequestOk(w.db.requests[pc.requestId], w.db.orders)
  {
    hide PastOk, LocksOk, SubmittersOk, ProviderOk, OwnersOk, JournalOk, OrdersOk, AttemptsOk, GatesOk;
    NowOk(w);
    var pc := w.calls[call];
    assert HeldOk(pc, w.acted, w.db.codes);
    assert CodeOk(w.db.codes[pc.code], w.db.requests, w.db.drafts);
    assert RequestOk(w.db.requests[pc.requestId], w.db.orders);
  }

  /** An authorized cancellation starts only on the owner's consumed code, unused so far, and only on
      the very record the owner reviewed: its version, state and remaining quantity are the ones the
      code was issued for. */
  lemma AuthorizedCancelMatchesReview(w: World, a: Act)
    requires Safe(w) && Enabled(w, a) && a.BeginCancel? && a.call in w.calls
    requires ReplyOf(w, a) == CancelReply(Some(a.attemptId), true)
    ensures var code := w.calls[a.call].code;
            && a.k in w.db.orders
            && code in w.db.codes && w.db.codes[code].consumedAt.Some?
            && w.db.codes[code].payload == PrintOf(a.k, w.db.orders[a.k])
            && code !in w.acted && Next(w, a).acted == w.acted + [code]
  {
    hide Safe, Enabled, Next, ReplyOf, BeginCancellation, LatestAttempt;
    CancellationOnCode(w, a);
    HeldRequestCode(w, a.call);
    BeginEnters(w.db, a.k, a.version, a.state, a.attemptId, a.now, Mcp, a.found);
  }

  /** What a call must have gone through to begin an authorized cancellation. */
  lemma CancellationOnCode(w: World, a: Act)
    requires Enabled(w, a) && a.BeginCancel? && a.call in w.calls
             && ReplyOf(w, a) == CancelReply(Some(a.attemptId), true)
    ensures w.calls[a.call].CancelSpent? && ReviewedAs(w.db, w.calls[a.call].requestId, a.k, a.version, a.state)
    ensures LatestAttempt(w.db.events, a.k, a.found)
    ensures BeginCancellation(w.db, a.k, a.version, a.state, a.attemptId, a.now, Mcp, a.found).1
            == CancelReply(Some(a.attemptId), true)
    ensures Next(w, a).acted == w.acted + [w.calls[a.call].code]
  {
    hide BeginCancellation, LatestAttempt, Served, Answerable;
  }

  /** An MCP submission creates its order only on a consumed code, unused so far, for that draft. */
  lemma AuthorizedSubmitMatchesDraft(w: World, a: Act)
    requires Safe(w) && Enabled(w, a) && a.Begin? && w.calls[a.call].Granted? && ReplyOf(w, a) == Ordered(a.k, true)
    ensures var code := w.calls[a.call].code;
            && code in w.db.codes && w.db.codes[code].consumedAt.Some?
            && a.k in Next(w, a).db.orders
            && w.db.codes[code].payload == DraftPrint(Next(w, a).db.orders[a.k].fingerprint)
            && code !in w.acted && Next(w, a).acted == w.acted + [code]
  {
    hide Safe, Enabled, Next, ReplyOf, BeginSubmission, HandedOver;
    SubmissionOnCode(w, a);
    var pc := w.calls[a.call];
    HeldSubmitCode(w, a.call);
    BegunOrderIsNew(w.db, pc.draftId, a.k, a.clientOrderId, a.authorizationId, a.now, Mcp);
  }

  lemma HeldSubmitCode(w: World, call: nat)
    requires Safe(w) && call in w.calls && w.calls[call].Granted?
    ensures var pc := w.calls[call];
            && pc.code in w.db.codes && w.db.codes[pc.code].consumedAt.Some? && pc.code !in w.acted
            && pc.draftId in w.db.drafts
            && w.db.codes[pc.code].payload == DraftPrint(w.db.drafts[pc.draftId].fingerprint)
  {
    hide PastOk, LocksOk, SubmittersOk, ProviderOk, OwnersOk, JournalOk, OrdersOk, RequestsOk, AttemptsOk, GatesOk;
    NowOk(w);
    var pc := w.calls[call];
    assert HeldOk(pc, w.acted, w.db.codes);
    assert CodeOk(w.db.codes[pc.code], w.db.requests, w.db.drafts);
  }

  lemma SubmissionOnCode(w: World, a: Act)
    requires Enabled(w, a) && a.Begin? && w.calls[a.call].Granted? && ReplyOf(w, a) == Ordered(a.k, true)
    ensures a.call in w.calls
    ensures var pc := w.calls[a.call];
            && BeginSubmission(w.db, pc.draftId, a.k, a.clientOrderId, a.authorizationId, a.now, Mcp).1
              == Ordered(a.k, true)
            && Next(w, a).db == BeginSubmission(w.db, pc.draftId, a.k, a.clientOrderId, a.authorizationId, a.now, Mcp).0
            && Next(w, a).acted == w.acted + [pc.code]
  {
    hide BeginSubmission, Served, LatestAttempt, Answerable;
  }

  /** No code ever authorizes two actions. */
  lemma NoCodeActsTwice(ws: seq<World>, acts: seq<Act>, i: nat, code: Id)
    requires IsExecution(ws, acts) && i < |ws|
    ensures multiset(ws[i].acted)[code] <= 1
  {
    ExecutionIsSafe(ws, acts, i);
    hide IsExecution, PastOk, LocksOk, SubmittersOk, OwnersOk, ProviderOk;
    NoRepeatsCounts(ws[i].acted, code);
  }

  /** No code is spent after it expired, in any execution. */
  lemma {:induction false} CodesAreSpentInTime(ws: seq<World>, acts: seq<Act>, i: nat)
    requires IsExecution(ws, acts) && i < |ws|
    ensures SpentInTime(ws[i].db.codes)
    decreases i
  {
    hide Enabled, Next, SpentInTime;
    if i == 0 {
      NothingSpent();
    } else {
      CodesAreSpentInTime(ws, acts, i - 1);
      StepSpendsInTime(ws[i - 1], acts[i - 1]);
    }
  }

  lemma NothingSpent()
    ensures SpentInTime(START.db.codes)
  {
  }

  lemma StepSpendsInTime(w: World, a: Act)
    requires Enabled(w, a) && SpentInTime(w.db.codes)
    ensures SpentInTime(Next(w, a).db.codes)
  {
    hide SpentInTime, Run, Apply, Served, LatestAttempt, Moved, Answerable;
    MovedKeepsDb(Ran(w, a), a, ReplyOf(w, a));
    if TxOf(w, a).Some? {
      ConsumptionsAreTimely(w, a);
      hide TxOf, Enabled;
      OnlyLateConsumptionIsLate(w.db, TxOf(w, a).value);
    }
  }

  lemma ConsumptionsAreTimely(w: World, a: Act)
    requires Enabled(w, a) && TxOf(w, a).Some?
    ensures var tx := TxOf(w, a).value;
      tx.TxConsumeCode? ==> tx.codeId in w.db.codes && tx.now <= w.db.codes[tx.codeId].expiresAt
  {
    hide Served, LatestAttempt, Answerable;
  }
}
