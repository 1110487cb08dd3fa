/** What holds at every moment of every execution of the services. */
module ServiceSafety {
  import opened Common
  import opened Orders
  import opened Journal
  import opened Database
  import opened Invariants
  import opened Preservation
  import opened Runs
  import opened WriteSets
  import opened OrderTheorems
  import opened AttemptOwnership
  import opened Services

  // ---------- The invariant ----------

  ghost predicate PastOk(db: Db, past: seq<Db>) {
    past != [] && past[|past| - 1] == db && Healthy(past)
  }

  /** A lock and the call holding it name each other. */
  ghost predicate LocksOk(locks: map<Id, nat>, calls: map<nat, Pc>) {
    && (forall c <- calls ::
        LockOf(calls[c]).Some? ==> LockOf(calls[c]).value in locks && locks[LockOf(calls[c]).value] == c)
    && (forall d <- locks :: locks[d] in calls && LockOf(calls[locks[d]]) == Some(d))
  }

  /** The order of a live submitter is still as it was left: Submitting, at version 1, and the provider
      has been called only if the counter says so. */
  ghost predicate LiveOk(pc: Pc, orders: map<Id, Order>, provider: seq<ProviderCall>) {
    pc.Begun? || pc.Marked? || pc.Sent? || pc.Recovering? ==>
      && pc.k in orders
      && var o := orders[pc.k];
      && o.draftId == pc.draftId
      && (!pc.Recovering? ==> o.state == Submitting && o.version == 1)
      && (pc.Marked? || pc.Sent? ==> o.submissionStartedAt.Some?)
      && (pc.Begun? || pc.Marked? ==> SubmitCall(pc.draftId) !in provider)
  }

  ghost predicate SubmittersOk(calls: map<nat, Pc>, orders: map<Id, Order>, provider: seq<ProviderCall>) {
    forall c <- calls :: LiveOk(calls[c], orders, provider)
  }

  ghost predicate NoRepeats<T>(s: seq<T>) {
    forall i, j :: 0 <= i < j < |s| ==> s[i] != s[j]
  }

  /** An order marked as handed to the provider exists for the draft. */
  ghost predicate HandedOver(orders: map<Id, Order>, d: Id) {
    exists k <- orders :: orders[k].draftId == d && orders[k].submissionStartedAt.Some?
  }

  ghost predicate ProviderOk(provider: seq<ProviderCall>, orders: map<Id, Order>, events: seq<Event>) {
    && NoRepeats(provider)
    && (forall d :: SubmitCall(d) in provider ==> HandedOver(orders, d))
    && (forall k, a :: CancelCall(k, a) in provider ==> AttemptLogged(events, k, a))
  }

  ghost predicate OwnersOk(calls: map<nat, Pc>, provider: seq<ProviderCall>, events: seq<Event>) {
    && (forall c <- calls :: calls[c].CancelOwned? ==>
          AttemptLogged(events, calls[c].k, calls[c].attemptId)
            && CancelCall(calls[c].k, calls[c].attemptId) !in provider)
    && (forall c <- calls, d <- calls ::
          && calls[c].CancelOwned? && calls[d].CancelOwned?
          && calls[c].k == calls[d].k && calls[c].attemptId == calls[d].attemptId
          ==> c == d)
  }

  ghost predicate HeldOk(pc: Pc, acted: seq<Id>, codes: map<Id, Code>) {
    Holds(pc).Some? ==>
      && pc.code in codes && codes[pc.code].consumedAt.Some? && pc.code !in acted
      && (pc.Granted? ==> codes[pc.code].action == SubmitAction && codes[pc.code].draftId == Some(pc.draftId))
      && (!pc.Granted? ==> codes[pc.code].action == CancelAction && codes[pc.code].requestId == Some(pc.requestId))
  }

  ghost predicate AuthorityOk(calls: map<nat, Pc>, acted: seq<Id>, codes: map<Id, Code>) {
    && (forall c <- calls :: HeldOk(calls[c], acted, codes))
    && (forall c <- calls, d <- calls :: Holds(calls[c]).Some? && Holds(calls[c]) == Holds(calls[d]) ==> c == d)
    && NoRepeats(acted)
    && (forall code <- acted :: code in codes && codes[code].consumedAt.Some?)
  }

  ghost predicate Safe(w: World) {
    && PastOk(w.db, w.past)
    && LocksOk(w.locks, w.calls)
    && SubmittersOk(w.calls, w.db.orders, w.provider)
    && ProviderOk(w.provider, w.db.orders, w.db.events)
    && OwnersOk(w.calls, w.provider, w.db.events)
    && AuthorityOk(w.calls, w.acted, w.db.codes)
  }

  lemma StartIsSafe()
    ensures Safe(START)
  {
    EmptyInv();
  }

  // ---------- The database side ----------

  lemma NowOk(w: World)
    requires PastOk(w.db, w.past)
    ensures Inv(w.db)
  {
    hide Inv, Evolves;
  }

  lemma StepIsFaithful(w: World, a: Act)
    requires Enabled(w, a) && PastOk(w.db, w.past) && AuthorityOk(w.calls, w.acted, w.db.codes)
    ensures TxOf(w, a).Some? ==> Faithful(w.db, TxOf(w, a).value)
  {
    hide Healthy, Inv, Evolves, Served, LatestAttempt, Answerable;
    if a.Other? {
      ServedIsFaithful(w.past, a.tx);
    } else if a.SpendRequest? {
      hide PastOk;
      assert HeldOk(w.calls[a.call], w.acted, w.db.codes);
    } else {
      hide PastOk, AuthorityOk;
    }
  }

  lemma PastGrows(db: Db, past: seq<Db>, db': Db)
    requires PastOk(db, past) && Inv(db') && Evolves(db, db')
    ensures PastOk(db', past + [db'])
  {
    hide Inv, Evolves;
  }

  lemma MovedKeepsDb(w: World, a: Act, reply: Reply)
    ensures Moved(w, a, reply).db == w.db && Moved(w, a, reply).past == w.past
  {
  }

  lemma RanKeepsCalls(w: World, a: Act)
    requires Enabled(w, a)
    ensures var r := Ran(w, a);
            r.calls == w.calls && r.locks == w.locks && r.provider == w.provider && r.acted == w.acted
  {
    hide TxOf, Run, Apply, Enabled;
  }

  /** The database evolves legally, whatever the step. */
  lemma DatabaseSide(w: World, a: Act)
    requires Enabled(w, a) && PastOk(w.db, w.past) && AuthorityOk(w.calls, w.acted, w.db.codes)
    ensures var r := Ran(w, a);
            PastOk(r.db, r.past) && Evolves(w.db, r.db) && Inv(w.db) && Inv(r.db)
    ensures Next(w, a).db == Ran(w, a).db && Next(w, a).past == Ran(w, a).past
  {
    hide PastOk, AuthorityOk, Inv, Evolves, Enabled, TxOf, Run, Apply, Moved, Healthy;
    NowOk(w);
    StepIsFaithful(w, a);
    MovedKeepsDb(Ran(w, a), a, ReplyOf(w, a));
    if TxOf(w, a).Some? {
      TransactionKeeps(w.db, TxOf(w, a).value);
      PastGrows(w.db, w.past, Apply(w.db, TxOf(w, a).value));
    } else {
      Reflexive(w.db);
    }
  }

  // ---------- Locks ----------

  lemma LocksEnd(w: World, call: nat)
    requires LocksOk(w.locks, w.calls)
    ensures LocksOk(Ended(w, call).locks, Ended(w, call).calls)
  {
  }

  lemma LocksMove(w: World, call: nat, pc: Pc)
    requires LocksOk(w.locks, w.calls)
    requires if call in w.calls then LockOf(w.calls[call]) == LockOf(pc) else LockOf(pc).None?
    ensures LocksOk(At(w, call, pc).locks, At(w, call, pc).calls)
  {
  }

  lemma LocksTake(w: World, call: nat, d: Id, pc: Pc)
    requires LocksOk(w.locks, w.calls) && call !in w.calls && d !in w.locks && LockOf(pc) == Some(d)
    ensures LocksOk(w.locks[d := call], w.calls[call := pc])
  {
  }

  lemma LocksCrash(w: World, dead: set<nat>)
    requires LocksOk(w.locks, w.calls)
    ensures LocksOk(Crashed(w, dead).locks, Crashed(w, dead).calls)
  {
  }

  predicate InSubmission(a: Act) {
    || a.Acquire? || a.Grant? || a.Begin? || a.Refuse? || a.Mark? || a.Send? || a.Persist? || a.GiveUp?
    || a.AcquireRecovery? || a.Recover?
  }

  lemma LocksInSubmission(w: World, r: World, a: Act, reply: Reply)
    requires Enabled(w, a) && LocksOk(w.locks, w.calls) && r.locks == w.locks && r.calls == w.calls
    requires InSubmission(a) && (a.AcquireRecovery? ==> r.db == w.db)
    ensures LocksOk(Moved(r, a, reply).locks, Moved(r, a, reply).calls)
  {
    hide LocksOk, Served, LatestAttempt, Answerable, Ended, Crashed;
    match a
    case Acquire(call, d, actor) => LocksTake(r, call, d, Holding(d, actor));
    case Grant(call, code, _) => LocksMove(r, call, Granted(w.calls[call].draftId, code));
    case Begin(call, k, _, _, _) =>
      LocksMove(r, call, Begun(w.calls[call].draftId, k));
      LocksEnd(r, call);
    case Refuse(call, _, _) => LocksEnd(r, call);
    case Mark(call, _) =>
      LocksMove(r, call, Marked(w.calls[call].draftId, w.calls[call].k));
      LocksEnd(r, call);
    case Send(call) => LocksMove(r, call, Sent(w.calls[call].draftId, w.calls[call].k));
    case Persist(call, _, _) => LocksEnd(r, call);
    case GiveUp(call) => LocksEnd(r, call);
    case AcquireRecovery(call, k) => LocksTake(r, call, w.db.orders[k].draftId, Recovering(w.db.orders[k].draftId, k));
    case Recover(call, _) => LocksEnd(r, call);
  }

  lemma LocksElsewhere(w: World, r: World, a: Act, reply: Reply)
    requires Enabled(w, a) && LocksOk(w.locks, w.calls) && r.locks == w.locks && r.calls == w.calls
    requires !InSubmission(a)
    ensures LocksOk(Moved(r, a, reply).locks, Moved(r, a, reply).calls)
  {
    hide LocksOk, Served, LatestAttempt, Answerable, Ended, Crashed;
    match a
    case GrantCancel(call, requestId, code, _) => LocksMove(r, call, CancelGranted(requestId, code));
    case SpendRequest(call) => LocksMove(r, call, CancelSpent(w.calls[call].requestId, w.calls[call].code));
    case BeginCancel(call, k, _, _, attemptId, _, _) =>
      LocksMove(r, call, CancelOwned(k, attemptId, if call in w.calls then Mcp else Dashboard));
      LocksEnd(r, call);
    case SendCancel(call) =>
      LocksMove(r, call, CancelSent(w.calls[call].k, w.calls[call].attemptId, w.calls[call].actor));
    case FinishCancel(call, _, _, _) => LocksEnd(r, call);
    case Crash(dead) => LocksCrash(r, dead);
    case Other(_) =>
  }

  lemma LocksStep(w: World, r: World, a: Act, reply: Reply)
    requires Enabled(w, a) && LocksOk(w.locks, w.calls) && r.locks == w.locks && r.calls == w.calls
    requires a.AcquireRecovery? ==> r.db == w.db
    ensures LocksOk(Moved(r, a, reply).locks, Moved(r, a, reply).calls)
  {
    hide *;
    if InSubmission(a) {
      LocksInSubmission(w, r, a, reply);
    } else {
      LocksElsewhere(w, r, a, reply);
    }
  }

  // ---------- Live submitters ----------

  /** Does the transaction write the order as its own submission or recovery? */
  predicate TouchesSubmission(tx: Tx, k: Id) {
    (tx.TxMarkStarted? || tx.TxRecoverOne? || tx.TxFinishSubmission?) && tx.k == k
  }

  /** Nothing but its own submission or recovery touches an order in Submitting. */
  lemma SubmittingUntouched(db: Db, tx: Tx, k: Id)
    requires Inv(db) && Answerable(db, tx) && Faithful(db, tx) && k in db.orders && db.orders[k].state == Submitting
    requires !TouchesSubmission(tx, k)
    ensures k in Apply(db, tx).orders && Apply(db, tx).orders[k] == db.orders[k]
  {
    hide RecoverOne, FinishSubmission, BeginCancellation, FinishCancellation, FinishReconciliation, ResolveCancellation,
         LatestAttempt, IsTarget, Inv;
    if Written(tx) != Some(k) {
      OtherOrdersUntouched(db, tx, k);
    } else {
      match tx
      case TxBeginCancellation(x, version, state, attemptId, now, actor, found) =>
        BeginCancellationWrites(db, x, version, state, attemptId, now, actor, found);
      case TxFinishCancellation(x, attemptId, seen, now, actor, found) =>
        FinishCancellationWrites(db, x, attemptId, seen, now, actor, found);
      case TxFinishReconciliation(x, attemptId, version, state, f, now) =>
        FinishReconciliationWrites(db, x, attemptId, version, state, f, now);
    }
  }

  function CallOf(a: Act): Option<nat> {
    if a.Crash? || a.Other? then None else Some(a.call)
  }

  /** A step writes a submission's order only from the call that holds its draft's lock. */
  lemma StepTouchesOwnOrder(w: World, a: Act, k: Id)
    requires Enabled(w, a) && SubmittersOk(w.calls, w.db.orders, w.provider)
    requires TxOf(w, a).Some? && TouchesSubmission(TxOf(w, a).value, k)
    ensures CallOf(a).Some? && CallOf(a).value in w.calls
    ensures k in w.db.orders && LockOf(w.calls[CallOf(a).value]) == Some(w.db.orders[k].draftId)
  {
    hide Served, LatestAttempt, Answerable;
    assert CallOf(a).value in w.calls;
    assert LiveOk(w.calls[CallOf(a).value], w.db.orders, w.provider);
  }

  /** Orders that other calls are responsible for stay as they were. */
  lemma LiveOrderStays(w: World, a: Act, c: nat)
    requires Enabled(w, a) && PastOk(w.db, w.past) && AuthorityOk(w.calls, w.acted, w.db.codes)
    requires LocksOk(w.locks, w.calls) && SubmittersOk(w.calls, w.db.orders, w.provider)
    requires c in w.calls && CallOf(a) != Some(c) && Submits(w.calls[c]).Some?
    ensures var k := Submits(w.calls[c]).value;
      k in w.db.orders && k in Ran(w, a).db.orders && Ran(w, a).db.orders[k] == w.db.orders[k]
  {
    hide PastOk, AuthorityOk, Inv, Enabled, TxOf, Run;
    var k := Submits(w.calls[c]).value;
    assert LiveOk(w.calls[c], w.db.orders, w.provider);
    NowOk(w);
    StepIsFaithful(w, a);
    if TxOf(w, a).Some? {
      if TouchesSubmission(TxOf(w, a).value, k) {
        StepTouchesOwnOrder(w, a, k);
        assert false;
      }
      SubmittingUntouched(w.db, TxOf(w, a).value, k);
    }
  }

  /** Only the acting call gets a new program counter; the others keep theirs or are gone. */
  lemma OthersKeepTheirPlace(w: World, r: World, a: Act, reply: Reply, c: nat)
    requires r.calls == w.calls && c in Moved(r, a, reply).calls && CallOf(a) != Some(c)
    ensures c in w.calls && Moved(r, a, reply).calls[c] == w.calls[c]
  {
  }

  /** Which provider call a step makes. */
  function Calling(w: World, a: Act): seq<ProviderCall>
    requires a.Send? || a.SendCancel? ==> a.call in w.calls
    requires a.SendCancel? ==> w.calls[a.call].CancelOwned?
  {
    if a.Send? && LockOf(w.calls[a.call]).Some? then [SubmitCall(LockOf(w.calls[a.call]).value)]
    else if a.SendCancel? then [CancelCall(w.calls[a.call].k, w.calls[a.call].attemptId)]
    else []
  }

  lemma ProviderMoves(w: World, r: World, a: Act, reply: Reply)
    requires Enabled(w, a) && r.calls == w.calls && r.provider == w.provider
    ensures Moved(r, a, reply).provider == w.provider + Calling(w, a)
  {
    hide Served, LatestAttempt, Answerable;
  }

  /** A begin that creates an order finds none for the draft, so the provider was not called for it. */
  lemma BegunOrderIsNew(db: Db, d: Id, k: Id, client: string, authorization: Id, now: int, actor: Actor)
    requires BeginSubmission(db, d, k, client, authorization, now, actor).1 == Ordered(k, true)
    ensures !HandedOver(db.orders, d) && d in db.drafts && k !in db.orders
    ensures var orders := BeginSubmission(db, d, k, client, authorization, now, actor).0.orders;
            && k in orders && orders[k].draftId == d && orders[k].state == Submitting && orders[k].version == 1
            && orders[k].fingerprint == db.drafts[d].fingerprint
  {
    if HandedOver(db.orders, d) {
      var x :| x in db.orders && db.orders[x].draftId == d;
      assert IsOrderFor(db, d, x);
    }
  }

  ghost predicate StepsFromLive(w: World, a: Act, c: nat)
    requires Enabled(w, a)
  {
    && CallOf(a) == Some(c) && c in Next(w, a).calls
    && (c in w.calls ==> LiveOk(w.calls[c], w.db.orders, w.provider))
  }

  lemma BeginStaysLive(w: World, a: Act, c: nat)
    requires Enabled(w, a) && a.Begin? && StepsFromLive(w, a, c) && ProviderOk(w.provider, w.db.orders, w.db.events)
    ensures LiveOk(Next(w, a).calls[c], Next(w, a).db.orders, Next(w, a).provider)
  {
    hide BeginSubmission, Served, LatestAttempt, Answerable, NoRepeats, HandedOver, AttemptLogged;
    if ReplyOf(w, a) == Ordered(a.k, true) {
      BegunOrderIsNew(w.db, w.calls[c].draftId, a.k, a.clientOrderId, a.authorizationId, a.now,
                      SubmitActor(w.calls[c]));
    }
  }

  lemma MarkStaysLive(w: World, a: Act, c: nat)
    requires Enabled(w, a) && a.Mark? && StepsFromLive(w, a, c)
    ensures LiveOk(Next(w, a).calls[c], Next(w, a).db.orders, Next(w, a).provider)
  {
    hide Served, LatestAttempt, Answerable;
  }

  lemma SendStaysLive(w: World, a: Act, c: nat)
    requires Enabled(w, a) && a.Send? && StepsFromLive(w, a, c)
    ensures LiveOk(Next(w, a).calls[c], Next(w, a).db.orders, Next(w, a).provider)
  {
    hide Run, Apply, Served, LatestAttempt, Answerable;
  }

  /** A refused result leaves everything as it was. */
  lemma PersistStaysLive(w: World, a: Act, c: nat)
    requires Enabled(w, a) && a.Persist? && StepsFromLive(w, a, c)
    ensures LiveOk(Next(w, a).calls[c], Next(w, a).db.orders, Next(w, a).provider)
  {
    hide FinishSubmission, Served, LatestAttempt, Answerable, LiveOk;
    FinishSubmissionWrites(w.db, w.calls[c].k, 1, a.result, a.now, Dashboard);
  }

  lemma RecoveryStaysLive(w: World, a: Act, c: nat)
    requires Enabled(w, a) && a.AcquireRecovery? && StepsFromLive(w, a, c)
    ensures LiveOk(Next(w, a).calls[c], Next(w, a).db.orders, Next(w, a).provider)
  {
    hide Run, Apply, Served, LatestAttempt, Answerable;
  }

  predicate BecomesLive(a: Act) {
    a.Begin? || a.Mark? || a.Send? || a.Persist? || a.AcquireRecovery?
  }

  lemma RestStaysLive(w: World, a: Act, c: nat)
    requires Enabled(w, a) && !BecomesLive(a) && StepsFromLive(w, a, c)
    ensures LiveOk(Next(w, a).calls[c], Next(w, a).db.orders, Next(w, a).provider)
  {
    hide Run, Apply, Served, LatestAttempt, Answerable, ReplyOf, TxOf;
  }

  lemma ActorStaysLive(w: World, a: Act, c: nat)
    requires Enabled(w, a) && CallOf(a) == Some(c) && c in Next(w, a).calls
    requires SubmittersOk(w.calls, w.db.orders, w.provider) && ProviderOk(w.provider, w.db.orders, w.db.events)
    ensures LiveOk(Next(w, a).calls[c], Next(w, a).db.orders, Next(w, a).provider)
  {
    hide Enabled, Next, LiveOk, ProviderOk;
    assert StepsFromLive(w, a, c);
    match a
    case Begin(_, _, _, _, _) => BeginStaysLive(w, a, c);
    case Mark(_, _) => MarkStaysLive(w, a, c);
    case Send(_) => SendStaysLive(w, a, c);
    case Persist(_, _, _) => PersistStaysLive(w, a, c);
    case AcquireRecovery(_, _) => RecoveryStaysLive(w, a, c);
    case _ => RestStaysLive(w, a, c);
  }

  lemma StepKeepsDraft(db: Db, db': Db, k: Id)
    requires Evolves(db, db') && k in db.orders
    ensures k in db'.orders && db'.orders[k].draftId == db.orders[k].draftId
  {
    hide RequestsEvolve, CodesEvolve, GatesEvolve, DraftsEvolve;
    assert OrderStep(db.orders[k], db'.orders[k]);
  }

  /** Another call's provider call is not for this call's draft: it would need the same lock. */
  lemma CallsElsewhere(w: World, a: Act, c: nat)
    requires Enabled(w, a) && LocksOk(w.locks, w.calls) && c in w.calls && CallOf(a) != Some(c)
    requires LockOf(w.calls[c]).Some?
    ensures SubmitCall(LockOf(w.calls[c]).value) !in Calling(w, a)
  {
    hide Served, LatestAttempt, Answerable;
  }

  lemma WasLive(w: World, c: nat)
    requires SubmittersOk(w.calls, w.db.orders, w.provider) && c in w.calls
    ensures LiveOk(w.calls[c], w.db.orders, w.provider)
  {
  }

  lemma OthersStayLive(w: World, a: Act, c: nat)
    requires Enabled(w, a) && Safe(w) && c in w.calls && CallOf(a) != Some(c)
    ensures LiveOk(w.calls[c], Ran(w, a).db.orders, w.provider + Calling(w, a))
  {
    hide PastOk, AuthorityOk, OwnersOk, ProviderOk, Inv, Evolves, Ran, Enabled, Calling, LocksOk, SubmittersOk, Next;
    WasLive(w, c);
    var pc := w.calls[c];
    if Submits(pc).Some? {
      LiveOrderStays(w, a, c);
      CallsElsewhere(w, a, c);
    } else if pc.Recovering? {
      DatabaseSide(w, a);
      StepKeepsDraft(w.db, Ran(w, a).db, pc.k);
    }
  }

  lemma SubmittersStep(w: World, a: Act)
    requires Enabled(w, a) && Safe(w)
    ensures SubmittersOk(Next(w, a).calls, Next(w, a).db.orders, Next(w, a).provider)
  {
    hide Ran, ReplyOf, Moved, PastOk, AuthorityOk, OwnersOk, ProviderOk, Inv, Evolves, Enabled, TxOf, LiveOk, Run,
         Apply, Calling;
    var r, reply := Ran(w, a), ReplyOf(w, a);
    RanKeepsCalls(w, a);
    MovedKeepsDb(r, a, reply);
    ProviderMoves(w, r, a, reply);
    DatabaseSide(w, a);
    var n := Next(w, a);
    forall c <- n.calls ensures LiveOk(n.calls[c], n.db.orders, n.provider) {
      if CallOf(a) == Some(c) {
        ActorStaysLive(w, a, c);
      } else {
        OthersKeepTheirPlace(w, r, a, reply, c);
        OthersStayLive(w, a, c);
      }
    }
  }

  // ---------- Provider calls ----------

  lemma HandedOverStays(db: Db, db': Db, d: Id)
    requires Evolves(db, db') && HandedOver(db.orders, d)
    ensures HandedOver(db'.orders, d)
  {
    hide RequestsEvolve, CodesEvolve, GatesEvolve, DraftsEvolve;
    var k :| k in db.orders && db.orders[k].draftId == d && db.orders[k].submissionStartedAt.Some?;
    assert OrderStep(db.orders[k], db'.orders[k]);
  }

  lemma AttemptStaysLogged(db: Db, db': Db, k: Id, a: Id)
    requires Evolves(db, db') && AttemptLogged(db.events, k, a)
    ensures AttemptLogged(db'.events, k, a)
  {
    hide OrdersEvolve, RequestsEvolve, CodesEvolve, GatesEvolve, DraftsEvolve;
    var e :| e in db.events && IsAttempt(e, k) && e.details.attemptId == a;
    assert e in db'.events;
  }

  lemma NewCallIsNew(w: World, a: Act)
    requires Enabled(w, a) && SubmittersOk(w.calls, w.db.orders, w.provider)
             && OwnersOk(w.calls, w.provider, w.db.events)
    ensures |Calling(w, a)| <= 1
    ensures forall p <- Calling(w, a) ::
              && p !in w.provider
              && (p.SubmitCall? ==> HandedOver(w.db.orders, p.draftId))
              && (p.CancelCall? ==> AttemptLogged(w.db.events, p.k, p.attemptId))
  {
    hide Served, LatestAttempt, Answerable, AttemptLogged;
    if a.Send? {
      assert LiveOk(w.calls[a.call], w.db.orders, w.provider);
    }
  }

  lemma ProviderStep(w: World, a: Act)
    requires Enabled(w, a) && Safe(w)
    ensures ProviderOk(Next(w, a).provider, Next(w, a).db.orders, Next(w, a).db.events)
  {
    hide Ran, ReplyOf, Moved, PastOk, AuthorityOk, OwnersOk, SubmittersOk, LocksOk, Inv, Evolves, TxOf, AttemptLogged,
         HandedOver, Run, Apply, Served, Answerable;
    var r := Ran(w, a);
    DatabaseSide(w, a);
    RanKeepsCalls(w, a);
    ProviderMoves(w, r, a, ReplyOf(w, a));
    NewCallIsNew(w, a);
    hide Enabled, Calling;
    var n := Next(w, a);
    forall d | SubmitCall(d) in n.provider ensures HandedOver(n.db.orders, d) {
      HandedOverStays(w.db, n.db, d);
    }
    forall k, x | CancelCall(k, x) in n.provider ensures AttemptLogged(n.db.events, k, x) {
      AttemptStaysLogged(w.db, n.db, k, x);
    }
  }

  // ---------- Cancellation owners ----------

  lemma BeginLogsAttempt(db: Db, k: Id, version: int, state: OrderState, attemptId: Id, now: int, actor: Actor,
                         found: Option<nat>)
    requires LatestAttempt(db.events, k, found)
    requires BeginCancellation(db, k, version, state, attemptId, now, actor, found).1
             == CancelReply(Some(attemptId), true)
    ensures !AttemptLogged(db.events, k, attemptId)
    ensures AttemptLogged(BeginCancellation(db, k, version, state, attemptId, now, actor, found).0.events, k, attemptId)
  {
    var rest := BeginCommits(db, k, version, state, attemptId, now, actor, found);
    hide BeginCancellation, LatestAttempt;
    var e := AttemptEvent(db.orders[k], k, attemptId, actor, now);
    assert e in BeginCancellation(db, k, version, state, attemptId, now, actor, found).0.events;
  }

  /** The attempts that calls own and have not yet sent. */
  predicate Owns(pc: Pc, k: Id, a: Id) {
    pc.CancelOwned? && pc.k == k && pc.attemptId == a
  }

  /** A call comes to own an attempt only by beginning a cancellation. */
  lemma NewOwnerBegins(w: World, a: Act, c: nat, k: Id, x: Id)
    requires Enabled(w, a) && CallOf(a) == Some(c) && c in Next(w, a).calls && Owns(Next(w, a).calls[c], k, x)
    ensures a.BeginCancel? && a.k == k && a.attemptId == x && ReplyOf(w, a) == CancelReply(Some(x), true)
  {
    hide Served, Answerable, LatestAttempt, Run, Apply, ReplyOf, TxOf;
  }

  /** A call comes to own an attempt only by logging it. */
  lemma NewOwnerLogs(w: World, a: Act, c: nat, k: Id, x: Id)
    requires Enabled(w, a) && CallOf(a) == Some(c) && c in Next(w, a).calls && Owns(Next(w, a).calls[c], k, x)
    ensures !AttemptLogged(w.db.events, k, x) && AttemptLogged(Ran(w, a).db.events, k, x)
    ensures Calling(w, a) == []
  {
    hide Served, Answerable, AttemptLogged, BeginCancellation, LatestAttempt, Next;
    NewOwnerBegins(w, a, c, k, x);
    BeginLogsAttempt(w.db, k, a.version, a.state, x, a.now, if c in w.calls then Mcp else Dashboard, a.found);
  }

  /** Whoever owns an attempt after a step owned it before, or has just logged it. */
  lemma OwnerAfter(w: World, a: Act, c: nat)
    requires Enabled(w, a) && Safe(w) && c in Next(w, a).calls && Next(w, a).calls[c].CancelOwned?
    ensures var n := Next(w, a);
            var k, x := n.calls[c].k, n.calls[c].attemptId;
            && AttemptLogged(n.db.events, k, x)
            && CancelCall(k, x) !in n.provider
            && (CallOf(a) == Some(c) ==> !AttemptLogged(w.db.events, k, x))
            && (CallOf(a) != Some(c) ==> c in w.calls && w.calls[c] == n.calls[c])
  {
    hide Ran, ReplyOf, Moved, PastOk, AuthorityOk, SubmittersOk, LocksOk, Inv, Evolves, TxOf, AttemptLogged, HandedOver,
         NoRepeats;
    hide Enabled, Run, Apply, Calling;
    var r, n := Ran(w, a), Next(w, a);
    var k, x := n.calls[c].k, n.calls[c].attemptId;
    DatabaseSide(w, a);
    RanKeepsCalls(w, a);
    ProviderMoves(w, r, a, ReplyOf(w, a));
    if CallOf(a) == Some(c) {
      NewOwnerLogs(w, a, c, k, x);
      hide Next;
    } else {
      OthersKeepTheirPlace(w, r, a, ReplyOf(w, a), c);
      hide Next;
      AttemptStaysLogged(w.db, n.db, k, x);
      SentByAnother(w, a, c);
    }
  }

  lemma OwnersStep(w: World, a: Act)
    requires Enabled(w, a) && Safe(w)
    ensures OwnersOk(Next(w, a).calls, Next(w, a).provider, Next(w, a).db.events)
  {
    hide PastOk, AuthorityOk, SubmittersOk, LocksOk, ProviderOk, AttemptLogged, Next, Enabled;
    var n := Next(w, a);
    forall c <- n.calls | n.calls[c].CancelOwned?
      ensures AttemptLogged(n.db.events, n.calls[c].k, n.calls[c].attemptId)
      ensures CancelCall(n.calls[c].k, n.calls[c].attemptId) !in n.provider
      ensures CallOf(a) == Some(c) ==> !AttemptLogged(w.db.events, n.calls[c].k, n.calls[c].attemptId)
      ensures CallOf(a) != Some(c) ==> c in w.calls && w.calls[c] == n.calls[c]
    {
      OwnerAfter(w, a, c);
    }
  }

  lemma SentByAnother(w: World, a: Act, c: nat)
    requires Enabled(w, a) && OwnersOk(w.calls, w.provider, w.db.events) && c in w.calls && CallOf(a) != Some(c)
    requires w.calls[c].CancelOwned?
    ensures CancelCall(w.calls[c].k, w.calls[c].attemptId) !in Calling(w, a)
  {
    hide Served, LatestAttempt, Answerable, AttemptLogged;
  }

  // ---------- Authority ----------

  lemma StillHeld(w: World, w': World, c: nat)
    requires Evolves(w.db, w'.db) && c in w.calls && HeldOk(w.calls[c], w.acted, w.db.codes)
    ensures HeldOk(w.calls[c], w.acted, w'.db.codes)
  {
    hide OrdersEvolve, RequestsEvolve, GatesEvolve, DraftsEvolve;
    if Holds(w.calls[c]).Some? {
      assert CodeStep(w.db.codes[w.calls[c].code], w'.db.codes[w.calls[c].code]);
    }
  }

  lemma StillSpent(db: Db, db': Db, c: Id)
    requires Evolves(db, db') && c in db.codes && db.codes[c].consumedAt.Some?
    ensures c in db'.codes && db'.codes[c].consumedAt.Some?
  {
    hide OrdersEvolve, RequestsEvolve, GatesEvolve, DraftsEvolve;
    assert CodeStep(db.codes[c], db'.codes[c]);
  }

  /** What a step adds to the list of codes acted on. */
  lemma ActedMoves(w: World, r: World, a: Act, reply: Reply)
    requires Enabled(w, a) && r.calls == w.calls && r.acted == w.acted
    ensures Moved(r, a, reply).acted == w.acted || (
              && (a.Begin? || a.BeginCancel?) && a.call in w.calls && Holds(w.calls[a.call]).Some?
              && Moved(r, a, reply).acted == w.acted + [Holds(w.calls[a.call]).value]
              && (a.call in Moved(r, a, reply).calls ==> Holds(Moved(r, a, reply).calls[a.call]).None?))
  {
    hide Served, LatestAttempt, Answerable;
  }

  /** The code a call holds after its own step: the one it held, or one it has just consumed. */
  lemma ActorHolds(w: World, a: Act, c: nat)
    requires Enabled(w, a) && AuthorityOk(w.calls, w.acted, w.db.codes) && CallOf(a) == Some(c) && c in Next(w, a).calls
    requires Holds(Next(w, a).calls[c]).Some?
    requires Evolves(w.db, Ran(w, a).db)
    ensures var pc := Next(w, a).calls[c];
            && HeldOk(pc, w.acted, Ran(w, a).db.codes)
            && Next(w, a).acted == w.acted
            && ((c in w.calls && Holds(w.calls[c]) == Holds(pc))
                || (pc.code in w.db.codes && Usable(w.db.codes[pc.code])))
  {
    hide Served, LatestAttempt, Answerable, OrdersEvolve, RequestsEvolve, GatesEvolve, DraftsEvolve, NoRepeats;
    if a.Grant? || a.GrantCancel? {
      hide AuthorityOk, Enabled, Next, TxOf, Run;
      ConsumerHolds(w, a);
    } else {
      hide Run, Apply, TxOf, ReplyOf;
      KeptCode(w, a, c);
      assert HeldOk(w.calls[c], w.acted, w.db.codes);
      hide AuthorityOk, Enabled, Next, Moved;
      StillHeld(w, Ran(w, a), c);
    }
  }

  /** Marking the request attempted is the only step after which a call still holds its code. */
  lemma KeptCode(w: World, a: Act, c: nat)
    requires Enabled(w, a) && CallOf(a) == Some(c) && c in Next(w, a).calls && !a.Grant? && !a.GrantCancel?
    requires Holds(Next(w, a).calls[c]).Some?
    ensures c in w.calls && Next(w, a).acted == w.acted
    ensures var pc, pc' := w.calls[c], Next(w, a).calls[c];
            pc.CancelGranted? && pc'.CancelSpent? && pc'.code == pc.code && pc'.requestId == pc.requestId
  {
    hide Served, LatestAttempt, Answerable, Run, Apply, TxOf, ReplyOf;
    RanKeepsCalls(w, a);
  }

  lemma ConsumerHolds(w: World, a: Act)
    requires Enabled(w, a) && (a.Grant? || a.GrantCancel?) && AuthorityOk(w.calls, w.acted, w.db.codes)
    ensures var n := Next(w, a);
            && a.call in n.calls && Holds(n.calls[a.call]) == Some(a.code)
            && HeldOk(n.calls[a.call], w.acted, Ran(w, a).db.codes) && n.acted == w.acted
            && Usable(w.db.codes[a.code])
  {
    hide HeldOk;
    ActedCodesAreSpent(w.calls, w.acted, w.db.codes);
    assert a.code !in w.acted;
    ConsumedCode(w.db, a.code, a.now);
    hide AuthorityOk, ConsumeCode;
    var pc := Next(w, a).calls[a.call];
    HeldFrom(pc, w.acted, Ran(w, a).db.codes);
  }

  lemma HeldFrom(pc: Pc, acted: seq<Id>, codes: map<Id, Code>)
    requires Holds(pc).Some? && pc.code in codes && codes[pc.code].consumedAt.Some? && pc.code !in acted
    requires pc.Granted? ==> codes[pc.code].action == SubmitAction && codes[pc.code].draftId == Some(pc.draftId)
    requires !pc.Granted? ==> codes[pc.code].action == CancelAction && codes[pc.code].requestId == Some(pc.requestId)
    ensures HeldOk(pc, acted, codes)
  {
  }

  lemma ConsumedCode(db: Db, c: Id, now: int)
    requires c in db.codes && Usable(db.codes[c])
    ensures ConsumeCode(db, c, now).0.codes == db.codes[c := db.codes[c].(consumedAt := Some(now))]
  {
  }

  /** The code a call holds is still its own to use after anyone's step. */
  lemma HeldAfter(w: World, a: Act, c: nat)
    requires Enabled(w, a) && Safe(w) && c in Next(w, a).calls
    ensures HeldOk(Next(w, a).calls[c], Next(w, a).acted, Next(w, a).db.codes)
    ensures CallOf(a) != Some(c) ==> c in w.calls && w.calls[c] == Next(w, a).calls[c]
    ensures CallOf(a) == Some(c) && Holds(Next(w, a).calls[c]).Some? ==>
              var pc := Next(w, a).calls[c];
              (c in w.calls && Holds(w.calls[c]) == Holds(pc)) || (pc.code in w.db.codes && Usable(w.db.codes[pc.code]))
  {
    hide Next, Ran, Enabled, Evolves, Moved, Run, Apply, TxOf;
    if CallOf(a) == Some(c) {
      if Holds(Next(w, a).calls[c]).Some? {
        DatabaseSide(w, a);
        hide Safe, HeldOk;
        ActorHolds(w, a, c);
      }
    } else {
      OtherHeldAfter(w, a, c);
    }
  }

  lemma OtherHeldAfter(w: World, a: Act, c: nat)
    requires Enabled(w, a) && Safe(w) && c in Next(w, a).calls && CallOf(a) != Some(c)
    ensures c in w.calls && w.calls[c] == Next(w, a).calls[c]
    ensures HeldOk(w.calls[c], Next(w, a).acted, Next(w, a).db.codes)
  {
    hide Ran, ReplyOf, PastOk, OwnersOk, ProviderOk, SubmittersOk, LocksOk, Inv, Evolves, TxOf, Enabled, NoRepeats,
         Moved, Run, Apply;
    var r, reply := Ran(w, a), ReplyOf(w, a);
    DatabaseSide(w, a);
    RanKeepsCalls(w, a);
    OthersKeepTheirPlace(w, r, a, reply, c);
    ActedMoves(w, r, a, reply);
    var n := Next(w, a);
    hide Next;
    assert HeldOk(w.calls[c], w.acted, w.db.codes);
    StillHeld(w, n, c);
  }

  lemma AppendNew<T>(s: seq<T>, x: T)
    requires NoRepeats(s) && x !in s
    ensures NoRepeats(s + [x])
  {
  }

  lemma HeldCodeIsUnused(calls: map<nat, Pc>, acted: seq<Id>, codes: map<Id, Code>, c: nat)
    requires AuthorityOk(calls, acted, codes) && c in calls && Holds(calls[c]).Some?
    ensures Holds(calls[c]).value !in acted && Holds(calls[c]).value in codes
            && codes[Holds(calls[c]).value].consumedAt.Some?
  {
    assert HeldOk(calls[c], acted, codes);
  }

  lemma ActedCodesAreSpent(calls: map<nat, Pc>, acted: seq<Id>, codes: map<Id, Code>)
    requires AuthorityOk(calls, acted, codes)
    ensures NoRepeats(acted) && forall code <- acted :: code in codes && codes[code].consumedAt.Some?
  {
  }

  lemma ActedAfter(w: World, a: Act)
    requires Enabled(w, a) && Safe(w)
    ensures NoRepeats(Next(w, a).acted)
    ensures forall code <- Next(w, a).acted :: code in Next(w, a).db.codes && Next(w, a).db.codes[code].consumedAt.Some?
  {
    hide HeldOk, Ran, ReplyOf, PastOk, OwnersOk, ProviderOk, SubmittersOk, LocksOk, Inv, Evolves, TxOf, Enabled, Moved,
         NoRepeats, Run, Apply;
    var r, reply := Ran(w, a), ReplyOf(w, a);
    DatabaseSide(w, a);
    RanKeepsCalls(w, a);
    ActedMoves(w, r, a, reply);
    var n := Next(w, a);
    ActedCodesAreSpent(w.calls, w.acted, w.db.codes);
    hide AuthorityOk, Next;
    if n.acted != w.acted {
      HeldCodeIsUnused(w.calls, w.acted, w.db.codes, a.call);
      AppendNew(w.acted, Holds(w.calls[a.call]).value);
    }
    forall code <- n.acted ensures code in n.db.codes && n.db.codes[code].consumedAt.Some? {
      StillSpent(w.db, n.db, code);
    }
  }

  lemma AuthorityStep(w: World, a: Act)
    requires Enabled(w, a) && Safe(w)
    ensures AuthorityOk(Next(w, a).calls, Next(w, a).acted, Next(w, a).db.codes)
  {
    hide Next, PastOk, OwnersOk, ProviderOk, SubmittersOk, LocksOk, Enabled, NoRepeats;
    var n := Next(w, a);
    ActedAfter(w, a);
    forall c <- n.calls
      ensures HeldOk(n.calls[c], n.acted, n.db.codes)
      ensures CallOf(a) != Some(c) ==> c in w.calls && w.calls[c] == n.calls[c]
      ensures CallOf(a) == Some(c) && Holds(n.calls[c]).Some? ==>
                (c in w.calls && Holds(w.calls[c]) == Holds(n.calls[c]))
                  || (n.calls[c].code in w.db.codes && Usable(w.db.codes[n.calls[c].code]))
    {
      HeldAfter(w, a, c);
    }
    forall c <- w.calls ensures HeldOk(w.calls[c], w.acted, w.db.codes) {
    }
  }

  // ---------- Every execution ----------

  lemma StepIsSafe(w: World, a: Act)
    requires Enabled(w, a) && Safe(w)
    ensures Safe(Next(w, a))
  {
    hide PastOk, LocksOk, SubmittersOk, ProviderOk, OwnersOk, AuthorityOk, Inv, Evolves;
    hide Enabled, Ran, ReplyOf, Moved, TxOf, Run, Apply;
    DatabaseSide(w, a);
    RanKeepsCalls(w, a);
    SubmittersStep(w, a);
    ProviderStep(w, a);
    OwnersStep(w, a);
    AuthorityStep(w, a);
    if a.AcquireRecovery? {
      RecoveryLockRunsNothing(w, a);
    }
    LocksStep(w, Ran(w, a), a, ReplyOf(w, a));
  }

  lemma RecoveryLockRunsNothing(w: World, a: Act)
    requires Enabled(w, a) && a.AcquireRecovery?
    ensures Ran(w, a).db == w.db
  {
  }

  lemma {:induction false} ExecutionIsSafe(ws: seq<World>, acts: seq<Act>, i: nat)
    requires IsExecution(ws, acts) && i < |ws|
    ensures Safe(ws[i])
    decreases i
  {
    hide Safe, Enabled, Next;
    if i == 0 {
      StartIsSafe();
    } else {
      ExecutionIsSafe(ws, acts, i - 1);
      StepIsSafe(ws[i - 1], acts[i - 1]);
    }
  }
}
