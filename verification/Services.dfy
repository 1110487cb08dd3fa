/** The services as interleaved calls with program counters: each step is one transaction, one provider
    call, one lock operation, or a crash. Between any two steps of a call, every other call may run. */
module Services {
  import opened Common
  import opened Orders
  import opened Journal
  import opened Database
  import opened Invariants
  import opened Runs

  // ---------- Calls ----------

  /** Where a call in progress stands. */
  datatype Pc =
    | Holding(draftId: Id, actor: Actor)              // holds the draft's lock
    | Granted(draftId: Id, code: Id)                  // and has consumed a submit code
    | Begun(draftId: Id, k: Id)                       // its order exists
    | Marked(draftId: Id, k: Id)                      // the order is marked as handed over
    | Sent(draftId: Id, k: Id)                        // the provider was called
    | Recovering(draftId: Id, k: Id)                  // recovery holds the lock
    | CancelGranted(requestId: Id, code: Id)          // has consumed a cancel code
    | CancelSpent(requestId: Id, code: Id)            // and marked its request attempted
    | CancelOwned(k: Id, attemptId: Id, actor: Actor) // moved the order to CancelPending
    | CancelSent(k: Id, attemptId: Id, actor: Actor)  // the provider was called

  /** The draft whose lock a call holds. */
  function LockOf(pc: Pc): Option<Id> {
    match pc
    case Holding(d, _) => Some(d)
    case Granted(d, _) => Some(d)
    case Begun(d, _) => Some(d)
    case Marked(d, _) => Some(d)
    case Sent(d, _) => Some(d)
    case Recovering(d, _) => Some(d)
    case _ => None
  }

  /** The order a live submitter is responsible for. */
  function Submits(pc: Pc): Option<Id> {
    if pc.Begun? || pc.Marked? || pc.Sent? then Some(pc.k) else None
  }

  /** The consumed code a call has not acted on yet. */
  function Holds(pc: Pc): Option<Id> {
    if pc.Granted? || pc.CancelGranted? || pc.CancelSpent? then Some(pc.code) else None
  }

  datatype ProviderCall = SubmitCall(draftId: Id) | CancelCall(k: Id, attemptId: Id)

  /** `past` lists every database so far, `db` last; `provider` lists every provider call; `acted` lists
      the codes on whose authority an order was begun or a cancellation started. */
  datatype World = World(db: Db, past: seq<Db>, locks: map<Id, nat>, calls: map<nat, Pc>,
                         provider: seq<ProviderCall>, acted: seq<Id>)

  const START := World(EMPTY, [EMPTY], map[], map[], [], [])

  datatype Act =
    | Acquire(call: nat, draftId: Id, actor: Actor)
    | Grant(call: nat, code: Id, now: int)
    | Begin(call: nat, k: Id, clientOrderId: string, authorizationId: Id, now: int)
    | Refuse(call: nat, code: string, now: int)
    | Mark(call: nat, now: int)
    | Send(call: nat)
    | Persist(call: nat, result: Submitted, now: int)
    | GiveUp(call: nat)
    | AcquireRecovery(call: nat, k: Id)
    | Recover(call: nat, now: int)
    | GrantCancel(call: nat, requestId: Id, code: Id, now: int)
    | SpendRequest(call: nat)
    | BeginCancel(call: nat, k: Id, version: int, state: OrderState, attemptId: Id, now: int, found: Option<nat>)
    | SendCancel(call: nat)
    | FinishCancel(call: nat, seen: CancellationObservation, now: int, found: Option<nat>)
    | Crash(dead: set<nat>)
    | Other(tx: Tx)

  /** Transactions that are not steps of a submission, a recovery, a cancellation or a code use. */
  predicate IsOther(tx: Tx) {
    || tx.TxSaveDraft? || tx.TxRecordDraftExpiry? || tx.TxCreateRequest? || tx.TxInvalidateAll?
    || tx.TxAuthorizeRequest? || tx.TxReadRequest? || tx.TxExpireRequest? || tx.TxClaim?
    || tx.TxClaimPlanned? || tx.TxFinishReconciliation? || tx.TxCreateSubmitCode? || tx.TxRecordFailure?
  }

  /** An authorized cancellation passes on what its request recorded. */
  predicate ReviewedAs(db: Db, requestId: Id, k: Id, version: int, state: OrderState) {
    && requestId in db.requests
    && db.requests[requestId].orderId == k
    && db.requests[requestId].expectedVersion == version
    && db.requests[requestId].expectedState == state
  }

  /** Where in its code a call must be, and what it must have seen, to take a step. */
  ghost predicate Enabled(w: World, a: Act) {
    match a
    case Acquire(call, d, _) => call !in w.calls && d !in w.locks
    case Grant(call, code, now) =>
      && call in w.calls && w.calls[call].Holding? && w.calls[call].actor == Mcp
      && code in w.db.codes && Usable(w.db.codes[code])
      && w.db.codes[code].action == SubmitAction && w.db.codes[code].draftId == Some(w.calls[call].draftId)
      && now <= w.db.codes[code].expiresAt
    case Begin(call, _, _, _, _) =>
      call in w.calls && (w.calls[call].Granted? || (w.calls[call].Holding? && w.calls[call].actor == Dashboard))
    case Refuse(call, _, _) => call in w.calls && w.calls[call].Begun?
    case Mark(call, _) => call in w.calls && w.calls[call].Begun?
    case Send(call) => call in w.calls && w.calls[call].Marked?
    case Persist(call, r, _) =>
      call in w.calls && w.calls[call].Sent? && (r.brokerOrderId.Some? ==> Stripped(r.brokerOrderId.value))
    case GiveUp(call) =>
      call in w.calls && (w.calls[call].Holding? || w.calls[call].Granted? || w.calls[call].CancelGranted?
                          || w.calls[call].CancelSpent?)
    case AcquireRecovery(call, k) => call !in w.calls && k in w.db.orders && w.db.orders[k].draftId !in w.locks
    case Recover(call, _) => call in w.calls && w.calls[call].Recovering?
    case GrantCancel(call, requestId, code, now) =>
      && call !in w.calls && code in w.db.codes && Usable(w.db.codes[code])
      && w.db.codes[code].action == CancelAction && w.db.codes[code].requestId == Some(requestId)
      && now <= w.db.codes[code].expiresAt
    case SpendRequest(call) => call in w.calls && w.calls[call].CancelGranted?
    case BeginCancel(call, k, version, state, _, _, found) =>
      && LatestAttempt(w.db.events, k, found)
      && (call !in w.calls || (w.calls[call].CancelSpent?
                               && ReviewedAs(w.db, w.calls[call].requestId, k, version, state)))
    case SendCancel(call) => call in w.calls && w.calls[call].CancelOwned?
    case FinishCancel(call, _, _, found) =>
      call in w.calls && w.calls[call].CancelSent? && LatestAttempt(w.db.events, w.calls[call].k, found)
    case Crash(_) => true
    case Other(tx) => IsOther(tx) && Answerable(w.db, tx) && w.past != [] && Served(w.past, tx)
  }

  /** Only a consumed code makes a submission an MCP submission. */
  function SubmitActor(pc: Pc): Actor {
    if pc.Granted? then Mcp else Dashboard
  }

  /** The transaction a step runs, if any. */
  ghost function TxOf(w: World, a: Act): (tx: Option<Tx>)
    requires Enabled(w, a)
    ensures tx.Some? ==> Answerable(w.db, tx.value)
  {
    hide Served, LatestAttempt;
    match a
    case Grant(_, code, now) => Some(TxConsumeCode(code, now))
    case Begin(call, k, client, authorization, now) =>
      Some(TxBeginSubmission(w.calls[call].draftId, k, client, authorization, now, SubmitActor(w.calls[call])))
    case Refuse(call, code, now) =>
      Some(TxFinishSubmission(w.calls[call].k, 1, Submitted(Rejected, None, Some(code), None, FromLocal), now,
                              Dashboard))
    case Mark(call, now) => Some(TxMarkStarted(w.calls[call].k, 1, now))
    case Persist(call, r, now) => Some(TxFinishSubmission(w.calls[call].k, 1, r, now, Dashboard))
    case Recover(call, now) => Some(TxRecoverOne(w.calls[call].k, now))
    case GrantCancel(_, _, code, now) => Some(TxConsumeCode(code, now))
    case SpendRequest(call) => Some(TxMarkAttempted(w.calls[call].requestId))
    case BeginCancel(call, k, version, state, attemptId, now, found) =>
      Some(TxBeginCancellation(k, version, state, attemptId, now, if call in w.calls then Mcp else Dashboard, found))
    case FinishCancel(call, seen, now, found) =>
      Some(TxFinishCancellation(w.calls[call].k, w.calls[call].attemptId, seen, now, w.calls[call].actor, found))
    case Other(tx) => Some(tx)
    case _ => None
  }

  ghost function ReplyOf(w: World, a: Act): Reply
    requires Enabled(w, a)
  {
    if TxOf(w, a).Some? then Run(w.db, TxOf(w, a).value).1 else Done
  }

  /** The database side of a step. */
  ghost function Ran(w: World, a: Act): World
    requires Enabled(w, a)
  {
    if TxOf(w, a).None? then w
    else
      var db' := Apply(w.db, TxOf(w, a).value);
      w.(db := db', past := w.past + [db'])
  }

  function At(w: World, call: nat, pc: Pc): World {
    w.(calls := w.calls[call := pc])
  }

  function Ended(w: World, call: nat): World {
    w.(locks := if call in w.calls
       && LockOf(w.calls[call]).Some? then w.locks - {LockOf(w.calls[call]).value} else w.locks,
       calls := w.calls - {call})
  }

  /** The operating system releases the locks of a dead process; a call that raises ends in the same way. */
  function Crashed(w: World, dead: set<nat>): World {
    w.(locks := map d | d in w.locks && w.locks[d] !in dead :: w.locks[d], calls := w.calls - dead)
  }

  /** The call's side of a step, after its transaction replied. */
  ghost function Moved(w: World, a: Act, reply: Reply): World {
    match a
    case Acquire(call, d, actor) => At(w, call, Holding(d, actor)).(locks := w.locks[d := call])
    case Grant(call, code, _) =>
      if call in w.calls && w.calls[call].Holding? then At(w, call, Granted(w.calls[call].draftId, code)) else w
    case Begin(call, k, _, _, _) =>
      if call in w.calls && LockOf(w.calls[call]).Some? && reply == Ordered(k, true) then
        At(w, call, Begun(LockOf(w.calls[call]).value, k)).(acted := w.acted + HeldCode(w.calls[call]))
      else Ended(w, call)
    case Refuse(call, _, _) => Ended(w, call)
    case Mark(call, _) =>
      if call in w.calls && w.calls[call].Begun? && reply == Done
        then At(w, call, Marked(w.calls[call].draftId, w.calls[call].k))
      else Ended(w, call)
    case Send(call) =>
      if call in w.calls && w.calls[call].Marked? then
        At(w, call, Sent(w.calls[call].draftId, w.calls[call].k)).(provider := w.provider
                                                                   + [SubmitCall(w.calls[call].draftId)])
      else w
    case Persist(call, _, _) =>
      // An unacceptable result makes the caller go on to record UNKNOWN.
      if reply == Failed(InvalidValue) || reply == Failed(IllegalTransition) then w else Ended(w, call)
    case GiveUp(call) => Ended(w, call)
    case AcquireRecovery(call, k) =>
      if k in w.db.orders
      then At(w, call, Recovering(w.db.orders[k].draftId, k)).(locks := w.locks[w.db.orders[k].draftId := call]) else w
    case Recover(call, _) => Ended(w, call)
    case GrantCancel(call, requestId, code, _) => At(w, call, CancelGranted(requestId, code))
    case SpendRequest(call) =>
      if call in w.calls && w.calls[call].CancelGranted?
      then At(w, call, CancelSpent(w.calls[call].requestId, w.calls[call].code)) else w
    case BeginCancel(call, k, _, _, attemptId, _, _) =>
      if reply == CancelReply(Some(attemptId), true)
      then At(w, call, CancelOwned(k, attemptId, if call in w.calls then Mcp else Dashboard)).(
             acted := if call in w.calls then w.acted + HeldCode(w.calls[call]) else w.acted)
      else Ended(w, call)
    case SendCancel(call) =>
      if call in w.calls && w.calls[call].CancelOwned? then
        var pc := w.calls[call];
        At(w, call, CancelSent(pc.k, pc.attemptId, pc.actor)).(provider := w.provider
                                                               + [CancelCall(pc.k, pc.attemptId)])
      else w
    case FinishCancel(call, _, _, _) => Ended(w, call)
    case Crash(dead) => Crashed(w, dead)
    case Other(_) => w
  }

  function HeldCode(pc: Pc): seq<Id> {
    if Holds(pc).Some? then [Holds(pc).value] else []
  }

  ghost function Next(w: World, a: Act): World
    requires Enabled(w, a)
  {
    Moved(Ran(w, a), a, ReplyOf(w, a))
  }

  /** A run of the whole system. */
  ghost predicate IsExecution(ws: seq<World>, acts: seq<Act>) {
    && |ws| == |acts| + 1
    && ws[0] == START
    && forall i :: 0 <= i < |acts| ==> Enabled(ws[i], acts[i]) && ws[i + 1] == Next(ws[i], acts[i])
  }
}
