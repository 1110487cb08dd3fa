/** The append-only audit log and what replaying it yields. */
module Journal {
  import opened Common
  import opened Orders

  datatype Actor = Dashboard | Mcp | System

  datatype Action = SubmitAction | CancelAction

  datatype EventKind =
    | DraftCreated | DraftExpired
    | AuthorizationCreated | AuthorizationConsumed | AuthorizationFailed
    | SubmissionStarted | SubmissionResult | StatusTransition
    | ReconciliationAttempted | ReconciliationResult
    | CancellationRequested | CancellationResult
    | CancellationRequestCreated | CancellationRequestInvalidated

  /** Why a request or an authorization code was withdrawn. */
  datatype Reason =
    | Superseded | StateChanged | NotCancelable | CancellationStarted
    | OrderBecame(state: OrderState) | PastExpiry | MaxAttempts

  datatype FailureReason = NoActiveAuthorization | AuthorizationExpired | VerificationFailed | AuthorizationUnavailable

  datatype Outcome =
    | Matched | NotFound | Ambiguous | Incomplete | Mismatch | Stale | ProviderError
    | OutcomeCanceled | OutcomeUnknown | Refused

  datatype Details =
    | NoDetails
    | Expiry(expiresAt: int)
    | Authorization(authorizationId: Id, action: Action)
    | Failure(attemptId: Id, action: Action, failure: Option<FailureReason>)
    | Status(source: StatusSource, fill: Option<Fill>)
    | Attempt(attemptId: Id)
    | Reconciled(attemptId: Id, outcome: Outcome, source: StatusSource, fill: Option<Fill>,
                 providerUpdatedAt: Option<int>, statusLabel: Option<string>)
    | CancelOutcome(attemptId: Id, outcome: Outcome)
    | RequestCreated(requestId: Id, expiresAt: int)
    | RequestInvalidated(requestId: Id, reason: Reason)

  datatype Event = Event(
    orderId: Option<Id>, draftId: Option<Id>, kind: EventKind, actor: Actor,
    previous: Option<OrderState>, next: Option<OrderState>, code: Option<string>,
    details: Details, occurredAt: int)

  // ---------- Replay ----------

  /** What the log says about one order: the fields every status write changes. `intact` holds while
      each event's previous state is the state the earlier events left. */
  datatype Ledger = Ledger(state: Option<OrderState>, version: int, fill: Option<Fill>, updatedAt: int, intact: bool)

  const BLANK := Ledger(None, 0, None, 0, true)

  predicate ChainsState(e: Event) {
    e.kind == SubmissionStarted || e.kind == SubmissionResult || e.kind == StatusTransition
  }

  predicate RecordsStatus(e: Event) {
    ChainsState(e) || e.kind == ReconciliationResult
  }

  /** A transition event that only repeats the reconciliation result before it. */
  predicate EchoesReconciliation(e: Event) {
    e.kind == StatusTransition && e.code.Some? && e.previous != Some(Submitting)
  }

  function CarriedFill(e: Event): Option<Fill> {
    match e.details
    case Status(_, fill) => fill
    case Reconciled(_, _, _, fill, _, _) => fill
    case _ => None
  }

  function Advance(l: Ledger, e: Event, k: Id): Ledger {
    if e.orderId != Some(k) || !RecordsStatus(e) then l
    else Ledger(
           if ChainsState(e) then e.next else l.state,
           if EchoesReconciliation(e) then l.version else l.version + 1,
           if CarriedFill(e).Some? then CarriedFill(e) else l.fill,
           e.occurredAt,
           l.intact && e.previous == l.state)
  }

  function Fold(l: Ledger, events: seq<Event>, k: Id): Ledger
    decreases |events|
  {
    if events == [] then l else Fold(Advance(l, events[0], k), events[1..], k)
  }

  function Replay(events: seq<Event>, k: Id): Ledger {
    Fold(BLANK, events, k)
  }

  lemma {:induction false} FoldConcat(l: Ledger, a: seq<Event>, b: seq<Event>, k: Id)
    ensures Fold(l, a + b, k) == Fold(Fold(l, a, k), b, k)
    decreases |a|
  {
    if a == [] {
      assert a + b == b;
    } else {
      assert (a + b)[0] == a[0] && (a + b)[1..] == a[1..] + b;
      FoldConcat(Advance(l, a[0], k), a[1..], b, k);
    }
  }

  /** Events that replaying order k passes over. */
  ghost predicate Quiet(events: seq<Event>, k: Id) {
    forall e <- events :: e.orderId != Some(k) || !RecordsStatus(e)
  }

  lemma {:induction false} FoldQuiet(l: Ledger, events: seq<Event>, k: Id)
    requires Quiet(events, k)
    ensures Fold(l, events, k) == l
    decreases |events|
  {
    if events != [] {
      FoldQuiet(l, events[1..], k);
    }
  }

  lemma ReplayQuiet(events: seq<Event>, more: seq<Event>, k: Id)
    requires Quiet(more, k)
    ensures Replay(events + more, k) == Replay(events, k)
  {
    FoldConcat(BLANK, events, more, k);
    FoldQuiet(Replay(events, k), more, k);
  }

  /** The events of one committed write: quiet ones, then the status events. */
  lemma ReplayWrite(events: seq<Event>, quiet: seq<Event>, status: seq<Event>, k: Id)
    requires Quiet(quiet, k)
    ensures Replay(events + quiet + status, k) == Fold(Replay(events, k), status, k)
  {
    FoldConcat(BLANK, events + quiet, status, k);
    ReplayQuiet(events, quiet, k);
  }

  // ---------- Cancellation attempts ----------

  predicate IsAttempt(e: Event, k: Id) {
    e.kind == CancellationRequested && e.orderId == Some(k) && e.details.Attempt?
  }

  /** A possible answer of "the cancellation attempt of k with the largest time, first row only":
      rows with equal times may come back in any order. */
  ghost predicate LatestAttempt(events: seq<Event>, k: Id, found: Option<nat>) {
    match found
    case None => forall e <- events :: !IsAttempt(e, k)
    case Some(i) =>
      && i < |events|
      && IsAttempt(events[i], k)
      && forall e <- events :: IsAttempt(e, k) ==> e.occurredAt <= events[i].occurredAt
  }
}
