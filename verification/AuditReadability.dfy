/** No writer ever stores an event that a reader would report as corrupted. */
module AuditReadability {
  import opened Common
  import opened Orders
  import opened Journal
  import opened Database
  import opened Invariants
  import opened Preservation
  import opened WriteSets
  import opened Runs
  import opened Uuids
  import opened EventCodec

  // ---------- What the writers hand to the encoder ----------

  function ActionText(a: Action): string {
    if a == SubmitAction then "submit" else "cancel"
  }

  function SourceText(s: StatusSource): string {
    match s
    case FromProvider => "provider"
    case FromLocal => "local"
    case FromSystem => "system"
  }

  function StateText(s: OrderState): string {
    match s
    case Submitting => "submitting"
    case Accepted => "accepted"
    case PartiallyFilled => "partially_filled"
    case Filled => "filled"
    case Rejected => "rejected"
    case CancelPending => "cancel_pending"
    case Canceled => "canceled"
    case Expired => "expired"
    case Unknown => "unknown"
  }

  function ReasonText(r: Reason): string {
    match r
    case Superseded => "superseded"
    case StateChanged => "order_state_changed"
    case NotCancelable => "order_not_cancelable"
    case CancellationStarted => "cancellation_started"
    case OrderBecame(s) => "order_" + StateText(s)
    case PastExpiry => "expired"
    case MaxAttempts => "max_attempts_exceeded"
  }

  function FailureText(f: FailureReason): string {
    match f
    case NoActiveAuthorization => "no_active_authorization"
    case AuthorizationExpired => "authorization_expired"
    case VerificationFailed => "verification_failed"
    case AuthorizationUnavailable => "authorization_unavailable"
  }

  function FillFields(fill: Option<Fill>): map<string, Value> {
    if fill.None? then map[]
    else map["filled_quantity" := Text(fill.value.quantity.text)]
         + if fill.value.averagePrice.None? then map[]
           else map["average_fill_price" := Text(fill.value.averagePrice.value.text)]
  }

  /** The fields of an event; `show` prints a time. */
  function Fields(d: Details, show: int -> string): map<string, Value> {
    match d
    case NoDetails => map[]
    case Expiry(at) => map["expires_at" := Text(show(at))]
    case Authorization(id, action) => map["authorization_id" := Text(id), "action" := Text(ActionText(action))]
    case Failure(id, action, failure) =>
      map["attempt_id" := Text(id), "action" := Text(ActionText(action))]
      + if failure.None? then map[] else map["reason" := Text(FailureText(failure.value))]
    case Status(source, fill) => map["status_source" := Member(SourceText(source))] + FillFields(fill)
    case Attempt(id) => map["attempt_id" := Text(id)]
    case Reconciled(id, outcome, source, fill, at, reported) =>
      map["attempt_id" := Text(id), "outcome" := Text(OutcomeText(outcome)),
          "status_source" := Member(SourceText(source))]
      + FillFields(fill)
      + (if at.None? then map[] else map["provider_updated_at" := Text(show(at.value))])
      + (if reported.None? then map[] else map["provider_status_label" := Text(reported.value)])
    case CancelOutcome(id, outcome) => map["attempt_id" := Text(id), "outcome" := Text(OutcomeText(outcome))]
    case RequestCreated(id, at) => map["request_id" := Text(id), "expires_at" := Text(show(at))]
    case RequestInvalidated(id, reason) => map["request_id" := Text(id), "reason" := Text(ReasonText(reason))]
  }

  // ---------- Sound events ----------

  predicate UuidText(id: Id) {
    ParseUuid(id).Some?
  }

  predicate Printable(fill: Option<Fill>) {
    fill.Some? ==> PrintableFill(fill.value)
  }

  /** The kind goes with the details. */
  predicate Goes(kind: EventKind, d: Details) {
    match kind
    case DraftCreated | SubmissionStarted => d.NoDetails?
    case DraftExpired => d.Expiry?
    case AuthorizationCreated | AuthorizationConsumed => d.Authorization?
    case AuthorizationFailed => d.Failure?
    case SubmissionResult | StatusTransition => d.Status?
    case ReconciliationAttempted | CancellationRequested => d.Attempt?
    case ReconciliationResult => d.Reconciled?
    case CancellationResult => d.CancelOutcome?
    case CancellationRequestCreated => d.RequestCreated?
    case CancellationRequestInvalidated => d.RequestInvalidated?
  }

  predicate SoundDetails(d: Details) {
    match d
    case NoDetails | Expiry(_) => true
    case Authorization(id, _) => UuidText(id)
    case Failure(id, _, _) => UuidText(id)
    case Status(_, fill) => Printable(fill)
    case Attempt(id) => UuidText(id)
    case Reconciled(id, _, _, fill, _, reported) =>
      UuidText(id) && Printable(fill) && (reported.Some? ==> reported.value in STATUS_LABELS)
    case CancelOutcome(id, _) => UuidText(id)
    case RequestCreated(id, _) => UuidText(id)
    case RequestInvalidated(id, reason) => UuidText(id) && reason != MaxAttempts
  }

  predicate Sound(e: Event) {
    Goes(e.kind, e.details) && SoundDetails(e.details) && (e.code.Some? ==> e.code.value in KNOWN_CODES)
  }

  /** Times print short, in plain characters, and read back with their zone. */
  ghost predicate PrintsTimes(show: int -> string, times: iset<string>) {
    forall t: int :: show(t) in times && |show(t)| <= 40 && Plain(show(t))
  }

  lemma DecimalCharacters(c: char)
    requires c in "0123456789.+-E"
    ensures EscapedSize(c) == 1
  {
  }

  lemma DecimalsArePlain(s: DecimalText)
    ensures Plain(s)
  {
    hide EscapedSize;
    forall c <- s ensures EscapedSize(c) == 1 {
      DecimalCharacters(c);
    }
  }

  lemma UuidsArePlain(n: nat)
    requires n < Pow16(32)
    ensures Plain(PrintUuid(n)) && |PrintUuid(n)| <= 128
  {
    var h := PrintHex(n, 32);
    assert forall c <- h :: DigitValue(c).Some?;
    hide PrintHex;
    assert forall c <- PrintUuid(n) :: c == '-' || DigitValue(c).Some?;
  }

  /** One field a writer supplies is accepted, and stored as a plain short text. */
  predicate Stores(key: string, v: Value, times: iset<string>) {
    var text := Normalize(key, v, times);
    text.Some? && Plain(text.value) && |text.value| <= 128
  }

  lemma IdsStore(key: string, id: Id, times: iset<string>)
    requires key in {"authorization_id", "attempt_id", "request_id"} && UuidText(id)
    ensures Stores(key, Text(id), times)
  {
    UuidsArePlain(ParseUuid(id).value);
    hide ParseUuid, PrintUuid, Plain;
  }

  lemma TimesStore(at: int, show: int -> string, times: iset<string>)
    requires PrintsTimes(show, times)
    ensures Stores("expires_at", Text(show(at)), times) && Stores("provider_updated_at", Text(show(at)), times)
  {
    hide Plain;
  }

  lemma PlainTextsStore(text: string, times: iset<string>)
    requires Plain(text) && |text| <= MAX_PRINTED
    ensures Stores("filled_quantity", Text(text), times) && Stores("average_fill_price", Text(text), times)
  {
    hide Plain;
  }

  lemma AmountsStore(a: Amount, times: iset<string>)
    requires |a.text| <= MAX_PRINTED
    ensures Stores("filled_quantity", Text(a.text), times) && Stores("average_fill_price", Text(a.text), times)
  {
    hide Plain, Stores;
    DecimalsArePlain(a.text);
    PlainTextsStore(a.text, times);
  }

  // ---------- Words are plain ----------

  lemma PlainJoin(a: string, b: string)
    requires Plain(a) && Plain(b)
    ensures Plain(a + b)
  {
  }

  lemma ActionsArePlain(a: Action)
    ensures Plain(ActionText(a)) && |ActionText(a)| <= 128
  {
  }

  lemma SourcesArePlain(s: StatusSource)
    ensures Plain(SourceText(s)) && |SourceText(s)| <= 128
  {
  }

  lemma SearchOutcomesArePlain(o: Outcome)
    requires o.Matched? || o.NotFound? || o.Ambiguous? || o.Incomplete? || o.Mismatch?
    ensures Plain(OutcomeText(o)) && |OutcomeText(o)| <= 128
  {
  }

  lemma OutcomesArePlain(o: Outcome)
    ensures Plain(OutcomeText(o)) && |OutcomeText(o)| <= 128
  {
    if o.Matched? || o.NotFound? || o.Ambiguous? || o.Incomplete? || o.Mismatch? {
      hide OutcomeText, Plain;
      SearchOutcomesArePlain(o);
    }
  }

  lemma FailuresArePlain(f: FailureReason)
    ensures Plain(FailureText(f)) && |FailureText(f)| <= 128
  {
  }

  lemma OpenStatesArePlain(s: OrderState)
    requires !Terminal(s)
    ensures Plain(StateText(s)) && |StateText(s)| <= 100
  {
  }

  lemma StatesArePlain(s: OrderState)
    ensures Plain(StateText(s)) && |StateText(s)| <= 100
  {
    if !Terminal(s) {
      hide StateText, Plain;
      OpenStatesArePlain(s);
    }
  }

  lemma OwnReasonsArePlain(r: Reason)
    requires r.Superseded? || r.StateChanged? || r.NotCancelable?
    ensures Plain(ReasonText(r)) && |ReasonText(r)| <= 128
  {
  }

  lemma ReasonsArePlain(r: Reason)
    ensures Plain(ReasonText(r)) && |ReasonText(r)| <= 128
  {
    if r.Superseded? || r.StateChanged? || r.NotCancelable? {
      hide ReasonText, Plain;
      OwnReasonsArePlain(r);
    } else if r.OrderBecame? {
      StatesArePlain(r.state);
      hide StateText;
      PlainJoin("order_", StateText(r.state));
    }
  }

  lemma LabelsArePlain(text: string)
    requires text in STATUS_LABELS
    ensures Plain(text) && |text| <= 128
  {
  }

  // ---------- Words are accepted ----------

  /** What may be stored under the keys that take one of a fixed set of words. */
  function WordsOf(key: string): set<string>
    requires key in {"reason", "action", "status_source", "outcome", "provider_status_label"}
  {
    if key == "reason" then REASONS
    else if key == "action" then ACTIONS
    else if key == "status_source" then SOURCES
    else if key == "outcome" then OUTCOMES
    else STATUS_LABELS
  }

  lemma WordIsNormalized(key: string, v: Value, times: iset<string>)
    requires key in {"reason", "action", "status_source", "outcome", "provider_status_label"}
    ensures Normalize(key, v, times) == if Choice(v, WordsOf(key)) then Some(v.text) else None
  {
    hide Choice, REASONS, ACTIONS, SOURCES, OUTCOMES, STATUS_LABELS, ParseUuid, PrintUuid;
  }

  /** A plain short text is stored exactly when it is one of the words. */
  lemma WordStores(key: string, v: Value, times: iset<string>)
    requires key in {"reason", "action", "status_source", "outcome", "provider_status_label"}
    requires !v.Thing? && Plain(v.text) && |v.text| <= 128
    ensures Stores(key, v, times) <==> v.text in WordsOf(key)
  {
    hide Normalize, WordsOf, Plain;
    WordIsNormalized(key, v, times);
  }

  lemma ActionsStore(a: Action, times: iset<string>)
    ensures Stores("action", Text(ActionText(a)), times)
  {
    hide Stores, Plain;
    ActionsArePlain(a);
    WordStores("action", Text(ActionText(a)), times);
  }

  lemma SourcesStore(s: StatusSource, times: iset<string>)
    ensures Stores("status_source", Member(SourceText(s)), times)
  {
    hide Stores, Plain;
    SourcesArePlain(s);
    WordStores("status_source", Member(SourceText(s)), times);
  }

  lemma OutcomeIsKnown(o: Outcome)
    ensures OutcomeText(o) in OUTCOMES
  {
  }

  lemma OutcomesStore(o: Outcome, times: iset<string>)
    ensures Stores("outcome", Text(OutcomeText(o)), times)
  {
    hide Stores, Plain, OutcomeText, OUTCOMES;
    OutcomesArePlain(o);
    OutcomeIsKnown(o);
    WordStores("outcome", Text(OutcomeText(o)), times);
  }

  lemma LabelsStore(text: string, times: iset<string>)
    requires text in STATUS_LABELS
    ensures Stores("provider_status_label", Text(text), times)
  {
    hide Stores, Plain, STATUS_LABELS;
    LabelsArePlain(text);
    WordStores("provider_status_label", Text(text), times);
  }

  lemma FailureIsKnown(f: FailureReason)
    ensures FailureText(f) in REASONS
  {
  }

  lemma FailuresStore(f: FailureReason, times: iset<string>)
    ensures Stores("reason", Text(FailureText(f)), times)
  {
    hide Stores, Plain, FailureText, REASONS;
    FailuresArePlain(f);
    FailureIsKnown(f);
    WordStores("reason", Text(FailureText(f)), times);
  }

  lemma StateReasonIsKnown(s: OrderState)
    ensures "order_" + StateText(s) in REASONS
  {
    assert "order_" + "submitting" == "order_submitting";
    assert "order_" + "accepted" == "order_accepted";
    assert "order_" + "partially_filled" == "order_partially_filled";
    assert "order_" + "filled" == "order_filled";
    assert "order_" + "rejected" == "order_rejected";
    assert "order_" + "cancel_pending" == "order_cancel_pending";
    assert "order_" + "canceled" == "order_canceled";
    assert "order_" + "expired" == "order_expired";
    assert "order_" + "unknown" == "order_unknown";
  }

  /** Every reason a request is withdrawn for is accepted, each `order_<state>` included; the reason an
      exhausted code is withdrawn for would not be. */
  lemma ReasonsStore(r: Reason, times: iset<string>)
    ensures Stores("reason", Text(ReasonText(r)), times) <==> r != MaxAttempts
  {
    hide Stores, Plain, ReasonText, REASONS;
    ReasonsArePlain(r);
    ReasonIsKnown(r);
    WordStores("reason", Text(ReasonText(r)), times);
  }

  lemma ReasonIsKnown(r: Reason)
    ensures ReasonText(r) in REASONS <==> r != MaxAttempts
  {
    if r.OrderBecame? {
      hide StateText, REASONS;
      StateReasonIsKnown(r.state);
    }
  }

  // ---------- Sound events are accepted ----------

  ghost predicate AllStore(details: map<string, Value>, times: iset<string>) {
    forall k <- details :: Stores(k, details[k], times)
  }

  lemma AcceptedIfStored(kind: EventKind, details: map<string, Value>, times: iset<string>)
    requires details.Keys <= Allowed(kind) && Required(kind) <= details.Keys && AllStore(details, times)
    ensures Encode(kind, details, times).Some?
  {
    hide Normalize, Allowed, Required, JsonSize, Plain;
    var fields := map k | k in details && Normalize(k, details[k], times).Some? ::
          Normalize(k, details[k], times).value;
    forall k <- details ensures Stores(k, details[k], times) {
    }
    PlainFieldsFit(fields);
    assert fields == map k | k in details :: Normalize(k, details[k], times).value;
  }

  lemma FillStores(fill: Option<Fill>, times: iset<string>)
    requires Printable(fill)
    ensures AllStore(FillFields(fill), times)
    ensures FillFields(fill).Keys <= {"filled_quantity", "average_fill_price"}
  {
    hide Stores;
    if fill.Some? {
      AmountsStore(fill.value.quantity, times);
      if fill.value.averagePrice.Some? {
        AmountsStore(fill.value.averagePrice.value, times);
      }
    }
  }

  lemma ReconciledIsAccepted(d: Details, show: int -> string, times: iset<string>)
    requires d.Reconciled? && SoundDetails(d) && PrintsTimes(show, times)
    ensures Encode(ReconciliationResult, Fields(d, show), times).Some?
  {
    hide Stores, Encode, PrintsTimes, UuidText, FillFields, OutcomeText, SourceText, STATUS_LABELS, Printable;
    IdsStore("attempt_id", d.attemptId, times);
    OutcomesStore(d.outcome, times);
    SourcesStore(d.source, times);
    FillStores(d.fill, times);
    if d.providerUpdatedAt.Some? {
      TimesStore(d.providerUpdatedAt.value, show, times);
    }
    if d.statusLabel.Some? {
      LabelsStore(d.statusLabel.value, times);
    }
    AcceptedIfStored(ReconciliationResult, Fields(d, show), times);
  }

  /** Every sound event passes the encoder. */
  lemma SoundIsAccepted(e: Event, show: int -> string, times: iset<string>)
    requires Sound(e) && PrintsTimes(show, times)
    ensures Encode(e.kind, Fields(e.details, show), times).Some?
  {
    hide Stores, Encode, PrintsTimes, UuidText, FillFields, OutcomeText, SourceText, ActionText, ReasonText,
         FailureText;
    match e.details
    case NoDetails => AcceptedIfStored(e.kind, Fields(e.details, show), times);
    case Expiry(at) =>
      TimesStore(at, show, times);
      AcceptedIfStored(e.kind, Fields(e.details, show), times);
    case Authorization(id, action) =>
      IdsStore("authorization_id", id, times);
      ActionsStore(action, times);
      AcceptedIfStored(e.kind, Fields(e.details, show), times);
    case Failure(id, action, failure) =>
      IdsStore("attempt_id", id, times);
      ActionsStore(action, times);
      if failure.Some? {
        FailuresStore(failure.value, times);
      }
      AcceptedIfStored(e.kind, Fields(e.details, show), times);
    case Status(source, fill) =>
      SourcesStore(source, times);
      FillStores(fill, times);
      AcceptedIfStored(e.kind, Fields(e.details, show), times);
    case Attempt(id) =>
      IdsStore("attempt_id", id, times);
      AcceptedIfStored(e.kind, Fields(e.details, show), times);
    case Reconciled(_, _, _, _, _, _) => ReconciledIsAccepted(e.details, show, times);
    case CancelOutcome(id, outcome) =>
      IdsStore("attempt_id", id, times);
      OutcomesStore(outcome, times);
      AcceptedIfStored(e.kind, Fields(e.details, show), times);
    case RequestCreated(id, at) =>
      IdsStore("request_id", id, times);
      TimesStore(at, show, times);
      AcceptedIfStored(e.kind, Fields(e.details, show), times);
    case RequestInvalidated(id, reason) =>
      IdsStore("request_id", id, times);
      ReasonsStore(reason, times);
      AcceptedIfStored(e.kind, Fields(e.details, show), times);
  }
}
