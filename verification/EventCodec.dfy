/** Validating and normalizing the details of audit events. The stored JSON object is modelled as its map
    of texts, with the length its text has. */
module EventCodec {
  import opened Common
  import opened Journal
  import opened Database
  import opened Uuids

  /** What a writer may put in a field: a text, a member of a text enumeration, or something else that
      prints as the given text. */
  datatype Value = Text(text: string) | Member(text: string) | Thing(text: string)

  /** Fields a kind of event may have, and those it must have. */
  function Allowed(kind: EventKind): set<string> {
    match kind
    case DraftCreated | SubmissionStarted => {}
    case DraftExpired => {"expires_at"}
    case AuthorizationCreated | AuthorizationConsumed => {"authorization_id", "action"}
    case AuthorizationFailed => {"attempt_id", "action", "reason"}
    case SubmissionResult | StatusTransition => {"status_source", "filled_quantity", "average_fill_price"}
    case ReconciliationAttempted | CancellationRequested => {"attempt_id"}
    case ReconciliationResult =>
      {"attempt_id", "outcome", "status_source", "filled_quantity", "average_fill_price", "provider_updated_at",
       "provider_status_label"}
    case CancellationResult => {"attempt_id", "outcome"}
    case CancellationRequestCreated => {"request_id", "expires_at"}
    case CancellationRequestInvalidated => {"request_id", "reason"}
  }

  function Required(kind: EventKind): set<string> {
    match kind
    case AuthorizationFailed => {"attempt_id", "action"}
    case SubmissionResult | StatusTransition => {"status_source"}
    case ReconciliationResult => {"attempt_id", "outcome"}
    case _ => Allowed(kind)
  }

  const REASONS: set<string> := {
    "no_active_authorization", "authorization_expired", "verification_failed", "authorization_unavailable",
    "superseded", "order_state_changed", "order_not_cancelable", "cancellation_started", "order_accepted",
    "order_submitting", "order_partially_filled", "order_cancel_pending", "order_canceled", "order_filled",
    "order_rejected", "order_expired", "order_unknown", "expired"}
  const ACTIONS: set<string> := {"submit", "cancel"}
  const SOURCES: set<string> := {"provider", "local", "system"}
  const OUTCOMES: set<string> := {
    "matched", "not_found", "ambiguous", "incomplete", "mismatch", "stale", "provider_error", "canceled", "unknown",
      "refused"}

  predicate IsText(v: Value) {
    !v.Thing?
  }

  predicate Choice(v: Value, choices: set<string>) {
    IsText(v) && v.text in choices
  }

  /** The stored text of one field, or None when the field is refused. `times` are the texts that read as
      a time with a zone. */
  function Normalize(key: string, v: Value, times: iset<string>): (text: Option<string>)
  {
    if key in {"authorization_id", "attempt_id", "request_id"} then
      var n := ParseUuid(v.text);
      if n.None? then None else Some(PrintUuid(n.value))
    else if key in {"filled_quantity", "average_fill_price"} then
      if IsText(v) && |v.text| <= 128 then Some(v.text) else None
    else if key == "expires_at" then
      if IsText(v) && |v.text| <= 40 then Some(v.text) else None
    else if key == "provider_status_label" then
      if Choice(v, STATUS_LABELS) then Some(v.text) else None
    else if key == "provider_updated_at" then
      if IsText(v) && |v.text| <= 40 && v.text in times then Some(v.text) else None
    else if key == "reason" then if Choice(v, REASONS) then Some(v.text) else None
    else if key == "action" then if Choice(v, ACTIONS) then Some(v.text) else None
    else if key == "status_source" then if Choice(v, SOURCES) then Some(v.text) else None
    else if key == "outcome" then if Choice(v, OUTCOMES) then Some(v.text) else None
    else None
  }

  // ---------- Length of the JSON text ----------

  const KEYS: seq<string> := [
    "action", "attempt_id", "authorization_id", "average_fill_price", "expires_at", "filled_quantity", "outcome",
    "provider_status_label", "provider_updated_at", "reason", "request_id", "status_source"]

  /** Characters a character takes in an ASCII JSON text. */
  function EscapedSize(c: char): nat {
    if c == '"' || c == '\\' || '\U{0008}' <= c <= '\U{000A}' || c == '\U{000C}' || c == '\U{000D}' then 2
    else if ' ' <= c <= '\U{007E}' then 1
    else if c < '\U{10000}' then 6
    else 12
  }

  function TextSize(s: string): nat {
    if s == "" then 0 else EscapedSize(s[0]) + TextSize(s[1..])
  }

  /** Each field costs its key, its text, four quotes, a colon and a comma or closing brace. */
  function FieldsSize(fields: map<string, string>, keys: seq<string>): nat {
    if keys == [] then 0
    else (if keys[0] in fields then |keys[0]| + TextSize(fields[keys[0]]) + 6 else 0) + FieldsSize(fields, keys[1..])
  }

  function JsonSize(fields: map<string, string>): nat {
    if fields == map[] then 2 else 1 + FieldsSize(fields, KEYS)
  }

  const MAX_SIZE := 2048

  // ---------- Encoding ----------

  function Encode(kind: EventKind, details: map<string, Value>, times: iset<string>): (stored: Option<map<string,
        string>>)
  {
    if !(details.Keys <= Allowed(kind)) || !(Required(kind) <= details.Keys) then None
    else if exists k <- details :: Normalize(k, details[k], times).None? then None
    else
      var fields := map k | k in details :: Normalize(k, details[k], times).value;
      if JsonSize(fields) > MAX_SIZE then None else Some(fields)
  }

  /** Reading the stored text back gives texts. */
  function Decode(stored: map<string, string>): map<string, Value> {
    map k | k in stored :: Text(stored[k])
  }

  /** The loop over the fields. */
  method EncodeDetails(kind: EventKind, details: map<string, Value>, ghost times: iset<string>, aware: string -> bool)
    returns (stored: Option<map<string, string>>)
    requires forall s :: aware(s) <==> s in times
    ensures stored == Encode(kind, details, times)
  {
    hide Normalize, JsonSize, Allowed, Required;
    if !(details.Keys <= Allowed(kind)) {
      return None;
    }
    if !(Required(kind) <= details.Keys) {
      return None;
    }
    var normalized: map<string, string> := map[];
    var rest := details.Keys;
    while rest != {}
      invariant rest <= details.Keys && normalized.Keys == details.Keys - rest
      invariant forall k <- normalized :: Normalize(k, details[k], times) == Some(normalized[k])
    {
      var key :| key in rest;
      var text := NormalizeField(key, details[key], times, aware);
      if text.None? {
        return None;
      }
      normalized := normalized[key := text.value];
      rest := rest - {key};
    }
    assert normalized == map k | k in details :: Normalize(k, details[k], times).value;
    if JsonSize(normalized) > MAX_SIZE {
      return None;
    }
    stored := Some(normalized);
  }

  method NormalizeField(key: string, v: Value, ghost times: iset<string>, aware: string -> bool)
    returns (text: Option<string>)
    requires forall s :: aware(s) <==> s in times
    ensures text == Normalize(key, v, times)
  {
    if key in {"authorization_id", "attempt_id", "request_id"} {
      var n := ParseUuid(v.text);
      return if n.None? then None else Some(PrintUuid(n.value));
    }
    if (key == "reason" && !Choice(v, REASONS)) || (key == "action" && !Choice(v, ACTIONS))
       || (key == "status_source" && !Choice(v, SOURCES)) || (key == "outcome" && !Choice(v, OUTCOMES)) {
      return None;
    }
    if key in {"filled_quantity", "average_fill_price"} {
      return if IsText(v) && |v.text| <= 128 then Some(v.text) else None;
    }
    if key == "expires_at" {
      return if IsText(v) && |v.text| <= 40 then Some(v.text) else None;
    }
    if key == "provider_status_label" {
      return if Choice(v, STATUS_LABELS) then Some(v.text) else None;
    }
    if key == "provider_updated_at" {
      return if IsText(v) && |v.text| <= 40 && aware(v.text) then Some(v.text) else None;
    }
    text := if key in {"reason", "action", "status_source", "outcome"} then Some(v.text) else None;
  }

  // ---------- Round trip ----------

  lemma NormalizeTwice(key: string, v: Value, times: iset<string>)
    requires Normalize(key, v, times).Some?
    ensures var text := Normalize(key, v, times).value; Normalize(key, Text(text), times) == Some(text)
  {
    if key in {"authorization_id", "attempt_id", "request_id"} {
      UuidRoundTrip(ParseUuid(v.text).value);
    }
    hide ParseUuid, PrintUuid;
  }

  /** What is stored under a key says what was given: the same UUID, however it was written, or the very text, a
      word of the key's list, or a printed amount or time of bounded length. */
  predicate SaysTheSame(key: string, v: Value, text: string, times: iset<string>) {
    if key == "authorization_id" || key == "attempt_id" || key == "request_id" then
      ParseUuid(text).Some? && ParseUuid(text) == ParseUuid(v.text)
    else
      && text == v.text && !v.Thing?
      && (key == "reason" ==> text in REASONS)
      && (key == "action" ==> text == "submit" || text == "cancel")
      && (key == "status_source" ==> text == "provider" || text == "local" || text == "system")
      && (key == "outcome" ==> text in OUTCOMES)
      && (key == "provider_status_label" ==> text in STATUS_LABELS)
      && (key == "filled_quantity" || key == "average_fill_price" ==> |text| <= 128)
      && (key == "expires_at" || key == "provider_updated_at" ==> |text| <= 40)
      && (key == "provider_updated_at" ==> text in times)
  }

  lemma NormalizedSaysTheSame(key: string, v: Value, times: iset<string>)
    ensures var text := Normalize(key, v, times); text.Some? ==> SaysTheSame(key, v, text.value, times)
  {
    hide REASONS, OUTCOMES, STATUS_LABELS, ParseUuid, PrintUuid;
    PrintedUuidIsSame(v.text);
  }

  lemma PrintedUuidIsSame(text: string)
    ensures ParseUuid(text).Some? ==> ParseUuid(PrintUuid(ParseUuid(text).value)) == ParseUuid(text)
  {
    if ParseUuid(text).Some? {
      UuidRoundTrip(ParseUuid(text).value);
    }
  }

  /** An accepted event stores all its fields and no others, each saying what was given, among them every field
      its kind must have, within the size limit. */
  lemma StoresWhatWasGiven(kind: EventKind, details: map<string, Value>, times: iset<string>)
    requires Encode(kind, details, times).Some?
    ensures var stored := Encode(kind, details, times).value;
            && stored.Keys == details.Keys && Required(kind) <= stored.Keys <= Allowed(kind)
            && (forall k <- stored :: SaysTheSame(k, details[k], stored[k], times))
            && JsonSize(stored) <= 2048
  {
    hide Normalize, JsonSize, Allowed, Required, SaysTheSame;
    forall k <- details ensures Normalize(k, details[k], times).Some? ==>
              SaysTheSame(k, details[k], Normalize(k, details[k], times).value, times)
    {
      NormalizedSaysTheSame(k, details[k], times);
    }
  }

  /** Whatever an encoder accepted, reading it and validating it again, as every reader does, accepts it
      and changes nothing. */
  lemma EncodeDecodeEncode(kind: EventKind, details: map<string, Value>, times: iset<string>)
    requires Encode(kind, details, times).Some?
    ensures Encode(kind, Decode(Encode(kind, details, times).value), times) == Encode(kind, details, times)
  {
    hide Normalize, JsonSize, Allowed, Required;
    var stored := Encode(kind, details, times).value;
    forall k <- stored ensures Normalize(k, Text(stored[k]), times) == Some(stored[k]) {
      NormalizeTwice(k, details[k], times);
    }
    var again := Decode(stored);
    assert again.Keys == stored.Keys == details.Keys;
    assert (map k | k in again :: Normalize(k, again[k], times).value) == stored;
  }

  // ---------- Size ----------

  predicate Plain(s: string) {
    forall c <- s :: EscapedSize(c) == 1
  }

  lemma {:induction false} PlainSize(s: string)
    requires Plain(s)
    ensures TextSize(s) == |s|
  {
    if s != "" {
      PlainSize(s[1..]);
    }
  }

  lemma {:induction false} FieldsFit(fields: map<string, string>, keys: seq<string>)
    requires forall k <- keys :: |k| <= 21
    requires forall k <- fields :: TextSize(fields[k]) <= 128
    ensures FieldsSize(fields, keys) <= |keys| * 155
  {
    if keys != [] {
      assert keys[0] in keys;
      FieldsFit(fields, keys[1..]);
    }
  }

  lemma KeysAreShort()
    ensures |KEYS| == 12 && forall k <- KEYS :: |k| <= 21
  {
  }

  /** Plain texts of at most 128 characters always fit: all twelve fields together stay under the limit. */
  lemma PlainFieldsFit(fields: map<string, string>)
    requires forall k <- fields :: Plain(fields[k]) && |fields[k]| <= 128
    ensures JsonSize(fields) <= MAX_SIZE
  {
    hide FieldsSize, Plain, TextSize;
    KeysAreShort();
    forall k <- fields ensures TextSize(fields[k]) <= 128 {
      PlainSize(fields[k]);
    }
    FieldsFit(fields, KEYS);
  }
}
