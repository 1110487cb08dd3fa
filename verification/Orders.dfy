/** Orders, their state table, fill validation and the cancellation resolver. */
module Orders {
  import opened Common

  datatype OrderState =
    | Submitting
    | Accepted
    | PartiallyFilled
    | Filled
    | Rejected
    | CancelPending
    | Canceled
    | Expired
    | Unknown

  function Successors(s: OrderState): set<OrderState> {
    match s
    case Submitting => {Accepted, PartiallyFilled, Filled, Rejected, Unknown}
    case Accepted => {PartiallyFilled, Filled, Canceled, Expired, CancelPending, Unknown}
    case PartiallyFilled => {PartiallyFilled, Filled, Canceled, Expired, CancelPending, Unknown}
    case CancelPending => {Accepted, PartiallyFilled, Filled, Rejected, Canceled, Expired, Unknown}
    case Unknown => {Accepted, PartiallyFilled, Filled, Rejected, Canceled, Expired, Unknown}
    case Filled | Rejected | Canceled | Expired => {}
  }

  predicate CanTransition(s: OrderState, t: OrderState) {
    t in Successors(s)
  }

  predicate Terminal(s: OrderState) {
    s == Filled || s == Rejected || s == Canceled || s == Expired
  }

  predicate Syncable(s: OrderState) {
    s == Accepted || s == PartiallyFilled || s == CancelPending || s == Unknown
  }

  // ---------- Exact decimals ----------

  predicate PrintsDecimal(s: string) {
    forall c <- s :: c in "0123456789.+-E"
  }

  /** The texts decimals print as. */
  type DecimalText = s: string | PrintsDecimal(s)

  /** A finite decimal: its exact value and the text it prints as. */
  datatype Amount = Amount(value: real, text: DecimalText)

  /** What a provider may put where a decimal belongs. */
  datatype Number = Finite(amount: Amount) | NotFinite

  const MAX_PRINTED := 128

  /** A fill as a provider reports it, and a fill that passed validation. */
  datatype RawFill = RawFill(quantity: Number, averagePrice: Option<Number>)
  datatype Fill = Fill(quantity: Amount, averagePrice: Option<Amount>)

  function FilledQuantity(fill: Option<Fill>): Option<real> {
    if fill.Some? then Some(fill.value.quantity.value) else None
  }

  /** What is recorded of a report, amount by amount. */
  predicate Carries(fill: Option<Fill>, raw: Option<RawFill>) {
    && (fill.Some? <==> raw.Some?)
    && (fill.Some? ==>
          && raw.value.quantity == Finite(fill.value.quantity)
          && (fill.value.averagePrice.Some? <==> raw.value.averagePrice.Some?)
          && (fill.value.averagePrice.Some? ==>
                raw.value.averagePrice.value == Finite(fill.value.averagePrice.value)))
  }

  /** None stands for the ValueError that rejects the fill. */
  function ValidateFill(raw: RawFill, ordered: real, previous: Option<real>): (fill: Option<Fill>)
    ensures fill.Some? ==>
              && 0.0 < fill.value.quantity.value <= ordered
              && (previous.Some? ==> previous.value <= fill.value.quantity.value)
              && PrintableFill(fill.value)
              && Carries(fill, Some(raw))
    ensures fill.None? <==> !AcceptableFill(raw, ordered, previous)
  {
    if raw.quantity.NotFinite?
       || raw.quantity.amount.value <= 0.0
       || raw.quantity.amount.value > ordered
       || (previous.Some? && raw.quantity.amount.value < previous.value)
       || (raw.averagePrice.Some?
           && (raw.averagePrice.value.NotFinite? || raw.averagePrice.value.amount.value <= 0.0))
    then None
    else if |raw.quantity.amount.text| > MAX_PRINTED
            || (raw.averagePrice.Some? && |raw.averagePrice.value.amount.text| > MAX_PRINTED)
    then None
    else Some(Fill(raw.quantity.amount,
                   if raw.averagePrice.Some? then Some(raw.averagePrice.value.amount) else None))
  }

  /** The fills a provider may report for an order, said without reference to the order of the checks. */
  predicate AcceptableFill(raw: RawFill, ordered: real, previous: Option<real>) {
    && raw.quantity.Finite?
    && 0.0 < raw.quantity.amount.value <= ordered
    && (previous.Some? ==> previous.value <= raw.quantity.amount.value)
    && |raw.quantity.amount.text| <= MAX_PRINTED
    && (raw.averagePrice.Some? ==>
          && raw.averagePrice.value.Finite?
          && 0.0 < raw.averagePrice.value.amount.value
          && |raw.averagePrice.value.amount.text| <= MAX_PRINTED)
  }

  predicate PrintableFill(fill: Fill) {
    && |fill.quantity.text| <= MAX_PRINTED
    && (fill.averagePrice.Some? ==> |fill.averagePrice.value.text| <= MAX_PRINTED)
  }

  // ---------- Orders ----------

  datatype StatusSource = FromProvider | FromLocal | FromSystem

  /** What was ordered; fixed when the draft is written. */
  datatype Terms = Terms(accountId: string, provider: string, instrumentId: string, symbol: string, side: string,
                         orderType: string, quantity: real, limitPrice: Option<real>)

  datatype Draft = Draft(terms: Terms, fingerprint: string, createdAt: int, expiresAt: int)

  datatype Order = Order(
    draftId: Id, clientOrderId: string, fingerprint: string, terms: Terms,
    state: OrderState, version: int,
    brokerOrderId: Option<string>, resultCode: Option<string>, resultSource: Option<StatusSource>,
    fill: Option<Fill>,
    submissionStartedAt: Option<int>, providerUpdatedAt: Option<int>,
    providerStatusLabel: Option<string>,
    createdAt: int, updatedAt: int)
  {
    function Filled(): Option<real> {
      FilledQuantity(fill)
    }

    function RemainingQuantity(): Option<real> {
      if fill.None? then None
      else if terms.quantity - fill.value.quantity.value > 0.0
      then Some(terms.quantity - fill.value.quantity.value)
      else Some(0.0)
    }

    /** The quantity a cancellation request is reviewed against. */
    function ReviewedRemainder(): real {
      if RemainingQuantity().Some? then RemainingQuantity().value else terms.quantity
    }

    function CancelBlock(): Option<CancelBlock> {
      if state != Accepted && state != PartiallyFilled then Some(BlockedByState(state))
      else if state == PartiallyFilled && RemainingQuantity().Some? && RemainingQuantity().value <= 0.0
      then Some(NothingRemaining)
      else if brokerOrderId.None? || Strip(brokerOrderId.value) == "" then Some(MissingBrokerId)
      else None
    }

    predicate CanCancel() {
      CancelBlock().None?
    }
  }

  datatype CancelBlock = BlockedByState(state: OrderState) | NothingRemaining | MissingBrokerId

  /** An order can be canceled exactly while it is open at the broker, under a broker id that is not blank, and
      not known to be filled completely. */
  lemma CancelableExactly(o: Order)
    ensures o.CanCancel() <==>
            && (o.state == Accepted || o.state == PartiallyFilled)
            && o.brokerOrderId.Some? && !Blank(o.brokerOrderId.value)
            && (o.state == PartiallyFilled && o.fill.Some? ==> o.fill.value.quantity.value < o.terms.quantity)
  {
    hide Strip, Blank;
    if o.brokerOrderId.Some? {
      StripOfBlank(o.brokerOrderId.value);
    }
  }

  /** The one-record invariant: versions, fills and timestamps. */
  predicate OrderOk(o: Order) {
    && o.terms.quantity > 0.0
    && o.version >= 1
    && (o.version == 1 <==> o.state == Submitting)
    && (o.fill.Some? ==> 0.0 < o.fill.value.quantity.value <= o.terms.quantity && PrintableFill(o.fill.value))
    && (o.state == Submitting ==> o.fill.None? && o.brokerOrderId.None? && o.providerUpdatedAt.None?)
    && (o.state == PartiallyFilled && o.fill.Some? ==> o.fill.value.quantity.value < o.terms.quantity)
    && (o.brokerOrderId.Some? ==> Stripped(o.brokerOrderId.value))
    && o.createdAt <= o.updatedAt
  }

  /** One committed write to an order that bumps its version. */
  predicate OrderWrite(o: Order, o': Order) {
    && o' == o.(state := o'.state, version := o.version + 1, brokerOrderId := o'.brokerOrderId,
                resultCode := o'.resultCode, resultSource := o'.resultSource, fill := o'.fill,
                providerUpdatedAt := o'.providerUpdatedAt,
                providerStatusLabel := o'.providerStatusLabel, updatedAt := o'.updatedAt)
    && (CanTransition(o.state, o'.state) || (o'.state == o.state && o.state != Submitting))
    && o.updatedAt <= o'.updatedAt
    && FillGrows(o.fill, o'.fill)
    && (o'.state == Filled && o.state != Filled && o.state != Submitting ==>
          o'.Filled() == Some(o'.terms.quantity))
    && (o.brokerOrderId.Some? ==> o'.brokerOrderId == o.brokerOrderId)
    && (o.providerUpdatedAt.Some? ==>
          o'.providerUpdatedAt.Some? && o.providerUpdatedAt.value <= o'.providerUpdatedAt.value)
    && OrderOk(o')
  }

  predicate FillGrows(before: Option<Fill>, after: Option<Fill>) {
    before.Some? ==> after.Some? && before.value.quantity.value <= after.value.quantity.value
  }

  // ---------- Cancellation outcomes ----------

  datatype CancellationKind = KindCanceled | KindRefused | KindUnknown

  datatype CancellationObservation =
    CancellationObservation(kind: CancellationKind, observed: Option<OrderState>, fill: Option<RawFill>)

  datatype Resolution = Resolution(state: OrderState, fill: Option<Fill>, kind: CancellationKind)

  function ResolveCancellation(ordered: real, filled: Option<real>, seen: CancellationObservation): Resolution {
    if seen.kind == KindUnknown then Resolution(Unknown, None, KindUnknown)
    else
      var fill := if seen.fill.Some? then ValidateFill(seen.fill.value, ordered, filled) else None;
      if seen.fill.Some? && fill.None? then Resolution(Unknown, None, KindUnknown)
      else
        var cumulative := if fill.Some? then FilledQuantity(fill) else filled;
        if seen.kind == KindCanceled then
          if cumulative.Some? && cumulative.value >= ordered
          then Resolution(Unknown, fill, KindUnknown)
          else Resolution(Canceled, fill, KindCanceled)
        else if seen.observed == Some(Filled) && FilledQuantity(fill) == Some(ordered)
        then Resolution(Filled, fill, KindRefused)
        else if seen.observed == Some(PartiallyFilled) && cumulative.Some? && 0.0 < cumulative.value < ordered
        then Resolution(PartiallyFilled, fill, KindRefused)
        else if seen.observed == Some(Accepted) && (cumulative.None? || cumulative.value == 0.0)
        then Resolution(Accepted, fill, KindRefused)
        else if seen.observed == Some(Expired) && (fill.None? || fill.value.quantity.value < ordered)
        then Resolution(Expired, fill, KindRefused)
        else Resolution(Unknown, fill, KindUnknown)
  }

  function CumulativeFill(recorded: Option<Fill>, applied: Option<Fill>): Option<Fill> {
    if applied.Some? then applied else recorded
  }

  /** Whatever the provider claims about a pending cancellation, the chosen state is a legal move out
      of CancelPending, agrees with the cumulative fill, and the fill only grows. */
  lemma ResolutionIsLegal(ordered: real, recorded: Option<Fill>, seen: CancellationObservation)
    requires ordered > 0.0
    requires recorded.Some? ==> 0.0 < recorded.value.quantity.value <= ordered
    ensures var r := ResolveCancellation(ordered, FilledQuantity(recorded), seen);
            var total := CumulativeFill(recorded, r.fill);
            && CanTransition(CancelPending, r.state)
            && FillGrows(recorded, total)
            && (r.state == Canceled ==> total.None? || total.value.quantity.value < ordered)
            && (r.state == Filled ==> FilledQuantity(total) == Some(ordered))
            && (r.state == PartiallyFilled ==> total.Some? && total.value.quantity.value < ordered)
            && (r.state == Accepted ==> total.None?)
            && (r.kind == KindUnknown <==> r.state == Unknown)
            && (seen.kind == KindRefused ==> r.state != Canceled)
  {
  }

  /** A report that may be used: whatever it carries is acceptable after what is recorded. */
  predicate Trustworthy(ordered: real, recorded: Option<Fill>, reported: Option<RawFill>) {
    reported.Some? ==> AcceptableFill(reported.value, ordered, FilledQuantity(recorded))
  }

  /** The quantity filled once the report is counted; a report replaces what was recorded. */
  function FilledAfter(recorded: Option<Fill>, reported: Option<RawFill>): Option<real> {
    if reported.Some? then
      if reported.value.quantity.Finite? then Some(reported.value.quantity.amount.value) else None
    else FilledQuantity(recorded)
  }

  /** A canceled report is believed exactly when the fill it carries is acceptable and leaves
      something unfilled. */
  lemma CanceledExactlyWhenUnfilledRemains(ordered: real, recorded: Option<Fill>, seen: CancellationObservation)
    requires recorded.Some? ==> 0.0 < recorded.value.quantity.value <= ordered
    ensures ResolveCancellation(ordered, FilledQuantity(recorded), seen).state == Canceled <==>
            && seen.kind == KindCanceled
            && (seen.fill.None? ==> recorded.None? || recorded.value.quantity.value < ordered)
            && (seen.fill.Some? ==>
                  && AcceptableFill(seen.fill.value, ordered, FilledQuantity(recorded))
                  && seen.fill.value.quantity.amount.value < ordered)
  {
  }

  predicate Refusal(seen: CancellationObservation, state: OrderState) {
    seen.kind == KindRefused && seen.observed == Some(state)
  }

  /** What each refusal settles, said from the report alone: a refused cancellation leaves the order in the
      state the provider observes exactly when the report bears that state out, and every report that bears
      nothing out leaves the outcome unknown. */
  lemma SettledExactly(ordered: real, recorded: Option<Fill>, seen: CancellationObservation)
    requires recorded.Some? ==> 0.0 < recorded.value.quantity.value <= ordered
    ensures var r := ResolveCancellation(ordered, FilledQuantity(recorded), seen);
            var sound, total := Trustworthy(ordered, recorded, seen.fill), FilledAfter(recorded, seen.fill);
            && (r.state == Canceled <==>
                  seen.kind == KindCanceled && sound && (total.Some? ==> total.value < ordered))
            && (r.state == Filled <==>
                  Refusal(seen, Filled) && sound && seen.fill.Some? && total == Some(ordered))
            && (r.state == PartiallyFilled <==>
                  Refusal(seen, PartiallyFilled) && sound && total.Some? && 0.0 < total.value < ordered)
            && (r.state == Accepted <==> Refusal(seen, Accepted) && recorded.None? && seen.fill.None?)
            && (r.state == Expired <==>
                  Refusal(seen, Expired) && sound && (seen.fill.Some? ==> total.Some? && total.value < ordered))
            && r.state in {Canceled, Filled, PartiallyFilled, Accepted, Expired, Unknown}
            && (r.kind == if r.state == Unknown then KindUnknown else seen.kind)
  {
  }

  /** The fill it returns: the reported one whenever the report may be used, and none otherwise. */
  lemma SettledFill(ordered: real, recorded: Option<Fill>, seen: CancellationObservation)
    ensures var r := ResolveCancellation(ordered, FilledQuantity(recorded), seen);
            if seen.kind != KindUnknown && Trustworthy(ordered, recorded, seen.fill) then Carries(r.fill, seen.fill)
            else r.fill.None?
  {
  }
}
