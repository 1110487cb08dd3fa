/** One submission and one cancellation from start to end, with nothing else running in between; module
    Services has the interleavings. */
module TradingService {
  import opened Common
  import opened Orders
  import opened Journal
  import opened Database
  import opened Invariants
  import opened Preservation
  import opened WriteSets
  import opened AttemptOwnership
  import opened OrderStore

  // ---------- Submission ----------

  /** What came back from a provider: an exception (a timeout and a canceled task among them), something
      that is not a result, or a result. */
  datatype Answer = Exception | Malformed | Result(state: OrderState, brokerOrderId: Option<string>,
                                                   fill: Option<RawFill>)

  const UNKNOWN_RESULT := Submitted(Unknown, None, Some("unknown"), None, FromSystem)

  function ResultCode(s: OrderState): string {
    match s
    case Accepted => "accepted"
    case PartiallyFilled => "partially_filled"
    case Filled => "filled"
    case _ => "rejected"
  }

  /** What is recorded for an answer; an accepted order must name its broker id. */
  function Recorded(answer: Answer): Submitted {
    if !answer.Result? || answer.state !in {Accepted, PartiallyFilled, Filled, Rejected} then UNKNOWN_RESULT
    else if answer.state != Rejected && (answer.brokerOrderId.None? || Strip(answer.brokerOrderId.value) == "")
      then UNKNOWN_RESULT
    else Submitted(answer.state, if answer.brokerOrderId.Some? then Some(Strip(answer.brokerOrderId.value)) else None,
                   Some(ResultCode(answer.state)), answer.fill, FromProvider)
  }

  /** A reported fill goes with the ordered quantity and the reported state. */
  predicate FillFits(raw: RawFill, state: OrderState, ordered: real) {
    && AcceptableFill(raw, ordered, None)
    && (state == Filled ==> raw.quantity.amount.value == ordered)
    && (state == PartiallyFilled ==> raw.quantity.amount.value < ordered)
  }

  /** An answer that is believed, said from the answer alone: a result in a state a submission can end in, with
      a broker id unless it is a rejection, and with no fill but one that fits the state it reports. */
  predicate Believed(answer: Answer, ordered: real) {
    && answer.Result?
    && (answer.state == Accepted || answer.state == PartiallyFilled || answer.state == Filled
        || answer.state == Rejected)
    && (answer.state != Rejected ==> answer.brokerOrderId.Some? && !Blank(answer.brokerOrderId.value))
    && (answer.fill.Some? ==> FillFits(answer.fill.value, answer.state, ordered))
  }

  /** What an answer leaves in a record that was marked as handed over. */
  predicate TakesAnswer(marked: Order, o: Order, answer: Answer, at: int) {
    && o == marked.(state := o.state, version := marked.version + 1, brokerOrderId := o.brokerOrderId, fill := o.fill,
                    resultCode := o.resultCode, resultSource := o.resultSource,
                    updatedAt := Max(at, marked.updatedAt))
    && if Believed(answer, marked.terms.quantity) then
         && o.state == answer.state
         && (o.brokerOrderId.Some? <==> answer.brokerOrderId.Some?)
         && (o.brokerOrderId.Some? ==> o.brokerOrderId.value == Strip(answer.brokerOrderId.value))
         && Carries(o.fill, answer.fill)
         && (answer.state == Accepted ==> o.resultCode == Some("accepted"))
         && (answer.state == PartiallyFilled ==> o.resultCode == Some("partially_filled"))
         && (answer.state == Filled ==> o.resultCode == Some("filled"))
         && (answer.state == Rejected ==> o.resultCode == Some("rejected"))
         && o.resultSource == Some(FromProvider)
       else
         && o.state == Unknown && o.brokerOrderId.None? && o.fill.None?
         && o.resultCode == Some("unknown") && o.resultSource == Some(FromSystem)
  }

  /** Recording an answer, and UNKNOWN when it is refused, leaves exactly that. */
  lemma RecordingTakesAnswer(marked: Order, answer: Answer, at: int)
    requires marked.fill.None? && marked.brokerOrderId.None?
    ensures var r := Recorded(answer);
            var fill := SubmittedFill(marked, r);
            TakesAnswer(marked, if fill.Some? then FinishedOrder(marked, r, fill.value, at)
                                else FinishedOrder(marked, UNKNOWN_RESULT, None, at), answer, at)
  {
    hide Strip, Blank;
    if answer.Result? && answer.brokerOrderId.Some? {
      StripOfBlank(answer.brokerOrderId.value);
    }
  }

  lemma RecordedIsFaithful(answer: Answer)
    ensures var r := Recorded(answer);
            (r.brokerOrderId.Some? ==> Stripped(r.brokerOrderId.value)) && CanTransition(Submitting, r.state)
    ensures CanTransition(Submitting, Unknown) && CanTransition(Submitting, Rejected)
  {
    if answer.Result? && answer.brokerOrderId.Some? {
      StripIsIdempotent(answer.brokerOrderId.value);
    }
    hide Strip, Stripped;
  }

  lemma Finishes(db: Db, k: Id, r: Submitted, now: int, actor: Actor)
    requires k in db.orders && db.orders[k].version == 1 && db.orders[k].state == Submitting
             && CanTransition(Submitting, r.state)
    ensures var (db', reply) := FinishSubmission(db, k, 1, r, now, actor);
            if SubmittedFill(db.orders[k], r).Some?
              then reply == Done && k in db'.orders && db'.orders[k].state == r.state
            else reply == Failed(InvalidValue) && db' == db
  {
    FinishSubmissionWrites(db, k, 1, r, now, actor);
    hide SubmittedFill, Commit, EventCode, DraftExpiryLogged, Successors;
  }

  /** A record as a submission creates it. */
  predicate IsNew(o: Order, draftId: Id, draft: Draft, client: string, now: int) {
    && o.draftId == draftId && o.terms == draft.terms && o.fingerprint == draft.fingerprint
    && o.clientOrderId == client && o.state == Submitting && o.version == 1
    && o.brokerOrderId.None? && o.resultCode.None? && o.resultSource.None? && o.fill.None?
    && o.submissionStartedAt.None? && o.providerUpdatedAt.None? && o.providerStatusLabel.None?
    && o.createdAt == now && o.updatedAt == now
  }

  lemma Begins(db: Db, draftId: Id, k: Id, client: string, authorization: Id, now: int, actor: Actor)
    ensures var (db', reply) := BeginSubmission(db, draftId, k, client, authorization, now, actor);
            if reply == Ordered(k, true)
            then k !in db.orders && draftId in db.drafts && db'.drafts == db.drafts && k in db'.orders
                 && IsNew(db'.orders[k], draftId, db.drafts[draftId], client, now)
            else db' == db
  {
    hide SelfAuthorization;
  }

  /** How the checks end that run once the order exists: only a validation error is caught; anything else they
      raise, a canceled task included, leaves the method. */
  datatype Checks = Passed | Caught(code: string) | Interrupted

  /** A submission under its draft's lock, after the checks before it passed. It leaves its order in Submitting
      only when the final checks themselves are interrupted, and then where recovery finds it. */
  method ExecuteSubmission(store: Store, draftId: Id, k: Id, client: string, authorization: Id, actor: Actor,
                           now: int, checks: Checks, checkedAt: int, startedAt: int, answer: Answer,
                             observedAt: int)
    returns (reply: Reply, calls: seq<Id>)
    requires store.Valid()
    modifies store
    ensures store.Valid()
    ensures reply != Ordered(k, true) ==> store.Contents() == old(store.Contents()) && calls == []
    ensures reply == Ordered(k, true) ==>
              && k !in old(store.orders) && k in store.orders && draftId in old(store.drafts)
              && var draft, o := old(store.drafts)[draftId], store.orders[k];
              && (checks.Interrupted? ==>
                    && calls == []
                    && IsNew(o, draftId, draft, client, now)
                    && forall held: set<Id> :: draftId !in held ==> k in Stranded(store.orders, held))
              && (checks.Caught? ==>
                    && calls == []
                    && o.state == Rejected && o.version == 2 && o.resultCode == Some(checks.code)
                    && o.resultSource == Some(FromLocal)
                    && o.updatedAt == Max(checkedAt, now)
                    && IsNew(o.(state := Submitting, version := 1, resultCode := None, resultSource := None,
                                updatedAt := now), draftId, draft, client, now))
              && (checks.Passed? ==>
                    && calls == [draftId]
                    && exists created :: IsNew(created, draftId, draft, client, now)
                         && TakesAnswer(created.(submissionStartedAt := Some(startedAt)), o, answer, observedAt))
  {
    hide Inv, Evolves, BeginSubmission, FinishSubmission, SubmittedFill, Recorded, Successors, TakesAnswer, IsNew;
    calls := [];
    Begins(store.Contents(), draftId, k, client, authorization, now, actor);
    reply := store.BeginSubmission(draftId, k, client, authorization, now, actor);
    if reply != Ordered(k, true) {
      return;
    }
    ghost var created, draft := store.orders[k], store.drafts[draftId];
    NewFields(created, draftId, draft, client, now);
    if checks.Interrupted? {
      return;
    }
    RecordedIsFaithful(answer);
    if checks.Caught? {
      var rejected := Submitted(Rejected, None, Some(checks.code), None, FromLocal);
      FinishWrites(store.Contents(), k, rejected, checkedAt, actor);
      var finished := store.FinishSubmission(k, 1, rejected, checkedAt, actor);
      RejectedFields(created, checks.code, checkedAt, draftId, draft, client, now);
      return;
    }
    var marked := store.MarkStarted(k, 1, startedAt);
    calls := [draftId];
    RecordingTakesAnswer(store.orders[k], answer, observedAt);
    FinishWrites(store.Contents(), k, Recorded(answer), observedAt, actor);
    FinishWrites(store.Contents(), k, UNKNOWN_RESULT, observedAt, actor);
    var persisted := store.FinishSubmission(k, 1, Recorded(answer), observedAt, actor);
    if persisted.Failed? {
      var unknown := store.FinishSubmission(k, 1, UNKNOWN_RESULT, observedAt, actor);
    }
  }

  lemma NewFields(o: Order, draftId: Id, draft: Draft, client: string, now: int)
    requires IsNew(o, draftId, draft, client, now)
    ensures o.draftId == draftId && o.state == Submitting && o.version == 1 && o.fill.None? && o.brokerOrderId.None?
  {
  }

  lemma RejectedFields(created: Order, code: string, at: int, draftId: Id, draft: Draft, client: string, now: int)
    requires IsNew(created, draftId, draft, client, now)
    ensures var o := FinishedOrder(created, Submitted(Rejected, None, Some(code), None, FromLocal), None, at);
            && o.state == Rejected && o.version == 2 && o.resultCode == Some(code) && o.resultSource == Some(FromLocal)
            && o.updatedAt == Max(at, now)
            && IsNew(o.(state := Submitting, version := 1, resultCode := None, resultSource := None,
                        updatedAt := now), draftId, draft, client, now)
  {
  }

  lemma FinishWrites(db: Db, k: Id, r: Submitted, now: int, actor: Actor)
    requires k in db.orders && db.orders[k].version == 1 && db.orders[k].state == Submitting
             && CanTransition(Submitting, r.state)
    ensures var (db', reply) := FinishSubmission(db, k, 1, r, now, actor);
            var fill := SubmittedFill(db.orders[k], r);
            && (r.fill.None? ==> fill == Some(None))
            && (if fill.Some?
                then reply == Done && k in db'.orders
                  && db'.orders[k] == FinishedOrder(db.orders[k], r, fill.value, now)
                else reply == Failed(InvalidValue) && db' == db)
  {
    FinishSubmissionWrites(db, k, 1, r, now, actor);
    Finishes(db, k, r, now, actor);
    hide FinishSubmission, ValidateFill;
  }

  // ---------- Cancellation ----------

  /** What a provider's answer to a cancellation is taken to say. An answer about another broker order
      says nothing. */
  function ClassifyCancel(answer: Answer, brokerOrderId: Option<string>): CancellationObservation {
    if !answer.Result? then CancellationObservation(KindUnknown, None, None)
    else if answer.brokerOrderId.Some? && brokerOrderId.Some? && answer.brokerOrderId != brokerOrderId
    then CancellationObservation(KindUnknown, None, None)
    else if answer.state == Canceled then CancellationObservation(KindCanceled, Some(Canceled), answer.fill)
    else if answer.state in {Accepted, PartiallyFilled, Filled, Expired}
    then CancellationObservation(KindRefused, Some(answer.state), answer.fill)
    else CancellationObservation(KindUnknown, None, None)
  }

  /** The state a cancellation settles in. */
  function Settlement(pending: Order, answer: Answer): OrderState {
    ResolveCancellation(pending.terms.quantity, pending.Filled(), ClassifyCancel(answer, pending.brokerOrderId)).state
  }

  /** An order is recorded as canceled exactly when the provider says so about this very order and what it
      reports as filled is acceptable and leaves something unfilled; every other answer that is not a
      consistent refusal leaves the outcome unknown, never pending. */
  lemma SettledCanceledExactly(pending: Order, answer: Answer)
    requires OrderOk(pending)
    ensures Settlement(pending, answer) != CancelPending && Settlement(pending, answer) != Submitting
            && Settlement(pending, answer) != Rejected
    ensures Settlement(pending, answer) == Canceled <==>
            && answer.Result? && answer.state == Canceled
            && (answer.brokerOrderId.None? || pending.brokerOrderId.None?
                || answer.brokerOrderId == pending.brokerOrderId)
            && (answer.fill.None? ==> pending.fill.None? || pending.fill.value.quantity.value < pending.terms.quantity)
            && (answer.fill.Some? ==>
                  && AcceptableFill(answer.fill.value, pending.terms.quantity, pending.Filled())
                  && answer.fill.value.quantity.amount.value < pending.terms.quantity)
  {
    var seen := ClassifyCancel(answer, pending.brokerOrderId);
    ResolutionIsLegal(pending.terms.quantity, pending.fill, seen);
    CanceledExactlyWhenUnfilledRemains(pending.terms.quantity, pending.fill, seen);
    hide ResolveCancellation, AcceptableFill, OrderOk;
  }

  /** The provider answered, and not about another broker order. */
  predicate Heard(pending: Order, answer: Answer) {
    && answer.Result?
    && (answer.brokerOrderId.Some? && pending.brokerOrderId.Some? ==> answer.brokerOrderId == pending.brokerOrderId)
  }

  /** What an answer makes of a pending cancellation, said from the answer alone. */
  predicate SettledBy(pending: Order, o: Order, answer: Answer, at: int) {
    && o == pending.(state := o.state, version := pending.version + 1, fill := o.fill, resultCode := o.resultCode,
                     resultSource := o.resultSource, updatedAt := Max(at, pending.updatedAt))
    && (o.state == Unknown ==> o.resultCode == Some("unknown") && o.resultSource == Some(FromSystem))
    && (o.state == Canceled ==> o.resultCode == Some("canceled") && o.resultSource == Some(FromProvider))
    && (o.state != Unknown && o.state != Canceled ==>
          o.resultCode == Some("cancel_rejected") && o.resultSource == Some(FromProvider))
    && o.state in {Canceled, Filled, PartiallyFilled, Accepted, Expired, Unknown}
    && if !Heard(pending, answer) then o.state == Unknown && o.fill == pending.fill
       else
         var ordered, total := pending.terms.quantity, FilledAfter(pending.fill, answer.fill);
         var sound := Trustworthy(ordered, pending.fill, answer.fill);
         && (o.state == Canceled <==> answer.state == Canceled && sound && (total.Some? ==> total.value < ordered))
         && (o.state == Filled <==> answer.state == Filled && sound && answer.fill.Some? && total == Some(ordered))
         && (o.state == PartiallyFilled <==>
               answer.state == PartiallyFilled && sound && total.Some? && 0.0 < total.value < ordered)
         && (o.state == Accepted <==> answer.state == Accepted && pending.fill.None? && answer.fill.None?)
         && (o.state == Expired <==>
               answer.state == Expired && sound && (answer.fill.Some? ==> total.Some? && total.value < ordered))
         && (if answer.state in {Canceled, Accepted, PartiallyFilled, Filled, Expired} && sound && answer.fill.Some?
             then Carries(o.fill, answer.fill) else o.fill == pending.fill)
  }

  lemma AnswerSettles(pending: Order, answer: Answer, at: int)
    requires OrderOk(pending)
    ensures var seen := ClassifyCancel(answer, pending.brokerOrderId);
            var r := ResolveCancellation(pending.terms.quantity, pending.Filled(), seen);
            SettledBy(pending, ResolvedOrder(pending, r, at), answer, at)
  {
    hide ResolveCancellation, AcceptableFill, Trustworthy, FilledAfter;
    var seen := ClassifyCancel(answer, pending.brokerOrderId);
    SettledExactly(pending.terms.quantity, pending.fill, seen);
    SettledFill(pending.terms.quantity, pending.fill, seen);
  }

  /** Some earlier attempt was stamped later than the owner: no answer of the latest-attempt query is the
      owner's row. */
  lemma OlderRowWins(db: Db, k: Id, i: nat, row: Option<nat>, now: int)
    requires Inv(db) && OwnsPending(db.events, k, i) && LatestAttempt(db.events, k, row)
    requires db.events[i].occurredAt == now && exists j ::
               0 <= j < i && IsAttempt(db.events[j], k) && db.events[j].occurredAt > now
    ensures row.Some? && row.value < |db.events| && IsAttempt(db.events[row.value], k)
    ensures db.events[row.value].details.attemptId != db.events[i].details.attemptId
  {
    hide Inv;
    assert db.events[i] in db.events;
    var j :| 0 <= j < i && IsAttempt(db.events[j], k) && db.events[j].occurredAt > now;
    assert db.events[j] in db.events;
    if row.value < i {
      DifferentAttempts(db, k, row.value, i);
    }
  }

  /** A cancellation from begin to finish. It settles its order as the answer says when the clock read more at
      the begin than at every earlier attempt on the order; when it read less than at some earlier attempt, the
      store takes the result for a late one and the order stays pending; equal readings leave it to the
      database's choice among equal rows. */
  method Cancel(store: Store, k: Id, version: int, state: OrderState, attemptId: Id, now: int, actor: Actor,
                answer: Answer, observedAt: int)
    returns (reply: Reply, calls: seq<Id>)
    requires store.Valid()
    modifies store
    ensures store.Valid()
    ensures reply != CancelReply(Some(attemptId), true) ==> store.Contents() == old(store.Contents()) && calls == []
    ensures reply == CancelReply(Some(attemptId), true) ==>
              && calls == [attemptId]
              && k in old(store.orders) && k in store.orders
              && var before, o := old(store.orders)[k], store.orders[k];
              && before.version == version && before.state == state && before.CanCancel()
              && var pending := before.(state := CancelPending, version := version + 1,
                                        updatedAt := Max(now, before.updatedAt));
              && (SettledBy(pending, o, answer, observedAt) || o == pending)
              && ((forall e <- old(store.events) :: IsAttempt(e, k) ==> e.occurredAt < now) ==>
                  SettledBy(pending, o, answer, observedAt))
              && ((exists e <- old(store.events) :: IsAttempt(e, k) && e.occurredAt > now) ==> o == pending)
  {
    hide Inv, Evolves, BeginCancellation, FinishCancellation, LatestAttempt, ResolveCancellation, SettledBy, OrderOk;
    calls := [];
    ghost var before := store.Contents();
    var found;
    reply, found := store.BeginCancellation(k, version, state, attemptId, now, actor);
    BeginCancellationWrites(before, k, version, state, attemptId, now, actor, found);
    if reply != CancelReply(Some(attemptId), true) {
      return;
    }
    calls := [attemptId];
    var seen := ClassifyCancel(answer, store.orders[k].brokerOrderId);
    ghost var pending := store.Contents();
    PendingIsOk(pending, k);
    AnswerSettles(pending.orders[k], answer, observedAt);
    var finished, row := store.FinishCancellation(k, attemptId, seen, observedAt, actor);
    FinishCancellationWrites(pending, k, attemptId, seen, observedAt, actor, row);
    CancelSettles(before, pending, k, version, state, attemptId, now, actor, found, seen, observedAt, row);
  }

  lemma PendingIsOk(db: Db, k: Id)
    requires Inv(db) && k in db.orders
    ensures OrderOk(db.orders[k])
  {
  }

  lemma EarlierRow(events: seq<Event>, grant: seq<Event>, attempt: Event, rest: seq<Event>, all: seq<Event>, k: Id,
                   i: nat)
    requires all == events + grant + [attempt] + rest && IsAttempt(attempt, k)
    requires (forall e <- grant :: e.kind != CancellationRequested)
             && (forall e <- rest :: e.kind != CancellationRequested)
    requires OwnsPending(all, k, i) && exists e <- events :: IsAttempt(e, k) && e.occurredAt > attempt.occurredAt
    ensures all[i] == attempt && exists j ::
              0 <= j < i && IsAttempt(all[j], k) && all[j].occurredAt > attempt.occurredAt
  {
    hide OwnerIsLatest;
    OwnerOfAppended(events, grant, attempt, rest, k);
    var own := |events| + |grant|;
    assert i == own;
    var e :| e in events && IsAttempt(e, k) && e.occurredAt > attempt.occurredAt;
    var j :| 0 <= j < |events| && events[j] == e;
    assert all[j] == e;
  }

  lemma CancelSettles(before: Db, pending: Db, k: Id, version: int, state: OrderState, attemptId: Id, now: int,
                      actor: Actor, found: Option<nat>,
                      seen: CancellationObservation, observedAt: int, row: Option<nat>)
    requires Inv(before) && Inv(pending) && LatestAttempt(before.events, k, found)
             && LatestAttempt(pending.events, k, row)
    requires BeginCancellation(before, k, version, state, attemptId, now, actor, found)
             == (pending, CancelReply(Some(attemptId), true))
    requires k in pending.orders && pending.orders[k].state == CancelPending
    ensures var db' := FinishCancellation(pending, k, attemptId, seen, observedAt, actor, row).0;
            && ((forall e <- before.events :: IsAttempt(e, k) ==> e.occurredAt < now) ==>
                k in db'.orders && db'.orders[k].state != CancelPending)
            && ((exists e <- before.events :: IsAttempt(e, k) && e.occurredAt > now) ==> db' == pending)
  {
    hide Inv, BeginCancellation, FinishCancellation, LatestAttempt, ResolveCancellation, OwnerIsLatest;
    BeginOwnsExactlyWhenClockMoved(before, k, version, state, attemptId, now, actor, found);
    var i: nat :| OwnsPending(pending.events, k, i) && pending.events[i].details.attemptId == attemptId
                  && (OwnerIsLatest(pending.events, k, i) <==>
                      forall e <- before.events :: IsAttempt(e, k) ==> e.occurredAt < now);
    if forall e <- before.events :: IsAttempt(e, k) ==> e.occurredAt < now {
      OwnerFinishesWhenLatest(pending, k, i, seen, observedAt, actor, row);
    }
    if exists e <- before.events :: IsAttempt(e, k) && e.occurredAt > now {
      var rest := BeginCommits(before, k, version, state, attemptId, now, actor, found);
      LaterRowWins(before, pending, rest, k, attemptId, now, actor, i, row);
      FinishChangesExactlyForFoundAttempt(pending, k, attemptId, seen, observedAt, actor, row.value);
    }
  }

  /** When an earlier attempt carries a later time, the store takes another row for the owner's. */
  lemma LaterRowWins(before: Db, pending: Db, rest: seq<Event>, k: Id, attemptId: Id, now: int, actor: Actor, i: nat,
                     row: Option<nat>)
    requires Inv(pending) && k in before.orders && (forall e <- rest :: e.kind != CancellationRequested)
    requires pending.events
             == before.events + SelfAuthorization(k, before.orders[k].draftId, attemptId, CancelAction, actor, now)
                               + [AttemptEvent(before.orders[k], k, attemptId, actor, now)] + rest
    requires OwnsPending(pending.events, k, i) && LatestAttempt(pending.events, k, row)
    requires exists e <- before.events :: IsAttempt(e, k) && e.occurredAt > now
    ensures row.Some? && row.value < |pending.events| && IsAttempt(pending.events[row.value], k)
    ensures pending.events[row.value].details.attemptId != attemptId
  {
    hide Inv, LatestAttempt;
    var grant := SelfAuthorization(k, before.orders[k].draftId, attemptId, CancelAction, actor, now);
    var attempt := AttemptEvent(before.orders[k], k, attemptId, actor, now);
    EarlierRow(before.events, grant, attempt, rest, pending.events, k, i);
    OlderRowWins(pending, k, i, row, now);
  }
}
