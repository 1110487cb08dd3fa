/** Which cancellation attempt owns a pending cancellation. The store answers "the attempt with the
    largest time"; the owner is the attempt that was inserted last. */
module AttemptOwnership {
  import opened Common
  import opened Orders
  import opened Journal
  import opened Database
  import opened Invariants
  import opened TableLemmas
  import opened WriteSets

  /** Row i holds the attempt that began the current cancellation of k. */
  ghost predicate OwnsPending(events: seq<Event>, k: Id, i: nat) {
    && i < |events| && IsAttempt(events[i], k)
    && forall j :: i < j < |events| ==> !IsAttempt(events[j], k)
  }

  /** The clock read more at the owner's begin than at any earlier begin for the same order. */
  ghost predicate OwnerIsLatest(events: seq<Event>, k: Id, i: nat)
    requires i < |events|
  {
    forall j :: 0 <= j < i && IsAttempt(events[j], k) ==> events[j].occurredAt < events[i].occurredAt
  }

  /** Whether a finish by `attemptId` takes effect under some answer to "the latest attempt of k". */
  ghost predicate MayFinish(db: Db, k: Id, attemptId: Id, seen: CancellationObservation, now: int, actor: Actor) {
    exists found: Option<nat> ::
      LatestAttempt(db.events, k, found) && FinishCancellation(db, k, attemptId, seen, now, actor, found).0 != db
  }

  lemma FinishChangesExactlyForFoundAttempt(db: Db, k: Id, attemptId: Id, seen: CancellationObservation, now: int,
                                            actor: Actor, found: nat)
    requires Inv(db) && k in db.orders && db.orders[k].state == CancelPending
             && LatestAttempt(db.events, k, Some(found))
    ensures FinishCancellation(db, k, attemptId, seen, now, actor, Some(found)).0 != db <==>
            db.events[found].details.attemptId == attemptId
  {
    var o := db.orders[k];
    assert OrderOk(o);
    ResolutionIsLegal(o.terms.quantity, o.fill, seen);
    hide Inv, ResolveCancellation;
    FinishCancellationWrites(db, k, attemptId, seen, now, actor, Some(found));
    hide Commit;
  }

  /** Some attempt has the largest time. */
  lemma {:induction false} SomeLatest(events: seq<Event>, k: Id, n: nat) returns (i: nat)
    requires n <= |events| && exists j :: 0 <= j < n && IsAttempt(events[j], k)
    ensures i < n && IsAttempt(events[i], k)
    ensures forall j :: 0 <= j < n && IsAttempt(events[j], k) ==> events[j].occurredAt <= events[i].occurredAt
    decreases n
  {
    if exists j :: 0 <= j < n - 1 && IsAttempt(events[j], k) {
      i := SomeLatest(events, k, n - 1);
      if IsAttempt(events[n - 1], k) && events[n - 1].occurredAt > events[i].occurredAt {
        i := n - 1;
      }
    } else {
      i := n - 1;
    }
  }

  /** Late results are harmless exactly when the clock moved forward between begins: no attempt but the
      owner can finish the pending cancellation if and only if the owner's time is strictly the
      largest. When a begin was stamped no later than an earlier one, a late result of an older attempt
      can be taken for the owner's. */
  lemma OnlyOwnerFinishesExactlyWhenLatest(db: Db, k: Id, i: nat, seen: CancellationObservation, now: int, actor: Actor)
    requires Inv(db) && k in db.orders && db.orders[k].state == CancelPending && OwnsPending(db.events, k, i)
    ensures (forall a: Id :: a != db.events[i].details.attemptId ==> !MayFinish(db, k, a, seen, now, actor))
            <==> OwnerIsLatest(db.events, k, i)
  {
    hide Inv, FinishCancellation;
    var owner := db.events[i].details.attemptId;
    if OwnerIsLatest(db.events, k, i) {
      forall a: Id | a != owner ensures !MayFinish(db, k, a, seen, now, actor) {
        forall found: Option<nat> | LatestAttempt(db.events, k, found)
          ensures FinishCancellation(db, k, a, seen, now, actor, found).0 == db
        {
          assert db.events[i] in db.events;
          assert found.Some?;
          assert found.value == i;
          FinishChangesExactlyForFoundAttempt(db, k, a, seen, now, actor, i);
        }
      }
    } else {
      var j := SomeLatest(db.events, k, i);
      var a := db.events[j].details.attemptId;
      assert LatestAttempt(db.events, k, Some(j));
      FinishChangesExactlyForFoundAttempt(db, k, a, seen, now, actor, j);
      DifferentAttempts(db, k, j, i);
      assert MayFinish(db, k, a, seen, now, actor);
    }
  }

  lemma DifferentAttempts(db: Db, k: Id, j: nat, i: nat)
    requires Inv(db) && j < i < |db.events| && IsAttempt(db.events[j], k) && IsAttempt(db.events[i], k)
    ensures db.events[j].details.attemptId != db.events[i].details.attemptId
  {
    hide JournalOk, OrdersOk, RequestsOk, CodesOk, GatesOk;
  }

  lemma FoundIsOwner(events: seq<Event>, k: Id, i: nat, found: Option<nat>)
    requires OwnsPending(events, k, i) && OwnerIsLatest(events, k, i) && LatestAttempt(events, k, found)
    ensures found == Some(i)
  {
    assert events[i] in events;
  }

  /** And the owner's own result is applied, whatever row the store returns, under the same condition. */
  lemma OwnerFinishesWhenLatest(db: Db, k: Id, i: nat, seen: CancellationObservation, now: int, actor: Actor,
                                found: Option<nat>)
    requires Inv(db) && k in db.orders && db.orders[k].state == CancelPending && OwnsPending(db.events, k, i)
    requires OwnerIsLatest(db.events, k, i) && LatestAttempt(db.events, k, found)
    ensures var db' := FinishCancellation(db, k, db.events[i].details.attemptId, seen, now, actor, found).0;
            k in db'.orders && db'.orders[k].version == db.orders[k].version + 1 && db'.orders[k].state != CancelPending
  {
    hide Inv, FinishCancellation, ResolveCancellation, OrderOk;
    FoundIsOwner(db.events, k, i, found);
    FinishChangesExactlyForFoundAttempt(db, k, db.events[i].details.attemptId, seen, now, actor, i);
    FinishCancellationWrites(db, k, db.events[i].details.attemptId, seen, now, actor, found);
  }

  /** The condition in the caller's hands: a begin makes its attempt the strictly latest one exactly
      when its clock reading exceeds that of every earlier attempt of the order. */
  lemma BeginOwnsExactlyWhenClockMoved(db: Db, k: Id, version: int, state: OrderState, attemptId: Id, now: int,
                                       actor: Actor, found: Option<nat>)
    requires Inv(db) && LatestAttempt(db.events, k, found)
    requires BeginCancellation(db, k, version, state, attemptId, now, actor, found).1
             == CancelReply(Some(attemptId), true)
    ensures var db' := BeginCancellation(db, k, version, state, attemptId, now, actor, found).0;
            exists i: nat ::
              && OwnsPending(db'.events, k, i) && db'.events[i].details.attemptId == attemptId
              && (OwnerIsLatest(db'.events, k, i) <==> forall e <- db.events :: IsAttempt(e, k) ==> e.occurredAt < now)
  {
    hide BeginCancellation, LatestAttempt, Inv, OwnsPending, OwnerIsLatest, AttemptLogged;
    var db' := BeginCancellation(db, k, version, state, attemptId, now, actor, found).0;
    var rest := BeginCommits(db, k, version, state, attemptId, now, actor, found);
    var grant := SelfAuthorization(k, db.orders[k].draftId, attemptId, CancelAction, actor, now);
    OwnerOfAppended(db.events, grant, AttemptEvent(db.orders[k], k, attemptId, actor, now), rest, k);
    assert OwnsPending(db'.events, k, |db.events| + |grant|);
  }

  /** A new attempt among quiet events owns the order. */
  lemma OwnerOfAppended(events: seq<Event>, grant: seq<Event>, attempt: Event, rest: seq<Event>, k: Id)
    requires IsAttempt(attempt, k)
    requires (forall e <- grant :: e.kind != CancellationRequested)
             && (forall e <- rest :: e.kind != CancellationRequested)
    ensures var all, i := events + grant + [attempt] + rest, |events| + |grant|;
            && OwnsPending(all, k, i) && all[i] == attempt
            && (OwnerIsLatest(all, k, i) <==>
                forall e <- events :: IsAttempt(e, k) ==> e.occurredAt < attempt.occurredAt)
  {
    var all, i := events + grant + [attempt] + rest, |events| + |grant|;
    assert forall j :: |events| <= j < i ==> all[j] == grant[j - |events|];
    assert forall j :: i < j < |all| ==> all[j] == rest[j - i - 1];
    assert forall j :: 0 <= j < |events| ==> all[j] == events[j];
  }

  /** The events of a begin, split around its attempt. */
  lemma BeginCommits(db: Db, k: Id, version: int, state: OrderState, attemptId: Id, now: int, actor: Actor,
                     found: Option<nat>)
    returns (rest: seq<Event>)
    requires LatestAttempt(db.events, k, found)
    requires BeginCancellation(db, k, version, state, attemptId, now, actor, found).1
             == CancelReply(Some(attemptId), true)
    ensures k in db.orders && !AttemptLogged(db.events, k, attemptId)
    ensures forall e <- rest :: e.kind != CancellationRequested
    ensures var o := db.orders[k];
            BeginCancellation(db, k, version, state, attemptId, now, actor, found).0.events
            == db.events + SelfAuthorization(k, o.draftId, attemptId, CancelAction, actor, now)
               + [AttemptEvent(o, k, attemptId, actor, now)] + rest
  {
    hide Commit, LatestAttempt, InvalidationEvents;
    var o := db.orders[k];
    var o' := PendingOrder(o, now);
    var before := SelfAuthorization(k, o.draftId, attemptId, CancelAction, actor, now)
      + [AttemptEvent(o, k, attemptId, actor, now)];
    var status := [OrderEvent(o', k, StatusTransition, actor, Some(o.state), Some(CancelPending), None,
                              Status(FromLocal, o'.fill), o'.updatedAt)];
    rest := CommitEvents(db, k, o', before, CancellationStarted, actor, status);
    assert db.events + before + rest
        == db.events + SelfAuthorization(k, o.draftId, attemptId, CancelAction, actor, now)
           + [AttemptEvent(o, k, attemptId, actor, now)] + rest;
  }

  lemma CommitEvents(db: Db, k: Id, o': Order, before: seq<Event>, reason: Reason, actor: Actor, status: seq<Event>)
    returns (rest: seq<Event>)
    requires forall e <- status :: e.kind != CancellationRequested
    ensures Commit(db, k, o', before, reason, actor, status).events == db.events + before + rest
    ensures forall e <- rest :: e.kind != CancellationRequested
  {
    var written := db.(orders := db.orders[k := o'], events := db.events + before);
    var withdrawn := InvalidationEvents(o', k, ActiveRequests(written, k, None), reason, o'.updatedAt, actor);
    InvalidationEventsAreInert(o', k, ActiveRequests(written, k, None), reason, o'.updatedAt, actor);
    hide InvalidationEvents;
    rest := withdrawn + status;
  }
}
