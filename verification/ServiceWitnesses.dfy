/** A concrete execution of the services: the guards of their steps can be met, up to both provider calls. */
module ServiceWitnesses {
  import opened Common
  import opened Orders
  import opened Journal
  import opened Database
  import opened Runs
  import opened Services
  import opened ServiceSafety
  import opened Lifecycles
  import opened Witnesses

  ghost predicate Played(ws: seq<World>, acts: seq<Act>) {
    |ws| == |acts| + 1 && IsExecution(ws, acts)
  }

  function Now(ws: seq<World>): World
    requires ws != []
  {
    ws[|ws| - 1]
  }

  lemma Play(ws: seq<World>, acts: seq<Act>, a: Act)
    requires Played(ws, acts) && Enabled(Now(ws), a)
    ensures Played(ws + [Next(Now(ws), a)], acts + [a])
  {
    hide Enabled, Next;
  }

  lemma NothingPlayed()
    ensures Played([START], [])
  {
  }

  /** The draft is saved. */
  lemma DraftSaved() returns (a: Act)
    ensures Enabled(START, a)
    ensures var w := Next(START, a);
            && w.db.orders == map[] && w.db.drafts == map["draft" := DRAFT] && NoAttempts(w.db.events)
            && w.calls == map[] && w.locks == map[] && w.provider == []
  {
    a := Other(TxSaveDraft("draft", DRAFT, Dashboard));
  }

  lemma LockTaken(w: World) returns (a: Act)
    requires w.calls == map[] && w.locks == map[]
    ensures Enabled(w, a)
    ensures Next(w, a) == w.(calls := map[0 := Holding("draft", Dashboard)], locks := map["draft" := 0])
  {
    a := Acquire(0, "draft", Dashboard);
  }

  lemma OrderBegun(w: World) returns (a: Act)
    requires w.calls == map[0 := Holding("draft", Dashboard)]
    requires w.db.orders == map[] && w.db.drafts == map["draft" := DRAFT] && NoAttempts(w.db.events)
    ensures Enabled(w, a)
    ensures var n := Next(w, a);
            && n.db.orders == map["order" := NewOrder("draft", DRAFT, "client", 1)] && NoAttempts(n.db.events)
            && n.calls == map[0 := Begun("draft", "order")] && n.provider == w.provider
  {
    hide BeginSubmission, NoAttempts;
    a := Begin(0, "order", "client", "authorization", 1);
    FirstOrderBegins(w.db, Dashboard);
  }

  lemma HandedToProvider(w: World) returns (a: Act, b: Act)
    requires w.calls == map[0 := Begun("draft", "order")]
    requires w.db.orders == map["order" := NewOrder("draft", DRAFT, "client", 1)]
    ensures Enabled(w, a) && Enabled(Next(w, a), b)
    ensures var n := Next(Next(w, a), b);
            && n.db.orders == map["order" := NewOrder("draft", DRAFT, "client", 1).(submissionStartedAt := Some(2))]
            && n.db.events == w.db.events
            && n.calls == map[0 := Sent("draft", "order")] && n.provider == w.provider + [SubmitCall("draft")]
  {
    hide MarkStarted, Served, LatestAttempt, Answerable;
    FirstOrderIsMarked(w.db);
    a := Mark(0, 2);
    b := Send(0);
  }

  lemma ResultPersisted(w: World) returns (a: Act)
    requires w.calls == map[0 := Sent("draft", "order")] && NoAttempts(w.db.events)
    requires w.db.orders == map["order" := NewOrder("draft", DRAFT, "client", 1).(submissionStartedAt := Some(2))]
    ensures Enabled(w, a)
    ensures var n := Next(w, a);
            AtBroker(n.db, Accepted, 2) && NoAttempts(n.db.events) && n.calls == map[] && n.provider == w.provider
  {
    hide FinishSubmission, NoAttempts, Strip, Stripped, AtBroker;
    BrokerIdCounts();
    FirstOrderIsAccepted(w.db, Dashboard);
    a := Persist(0, ACCEPTED, 3);
  }

  lemma CancellationSent(w: World) returns (a: Act, b: Act)
    requires w.calls == map[] && AtBroker(w.db, Accepted, 2) && NoAttempts(w.db.events)
    ensures Enabled(w, a) && Enabled(Next(w, a), b)
    ensures Next(Next(w, a), b).provider == w.provider + [CancelCall("order", "first")]
  {
    hide BeginCancellation, NoAttempts, LatestAttempt, AttemptLogged, AtBroker, Served, Answerable;
    NothingLogged(w.db.events);
    AtBrokerIsCancelable(w.db, 2);
    AcceptedFields(w.db);
    StartsWhenCurrent(w.db, "order", "first", 10, Dashboard, None);
    a := BeginCancel(0, "order", 2, Accepted, "first", 10, None);
    b := SendCancel(0);
  }

  lemma AcceptedFields(db: Db)
    requires AtBroker(db, Accepted, 2)
    ensures "order" in db.orders && db.orders["order"].version == 2 && db.orders["order"].state == Accepted
  {
  }

  /** An execution in which the provider is asked to submit a draft, accepts it, and is then asked to cancel
      the order. */
  lemma SomeExecutionSubmitsAndCancels() returns (ws: seq<World>, acts: seq<Act>)
    ensures ws != [] && IsExecution(ws, acts)
    ensures Now(ws).provider == [SubmitCall("draft"), CancelCall("order", "first")]
  {
    hide IsExecution, Enabled, Next, NoAttempts, AtBroker;
    NothingPlayed();
    ws, acts := [START], [];
    var a := DraftSaved();
    ws, acts := PlayOn(ws, acts, a);
    a := LockTaken(Now(ws));
    ws, acts := PlayOn(ws, acts, a);
    a := OrderBegun(Now(ws));
    ws, acts := PlayOn(ws, acts, a);
    var b;
    a, b := HandedToProvider(Now(ws));
    ws, acts := PlayOn(ws, acts, a);
    ws, acts := PlayOn(ws, acts, b);
    a := ResultPersisted(Now(ws));
    ws, acts := PlayOn(ws, acts, a);
    a, b := CancellationSent(Now(ws));
    ws, acts := PlayOn(ws, acts, a);
    ws, acts := PlayOn(ws, acts, b);
  }

  lemma PlayOn(ws: seq<World>, acts: seq<Act>, a: Act) returns (ws': seq<World>, acts': seq<Act>)
    requires Played(ws, acts) && Enabled(Now(ws), a)
    ensures Played(ws', acts') && Now(ws') == Next(Now(ws), a)
  {
    hide IsExecution, Enabled, Next;
    Play(ws, acts, a);
    ws', acts' := ws + [Next(Now(ws), a)], acts + [a];
  }
}
