/** Listing the audit log page by page while transactions append to it. */
module AuditTrail {
  import opened Common
  import opened Orders
  import opened Journal
  import opened Database
  import opened Invariants
  import opened Runs
  import opened Pagination

  /** The columns of the event written n-th that the model's events do not have. */
  datatype Columns = Columns(id: nat -> Id, account: nat -> Option<string>)

  datatype Subject = Everything | OfOrder(k: Id) | OfDraft(draftId: Id)

  datatype AuditFilters = AuditFilters(subject: Subject, accountId: Option<string>, provider: Option<string>,
                                       symbol: Option<string>, states: set<OrderState>,
                                       startDay: Option<int>, endDay: Option<int>)

  /** The provider and symbol of an event are those of its order, or else of its draft. */
  function TermsOf(db: Db, e: Event): Option<Terms> {
    if e.orderId.Some? && e.orderId.value in db.orders then Some(db.orders[e.orderId.value].terms)
    else if e.draftId.Some? && e.draftId.value in db.drafts then Some(db.drafts[e.draftId.value].terms)
    else None
  }

  /** Asking for an order also shows the events of its draft. */
  predicate Concerns(db: Db, subject: Subject, e: Event) {
    match subject
    case Everything => true
    case OfOrder(k) => k in db.orders && (e.orderId == Some(k) || e.draftId == Some(db.orders[k].draftId))
    case OfDraft(d) => e.draftId == Some(d)
  }

  predicate HasNames(f: AuditFilters, casing: Casing, terms: Option<Terms>) {
    && (f.provider.Some? ==> terms.Some? && Lower(terms.value.provider) == casing.fold(f.provider.value))
    && (f.symbol.Some? ==> terms.Some? && Upper(terms.value.symbol) == casing.upper(f.symbol.value))
  }

  predicate InStatesAndDays(f: AuditFilters, e: Event) {
    && (f.states != {} ==> e.next.Some? && e.next.value in f.states)
    && (f.startDay.Some? ==> f.startDay.value * DAY <= e.occurredAt)
    && (f.endDay.Some? ==> e.occurredAt < (f.endDay.value + 1) * DAY)
  }

  /** Does a page read from this database show the event written n-th? */
  predicate Shows(db: Db, f: AuditFilters, casing: Casing, columns: Columns, n: nat)
    requires n < |db.events|
  {
    var e := db.events[n];
    && Concerns(db, f.subject, e)
    && (f.accountId.Some? ==> columns.account(n) == f.accountId)
    && HasNames(f, casing, TermsOf(db, e))
    && InStatesAndDays(f, e)
  }

  /** Which events a page shows, filter by filter. */
  lemma ShowsExactly(db: Db, f: AuditFilters, casing: Casing, columns: Columns, n: nat)
    requires n < |db.events|
    ensures var e := db.events[n];
            var byOrder := e.orderId.Some? && e.orderId.value in db.orders;
            var byDraft := !byOrder && e.draftId.Some? && e.draftId.value in db.drafts;
            Shows(db, f, casing, columns, n) <==>
              && (f.subject.OfOrder? ==>
                    && f.subject.k in db.orders
                    && (e.orderId == Some(f.subject.k)
                        || e.draftId == Some(db.orders[f.subject.k].draftId)))
              && (f.subject.OfDraft? ==> e.draftId == Some(f.subject.draftId))
              && (f.accountId.Some? ==> columns.account(n) == f.accountId)
              && (f.provider.Some? || f.symbol.Some? ==> byOrder || byDraft)
              && (byOrder ==> NamedAs(f, casing, db.orders[e.orderId.value].terms))
              && (byDraft ==> NamedAs(f, casing, db.drafts[e.draftId.value].terms))
              && (f.states != {} ==> e.next.Some? && e.next.value in f.states)
              && (forall day | f.startDay == Some(day) :: day * DAY <= e.occurredAt)
              && (forall day | f.endDay == Some(day) :: e.occurredAt < day * DAY + DAY)
  {
  }

  ghost predicate NamedAs(f: AuditFilters, casing: Casing, terms: Terms) {
    && (forall name | f.provider == Some(name) :: Lower(terms.provider) == casing.fold(name))
    && (forall name | f.symbol == Some(name) :: Upper(terms.symbol) == casing.upper(name))
  }

  function RowKey(db: Db, columns: Columns, n: nat): Key
    requires n < |db.events|
  {
    Key(db.events[n].occurredAt, columns.id(n))
  }

  function Listing(db: Db, f: AuditFilters, casing: Casing, columns: Columns): set<Key> {
    set n: nat | n < |db.events| && Shows(db, f, casing, columns, n) :: RowKey(db, columns, n)
  }

  /** Moments of a run at which the pages are read, in order. */
  ghost predicate Moments(h: seq<Db>, moments: seq<nat>) {
    && moments != []
    && (forall i :: 0 <= i < |moments| ==> moments[i] < |h|)
    && (forall i, j :: 0 <= i <= j < |moments| ==> moments[i] <= moments[j])
  }

  ghost function Listings(h: seq<Db>, moments: seq<nat>, f: AuditFilters, casing: Casing,
                          columns: Columns): (tables: seq<set<Key>>)
    requires Moments(h, moments)
    ensures |tables| == |moments|
    ensures forall i :: 0 <= i < |moments| ==> tables[i] == Listing(h[moments[i]], f, casing, columns)
  {
    seq(|moments|, i requires 0 <= i < |moments| => Listing(h[moments[i]], f, casing, columns))
  }

  // ---------- What an event belongs to never changes ----------

  lemma {:induction false} HistoryDrafts(h: seq<Db>, i: nat, j: nat, d: Id)
    requires Healthy(h) && i <= j < |h| && d in h[i].drafts
    ensures d in h[j].drafts && h[j].drafts[d] == h[i].drafts[d]
    decreases j
  {
    hide Inv, OrdersEvolve, RequestsEvolve, CodesEvolve, GatesEvolve;
    if i < j {
      HistoryDrafts(h, i, j - 1, d);
      assert Evolves(h[j - 1], h[j]);
    }
  }

  lemma EventIsGrounded(db: Db, e: Event)
    requires Inv(db) && e in db.events && e.orderId.Some?
    ensures e.orderId.value in db.orders
  {
    hide OrdersOk, RequestsOk, CodesOk, AttemptsOk, GatesOk;
  }

  /** The order or draft that gives an event its names keeps them. */
  lemma TermsStay(h: seq<Db>, i: nat, j: nat, e: Event)
    requires Healthy(h) && i <= j < |h| && e in h[i].events && TermsOf(h[i], e).Some?
    ensures TermsOf(h[j], e) == TermsOf(h[i], e)
  {
    hide Inv, Evolves;
    if e.orderId.Some? {
      EventIsGrounded(h[i], e);
      HistoryDescends(h, i, j, e.orderId.value);
    } else {
      HistoryDrafts(h, i, j, e.draftId.value);
    }
  }

  lemma ConcernStays(h: seq<Db>, i: nat, j: nat, subject: Subject, e: Event)
    requires Healthy(h) && i <= j < |h| && Concerns(h[i], subject, e)
    ensures Concerns(h[j], subject, e)
  {
    hide Inv, Evolves, Healthy;
    if subject.OfOrder? {
      HistoryDescends(h, i, j, subject.k);
    }
  }

  /** What a page shows, every later page would show. */
  lemma ShownStaysShown(h: seq<Db>, i: nat, j: nat, f: AuditFilters, casing: Casing, columns: Columns, n: nat)
    requires Healthy(h) && i <= j < |h| && n < |h[i].events| && Shows(h[i], f, casing, columns, n)
    ensures n < |h[j].events| && h[j].events[n] == h[i].events[n] && Shows(h[j], f, casing, columns, n)
  {
    hide Inv, Evolves, Healthy, TermsOf, Concerns, InStatesAndDays;
    var e := h[i].events[n];
    HistoryEvents(h, i, j);
    ConcernStays(h, i, j, f.subject, e);
    if f.provider.Some? || f.symbol.Some? {
      TermsStay(h, i, j, e);
    }
  }

  lemma ListingsGrow(h: seq<Db>, moments: seq<nat>, f: AuditFilters, casing: Casing, columns: Columns)
    requires Healthy(h) && Moments(h, moments)
    ensures OnlyGrows(Listings(h, moments, f, casing, columns))
  {
    hide Healthy, Shows;
    var tables := Listings(h, moments, f, casing, columns);
    forall i, j | 0 <= i <= j < |tables| ensures tables[i] <= tables[j] {
      forall k <- tables[i] ensures k in tables[j] {
        var n: nat :| n < |h[moments[i]].events| && Shows(h[moments[i]], f, casing, columns, n)
                      && RowKey(h[moments[i]], columns, n) == k;
        ShownStaysShown(h, moments[i], moments[j], f, casing, columns, n);
        assert RowKey(h[moments[j]], columns, n) == k;
      }
    }
  }

  /** In any run, while other transactions commit between the pages, a reader of the audit log who follows the
      cursors sees events newest first, only such as the filters let through, and by the end each event that
      was there at the first page exactly once. */
  lemma AuditReaderMissesNothing(h: seq<Db>, txs: seq<Tx>, moments: seq<nat>, f: AuditFilters, casing: Casing,
                                 columns: Columns, limit: nat)
    requires IsRun(h, txs) && Moments(h, moments) && limit > 0
    ensures var (keys, done) := Read(Listings(h, moments, f, casing, columns), limit, None);
            && Descending(keys)
            && (forall k <- keys :: k in Listing(h[moments[|moments| - 1]], f, casing, columns))
            && (done ==> forall n: nat | n < |h[moments[0]].events| && Shows(h[moments[0]], f, casing, columns, n) ::
                  multiset(keys)[RowKey(h[moments[0]], columns, n)] == 1)
  {
    hide IsRun, Read, Precedes, Shows, Healthy, Descending, OnlyGrows;
    RunIsHealthy(h, txs);
    ListingsGrow(h, moments, f, casing, columns);
    var tables := Listings(h, moments, f, casing, columns);
    ReadShowsEveryRowOnce(tables, limit, None);
    var (keys, done) := Read(tables, limit, None);
    if done {
      forall n: nat | n < |h[moments[0]].events| && Shows(h[moments[0]], f, casing, columns, n)
        ensures multiset(keys)[RowKey(h[moments[0]], columns, n)] == 1
      {
        assert RowKey(h[moments[0]], columns, n) in tables[0];
        ReaderSeesOnce(tables, limit, RowKey(h[moments[0]], columns, n));
      }
    }
  }
}
