/** Keyset pages of orders and audit events, newest first. */
module Pagination {
  import opened Common
  import opened Orders
  import opened Journal
  import opened Database
  import opened Scheduler

  /** A row's place in a listing: its time, then its identifier. */
  datatype Key = Key(at: int, id: Id)

  predicate Precedes(a: Key, b: Key) {
    b.at < a.at || (b.at == a.at && TextBefore(b.id, a.id))
  }

  lemma PrecedesIsTotal(a: Key, b: Key, c: Key)
    ensures !Precedes(a, a)
    ensures Precedes(a, b) && Precedes(b, c) ==> Precedes(a, c)
    ensures a != b ==> Precedes(a, b) || Precedes(b, a)
  {
    hide TextBefore;
    TextOrder(c.id, b.id, a.id);
    TextOrder(a.id, b.id, a.id);
  }

  /** Later, or at the same time and with the greater identifier. */
  ghost predicate Newer(a: Key, b: Key) {
    a.at > b.at || (a.at == b.at && SmallerText(b.id, a.id))
  }

  lemma PrecedesMeans(a: Key, b: Key)
    ensures Precedes(a, b) <==> Newer(a, b)
  {
    TextBeforeMeans(b.id, a.id);
    hide TextBefore, SmallerText;
  }

  ghost predicate Descending(keys: seq<Key>) {
    forall i, j :: 0 <= i < j < |keys| ==> Precedes(keys[i], keys[j])
  }

  // ---------- The plain sorted list ----------

  predicate IsFirst(rows: set<Key>, k: Key) {
    k in rows && forall other <- rows :: other != k ==> Precedes(k, other)
  }

  lemma {:induction false} SomeFirst(rows: set<Key>) returns (first: Key)
    requires rows != {}
    ensures IsFirst(rows, first)
    decreases |rows|
  {
    hide Precedes;
    var k :| k in rows;
    var rest := rows - {k};
    first := k;
    if rest != {} {
      var other := SomeFirst(rest);
      PrecedesIsTotal(k, other, k);
      if Precedes(other, k) {
        first := other;
      } else {
        forall r <- rest ensures Precedes(k, r) {
          PrecedesIsTotal(k, other, r);
        }
      }
    }
    assert rows == rest + {k};
  }

  lemma FirstExists(rows: set<Key>)
    ensures rows != {} ==> exists k :: IsFirst(rows, k)
  {
    if rows != {} {
      var k := SomeFirst(rows);
    }
  }

  /** All rows, newest first. */
  ghost function Sorted(rows: set<Key>): (keys: seq<Key>)
    ensures |keys| == |rows|
  {
    if rows == {} then []
    else
      FirstExists(rows);
      var k :| IsFirst(rows, k);
      [k] + Sorted(rows - {k})
  }

  lemma SortedHead(rows: set<Key>) returns (k: Key)
    requires rows != {}
    ensures k in rows && forall other <- rows - {k} :: Precedes(k, other)
    ensures Sorted(rows) == [k] + Sorted(rows - {k})
  {
    FirstExists(rows);
    hide Precedes;
    k :| IsFirst(rows, k) && Sorted(rows) == [k] + Sorted(rows - {k});
  }

  lemma FirstAhead(rows: set<Key>, k: Key, rest: seq<Key>)
    requires k in rows && (forall other <- rows - {k} :: Precedes(k, other))
    requires Descending(rest) && forall r :: r in rest <==> r in rows - {k}
    ensures Descending([k] + rest) && forall r :: r in [k] + rest <==> r in rows
  {
    hide Precedes;
    assert forall j :: 0 <= j < |rest| ==> rest[j] in rest;
  }

  lemma {:induction false} SortedLists(rows: set<Key>)
    ensures forall k :: k in Sorted(rows) <==> k in rows
    ensures Descending(Sorted(rows))
    decreases |rows|
  {
    hide Precedes;
    if rows != {} {
      hide Descending;
      var k := SortedHead(rows);
      hide Sorted;
      SortedLists(rows - {k});
      FirstAhead(rows, k, Sorted(rows - {k}));
    } else {
      assert Sorted(rows) == [];
    }
  }

  /** There is only one way to list the same rows in this order. */
  lemma {:induction false} DescendingIsUnique(a: seq<Key>, b: seq<Key>)
    requires Descending(a) && Descending(b) && (forall k :: k in a <==> k in b)
    ensures a == b
    decreases |a|
  {
    hide Precedes;
    if a != [] {
      assert a[0] in a && a[0] in b;
    }
    if b != [] {
      assert b[0] in b && b[0] in a;
    }
    if a != [] && b != [] {
      PrecedesIsTotal(a[0], b[0], a[0]);
      TailMembers(a);
      TailMembers(b);
      DescendingIsUnique(a[1..], b[1..]);
    }
  }

  lemma TailMembers(a: seq<Key>)
    requires a != [] && Descending(a)
    ensures Descending(a[1..]) && forall k :: k in a[1..] <==> k in a && k != a[0]
  {
    hide Precedes;
    assert a == [a[0]] + a[1..];
    PrecedesIsTotal(a[0], a[0], a[0]);
    forall k | k in a[1..] ensures k != a[0] {
      var i :| 0 <= i < |a[1..]| && a[1..][i] == k;
      assert Precedes(a[0], a[i + 1]);
    }
  }

  // ---------- Pages ----------

  /** The rows a page may still show. */
  function Beyond(rows: set<Key>, after: Option<Key>): set<Key> {
    set k | k in rows && (after.None? || Precedes(after.value, k))
  }

  datatype Page = Page(items: seq<Key>, next: Option<Key>)

  ghost function PageOf(rows: set<Key>, limit: nat, after: Option<Key>): Page
    requires limit > 0
  {
    var all := Sorted(Beyond(rows, after));
    if |all| > limit then Page(all[..limit], Some(all[limit - 1])) else Page(all, None)
  }

  /** One page: at most one row more than asked for is fetched, to learn whether there is a next page. */
  method ListPage(rows: set<Key>, limit: nat, after: Option<Key>) returns (page: Page)
    requires limit > 0
    ensures page == PageOf(rows, limit, after)
  {
    hide Beyond, Precedes, Sorted;
    var matching := Beyond(rows, after);
    ghost var all := Sorted(matching);
    var fetched := Fetch(matching, limit + 1);
    var hasMore := |fetched| > limit;
    if hasMore {
      fetched := fetched[..limit];
      assert fetched == all[..limit];
    }
    var next := None;
    if hasMore && fetched != [] {
      next := Some(fetched[|fetched| - 1]);
    }
    page := Page(fetched, next);
  }

  /** The ordered query with a limit. */
  method Fetch(rows: set<Key>, n: nat) returns (keys: seq<Key>)
    ensures keys == if |rows| <= n then Sorted(rows) else Sorted(rows)[..n]
  {
    hide Precedes, Sorted;
    keys := [];
    var rest := rows;
    ghost var all := Sorted(rows);
    while rest != {} && |keys| < n
      invariant |keys| <= n && |keys| <= |all| && keys == all[..|keys|]
      invariant all[|keys|..] == Sorted(rest)
    {
      FirstExists(rest);
      var k :| IsFirst(rest, k);
      SortedStarts(rest, k);
      assert all[|keys|] == k && all[|keys| + 1..] == all[|keys|..][1..];
      keys := keys + [k];
      rest := rest - {k};
    }
    assert rest == {} ==> |all[|keys|..]| == 0;
  }

  lemma SortedStarts(rows: set<Key>, k: Key)
    requires IsFirst(rows, k)
    ensures Sorted(rows) == [k] + Sorted(rows - {k})
  {
    hide Precedes, IsFirst, Sorted;
    SortedLists(rows);
    SortedLists(rows - {k});
    var rest := Sorted(rows - {k});
    var b := [k] + rest;
    assert forall j :: 0 <= j < |rest| ==> rest[j] in rest;
    FirstPrecedes(rows, k);
    DescendingIsUnique(Sorted(rows), b);
  }

  lemma FirstPrecedes(rows: set<Key>, k: Key)
    requires IsFirst(rows, k)
    ensures k in rows && forall other <- rows - {k} :: Precedes(k, other)
  {
  }

  // ---------- Following the cursors ----------

  /** Reading pages one after another, each from the table as it is by then; `done` when a page has no
      next cursor. */
  ghost function Read(tables: seq<set<Key>>, limit: nat, after: Option<Key>): (seq<Key>, bool)
    requires limit > 0
  {
    if tables == [] then ([], false)
    else
      var page := PageOf(tables[0], limit, after);
      if page.next.None? then (page.items, true)
      else var (rest, done) := Read(tables[1..], limit, page.next); (page.items + rest, done)
  }

  ghost predicate OnlyGrows(tables: seq<set<Key>>) {
    forall i, j :: 0 <= i <= j < |tables| ==> tables[i] <= tables[j]
  }

  lemma PageParts(rows: set<Key>, limit: nat, after: Option<Key>)
    requires limit > 0
    ensures var page := PageOf(rows, limit, after);
            && Descending(page.items)
            && (forall k <- page.items :: k in Beyond(rows, after))
            && (page.next.None? ==> forall k <- Beyond(rows, after) :: k in page.items)
            && (page.next.Some? ==>
                  && |page.items| == limit && page.items[limit - 1] == page.next.value
                  && forall k <- Beyond(rows, after) :: k in page.items || Precedes(page.next.value, k))
  {
    hide Precedes, Beyond, Sorted;
    var all := Sorted(Beyond(rows, after));
    SortedLists(Beyond(rows, after));
    if |all| > limit {
      assert all == all[..limit] + all[limit..];
      forall k <- all ensures k in all[..limit] || Precedes(all[limit - 1], k) {
        var i :| 0 <= i < |all| && all[i] == k;
        assert i < limit ==> all[..limit][i] == k;
      }
    }
  }

  lemma JoinDescending(a: seq<Key>, b: seq<Key>)
    requires Descending(a) && Descending(b) && a != [] && forall k <- b :: Precedes(a[|a| - 1], k)
    ensures Descending(a + b)
  {
    hide Precedes;
    forall i, j | 0 <= i < j < |a + b| ensures Precedes((a + b)[i], (a + b)[j]) {
      if i < |a| <= j {
        assert b[j - |a|] in b;
        PrecedesIsTotal(a[i], a[|a| - 1], b[j - |a|]);
      }
    }
  }

  lemma BeyondCursor(rows: set<Key>, after: Option<Key>, cursor: Key, k: Key)
    requires after.Some? ==> Precedes(after.value, cursor)
    ensures k in Beyond(rows, Some(cursor)) ==> k in Beyond(rows, after) && Precedes(cursor, k)
    ensures k in rows && Precedes(cursor, k) ==> k in Beyond(rows, Some(cursor))
  {
    if after.Some? {
      PrecedesIsTotal(after.value, cursor, k);
    }
    hide Precedes;
  }

  /** Following next cursors over an append-only table: no row is ever shown twice, rows come in order,
      and once no cursor is left every row that was there at the start has been shown. */
  lemma {:induction false} ReadShowsEveryRowOnce(tables: seq<set<Key>>, limit: nat, after: Option<Key>)
    requires limit > 0 && OnlyGrows(tables) && tables != []
    ensures var (keys, done) := Read(tables, limit, after);
            && Descending(keys)
            && (forall k <- keys :: k in Beyond(tables[|tables| - 1], after))
            && (done ==> forall k <- Beyond(tables[0], after) :: k in keys)
    decreases |tables|
  {
    hide Precedes, PageOf, Beyond;
    var page := PageOf(tables[0], limit, after);
    var (keys, done) := Read(tables, limit, after);
    PageParts(tables[0], limit, after);
    LaterBeyond(tables, after);
    if page.next.Some? {
      var cursor := page.next.value;
      assert page.items[limit - 1] in page.items;
      assert after.Some? ==> Precedes(after.value, cursor) by { IsBeyond(tables[0], after, cursor); }
      var later := tables[1..];
      if later != [] {
        ReadShowsEveryRowOnce(later, limit, page.next);
        var rest := Read(later, limit, page.next).0;
        forall k: Key
          ensures k in Beyond(tables[|tables| - 1], Some(cursor)) ==>
                    k in Beyond(tables[|tables| - 1], after) && Precedes(cursor, k)
          ensures k in later[0] && Precedes(cursor, k) ==> k in Beyond(later[0], Some(cursor))
        {
          BeyondCursor(tables[|tables| - 1], after, cursor, k);
          BeyondCursor(later[0], after, cursor, k);
        }
        JoinDescending(page.items, rest);
        forall k <- Beyond(tables[0], after) | done ensures k in keys {
          if k !in page.items {
            IsBeyond(tables[0], after, k);
            assert k in later[0];
          }
        }
      } else {
        assert Read(later, limit, page.next) == ([], false);
        assert keys == page.items;
      }
    }
  }

  lemma IsBeyond(rows: set<Key>, after: Option<Key>, k: Key)
    requires k in Beyond(rows, after)
    ensures k in rows && (after.Some? ==> Precedes(after.value, k))
  {
  }

  lemma LaterBeyond(tables: seq<set<Key>>, after: Option<Key>)
    requires OnlyGrows(tables) && tables != []
    ensures Beyond(tables[0], after) <= Beyond(tables[|tables| - 1], after)
  {
    hide Precedes;
  }

  // ---------- A table at rest ----------

  ghost function Repeat(rows: set<Key>, n: nat): (tables: seq<set<Key>>)
    ensures |tables| == n && forall i :: 0 <= i < n ==> tables[i] == rows
  {
    seq(n, _ => rows)
  }

  /** How many pages it takes: reading n pages ends exactly when they have room for all remaining rows. */
  lemma {:induction false} PagesNeeded(rows: set<Key>, n: nat, limit: nat, after: Option<Key>)
    requires limit > 0 && n > 0
    ensures Read(Repeat(rows, n), limit, after).1 <==> |Beyond(rows, after)| <= n * limit
    decreases n
  {
    hide Precedes, Beyond, PageOf;
    var page := PageOf(rows, limit, after);
    assert Repeat(rows, n)[0] == rows && Repeat(rows, n)[1..] == Repeat(rows, n - 1);
    MulSign(n - 1, limit);
    assert n * limit == (n - 1) * limit + limit;
    PageSize(rows, limit, after);
    if page.next.Some? {
      RemainingRows(rows, limit, after);
      if n > 1 {
        PagesNeeded(rows, n - 1, limit, page.next);
      }
    }
  }

  lemma PageSize(rows: set<Key>, limit: nat, after: Option<Key>)
    requires limit > 0
    ensures PageOf(rows, limit, after).next.Some? <==> |Beyond(rows, after)| > limit
  {
  }

  lemma RemainingRows(rows: set<Key>, limit: nat, after: Option<Key>)
    requires limit > 0 && PageOf(rows, limit, after).next.Some?
    ensures |Beyond(rows, PageOf(rows, limit, after).next)| == |Beyond(rows, after)| - limit
  {
    hide Precedes, Beyond, Sorted;
    var all := Sorted(Beyond(rows, after));
    SortedLists(Beyond(rows, after));
    var cursor := all[limit - 1];
    IsBeyond(rows, after, cursor);
    forall k: Key ensures k in all[limit..] <==> k in Beyond(rows, Some(cursor)) {
      BeyondCursor(rows, after, cursor, k);
      if k in Beyond(rows, after) {
        IsBeyond(rows, after, k);
      }
      AfterPosition(all, limit, k);
    }
    DistinctCount(all[limit..], Beyond(rows, Some(cursor)));
  }

  /** In a descending list, the rows past position n are those after the row before it. */
  lemma AfterPosition(all: seq<Key>, n: nat, k: Key)
    requires Descending(all) && 0 < n <= |all|
    ensures k in all[n..] <==> k in all && Precedes(all[n - 1], k)
    ensures Descending(all[n..])
  {
    hide Precedes;
    if k in all {
      var i :| 0 <= i < |all| && all[i] == k;
      PrecedesIsTotal(all[n - 1], k, all[n - 1]);
      PrecedesIsTotal(k, k, k);
      if i >= n {
        assert all[n..][i - n] == k;
      }
    }
  }

  lemma DistinctCount(keys: seq<Key>, rows: set<Key>)
    requires Descending(keys) && forall k :: k in keys <==> k in rows
    ensures |keys| == |rows|
  {
    hide Precedes;
    SortedLists(rows);
    DescendingIsUnique(keys, Sorted(rows));
  }

  /** The pages of a table at rest concatenate to exactly the sorted list. */
  lemma PagesConcatenateToTheList(rows: set<Key>, n: nat, limit: nat)
    requires limit > 0 && n > 0 && |rows| <= n * limit
    ensures Read(Repeat(rows, n), limit, None) == (Sorted(rows), true)
  {
    hide Precedes, Read, Sorted;
    assert Beyond(rows, None) == rows;
    PagesNeeded(rows, n, limit, None);
    ReadShowsEveryRowOnce(Repeat(rows, n), limit, None);
    SortedLists(rows);
    DescendingIsUnique(Read(Repeat(rows, n), limit, None).0, Sorted(rows));
  }

  // ---------- Listing orders ----------

  const DAY := 86_400_000_000

  function UpperChar(c: char): char {
    if 'a' <= c <= 'z' then 'A' + (c - 'a') else c
  }

  /** The database folds ASCII letters only. */
  function Upper(s: string): string {
    seq(|s|, i requires 0 <= i < |s| => UpperChar(s[i]))
  }

  /** The filters of an order listing. */
  datatype Filters = Filters(accountId: Option<string>, provider: Option<string>, symbol: Option<string>,
                             states: set<OrderState>,
                             startDay: Option<int>, endDay: Option<int>)

  /** How the service folds what a caller asks for: all of Unicode. */
  datatype Casing = Casing(fold: string -> string, upper: string -> string)

  predicate Accepts(f: Filters, casing: Casing, o: Order) {
    && (f.accountId.Some? ==> o.terms.accountId == f.accountId.value)
    && (f.states != {} ==> o.state in f.states)
    && (f.provider.Some? ==> Lower(o.terms.provider) == casing.fold(f.provider.value))
    && (f.symbol.Some? ==> Upper(o.terms.symbol) == casing.upper(f.symbol.value))
    && (f.startDay.Some? ==> f.startDay.value * DAY <= o.createdAt)
    && (f.endDay.Some? ==> o.createdAt < (f.endDay.value + 1) * DAY)
  }

  function Listed(orders: map<Id, Order>, f: Filters, casing: Casing): set<Key> {
    set k | k in orders && Accepts(f, casing, orders[k]) :: Key(orders[k].createdAt, k)
  }

  function Folded(name: Option<string>, fold: string -> string): Option<string> {
    if name.Some? && name.value != "" then Some(fold(name.value)) else None
  }

  /** What a cursor is bound to: the limit and the filters, names folded and an empty name like none. */
  datatype Binding = Binding(filters: Filters, limit: int)

  function BindingOf(f: Filters, casing: Casing, limit: int): Binding {
    Binding(f.(provider := Folded(f.provider, casing.fold), symbol := Folded(f.symbol, casing.upper)), limit)
  }

  datatype OrderCursor = OrderCursor(key: Key, binding: Binding)
  datatype OrderPage = OrderPage(items: seq<Id>, next: Option<OrderCursor>)

  function Ids(keys: seq<Key>): seq<Id> {
    seq(|keys|, i requires 0 <= i < |keys| => keys[i].id)
  }

  // ---------- What a page of orders shows ----------

  /** Every order shown meets each filter that is given. */
  ghost predicate ShowsOnlyAsked(orders: map<Id, Order>, f: Filters, casing: Casing, items: seq<Id>) {
    && (forall k <- items :: k in orders)
    && (f.accountId.Some? ==> forall k <- items :: orders[k].terms.accountId == f.accountId.value)
    && (f.states != {} ==> forall k <- items :: orders[k].state in f.states)
    && (f.startDay.Some? ==> forall k <- items :: f.startDay.value * DAY <= orders[k].createdAt)
    && (f.endDay.Some? ==> forall k <- items :: orders[k].createdAt < f.endDay.value * DAY + DAY)
    && (f.provider.Some? ==> forall k <- items :: Lower(orders[k].terms.provider) == casing.fold(f.provider.value))
    && (f.symbol.Some? ==> forall k <- items :: Upper(orders[k].terms.symbol) == casing.upper(f.symbol.value))
  }

  /** An order that no given filter excludes. */
  predicate Passes(f: Filters, casing: Casing, o: Order) {
    && !(f.accountId.Some? && o.terms.accountId != f.accountId.value)
    && !(f.states != {} && o.state !in f.states)
    && !(f.startDay.Some? && o.createdAt < f.startDay.value * DAY)
    && !(f.endDay.Some? && o.createdAt >= f.endDay.value * DAY + DAY)
    && !(f.provider.Some? && Lower(o.terms.provider) != casing.fold(f.provider.value))
    && !(f.symbol.Some? && Upper(o.terms.symbol) != casing.upper(f.symbol.value))
  }

  function KeyOf(orders: map<Id, Order>, k: Id): Key
    requires k in orders
  {
    Key(orders[k].createdAt, k)
  }

  /** The page shows orders the filters pass, past the cursor, newest first; it leaves out such an order only
      when it is full of newer ones, and then there is a cursor, at the last order shown. */
  ghost predicate ShowsRight(orders: map<Id, Order>, f: Filters, casing: Casing, limit: nat, after: Option<Key>,
                             items: seq<Id>, next: Option<Key>) {
    && ShowsOnlyAsked(orders, f, casing, items)
    && |items| <= limit
    && (forall i, j :: 0 <= i < j < |items| ==> Newer(KeyOf(orders, items[i]), KeyOf(orders, items[j])))
    && (after.Some? ==> forall k <- items :: Newer(after.value, KeyOf(orders, k)))
    && (next.Some? ==> |items| == limit && limit > 0 && next.value == KeyOf(orders, items[limit - 1]))
    && (forall k <- orders | Passes(f, casing, orders[k]) && (after.Some? ==> Newer(after.value, KeyOf(orders, k))) ::
          k in items || (next.Some? && Newer(next.value, KeyOf(orders, k))))
    && (next.Some? ==> exists k <- orders ::
          && Passes(f, casing, orders[k]) && k !in items && Newer(next.value, KeyOf(orders, k)))
  }

  lemma AcceptsExactly(f: Filters, casing: Casing, o: Order)
    ensures Accepts(f, casing, o) <==> Passes(f, casing, o)
  {
    hide Lower, Upper;
  }

  lemma AcceptedAreAsked(orders: map<Id, Order>, f: Filters, casing: Casing, items: seq<Id>)
    requires forall k <- items :: k in orders && Accepts(f, casing, orders[k])
    ensures ShowsOnlyAsked(orders, f, casing, items)
  {
    hide Lower, Upper;
  }

  lemma ListedKey(orders: map<Id, Order>, f: Filters, casing: Casing, key: Key)
    ensures key in Listed(orders, f, casing) <==>
            key.id in orders && key == KeyOf(orders, key.id) && Accepts(f, casing, orders[key.id])
  {
    hide Accepts;
  }

  lemma NextHasMore(rows: set<Key>, limit: nat, after: Option<Key>)
    requires limit > 0 && PageOf(rows, limit, after).next.Some?
    ensures var page := PageOf(rows, limit, after);
            exists k <- Beyond(rows, after) :: k !in page.items && Precedes(page.next.value, k)
  {
    hide Precedes, Beyond, Sorted;
    var all := Sorted(Beyond(rows, after));
    SortedLists(Beyond(rows, after));
    var k := all[limit];
    assert k in all;
    forall i | 0 <= i < limit ensures all[i] != k {
      PrecedesIsTotal(k, k, k);
      assert Precedes(all[i], all[limit]);
    }
  }

  /** A row past the cursor is an order the filters pass, and the other way round. */
  lemma RowsAreOrders(orders: map<Id, Order>, f: Filters, casing: Casing, after: Option<Key>, key: Key)
    ensures key in Beyond(Listed(orders, f, casing), after) <==>
            && key.id in orders && key == KeyOf(orders, key.id) && Passes(f, casing, orders[key.id])
            && (after.Some? ==> Newer(after.value, key))
  {
    hide Precedes, Listed, Accepts, Passes, Newer;
    ListedKey(orders, f, casing, key);
    if after.Some? {
      PrecedesMeans(after.value, key);
    }
    if key.id in orders {
      AcceptsExactly(f, casing, orders[key.id]);
    }
  }

  lemma ItemsAreOrders(orders: map<Id, Order>, f: Filters, casing: Casing, after: Option<Key>, keys: seq<Key>)
    requires Descending(keys) && forall k <- keys :: k in Beyond(Listed(orders, f, casing), after)
    ensures var items := Ids(keys);
            && ShowsOnlyAsked(orders, f, casing, items)
            && (forall i :: 0 <= i < |items| ==> items[i] in orders && keys[i] == KeyOf(orders, items[i]))
            && (forall i, j :: 0 <= i < j < |items| ==> Newer(KeyOf(orders, items[i]), KeyOf(orders, items[j])))
            && (after.Some? ==> forall k <- items :: Newer(after.value, KeyOf(orders, k)))
  {
    hide Beyond, Listed, Precedes, Accepts, Passes, Newer, ShowsOnlyAsked;
    var items := Ids(keys);
    forall i | 0 <= i < |items|
      ensures items[i] in orders && keys[i] == KeyOf(orders, items[i]) && Accepts(f, casing, orders[items[i]])
      ensures after.Some? ==> Newer(after.value, keys[i])
    {
      assert keys[i] in keys;
      RowsAreOrders(orders, f, casing, after, keys[i]);
      AcceptsExactly(f, casing, orders[items[i]]);
    }
    forall i, j | 0 <= i < j < |items| ensures Newer(keys[i], keys[j]) {
      PrecedesMeans(keys[i], keys[j]);
    }
    AcceptedAreAsked(orders, f, casing, items);
  }

  lemma OthersAreOlder(orders: map<Id, Order>, f: Filters, casing: Casing, limit: nat, after: Option<Key>, k: Id)
    requires limit > 0 && k in orders && Passes(f, casing, orders[k])
    requires after.Some? ==> Newer(after.value, KeyOf(orders, k))
    ensures var p := PageOf(Listed(orders, f, casing), limit, after);
            k in Ids(p.items) || (p.next.Some? && Newer(p.next.value, KeyOf(orders, k)))
  {
    hide Beyond, Listed, Precedes, Accepts, Passes, Newer, PageOf;
    var p := PageOf(Listed(orders, f, casing), limit, after);
    var key := KeyOf(orders, k);
    RowsAreOrders(orders, f, casing, after, key);
    PageParts(Listed(orders, f, casing), limit, after);
    if key in p.items {
      var i :| 0 <= i < |p.items| && p.items[i] == key;
      assert Ids(p.items)[i] == k;
    } else {
      PrecedesMeans(p.next.value, key);
    }
  }

  lemma SomeIsLeft(orders: map<Id, Order>, f: Filters, casing: Casing, limit: nat, after: Option<Key>)
    requires limit > 0 && PageOf(Listed(orders, f, casing), limit, after).next.Some?
    ensures var p := PageOf(Listed(orders, f, casing), limit, after);
            exists k <- orders ::
              && Passes(f, casing, orders[k]) && k !in Ids(p.items) && Newer(p.next.value, KeyOf(orders, k))
  {
    hide Beyond, Listed, Precedes, Accepts, Passes, Newer, PageOf, ShowsOnlyAsked;
    var rows := Listed(orders, f, casing);
    var p := PageOf(rows, limit, after);
    NextHasMore(rows, limit, after);
    var key :| key in Beyond(rows, after) && key !in p.items && Precedes(p.next.value, key);
    RowsAreOrders(orders, f, casing, after, key);
    PrecedesMeans(p.next.value, key);
    PageParts(rows, limit, after);
    ItemsAreOrders(orders, f, casing, after, p.items);
    forall i | 0 <= i < |p.items| ensures Ids(p.items)[i] == key.id ==> p.items[i] == key {
    }
  }

  lemma PageShowsRight(orders: map<Id, Order>, f: Filters, casing: Casing, limit: nat, after: Option<Key>)
    requires limit > 0
    ensures var p := PageOf(Listed(orders, f, casing), limit, after);
            ShowsRight(orders, f, casing, limit, after, Ids(p.items), p.next)
  {
    hide Beyond, Listed, Precedes, Accepts, Passes, Newer, PageOf, ShowsOnlyAsked;
    var rows := Listed(orders, f, casing);
    var p := PageOf(rows, limit, after);
    PageParts(rows, limit, after);
    PageFits(rows, limit, after);
    ItemsAreOrders(orders, f, casing, after, p.items);
    forall k <- orders | Passes(f, casing, orders[k]) && (after.Some? ==> Newer(after.value, KeyOf(orders, k)))
      ensures k in Ids(p.items) || (p.next.Some? && Newer(p.next.value, KeyOf(orders, k)))
    {
      OthersAreOlder(orders, f, casing, limit, after, k);
    }
    if p.next.Some? {
      SomeIsLeft(orders, f, casing, limit, after);
    }
  }

  lemma PageFits(rows: set<Key>, limit: nat, after: Option<Key>)
    requires limit > 0
    ensures |PageOf(rows, limit, after).items| <= limit
  {
    hide Beyond, Sorted;
  }

  /** None stands for the ValueError on a bad limit or a foreign cursor. */
  method ListOrders(orders: map<Id, Order>, f: Filters, casing: Casing, limit: int, after: Option<OrderCursor>)
    returns (page: Option<OrderPage>)
    ensures page.None? <==> !(1 <= limit <= 100) || (after.Some? && after.value.binding != BindingOf(f, casing, limit))
    ensures page.Some? ==>
              var p := PageOf(Listed(orders, f, casing), limit, if after.Some? then Some(after.value.key) else None);
              && page.value.items == Ids(p.items)
              && (page.value.next.Some? <==> p.next.Some?)
              && (p.next.Some? ==> page.value.next.value == OrderCursor(p.next.value, BindingOf(f, casing, limit)))
    ensures page.Some? ==>
              ShowsRight(orders, f, casing, limit, if after.Some? then Some(after.value.key) else None,
                         page.value.items, if page.value.next.Some? then Some(page.value.next.value.key) else None)
  {
    hide Accepts, ShowsRight, Listed;
    if !(1 <= limit <= 100) {
      return None;
    }
    var binding := BindingOf(f, casing, limit);
    if after.Some? && after.value.binding != binding {
      return None;
    }
    var found := ListPage(Listed(orders, f, casing), limit, if after.Some? then Some(after.value.key) else None);
    var cursor := None;
    if found.next.Some? {
      cursor := Some(OrderCursor(found.next.value, binding));
    }
    page := Some(OrderPage(Ids(found.items), cursor));
    PageShowsRight(orders, f, casing, limit, if after.Some? then Some(after.value.key) else None);
  }

  /** The filters without the names that are empty. */
  function WithoutBlanks(f: Filters): Filters {
    f.(provider := if f.provider == Some("") then None else f.provider,
       symbol := if f.symbol == Some("") then None else f.symbol)
  }

  /** An order meets the empty names asked for only if its own names are empty. */
  predicate MeetsBlanks(f: Filters, o: Order) {
    (f.provider == Some("") ==> o.terms.provider == "") && (f.symbol == Some("") ==> o.terms.symbol == "")
  }

  predicate HasBlank(f: Filters) {
    f.provider == Some("") || f.symbol == Some("")
  }

  lemma EmptyFoldsAlone(s: string)
    ensures (Lower(s) == "" <==> s == "") && (Upper(s) == "" <==> s == "")
  {
    assert |Lower(s)| == |s| && |Upper(s)| == |s|;
  }

  /** An empty name adds exactly one demand to the filters: that the stored name be empty. */
  lemma BlanksRestrict(f: Filters, casing: Casing, o: Order)
    requires casing.fold("") == "" && casing.upper("") == ""
    ensures Accepts(f, casing, o) <==> Accepts(WithoutBlanks(f), casing, o) && MeetsBlanks(f, o)
  {
    hide Lower, Upper;
    EmptyFoldsAlone(o.terms.provider);
    EmptyFoldsAlone(o.terms.symbol);
  }

  /** Apart from empty names, filters that share cursors ask for the same orders, however they are spelt. */
  lemma SharedBindingAsksAlike(f: Filters, g: Filters, casing: Casing, limit: int, o: Order)
    requires BindingOf(f, casing, limit) == BindingOf(g, casing, limit)
    ensures Accepts(WithoutBlanks(f), casing, o) <==> Accepts(WithoutBlanks(g), casing, o)
  {
    hide Lower, Upper;
  }

  lemma ListedExactly(orders: map<Id, Order>, f: Filters, casing: Casing, k: Id)
    requires k in orders
    ensures Key(orders[k].createdAt, k) in Listed(orders, f, casing) <==> Accepts(f, casing, orders[k])
  {
    hide Accepts;
  }

  /** Equal listings accept the same orders: a row's key names its order. */
  lemma ListedAlikeExactly(orders: map<Id, Order>, f: Filters, g: Filters, casing: Casing)
    ensures Listed(orders, f, casing) == Listed(orders, g, casing) <==>
            forall k <- orders :: Accepts(f, casing, orders[k]) <==> Accepts(g, casing, orders[k])
  {
    hide Accepts;
    if Listed(orders, f, casing) == Listed(orders, g, casing) {
      forall k <- orders ensures Accepts(f, casing, orders[k]) <==> Accepts(g, casing, orders[k]) {
        ListedExactly(orders, f, casing, k);
        ListedExactly(orders, g, casing, k);
      }
    }
  }

  /** Filters that share cursors list the same rows exactly when, of the orders they ask for apart from empty
      names, the empty names of both leave the same ones. */
  lemma SharedCursorsListAlikeExactly(orders: map<Id, Order>, f: Filters, g: Filters, casing: Casing, limit: int)
    requires BindingOf(f, casing, limit) == BindingOf(g, casing, limit)
    requires casing.fold("") == "" && casing.upper("") == ""
    ensures Listed(orders, f, casing) == Listed(orders, g, casing) <==>
            forall k <- orders | Accepts(WithoutBlanks(f), casing, orders[k]) ::
              MeetsBlanks(f, orders[k]) <==> MeetsBlanks(g, orders[k])
  {
    hide Accepts, MeetsBlanks, Listed, BindingOf, WithoutBlanks;
    ListedAlikeExactly(orders, f, g, casing);
    forall k <- orders
      ensures Accepts(f, casing, orders[k])
              <==> Accepts(WithoutBlanks(f), casing, orders[k]) && MeetsBlanks(f, orders[k])
      ensures Accepts(g, casing, orders[k])
              <==> Accepts(WithoutBlanks(f), casing, orders[k]) && MeetsBlanks(g, orders[k])
    {
      BlanksRestrict(f, casing, orders[k]);
      BlanksRestrict(g, casing, orders[k]);
      SharedBindingAsksAlike(f, g, casing, limit, orders[k]);
    }
  }

  ghost predicate NamesAreStored(orders: map<Id, Order>) {
    forall k <- orders :: orders[k].terms.provider != "" && orders[k].terms.symbol != ""
  }

  /** Where every stored order has its names, filters that share cursors list the same rows if and only if
      both have an empty name or neither has, or nothing is asked for apart from the empty names. */
  lemma SpellingsListAlikeExactly(orders: map<Id, Order>, f: Filters, g: Filters, casing: Casing, limit: int)
    requires BindingOf(f, casing, limit) == BindingOf(g, casing, limit)
    requires casing.fold("") == "" && casing.upper("") == ""
    requires NamesAreStored(orders)
    ensures Listed(orders, f, casing) == Listed(orders, g, casing) <==>
            (HasBlank(f) <==> HasBlank(g)) || Listed(orders, WithoutBlanks(f), casing) == {}
  {
    hide Accepts, BindingOf, WithoutBlanks;
    SharedCursorsListAlikeExactly(orders, f, g, casing, limit);
    forall k <- orders
      ensures MeetsBlanks(f, orders[k]) <==> !HasBlank(f)
      ensures MeetsBlanks(g, orders[k]) <==> !HasBlank(g)
      ensures Key(orders[k].createdAt, k) in Listed(orders, WithoutBlanks(f), casing)
              <==> Accepts(WithoutBlanks(f), casing, orders[k])
    {
      ListedExactly(orders, WithoutBlanks(f), casing, k);
    }
  }

  /** Both kinds of failing input: whatever else is asked for, adding an empty provider or an empty symbol
      keeps the cursors and loses every order that has its names. */
  lemma EmptyNamesListOtherwise(orders: map<Id, Order>, k: Id, f: Filters, casing: Casing, limit: int)
    requires k in orders && orders[k].terms.provider != "" && orders[k].terms.symbol != ""
    requires casing.fold("") == "" && casing.upper("") == "" && Accepts(f, casing, orders[k])
    ensures var blank := f.(provider := Some(""));
            f.provider.None? ==>
              && BindingOf(blank, casing, limit) == BindingOf(f, casing, limit)
              && Key(orders[k].createdAt, k) in Listed(orders, f, casing) - Listed(orders, blank, casing)
    ensures var blank := f.(symbol := Some(""));
            f.symbol.None? ==>
              && BindingOf(blank, casing, limit) == BindingOf(f, casing, limit)
              && Key(orders[k].createdAt, k) in Listed(orders, f, casing) - Listed(orders, blank, casing)
  {
    hide Accepts;
    ListedExactly(orders, f, casing, k);
    ListedExactly(orders, f.(provider := Some("")), casing, k);
    ListedExactly(orders, f.(symbol := Some("")), casing, k);
    BlanksRestrict(f.(provider := Some("")), casing, orders[k]);
    BlanksRestrict(f.(symbol := Some("")), casing, orders[k]);
  }

  // ---------- Reading on while rows are added ----------

  /** A reader that follows the cursors of a growing table to the end sees each row that was there at the
      start exactly once. */
  lemma ReaderSeesOnce(tables: seq<set<Key>>, limit: nat, k: Key)
    requires limit > 0 && tables != [] && OnlyGrows(tables) && k in tables[0]
    requires Read(tables, limit, None).1
    ensures multiset(Read(tables, limit, None).0)[k] == 1
  {
    hide Read, Precedes;
    ReadShowsEveryRowOnce(tables, limit, None);
    assert k in Beyond(tables[0], None);
    OnceEach(Read(tables, limit, None).0, k);
  }

  lemma {:induction false} OnceEach(keys: seq<Key>, k: Key)
    requires Descending(keys) && k in keys
    ensures multiset(keys)[k] == 1
    decreases |keys|
  {
    hide Precedes;
    assert keys == [keys[0]] + keys[1..];
    TailMembers(keys);
    if k != keys[0] {
      OnceEach(keys[1..], k);
    }
  }
}
