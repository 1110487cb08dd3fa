/** The portfolio overview: classification, contributions, allocations, gain and loss, history. Amounts
    are exact. */
module Overview {
  import opened Common
  import opened Database
  import opened Scheduler
  import opened Grouping

  datatype Position = Position(accountId: Id, assetClass: string, currency: string,
                               marketValue: Option<real>, costBasis: Option<real>)
  datatype Account = Account(id: Id, name: string, isStale: bool)

  function Value(p: Position): real {
    if p.marketValue.Some? then p.marketValue.value else 0.0
  }

  function Cost(p: Position): real {
    if p.costBasis.Some? then p.costBasis.value else 0.0
  }

  function AccountOf(p: Position): Id {
    p.accountId
  }

  // ---------- Classification ----------

  datatype Exclusion = UnsupportedCurrency | MissingMarketValue | StaleAccount | MissingCostBasis

  function StaleIds(accounts: seq<Account>): set<Id> {
    set a | a in accounts && a.isStale :: a.id
  }

  predicate Counted(p: Position, stale: set<Id>) {
    p.currency == "USD" && p.marketValue.Some? && p.accountId !in stale
  }

  /** The first reason that applies. */
  function ExclusionOf(p: Position, stale: set<Id>): Option<Exclusion> {
    if p.currency != "USD" then Some(UnsupportedCurrency)
    else if p.marketValue.None? then Some(MissingMarketValue)
    else if p.accountId in stale then Some(StaleAccount)
    else if p.costBasis.None? then Some(MissingCostBasis)
    else None
  }

  function CountedIn(stale: set<Id>): Position -> bool {
    p => Counted(p, stale)
  }

  function GainingIn(stale: set<Id>): Position -> bool {
    p => ExclusionOf(p, stale).None?
  }

  function ExcludedIn(stale: set<Id>): Position -> bool {
    p => ExclusionOf(p, stale).Some?
  }

  /** One exclusion per excluded position, in order, each with the first reason that applies to it. */
  ghost predicate Reasoned(exclusions: seq<(Position, Exclusion)>, excluded: seq<Position>, stale: set<Id>) {
    && |exclusions| == |excluded|
    && forall i :: 0 <= i < |excluded| ==>
      Some(exclusions[i].1) == ExclusionOf(excluded[i], stale) && exclusions[i].0 == excluded[i]
  }

  lemma ReasonedMore(exclusions: seq<(Position, Exclusion)>, excluded: seq<Position>, stale: set<Id>, p: Position,
                     e: Exclusion)
    requires Reasoned(exclusions, excluded, stale) && ExclusionOf(p, stale) == Some(e)
    ensures Reasoned(exclusions + [(p, e)], excluded + [p], stale)
  {
  }

  /** How one more position changes the three lists. */
  lemma OneMorePosition(positions: seq<Position>, p: Position, stale: set<Id>)
    ensures Filter(positions + [p], CountedIn(stale))
            == Filter(positions, CountedIn(stale)) + if Counted(p, stale) then [p] else []
    ensures Filter(positions + [p], GainingIn(stale))
            == Filter(positions, GainingIn(stale)) + if ExclusionOf(p, stale).None? then [p] else []
    ensures Filter(positions + [p], ExcludedIn(stale))
            == Filter(positions, ExcludedIn(stale)) + if ExclusionOf(p, stale).Some? then [p] else []
  {
    AppendOne(positions, p);
  }

  /** Each reason excludes exactly the positions it speaks about. */
  lemma ReasonsExactly(p: Position, stale: set<Id>)
    ensures var reason := ExclusionOf(p, stale);
            && (reason == Some(UnsupportedCurrency) <==> p.currency != "USD")
            && (reason == Some(MissingMarketValue) <==> p.currency == "USD" && p.marketValue.None?)
            && (reason == Some(StaleAccount) <==>
                  p.currency == "USD" && p.marketValue.Some? && p.accountId in stale)
            && (reason == Some(MissingCostBasis) <==> Counted(p, stale) && p.costBasis.None?)
            && (reason.None? <==> Counted(p, stale) && p.costBasis.Some?)
  {
  }

  /** Positions are sorted into three lists, each in the given order: the counted ones, those with a gain or
      loss, and one exclusion, with the first reason that applies, for each of the rest. */
  method ClassifyPositions(positions: seq<Position>, accounts: seq<Account>)
    returns (counted: seq<Position>, exclusions: seq<(Position, Exclusion)>, gainLoss: seq<Position>)
    ensures counted == Filter(positions, CountedIn(StaleIds(accounts)))
    ensures gainLoss == Filter(positions, GainingIn(StaleIds(accounts)))
    ensures Reasoned(exclusions, Filter(positions, ExcludedIn(StaleIds(accounts))), StaleIds(accounts))
  {
    hide Filter, Reasoned, CountedIn, GainingIn, ExcludedIn;
    var stale := StaleIds(accounts);
    counted, exclusions, gainLoss := [], [], [];
    NothingClassified(stale);
    for i := 0 to |positions|
      invariant counted == Filter(positions[..i], CountedIn(stale))
      invariant gainLoss == Filter(positions[..i], GainingIn(stale))
      invariant Reasoned(exclusions, Filter(positions[..i], ExcludedIn(stale)), stale)
    {
      var p := positions[i];
      assert positions[..i + 1] == positions[..i] + [p];
      OneMorePosition(positions[..i], p, stale);
      ghost var excluded := Filter(positions[..i], ExcludedIn(stale));
      assert excluded + [] == excluded;
      var reason := None;
      if p.currency != "USD" {
        reason := Some(UnsupportedCurrency);
      } else if p.marketValue.None? {
        reason := Some(MissingMarketValue);
      } else if p.accountId in stale {
        reason := Some(StaleAccount);
      } else {
        counted := counted + [p];
        if p.costBasis.Some? {
          gainLoss := gainLoss + [p];
        } else {
          reason := Some(MissingCostBasis);
        }
      }
      assert reason == ExclusionOf(p, stale);
      if reason.Some? {
        ReasonedMore(exclusions, excluded, stale, p, reason.value);
        exclusions := exclusions + [(p, reason.value)];
      }
    }
    assert positions[..|positions|] == positions;
  }

  lemma NothingClassified(stale: set<Id>)
    ensures Filter([], CountedIn(stale)) == [] == Filter([], GainingIn(stale))
    ensures Reasoned([], Filter([], ExcludedIn(stale)), stale)
  {
  }

  /** So the overview's counts agree: exclusions and gains together cover all positions, every gaining
      position is counted, and a counted position is excluded only for its cost basis. */
  lemma {:induction false} ClassificationCovers(positions: seq<Position>, stale: set<Id>)
    ensures |Filter(positions, ExcludedIn(stale))| + |Filter(positions, GainingIn(stale))| == |positions|
    ensures forall p <- Filter(positions, GainingIn(stale)) :: p in Filter(positions, CountedIn(stale))
    ensures forall p <- Filter(positions, CountedIn(stale)) ::
              ExclusionOf(p, stale).None? || ExclusionOf(p, stale) == Some(MissingCostBasis)
  {
    hide CountedIn, GainingIn, ExcludedIn;
    if positions == [] {
      NothingClassified(stale);
    } else {
      var rest, p := positions[..|positions| - 1], positions[|positions| - 1];
      assert positions == rest + [p];
      ClassificationCovers(rest, stale);
      OneMorePosition(rest, p, stale);
    }
  }

  // ---------- Rounding ----------

  /** Halves away from zero. */
  function HalfUp(x: real): int {
    if x >= 0.0 then (x + 0.5).Floor else -(0.5 - x).Floor
  }

  /** Four decimal places. */
  function RoundHalfUp(x: real): real {
    HalfUp(x * 10000.0) as real / 10000.0
  }

  function Abs(x: real): real {
    if x < 0.0 then -x else x
  }

  lemma HalfUpIsNearest(x: real, m: int)
    ensures Abs(HalfUp(x) as real - x) <= 0.5
    ensures Abs(HalfUp(x) as real - x) <= Abs(m as real - x)
    ensures m != HalfUp(x) && Abs(HalfUp(x) as real - x) == Abs(m as real - x) ==>
              Abs(m as real) < Abs(HalfUp(x) as real)
  {
    var n := HalfUp(x);
    if x >= 0.0 {
      assert n as real <= x + 0.5 < n as real + 1.0;
    } else {
      assert -n as real <= 0.5 - x < -n as real + 1.0;
    }
    assert m < n ==> m as real <= n as real - 1.0;
    assert m > n ==> m as real >= n as real + 1.0;
  }

  /** The result is the closest number with four decimal places, and of two equally close ones the one
      farther from zero. */
  lemma RoundHalfUpIsNearest(x: real, m: int)
    ensures Abs(RoundHalfUp(x) - x) <= 0.00005
    ensures var other := m as real / 10000.0;
            && Abs(RoundHalfUp(x) - x) <= Abs(other - x)
            && (other != RoundHalfUp(x) && Abs(RoundHalfUp(x) - x) == Abs(other - x) ==>
                Abs(other) < Abs(RoundHalfUp(x)))
  {
    HalfUpIsNearest(x * 10000.0, m);
    hide HalfUp;
  }

  // ---------- Slices ----------

  datatype Slice = Slice(key: string, name: string, amount: real, percentage: real, count: nat)

  function AmountOf(s: Slice): real {
    s.amount
  }

  function PercentageOf(s: Slice): real {
    s.percentage
  }

  function CountOf(s: Slice): real {
    s.count as real
  }

  /** Larger amounts first, then by name. */
  predicate Outranks(a: Slice, b: Slice) {
    a.amount > b.amount || (a.amount == b.amount && TextBefore(a.name, b.name))
  }

  function Insert(sorted: seq<Slice>, s: Slice): seq<Slice> {
    if sorted == [] then [s]
    else
      var last := sorted[|sorted| - 1];
      if Outranks(s, last) then Insert(sorted[..|sorted| - 1], s) + [last] else sorted + [s]
  }

  /** A stable sort: equal slices keep their order. */
  function Arranged(slices: seq<Slice>): seq<Slice> {
    if slices == [] then [] else Insert(Arranged(slices[..|slices| - 1]), slices[|slices| - 1])
  }

  ghost predicate InOrder(slices: seq<Slice>) {
    forall i, j :: 0 <= i < j < |slices| ==> !Outranks(slices[j], slices[i])
  }

  lemma OutranksIsOrder(a: Slice, b: Slice, c: Slice)
    ensures !Outranks(a, a)
    ensures Outranks(a, b) ==> !Outranks(b, a)
    ensures !Outranks(b, a) && !Outranks(c, b) ==> !Outranks(c, a)
  {
    hide TextBefore;
    TextOrder(a.name, b.name, a.name);
    TextOrder(a.name, b.name, c.name);
    TextOrder(c.name, a.name, b.name);
    TextOrder(b.name, c.name, b.name);
    TextOrder(b.name, c.name, a.name);
  }

  lemma {:induction false} InsertKeepsOrder(sorted: seq<Slice>, s: Slice)
    requires InOrder(sorted)
    ensures InOrder(Insert(sorted, s))
    ensures multiset(Insert(sorted, s)) == multiset(sorted) + multiset{s}
  {
    hide Outranks;
    if sorted != [] {
      var n := |sorted| - 1;
      var rest, last := sorted[..n], sorted[n];
      assert sorted == rest + [last];
      if Outranks(s, last) {
        InsertKeepsOrder(rest, s);
        var inserted := Insert(rest, s);
        OutranksIsOrder(s, last, s);
        forall i | 0 <= i < |inserted| ensures !Outranks(last, inserted[i]) {
          assert inserted[i] in multiset(inserted);
          assert inserted[i] == s || inserted[i] in rest;
        }
      } else {
        forall i | 0 <= i < |sorted| ensures !Outranks(s, sorted[i]) {
          OutranksIsOrder(sorted[i], last, s);
        }
      }
    }
  }

  /** Larger amounts come first, and of equal amounts the smaller name. */
  ghost predicate LargestFirst(slices: seq<Slice>) {
    forall i, j :: 0 <= i < j < |slices| ==>
      && slices[i].amount >= slices[j].amount
      && (slices[i].amount == slices[j].amount ==>
            slices[i].name == slices[j].name || SmallerText(slices[i].name, slices[j].name))
  }

  lemma InOrderMeans(slices: seq<Slice>)
    ensures InOrder(slices) <==> LargestFirst(slices)
  {
    hide TextBefore, SmallerText;
    forall a: Slice, b: Slice
      ensures !Outranks(b, a) <==>
              && a.amount >= b.amount
              && (a.amount == b.amount ==> a.name == b.name || SmallerText(a.name, b.name))
    {
      TextBeforeMeans(a.name, b.name);
      TextBeforeMeans(b.name, a.name);
      TextOrder(a.name, b.name, a.name);
      TextOrder(b.name, a.name, b.name);
    }
    hide Outranks;
  }

  lemma ArrangedIsLargestFirst(slices: seq<Slice>)
    ensures LargestFirst(Arranged(slices)) && multiset(Arranged(slices)) == multiset(slices)
  {
    hide InOrder, LargestFirst, Arranged;
    ArrangedIsSorted(slices);
    InOrderMeans(Arranged(slices));
  }

  lemma {:induction false} ArrangedIsSorted(slices: seq<Slice>)
    ensures InOrder(Arranged(slices)) && multiset(Arranged(slices)) == multiset(slices)
  {
    if slices != [] {
      var n := |slices| - 1;
      ArrangedIsSorted(slices[..n]);
      InsertKeepsOrder(Arranged(slices[..n]), slices[n]);
      assert slices == slices[..n] + [slices[n]];
    }
  }

  // ---------- Allocation groups ----------

  datatype Allocation = Allocation(denominator: real, slices: seq<Slice>, included: nat, excluded: int)

  function SliceOf(k: string, members: seq<Position>, naming: string -> string, denominator: real): Slice
    requires denominator > 0.0
  {
    Slice(k, naming(k), Total(members, Value), RoundHalfUp(Total(members, Value) / denominator), |members|)
  }

  function SlicesOver(keys: seq<string>, positions: seq<Position>, key: Position -> string, naming: string -> string,
                      denominator: real): (slices: seq<Slice>)
    requires denominator > 0.0
    ensures |slices| == |keys|
  {
    if keys == [] then []
    else SlicesOver(keys[..|keys| - 1], positions, key, naming, denominator)
         + [SliceOf(keys[|keys| - 1], Having(positions, key, keys[|keys| - 1]), naming, denominator)]
  }

  /** The dictionary of groups, in the order its keys were added. */
  method GroupMembers(positions: seq<Position>, key: Position -> string)
    returns (order: seq<string>, groups: map<string, seq<Position>>)
    ensures order == Keys(positions, key)
    ensures forall k <- order :: k in groups && groups[k] == Having(positions, key, k)
  {
    hide Having;
    order, groups := [], map[];
    for i := 0 to |positions|
      invariant order == Keys(positions[..i], key)
      invariant forall k <- order :: k in groups
      invariant forall k <- groups :: k in order && groups[k] == Having(positions[..i], key, k)
    {
      var p := positions[i];
      var k := key(p);
      assert positions[..i + 1] == positions[..i] + [p];
      AppendOne(positions[..i], p);
      forall other: string
        ensures Having(positions[..i + 1], key, other) == Having(positions[..i], key, other) + if k
                == other then [p] else []
      {
        GrownGroup(positions[..i], p, key, other, Value);
      }
      if k !in groups {
        NoneYet(positions[..i], key, k);
        order := order + [k];
        groups := groups[k := []];
      }
      groups := groups[k := groups[k] + [p]];
      assert forall other <- groups ::
               other != k ==> Having(positions[..i], key, other) + [] == Having(positions[..i], key, other);
    }
    assert positions[..|positions|] == positions;
  }

  lemma NoneYet(s: seq<Position>, key: Position -> string, k: string)
    requires k !in Keys(s, key)
    ensures Having(s, key, k) == []
  {
    KeysAreDistinct(s, key);
    NoMembers(s, key, k);
  }

  method BuildAllocation(positions: seq<Position>, key: Position -> string, naming: string -> string, denominator: real,
                         excluded: int)
    returns (group: Allocation)
    ensures group.denominator == denominator && group.included == |positions| && group.excluded == excluded
    ensures positions == [] || denominator <= 0.0 ==> group.slices == []
    ensures positions != [] && denominator > 0.0 ==>
              group.slices == Arranged(SlicesOver(Keys(positions, key), positions, key, naming, denominator))
  {
    if positions == [] || denominator <= 0.0 {
      return Allocation(denominator, [], |positions|, excluded);
    }
    var order, groups := GroupMembers(positions, key);
    var slices := [];
    for j := 0 to |order|
      invariant slices == SlicesOver(order[..j], positions, key, naming, denominator)
    {
      var k := order[j];
      assert k in order;
      slices := slices + [Slice(k, naming(k), Total(groups[k], Value),
                                RoundHalfUp(Total(groups[k], Value) / denominator), |groups[k]|)];
      assert order[..j + 1][..j] == order[..j];
    }
    assert order[..|order|] == order;
    group := Allocation(denominator, Arranged(slices), |positions|, excluded);
  }

  lemma {:induction false} NoMembers<T, K>(s: seq<T>, key: T -> K, k: K)
    requires forall x <- s :: key(x) != k
    ensures Having(s, key, k) == []
  {
    if s != [] {
      NoMembers(s[..|s| - 1], key, k);
      assert s[|s| - 1] in s;
    }
  }

  /** A slice shows the positions of its key: their value, their number and their rounded share. */
  ghost predicate SliceShows(s: Slice, positions: seq<Position>, key: Position -> string, naming: string -> string,
                             denominator: real)
    requires denominator > 0.0
  {
    && (exists p <- positions :: key(p) == s.key) && s.name == naming(s.key)
    && s.amount == Total(positions, Under(key, s.key, Value))
    && s.count as real == Total(positions, Under(key, s.key, One))
    && s.percentage == RoundHalfUp(s.amount / denominator)
  }

  /** Every position is in exactly one slice. */
  ghost predicate SlicesShow(slices: seq<Slice>, positions: seq<Position>, key: Position -> string,
                             naming: string -> string, denominator: real)
    requires denominator > 0.0
  {
    && (forall s <- slices :: SliceShows(s, positions, key, naming, denominator))
    && (forall p <- positions :: exists s <- slices :: s.key == key(p))
    && (forall i, j :: 0 <= i < j < |slices| ==> slices[i].key != slices[j].key)
  }

  lemma {:induction false} SliceAt(keys: seq<string>, positions: seq<Position>, key: Position -> string,
                                   naming: string -> string, denominator: real, i: nat)
    requires denominator > 0.0 && i < |keys|
    ensures SlicesOver(keys, positions, key, naming, denominator)[i]
            == SliceOf(keys[i], Having(positions, key, keys[i]), naming, denominator)
  {
    if i < |keys| - 1 {
      SliceAt(keys[..|keys| - 1], positions, key, naming, denominator, i);
    }
  }

  lemma OneSliceShows(positions: seq<Position>, key: Position -> string, naming: string -> string, denominator: real,
                      k: string)
    requires denominator > 0.0 && exists p <- positions :: key(p) == k
    ensures SliceShows(SliceOf(k, Having(positions, key, k), naming, denominator), positions, key, naming, denominator)
  {
    hide Total, Having, RoundHalfUp;
    HavingWeighs(positions, key, k, Value);
    HavingWeighs(positions, key, k, One);
    TotalOfOnes(Having(positions, key, k));
  }

  lemma SlicesOverShow(positions: seq<Position>, key: Position -> string, naming: string -> string, denominator: real)
    requires denominator > 0.0
    ensures SlicesShow(SlicesOver(Keys(positions, key), positions, key, naming, denominator), positions, key, naming,
                       denominator)
  {
    hide Total, Having, SlicesOver, Keys, RoundHalfUp, SliceShows;
    var keys := Keys(positions, key);
    var slices := SlicesOver(keys, positions, key, naming, denominator);
    KeysAreDistinct(positions, key);
    forall i | 0 <= i < |slices|
      ensures slices[i].key == keys[i] && SliceShows(slices[i], positions, key, naming, denominator)
    {
      assert keys[i] in keys;
      SliceAt(keys, positions, key, naming, denominator, i);
      OneSliceShows(positions, key, naming, denominator, keys[i]);
    }
    forall p <- positions ensures exists s <- slices :: s.key == key(p) {
      assert key(p) in keys;
      var i :| 0 <= i < |keys| && keys[i] == key(p);
      assert slices[i] in slices;
    }
  }

  /** Sorting loses none and adds none. */
  lemma ArrangedShow(slices: seq<Slice>, positions: seq<Position>, key: Position -> string, naming: string -> string,
                     denominator: real)
    requires denominator > 0.0 && SlicesShow(slices, positions, key, naming, denominator)
    ensures SlicesShow(Arranged(slices), positions, key, naming, denominator)
  {
    hide Arranged, SliceShows;
    ArrangedIsSorted(slices);
    var sorted := Arranged(slices);
    assert forall s :: s in sorted <==> s in slices by {
      forall s ensures s in sorted <==> s in slices {
        assert s in sorted <==> s in multiset(sorted);
        assert s in slices <==> s in multiset(slices);
      }
    }
    forall i, j | 0 <= i < j < |sorted| ensures sorted[i].key != sorted[j].key {
      if sorted[i].key == sorted[j].key {
        var a, b := Index(slices, sorted[i]), Index(slices, sorted[j]);
        assert a == b;
        assert sorted[i] == sorted[j];
        Twice(sorted, i, j);
        Once(slices, a);
        assert false;
      }
    }
  }

  ghost function Index(slices: seq<Slice>, s: Slice): (i: nat)
    requires s in slices
    ensures i < |slices| && slices[i] == s
  {
    var i :| 0 <= i < |slices| && slices[i] == s;
    i
  }

  lemma Twice<T>(s: seq<T>, i: nat, j: nat)
    requires i < j < |s| && s[i] == s[j]
    ensures multiset(s)[s[i]] >= 2
  {
    assert s == s[..j] + s[j..];
    assert s[i] in s[..j] && s[j] in s[j..];
    assert s[..j][i] == s[i] && s[j..][0] == s[j];
  }

  lemma Once(slices: seq<Slice>, i: nat)
    requires i < |slices| && forall a, b :: 0 <= a < b < |slices| ==> slices[a].key != slices[b].key
    ensures multiset(slices)[slices[i]] == 1
  {
    assert slices == slices[..i] + [slices[i]] + slices[i + 1..];
    assert slices[i] !in slices[..i] && slices[i] !in slices[i + 1..];
  }

  lemma {:induction false} SlicesWeigh(keys: seq<string>, positions: seq<Position>, key: Position -> string,
                                       naming: string -> string, denominator: real)
    requires denominator > 0.0
    ensures var slices := SlicesOver(keys, positions, key, naming, denominator);
            && Total(slices, AmountOf) == GroupTotals(keys, positions, key, Value)
            && Total(slices, CountOf) == GroupTotals(keys, positions, key, One)
  {
    if keys != [] {
      var rest, k := keys[..|keys| - 1], keys[|keys| - 1];
      SlicesWeigh(rest, positions, key, naming, denominator);
      var members := Having(positions, key, k);
      AppendOne(SlicesOver(rest, positions, key, naming, denominator), SliceOf(k, members, naming, denominator));
      SplitTotals(keys, positions, key, Value);
      SplitTotals(keys, positions, key, One);
      TotalOfOnes(members);
    }
  }

  function One(p: Position): real {
    1.0
  }

  lemma {:induction false} TotalOfOnes(positions: seq<Position>)
    ensures Total(positions, One) == |positions| as real
  {
    if positions != [] {
      TotalOfOnes(positions[..|positions| - 1]);
    }
  }

  /** Allocation conserves: the slices of a class or type group together hold exactly the value and the
      number of the counted positions. */
  lemma AllocationConserves(positions: seq<Position>, key: Position -> string, naming: string -> string,
                            denominator: real)
    requires denominator > 0.0
    ensures var slices := Arranged(SlicesOver(Keys(positions, key), positions, key, naming, denominator));
            && Total(slices, AmountOf) == Total(positions, Value)
            && Total(slices, CountOf) == |positions| as real
  {
    var slices := SlicesOver(Keys(positions, key), positions, key, naming, denominator);
    ArrangedIsSorted(slices);
    TotalOfPermutation(slices, Arranged(slices), AmountOf);
    TotalOfPermutation(slices, Arranged(slices), CountOf);
    SlicesWeigh(Keys(positions, key), positions, key, naming, denominator);
    KeysAreDistinct(positions, key);
    GroupsPartition(Keys(positions, key), positions, key, Value);
    GroupsPartition(Keys(positions, key), positions, key, One);
    TotalOfOnes(positions);
  }

  /** Rounding each share to four places moves their sum by at most 0.00005 per slice. */
  lemma {:induction false} SharesStayClose(slices: seq<Slice>, denominator: real)
    requires denominator > 0.0
    requires forall s <- slices :: s.percentage == RoundHalfUp(s.amount / denominator)
    ensures Abs(Total(slices, PercentageOf) - Total(slices, AmountOf) / denominator) <= |slices| as real * 0.00005
  {
    hide RoundHalfUp;
    if slices != [] {
      var rest, last := slices[..|slices| - 1], slices[|slices| - 1];
      assert last in slices && forall s <- rest :: s in slices;
      SharesStayClose(rest, denominator);
      RoundHalfUpIsNearest(last.amount / denominator, 0);
      AddShares(Total(rest, AmountOf), last.amount, denominator);
    }
  }

  lemma AddShares(a: real, b: real, denominator: real)
    requires denominator > 0.0
    ensures (a + b) / denominator == a / denominator + b / denominator
  {
  }

  lemma {:induction false} SharesAreRounded(keys: seq<string>, positions: seq<Position>, key: Position -> string,
                                            naming: string -> string, denominator: real)
    requires denominator > 0.0
    ensures forall s <- SlicesOver(keys, positions, key, naming, denominator) ::
              s.percentage == RoundHalfUp(s.amount / denominator)
  {
    hide RoundHalfUp;
    if keys != [] {
      SharesAreRounded(keys[..|keys| - 1], positions, key, naming, denominator);
    }
  }

  lemma WholeShare(denominator: real)
    requires denominator > 0.0
    ensures denominator / denominator == 1.0
  {
  }

  /** The displayed percentages of a group with n slices add up to 1 within n times 0.00005. */
  lemma PercentagesAddUp(positions: seq<Position>, key: Position -> string, naming: string -> string)
    requires Total(positions, Value) > 0.0
    ensures var slices := Arranged(SlicesOver(Keys(positions, key), positions, key, naming, Total(positions, Value)));
            Abs(Total(slices, PercentageOf) - 1.0) <= |slices| as real * 0.00005
  {
    hide RoundHalfUp, Total, SlicesOver, Keys, Arranged;
    var denominator := Total(positions, Value);
    var slices := SlicesOver(Keys(positions, key), positions, key, naming, denominator);
    AllocationConserves(positions, key, naming, denominator);
    ArrangedIsSorted(slices);
    SharesAreRounded(Keys(positions, key), positions, key, naming, denominator);
    WholeShare(denominator);
    forall s <- Arranged(slices) ensures s.percentage == RoundHalfUp(s.amount / denominator) {
      assert s in multiset(Arranged(slices));
      assert s in slices;
    }
    SharesStayClose(Arranged(slices), denominator);
  }

  // ---------- Security types ----------

  predicate Contains(text: string, part: string) {
    |part| <= |text| && (text[..|part|] == part || (text != "" && Contains(text[1..], part)))
  }

  /** Folding ASCII letters is enough: no other letter's lower case brings in a word looked for. */
  function SecurityType(p: Position): string {
    var name := Lower(p.assetClass);
    if Contains(name, "etf") then "etf"
    else if Contains(name, "cash") then "cash"
    else if Contains(name, "bond") || Contains(name, "fixed_income") || Contains(name, "treasury") then "fixed_income"
    else if Contains(name, "crypto") then "cryptocurrency"
    else "equity"
  }

  function AssetClass(p: Position): string {
    p.assetClass
  }

  lemma StartsWith(text: string, front: string, part: string, back: string)
    requires text == front + part + back
    ensures front == [] ==> |part| <= |text| && text[..|part|] == part
  {
    if front == [] {
      assert [] + part + back == part + back;
    }
  }

  /** `part` occurs in `text`, between a front and a back. */
  lemma {:induction false} ContainsMeans(text: string, part: string)
    ensures Contains(text, part) <==> exists front, back :: text == front + part + back
    decreases |text|
  {
    if |part| <= |text| && text[..|part|] == part {
      assert text == [] + part + text[|part|..];
    } else if text != [] {
      ContainsMeans(text[1..], part);
      if front, back :| text[1..] == front + part + back {
        assert text == ([text[0]] + front) + part + back;
        assert |part| < |text|;
      }
      if front, back :| text == front + part + back {
        StartsWith(text, front, part, back);
        assert text[1..] == front[1..] + part + back;
      }
    }
  }

  /** The type is the first of the words, in this order, that the class name holds, and equity without any. */
  lemma TypesExactly(p: Position)
    ensures var t, name := SecurityType(p), Lower(p.assetClass);
            var fixed := Contains(name, "bond") || Contains(name, "fixed_income") || Contains(name, "treasury");
            && (t == "etf" <==> Contains(name, "etf"))
            && (t == "cash" <==> !Contains(name, "etf") && Contains(name, "cash"))
            && (t == "fixed_income" <==> !Contains(name, "etf") && !Contains(name, "cash") && fixed)
            && (t == "cryptocurrency" <==>
                  !Contains(name, "etf") && !Contains(name, "cash") && !fixed && Contains(name, "crypto"))
            && (t == "equity" <==>
                  !Contains(name, "etf") && !Contains(name, "cash") && !fixed && !Contains(name, "crypto"))
  {
    hide Contains;
  }

  /** One slice per key, largest first, or none when nothing is counted or the denominator is not positive. */
  function GroupOver(counted: seq<Position>, key: Position -> string, naming: string -> string, denominator: real,
                     excluded: int): Allocation {
    Allocation(denominator,
               if counted == [] || denominator <= 0.0 then []
               else Arranged(SlicesOver(Keys(counted, key), counted, key, naming, denominator)),
               |counted|, excluded)
  }

  /** The class group and the type group over one denominator; each holds the whole value and all the counted
      positions, and has the same counts. */
  method ClassAllocations(counted: seq<Position>, naming: string -> string, total: Option<real>, excluded: int)
    returns (byClass: Allocation, byType: Allocation)
    ensures byClass.denominator == byType.denominator == if total.Some? && total.value > 0.0 then total.value else 0.0
    ensures byClass == GroupOver(counted, AssetClass, naming, byClass.denominator, excluded)
    ensures byType == GroupOver(counted, SecurityType, naming, byType.denominator, excluded)
    ensures byClass.included == byType.included == |counted| && byClass.excluded == byType.excluded == excluded
    ensures counted != [] && total.Some? && total.value > 0.0 ==>
              && Total(byClass.slices, AmountOf) == Total(byType.slices, AmountOf) == Total(counted, Value)
              && Total(byClass.slices, CountOf) == Total(byType.slices, CountOf) == |counted| as real
  {
    hide Total, Arranged, SlicesOver, Keys, SecurityType;
    var denominator := if total.Some? && total.value > 0.0 then total.value else 0.0;
    byClass := BuildAllocation(counted, AssetClass, naming, denominator, excluded);
    byType := BuildAllocation(counted, SecurityType, naming, denominator, excluded);
    if denominator > 0.0 {
      AllocationConserves(counted, AssetClass, naming, denominator);
      AllocationConserves(counted, SecurityType, naming, denominator);
    }
  }

  // ---------- Contributions ----------

  datatype Contribution = Contribution(id: Id, value: Option<real>, isStale: bool, percentage: Option<real>)

  predicate HasKnownValue(p: Position) {
    p.currency == "USD" && p.marketValue.Some?
  }

  /** What an account contributes: a stale one shows its known value, if any, and counts for nothing. */
  function ContributionOf(a: Account, positions: seq<Position>, counted: seq<Position>,
                          total: Option<real>): Contribution {
    if a.isStale then
      var known := Filter(Having(positions, AccountOf, a.id), HasKnownValue);
      Contribution(a.id, if known != [] then Some(Total(known, Value)) else None, true, None)
    else
      var value := Total(Having(counted, AccountOf, a.id), Value);
      Contribution(a.id, Some(value), false,
                   if total.Some? && total.value > 0.0 then Some(RoundHalfUp(value / total.value)) else None)
  }

  function CountedValue(a: Account, counted: seq<Position>): real {
    if a.isStale then 0.0 else Total(Having(counted, AccountOf, a.id), Value)
  }

  function ValueIn(counted: seq<Position>): Account -> real {
    a => CountedValue(a, counted)
  }

  function PositiveIn(counted: seq<Position>): Account -> real {
    a => if CountedValue(a, counted) > 0.0 then CountedValue(a, counted) else 0.0
  }

  /** The slice of an account that counts for something. */
  function AccountSlice(a: Account, counted: seq<Position>, total: Option<real>): Slice {
    var value := CountedValue(a, counted);
    Slice(a.id, a.name, value, if total.Some? && total.value > 0.0 then RoundHalfUp(value / total.value) else 0.0,
          |Having(counted, AccountOf, a.id)|)
  }

  predicate HasSlice(a: Account, counted: seq<Position>) {
    CountedValue(a, counted) > 0.0
  }

  /** One slice for each account worth more than nothing, in the order of the accounts. */
  function AccountSlices(accounts: seq<Account>, counted: seq<Position>, total: Option<real>): seq<Slice> {
    if accounts == [] then []
    else
      var last := accounts[|accounts| - 1];
      AccountSlices(accounts[..|accounts| - 1], counted, total)
      + if HasSlice(last, counted) then [AccountSlice(last, counted, total)] else []
  }

  lemma OneMoreAccount(accounts: seq<Account>, a: Account, counted: seq<Position>, total: Option<real>)
    ensures AccountSlices(accounts + [a], counted, total)
         == AccountSlices(accounts, counted, total)
           + if HasSlice(a, counted) then [AccountSlice(a, counted, total)] else []
  {
    AppendOne(accounts, a);
  }

  /** Each account's contribution, and the sorted slices of those worth more than nothing. */
  method Contributions(accounts: seq<Account>, positions: seq<Position>, counted: seq<Position>, total: Option<real>)
    returns (contributions: seq<Contribution>, slices: seq<Slice>)
    ensures |contributions| == |accounts|
    ensures forall i :: 0 <= i < |accounts| ==>
              contributions[i] == ContributionOf(accounts[i], positions, counted, total)
    ensures slices == Arranged(AccountSlices(accounts, counted, total))
  {
    hide RoundHalfUp, Having, Total, Filter, Arranged, AccountSlices;
    contributions := [];
    var unsorted: seq<Slice> := [];
    NoAccountSlices(counted, total);
    for i := 0 to |accounts|
      invariant |contributions| == i
      invariant forall j :: 0 <= j < i ==> contributions[j] == ContributionOf(accounts[j], positions, counted, total)
      invariant unsorted == AccountSlices(accounts[..i], counted, total)
    {
      var a := accounts[i];
      assert accounts[..i + 1] == accounts[..i] + [a];
      OneMoreAccount(accounts[..i], a, counted, total);
      var c := ContributionOf(a, positions, counted, total);
      contributions := contributions + [c];
      if !a.isStale && c.value.value > 0.0 {
        unsorted := unsorted + [Slice(a.id, a.name, c.value.value,
                                      if c.percentage.Some? then c.percentage.value else 0.0,
                                      |Having(counted, AccountOf, a.id)|)];
      }
    }
    assert accounts[..|accounts|] == accounts;
    slices := Arranged(unsorted);
  }

  lemma NoAccountSlices(counted: seq<Position>, total: Option<real>)
    ensures AccountSlices([], counted, total) == []
  {
  }

  lemma {:induction false} AccountSlicesWeigh(accounts: seq<Account>, counted: seq<Position>, total: Option<real>)
    ensures Total(AccountSlices(accounts, counted, total), AmountOf) == Total(accounts, PositiveIn(counted))
  {
    hide RoundHalfUp, CountedValue, Having;
    if accounts != [] {
      var rest, last := accounts[..|accounts| - 1], accounts[|accounts| - 1];
      AccountSlicesWeigh(rest, counted, total);
      TotalAppend(AccountSlices(rest, counted, total), AccountSlice(last, counted, total), AmountOf);
      assert AccountSlices(rest, counted, total) + [] == AccountSlices(rest, counted, total);
    }
  }

  lemma {:induction false} AccountSharesAreRounded(accounts: seq<Account>, counted: seq<Position>, total: real)
    requires total > 0.0
    ensures forall s <- AccountSlices(accounts, counted, Some(total)) :: s.percentage == RoundHalfUp(s.amount / total)
  {
    hide RoundHalfUp, CountedValue, Having;
    if accounts != [] {
      AccountSharesAreRounded(accounts[..|accounts| - 1], counted, total);
    }
  }

  function FreshIds(accounts: seq<Account>): seq<Id> {
    if accounts == [] then []
    else
      FreshIds(accounts[..|accounts| - 1])
      + if accounts[|accounts| - 1].isStale then [] else [accounts[|accounts| - 1].id]
  }

  lemma {:induction false} FreshIdsMembers(accounts: seq<Account>, id: Id)
    ensures id in FreshIds(accounts) <==> exists a <- accounts :: !a.isStale && a.id == id
  {
    if accounts != [] {
      var rest, last := accounts[..|accounts| - 1], accounts[|accounts| - 1];
      FreshIdsMembers(rest, id);
      assert accounts == rest + [last];
      if id in FreshIds(rest) {
        var a :| a in rest && !a.isStale && a.id == id;
        assert a in accounts;
      }
      assert last in accounts;
    }
  }

  lemma {:induction false} FreshIdsAreDistinct(accounts: seq<Account>)
    requires forall i, j :: 0 <= i < j < |accounts| ==> accounts[i].id != accounts[j].id
    ensures Distinct(FreshIds(accounts))
  {
    if accounts != [] {
      var rest, last := accounts[..|accounts| - 1], accounts[|accounts| - 1];
      FreshIdsAreDistinct(rest);
      FreshIdsMembers(rest, last.id);
      assert forall i :: 0 <= i < |rest| ==> rest[i] == accounts[i] && rest[i].id != last.id;
      DistinctAppend(FreshIds(rest), last.id);
      assert FreshIds(rest) + [] == FreshIds(rest);
    }
  }

  lemma DistinctAppend(ids: seq<Id>, id: Id)
    requires Distinct(ids)
    ensures id !in ids ==> Distinct(ids + [id])
  {
    assert forall i :: 0 <= i < |ids| ==> ids[i] in ids;
  }

  lemma {:induction false} ValuesByAccount(accounts: seq<Account>, counted: seq<Position>)
    ensures Total(accounts, ValueIn(counted)) == GroupTotals(FreshIds(accounts), counted, AccountOf, Value)
  {
    if accounts != [] {
      var rest, last := accounts[..|accounts| - 1], accounts[|accounts| - 1];
      ValuesByAccount(rest, counted);
      if last.isStale {
        assert FreshIds(accounts) == FreshIds(rest);
      } else {
        AppendOne(FreshIds(rest), last.id);
        SplitTotals(FreshIds(accounts), counted, AccountOf, Value);
      }
    }
  }

  /** The accounts of the stored positions are stored once each. */
  ghost predicate StoredTogether(accounts: seq<Account>, positions: seq<Position>) {
    && (forall i, j :: 0 <= i < j < |accounts| ==> accounts[i].id != accounts[j].id)
    && (forall p <- positions :: exists a <- accounts :: a.id == p.accountId)
  }

  lemma {:induction false} FilterKeeps<T>(s: seq<T>, keep: T -> bool)
    ensures forall x :: x in Filter(s, keep) <==> x in s && keep(x)
  {
    if s != [] {
      var rest, last := s[..|s| - 1], s[|s| - 1];
      FilterKeeps(rest, keep);
      assert s == rest + [last];
    }
  }

  /** Every counted position belongs to one account that is not stale. */
  lemma CountedAreFresh(accounts: seq<Account>, positions: seq<Position>)
    requires StoredTogether(accounts, positions)
    ensures Distinct(FreshIds(accounts))
    ensures forall p <- Filter(positions, CountedIn(StaleIds(accounts))) :: AccountOf(p) in FreshIds(accounts)
  {
    var counted := Filter(positions, CountedIn(StaleIds(accounts)));
    FilterKeeps(positions, CountedIn(StaleIds(accounts)));
    FreshIdsAreDistinct(accounts);
    forall p <- counted ensures AccountOf(p) in FreshIds(accounts) {
      var a :| a in accounts && a.id == p.accountId;
      FreshIdsMembers(accounts, p.accountId);
    }
  }

  /** The total is the sum of what the accounts that are not stale contribute. */
  lemma TotalIsSumOfAccounts(accounts: seq<Account>, positions: seq<Position>)
    requires StoredTogether(accounts, positions)
    ensures var counted := Filter(positions, CountedIn(StaleIds(accounts)));
            Total(counted, Value) == Total(accounts, ValueIn(counted))
  {
    var counted := Filter(positions, CountedIn(StaleIds(accounts)));
    CountedAreFresh(accounts, positions);
    ValuesByAccount(accounts, counted);
    GroupsPartition(FreshIds(accounts), counted, AccountOf, Value);
  }

  lemma {:induction false} PositivesAtLeast(accounts: seq<Account>, counted: seq<Position>)
    ensures Total(accounts, PositiveIn(counted)) >= Total(accounts, ValueIn(counted))
    ensures Total(accounts, PositiveIn(counted)) == Total(accounts, ValueIn(counted)) <==>
            forall a <- accounts :: CountedValue(a, counted) >= 0.0
  {
    hide CountedValue;
    if accounts != [] {
      var rest, last := accounts[..|accounts| - 1], accounts[|accounts| - 1];
      PositivesAtLeast(rest, counted);
      assert accounts == rest + [last];
      assert last in accounts;
    }
  }

  /** The slices of the account group add up to the total exactly when no counted account is worth less
      than nothing: an account with a negative value has no slice. */
  lemma AccountSlicesAddUpExactly(accounts: seq<Account>, positions: seq<Position>, total: Option<real>)
    requires StoredTogether(accounts, positions)
    ensures var counted := Filter(positions, CountedIn(StaleIds(accounts)));
            Total(Arranged(AccountSlices(accounts, counted, total)), AmountOf) == Total(counted, Value) <==>
            forall a <- accounts :: CountedValue(a, counted) >= 0.0
  {
    hide Arranged, AccountSlices, Total, Filter, CountedValue;
    var counted := Filter(positions, CountedIn(StaleIds(accounts)));
    var slices := AccountSlices(accounts, counted, total);
    TotalIsSumOfAccounts(accounts, positions);
    PositivesAtLeast(accounts, counted);
    AccountSlicesWeigh(accounts, counted, total);
    ArrangedIsSorted(slices);
    TotalOfPermutation(slices, Arranged(slices), AmountOf);
  }

  /** Otherwise they hold more than the total, and never more positions than were counted. */
  lemma AccountSlicesHoldAtLeast(accounts: seq<Account>, positions: seq<Position>, total: Option<real>)
    requires StoredTogether(accounts, positions)
    ensures var counted := Filter(positions, CountedIn(StaleIds(accounts)));
            var slices := Arranged(AccountSlices(accounts, counted, total));
            Total(slices, AmountOf) >= Total(counted, Value) && Total(slices, CountOf) <= |counted| as real
  {
    hide Arranged, AccountSlices, Total, Filter, CountedValue, Having;
    var counted := Filter(positions, CountedIn(StaleIds(accounts)));
    var slices := AccountSlices(accounts, counted, total);
    TotalIsSumOfAccounts(accounts, positions);
    PositivesAtLeast(accounts, counted);
    AccountSlicesWeigh(accounts, counted, total);
    CountedAreFresh(accounts, positions);
    GroupsPartition(FreshIds(accounts), counted, AccountOf, One);
    TotalOfOnes(counted);
    HeldByAccount(accounts, counted);
    ShownWithinHeld(accounts, counted);
    AccountSlicesCount(accounts, counted, total);
    ArrangedIsSorted(slices);
    TotalOfPermutation(slices, Arranged(slices), AmountOf);
    TotalOfPermutation(slices, Arranged(slices), CountOf);
  }

  /** Then the displayed percentages of n accounts add up to 1 within n times 0.00005, too. */
  lemma AccountPercentagesAddUp(accounts: seq<Account>, positions: seq<Position>)
    requires StoredTogether(accounts, positions)
    requires var counted := Filter(positions, CountedIn(StaleIds(accounts)));
             Total(counted, Value) > 0.0 && forall a <- accounts :: CountedValue(a, counted) >= 0.0
    ensures var counted := Filter(positions, CountedIn(StaleIds(accounts)));
            var slices := Arranged(AccountSlices(accounts, counted, Some(Total(counted, Value))));
            Abs(Total(slices, PercentageOf) - 1.0) <= |slices| as real * 0.00005
  {
    hide Arranged, AccountSlices, Total, Filter, CountedValue, RoundHalfUp;
    var counted := Filter(positions, CountedIn(StaleIds(accounts)));
    var total := Total(counted, Value);
    var slices := AccountSlices(accounts, counted, Some(total));
    AccountSlicesAddUpExactly(accounts, positions, Some(total));
    ArrangedIsSorted(slices);
    AccountSharesAreRounded(accounts, counted, total);
    WholeShare(total);
    forall s <- Arranged(slices) ensures s.percentage == RoundHalfUp(s.amount / total) {
      assert s in multiset(Arranged(slices));
      assert s in slices;
    }
    SharesStayClose(Arranged(slices), total);
  }

  // ---------- How many positions the account slices hold ----------

  /** A fresh account that holds a counted position. */
  predicate Holds(a: Account, counted: seq<Position>) {
    !a.isStale && Having(counted, AccountOf, a.id) != []
  }

  function HeldIn(counted: seq<Position>): Account -> real {
    (a: Account) => if a.isStale then 0.0 else |Having(counted, AccountOf, a.id)| as real
  }

  function ShownIn(counted: seq<Position>): Account -> real {
    (a: Account) => if HasSlice(a, counted) then |Having(counted, AccountOf, a.id)| as real else 0.0
  }

  lemma {:induction false} AccountSlicesCount(accounts: seq<Account>, counted: seq<Position>, total: Option<real>)
    ensures Total(AccountSlices(accounts, counted, total), CountOf) == Total(accounts, ShownIn(counted))
  {
    hide RoundHalfUp, CountedValue, Having;
    if accounts != [] {
      var rest, last := accounts[..|accounts| - 1], accounts[|accounts| - 1];
      AccountSlicesCount(rest, counted, total);
      TotalAppend(AccountSlices(rest, counted, total), AccountSlice(last, counted, total), CountOf);
      assert AccountSlices(rest, counted, total) + [] == AccountSlices(rest, counted, total);
    }
  }

  lemma {:induction false} HeldByAccount(accounts: seq<Account>, counted: seq<Position>)
    ensures Total(accounts, HeldIn(counted)) == GroupTotals(FreshIds(accounts), counted, AccountOf, One)
  {
    if accounts != [] {
      var rest, last := accounts[..|accounts| - 1], accounts[|accounts| - 1];
      HeldByAccount(rest, counted);
      if last.isStale {
        assert FreshIds(accounts) == FreshIds(rest);
      } else {
        AppendOne(FreshIds(rest), last.id);
        SplitTotals(FreshIds(accounts), counted, AccountOf, One);
        TotalOfOnes(Having(counted, AccountOf, last.id));
      }
    }
  }

  lemma {:induction false} ShownWithinHeld(accounts: seq<Account>, counted: seq<Position>)
    ensures Total(accounts, ShownIn(counted)) <= Total(accounts, HeldIn(counted))
    ensures Total(accounts, ShownIn(counted)) == Total(accounts, HeldIn(counted)) <==>
            forall a <- accounts | Holds(a, counted) :: HasSlice(a, counted)
  {
    hide Having, Total;
    if accounts == [] {
      NothingWeighs(ShownIn(counted));
      NothingWeighs(HeldIn(counted));
    } else {
      var rest, last := accounts[..|accounts| - 1], accounts[|accounts| - 1];
      ShownWithinHeld(rest, counted);
      assert accounts == rest + [last];
      TotalAppend(rest, last, ShownIn(counted));
      TotalAppend(rest, last, HeldIn(counted));
      assert last in accounts;
    }
  }

  lemma NothingWeighs<T>(weight: T -> real)
    ensures Total([], weight) == 0.0
  {
  }

  /** The counts of the account slices add up to the number of counted positions exactly when every account
      that holds one is worth more than nothing. */
  lemma AccountCountsAddUpExactly(accounts: seq<Account>, positions: seq<Position>, total: Option<real>)
    requires StoredTogether(accounts, positions)
    ensures var counted := Filter(positions, CountedIn(StaleIds(accounts)));
            Total(Arranged(AccountSlices(accounts, counted, total)), CountOf) == |counted| as real <==>
            forall a <- accounts | Holds(a, counted) :: CountedValue(a, counted) > 0.0
  {
    hide Arranged, AccountSlices, Total, Filter, Having, CountedValue;
    var counted := Filter(positions, CountedIn(StaleIds(accounts)));
    var slices := AccountSlices(accounts, counted, total);
    CountedAreFresh(accounts, positions);
    GroupsPartition(FreshIds(accounts), counted, AccountOf, One);
    TotalOfOnes(counted);
    HeldByAccount(accounts, counted);
    ShownWithinHeld(accounts, counted);
    AccountSlicesCount(accounts, counted, total);
    ArrangedIsSorted(slices);
    TotalOfPermutation(slices, Arranged(slices), CountOf);
  }

  // ---------- Gain and loss ----------

  datatype Coverage = Coverage(gainLoss: Option<real>, costBasis: Option<real>, marketValue: Option<real>,
                               included: nat, excluded: int)

  function GainOf(p: Position): real {
    Value(p) - Cost(p)
  }

  function GainLossCoverage(gaining: seq<Position>, count: nat): Coverage {
    if gaining == [] then Coverage(None, None, None, 0, count)
    else Coverage(Some(Total(gaining, Value) - Total(gaining, Cost)), Some(Total(gaining, Cost)),
                  Some(Total(gaining, Value)),
                  |gaining|, count - |gaining|)
  }

  lemma {:induction false} TotalOfGains(positions: seq<Position>)
    ensures Total(positions, GainOf) == Total(positions, Value) - Total(positions, Cost)
  {
    if positions != [] {
      TotalOfGains(positions[..|positions| - 1]);
    }
  }

  /** The reported gain is the sum of the gains of the positions that have both figures, and the counts
      cover all positions. */
  lemma GainLossAddsUp(gaining: seq<Position>, count: nat)
    requires |gaining| <= count
    ensures var c := GainLossCoverage(gaining, count);
            && c.included + c.excluded == count && c.included == |gaining|
            && (c.gainLoss.None? <==> gaining == [])
            && (c.gainLoss.Some? ==>
                  && c.gainLoss.value == Total(gaining, GainOf)
                  && c.costBasis == Some(Total(gaining, Cost)) && c.marketValue == Some(Total(gaining, Value))
                  && c.gainLoss.value == c.marketValue.value - c.costBasis.value)
  {
    TotalOfGains(gaining);
  }

  // ---------- History ----------

  datatype DailyValue = DailyValue(day: int, currency: string, value: real)
  datatype DayPoint = DayPoint(day: int, value: real, accounts: nat, complete: bool)

  function DayOf(d: DailyValue): int {
    d.day
  }

  function DailyAmount(d: DailyValue): real {
    d.value
  }

  predicate InDollars(d: DailyValue) {
    d.currency == "USD"
  }

  function PointValue(p: DayPoint): real {
    p.value
  }

  ghost predicate Increasing(days: seq<int>) {
    forall i, j :: 0 <= i < j < |days| ==> days[i] < days[j]
  }

  function InsertDay(sorted: seq<int>, d: int): seq<int> {
    if sorted == [] then [d]
    else
      var last := sorted[|sorted| - 1];
      if d < last then InsertDay(sorted[..|sorted| - 1], d) + [last] else sorted + [d]
  }

  function SortedDays(days: seq<int>): seq<int> {
    if days == [] then [] else InsertDay(SortedDays(days[..|days| - 1]), days[|days| - 1])
  }

  lemma {:induction false} InsertDayKeepsOrder(sorted: seq<int>, d: int)
    requires Increasing(sorted) && d !in sorted
    ensures Increasing(InsertDay(sorted, d))
    ensures forall x :: x in InsertDay(sorted, d) <==> x == d || x in sorted
  {
    if sorted != [] {
      var rest, last := sorted[..|sorted| - 1], sorted[|sorted| - 1];
      assert sorted == rest + [last];
      if d < last {
        InsertDayKeepsOrder(rest, d);
        var inserted := InsertDay(rest, d);
        forall i | 0 <= i < |inserted| ensures inserted[i] < last {
          assert inserted[i] in inserted;
        }
      }
    }
  }

  lemma {:induction false} DaysAreSorted(days: seq<int>)
    requires Distinct(days)
    ensures Increasing(SortedDays(days))
    ensures forall x :: x in SortedDays(days) <==> x in days
  {
    if days != [] {
      var rest, last := days[..|days| - 1], days[|days| - 1];
      DaysAreSorted(rest);
      assert days == rest + [last] && last !in rest;
      InsertDayKeepsOrder(SortedDays(rest), last);
    }
  }

  function PointOf(day: int, dollars: seq<DailyValue>, accounts: nat): DayPoint {
    var entries := Having(dollars, DayOf, day);
    DayPoint(day, Total(entries, DailyAmount), |entries|, accounts == 0 || |entries| >= accounts)
  }

  /** A point shows the dollars recorded for its day, by how many values, and whether every account has one. */
  ghost predicate PointShows(p: DayPoint, daily: seq<DailyValue>, accounts: nat) {
    && p.value == Total(daily, Kept(InDollars, Under(DayOf, p.day, DailyAmount)))
    && p.accounts as real == Total(daily, Kept(InDollars, Under(DayOf, p.day, Each)))
    && (p.complete <==> p.accounts >= accounts)
  }

  function Each(d: DailyValue): real {
    1.0
  }

  lemma {:induction false} TotalOfEach(entries: seq<DailyValue>)
    ensures Total(entries, Each) == |entries| as real
  {
    if entries != [] {
      TotalOfEach(entries[..|entries| - 1]);
    }
  }

  lemma PointsShow(points: seq<DayPoint>, daily: seq<DailyValue>, accounts: nat)
    requires forall p <- points :: p == PointOf(p.day, Filter(daily, InDollars), accounts)
    ensures forall p <- points :: PointShows(p, daily, accounts)
  {
    hide Total, Having, Filter;
    var dollars := Filter(daily, InDollars);
    forall p <- points ensures PointShows(p, daily, accounts) {
      HavingWeighs(dollars, DayOf, p.day, DailyAmount);
      HavingWeighs(dollars, DayOf, p.day, Each);
      FilterWeighs(daily, InDollars, Under(DayOf, p.day, DailyAmount));
      FilterWeighs(daily, InDollars, Under(DayOf, p.day, Each));
      TotalOfEach(Having(dollars, DayOf, p.day));
    }
  }

  lemma EmptyTotals(dollars: seq<DailyValue>)
    ensures Total([], PointValue) == 0.0 == GroupTotals([], dollars, DayOf, DailyAmount)
  {
  }

  /** One point per day with dollar values, oldest first; together they hold every recorded dollar. */
  method BuildHistory(daily: seq<DailyValue>, accounts: nat) returns (points: seq<DayPoint>)
    ensures forall i, j :: 0 <= i < j < |points| ==> points[i].day < points[j].day
    ensures forall d <- daily :: InDollars(d) ==> exists p <- points :: p.day == d.day
    ensures forall p <- points :: p == PointOf(p.day, Filter(daily, InDollars), accounts)
    ensures forall p <- points :: PointShows(p, daily, accounts)
    ensures Total(points, PointValue) == Total(Filter(daily, InDollars), DailyAmount)
  {
    hide Having, Total, Filter, GroupTotals, Keys, SortedDays;
    var dollars := Filter(daily, InDollars);
    FilterKeeps(daily, InDollars);
    var days := SortedDays(Keys(dollars, DayOf));
    KeysAreDistinct(dollars, DayOf);
    DaysAreSorted(Keys(dollars, DayOf));
    points := [];
    EmptyTotals(dollars);
    for i := 0 to |days|
      invariant |points| == i && forall j :: 0 <= j < i ==> points[j].day == days[j]
      invariant forall p <- points :: p == PointOf(p.day, dollars, accounts)
      invariant Total(points, PointValue) == GroupTotals(days[..i], dollars, DayOf, DailyAmount)
    {
      var entries := Having(dollars, DayOf, days[i]);
      var point := DayPoint(days[i], Total(entries, DailyAmount), |entries|,
                            if accounts > 0 then |entries| >= accounts else true);
      assert point == PointOf(days[i], dollars, accounts);
      TotalAppend(points, point, PointValue);
      points := points + [point];
      assert days[..i + 1][..i] == days[..i] && days[..i + 1][i] == days[i];
      SplitTotals(days[..i + 1], dollars, DayOf, DailyAmount);
    }
    PointsShow(points, daily, accounts);
    assert days[..|days|] == days;
    GroupsPartition(days, dollars, DayOf, DailyAmount);
    forall d <- daily | InDollars(d) ensures exists p <- points :: p.day == d.day {
      assert d in dollars && DayOf(d) == d.day;
      assert d.day in days;
      var i :| 0 <= i < |days| && days[i] == d.day;
      assert points[i] in points;
    }
  }
}
