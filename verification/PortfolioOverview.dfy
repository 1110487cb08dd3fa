/** The whole overview of given accounts and positions: the parts of module Overview put together. */
module PortfolioOverview {
  import opened Common
  import opened Grouping
  import opened Overview

  datatype Report = Report(total: Option<real>, cash: Option<real>, contributions: seq<Contribution>,
                           exclusions: seq<(Position, Exclusion)>, byAccount: Allocation, byClass: Allocation,
                           byType: Allocation, gainLoss: Coverage)

  function CountedOf(accounts: seq<Account>, positions: seq<Position>): seq<Position> {
    Filter(positions, CountedIn(StaleIds(accounts)))
  }

  function GainingOf(accounts: seq<Account>, positions: seq<Position>): seq<Position> {
    Filter(positions, GainingIn(StaleIds(accounts)))
  }

  predicate AllStale(accounts: seq<Account>) {
    forall a <- accounts :: a.isStale
  }

  const CASH_CLASSES: set<string> := {"cash", "cash_equivalent"}

  predicate IsCash(p: Position) {
    p.assetClass in CASH_CLASSES
  }

  // ---------- What a reader of the report may rely on ----------

  function FreshValue(c: Contribution): real {
    if c.isStale || c.value.None? then 0.0 else c.value.value
  }

  function CashAmount(s: Slice): real {
    if s.key in CASH_CLASSES then s.amount else 0.0
  }

  /** Every group, and the gain, speak about all positions. */
  ghost predicate CountsAgree(r: Report, count: nat) {
    && r.byAccount.included + r.byAccount.excluded == count
    && r.byClass.included == r.byType.included == r.byAccount.included
    && r.byClass.excluded == r.byType.excluded == r.byAccount.excluded
    && r.gainLoss.included + r.gainLoss.excluded == count
    && |r.exclusions| == r.gainLoss.excluded
    && r.gainLoss.included <= r.byAccount.included
  }

  /** The total is what the fresh accounts shown contribute, there is none exactly when every account is
      stale, and all groups divide by it. */
  ghost predicate TotalAgrees(r: Report, accounts: seq<Account>) {
    && |r.contributions| == |accounts|
    && (r.total.None? <==> AllStale(accounts))
    && (r.total.Some? ==> r.total.value == Total(r.contributions, FreshValue))
    && r.byAccount.denominator == r.byClass.denominator == r.byType.denominator
    && r.byAccount.denominator == if r.total.Some? && r.total.value > 0.0 then r.total.value else 0.0
  }

  /** Each account shows what it holds: a fresh one the value of its counted positions and its rounded share of a
      positive total, a stale one what is known of its positions, if anything, and no share. */
  ghost predicate AccountShows(c: Contribution, a: Account, positions: seq<Position>, counted: seq<Position>,
                               total: Option<real>) {
    && c.id == a.id && c.isStale == a.isStale
    && (!a.isStale ==>
          && c.value == Some(Total(Having(counted, AccountOf, a.id), Value))
          && (c.percentage.Some? <==> total.Some? && total.value > 0.0)
          && (c.percentage.Some? ==> c.percentage.value == RoundHalfUp(c.value.value / total.value)))
    && (a.isStale ==>
          && c.percentage.None?
          && (c.value.None? <==> forall p <- positions | p.accountId == a.id ::
              p.currency != "USD" || p.marketValue.None?)
          && (c.value.Some? ==> c.value.value == Total(positions, KnownOf(a.id))))
  }

  function KnownOf(id: Id): Position -> real {
    (p: Position) => if p.accountId == id && p.currency == "USD"
      && p.marketValue.Some? then p.marketValue.value else 0.0
  }

  /** With a positive total, the class and the type slices each hold all of it and all counted positions, and
      the cash shown is what the cash slices hold. */
  ghost predicate GroupsAgree(r: Report) {
    r.total.Some? && r.total.value > 0.0 ==>
      && Total(r.byClass.slices, AmountOf) == Total(r.byType.slices, AmountOf) == r.total.value
      && Total(r.byClass.slices, CountOf) == Total(r.byType.slices, CountOf) == r.byClass.included as real
      && r.cash == Some(Total(r.byClass.slices, CashAmount))
  }

  /** The account slices hold the total exactly when no fresh account shows less than nothing, and all counted
      positions exactly when every account that holds one shows more than nothing. */
  ghost predicate AccountsAgree(r: Report, accounts: seq<Account>, counted: seq<Position>) {
    && (r.total.Some? ==>
          (Total(r.byAccount.slices, AmountOf) == r.total.value <==>
           forall c <- r.contributions | !c.isStale :: FreshValue(c) >= 0.0))
    && (Total(r.byAccount.slices, CountOf) == r.byAccount.included as real <==>
        forall a <- accounts | Holds(a, counted) :: CountedValue(a, counted) > 0.0)
  }

  // ---------- The report ----------

  /** What the parts say, all for the same accounts and positions. */
  ghost predicate ReportOf(r: Report, accounts: seq<Account>, positions: seq<Position>, naming: string -> string) {
    var counted, gaining := CountedOf(accounts, positions), GainingOf(accounts, positions);
    && r.total == (if AllStale(accounts) then None else Some(Total(counted, Value)))
    && r.cash == (if counted == [] then None else Some(Total(Filter(counted, IsCash), Value)))
    && |r.contributions| == |accounts|
    && (forall i :: 0 <= i < |accounts| ==>
          r.contributions[i] == ContributionOf(accounts[i], positions, counted, r.total))
    && Reasoned(r.exclusions, Filter(positions, ExcludedIn(StaleIds(accounts))), StaleIds(accounts))
    && var denominator := if r.total.Some? && r.total.value > 0.0 then r.total.value else 0.0;
    && r.byAccount == Allocation(denominator, Arranged(AccountSlices(accounts, counted, r.total)), |counted|,
                                 |positions| - |counted|)
    && r.byClass == GroupOver(counted, AssetClass, naming, denominator, |positions| - |counted|)
    && r.byType == GroupOver(counted, SecurityType, naming, denominator, |positions| - |counted|)
    && r.gainLoss == GainLossCoverage(gaining, |positions|)
  }

  const NOTHING := Report(None, None, [], [], Allocation(0.0, [], 0, 0), Allocation(0.0, [], 0, 0),
                          Allocation(0.0, [], 0, 0), Coverage(None, None, None, 0, 0))

  method GetOverview(accounts: seq<Account>, positions: seq<Position>, naming: string -> string) returns (r: Report)
    ensures accounts == [] ==> r == NOTHING
    ensures accounts != [] ==> ReportOf(r, accounts, positions, naming)
    ensures StoredTogether(accounts, positions) ==>
              && CountsAgree(r, |positions|) && TotalAgrees(r, accounts) && GroupsAgree(r)
              && AccountsAgree(r, accounts, CountedOf(accounts, positions))
    ensures accounts != [] ==>
              && |r.contributions| == |accounts|
              && (forall i :: 0 <= i < |accounts| ==>
                    AccountShows(r.contributions[i], accounts[i], positions, CountedOf(accounts, positions), r.total))
              && LargestFirst(r.byAccount.slices) && LargestFirst(r.byClass.slices) && LargestFirst(r.byType.slices)
    ensures CountedOf(accounts, positions) != [] && r.total.Some? && r.total.value > 0.0 ==>
              && SlicesShow(r.byClass.slices, CountedOf(accounts, positions), AssetClass, naming, r.total.value)
              && SlicesShow(r.byType.slices, CountedOf(accounts, positions), SecurityType, naming, r.total.value)
  {
    hide LargestFirst, AccountShows, SlicesShow, Filter;
    hide ReportOf, CountsAgree, TotalAgrees, GroupsAgree, AccountsAgree, StoredTogether;
    if accounts == [] {
      if StoredTogether([], positions) {
        NothingAgrees(positions);
      }
      return NOTHING;
    }
    r := Assemble(accounts, positions, naming);
    AccountsShow(r, accounts, positions, naming);
    SlicesAreLargestFirst(r, accounts, positions, naming);
    if r.total.Some? && r.total.value > 0.0 {
      GroupsShow(r, accounts, positions, naming);
    }
    if StoredTogether(accounts, positions) {
      ReportAgrees(r, accounts, positions, naming);
    }
  }

  lemma AccountsShow(r: Report, accounts: seq<Account>, positions: seq<Position>, naming: string -> string)
    requires ReportOf(r, accounts, positions, naming)
    ensures |r.contributions| == |accounts|
    ensures forall i :: 0 <= i < |accounts| ==>
              AccountShows(r.contributions[i], accounts[i], positions, CountedOf(accounts, positions), r.total)
  {
    hide Filter, Total, Arranged, AccountSlices, SlicesOver, Keys, ContributionOf, SecurityType, Reasoned, AccountShows;
    forall i | 0 <= i < |accounts|
      ensures AccountShows(r.contributions[i], accounts[i], positions, CountedOf(accounts, positions), r.total)
    {
      AccountIsShown(accounts[i], positions, CountedOf(accounts, positions), r.total);
    }
  }

  lemma AccountIsShown(a: Account, positions: seq<Position>, counted: seq<Position>, total: Option<real>)
    ensures AccountShows(ContributionOf(a, positions, counted, total), a, positions, counted, total)
  {
    hide Filter, Total, RoundHalfUp;
    if a.isStale {
      var own := Having(positions, AccountOf, a.id);
      var known := Filter(own, HasKnownValue);
      FilterKeeps(own, HasKnownValue);
      OwnPositions(positions, a.id);
      KnownTotal(positions, a.id);
      if known != [] {
        assert known[0] in known;
      }
    }
  }

  lemma {:induction false} OwnPositions(positions: seq<Position>, id: Id)
    ensures forall p :: p in Having(positions, AccountOf, id) <==> p in positions && p.accountId == id
  {
    if positions != [] {
      var rest, p := positions[..|positions| - 1], positions[|positions| - 1];
      OwnPositions(rest, id);
      GrownGroup(rest, p, AccountOf, id, Value);
      assert positions == rest + [p];
    }
  }

  lemma KnownWithOneMore(own: seq<Position>, p: Position)
    ensures Total(Filter(own + [p], HasKnownValue), Value)
         == Total(Filter(own, HasKnownValue), Value) + if HasKnownValue(p) then Value(p) else 0.0
  {
    hide Total;
    AppendOne(own, p);
    var known := Filter(own, HasKnownValue);
    assert known + [] == known;
    TotalAppend(known, p, Value);
  }

  lemma {:induction false} KnownTotal(positions: seq<Position>, id: Id)
    ensures Total(Filter(Having(positions, AccountOf, id), HasKnownValue), Value) == Total(positions, KnownOf(id))
  {
    hide Filter;
    if positions == [] {
      NothingHeld(id);
    } else {
      hide Having, Total;
      var rest, p := positions[..|positions| - 1], positions[|positions| - 1];
      var own := Having(rest, AccountOf, id);
      KnownTotal(rest, id);
      GrownGroup(rest, p, AccountOf, id, Value);
      assert positions == rest + [p] && own + [] == own;
      TotalAppend(rest, p, KnownOf(id));
      KnownWithOneMore(own, p);
    }
  }

  lemma NothingHeld(id: Id)
    ensures Total(Filter(Having([], AccountOf, id), HasKnownValue), Value) == 0.0 == Total([], KnownOf(id))
  {
  }

  lemma SlicesAreLargestFirst(r: Report, accounts: seq<Account>, positions: seq<Position>, naming: string -> string)
    requires ReportOf(r, accounts, positions, naming)
    ensures LargestFirst(r.byAccount.slices) && LargestFirst(r.byClass.slices) && LargestFirst(r.byType.slices)
  {
    hide Filter, Total, Arranged, AccountSlices, SlicesOver, Keys, ContributionOf, SecurityType, Reasoned, LargestFirst;
    var counted := CountedOf(accounts, positions);
    NoneIsLargestFirst();
    ArrangedIsLargestFirst(AccountSlices(accounts, counted, r.total));
    if r.byClass.denominator > 0.0 {
      ArrangedIsLargestFirst(SlicesOver(Keys(counted, AssetClass), counted, AssetClass, naming, r.byClass.denominator));
      ArrangedIsLargestFirst(SlicesOver(Keys(counted, SecurityType), counted, SecurityType, naming,
                                        r.byClass.denominator));
    }
  }

  lemma GroupsShow(r: Report, accounts: seq<Account>, positions: seq<Position>, naming: string -> string)
    requires ReportOf(r, accounts, positions, naming) && r.total.Some? && r.total.value > 0.0
    ensures var counted := CountedOf(accounts, positions);
            counted != [] ==>
              && SlicesShow(r.byClass.slices, counted, AssetClass, naming, r.total.value)
              && SlicesShow(r.byType.slices, counted, SecurityType, naming, r.total.value)
  {
    hide Filter, Total, Arranged, AccountSlices, SlicesOver, Keys, ContributionOf, SecurityType, Reasoned, SlicesShow;
    var counted := CountedOf(accounts, positions);
    SlicesOverShow(counted, AssetClass, naming, r.total.value);
    SlicesOverShow(counted, SecurityType, naming, r.total.value);
    ArrangedShow(SlicesOver(Keys(counted, AssetClass), counted, AssetClass, naming, r.total.value), counted, AssetClass,
                 naming, r.total.value);
    ArrangedShow(SlicesOver(Keys(counted, SecurityType), counted, SecurityType, naming, r.total.value), counted,
                 SecurityType, naming, r.total.value);
  }

  lemma NoneIsLargestFirst()
    ensures LargestFirst([])
  {
  }

  method Assemble(accounts: seq<Account>, positions: seq<Position>, naming: string -> string) returns (r: Report)
    requires accounts != []
    ensures ReportOf(r, accounts, positions, naming)
  {
    hide Filter, Total, Arranged, AccountSlices, SlicesOver, Keys, Reasoned, ContributionOf, SecurityType;
    var counted, exclusions, gaining := ClassifyPositions(positions, accounts);
    var total := if forall a <- accounts :: a.isStale then None else Some(Total(counted, Value));
    var cash := if counted == [] then None else Some(Total(Filter(counted, IsCash), Value));
    var contributions, slices := Contributions(accounts, positions, counted, total);
    var excluded := |positions| - |counted|;
    var denominator := if total.Some? && total.value > 0.0 then total.value else 0.0;
    var byClass, byType := ClassAllocations(counted, naming, total, excluded);
    r := Report(total, cash, contributions, exclusions, Allocation(denominator, slices, |counted|, excluded), byClass,
                byType, GainLossCoverage(gaining, |positions|));
  }

  lemma NothingAgrees(positions: seq<Position>)
    requires StoredTogether([], positions)
    ensures CountsAgree(NOTHING, |positions|) && TotalAgrees(NOTHING, []) && GroupsAgree(NOTHING)
    ensures AccountsAgree(NOTHING, [], CountedOf([], positions))
  {
    NoPositions(positions);
  }

  lemma NoPositions(positions: seq<Position>)
    requires StoredTogether([], positions)
    ensures positions == []
  {
    hide StoredTogether;
    if positions != [] {
      var owner := OwnerOf([], positions, 0);
      assert false;
    }
  }

  lemma OwnerOf(accounts: seq<Account>, positions: seq<Position>, i: nat) returns (owner: Account)
    requires StoredTogether(accounts, positions) && i < |positions|
    ensures owner in accounts && owner.id == positions[i].accountId
  {
    assert positions[i] in positions;
    owner :| owner in accounts && owner.id == positions[i].accountId;
  }

  // ---------- The parts agree ----------

  lemma {:induction false} GainingWithinCounted(positions: seq<Position>, stale: set<Id>)
    ensures |Filter(positions, GainingIn(stale))| <= |Filter(positions, CountedIn(stale))| <= |positions|
  {
    hide CountedIn, GainingIn, ExcludedIn;
    if positions == [] {
      NothingClassified(stale);
    } else {
      var rest, p := positions[..|positions| - 1], positions[|positions| - 1];
      assert positions == rest + [p];
      GainingWithinCounted(rest, stale);
      OneMorePosition(rest, p, stale);
    }
  }

  lemma ReportCounts(r: Report, accounts: seq<Account>, positions: seq<Position>, naming: string -> string)
    requires ReportOf(r, accounts, positions, naming)
    ensures CountsAgree(r, |positions|)
  {
    hide Filter, Total, Arranged, AccountSlices, SlicesOver, Keys, ContributionOf, SecurityType;
    var stale := StaleIds(accounts);
    ClassificationCovers(positions, stale);
    GainingWithinCounted(positions, stale);
  }

  lemma {:induction false} ContributionsWeigh(contributions: seq<Contribution>, accounts: seq<Account>,
                                              positions: seq<Position>, counted: seq<Position>, total: Option<real>)
    requires |contributions| == |accounts|
    requires forall i :: 0 <= i < |accounts| ==>
               contributions[i] == ContributionOf(accounts[i], positions, counted, total)
    ensures Total(contributions, FreshValue) == Total(accounts, ValueIn(counted))
  {
    hide Filter, RoundHalfUp, Having;
    if accounts != [] {
      var n := |accounts| - 1;
      ContributionsWeigh(contributions[..n], accounts[..n], positions, counted, total);
      FreshValueIsCounted(accounts[n], positions, counted, total);
    }
  }

  lemma FreshValueIsCounted(a: Account, positions: seq<Position>, counted: seq<Position>, total: Option<real>)
    ensures FreshValue(ContributionOf(a, positions, counted, total)) == CountedValue(a, counted)
    ensures ContributionOf(a, positions, counted, total).isStale == a.isStale
  {
    hide Filter, Total, RoundHalfUp, Having;
  }

  lemma ReportTotal(r: Report, accounts: seq<Account>, positions: seq<Position>, naming: string -> string)
    requires StoredTogether(accounts, positions) && ReportOf(r, accounts, positions, naming)
    ensures TotalAgrees(r, accounts)
  {
    hide Filter, Total, Arranged, AccountSlices, SlicesOver, Keys, ContributionOf, SecurityType, Reasoned,
         StoredTogether;
    ContributionsWeigh(r.contributions, accounts, positions, CountedOf(accounts, positions), r.total);
    TotalIsSumOfAccounts(accounts, positions);
  }

  function CashValue(p: Position): real {
    if IsCash(p) then Value(p) else 0.0
  }

  lemma {:induction false} CashOfMembers(members: seq<Position>, k: string)
    requires forall p <- members :: p.assetClass == k
    ensures Total(members, CashValue) == if k in CASH_CLASSES then Total(members, Value) else 0.0
  {
    if members != [] {
      var rest, p := members[..|members| - 1], members[|members| - 1];
      assert p in members && forall q <- rest :: q in members;
      CashOfMembers(rest, k);
    }
  }

  lemma {:induction false} CashOfSlices(keys: seq<string>, counted: seq<Position>, naming: string -> string,
                                        denominator: real)
    requires denominator > 0.0
    ensures Total(SlicesOver(keys, counted, AssetClass, naming, denominator), CashAmount)
            == GroupTotals(keys, counted, AssetClass, CashValue)
  {
    hide RoundHalfUp, CASH_CLASSES;
    if keys != [] {
      var rest, k := keys[..|keys| - 1], keys[|keys| - 1];
      CashOfSlices(rest, counted, naming, denominator);
      var members := Having(counted, AssetClass, k);
      MembersHaveKey(counted, k);
      CashOfMembers(members, k);
      AppendOne(SlicesOver(rest, counted, AssetClass, naming, denominator), SliceOf(k, members, naming, denominator));
      SplitTotals(keys, counted, AssetClass, CashValue);
    }
  }

  lemma {:induction false} MembersHaveKey(counted: seq<Position>, k: string)
    ensures forall p <- Having(counted, AssetClass, k) :: p.assetClass == k
  {
    if counted != [] {
      var rest, p := counted[..|counted| - 1], counted[|counted| - 1];
      MembersHaveKey(rest, k);
      GrownGroup(rest, p, AssetClass, k, Value);
      assert counted == rest + [p];
    }
  }

  /** The cash shown is what the slices of the cash classes hold. */
  lemma CashIsItsSlices(counted: seq<Position>, naming: string -> string, denominator: real)
    requires denominator > 0.0
    ensures var slices := Arranged(SlicesOver(Keys(counted, AssetClass), counted, AssetClass, naming, denominator));
            Total(slices, CashAmount) == Total(Filter(counted, IsCash), Value)
  {
    hide Arranged, SlicesOver, Total, Filter, CASH_CLASSES;
    var keys := Keys(counted, AssetClass);
    var slices := SlicesOver(keys, counted, AssetClass, naming, denominator);
    ArrangedIsSorted(slices);
    TotalOfPermutation(slices, Arranged(slices), CashAmount);
    CashOfSlices(keys, counted, naming, denominator);
    KeysAreDistinct(counted, AssetClass);
    GroupsPartition(keys, counted, AssetClass, CashValue);
    TotalOfFilter(counted, IsCash, CashValue);
    SameOnCash(counted);
  }

  lemma {:induction false} SameOnCash(counted: seq<Position>)
    ensures Total(Filter(counted, IsCash), CashValue) == Total(Filter(counted, IsCash), Value)
  {
    hide CASH_CLASSES;
    if counted != [] {
      var rest, p := counted[..|counted| - 1], counted[|counted| - 1];
      SameOnCash(rest);
      AppendOne(Filter(rest, IsCash), p);
      assert Filter(rest, IsCash) + [] == Filter(rest, IsCash);
    }
  }

  lemma ReportGroups(r: Report, accounts: seq<Account>, positions: seq<Position>, naming: string -> string)
    requires ReportOf(r, accounts, positions, naming)
    ensures GroupsAgree(r)
  {
    hide Filter, Arranged, AccountSlices, SlicesOver, Keys, ContributionOf, SecurityType, Reasoned, CASH_CLASSES;
    if r.total.Some? && r.total.value > 0.0 {
      var counted := CountedOf(accounts, positions);
      assert counted != [];
      hide Total;
      AllocationConserves(counted, AssetClass, naming, r.total.value);
      AllocationConserves(counted, SecurityType, naming, r.total.value);
      CashIsItsSlices(counted, naming, r.total.value);
    }
  }

  lemma ReportAccounts(r: Report, accounts: seq<Account>, positions: seq<Position>, naming: string -> string)
    requires StoredTogether(accounts, positions) && ReportOf(r, accounts, positions, naming)
    ensures AccountsAgree(r, accounts, CountedOf(accounts, positions))
  {
    hide Filter, Total, Arranged, AccountSlices, SlicesOver, Keys, ContributionOf, SecurityType, Reasoned,
         StoredTogether;
    hide Holds, CountedValue, FreshValue;
    var counted := CountedOf(accounts, positions);
    AccountSlicesAddUpExactly(accounts, positions, r.total);
    AccountCountsAddUpExactly(accounts, positions, r.total);
    ShownIsCounted(r.contributions, accounts, positions, counted, r.total);
  }

  lemma ShownIsCounted(contributions: seq<Contribution>, accounts: seq<Account>, positions: seq<Position>,
                       counted: seq<Position>, total: Option<real>)
    requires |contributions| == |accounts|
    requires forall i :: 0 <= i < |accounts| ==>
               contributions[i] == ContributionOf(accounts[i], positions, counted, total)
    ensures (forall c <- contributions | !c.isStale :: FreshValue(c) >= 0.0) <==>
            forall a <- accounts :: CountedValue(a, counted) >= 0.0
  {
    hide ContributionOf, FreshValue;
    forall i | 0 <= i < |accounts|
      ensures FreshValue(contributions[i]) == CountedValue(accounts[i], counted)
      ensures contributions[i].isStale == accounts[i].isStale
    {
      FreshValueIsCounted(accounts[i], positions, counted, total);
    }
    if forall c <- contributions | !c.isStale :: FreshValue(c) >= 0.0 {
      forall a <- accounts ensures CountedValue(a, counted) >= 0.0 {
        var i :| 0 <= i < |accounts| && accounts[i] == a;
        assert contributions[i] in contributions;
      }
    }
    if forall a <- accounts :: CountedValue(a, counted) >= 0.0 {
      forall c <- contributions | !c.isStale ensures FreshValue(c) >= 0.0 {
        var i :| 0 <= i < |contributions| && contributions[i] == c;
        assert accounts[i] in accounts;
      }
    }
  }

  /** The overview of stored accounts and positions is consistent in all its figures. */
  lemma ReportAgrees(r: Report, accounts: seq<Account>, positions: seq<Position>, naming: string -> string)
    requires StoredTogether(accounts, positions) && ReportOf(r, accounts, positions, naming)
    ensures CountsAgree(r, |positions|) && TotalAgrees(r, accounts) && GroupsAgree(r)
    ensures AccountsAgree(r, accounts, CountedOf(accounts, positions))
  {
    hide *;
    ReportCounts(r, accounts, positions, naming);
    ReportTotal(r, accounts, positions, naming);
    ReportGroups(r, accounts, positions, naming);
    ReportAccounts(r, accounts, positions, naming);
  }

  // ---------- Account slices that do not add up ----------

  const LONG := Account("long", "Long", false)
  const SHORT := Account("short", "Short", false)
  const HELD := Position("long", "equity", "USD", Some(10.0), None)
  const OWED := Position("short", "equity", "USD", Some(-5.0), None)

  lemma BothAreCounted()
    ensures CountedOf([LONG, SHORT], [HELD, OWED]) == [HELD, OWED]
    ensures StoredTogether([LONG, SHORT], [HELD, OWED])
  {
    var stale := StaleIds([LONG, SHORT]);
    NothingClassified(stale);
    OneMorePosition([], HELD, stale);
    OneMorePosition([HELD], OWED, stale);
    assert [HELD, OWED] == [HELD] + [OWED] && [HELD] == [] + [HELD];
    assert LONG in [LONG, SHORT] && SHORT in [LONG, SHORT];
  }

  lemma ShortOwes()
    ensures Having([HELD, OWED], AccountOf, SHORT.id) == [OWED]
    ensures Holds(SHORT, [HELD, OWED]) && CountedValue(SHORT, [HELD, OWED]) == -5.0
    ensures Total([HELD, OWED], Value) == 5.0
  {
    assert [HELD, OWED] == [HELD] + [OWED] && [HELD] == [] + [HELD];
    GrownGroup([], HELD, AccountOf, SHORT.id, Value);
    GrownGroup([HELD], OWED, AccountOf, SHORT.id, Value);
    TotalAppend([], HELD, Value);
    TotalAppend([HELD], OWED, Value);
    assert HELD.accountId != SHORT.id;
  }

  /** Two fresh accounts, one of which owes more than it holds: the slices of the account group hold more than
      the total, and not the positions that were counted. */
  lemma SomeAccountSlicesDoNotAddUp(r: Report, naming: string -> string)
    requires ReportOf(r, [LONG, SHORT], [HELD, OWED], naming)
    ensures StoredTogether([LONG, SHORT], [HELD, OWED])
    ensures r.total == Some(5.0) && r.byAccount.included == 2
    ensures Total(r.byAccount.slices, AmountOf) > 5.0 && Total(r.byAccount.slices, CountOf) < 2.0
  {
    hide Arranged, AccountSlices, Total, Having, Filter, ContributionOf, GroupOver, Reasoned, StoredTogether,
         CountedValue;
    var accounts, counted := [LONG, SHORT], [HELD, OWED];
    BothAreCounted();
    ShortOwes();
    assert LONG in accounts && SHORT in accounts;
    AccountSlicesHoldAtLeast(accounts, [HELD, OWED], r.total);
    AccountSlicesAddUpExactly(accounts, [HELD, OWED], r.total);
    AccountCountsAddUpExactly(accounts, [HELD, OWED], r.total);
  }
}
