/** The portfolio's detailed view: three tables (lending, staking, AMM pools) derived from
    constant arrays by a filter and a numeric sort, all driven by one set of controls. */
module DetailedView {
  import opened Lists
  import opened Text
  import opened Order

  datatype LendingAsset = LendingAsset(
    asset: string, protocol: string, amountLent: real, interestRate: real,
    duration: string, expectedReturn: real)

  datatype StakingAsset = StakingAsset(
    asset: string, protocol: string, stakingPeriod: string, currentRewards: real, apy: real)

  datatype AmmPool = AmmPool(
    poolName: string, protocol: string, tvl: real, userShare: real, earnedFees: real)

  /** The page's controls: the protocol select, an asset filter no control ever sets, the
      sort select (its placeholder gives "") and the search box, shared by all tables. */
  datatype Controls = Controls(filterProtocol: string, filterAsset: string, sortOrder: string, searchTerm: string)

  const InitialControls := Controls("", "", "asc", "")

  /** `(term ? text.toLowerCase().includes(term.toLowerCase()) : true)`. */
  predicate SearchHit(term: string, text: string)
  {
    if term != "" then ContainsIgnoreCase(text, term) else true
  }

  /** `(!filter || value === filter)`. */
  predicate Optional(filter: string, value: string)
  {
    filter == "" || value == filter
  }

  /** Only "desc" sorts high to low; "asc" and the placeholder's "" sort low to high. */
  predicate Descending(c: Controls)
  {
    c.sortOrder == "desc"
  }

  predicate LendingMatches(c: Controls, a: LendingAsset)
  {
    Optional(c.filterProtocol, a.protocol) && Optional(c.filterAsset, a.asset) && SearchHit(c.searchTerm, a.asset)
  }

  function LendingFilter(c: Controls): LendingAsset -> bool
  {
    a => LendingMatches(c, a)
  }

  function LendingKey(): LendingAsset -> SortKey
  {
    (a: LendingAsset) => Num(a.expectedReturn)
  }

  /** `filteredLendingAssets`. */
  function FilteredLending(rows: seq<LendingAsset>, c: Controls): seq<LendingAsset>
  {
    SortBy(Filter(rows, LendingFilter(c)), LendingKey(), Descending(c))
  }

  /** Staking rows see the protocol select and the search box, never the asset filter. */
  predicate StakingMatches(protocol: string, term: string, a: StakingAsset)
  {
    Optional(protocol, a.protocol) && SearchHit(term, a.asset)
  }

  function StakingFilter(c: Controls): StakingAsset -> bool
  {
    a => StakingMatches(c.filterProtocol, c.searchTerm, a)
  }

  function StakingKey(): StakingAsset -> SortKey
  {
    (a: StakingAsset) => Num(a.currentRewards)
  }

  /** `filteredStakingAssets`: no asset filter. */
  function FilteredStaking(rows: seq<StakingAsset>, c: Controls): seq<StakingAsset>
  {
    SortBy(Filter(rows, StakingFilter(c)), StakingKey(), Descending(c))
  }

  function AmmFilter(c: Controls): AmmPool -> bool
  {
    (p: AmmPool) => SearchHit(c.searchTerm, p.poolName)
  }

  function AmmKey(): AmmPool -> SortKey
  {
    (p: AmmPool) => Num(p.earnedFees)
  }

  /** `filteredAmmPools`: the search on the pool name is the only filter. */
  function FilteredAmm(rows: seq<AmmPool>, c: Controls): seq<AmmPool>
  {
    SortBy(Filter(rows, AmmFilter(c)), AmmKey(), Descending(c))
  }

  /** The search ignores case, and an empty search keeps every row. */
  lemma SearchHitIff(term: string, text: string)
    ensures SearchHit(term, text) <==> ContainsIgnoreCase(text, term)
  {
    if term == "" {
      assert ToLower(term) <= ToLower(text);
    }
  }

  /** A lending row is listed exactly when the protocol filter is empty or equal, the asset
      filter is empty or equal, and the search is a case-insensitive part of the asset; the
      listed rows are a permutation of a subsequence of the source array. */
  lemma LendingRows(rows: seq<LendingAsset>, c: Controls)
    ensures var kept := Filter(rows, LendingFilter(c));
      var r := FilteredLending(rows, c);
      && IsSubsequence(kept, rows)
      && multiset(r) == multiset(kept)
      && (forall i :: 0 <= i < |r| ==>
            && r[i] in rows
            && (c.filterProtocol == "" || r[i].protocol == c.filterProtocol)
            && (c.filterAsset == "" || r[i].asset == c.filterAsset)
            && ContainsIgnoreCase(r[i].asset, c.searchTerm))
      && (forall i :: 0 <= i < |rows| && LendingMatches(c, rows[i]) ==> rows[i] in r)
  {
    FilterSortShape(rows, LendingFilter(c), LendingKey(), Descending(c));
    var r := FilteredLending(rows, c);
    forall i | 0 <= i < |r|
      ensures ContainsIgnoreCase(r[i].asset, c.searchTerm)
    {
      assert LendingMatches(c, r[i]);
      SearchHitIff(c.searchTerm, r[i].asset);
    }
  }

  /** Lending rows are sorted by expected return, high to low only for "desc", and rows of
      equal return keep their order. */
  lemma LendingOrder(rows: seq<LendingAsset>, c: Controls)
    ensures var r := FilteredLending(rows, c);
      && (forall i, j :: 0 <= i < j < |r| ==>
            if c.sortOrder == "desc" then r[j].expectedReturn <= r[i].expectedReturn
            else r[i].expectedReturn <= r[j].expectedReturn)
      && (forall k :: WithKey(r, LendingKey(), k) == WithKey(Filter(rows, LendingFilter(c)), LendingKey(), k))
  {
    var kept := Filter(rows, LendingFilter(c));
    SortBySorted(kept, LendingKey(), Descending(c));
    forall k
      ensures WithKey(FilteredLending(rows, c), LendingKey(), k) == WithKey(kept, LendingKey(), k)
    {
      SortByStable(kept, LendingKey(), Descending(c), k);
    }
  }

  /** Staking rows pass the protocol filter and the search on the asset name. */
  lemma StakingRows(rows: seq<StakingAsset>, c: Controls)
    ensures var kept := Filter(rows, StakingFilter(c));
      var r := FilteredStaking(rows, c);
      && IsSubsequence(kept, rows)
      && multiset(r) == multiset(kept)
      && (forall i :: 0 <= i < |r| ==>
            && r[i] in rows
            && (c.filterProtocol == "" || r[i].protocol == c.filterProtocol)
            && ContainsIgnoreCase(r[i].asset, c.searchTerm))
      && (forall i :: 0 <= i < |rows| && StakingMatches(c.filterProtocol, c.searchTerm, rows[i]) ==> rows[i] in r)
  {
    FilterSortShape(rows, StakingFilter(c), StakingKey(), Descending(c));
    var r := FilteredStaking(rows, c);
    forall i | 0 <= i < |r|
      ensures ContainsIgnoreCase(r[i].asset, c.searchTerm)
    {
      assert StakingMatches(c.filterProtocol, c.searchTerm, r[i]);
      SearchHitIff(c.searchTerm, r[i].asset);
    }
  }

  /** The asset filter plays no part in the staking table. */
  lemma StakingIgnoresAssetFilter(rows: seq<StakingAsset>, c: Controls, otherAsset: string)
    ensures FilteredStaking(rows, c.(filterAsset := otherAsset)) == FilteredStaking(rows, c)
  {
    assert StakingFilter(c.(filterAsset := otherAsset)) == StakingFilter(c);
  }

  /** Staking rows are sorted by current rewards, high to low only for "desc". */
  lemma StakingOrder(rows: seq<StakingAsset>, c: Controls)
    ensures var r := FilteredStaking(rows, c);
      forall i, j :: 0 <= i < j < |r| ==>
        if c.sortOrder == "desc" then r[j].currentRewards <= r[i].currentRewards
        else r[i].currentRewards <= r[j].currentRewards
  {
    SortBySorted(Filter(rows, StakingFilter(c)), StakingKey(), Descending(c));
  }

  /** AMM pools pass only the search on the pool name, sorted by earned fees; the protocol
      and asset filters play no part. */
  lemma AmmTable(rows: seq<AmmPool>, c: Controls, otherProtocol: string, otherAsset: string)
    ensures var kept := Filter(rows, AmmFilter(c));
      var r := FilteredAmm(rows, c);
      && IsSubsequence(kept, rows)
      && multiset(r) == multiset(kept)
      && (forall i :: 0 <= i < |r| ==> r[i] in rows && ContainsIgnoreCase(r[i].poolName, c.searchTerm))
      && (forall i :: 0 <= i < |rows| && ContainsIgnoreCase(rows[i].poolName, c.searchTerm) ==> rows[i] in r)
      && (forall i, j :: 0 <= i < j < |r| ==>
            if c.sortOrder == "desc" then r[j].earnedFees <= r[i].earnedFees
            else r[i].earnedFees <= r[j].earnedFees)
      && FilteredAmm(rows, c.(filterProtocol := otherProtocol, filterAsset := otherAsset)) == r
  {
    FilterSortShape(rows, AmmFilter(c), AmmKey(), Descending(c));
    var r := FilteredAmm(rows, c);
    forall i | 0 <= i < |r|
      ensures ContainsIgnoreCase(r[i].poolName, c.searchTerm)
    {
      SearchHitIff(c.searchTerm, r[i].poolName);
    }
    forall i | 0 <= i < |rows| && ContainsIgnoreCase(rows[i].poolName, c.searchTerm)
      ensures rows[i] in r
    {
      SearchHitIff(c.searchTerm, rows[i].poolName);
    }
    assert IsSortedBy(r, AmmKey(), Descending(c));
    assert AmmFilter(c.(filterProtocol := otherProtocol, filterAsset := otherAsset)) == AmmFilter(c);
  }

  /** One search box and one sort select drive all three tables: with an empty search and no
      protocol filter every table holds exactly its array's rows, reordered by the sort
      (the asset filter is never set). */
  lemma ClearedControlsKeepAll(lending: seq<LendingAsset>, staking: seq<StakingAsset>, pools: seq<AmmPool>, order: string)
    ensures var c := InitialControls.(sortOrder := order);
      && multiset(FilteredLending(lending, c)) == multiset(lending)
      && multiset(FilteredStaking(staking, c)) == multiset(staking)
      && multiset(FilteredAmm(pools, c)) == multiset(pools)
  {
    var c := InitialControls.(sortOrder := order);
    FilterAll(lending, LendingFilter(c));
    FilterAll(staking, StakingFilter(c));
    FilterAll(pools, AmmFilter(c));
    SortByPermutes(lending, LendingKey(), Descending(c));
    SortByPermutes(staking, StakingKey(), Descending(c));
    SortByPermutes(pools, AmmKey(), Descending(c));
  }
}
