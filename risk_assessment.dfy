/** The collateralization table of the risk assessment page: a copy of the collateral array
    sorted by ratio, then narrowed by a case-sensitive substring filter on the asset, each row
    labelled "At Risk" or "Safe" against its own threshold. */
module RiskAssessment {
  import opened Lists
  import opened Text
  import opened Order

  datatype Collateral = Collateral(asset: string, ratio: real, safeThreshold: real)

  /** `collateralData`. */
  const CollateralData: seq<Collateral> := [
    Collateral("BTC", 1.5, 2.0),
    Collateral("ETH", 1.2, 1.5),
    Collateral("LINK", 0.9, 1.0),
    Collateral("UNI", 1.8, 2.0),
    Collateral("AAVE", 1.1, 1.5)
  ]

  /** The two inputs of the table: the filter box and the order the buttons set. */
  datatype RiskControls = RiskControls(filterRisk: string, sortOrder: string)

  const InitialControls := RiskControls("", "asc")

  /** Only exactly "asc" sorts low to high; every other value sorts high to low. */
  predicate Descending(c: RiskControls)
  {
    c.sortOrder != "asc"
  }

  function RatioKey(): Collateral -> SortKey
  {
    (e: Collateral) => Num(e.ratio)
  }

  /** `entry => entry.asset.includes(filterRisk)`. */
  function AssetFilter(filter: string): Collateral -> bool
  {
    (e: Collateral) => Contains(e.asset, filter)
  }

  /** `sortedCollateralData`: sort first, filter second. */
  function SortedCollateral(data: seq<Collateral>, c: RiskControls): seq<Collateral>
  {
    Filter(SortBy(data, RatioKey(), Descending(c)), AssetFilter(c.filterRisk))
  }

  /** `handleSortOrderChange`: the buttons pass "asc" and "desc"; the filter is untouched. */
  function SetSortOrder(c: RiskControls, order: string): (r: RiskControls)
    ensures r.sortOrder == order && r.filterRisk == c.filterRisk
  {
    c.(sortOrder := order)
  }

  /** `handleFilterChange`: the typed text becomes the filter; the order is untouched. */
  function SetFilter(c: RiskControls, text: string): (r: RiskControls)
    ensures r.filterRisk == text && r.sortOrder == c.sortOrder
  {
    c.(filterRisk := text)
  }

  datatype Status = AtRisk | Safe

  /** The status badge: strictly below the threshold is at risk, reaching it is safe. */
  function StatusOf(e: Collateral): (s: Status)
    ensures s == AtRisk <==> e.ratio < e.safeThreshold
    ensures e.ratio == e.safeThreshold ==> s == Safe
  {
    if e.ratio < e.safeThreshold then AtRisk else Safe
  }

  /** Filtering after the sort gives the same table as filtering before it. */
  lemma SortThenFilterIsFilterThenSort(data: seq<Collateral>, c: RiskControls)
    ensures SortedCollateral(data, c) == SortBy(Filter(data, AssetFilter(c.filterRisk)), RatioKey(), Descending(c))
  {
    FilterSortCommute(data, AssetFilter(c.filterRisk), RatioKey(), Descending(c));
  }

  /** The table holds exactly the entries whose asset contains the filter text, each once per
      occurrence in the source array, and it stays ordered by ratio after the filter. */
  lemma TableShape(data: seq<Collateral>, c: RiskControls)
    ensures var kept := Filter(data, AssetFilter(c.filterRisk));
      var r := SortedCollateral(data, c);
      && IsSubsequence(kept, data)
      && multiset(r) == multiset(kept)
      && (forall i :: 0 <= i < |r| ==> r[i] in data && Contains(r[i].asset, c.filterRisk))
      && (forall i :: 0 <= i < |data| && Contains(data[i].asset, c.filterRisk) ==> data[i] in r)
  {
    SortThenFilterIsFilterThenSort(data, c);
    FilterSortShape(data, AssetFilter(c.filterRisk), RatioKey(), Descending(c));
  }

  /** Ratios rise down the table for "asc" and fall for any other order. */
  lemma TableOrder(data: seq<Collateral>, c: RiskControls)
    ensures var r := SortedCollateral(data, c);
      forall i, j :: 0 <= i < j < |r| ==>
        if c.sortOrder == "asc" then r[i].ratio <= r[j].ratio else r[j].ratio <= r[i].ratio
  {
    SortThenFilterIsFilterThenSort(data, c);
    SortBySorted(Filter(data, AssetFilter(c.filterRisk)), RatioKey(), Descending(c));
  }

  /** An empty filter keeps every entry: the table is a reordering of the whole array. */
  lemma EmptyFilterKeepsAll(data: seq<Collateral>, order: string)
    ensures var r := SortedCollateral(data, RiskControls("", order));
      |r| == |data| && multiset(r) == multiset(data)
  {
    var f := AssetFilter("");
    forall i | 0 <= i < |data|
      ensures f(data[i])
    {
      assert data[i].asset[..0] == "";
    }
    FilterAll(data, f);
    SortThenFilterIsFilterThenSort(data, RiskControls("", order));
    SortByPermutes(data, RatioKey(), order != "asc");
  }

  /** The two buttons give the two directions, whatever the filter. */
  lemma ButtonsSetDirection(data: seq<Collateral>, c: RiskControls)
    ensures var up := SortedCollateral(data, SetSortOrder(c, "asc"));
      forall i, j :: 0 <= i < j < |up| ==> up[i].ratio <= up[j].ratio
    ensures var down := SortedCollateral(data, SetSortOrder(c, "desc"));
      forall i, j :: 0 <= i < j < |down| ==> down[j].ratio <= down[i].ratio
  {
    TableOrder(data, SetSortOrder(c, "asc"));
    TableOrder(data, SetSortOrder(c, "desc"));
  }

  /** Under a common threshold and the ascending order, every "At Risk" row comes before every
      "Safe" row. */
  lemma AtRiskRowsComeFirst(data: seq<Collateral>, c: RiskControls, threshold: real)
    requires c.sortOrder == "asc"
    requires forall i :: 0 <= i < |data| ==> data[i].safeThreshold == threshold
    ensures var r := SortedCollateral(data, c);
      forall i, j :: 0 <= i < j < |r| && StatusOf(r[j]) == AtRisk ==> StatusOf(r[i]) == AtRisk
  {
    TableOrder(data, c);
    TableShape(data, c);
  }

  /** Every entry of the sample array is below its threshold. */
  lemma SampleAllAtRisk()
    ensures forall i :: 0 <= i < |CollateralData| ==> StatusOf(CollateralData[i]) == AtRisk
  {
  }

  /** The sample array sorted by ratio, low to high: LINK, AAVE, ETH, BTC, UNI. */
  lemma SampleSortedAscending()
    ensures SortBy(CollateralData, RatioKey(), false)
         == [CollateralData[2], CollateralData[4], CollateralData[1], CollateralData[0], CollateralData[3]]
  {
    var d := CollateralData;
    var btc, eth, link, uni, aave := d[0], d[1], d[2], d[3], d[4];
    var key := RatioKey();
    assert d[..1] == [btc] && d[..2] == [btc, eth] && d[..3] == [btc, eth, link];
    assert d[..4] == [btc, eth, link, uni] && d[..5] == d;
    assert d[..2][..1] == d[..1] && d[..3][..2] == d[..2] && d[..4][..3] == d[..3] && d[..4] == d[..|d| - 1];
    assert SortBy(d[..1], key, false) == [btc];
    assert SortBy(d[..2], key, false) == Insert([btc], eth, key, false) == [eth, btc];
    assert SortBy(d[..3], key, false) == Insert([eth, btc], link, key, false) == [link, eth, btc];
    assert Insert([btc], uni, key, false) == [btc, uni];
    assert Insert([eth, btc], uni, key, false) == [eth, btc, uni];
    assert SortBy(d[..4], key, false) == Insert([link, eth, btc], uni, key, false) == [link, eth, btc, uni];
    assert Insert([eth, btc, uni], aave, key, false) == [aave, eth, btc, uni];
    assert SortBy(d, key, false) == Insert([link, eth, btc, uni], aave, key, false) == [link, aave, eth, btc, uni];
  }

  /** On first render (order "asc", empty filter) the table lists LINK, AAVE, ETH, BTC, UNI. */
  lemma InitialTable()
    ensures SortedCollateral(CollateralData, InitialControls)
         == [CollateralData[2], CollateralData[4], CollateralData[1], CollateralData[0], CollateralData[3]]
  {
    SampleSortedAscending();
    var sorted := SortBy(CollateralData, RatioKey(), false);
    var f := AssetFilter("");
    forall i | 0 <= i < |sorted|
      ensures f(sorted[i])
    {
      assert sorted[i].asset[..0] == "";
    }
    FilterAll(sorted, f);
  }
}
