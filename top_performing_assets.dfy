/** The top performing assets grid: five constant assets narrowed by a case-insensitive search
    on the name and sorted by return, each card with a signed return badge and a signed profit
    line, and one "expanded" flag shared by every card. */
module TopPerformingAssets {
  import opened Lists
  import opened Text
  import opened Order

  datatype TopAsset = TopAsset(name: string, protocol: string, ret: real, profit: real)

  /** `topAssets`, without the icons, descriptions and chart points, which are only drawn. */
  const TopAssets: seq<TopAsset> := [
    TopAsset("Bitcoin", "BTC Protocol", 45.6, 12000.0),
    TopAsset("Ethereum", "ETH Protocol", 30.2, 8500.0),
    TopAsset("Chainlink", "LINK Protocol", 25.8, 6000.0),
    TopAsset("Uniswap", "UNI Protocol", 20.1, 5000.0),
    TopAsset("Aave", "AAVE Protocol", 15.3, 4000.0)
  ]

  /** The component's three state variables. The sort select's placeholder gives "". */
  datatype GridState = GridState(expanded: bool, sortOrder: string, search: string)

  const InitialState := GridState(false, "desc", "")

  /** `toggleExpand`: one flag for all cards. */
  function ToggleExpand(g: GridState): (r: GridState)
    ensures r.expanded == !g.expanded
    ensures r.sortOrder == g.sortOrder && r.search == g.search
  {
    g.(expanded := !g.expanded)
  }

  function SetSearch(g: GridState, text: string): (r: GridState)
    ensures r.search == text && r.expanded == g.expanded && r.sortOrder == g.sortOrder
  {
    g.(search := text)
  }

  function SetSortOrder(g: GridState, value: string): (r: GridState)
    ensures r.sortOrder == value && r.expanded == g.expanded && r.search == g.search
  {
    g.(sortOrder := value)
  }

  function NameMatches(search: string): TopAsset -> bool
  {
    (a: TopAsset) => ContainsIgnoreCase(a.name, search)
  }

  function ReturnKey(): TopAsset -> SortKey
  {
    (a: TopAsset) => Num(a.ret)
  }

  /** `filteredAssets`: search first, then sort, high to low only for "desc". */
  function FilteredAssets(assets: seq<TopAsset>, g: GridState): seq<TopAsset>
  {
    SortBy(Filter(assets, NameMatches(g.search)), ReturnKey(), g.sortOrder == "desc")
  }

  /** What the grid shows: one card per listed asset, or the "No assets found" box. */
  datatype Grid = Cards(assets: seq<TopAsset>) | NoAssetsFound

  function GridOf(assets: seq<TopAsset>, g: GridState): (r: Grid)
    ensures r.Cards? ==> r.assets != []
  {
    var listed := FilteredAssets(assets, g);
    if |listed| > 0 then Cards(listed) else NoAssetsFound
  }

  /** Toggling twice restores the flag and leaves the grid as it was. */
  lemma ToggleTwice(g: GridState)
    ensures ToggleExpand(ToggleExpand(g)) == g
    ensures forall assets: seq<TopAsset> :: GridOf(assets, ToggleExpand(g)) == GridOf(assets, g)
  {
  }

  /** The grid lists exactly the assets whose name contains the search, ignoring case, as a
      permutation of a subsequence of the array. */
  lemma FilteredShape(assets: seq<TopAsset>, g: GridState)
    ensures var kept := Filter(assets, NameMatches(g.search));
      var r := FilteredAssets(assets, g);
      && IsSubsequence(kept, assets)
      && multiset(r) == multiset(kept)
      && (forall i :: 0 <= i < |r| ==> r[i] in assets && ContainsIgnoreCase(r[i].name, g.search))
      && (forall i :: 0 <= i < |assets| && ContainsIgnoreCase(assets[i].name, g.search) ==> assets[i] in r)
  {
    FilterSortShape(assets, NameMatches(g.search), ReturnKey(), g.sortOrder == "desc");
  }

  /** The listed assets are ordered by return, high to low only for "desc". */
  lemma FilteredOrder(assets: seq<TopAsset>, g: GridState)
    ensures var r := FilteredAssets(assets, g);
      forall i, j :: 0 <= i < j < |r| ==>
        if g.sortOrder == "desc" then r[j].ret <= r[i].ret else r[i].ret <= r[j].ret
  {
    SortBySorted(Filter(assets, NameMatches(g.search)), ReturnKey(), g.sortOrder == "desc");
  }

  /** "No assets found" is shown exactly when no name contains the search. */
  lemma NoAssetsFoundIff(assets: seq<TopAsset>, g: GridState)
    ensures GridOf(assets, g) == NoAssetsFound
        <==> forall i :: 0 <= i < |assets| ==> !ContainsIgnoreCase(assets[i].name, g.search)
  {
    FilteredShape(assets, g);
    var r := FilteredAssets(assets, g);
    if r != [] {
      assert r[0] in r;
    }
  }

  lemma EmptySearchMatches(a: TopAsset)
    ensures NameMatches("")(a)
  {
    assert ToLower("") == "";
    assert ToLower(a.name)[..0] == "";
  }

  /** The array is listed from the highest return to the lowest. */
  lemma TopAssetsByReturn()
    ensures IsSortedBy(TopAssets, ReturnKey(), true)
  {
    var t := TopAssets;
    assert t[0].ret == 45.6 && t[1].ret == 30.2 && t[2].ret == 25.8 && t[3].ret == 20.1 && t[4].ret == 15.3;
    forall i, j | 0 <= i < j < |t|
      ensures InOrder(ReturnKey()(t[i]), ReturnKey()(t[j]), true)
    {
      assert t[j].ret <= t[i].ret by {
        if i == 0 {
        } else if i == 1 {
        } else if i == 2 {
        } else {
          assert i == 3 && j == 4;
        }
      }
    }
  }

  /** On first render (empty search, "desc") all five assets are listed, highest return first,
      which is the order of the array itself. */
  lemma InitialGrid()
    ensures FilteredAssets(TopAssets, InitialState) == TopAssets
  {
    forall i | 0 <= i < |TopAssets|
      ensures NameMatches("")(TopAssets[i])
    {
      EmptySearchMatches(TopAssets[i]);
    }
    FilterAll(TopAssets, NameMatches(""));
    TopAssetsByReturn();
    SortByOfSorted(TopAssets, ReturnKey(), true);
  }

  /** An empty search keeps all five assets in either order. */
  lemma EmptySearchKeepsAllFive(g: GridState)
    requires g.search == ""
    ensures |FilteredAssets(TopAssets, g)| == 5
    ensures multiset(FilteredAssets(TopAssets, g)) == multiset(TopAssets)
  {
    forall i | 0 <= i < |TopAssets|
      ensures NameMatches(g.search)(TopAssets[i])
    {
      EmptySearchMatches(TopAssets[i]);
    }
    FilterAll(TopAssets, NameMatches(g.search));
    SortByPermutes(TopAssets, ReturnKey(), g.sortOrder == "desc");
  }

  datatype Color = Green | Red
  datatype Arrow = Up | Down

  /** The return badge: colour, arrow and the magnitude printed next to the arrow. */
  datatype Badge = Badge(color: Color, arrow: Arrow, magnitude: real)

  function Abs(x: real): (r: real)
    ensures r >= 0.0 && (r == x || r == -x)
  {
    if x < 0.0 then -x else x
  }

  /** Strictly positive returns are green with an up arrow; zero and losses are red with a
      down arrow and the absolute value. */
  function ReturnBadge(ret: real): (b: Badge)
    ensures b.color == Green <==> ret > 0.0
    ensures b.arrow == Up <==> ret > 0.0
    ensures b.magnitude >= 0.0
  {
    if ret > 0.0 then Badge(Green, Up, ret) else Badge(Red, Down, Abs(ret))
  }

  /** The badge loses nothing: its arrow and magnitude give back the return. */
  lemma BadgeRecoversReturn(ret: real)
    ensures var b := ReturnBadge(ret);
      (if b.arrow == Up then b.magnitude else -b.magnitude) == ret
  {
  }

  /** The profit line: its colour and its text, the sign, a dollar sign and the absolute
      value as `show` writes it (`toLocaleString`). */
  datatype ProfitLine = ProfitLine(color: Color, text: string)

  function ProfitLineOf(profit: real, show: real -> string): (l: ProfitLine)
    ensures |l.text| >= 2 && l.text[1] == '$' && l.text[2..] == show(Abs(profit))
    ensures l.text[0] == '+' <==> profit > 0.0
    ensures l.text[0] == '-' <==> profit <= 0.0
    ensures l.color == Green <==> profit > 0.0
  {
    var sign := if profit > 0.0 then "+" else "-";
    ProfitLine(if profit > 0.0 then Green else Red, sign + "$" + show(Abs(profit)))
  }

  /** A zero profit is written with a minus sign. */
  lemma ZeroProfitShowsMinus(show: real -> string)
    ensures ProfitLineOf(0.0, show).text == "-$" + show(0.0)
  {
  }

  /** For a non-zero profit the sign and the magnitude give back the profit. */
  lemma ProfitLineRecoversProfit(profit: real, show: real -> string)
    requires profit != 0.0
    ensures var t := ProfitLineOf(profit, show).text;
      (if t[0] == '+' then Abs(profit) else -Abs(profit)) == profit
  {
  }
}
