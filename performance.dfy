/** The profit-and-loss part of the performance report: a fold of the per-asset entries into
    five running totals, the per-asset values of the protocol pie chart, and the ticker to icon
    lookup. */
module Performance {
  import opened Lists

  datatype PAndL = PAndL(
    asset: string, realizedGain: real, unrealizedGain: real,
    stakingRewards: real, interestIncome: real, ammFees: real)

  /** `totalPAndL`: the accumulator object, one field per gain kind. */
  datatype Totals = Totals(
    realizedGain: real, unrealizedGain: real, stakingRewards: real, interestIncome: real, ammFees: real)

  const ZeroTotals := Totals(0.0, 0.0, 0.0, 0.0, 0.0)

  /** `generatePAndLData()`. */
  const PAndLData: seq<PAndL> := [
    PAndL("BTC", 1500.0, 1000.0, 100.0, 50.0, 20.0),
    PAndL("ETH", 800.0, 600.0, 50.0, 30.0, 10.0),
    PAndL("LINK", 500.0, 400.0, 20.0, 10.0, 5.0),
    PAndL("UNI", 300.0, 200.0, 10.0, 5.0, 3.0),
    PAndL("AAVE", 200.0, 100.0, 5.0, 2.0, 2.0)
  ]

  datatype Field = Realized | Unrealized | Staking | Interest | Amm

  function FieldOf(e: PAndL, f: Field): real
  {
    match f
    case Realized => e.realizedGain
    case Unrealized => e.unrealizedGain
    case Staking => e.stakingRewards
    case Interest => e.interestIncome
    case Amm => e.ammFees
  }

  function TotalOf(t: Totals, f: Field): real
  {
    match f
    case Realized => t.realizedGain
    case Unrealized => t.unrealizedGain
    case Staking => t.stakingRewards
    case Interest => t.interestIncome
    case Amm => t.ammFees
  }

  /** One column of the entries. */
  function Column(entries: seq<PAndL>, f: Field): (r: seq<real>)
    ensures |r| == |entries|
    ensures forall i :: 0 <= i < |entries| ==> r[i] == FieldOf(entries[i], f)
  {
    seq(|entries|, i requires 0 <= i < |entries| => FieldOf(entries[i], f))
  }

  /** The reduce: each entry's five gains are added into a fresh accumulator that starts at
      zero; the entries are read, never written. */
  method TotalPAndL(entries: seq<PAndL>) returns (acc: Totals)
    ensures forall f :: TotalOf(acc, f) == Sum(Column(entries, f))
    ensures entries == [] ==> acc == ZeroTotals
  {
    acc := ZeroTotals;
    var i := 0;
    while i < |entries|
      invariant 0 <= i <= |entries|
      invariant forall f :: TotalOf(acc, f) == Sum(Column(entries[..i], f))
      invariant i == 0 ==> acc == ZeroTotals
    {
      var curr := entries[i];
      forall f
        ensures Sum(Column(entries[..i + 1], f)) == Sum(Column(entries[..i], f)) + FieldOf(curr, f)
      {
        assert Column(entries[..i + 1], f)[..i] == Column(entries[..i], f);
      }
      acc := acc.(realizedGain := acc.realizedGain + curr.realizedGain);
      acc := acc.(unrealizedGain := acc.unrealizedGain + curr.unrealizedGain);
      acc := acc.(stakingRewards := acc.stakingRewards + curr.stakingRewards);
      acc := acc.(interestIncome := acc.interestIncome + curr.interestIncome);
      acc := acc.(ammFees := acc.ammFees + curr.ammFees);
      i := i + 1;
    }
    assert entries[..|entries|] == entries;
  }

  /** The pie's labels: one ticker per entry, in entry order. */
  function PieLabels(entries: seq<PAndL>): (r: seq<string>)
    ensures |r| == |entries|
    ensures forall i :: 0 <= i < |entries| ==> r[i] == entries[i].asset
  {
    seq(|entries|, i requires 0 <= i < |entries| => entries[i].asset)
  }

  /** The pie's values: realized plus unrealized gain of each entry, in the labels' order. */
  function PieValues(entries: seq<PAndL>): (r: seq<real>)
    ensures |r| == |PieLabels(entries)|
    ensures forall i :: 0 <= i < |r| ==> r[i] == FieldOf(entries[i], Realized) + FieldOf(entries[i], Unrealized)
  {
    seq(|entries|, i requires 0 <= i < |entries| => entries[i].realizedGain + entries[i].unrealizedGain)
  }

  /** The whole pie is the realized total plus the unrealized total of the fold. */
  lemma PieAddsUpToTotals(entries: seq<PAndL>)
    ensures Sum(PieValues(entries)) == Sum(Column(entries, Realized)) + Sum(Column(entries, Unrealized))
  {
    SumPointwise(Column(entries, Realized), Column(entries, Unrealized), PieValues(entries));
  }

  /** Slice i of the pie is the realized and the unrealized column at i. */
  lemma PieSlice(entries: seq<PAndL>, i: nat)
    requires i < |entries|
    ensures PieLabels(entries)[i] == entries[i].asset
    ensures PieValues(entries)[i] == FieldOf(entries[i], Realized) + FieldOf(entries[i], Unrealized)
  {
  }

  datatype Icon = BtcIcon | EthIcon | LinkIcon | UniIcon | AaveIcon

  /** `getAssetIcon`: the five known tickers have an icon, anything else gives null. */
  function AssetIcon(asset: string): (r: Option<Icon>)
    ensures r.Some? <==> asset == "BTC" || asset == "ETH" || asset == "LINK" || asset == "UNI" || asset == "AAVE"
  {
    match asset
    case "BTC" => Some(BtcIcon)
    case "ETH" => Some(EthIcon)
    case "LINK" => Some(LinkIcon)
    case "UNI" => Some(UniIcon)
    case "AAVE" => Some(AaveIcon)
    case _ => None
  }

  /** No two tickers share an icon. */
  lemma AssetIconInjective(a: string, b: string)
    requires AssetIcon(a).Some? && AssetIcon(a) == AssetIcon(b)
    ensures a == b
  {
  }

  /** Every sample entry has an icon. */
  lemma SampleEntriesHaveIcons()
    ensures forall i :: 0 <= i < |PAndLData| ==> AssetIcon(PAndLData[i].asset).Some?
  {
  }
}
