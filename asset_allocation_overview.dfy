/** The asset allocation overview: the portfolio total, each category's percentage of it (the
    same formula in the table, the pie tooltip and the legend tooltip) and the pie colours. */
module AssetAllocationOverview {
  import opened Lists

  datatype Allocation = Allocation(category: string, value: real)

  /** `assetAllocationData`. */
  const AllocationData: seq<Allocation> := [
    Allocation("Lending", 5000.0),
    Allocation("Staking", 3000.0),
    Allocation("AMM", 2000.0),
    Allocation("Savings", 1000.0)
  ]

  function Values(entries: seq<Allocation>): (r: seq<real>)
    ensures |r| == |entries|
    ensures forall i :: 0 <= i < |entries| ==> r[i] == entries[i].value
  {
    seq(|entries|, i requires 0 <= i < |entries| => entries[i].value)
  }

  /** `totalValue`: the reduce from 0 over the values. */
  function TotalValue(entries: seq<Allocation>): real
  {
    Sum(Values(entries))
  }

  /** `(value / totalValue) * 100`. A zero total makes JavaScript's division give NaN or an
      infinity, which the model reports as `None`. */
  function Share(value: real, total: real): (r: Option<real>)
    ensures r.Some? <==> total != 0.0
    ensures r.Some? ==> r.value * total == value * 100.0
  {
    if total == 0.0 then None else Some(value / total * 100.0)
  }

  /** The percentage column, one share per category, in table order. */
  function Shares(entries: seq<Allocation>): (r: seq<real>)
    requires TotalValue(entries) != 0.0
    ensures |r| == |entries|
    ensures forall i :: 0 <= i < |entries| ==> Share(entries[i].value, TotalValue(entries)) == Some(r[i])
  {
    var total := TotalValue(entries);
    seq(|entries|, i requires 0 <= i < |entries| => entries[i].value / total * 100.0)
  }

  /** With non-negative values and a positive total, each share lies between 0 and 100. */
  lemma ShareBounds(entries: seq<Allocation>, k: nat)
    requires forall i :: 0 <= i < |entries| ==> entries[i].value >= 0.0
    requires TotalValue(entries) > 0.0
    requires k < |entries|
    ensures 0.0 <= Shares(entries)[k] <= 100.0
  {
    var total := TotalValue(entries);
    SumBoundsElement(Values(entries), k);
    var v := entries[k].value;
    assert 0.0 <= v <= total;
    DivBounds(v, total);
  }

  lemma DivBounds(v: real, total: real)
    requires 0.0 <= v <= total && total > 0.0
    ensures 0.0 <= v / total * 100.0 <= 100.0
  {
    assert v / total <= 1.0;
  }

  /** The shares add up to 100 (in exact arithmetic, before `toFixed`). */
  lemma SharesSumTo100(entries: seq<Allocation>)
    requires TotalValue(entries) != 0.0
    ensures Sum(Shares(entries)) == 100.0
  {
    var total := TotalValue(entries);
    var k := 100.0 / total;
    forall i | 0 <= i < |entries|
      ensures Shares(entries)[i] == Values(entries)[i] * k
    {
      ScaleRewrite(entries[i].value, total);
    }
    SumScale(Values(entries), Shares(entries), k);
    assert total * (100.0 / total) == 100.0;
  }

  lemma ScaleRewrite(v: real, total: real)
    requires total != 0.0
    ensures v / total * 100.0 == v * (100.0 / total)
  {
  }

  /** The summary line divides the total by itself: 100 whenever the total is non-zero. */
  lemma SummaryShareIs100(entries: seq<Allocation>)
    requires TotalValue(entries) != 0.0
    ensures Share(TotalValue(entries), TotalValue(entries)) == Some(100.0)
  {
  }

  /** The sample categories total 11000. */
  lemma SampleTotal()
    ensures TotalValue(AllocationData) == 11000.0
  {
    var v := Values(AllocationData);
    assert v == [5000.0, 3000.0, 2000.0, 1000.0];
    assert v[..3] == [5000.0, 3000.0, 2000.0] && v[..3][..2] == [5000.0, 3000.0];
    assert v[..3][..2][..1] == [5000.0];
    assert Sum([5000.0]) == 5000.0;
    assert Sum([5000.0, 3000.0]) == 8000.0;
    assert Sum([5000.0, 3000.0, 2000.0]) == 10000.0;
  }

  /** `chartColors`. */
  const ChartColors: seq<string> := ["#FF8042", "#00C49F", "#0088FE", "#FFBB28"]

  /** `chartColors[index % chartColors.length]`. */
  function ColorAt(index: nat): (c: string)
    ensures c in ChartColors
  {
    ChartColors[index % |ChartColors|]
  }

  /** The colours repeat every four entries, and neighbouring entries never share one. */
  lemma ColorCycle(index: nat)
    ensures ColorAt(index + 4) == ColorAt(index)
    ensures ColorAt(index + 1) != ColorAt(index)
  {
    var j := index % 4;
    assert (index + 4) % 4 == j;
    assert (index + 1) % 4 == (j + 1) % 4;
  }
}
