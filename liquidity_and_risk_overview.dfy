/** The liquidity and risk overview: the liquid share bar, the risk level colour, the CSV
    export of the risk figures, the liquidity pie's tooltip and the two view toggles. */
module LiquidityAndRiskOverview {
  import opened Lists
  import opened Text

  datatype Category = Category(name: string, value: real)

  datatype LiquidityData = LiquidityData(liquidAssets: real, lockedAssets: real, categories: seq<Category>)

  /** The risk figures; `riskDetails` only feeds the bar chart and is not modelled. */
  datatype RiskFigures = RiskFigures(riskLevel: string, beta: real, valueAtRisk: real, riskScore: real)

  const InitialLiquidity := LiquidityData(12000.0, 3000.0, [
    Category("Cash", 5000.0), Category("Stocks", 4000.0),
    Category("Bonds", 3000.0), Category("Real Estate", 2000.0)])

  const InitialRisk := RiskFigures("Medium", 1.2, 2000.0, 65.0)

  /** `getRiskColor`: the three known levels, matched exactly, and grey for anything else. */
  function RiskColor(level: string): (c: string)
    ensures c == "green.400" <==> level == "Low"
    ensures c == "yellow.400" <==> level == "Medium"
    ensures c == "red.400" <==> level == "High"
    ensures c == "gray.400" <==> level != "Low" && level != "Medium" && level != "High"
  {
    match level
    case "Low" => "green.400"
    case "Medium" => "yellow.400"
    case "High" => "red.400"
    case _ => "gray.400"
  }

  /** The colour names the level: two different known levels never share a colour, and no
      unknown level takes a known level's colour. */
  lemma RiskColorIdentifiesLevel(a: string, b: string)
    requires a == "Low" || a == "Medium" || a == "High"
    requires RiskColor(a) == RiskColor(b)
    ensures a == b
  {
  }

  const CsvHeader: seq<string> := ["Risk Level", "Beta", "Value at Risk", "Risk Score"]

  /** The data row: the value at risk gets a dollar sign, the rest is written as is (`show`
      is JavaScript's number-to-text conversion). */
  function CsvRow(r: RiskFigures, show: real -> string): (row: seq<string>)
    ensures |row| == |CsvHeader|
    ensures row[2] == "$" + show(r.valueAtRisk)
  {
    [r.riskLevel, show(r.beta), "$" + show(r.valueAtRisk), show(r.riskScore)]
  }

  /** `handleExportToCSV`'s `csvContent`. */
  function ExportCsv(r: RiskFigures, show: real -> string): string
  {
    Join([Join(CsvHeader, ','), Join(CsvRow(r, show), ',')], '\n')
  }

  lemma HeaderPlain()
    ensures forall i :: 0 <= i < |CsvHeader| ==> Plain(CsvHeader[i])
  {
    assert Plain(CsvHeader[0]) && Plain(CsvHeader[1]) && Plain(CsvHeader[2]) && Plain(CsvHeader[3]);
  }

  lemma RowPlain(r: RiskFigures, show: real -> string)
    requires Plain(r.riskLevel) && PlainNumbers(show)
    ensures forall i :: 0 <= i < |CsvRow(r, show)| ==> Plain(CsvRow(r, show)[i])
  {
    var b, v, s := r.beta, r.valueAtRisk, r.riskScore;
    assert Plain(show(b)) && Plain(show(v)) && Plain(show(s));
    assert "$" + show(v) == ['$'] + show(v);
  }

  /** The export is two lines: the header, and the four figures in the header's order; both
      split back into their four fields when no field holds a separator. */
  lemma ExportShape(r: RiskFigures, show: real -> string)
    requires Plain(r.riskLevel) && PlainNumbers(show)
    ensures var lines := Split(ExportCsv(r, show), '\n');
      && |lines| == 2
      && Split(lines[0], ',') == CsvHeader
      && Split(lines[1], ',') == CsvRow(r, show)
  {
    HeaderPlain();
    RowPlain(r, show);
    SplitJoin(CsvHeader, ',');
    SplitJoin(CsvRow(r, show), ',');
    JoinAvoids(CsvHeader, ',', '\n');
    JoinAvoids(CsvRow(r, show), ',', '\n');
    SplitJoin([Join(CsvHeader, ','), Join(CsvRow(r, show), ',')], '\n');
  }

  /** The progress bar's value, `liquid / (liquid + locked) * 100`; a zero sum gives NaN in
      JavaScript, `None` here. */
  function LiquidShare(d: LiquidityData): (r: Option<real>)
    ensures r.Some? <==> d.liquidAssets + d.lockedAssets != 0.0
  {
    var sum := d.liquidAssets + d.lockedAssets;
    if sum == 0.0 then None else Some(d.liquidAssets / sum * 100.0)
  }

  /** With non-negative amounts and a positive sum the bar lies between 0 and 100, and what it
      leaves is the locked share. */
  lemma LiquidShareBounds(d: LiquidityData)
    requires d.liquidAssets >= 0.0 && d.lockedAssets >= 0.0
    requires d.liquidAssets + d.lockedAssets > 0.0
    ensures 0.0 <= LiquidShare(d).value <= 100.0
    ensures 100.0 - LiquidShare(d).value == d.lockedAssets / (d.liquidAssets + d.lockedAssets) * 100.0
  {
    var sum := d.liquidAssets + d.lockedAssets;
    assert d.liquidAssets / sum <= 1.0;
    assert d.liquidAssets / sum + d.lockedAssets / sum == 1.0;
  }

  /** The sample data fills 80% of the bar. */
  lemma InitialLiquidShare()
    ensures LiquidShare(InitialLiquidity) == Some(80.0)
  {
  }

  /** One entry of the chart's tooltip payload. */
  datatype PayloadItem = PayloadItem(name: string, value: real)

  /** `renderRiskTooltip`: the first payload entry's name and value, or nothing. */
  function RiskTooltip(payload: seq<PayloadItem>): (r: Option<PayloadItem>)
    ensures r.None? <==> payload == []
    ensures r.Some? ==> r.value == payload[0]
  {
    if |payload| > 0 then Some(payload[0]) else None
  }

  /** The component's state. */
  datatype Overview = Overview(
    liquidity: LiquidityData, risk: RiskFigures, timeframe: string, showAdvancedStats: bool)

  const InitialOverview := Overview(InitialLiquidity, InitialRisk, "30 days", false)

  /** `handleTimeframeChange`: only the label changes; no data is reloaded. */
  function HandleTimeframeChange(o: Overview, timeframe: string): (r: Overview)
    ensures r.timeframe == timeframe
    ensures r.liquidity == o.liquidity && r.risk == o.risk && r.showAdvancedStats == o.showAdvancedStats
  {
    o.(timeframe := timeframe)
  }

  /** The info button flips the advanced statistics panel. */
  function ToggleAdvancedStats(o: Overview): (r: Overview)
    ensures r.showAdvancedStats == !o.showAdvancedStats
    ensures r.liquidity == o.liquidity && r.risk == o.risk && r.timeframe == o.timeframe
  {
    o.(showAdvancedStats := !o.showAdvancedStats)
  }

  /** Changing the timeframe changes neither the bar, the colour nor the export; pressing the
      info button twice restores the view. */
  lemma ControlsKeepFigures(o: Overview, timeframe: string, show: real -> string)
    ensures var r := HandleTimeframeChange(o, timeframe);
      && LiquidShare(r.liquidity) == LiquidShare(o.liquidity)
      && RiskColor(r.risk.riskLevel) == RiskColor(o.risk.riskLevel)
      && ExportCsv(r.risk, show) == ExportCsv(o.risk, show)
    ensures ToggleAdvancedStats(ToggleAdvancedStats(o)) == o
  {
  }
}
