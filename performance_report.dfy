/** The portfolio performance report: a 30-day value chart, its CSV export, the period
    buttons and the custom date range dialog. */
module PerformanceReport {
  import opened Lists
  import opened Text

  /** The line chart's labels and its one dataset's values. */
  datatype ChartData = ChartData(labels: seq<string>, data: seq<real>)

  /** `generateSampleData`: thirty days back from today, one label and one value per day,
      reversed so that the oldest day comes first. The label of the day `k` days ago and the
      thirty random draws are parameters, since they come from the clock and `Math.random`. */
  method GenerateSampleData(daysAgo: nat -> string, draws: seq<real>) returns (chart: ChartData)
    requires |draws| == 30
    ensures |chart.labels| == 30 && |chart.data| == 30
    ensures forall k :: 0 <= k < 30 ==> chart.labels[k] == daysAgo(30 - k) && chart.data[k] == draws[29 - k]
  {
    var labels: seq<string> := [];
    var data: seq<real> := [];
    var i := 0;
    while i < 30
      invariant 0 <= i <= 30
      invariant |labels| == i && |data| == i
      invariant forall j :: 0 <= j < i ==> labels[j] == daysAgo(j + 1) && data[j] == draws[j]
    {
      labels := labels + [daysAgo(i + 1)];
      data := data + [draws[i]];
      i := i + 1;
    }
    chart := ChartData(Reverse(labels), Reverse(data));
  }

  /** Row `index` of the export: the value, or nothing when the dataset is shorter than the
      labels (`Array.prototype.join` writes `undefined` as the empty string). */
  function ValueCell(data: seq<real>, index: nat, show: real -> string): string
  {
    if index < |data| then show(data[index]) else ""
  }

  const CsvHeader: seq<string> := ["Date", "Value"]

  function CsvRows(chart: ChartData, show: real -> string): (r: seq<seq<string>>)
    ensures |r| == |chart.labels|
    ensures forall i :: 0 <= i < |r| ==> r[i] == [chart.labels[i], ValueCell(chart.data, i, show)]
  {
    seq(|chart.labels|, i requires 0 <= i < |chart.labels| => [chart.labels[i], ValueCell(chart.data, i, show)])
  }

  function CsvLines(chart: ChartData, show: real -> string): (r: seq<string>)
    ensures |r| == 1 + |chart.labels|
  {
    var rows := CsvRows(chart, show);
    [Join(CsvHeader, ',')] + seq(|rows|, i requires 0 <= i < |rows| => Join(rows[i], ','))
  }

  /** `handleExport`'s `csvContent`. */
  function ExportCsv(chart: ChartData, show: real -> string): string
  {
    Join(CsvLines(chart, show), '\n')
  }

  lemma CellPlain(data: seq<real>, index: nat, show: real -> string)
    requires PlainNumbers(show)
    ensures Plain(ValueCell(data, index, show))
  {
    if index < |data| {
      var x := data[index];
      assert Plain(show(x));
    }
  }

  lemma PlainPair(a: string, b: string)
    requires Plain(a) && Plain(b)
    ensures Split(Join([a, b], ','), ',') == [a, b]
    ensures '\n' !in Join([a, b], ',')
  {
    SplitJoin([a, b], ',');
    JoinAvoids([a, b], ',', '\n');
  }

  /** The export has the header line and one line per label; line i+1 splits back into the
      label and its value, provided no label and no number text holds a separator. */
  lemma ExportRoundTrip(chart: ChartData, show: real -> string)
    requires forall i :: 0 <= i < |chart.labels| ==> Plain(chart.labels[i])
    requires PlainNumbers(show)
    ensures var lines := Split(ExportCsv(chart, show), '\n');
      && |lines| == 1 + |chart.labels|
      && Split(lines[0], ',') == CsvHeader
      && forall i :: 0 <= i < |chart.labels| ==>
           Split(lines[i + 1], ',') == [chart.labels[i], ValueCell(chart.data, i, show)]
  {
    var lines := CsvLines(chart, show);
    assert Plain("Date") && Plain("Value");
    PlainPair("Date", "Value");
    forall i | 0 <= i < |chart.labels|
      ensures lines[i + 1] == Join([chart.labels[i], ValueCell(chart.data, i, show)], ',')
      ensures Split(lines[i + 1], ',') == [chart.labels[i], ValueCell(chart.data, i, show)]
      ensures '\n' !in lines[i + 1]
    {
      CellPlain(chart.data, i, show);
      PlainPair(chart.labels[i], ValueCell(chart.data, i, show));
    }
    SplitJoin(lines, '\n');
  }

  /** A slot of `customDateRange`: null, or a `Date` built from the input's text. Every
      `Date` object is truthy, even an invalid one. */
  datatype Slot = Null | DateOf(text: string)

  /** The state starts as the array `[null, null]`; after the first change the spread turns it
      into an object. Both are a map from property names to slots. */
  type DateRange = map<string, Slot>

  const InitialRange: DateRange := map["0" := Null, "1" := Null]

  /** `customDateRange[0] && customDateRange[1]`: both slots hold a date (a missing property
      reads as `undefined`, which is falsy). */
  predicate BothSet(range: DateRange)
  {
    "0" in range && "1" in range && range["0"].DateOf? && range["1"].DateOf?
  }

  /** `value ? new Date(value) : null`. */
  function SlotOf(value: string): (s: Slot)
    ensures s.DateOf? <==> value != ""
  {
    if value != "" then DateOf(value) else Null
  }

  /** `handleCustomDateRangeChange` as written: the input's `name` ("start" or "end") is the
      property written. */
  function ChangeAsWritten(range: DateRange, name: string, value: string): (r: DateRange)
    ensures name in r && r[name] == SlotOf(value)
    ensures forall k :: k in range && k != name ==> k in r && r[k] == range[k]
  {
    range[name := SlotOf(value)]
  }

  /** The property the apply rule reads for an input: "start" is slot 0, "end" slot 1. */
  function SlotKey(name: string): string
  {
    if name == "start" then "0" else if name == "end" then "1" else name
  }

  /** The change handler as the apply rule evidently expects it: the start input fills slot 0
      and the end input slot 1. */
  function ChangeSlot(range: DateRange, name: string, value: string): (r: DateRange)
    ensures SlotKey(name) in r && r[SlotKey(name)] == SlotOf(value)
    ensures forall k :: k in range && k != SlotKey(name) ==> k in r && r[k] == range[k]
  {
    range[SlotKey(name) := SlotOf(value)]
  }

  /** One edit of a date input: its `name` and the text it now holds. */
  datatype Edit = Edit(name: string, value: string)

  predicate FromDateInputs(edits: seq<Edit>)
  {
    forall i :: 0 <= i < |edits| ==> edits[i].name == "start" || edits[i].name == "end"
  }

  function AfterEditsAsWritten(range: DateRange, edits: seq<Edit>): DateRange
    decreases |edits|
  {
    if edits == [] then range
    else AfterEditsAsWritten(ChangeAsWritten(range, edits[0].name, edits[0].value), edits[1..])
  }

  function AfterEdits(range: DateRange, edits: seq<Edit>): DateRange
    decreases |edits|
  {
    if edits == [] then range
    else AfterEdits(ChangeSlot(range, edits[0].name, edits[0].value), edits[1..])
  }

  /** As written, no sequence of edits of the two inputs ever fills slot 0 or slot 1, so the
      apply button always reports an invalid range. */
  lemma {:induction false} AsWrittenApplyNeverSucceeds(range: DateRange, edits: seq<Edit>)
    requires "0" in range && "1" in range && range["0"] == Null && range["1"] == Null
    requires FromDateInputs(edits)
    ensures !BothSet(AfterEditsAsWritten(range, edits))
    decreases |edits|
  {
    if edits != [] {
      var next := ChangeAsWritten(range, edits[0].name, edits[0].value);
      assert FromDateInputs(edits[1..]) by {
        forall i | 0 <= i < |edits| - 1
          ensures edits[1..][i].name == "start" || edits[1..][i].name == "end"
        {
          assert edits[1..][i] == edits[i + 1];
        }
      }
      AsWrittenApplyNeverSucceeds(next, edits[1..]);
    }
  }

  /** The concrete case: from `[null, null]`, entering both dates still fails. */
  lemma AsWrittenBothDatesEntered()
    ensures !BothSet(AfterEditsAsWritten(InitialRange, [Edit("start", "2024-01-01"), Edit("end", "2024-02-01")]))
  {
    AsWrittenApplyNeverSucceeds(InitialRange, [Edit("start", "2024-01-01"), Edit("end", "2024-02-01")]);
  }

  /** With the slots mapped, entering a start date and an end date enables apply, and clearing
      either input disables it again. */
  lemma ApplySucceedsAfterBothDates(range: DateRange, start: string, end: string)
    ensures var r := ChangeSlot(ChangeSlot(range, "start", start), "end", end);
      BothSet(r) <==> start != "" && end != ""
  {
  }

  /** Slots never disappear: edits only overwrite them. */
  lemma {:induction false} EditsKeepSlots(range: DateRange, edits: seq<Edit>)
    requires "0" in range && "1" in range
    ensures var r := AfterEdits(range, edits); "0" in r && "1" in r
    decreases |edits|
  {
    if edits != [] {
      EditsKeepSlots(ChangeSlot(range, edits[0].name, edits[0].value), edits[1..]);
    }
  }

  /** The values the four period buttons pass. */
  const PeriodButtons: seq<string> := ["1w", "1m", "3m", "1y"]

  /** The component's state. The custom range uses the corrected change handler. */
  class ReportState {
    var selectedPeriod: string
    var customDateRange: DateRange
    var chartData: ChartData
    var showCustomDateRange: bool

    constructor (initialChart: ChartData)
      ensures selectedPeriod == "1m" && customDateRange == InitialRange
      ensures chartData == initialChart && !showCustomDateRange
    {
      selectedPeriod := "1m";
      customDateRange := InitialRange;
      chartData := initialChart;
      showCustomDateRange := false;
    }

    /** `handlePeriodChange`: the chosen value becomes the period, nothing else changes. */
    method HandlePeriodChange(period: string)
      modifies this
      ensures selectedPeriod == period
      ensures customDateRange == old(customDateRange) && chartData == old(chartData)
      ensures showCustomDateRange == old(showCustomDateRange)
    {
      selectedPeriod := period;
    }

    /** The "Custom Range" button opens the dialog. */
    method OpenCustomRange()
      modifies this
      ensures showCustomDateRange
      ensures selectedPeriod == old(selectedPeriod) && customDateRange == old(customDateRange)
      ensures chartData == old(chartData)
    {
      showCustomDateRange := true;
    }

    /** Cancel and the close button shut the dialog without applying. */
    method CloseCustomRange()
      modifies this
      ensures !showCustomDateRange
      ensures selectedPeriod == old(selectedPeriod) && customDateRange == old(customDateRange)
      ensures chartData == old(chartData)
    {
      showCustomDateRange := false;
    }

    /** A date input changed. */
    method HandleCustomDateRangeChange(name: string, value: string)
      modifies this
      ensures customDateRange == ChangeSlot(old(customDateRange), name, value)
      ensures selectedPeriod == old(selectedPeriod) && chartData == old(chartData)
      ensures showCustomDateRange == old(showCustomDateRange)
    {
      customDateRange := ChangeSlot(customDateRange, name, value);
    }

    /** `handleApplyCustomDateRange`: with both dates set, the chart takes the freshly generated
      data and the dialog closes; otherwise an error toast is shown and nothing changes. */
    method HandleApplyCustomDateRange(generated: ChartData) returns (applied: bool)
      modifies this
      ensures applied <==> BothSet(old(customDateRange))
      ensures applied ==> chartData == generated && !showCustomDateRange
      ensures !applied ==> chartData == old(chartData) && showCustomDateRange == old(showCustomDateRange)
      ensures selectedPeriod == old(selectedPeriod) && customDateRange == old(customDateRange)
    {
      applied := BothSet(customDateRange);
      if applied {
        chartData := generated;
        showCustomDateRange := false;
      }
    }
  }
}
