/** The transaction history page: a table of transactions filtered by a date range, three
    multi-select lists and an ID search, sorted by a clickable column, cut into pages of ten,
    and exportable as comma-separated text. */
module TransactionHistory {
  import opened Lists
  import opened Text
  import opened Order
  import opened IsoDates

  /** One row of the table. `kind` is the record's `type` field. */
  datatype Transaction = Transaction(
    id: string,
    date: string,
    kind: string,
    asset: string,
    protocol: string,
    amount: real,
    status: string,
    transactionHash: string,
    blockNumber: int,
    fees: real,
    notes: string)

  /** The seven sortable columns (the header buttons). */
  datatype Column = Id | Date | Type | Asset | Protocol | Amount | Status

  datatype Direction = Ascending | Descending

  datatype SortConfig = SortConfig(key: Column, direction: Direction)

  /** Newest first, as the page opens. */
  const InitialSort := SortConfig(Date, Descending)

  const PageSize: nat := 10

  /** `handleSort(key)`: the clicked column becomes the key; clicking the current key again
      reverses the direction, clicking another column starts ascending. */
  function NextSortConfig(prev: SortConfig, key: Column): (r: SortConfig)
    ensures r.key == key
    ensures prev.key == key ==> r.direction != prev.direction
    ensures prev.key != key ==> r.direction == Ascending
  {
    SortConfig(key,
      if prev.key == key then (if prev.direction == Ascending then Descending else Ascending)
      else Ascending)
  }

  /** Clicking the same column twice restores the configuration. */
  lemma SortToggleTwice(c: SortConfig)
    ensures NextSortConfig(NextSortConfig(c, c.key), c.key) == c
  {
  }

  /** `a[sortConfig.key]`: the amount column compares numbers, the others compare strings. */
  function KeyOf(t: Transaction, c: Column): SortKey
  {
    match c
    case Id => Str(t.id)
    case Date => Str(t.date)
    case Type => Str(t.kind)
    case Asset => Str(t.asset)
    case Protocol => Str(t.protocol)
    case Amount => Num(t.amount)
    case Status => Str(t.status)
  }

  function ColumnKey(c: Column): Transaction -> SortKey
  {
    t => KeyOf(t, c)
  }

  /** The filter inputs. The date bounds are day keys (see `IsoDates`); `None` is a null
      bound. A list left empty imposes nothing. */
  datatype Filters = Filters(
    from: Option<int>,
    to: Option<int>,
    types: seq<string>,
    protocols: seq<string>,
    statuses: seq<string>,
    search: string)

  const NoFilters := Filters(None, None, [], [], [], "")

  /** `!bound || date >= bound`: an unparseable date compares false against any bound. */
  predicate AfterStart(date: string, from: Option<int>)
  {
    from.None? || (ParseIsoDay(date).Some? && ParseIsoDay(date).value >= from.value)
  }

  predicate BeforeEnd(date: string, to: Option<int>)
  {
    to.None? || (ParseIsoDay(date).Some? && ParseIsoDay(date).value <= to.value)
  }

  /** `list.length === 0 || list.includes(v)`. */
  predicate Allowed(list: seq<string>, v: string)
  {
    |list| == 0 || v in list
  }

  predicate Matches(f: Filters, t: Transaction)
  {
    && AfterStart(t.date, f.from)
    && BeforeEnd(t.date, f.to)
    && Allowed(f.types, t.kind)
    && Allowed(f.protocols, t.protocol)
    && Allowed(f.statuses, t.status)
    && (if f.search != "" then ContainsIgnoreCase(t.id, f.search) else true)
  }

  function Matcher(f: Filters): Transaction -> bool
  {
    t => Matches(f, t)
  }

  /** Both date bounds are inclusive. */
  lemma DateBoundsInclusive(f: Filters, t: Transaction, lo: int, hi: int)
    requires ParseIsoDay(t.date).Some?
    requires f.from == Some(lo) && f.to == Some(hi)
    ensures AfterStart(t.date, f.from) && BeforeEnd(t.date, f.to)
        <==> lo <= ParseIsoDay(t.date).value <= hi
  {
  }

  /** A record survives exactly when every filter accepts it; the search looks only at the
      ID, ignoring case, and an empty search accepts every record. */
  lemma MatchesIff(f: Filters, t: Transaction)
    ensures Matches(f, t) <==>
      && AfterStart(t.date, f.from) && BeforeEnd(t.date, f.to)
      && (f.types == [] || t.kind in f.types)
      && (f.protocols == [] || t.protocol in f.protocols)
      && (f.statuses == [] || t.status in f.statuses)
      && ContainsIgnoreCase(t.id, f.search)
  {
    assert ToLower(f.search) == [] ==> ToLower(f.search) <= ToLower(t.id);
  }

  /** Cleared filters keep every record. */
  lemma NoFiltersKeepAll(ts: seq<Transaction>)
    ensures Filter(ts, Matcher(NoFilters)) == ts
  {
    FilterAll(ts, Matcher(NoFilters));
  }

  /** `filteredTransactions`: filter, then a stable sort by the configured column. */
  function Query(ts: seq<Transaction>, f: Filters, sc: SortConfig): seq<Transaction>
  {
    SortBy(Filter(ts, Matcher(f)), ColumnKey(sc.key), sc.direction == Descending)
  }

  /** The result is a permutation of the matching records, which form a subsequence of the
      input; it holds exactly the records that match, ordered by the key in the configured
      direction, and records with equal keys keep their input order. */
  lemma QueryShape(ts: seq<Transaction>, f: Filters, sc: SortConfig)
    ensures var kept := Filter(ts, Matcher(f));
      var r := Query(ts, f, sc);
      && IsSubsequence(kept, ts)
      && multiset(r) == multiset(kept)
      && (forall i :: 0 <= i < |r| ==> r[i] in ts && Matches(f, r[i]))
      && (forall i :: 0 <= i < |ts| && Matches(f, ts[i]) ==> ts[i] in r)
      && (forall i, j :: 0 <= i < j < |r| ==>
            if sc.direction == Ascending then KeyLe(KeyOf(r[i], sc.key), KeyOf(r[j], sc.key))
            else KeyLe(KeyOf(r[j], sc.key), KeyOf(r[i], sc.key)))
      && (forall k :: WithKey(r, ColumnKey(sc.key), k) == WithKey(kept, ColumnKey(sc.key), k))
  {
    FilterSortShape(ts, Matcher(f), ColumnKey(sc.key), sc.direction == Descending);
    var r := Query(ts, f, sc);
    assert IsSortedBy(r, ColumnKey(sc.key), sc.direction == Descending);
  }

  /** Sorting the date column as text orders valid dates chronologically. */
  lemma DateSortIsChronological(ts: seq<Transaction>, f: Filters, d: Direction, i: nat, j: nat)
    requires var r := Query(ts, f, SortConfig(Date, d));
      i < j < |r| && ParseIsoDay(r[i].date).Some? && ParseIsoDay(r[j].date).Some?
    ensures var r := Query(ts, f, SortConfig(Date, d));
      if d == Ascending then ParseIsoDay(r[i].date).value <= ParseIsoDay(r[j].date).value
      else ParseIsoDay(r[j].date).value <= ParseIsoDay(r[i].date).value
  {
    var r := Query(ts, f, SortConfig(Date, d));
    SortBySorted(Filter(ts, Matcher(f)), ColumnKey(Date), d == Descending);
    assert InOrder(KeyOf(r[i], Date), KeyOf(r[j], Date), d == Descending);
    StringOrderIsChronological(r[i].date, r[j].date);
    StringOrderIsChronological(r[j].date, r[i].date);
  }

  /** The `Previous` button: `Math.max(currentPage - 1, 1)`. */
  function PreviousPage(p: int): (r: int)
    ensures r >= 1
    ensures p > 1 ==> r == p - 1
  {
    if p - 1 > 1 then p - 1 else 1
  }

  /** The `Next` button: `Math.min(currentPage + 1, Math.ceil(n / 10))` for `n` matches. */
  function NextPage(p: int, n: nat): (r: int)
    ensures r <= PageCount(n, PageSize)
    ensures p + 1 <= PageCount(n, PageSize) ==> r == p + 1
  {
    if p + 1 < PageCount(n, PageSize) then p + 1 else PageCount(n, PageSize)
  }

  /** With nothing matching there are no pages, and `Next` goes to page 0. */
  lemma NextWithNoMatches(p: int)
    requires p >= 0
    ensures NextPage(p, 0) == 0
  {
  }

  const Header: seq<string> := ["ID", "Date", "Type", "Asset", "Protocol", "Amount", "Status",
    "Transaction Hash", "Block Number", "Fees Paid", "Notes"]

  /** One exported record, in the header's column order. `show` is JavaScript's conversion of
      a number to text. */
  function CsvRow(t: Transaction, show: real -> string): (r: seq<string>)
    ensures |r| == |Header|
  {
    [t.id, t.date, t.kind, t.asset, t.protocol, show(t.amount), t.status, t.transactionHash,
     show(t.blockNumber as real), show(t.fees), t.notes]
  }

  function CsvLines(rows: seq<Transaction>, show: real -> string): (r: seq<string>)
    ensures |r| == |rows|
  {
    seq(|rows|, i requires 0 <= i < |rows| => Join(CsvRow(rows[i], show), ','))
  }

  /** `handleExport`: header and rows joined by `,`, lines by `\n`, nothing quoted. */
  function ExportCsv(rows: seq<Transaction>, show: real -> string): string
  {
    Join(ExportLines(rows, show), '\n')
  }

  /** A record whose text fields are all free of both separators. */
  predicate PlainRecord(t: Transaction)
  {
    Plain(t.id) && Plain(t.date) && Plain(t.kind) && Plain(t.asset) && Plain(t.protocol)
    && Plain(t.status) && Plain(t.transactionHash) && Plain(t.notes)
  }

  lemma PlainRow(t: Transaction, show: real -> string)
    requires PlainRecord(t) && PlainNumbers(show)
    ensures forall i :: 0 <= i < |CsvRow(t, show)| ==> Plain(CsvRow(t, show)[i])
  {
    var r := CsvRow(t, show);
    assert Plain(show(t.amount)) && Plain(show(t.blockNumber as real)) && Plain(show(t.fees));
  }

  function ExportLines(rows: seq<Transaction>, show: real -> string): seq<string>
  {
    [Join(Header, ',')] + CsvLines(rows, show)
  }

  lemma HeaderPlain()
    ensures forall i :: 0 <= i < |Header| ==> Plain(Header[i])
    ensures '\n' !in Join(Header, ',')
  {
    assert Plain(Header[0]);
    assert Plain(Header[1]);
    assert Plain(Header[2]);
    assert Plain(Header[3]);
    assert Plain(Header[4]);
    assert Plain(Header[5]);
    assert Plain(Header[6]);
    assert Plain(Header[7]);
    assert Plain(Header[8]);
    assert Plain(Header[9]);
    assert Plain(Header[10]);
    JoinAvoids(Header, ',', '\n');
  }

  lemma LinePlain(t: Transaction, show: real -> string)
    requires PlainRecord(t) && PlainNumbers(show)
    ensures '\n' !in Join(CsvRow(t, show), ',')
  {
    PlainRow(t, show);
    JoinAvoids(CsvRow(t, show), ',', '\n');
  }

  /** Line j of the export, after the header, is record j-1 joined by commas. */
  lemma ExportLineAt(rows: seq<Transaction>, show: real -> string, j: nat)
    requires 1 <= j <= |rows|
    ensures ExportLines(rows, show)[j] == Join(CsvRow(rows[j - 1], show), ',')
  {
  }

  lemma ExportLinesPlain(rows: seq<Transaction>, show: real -> string)
    requires forall i :: 0 <= i < |rows| ==> PlainRecord(rows[i])
    requires PlainNumbers(show)
    ensures forall i :: 0 <= i < |ExportLines(rows, show)| ==> '\n' !in ExportLines(rows, show)[i]
  {
    HeaderPlain();
    forall j | 1 <= j < |ExportLines(rows, show)|
      ensures '\n' !in ExportLines(rows, show)[j]
    {
      ExportLineAt(rows, show, j);
      LinePlain(rows[j - 1], show);
    }
  }

  /** The export has a header line and then exactly one line per record, in order; each line
      splits back into the record's eleven fields in the header's order. */
  lemma ExportRoundTrip(rows: seq<Transaction>, show: real -> string)
    requires forall i :: 0 <= i < |rows| ==> PlainRecord(rows[i])
    requires PlainNumbers(show)
    ensures |Split(ExportCsv(rows, show), '\n')| == 1 + |rows|
    ensures Split(Split(ExportCsv(rows, show), '\n')[0], ',') == Header
    ensures forall i :: 0 <= i < |rows| ==>
      Split(Split(ExportCsv(rows, show), '\n')[i + 1], ',') == CsvRow(rows[i], show)
  {
    var lines := ExportLines(rows, show);
    ExportLinesPlain(rows, show);
    SplitJoin(lines, '\n');
    assert Split(ExportCsv(rows, show), '\n') == lines;
    HeaderPlain();
    SplitJoin(Header, ',');
    forall i | 0 <= i < |rows|
      ensures Split(lines[i + 1], ',') == CsvRow(rows[i], show)
    {
      PlainRow(rows[i], show);
      SplitJoin(CsvRow(rows[i], show), ',');
    }
  }

  /** Nothing is quoted: a note holding a comma spills into extra columns. */
  lemma CommaInNotesAddsColumns(t: Transaction, show: real -> string)
    requires ',' in t.notes
    ensures |Split(Join(CsvRow(t, show), ','), ',')| > |Header|
  {
    SeparatorInPieceAddsPieces(CsvRow(t, show), ',', 10);
  }

  /** The page's state: the loaded records, the filter inputs, the sort and the page. */
  class HistoryState {
    var transactions: seq<Transaction>
    var filters: Filters
    var sortConfig: SortConfig
    var currentPage: int

    /** Never below page 0 (which `Next` reaches when nothing matches). */
    predicate Valid()
      reads this
    {
      currentPage >= 0
    }

    constructor()
      ensures Valid()
      ensures transactions == [] && filters == NoFilters
      ensures sortConfig == InitialSort && currentPage == 1
    {
      transactions := [];
      filters := NoFilters;
      sortConfig := InitialSort;
      currentPage := 1;
    }

    function Filtered(): seq<Transaction>
      reads this
    {
      Query(transactions, filters, sortConfig)
    }

    function LastPage(): nat
      reads this
    {
      PageCount(|Filtered()|, PageSize)
    }

    /** `paginatedTransactions`. */
    function Paginated(): seq<Transaction>
      reads this
    {
      Page(Filtered(), currentPage, PageSize)
    }

    /** The loaded list replaces the empty one; nothing else changes. */
    method ReceiveTransactions(ts: seq<Transaction>)
      requires Valid()
      modifies this
      ensures Valid()
      ensures transactions == ts
      ensures filters == old(filters) && sortConfig == old(sortConfig) && currentPage == old(currentPage)
    {
      transactions := ts;
    }

    /** The search box and the three multi-selects each set one filter input. */
    method SetFilters(f: Filters)
      requires Valid()
      requires f.from == filters.from && f.to == filters.to
      modifies this
      ensures Valid()
      ensures filters == f
      ensures transactions == old(transactions) && sortConfig == old(sortConfig) && currentPage == old(currentPage)
    {
      filters := f;
    }

    method HandleSort(key: Column)
      requires Valid()
      modifies this
      ensures Valid()
      ensures sortConfig == NextSortConfig(old(sortConfig), key)
      ensures transactions == old(transactions) && filters == old(filters) && currentPage == old(currentPage)
    {
      sortConfig := NextSortConfig(sortConfig, key);
    }

    /** `Previous`, which does nothing while disabled on page 1. */
    method Previous()
      requires Valid()
      modifies this
      ensures Valid()
      ensures currentPage >= 1
      ensures old(currentPage) == 1 ==> currentPage == 1
      ensures old(currentPage) > 1 ==> currentPage == old(currentPage) - 1
      ensures old(currentPage) < 1 ==> currentPage == 1
      ensures transactions == old(transactions) && filters == old(filters) && sortConfig == old(sortConfig)
    {
      if currentPage != 1 {
        currentPage := PreviousPage(currentPage);
      }
    }

    /** `Next`, which does nothing while disabled on the last page. */
    method Next()
      requires Valid()
      modifies this
      ensures Valid()
      ensures old(currentPage) == LastPage() ==> currentPage == old(currentPage)
      ensures old(currentPage) != LastPage() ==> currentPage <= LastPage()
      ensures old(currentPage) < LastPage() ==> currentPage == old(currentPage) + 1
      ensures old(currentPage) > LastPage() ==> currentPage == LastPage()
      ensures transactions == old(transactions) && filters == old(filters) && sortConfig == old(sortConfig)
    {
      if currentPage != LastPage() {
        currentPage := NextPage(currentPage, |Filtered()|);
      }
    }

    /** `handleFilterClear`: every filter input is emptied; the sort and page stay. */
    method HandleFilterClear()
      requires Valid()
      modifies this
      ensures Valid()
      ensures filters == NoFilters
      ensures Filtered() == SortBy(transactions, ColumnKey(sortConfig.key), sortConfig.direction == Descending)
      ensures transactions == old(transactions) && sortConfig == old(sortConfig) && currentPage == old(currentPage)
    {
      filters := NoFilters;
      NoFiltersKeepAll(transactions);
    }

    /** The exported text covers every filtered record, not just the current page. */
    method HandleExport(show: real -> string) returns (csv: string)
      ensures csv == ExportCsv(Filtered(), show)
      ensures (PlainNumbers(show) && forall i :: 0 <= i < |transactions| ==> PlainRecord(transactions[i])) ==>
        |Split(csv, '\n')| == 1 + |Filtered()|
    {
      csv := ExportCsv(Filtered(), show);
      if PlainNumbers(show) && forall i :: 0 <= i < |transactions| ==> PlainRecord(transactions[i]) {
        ghost var r := Filtered();
        QueryShape(transactions, filters, sortConfig);
        forall i | 0 <= i < |r|
          ensures PlainRecord(r[i])
        {
          assert r[i] in transactions;
        }
        ExportRoundTrip(r, show);
      }
    }
  }
}
