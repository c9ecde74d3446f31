/** The dashboard's recent-transactions card: a list filtered by type and by a case-sensitive
    search, two sort buttons (date, amount) that re-sort the stored list, and pages of five. */
module RecentTransactions {
  import opened Lists
  import opened Text
  import opened Order
  import opened IsoDates

  /** One card. `kind` is the record's `type`; the amount is display text such as "$500". */
  datatype RecentTxn = RecentTxn(id: int, date: string, kind: string, amount: string, protocol: string)

  /** The stored `sortOrder` flag, which is only ever "asc" or "desc". */
  datatype SortOrder = Asc | Desc

  const PageSize: nat := 5

  function Flip(o: SortOrder): (r: SortOrder)
    ensures r != o
  {
    if o == Asc then Desc else Asc
  }

  /** The type select: "All" or one exact type. */
  predicate TypeMatches(filterType: string, t: RecentTxn)
  {
    filterType == "All" || t.kind == filterType
  }

  function TypeFilter(filterType: string): RecentTxn -> bool
  {
    t => TypeMatches(filterType, t)
  }

  /** The search: a case-sensitive substring of the date, type, amount or protocol. */
  predicate SearchMatches(query: string, t: RecentTxn)
  {
    Contains(t.date, query) || Contains(t.kind, query) || Contains(t.amount, query) || Contains(t.protocol, query)
  }

  function SearchFilter(query: string): RecentTxn -> bool
  {
    t => SearchMatches(query, t)
  }

  /** `filteredTransactions`: the type filter, then the search. */
  function Filtered(ts: seq<RecentTxn>, filterType: string, query: string): seq<RecentTxn>
  {
    Filter(Filter(ts, TypeFilter(filterType)), SearchFilter(query))
  }

  /** A card is listed exactly when it passes both tests; "All" and an empty query each
      impose nothing, and any other type must equal the record's exactly. */
  lemma FilteredIff(ts: seq<RecentTxn>, filterType: string, query: string)
    ensures var r := Filtered(ts, filterType, query);
      && IsSubsequence(r, ts)
      && (forall i :: 0 <= i < |r| ==> r[i] in ts && TypeMatches(filterType, r[i]) && SearchMatches(query, r[i]))
      && (forall i :: 0 <= i < |ts| && TypeMatches(filterType, ts[i]) && SearchMatches(query, ts[i]) ==> ts[i] in r)
  {
    var both := Both(TypeFilter(filterType), SearchFilter(query));
    FilterFilter(ts, TypeFilter(filterType), SearchFilter(query));
    assert Filtered(ts, filterType, query) == Filter(ts, both);
    FilterMembers(ts, both);
    FilterIsSubsequence(ts, both);
  }

  /** With the type at "All" and an empty query, every stored card is listed, in order. */
  lemma NoFilterKeepsAll(ts: seq<RecentTxn>)
    ensures Filtered(ts, "All", "") == ts
  {
    FilterAll(ts, TypeFilter("All"));
    forall i | 0 <= i < |ts|
      ensures SearchMatches("", ts[i])
    {
      assert [] <= ts[i].date;
    }
    FilterAll(ts, SearchFilter(""));
  }

  /** `amount.replace(/[$,]/g, "")`. */
  predicate KeptInAmount(c: char)
  {
    c != '$' && c != ','
  }

  function StripMoney(s: string): (r: string)
    ensures '$' !in r && ',' !in r
  {
    FilterMembers(s, KeptInAmount);
    Filter(s, KeptInAmount)
  }

  /** The amount sort key: `parseFloat` of the stripped text. Where the text does not parse,
      JavaScript's comparator gives NaN and the order is unspecified; the model picks key 0. */
  function AmountValue(amount: string): real
  {
    match ParseFloat(StripMoney(amount))
    case Some(v) => v
    case None => 0.0
  }

  /** An amount displayed as "$" and a whole number is read back as that number. */
  lemma AmountOfDollars(n: nat)
    ensures AmountValue("$" + NatText(n)) == n as real
  {
    var d := NatText(n);
    FilterConcat("$", d, KeptInAmount);
    assert Filter("$", KeptInAmount) == [];
    FilterAll(d, KeptInAmount);
    assert StripMoney("$" + d) == d;
    assert d + [] == d;
    ParseFloatNatText(n, []);
  }

  /** `new Date(date)` compared by subtraction: the day key of a valid date. For an invalid
      date JavaScript's comparator gives NaN and the order is unspecified; the model picks key 0. */
  function DateValue(date: string): real
  {
    match ParseIsoDay(date)
    case Some(k) => k as real
    case None => 0.0
  }

  /** The comparator `handleSortChange(criteria)` builds; any criterion other than "date"
      and "amount" returns 0 for every pair. */
  function CriterionKey(criteria: string): RecentTxn -> SortKey
  {
    if criteria == "date" then (t: RecentTxn) => Num(DateValue(t.date))
    else if criteria == "amount" then (t: RecentTxn) => Num(AmountValue(t.amount))
    else (t: RecentTxn) => Num(0.0)
  }

  /** The sorted copy stored by `handleSortChange`, ordered by the flag's value at call time. */
  function SortedCopy(ts: seq<RecentTxn>, criteria: string, order: SortOrder): seq<RecentTxn>
  {
    SortBy(ts, CriterionKey(criteria), order == Desc)
  }

  /** The stored list is rearranged, never changed in content. */
  lemma SortedCopyPermutes(ts: seq<RecentTxn>, criteria: string, order: SortOrder)
    ensures multiset(SortedCopy(ts, criteria, order)) == multiset(ts)
  {
    SortByPermutes(ts, CriterionKey(criteria), order == Desc);
  }

  /** The copy is ordered by the criterion in the direction of the flag read at call time:
      ascending exactly when that flag was "asc". */
  lemma SortedCopyOrdered(ts: seq<RecentTxn>, criteria: string, order: SortOrder)
    ensures var r := SortedCopy(ts, criteria, order);
      forall i, j :: 0 <= i < j < |r| ==>
        if order == Asc then KeyLe(CriterionKey(criteria)(r[i]), CriterionKey(criteria)(r[j]))
        else KeyLe(CriterionKey(criteria)(r[j]), CriterionKey(criteria)(r[i]))
  {
    SortBySorted(ts, CriterionKey(criteria), order == Desc);
  }

  /** An unknown criterion leaves the stored order as it was. */
  lemma UnknownCriterionKeepsOrder(ts: seq<RecentTxn>, criteria: string, order: SortOrder)
    requires criteria != "date" && criteria != "amount"
    ensures SortedCopy(ts, criteria, order) == ts
  {
    SortByConstantKey(ts, CriterionKey(criteria), order == Desc, Num(0.0));
  }

  /** Sorting by amount with the flag at "asc" puts the amounts' numbers in ascending order. */
  lemma AmountSortAscending(ts: seq<RecentTxn>, i: nat, j: nat)
    requires i < j < |ts|
    ensures var r := SortedCopy(ts, "amount", Asc);
      AmountValue(r[i].amount) <= AmountValue(r[j].amount)
  {
    SortedCopyOrdered(ts, "amount", Asc);
  }

  /** The Next button as written: disabled only when the page equals `ceil(n / 5)`. */
  predicate NextEnabledAsWritten(page: int, n: nat)
  {
    page != PageCount(n, PageSize)
  }

  /** As written, once the page is past the last one (for instance page 1 when nothing
      matches, as there are then 0 pages), Next stays enabled and leads only to empty pages. */
  lemma NextAsWrittenRunsPastEnd(s: seq<RecentTxn>, page: int)
    requires page > PageCount(|s|, PageSize)
    ensures NextEnabledAsWritten(page, |s|)
    ensures NextEnabledAsWritten(page + 1, |s|)
    ensures Page(s, page + 1, PageSize) == []
  {
    PageShape(s, page + 1, PageSize);
  }

  /** The concrete case: a search that matches nothing leaves page 1 of 0 pages, yet Next
      is enabled and moves to an empty page 2. */
  lemma NothingMatchesStillPages()
    ensures NextEnabledAsWritten(1, 0)
    ensures var none: seq<RecentTxn> := []; Page(none, 2, PageSize) == []
  {
  }

  /** Next enabled only while a later page exists. */
  predicate NextEnabled(page: int, n: nat)
  {
    page < PageCount(n, PageSize)
  }

  /** With the corrected rule, Next from any page leads to a page that has cards, and on the
      pages 1..ceil(n/5) it is disabled exactly on the last one, as the text intends. */
  lemma NextLeadsToCards(s: seq<RecentTxn>, page: int)
    requires page >= 0 && NextEnabled(page, |s|)
    ensures Page(s, page + 1, PageSize) != []
    ensures 1 <= page <= PageCount(|s|, PageSize) ==>
      (NextEnabled(page, |s|) <==> NextEnabledAsWritten(page, |s|))
  {
    PageShape(s, page + 1, PageSize);
  }

  /** The card's state. */
  class RecentState {
    var transactions: seq<RecentTxn>
    var filterType: string
    var searchQuery: string
    var sortOrder: SortOrder
    var currentPage: int

    predicate Valid()
      reads this
    {
      currentPage >= 1
    }

    constructor()
      ensures Valid()
      ensures transactions == [] && filterType == "All" && searchQuery == ""
      ensures sortOrder == Desc && currentPage == 1
    {
      transactions := [];
      filterType := "All";
      searchQuery := "";
      sortOrder := Desc;
      currentPage := 1;
    }

    function Listed(): seq<RecentTxn>
      reads this
    {
      Filtered(transactions, filterType, searchQuery)
    }

    /** `currentTransactions`: the slice [page*5 - 5, page*5) of the filtered list. */
    function CurrentPage(): (r: seq<RecentTxn>)
      reads this
      requires Valid()
      ensures |r| <= PageSize
      ensures forall i :: 0 <= i < |r| ==>
        (currentPage - 1) * PageSize + i < |Listed()| && r[i] == Listed()[(currentPage - 1) * PageSize + i]
    {
      PageShape(Listed(), currentPage, PageSize);
      Page(Listed(), currentPage, PageSize)
    }

    /** The loader stores the sample list. */
    method ReceiveTransactions(ts: seq<RecentTxn>)
      requires Valid()
      modifies this
      ensures Valid()
      ensures transactions == ts
      ensures filterType == old(filterType) && searchQuery == old(searchQuery)
      ensures sortOrder == old(sortOrder) && currentPage == old(currentPage)
    {
      transactions := ts;
    }

    method HandleFilterChange(value: string)
      requires Valid()
      modifies this
      ensures Valid()
      ensures filterType == value
      ensures transactions == old(transactions) && searchQuery == old(searchQuery)
      ensures sortOrder == old(sortOrder) && currentPage == old(currentPage)
    {
      filterType := value;
    }

    method HandleSearchChange(value: string)
      requires Valid()
      modifies this
      ensures Valid()
      ensures searchQuery == value
      ensures transactions == old(transactions) && filterType == old(filterType)
      ensures sortOrder == old(sortOrder) && currentPage == old(currentPage)
    {
      searchQuery := value;
    }

    /** `handleSortChange`: the flag flips, but the list is sorted with the flag's old value;
        the sorted list replaces the stored one. */
    method HandleSortChange(criteria: string)
      requires Valid()
      modifies this
      ensures Valid()
      ensures sortOrder == Flip(old(sortOrder))
      ensures transactions == SortedCopy(old(transactions), criteria, old(sortOrder))
      ensures multiset(transactions) == multiset(old(transactions))
      ensures filterType == old(filterType) && searchQuery == old(searchQuery) && currentPage == old(currentPage)
    {
      var staleOrder := sortOrder;
      sortOrder := Flip(sortOrder);
      SortedCopyPermutes(transactions, criteria, staleOrder);
      transactions := SortedCopy(transactions, criteria, staleOrder);
    }

    /** `Previous`: one page back, and disabled on page 1. */
    method Previous()
      requires Valid()
      modifies this
      ensures Valid()
      ensures currentPage == if old(currentPage) == 1 then 1 else old(currentPage) - 1
      ensures transactions == old(transactions) && filterType == old(filterType)
      ensures searchQuery == old(searchQuery) && sortOrder == old(sortOrder)
    {
      if currentPage != 1 {
        currentPage := currentPage - 1;
      }
    }

    /** `Next`: one page forward while a later page exists (the corrected enable rule). */
    method Next()
      requires Valid()
      modifies this
      ensures Valid()
      ensures currentPage == if NextEnabled(old(currentPage), |Listed()|) then old(currentPage) + 1 else old(currentPage)
      ensures NextEnabled(old(currentPage), |Listed()|) ==> CurrentPage() != []
      ensures transactions == old(transactions) && filterType == old(filterType)
      ensures searchQuery == old(searchQuery) && sortOrder == old(sortOrder)
    {
      if NextEnabled(currentPage, |Listed()|) {
        NextLeadsToCards(Listed(), currentPage);
        currentPage := currentPage + 1;
      }
    }
  }
}
