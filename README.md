# CrossFi Guardian dashboard: list computations

This project models the logic inside the React components of a crypto-portfolio dashboard. Most of each component is layout and chart markup. What the model covers is the data those components compute and the state their handlers change:

- **Transaction history** (`TransactionHistory`): records are filtered by inclusive date bounds, three multi-select lists and a case-insensitive ID search. They are sorted by a clickable column, cut into pages of ten with clamped Previous/Next, and exported as comma-joined lines. The page state is a class whose methods are the handlers.
- **Recent transactions** (`RecentTransactions`): a type filter with "All", a case-sensitive search over four fields, and pages of five. The sort handler flips its order flag but sorts with the flag's old value. It reads amounts by deleting `$` and `,`.
- **Filter-then-sort tables** (`DetailedView`, `RiskAssessment`, `TopPerformingAssets`): optional equality filters, a substring search and a numeric sort. Also the threshold status, the signed return badge and the profit line.
- **Aggregations and exports**:
  - the profit-and-loss totals fold (`Performance`, a loop);
  - the allocation total and percentage shares (`AssetAllocationOverview`);
  - the risk colour lookup, the two-line CSV and the liquid share (`LiquidityAndRiskOverview`);
  - the report CSV, the sample-data generator and the custom date range dialog (`PerformanceReport`).

Four shared modules hold what several components use:

- `Lists`: filter, subsequence, sum, JavaScript's `slice`, and paging.
- `Text`: substring search, ASCII lower-casing, JavaScript string order, join and split, and digits.
- `Order`: the stable sort `Array.prototype.sort` performs with the dashboard's comparators, modelled as insertion sort.
- `IsoDates`: `YYYY-MM-DD` dates as day keys.

How the model represents the browser's inputs:

- Numbers are `real`.
- JavaScript's number-to-text conversion (`String(n)`, `toLocaleString`) is a parameter `show`.
- The clock and `Math.random` are parameters (`daysAgo`, `draws`).
- Each React handler is one atomic state update.

## Model

| member | source | states |
|---|---|---|
| TransactionHistory.NextSortConfig | src/views/admin/Transactions/components/TransactionHistory.js:172-177 | the clicked column becomes the key; the same column reverses the direction, another column starts ascending |
| TransactionHistory.SortToggleTwice | src/views/admin/Transactions/components/TransactionHistory.js:172-177 | clicking the current column twice restores the sort configuration |
| TransactionHistory.DateBoundsInclusive | src/views/admin/Transactions/components/TransactionHistory.js:185-188 | with both bounds set, a valid date passes both exactly when lo <= day <= hi (both inclusive) |
| TransactionHistory.MatchesIff | src/views/admin/Transactions/components/TransactionHistory.js:184-193 | a record matches iff it passes the date bounds, each of the type, protocol and status lists is empty or contains its value, and its ID contains the search ignoring case (an empty search accepts all) |
| TransactionHistory.NoFiltersKeepAll | src/views/admin/Transactions/components/TransactionHistory.js:211-217 | cleared filters keep every record, in order |
| TransactionHistory.QueryShape | src/views/admin/Transactions/components/TransactionHistory.js:183-199 | the result is a permutation of the matching subsequence, holds exactly the matching records, is ordered by the column in the configured direction, and keeps equal-key records in input order |
| TransactionHistory.DateSortIsChronological | src/views/admin/Transactions/components/TransactionHistory.js:195-199 | sorting the date column as text orders valid dates by calendar day |
| TransactionHistory.PreviousPage | src/views/admin/Transactions/components/TransactionHistory.js:425 | `max(p-1, 1)`: never below 1, and one page back from any page above 1 |
| TransactionHistory.NextPage | src/views/admin/Transactions/components/TransactionHistory.js:434 | `min(p+1, ceil(n/10))`: never above the page count, and one page forward while a later page exists |
| TransactionHistory.NextWithNoMatches | src/views/admin/Transactions/components/TransactionHistory.js:431-434 | with no matching records Next sets page 0 |
| TransactionHistory.CsvRow | src/views/admin/Transactions/components/TransactionHistory.js:223-235 | one exported record has as many fields as the header (11) |
| TransactionHistory.ExportRoundTrip | src/views/admin/Transactions/components/TransactionHistory.js:219-238 | the export has the header line and one line per record, in order; each line splits on `,` back into the header or the record's 11 fields, when no field holds a separator |
| TransactionHistory.CommaInNotesAddsColumns | src/views/admin/Transactions/components/TransactionHistory.js:235-237 | nothing is quoted: a comma in the notes yields more than 11 columns |
| TransactionHistory.HistoryState.constructor | src/views/admin/Transactions/components/TransactionHistory.js:135-144 | no records, no filters, sorted by date descending, page 1 |
| TransactionHistory.HistoryState.ReceiveTransactions | src/views/admin/Transactions/components/TransactionHistory.js:150-170 | the loaded list is stored; filters, sort and page are unchanged |
| TransactionHistory.HistoryState.SetFilters | src/views/admin/Transactions/components/TransactionHistory.js:270-305 | the search box and the three multi-selects set the filter inputs; nothing else changes |
| TransactionHistory.HistoryState.HandleSort | src/views/admin/Transactions/components/TransactionHistory.js:172-177 | the sort configuration becomes `NextSortConfig` of the old one; nothing else changes |
| TransactionHistory.HistoryState.Previous | src/views/admin/Transactions/components/TransactionHistory.js:424-426 | disabled on page 1; otherwise `max(p-1, 1)`: one page back from any page above 1, and page 1 from page 0 or below |
| TransactionHistory.HistoryState.Next | src/views/admin/Transactions/components/TransactionHistory.js:433-435 | disabled on the last page; otherwise `min(p+1, ceil(n/10))`: one page forward while a later page exists, and the last page from any page past it (reachable after a narrower filter) |
| TransactionHistory.HistoryState.HandleFilterClear | src/views/admin/Transactions/components/TransactionHistory.js:211-217 | every filter input is emptied, the listed records become all records in sort order, and the sort and page are unchanged |
| TransactionHistory.HistoryState.HandleExport | src/views/admin/Transactions/components/TransactionHistory.js:219-238 | the text exports every filtered record, not just the current page; when no field holds a separator it has one header line plus one line per filtered record |
| Lists.PageShape | src/views/admin/Transactions/components/TransactionHistory.js:201-204 | page p is elements [(p-1)*size, p*size) of the list, at most `size` long, empty exactly for p = 0 or past the last page, and full before the last page |
| Lists.PagesCoverAll | src/views/admin/Transactions/components/TransactionHistory.js:201-204 | pages 1..ceil(n/size) concatenated give back the whole list |
| Lists.SliceIndex | src/views/admin/default/components/RecentTransactions.js:96-98 | JavaScript's `slice` index rule: negative indices count from the end, and indices are clamped to [0, n] |
| Lists.FilterMembers | src/views/admin/Transactions/components/TransactionHistory.js:183-194 | the filter keeps exactly the elements that pass the predicate |
| Lists.FilterIsSubsequence | src/views/admin/Transactions/components/TransactionHistory.js:183-194 | the filtered list is a subsequence of its input |
| Lists.FilterAll | src/views/admin/Transactions/components/TransactionHistory.js:183-194 | the filter returns its input unchanged iff every element passes |
| Lists.FilterNone | src/views/admin/Portfolio/components/TopPerformingAssets.js:123-124 | the filter returns nothing iff no element passes |
| Lists.FilterFilter | src/views/admin/default/components/RecentTransactions.js:87-94 | two chained filters equal one filter by both predicates |
| Lists.PageCount | src/views/admin/Transactions/components/TransactionHistory.js:431 | `ceil(n/size)`: the least page count that covers n items, 0 exactly for no items |
| Order.SortByPermutes | src/views/admin/Transactions/components/TransactionHistory.js:195-199 | sorting rearranges its input without changing its multiset |
| Order.SortBySorted | src/views/admin/Transactions/components/TransactionHistory.js:195-199 | the sorted list is ordered by the key in the requested direction |
| Order.SortByStable | src/views/admin/Transactions/components/TransactionHistory.js:195-199 | records with equal keys keep their input order (the comparator returns 0 for them) |
| Order.SortByConstantKey | src/views/admin/default/components/RecentTransactions.js:82 | a comparator that returns 0 for every pair leaves the list unchanged |
| Order.SortByOfSorted | src/views/admin/Portfolio/components/TopPerformingAssets.js:125 | sorting an already ordered list returns it unchanged |
| Order.FilterSortCommute | src/views/admin/Analytics/components/RiskAssessment.js:128-134 | filtering after the sort gives the same list as sorting after the filter |
| Order.FilterSortShape | src/views/admin/Portfolio/components/DetailedView.js:191-204 | a filter-then-sort result is a permutation of the matching subsequence, holds exactly the matching elements, is ordered, and is stable |
| Order.KeyLeTotal | src/views/admin/Transactions/components/TransactionHistory.js:196-197 | any two keys are comparable under `<` and `>` |
| Order.KeyLeTransitive | src/views/admin/Transactions/components/TransactionHistory.js:196-197 | the comparator's order is transitive |
| Order.KeyLeAntisymmetric | src/views/admin/Transactions/components/TransactionHistory.js:196-198 | keys that are neither `<` nor `>` each other are equal |
| Text.ContainsIffOccurs | src/views/admin/default/components/RecentTransactions.js:89-94 | `includes` holds iff the needle occurs at some position of the text |
| Text.ExactMatchIgnoresCase | src/views/admin/Transactions/components/TransactionHistory.js:192 | a case-sensitive match is also a case-insensitive one |
| Text.IgnoreCaseQueryCase | src/views/admin/Transactions/components/TransactionHistory.js:192 | lower-casing the query does not change a case-insensitive search |
| Text.LexLeTransitive | src/views/admin/Transactions/components/TransactionHistory.js:196-197 | JavaScript's string order is transitive |
| Text.LexLeAntisymmetric | src/views/admin/Transactions/components/TransactionHistory.js:196-198 | strings ordered both ways are equal |
| Text.SplitJoin | src/views/admin/Transactions/components/TransactionHistory.js:237-238 | splitting a join on its separator gives back the pieces when no piece holds the separator |
| Text.SeparatorInPieceAddsPieces | src/views/admin/Transactions/components/TransactionHistory.js:237 | a piece holding the separator makes the join split into more pieces than were joined |
| Text.SplitCount | src/views/admin/Transactions/components/TransactionHistory.js:237-238 | a split has one piece more than the text has separators |
| Text.DigitsOrder | src/views/admin/Transactions/components/TransactionHistory.js:196-197 | for digit strings of equal length, string order is numeric order |
| Text.ParseFloatNatText | src/views/admin/default/components/RecentTransactions.js:79 | `parseFloat` reads a whole number's digits back as that number, whatever non-numeric text follows |
| IsoDates.StringOrderIsChronological | src/views/admin/Transactions/components/TransactionHistory.js:184-188 | for two valid `YYYY-MM-DD` dates, string order is calendar order |
| IsoDates.DayKeyInjective | src/views/admin/Transactions/components/TransactionHistory.js:184-188 | two valid date strings with the same day are the same string |
| IsoDates.ParseIsoDayText | src/views/admin/Transactions/components/TransactionHistory.js:184 | writing a valid day as `yyyy-MM-dd` and parsing it gives back that day |
| IsoDates.DaysInMonth | src/views/admin/Transactions/components/TransactionHistory.js:184 | months have 28 to 31 days, and February has 29 exactly in leap years |
| RecentTransactions.Flip | src/views/admin/default/components/RecentTransactions.js:71 | the order flag always changes |
| RecentTransactions.FilteredIff | src/views/admin/default/components/RecentTransactions.js:87-94 | the listed cards form a subsequence of the stored list and are exactly those whose type is "All"-matched or equal and whose date, type, amount or protocol contains the query |
| RecentTransactions.NoFilterKeepsAll | src/views/admin/default/components/RecentTransactions.js:88-94 | "All" with an empty query lists every card, in order |
| RecentTransactions.StripMoney | src/views/admin/default/components/RecentTransactions.js:79 | the stripped amount holds no `$` and no `,` |
| RecentTransactions.AmountOfDollars | src/views/admin/default/components/RecentTransactions.js:77-80 | an amount shown as `$` and a whole number sorts by that number |
| RecentTransactions.SortedCopyPermutes | src/views/admin/default/components/RecentTransactions.js:72 | the sort rearranges the stored list without changing its contents |
| RecentTransactions.SortedCopyOrdered | src/views/admin/default/components/RecentTransactions.js:72-83 | the copy is ordered by the criterion, ascending exactly when the flag read at call time was "asc" |
| RecentTransactions.UnknownCriterionKeepsOrder | src/views/admin/default/components/RecentTransactions.js:82 | an unknown criterion keeps the stored order |
| RecentTransactions.AmountSortAscending | src/views/admin/default/components/RecentTransactions.js:77-79 | with the flag at "asc", the amounts' numbers rise down the list |
| RecentTransactions.NextAsWrittenRunsPastEnd | src/views/admin/default/components/RecentTransactions.js:238-239 | past the last page (page 1 when nothing matches), Next stays enabled and leads only to empty pages |
| RecentTransactions.NothingMatchesStillPages | src/views/admin/default/components/RecentTransactions.js:238-239 | with no matches, Next is enabled on page 1 and page 2 is empty |
| RecentTransactions.NextLeadsToCards | src/views/admin/default/components/RecentTransactions.js:238-239 | with the corrected enable rule, Next always leads to a page with cards, and on pages 1..ceil(n/5) it agrees with the rule as written |
| RecentTransactions.RecentState.constructor | src/views/admin/default/components/RecentTransactions.js:38-45 | empty list, type "All", empty query, order "desc", page 1 |
| RecentTransactions.RecentState.CurrentPage | src/views/admin/default/components/RecentTransactions.js:96-98 | the current page is the slice [page*5-5, page*5) of the listed cards, at most 5 |
| RecentTransactions.RecentState.ReceiveTransactions | src/views/admin/default/components/RecentTransactions.js:50-55 | the loaded list is stored; nothing else changes |
| RecentTransactions.RecentState.HandleFilterChange | src/views/admin/default/components/RecentTransactions.js:68 | the selected type is stored; nothing else changes |
| RecentTransactions.RecentState.HandleSearchChange | src/views/admin/default/components/RecentTransactions.js:69 | the typed query is stored; nothing else changes |
| RecentTransactions.RecentState.HandleSortChange | src/views/admin/default/components/RecentTransactions.js:70-85 | the flag flips, and the stored list is replaced by its copy sorted with the flag's old value, a permutation of the old list |
| RecentTransactions.RecentState.Previous | src/views/admin/default/components/RecentTransactions.js:229-231 | disabled on page 1; otherwise one page back |
| RecentTransactions.RecentState.Next | src/views/admin/default/components/RecentTransactions.js:237-239 | one page forward only while a later page exists, which then has cards (the corrected enable rule) |
| DetailedView.SearchHitIff | src/views/admin/Portfolio/components/DetailedView.js:194 | the search is a case-insensitive substring test, and an empty search accepts everything |
| DetailedView.LendingRows | src/views/admin/Portfolio/components/DetailedView.js:191-195 | a lending row is listed iff the protocol filter is empty or equal, the asset filter is empty or equal, and the search is in its asset ignoring case; the rows are a permutation of a subsequence |
| DetailedView.LendingOrder | src/views/admin/Portfolio/components/DetailedView.js:195 | lending rows are ordered by expected return, high to low only for "desc", and equal returns keep their order |
| DetailedView.StakingRows | src/views/admin/Portfolio/components/DetailedView.js:197-200 | a staking row is listed iff it passes the protocol filter and the search on the asset; the rows are a permutation of a subsequence |
| DetailedView.StakingIgnoresAssetFilter | src/views/admin/Portfolio/components/DetailedView.js:197-199 | the asset filter plays no part in the staking table |
| DetailedView.StakingOrder | src/views/admin/Portfolio/components/DetailedView.js:200 | staking rows are ordered by current rewards, high to low only for "desc" |
| DetailedView.AmmTable | src/views/admin/Portfolio/components/DetailedView.js:202-204 | a pool is listed iff its name contains the search ignoring case; pools are ordered by earned fees; the protocol and asset filters play no part |
| DetailedView.ClearedControlsKeepAll | src/views/admin/Portfolio/components/DetailedView.js:178-181 | with the initial filters and any sort order, each of the three tables is a permutation of its whole array (the same rows, each as often) |
| RiskAssessment.SetSortOrder | src/views/admin/Analytics/components/RiskAssessment.js:120-122 | the button's order is stored and the filter is untouched |
| RiskAssessment.SetFilter | src/views/admin/Analytics/components/RiskAssessment.js:116-118 | the typed text is stored and the order is untouched |
| RiskAssessment.StatusOf | src/views/admin/Analytics/components/RiskAssessment.js:199-203 | "At Risk" iff the ratio is below its threshold; equality is "Safe" |
| RiskAssessment.SortThenFilterIsFilterThenSort | src/views/admin/Analytics/components/RiskAssessment.js:128-134 | filtering after the sort gives the table that filtering first would |
| RiskAssessment.TableShape | src/views/admin/Analytics/components/RiskAssessment.js:128-134 | the table holds exactly the entries whose asset contains the filter text (case-sensitive), as a permutation of a subsequence of the array |
| RiskAssessment.TableOrder | src/views/admin/Analytics/components/RiskAssessment.js:128-134 | ratios rise down the table for "asc" and fall for any other order, after the filter as well |
| RiskAssessment.EmptyFilterKeepsAll | src/views/admin/Analytics/components/RiskAssessment.js:134 | an empty filter keeps every entry |
| RiskAssessment.ButtonsSetDirection | src/views/admin/Analytics/components/RiskAssessment.js:172-177 | the up button sorts ascending and the down button descending, whatever the filter |
| RiskAssessment.AtRiskRowsComeFirst | src/views/admin/Analytics/components/RiskAssessment.js:128-134 | under a common threshold and "asc", every "At Risk" row precedes every "Safe" row |
| RiskAssessment.SampleAllAtRisk | src/views/admin/Analytics/components/RiskAssessment.js:50-56 | every sample entry is below its threshold |
| RiskAssessment.InitialTable | src/views/admin/Analytics/components/RiskAssessment.js:50-56 | on first render the table lists LINK, AAVE, ETH, BTC, UNI |
| RiskAssessment.SampleSortedAscending | src/views/admin/Analytics/components/RiskAssessment.js:128-133 | the sample array sorted by ratio ascending is LINK, AAVE, ETH, BTC, UNI |
| TopPerformingAssets.ToggleExpand | src/views/admin/Portfolio/components/TopPerformingAssets.js:121 | one shared flag flips; search and order are untouched |
| TopPerformingAssets.ToggleTwice | src/views/admin/Portfolio/components/TopPerformingAssets.js:117-121 | toggling twice restores the state, and the toggle never changes the grid |
| TopPerformingAssets.SetSearch | src/views/admin/Portfolio/components/TopPerformingAssets.js:144 | the typed search is stored; nothing else changes |
| TopPerformingAssets.SetSortOrder | src/views/admin/Portfolio/components/TopPerformingAssets.js:151 | the chosen order is stored; nothing else changes |
| TopPerformingAssets.FilteredShape | src/views/admin/Portfolio/components/TopPerformingAssets.js:123-124 | the grid lists exactly the assets whose name contains the search ignoring case, as a permutation of a subsequence of the array |
| TopPerformingAssets.FilteredOrder | src/views/admin/Portfolio/components/TopPerformingAssets.js:125 | the listed assets are ordered by return, high to low only for "desc" and low to high otherwise |
| TopPerformingAssets.GridOf | src/views/admin/Portfolio/components/TopPerformingAssets.js:160 | cards are shown only for a non-empty list |
| TopPerformingAssets.NoAssetsFoundIff | src/views/admin/Portfolio/components/TopPerformingAssets.js:160 | "No assets found" is shown iff no name contains the search |
| TopPerformingAssets.InitialGrid | src/views/admin/Portfolio/components/TopPerformingAssets.js:118-125 | on first render all five assets are listed in the array's order |
| TopPerformingAssets.EmptySearchKeepsAllFive | src/views/admin/Portfolio/components/TopPerformingAssets.js:123-124 | an empty search lists all five assets in either order |
| TopPerformingAssets.ReturnBadge | src/views/admin/Portfolio/components/TopPerformingAssets.js:201-219 | green with an up arrow iff the return is positive; otherwise red, a down arrow and the absolute value |
| TopPerformingAssets.BadgeRecoversReturn | src/views/admin/Portfolio/components/TopPerformingAssets.js:201-219 | the arrow and the magnitude give back the return |
| TopPerformingAssets.ProfitLineOf | src/views/admin/Portfolio/components/TopPerformingAssets.js:222-223 | the text starts with `+` iff the profit is positive and `-` otherwise, then `$` and the absolute value; green iff positive |
| TopPerformingAssets.ZeroProfitShowsMinus | src/views/admin/Portfolio/components/TopPerformingAssets.js:223 | a zero profit is written with a minus sign |
| TopPerformingAssets.ProfitLineRecoversProfit | src/views/admin/Portfolio/components/TopPerformingAssets.js:223 | for a non-zero profit, the sign and the magnitude give back the profit |
| Performance.TotalPAndL | src/views/admin/Analytics/components/Performance.js:150-163 | each of the five totals is the sum of its field over the entries; no entries give all-zero totals |
| Performance.PieLabels | src/views/admin/Analytics/components/Performance.js:339 | one label per entry, its ticker, in entry order |
| Performance.PieValues | src/views/admin/Analytics/components/Performance.js:341 | one value per label, value i being entry i's realized plus unrealized gain |
| Performance.PieSlice | src/views/admin/Analytics/components/Performance.js:339-341 | slice i is entry i's ticker with its realized plus unrealized gain |
| Performance.PieAddsUpToTotals | src/views/admin/Analytics/components/Performance.js:339-341 | the whole pie is the realized total plus the unrealized total |
| Performance.AssetIcon | src/views/admin/Analytics/components/Performance.js:355-370 | an icon exactly for BTC, ETH, LINK, UNI and AAVE, null otherwise |
| Performance.AssetIconInjective | src/views/admin/Analytics/components/Performance.js:355-370 | no two tickers share an icon |
| Performance.SampleEntriesHaveIcons | src/views/admin/Analytics/components/Performance.js:91-132 | every sample entry has an icon |
| PerformanceReport.GenerateSampleData | src/views/admin/Analytics/components/PerformanceReport.js:40-62 | 30 labels and 30 values, oldest day first: label k is 30-k days ago, value k the draw made for that day |
| PerformanceReport.CsvRows | src/views/admin/Analytics/components/PerformanceReport.js:144 | row i pairs label i with value i, or nothing when the dataset is shorter |
| PerformanceReport.ExportRoundTrip | src/views/admin/Analytics/components/PerformanceReport.js:140-147 | the export is `Date,Value` and one line per label; line i+1 splits back into label i and its value |
| PerformanceReport.SlotOf | src/views/admin/Analytics/components/PerformanceReport.js:120 | an input's slot holds a date iff the input is non-empty |
| PerformanceReport.ChangeAsWritten | src/views/admin/Analytics/components/PerformanceReport.js:116-122 | the handler as written writes the input's name ("start" or "end"), keeping every other property |
| PerformanceReport.AsWrittenApplyNeverSucceeds | src/views/admin/Analytics/components/PerformanceReport.js:116-125 | as written, no edits of the two inputs ever fill slots 0 and 1, so apply never succeeds |
| PerformanceReport.AsWrittenBothDatesEntered | src/views/admin/Analytics/components/PerformanceReport.js:116-125 | as written, entering both dates from `[null, null]` still leaves apply failing |
| PerformanceReport.ChangeSlot | src/views/admin/Analytics/components/PerformanceReport.js:116-122 | the corrected handler writes slot 0 for the start input and slot 1 for the end input, keeping the rest |
| PerformanceReport.ApplySucceedsAfterBothDates | src/views/admin/Analytics/components/PerformanceReport.js:124-125 | with the corrected handler, apply is enabled iff both inputs are non-empty |
| PerformanceReport.EditsKeepSlots | src/views/admin/Analytics/components/PerformanceReport.js:118-121 | edits never remove slot 0 or slot 1 |
| PerformanceReport.ReportState.constructor | src/views/admin/Analytics/components/PerformanceReport.js:92-96 | period "1m", range `[null, null]`, the initial chart, dialog closed |
| PerformanceReport.ReportState.HandlePeriodChange | src/views/admin/Analytics/components/PerformanceReport.js:111-114 | the chosen value becomes the period; nothing else changes |
| PerformanceReport.ReportState.OpenCustomRange | src/views/admin/Analytics/components/PerformanceReport.js:183 | the dialog opens; nothing else changes |
| PerformanceReport.ReportState.CloseCustomRange | src/views/admin/Analytics/components/PerformanceReport.js:300 | the dialog closes without applying |
| PerformanceReport.ReportState.HandleCustomDateRangeChange | src/views/admin/Analytics/components/PerformanceReport.js:116-122 | the range takes the corrected change; nothing else changes |
| PerformanceReport.ReportState.HandleApplyCustomDateRange | src/views/admin/Analytics/components/PerformanceReport.js:124-138 | applied iff both slots hold a date; then the chart takes the new data and the dialog closes, otherwise chart and dialog are unchanged |
| AssetAllocationOverview.Values | src/views/admin/Portfolio/components/AssetAllocationOverview.js:35 | the values in category order |
| AssetAllocationOverview.Share | src/views/admin/Portfolio/components/AssetAllocationOverview.js:103 | `value / total * 100`, defined iff the total is non-zero |
| AssetAllocationOverview.Shares | src/views/admin/Portfolio/components/AssetAllocationOverview.js:103 | one share per category, in table order |
| AssetAllocationOverview.ShareBounds | src/views/admin/Portfolio/components/AssetAllocationOverview.js:103 | with non-negative values and a positive total, each share lies in [0, 100] |
| AssetAllocationOverview.SharesSumTo100 | src/views/admin/Portfolio/components/AssetAllocationOverview.js:103 | the shares sum to 100 in exact arithmetic |
| AssetAllocationOverview.SummaryShareIs100 | src/views/admin/Portfolio/components/AssetAllocationOverview.js:116 | the summary percentage is 100 whenever the total is non-zero |
| AssetAllocationOverview.SampleTotal | src/views/admin/Portfolio/components/AssetAllocationOverview.js:28-35 | the sample categories total 11000 |
| AssetAllocationOverview.ColorAt | src/views/admin/Portfolio/components/AssetAllocationOverview.js:79 | every entry gets one of the four chart colours |
| AssetAllocationOverview.ColorCycle | src/views/admin/Portfolio/components/AssetAllocationOverview.js:79 | colours repeat every four entries, and neighbouring entries differ |
| LiquidityAndRiskOverview.RiskColor | src/views/admin/Portfolio/components/LiquidityAndRiskOverview.js:71-82 | Low, Medium and High map to green.400, yellow.400 and red.400, anything else to gray.400 (each an iff) |
| LiquidityAndRiskOverview.RiskColorIdentifiesLevel | src/views/admin/Portfolio/components/LiquidityAndRiskOverview.js:71-82 | a known level's colour belongs to no other level |
| LiquidityAndRiskOverview.CsvRow | src/views/admin/Portfolio/components/LiquidityAndRiskOverview.js:128-133 | four values, one per header name, the value at risk with a `$` prefix |
| LiquidityAndRiskOverview.ExportShape | src/views/admin/Portfolio/components/LiquidityAndRiskOverview.js:125-136 | the export is exactly two lines, which split back into the four header names and the four values |
| LiquidityAndRiskOverview.LiquidShare | src/views/admin/Portfolio/components/LiquidityAndRiskOverview.js:170 | the liquid share is defined iff liquid plus locked is non-zero |
| LiquidityAndRiskOverview.LiquidShareBounds | src/views/admin/Portfolio/components/LiquidityAndRiskOverview.js:170 | with non-negative amounts and a positive sum the share lies in [0, 100], and 100 minus it is the locked share |
| LiquidityAndRiskOverview.InitialLiquidShare | src/views/admin/Portfolio/components/LiquidityAndRiskOverview.js:170 | the sample data fills 80% of the bar |
| LiquidityAndRiskOverview.RiskTooltip | src/views/admin/Portfolio/components/LiquidityAndRiskOverview.js:85-96 | no tooltip iff the payload is empty; otherwise the first entry |
| LiquidityAndRiskOverview.HandleTimeframeChange | src/views/admin/Portfolio/components/LiquidityAndRiskOverview.js:108-111 | only the timeframe changes |
| LiquidityAndRiskOverview.ToggleAdvancedStats | src/views/admin/Portfolio/components/LiquidityAndRiskOverview.js:215 | only the advanced-statistics flag flips |
| LiquidityAndRiskOverview.ControlsKeepFigures | src/views/admin/Portfolio/components/LiquidityAndRiskOverview.js:108-111 | a timeframe change leaves the bar, the colour and the export as they were; two toggles restore the view |

## Left out

- The simulated fetches with `setTimeout`, the `useEffect` loaders, toasts and spinners are left out because they are asynchronous I/O. A loaded list enters the model through `ReceiveTransactions`.
- File delivery is left out because it is browser I/O: `Blob`, `URL.createObjectURL`, `link.click`, `saveAs` and the jsPDF export. Only the CSV text that is built is modelled.
- The clock and `Math.random` in `generateSampleData` become the parameters `daysAgo` and `draws`. The comparison data, the performance chart data and the risk scenario data are chart fixtures.
- Number formatting (`String(n)`, `toFixed`, `toLocaleString`) is the parameter `show`. The export lemmas assume only that its output holds no comma and no line break.
- Numbers are exact reals. Floating-point rounding is not modelled, so "the shares sum to 100" holds before `toFixed` rounds them.
- Case-insensitive search folds only ASCII letters. JavaScript's full Unicode `toLowerCase` is not modelled.
- String comparison is lexicographic by character code. Characters are treated as single code units.
- `parseISO` and `new Date` are modelled on the `YYYY-MM-DD` form only, at day granularity. Any other date text reads as an invalid date. An invalid date compares false against a bound.
- `parseFloat` is modelled on an optional sign, digits and an optional fraction. Exponents, `Infinity` and leading white space are not modelled; the dashboard's amounts never use them.
- The transaction history's date range has no control that sets it: `DatePicker` is imported but never rendered, and only "Clear filters" writes the range. `TransactionHistory.HistoryState.SetFilters` therefore keeps the date bounds, and the bounds are stated through the pure filter.
- The detailed view's asset filter has no control either. It is kept as a field of the controls that only starts empty.
- RecentTransactions.AmountValue and RecentTransactions.DateValue: an amount that does not parse, or an invalid date, makes JavaScript's comparator return `NaN`, which the sort reads as "equal"; among unequal valid keys that comparator is inconsistent and JavaScript leaves the order unspecified. The model picks key 0 for such a record, one order JavaScript may or may not give; the sort lemmas are exact only when every amount and date is valid.
- Sorting "on a copy" (`[...collateralData]`, `[...transactions]`) holds by construction, because every list in the model is a value.
- Layout, charts, icons, badge colours, modals, the protocol icons in the detailed view, `riskDetails` and the detail dialogs are rendering only and are left out.
- The context files (fixture components, routes, page composition) are not part of this model.
- React's batching and render timing are left out; each handler is one atomic update.

## Findings

| source | as written | input that shows it | evidently intended | confidence | as-written member | corrected member |
|---|---|---|---|---|---|---|
| src/views/admin/Analytics/components/PerformanceReport.js:116-125 | the change handler stores each date under the input's name, "start" or "end", while apply reads indices 0 and 1, which stay null | from `[null, null]`, enter 2024-01-01 as start and 2024-02-01 as end, then Apply: the toast says the range is invalid | the start input fills slot 0 and the end input slot 1, so apply succeeds once both dates are entered | not executed | PerformanceReport.AsWrittenApplyNeverSucceeds | PerformanceReport.ApplySucceedsAfterBothDates |
| src/views/admin/default/components/RecentTransactions.js:238-239 | Next is disabled only when the page equals `ceil(n/5)`, so with no matches (0 pages) Next is enabled on page 1 and keeps leading to empty pages | a search that matches nothing, on page 1: Next is enabled and shows an empty page 2 | Next is enabled only while a later page exists | not executed | RecentTransactions.NothingMatchesStillPages | RecentTransactions.NextLeadsToCards |
