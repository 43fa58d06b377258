# Reseller dashboard: verified model of the data layer and page logic

This project models, in Dafny, the non-visual logic of a reseller analytics
dashboard (a React/TypeScript single-page app backed by a Google Sheets web
service). It covers:

- the spreadsheet layer `src/lib/googlesheet.ts`: what the fetch functions
  return for each shape of response or failure, filtering products by period,
  and listing the distinct periods;
- the analytics page `src/pages/Index.tsx`: date range to product period,
  the top-ten products by delivery percentage, the profit-band window, the
  delivery chart rows with their colour cycle, and the order-status pie;
- the recent-orders page `src/pages/RecentOrders.tsx`: status filter plus
  case-insensitive search, totals and the rounded average order value;
- the order-status page `src/pages/OrderStatus.tsx`: the status key derived
  from a bucket name, the filtered buckets, their total and the icon fallback;
- the delivery page `src/pages/DeliveryPerformance.tsx`: loading with the
  built-in city table as fallback, the colour table, the partner/city/all
  selection, the delivered and failed sums, the mean rate and the tiers;
- the product page `src/pages/TopSellingProducts.tsx`: the stable sort by a
  selectable key, the totals and the delivery badge;
- the revenue page `src/pages/RevenueOverview.tsx`: the monthly/quarterly
  rows, the totals with JavaScript `||` fallbacks and the rounded average.

The JavaScript building blocks are modelled once, in shared modules:
`Seqs` (`filter`, `reduce` with `+`, `[...new Set(xs)]`), `Sorting` (a stable
sort with a `b.k - a.k` comparator, i.e. non-increasing by a key with ties in
input order, and `slice(0, n)`), `Text` (`toLowerCase`, `includes`, and
`replace` with a one-character string, which replaces only the first
occurrence) and `Rounding` (`Math.round(t / n)`, i.e. floor(t/n + 1/2), for an
integer total and a positive count). Counts and amounts are `int`; rates
and percentages are `real`. All of the modelled code is pure, so the model is
functions, datatypes and lemmas.

Where the code and its description disagree, the model follows the code. In
particular `Index.tsx` reads fields (`deliveryPerformanceCourier`,
`deliveryPerformanceCity`, `profitBand`) that the `SheetData` interface in
`googlesheet.ts` does not declare; the model's `IndexPage.DashboardData` has
them, shaped as the page reads them.

## Model

| member | source | states |
|---|---|---|
| Seqs.Filter | src/lib/googlesheet.ts:77 | `filter` keeps elements in their order (subsequence), never lengthens, and keeps each value exactly as often as in the input when the predicate holds, never otherwise |
| Seqs.FilterMembers | src/lib/googlesheet.ts:77 | a value is in the filtered list iff it is in the input and satisfies the predicate |
| Seqs.FilterKeepAll | src/pages/RecentOrders.tsx:119-126 | a filter every element passes returns the input unchanged |
| Seqs.FilterKeepNone | src/lib/googlesheet.ts:77 | a filter no element passes returns the empty list |
| Seqs.SumAppend | src/pages/Index.tsx:214 | a `reduce` sum over a concatenation is the sum of the two sums |
| Seqs.SumPermutation | src/pages/TopSellingProducts.tsx:115-117 | a sum is the same over any permutation of the list |
| Seqs.SumBounds | src/pages/RecentOrders.tsx:129-131 | terms within [lo, hi] give a sum within [n·lo, n·hi] |
| Seqs.SumDifference | src/pages/DeliveryPerformance.tsx:259 | summing `total - delivered` equals sum of totals minus sum of delivered |
| Seqs.SumRealBounds | src/pages/DeliveryPerformance.tsx:161-163 | real terms within [lo, hi] give a sum within [n·lo, n·hi] |
| Seqs.Distinct | src/lib/googlesheet.ts:82 | `[...new Set(xs)]` has no duplicates, the same members as the input, and is no longer |
| Seqs.DistinctFirstOccurrenceOrder | src/lib/googlesheet.ts:82 | values are listed in the order of their first occurrence (Set insertion order) |
| Sorting.Insert | src/pages/Index.tsx:179 | inserting into a non-increasing list keeps it non-increasing and adds exactly the one element |
| Sorting.SortDescending | src/pages/Index.tsx:179 | the sort result is non-increasing by the key and a permutation of the input |
| Sorting.InsertStable | src/pages/TopSellingProducts.tsx:103 | insertion keeps the input order among elements with equal key |
| Sorting.SortStable | src/pages/TopSellingProducts.tsx:103 | the sort is stable: for every key value, the elements with that key appear in input order |
| Sorting.Take | src/pages/Index.tsx:180 | `slice(0, n)` is a prefix of length min(n, length) |
| Sorting.TakeOfSorted | src/pages/Index.tsx:177-181 | the first n of the sorted list are sorted, drawn from the input, and no element left out has a larger key than one taken |
| Text.Lower | src/pages/RecentOrders.tsx:122-124 | `toLowerCase` keeps the length, maps each ASCII capital to its small letter and leaves other characters alone |
| Text.LowerIdempotent | src/pages/RecentOrders.tsx:122-124 | lower-casing twice is lower-casing once |
| Text.ContainsAt | src/pages/RecentOrders.tsx:122-124 | `includes` (`Text.Contains`, a recursive definitional helper) holds iff the needle occurs at some position of the haystack |
| Text.ContainsEmpty | src/pages/RecentOrders.tsx:121 | every string includes the empty string |
| Text.ReplaceFirst | src/pages/OrderStatus.tsx:129 | `replace(' ', '-')` changes only the first occurrence and keeps the length; no occurrence, no change |
| Rounding.RoundedQuotient | src/pages/RecentOrders.tsx:131 | `Math.round(t / n)` is the integer r with n(2r−1) ≤ 2t < n(2r+1) (nearest, halves up) |
| Rounding.RoundedQuotientUnique | src/pages/RevenueOverview.tsx:162 | exactly one integer satisfies the nearest-integer condition |
| Rounding.RoundedQuotientWithin | src/pages/RecentOrders.tsx:131 | the rounded mean of a total within [n·lo, n·hi] lies in [lo, hi] |
| GoogleSheet.FetchSheetData | src/lib/googlesheet.ts:39-67 | a failure or falsy `success` gives all-zero basics and empty lists; success gives `data` as basics and the lists or `[]` when absent |
| GoogleSheet.FetchBasicsData | src/lib/googlesheet.ts:70-73 | the basics part of `fetchSheetData`, zero on any failure |
| GoogleSheet.FetchFailureIsZero | src/lib/googlesheet.ts:52-66 | on failure all five basics figures are 0 |
| GoogleSheet.FetchSheetDataFromResponse | src/lib/googlesheet.ts:44-49 | every product and delivery row returned comes from the response |
| GoogleSheet.FetchDeliveryPerformanceData | src/lib/googlesheet.ts:86-109 | the `deliveryPerformance` list when `success` and present, else `data` when it is an array, else `[]`; `[]` on an exception |
| GoogleSheet.DeliveryFetchesCompared | src/lib/googlesheet.ts:93-101 | the two fetches agree on the list when both read it; only the delivery fetch uses an array `data`, even when `success` is falsy |
| GoogleSheet.FilterProductsByPeriod | src/lib/googlesheet.ts:76-78 | the products whose period equals the key, each as often as in the input, in input order |
| GoogleSheet.FilterProductsByPeriodMembers | src/lib/googlesheet.ts:77 | a product is kept iff it is in the input and its period equals the key (case-sensitive); never longer than the input |
| GoogleSheet.FilterProductsByUnknownPeriod | src/lib/googlesheet.ts:76-78 | a key no product carries selects nothing |
| GoogleSheet.Periods | src/lib/googlesheet.ts:82 | `products.map(p => p.Period)` element by element |
| GoogleSheet.GetUniquePeriods | src/lib/googlesheet.ts:81-83 | no duplicates; a string is listed iff some product has that period |
| GoogleSheet.UniquePeriodsOrder | src/lib/googlesheet.ts:82 | periods are listed in the order they first occur |
| IndexPage.ProductPeriod | src/pages/Index.tsx:139-149 | "7days"→"7_DAYS", "30days"→"30_DAYS", "3months"→"3_MONTHS", "6months"→"6_MONTHS", "1year"→"1_YEAR", "lifetime"→"ALL_TIME"; any other range gives "30_DAYS" |
| IndexPage.ProductPeriodTableShape | src/pages/Index.tsx:140-148 | distinct offered ranges map to distinct periods; an unknown range behaves as "30days" |
| IndexPage.FilteredProducts | src/pages/Index.tsx:176-181 | at most ten products, non-increasing delivery percentage, all of the selected period, drawn from the sheet; none before loading |
| IndexPage.FilteredProductsAreTheBest | src/pages/Index.tsx:177-181 | exactly min(10, candidates) are shown, a prefix of the sorted candidates, and no candidate left out beats a shown one |
| IndexPage.ProfitBandData | src/pages/Index.tsx:554-613 | "7days" gives the 7-day figures, "30days" the 30-day, "3months" the 3-month, "6months" the 6-month, "1year" the 1-year and "lifetime" the all-time figures; any other range the 30-day figures |
| IndexPage.DateRangeChoicesAgree | src/pages/Index.tsx:554-613 | the profit-band window always matches the product period chosen for the same range |
| IndexPage.PartnerRows | src/pages/Index.tsx:184-190 | one row per courier with fields copied, rate ×100, colour `palette[i % 4]`; `[]` before loading |
| IndexPage.CityRows | src/pages/Index.tsx:192-198 | the same for city rows |
| IndexPage.DeliveryData | src/pages/Index.tsx:200 | partner rows in the partners view, city rows otherwise |
| IndexPage.DeliveryColoursCycle | src/pages/Index.tsx:189 | adjacent bars differ in colour; colours repeat every four bars |
| IndexPage.PendingOrders | src/pages/Index.tsx:210 | `pending_orders ?? 0`, 0 when there is no current period |
| IndexPage.OrderStatusData | src/pages/Index.tsx:207-212 | four slices; the third is Pending with the pending count |
| IndexPage.PieTotal | src/pages/Index.tsx:207-214 | the pie total (`TotalOrdersForPie`, the `reduce` sum of line 214, a definitional helper) is delivered + in transit + pending + cancelled |
| RecentOrdersPage.FilteredOrders | src/pages/RecentOrders.tsx:119-126 | a subsequence of the orders in which each order passing both the status filter (`MatchesFilter`, line 120) and the search (`MatchesSearch`, lines 121-124, definitional helpers) appears as often as in the input, and no other order appears |
| RecentOrdersPage.SearchIgnoresCase | src/pages/RecentOrders.tsx:121-124 | queries with equal lower-case forms select the same orders |
| RecentOrdersPage.SearchMeansOccurrence | src/pages/RecentOrders.tsx:121-124 | an order matches (`MatchesSearch`) iff the query is empty or the lower-cased query occurs in the lower-cased id, customer or status |
| RecentOrdersPage.NoFilterShowsAll | src/pages/RecentOrders.tsx:119-126 | filter "all" with an empty query shows every order in order |
| RecentOrdersPage.AvgOrderValue | src/pages/RecentOrders.tsx:131 | 0 for no orders, else the revenue per order rounded to the nearest integer |
| RecentOrdersPage.AvgOrderValueWithin | src/pages/RecentOrders.tsx:131 | the average lies between the smallest and largest order amount |
| RecentOrdersPage.Summarize | src/pages/RecentOrders.tsx:129-131 | the revenue, profit and average are taken over the filtered orders |
| OrderStatusPage.StatusKey | src/pages/OrderStatus.tsx:129 | the key has the name's length, no capitals, and only the first space of the lower-cased name turned into `-` |
| OrderStatusPage.FilteredStatusData | src/pages/OrderStatus.tsx:127-129 | "all" returns the buckets unchanged; otherwise a subsequence holding each bucket whose key equals the id as often as the input does, and no other bucket |
| OrderStatusPage.AllCountIsTotal | src/pages/OrderStatus.tsx:215 | under "all" the total (`OrderStatusPage.Total`, the `reduce` sum of line 215, a definitional helper) equals the "All" button's count 1247 |
| OrderStatusPage.StyleFor | src/pages/OrderStatus.tsx:239-241 | the configured icon and colour, or Package and the muted colour for an unknown key |
| OrderStatusPage.StyleForKnownKeys | src/pages/OrderStatus.tsx:70-76 | among configured keys only "pending" uses the Package icon |
| OrderStatusPage.InTransitStyleFallsBack | src/pages/OrderStatus.tsx:239-241 | the "In Transit" bucket gets the fallback style, since its key is not configured |
| OrderStatusPage.InProgressSelectsNothing | src/pages/OrderStatus.tsx:129 | as written, the "in-progress" filter selects no bucket |
| OrderStatusPage.InProgressTotalDisagrees | src/pages/OrderStatus.tsx:215 | as written, the total under "in-progress" is 0 while the button count is positive |
| OrderStatusPage.LabelOf | src/pages/OrderStatus.tsx:26-33 | the label of a filter button by id; none for an id with no button |
| OrderStatusPage.FilteredStatusDataByLabel | src/pages/OrderStatus.tsx:127-129 | corrected filter: "all" unchanged, otherwise a subsequence holding each bucket named by the button's label as often as the input does, and no other bucket |
| OrderStatusPage.CorrectedTotalsMatchButtons | src/pages/OrderStatus.tsx:26-33 | with the corrected filter, every button's total equals the count it displays |
| OrderStatusPage.ButtonSelectsOne | src/pages/OrderStatus.tsx:129 | with the corrected filter, each non-"all" button selects exactly its own bucket |
| OrderStatusPage.DefinitionFor | src/pages/OrderStatus.tsx:79-81 | a popover definition exists exactly for the configured keys |
| DeliveryPerformancePage.ColorForPartner | src/pages/DeliveryPerformance.tsx:140-153 | the listed colour for the nine names, `hsl(0, 72%, 51%)` otherwise |
| DeliveryPerformancePage.DefaultColorMeansUnlisted | src/pages/DeliveryPerformance.tsx:152 | a row gets the fallback colour iff its name is not listed |
| DeliveryPerformancePage.FallbackColorsAgree | src/pages/DeliveryPerformance.tsx:18-24 | the built-in city rows carry the colour the table gives their names |
| DeliveryPerformancePage.LoadDeliveryData | src/pages/DeliveryPerformance.tsx:109-135 | no fetched rows gives the city table; otherwise one row per item with fields copied and colour looked up |
| DeliveryPerformancePage.LoadedDataNonEmpty | src/pages/DeliveryPerformance.tsx:114-131 | the loaded rows are never empty; a thrown fetch gives the city table |
| DeliveryPerformancePage.CurrentData | src/pages/DeliveryPerformance.tsx:155-159 | a subsequence of the rows: when the view's kind of row exists, every known-partner (or known-city) row as often as in the input and no other row; else all rows |
| DeliveryPerformancePage.CurrentDataEmpty | src/pages/DeliveryPerformance.tsx:155-159 | the selection is empty iff there are no rows |
| DeliveryPerformancePage.FallbackInBothViews | src/pages/DeliveryPerformance.tsx:155-159 | on the built-in city table both views show all five cities |
| DeliveryPerformancePage.DeliveryFigures | src/pages/DeliveryPerformance.tsx:245-259 | total deliveries is the sum of `delivered`; failed is the sum of totals minus it |
| DeliveryPerformancePage.FailedNonNegative | src/pages/DeliveryPerformance.tsx:259 | failed deliveries are ≥ 0 when each row delivers at most its total |
| DeliveryPerformancePage.AvgDelivery | src/pages/DeliveryPerformance.tsx:161-163 | 0 for no rows, else the mean percentage |
| DeliveryPerformancePage.AvgDeliveryWithin | src/pages/DeliveryPerformance.tsx:161-163 | the mean lies between the lowest and highest percentage |
| DeliveryPerformancePage.TierOf | src/pages/DeliveryPerformance.tsx:370-374 | Excellent iff ≥ 90, Good iff in [80, 90), Needs Improvement iff < 80 |
| DeliveryPerformancePage.TierMonotone | src/pages/DeliveryPerformance.tsx:374 | a higher percentage never earns a lower tier |
| TopSellingProductsPage.SortKey | src/pages/TopSellingProducts.tsx:104-110 | the compared field for each option: `profit`, `revenue`, `sold`, `rating`, and `deliveryRate` for "delivery" and any other option |
| TopSellingProductsPage.SortedProducts | src/pages/TopSellingProducts.tsx:103-112 | a permutation of the products, non-increasing in the selected key |
| TopSellingProductsPage.SortedByField | src/pages/TopSellingProducts.tsx:104-110 | for each option the list is non-increasing in the matching field; `deliveryRate` for any other option |
| TopSellingProductsPage.SortedProductsStable | src/pages/TopSellingProducts.tsx:103 | products with equal keys keep their input order |
| TopSellingProductsPage.UnknownSortIsDelivery | src/pages/TopSellingProducts.tsx:110 | an unlisted option sorts exactly as "delivery" |
| TopSellingProductsPage.SummaryTotals | src/pages/TopSellingProducts.tsx:115-117 | the totals over the sorted list equal the field sums over the input |
| TopSellingProductsPage.TotalsIgnoreSort | src/pages/TopSellingProducts.tsx:115-117 | the totals do not depend on the sort option |
| TopSellingProductsPage.BadgeOf | src/pages/TopSellingProducts.tsx:320 | success iff ≥ 90, warning iff in [80, 90), destructive iff < 80 |
| TopSellingProductsPage.BadgeAgreesWithTier | src/pages/TopSellingProducts.tsx:375 | the badge and the delivery page's tier use the same thresholds |
| TopSellingProductsPage.BadgesInDeliveryOrder | src/pages/TopSellingProducts.tsx:320 | sorted by delivery, badges never improve further down the list |
| RevenueOverviewPage.ChartData | src/pages/RevenueOverview.tsx:158 | the monthly rows in the monthly view, the quarterly rows otherwise |
| RevenueOverviewPage.ItemRevenue | src/pages/RevenueOverview.tsx:159 | `revenue` when present and non-zero, else `sales` when present, else 0 (JavaScript `||` on a number is the helper `OrElse`) |
| RevenueOverviewPage.ItemProfit | src/pages/RevenueOverview.tsx:160 | `profit`, 0 when absent |
| RevenueOverviewPage.ItemOrders | src/pages/RevenueOverview.tsx:161 | `orders`, 0 when absent |
| RevenueOverviewPage.Summarize | src/pages/RevenueOverview.tsx:159-162 | the three sums; the average is 0 without orders, else total revenue per order rounded to the nearest integer |
| RevenueOverviewPage.RevenueWithinOrderBounds | src/pages/RevenueOverview.tsx:159-161 | per-row revenue-per-order bounds carry over to the totals |
| RevenueOverviewPage.AvgOrderValueWithin | src/pages/RevenueOverview.tsx:162 | the average order value lies within the per-row revenue-per-order bounds |
| RevenueOverviewPage.ViewsAgree | src/pages/RevenueOverview.tsx:17-38 | the monthly and quarterly views give the same totals (3223000, 644600, 2128) and average 1515 |
| RevenueOverviewPage.GroupedSums | src/pages/RevenueOverview.tsx:159-161 | if each block of three rows sums to one coarser row, the totals agree |

## Left out

- Network and parsing: the request, `response.json()` and `console` logging are not modelled; their outcome is the `GoogleSheet.Response` parameter.
- React state, effects, rendering, popovers, dropdowns, tooltips and charts are not modelled. So are the dashboard components and `src/lib/pdfExport.ts`, which are layout and foreign library calls.
- Floating point: rates and percentages are exact reals. `success_rate * 100` is exact, and `Math.round(avgOrders * 0.71)` and its siblings (src/pages/Index.tsx:208-211) are taken as given (`IndexPage.ScaledOrders`). `toFixed` and `toLocaleString` formatting is not modelled.
- DeliveryPerformancePage.AvgDelivery: the mean before `toFixed(1)`; the string formatting and the "0.0" literal are represented by the real 0.0.
- The average delivery on src/pages/Index.tsx:201-203 is the same computation as `DeliveryPerformancePage.AvgDelivery` and is not modelled again.
- The `avgRating`/`avgDelivery` figures on src/pages/TopSellingProducts.tsx:118-119 are `toFixed` formatting of a mean; they are not modelled. On an empty list they would be `NaN`.
- `findPeriodData` and `periodMapping` (imported at src/pages/Index.tsx:24-25) are not part of this model. The current-period record is a parameter.
- Integer amounts are unbounded. JavaScript numbers lose integer precision above 2^53, which the model does not capture.
- Record lookups: a JavaScript object lookup with a key such as "toString" returns an inherited function, which is truthy. The model treats every key that is not in a table as unknown. This differs from the code for `IndexPage.ProductPeriod` and `DeliveryPerformancePage.ColorForPartner`, which would return the function, and for `OrderStatusPage.DefinitionFor`, whose lookup would be truthy and show a popover. `OrderStatusPage.StyleFor` agrees with the code, because `?.icon` of a function is `undefined` and falls back as well.
- Text.Lower: only ASCII letters are lower-cased; JavaScript's full Unicode case mapping is not modelled.
- `IndexPage.ProfitBand` stores the 30 sheet figures under camel-case names, and `IndexPage.ProfitBandData` returns them grouped as `WindowFigures`.
- The hard-coded order, product and partner arrays are data, not behaviour. Only the tables the proofs are about are copied in: status buckets, filter buttons, city fallback, colour tables and chart rows.
- The `catch` branch of the delivery page's loader (src/pages/DeliveryPerformance.tsx:128-131) is folded into the empty-data branch: the fetch it calls catches its own errors and returns `[]`.

## Findings

| source | as written | input that shows it | evidently intended | confidence | as-written member | corrected member |
|---|---|---|---|---|---|---|
| src/pages/OrderStatus.tsx:129 | the bucket "In Transit" gets the key "in-transit", but its filter button has the id "in-progress", so that button selects no bucket and its total is 0 | click the "In Transit" button (`orderFilter = "in-progress"`); the button shows 186 | each button selects the bucket it is labelled with, so the total under it equals the count it shows | high (not executed) | OrderStatusPage.InProgressTotalDisagrees | OrderStatusPage.CorrectedTotalsMatchButtons |
