# Sales tracker: reports over a day's or a period's sales

This project models the reporting layer of a small sales-tracking web
application. The layer takes a list of `Sale` records and derives what the
screens show from them. It covers:

- **Summary figures.** These are the number of sales, the total, the average
  check, the smallest and largest sale and the median sale. The daily panel
  and the period panel compute them with the same code.
- **Per-day totals.** The period panel keeps a total for each date and shows
  the number of days.
- **Export text.** The sales are grouped by date, and the dates are written in
  ascending order. Each date gets a header line, then one
  `orderId-price-comment` line per sale, then a blank line.
- **Chart data.**
  - A per-date trend: total, count and mean sale for each date, in date order.
  - A histogram over price ranges, with a range width chosen from the spread
    of the prices.
  - A fixed 24-slot histogram over the hour of day.
- **Date-range controls.** Two start/end pickers keep the start no later than
  the end.
- **Deleting a sale.** A sale is deleted from the day's list by its id.

Each module follows one source file:

- `Sales`: the record.
- `SalesStats`: the figures.
- `PeriodStats`: the per-day totals.
- `ExportSalesData`: the export and its date pickers.
- `SalesCharts`: the charts.
- `DateRangeSelector`: the range selector.
- `DailySales`: the day list.

Some modules hold what several files share:

- `Grouping`: group-by-key and the one-pass record fill.
- `Sorting`: `Array.prototype.sort` as an insertion sort with a comparator.
- `Lex`: JavaScript string `<` on ISO dates.
- `Decimal`: `toFixed(2)` and `${n}`.
- `DateRange`: the start/end clamp.

Prices are whole numbers of cents, and averages and medians are `real`, so
every sum, mean and comparison is exact.

The code is modelled in its own form:

- The reduce and filter expressions are functions.
- The loops that fill a record or an array in place are methods with loop
  invariants:
  - `PeriodStats.SalesByDate`
  - `ExportSalesData.GroupByDate`
  - `ExportSalesData.AppendBlocks`
  - `SalesCharts.TallyDates`
  - `SalesCharts.TallyPriceRanges`
  - `SalesCharts.PrepareHourlyData`, which works on a 24-element array
- Each method is proved equal to a specification function. The properties
  are proved about that function.
- The components whose handlers update state fields are classes:
  - `DateRangeSelector.DateRangeSelector`
  - `ExportSalesData.ExportSalesData`
  - `DailySales.DailySales`

## Model

| member | source | states |
|---|---|---|
| Sales.SumByAppend | components/SalesStats.tsx:6 | The reduce-sum over two lists laid end to end is the sum of the two sums. |
| Sales.SumByOneIsLength | components/SalesStats.tsx:5 | Summing weight one over the sales gives their number. |
| SalesStats.MinOf | components/SalesStats.tsx:19 | `Math.min` of a non-empty list is an element of it and no larger than any element. |
| SalesStats.MaxOf | components/SalesStats.tsx:20 | `Math.max` of a non-empty list is an element of it and no smaller than any element. |
| SalesStats.MinBelowMax | components/SalesStats.tsx:19-20 | The minimum of a non-empty list is at most its maximum. |
| SalesStats.SortedPrices | components/SalesStats.tsx:24 | The sorted copy is ascending under `(a, b) => a - b` and a permutation of the prices. |
| SalesStats.Average | components/SalesStats.tsx:7 | For a positive count, the average times the count is the total. For a zero count, it is 0. |
| SalesStats.Summarize | components/SalesStats.tsx:5-14 | `totalSales` is the number of sales and `totalAmount` their price sum. `averageCheck` is the guarded average of the two. All six figures are 0 on an empty list. |
| SalesStats.MinMaxAreExtremes | components/SalesStats.tsx:14-20 | On a non-empty list, `minValue` and `maxValue` are prices of the list, and every price lies between them. |
| SalesStats.MedianWithinMinMax | components/SalesStats.tsx:10-34 | `minValue <= medianValue <= maxValue` holds always, and on the empty list all three are 0. |
| SalesStats.MedianOfAnySort | components/SalesStats.tsx:24-34 | The median is the middle (odd count) or the mean of the two middles (even count) of ANY ascending permutation of the prices, so it does not depend on the sort used. |
| SalesStats.MedianOfThree | components/SalesStats.tsx:31-33 | Whatever order three prices are listed in (any listing with the same multiset of prices), the median is the middle one. |
| SalesStats.MedianOfTwo | components/SalesStats.tsx:27-29 | Whatever order two prices are listed in, the median is their mean. |
| SalesStats.MedianOfFour | components/SalesStats.tsx:26-29 | Whatever order four prices are listed in, the median is the mean of the second and third smallest. |
| SalesStats.SortedPermutationUnique | components/SalesStats.tsx:24 | Two ascending lists with the same elements are equal. |
| SalesStats.LastAgree | components/SalesStats.tsx:24 | Two ascending lists with the same elements end with the same element. |
| SalesStats.LastIsGreatest | components/SalesStats.tsx:24 | The last element of an ascending list is at least every element of any permutation of it. |
| SalesStats.MiddleWithin | components/SalesStats.tsx:19-34 | The middle of an ascending permutation lies between the minimum and the maximum. |
| SalesStats.Count | components/SalesStats.tsx:24-34 | A count of matching elements is at most the length. |
| SalesStats.CountAppend | components/SalesStats.tsx:24-34 | Counting over two lists laid end to end adds the counts. |
| SalesStats.CountPermutation | components/SalesStats.tsx:24 | Permuting a list does not change how many of its elements satisfy a test. |
| SalesStats.RemoveAt | components/SalesStats.tsx:24 | Removing position `j` removes one copy of its element from the multiset. |
| SalesStats.CountRemoveAt | components/SalesStats.tsx:24 | The count over a list is the count without position `j`, plus 1 if that element matches. |
| SalesStats.CountNoneAfter | components/SalesStats.tsx:24-34 | If no element from position `k` on matches, the count is at most `k`. |
| SalesStats.CountNoneBefore | components/SalesStats.tsx:24-34 | If no element before position `k` matches, the count is at most `length - k`. |
| SalesStats.CountNone | components/SalesStats.tsx:24-34 | If no element matches, the count is 0. |
| SalesStats.MiddleSplits | components/SalesStats.tsx:26-34 | In an ascending list, at most half the elements lie strictly below the middle and at most half strictly above. |
| SalesStats.MedianSplits | components/SalesStats.tsx:24-34 | At most half the prices are below the median and at most half above it. This is what makes it a median. |
| Sorting.Insert | components/SalesStats.tsx:24 | Inserting into an ascending list keeps it ascending and adds exactly one copy of the element. |
| Sorting.Sort | components/SalesStats.tsx:24 | The sort yields an ascending permutation of its input under a total preorder. |
| Sorting.DistinctCounts | components/ExportSalesData.tsx:56 | A list without repetitions holds each element at most once in its multiset. |
| Sorting.DistinctPermutation | components/ExportSalesData.tsx:56 | A permutation of a list without repetitions has none either. |
| Sorting.SortedDistinctIsStrict | components/ExportSalesData.tsx:56 | An ascending list without repetitions is strictly ascending under an antisymmetric order. |
| Sorting.SortDistinct | components/ExportSalesData.tsx:56 | Sorting distinct keys gives a strictly ascending list with the same length and the same elements. |
| Lex.LessIrreflexive | components/DateRangeSelector.tsx:28 | No string is less than itself. |
| Lex.LessAsymmetric | components/DateRangeSelector.tsx:28 | If a < b then not b < a. |
| Lex.LessAt | components/DateRangeSelector.tsx:28 | Strings that agree before position k are ordered by the UTF-16 code-unit rank of their characters at k. |
| Lex.RankInjective | components/DateRangeSelector.tsx:28 | Different characters have different code-unit ranks, so the first differing character always decides. |
| Lex.LessTrichotomy | components/DateRangeSelector.tsx:28 | Any two strings are equal or one is less than the other. |
| Lex.LessTransitive | components/DateRangeSelector.tsx:28 | String `<` is transitive. |
| Lex.LessEqIsTotalOrder | components/ExportSalesData.tsx:56 | `<=` on strings is a total preorder and antisymmetric, so the default `sort()` orders dates totally. |
| Lex.SortStrings | components/ExportSalesData.tsx:56 | Sorting distinct date keys gives them in strictly ascending string order, each key exactly once. |
| Lex.Units | components/DateRangeSelector.tsx:28 | A character is encoded as one or two UTF-16 code units. |
| Lex.LessIsCodeUnitOrder | components/DateRangeSelector.tsx:28 | The string order is exactly the lexicographic order of the strings' UTF-16 code-unit sequences, in both directions. |
| Lex.CommonPrefix | components/DateRangeSelector.tsx:28 | A common prefix of code units does not change the order of two code-unit sequences. |
| Lex.FirstCharDecides | components/DateRangeSelector.tsx:28 | For two different first characters, the code-unit order of the encodings is the order of their ranks, whatever follows. |
| Lex.SameHighSurrogate | components/DateRangeSelector.tsx:28 | Two supplementary characters sharing a high surrogate differ in their low surrogates, in the order of the characters. |
| Lex.FirstUnits | components/DateRangeSelector.tsx:28 | When the first code units of two characters differ, they are ordered as the characters' ranks. |
| Lex.SurrogatesBeforeHighBasicPlane | components/ExportSalesData.tsx:56 | U+1F600 sorts before U+FF5E, as its surrogate pair begins with 0xD83D, although its scalar value is larger. |
| Decimal.Digit | components/ExportSalesData.tsx:64 | A digit value becomes a decimal digit character. |
| Decimal.DigitValue | components/ExportSalesData.tsx:64 | Reading a digit character back gives a value below 10 that maps to the same character. |
| Decimal.NatToString | components/SalesCharts.tsx:107 | `${n}` is a non-empty run of digits with no leading zero, and it is "0" exactly for 0. |
| Decimal.ParseNatToString | components/SalesCharts.tsx:107 | Reading back the decimal digits of `n` gives `n`. |
| Decimal.FixedBodyParts | components/ExportSalesData.tsx:64 | `toFixed(2)` of a non-negative amount is the whole part, a point and two fraction digits, with no `-` and no newline. |
| Decimal.FixedShape | components/ExportSalesData.tsx:64 | `toFixed(2)` never contains a newline, has no `-` for non-negative amounts, and is well formed. |
| Decimal.FixedBodyRoundTrip | components/ExportSalesData.tsx:64 | Reading a non-negative two-decimal text back gives the cents written. |
| Decimal.FixedRoundTrip | components/ExportSalesData.tsx:64 | Reading back `toFixed(2)` gives the cents written, sign included. |
| Grouping.KeysInOrder | components/ExportSalesData.tsx:45-56 | The record's keys in first-appearance order (the `Object.keys` order for non-integer keys such as ISO dates) are distinct and are exactly the keys the sales carry. There are at most as many as sales, and none only when there are no sales. |
| Grouping.Group | components/ExportSalesData.tsx:45-50 | A key's group is no longer than the input and holds only sales of that key. |
| Grouping.GroupSumSnoc | components/PeriodStats.tsx:95 | One more sale adds its price to its own key's sum only. |
| Grouping.KeysInOrderMembership | components/ExportSalesData.tsx:46 | A key is in the key order exactly when some sale carries it. |
| Grouping.GroupOfAbsentKey | components/ExportSalesData.tsx:46-47 | A key no sale carries has an empty group. |
| Grouping.KeySetSnoc | components/PeriodStats.tsx:92-93 | One more sale adds its key to the key set. |
| Grouping.GroupAppend | components/ExportSalesData.tsx:45-50 | Grouping two lists laid end to end concatenates their groups. |
| Grouping.GroupMultiplicity | components/ExportSalesData.tsx:45-50 | A group holds every copy of each sale of its key and nothing else. |
| Grouping.GroupNonEmpty | components/SalesCharts.tsx:42-46 | The group of a key that some sale carries has at least one sale. |
| Grouping.SumOverKeysSnoc | components/SalesCharts.tsx:45-46 | Summing over distinct keys, one more sale adds its weight exactly when its key is listed. |
| Grouping.Partition | components/SalesCharts.tsx:45-46 | Summing the group sums over distinct keys that cover every sale gives the sum over all sales: each sale is counted in exactly one group. |
| Grouping.EmptyGroups | components/SalesCharts.tsx:45-46 | With no sales, the group sums add up to 0. |
| Grouping.SumOverKeysPermutation | components/SalesCharts.tsx:50-51 | Listing the same distinct keys in another order does not change the sum of the group sums. |
| Grouping.TallyOfSnoc | components/SalesCharts.tsx:42-46 | One more sale adds one to its own key's count and its price to its total, and leaves every other key's record unchanged. |
| Grouping.TallyStep | components/SalesCharts.tsx:42-46 | One loop step (create the record if absent, then add one and the price) keeps "the record holds each key's count and total, and the keys in first-appearance order". |
| Grouping.BumpKeys | components/SalesCharts.tsx:42-44 | After one step the key order and the key set are those of the longer prefix. |
| Grouping.BumpEntries | components/SalesCharts.tsx:45-46 | After one step every entry equals the record of the longer prefix. |
| Grouping.TallyStepAt | components/SalesCharts.tsx:40-48 | The step at position `i` turns the record of the first `i` sales into that of the first `i + 1`. |
| Grouping.TallyLookup | components/SalesCharts.tsx:50 | Every listed key of a filled record is present, holds its group's record and has count at least 1. |
| Grouping.TallyPartition | components/SalesCharts.tsx:45-46 | Over keys that cover all sales, the counts sum to the number of sales and the totals to the total. |
| Grouping.SortedDates | components/ExportSalesData.tsx:56 | The sorted date keys are strictly ascending and distinct. They are exactly the dates of the sales, at most one per sale, and none only on an empty list. |
| PeriodStats.SalesByDate | components/PeriodStats.tsx:90-97 | The filled record's keys are exactly the sales' dates, and each entry is the price sum of that date's sales. |
| PeriodStats.DayTotalsStep | components/PeriodStats.tsx:91-95 | One reduce step (`acc[date] = 0` if absent, then `+= price`) keeps that property for the longer prefix. |
| PeriodStats.DayCountBounds | components/PeriodStats.tsx:136-138 | The day count is at most the number of sales, and 0 exactly when there are none. |
| PeriodStats.DayTotalsSumToTotal | components/PeriodStats.tsx:90-97 | The per-day totals add up to `totalAmount`. |
| PeriodStats.SumValuesAreGroupSums | components/PeriodStats.tsx:90-97 | Summing the record's values over its keys is summing the per-date group sums. |
| ExportSalesData.ExportText | components/ExportSalesData.tsx:53-73 | The export of no sales is the empty text. |
| ExportSalesData.GroupByDate | components/ExportSalesData.tsx:43-50 | After the `forEach`/`push` loop, the record's keys are the sales' dates, in first-appearance order (the `Object.keys` order for non-integer keys such as ISO dates). Each entry is the sales of that date in input order. |
| ExportSalesData.GroupingStepAt | components/ExportSalesData.tsx:45-50 | The loop step at position `i` extends the grouping of the first `i` sales to the first `i + 1`. |
| ExportSalesData.GroupingStep | components/ExportSalesData.tsx:46-49 | Creating an absent list and pushing the sale keeps keys, key order and lists those of the longer prefix. |
| ExportSalesData.KeysStep | components/ExportSalesData.tsx:46-48 | The key order after one push is that of the longer prefix. |
| ExportSalesData.ListsStep | components/ExportSalesData.tsx:46-49 | Every list after one push is the group of the longer prefix. |
| ExportSalesData.GenerateExportText | components/ExportSalesData.tsx:41-74 | The text built by grouping, sorting the dates and appending with `+=` is the export text of the sales. |
| ExportSalesData.AppendBlocks | components/ExportSalesData.tsx:58-71 | The outer loop appends, for each sorted date, its header, its sale lines and a blank line. |
| ExportSalesData.AppendLines | components/ExportSalesData.tsx:62-68 | The inner loop appends one line per sale of the group, in group order. |
| ExportSalesData.FlattenMultiplicity | components/ExportSalesData.tsx:45-71 | Over distinct dates, the sales written hold each sale of a listed date as often as the input does, and no other sale. |
| ExportSalesData.ExportIsPermutation | components/ExportSalesData.tsx:45-71 | The sales written, block by block, are a permutation of the input: every sale gets exactly one line, under its own date. |
| ExportSalesData.SaleLineIsOneLine | components/ExportSalesData.tsx:63-67 | The line of a sale whose fields have no newline is exactly one line and ends with a newline. |
| ExportSalesData.LinesCount | components/ExportSalesData.tsx:62-68 | A group's lines contain one newline per sale. |
| ExportSalesData.BlockCount | components/ExportSalesData.tsx:59-70 | A date block contains two newlines more than it has sales: the header and the blank line. |
| ExportSalesData.BlocksCount | components/ExportSalesData.tsx:58-71 | The blocks of a date list contain two newlines per date plus one per sale of those dates. |
| ExportSalesData.ExportLineCount | components/ExportSalesData.tsx:58-71 | The export holds `2 × distinct dates + number of sales` newlines. |
| ExportSalesData.FixedFive | components/ExportSalesData.tsx:64 | 500 cents are written "5.00". |
| ExportSalesData.FixedTenFifty | components/ExportSalesData.tsx:64 | 1050 cents are written "10.50". |
| ExportSalesData.DatesExample | components/ExportSalesData.tsx:56 | Sales dated 2024-01-02 then 2024-01-01 give the dates in the order 2024-01-01, 2024-01-02. |
| ExportSalesData.PairInOrder | components/ExportSalesData.tsx:56 | A strictly ascending list of at most two dates holding both `x` and `y`, with `x` before `y`, is `[x, y]`. |
| ExportSalesData.GroupsExample | components/ExportSalesData.tsx:45-50 | In that two-sale example each date's group holds its one sale. |
| ExportSalesData.ExampleLineA | components/ExportSalesData.tsx:63-67 | Order "A1", 1050 cents and comment "x" give the line "A1-10.50-x". |
| ExportSalesData.ExampleLineB | components/ExportSalesData.tsx:63-67 | No order id, 500 cents and no comment give the line "-5.00-". |
| ExportSalesData.LinesExample | components/ExportSalesData.tsx:62-68 | A one-sale group's lines are that sale's line. |
| ExportSalesData.BlocksOfOne | components/ExportSalesData.tsx:58-71 | The first of two dates gives one block. |
| ExportSalesData.BlocksOfTwo | components/ExportSalesData.tsx:58-71 | Two dates give their two blocks in order. |
| ExportSalesData.TextOfTwoBlocks | components/ExportSalesData.tsx:58-71 | The export of sales with two dates is header, lines and blank line for the first date, then the same for the second. |
| ExportSalesData.ExportExample | components/ExportSalesData.tsx:41-74 | The example is the sale A1 at 10.50 with comment x on 2024-01-02, then a sale of 5.00 without order id or comment on 2024-01-01. Its export is exactly "2024-01-01\n-5.00-\n\n2024-01-02\nA1-10.50-x\n\n". |
| ExportSalesData.ExportSalesData.constructor | components/ExportSalesData.tsx:11-13 | Both pickers start at the latest selectable date. |
| ExportSalesData.ExportSalesData.HandleStartDateChange | components/ExportSalesData.tsx:21-29 | The start becomes the new date. The end moves to it only if it was earlier, so the range stays ordered. |
| ExportSalesData.ExportSalesData.HandleEndDateChange | components/ExportSalesData.tsx:31-39 | The end becomes the new date. The start moves to it only if it was later, so the range stays ordered. |
| DateRange.WithStart | components/DateRangeSelector.tsx:24-33 | After a start change the start is the new date and the range is ordered. |
| DateRange.WithEnd | components/DateRangeSelector.tsx:37-46 | After an end change the end is the new date and the range is ordered. |
| DateRange.WithStartMovesEndIffCrossed | components/DateRangeSelector.tsx:28-32 | A start change moves the end exactly when the new start is after the old end. |
| DateRange.WithEndMovesStartIffCrossed | components/DateRangeSelector.tsx:41-45 | An end change moves the start exactly when the new end is before the old start. |
| DateRangeSelector.DateRangeSelector.constructor | components/DateRangeSelector.tsx:20-21 | The state starts with the dates the parent passes in. |
| DateRangeSelector.DateRangeSelector.HandleStartDateChange | components/DateRangeSelector.tsx:23-34 | The start becomes the new date. If it is after the old end, the end becomes it too. Otherwise the end is unchanged. The pair reported to the parent is the new state, and it is ordered. |
| DateRangeSelector.DateRangeSelector.HandleEndDateChange | components/DateRangeSelector.tsx:36-47 | The end becomes the new date. If it is before the old start, the start becomes it too. Otherwise the start is unchanged. The pair reported is the new state, and it is ordered. |
| DailySales.WithoutId | components/DailySales.tsx:45 | No sale with the deleted id remains, and the list does not grow. |
| DailySales.WithoutIdAppend | components/DailySales.tsx:45 | Filtering two lists laid end to end concatenates the filtered lists, so relative order is kept. |
| DailySales.WithoutIdMultiplicity | components/DailySales.tsx:45 | Every sale with another id is kept as often as it occurred. Sales with the deleted id are all gone. |
| DailySales.WithoutAbsentId | components/DailySales.tsx:45 | Deleting an id no sale has leaves the list unchanged. |
| DailySales.WithoutIdIdempotent | components/DailySales.tsx:45 | Deleting the same id twice is the same as deleting it once. |
| DailySales.DailySales.constructor | components/DailySales.tsx:12 | The list starts empty. |
| DailySales.DailySales.HandleSaleDeleted | components/DailySales.tsx:44-46 | The list becomes the old list without the deleted id's sales. |
| SalesCharts.ToPoint | components/SalesCharts.tsx:52-60 | A record with count at least 1 becomes a point whose mean times its count is its total, so there is no division by zero. |
| SalesCharts.PointAt | components/SalesCharts.tsx:42-46 | The point of a date counts that date's sales and sums their prices. |
| SalesCharts.TrendData | components/SalesCharts.tsx:39-62 | There is one point per distinct date, in strictly ascending date order. Each point is a mean over at least one sale, and every sale's date has a point. |
| SalesCharts.PointsSums | components/SalesCharts.tsx:45-46 | The counts and totals of the points are the group sums over the listed dates. |
| SalesCharts.TrendSums | components/SalesCharts.tsx:45-46 | The trend counts add up to the number of sales, and its totals to the total. |
| SalesCharts.RecordsArePoints | components/SalesCharts.tsx:50-61 | Points made from the filled record equal points made from the groups. |
| SalesCharts.PrepareTrendData | components/SalesCharts.tsx:39-62 | The reduce, sort and map compute exactly the trend of the sales. |
| SalesCharts.TallyDates | components/SalesCharts.tsx:40-48 | The reduce fills, for each date, its count and total, with the dates in first-appearance order. |
| SalesCharts.SortedRecordDates | components/SalesCharts.tsx:50-51 | Sorting the record's dates gives the sorted distinct dates, and each has a record with count at least 1. |
| SalesCharts.SortTrendPoints | components/SalesCharts.tsx:50-61 | Sorting the records by date and mapping them gives the points of the sorted dates. |
| SalesCharts.RangeSize | components/SalesCharts.tsx:75 | The range size is at least 1000 and a multiple of 1000. Five ranges span the price spread, and it is the smallest such multiple above 1000. |
| SalesCharts.MultiplesApart | components/SalesCharts.tsx:78 | Two different multiples of the range width are at least one width apart. |
| SalesCharts.RangeStart | components/SalesCharts.tsx:78-79 | A price's range start is a multiple of the width, with `start <= price < start + width`. |
| SalesCharts.Width | components/SalesCharts.tsx:71-75 | The width in cents is a positive multiple of 1000 currency units. |
| SalesCharts.SortInts | components/SalesCharts.tsx:94-98 | Sorting distinct range starts numerically gives them strictly ascending, each once. |
| SalesCharts.SortedStarts | components/SalesCharts.tsx:77-98 | The sorted range starts are strictly ascending, each is some sale's start, and every sale's start is among them. |
| SalesCharts.Bars | components/SalesCharts.tsx:82-91 | There is one bar per start, spanning `[start, start + width)` and counting the sales in it. |
| SalesCharts.StartsOfSales | components/SalesCharts.tsx:78-88 | Every listed start is a multiple of the width and has at least one sale. |
| SalesCharts.StartsApart | components/SalesCharts.tsx:78 | Ascending multiples of the width are a width apart at least. |
| SalesCharts.DistributionShape | components/SalesCharts.tsx:78-98 | Every bar starts at a multiple of the width, is one width wide and is non-empty, and the bars do not overlap and ascend. |
| SalesCharts.BarsShape | components/SalesCharts.tsx:78-98 | Bars of well-spaced, non-empty starts are aligned, non-empty and non-overlapping. |
| SalesCharts.StartsWithin | components/SalesCharts.tsx:71-78 | Every start lies between one width below the minimum price and the maximum price. |
| SalesCharts.AscendingSpan | components/SalesCharts.tsx:94-98 | The `j`-th of starts a width apart is at least `j` widths above the first. |
| SalesCharts.FewStarts | components/SalesCharts.tsx:75 | Starts a width apart within a spread of five widths number at most six. |
| SalesCharts.AtMostSixBuckets | components/SalesCharts.tsx:75-98 | The distribution has at most six bars. |
| SalesCharts.SaleInOneBucket | components/SalesCharts.tsx:77-91 | Every sale's price falls in exactly one bar. |
| SalesCharts.OnlyBucket | components/SalesCharts.tsx:77-91 | In non-overlapping bars a price is in at most one, so one found bar is the only one. |
| SalesCharts.BarsSums | components/SalesCharts.tsx:90-91 | The bar counts and totals are the group sums over the starts. |
| SalesCharts.DistributionSums | components/SalesCharts.tsx:90-91 | The bar counts add up to the number of sales, and the bar totals to the total. |
| SalesCharts.PrepareDistributionData | components/SalesCharts.tsx:65-99 | The min/max, range-size, tally loop and sort compute exactly the distribution. |
| SalesCharts.RecordsAreBars | components/SalesCharts.tsx:94-98 | Bars read from the filled record equal bars made from the groups. |
| SalesCharts.SortedRanges | components/SalesCharts.tsx:94-98 | Sorting the record's starts gives the sorted starts, each with its group's record. |
| SalesCharts.SortPriceRanges | components/SalesCharts.tsx:94-98 | Sorting the records by start gives the bars of the sorted starts. |
| SalesCharts.TallyPriceRanges | components/SalesCharts.tsx:77-92 | The `forEach` fills, for each range start, its count and total, with starts in first-appearance order. |
| SalesCharts.HourlyData | components/SalesCharts.tsx:102-119 | There are always 24 slots, and slot `i` has hour `i` and label `i:00`. |
| SalesCharts.SlotStep | components/SalesCharts.tsx:110-116 | One more sale bumps slot `i` exactly when it is timed and falls in hour `i`. |
| SalesCharts.HourlyStep | components/SalesCharts.tsx:110-116 | A timed sale adds one and its price to its own hour's slot and changes no other slot. An untimed sale changes nothing. |
| SalesCharts.EmptySlots | components/SalesCharts.tsx:103-108 | The initial slots number 24. |
| SalesCharts.CountSale | components/SalesCharts.tsx:111-115 | Counting one sale keeps 24 slots. |
| SalesCharts.CountSales | components/SalesCharts.tsx:110-116 | Counting the sales keeps 24 slots. |
| SalesCharts.CountSalesIsHourly | components/SalesCharts.tsx:102-119 | Counting sale by sale from the empty slots gives the hour chart. |
| SalesCharts.PrepareHourlyData | components/SalesCharts.tsx:102-119 | The array filled in place holds exactly the hour chart. |
| SalesCharts.SlotsSums | components/SalesCharts.tsx:113-114 | The counts and totals of the first `n` slots are the group sums over hours `0 .. n-1`. |
| SalesCharts.HourlySums | components/SalesCharts.tsx:110-116 | The slot counts plus the untimed sales are the number of sales, and likewise for totals. |
| SalesCharts.HourlyCoversTimedSales | components/SalesCharts.tsx:110-116 | When every sale has a timestamp, the slot counts add up to the number of sales and the totals to the total. |
| SalesCharts.ChartData | components/SalesCharts.tsx:30-36 | No chart data exists exactly when there are no sales. Otherwise it holds the trend, the distribution and the hour chart. |

## Left out

- Floating point. Prices are whole cents, and averages and medians are exact
  reals. The rounding of `toFixed(2)` on amounts that are not exact in
  binary is not modelled. Neither is the exponent notation `toFixed` uses for
  amounts of 1e21 and above.
- SalesCharts.ToPoint: the trend point keeps the exact mean and total rather
  than `parseFloat(x.toFixed(2))`. The two-decimal rounding of the trend
  chart is left out with the rest of floating point.
- SalesCharts.TrendData: the trend point's date is the ISO date, not the
  `toLocaleDateString` label. The label depends on the host locale.
- SalesCharts.SortedRanges: the price-range records are sorted by their
  numeric start. The source recovers the start by re-parsing the
  `toLocaleString` label, which gives the same number under the usual
  comma grouping. Locale-dependent labels, and negative starts whose `-`
  the `split('-')` breaks, are not modelled. The record key (the text
  `start-end`) is modelled by the start it is made from, which determines
  it.
- SalesCharts.HourlyData: the hour of `created_at` is the parameter
  `hourOf`, a function into 0..23. The time zone and date parsing of
  `getHours`, and the invalid date for which `getHours` is NaN, are not
  modelled. The `label` field is named `hourLabel`.
- SalesCharts.HourlySums: the counts add up to the number of sales only for
  sales with a non-empty `created_at`. The code skips the others, so the
  contract states the sum with the untimed sales added back.
- String order. `<` and the default `sort()` compare UTF-16 code units, and
  `Lex.Less` is that order (`Lex.LessIsCodeUnitOrder`). `localeCompare` in the
  trend sort is modelled by the same order; the collation of a locale can
  differ from it, but for ISO dates the two agree.
- Date keys. Dates are taken to be ISO `YYYY-MM-DD` strings. Keys that
  `Object.keys` lists before the others (integer-like keys such as `"7"`) and
  keys inherited from `Object.prototype` (such as `"constructor"` or
  `"__proto__"`), for which `!acc[date]`, `push` and `+=` behave differently,
  are not modelled: every date key behaves as a fresh own property and the
  keys come out in first-appearance order.
- `Math.min(...)` and `Math.max(...)` argument-count limits on very long lists
  are not modelled.
- ExportSalesData.ExportLineCount: the line count needs the order id, the comment and the
  date to contain no newline; a field with a newline adds lines.
- ExportSalesData.ExportText: no round trip from the text back to the sales is stated. The
  `-` between fields is not escaped, so the text is ambiguous when an order
  id or comment contains `-`.
- Sales: `order_id` is modelled as optional, like `comment`, since `|| ''`
  treats null, undefined and "" alike.
- PeriodStats figures: the period panel's count, total, average, min, max
  and median are the same code as the daily panel's. Both are
  `SalesStats.Summarize`.
- Authentication, the database queries (`fetchSales`, export fetch, insert
  and delete), rendering, the clipboard, `confirm`/`alert`, the 800 ms
  loading timeout and React's asynchronous state updates are not modelled.
  The handlers are modelled as taking effect at once, and the fetched rows
  are the input lists.
