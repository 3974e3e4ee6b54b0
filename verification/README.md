# COVID-19 dashboard data pipeline, in Dafny

This project models the data-shaping core of a single-page COVID-19
dashboard (`app.py`). The dashboard loads the Our World in Data feed, keeps
the rows with a positive number of new cases, and shows these views:

- global and per-country totals of new cases, deaths and vaccinations;
- the rows of one selected country and of a set of compared countries;
- the sorted list of countries offered by the selectors, which starts on "Canada";
- a global table of running totals by date.

The model works on immutable values throughout:

- `Observations` holds the `Row` datatype (location, date as a day ordinal,
  three optional metrics). It also holds `Where`, which is pandas boolean
  indexing `df[mask]`, and the load-time filter `FilterPositive`.
- `Totals` holds `df[col].dropna().sum()` and the three-metric `Totals` record.
- `Ordering` holds strict total orders, Python's ordering of strings, and the
  ascending list of distinct values. Both `sorted(unique())` and pandas'
  sorted `groupby` keys produce that list.
- `Regions` holds the region list, `list.index`, and the country and
  comparison selections.
- `Cumulative` holds `groupby('date').agg(sum).cumsum()`.
- `Dashboard` holds one run of the script. It returns `ValueError` when
  "Canada" is not in the region list.
- `Scenario` holds a worked three-row example.

`.index("Canada")` on app.py:28 runs on every run of the script and raises
when "Canada" has no positive-case row, so `Dashboard.Render` returns `Err`
in exactly that case.

## Model

| member | source | states |
|---|---|---|
| Observations.FilterPositive | app.py:15 | the kept rows are exactly the input rows whose `new_cases` is present and > 0; a missing, zero or negative value is dropped; the result is a subsequence of the input in source order |
| Observations.FilterPositiveIdempotent | app.py:15 | filtering the filtered dataset again returns it unchanged |
| Observations.FilterPositiveAppend | app.py:15 | the filter decides row by row: filtering a concatenation is the concatenation of the filtered parts |
| Observations.Where | app.py:15 | boolean indexing `df[mask]` keeps exactly the rows the mask is true for and adds none |
| Observations.WhereIsSubsequence | app.py:15 | boolean indexing keeps the selected rows in their original relative order |
| Observations.WhereAppend | app.py:46 | boolean indexing distributes over concatenation |
| Observations.WhereIdempotent | app.py:15 | selecting twice with the same mask equals selecting once |
| Observations.WhereAll | app.py:15 | a mask true for every row keeps the whole sequence |
| Totals.DropNa | app.py:31 | `dropna()` keeps only present values, every present value occurs in the result, and it never adds cells |
| Totals.DropNaAppend | app.py:31 | `dropna()` decides cell by cell: dropping from a concatenation concatenates what each part keeps, so every present cell is kept, repeats included, in order |
| Totals.Total | app.py:31-33 | `dropna().sum()` of a column equals the independently defined sum that counts each missing cell as 0 |
| Totals.TotalAppend | app.py:48-50 | the total of a concatenation is the sum of the totals of its parts |
| Totals.TotalOfMissing | app.py:31-33 | an empty sequence, or one whose cells are all missing, totals 0 |
| Totals.TotalNonNegative | app.py:31-33 | values that are all missing or non-negative give a non-negative total |
| Totals.TotalPositive | app.py:31 | a non-empty sequence of present positive values has a positive total |
| Totals.MetricTotals | app.py:48-50 | each of the three totals is the null-as-zero sum of its column; no rows give (0, 0, 0) |
| Ordering.Insert | app.py:28 | inserting into an ascending distinct list keeps it ascending and adds exactly the new value |
| Ordering.SortedDistinct | app.py:28 | the result is strictly ascending and holds exactly the values of the input |
| Ordering.AscendingDistinct | app.py:28 | a strictly ascending list has no repeated element |
| Ordering.AscendingUnique | app.py:28 | two strictly ascending lists with the same elements are equal, so the sorted distinct list is unique |
| Ordering.StringLessIsStrictTotalOrder | app.py:28 | Python's code-point lexicographic string order is irreflexive, transitive and total |
| Regions.RegionList | app.py:28 | the region list is strictly ascending, has no duplicates, and holds exactly the locations of the rows |
| Regions.RegionListUnique | app.py:74 | any strictly ascending list of exactly the present locations is the region list |
| Regions.IndexOf | app.py:28 | `list.index` gives the first position holding the value; it is absent (raises) exactly when the value is not in the list |
| Regions.DefaultIndex | app.py:28 | the default index exists exactly when some row is located in "Canada", and the region list holds "Canada" at that index |
| Regions.CountryRows | app.py:46 | the country rows are exactly the rows whose location equals the selected country, in source order |
| Regions.ComparisonRows | app.py:75 | the comparison rows are exactly the rows whose location is in the selection, in source order; an empty selection gives no rows |
| Regions.ComparisonOfOne | app.py:75 | comparing a single country selects the same rows as selecting that country |
| Cumulative.Dates | app.py:84 | the group keys are strictly ascending and are exactly the dates occurring in the rows |
| Cumulative.DailyTotals | app.py:84-87 | one per-date sum per group key, in key order; each equals the null-as-zero sum of the rows carrying that date |
| Cumulative.DailyTotalsAppend | app.py:84-87 | the per-date sums of a concatenation are the entrywise sums of the parts' per-date sums |
| Cumulative.RunningFrom | app.py:88 | element k of the running total is the start value plus the first k + 1 inputs |
| Cumulative.CumSum | app.py:88 | element k of `cumsum` is the sum of the first k + 1 inputs |
| Cumulative.CumSumIncreases | app.py:88 | running totals of positive values strictly increase |
| Cumulative.CumSumNonDecreasing | app.py:88 | running totals of non-negative values never decrease |
| Cumulative.GlobalCumulative | app.py:84-88 | one row per group key, row k carrying the k-th key, so by `Dates` the dates run strictly ascending and are exactly the dates in the rows; row k holds, per metric, the sum of the per-date sums of dates 0..k |
| Cumulative.DailyTotalsPartition | app.py:84-88 | summing the per-date totals over a list holding every date once gives the total over all rows |
| Cumulative.DailyCasesPositive | app.py:84-87 | on positive-case rows every per-date case sum is positive |
| Cumulative.CumulativeCasesIncrease | app.py:84-88 | on the filtered data, cumulative cases strictly increase down the table |
| Cumulative.CumulativeNonDecreasing | app.py:84-88 | a cumulative column whose inputs are missing or non-negative never decreases |
| Cumulative.CumulativeLastIsTotal | app.py:84-88 | the table is empty exactly when there are no rows; otherwise its last row equals the global totals of every metric |
| Dashboard.DefaultRegionPresent | app.py:28 | "Canada" is in the region list exactly when the feed has a positive-case row located in "Canada" |
| Dashboard.Render | app.py:15-88 | a run fails with `ValueError("Canada")` exactly when no positive-case "Canada" row exists; otherwise the view is computed from the filtered feed: its region list, global totals, country and comparison rows and cumulative table are those of the filtered rows, the default index points at "Canada", the selections hold exactly the positive rows of the chosen locations, and the cumulative table is non-empty with its last row equal to the global totals |
| Scenario.FeedFilterKeepsAll | app.py:15 | in the worked example every row has positive cases and is kept |
| Scenario.FeedCountryTotals | app.py:46-50 | the worked example's "Canada" totals are (30, 3, 5) |
| Scenario.FeedCumulative | app.py:84-88 | the worked example's cumulative table is [(day 18628, 15, 1, 0), (day 18629, 35, 3, 5)] |
| Scenario.FeedRenders | app.py:28 | the worked example renders, because it has a positive "Canada" row |
| Scenario.NoCanadaFails | app.py:28 | a feed whose only "Canada" row has a missing case count makes the run raise |

## Left out

- Fetching and parsing the CSV (app.py:11-12): network I/O and a foreign library. A parsed feed is an input (`raw`).
- Date parsing (app.py:13): dates are already-parsed integer day ordinals. Rows with unparseable dates are not modelled.
- Process-lifetime caching (app.py:9): framework behaviour with no effect on the values computed.
- Page layout, sidebar, metric cards and table display (app.py:6, 20-26, 35-39, 45, 52-59, 62, 73, 81, 99): presentation only.
- Line charts (app.py:65-70, 77-78, 91-98): a foreign charting library. The model provides the rows that each chart receives.
- Thousands-separator formatting: presentation only.
- Widget state: the selectors' current values are the inputs `country` and `countries`. The framework keeps these values between runs, and that is not modelled.
- Totals.MetricTotals: counts are mathematical integers. pandas stores them as float64 and `int(...)` truncates the sum. Neither rounding nor overflow is modelled.
- The multiselect default `["Canada", "United States"]` (app.py:74): the UI framework checks it against the options, and that check is not visible in the code. As a consequence, a real run also stops when "United States" has no positive-case row, while `Dashboard.Render` returns `Ok` in that case.
- Passthrough columns of the feed: the pipeline never reads them.
