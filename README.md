# Ad Rover dashboard: the filter-and-aggregate pipeline in Dafny

The Ad Rover dashboard (`Bluechip.py`) loads a table of ad-exposure events
(timestamp, ad id, gender, age, number of persons), adds the hour, weekday name
and month name of every timestamp, filters the table by a date range, a set of
ad ids and an age range chosen in the sidebar, and fills the page from the
filtered view: four KPI cards, a gender pie chart, an age bar chart, a time
series of persons, persons per ad, counts per hour and weekday, and a table of
the last ten rows.

This project models that pipeline as pure functions over a `seq<Event>` and
proves what each stage promises:

- `Events`: the parsed row, the event with its derived columns, and data
  preparation. A timestamp is a date, a time of day to the microsecond and the
  nanoseconds below it.
- `Filtering`: the mask, and the bounds of the sidebar controls read off the table.
- `Grouping`: `groupby(key).sum()` / `.size()` as a sorted association list,
  built by inserting row after row. Its lemmas show that the keys ascend, that
  exactly the observed keys appear, that each entry holds its key's sum and
  that the sums add up to the column total.
- `Aggregates`: the time series, persons per ad, hour-by-day counts and
  gender counts, each an instance of `Grouping`.
- `Kpis`: total users, unique ads, modal gender and rounded mean age.
- `GenderChart`: the pie-chart slices with their labels.
- `AgeGroups`: `pd.cut` with the code's bin edges, and the count per group.
- `Summary`: projection of the view to the table columns, and its last ten rows.
- `Dashboard`: one full pass that renders every aggregate from the same view.
  The aggregates are proved to agree with one another. Two worked scenarios
  are included: three rows that are all kept, and a selection of an ad that
  does not occur.
- `Orders`, `Seqs`, `Wrappers`: lexicographic and code-point orders, sequence
  helpers, and `Option`.

Modelling decisions:

- Orders. `groupby` sorts its keys, and the model sorts them the same way:
  timestamps chronologically, ad ids numerically, and `(hour, day)` by hour and
  then by day name. Strings compare by code point, as Python compares `str`.
- Modal gender. `Series.mode()` returns all most frequent values, sorted. So
  `mode()[0]` is the code-point-least gender among those with the largest
  count. This is a definite tie-break, and the model proves it.
- Mean age. `round(mean)` is modelled exactly on the integer sum and count.
  The result is the nearest integer, with ties going to the even one, as
  Python's `round` does.
- Weekday and month names are computed: the weekday with Sakamoto's formula
  for the proleptic Gregorian calendar, and the month name by looking up the
  month number (English names, as pandas gives by default).
- The age bins are those of Bluechip.py:387-389: `[10,20) … [70,80)` and
  `[80,100)` (labelled `80+`), so ages below 10 or from 100 up get no group.
- Gender values are not normalised; only the icon falls back to `❓`.
- Nothing at Bluechip.py:236-241 validates the criteria, so a start date after
  the end date, or a minimum age above the maximum, keeps no rows.

## Model

| member | source | states |
|---|---|---|
| `Events.Derive` | Bluechip.py:11-14 | the prepared event has the row's columns unchanged, and `hour`, `day` and `month` agree with its timestamp |
| `Events.Prepare` | Bluechip.py:11-14 | preparation keeps the table's length and order, and every prepared row carries its own row's columns with consistent derived fields |
| `Events.DeriveRowOf` | Bluechip.py:12-14 | an event whose derived columns agree with its timestamp is exactly the preparation of its row (derived fields cannot drift) |
| `Events.DayName` | Bluechip.py:13 | the day column is one of the seven English weekday names |
| `Events.MonthName` | Bluechip.py:14 | the month column is one of the twelve English month names |
| `Events.TimestampLtIsStrictTotal` | Bluechip.py:471 | chronological order of timestamps is a strict total order, so `groupby('time')` has one sorted place per timestamp |
| `Filtering.Keep` | Bluechip.py:237-240 | the mask of one row: date within the inclusive range, ad id selected, age inclusive `between`; a row passes only if the ranges are not inverted |
| `Filtering.Apply` | Bluechip.py:236-241 | the view is never longer than the table, every row in it passes all three tests (dates inclusive, ad id selected, age `between` inclusive), and an empty ad selection gives an empty view |
| `Filtering.ApplySubsequence` | Bluechip.py:236-241 | the view is a subsequence of the table: original order kept |
| `Filtering.ApplyMultiset` | Bluechip.py:236-241 | every row passing the mask is in the view as often as in the table, and no other row is |
| `Filtering.ApplyPrepared` | Bluechip.py:236-241 | filtering keeps the derived columns consistent with the timestamps |
| `Filtering.ApplyKeepsAll` | Bluechip.py:236-241 | when every row passes the mask, the view is the whole table |
| `Filtering.ApplyFullLength` | Bluechip.py:236-241 | a view as long as the table means every row passed the mask |
| `Filtering.ApplyIdempotent` | Bluechip.py:236-241 | filtering the view again with the same criteria changes nothing |
| `Filtering.Least` | Bluechip.py:221-222 | `min()` of a non-empty column is one of its values and bounds every value |
| `Filtering.TableBounds` | Bluechip.py:221-233 | on a non-empty table: `min_date`/`max_date` and the age slider bounds are attained and bound every row; the ad options are the distinct ad ids, each once; an empty table has no bounds |
| `Filtering.FullSpanKeepsAll` | Bluechip.py:221-241 | selecting the full date span, every ad option and the full age span keeps every row |
| `Filtering.CoversIffKeepsAll` | Bluechip.py:221-241 | on a non-empty table the view is the whole table exactly when the criteria cover its date span, every ad option and its age span |
| `Seqs.Distinct` | Bluechip.py:230 | `unique()` lists every value of the column exactly once |
| `Grouping.Insert` | Bluechip.py:471 | adding one row's value to the grouped result adds at most one entry and never leaves it empty |
| `Grouping.GroupSum` | Bluechip.py:471 | `groupby(key)[col].sum()` built row by row with `Insert`: at most one entry per row, and at least one when there is a row |
| `Grouping.GroupSumSpec` | Bluechip.py:471 | a grouped sum has ascending keys, exactly the keys observed, per key the sum of the column over its rows, and measures that add up to the column total |
| `Grouping.GroupSumEntries` | Bluechip.py:568 | a grouped sum has one entry per distinct key (as many entries as keys), each entry the sum of its key's rows |
| `Aggregates.TimeSeries` | Bluechip.py:471 | one entry per distinct timestamp, ascending, each the sum of `total_persons` at that timestamp; the entries sum to the persons in the view |
| `Aggregates.PersonsPerAd` | Bluechip.py:568 | one entry per distinct ad id, ascending, each the sum of `total_persons` for that ad; the entries sum to the persons in the view |
| `Aggregates.BarData` | Bluechip.py:669 | one entry per observed `(hour, day)` pair and no other; counts positive and summing to the rows of the view; hours in 0..23 and days weekday names |
| `Aggregates.HourDayLtIsStrictTotal` | Bluechip.py:669 | sorting `(hour, day)` keys by hour, then by day name, is a strict total order |
| `Aggregates.GenderCounts` | Bluechip.py:292-294 | one count per gender occurring in the view, each the number of rows with that gender and positive; the counts sum to the rows of the view |
| `Kpis.UniqueAds` | Bluechip.py:245 | `nunique()` is the number of distinct ad ids in the view, never more than `total_users` |
| `Kpis.MaxIndex` | Bluechip.py:246 | picks the first entry with a largest count |
| `Kpis.MostCommonGender` | Bluechip.py:246 | "N/A" on an empty view; otherwise a gender of the view whose count no gender exceeds, and the code-point-least one among those with that count |
| `Kpis.RoundHalfEven` | Bluechip.py:247 | Python `round` on a fraction: within one half of `num / den`, and even on an exact tie |
| `Kpis.RoundHalfEvenUnique` | Bluechip.py:247 | those two properties single out one integer, so they fully specify the rounding |
| `Kpis.AverageAge` | Bluechip.py:247 | 0 on an empty view; otherwise the mean age rounded to the nearest integer, ties to even |
| `Kpis.ComputeKpis` | Bluechip.py:244-247 | `total_users` is the row count and bounds `unique_ads`; an empty view gives 0, 0, "N/A", 0; a non-empty one has at least one ad and a modal gender from the view |
| `GenderChart.Icon` | Bluechip.py:291 | the fallback icon `❓` is used exactly for genders other than Male, Female and Other |
| `GenderChart.NatToString` | Bluechip.py:295 | the count is written as a non-empty string of decimal digits, with a leading zero only for 0 |
| `GenderChart.ParseNatToString` | Bluechip.py:295 | reading the written digits back gives the count |
| `GenderChart.Label` | Bluechip.py:295 | defined as the icon, a space, the gender, a space and the count in parentheses |
| `GenderChart.CountAfterPrefix` | Bluechip.py:295 | a count written after text not ending in a digit, and closed by `)`, is read back unchanged |
| `GenderChart.LabelCountRoundTrip` | Bluechip.py:295 | the count can be read back from any label `icon gender (count)`, whatever the gender string holds |
| `GenderChart.GenderDistribution` | Bluechip.py:291-295 | one slice per gender of the view and no other; each count is that gender's row count and positive; each label is built from icon, gender and count; the counts sum to `total_users` |
| `AgeGroups.Cut` | Bluechip.py:389 | `pd.cut(right=False)`: a bin index `i` means `edges[i] <= x < edges[i+1]`; no bin exactly when `x` is below the first edge or at or above the last |
| `AgeGroups.AgeGroup` | Bluechip.py:387-389 | `pd.cut` of one age with `age_bins`, `right=False`: when a group is given it is an index into `age_labels` |
| `AgeGroups.AgeGroupSpec` | Bluechip.py:387-389 | ages in [10,80) fall in the decade bin `[10k, 10k+10)` containing them; ages in [80,100) in `80+`; all other ages in no group |
| `AgeGroups.AgeCounts` | Bluechip.py:389-390 | one count per age group, in bin order, each the number of rows in that group; the counts sum to the rows with an age in [10,100) |
| `Summary.SummaryTable` | Bluechip.py:826 | the table holds the last min(10, n) rows of the view, in order, each projected to date, time of day, ad id, total persons, gender and age |
| `Summary.Project` | Bluechip.py:731-733 | the date column is the timestamp's date and the time column its time of day to the microsecond; the ad id, total persons, gender and age columns are copied; and the date and time-of-day columns recover the timestamp exactly when it has no sub-microsecond part |
| `Summary.ProjectKeepsDerived` | Bluechip.py:731-733 | hour, weekday and month of a prepared row can be recomputed from its summary row |
| `Dashboard.Render` | Bluechip.py:236-247 | gender counts and hour-by-day counts sum to `total_users`; time series and per-ad sums have the same total; one per-ad entry per unique ad; age counts and table never exceed the view |
| `Dashboard.Run` | Bluechip.py:11-247 | the page for a freshly loaded table: no card counts more rows than were loaded, and an empty table gives the empty-view cards 0, 0, "N/A", 0 |
| `Dashboard.RunPrepared` | Bluechip.py:11-14 | a freshly prepared table and each of its views have derived columns consistent with their timestamps |
| `Dashboard.ScenarioKeepsAll` | Bluechip.py:236-241 | with the full date span, both ads and ages 0..100, the three-row table is kept whole |
| `Dashboard.ScenarioKpis` | Bluechip.py:244-247 | on those three rows: 3 users, 2 ads, "M" most common (2 against 1), mean age 35 |
| `Dashboard.ScenarioPersonsPerAd` | Bluechip.py:568 | on those three rows: ad 1 has 7 persons and ad 2 has 3, in ad order |
| `Dashboard.ScenarioAgeCounts` | Bluechip.py:387-390 | on those three rows: one row each in 20-30, 30-40 and 40-50 |
| `Dashboard.ScenarioFullView` | Bluechip.py:236-247 | the whole pass gives those KPIs, per-ad sums and age counts |
| `Dashboard.ScenarioUnknownAd` | Bluechip.py:239 | selecting only an ad that does not occur gives the empty-view KPIs 0, 0, "N/A", 0 |

## Left out

- Reading the CSV and parsing `time` (Bluechip.py:8, 11) are file I/O and library parsing. The model starts from parsed rows, so schema errors and unparsable timestamps are not modelled.
- The sidebar widgets (Bluechip.py:220-233) are user input. Their results are the `Criteria` parameter. The default start date `max_date - 7 days` (Bluechip.py:223) needs calendar arithmetic and is not modelled. A date picker still returning a single date, which breaks the unpacking on line 227, is not modelled.
- All CSS and HTML, the Plotly figures, their styling, the pie's highlighted slice and the percentages drawn on the pie are presentation.
- Events.DayName: uses Sakamoto's formula. The model does not prove it against a calendar library. Day-of-month is bounded by 31 and is not checked against the month's length, which parsing guarantees.
- GenderChart.GenderDistribution: `value_counts` orders slices by count, with ties unspecified. The model keeps the slices in gender order instead and states nothing about the count order.
- AgeGroups.AgeCounts: `value_counts` orders categories by count. The model lists them in bin order, with empty groups counted 0, and states nothing about the count order.
- Kpis.AverageAge: rounds the exact mean. Float rounding of a very large sum, which could move a true half, is not modelled.
- Writing `age_group` into a slice of the table (Bluechip.py:389) triggers pandas' copy warning. Only the resulting counts are modelled.
- Ad ids are modelled as integers, which is what the CSV reader gives for a numeric column. String ad ids are not modelled.
- Missing values (NaN ages, genders or ad ids) are not modelled. Every row has all of its columns.
- Grouping.GroupSum: sums are unbounded. The same holds for `Aggregates.TimeSeries`, `Aggregates.PersonsPerAd` and the age sum behind `Kpis.AverageAge`. pandas sums an int64 column with wrap-around at 2^63, and that overflow is not modelled.
- Seqs.Distinct: `unique()` lists values in order of first occurrence. The contract states only that each value appears once; the order is not stated.
- Filtering.TableBounds: returns no bounds on an empty table. The page itself would fail there, and that failure is not modelled.
