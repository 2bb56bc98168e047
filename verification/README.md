# Health tracker aggregation, modelled in Dafny

This project models the aggregation pipeline of the health tracker's
`data_processing.py`. The pipeline reads four sheets:

- a meal log;
- a per-day food log;
- a body-composition log;
- a workout log.

From them it builds the nine tables the dashboard shows: the unified daily
food table, weekly nutrition totals and means, nutrition means per weekday in
Monday-to-Sunday order, weekly body-composition means, daily and weekly
workout totals, weekly workout means, and a four-column weekly summary.

Modules, one file each:

- `calendar.dfy` (`Calendar`): dates are day numbers in the proleptic
  Gregorian calendar, with day 0 = Monday 1 January of year 1. It computes the
  calendar year, the weekday and the ISO week. The ISO week follows
  ISO 8601:2004, section 3.2.2: week 1 holds the year's first Thursday. The
  computed week is proved equal to an independent reference definition, and
  that reference has a unique solution.
- `tables.dfy` (`Tables`): generic keyed tables. It covers
  `groupby(key).agg(...)` (`Aggregate`), reference definitions of per-key
  sums and counts (`SumWhere`, `CountWhere`), lookup, and `pd.merge` inner
  and outer joins. A join pairs every two rows with equal keys.
- `records.dfy` (`Records`): the record types of the sheets and
  `date_format`.
- `food.dfy` (`Food`): `start_format`, `daily_agg`, `week_agg`, `week_avg`,
  and the weekday means with their ordering.
- `weight.dfy` (`Weight`): the weekly body-composition means.
- `workouts.dfy` (`Workouts`): the three workout aggregates.
- `summary.dfy` (`Summary`): the joins, column selection and `fillna(0)` of
  the weekly summary.
- `pipeline.dfy` (`Pipeline`): `load_and_process` after the workbook is
  read. It also holds a worked example on a date present in both food sheets.

Pandas `.round(n)` is a parameter `round: (nat, real) -> real`. Nothing is
assumed about it, so every rounded value is stated as `round(n, exact value)`.
Numbers are exact reals: a sum is a sum and a mean is `sum / count`.

Grouping is by the ISO week number alone, as in the code (lines 38, 52, 128,
152 and 158). Weeks with the same number in different years share a row.

The unified food table is never summed by date again before the weekly and
weekday reductions. A date present in both food sheets is two rows of
`daily_df`: it counts twice in every weekly sum, and as two rows in every
mean (`Food.DateInBothSheetsTwice`, `Pipeline.SameDateTwoRows`).

Take 500 kcal on the meal sheet and 1800 kcal on the day sheet, both on
1 January 2024:

- `daily_df` keeps two rows for that date (`Pipeline.SameDateTwoRows`).
- Summing `daily_df` by date afterwards would give one row of 2300 kcal
  (`Pipeline.SameDateDailySum`). The pipeline never does this.
- Week 1 totals 2300 kcal, and its mean is `round(2, 1150)`, since the
  date counts as two rows (`Pipeline.NewYearsDayScenario`).

## Model

| member | source | states |
|---|---|---|
| Calendar.YearOf | data_processing.py:17 | The `year` column: the year whose 1 January is on or before the day and whose successor's 1 January is after it. |
| Calendar.YearOfUnique | data_processing.py:17 | That year is the only one bracketing the day. |
| Calendar.IsoWeek | data_processing.py:18 | The `week` column is always between 1 and 53. |
| Calendar.IsoWeekMeetsDefinition | data_processing.py:18 | The computed week and ISO year satisfy the ISO 8601 definition: the day's Monday is `week - 1` weeks after the Monday of the week holding the year's first Thursday, and before the next year's week 1. |
| Calendar.IsoWeekUnique | data_processing.py:18 | No other (year, week) pair satisfies that definition, so the week number is determined by the date. |
| Calendar.FirstThursdayInWeekOne | data_processing.py:18 | Every year's first Thursday lies in week 1 of that year. |
| Calendar.WeekdayCycle | data_processing.py:19 | Day 0 is a Monday, each next day is the next weekday in the cycle, and a day's weekday is its offset from its week's Monday. |
| Calendar.NewYear2024 | data_processing.py:18-19 | 1 January 2024 is day 738885, a Monday, in week 1 of ISO year 2024. |
| Calendar.NewYear2021 | data_processing.py:17-18 | 1 January 2021 is a Friday. Its calendar year is 2021, but its ISO week is week 53 of 2020. |
| Records.DateFormat | data_processing.py:15-20 | Every record keeps its date and fields. It gains its calendar year, an ISO week in 1..53 meeting the ISO definition, and a weekday equal to its offset from the week's Monday. |
| Records.DateFormatDependsOnDate | data_processing.py:15-20 | Two records with the same date get the same year, week and weekday, whatever sheet they come from. |
| Records.DateFormatDates | data_processing.py:15-20 | Dating a sheet keeps its set of dates. |
| Records.DateFormatWeeks | data_processing.py:18 | The week numbers of a dated sheet are exactly the ISO weeks of its dates. |
| Records.DateFormatDayName | data_processing.py:19 | A record's `day_name` is the weekday of its date. |
| Records.DateFormatDayNames | data_processing.py:19 | The day names of a dated sheet are exactly the weekdays of its dates. |
| Tables.Aggregate | data_processing.py:23-34 | Group-and-reduce yields one row per key present in the input and no other key. Each row is the reduction of exactly the non-empty group of input rows with that key. |
| Tables.FilterSum | data_processing.py:23-34 | A group's column sum equals the reference sum over all input rows with that key. |
| Tables.GroupMean | data_processing.py:51-62 | A group's column mean equals the reference sum over the key's rows divided by their (positive) count. |
| Tables.PartitionTotal | data_processing.py:23-34 | The groups partition the input: adding every key's group total gives the column total. |
| Tables.AggregateKeepsTotal | data_processing.py:23-48 | Aggregating by sum preserves each column's total between input and output. |
| Tables.InnerJoin | data_processing.py:164 | The inner merge's keys are the intersection of both sides' keys, and each row pairs a row of each side. |
| Tables.OuterJoin | data_processing.py:165 | The outer merge's keys are the union. A present side is a row of that table; a missing side means the table lacks the key. |
| Tables.InnerJoinDistinct | data_processing.py:164 | Inner-merging two tables with one row per key gives one row per key. |
| Tables.OuterJoinDistinct | data_processing.py:165 | Outer-merging two tables with one row per key gives one row per key. |
| Food.DailyAgg | data_processing.py:23-34 | `daily_agg`: one row per date present, each nutrient the sum over that date's rows. |
| Food.DailyAggKeepsTotals | data_processing.py:23-34 | `daily_agg` keeps every nutrient's column total. |
| Food.WeekAgg | data_processing.py:37-48 | `week_agg`: one row per week number present, each nutrient the sum over that week's rows. |
| Food.WeekAggKeepsTotals | data_processing.py:37-48 | `week_agg` keeps every nutrient's column total. |
| Food.WeekAvg | data_processing.py:51-62 | `week_avg`: one row per week number present, each nutrient `round(2, sum / count)` over that week's rows. |
| Food.WeekAvgOfSingleRow | data_processing.py:51-62 | A week with a single row averages to that row's values, rounded. |
| Food.MealDailySums | data_processing.py:66-67 | The meal sheet's per-date sums: one record per distinct meal date, each the sum of that date's meal rows. |
| Food.CleanDaySheet | data_processing.py:69-72 | The day sheet after `dropna`: each record occurs exactly as often as the complete rows that yield it, so there is one row per complete row and as many rows per date as there are complete rows on that date. |
| Food.CleanDaySheetConcat | data_processing.py:69-72 | Cleaning works row by row: cleaning a concatenation concatenates the cleaned parts, so the surviving rows keep their order. |
| Food.CleanSingleRow | data_processing.py:72 | A single row survives, as its own record, exactly when it has no missing cell. |
| Food.CleanIgnoresDroppedColumns | data_processing.py:71 | `time`, `entry_id` and `item` never decide whether a row survives. |
| Food.StartFormat | data_processing.py:65-75 | `start_format`: the meal per-date sums, then the cleaned day sheet, without deduplication. Its length is (distinct meal dates) + (complete day rows), and each date occurs once from the meal sheet (when it has that date), plus once per complete day-sheet row on that date. |
| Food.StartFormatDates | data_processing.py:65-75 | The unified table covers exactly the meal dates and the dates of complete day-sheet rows. |
| Food.DateInBothSheetsTwice | data_processing.py:74 | A date present in both sheets occurs at least twice in the unified table. |
| Food.OrderByWeekday | data_processing.py:118-121 | Sorting by the Monday-first category order is a permutation into increasing weekday rank. It is strictly increasing when weekdays are distinct. |
| Food.WeekdayAvg | data_processing.py:94-121 | The weekday means hold at most seven rows, one per weekday present and none synthesised. They are in strictly Monday-to-Sunday order, each nutrient `round(2, sum / count)` over that weekday's rows. |
| Weight.WeightAvg | data_processing.py:124-138 | `wt_avg`: one row per ISO week of the weight sheet's dates, each body-composition column `round(1, sum / count)` over that week's rows. |
| Weight.WeightAvgIgnoresSource | data_processing.py:125 | The `source` column never changes the weekly means. |
| Workouts.WorkoutDailyAgg | data_processing.py:145-149 | `workout_daily_agg`: one row per date of the workout sheet, duration and calories burned summed over that date. |
| Workouts.WorkoutAgg | data_processing.py:151-155 | `workout_agg`: one row per ISO week of the workout sheet, the two columns summed over that week. Weeks without workouts are absent. |
| Workouts.WorkoutAvg | data_processing.py:157-161 | `workout_avg`: one row per ISO week of the workout sheet, the two columns' unrounded `sum / count`. |
| Workouts.AvgIsTotalOverCount | data_processing.py:151-161 | For each workout week, the weekly mean is the weekly total divided by the week's number of workouts. |
| Workouts.WorkoutDailyAggKeepsTotals | data_processing.py:145-149 | Daily workout totals keep the sheet's column totals. |
| Workouts.WorkoutAggKeepsTotals | data_processing.py:151-155 | Weekly workout totals keep the sheet's column totals. |
| Workouts.DayLabelIgnored | data_processing.py:143 | The free-text `Day` column never reaches any workout table. |
| Summary.WeeklySummary | data_processing.py:164-177 | The summary's weeks are (weight weeks ∩ nutrition-mean weeks) ∪ workout weeks. |
| Summary.SummaryRows | data_processing.py:164-177 | With one row per week in each input, the summary has one row per week. Weight and Avg Calorie Intake are that week's means when it has both, else 0. Total Calories Burned is the week's workout total, else 0. |
| Summary.MissingSidesAreZero | data_processing.py:177 | `fillna(0)` applies to every column: a week without workouts reports 0 burned, and a week lacking either mean reports 0 weight and 0 intake. |
| Pipeline.DailyDf | data_processing.py:87-88 | `daily_df` has (distinct meal dates) + (complete day rows) rows. Its dates are the meal dates and complete day dates; its weeks are their ISO weeks and its day names their weekdays. |
| Pipeline.LoadAndProcess | data_processing.py:86-189 | `daily_df` is the dated unified food table. The weekly totals, weekly means and weekday means are the sums and `round(2, sum / count)` means over its rows per week and per weekday. Every other table's key set is expressed through the sheets. The summary has one row per week and each row's values match the weekly tables. |
| Pipeline.ReportFoodKeys | data_processing.py:86-94 | From the food sheets: `daily_df` covers the meal dates and the complete day-sheet dates; the weekly tables are keyed by their ISO weeks and the weekday means by their weekdays. |
| Pipeline.SummaryWeeks | data_processing.py:164-177 | From the raw sheets, the summary weeks are (weeks with a weight row ∩ weeks with a food record) ∪ weeks with a workout. |
| Pipeline.SameDateTwoRows | data_processing.py:87-88 | A meal record and a complete day-sheet row on the same date become two `daily_df` rows on that date, in that ISO week, with their own calories. |
| Pipeline.SameDateDailySum | data_processing.py:87-88 | Summing that `daily_df` by date would give one row adding both calorie counts. |
| Pipeline.SameDateWeekTotal | data_processing.py:87-90 | The `week_agg_df` row of that week adds both calorie counts. |
| Pipeline.SameDateWeekMean | data_processing.py:87-91 | The `avg_week_df` row of that week is `round(2, (a + b) / 2)`: the shared date counts as two rows. |
| Pipeline.NewYearsDayScenario | data_processing.py:87-91 | 500 kcal and 1800 kcal on 1 January 2024 give week 1 a total of 2300 kcal and a mean of `round(2, 1150)`. |

## Left out

- Reading the workbook (data_processing.py:81-84) and the sheet-name constants: file I/O. The four sheets are parameters of `Pipeline.LoadAndProcess`, already parsed.
- Date-string parsing in `pd.to_datetime` (data_processing.py:16): library parsing. Dates arrive as day numbers.
- Food.WeekAvg: does not model the floating-point behaviour of pandas `.round(2)`, because rounding is an uninterpreted parameter. Every rounded value is stated as `round(2, exact mean)`.
- Food.WeekdayAvg: the same rounding caveat as `Food.WeekAvg`.
- Weight.WeightAvg: the same rounding caveat, with one decimal.
- Floating-point sums and means in general: values are exact reals.
- Tables.Aggregate: does not state the ascending key order in which pandas emits grouped rows. That order is a library default, not something the code establishes. The only order modelled is the Monday-to-Sunday weekday order the code imposes (lines 118-121).
- Summary.WeeklySummary: does not state the row order pandas gives an outer merge, for the same reason.
- Missing cells of the meal, weight and workout sheets: pandas `sum` and `mean` skip NaN, and `pd.to_datetime` keeps NaT dates. These sheets are modelled as complete. Missing cells are modelled where the code acts on them: the `dropna` of the day sheet (line 72) and the `fillna(0)` of the summary (line 177).
- The day sheet is assumed to hold exactly a date, the six nutrients and the three dropped columns (`time`, `entry_id`, `item`). `dropna` (line 72) looks at every remaining column, so a missing cell in any further column would also drop the row, and a sheet lacking a nutrient column would keep its rows with NaN in that column after the concat, which `sum` and `mean` would then skip. Neither case is modelled.
- Columns dropped with `errors="ignore"` (lines 71, 125, 143): an absent column is modelled as a cell missing on every row. The contracts show these cells never matter.
- The `year` column is computed (`Calendar.YearOf`, `Records.DateFormat`) but no table is keyed by it, as in the code.
- The column renamings (lines 148, 154, 160, 169-176): the datatypes' field names stand for the renamed columns, including the four titles of the summary.
- app.py (the Streamlit interface, charts, caching and Excel export): user interface and library I/O, with no aggregation logic.
