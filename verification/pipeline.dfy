/** `load_and_process` (data_processing.py): the four sheets in, the nine
    tables of the dashboard out. Reading the workbook is not modelled; the
    sheets arrive already parsed. */
module Pipeline {
  import opened Calendar
  import opened Tables
  import opened Records
  import opened Food
  import opened Summary
  import Weight
  import Workouts

  /** The nine tables `load_and_process` returns, under their names there. */
  datatype Report = Report(
    dailyDf: seq<FoodRow>,
    weekAggDf: seq<Group<int, Nutrients>>,
    avgWeekDf: seq<Group<int, Nutrients>>,
    dayNameAvg: seq<Group<Weekday, Nutrients>>,
    wtAvg: seq<Group<int, Body>>,
    workoutDailyAgg: seq<Group<Day, Workout>>,
    workoutAgg: seq<Group<int, Workout>>,
    workoutAvg: seq<Group<int, Workout>>,
    summaryDf: seq<SummaryRow>)

  /** The food rows of the dashboard: the reconciled sheets, dated. */
  function DailyDf(meal: seq<Stamped<Nutrients>>, day: seq<DaySheetRow>): (rows: seq<FoodRow>)
    ensures |rows| == |Dates(meal)| + CompleteCount(day)
    ensures KeysOf(rows, DateOf) == Dates(meal) + CompleteDates(day)
    ensures KeysOf(rows, WeekOf) == set d | d in Dates(meal) + CompleteDates(day) :: IsoWeek(d)
    ensures KeysOf(rows, DayNameOf) == set d | d in Dates(meal) + CompleteDates(day) :: WeekdayOf(d)
  {
    var unified := StartFormat(meal, day);
    StartFormatDates(meal, day);
    DateFormatDates(unified);
    DateFormatWeeks(unified);
    WeeksOfDates(unified);
    DateFormatDayNames(unified);
    DateFormat(unified)
  }

  function LoadAndProcess(meal: seq<Stamped<Nutrients>>, day: seq<DaySheetRow>,
                          weights: seq<Weight.WeightSheetRow>, workouts: seq<Workouts.WorkoutSheetRow>,
                          round: Rounder): (r: Report)
    ensures r.dailyDf == DailyDf(meal, day)
    ensures |r.dailyDf| == |Dates(meal)| + CompleteCount(day)
    ensures TableKeys(r.weekAggDf) == TableKeys(r.avgWeekDf) == KeysOf(r.dailyDf, WeekOf)
    ensures TableKeys(r.dayNameAvg) == KeysOf(r.dailyDf, DayNameOf)
    ensures forall i, f :: 0 <= i < |r.weekAggDf| ==>
              r.weekAggDf[i].value.Get(f) == SumWhere(r.dailyDf, WeekOf, r.weekAggDf[i].key, NutrientCol(f))
    ensures forall i, f :: 0 <= i < |r.avgWeekDf| ==>
              r.avgWeekDf[i].value.Get(f)
              == round(2, SumWhere(r.dailyDf, WeekOf, r.avgWeekDf[i].key, NutrientCol(f))
                          / (CountWhere(r.dailyDf, WeekOf, r.avgWeekDf[i].key) as real))
    ensures forall i, f :: 0 <= i < |r.dayNameAvg| ==>
              r.dayNameAvg[i].value.Get(f)
              == round(2, SumWhere(r.dailyDf, DayNameOf, r.dayNameAvg[i].key, NutrientCol(f))
                          / (CountWhere(r.dailyDf, DayNameOf, r.dayNameAvg[i].key) as real))
    ensures TableKeys(r.wtAvg) == Weeks(Weight.BodyRecords(weights))
    ensures TableKeys(r.workoutDailyAgg) == Dates(Workouts.WorkoutRecords(workouts))
    ensures TableKeys(r.workoutAgg) == TableKeys(r.workoutAvg) == Weeks(Workouts.WorkoutRecords(workouts))
    ensures (set s | s in r.summaryDf :: s.week)
            == (TableKeys(r.wtAvg) * TableKeys(r.avgWeekDf)) + TableKeys(r.workoutAgg)
    ensures forall i, j :: 0 <= i < j < |r.summaryDf| ==> r.summaryDf[i].week != r.summaryDf[j].week
    ensures forall s :: s in r.summaryDf ==> s == ExpectedRow(r.wtAvg, r.avgWeekDf, r.workoutAgg, s.week)
  {
    var daily := DailyDf(meal, day);
    var wtAvg := Weight.WeightAvg(weights, round);
    var avgWeek := WeekAvg(daily, round);
    var workoutAgg := Workouts.WorkoutAgg(workouts);
    SummaryRows(wtAvg, avgWeek, workoutAgg);
    Report(daily, WeekAgg(daily), avgWeek, WeekdayAvg(daily, round), wtAvg,
           Workouts.WorkoutDailyAgg(workouts), workoutAgg, Workouts.WorkoutAvg(workouts),
           WeeklySummary(wtAvg, avgWeek, workoutAgg))
  }

  /** The food tables of the report, keyed through the two food sheets: the
      dates of the meal sheet and of the complete day-sheet rows, their ISO
      weeks and their weekdays. */
  lemma ReportFoodKeys(meal: seq<Stamped<Nutrients>>, day: seq<DaySheetRow>,
                       weights: seq<Weight.WeightSheetRow>, workouts: seq<Workouts.WorkoutSheetRow>, round: Rounder)
    ensures KeysOf(LoadAndProcess(meal, day, weights, workouts, round).dailyDf, DateOf)
            == Dates(meal) + CompleteDates(day)
    ensures TableKeys(LoadAndProcess(meal, day, weights, workouts, round).weekAggDf)
            == set d | d in Dates(meal) + CompleteDates(day) :: IsoWeek(d)
    ensures TableKeys(LoadAndProcess(meal, day, weights, workouts, round).avgWeekDf)
            == set d | d in Dates(meal) + CompleteDates(day) :: IsoWeek(d)
    ensures TableKeys(LoadAndProcess(meal, day, weights, workouts, round).dayNameAvg)
            == set d | d in Dates(meal) + CompleteDates(day) :: WeekdayOf(d)
  {
    var r := LoadAndProcess(meal, day, weights, workouts, round);
    assert r.dailyDf == DailyDf(meal, day);
  }

  /** The summary's weeks, from the raw sheets: the weeks holding both a
      weight measurement and a food record (a meal-sheet row or a complete
      day-sheet row), together with every week holding a workout. */
  lemma SummaryWeeks(meal: seq<Stamped<Nutrients>>, day: seq<DaySheetRow>,
                     weights: seq<Weight.WeightSheetRow>, workouts: seq<Workouts.WorkoutSheetRow>, round: Rounder)
    ensures (set s | s in LoadAndProcess(meal, day, weights, workouts, round).summaryDf :: s.week)
            == ((set m | m in weights :: IsoWeek(m.date))
                * (set d | d in Dates(meal) + CompleteDates(day) :: IsoWeek(d)))
               + (set w | w in workouts :: IsoWeek(w.date))
  {
    var r := LoadAndProcess(meal, day, weights, workouts, round);
    Weight.SheetWeeks(weights);
    Workouts.SheetWeeks(workouts);
    assert TableKeys(r.avgWeekDf) == KeysOf(r.dailyDf, WeekOf);
  }

  // ------------------------------------------------------------- scenario

  /** A meal-sheet sheet holding one record `m` on day `d`. */
  function OneMeal(d: Day, m: Nutrients): seq<Stamped<Nutrients>> {
    [Stamped(d, m)]
  }

  /** A day sheet holding one complete row `n` on day `d`. */
  function OneDayRow(d: Day, n: Nutrients): seq<DaySheetRow> {
    [DaySheetRow(Some(d), Some(n.calories), Some(n.protein), Some(n.carbs), Some(n.fat), Some(n.sugar),
                 Some(n.fiber), None, None, None)]
  }

  /** A date present in both food sheets stays two rows of the unified
      table: the meal's daily sum first, then the day-sheet row. */
  lemma SameDateTwoRows(d: Day, m: Nutrients, n: Nutrients)
    ensures |DailyDf(OneMeal(d, m), OneDayRow(d, n))| == 2
    ensures DailyDf(OneMeal(d, m), OneDayRow(d, n))[0].date == d
    ensures DailyDf(OneMeal(d, m), OneDayRow(d, n))[1].date == d
    ensures DailyDf(OneMeal(d, m), OneDayRow(d, n))[0].week == IsoWeek(d)
    ensures DailyDf(OneMeal(d, m), OneDayRow(d, n))[1].week == IsoWeek(d)
    ensures DailyDf(OneMeal(d, m), OneDayRow(d, n))[0].fields.calories == m.calories
    ensures DailyDf(OneMeal(d, m), OneDayRow(d, n))[1].fields.calories == n.calories
  {
    var meal := OneMeal(d, m);
    var day := OneDayRow(d, n);
    assert Dates(meal) == {d} by {
      assert meal[0] in meal;
    }
    assert CompleteCount(day) == 1;
    var unified := StartFormat(meal, day);
    assert unified[1..] == CleanDaySheet(day);
    assert unified[1] == ToFoodRecord(day[0]);
    var dated := DateFormat(meal);
    assert SumWhere(dated, DateOf, d, NutrientCol(Calories)) == m.calories by {
      assert dated[1..] == [];
    }
    DateFormatWeek(unified, 0);
    DateFormatWeek(unified, 1);
  }

  /** Two food rows sharing the key `k`: that key's calorie sum and row count. */
  lemma TwoRowSums<K(!new)>(rows: seq<FoodRow>, key: FoodRow -> K, k: K)
    requires |rows| == 2 && key(rows[0]) == k && key(rows[1]) == k
    ensures SumWhere(rows, key, k, NutrientCol(Calories)) == rows[0].fields.calories + rows[1].fields.calories
    ensures CountWhere(rows, key, k) == 2
    ensures k in KeysOf(rows, key)
  {
    var cal := NutrientCol(Calories);
    assert cal(rows[0]) == rows[0].fields.calories && cal(rows[1]) == rows[1].fields.calories;
    assert rows[1..][0] == rows[1] && rows[1..][1..] == [];
    assert SumWhere(rows[1..], key, k, cal) == rows[1].fields.calories + SumWhere(rows[1..][1..], key, k, cal);
    assert rows[0] in rows;
  }

  /** Two food rows of date `d`: a daily sum of them adds both. */
  lemma TwoRowsDayTotal(rows: seq<FoodRow>, d: Day, a: real, b: real)
    requires |rows| == 2 && rows[0].date == d && rows[1].date == d
    requires rows[0].fields.calories == a && rows[1].fields.calories == b
    ensures Lookup(DailyAgg(rows), d).Some?
    ensures Lookup(DailyAgg(rows), d).value.calories == a + b
  {
    TwoRowSums(rows, DateOf, d);
    DailyAggAt(rows, d, Calories);
  }

  /** Two food rows of week `w`: that week's total adds both. */
  lemma TwoRowsWeekTotal(rows: seq<FoodRow>, w: int, a: real, b: real)
    requires |rows| == 2 && rows[0].week == w && rows[1].week == w
    requires rows[0].fields.calories == a && rows[1].fields.calories == b
    ensures Lookup(WeekAgg(rows), w).Some?
    ensures Lookup(WeekAgg(rows), w).value.calories == a + b
  {
    TwoRowSums(rows, WeekOf, w);
    WeekAggAt(rows, w, Calories);
  }

  /** Two food rows of week `w`: that week's mean averages over two rows. */
  lemma TwoRowsWeekMean(rows: seq<FoodRow>, round: Rounder, w: int, a: real, b: real)
    requires |rows| == 2 && rows[0].week == w && rows[1].week == w
    requires rows[0].fields.calories == a && rows[1].fields.calories == b
    ensures Lookup(WeekAvg(rows, round), w).Some?
    ensures Lookup(WeekAvg(rows, round), w).value.calories == round(2, (a + b) / 2.0)
  {
    TwoRowSums(rows, WeekOf, w);
    MeanOfTwo(rows, round, w, a, b);
  }

  lemma MeanOfTwo(rows: seq<FoodRow>, round: Rounder, w: int, a: real, b: real)
    requires w in KeysOf(rows, WeekOf)
    requires SumWhere(rows, WeekOf, w, NutrientCol(Calories)) == a + b && CountWhere(rows, WeekOf, w) == 2
    ensures Lookup(WeekAvg(rows, round), w).Some?
    ensures Lookup(WeekAvg(rows, round), w).value.calories == round(2, (a + b) / 2.0)
  {
    WeekAvgAt(rows, round, w, Calories);
    HalfOfSum(round, SumWhere(rows, WeekOf, w, NutrientCol(Calories)), CountWhere(rows, WeekOf, w), a, b);
  }

  /** The rounded mean of a sum `s` over a count of two. */
  lemma HalfOfSum(round: Rounder, s: real, c: nat, a: real, b: real)
    requires c == 2 && s == a + b
    ensures round(2, s / (c as real)) == round(2, (a + b) / 2.0)
  {
    var r := c as real;
    assert r == 2.0;
    assert s / r == (a + b) / 2.0;
  }

  /** A meal record and a day-sheet row on the same date: summing the
      unified table by date afterwards would add both into one row. The
      pipeline itself never does this; its `daily_df` keeps the two rows. */
  lemma SameDateDailySum(d: Day, m: Nutrients, n: Nutrients)
    ensures Lookup(DailyAgg(DailyDf(OneMeal(d, m), OneDayRow(d, n))), d).Some?
    ensures Lookup(DailyAgg(DailyDf(OneMeal(d, m), OneDayRow(d, n))), d).value.calories
            == m.calories + n.calories
  {
    SameDateTwoRows(d, m, n);
    TwoRowsDayTotal(DailyDf(OneMeal(d, m), OneDayRow(d, n)), d, m.calories, n.calories);
  }

  /** A meal record and a day-sheet row on the same date: the weekly total
      of that date's week counts both. */
  lemma SameDateWeekTotal(d: Day, m: Nutrients, n: Nutrients)
    ensures Lookup(WeekAgg(DailyDf(OneMeal(d, m), OneDayRow(d, n))), IsoWeek(d)).Some?
    ensures Lookup(WeekAgg(DailyDf(OneMeal(d, m), OneDayRow(d, n))), IsoWeek(d)).value.calories
            == m.calories + n.calories
  {
    SameDateTwoRows(d, m, n);
    TwoRowsWeekTotal(DailyDf(OneMeal(d, m), OneDayRow(d, n)), IsoWeek(d), m.calories, n.calories);
  }

  /** A meal record and a day-sheet row on the same date: the weekly mean of
      that date's week averages over two rows. */
  lemma SameDateWeekMean(d: Day, m: Nutrients, n: Nutrients, round: Rounder)
    ensures Lookup(WeekAvg(DailyDf(OneMeal(d, m), OneDayRow(d, n)), round), IsoWeek(d)).Some?
    ensures Lookup(WeekAvg(DailyDf(OneMeal(d, m), OneDayRow(d, n)), round), IsoWeek(d)).value.calories
            == round(2, (m.calories + n.calories) / 2.0)
  {
    SameDateTwoRows(d, m, n);
    TwoRowsWeekMean(DailyDf(OneMeal(d, m), OneDayRow(d, n)), round, IsoWeek(d), m.calories, n.calories);
  }

  /** 1 January 2024 (day 738885) with 500 kcal on the meal sheet and
      1800 kcal on the day sheet: week 1 totals 2300 kcal and averages the
      rounding of 1150 kcal. */
  lemma NewYearsDayScenario(d: Day, m: Nutrients, n: Nutrients, round: Rounder)
    requires d == 738885 && m.calories == 500.0 && n.calories == 1800.0
    ensures Lookup(WeekAgg(DailyDf(OneMeal(d, m), OneDayRow(d, n))), 1).Some?
    ensures Lookup(WeekAgg(DailyDf(OneMeal(d, m), OneDayRow(d, n))), 1).value.calories == 2300.0
    ensures Lookup(WeekAvg(DailyDf(OneMeal(d, m), OneDayRow(d, n)), round), 1).Some?
    ensures Lookup(WeekAvg(DailyDf(OneMeal(d, m), OneDayRow(d, n)), round), 1).value.calories
            == round(2, 1150.0)
  {
    FirstWeekOf2024(d);
    SameDateWeekTotal(d, m, n);
    SameDateWeekMean(d, m, n, round);
    HalfOf2300(round, m.calories, n.calories);
  }

  lemma HalfOf2300(round: Rounder, a: real, b: real)
    requires a == 500.0 && b == 1800.0
    ensures a + b == 2300.0
    ensures round(2, (a + b) / 2.0) == round(2, 1150.0)
  {
    assert (a + b) / 2.0 == 1150.0;
  }
}
