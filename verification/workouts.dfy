/** The workout block of `load_and_process` (data_processing.py): the sheet
    is dated, its free-text `Day` label dropped, and duration and calories
    burned are summed per date, summed per ISO week number and averaged per
    ISO week number (without rounding). */
module Workouts {
  import opened Calendar
  import opened Tables
  import opened Records

  /** A row of the workout sheet; `dayLabel` is its `Day` column, which the
      pipeline discards in favour of the computed weekday. */
  datatype WorkoutSheetRow = WorkoutSheetRow(date: Day, dayLabel: Option<string>, workout: Workout)

  type WorkoutRow = Dated<Workout>

  /** The sheet without `Day`. */
  function WorkoutRecords(sheet: seq<WorkoutSheetRow>): (s: seq<Stamped<Workout>>)
    ensures |s| == |sheet|
    ensures forall i :: 0 <= i < |s| ==> s[i].date == sheet[i].date && s[i].fields == sheet[i].workout
  {
    seq(|sheet|, i requires 0 <= i < |sheet| => Stamped(sheet[i].date, sheet[i].workout))
  }

  /** `wk_df`: the dated workout sheet. Its dates and weeks are those of the
      raw sheet. */
  function WorkoutTable(sheet: seq<WorkoutSheetRow>): (rows: seq<WorkoutRow>)
    ensures |rows| == |sheet|
    ensures forall i :: 0 <= i < |rows| ==> rows[i].date == sheet[i].date && rows[i].fields == sheet[i].workout
    ensures KeysOf(rows, DateOf) == Dates(WorkoutRecords(sheet))
    ensures KeysOf(rows, WeekOf) == Weeks(WorkoutRecords(sheet))
  {
    DateFormatDates(WorkoutRecords(sheet));
    DateFormatWeeks(WorkoutRecords(sheet));
    DateFormat(WorkoutRecords(sheet))
  }

  /** The weeks of the sheet are the ISO weeks of its rows' dates. */
  lemma SheetWeeks(sheet: seq<WorkoutSheetRow>)
    ensures Weeks(WorkoutRecords(sheet)) == set w | w in sheet :: IsoWeek(w.date)
  {
    var s := WorkoutRecords(sheet);
    forall x | x in sheet ensures IsoWeek(x.date) in Weeks(s) {
      var i :| 0 <= i < |sheet| && sheet[i] == x;
      assert s[i] in s;
    }
  }

  /** Column sums of a group of workout rows. */
  function SumWorkout(g: seq<WorkoutRow>): (w: Workout)
    ensures forall f :: w.Get(f) == SumBy(g, WorkoutCol(f))
  {
    Workout(SumBy(g, WorkoutCol(DurationMin)), SumBy(g, WorkoutCol(CaloriesBurned)))
  }

  /** Column means of a group of workout rows. */
  function MeanWorkout(g: seq<WorkoutRow>): (w: Workout)
    ensures forall f :: w.Get(f) == MeanBy(g, WorkoutCol(f))
  {
    Workout(MeanBy(g, WorkoutCol(DurationMin)), MeanBy(g, WorkoutCol(CaloriesBurned)))
  }

  /** A workout column of a keyed table. */
  function ValueCol<K>(f: WorkoutField): Group<K, Workout> -> real {
    (g: Group<K, Workout>) => g.value.Get(f)
  }

  lemma SumsPerKey<K(!new)>(rows: seq<WorkoutRow>, key: WorkoutRow -> K, t: seq<Group<K, Workout>>)
    requires t == Aggregate(rows, key, SumWorkout)
    ensures forall i, f :: 0 <= i < |t| ==> t[i].value.Get(f) == SumWhere(rows, key, t[i].key, WorkoutCol(f))
  {
    forall i, f | 0 <= i < |t|
      ensures t[i].value.Get(f) == SumWhere(rows, key, t[i].key, WorkoutCol(f))
    {
      FilterSum(rows, key, t[i].key, WorkoutCol(f));
    }
  }

  lemma MeansPerKey<K(!new)>(rows: seq<WorkoutRow>, key: WorkoutRow -> K, t: seq<Group<K, Workout>>)
    requires t == Aggregate(rows, key, MeanWorkout)
    ensures forall i :: 0 <= i < |t| ==> CountWhere(rows, key, t[i].key) > 0
    ensures forall i, f :: 0 <= i < |t| ==>
              t[i].value.Get(f) == SumWhere(rows, key, t[i].key, WorkoutCol(f)) / (CountWhere(rows, key, t[i].key) as real)
  {
    forall i, f | 0 <= i < |t|
      ensures CountWhere(rows, key, t[i].key) > 0
      ensures t[i].value.Get(f) == SumWhere(rows, key, t[i].key, WorkoutCol(f)) / (CountWhere(rows, key, t[i].key) as real)
    {
      assert t[i] in t;
      GroupMean(rows, key, t[i].key, WorkoutCol(f));
    }
  }

  /** `workout_daily_agg`: one row per date of the sheet, duration and
      calories burned summed over that date's workouts. */
  function WorkoutDailyAgg(sheet: seq<WorkoutSheetRow>): (t: seq<Group<Day, Workout>>)
    ensures DistinctKeys(t)
    ensures TableKeys(t) == Dates(WorkoutRecords(sheet))
    ensures forall i, f :: 0 <= i < |t| ==>
              t[i].value.Get(f) == SumWhere(WorkoutTable(sheet), DateOf, t[i].key, WorkoutCol(f))
  {
    var t := Aggregate(WorkoutTable(sheet), DateOf, SumWorkout);
    SumsPerKey(WorkoutTable(sheet), DateOf, t);
    t
  }

  /** `workout_agg`: one row per ISO week number of the sheet, duration and
      calories burned summed over that week's workouts. */
  function WorkoutAgg(sheet: seq<WorkoutSheetRow>): (t: seq<Group<int, Workout>>)
    ensures DistinctKeys(t)
    ensures TableKeys(t) == Weeks(WorkoutRecords(sheet))
    ensures forall i, f :: 0 <= i < |t| ==>
              t[i].value.Get(f) == SumWhere(WorkoutTable(sheet), WeekOf, t[i].key, WorkoutCol(f))
  {
    var t := Aggregate(WorkoutTable(sheet), WeekOf, SumWorkout);
    SumsPerKey(WorkoutTable(sheet), WeekOf, t);
    t
  }

  /** `workout_avg`: one row per ISO week number of the sheet, duration and
      calories burned averaged over that week's workouts, unrounded. */
  function WorkoutAvg(sheet: seq<WorkoutSheetRow>): (t: seq<Group<int, Workout>>)
    ensures DistinctKeys(t)
    ensures TableKeys(t) == Weeks(WorkoutRecords(sheet))
    ensures forall i :: 0 <= i < |t| ==> CountWhere(WorkoutTable(sheet), WeekOf, t[i].key) > 0
    ensures forall i, f :: 0 <= i < |t| ==>
              t[i].value.Get(f) == SumWhere(WorkoutTable(sheet), WeekOf, t[i].key, WorkoutCol(f))
                                   / (CountWhere(WorkoutTable(sheet), WeekOf, t[i].key) as real)
  {
    var t := Aggregate(WorkoutTable(sheet), WeekOf, MeanWorkout);
    MeansPerKey(WorkoutTable(sheet), WeekOf, t);
    t
  }

  /** Weekly means and weekly totals describe the same weeks, and each mean
      is that week's total divided by the week's number of workouts. */
  lemma AvgIsTotalOverCount(sheet: seq<WorkoutSheetRow>, k: int, f: WorkoutField)
    requires k in Weeks(WorkoutRecords(sheet))
    ensures Lookup(WorkoutAvg(sheet), k).Some? && Lookup(WorkoutAgg(sheet), k).Some?
    ensures CountWhere(WorkoutTable(sheet), WeekOf, k) > 0
    ensures Lookup(WorkoutAvg(sheet), k).value.Get(f)
            == Lookup(WorkoutAgg(sheet), k).value.Get(f) / (CountWhere(WorkoutTable(sheet), WeekOf, k) as real)
  {
    var a := WeekValue(WorkoutAvg(sheet), k);
    var t := WeekValue(WorkoutAgg(sheet), k);
  }

  /** The value a keyed table with distinct keys holds for a present key. */
  lemma WeekValue(t: seq<Group<int, Workout>>, k: int) returns (v: Workout)
    requires DistinctKeys(t) && k in TableKeys(t)
    ensures Lookup(t, k) == Some(v)
    ensures exists i :: 0 <= i < |t| && t[i] == Group(k, v)
  {
    var i :| 0 <= i < |t| && t[i].key == k;
    LookupRow(t, i);
    v := t[i].value;
  }

  lemma SumColumnsAreGroupSums<K>(f: WorkoutField)
    ensures forall k: K, g :: ValueCol(f)(Group(k, SumWorkout(g))) == SumBy(g, WorkoutCol(f))
  {
  }

  /** Daily workout totals keep the sheet's column totals. */
  lemma WorkoutDailyAggKeepsTotals(sheet: seq<WorkoutSheetRow>, f: WorkoutField)
    ensures SumBy(WorkoutDailyAgg(sheet), ValueCol(f)) == SumBy(WorkoutTable(sheet), WorkoutCol(f))
  {
    SumColumnsAreGroupSums<Day>(f);
    AggregateKeepsTotal(WorkoutTable(sheet), DateOf, SumWorkout, WorkoutCol(f), ValueCol(f));
  }

  /** Weekly workout totals keep the sheet's column totals. */
  lemma WorkoutAggKeepsTotals(sheet: seq<WorkoutSheetRow>, f: WorkoutField)
    ensures SumBy(WorkoutAgg(sheet), ValueCol(f)) == SumBy(WorkoutTable(sheet), WorkoutCol(f))
  {
    SumColumnsAreGroupSums<int>(f);
    AggregateKeepsTotal(WorkoutTable(sheet), WeekOf, SumWorkout, WorkoutCol(f), ValueCol(f));
  }

  /** The free-text `Day` label never reaches any workout table. */
  lemma DayLabelIgnored(a: seq<WorkoutSheetRow>, b: seq<WorkoutSheetRow>)
    requires |a| == |b|
    requires forall i :: 0 <= i < |a| ==> a[i].date == b[i].date && a[i].workout == b[i].workout
    ensures WorkoutDailyAgg(a) == WorkoutDailyAgg(b)
    ensures WorkoutAgg(a) == WorkoutAgg(b)
    ensures WorkoutAvg(a) == WorkoutAvg(b)
  {
    assert WorkoutRecords(a) == WorkoutRecords(b);
  }
}
