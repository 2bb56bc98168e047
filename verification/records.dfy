/** Record types of the four sheets and of the tables derived from them,
    and `date_format`, which stamps every dated record with its calendar
    year, ISO week and weekday name. */
module Records {
  import opened Calendar
  import opened Tables

  /** `DataFrame.round(digits)` applied to one value. Floating-point rounding
      is not modelled: the pipeline is parameterised by it. */
  type Rounder = (nat, real) -> real

  // ------------------------------------------------------------ nutrition

  datatype Nutrient = Calories | Protein | Carbs | Fat | Sugar | Fiber

  /** The six nutrition columns of the food sheets. */
  datatype Nutrients = Nutrients(calories: real, protein: real, carbs: real, fat: real, sugar: real, fiber: real) {

    function Get(f: Nutrient): real {
      match f
      case Calories => calories
      case Protein => protein
      case Carbs => carbs
      case Fat => fat
      case Sugar => sugar
      case Fiber => fiber
    }

    /** Every column rounded to `digits` decimals. */
    function Round(round: Rounder, digits: nat): (r: Nutrients)
      ensures forall f :: r.Get(f) == round(digits, Get(f))
    {
      Nutrients(round(digits, calories), round(digits, protein), round(digits, carbs),
                round(digits, fat), round(digits, sugar), round(digits, fiber))
    }
  }

  // ----------------------------------------------------- body composition

  datatype BodyField = WeightKg | SkeletalMuscleKg | FatMassKg | BodyWaterKg

  /** The four body-composition columns of the weight sheet. */
  datatype Body = Body(weightKg: real, skeletalMuscleKg: real, fatMassKg: real, bodyWaterKg: real) {

    function Get(f: BodyField): real {
      match f
      case WeightKg => weightKg
      case SkeletalMuscleKg => skeletalMuscleKg
      case FatMassKg => fatMassKg
      case BodyWaterKg => bodyWaterKg
    }

    function Round(round: Rounder, digits: nat): (r: Body)
      ensures forall f :: r.Get(f) == round(digits, Get(f))
    {
      Body(round(digits, weightKg), round(digits, skeletalMuscleKg),
           round(digits, fatMassKg), round(digits, bodyWaterKg))
    }
  }

  // -------------------------------------------------------------- workouts

  datatype WorkoutField = DurationMin | CaloriesBurned

  /** `Duration (min)` and `Calories Burned` of the workout sheet. */
  datatype Workout = Workout(durationMin: real, caloriesBurned: real) {

    function Get(f: WorkoutField): real {
      match f
      case DurationMin => durationMin
      case CaloriesBurned => caloriesBurned
    }
  }

  // ---------------------------------------------------------------- dates

  /** A record with its parsed `date` column. */
  datatype Stamped<T> = Stamped(date: Day, fields: T)

  /** A record after `date_format`: `year`, `week` and `day_name` added. */
  datatype Dated<T> = Dated(date: Day, year: int, week: int, dayName: Weekday, fields: T)

  function DateOf<T>(r: Dated<T>): Day {
    r.date
  }

  function WeekOf<T>(r: Dated<T>): int {
    r.week
  }

  function DayNameOf<T>(r: Dated<T>): Weekday {
    r.dayName
  }

  /** The derived calendar columns of one record. */
  function Enrich<T>(r: Stamped<T>): (e: Dated<T>)
    ensures e.date == r.date && e.fields == r.fields
    ensures e.year >= 1 && DaysBeforeYear(e.year) <= e.date < DaysBeforeYear(e.year + 1)
    ensures 1 <= e.week <= 53 && InIsoWeek(e.date, e.week)
    ensures MondayOf(e.date) + e.dayName.Rank() == e.date
  {
    IsoWeekMeetsDefinition(r.date);
    Dated(r.date, YearOf(r.date), IsoWeek(r.date), WeekdayOf(r.date), r.fields)
  }

  /** `date_format`: every record keeps its columns and gains its calendar
      year, its ISO 8601 week number (1 to 53) and its weekday, which is its
      offset from the Monday that opens its ISO week. */
  function DateFormat<T>(rows: seq<Stamped<T>>): (out: seq<Dated<T>>)
    ensures |out| == |rows|
    ensures forall i :: 0 <= i < |out| ==> out[i].date == rows[i].date && out[i].fields == rows[i].fields
    ensures forall i :: 0 <= i < |out| ==>
              out[i].year >= 1 && DaysBeforeYear(out[i].year) <= out[i].date < DaysBeforeYear(out[i].year + 1)
    ensures forall i :: 0 <= i < |out| ==> 1 <= out[i].week <= 53 && InIsoWeek(out[i].date, out[i].week)
    ensures forall i :: 0 <= i < |out| ==> MondayOf(out[i].date) + out[i].dayName.Rank() == out[i].date
  {
    seq(|rows|, i requires 0 <= i < |rows| => Enrich(rows[i]))
  }

  /** The week and weekday columns depend on the date alone. */
  lemma DateFormatDependsOnDate<T>(a: seq<Stamped<T>>, b: seq<Stamped<T>>, i: int, j: int)
    requires 0 <= i < |a| && 0 <= j < |b| && a[i].date == b[j].date
    ensures DateFormat(a)[i].week == DateFormat(b)[j].week
    ensures DateFormat(a)[i].dayName == DateFormat(b)[j].dayName
    ensures DateFormat(a)[i].year == DateFormat(b)[j].year
  {
    var x := DateFormat(a)[i];
    var y := DateFormat(b)[j];
    var w :| IsIsoWeekOf(x.date, w, x.week);
    var v :| IsIsoWeekOf(y.date, v, y.week);
    IsoWeekUnique(x.date, w, x.week);
    IsoWeekUnique(y.date, v, y.week);
    YearOfUnique(x.date, x.year);
    YearOfUnique(y.date, y.year);
    RankInjective(x.dayName, y.dayName);
  }

  /** The week column is the computed ISO week of the date. */
  lemma DateFormatWeek<T>(rows: seq<Stamped<T>>, i: int)
    requires 0 <= i < |rows|
    ensures DateFormat(rows)[i].week == IsoWeek(rows[i].date)
  {
    var x := DateFormat(rows)[i];
    var y :| IsIsoWeekOf(x.date, y, x.week);
    IsoWeekUnique(x.date, y, x.week);
  }

  /** The dates a sheet covers. */
  ghost function Dates<T>(rows: seq<Stamped<T>>): set<Day> {
    set r | r in rows :: r.date
  }

  /** `date_format` keeps the set of dates. */
  lemma DateFormatDates<T>(rows: seq<Stamped<T>>)
    ensures KeysOf(DateFormat(rows), DateOf) == Dates(rows)
  {
    var out := DateFormat(rows);
    SameKeys(out, DateOf, rows, (r: Stamped<T>) => r.date);
  }

  /** The ISO week numbers a sheet's dates fall in. */
  ghost function Weeks<T>(rows: seq<Stamped<T>>): set<int> {
    set r | r in rows :: IsoWeek(r.date)
  }

  /** `date_format` turns the dates into exactly their ISO week numbers. */
  lemma DateFormatWeeks<T>(rows: seq<Stamped<T>>)
    ensures KeysOf(DateFormat(rows), WeekOf) == Weeks(rows)
  {
    var out := DateFormat(rows);
    var week := (r: Stamped<T>) => IsoWeek(r.date);
    forall i | 0 <= i < |out| ensures WeekOf(out[i]) == week(rows[i]) {
      DateFormatWeek(rows, i);
    }
    SameKeys(out, WeekOf, rows, week);
  }

  /** `day_name` is the weekday of the record's date. */
  lemma DateFormatDayName<T>(rows: seq<Stamped<T>>, i: int)
    requires 0 <= i < |rows|
    ensures DateFormat(rows)[i].dayName == WeekdayOf(rows[i].date)
  {
    var x := DateFormat(rows)[i];
    WeekdayCycle(x.date);
    RankInjective(x.dayName, WeekdayOf(x.date));
  }

  /** The `day_name` values of a sheet are the weekdays of its dates. */
  lemma DateFormatDayNames<T>(rows: seq<Stamped<T>>)
    ensures KeysOf(DateFormat(rows), DayNameOf) == set d | d in Dates(rows) :: WeekdayOf(d)
  {
    var out := DateFormat(rows);
    var name := (r: Stamped<T>) => WeekdayOf(r.date);
    forall i | 0 <= i < |out| ensures DayNameOf(out[i]) == name(rows[i]) {
      DateFormatDayName(rows, i);
    }
    SameKeys(out, DayNameOf, rows, name);
    DateImage(rows, WeekdayOf);
  }

  /** A sheet's weeks are the weeks of its dates. */
  lemma WeeksOfDates<T>(rows: seq<Stamped<T>>)
    ensures Weeks(rows) == set d | d in Dates(rows) :: IsoWeek(d)
  {
    DateImage(rows, IsoWeek);
  }

  /** Any column computed from the date alone takes the same values over the
      rows as over their set of dates. */
  lemma DateImage<T, K>(rows: seq<Stamped<T>>, h: Day -> K)
    ensures (set r | r in rows :: h(r.date)) == set d | d in Dates(rows) :: h(d)
  {
    var ds := Dates(rows);
    var before := set r | r in rows :: h(r.date);
    var after := set d | d in ds :: h(d);
    forall k | k in after ensures k in before {
      var d :| d in ds && h(d) == k;
      var r :| r in rows && r.date == d;
    }
  }

  /** Lift a column of the record to a column of its dated form. */
  function NutrientCol(f: Nutrient): Dated<Nutrients> -> real {
    (r: Dated<Nutrients>) => r.fields.Get(f)
  }

  function BodyCol(f: BodyField): Dated<Body> -> real {
    (r: Dated<Body>) => r.fields.Get(f)
  }

  function WorkoutCol(f: WorkoutField): Dated<Workout> -> real {
    (r: Dated<Workout>) => r.fields.Get(f)
  }
}
