/** The nutrition side of the pipeline (data_processing.py): reconciling the
    meal sheet with the day sheet (`start_format`), daily and weekly totals
    (`daily_agg`, `week_agg`), weekly and weekday means (`week_avg` and the
    weekday block of `load_and_process`), and the Monday-first ordering of
    the weekday means. */
module Food {
  import opened Calendar
  import opened Tables
  import opened Records

  /** A row of the unified food table after `date_format`. */
  type FoodRow = Dated<Nutrients>

  /** Column sums of a group of food rows. */
  function SumNutrients(g: seq<FoodRow>): (n: Nutrients)
    ensures forall f :: n.Get(f) == SumBy(g, NutrientCol(f))
  {
    Nutrients(SumBy(g, NutrientCol(Calories)), SumBy(g, NutrientCol(Protein)), SumBy(g, NutrientCol(Carbs)),
              SumBy(g, NutrientCol(Fat)), SumBy(g, NutrientCol(Sugar)), SumBy(g, NutrientCol(Fiber)))
  }

  /** Column means of a group of food rows. */
  function MeanNutrients(g: seq<FoodRow>): (n: Nutrients)
    ensures forall f :: n.Get(f) == MeanBy(g, NutrientCol(f))
  {
    Nutrients(MeanBy(g, NutrientCol(Calories)), MeanBy(g, NutrientCol(Protein)), MeanBy(g, NutrientCol(Carbs)),
              MeanBy(g, NutrientCol(Fat)), MeanBy(g, NutrientCol(Sugar)), MeanBy(g, NutrientCol(Fiber)))
  }

  /** `.round(digits)` over a keyed nutrition table. */
  function RoundTable<K>(t: seq<Group<K, Nutrients>>, round: Rounder, digits: nat): (r: seq<Group<K, Nutrients>>)
    ensures |r| == |t|
    ensures forall i :: 0 <= i < |r| ==> r[i].key == t[i].key && r[i].value == t[i].value.Round(round, digits)
  {
    MapValues(t, (v: Nutrients) => v.Round(round, digits))
  }

  /** A nutrition column of a keyed table. */
  function ValueCol<K>(f: Nutrient): Group<K, Nutrients> -> real {
    (g: Group<K, Nutrients>) => g.value.Get(f)
  }

  /** Summing groups gives, per key, the sum over the matching input rows. */
  lemma SumsPerKey<K(!new)>(rows: seq<FoodRow>, key: FoodRow -> K, t: seq<Group<K, Nutrients>>)
    requires t == Aggregate(rows, key, SumNutrients)
    ensures forall i, f :: 0 <= i < |t| ==> t[i].value.Get(f) == SumWhere(rows, key, t[i].key, NutrientCol(f))
  {
    forall i, f | 0 <= i < |t|
      ensures t[i].value.Get(f) == SumWhere(rows, key, t[i].key, NutrientCol(f))
    {
      FilterSum(rows, key, t[i].key, NutrientCol(f));
    }
  }

  /** Averaging groups: per key present, the sum over the matching input
      rows divided by their (positive) number, before rounding. */
  function MeansBy<K(!new,==)>(rows: seq<FoodRow>, key: FoodRow -> K): (t: seq<Group<K, Nutrients>>)
    ensures DistinctKeys(t)
    ensures TableKeys(t) == KeysOf(rows, key)
    ensures forall i :: 0 <= i < |t| ==> CountWhere(rows, key, t[i].key) > 0
    ensures forall i, f :: 0 <= i < |t| ==>
              t[i].value.Get(f) == SumWhere(rows, key, t[i].key, NutrientCol(f)) / (CountWhere(rows, key, t[i].key) as real)
  {
    var t := Aggregate(rows, key, MeanNutrients);
    forall i, f | 0 <= i < |t|
      ensures CountWhere(rows, key, t[i].key) > 0
      ensures t[i].value.Get(f) == SumWhere(rows, key, t[i].key, NutrientCol(f)) / (CountWhere(rows, key, t[i].key) as real)
    {
      assert t[i] in t;
      GroupMean(rows, key, t[i].key, NutrientCol(f));
    }
    t
  }

  // -------------------------------------------------------------- daily_agg

  /** `daily_agg`: one row per date present, each nutrient summed over the
      rows of that date. */
  function DailyAgg(rows: seq<FoodRow>): (t: seq<Group<Day, Nutrients>>)
    ensures DistinctKeys(t)
    ensures TableKeys(t) == KeysOf(rows, DateOf)
    ensures forall i, f :: 0 <= i < |t| ==> t[i].value.Get(f) == SumWhere(rows, DateOf, t[i].key, NutrientCol(f))
  {
    var t := Aggregate(rows, DateOf, SumNutrients);
    SumsPerKey(rows, DateOf, t);
    t
  }

  /** The daily total of a date present in the rows, by key. */
  lemma DailyAggAt(rows: seq<FoodRow>, d: Day, f: Nutrient)
    requires d in KeysOf(rows, DateOf)
    ensures Lookup(DailyAgg(rows), d).Some?
    ensures Lookup(DailyAgg(rows), d).value.Get(f) == SumWhere(rows, DateOf, d, NutrientCol(f))
  {
    var t := DailyAgg(rows);
    var i :| 0 <= i < |t| && t[i].key == d;
    LookupRow(t, i);
  }

  // --------------------------------------------------------------- week_agg

  /** `week_agg`: one row per ISO week number present (weeks of different
      years share a row), each nutrient summed over the rows of that week. */
  function WeekAgg(rows: seq<FoodRow>): (t: seq<Group<int, Nutrients>>)
    ensures DistinctKeys(t)
    ensures TableKeys(t) == KeysOf(rows, WeekOf)
    ensures forall i, f :: 0 <= i < |t| ==> t[i].value.Get(f) == SumWhere(rows, WeekOf, t[i].key, NutrientCol(f))
  {
    var t := Aggregate(rows, WeekOf, SumNutrients);
    SumsPerKey(rows, WeekOf, t);
    t
  }

  lemma SumColumnsAreGroupSums<K>(f: Nutrient)
    ensures forall k: K, g :: ValueCol(f)(Group(k, SumNutrients(g))) == SumBy(g, NutrientCol(f))
  {
  }

  /** Daily totals keep every column total of the food table. */
  lemma DailyAggKeepsTotals(rows: seq<FoodRow>, f: Nutrient)
    ensures SumBy(DailyAgg(rows), ValueCol(f)) == SumBy(rows, NutrientCol(f))
  {
    SumColumnsAreGroupSums<Day>(f);
    AggregateKeepsTotal(rows, DateOf, SumNutrients, NutrientCol(f), ValueCol(f));
  }

  /** Weekly totals keep every column total of the food table. */
  lemma WeekAggKeepsTotals(rows: seq<FoodRow>, f: Nutrient)
    ensures SumBy(WeekAgg(rows), ValueCol(f)) == SumBy(rows, NutrientCol(f))
  {
    SumColumnsAreGroupSums<int>(f);
    AggregateKeepsTotal(rows, WeekOf, SumNutrients, NutrientCol(f), ValueCol(f));
  }

  /** The weekly total of a week present in the rows, by key. */
  lemma WeekAggAt(rows: seq<FoodRow>, w: int, f: Nutrient)
    requires w in KeysOf(rows, WeekOf)
    ensures Lookup(WeekAgg(rows), w).Some?
    ensures Lookup(WeekAgg(rows), w).value.Get(f) == SumWhere(rows, WeekOf, w, NutrientCol(f))
  {
    var t := WeekAgg(rows);
    var i :| 0 <= i < |t| && t[i].key == w;
    LookupRow(t, i);
  }

  // --------------------------------------------------------------- week_avg

  /** Means of groups, rounded: per key present, the sum over the matching
      input rows divided by their number, then rounded to 2 decimals. */
  function RoundedMeansBy<K(!new,==)>(rows: seq<FoodRow>, key: FoodRow -> K, round: Rounder): (t: seq<Group<K, Nutrients>>)
    ensures DistinctKeys(t)
    ensures TableKeys(t) == KeysOf(rows, key)
    ensures forall i :: 0 <= i < |t| ==> CountWhere(rows, key, t[i].key) > 0
    ensures forall i, f :: 0 <= i < |t| ==>
              t[i].value.Get(f) == round(2, SumWhere(rows, key, t[i].key, NutrientCol(f))
                                            / (CountWhere(rows, key, t[i].key) as real))
  {
    var means := MeansBy(rows, key);
    MapValuesKeys(means, (v: Nutrients) => v.Round(round, 2));
    RoundTable(means, round, 2)
  }

  /** `week_avg`: one row per ISO week number present, each nutrient the
      mean over the rows of that week, rounded to 2 decimals. */
  function WeekAvg(rows: seq<FoodRow>, round: Rounder): (t: seq<Group<int, Nutrients>>)
    ensures DistinctKeys(t)
    ensures TableKeys(t) == KeysOf(rows, WeekOf)
    ensures forall i :: 0 <= i < |t| ==> CountWhere(rows, WeekOf, t[i].key) > 0
    ensures forall i, f :: 0 <= i < |t| ==>
              t[i].value.Get(f) == round(2, SumWhere(rows, WeekOf, t[i].key, NutrientCol(f))
                                            / (CountWhere(rows, WeekOf, t[i].key) as real))
  {
    RoundedMeansBy(rows, WeekOf, round)
  }

  /** The weekly mean of a week present in the rows, by key. */
  lemma WeekAvgAt(rows: seq<FoodRow>, round: Rounder, w: int, f: Nutrient)
    requires w in KeysOf(rows, WeekOf)
    ensures Lookup(WeekAvg(rows, round), w).Some?
    ensures Lookup(WeekAvg(rows, round), w).value.Get(f)
            == round(2, SumWhere(rows, WeekOf, w, NutrientCol(f)) / (CountWhere(rows, WeekOf, w) as real))
  {
    var t := WeekAvg(rows, round);
    var i :| 0 <= i < |t| && t[i].key == w;
    LookupRow(t, i);
  }

  /** A week holding a single food row averages to that row, rounded. */
  lemma WeekAvgOfSingleRow(rows: seq<FoodRow>, round: Rounder, r: FoodRow)
    requires r in rows && CountWhere(rows, WeekOf, r.week) == 1
    ensures Lookup(WeekAvg(rows, round), r.week) == Some(r.fields.Round(round, 2))
  {
    assert r.week in KeysOf(rows, WeekOf);
    SingleRowSum(rows, WeekOf, r);
    var v := Lookup(WeekAvg(rows, round), r.week);
    WeekAvgAt(rows, round, r.week, Calories);
    forall f ensures v.value.Get(f) == r.fields.Round(round, 2).Get(f) {
      WeekAvgAt(rows, round, r.week, f);
      var s := SumWhere(rows, WeekOf, r.week, NutrientCol(f));
      var c := CountWhere(rows, WeekOf, r.week) as real;
      assert s == r.fields.Get(f);
      assert c == 1.0;
      assert s / c == s;
      assert v.value.Get(f) == round(2, s / c);
    }
    NutrientsEqual(v.value, r.fields.Round(round, 2));
  }

  /** Two nutrient records with the same six columns are equal. */
  lemma NutrientsEqual(a: Nutrients, b: Nutrients)
    requires forall f :: a.Get(f) == b.Get(f)
    ensures a == b
  {
    assert a.Get(Calories) == b.Get(Calories) && a.Get(Protein) == b.Get(Protein);
    assert a.Get(Carbs) == b.Get(Carbs) && a.Get(Fat) == b.Get(Fat);
    assert a.Get(Sugar) == b.Get(Sugar) && a.Get(Fiber) == b.Get(Fiber);
  }

  /** When `r` is the only row with its key, summing that key gives `r`. */
  lemma {:induction false} SingleRowSum<K(!new)>(rows: seq<FoodRow>, key: FoodRow -> K, r: FoodRow)
    requires r in rows && CountWhere(rows, key, key(r)) == 1
    ensures forall f :: SumWhere(rows, key, key(r), NutrientCol(f)) == r.fields.Get(f)
  {
    if rows[0] == r {
      forall f ensures SumWhere(rows[1..], key, key(r), NutrientCol(f)) == 0.0 {
        NoMatchSum(rows[1..], key, key(r), NutrientCol(f));
      }
    } else {
      assert r in rows[1..];
      assert key(r) in KeysOf(rows[1..], key);
      SingleRowSum(rows[1..], key, r);
    }
  }

  lemma {:induction false} NoMatchSum<R(!new), K(!new)>(rows: seq<R>, key: R -> K, k: K, val: R -> real)
    requires CountWhere(rows, key, k) == 0
    ensures SumWhere(rows, key, k, val) == 0.0
  {
    if rows != [] {
      NoMatchSum(rows[1..], key, k, val);
    }
  }

  // ------------------------------------------------------ weekday ordering

  /** The rows of `t` whose weekday comes at position `i` or later of the
      Monday-first cycle, grouped by weekday in cycle order. */
  function OrderFrom<V(!new)>(t: seq<Group<Weekday, V>>, i: nat): (r: seq<Group<Weekday, V>>)
    requires i <= 7
    ensures forall g :: g in r ==> g.key.Rank() >= i
    ensures forall a, b :: 0 <= a < b < |r| ==> r[a].key.Rank() <= r[b].key.Rank()
    decreases 7 - i
  {
    if i == 7 then []
    else
      var bucket := Filter(t, KeyOf, WeekdayAt(i));
      var rest := OrderFrom(t, i + 1);
      assert forall g :: g in bucket ==> g.key.Rank() == i;
      bucket + rest
  }

  /** Each row of `t` is kept as often as it occurs, in the bucket of its
      weekday. */
  lemma {:induction false} OrderFromMultiset<V(!new)>(t: seq<Group<Weekday, V>>, i: nat)
    requires i <= 7
    ensures forall g :: multiset(OrderFrom(t, i))[g] == if g.key.Rank() >= i then multiset(t)[g] else 0
    decreases 7 - i
  {
    if i < 7 {
      OrderFromMultiset(t, i + 1);
      FilterMultiset(t, KeyOf, WeekdayAt(i));
      forall g: Group<Weekday, V> ensures g.key.Rank() == i <==> g.key == WeekdayAt(i) {
        if g.key.Rank() == i {
          RankInjective(g.key, WeekdayAt(i));
        }
      }
    }
  }

  lemma OrderFromPermutes<V(!new)>(t: seq<Group<Weekday, V>>)
    ensures multiset(OrderFrom(t, 0)) == multiset(t)
  {
    OrderFromMultiset(t, 0);
    assert forall g :: multiset(OrderFrom(t, 0))[g] == multiset(t)[g];
  }

  /** With distinct weekdays in `t`, each bucket holds at most one row, so
      the ranks strictly increase. */
  lemma {:induction false} OrderFromStrict<V(!new)>(t: seq<Group<Weekday, V>>, i: nat)
    requires i <= 7 && DistinctKeys(t)
    ensures forall a, b :: 0 <= a < b < |OrderFrom(t, i)| ==>
              OrderFrom(t, i)[a].key.Rank() < OrderFrom(t, i)[b].key.Rank()
    decreases 7 - i
  {
    if i < 7 {
      OrderFromStrict(t, i + 1);
      FilterPositions(t, WeekdayAt(i));
      var bucket := Filter(t, KeyOf, WeekdayAt(i));
      var rest := OrderFrom(t, i + 1);
      assert OrderFrom(t, i) == bucket + rest;
      assert forall g :: g in bucket ==> g.key.Rank() == i;
    }
  }

  /** In a distinct-keyed table a key's group has at most one row. */
  lemma {:induction false} FilterPositions<V(!new)>(t: seq<Group<Weekday, V>>, k: Weekday)
    requires DistinctKeys(t)
    ensures |Filter(t, KeyOf, k)| <= 1
  {
    if t != [] {
      FilterPositions(t[1..], k);
      if t[0].key == k {
        forall g | g in t[1..] ensures g.key != k {
          var j :| 0 <= j < |t[1..]| && t[1..][j] == g;
          assert t[j + 1] == g;
        }
        assert k !in KeysOf(t[1..], KeyOf);
        FilterCount(t[1..], KeyOf, k);
      }
    }
  }

  /** A group holds exactly the input's copies of its rows. */
  lemma {:induction false} FilterMultiset<R(!new), K(!new)>(rows: seq<R>, key: R -> K, k: K)
    ensures forall r :: multiset(Filter(rows, key, k))[r] == if key(r) == k then multiset(rows)[r] else 0
  {
    if rows != [] {
      FilterMultiset(rows[1..], key, k);
      assert rows == [rows[0]] + rows[1..];
    }
  }

  /** The weekday reorder of `load_and_process`: rows sorted into the cycle
      Monday to Sunday; weekdays absent from the input stay absent. */
  function OrderByWeekday<V(!new)>(t: seq<Group<Weekday, V>>): (r: seq<Group<Weekday, V>>)
    ensures multiset(r) == multiset(t)
    ensures forall a, b :: 0 <= a < b < |r| ==> r[a].key.Rank() <= r[b].key.Rank()
    ensures DistinctKeys(t) ==> forall a, b :: 0 <= a < b < |r| ==> r[a].key.Rank() < r[b].key.Rank()
  {
    OrderFromPermutes(t);
    if DistinctKeys(t) then OrderFromStrict(t, 0); OrderFrom(t, 0) else OrderFrom(t, 0)
  }

  /** Strictly increasing weekday ranks: the weekday names form an
      order-preserving subsequence of Monday..Sunday, so at most seven rows. */
  lemma {:induction false} StrictRanksAtMostSeven<V>(r: seq<Group<Weekday, V>>, lo: nat)
    requires lo <= 7
    requires forall g :: g in r ==> g.key.Rank() >= lo
    requires forall a, b :: 0 <= a < b < |r| ==> r[a].key.Rank() < r[b].key.Rank()
    ensures |r| + lo <= 7
  {
    if r != [] {
      assert r[0] in r;
      forall g | g in r[1..] ensures g.key.Rank() >= r[0].key.Rank() + 1 {
        var j :| 0 <= j < |r[1..]| && r[1..][j] == g;
        assert r[j + 1] == g;
      }
      StrictRanksAtMostSeven(r[1..], r[0].key.Rank() + 1);
    }
  }

  /** The weekday block of `load_and_process`: mean of every nutrient per
      weekday name, rounded to 2 decimals, ordered Monday first. */
  function WeekdayAvg(rows: seq<FoodRow>, round: Rounder): (t: seq<Group<Weekday, Nutrients>>)
    ensures TableKeys(t) == KeysOf(rows, DayNameOf)
    ensures DistinctKeys(t) && |t| <= 7
    ensures forall a, b :: 0 <= a < b < |t| ==> t[a].key.Rank() < t[b].key.Rank()
    ensures forall i :: 0 <= i < |t| ==> CountWhere(rows, DayNameOf, t[i].key) > 0
    ensures forall i, f :: 0 <= i < |t| ==>
              t[i].value.Get(f) == round(2, SumWhere(rows, DayNameOf, t[i].key, NutrientCol(f))
                                            / (CountWhere(rows, DayNameOf, t[i].key) as real))
  {
    var rounded := RoundedMeansBy(rows, DayNameOf, round);
    var t := OrderByWeekday(rounded);
    ReorderedMeans(rows, round, rounded, t);
    StrictRanksAtMostSeven(t, 0);
    t
  }

  /** Reordering the rounded weekday means keeps, row by row, each weekday's
      rounded mean. */
  lemma ReorderedMeans(rows: seq<FoodRow>, round: Rounder, rounded: seq<Group<Weekday, Nutrients>>,
                       t: seq<Group<Weekday, Nutrients>>)
    requires multiset(t) == multiset(rounded)
    requires TableKeys(rounded) == KeysOf(rows, DayNameOf)
    requires forall i :: 0 <= i < |rounded| ==> CountWhere(rows, DayNameOf, rounded[i].key) > 0
    requires forall i, f :: 0 <= i < |rounded| ==>
               rounded[i].value.Get(f) == round(2, SumWhere(rows, DayNameOf, rounded[i].key, NutrientCol(f))
                                                  / (CountWhere(rows, DayNameOf, rounded[i].key) as real))
    ensures TableKeys(t) == KeysOf(rows, DayNameOf)
    ensures forall i :: 0 <= i < |t| ==> CountWhere(rows, DayNameOf, t[i].key) > 0
    ensures forall i, f :: 0 <= i < |t| ==>
              t[i].value.Get(f) == round(2, SumWhere(rows, DayNameOf, t[i].key, NutrientCol(f))
                                            / (CountWhere(rows, DayNameOf, t[i].key) as real))
  {
    ReorderKeepsRows(rounded, t);
    forall i | 0 <= i < |t|
      ensures CountWhere(rows, DayNameOf, t[i].key) > 0
      ensures forall f :: t[i].value.Get(f) == round(2, SumWhere(rows, DayNameOf, t[i].key, NutrientCol(f))
                                                        / (CountWhere(rows, DayNameOf, t[i].key) as real))
    {
      assert t[i] in rounded;
      var j :| 0 <= j < |rounded| && rounded[j] == t[i];
    }
  }

  /** A reordering keeps the rows, hence the keys and the per-key values. */
  lemma ReorderKeepsRows<V(!new)>(u: seq<Group<Weekday, V>>, t: seq<Group<Weekday, V>>)
    requires multiset(t) == multiset(u)
    ensures forall g :: g in t <==> g in u
    ensures TableKeys(t) == TableKeys(u)
    ensures forall i :: 0 <= i < |t| ==> exists j :: 0 <= j < |u| && u[j] == t[i]
  {
    forall g ensures g in t <==> g in u {
      assert g in t <==> multiset(t)[g] > 0;
      assert g in u <==> multiset(u)[g] > 0;
    }
    forall i | 0 <= i < |t| ensures exists j :: 0 <= j < |u| && u[j] == t[i] {
      assert t[i] in u;
    }
  }

  // ------------------------------------------------------------ start_format

  /** A row of the day sheet: every cell may be missing. `time`, `entry_id`
      and `item` stand for the columns `start_format` drops when present; a
      sheet without them has them missing on every row. */
  datatype DaySheetRow = DaySheetRow(
    date: Option<Day>,
    calories: Option<real>, protein: Option<real>, carbs: Option<real>,
    fat: Option<real>, sugar: Option<real>, fiber: Option<real>,
    time: Option<string>, entryId: Option<string>, item: Option<string>)

  /** No missing value once the dropped columns are gone. */
  predicate Complete(r: DaySheetRow) {
    && r.date.Some? && r.calories.Some? && r.protein.Some? && r.carbs.Some?
    && r.fat.Some? && r.sugar.Some? && r.fiber.Some?
  }

  function ToFoodRecord(r: DaySheetRow): (s: Stamped<Nutrients>)
    requires Complete(r)
    ensures s.date == r.date.value && s.fields.calories == r.calories.value
  {
    Stamped(r.date.value, Nutrients(r.calories.value, r.protein.value, r.carbs.value,
                                    r.fat.value, r.sugar.value, r.fiber.value))
  }

  /** Number of complete day-sheet rows dated `d`. */
  function CompleteOn(rows: seq<DaySheetRow>, d: Day): nat {
    if rows == [] then 0
    else (if Complete(rows[0]) && rows[0].date == Some(d) then 1 else 0) + CompleteOn(rows[1..], d)
  }

  /** Number of complete day-sheet rows. */
  function CompleteCount(rows: seq<DaySheetRow>): nat {
    if rows == [] then 0 else (if Complete(rows[0]) then 1 else 0) + CompleteCount(rows[1..])
  }

  /** Number of complete day-sheet rows whose record is `x`. */
  function CompleteAs(rows: seq<DaySheetRow>, x: Stamped<Nutrients>): nat {
    if rows == [] then 0
    else (if Complete(rows[0]) && ToFoodRecord(rows[0]) == x then 1 else 0) + CompleteAs(rows[1..], x)
  }

  /** The second-sheet cleaning of `start_format`: drop `time`, `entry_id`
      and `item`, then drop every row with a missing value. */
  function CleanDaySheet(rows: seq<DaySheetRow>): (out: seq<Stamped<Nutrients>>)
    ensures |out| == CompleteCount(rows)
    ensures forall x :: multiset(out)[x] == CompleteAs(rows, x)
    ensures forall r :: r in rows && Complete(r) ==> ToFoodRecord(r) in out
    ensures forall x :: x in out ==> exists r :: r in rows && Complete(r) && ToFoodRecord(r) == x
    ensures forall d :: CountStamped(out, d) == CompleteOn(rows, d)
  {
    if rows == [] then []
    else
      var rest := CleanDaySheet(rows[1..]);
      var head := if Complete(rows[0]) then [ToFoodRecord(rows[0])] else [];
      CountStampedConcat(head, rest);
      assert forall x :: x in rows <==> x == rows[0] || x in rows[1..] by {
        assert rows == [rows[0]] + rows[1..];
      }
      CleanStepMultiset(rows, head, rest);
      head + rest
  }

  lemma CleanStepMultiset(rows: seq<DaySheetRow>, head: seq<Stamped<Nutrients>>, rest: seq<Stamped<Nutrients>>)
    requires rows != [] && head == (if Complete(rows[0]) then [ToFoodRecord(rows[0])] else [])
    requires forall x :: multiset(rest)[x] == CompleteAs(rows[1..], x)
    ensures forall x :: multiset(head + rest)[x] == CompleteAs(rows, x)
  {
    forall x ensures multiset(head + rest)[x] == CompleteAs(rows, x) {
      assert multiset(head + rest)[x] == multiset(head)[x] + multiset(rest)[x];
    }
  }

  /** Cleaning works row by row: the cleaned concatenation is the
      concatenation of the cleaned parts, so surviving rows keep their order. */
  lemma {:induction false} CleanDaySheetConcat(a: seq<DaySheetRow>, b: seq<DaySheetRow>)
    ensures CleanDaySheet(a + b) == CleanDaySheet(a) + CleanDaySheet(b)
  {
    if a == [] {
      assert a + b == b;
    } else {
      var ab := a + b;
      var h := if Complete(a[0]) then [ToFoodRecord(a[0])] else [];
      assert ab[0] == a[0] && ab[1..] == a[1..] + b;
      calc {
        CleanDaySheet(ab);
        h + CleanDaySheet(a[1..] + b);
        { CleanDaySheetConcat(a[1..], b); }
        h + (CleanDaySheet(a[1..]) + CleanDaySheet(b));
        (h + CleanDaySheet(a[1..])) + CleanDaySheet(b);
      }
    }
  }

  /** A single row survives exactly when it is complete, as its own record. */
  lemma CleanSingleRow(r: DaySheetRow)
    ensures Complete(r) ==> CleanDaySheet([r]) == [ToFoodRecord(r)]
    ensures !Complete(r) ==> CleanDaySheet([r]) == []
  {
    var out := CleanDaySheet([r]);
    if Complete(r) {
      assert multiset(out)[ToFoodRecord(r)] == 1;
      assert ToFoodRecord(r) in out;
    }
  }

  /** Number of records dated `d`. */
  function CountStamped<T>(rows: seq<Stamped<T>>, d: Day): nat {
    if rows == [] then 0 else (if rows[0].date == d then 1 else 0) + CountStamped(rows[1..], d)
  }

  lemma {:induction false} CountStampedConcat<T>(a: seq<Stamped<T>>, b: seq<Stamped<T>>)
    ensures forall d :: CountStamped(a + b, d) == CountStamped(a, d) + CountStamped(b, d)
  {
    if a != [] {
      CountStampedConcat(a[1..], b);
      assert (a + b)[1..] == a[1..] + b;
    } else {
      assert a + b == b;
    }
  }

  /** The cleaning reads only the date and nutrient cells: the dropped
      columns never decide whether a row survives. */
  lemma {:induction false} CleanIgnoresDroppedColumns(a: seq<DaySheetRow>, b: seq<DaySheetRow>)
    requires |a| == |b|
    requires forall i :: 0 <= i < |a| ==> a[i].(time := None, entryId := None, item := None)
                                          == b[i].(time := None, entryId := None, item := None)
    ensures CleanDaySheet(a) == CleanDaySheet(b)
  {
    if a != [] {
      CleanIgnoresDroppedColumns(a[1..], b[1..]);
      assert a[0].(time := None, entryId := None, item := None) == b[0].(time := None, entryId := None, item := None);
    }
  }

  /** Daily sums of the meal sheet, as records. */
  function MealDailySums(meal: seq<Stamped<Nutrients>>): (out: seq<Stamped<Nutrients>>)
    ensures forall d :: CountStamped(out, d) == if d in Dates(meal) then 1 else 0
    ensures |out| == |Dates(meal)|
    ensures forall i :: 0 <= i < |out| ==> out[i].date in Dates(meal)
    ensures forall i, f :: 0 <= i < |out| ==>
              out[i].fields.Get(f) == SumWhere(DateFormat(meal), DateOf, out[i].date, NutrientCol(f))
  {
    var t := DailyAgg(DateFormat(meal));
    DateFormatDates(meal);
    var out := AsRecords(t);
    StampedOfDistinct(t, out);
    out
  }

  /** A table keyed by date read back as dated records, row by row. */
  function AsRecords<T>(t: seq<Group<Day, T>>): (out: seq<Stamped<T>>)
    ensures |out| == |t|
    ensures forall i :: 0 <= i < |t| ==> out[i].date == t[i].key && out[i].fields == t[i].value
  {
    seq(|t|, i requires 0 <= i < |t| => Stamped(t[i].key, t[i].value))
  }

  lemma {:induction false} StampedOfDistinct<T(!new)>(t: seq<Group<Day, T>>, out: seq<Stamped<T>>)
    requires DistinctKeys(t) && |out| == |t|
    requires forall i :: 0 <= i < |t| ==> out[i].date == t[i].key
    ensures forall d :: CountStamped(out, d) == if d in TableKeys(t) then 1 else 0
    ensures |out| == |TableKeys(t)|
  {
    if t != [] {
      var t' := t[1..];
      HeadKeyFresh(t);
      StampedOfDistinct(t', out[1..]);
      assert TableKeys(t) == {t[0].key} + TableKeys(t') by {
        assert t == [t[0]] + t';
      }
    }
  }

  /** `start_format`: the meal sheet's per-date sums followed by the
      complete rows of the day sheet, with no deduplication. */
  function StartFormat(meal: seq<Stamped<Nutrients>>, day: seq<DaySheetRow>): (out: seq<Stamped<Nutrients>>)
    ensures |out| == |Dates(meal)| + CompleteCount(day)
    ensures forall d :: CountStamped(out, d) == (if d in Dates(meal) then 1 else 0) + CompleteOn(day, d)
    ensures out[|Dates(meal)|..] == CleanDaySheet(day)
    ensures forall i :: 0 <= i < |Dates(meal)| ==> out[i].date in Dates(meal)
    ensures forall i, f :: 0 <= i < |Dates(meal)| ==>
              out[i].fields.Get(f) == SumWhere(DateFormat(meal), DateOf, out[i].date, NutrientCol(f))
  {
    var sums := MealDailySums(meal);
    CountStampedConcat(sums, CleanDaySheet(day));
    assert (sums + CleanDaySheet(day))[|sums|..] == CleanDaySheet(day);
    sums + CleanDaySheet(day)
  }

  /** The dates of the complete rows of the day sheet. */
  ghost function CompleteDates(day: seq<DaySheetRow>): set<Day> {
    set r | r in day && Complete(r) :: r.date.value
  }

  lemma {:induction false} CountStampedDates<T>(rows: seq<Stamped<T>>, d: Day)
    ensures CountStamped(rows, d) > 0 <==> d in Dates(rows)
  {
    if rows != [] {
      CountStampedDates(rows[1..], d);
      assert rows == [rows[0]] + rows[1..];
    }
  }

  lemma {:induction false} CompleteOnDates(day: seq<DaySheetRow>, d: Day)
    ensures CompleteOn(day, d) > 0 <==> d in CompleteDates(day)
  {
    if day != [] {
      CompleteOnDates(day[1..], d);
      assert day == [day[0]] + day[1..];
      if Complete(day[0]) && day[0].date == Some(d) {
        assert d in CompleteDates(day);
      }
    }
  }

  /** The unified table covers the meal sheet's dates and the dates of the
      complete day-sheet rows, and no other. */
  lemma StartFormatDates(meal: seq<Stamped<Nutrients>>, day: seq<DaySheetRow>)
    ensures Dates(StartFormat(meal, day)) == Dates(meal) + CompleteDates(day)
  {
    forall d ensures d in Dates(StartFormat(meal, day)) <==> d in Dates(meal) + CompleteDates(day) {
      StartFormatDate(meal, day, d);
    }
  }

  lemma StartFormatDate(meal: seq<Stamped<Nutrients>>, day: seq<DaySheetRow>, d: Day)
    ensures d in Dates(StartFormat(meal, day)) <==> d in Dates(meal) || d in CompleteDates(day)
  {
    CountStampedDates(StartFormat(meal, day), d);
    CompleteOnDates(day, d);
  }

  /** A date present in both sheets yields two rows of the unified table. */
  lemma DateInBothSheetsTwice(meal: seq<Stamped<Nutrients>>, day: seq<DaySheetRow>, m: Stamped<Nutrients>, r: DaySheetRow)
    requires m in meal && r in day && Complete(r) && r.date == Some(m.date)
    ensures CountStamped(StartFormat(meal, day), m.date) >= 2
  {
    CompleteOnPositive(day, r);
  }

  lemma {:induction false} CompleteOnPositive(day: seq<DaySheetRow>, r: DaySheetRow)
    requires r in day && Complete(r)
    ensures CompleteOn(day, r.date.value) >= 1
  {
    if day[0] != r {
      CompleteOnPositive(day[1..], r);
    }
  }
}
