/** The combined weekly summary of `load_and_process` (data_processing.py):
    weekly weight means inner-joined with weekly nutrition means on the week
    number, outer-joined with weekly workout totals, cut down to four
    columns, renamed, and with every missing cell filled with 0. */
module Summary {
  import opened Tables
  import opened Records

  /** `combined`: per week, the weight and nutrition means when the week has
      both, and the workout totals when it has any. */
  type Combined = seq<Group<int, (Option<(Body, Nutrients)>, Option<Workout>)>>

  function Combine(wt: seq<Group<int, Body>>, avg: seq<Group<int, Nutrients>>, wk: seq<Group<int, Workout>>): (c: Combined)
    ensures TableKeys(c) == (TableKeys(wt) * TableKeys(avg)) + TableKeys(wk)
  {
    OuterJoin(InnerJoin(wt, avg), wk)
  }

  /** A summary row before `fillna`: the week and three cells that may be
      missing. */
  datatype SummaryCells = SummaryCells(week: int, weight: Option<real>, avgCalorieIntake: Option<real>,
                                       totalCaloriesBurned: Option<real>)

  /** A row of `summary_df`. */
  datatype SummaryRow = SummaryRow(week: int, weight: real, avgCalorieIntake: real, totalCaloriesBurned: real)

  /** `combined[summary_list]` for one row: `week`, `weight_kg`, `calories`
      and `Calories Burned`, each missing where its side of the join is. */
  function Cells(g: Group<int, (Option<(Body, Nutrients)>, Option<Workout>)>): (s: SummaryCells)
    ensures s.week == g.key
    ensures s.weight.Some? <==> g.value.0.Some?
    ensures s.avgCalorieIntake.Some? <==> g.value.0.Some?
    ensures s.totalCaloriesBurned.Some? <==> g.value.1.Some?
  {
    var left := g.value.0;
    var right := g.value.1;
    SummaryCells(g.key,
                 if left.Some? then Some(left.value.0.weightKg) else None,
                 if left.Some? then Some(left.value.1.calories) else None,
                 if right.Some? then Some(right.value.caloriesBurned) else None)
  }

  /** `fillna(0)` on one row: present cells are kept, missing ones become 0. */
  function FillNa(s: SummaryCells): (r: SummaryRow)
    ensures r.week == s.week
    ensures s.weight.Some? ==> r.weight == s.weight.value
    ensures s.weight.None? ==> r.weight == 0.0
    ensures s.avgCalorieIntake.Some? ==> r.avgCalorieIntake == s.avgCalorieIntake.value
    ensures s.avgCalorieIntake.None? ==> r.avgCalorieIntake == 0.0
    ensures s.totalCaloriesBurned.Some? ==> r.totalCaloriesBurned == s.totalCaloriesBurned.value
    ensures s.totalCaloriesBurned.None? ==> r.totalCaloriesBurned == 0.0
  {
    SummaryRow(s.week, s.weight.GetOr(0.0), s.avgCalorieIntake.GetOr(0.0), s.totalCaloriesBurned.GetOr(0.0))
  }

  /** `summary_df`: one row per row of the combined table. Its weeks are the
      weeks with both a weight and a nutrition mean, together with every week
      with workouts. */
  function WeeklySummary(wt: seq<Group<int, Body>>, avg: seq<Group<int, Nutrients>>, wk: seq<Group<int, Workout>>): (s: seq<SummaryRow>)
    ensures |s| == |Combine(wt, avg, wk)|
    ensures (set r | r in s :: r.week) == (TableKeys(wt) * TableKeys(avg)) + TableKeys(wk)
  {
    var c := Combine(wt, avg, wk);
    var s := FillAll(c);
    RowWeeks(c, s);
    s
  }

  /** `fillna(0)` over every row of the combined table. */
  function FillAll(c: Combined): (s: seq<SummaryRow>)
    ensures |s| == |c|
    ensures forall i :: 0 <= i < |c| ==> s[i] == FillNa(Cells(c[i])) && s[i].week == c[i].key
  {
    seq(|c|, i requires 0 <= i < |c| => FillNa(Cells(c[i])))
  }

  /** Rows that copy a table's keys position by position carry its key set. */
  lemma RowWeeks(c: Combined, s: seq<SummaryRow>)
    requires |s| == |c| && forall i :: 0 <= i < |c| ==> s[i].week == c[i].key
    ensures (set r | r in s :: r.week) == TableKeys(c)
  {
    forall w | w in TableKeys(c) ensures w in (set r | r in s :: r.week) {
      var i :| 0 <= i < |c| && c[i].key == w;
      assert s[i] in s;
    }
  }

  /** The reference value of each summary column for week `w`, from the three
      weekly tables. */
  function ExpectedRow(wt: seq<Group<int, Body>>, avg: seq<Group<int, Nutrients>>, wk: seq<Group<int, Workout>>, w: int): (r: SummaryRow)
    ensures r.week == w
  {
    var both := Lookup(wt, w).Some? && Lookup(avg, w).Some?;
    SummaryRow(w,
               if both then Lookup(wt, w).value.weightKg else 0.0,
               if both then Lookup(avg, w).value.calories else 0.0,
               Lookup(wk, w).GetOr(Workout(0.0, 0.0)).caloriesBurned)
  }

  /** One combined row, with distinct-keyed inputs, yields the reference row
      of its week. */
  lemma CombinedRowValues(wt: seq<Group<int, Body>>, avg: seq<Group<int, Nutrients>>, wk: seq<Group<int, Workout>>,
                          g: Group<int, (Option<(Body, Nutrients)>, Option<Workout>)>)
    requires DistinctKeys(wt) && DistinctKeys(avg) && DistinctKeys(wk)
    requires g in Combine(wt, avg, wk)
    ensures FillNa(Cells(g)) == ExpectedRow(wt, avg, wk, g.key)
  {
    var w := g.key;
    var inner := InnerJoin(wt, avg);
    if g.value.0.Some? {
      var pair := g.value.0.value;
      assert Group(w, pair) in inner;
      MemberLookup(wt, Group(w, pair.0));
      MemberLookup(avg, Group(w, pair.1));
    } else {
      assert w !in TableKeys(wt) * TableKeys(avg);
    }
    if g.value.1.Some? {
      MemberLookup(wk, Group(w, g.value.1.value));
    }
  }

  /** With one row per week in each weekly table, the summary has one row per
      week, and each row holds the week's weight mean and calorie mean when
      the week has both (0 for both otherwise) and the week's total calories
      burned when it has workouts (0 otherwise). */
  lemma SummaryRows(wt: seq<Group<int, Body>>, avg: seq<Group<int, Nutrients>>, wk: seq<Group<int, Workout>>)
    requires DistinctKeys(wt) && DistinctKeys(avg) && DistinctKeys(wk)
    ensures forall i, j :: 0 <= i < j < |WeeklySummary(wt, avg, wk)| ==>
              WeeklySummary(wt, avg, wk)[i].week != WeeklySummary(wt, avg, wk)[j].week
    ensures forall r :: r in WeeklySummary(wt, avg, wk) ==> r == ExpectedRow(wt, avg, wk, r.week)
  {
    var c := Combine(wt, avg, wk);
    var s := WeeklySummary(wt, avg, wk);
    InnerJoinDistinct(wt, avg);
    OuterJoinDistinct(InnerJoin(wt, avg), wk);
    forall i | 0 <= i < |s| ensures s[i] == FillNa(Cells(c[i])) && s[i] == ExpectedRow(wt, avg, wk, s[i].week) {
      assert c[i] in c;
      CombinedRowValues(wt, avg, wk, c[i]);
    }
  }

  /** `fillna(0)` covers every column: a week with no workouts reports 0
      calories burned, and a week lacking a weight mean or a nutrition mean
      reports 0 for both Weight and Avg Calorie Intake. */
  lemma MissingSidesAreZero(wt: seq<Group<int, Body>>, avg: seq<Group<int, Nutrients>>, wk: seq<Group<int, Workout>>)
    requires DistinctKeys(wt) && DistinctKeys(avg) && DistinctKeys(wk)
    ensures forall r :: r in WeeklySummary(wt, avg, wk) && r.week !in TableKeys(wk) ==> r.totalCaloriesBurned == 0.0
    ensures forall r :: r in WeeklySummary(wt, avg, wk) && r.week !in TableKeys(wt) * TableKeys(avg) ==>
              r.weight == 0.0 && r.avgCalorieIntake == 0.0
  {
    SummaryRows(wt, avg, wk);
  }
}
