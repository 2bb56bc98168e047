/** The body-composition block of `load_and_process` (data_processing.py):
    the `source` column is dropped, the records are dated, and every
    body-composition column is averaged per ISO week number and rounded to
    1 decimal. */
module Weight {
  import opened Calendar
  import opened Tables
  import opened Records

  /** A row of the weight sheet. `source` is a provenance tag; a sheet
      without that column has it missing on every row. */
  datatype WeightSheetRow = WeightSheetRow(date: Day, body: Body, source: Option<string>)

  type WeightRow = Dated<Body>

  /** The weight sheet without `source`, after `date_format` (`wt_df`). */
  function WeightTable(sheet: seq<WeightSheetRow>): (rows: seq<WeightRow>)
    ensures |rows| == |sheet|
    ensures forall i :: 0 <= i < |rows| ==> rows[i].date == sheet[i].date && rows[i].fields == sheet[i].body
    ensures KeysOf(rows, WeekOf) == Weeks(BodyRecords(sheet))
  {
    DateFormatWeeks(BodyRecords(sheet));
    DateFormat(BodyRecords(sheet))
  }

  /** Dropping `source`: only the date and the measurements remain. */
  function BodyRecords(sheet: seq<WeightSheetRow>): (s: seq<Stamped<Body>>)
    ensures |s| == |sheet|
    ensures forall i :: 0 <= i < |s| ==> s[i].date == sheet[i].date && s[i].fields == sheet[i].body
  {
    seq(|sheet|, i requires 0 <= i < |sheet| => Stamped(sheet[i].date, sheet[i].body))
  }

  /** The weeks of the sheet are the ISO weeks of its rows' dates. */
  lemma SheetWeeks(sheet: seq<WeightSheetRow>)
    ensures Weeks(BodyRecords(sheet)) == set m | m in sheet :: IsoWeek(m.date)
  {
    var s := BodyRecords(sheet);
    forall x | x in sheet ensures IsoWeek(x.date) in Weeks(s) {
      var i :| 0 <= i < |sheet| && sheet[i] == x;
      assert s[i] in s;
    }
  }

  /** Column means of a group of weight rows. */
  function MeanBody(g: seq<WeightRow>): (b: Body)
    ensures forall f :: b.Get(f) == MeanBy(g, BodyCol(f))
  {
    Body(MeanBy(g, BodyCol(WeightKg)), MeanBy(g, BodyCol(SkeletalMuscleKg)),
         MeanBy(g, BodyCol(FatMassKg)), MeanBy(g, BodyCol(BodyWaterKg)))
  }

  /** `.round(digits)` over a keyed body-composition table. */
  function RoundTable(t: seq<Group<int, Body>>, round: Rounder, digits: nat): (r: seq<Group<int, Body>>)
    ensures |r| == |t|
    ensures forall i :: 0 <= i < |r| ==> r[i].key == t[i].key && r[i].value == t[i].value.Round(round, digits)
  {
    MapValues(t, (v: Body) => v.Round(round, digits))
  }

  /** Weekly means, before rounding: one row per week present, each column
      the sum over that week's rows divided by their (positive) number. */
  function WeeklyMeans(rows: seq<WeightRow>): (t: seq<Group<int, Body>>)
    ensures DistinctKeys(t)
    ensures TableKeys(t) == KeysOf(rows, WeekOf)
    ensures forall i :: 0 <= i < |t| ==> CountWhere(rows, WeekOf, t[i].key) > 0
    ensures forall i, f :: 0 <= i < |t| ==>
              t[i].value.Get(f) == SumWhere(rows, WeekOf, t[i].key, BodyCol(f)) / (CountWhere(rows, WeekOf, t[i].key) as real)
  {
    var t := Aggregate(rows, WeekOf, MeanBody);
    forall i, f | 0 <= i < |t|
      ensures CountWhere(rows, WeekOf, t[i].key) > 0
      ensures t[i].value.Get(f) == SumWhere(rows, WeekOf, t[i].key, BodyCol(f)) / (CountWhere(rows, WeekOf, t[i].key) as real)
    {
      assert t[i] in t;
      GroupMean(rows, WeekOf, t[i].key, BodyCol(f));
    }
    t
  }

  /** `wt_avg`: one row per ISO week number the weight sheet covers, each
      body-composition column the mean over that week's rows, rounded to 1
      decimal. */
  function WeightAvg(sheet: seq<WeightSheetRow>, round: Rounder): (t: seq<Group<int, Body>>)
    ensures DistinctKeys(t)
    ensures TableKeys(t) == Weeks(BodyRecords(sheet))
    ensures forall i :: 0 <= i < |t| ==> CountWhere(WeightTable(sheet), WeekOf, t[i].key) > 0
    ensures forall i, f :: 0 <= i < |t| ==>
              t[i].value.Get(f) == round(1, SumWhere(WeightTable(sheet), WeekOf, t[i].key, BodyCol(f))
                                            / (CountWhere(WeightTable(sheet), WeekOf, t[i].key) as real))
  {
    var means := WeeklyMeans(WeightTable(sheet));
    MapValuesKeys(means, (v: Body) => v.Round(round, 1));
    RoundTable(means, round, 1)
  }

  /** The `source` column never changes the weekly means. */
  lemma WeightAvgIgnoresSource(a: seq<WeightSheetRow>, b: seq<WeightSheetRow>, round: Rounder)
    requires |a| == |b|
    requires forall i :: 0 <= i < |a| ==> a[i].date == b[i].date && a[i].body == b[i].body
    ensures WeightAvg(a, round) == WeightAvg(b, round)
  {
    assert BodyRecords(a) == BodyRecords(b);
  }
}
