/** Calendar arithmetic behind the `year`, `week` and `day_name` columns.

    A date is a day number in the proleptic Gregorian calendar: day 0 is
    Monday 1 January of year 1, day 1 is the Tuesday after it, and so on.
    The ISO week follows ISO 8601:2004, section 3.2.2: weeks run Monday to
    Sunday and week 1 of a year is the week holding that year's first
    Thursday. */
module Calendar {

  type Day = nat

  /** The weekday stored in the `day_name` column. The constructors follow
      the Monday-first order the weekday averages are sorted into. */
  datatype Weekday = Monday | Tuesday | Wednesday | Thursday | Friday | Saturday | Sunday {

    /** Position in the Monday-first cycle. */
    function Rank(): (n: nat)
      ensures n < 7
    {
      match this
      case Monday => 0
      case Tuesday => 1
      case Wednesday => 2
      case Thursday => 3
      case Friday => 4
      case Saturday => 5
      case Sunday => 6
    }
  }

  function WeekdayAt(n: nat): (wd: Weekday)
    requires n < 7
    ensures wd.Rank() == n
  {
    if n == 0 then Monday
    else if n == 1 then Tuesday
    else if n == 2 then Wednesday
    else if n == 3 then Thursday
    else if n == 4 then Friday
    else if n == 5 then Saturday
    else Sunday
  }

  lemma RankInjective(a: Weekday, b: Weekday)
    requires a.Rank() == b.Rank()
    ensures a == b
  {
  }

  // ---------------------------------------------------------------- years

  predicate IsLeapYear(y: int) {
    y % 4 == 0 && (y % 100 != 0 || y % 400 == 0)
  }

  function DaysInYear(y: int): int {
    if IsLeapYear(y) then 366 else 365
  }

  /** Day number of 1 January of year `y`, in closed form. */
  function DaysBeforeYear(y: int): int
    requires y >= 1
  {
    var n := y - 1;
    365 * n + n / 4 - n / 100 + n / 400
  }

  /** The closed form advances by the length of each year. */
  lemma DaysBeforeNextYear(y: int)
    requires y >= 1
    ensures DaysBeforeYear(y + 1) == DaysBeforeYear(y) + DaysInYear(y)
  {
    var n := y - 1;
    assert (n + 1) / 4 - n / 4 == (if y % 4 == 0 then 1 else 0);
    assert (n + 1) / 100 - n / 100 == (if y % 100 == 0 then 1 else 0);
    assert (n + 1) / 400 - n / 400 == (if y % 400 == 0 then 1 else 0);
  }

  lemma {:induction false} DaysBeforeYearGrows(a: int, b: int)
    requires 1 <= a <= b
    ensures DaysBeforeYear(a) + 365 * (b - a) <= DaysBeforeYear(b)
    decreases b - a
  {
    if a < b {
      DaysBeforeNextYear(a);
      DaysBeforeYearGrows(a + 1, b);
    }
  }

  function YearFrom(d: Day, y: int): (r: int)
    requires y >= 1 && DaysBeforeYear(y) <= d
    ensures r >= y && DaysBeforeYear(r) <= d < DaysBeforeYear(r + 1)
    decreases d - DaysBeforeYear(y)
  {
    DaysBeforeNextYear(y);
    if d < DaysBeforeYear(y + 1) then y else YearFrom(d, y + 1)
  }

  /** The calendar year holding day `d` (the `year` column). */
  function YearOf(d: Day): (y: int)
    ensures y >= 1
    ensures DaysBeforeYear(y) <= d < DaysBeforeYear(y + 1)
  {
    YearFrom(d, 1)
  }

  /** A day lies in exactly one calendar year. */
  lemma YearOfUnique(d: Day, y: int)
    requires y >= 1 && DaysBeforeYear(y) <= d < DaysBeforeYear(y + 1)
    ensures YearOf(d) == y
  {
    var x := YearOf(d);
    if x < y {
      DaysBeforeYearGrows(x + 1, y);
    } else if y < x {
      DaysBeforeYearGrows(y + 1, x);
    }
  }

  // ---------------------------------------------------------------- weeks

  /** Weekday of a day number; day 0 is a Monday. */
  function WeekdayOf(d: Day): Weekday {
    WeekdayAt(d % 7)
  }

  /** Monday that opens the Monday-to-Sunday week holding `d`. */
  function MondayOf(d: Day): (m: Day)
    ensures m <= d < m + 7 && m % 7 == 0
  {
    d - d % 7
  }

  /** Successive days walk the weekday cycle, starting from a Monday. */
  lemma WeekdayCycle(d: Day)
    ensures WeekdayOf(0) == Monday
    ensures WeekdayOf(d + 1).Rank() == (WeekdayOf(d).Rank() + 1) % 7
    ensures WeekdayOf(d).Rank() == d - MondayOf(d)
  {
  }

  /** The first Thursday on or after day `j`. */
  function ThursdayFrom(j: int): (t: int)
    ensures t % 7 == 3
    ensures j <= t < j + 7
  {
    j + (3 - j % 7) % 7
  }

  /** The first Thursday on or after 1 January of year `y`. */
  function FirstThursday(y: int): (t: int)
    requires y >= 1
    ensures t % 7 == 3
    ensures DaysBeforeYear(y) <= t < DaysBeforeYear(y) + 7
  {
    ThursdayFrom(DaysBeforeYear(y))
  }

  /** Monday of ISO week 1 of year `y`: the week holding the first Thursday. */
  function FirstMonday(y: int): int
    requires y >= 1
  {
    FirstThursday(y) - 3
  }

  lemma {:induction false} FirstMondayGrows(a: int, b: int)
    requires 1 <= a < b
    ensures FirstMonday(a) < FirstMonday(b)
    decreases b - a
  {
    DaysBeforeNextYear(a);
    var ja := DaysBeforeYear(a);
    var jb := DaysBeforeYear(a + 1);
    assert FirstThursday(a) < ja + 7;
    assert jb <= FirstThursday(a + 1);
    if a + 1 < b {
      FirstMondayGrows(a + 1, b);
    }
  }

  /** Reference definition: `d` lies in ISO week `w` of ISO year `y` when the
      Monday of its week is `w - 1` weeks after the Monday of week 1 of `y`
      and before the Monday of week 1 of `y + 1`. */
  ghost predicate IsIsoWeekOf(d: Day, y: int, w: int) {
    && y >= 1
    && FirstMonday(y) <= MondayOf(d) < FirstMonday(y + 1)
    && MondayOf(d) == FirstMonday(y) + 7 * (w - 1)
  }

  /** `w` is the ISO week number of `d`, whatever the ISO year. */
  ghost predicate InIsoWeek(d: Day, w: int) {
    exists y :: IsIsoWeekOf(d, y, w)
  }

  /** ISO year of `d`: the calendar year of the Thursday of its week. */
  function IsoYear(d: Day): int {
    YearOf(MondayOf(d) + 3)
  }

  /** ISO week number of `d`, as `dt.isocalendar().week` computes it: the
      Thursday of the week, counted in weeks from 1 January of its year. */
  function IsoWeek(d: Day): (w: int)
    ensures 1 <= w <= 53
  {
    var th := MondayOf(d) + 3;
    DaysBeforeNextYear(YearOf(th));
    (th - DaysBeforeYear(YearOf(th))) / 7 + 1
  }

  /** Counting whole weeks from 1 January or from the first Thursday gives
      the same number for any Thursday `m + 3` of the year: the Monday `m`
      lies that many weeks after the Monday of week 1, and before the
      Monday of week 1 of the next year. */
  lemma WeeksFromFirstThursday(m: int, j: int, f: int, j2: int, f2: int)
    requires m % 7 == 0 && f % 7 == 3 && f2 % 7 == 3
    requires j <= f < j + 7 && j2 <= f2
    requires j <= m + 3 < j2
    ensures f - 3 <= m < f2 - 3
    ensures m == f - 3 + 7 * ((m + 3 - j) / 7)
  {
    var k := (m + 3 - j) / 7;
    var r := (m + 3 - j) % 7;
    assert m + 3 - j == 7 * k + r && 0 <= r < 7;
    var p := (f - j) % 7;
    assert f - j == p;
    assert (7 * k + r) - p == (m + 3) - f;
    assert ((m + 3) - f) % 7 == 0;
    assert r == p by {
      DiffOfResidues(7 * k + r, p, k, r);
    }
  }

  /** Two numbers with equal remainders modulo 7 differ by a multiple of 7;
      here the remainders are 7 * k + r's and p's. */
  lemma DiffOfResidues(a: int, p: int, k: int, r: int)
    requires a == 7 * k + r && 0 <= r < 7 && 0 <= p < 7 && (a - p) % 7 == 0
    ensures r == p
  {
    var q := (a - p) / 7;
    assert a - p == 7 * q;
    assert 7 * (k - q) == p - r;
  }

  /** The computed week agrees with the reference definition. */
  lemma IsoWeekMeetsDefinition(d: Day)
    ensures IsIsoWeekOf(d, IsoYear(d), IsoWeek(d))
    ensures InIsoWeek(d, IsoWeek(d))
  {
    var m := MondayOf(d);
    var y := YearOf(m + 3);
    var j := DaysBeforeYear(y);
    var w := IsoWeek(d);
    assert w == (m + 3 - j) / 7 + 1;
    DaysBeforeNextYear(y);
    WeeksFromFirstThursday(m, j, FirstThursday(y), DaysBeforeYear(y + 1), FirstThursday(y + 1));
    assert m == FirstMonday(y) + 7 * (w - 1);
    assert IsIsoWeekOf(d, y, w);
  }

  /** The years opened by successive week-1 Mondays do not overlap. */
  lemma FirstMondayYearUnique(m: int, a: int, b: int)
    requires a >= 1 && FirstMonday(a) <= m < FirstMonday(a + 1)
    requires b >= 1 && FirstMonday(b) <= m < FirstMonday(b + 1)
    ensures a == b
  {
    if a < b {
      FirstMondayMonotone(a + 1, b);
    } else if b < a {
      FirstMondayMonotone(b + 1, a);
    }
  }

  lemma FirstMondayMonotone(a: int, b: int)
    requires 1 <= a <= b
    ensures FirstMonday(a) <= FirstMonday(b)
  {
    if a < b {
      FirstMondayGrows(a, b);
    }
  }

  /** ISO year and week are the only ones meeting the reference definition. */
  lemma IsoWeekUnique(d: Day, y: int, w: int)
    requires IsIsoWeekOf(d, y, w)
    ensures y == IsoYear(d) && w == IsoWeek(d)
  {
    IsoWeekMeetsDefinition(d);
    var iy := IsoYear(d);
    var iw := IsoWeek(d);
    FirstMondayYearUnique(MondayOf(d), y, iy);
    assert 7 * (w - 1) == 7 * (iw - 1);
  }

  /** Week 1 of every year is the week holding its first Thursday. */
  lemma FirstThursdayInWeekOne(y: int)
    requires y >= 1
    ensures IsoWeek(FirstThursday(y)) == 1 && IsoYear(FirstThursday(y)) == y
  {
    var t := FirstThursday(y);
    FirstMondayGrows(y, y + 1);
    assert MondayOf(t) == FirstMonday(y);
    IsoWeekUnique(t, y, 1);
  }

  /** Monday 1 January 2024 is day 738885 and opens ISO week 1 of 2024. */
  lemma NewYear2024()
    ensures DaysBeforeYear(2024) == 738885 && WeekdayOf(738885) == Monday
    ensures IsoWeek(738885) == 1 && IsoYear(738885) == 2024
  {
    assert DaysBeforeYear(2025) == 739251;
    YearOfUnique(738888, 2024);
  }

  /** Day 738885, 1 January 2024, lies in ISO week 1. */
  lemma FirstWeekOf2024(d: Day)
    requires d == 738885
    ensures IsoWeek(d) == 1
  {
    NewYear2024();
  }

  /** Friday 1 January 2021 still belongs to week 53 of ISO year 2020. */
  lemma NewYear2021()
    ensures DaysBeforeYear(2021) == 737790 && WeekdayOf(737790) == Friday
    ensures IsoWeek(737790) == 53 && IsoYear(737790) == 2020
  {
    assert DaysBeforeYear(2020) == 737424;
    YearOfUnique(737789, 2020);
  }
}
