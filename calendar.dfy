/**
 The proleptic Gregorian calendar as Python's `datetime` module implements it:
 dates are (year, month, day) triples, every date has an ordinal (0001-01-01 is
 day 1), weekdays are read off the ordinal, and adding a number of days moves
 the ordinal and fails with OverflowError outside 0001-01-01 .. 9999-12-31.
 */
module Calendar {
  import opened Wrappers

  const MinYear := 1
  const MaxYear := 9999
  /** Ordinal of 9999-12-31, the last date `datetime` can represent. */
  const MaxOrdinal := 3652059

  datatype Date = Date(year: int, month: int, day: int)

  predicate IsLeapYear(y: int) {
    y % 4 == 0 && (y % 100 != 0 || y % 400 == 0)
  }

  function DaysInMonth(y: int, m: int): (n: int)
    requires 1 <= m <= 12
    ensures 28 <= n <= 31
  {
    if m == 2 then (if IsLeapYear(y) then 29 else 28)
    else if m == 4 || m == 6 || m == 9 || m == 11 then 30
    else 31
  }

  function DaysInYear(y: int): int {
    if IsLeapYear(y) then 366 else 365
  }

  /** A real calendar date, whatever its year. */
  predicate WellFormed(d: Date) {
    1 <= d.month <= 12 && 1 <= d.day <= DaysInMonth(d.year, d.month)
  }

  /** A date that `datetime` accepts. */
  predicate InRange(d: Date) {
    WellFormed(d) && MinYear <= d.year <= MaxYear
  }

  /** Days in the years before year `y` (floor division, as in `_days_before_year`). */
  function DaysBeforeYear(y: int): int {
    (y - 1) * 365 + (y - 1) / 4 - (y - 1) / 100 + (y - 1) / 400
  }

  /** Days in the months of year `y` before month `m`. */
  function DaysBeforeMonth(y: int, m: int): (n: int)
    requires 1 <= m <= 12
    ensures 28 * (m - 1) <= n <= 31 * (m - 1)
  {
    if m == 1 then 0 else DaysBeforeMonth(y, m - 1) + DaysInMonth(y, m - 1)
  }

  /** Day number counted from 0001-01-01, which is day 1. */
  function Ordinal(d: Date): int
    requires 1 <= d.month <= 12
  {
    DaysBeforeYear(d.year) + DaysBeforeMonth(d.year, d.month) + d.day
  }

  /** 0 is Monday, 6 is Sunday; 0001-01-01 is a Monday. */
  function Weekday(d: Date): int
    requires 1 <= d.month <= 12
  {
    (Ordinal(d) + 6) % 7
  }

  predicate IsBusinessDay(d: Date)
    requires 1 <= d.month <= 12
  {
    Weekday(d) < 5
  }

  /** Lexicographic order on (year, month, day), the order `datetime` compares by. */
  predicate Before(a: Date, b: Date) {
    a.year < b.year ||
    (a.year == b.year && (a.month < b.month || (a.month == b.month && a.day < b.day)))
  }

  predicate AtOrBefore(a: Date, b: Date) {
    a == b || Before(a, b)
  }

  lemma {:induction false} DaysBeforeYearStep(y: int)
    ensures DaysBeforeYear(y + 1) == DaysBeforeYear(y) + DaysInYear(y)
  {
    assert y / 4 - (y - 1) / 4 == if y % 4 == 0 then 1 else 0;
    assert y / 100 - (y - 1) / 100 == if y % 100 == 0 then 1 else 0;
    assert y / 400 - (y - 1) / 400 == if y % 400 == 0 then 1 else 0;
  }

  lemma {:induction false} DaysBeforeYearGrows(y1: int, y2: int)
    requires y1 < y2
    ensures DaysBeforeYear(y1) + DaysInYear(y1) <= DaysBeforeYear(y2)
    decreases y2 - y1
  {
    DaysBeforeYearStep(y1);
    if y1 + 1 < y2 {
      DaysBeforeYearGrows(y1 + 1, y2);
    }
  }

  lemma DaysBeforeMonthGrows(y: int, m1: int, m2: int)
    requires 1 <= m1 < m2 <= 12
    ensures DaysBeforeMonth(y, m1) + DaysInMonth(y, m1) <= DaysBeforeMonth(y, m2)
  {
  }

  /** The months before December fill all of the year but its last 31 days. */
  lemma DaysBeforeDecember(y: int)
    ensures DaysBeforeMonth(y, 12) + 31 == DaysInYear(y)
  {
    var leap := if IsLeapYear(y) then 1 else 0;
    assert DaysBeforeMonth(y, 2) == 31;
    assert DaysBeforeMonth(y, 3) == 59 + leap;
    assert DaysBeforeMonth(y, 4) == 90 + leap;
    assert DaysBeforeMonth(y, 5) == 120 + leap;
    assert DaysBeforeMonth(y, 6) == 151 + leap;
    assert DaysBeforeMonth(y, 7) == 181 + leap;
    assert DaysBeforeMonth(y, 8) == 212 + leap;
    assert DaysBeforeMonth(y, 9) == 243 + leap;
    assert DaysBeforeMonth(y, 10) == 273 + leap;
    assert DaysBeforeMonth(y, 11) == 304 + leap;
  }

  /** Every date of year `y` has an ordinal inside that year's block of days. */
  lemma OrdinalWithinYear(d: Date)
    requires WellFormed(d)
    ensures DaysBeforeYear(d.year) < Ordinal(d) <= DaysBeforeYear(d.year) + DaysInYear(d.year)
  {
    DaysBeforeDecember(d.year);
    if d.month < 12 {
      DaysBeforeMonthGrows(d.year, d.month, 12);
    }
  }

  /** The ordinal is an order-isomorphism: comparing dates is comparing ordinals. */
  lemma {:induction false} OrdinalOrder(a: Date, b: Date)
    requires WellFormed(a) && WellFormed(b)
    ensures Before(a, b) <==> Ordinal(a) < Ordinal(b)
    ensures a == b <==> Ordinal(a) == Ordinal(b)
  {
    forall x: Date, z: Date | WellFormed(x) && WellFormed(z) && Before(x, z)
      ensures Ordinal(x) < Ordinal(z)
    {
      if x.year < z.year {
        OrdinalWithinYear(x);
        OrdinalWithinYear(z);
        DaysBeforeYearGrows(x.year, z.year);
      } else if x.month < z.month {
        DaysBeforeMonthGrows(x.year, x.month, z.month);
      }
    }
  }

  /** The next calendar date. */
  function Successor(d: Date): (r: Date)
    requires WellFormed(d)
    ensures WellFormed(r) && Ordinal(r) == Ordinal(d) + 1
  {
    if d.day < DaysInMonth(d.year, d.month) then Date(d.year, d.month, d.day + 1)
    else if d.month < 12 then Date(d.year, d.month + 1, 1)
    else
      DaysBeforeYearStep(d.year);
      DaysBeforeDecember(d.year);
      Date(d.year + 1, 1, 1)
  }

  /** The previous calendar date. */
  function Predecessor(d: Date): (r: Date)
    requires WellFormed(d)
    ensures WellFormed(r) && Ordinal(r) == Ordinal(d) - 1
  {
    if d.day > 1 then Date(d.year, d.month, d.day - 1)
    else if d.month > 1 then Date(d.year, d.month - 1, DaysInMonth(d.year, d.month - 1))
    else
      DaysBeforeYearStep(d.year - 1);
      DaysBeforeDecember(d.year - 1);
      Date(d.year - 1, 12, 31)
  }

  /** The date `n` days after `d` (before it when `n` is negative), on an unbounded calendar. */
  function Shift(d: Date, n: int): (r: Date)
    requires WellFormed(d)
    ensures WellFormed(r) && Ordinal(r) == Ordinal(d) + n
    decreases if n < 0 then -n else n
  {
    if n == 0 then d
    else if n > 0 then Shift(Successor(d), n - 1)
    else Shift(Predecessor(d), n + 1)
  }

  /** A shift is determined by the ordinal it reaches. */
  lemma ShiftTo(d: Date, n: int, e: Date)
    requires WellFormed(d) && WellFormed(e)
    requires Ordinal(e) == Ordinal(d) + n
    ensures Shift(d, n) == e
  {
    OrdinalOrder(Shift(d, n), e);
  }

  /**
   `d + timedelta(days=n)`: the ordinal moves by `n`, and a result outside
   1 .. MaxOrdinal raises OverflowError (here: None).
   */
  function AddDays(d: Date, n: int): (r: Option<Date>)
    requires InRange(d)
    ensures r.Some? <==> InRange(Shift(d, n))
    ensures r.Some? ==> r.value == Shift(d, n)
  {
    var o := Ordinal(d) + n;
    OrdinalOrder(Shift(d, n), Date(MinYear, 1, 1));
    OrdinalOrder(Shift(d, n), Date(MaxYear, 12, 31));
    if 1 <= o <= MaxOrdinal then Some(Shift(d, n)) else None
  }
}
