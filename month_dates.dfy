/**
 The two month computations of the invoice script: the last day of the
 current month (used as the invoice's due date) and the number of business
 days (Monday to Friday) in a month.
 */
module MonthDates {
  import opened Wrappers
  import opened Calendar

  /** The 1st of the month that follows (year, month). */
  function FirstOfNextMonth(year: int, month: int): Date
    requires 1 <= month <= 12
  {
    if month == 12 then Date(year + 1, 1, 1) else Date(year, month + 1, 1)
  }

  /**
   `replace(day=28) + timedelta(days=4)` always lands on day 1 to 4 of the
   following month (of the following year for December): day 28 is never
   more than three days before a month's end.
   */
  lemma {:induction false} ProbeLandsInNextMonth(year: int, month: int)
    requires 1 <= month <= 12
    ensures var next := FirstOfNextMonth(year, month);
      var probe := Shift(Date(year, month, 28), 4);
      probe.year == next.year && probe.month == next.month &&
      1 <= probe.day <= 4 && probe.day == 32 - DaysInMonth(year, month)
  {
    var end := Date(year, month, DaysInMonth(year, month));
    var next := FirstOfNextMonth(year, month);
    assert Successor(end) == next;
    var landing := next.(day := 32 - DaysInMonth(year, month));
    assert Ordinal(landing) == Ordinal(next) + 31 - DaysInMonth(year, month);
    ShiftTo(Date(year, month, 28), 4, landing);
  }

  /** Stepping back `j` days from day `j` of the next month gives the month's last day. */
  lemma {:induction false} BackToMonthEnd(year: int, month: int, j: int)
    requires 1 <= month <= 12 && 1 <= j <= 4
    ensures var next := FirstOfNextMonth(year, month);
      Shift(next.(day := j), -j) == Date(year, month, DaysInMonth(year, month))
  {
    var end := Date(year, month, DaysInMonth(year, month));
    var next := FirstOfNextMonth(year, month);
    assert Successor(end) == next;
    ShiftTo(next.(day := j), -j, end);
  }

  /**
   `last_day_of_month()` with "today" passed in: jump to day 28, add four days
   to reach the next month, then subtract that day number. In December 9999
   the four-day jump leaves the calendar and raises OverflowError (None).
   */
  function LastDayOfMonth(today: Date): (r: Option<Date>)
    requires InRange(today)
    ensures r.None? <==> today.year == MaxYear && today.month == 12
    ensures r.Some? ==> r.value == Date(today.year, today.month, DaysInMonth(today.year, today.month))
  {
    ProbeLandsInNextMonth(today.year, today.month);
    var nextMonth := AddDays(today.(day := 28), 4);
    if nextMonth.None? then None
    else
      BackToMonthEnd(today.year, today.month, nextMonth.value.day);
      AddDays(nextMonth.value, -nextMonth.value.day)
  }

  /**
   The `last_day` of `get_business_days_in_month`: the 1st of the next month
   minus one day, or the 31st for December.
   */
  function MonthEnd(year: int, month: int): (r: Date)
    requires MinYear <= year <= MaxYear && 1 <= month <= 12
    ensures r == Date(year, month, DaysInMonth(year, month))
  {
    if month != 12 then
      BackToMonthEnd(year, month, 1);
      AddDays(Date(year, month + 1, 1), -1).value
    else
      Date(year, month, 31)
  }

  /** One `timedelta(days=1)` step from day k: the next day of the month, or past its end. */
  lemma {:induction false} DayStep(year: int, month: int, k: int)
    requires InRange(Date(year, month, k))
    ensures k < DaysInMonth(year, month) ==> AddDays(Date(year, month, k), 1) == Some(Date(year, month, k + 1))
    ensures k == DaysInMonth(year, month) && (year < MaxYear || month < 12) ==>
      AddDays(Date(year, month, k), 1) == Some(FirstOfNextMonth(year, month))
    ensures AddDays(Date(year, month, k), 1).None? <==>
      k == DaysInMonth(year, month) && year == MaxYear && month == 12
  {
  }

  /** Business days among days 1 .. k of the month. */
  function BusinessDaysThrough(year: int, month: int, k: int): nat
    requires 1 <= month <= 12 && 0 <= k <= DaysInMonth(year, month)
    decreases k
  {
    if k == 0 then 0
    else BusinessDaysThrough(year, month, k - 1) + (if IsBusinessDay(Date(year, month, k)) then 1 else 0)
  }

  /** Business days in the whole month. */
  function BusinessDayCount(year: int, month: int): nat
    requires 1 <= month <= 12
  {
    BusinessDaysThrough(year, month, DaysInMonth(year, month))
  }

  /** The days 1 .. k of the month that fall on Monday to Friday. */
  function BusinessDaySet(year: int, month: int, k: int): set<int>
    requires 1 <= month <= 12 && 0 <= k <= DaysInMonth(year, month)
  {
    set j | 1 <= j <= k && IsBusinessDay(Date(year, month, j))
  }

  /** The running count is the size of the set of business days it has passed. */
  lemma {:induction false} CountIsSetSize(year: int, month: int, k: int)
    requires 1 <= month <= 12 && 0 <= k <= DaysInMonth(year, month)
    ensures BusinessDaysThrough(year, month, k) == |BusinessDaySet(year, month, k)|
    decreases k
  {
    if k == 0 {
      assert BusinessDaySet(year, month, k) == {};
    } else {
      CountIsSetSize(year, month, k - 1);
      var before := BusinessDaySet(year, month, k - 1);
      if IsBusinessDay(Date(year, month, k)) {
        assert BusinessDaySet(year, month, k) == before + {k};
      } else {
        assert BusinessDaySet(year, month, k) == before;
      }
    }
  }

  /** Weekdays among the `n` consecutive days whose ordinals start at `first`. */
  function WeekdayRun(first: int, n: nat): (c: nat)
    ensures c <= n
  {
    if n == 0 then 0
    else WeekdayRun(first, n - 1) + (if IsWeekdayOrdinal(first + n - 1) then 1 else 0)
  }

  predicate IsWeekdayOrdinal(o: int) {
    (o + 6) % 7 < 5
  }

  /** `x + i` modulo 7, for `i` below 7, without a second division. */
  lemma ModSevenStep(x: int, i: int)
    requires 0 <= i < 7
    ensures (x + i) % 7 == if x % 7 + i < 7 then x % 7 + i else x % 7 + i - 7
  {
  }

  /** Of seven consecutive ordinals, exactly five are weekdays. */
  lemma SevenConsecutiveDays(o: int)
    ensures (if IsWeekdayOrdinal(o) then 1 else 0) + (if IsWeekdayOrdinal(o + 1) then 1 else 0)
      + (if IsWeekdayOrdinal(o + 2) then 1 else 0) + (if IsWeekdayOrdinal(o + 3) then 1 else 0)
      + (if IsWeekdayOrdinal(o + 4) then 1 else 0) + (if IsWeekdayOrdinal(o + 5) then 1 else 0)
      + (if IsWeekdayOrdinal(o + 6) then 1 else 0) == 5
  {
    var x := o + 6;
    ModSevenStep(x, 0); ModSevenStep(x, 1); ModSevenStep(x, 2); ModSevenStep(x, 3);
    ModSevenStep(x, 4); ModSevenStep(x, 5); ModSevenStep(x, 6);
  }

  /** Any seven consecutive days hold exactly five weekdays. */
  lemma {:induction false} WeekHasFiveWeekdays(first: int, n: nat)
    ensures WeekdayRun(first, n + 7) == WeekdayRun(first, n) + 5
  {
    var o := first + n;
    SevenConsecutiveDays(o);
    assert WeekdayRun(first, n + 7) == WeekdayRun(first, n + 6) + (if IsWeekdayOrdinal(o + 6) then 1 else 0);
    assert WeekdayRun(first, n + 6) == WeekdayRun(first, n + 5) + (if IsWeekdayOrdinal(o + 5) then 1 else 0);
    assert WeekdayRun(first, n + 5) == WeekdayRun(first, n + 4) + (if IsWeekdayOrdinal(o + 4) then 1 else 0);
    assert WeekdayRun(first, n + 4) == WeekdayRun(first, n + 3) + (if IsWeekdayOrdinal(o + 3) then 1 else 0);
    assert WeekdayRun(first, n + 3) == WeekdayRun(first, n + 2) + (if IsWeekdayOrdinal(o + 2) then 1 else 0);
    assert WeekdayRun(first, n + 2) == WeekdayRun(first, n + 1) + (if IsWeekdayOrdinal(o + 1) then 1 else 0);
    assert WeekdayRun(first, n + 1) == WeekdayRun(first, n) + (if IsWeekdayOrdinal(o) then 1 else 0);
  }

  /** Extending a run by `k` days adds at most `k` weekdays. */
  lemma {:induction false} RunGrowsSlowly(first: int, n: nat, k: nat)
    ensures WeekdayRun(first, n) <= WeekdayRun(first, n + k) <= WeekdayRun(first, n) + k
    decreases k
  {
    if k > 0 {
      RunGrowsSlowly(first, n, k - 1);
    }
  }

  /** The month's days 1 .. k are the run of k ordinals that starts at the 1st's. */
  lemma {:induction false} BusinessDaysAreARun(year: int, month: int, k: int)
    requires 1 <= month <= 12 && 0 <= k <= DaysInMonth(year, month)
    ensures BusinessDaysThrough(year, month, k) == WeekdayRun(Ordinal(Date(year, month, 1)), k)
    decreases k
  {
    if k > 0 {
      BusinessDaysAreARun(year, month, k - 1);
      assert Ordinal(Date(year, month, k)) == Ordinal(Date(year, month, 1)) + k - 1;
    }
  }

  /**
   A month has between 20 and 23 business days: its first 28 days are four
   whole weeks, and the 0 to 3 remaining days add at most one each.
   */
  lemma BusinessDayCountBounds(year: int, month: int)
    requires 1 <= month <= 12
    ensures 20 <= BusinessDayCount(year, month) <= 23
    ensures BusinessDayCount(year, month) <= DaysInMonth(year, month)
  {
    var w := Ordinal(Date(year, month, 1));
    BusinessDaysAreARun(year, month, DaysInMonth(year, month));
    WeekHasFiveWeekdays(w, 0);
    WeekHasFiveWeekdays(w, 7);
    WeekHasFiveWeekdays(w, 14);
    WeekHasFiveWeekdays(w, 21);
    RunGrowsSlowly(w, 28, DaysInMonth(year, month) - 28);
  }

  /** February 2024 (a leap year, starting on a Thursday) has 29 days, 21 of them business days. */
  lemma LeapFebruary2024()
    ensures MonthEnd(2024, 2) == Date(2024, 2, 29) && MonthEnd(2023, 2) == Date(2023, 2, 28)
    ensures BusinessDayCount(2024, 2) == 21
  {
    var first := Ordinal(Date(2024, 2, 1));
    assert first == 738917;
    assert Weekday(Date(2024, 2, 1)) == 3;
    BusinessDaysAreARun(2024, 2, 29);
    WeekHasFiveWeekdays(first, 0);
    WeekHasFiveWeekdays(first, 7);
    WeekHasFiveWeekdays(first, 14);
    WeekHasFiveWeekdays(first, 21);
    assert IsWeekdayOrdinal(first + 28);
  }

  /**
   `get_business_days_in_month(year, month)`: walk from the 1st to the
   month's last day one day at a time, counting Monday-to-Friday dates. The
   step past December 31st of 9999 raises OverflowError.
   */
  method BusinessDaysInMonth(year: int, month: int) returns (r: Result<nat>)
    requires MinYear <= year <= MaxYear && 1 <= month <= 12
    ensures r.Err? <==> year == MaxYear && month == 12
    ensures r.Err? ==> r.error == OverflowError
    ensures r.Ok? ==> r.value == BusinessDayCount(year, month)
    ensures r.Ok? ==> 20 <= r.value <= 23
  {
    var firstDay := Date(year, month, 1);
    var lastDay := MonthEnd(year, month);
    ghost var length := DaysInMonth(year, month);

    var businessDays := 0;
    var currentDay := firstDay;
    ghost var k := 1;  // day number of currentDay within the month
    while AtOrBefore(currentDay, lastDay)
      invariant 1 <= k <= length + 1
      invariant k <= length ==> currentDay == Date(year, month, k)
      invariant k == length + 1 ==> currentDay == FirstOfNextMonth(year, month)
      invariant k == length + 1 ==> year < MaxYear || month < 12
      invariant businessDays == BusinessDaysThrough(year, month, k - 1)
      invariant businessDays <= k - 1
      decreases length + 1 - k
    {
      if IsBusinessDay(currentDay) {
        businessDays := businessDays + 1;
      }
      DayStep(year, month, k);
      var next := AddDays(currentDay, 1);
      if next.None? {
        return Err(OverflowError);
      }
      currentDay := next.value;
      k := k + 1;
    }
    BusinessDayCountBounds(year, month);
    r := Ok(businessDays);
  }
}
