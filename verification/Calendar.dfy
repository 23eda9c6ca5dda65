/**
 UTC calendar months on a clock of whole seconds since 1970-01-01T00:00:00Z. Month 0 is January 1970.
 Billing periods are calendar months, so all the model needs is the first second of each month.
 */
module Calendar {

  const SECONDS_PER_DAY: nat := 86_400

  predicate IsLeapYear(year: nat) {
    year % 4 == 0 && (year % 100 != 0 || year % 400 == 0)
  }

  function DaysInMonth(month: nat): (days: nat)
    ensures 28 <= days <= 31
  {
    var m := month % 12;
    if m == 1 then (if IsLeapYear(1970 + month / 12) then 29 else 28)
    else if m == 3 || m == 5 || m == 8 || m == 10 then 30
    else 31
  }

  /** First second of a month. */
  function MonthStart(month: nat): nat {
    if month == 0 then 0 else MonthStart(month - 1) + DaysInMonth(month - 1) * SECONDS_PER_DAY
  }

  function MonthFrom(now: nat, month: nat): (m: nat)
    requires MonthStart(month) <= now
    ensures MonthStart(m) <= now < MonthStart(m + 1)
    decreases now - MonthStart(month)
  {
    if now < MonthStart(month + 1) then month else MonthFrom(now, month + 1)
  }

  /** The month an instant falls in. */
  function MonthOf(now: nat): (m: nat)
    ensures MonthStart(m) <= now < MonthStart(m + 1)
  {
    MonthFrom(now, 0)
  }

  /** `datetime.now(utc)` with day 1 and the time of day cleared. */
  function StartOfMonth(now: nat): nat {
    MonthStart(MonthOf(now))
  }

  lemma {:induction false} MonthStartIncreases(a: nat, b: nat)
    requires a < b
    ensures MonthStart(a) < MonthStart(b)
  {
    if a < b - 1 {
      MonthStartIncreases(a, b - 1);
    }
  }

  lemma StartOfMonthIsMonotone(now: nat, later: nat)
    requires now <= later
    ensures StartOfMonth(now) <= StartOfMonth(later)
    ensures StartOfMonth(now) <= now
  {
    var m, n := MonthOf(now), MonthOf(later);
    if n < m {
      if n + 1 < m { MonthStartIncreases(n + 1, m); }
    } else if m < n {
      MonthStartIncreases(m, n);
    }
  }

  /** A month as the calendar names it, from January = 1 on. */
  datatype YearMonth = YearMonth(year: nat, month: nat)

  function CivilMonth(month: nat): YearMonth {
    YearMonth(1970 + month / 12, month % 12 + 1)
  }

  /** The end printed for a period: the next month, or January of the next year. */
  function PeriodEnd(start: YearMonth): YearMonth {
    if start.month < 12 then YearMonth(start.year, start.month + 1) else YearMonth(start.year + 1, 1)
  }

  /** The printed period is the month the instant falls in: its end is the month that starts next. */
  lemma PeriodIsTheMonth(now: nat)
    ensures var m := MonthOf(now);
            && PeriodEnd(CivilMonth(m)) == CivilMonth(m + 1)
            && MonthStart(m) <= now < MonthStart(m + 1)
  {
    NextCivilMonth(MonthOf(now));
  }

  lemma NextCivilMonth(m: nat)
    ensures PeriodEnd(CivilMonth(m)) == CivilMonth(m + 1)
  {
    if m % 12 < 11 {
      assert (m + 1) / 12 == m / 12 && (m + 1) % 12 == m % 12 + 1;
    } else {
      assert (m + 1) / 12 == m / 12 + 1 && (m + 1) % 12 == 0;
    }
  }

  /** Leap years before a year, counted by the calendar's rule from year 1 on. */
  function LeapYearsBefore(year: nat): nat
    requires year > 0
  {
    (year - 1) / 4 - (year - 1) / 100 + (year - 1) / 400
  }

  /** Days of a common year before its month. */
  function DaysBefore(month: nat): nat
    requires 1 <= month <= 12
  {
    [0, 31, 59, 90, 120, 151, 181, 212, 243, 273, 304, 334][month - 1]
  }

  /** Day number of the first of a month, 1 January 1970 being 0. */
  function DayNumber(first: YearMonth): int
    requires first.year > 0 && 1 <= first.month <= 12
  {
    365 * (first.year - 1970) + LeapYearsBefore(first.year) - LeapYearsBefore(1970)
      + DaysBefore(first.month) + (if first.month > 2 && IsLeapYear(first.year) then 1 else 0)
  }

  lemma LeapYearCounts(year: nat)
    requires year > 0
    ensures LeapYearsBefore(year + 1) == LeapYearsBefore(year) + (if IsLeapYear(year) then 1 else 0)
  {
    EveryFourth(year);
    EveryHundredth(year);
    EveryFourHundredth(year);
    LeapRulesNest(year);
  }

  lemma EveryFourth(n: nat)
    requires n > 0
    ensures n / 4 == (n - 1) / 4 + (if n % 4 == 0 then 1 else 0)
  {
  }

  lemma EveryHundredth(n: nat)
    requires n > 0
    ensures n / 100 == (n - 1) / 100 + (if n % 100 == 0 then 1 else 0)
  {
    var q, r := (n - 1) / 100, (n - 1) % 100;
    assert n == 100 * q + (r + 1);
  }

  lemma EveryFourHundredth(n: nat)
    requires n > 0
    ensures n / 400 == (n - 1) / 400 + (if n % 400 == 0 then 1 else 0)
  {
    var q, r := (n - 1) / 400, (n - 1) % 400;
    assert n == 400 * q + (r + 1);
  }

  lemma LeapRulesNest(n: nat)
    ensures n % 100 == 0 ==> n % 4 == 0
    ensures n % 400 == 0 ==> n % 100 == 0
  {
    if n % 100 == 0 {
      assert n == 4 * (25 * (n / 100));
    }
    if n % 400 == 0 {
      assert n == 100 * (4 * (n / 400));
    }
  }

  predicate CountsDays(day: nat -> int, month: nat) {
    day(month + 1) == day(month) + DaysInMonth(month)
  }

  lemma {:induction false} MonthStartCounts(day: nat -> int, month: nat)
    requires day(0) == 0 && forall m: nat :: CountsDays(day, m)
    ensures MonthStart(month) == day(month) * SECONDS_PER_DAY
  {
    if month > 0 {
      MonthStartCounts(day, month - 1);
      assert CountsDays(day, month - 1);
    }
  }

  /** Every month of the clock starts at midnight of the first day of its month in the Gregorian calendar. */
  lemma MonthStartIsCivil(month: nat)
    ensures MonthStart(month) == DayNumber(CivilMonth(month)) * SECONDS_PER_DAY
  {
    var day := (m: nat) => DayNumber(CivilMonth(m));
    forall m: nat ensures CountsDays(day, m) {
      DayNumberSteps(m);
    }
    MonthStartCounts(day, month);
  }

  lemma DayNumberSteps(month: nat)
    ensures DayNumber(CivilMonth(month + 1)) == DayNumber(CivilMonth(month)) + DaysInMonth(month)
  {
    var first := CivilMonth(month);
    NextCivilMonth(month);
    LeapYearCounts(first.year);
  }
}
