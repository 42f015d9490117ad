/** The proleptic Gregorian calendar over UTC day numbers.

    A day is counted as in ECMAScript time values: day 0 is 1970-01-01 (UTC)
    and a time value t in milliseconds falls on day floor(t / 86400000).
    Only years 0000 to 9999 are modelled, the range in which a date prints
    as exactly four year digits. */
module Calendar {

  predicate IsLeapYear(y: int) {
    y % 4 == 0 && (y % 100 != 0 || y % 400 == 0)
  }

  function DaysInYear(y: int): int {
    if IsLeapYear(y) then 366 else 365
  }

  function DaysInMonth(y: int, m: int): int
    requires 1 <= m <= 12
  {
    if m == 2 then (if IsLeapYear(y) then 29 else 28)
    else if m == 4 || m == 6 || m == 9 || m == 11 then 30
    else 31
  }

  /** A calendar date; Valid says the month and day exist. */
  datatype Date = Date(year: int, month: int, day: int)

  predicate Valid(d: Date) {
    && 0 <= d.year <= 9999
    && 1 <= d.month <= 12
    && 1 <= d.day <= DaysInMonth(d.year, d.month)
  }

  /** Days from 0000-01-01 to January 1 of year y. */
  function DaysBeforeYear(y: nat): nat {
    if y == 0 then 0 else DaysBeforeYear(y - 1) + DaysInYear(y - 1)
  }

  /** Days from January 1 to the first of month m in year y. */
  function DaysBeforeMonth(y: int, m: int): nat
    requires 1 <= m <= 12
  {
    var common := [0, 31, 59, 90, 120, 151, 181, 212, 243, 273, 304, 334];
    common[m - 1] + (if m > 2 && IsLeapYear(y) then 1 else 0)
  }

  /** 1970-01-01 is this many days after 0000-01-01 (see EpochOffsetIsDaysBefore1970). */
  const EpochOffset: int := 719528
  /** Day number of 0000-01-01. */
  const MinDay: int := -EpochOffset
  /** Day number of 9999-12-31: 0000-01-01 to 10000-01-01 are 3652425 days. */
  const MaxDay: int := 3652425 - EpochOffset - 1
  const MsPerDay: int := 86400000

  predicate InRange(e: int) {
    MinDay <= e <= MaxDay
  }

  /** The day number of a valid date. */
  function DayNumber(d: Date): int
    requires Valid(d)
  {
    DaysBeforeYear(d.year) + DaysBeforeMonth(d.year, d.month) + d.day - 1 - EpochOffset
  }

  /** The closed form of DaysBeforeYear: 365 days a year plus one for every
      year below y divisible by 4, less those divisible by 100, plus those
      divisible by 400. */
  lemma {:induction false} DaysBeforeYearClosedForm(y: nat)
    ensures DaysBeforeYear(y) == 365 * y + (y + 3) / 4 - (y + 99) / 100 + (y + 399) / 400
  {
    if y > 0 {
      DaysBeforeYearClosedForm(y - 1);
      var x := y - 1;
      CountStep4(x);
      CountStep100(x);
      CountStep400(x);
      LeapIndicator(x);
      assert DaysBeforeYear(y) == DaysBeforeYear(x) + DaysInYear(x);
    }
  }

  /** Adding 100 keeps the remainders by 100 and by 4; adding 400 keeps
      those by 400 and by 100. */
  lemma Shift100Mod100(y: nat)
    ensures (y + 100) % 100 == y % 100
  {
  }

  lemma Shift100Mod4(y: nat)
    ensures (y + 100) % 4 == y % 4
  {
  }

  lemma Shift400Mod400(y: nat)
    ensures (y + 400) % 400 == y % 400
  {
  }

  lemma Shift400Mod100(y: nat)
    ensures (y + 400) % 100 == y % 100
  {
  }

  /** A multiple of 100 is a multiple of 4. */
  lemma {:induction false} HundredsAreFours(x: nat)
    requires x % 100 == 0
    ensures x % 4 == 0
  {
    if x >= 100 {
      Shift100Mod100(x - 100);
      Shift100Mod4(x - 100);
      HundredsAreFours(x - 100);
    }
  }

  /** A multiple of 400 is a multiple of 100. */
  lemma {:induction false} FourHundredsAreHundreds(x: nat)
    requires x % 400 == 0
    ensures x % 100 == 0
  {
    if x >= 400 {
      Shift400Mod400(x - 400);
      Shift400Mod100(x - 400);
      FourHundredsAreHundreds(x - 400);
    }
  }

  /** A year is a leap year by the count of its divisors among 4, 100, 400. */
  lemma LeapIndicator(x: nat)
    ensures DaysInYear(x) == 365 + (if x % 4 == 0 then 1 else 0)
                                 - (if x % 100 == 0 then 1 else 0)
                                 + (if x % 400 == 0 then 1 else 0)
  {
    if x % 400 == 0 {
      FourHundredsAreHundreds(x);
    }
    if x % 100 == 0 {
      HundredsAreFours(x);
    }
  }

  /** Counting the multiples of 4 (of 100, of 400) below x + 1 rather than
      below x adds one exactly when x is such a multiple. */
  lemma CountStep4(x: nat)
    ensures (x + 4) / 4 - (x + 3) / 4 == (if x % 4 == 0 then 1 else 0)
  {
  }

  lemma CountStep100(x: nat)
    ensures (x + 100) / 100 - (x + 99) / 100 == (if x % 100 == 0 then 1 else 0)
  {
  }

  lemma CountStep400(x: nat)
    ensures (x + 400) / 400 - (x + 399) / 400 == (if x % 400 == 0 then 1 else 0)
  {
  }

  /** Day 0 is 1970-01-01. */
  lemma EpochOffsetIsDaysBefore1970()
    ensures DaysBeforeYear(1970) == EpochOffset
  {
    DaysBeforeYearClosedForm(1970);
  }

  /** MaxDay is the last day of year 9999. */
  lemma MaxDayEndsYear9999()
    ensures DaysBeforeYear(10000) == MaxDay + 1 + EpochOffset
  {
    DaysBeforeYearClosedForm(10000);
  }

  /** Every year strictly before b ends no later than b starts. */
  lemma {:induction false} YearsAreOrdered(a: nat, b: nat)
    requires a < b
    ensures DaysBeforeYear(a) + DaysInYear(a) <= DaysBeforeYear(b)
  {
    if a + 1 < b {
      YearsAreOrdered(a, b - 1);
    }
  }

  lemma MonthsAreOrdered(y: int, a: int, b: int)
    requires 1 <= a < b <= 12
    ensures DaysBeforeMonth(y, a) + DaysInMonth(y, a) <= DaysBeforeMonth(y, b)
  {
  }

  /** The year that n days after January 1 of year y falls in, and the day of
      that year (counted from 0). */
  function SplitYear(n: nat, y: nat): (r: (nat, nat))
    ensures y <= r.0 && r.1 < DaysInYear(r.0)
    ensures DaysBeforeYear(r.0) + r.1 == DaysBeforeYear(y) + n
    decreases n
  {
    if n < DaysInYear(y) then (y, n) else SplitYear(n - DaysInYear(y), y + 1)
  }

  /** The month that day n of year y falls in, counting from the first of month
      m, and the day of that month (counted from 0). */
  function SplitMonth(y: int, n: nat, m: int): (r: (int, nat))
    requires 1 <= m <= 12
    requires DaysBeforeMonth(y, m) + n < DaysInYear(y)
    ensures m <= r.0 <= 12 && r.1 < DaysInMonth(y, r.0)
    ensures DaysBeforeMonth(y, r.0) + r.1 == DaysBeforeMonth(y, m) + n
    decreases 12 - m
  {
    if n < DaysInMonth(y, m) then (m, n) else SplitMonth(y, n - DaysInMonth(y, m), m + 1)
  }

  /** The calendar date of a day number. */
  function FromDayNumber(e: int): (d: Date)
    requires InRange(e)
    ensures Valid(d) && DayNumber(d) == e
  {
    var (y, r) := SplitYear(e + EpochOffset, 0);
    MaxDayEndsYear9999();
    assert y <= 9999 by {
      if y > 9999 {
        YearsAreOrdered(9999, y);
      }
    }
    var (m, k) := SplitMonth(y, r, 1);
    Date(y, m, k + 1)
  }

  /** Distinct valid dates have distinct day numbers. */
  lemma DayNumberInjective(d1: Date, d2: Date)
    requires Valid(d1) && Valid(d2) && DayNumber(d1) == DayNumber(d2)
    ensures d1 == d2
  {
    if d1.year < d2.year {
      YearsAreOrdered(d1.year, d2.year);
    } else if d2.year < d1.year {
      YearsAreOrdered(d2.year, d1.year);
    }
    if d1.month < d2.month {
      MonthsAreOrdered(d1.year, d1.month, d2.month);
    } else if d2.month < d1.month {
      MonthsAreOrdered(d1.year, d2.month, d1.month);
    }
  }

  /** A valid date converts to its day number and back unchanged. */
  lemma FromDayNumberOfDayNumber(d: Date)
    requires Valid(d)
    ensures InRange(DayNumber(d))
    ensures FromDayNumber(DayNumber(d)) == d
  {
    MaxDayEndsYear9999();
    if d.year < 9999 {
      YearsAreOrdered(d.year, 9999);
    }
    if d.month < 12 {
      MonthsAreOrdered(d.year, d.month, 12);
    }
    DayNumberInjective(FromDayNumber(DayNumber(d)), d);
  }

  /** Distinct day numbers have distinct dates. */
  lemma FromDayNumberInjective(e1: int, e2: int)
    requires InRange(e1) && InRange(e2) && e1 != e2
    ensures FromDayNumber(e1) != FromDayNumber(e2)
  {
  }

  /** The UTC day of a time value in milliseconds (ECMAScript's Day(t)). */
  function DayOf(t: int): (e: int)
    ensures e * MsPerDay <= t < (e + 1) * MsPerDay
  {
    t / MsPerDay
  }
}
