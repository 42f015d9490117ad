/** utils.js: the canonical date id of a record (`getFirestoreDateId`), the
    notification that `showMessage` puts on screen, and the small text
    helpers the pages use. */
module Utils {
  import opened Wrappers
  import opened Calendar

  /** The style class `showMessage` gives a message ('info', 'success', 'error'). */
  datatype Severity = Info | Success | Error

  /** What `showMessage` leaves visible on its target element. */
  datatype Notice = Notice(text: string, severity: Severity)

  predicate IsDigit(c: char) {
    '0' <= c <= '9'
  }

  function DigitValue(c: char): int {
    c as int - '0' as int
  }

  function Digit(n: int): (c: char)
    requires 0 <= n <= 9
    ensures IsDigit(c) && DigitValue(c) == n
  {
    ('0' as int + n) as char
  }

  function Pow10(k: nat): nat {
    if k == 0 then 1 else 10 * Pow10(k - 1)
  }

  /** The number a string of decimal digits denotes. */
  function Value(s: string): int {
    if s == [] then 0 else 10 * Value(s[..|s| - 1]) + DigitValue(s[|s| - 1])
  }

  predicate AllDigits(s: string) {
    forall i :: 0 <= i < |s| ==> IsDigit(s[i])
  }

  /** n written with exactly `width` decimal digits, left-padded with zeros. */
  function Padded(n: nat, width: nat): (s: string)
    requires n < Pow10(width)
    ensures |s| == width && AllDigits(s) && Value(s) == n
  {
    if width == 0 then []
    else
      var s := Padded(n / 10, width - 1) + [Digit(n % 10)];
      assert s[..|s| - 1] == Padded(n / 10, width - 1);
      s
  }

  /** n in decimal without leading zeros, as a template literal prints it. */
  function Decimal(n: nat): (s: string)
    ensures |s| > 0 && AllDigits(s) && Value(s) == n
    ensures |s| > 1 ==> s[0] != '0'
  {
    if n < 10 then [Digit(n)]
    else
      var s := Decimal(n / 10) + [Digit(n % 10)];
      assert s[..|s| - 1] == Decimal(n / 10);
      s
  }

  /** The shape of an ISO 8601 calendar date in extended format: `YYYY-MM-DD`. */
  predicate IsDateIdShape(s: string) {
    && |s| == 10
    && s[4] == '-' && s[7] == '-'
    && forall i :: 0 <= i < 10 && i != 4 && i != 7 ==> IsDigit(s[i])
  }

  /** Reads a `YYYY-MM-DD` string back as a date; None for any other shape. */
  function ParseDateId(s: string): (r: Option<Date>)
    ensures r.Some? <==> IsDateIdShape(s)
  {
    if IsDateIdShape(s) then Some(Date(Value(s[..4]), Value(s[5..7]), Value(s[8..])))
    else None
  }

  /** A date printed as `YYYY-MM-DD`; reading it back gives the date again. */
  function FormatDate(d: Date): (s: string)
    requires Valid(d)
    ensures IsDateIdShape(s)
    ensures ParseDateId(s) == Some(d)
  {
    var y, m, dd := Padded(d.year, 4), Padded(d.month, 2), Padded(d.day, 2);
    var s := y + "-" + m + "-" + dd;
    assert s[..4] == y && s[5..7] == m && s[8..] == dd;
    assert forall i :: 0 <= i < 4 ==> s[i] == y[i];
    assert forall i :: 5 <= i < 7 ==> s[i] == m[i - 5];
    assert forall i :: 8 <= i < 10 ==> s[i] == dd[i - 8];
    s
  }

  /** getFirestoreDateId (utils.js:21-23) on a UTC day number: the UTC calendar
      date of the day as `YYYY-MM-DD`, the year/month/day being those of
      the proleptic Gregorian calendar, the month in 01..12 and the day in
      01..days-in-month. */
  function DateId(e: int): (s: string)
    requires InRange(e)
    ensures IsDateIdShape(s)
    ensures ParseDateId(s).Some? && Valid(ParseDateId(s).value)
    ensures DayNumber(ParseDateId(s).value) == e
  {
    FormatDate(FromDayNumber(e))
  }

  /** getFirestoreDateId on a time value t (milliseconds since the epoch):
      `toISOString()` up to the `T`, which is the UTC day's date. Time values
      whose year is outside 0000..9999 are not modelled. */
  function DateIdOfTime(t: int): (s: string)
    requires InRange(DayOf(t))
    ensures IsDateIdShape(s)
  {
    DateId(DayOf(t))
  }

  /** Two time values within the same UTC day give the same id: the id
      ignores the time of day. */
  lemma SameDaySameId(t1: int, t2: int, e: int)
    requires InRange(e)
    requires e * MsPerDay <= t1 < (e + 1) * MsPerDay
    requires e * MsPerDay <= t2 < (e + 1) * MsPerDay
    ensures InRange(DayOf(t1)) && InRange(DayOf(t2))
    ensures DateIdOfTime(t1) == DateIdOfTime(t2) == DateId(e)
  {
    assert DayOf(t1) == e;
    assert DayOf(t2) == e;
  }

  /** Different UTC days give different ids, so the id is a join key. */
  lemma DateIdInjective(e1: int, e2: int)
    requires InRange(e1) && InRange(e2)
    ensures DateId(e1) == DateId(e2) <==> e1 == e2
  {
    if DateId(e1) == DateId(e2) {
      assert ParseDateId(DateId(e1)) == ParseDateId(DateId(e2));
      DayNumberInjective(FromDayNumber(e1), FromDayNumber(e2));
    }
  }

  /** Parsing the id of a date gives the date's year, month and day. */
  lemma ParseDateIdOfDateId(e: int)
    requires InRange(e)
    ensures ParseDateId(DateId(e)) == Some(FromDayNumber(e))
  {
  }

  /** Time values on different UTC days give different ids. */
  lemma DifferentDayDifferentId(t1: int, t2: int)
    requires InRange(DayOf(t1)) && InRange(DayOf(t2))
    requires DayOf(t1) != DayOf(t2)
    ensures DateIdOfTime(t1) != DateIdOfTime(t2)
  {
    DateIdInjective(DayOf(t1), DayOf(t2));
  }

  function UpperAscii(c: char): (u: char)
    ensures 'a' <= c <= 'z' ==> u as int == c as int - 32
    ensures !('a' <= c <= 'z') ==> u == c
  {
    if 'a' <= c <= 'z' then (c as int - 32) as char else c
  }

  /** `name.charAt(0).toUpperCase() + name.slice(1)` for ASCII letters. */
  function Capitalize(name: string): (r: string)
    ensures |r| == |name|
    ensures |name| > 0 ==> r[0] == UpperAscii(name[0]) && r[1..] == name[1..]
  {
    if name == [] then [] else [UpperAscii(name[0])] + name[1..]
  }
}
