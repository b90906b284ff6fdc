/**
 * The part of Python's `datetime` that the scraper leans on: proleptic Gregorian
 * dates, their day ordinals (`toordinal`/`fromordinal`, used by `date + timedelta`
 * and `date - date`), `strftime("%Y-%m-%d")` and a strict `strptime("%Y-%m-%d")`.
 */
module Calendar {
  import opened Wrappers
  import opened Text

  /** A calendar day. The scraper's datetimes come from `strptime`, so they are always at midnight. */
  datatype Date = Date(year: int, month: int, day: int)

  const MinYear := 1
  const MaxYear := 9999

  predicate IsLeap(y: int) { y % 4 == 0 && (y % 100 != 0 || y % 400 == 0) }

  function DaysInYear(y: int): int { if IsLeap(y) then 366 else 365 }

  function DaysInMonth(y: int, m: int): (n: int)
    requires 1 <= m <= 12
    ensures 28 <= n <= 31
  {
    if m == 2 then (if IsLeap(y) then 29 else 28)
    else if m == 4 || m == 6 || m == 9 || m == 11 then 30
    else 31
  }

  /** Days of the year before the first of month `m` (the `_DAYS_BEFORE_MONTH` table plus the leap day). */
  function DaysBeforeMonth(y: int, m: int): int
    requires 1 <= m <= 12
  {
    var table :=
      if m == 1 then 0 else if m == 2 then 31 else if m == 3 then 59
      else if m == 4 then 90 else if m == 5 then 120 else if m == 6 then 151
      else if m == 7 then 181 else if m == 8 then 212 else if m == 9 then 243
      else if m == 10 then 273 else if m == 11 then 304 else 334;
    table + (if m > 2 && IsLeap(y) then 1 else 0)
  }

  /** Days before January 1st of year `y`, counted from January 1st of year 1. */
  function DaysBeforeYear(y: int): int
    requires y >= 1
  {
    var z := y - 1;
    365 * z + z / 4 - z / 100 + z / 400
  }

  /** A well-formed proleptic Gregorian date with any year from 1 on. */
  predicate IsCivil(d: Date) {
    d.year >= MinYear && 1 <= d.month <= 12 && 1 <= d.day <= DaysInMonth(d.year, d.month)
  }

  /** A date `datetime` can hold: years 1 to 9999. */
  predicate InRange(d: Date) { IsCivil(d) && d.year <= MaxYear }

  /** Strict calendar order, as `datetime` compares. */
  predicate Before(a: Date, b: Date) {
    a.year < b.year || (a.year == b.year && (a.month < b.month || (a.month == b.month && a.day < b.day)))
  }

  /** `date.toordinal()`: 1 for 0001-01-01. */
  function Ordinal(d: Date): (n: int)
    requires IsCivil(d)
    ensures n >= 1
    ensures d.year == MinYear && d.month == 1 ==> n == d.day
  {
    MonthWithinYear(d.year, d.month);
    DaysBeforeYear(d.year) + DaysBeforeMonth(d.year, d.month) + d.day
  }

  /** The following calendar day. */
  function NextDay(d: Date): (r: Date)
    requires IsCivil(d)
    ensures IsCivil(r) && Before(d, r)
  {
    if d.day < DaysInMonth(d.year, d.month) then Date(d.year, d.month, d.day + 1)
    else if d.month < 12 then Date(d.year, d.month + 1, 1)
    else Date(d.year + 1, 1, 1)
  }

  /**
   * `date.fromordinal(n)`: the `n`-th day counted from 0001-01-01, found by stepping
   * one day at a time (`OrdinalOfFromOrdinal` shows it is the date whose ordinal is `n`).
   */
  function FromOrdinal(n: int): (d: Date)
    requires n >= 1
    ensures IsCivil(d)
  {
    if n == 1 then Date(1, 1, 1) else NextDay(FromOrdinal(n - 1))
  }

  function LastDate(): Date { Date(MaxYear, 12, 31) }

  /** `date.max.toordinal()`. */
  const MaxOrdinal := 3652059

  lemma MaxOrdinalIsLastDate()
    ensures Ordinal(LastDate()) == MaxOrdinal
  {
  }

  lemma DaysBeforeNextMonth(y: int, m: int)
    requires 1 <= m < 12
    ensures DaysBeforeMonth(y, m + 1) == DaysBeforeMonth(y, m) + DaysInMonth(y, m)
  {
  }

  lemma MonthsWithinYear(y: int, m1: int, m2: int)
    requires 1 <= m1 < m2 <= 12
    ensures DaysBeforeMonth(y, m1) + DaysInMonth(y, m1) <= DaysBeforeMonth(y, m2)
  {
  }

  lemma MonthWithinYear(y: int, m: int)
    requires 1 <= m <= 12
    ensures 0 <= DaysBeforeMonth(y, m)
    ensures DaysBeforeMonth(y, m) + DaysInMonth(y, m) <= DaysInYear(y)
    ensures m == 12 ==> DaysBeforeMonth(y, m) + DaysInMonth(y, m) == DaysInYear(y)
  {
  }

  /** The closed form of `DaysBeforeYear` steps by the length of each year. */
  lemma QuotientStep4(y: int)
    ensures y / 4 == (y - 1) / 4 + (if y % 4 == 0 then 1 else 0)
  {
  }

  lemma QuotientStep100(y: int)
    ensures y / 100 == (y - 1) / 100 + (if y % 100 == 0 then 1 else 0)
  {
  }

  lemma QuotientStep400(y: int)
    ensures y / 400 == (y - 1) / 400 + (if y % 400 == 0 then 1 else 0)
  {
  }

  lemma CenturyIsLeapCandidate(y: int)
    requires y % 100 == 0
    ensures y % 4 == 0
  {
    var q := y / 100;
    assert y == 4 * (25 * q);
  }

  lemma QuadCenturyIsCentury(y: int)
    requires y % 400 == 0
    ensures y % 100 == 0
  {
    var q := y / 400;
    assert y == 100 * (4 * q);
  }

  lemma DaysBeforeNextYear(y: int)
    requires y >= 1
    ensures DaysBeforeYear(y + 1) == DaysBeforeYear(y) + DaysInYear(y)
  {
    if y % 400 == 0 {
      QuadCenturyIsCentury(y);
    }
    if y % 100 == 0 {
      CenturyIsLeapCandidate(y);
    }
    QuotientStep4(y);
    QuotientStep100(y);
    QuotientStep400(y);
  }

  lemma {:induction false} DaysBeforeYearMonotone(a: int, b: int)
    requires 1 <= a < b
    ensures DaysBeforeYear(a) + DaysInYear(a) <= DaysBeforeYear(b)
    decreases b - a
  {
    DaysBeforeNextYear(a);
    if a + 1 < b {
      DaysBeforeYearMonotone(a + 1, b);
    }
  }

  lemma OrdinalOfNextDay(d: Date)
    requires IsCivil(d)
    ensures Ordinal(NextDay(d)) == Ordinal(d) + 1
  {
    if d.day == DaysInMonth(d.year, d.month) {
      if d.month < 12 {
        DaysBeforeNextMonth(d.year, d.month);
      } else {
        MonthWithinYear(d.year, 12);
        DaysBeforeNextYear(d.year);
      }
    }
  }

  /** `fromordinal` inverts `toordinal` on the left: stepping `n - 1` days from 0001-01-01 reaches ordinal `n`. */
  lemma {:induction false} OrdinalOfFromOrdinal(n: int)
    requires n >= 1
    ensures Ordinal(FromOrdinal(n)) == n
  {
    if n > 1 {
      OrdinalOfFromOrdinal(n - 1);
      OrdinalOfNextDay(FromOrdinal(n - 1));
    }
  }


  /** The day after `fromordinal(n)` is `fromordinal(n + 1)`. */
  lemma FromOrdinalSucc(n: int)
    requires n >= 1
    ensures FromOrdinal(n + 1) == NextDay(FromOrdinal(n))
  {
    OrdinalOfFromOrdinal(n);
    OrdinalOfFromOrdinal(n + 1);
    OrdinalOfNextDay(FromOrdinal(n));
    OrdinalOrder(FromOrdinal(n + 1), NextDay(FromOrdinal(n)));
  }

  lemma OrdinalPositive(d: Date)
    requires IsCivil(d)
    ensures Ordinal(d) >= 1
  {
    if d.year > 1 {
      DaysBeforeYearMonotone(1, d.year);
    }
    MonthWithinYear(d.year, d.month);
  }

  /** Ordinals follow calendar order. */
  lemma OrdinalMonotone(a: Date, b: Date)
    requires IsCivil(a) && IsCivil(b) && Before(a, b)
    ensures Ordinal(a) < Ordinal(b)
  {
    MonthWithinYear(a.year, a.month);
    MonthWithinYear(b.year, b.month);
    if a.year < b.year {
      DaysBeforeYearMonotone(a.year, b.year);
    } else if a.month < b.month {
      MonthsWithinYear(a.year, a.month, b.month);
    }
  }

  /** Comparing dates is comparing their ordinals, both ways. */
  lemma OrdinalOrder(a: Date, b: Date)
    requires IsCivil(a) && IsCivil(b)
    ensures Before(a, b) <==> Ordinal(a) < Ordinal(b)
    ensures a == b <==> Ordinal(a) == Ordinal(b)
  {
    if Before(a, b) {
      OrdinalMonotone(a, b);
    } else if Before(b, a) {
      OrdinalMonotone(b, a);
    } else {
      assert a == b;
    }
  }

  /** `fromordinal` inverts `toordinal`. */
  lemma FromOrdinalOfOrdinal(d: Date)
    requires IsCivil(d)
    ensures Ordinal(d) >= 1 && FromOrdinal(Ordinal(d)) == d
  {
    OrdinalPositive(d);
    OrdinalOfFromOrdinal(Ordinal(d));
    OrdinalOrder(d, FromOrdinal(Ordinal(d)));
  }

  /** Later ordinals name later dates. */
  lemma FromOrdinalIncreasing(a: int, b: int)
    requires 1 <= a < b
    ensures Before(FromOrdinal(a), FromOrdinal(b))
  {
    OrdinalOfFromOrdinal(a);
    OrdinalOfFromOrdinal(b);
    OrdinalOrder(FromOrdinal(a), FromOrdinal(b));
  }

  /** Every ordinal up to `date.max.toordinal()` names a date `datetime` can hold. */
  lemma FromOrdinalInRange(n: int)
    requires 1 <= n <= MaxOrdinal
    ensures InRange(FromOrdinal(n))
  {
    var d := FromOrdinal(n);
    if d.year > MaxYear {
      OrdinalOfFromOrdinal(n);
      MaxOrdinalIsLastDate();
      OrdinalMonotone(LastDate(), d);
    }
  }

  lemma OrdinalAtMostMax(d: Date)
    requires InRange(d)
    ensures 1 <= Ordinal(d) <= MaxOrdinal
  {
    MaxOrdinalIsLastDate();
    OrdinalPositive(d);
    OrdinalOrder(d, LastDate());
  }

  // ---- strftime("%Y-%m-%d") and strict strptime("%Y-%m-%d") ----

  /** The value of a two-digit decimal field. */
  function Value2(s: string): (n: int)
    requires |s| == 2 && AllDigits(s)
    ensures 0 <= n <= 99
  {
    10 * DigitValue(s[0]) + DigitValue(s[1])
  }

  /** The value of a four-digit decimal field. */
  function Value4(s: string): (n: int)
    requires |s| == 4 && AllDigits(s)
    ensures 0 <= n <= 9999
  {
    10 * (10 * (10 * DigitValue(s[0]) + DigitValue(s[1])) + DigitValue(s[2])) + DigitValue(s[3])
  }

  predicate IsPad2(s: string, n: int) { |s| == 2 && AllDigits(s) && Value2(s) == n }

  predicate IsPad4(s: string, n: int) { |s| == 4 && AllDigits(s) && Value4(s) == n }

  lemma Pad2Exists(n: int)
    requires 0 <= n <= 99
    ensures exists s :: IsPad2(s, n)
  {
    var s := [DigitChar(n / 10), DigitChar(n % 10)];
    assert IsPad2(s, n);
  }

  lemma Pad4Exists(n: int)
    requires 0 <= n <= 9999
    ensures exists s :: IsPad4(s, n)
  {
    var hi, lo := Pad2(n / 100), Pad2(n % 100);
    var s := hi + lo;
    assert s[0] == hi[0] && s[1] == hi[1] && s[2] == lo[0] && s[3] == lo[1];
    assert Value4(s) == 100 * Value2(hi) + Value2(lo);
    assert IsPad4(s, n);
  }

  /** A last decimal digit and the number before it are determined by the whole. */
  lemma ShiftDigit(a: int, x: int, b: int, y: int)
    requires 0 <= x <= 9 && 0 <= y <= 9 && 10 * a + x == 10 * b + y
    ensures a == b && x == y
  {
  }

  lemma Pad2Unique()
    ensures forall s, t, n :: IsPad2(s, n) && IsPad2(t, n) ==> s == t
  {
    forall s, t, n | IsPad2(s, n) && IsPad2(t, n)
      ensures s == t
    {
      ShiftDigit(DigitValue(s[0]), DigitValue(s[1]), DigitValue(t[0]), DigitValue(t[1]));
      assert s[0] == t[0] && s[1] == t[1];
    }
  }

  lemma Pad4Unique()
    ensures forall s, t, n :: IsPad4(s, n) && IsPad4(t, n) ==> s == t
  {
    forall s, t, n | IsPad4(s, n) && IsPad4(t, n)
      ensures s == t
    {
      var a := 10 * (10 * DigitValue(s[0]) + DigitValue(s[1])) + DigitValue(s[2]);
      var b := 10 * (10 * DigitValue(t[0]) + DigitValue(t[1])) + DigitValue(t[2]);
      ShiftDigit(a, DigitValue(s[3]), b, DigitValue(t[3]));
      ShiftDigit(10 * DigitValue(s[0]) + DigitValue(s[1]), DigitValue(s[2]), 10 * DigitValue(t[0]) + DigitValue(t[1]), DigitValue(t[2]));
      ShiftDigit(DigitValue(s[0]), DigitValue(s[1]), DigitValue(t[0]), DigitValue(t[1]));
      assert s[0] == t[0] && s[1] == t[1] && s[2] == t[2] && s[3] == t[3];
    }
  }

  /** `%m` / `%d`: the two zero-padded digits of `n`. */
  function Pad2(n: int): (s: string)
    requires 0 <= n <= 99
    ensures IsPad2(s, n)
  {
    Pad2Exists(n);
    Pad2Unique();
    var s :| IsPad2(s, n); s
  }

  /** `%Y`: the four zero-padded digits of `n`. */
  function Pad4(n: int): (s: string)
    requires 0 <= n <= 9999
    ensures IsPad4(s, n)
  {
    Pad4Exists(n);
    Pad4Unique();
    var s :| IsPad4(s, n); s
  }

  /** `strftime("%Y-%m-%d")`, with the year zero-padded to four digits. */
  function Format(d: Date): (s: string)
    requires InRange(d)
    ensures |s| == 10
  {
    Pad4(d.year) + "-" + Pad2(d.month) + "-" + Pad2(d.day)
  }

  /** A strict `strptime(s, "%Y-%m-%d")`: exactly `DDDD-DD-DD` naming a real date; `None` is the `ValueError`. */
  function ParseDate(s: string): (r: Option<Date>)
    ensures r.Some? ==> InRange(r.value)
  {
    if |s| == 10 && s[4] == '-' && s[7] == '-'
       && AllDigits(s[0..4]) && AllDigits(s[5..7]) && AllDigits(s[8..10])
    then
      var d := Date(Value4(s[0..4]), Value2(s[5..7]), Value2(s[8..10]));
      if InRange(d) then Some(d) else None
    else None
  }

  /** Parsing what `Format` prints gives back the date. */
  lemma ParseFormat(d: Date)
    requires InRange(d)
    ensures ParseDate(Format(d)) == Some(d)
  {
    var s := Format(d);
    assert s[0..4] == Pad4(d.year);
    assert s[5..7] == Pad2(d.month);
    assert s[8..10] == Pad2(d.day);
  }

  /** Reading a two-digit field and printing it again gives the same field. */
  lemma Value2RoundTrip(s: string)
    requires |s| == 2 && AllDigits(s)
    ensures Pad2(Value2(s)) == s
  {
    Pad2Unique();
    assert IsPad2(s, Value2(s));
  }

  /** Reading a four-digit field and printing it again gives the same field. */
  lemma Value4RoundTrip(s: string)
    requires |s| == 4 && AllDigits(s)
    ensures Pad4(Value4(s)) == s
  {
    Pad4Unique();
    assert IsPad4(s, Value4(s));
  }

  /** The parser is strict: whatever it accepts is exactly what `Format` prints for the parsed date. */
  lemma FormatParse(s: string)
    requires ParseDate(s).Some?
    ensures Format(ParseDate(s).value) == s
  {
    Value4RoundTrip(s[0..4]);
    Value2RoundTrip(s[5..7]);
    Value2RoundTrip(s[8..10]);
    assert s == s[0..4] + "-" + s[5..7] + "-" + s[8..10];
  }

  /** Distinct dates print as distinct strings. */
  lemma FormatInjective(a: Date, b: Date)
    requires InRange(a) && InRange(b) && Format(a) == Format(b)
    ensures a == b
  {
    ParseFormat(a);
    ParseFormat(b);
  }
}
