/**
 * `TweetScraper.date_rng`: every calendar day from `start` to `end`, both included, as
 * `YYYY-MM-DD`. Both arguments are midnight datetimes, represented by their day
 * ordinals, so `(end - start).days` is the difference of the ordinals.
 */
module DayRange {
  import opened Wrappers
  import opened Calendar

  /** An ordinal that names a date `datetime` can hold. */
  predicate IsDayOrdinal(n: int) { 1 <= n <= MaxOrdinal }

  /** Every ordinal from `start` to `end` names a date `datetime` can hold. */
  lemma DaysInRange(start: int, end: int)
    requires IsDayOrdinal(start) && IsDayOrdinal(end)
    ensures forall n :: start <= n <= end ==> InRange(FromOrdinal(n))
  {
    forall n | start <= n <= end
      ensures InRange(FromOrdinal(n))
    {
      FromOrdinalInRange(n);
    }
  }

  /** The datetimes `start + timedelta(days=i)` for `i` in `range(delta.days + 1)`. */
  function Days(start: int, end: int): (ds: seq<Date>)
    requires IsDayOrdinal(start) && IsDayOrdinal(end)
    ensures |ds| == if start <= end then end - start + 1 else 0
    ensures forall i :: 0 <= i < |ds| ==> ds[i] == FromOrdinal(start + i) && InRange(ds[i])
  {
    DaysInRange(start, end);
    var count := if end - start + 1 > 0 then end - start + 1 else 0;
    seq(count, i requires 0 <= i < count => FromOrdinal(start + i))
  }

  /** `date_rng(start, end)`: each of those days formatted with `strftime("%Y-%m-%d")`. */
  function DateRange(start: int, end: int): (days: seq<string>)
    requires IsDayOrdinal(start) && IsDayOrdinal(end)
    ensures |days| == |Days(start, end)|
    ensures forall i :: 0 <= i < |days| ==> days[i] == Format(Days(start, end)[i])
  {
    var ds := Days(start, end);
    seq(|ds|, i requires 0 <= i < |ds| => Format(ds[i]))
  }

  /** The range of two parsed dates is empty exactly when `end` comes before `start`. */
  lemma {:induction false} DateRangeEmptyIff(start: Date, end: Date)
    requires InRange(start) && InRange(end)
    ensures IsDayOrdinal(Ordinal(start)) && IsDayOrdinal(Ordinal(end))
    ensures DateRange(Ordinal(start), Ordinal(end)) == [] <==> Before(end, start)
  {
    OrdinalAtMostMax(start);
    OrdinalAtMostMax(end);
    OrdinalOrder(end, start);
  }

  /** A non-empty range of ordinals starts at day `start` and ends at day `end`. */
  lemma {:induction false} DaysEndpoints(start: int, end: int)
    requires IsDayOrdinal(start) && IsDayOrdinal(end) && start <= end
    ensures var ds := Days(start, end);
            |ds| == end - start + 1 && ds[0] == FromOrdinal(start) && ds[|ds| - 1] == FromOrdinal(end)
  {
    assert Days(start, end)[end - start] == FromOrdinal(start + (end - start));
  }

  /** For `start` no later than `end`, the days run from `start` to `end`. */
  lemma {:induction false} DaysEnds(start: Date, end: Date)
    requires InRange(start) && InRange(end) && !Before(end, start)
    ensures IsDayOrdinal(Ordinal(start)) && IsDayOrdinal(Ordinal(end))
    ensures var ds := Days(Ordinal(start), Ordinal(end));
            |ds| >= 1 && ds[0] == start && ds[|ds| - 1] == end
  {
    OrdinalAtMostMax(start);
    OrdinalAtMostMax(end);
    OrdinalOrder(end, start);
    FromOrdinalOfOrdinal(start);
    FromOrdinalOfOrdinal(end);
    DaysFromTo(Ordinal(start), Ordinal(end), start, end);
  }

  /** The days from ordinal `a` to ordinal `b` start at the day numbered `a` and end at the one numbered `b`. */
  lemma DaysFromTo(a: int, b: int, x: Date, y: Date)
    requires IsDayOrdinal(a) && IsDayOrdinal(b) && a <= b && FromOrdinal(a) == x && FromOrdinal(b) == y
    ensures |Days(a, b)| >= 1 && Days(a, b)[0] == x && Days(a, b)[|Days(a, b)| - 1] == y
  {
    DaysEndpoints(a, b);
  }

  /** Each day is the calendar day after the one before it. */
  lemma {:induction false} DaysConsecutive(start: int, end: int, i: int)
    requires IsDayOrdinal(start) && IsDayOrdinal(end)
    requires 0 <= i && i + 1 < |Days(start, end)|
    ensures Days(start, end)[i + 1] == NextDay(Days(start, end)[i])
  {
    var n := start + i;
    assert Days(start, end)[i + 1] == FromOrdinal(n + 1);
    FromOrdinalSucc(n);
  }

  /** The days are strictly increasing in calendar order. */
  lemma {:induction false} DaysIncreasing(start: int, end: int, i: int, j: int)
    requires IsDayOrdinal(start) && IsDayOrdinal(end)
    requires 0 <= i < j < |Days(start, end)|
    ensures Before(Days(start, end)[i], Days(start, end)[j])
  {
    FromOrdinalIncreasing(start + i, start + j);
  }

  /** Element `i` of the range parses back to day `i`. */
  lemma {:induction false} DateRangeParses(start: int, end: int, i: int)
    requires IsDayOrdinal(start) && IsDayOrdinal(end)
    requires 0 <= i < |DateRange(start, end)|
    ensures ParseDate(DateRange(start, end)[i]) == Some(Days(start, end)[i])
  {
    ParseFormat(Days(start, end)[i]);
  }

  /** No day string appears twice in the range. */
  lemma {:induction false} DateRangeDistinct(start: int, end: int, i: int, j: int)
    requires IsDayOrdinal(start) && IsDayOrdinal(end)
    requires 0 <= i < j < |DateRange(start, end)|
    ensures DateRange(start, end)[i] != DateRange(start, end)[j]
  {
    DaysIncreasing(start, end, i, j);
    if DateRange(start, end)[i] == DateRange(start, end)[j] {
      FormatInjective(Days(start, end)[i], Days(start, end)[j]);
    }
  }
}

/** Worked examples of the day range, on the dates the command line uses by default. */
module DayRangeExamples {
  import opened Calendar
  import opened DayRange

  lemma FormatDec31()
    ensures Format(Date(2021, 12, 31)) == "2021-12-31"
  {
    Value4RoundTrip("2021");
    Value2RoundTrip("12");
    Value2RoundTrip("31");
  }

  lemma FormatJan1()
    ensures Format(Date(2022, 1, 1)) == "2022-01-01"
  {
    Value4RoundTrip("2022");
    Value2RoundTrip("01");
  }

  lemma FormatJan2()
    ensures Format(Date(2022, 1, 2)) == "2022-01-02"
  {
    Value4RoundTrip("2022");
    Value2RoundTrip("01");
    Value2RoundTrip("02");
  }

  lemma FormatJan3()
    ensures Format(Date(2022, 1, 3)) == "2022-01-03"
  {
    Value4RoundTrip("2022");
    Value2RoundTrip("01");
    Value2RoundTrip("03");
  }

  /** Formatting a list of three days. */
  lemma FormatThree(start: int, end: int, a: Date, b: Date, c: Date)
    requires IsDayOrdinal(start) && IsDayOrdinal(end) && Days(start, end) == [a, b, c]
    ensures InRange(a) && InRange(b) && InRange(c)
    ensures DateRange(start, end) == [Format(a), Format(b), Format(c)]
  {
    assert Days(start, end)[0] == a && Days(start, end)[1] == b && Days(start, end)[2] == c;
  }

  /** Formatting a list of two days. */
  lemma FormatTwo(start: int, end: int, a: Date, b: Date)
    requires IsDayOrdinal(start) && IsDayOrdinal(end) && Days(start, end) == [a, b]
    ensures InRange(a) && InRange(b)
    ensures DateRange(start, end) == [Format(a), Format(b)]
  {
    assert Days(start, end)[0] == a && Days(start, end)[1] == b;
  }

  lemma OrdinalExample(start: int, end: int)
    requires start == Ordinal(Date(2022, 1, 1)) && end == Ordinal(Date(2022, 1, 3))
    ensures IsDayOrdinal(start) && IsDayOrdinal(end) && end == start + 2
  {
    OrdinalAtMostMax(Date(2022, 1, 3));
  }

  /** Three consecutive ordinals name a date, the day after it, and the date two days on. */
  lemma DaysOfThree(start: int, end: int, a: Date, c: Date)
    requires InRange(a) && InRange(c) && start == Ordinal(a) && end == Ordinal(c) && end == start + 2
    ensures IsDayOrdinal(start) && IsDayOrdinal(end)
    ensures Days(start, end) == [a, NextDay(a), c]
  {
    OrdinalAtMostMax(a);
    OrdinalAtMostMax(c);
    DaysEndpoints(start, end);
    DaysConsecutive(start, end, 0);
    FromOrdinalOfOrdinal(a);
    FromOrdinalOfOrdinal(c);
  }

  lemma ThreeDays(start: int, end: int)
    requires start == Ordinal(Date(2022, 1, 1)) && end == Ordinal(Date(2022, 1, 3))
    ensures IsDayOrdinal(start) && IsDayOrdinal(end)
    ensures Days(start, end) == [Date(2022, 1, 1), Date(2022, 1, 2), Date(2022, 1, 3)]
  {
    OrdinalExample(start, end);
    DaysOfThree(start, end, Date(2022, 1, 1), Date(2022, 1, 3));
  }

  /** `date_rng(2022-01-01, 2022-01-03)` lists the three days. */
  lemma DateRangeThreeDays(start: int, end: int)
    requires start == Ordinal(Date(2022, 1, 1)) && end == Ordinal(Date(2022, 1, 3))
    ensures IsDayOrdinal(start) && IsDayOrdinal(end)
    ensures DateRange(start, end) == ["2022-01-01", "2022-01-02", "2022-01-03"]
  {
    ThreeDays(start, end);
    FormatThree(start, end, Date(2022, 1, 1), Date(2022, 1, 2), Date(2022, 1, 3));
    FormatJan1();
    FormatJan2();
    FormatJan3();
  }

  /** Two consecutive ordinals name a date and the day after it. */
  lemma DaysOfTwo(start: int, end: int, a: Date, b: Date)
    requires InRange(a) && InRange(b) && start == Ordinal(a) && end == Ordinal(b) && end == start + 1
    ensures IsDayOrdinal(start) && IsDayOrdinal(end)
    ensures Days(start, end) == [a, b]
  {
    OrdinalAtMostMax(a);
    OrdinalAtMostMax(b);
    DaysEndpoints(start, end);
    FromOrdinalOfOrdinal(a);
    FromOrdinalOfOrdinal(b);
  }

  lemma TwoDays(start: int, end: int)
    requires start == Ordinal(Date(2021, 12, 31)) && end == Ordinal(Date(2022, 1, 1))
    ensures IsDayOrdinal(start) && IsDayOrdinal(end)
    ensures Days(start, end) == [Date(2021, 12, 31), Date(2022, 1, 1)]
  {
    OrdinalOfNextDay(Date(2021, 12, 31));
    DaysOfTwo(start, end, Date(2021, 12, 31), Date(2022, 1, 1));
  }

  /** The command line's default window, 2021-12-31 to 2022-01-01, crosses a year boundary and holds two days. */
  lemma DateRangeDefaultWindow(start: int, end: int)
    requires start == Ordinal(Date(2021, 12, 31)) && end == Ordinal(Date(2022, 1, 1))
    ensures IsDayOrdinal(start) && IsDayOrdinal(end)
    ensures DateRange(start, end) == ["2021-12-31", "2022-01-01"]
  {
    TwoDays(start, end);
    FormatTwo(start, end, Date(2021, 12, 31), Date(2022, 1, 1));
    FormatDec31();
    FormatJan1();
  }
}
