/**
 * The command line at the bottom of `tweet_scrape.py`: the arguments `argparse` hands over,
 * the three checks made on them, and the `TweetScraper` they build, whose constructor parses
 * the two dates. Each failure is the `ValueError` the program raises before any page is loaded.
 */
module Cli {
  import opened Wrappers
  import opened Text
  import opened Calendar
  import opened DayRange
  import opened Query
  import opened Orchestrator

  /** The parsed command line: three positional arguments and six options. */
  datatype Args = Args(
    chromedriverPath: string,
    coinName: string,
    coinAbbrv: string,
    dateStart: string,
    dateEnd: string,
    minFaves: int,
    minRetweets: int,
    minReplies: int,
    page: string)

  const DefaultStart := "2021-12-31"
  const DefaultEnd := "2022-01-01"
  const DefaultPage := "top"

  /** The arguments when only the three positional ones are given. */
  function WithDefaults(chromedriverPath: string, coinName: string, coinAbbrv: string): (a: Args)
    ensures a.dateStart == DefaultStart && a.dateEnd == DefaultEnd && a.page == DefaultPage
    ensures a.minFaves == 0 && a.minRetweets == 0 && a.minReplies == 0
  {
    Args(chromedriverPath, coinName, coinAbbrv, DefaultStart, DefaultEnd, 0, 0, 0, DefaultPage)
  }

  /** The `ValueError`s raised before scraping starts. */
  datatype CliError = SpaceInCoinName | SpaceInCoinAbbrv | BadPage | BadDateFormat

  /** The page choices, compared after lower-casing. */
  predicate PageChoice(page: string) {
    Lower(page) == "top" || Lower(page) == "latest"
  }

  /** The three checks, in the program's order; the first that fails is reported. */
  function Validate(a: Args): (r: Result<Args, CliError>)
    ensures r.Ok? ==> r.value == a
    ensures r.Ok? <==> ' ' !in a.coinName && ' ' !in a.coinAbbrv && PageChoice(a.page)
    ensures r == Err(SpaceInCoinName) <==> ' ' in a.coinName
    ensures r == Err(SpaceInCoinAbbrv) <==> ' ' !in a.coinName && ' ' in a.coinAbbrv
    ensures r == Err(BadPage) <==> ' ' !in a.coinName && ' ' !in a.coinAbbrv && !PageChoice(a.page)
  {
    if ' ' in a.coinName then Err(SpaceInCoinName)
    else if ' ' in a.coinAbbrv then Err(SpaceInCoinAbbrv)
    else if !PageChoice(a.page) then Err(BadPage)
    else Ok(a)
  }

  /** The page check ignores case: a page passes exactly when its lower-cased form does. */
  lemma PageChoiceIgnoresCase(page: string)
    ensures PageChoice(page) <==> PageChoice(Lower(page))
  {
    LowerIdempotent(page);
  }

  /** A `TweetScraper` as its constructor leaves it. */
  datatype Scraper = Scraper(chromedriverPath: string, start: Date, end: Date, search: Search)

  /** The language every command-line run searches in: the constructor's default. */
  const Language := "en"

  /** `TweetScraper(**CL_PARAMS)`: both dates must parse, else the `ValueError` on the date format. */
  function Construct(a: Args): (r: Result<Scraper, CliError>)
    ensures r.Ok? <==> ParseDate(a.dateStart).Some? && ParseDate(a.dateEnd).Some?
    ensures r.Err? ==> r.error == BadDateFormat
    ensures r.Ok? ==> r.value.search.language == Language && r.value.search.page == a.page
  {
    match (ParseDate(a.dateStart), ParseDate(a.dateEnd))
    case (Some(start), Some(end)) =>
      Ok(Scraper(a.chromedriverPath, start, end,
                 Search(a.coinName, a.coinAbbrv, a.minFaves, a.minRetweets, a.minReplies, a.page, Language)))
    case _ => Err(BadDateFormat)
  }

  /** The constructed scraper holds dates in the range `strftime` can print, and they print back as given. */
  lemma ConstructKeepsDates(a: Args)
    requires Construct(a).Ok?
    ensures InRange(Construct(a).value.start) && InRange(Construct(a).value.end)
    ensures Format(Construct(a).value.start) == a.dateStart && Format(Construct(a).value.end) == a.dateEnd
  {
    FormatParse(a.dateStart);
    FormatParse(a.dateEnd);
  }

  /**
   * The checks, then the constructor: what the program has when `run_scraper` starts.
   * A launch succeeds exactly when the checks pass and both dates parse; a bad name or page
   * is reported before a bad date.
   */
  function Launch(a: Args): (r: Result<Scraper, CliError>)
    ensures r.Ok? <==> Validate(a).Ok? && ParseDate(a.dateStart).Some? && ParseDate(a.dateEnd).Some?
    ensures Validate(a).Err? ==> r == Err(Validate(a).error)
  {
    match Validate(a)
    case Err(e) => Err(e)
    case Ok(_) => Construct(a)
  }

  /** `date_rng(self.date_start, self.date_end)`: the days the run visits. */
  function Dates(sc: Scraper): (days: seq<string>)
    requires InRange(sc.start) && InRange(sc.end)
    ensures |days| > 0 <==> !Before(sc.end, sc.start)
  {
    DateRangeEmptyIff(sc.start, sc.end);
    DateRange(Ordinal(sc.start), Ordinal(sc.end))
  }

  /** No day comes twice in the days of a run. */
  lemma DatesDistinct(sc: Scraper)
    requires InRange(sc.start) && InRange(sc.end)
    ensures forall i, j :: 0 <= i < j < |Dates(sc)| ==> Dates(sc)[i] != Dates(sc)[j]
  {
    OrdinalAtMostMax(sc.start);
    OrdinalAtMostMax(sc.end);
    var start, end := Ordinal(sc.start), Ordinal(sc.end);
    assert Dates(sc) == DateRange(start, end);
    forall i, j | 0 <= i < j < |DateRange(start, end)|
      ensures DateRange(start, end)[i] != DateRange(start, end)[j]
    {
      DateRangeDistinct(start, end, i, j);
    }
  }

  /** The days of a launched run begin with the start date as given. */
  lemma DatesOfLaunch(a: Args)
    requires Launch(a).Ok?
    ensures InRange(Launch(a).value.start) && InRange(Launch(a).value.end)
    ensures |Dates(Launch(a).value)| > 0 ==> Dates(Launch(a).value)[0] == a.dateStart
  {
    var sc := Launch(a).value;
    ConstructKeepsDates(a);
    OrdinalAtMostMax(sc.start);
    OrdinalAtMostMax(sc.end);
    var start, end := Ordinal(sc.start), Ordinal(sc.end);
    if |DateRange(start, end)| > 0 {
      FromOrdinalOfOrdinal(sc.start);
    }
  }

  /** A run over the days of a scraper never writes two of its exports to the same file. */
  lemma RunWritesDistinctFiles(sc: Scraper, env: Browser)
    requires InRange(sc.start) && InRange(sc.end)
    ensures DistinctFiles(sc.search, Dates(sc), Run(env, sc.search, Dates(sc)).written)
  {
    DatesDistinct(sc);
    RunPathsDistinct(env, sc.search, Dates(sc));
  }

  /** A printed date has nothing to escape and no percent sign. */
  lemma FormatPlain(d: Date)
    requires InRange(d)
    ensures Plain(Format(d)) && NoPercent(Format(d))
  {
    var s := Format(d);
    assert s == Pad4(d.year) + "-" + Pad2(d.month) + "-" + Pad2(d.day);
    forall i | 0 <= i < |s|
      ensures s[i] != ' ' && s[i] != ':' && s[i] != '%'
    {
      if i < 4 {
        assert s[i] == Pad4(d.year)[i];
      } else if 5 <= i < 7 {
        assert s[i] == Pad2(d.month)[i - 5];
      } else if 8 <= i {
        assert s[i] == Pad2(d.day)[i - 8];
      }
    }
  }

  /**
   * Every window URL of a scraper is the search address, the escaped search text and the
   * page in lower case, and the text unescapes back, when the coin name and abbreviation
   * have nothing to escape and no percent sign.
   */
  lemma WindowUrlEncodes(sc: Scraper, i: nat)
    requires InRange(sc.start) && InRange(sc.end) && sc.search.language == Language
    requires Plain(sc.search.coinName) && Plain(sc.search.coinAbbrv)
    requires NoPercent(sc.search.coinName) && NoPercent(sc.search.coinAbbrv)
    requires i + 1 < |Dates(sc)|
    ensures var ds := Dates(sc);
            var text := SearchText(sc.search, ds[i], ds[i + 1]);
            WindowUrl(sc.search, ds, i) == SearchUrl + Escape(text) + PageParam + Lower(sc.search.page) &&
            Unescape(Escape(text)) == text
  {
    OrdinalAtMostMax(sc.start);
    OrdinalAtMostMax(sc.end);
    var start, end := Ordinal(sc.start), Ordinal(sc.end);
    var ds := Dates(sc);
    assert ds == DateRange(start, end);
    FormatPlain(Days(start, end)[i]);
    FormatPlain(Days(start, end)[i + 1]);
    assert Plain(Language) && NoPercent(Language);
    QueryEncodesSearch(sc.search, ds[i], ds[i + 1]);
  }

  /** A text the checks let through has nothing to escape once it also holds no colon. */
  lemma PlainWithoutSpaceOrColon(t: string)
    requires ' ' !in t && ':' !in t && '%' !in t
    ensures Plain(t) && NoPercent(t)
  {
    forall i | 0 <= i < |t|
      ensures t[i] != ' ' && t[i] != ':' && t[i] != '%'
    {
      assert t[i] in t;
    }
  }

  /**
   * Every window URL of a launched run ends in `top` or `latest` after the escaped search text,
   * and the text unescapes back, when the coin name and abbreviation hold no colon and no
   * percent sign (the checks rule out only spaces).
   */
  lemma LaunchedWindowUrl(a: Args, i: nat)
    requires Launch(a).Ok?
    requires ':' !in a.coinName && ':' !in a.coinAbbrv && '%' !in a.coinName && '%' !in a.coinAbbrv
    requires InRange(Launch(a).value.start) && InRange(Launch(a).value.end)
    requires i + 1 < |Dates(Launch(a).value)|
    ensures var sc := Launch(a).value;
            var ds := Dates(sc);
            var text := SearchText(sc.search, ds[i], ds[i + 1]);
            (WindowUrl(sc.search, ds, i) == SearchUrl + Escape(text) + PageParam + "top" ||
             WindowUrl(sc.search, ds, i) == SearchUrl + Escape(text) + PageParam + "latest") &&
            Unescape(Escape(text)) == text
  {
    var sc := Launch(a).value;
    assert sc.search.coinName == a.coinName && sc.search.coinAbbrv == a.coinAbbrv && sc.search.page == a.page;
    PlainWithoutSpaceOrColon(a.coinName);
    PlainWithoutSpaceOrColon(a.coinAbbrv);
    WindowUrlEncodes(sc, i);
  }
}

/** The run the command line starts when only the positional arguments are given. */
module CliExamples {
  import opened Wrappers
  import opened Text
  import opened Calendar
  import opened DayRange
  import opened DayRangeExamples
  import opened Query
  import opened Cli

  lemma ParseDefaults()
    ensures ParseDate(DefaultStart) == Some(Date(2021, 12, 31))
    ensures ParseDate(DefaultEnd) == Some(Date(2022, 1, 1))
  {
    FormatDec31();
    FormatJan1();
    ParseFormat(Date(2021, 12, 31));
    ParseFormat(Date(2022, 1, 1));
  }

  lemma DefaultPageAccepted()
    ensures PageChoice(DefaultPage)
  {
    assert Lower(DefaultPage) == "top";
  }

  /** With the default dates the run has one window, from 2021-12-31 until 2022-01-01, searched in English. */
  lemma DefaultRun(chromedriverPath: string, coinName: string, coinAbbrv: string)
    requires ' ' !in coinName && ' ' !in coinAbbrv
    ensures Launch(WithDefaults(chromedriverPath, coinName, coinAbbrv)).Ok?
    ensures var sc := Launch(WithDefaults(chromedriverPath, coinName, coinAbbrv)).value;
            InRange(sc.start) && InRange(sc.end) &&
            Dates(sc) == ["2021-12-31", "2022-01-01"] &&
            sc.search == Search(coinName, coinAbbrv, 0, 0, 0, "top", "en")
  {
    ParseDefaults();
    DefaultPageAccepted();
    var a := WithDefaults(chromedriverPath, coinName, coinAbbrv);
    var sc := Launch(a).value;
    assert sc.start == Date(2021, 12, 31) && sc.end == Date(2022, 1, 1);
    DateRangeDefaultWindow(Ordinal(sc.start), Ordinal(sc.end));
  }

  /** A name with a space is refused before the dates are looked at. */
  lemma SpacedName(chromedriverPath: string)
    ensures Launch(WithDefaults(chromedriverPath, "Shiba Inu", "SHIB")) == Err(SpaceInCoinName)
  {
    assert "Shiba Inu"[5] == ' ';
  }

  /** The page is compared without case, and anything but the two choices is refused. */
  lemma PageChoices()
    ensures PageChoice("Latest") && PageChoice("TOP")
    ensures !PageChoice("new")
  {
    assert Lower("Latest") == "latest";
    assert Lower("TOP") == "top";
    assert Lower("new")[0] == 'n' && |Lower("new")| == 3;
  }
}
