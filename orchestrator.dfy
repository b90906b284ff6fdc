/**
 * `TweetScraper.run_scraper`: one search per day window `(dates[i], dates[i + 1])`,
 * each scraped and exported to its own file, with the three `except` clauses deciding
 * what a failed attempt does. The browser is an oracle: what loading a URL does on the
 * attempt made with a given `err_counter`.
 */
module Orchestrator {
  import opened Wrappers
  import opened Query
  import opened PageScraper
  import opened Export

  /** The exception classes an attempt can raise. */
  datatype ExceptionClass =
    | TimeoutException
    | WebDriverException
    | IndexError
    | AssertionError
    | PlainException

  /** The `except` clauses of the day loop, in the order they are written. */
  datatype Clause = ExceptTimeout | ExceptWebDriver | ExceptAny

  const Clauses: seq<Clause> := [ExceptTimeout, ExceptWebDriver, ExceptAny]

  /**
   * The clause names a base class of `c`: Selenium's `TimeoutException` derives from
   * `WebDriverException`, and every class here derives from `Exception`.
   */
  predicate Catches(h: Clause, c: ExceptionClass) {
    match h
    case ExceptTimeout => c == TimeoutException
    case ExceptWebDriver => c == TimeoutException || c == WebDriverException
    case ExceptAny => true
  }

  /** The clause that handles `c`: the first one, in order, that catches it. */
  function Handler(c: ExceptionClass): (h: Clause)
    ensures Catches(h, c)
    ensures exists k :: 0 <= k < |Clauses| && Clauses[k] == h && forall j :: 0 <= j < k ==> !Catches(Clauses[j], c)
  {
    if Catches(ExceptTimeout, c) then
      assert Clauses[0] == ExceptTimeout;
      ExceptTimeout
    else if Catches(ExceptWebDriver, c) then
      assert Clauses[1] == ExceptWebDriver && !Catches(Clauses[0], c);
      ExceptWebDriver
    else
      assert Clauses[2] == ExceptAny && !Catches(Clauses[0], c) && !Catches(Clauses[1], c);
      ExceptAny
  }

  /** A timeout is handled by its own clause, though the driver-error clause would catch it too. */
  lemma TimeoutHandledFirst()
    ensures Catches(ExceptWebDriver, TimeoutException)
    ensures Handler(TimeoutException) == ExceptTimeout
    ensures Handler(WebDriverException) == ExceptWebDriver
  {
  }

  /** The exception a failed scrape raises: `web_elems[-1]`, the length assertion, or the scroll limit. */
  function Raised(e: ScrapeError): (c: ExceptionClass)
    ensures c != TimeoutException && c != WebDriverException
  {
    match e
    case NoElements => IndexError
    case CountMismatch => AssertionError
    case ScrollLimit => PlainException
  }

  /** Every failed scrape is handled by `except Exception`. */
  lemma ScrapeErrorsCaughtLast(e: ScrapeError)
    ensures Handler(Raised(e)) == ExceptAny
  {
  }

  /**
   * What the browser does on one attempt: the page loads and shows the batches the scroll
   * loop reads, or `driver.get` or the wait for a `time` element raises first.
   */
  datatype Visit = Loaded(feed: nat -> Batch) | Raises(c: ExceptionClass)

  /** The browser: what loading `url` does on the attempt made with a given `err_counter`. */
  type Browser = (string, nat) -> Visit

  /** What the loop does after an attempt: export the data and advance, retry the window, or advance. */
  datatype Action = Write(data: set<Pair>) | Retry | Skip

  /** The `try` block: the scraped set, or the exception it raised. */
  ghost function TryBlock(v: Visit): (r: Result<set<Pair>, ExceptionClass>)
    ensures r.Ok? <==> v.Loaded? && ScrapeResult(v.feed).Ok?
    ensures r.Ok? ==> r.value == ScrapeResult(v.feed).value
    ensures r == Err(TimeoutException) || r == Err(WebDriverException) ==> v == Raises(r.error)
  {
    match v
    case Raises(c) => Err(c)
    case Loaded(feed) =>
      match ScrapeResult(feed)
      case Ok(full) => Ok(full)
      case Err(e) => Err(Raised(e))
  }

  /** The action of an attempt: a timeout exports no rows, a driver error retries, any other error skips the day. */
  ghost function ActionOf(v: Visit): (a: Action)
    ensures a == Retry <==> TryBlock(v) == Err(WebDriverException)
    ensures a == Write({}) <== TryBlock(v) == Err(TimeoutException)
    ensures a.Write? <==> TryBlock(v).Ok? || TryBlock(v) == Err(TimeoutException)
    ensures a == Skip <==> TryBlock(v).Err? && TryBlock(v).error != TimeoutException && TryBlock(v).error != WebDriverException
  {
    match TryBlock(v)
    case Ok(full) => Write(full)
    case Err(c) =>
      match Handler(c)
      case ExceptTimeout => Write({})
      case ExceptWebDriver => Retry
      case ExceptAny => Skip
  }

  /** A page that loads is exported when its scrape returns a set, and skipped when the scrape fails. */
  lemma LoadedAction(feed: nat -> Batch)
    ensures ScrapeResult(feed).Ok? ==> ActionOf(Loaded(feed)) == Write(ScrapeResult(feed).value)
    ensures ScrapeResult(feed).Err? ==> ActionOf(Loaded(feed)) == Skip
  {
    if ScrapeResult(feed).Err? {
      ScrapeErrorsCaughtLast(ScrapeResult(feed).error);
    }
  }

  /** The number of driver errors that ends the run. */
  const MaxFaults := 5

  /** The URL of window `i`: from `dates[i]` until `dates[i + 1]`. */
  function WindowUrl(s: Search, dates: seq<string>, i: nat): (url: string)
    requires i + 1 < |dates|
    ensures SearchUrl <= url
  {
    QueryString(s, dates[i], dates[i + 1])
  }

  /** A window exported: its index and the data written. */
  datatype Written = Written(window: nat, data: set<Pair>)

  /** Where the loop ends: what it exported, and its final `i` and `err_counter`. */
  datatype RunEnd = RunEnd(written: seq<Written>, i: nat, errCounter: nat)

  /** `written` followed by the exports of a run that continues to `r`. */
  function After(written: seq<Written>, r: RunEnd): RunEnd {
    RunEnd(written + r.written, r.i, r.errCounter)
  }

  /** What the loop does after the attempt on window `i` made with a given `err_counter`. */
  type Actions = (nat, nat) -> Action

  /** The actions the browser leads to, window by window. */
  ghost function Acts(env: Browser, s: Search, dates: seq<string>): Actions {
    (i: nat, errs: nat) => if i + 1 < |dates| then ActionOf(env(WindowUrl(s, dates, i), errs)) else Skip
  }

  /** The day loop from window `i` with `err_counter == errs`. */
  function RunFrom(act: Actions, s: Search, dates: seq<string>, i: nat, errs: nat): (r: RunEnd)
    requires errs < MaxFaults
    ensures i <= r.i && errs <= r.errCounter <= MaxFaults
    ensures |r.written| <= (if i + 1 < |dates| then |dates| - 1 - i else 0)
    decreases |dates| - i, MaxFaults - errs
  {
    if i + 1 >= |dates| then RunEnd([], i, errs)
    else
      match act(i, errs)
      case Write(data) => After([Written(i, data)], RunFrom(act, s, dates, i + 1, errs))
      case Skip => RunFrom(act, s, dates, i + 1, errs)
      case Retry => if errs + 1 >= MaxFaults then RunEnd([], i, errs + 1) else RunFrom(act, s, dates, i, errs + 1)
  }

  /** The run of `run_scraper`: from the first window, with no error counted. */
  ghost function Run(env: Browser, s: Search, dates: seq<string>): (r: RunEnd)
    ensures r.errCounter <= MaxFaults && |r.written| < |dates| + 1
    ensures |dates| >= 1 ==> |r.written| <= |dates| - 1
  {
    RunFrom(Acts(env, s, dates), s, dates, 0, 0)
  }

  /** An export goes on the front of the rest of the run. */
  lemma RunWrite(act: Actions, s: Search, dates: seq<string>, i: nat, errs: nat, data: set<Pair>)
    requires i + 1 < |dates| && errs < MaxFaults
    requires act(i, errs) == Write(data)
    ensures RunFrom(act, s, dates, i, errs) == After([Written(i, data)], RunFrom(act, s, dates, i + 1, errs))
  {
  }

  /** A skipped window leaves the rest of the run to the next window. */
  lemma RunSkip(act: Actions, s: Search, dates: seq<string>, i: nat, errs: nat)
    requires i + 1 < |dates| && errs < MaxFaults
    requires act(i, errs) == Skip
    ensures RunFrom(act, s, dates, i, errs) == RunFrom(act, s, dates, i + 1, errs)
  {
  }

  /** A driver error retries the window with one more error counted, or ends the run at the fifth. */
  lemma RunRetry(act: Actions, s: Search, dates: seq<string>, i: nat, errs: nat)
    requires i + 1 < |dates| && errs < MaxFaults
    requires act(i, errs) == Retry
    ensures errs + 1 < MaxFaults ==> RunFrom(act, s, dates, i, errs) == RunFrom(act, s, dates, i, errs + 1)
    ensures errs + 1 >= MaxFaults ==> RunFrom(act, s, dates, i, errs) == RunEnd([], i, errs + 1)
  {
  }

  /** Exports before exports before a run are the exports concatenated before it. */
  lemma AfterAfter(w1: seq<Written>, w2: seq<Written>, r: RunEnd)
    ensures After(w1, After(w2, r)) == After(w1 + w2, r)
  {
    assert w1 + (w2 + r.written) == (w1 + w2) + r.written;
  }

  /** The loop's view of the run after an export: the window's export joins those made so far. */
  lemma StepWrite(act: Actions, s: Search, dates: seq<string>, i: nat, errs: nat, data: set<Pair>, total: RunEnd, written: seq<Written>)
    requires i + 1 < |dates| && errs < MaxFaults
    requires act(i, errs) == Write(data)
    requires total == After(written, RunFrom(act, s, dates, i, errs))
    ensures total == After(written + [Written(i, data)], RunFrom(act, s, dates, i + 1, errs))
  {
    RunWrite(act, s, dates, i, errs, data);
    AfterAfter(written, [Written(i, data)], RunFrom(act, s, dates, i + 1, errs));
  }

  /** The name of a window's file: `{coin_abbrv}_tweets_{end_day}.csv`. */
  function DayFileName(abbrv: string, endDay: string): string {
    abbrv + "_tweets_" + endDay + ".csv"
  }

  /** The folder of the coin's files: `Tweets/{coin_name}`. */
  function DayFolder(name: string): string {
    "Tweets/" + name
  }

  /** The path of the file for the window ending on `endDay`. */
  function DayPath(s: Search, endDay: string): (p: string)
    ensures p == "Tweets/" + s.coinName + "/" + s.coinAbbrv + "_tweets_" + endDay + ".csv"
  {
    TargetPath(DayFileName(s.coinAbbrv, endDay), Some(DayFolder(s.coinName)))
  }

  /** `|a|` characters in, a string starting with `a` continues with what followed `a`. */
  lemma SkipPrefix(a: string, x: string)
    ensures (a + x)[|a|..] == x
  {
  }

  /** Different end days give different paths. */
  lemma DayPathInjective(s: Search, d1: string, d2: string)
    requires DayPath(s, d1) == DayPath(s, d2)
    ensures d1 == d2
  {
    var a := "Tweets/" + s.coinName + "/" + s.coinAbbrv + "_tweets_";
    var p1, p2 := DayPath(s, d1), DayPath(s, d2);
    assert p1 == a + (d1 + ".csv") && p2 == a + (d2 + ".csv");
    SkipPrefix(a, d1 + ".csv");
    SkipPrefix(a, d2 + ".csv");
    assert d1 + ".csv" == d2 + ".csv";
    assert |d1| == |d2|;
    assert d1 == (d1 + ".csv")[..|d1|];
  }

  /** The file of a window splits back into the coin's folder and the window's file name. */
  lemma DayPathSplits(s: Search, endDay: string)
    requires IsFileName(s.coinAbbrv) && IsFileName(endDay)
    ensures SplitPath(DayPath(s, endDay)) == (Some(DayFolder(s.coinName)), DayFileName(s.coinAbbrv, endDay))
  {
    var name := DayFileName(s.coinAbbrv, endDay);
    forall k | 0 <= k < |name|
      ensures name[k] != '/'
    {
      if k < |s.coinAbbrv| {
        assert name[k] == s.coinAbbrv[k];
      } else if k < |s.coinAbbrv| + 8 {
        assert name[k] == "_tweets_"[k - |s.coinAbbrv|];
      } else if k < |s.coinAbbrv| + 8 + |endDay| {
        assert name[k] == endDay[k - |s.coinAbbrv| - 8];
      } else {
        assert name[k] == ".csv"[k - |s.coinAbbrv| - 8 - |endDay|];
      }
    }
    SplitTarget(name, Some(DayFolder(s.coinName)));
  }

  /** The files of a run: one per exported window, at its path, holding its data once each after the header. */
  ghost predicate Exported(files: seq<CsvFile>, written: seq<Written>, s: Search, dates: seq<string>) {
    |files| == |written| &&
    forall k :: 0 <= k < |files| ==>
      written[k].window + 1 < |dates| &&
      files[k].path == DayPath(s, dates[written[k].window + 1]) &&
      ReadCsv(files[k].rows).Some? && ListsOnce(ReadCsv(files[k].rows).value, written[k].data)
  }

  /** Adding a window's file to the files of the windows before it. */
  lemma ExportedAppend(files: seq<CsvFile>, written: seq<Written>, s: Search, dates: seq<string>, file: CsvFile, w: Written)
    requires Exported(files, written, s, dates)
    requires w.window + 1 < |dates| && file.path == DayPath(s, dates[w.window + 1])
    requires ReadCsv(file.rows).Some? && ListsOnce(ReadCsv(file.rows).value, w.data)
    ensures Exported(files + [file], written + [w], s, dates)
  {
    var fs, ws := files + [file], written + [w];
    forall k | 0 <= k < |fs|
      ensures ws[k].window + 1 < |dates| && fs[k].path == DayPath(s, dates[ws[k].window + 1]) &&
              ReadCsv(fs[k].rows).Some? && ListsOnce(ReadCsv(fs[k].rows).value, ws[k].data)
    {
      if k < |files| {
        assert fs[k] == files[k] && ws[k] == written[k];
      }
    }
  }

  /** The rows `export_csv` writes for an attempt's data: none after a timeout, the set's tuples otherwise. */
  method ExportWindow(s: Search, dates: seq<string>, i: nat, data: set<Pair>) returns (file: CsvFile)
    requires i + 1 < |dates|
    ensures file.path == DayPath(s, dates[i + 1])
    ensures ReadCsv(file.rows).Some? && ListsOnce(ReadCsv(file.rows).value, data)
    ensures data == {} ==> file.rows == [Header]
  {
    var rows := ListRows(data);
    file := ExportCsv(DayFileName(s.coinAbbrv, dates[i + 1]), rows, Some(DayFolder(s.coinName)));
    ReadExport(DayFileName(s.coinAbbrv, dates[i + 1]), rows, Some(DayFolder(s.coinName)));
  }

  /** One attempt: load the window's URL and scrape it, giving the set or the exception raised. */
  method Attempt(env: Browser, url: string, errs: nat) returns (r: Result<set<Pair>, ExceptionClass>)
    ensures r == TryBlock(env(url, errs))
  {
    match env(url, errs)
    case Raises(c) =>
      r := Err(c);
    case Loaded(feed) =>
      var full, log := ScrapeFullPage(feed);
      match full
      case Ok(pairs) => r := Ok(pairs);
      case Err(e) => r := Err(Raised(e));
  }

  /** An attempt and its `except` clause: what the loop does next. */
  method AttemptAction(env: Browser, s: Search, dates: seq<string>, i: nat, errs: nat) returns (a: Action)
    requires i + 1 < |dates|
    ensures a == Acts(env, s, dates)(i, errs)
  {
    var r := Attempt(env, WindowUrl(s, dates, i), errs);
    match r
    case Ok(full) =>
      a := Write(full);
    case Err(c) =>
      match Handler(c)
      case ExceptTimeout =>
        a := Write({});
      case ExceptWebDriver =>
        a := Retry;
      case ExceptAny =>
        a := Skip;
  }

  /** The loop's state matches a run that reaches `total`: exports so far, then the run from here. */
  ghost predicate OnTrack(act: Actions, s: Search, dates: seq<string>, total: RunEnd,
                          files: seq<CsvFile>, written: seq<Written>, i: nat, errs: nat)
  {
    errs < MaxFaults && total == After(written, RunFrom(act, s, dates, i, errs)) && Exported(files, written, s, dates)
  }

  /** An export keeps the loop on track: its file joins the others and the run moves to the next window. */
  lemma WriteKeepsTrack(act: Actions, s: Search, dates: seq<string>, total: RunEnd, files: seq<CsvFile>,
                        written: seq<Written>, i: nat, errs: nat, data: set<Pair>, file: CsvFile)
    requires i + 1 < |dates| && OnTrack(act, s, dates, total, files, written, i, errs) && act(i, errs) == Write(data)
    requires file.path == DayPath(s, dates[i + 1]) && ReadCsv(file.rows).Some? && ListsOnce(ReadCsv(file.rows).value, data)
    ensures OnTrack(act, s, dates, total, files + [file], written + [Written(i, data)], i + 1, errs)
  {
    StepWrite(act, s, dates, i, errs, data, total, written);
    ExportedAppend(files, written, s, dates, file, Written(i, data));
  }

  /** A skipped window keeps the loop on track at the next window. */
  lemma SkipKeepsTrack(act: Actions, s: Search, dates: seq<string>, total: RunEnd, files: seq<CsvFile>,
                       written: seq<Written>, i: nat, errs: nat)
    requires i + 1 < |dates| && OnTrack(act, s, dates, total, files, written, i, errs) && act(i, errs) == Skip
    ensures OnTrack(act, s, dates, total, files, written, i + 1, errs)
  {
    RunSkip(act, s, dates, i, errs);
  }

  /** A driver error under the limit keeps the loop on track at the same window; the fifth ends the run. */
  lemma RetryKeepsTrack(act: Actions, s: Search, dates: seq<string>, total: RunEnd, files: seq<CsvFile>,
                        written: seq<Written>, i: nat, errs: nat)
    requires i + 1 < |dates| && OnTrack(act, s, dates, total, files, written, i, errs) && act(i, errs) == Retry
    ensures errs + 1 < MaxFaults ==> OnTrack(act, s, dates, total, files, written, i, errs + 1)
    ensures errs + 1 >= MaxFaults ==> total.written == written
  {
    RunRetry(act, s, dates, i, errs);
    assert written + [] == written;
  }

  /** The end of one pass of the day loop: what the attempt's action does to the loop's state. */
  method Advance(ghost act: Actions, s: Search, dates: seq<string>, ghost total: RunEnd,
                 files: seq<CsvFile>, ghost written: seq<Written>, i: nat, errs: nat, action: Action)
    returns (files': seq<CsvFile>, ghost written': seq<Written>, i': nat, errs': nat, stop: bool)
    requires i + 1 < |dates| && OnTrack(act, s, dates, total, files, written, i, errs)
    requires action == act(i, errs)
    ensures stop ==> total.written == written' && Exported(files', written', s, dates)
    ensures !stop ==> OnTrack(act, s, dates, total, files', written', i', errs')
    ensures !stop ==> (i' == i + 1 && errs' == errs) || (i' == i && errs' == errs + 1)
  {
    stop := false;
    match action
    case Write(data) =>
      var file := ExportWindow(s, dates, i, data);
      WriteKeepsTrack(act, s, dates, total, files, written, i, errs, data, file);
      files', written', i', errs' := files + [file], written + [Written(i, data)], i + 1, errs;
    case Retry =>
      RetryKeepsTrack(act, s, dates, total, files, written, i, errs);
      files', written', i', errs' := files, written, i, errs + 1;
      stop := errs' >= MaxFaults;
    case Skip =>
      SkipKeepsTrack(act, s, dates, total, files, written, i, errs);
      files', written', i', errs' := files, written, i + 1, errs;
  }

  /** `run_scraper`: the files written, one per exported window, in order. */
  method RunScraper(env: Browser, s: Search, dates: seq<string>) returns (files: seq<CsvFile>)
    ensures Exported(files, Run(env, s, dates).written, s, dates)
  {
    var i: nat := 0;
    var errCounter: nat := 0;
    files := [];
    ghost var act := Acts(env, s, dates);
    ghost var total := RunFrom(act, s, dates, 0, 0);
    ghost var written: seq<Written> := [];
    assert total == After([], RunFrom(act, s, dates, i, errCounter));
    while i + 1 < |dates|
      invariant OnTrack(act, s, dates, total, files, written, i, errCounter)
      decreases |dates| - i, MaxFaults - errCounter
    {
      var action := AttemptAction(env, s, dates, i, errCounter);
      var stop;
      files, written, i, errCounter, stop := Advance(act, s, dates, total, files, written, i, errCounter, action);
      if stop {
        return;
      }
    }
    assert total.written == written + [];
  }

  /** The run ends with five driver errors counted, before the last window, or with every window handled. */
  lemma {:induction false} RunEnds(act: Actions, s: Search, dates: seq<string>, i: nat, errs: nat)
    requires errs < MaxFaults
    ensures var r := RunFrom(act, s, dates, i, errs);
            i <= r.i && errs <= r.errCounter <= MaxFaults &&
            (r.errCounter < MaxFaults ==> r.i == if i + 1 < |dates| then |dates| - 1 else i) &&
            (r.errCounter == MaxFaults ==> r.i + 1 < |dates|)
    decreases |dates| - i, MaxFaults - errs
  {
    if i + 1 < |dates| {
      match act(i, errs)
      case Write(data) =>
        RunEnds(act, s, dates, i + 1, errs);
      case Skip =>
        RunEnds(act, s, dates, i + 1, errs);
      case Retry =>
        if errs + 1 < MaxFaults {
          RunEnds(act, s, dates, i, errs + 1);
        }
    }
  }

  /** The windows of `written` lie in `[lo, hi)`, strictly increasing. */
  ghost predicate InOrder(written: seq<Written>, lo: nat, hi: nat) {
    (forall k :: 0 <= k < |written| ==> lo <= written[k].window < hi) &&
    (forall k, l :: 0 <= k < l < |written| ==> written[k].window < written[l].window)
  }

  /** The windows exported lie between the first and the last window handled, each once, in order. */
  lemma {:induction false} WrittenInOrder(act: Actions, s: Search, dates: seq<string>, i: nat, errs: nat)
    requires errs < MaxFaults
    ensures InOrder(RunFrom(act, s, dates, i, errs).written, i, RunFrom(act, s, dates, i, errs).i)
    decreases |dates| - i, MaxFaults - errs
  {
    if i + 1 < |dates| {
      match act(i, errs)
      case Write(data) =>
        WrittenInOrder(act, s, dates, i + 1, errs);
        RunEnds(act, s, dates, i + 1, errs);
        var rest := RunFrom(act, s, dates, i + 1, errs);
        assert RunFrom(act, s, dates, i, errs).written == [Written(i, data)] + rest.written;
      case Skip =>
        WrittenInOrder(act, s, dates, i + 1, errs);
        var r := RunFrom(act, s, dates, i + 1, errs);
        assert RunFrom(act, s, dates, i, errs) == r;
        assert InOrder(r.written, i + 1, r.i);
      case Retry =>
        if errs + 1 < MaxFaults {
          WrittenInOrder(act, s, dates, i, errs + 1);
          assert RunFrom(act, s, dates, i, errs) == RunFrom(act, s, dates, i, errs + 1);
        }
    }
  }

  /** Every export is the data of a `Write` on its window, on an attempt the run made. */
  lemma {:induction false} WrittenByAttempt(act: Actions, s: Search, dates: seq<string>, i: nat, errs: nat, k: nat)
    requires errs < MaxFaults && k < |RunFrom(act, s, dates, i, errs).written|
    ensures var w := RunFrom(act, s, dates, i, errs).written[k];
            exists e :: errs <= e < MaxFaults && act(w.window, e) == Write(w.data)
    decreases |dates| - i, MaxFaults - errs
  {
    var w := RunFrom(act, s, dates, i, errs).written[k];
    match act(i, errs)
    case Write(data) =>
      if k == 0 {
        assert act(w.window, errs) == Write(w.data);
      } else {
        WrittenByAttempt(act, s, dates, i + 1, errs, k - 1);
      }
    case Skip =>
      WrittenByAttempt(act, s, dates, i + 1, errs, k);
    case Retry =>
      WrittenByAttempt(act, s, dates, i, errs + 1, k);
  }

  /** When every window's attempt succeeds, each window from `i` on is exported, in order. */
  lemma {:induction false} AllWritten(act: Actions, s: Search, dates: seq<string>, i: nat, errs: nat)
    requires errs < MaxFaults && forall w :: act(w, errs).Write?
    ensures var r := RunFrom(act, s, dates, i, errs);
            |r.written| == (if i + 1 < |dates| then |dates| - 1 - i else 0) &&
            forall k :: 0 <= k < |r.written| ==> r.written[k] == Written(i + k, act(i + k, errs).data)
    decreases |dates| - i
  {
    if i + 1 < |dates| {
      AllWritten(act, s, dates, i + 1, errs);
    }
  }

  /** Each export names a window of `dates`, and no two exports share a file. */
  ghost predicate DistinctFiles(s: Search, dates: seq<string>, written: seq<Written>) {
    (forall k :: 0 <= k < |written| ==> written[k].window + 1 < |dates|) &&
    (forall k, l :: 0 <= k < l < |written| ==>
       DayPath(s, dates[written[k].window + 1]) != DayPath(s, dates[written[l].window + 1]))
  }

  /** Windows in increasing order over distinct dates go to distinct files. */
  lemma OrderedDistinctFiles(s: Search, dates: seq<string>, written: seq<Written>, hi: nat)
    requires forall a, b :: 0 <= a < b < |dates| ==> dates[a] != dates[b]
    requires InOrder(written, 0, hi) && hi < |dates|
    ensures DistinctFiles(s, dates, written)
  {
    forall k, l | 0 <= k < l < |written|
      ensures DayPath(s, dates[written[k].window + 1]) != DayPath(s, dates[written[l].window + 1])
    {
      var a, b := written[k].window, written[l].window;
      if DayPath(s, dates[a + 1]) == DayPath(s, dates[b + 1]) {
        DayPathInjective(s, dates[a + 1], dates[b + 1]);
      }
    }
  }

  /** With distinct dates, no two exported windows share a file. */
  lemma RunPathsDistinct(env: Browser, s: Search, dates: seq<string>)
    requires forall a, b :: 0 <= a < b < |dates| ==> dates[a] != dates[b]
    ensures DistinctFiles(s, dates, Run(env, s, dates).written)
  {
    var act := Acts(env, s, dates);
    var r := RunFrom(act, s, dates, 0, 0);
    WrittenInOrder(act, s, dates, 0, 0);
    RunEnds(act, s, dates, 0, 0);
    if r.written != [] {
      OrderedDistinctFiles(s, dates, r.written, r.i);
    }
  }

  /** A browser whose every attempt fails with a driver error: five tries on the first window, no export. */
  lemma AlwaysFaulting(act: Actions, s: Search, dates: seq<string>)
    requires |dates| >= 2 && forall e :: act(0, e) == Retry
    ensures RunFrom(act, s, dates, 0, 0) == RunEnd([], 0, MaxFaults)
  {
    assert RunFrom(act, s, dates, 0, 4) == RunEnd([], 0, 5);
    assert RunFrom(act, s, dates, 0, 3) == RunEnd([], 0, 5);
    assert RunFrom(act, s, dates, 0, 2) == RunEnd([], 0, 5);
    assert RunFrom(act, s, dates, 0, 1) == RunEnd([], 0, 5);
  }

  /**
   * Driver errors are counted over the whole run, not per window: two on the first window,
   * which then exports, and three on the second end the run there.
   */
  lemma FaultsAccumulate(act: Actions, s: Search, dates: seq<string>, data: set<Pair>)
    requires |dates| >= 3
    requires act(0, 0) == Retry && act(0, 1) == Retry && act(0, 2) == Write(data)
    requires act(1, 2) == Retry && act(1, 3) == Retry && act(1, 4) == Retry
    ensures RunFrom(act, s, dates, 0, 0) == RunEnd([Written(0, data)], 1, MaxFaults)
  {
    assert RunFrom(act, s, dates, 1, 4) == RunEnd([], 1, 5);
    assert RunFrom(act, s, dates, 1, 3) == RunEnd([], 1, 5);
    assert RunFrom(act, s, dates, 1, 2) == RunEnd([], 1, 5);
    assert RunFrom(act, s, dates, 0, 2) == After([Written(0, data)], RunEnd([], 1, 5));
    assert RunFrom(act, s, dates, 0, 1) == RunFrom(act, s, dates, 0, 2);
  }

  /**
   * A timeout exports its window with no data, so any file listing that data is the header
   * alone; a driver error retries; any other exception skips the window.
   */
  lemma BrowserFaults(env: Browser, s: Search, dates: seq<string>, i: nat, e: nat)
    requires i + 1 < |dates|
    ensures env(WindowUrl(s, dates, i), e) == Raises(TimeoutException) ==>
              Acts(env, s, dates)(i, e) == Write({}) &&
              forall rows :: ReadCsv(rows).Some? && ListsOnce(ReadCsv(rows).value, Acts(env, s, dates)(i, e).data) ==> rows == [Header]
    ensures env(WindowUrl(s, dates, i), e) == Raises(WebDriverException) ==> Acts(env, s, dates)(i, e) == Retry
    ensures env(WindowUrl(s, dates, i), e).Raises? && env(WindowUrl(s, dates, i), e).c != TimeoutException &&
            env(WindowUrl(s, dates, i), e).c != WebDriverException ==>
              Acts(env, s, dates)(i, e) == Skip
  {
    if env(WindowUrl(s, dates, i), e) == Raises(TimeoutException) {
      forall rows | ReadCsv(rows).Some? && ListsOnce(ReadCsv(rows).value, {})
        ensures rows == [Header]
      {
        HeaderOnly(rows);
      }
    }
  }

  /** An export with no data, such as a timed-out window's, is a file holding the header alone. */
  lemma EmptyExportIsHeader(files: seq<CsvFile>, written: seq<Written>, s: Search, dates: seq<string>, k: nat)
    requires Exported(files, written, s, dates) && k < |written| && written[k].data == {}
    ensures files[k].rows == [Header]
  {
    HeaderOnly(files[k].rows);
  }
}
