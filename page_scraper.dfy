/**
 * `TweetScraper.scrape_visible_data` and `TweetScraper.scrape_full_page`: sample the
 * visible tweets, scroll, and stop after three samples in a row that add nothing.
 *
 * The browser is a feed: `feed(k)` is what the two element queries return on the
 * `k`-th pass of the loop (the pass that starts with `num_scrolls == k`). The scripts
 * the loop asks the browser to run are recorded as a command log.
 */
module PageScraper {
  import opened Wrappers

  /** A located page element: its text, its `datetime` attribute and its position. */
  datatype Element = Element(text: string, datetime: string, x: int, y: int)

  /** What the `a time` query and the tweet query return on one pass. */
  datatype Batch = Batch(times: seq<Element>, tweets: seq<Element>)

  /** The scripts the loop runs in the browser. */
  datatype Command = PauseVideos | ScrollTo(x: int, y: int) | ScrollToBottom

  /** The exceptions that end a scrape: `IndexError`, `AssertionError`, the scroll limit. */
  datatype ScrapeError = NoElements | CountMismatch | ScrollLimit

  /** The data of one `scrape_visible_data` call and the scroll it issued, if any. */
  datatype Visible = Visible(data: seq<string>, scrolled: Option<Command>)

  type Pair = (string, string)

  const StallLimit := 3
  const MaxScrolls := 3200

  /** The texts of the elements, in order. */
  function Texts(es: seq<Element>): (r: seq<string>)
    ensures |r| == |es|
  {
    if |es| == 0 then [] else [es[0].text] + Texts(es[1..])
  }

  /** The `datetime` attributes of the elements, in order. */
  function Datetimes(es: seq<Element>): (r: seq<string>)
    ensures |r| == |es|
  {
    if |es| == 0 then [] else [es[0].datetime] + Datetimes(es[1..])
  }

  /**
   * `scrape_visible_data(driver, css, text, scroll)` on the elements the query found:
   * texts or `datetime` attributes, and a scroll to the last element when asked, which
   * fails when there is no element.
   */
  function VisibleData(elems: seq<Element>, text: bool, scroll: bool): (r: Result<Visible, ScrapeError>)
    ensures r.Err? <==> scroll && |elems| == 0
    ensures r.Err? ==> r.error == NoElements
    ensures r.Ok? ==> r.value.data == if text then Texts(elems) else Datetimes(elems)
    ensures r.Ok? && scroll ==> r.value.scrolled == Some(ScrollTo(elems[|elems| - 1].x, elems[|elems| - 1].y))
    ensures r.Ok? && !scroll ==> r.value.scrolled == None
  {
    var data := if text then Texts(elems) else Datetimes(elems);
    if !scroll then Ok(Visible(data, None))
    else if |elems| == 0 then Err(NoElements)
    else Ok(Visible(data, Some(ScrollTo(elems[|elems| - 1].x, elems[|elems| - 1].y))))
  }

  /** `set(zip(xs, ys))`. */
  function ZipSet(xs: seq<string>, ys: seq<string>): set<Pair> {
    if |xs| == 0 || |ys| == 0 then {} else {(xs[0], ys[0])} + ZipSet(xs[1..], ys[1..])
  }

  /** What one pass reads from a batch: the pairs it adds and the scroll it issued. */
  datatype Sampled = Sampled(pairs: set<Pair>, scroll: Command)

  /**
   * One pass of the loop up to the `update`: the datetimes, the tweets with the scroll
   * to the last one, and the length check.
   */
  function Sample(b: Batch): (r: Result<Sampled, ScrapeError>)
    ensures r == Err(NoElements) <==> |b.tweets| == 0
    ensures r == Err(CountMismatch) <==> |b.tweets| > 0 && |b.times| != |b.tweets|
    ensures r.Err? ==> r.error != ScrollLimit
  {
    var times := VisibleData(b.times, false, false).value.data;
    match VisibleData(b.tweets, true, true)
    case Err(e) => Err(e)
    case Ok(v) =>
      if |v.data| != |times| then Err(CountMismatch)
      else Ok(Sampled(ZipSet(times, v.data), v.scrolled.value))
  }

  lemma {:induction false} TextsAt(es: seq<Element>, i: int)
    requires 0 <= i < |es|
    ensures Texts(es)[i] == es[i].text
  {
    if i > 0 {
      TextsAt(es[1..], i - 1);
    }
  }

  lemma {:induction false} DatetimesAt(es: seq<Element>, i: int)
    requires 0 <= i < |es|
    ensures Datetimes(es)[i] == es[i].datetime
  {
    if i > 0 {
      DatetimesAt(es[1..], i - 1);
    }
  }

  /** `set(zip(xs, ys))` holds the pairs at the positions both sequences have. */
  lemma {:induction false} ZipSetMembers(xs: seq<string>, ys: seq<string>)
    ensures ZipSet(xs, ys) == set i | 0 <= i < |xs| && i < |ys| :: (xs[i], ys[i])
  {
    if |xs| > 0 && |ys| > 0 {
      ZipSetMembers(xs[1..], ys[1..]);
      var rest := set i | 0 <= i < |xs| - 1 && i < |ys| - 1 :: (xs[1..][i], ys[1..][i]);
      var whole := set i | 0 <= i < |xs| && i < |ys| :: (xs[i], ys[i]);
      forall p | p in whole
        ensures p in {(xs[0], ys[0])} + rest
      {
        var i :| 0 <= i < |xs| && i < |ys| && p == (xs[i], ys[i]);
        if i > 0 {
          assert p == (xs[1..][i - 1], ys[1..][i - 1]);
        }
      }
      forall p | p in rest
        ensures p in whole
      {
        var i :| 0 <= i < |xs| - 1 && i < |ys| - 1 && p == (xs[1..][i], ys[1..][i]);
        assert p == (xs[i + 1], ys[i + 1]);
      }
      assert (xs[0], ys[0]) in whole;
    }
  }

  /** A pass that reads both queries adds the pairs of `datetime` attributes and texts, and scrolls to the last tweet. */
  lemma SampleOk(b: Batch)
    requires Sample(b).Ok?
    ensures Sample(b).value.pairs == set i | 0 <= i < |b.tweets| :: (b.times[i].datetime, b.tweets[i].text)
    ensures Sample(b).value.scroll == ScrollTo(b.tweets[|b.tweets| - 1].x, b.tweets[|b.tweets| - 1].y)
  {
    var xs, ys := Datetimes(b.times), Texts(b.tweets);
    ZipSetMembers(xs, ys);
    forall i | 0 <= i < |b.tweets|
      ensures (xs[i], ys[i]) == (b.times[i].datetime, b.tweets[i].text)
    {
      DatetimesAt(b.times, i);
      TextsAt(b.tweets, i);
    }
  }

  /** The pairs a pass adds, or none when it fails. */
  function PairsOf(b: Batch): set<Pair> {
    if Sample(b).Ok? then Sample(b).value.pairs else {}
  }

  /** The pairs each pass adds, by pass number. */
  function Added(feed: nat -> Batch): nat -> set<Pair> {
    (k: nat) => PairsOf(feed(k))
  }

  /** The accumulated set after the first `n` passes: the union of their pairs. */
  function Seen(adds: nat -> set<Pair>, n: nat): set<Pair> {
    if n == 0 then {} else Seen(adds, n - 1) + adds(n - 1)
  }

  /** Pass `k` added a pair the set did not hold. */
  predicate Grew(adds: nat -> set<Pair>, k: nat) {
    |Seen(adds, k + 1)| != |Seen(adds, k)|
  }

  /** `break_count` after pass `k`: how many passes in a row, up to `k`, added nothing. */
  function Streak(adds: nat -> set<Pair>, k: nat): nat {
    if Grew(adds, k) then 0 else if k == 0 then 1 else Streak(adds, k - 1) + 1
  }

  /** Pass `k` ends the loop: it fails, or it is the third stale pass in a row, or it is the last one allowed. */
  predicate Stops(feed: nat -> Batch, k: nat) {
    Sample(feed(k)).Err? || Streak(Added(feed), k) >= StallLimit || k >= MaxScrolls
  }

  /** Pass `n` is the first that stops the loop. */
  predicate IsFirstStop(feed: nat -> Batch, n: nat) {
    n <= MaxScrolls && Stops(feed, n) && forall j :: 0 <= j < n ==> !Stops(feed, j)
  }

  /** If no pass before `k` stops the loop, one from `k` on is the first that does: pass 3200 stops it at the latest. */
  lemma {:induction false} FirstStopFrom(feed: nat -> Batch, k: nat)
    requires k <= MaxScrolls && forall j :: 0 <= j < k ==> !Stops(feed, j)
    ensures exists n :: k <= n && IsFirstStop(feed, n)
    decreases MaxScrolls - k
  {
    if Stops(feed, k) {
      assert IsFirstStop(feed, k);
    } else {
      FirstStopFrom(feed, k + 1);
    }
  }

  /** The pass on which the loop ends. */
  ghost function FirstStop(feed: nat -> Batch): (n: nat)
    ensures n <= MaxScrolls && Stops(feed, n)
  {
    FirstStopFrom(feed, 0);
    var n :| IsFirstStop(feed, n); n
  }

  /** No pass before the one that ends the loop stops it. */
  lemma FirstStopMinimal(feed: nat -> Batch, j: nat)
    requires j < FirstStop(feed)
    ensures !Stops(feed, j)
    ensures Sample(feed(j)).Ok? && Streak(Added(feed), j) < StallLimit
  {
  }

  /** How the loop ends when pass `k` is the one that stops it. */
  function ResultAt(feed: nat -> Batch, k: nat): Result<set<Pair>, ScrapeError> {
    if Sample(feed(k)).Err? then Err(Sample(feed(k)).error)
    else if Streak(Added(feed), k) >= StallLimit then Ok(Seen(Added(feed), k + 1))
    else Err(ScrollLimit)
  }

  /** The outcome of `scrape_full_page`: the accumulated set, or the exception raised on the last pass. */
  ghost function ScrapeResult(feed: nat -> Batch): Result<set<Pair>, ScrapeError> {
    ResultAt(feed, FirstStop(feed))
  }

  /**
   * The three ways a scrape ends: a set, after a third stale pass, holding what every pass
   * read; `IndexError` or the assertion of the last pass; the scroll limit, on pass 3200.
   */
  lemma ScrapeResultCases(feed: nat -> Batch)
    ensures var r := ScrapeResult(feed);
      && (r.Ok? ==> Streak(Added(feed), FirstStop(feed)) >= StallLimit && r.value == Seen(Added(feed), FirstStop(feed) + 1))
      && (r.Err? && r.error != ScrollLimit ==> Sample(feed(FirstStop(feed))) == Err(r.error))
      && (r == Err(ScrollLimit) ==> FirstStop(feed) == MaxScrolls)
  {
  }

  /** The scroll to the last element of a non-empty tweet query. */
  function ScrollToLast(tweets: seq<Element>): Command
    requires |tweets| > 0
  {
    ScrollTo(tweets[|tweets| - 1].x, tweets[|tweets| - 1].y)
  }

  /**
   * The scripts pass `k` runs: the video pause, the scroll to the last tweet when there
   * is one, and a scroll to the bottom on a stale pass that does not end the loop.
   */
  function StepLog(feed: nat -> Batch, k: nat): seq<Command> {
    var b := feed(k);
    if |b.tweets| == 0 then [PauseVideos]
    else if Sample(b).Err? || Grew(Added(feed), k) || Streak(Added(feed), k) >= StallLimit then [PauseVideos, ScrollToLast(b.tweets)]
    else [PauseVideos, ScrollToLast(b.tweets), ScrollToBottom]
  }

  /** The scripts of the first `n` passes. */
  function LogUpTo(feed: nat -> Batch, n: nat): seq<Command> {
    if n == 0 then [] else LogUpTo(feed, n - 1) + StepLog(feed, n - 1)
  }

  /** The scripts of a pass begin with the video pause. */
  lemma StepLogStartsWithPause(feed: nat -> Batch, k: nat)
    ensures |StepLog(feed, k)| > 0 && StepLog(feed, k)[0] == PauseVideos
  {
  }

  /** Every pass begins with the video pause, so a log of one pass or more does too. */
  lemma {:induction false} LogUpToStartsWithPause(feed: nat -> Batch, n: nat)
    requires n >= 1
    ensures |LogUpTo(feed, n)| > 0 && LogUpTo(feed, n)[0] == PauseVideos
  {
    var before, last := LogUpTo(feed, n - 1), StepLog(feed, n - 1);
    StepLogStartsWithPause(feed, n - 1);
    if n > 1 {
      LogUpToStartsWithPause(feed, n - 1);
      assert (before + last)[0] == before[0];
    } else {
      assert before + last == last;
    }
  }

  ghost function CommandLog(feed: nat -> Batch): (log: seq<Command>)
    ensures |log| > 0 && log[0] == PauseVideos
  {
    LogUpToStartsWithPause(feed, FirstStop(feed) + 1);
    LogUpTo(feed, FirstStop(feed) + 1)
  }

  /** A pass that reads both queries adds their pairs. */
  lemma PassOk(feed: nat -> Batch, n: nat)
    requires var tw := VisibleData(feed(n).tweets, true, true);
      tw.Ok? && |tw.value.data| == |VisibleData(feed(n).times, false, false).value.data|
    ensures Sample(feed(n)).Ok?
    ensures Seen(Added(feed), n + 1) == Seen(Added(feed), n) + ZipSet(VisibleData(feed(n).times, false, false).value.data, VisibleData(feed(n).tweets, true, true).value.data)
  {
  }

  /** `break_count` after a pass, from `break_count` before it. */
  lemma StreakStep(feed: nat -> Batch, n: nat)
    ensures Streak(Added(feed), n) == if Grew(Added(feed), n) then 0 else (if n == 0 then 0 else Streak(Added(feed), n - 1)) + 1
  {
  }

  /** The loop's variables: `full_tweets`, `num_tweets`, `break_count`, `num_scrolls`, and the scripts run so far. */
  datatype Loop = Loop(full: set<Pair>, numTweets: int, breakCount: int, numScrolls: nat, log: seq<Command>)

  /** How the loop ends: the returned set or the exception, and the scripts run. */
  datatype Outcome = Outcome(result: Result<set<Pair>, ScrapeError>, log: seq<Command>)

  /** What one pass of the loop does: end the loop, or leave the variables of the next pass. */
  datatype Step = Done(outcome: Outcome) | Next(state: Loop)

  /** One pass of the `while True` body of `scrape_full_page`, from the given variables. */
  function Pass(feed: nat -> Batch, m: Loop): (r: Step)
    requires m.numScrolls <= MaxScrolls
    ensures r.Next? ==> r.state.numScrolls == m.numScrolls + 1 <= MaxScrolls
  {
    var b := feed(m.numScrolls);
    var dt, tw := VisibleData(b.times, false, false), VisibleData(b.tweets, true, true);
    if tw.Err? then Done(Outcome(Err(tw.error), m.log + [PauseVideos]))
    else
      var pass := [PauseVideos, tw.value.scrolled.value];
      if |tw.value.data| != |dt.value.data| then Done(Outcome(Err(CountMismatch), m.log + pass))
      else
        var full := m.full + ZipSet(dt.value.data, tw.value.data);
        var stale := m.numTweets == |full|;
        var breakCount := if stale then m.breakCount + 1 else 0;
        if breakCount >= StallLimit then Done(Outcome(Ok(full), m.log + pass))
        else
          var log := m.log + (if stale then pass + [ScrollToBottom] else pass);
          if m.numScrolls + 1 > MaxScrolls then Done(Outcome(Err(ScrollLimit), log))
          else Next(Loop(full, |full|, breakCount, m.numScrolls + 1, log))
  }

  /** The loop run pass by pass from the given variables. */
  function Run(feed: nat -> Batch, m: Loop): Outcome
    requires m.numScrolls <= MaxScrolls
    decreases MaxScrolls - m.numScrolls
  {
    match Pass(feed, m)
    case Done(o) => o
    case Next(m') => Run(feed, m')
  }

  /** A pass keeps `full_tweets` and the scripts already run, and runs at least one more. */
  lemma PassExtends(feed: nat -> Batch, m: Loop)
    requires m.numScrolls <= MaxScrolls
    ensures var r := Pass(feed, m);
      && (r.Next? ==> m.full <= r.state.full && |m.log| < |r.state.log| && r.state.log[..|m.log|] == m.log)
      && (r.Done? ==> |m.log| < |r.outcome.log| && r.outcome.log[..|m.log|] == m.log)
      && (r.Done? && r.outcome.result.Ok? ==> m.full <= r.outcome.result.value)
  {
  }

  /** The loop run from any variables keeps the scripts already run at the front of its log and `full_tweets` in a returned set. */
  lemma {:induction false} RunExtends(feed: nat -> Batch, m: Loop)
    requires m.numScrolls <= MaxScrolls
    ensures var o := Run(feed, m);
      && |m.log| < |o.log| && o.log[..|m.log|] == m.log
      && (o.result.Ok? ==> m.full <= o.result.value)
    decreases MaxScrolls - m.numScrolls
  {
    PassExtends(feed, m);
    match Pass(feed, m)
    case Done(o) =>
    case Next(m') =>
      RunExtends(feed, m');
      var log := Run(feed, m').log;
      assert log[..|m.log|] == log[..|m'.log|][..|m.log|];
  }

  /** A pass that goes on leaves the rest of the run to the next pass. */
  lemma RunNext(feed: nat -> Batch, m: Loop, m': Loop)
    requires m.numScrolls <= MaxScrolls && Pass(feed, m) == Next(m')
    ensures Run(feed, m) == Run(feed, m')
  {
  }

  /** A pass that ends the loop decides the run. */
  lemma RunDone(feed: nat -> Batch, m: Loop, o: Outcome)
    requires m.numScrolls <= MaxScrolls && Pass(feed, m) == Done(o)
    ensures Run(feed, m) == o
  {
  }

  /** The loop's variables at the top of pass `n`, as the passes before it leave them. */
  function State(feed: nat -> Batch, n: nat): (m: Loop)
    requires n <= MaxScrolls
    ensures m.numScrolls == n
  {
    Loop(Seen(Added(feed), n), |Seen(Added(feed), n)|, if n == 0 then 0 else Streak(Added(feed), n - 1), n, LogUpTo(feed, n))
  }

  /** A pass that does not stop the loop leaves the variables of the next pass. */
  lemma PassAdvance(feed: nat -> Batch, n: nat)
    requires n < MaxScrolls && !Stops(feed, n)
    ensures Pass(feed, State(feed, n)) == Next(State(feed, n + 1))
  {
    var m, b := State(feed, n), feed(n);
    var dt, tw := VisibleData(b.times, false, false), VisibleData(b.tweets, true, true);
    assert Sample(b).Ok?;
    assert tw.Ok? && |tw.value.data| == |dt.value.data|;
    PassOk(feed, n);
    assert m.full + ZipSet(dt.value.data, tw.value.data) == Seen(Added(feed), n + 1);
    StreakStep(feed, n);
    assert tw.value.scrolled.value == ScrollToLast(b.tweets);
    NextLog(feed, n);
    var full := Seen(Added(feed), n + 1);
    var stale := m.numTweets == |full|;
    assert stale == !Grew(Added(feed), n);
    var breakCount := if stale then m.breakCount + 1 else 0;
    assert breakCount == Streak(Added(feed), n);
    var pass := [PauseVideos, tw.value.scrolled.value];
    var log := m.log + (if stale then pass + [ScrollToBottom] else pass);
    assert log == LogUpTo(feed, n + 1);
    assert State(feed, n + 1) == Loop(full, |full|, breakCount, n + 1, log);
  }

  /** The scripts of a pass that reads both queries and does not end the loop by stalling. */
  lemma NextLog(feed: nat -> Batch, n: nat)
    requires Sample(feed(n)).Ok? && Streak(Added(feed), n) < StallLimit
    ensures var pass := [PauseVideos, ScrollToLast(feed(n).tweets)];
      LogUpTo(feed, n + 1) == LogUpTo(feed, n) + (if Grew(Added(feed), n) then pass else pass + [ScrollToBottom])
  {
    var pass := [PauseVideos, ScrollToLast(feed(n).tweets)];
    assert pass + [ScrollToBottom] == [PauseVideos, ScrollToLast(feed(n).tweets), ScrollToBottom];
  }

  /** A pass that stops the loop ends it with that pass's outcome and scripts. */
  lemma PassEnd(feed: nat -> Batch, n: nat)
    requires n <= MaxScrolls && Stops(feed, n)
    ensures Pass(feed, State(feed, n)) == Done(Outcome(ResultAt(feed, n), LogUpTo(feed, n + 1)))
  {
    var m, b := State(feed, n), feed(n);
    var dt, tw := VisibleData(b.times, false, false), VisibleData(b.tweets, true, true);
    if tw.Ok? && |tw.value.data| == |dt.value.data| {
      PassOk(feed, n);
      StreakStep(feed, n);
      var pass := [PauseVideos, tw.value.scrolled.value];
      assert pass + [ScrollToBottom] == [PauseVideos, ScrollToLast(b.tweets), ScrollToBottom];
    }
  }

  /** Every pass before the one that stops leaves the variables of the next pass. */
  lemma BeforeFirstStop(feed: nat -> Batch, n: nat)
    requires n < FirstStop(feed)
    ensures n + 1 <= MaxScrolls && Run(feed, State(feed, n)) == Run(feed, State(feed, n + 1))
  {
    FirstStopMinimal(feed, n);
    PassAdvance(feed, n);
    RunNext(feed, State(feed, n), State(feed, n + 1));
  }

  /** The pass that stops ends the loop as the scrape does. */
  lemma AtFirstStop(feed: nat -> Batch, n: nat)
    requires n == FirstStop(feed)
    ensures Run(feed, State(feed, n)) == Outcome(ScrapeResult(feed), CommandLog(feed))
  {
    PassEnd(feed, n);
    RunDone(feed, State(feed, n), Outcome(ResultAt(feed, n), LogUpTo(feed, n + 1)));
  }

  /** From the top of any pass up to the one that stops, the loop ends as the scrape does. */
  lemma RunFromState(feed: nat -> Batch, n: nat)
    requires n <= FirstStop(feed)
    ensures Run(feed, State(feed, n)) == Outcome(ScrapeResult(feed), CommandLog(feed))
    decreases FirstStop(feed) - n, 1
  {
    if n == FirstStop(feed) {
      AtFirstStop(feed, n);
    } else {
      RunFromNext(feed, n);
    }
  }

  /** A pass before the one that stops hands the rest of the run to the next pass. */
  lemma RunFromNext(feed: nat -> Batch, n: nat)
    requires n < FirstStop(feed)
    ensures Run(feed, State(feed, n)) == Outcome(ScrapeResult(feed), CommandLog(feed))
    decreases FirstStop(feed) - n, 0
  {
    BeforeFirstStop(feed, n);
    RunFromState(feed, n + 1);
  }

  /** `scrape_full_page(driver)`: returns the outcome and the scripts it ran. */
  method ScrapeFullPage(feed: nat -> Batch) returns (r: Result<set<Pair>, ScrapeError>, log: seq<Command>)
    ensures r == ScrapeResult(feed)
    ensures log == CommandLog(feed)
  {
    var full: set<Pair> := {};
    var numTweets := |full|;
    var breakCount := 0;
    var numScrolls := 0;
    log := [];
    RunFromState(feed, 0);
    assert State(feed, 0) == Loop(full, numTweets, breakCount, numScrolls, log);
    while true
      invariant numScrolls <= MaxScrolls
      invariant Run(feed, Loop(full, numTweets, breakCount, numScrolls, log)) == Run(feed, Loop({}, 0, 0, 0, []))
      decreases MaxScrolls - numScrolls
    {
      var b := feed(numScrolls);
      var datetimes := VisibleData(b.times, false, false);
      var tweets := VisibleData(b.tweets, true, true);
      if tweets.Err? {
        return Err(tweets.error), log + [PauseVideos];
      }
      var pass := [PauseVideos, tweets.value.scrolled.value];
      if |tweets.value.data| != |datetimes.value.data| {
        return Err(CountMismatch), log + pass;
      }
      full := full + ZipSet(datetimes.value.data, tweets.value.data);
      if numTweets == |full| {
        breakCount := breakCount + 1;
        if breakCount >= StallLimit {
          return Ok(full), log + pass;
        }
        pass := pass + [ScrollToBottom];
      } else {
        breakCount := 0;
      }
      log := log + pass;
      numScrolls := numScrolls + 1;
      if numScrolls > MaxScrolls {
        return Err(ScrollLimit), log;
      }
      numTweets := |full|;
    }
  }
}

/** What `scrape_full_page` returns and which scripts it runs, stated over all feeds. */
module PageScraperFacts {
  import opened Wrappers
  import opened PageScraper

  /** A finite set that contains another of the same size is that set. */
  lemma SubsetSameSize<T>(a: set<T>, b: set<T>)
    requires a <= b && |a| == |b|
    ensures a == b
  {
    var extra := b - a;
    assert b == a + extra;
    assert a * extra == {};
    assert |b| == |a| + |extra|;
    assert extra == {};
  }

  /** The set only grows from pass to pass. */
  lemma {:induction false} SeenGrows(adds: nat -> set<Pair>, m: nat, n: nat)
    requires m <= n
    ensures Seen(adds, m) <= Seen(adds, n)
    decreases n - m
  {
    if m < n {
      SeenGrows(adds, m, n - 1);
    }
  }

  /** A pair that pass `k` read is in the set after any later pass. */
  lemma PassPairKept(adds: nat -> set<Pair>, n: nat, k: nat, p: Pair)
    requires k < n && p in adds(k)
    ensures p in Seen(adds, n)
  {
    SeenGrows(adds, k + 1, n);
  }

  /** A pair in the set after `n` passes was read by one of them. */
  lemma {:induction false} SeenFromPass(adds: nat -> set<Pair>, n: nat, p: Pair) returns (k: nat)
    requires p in Seen(adds, n)
    ensures k < n && p in adds(k)
  {
    if p in adds(n - 1) {
      k := n - 1;
    } else {
      k := SeenFromPass(adds, n - 1, p);
    }
  }

  /** A pair is in the set after `n` passes exactly when one of those passes read it. */
  lemma SeenMembers(adds: nat -> set<Pair>, n: nat, p: Pair)
    ensures p in Seen(adds, n) <==> exists k :: 0 <= k < n && p in adds(k)
  {
    if p in Seen(adds, n) {
      var k := SeenFromPass(adds, n, p);
    }
    if exists k :: 0 <= k < n && p in adds(k) {
      var k :| 0 <= k < n && p in adds(k);
      PassPairKept(adds, n, k, p);
    }
  }

  /** A pass that leaves the size alone adds nothing: `len(full_tweets)` measures the set exactly. */
  lemma StaleAddsNothing(adds: nat -> set<Pair>, k: nat)
    ensures !Grew(adds, k) <==> Seen(adds, k + 1) == Seen(adds, k)
    ensures !Grew(adds, k) <==> adds(k) <= Seen(adds, k)
  {
    assert Seen(adds, k + 1) == Seen(adds, k) + adds(k);
    if !Grew(adds, k) {
      SubsetSameSize(Seen(adds, k), Seen(adds, k + 1));
    }
  }

  /** Three stale passes in a row bring `break_count` to three. */
  lemma ThreeStaleStall(adds: nat -> set<Pair>, k: nat)
    requires k >= 2 && !Grew(adds, k) && !Grew(adds, k - 1) && !Grew(adds, k - 2)
    ensures Streak(adds, k) >= StallLimit
  {
    assert Streak(adds, k - 2) >= 1;
  }

  /** A `break_count` of three means the last three passes were stale. */
  lemma StallThreeStale(adds: nat -> set<Pair>, k: nat)
    requires Streak(adds, k) >= StallLimit
    ensures k >= 2 && !Grew(adds, k) && !Grew(adds, k - 1) && !Grew(adds, k - 2)
  {
    assert Streak(adds, k - 1) >= 2;
    assert Streak(adds, k - 2) >= 1;
  }

  /** `break_count` reaches three exactly when the last three passes added nothing. */
  lemma StreakOfThree(adds: nat -> set<Pair>, k: nat)
    ensures Streak(adds, k) >= StallLimit <==> k >= 2 && !Grew(adds, k) && !Grew(adds, k - 1) && !Grew(adds, k - 2)
  {
    if Streak(adds, k) >= StallLimit {
      StallThreeStale(adds, k);
    } else if k >= 2 && !Grew(adds, k) && !Grew(adds, k - 1) && !Grew(adds, k - 2) {
      ThreeStaleStall(adds, k);
    }
  }

  /** When the loop stops on a stall, the last three passes added nothing to the set. */
  lemma StallKeepsSet(adds: nat -> set<Pair>, k: nat)
    requires Streak(adds, k) >= StallLimit
    ensures k >= 2 && Seen(adds, k + 1) == Seen(adds, k - 2)
  {
    StallThreeStale(adds, k);
    StaleAddsNothing(adds, k);
    StaleAddsNothing(adds, k - 1);
    StaleAddsNothing(adds, k - 2);
  }

  /** The set a stall returns is the one held before its three stale passes. */
  lemma StallResult(adds: nat -> set<Pair>, k: nat, full: set<Pair>)
    requires Streak(adds, k) >= StallLimit && full == Seen(adds, k + 1)
    ensures k >= 2 && full == Seen(adds, k - 2)
  {
    StallKeepsSet(adds, k);
  }

  /** The set a stall returns holds exactly the pairs of the passes before its three stale ones. */
  lemma StallMembers(adds: nat -> set<Pair>, k: nat, full: set<Pair>, p: Pair)
    requires Streak(adds, k) >= StallLimit && full == Seen(adds, k + 1)
    ensures k >= 2 && full == Seen(adds, k - 2)
    ensures p in full <==> exists j :: 0 <= j < k - 2 && p in adds(j)
  {
    StallResult(adds, k, full);
    SeenMembers(adds, k - 2, p);
  }

  /** The first stop is the only pass that stops the loop with no stop before it. */
  lemma FirstStopIs(feed: nat -> Batch, n: nat)
    requires IsFirstStop(feed, n)
    ensures FirstStop(feed) == n
  {
    if n < FirstStop(feed) {
      FirstStopMinimal(feed, n);
    }
  }

  /** Passes before the one that ends the loop read both queries and did not stall. */
  lemma BeforeStopAllRead(feed: nat -> Batch)
    ensures forall j :: 0 <= j < FirstStop(feed) ==> Sample(feed(j)).Ok? && Streak(Added(feed), j) < StallLimit
  {
    forall j | 0 <= j < FirstStop(feed)
      ensures Sample(feed(j)).Ok? && Streak(Added(feed), j) < StallLimit
    {
      FirstStopMinimal(feed, j);
    }
  }

  /** A pass that fails, with no stop before it, makes the scrape fail with its error. */
  lemma FailingPassReported(feed: nat -> Batch, n: nat)
    requires n <= MaxScrolls && Sample(feed(n)).Err?
    requires forall j :: 0 <= j < n ==> !Stops(feed, j)
    ensures FirstStop(feed) == n
    ensures ScrapeResult(feed) == Err(Sample(feed(n)).error)
  {
    FirstStopIs(feed, n);
  }

  /** A third stale pass in a row, with no stop before it, returns the set read so far. */
  lemma StallReported(feed: nat -> Batch, n: nat)
    requires n <= MaxScrolls && Sample(feed(n)).Ok? && Streak(Added(feed), n) >= StallLimit
    requires forall j :: 0 <= j < n ==> !Stops(feed, j)
    ensures FirstStop(feed) == n
    ensures ScrapeResult(feed) == Ok(Seen(Added(feed), n + 1))
  {
    FirstStopIs(feed, n);
  }

  /** A scrape that returns a set stopped on a stall, and returned the set read so far. */
  lemma OkIsStall(feed: nat -> Batch, full: set<Pair>)
    requires ScrapeResult(feed) == Ok(full)
    ensures Sample(feed(FirstStop(feed))).Ok?
    ensures Streak(Added(feed), FirstStop(feed)) >= StallLimit
    ensures full == Seen(Added(feed), FirstStop(feed) + 1)
  {
  }

  /** A scrape that returns a set read both queries on every pass up to the one that stopped it. */
  lemma OkAllRead(feed: nat -> Batch, full: set<Pair>)
    requires ScrapeResult(feed) == Ok(full)
    ensures forall j :: 0 <= j <= FirstStop(feed) ==> Sample(feed(j)).Ok?
  {
    forall j | 0 <= j <= FirstStop(feed)
      ensures Sample(feed(j)).Ok?
    {
      if j < FirstStop(feed) {
        FirstStopMinimal(feed, j);
      }
    }
  }

  /**
   * A scrape that returns a set stopped on the third stale pass in a row, and the set
   * holds exactly the pairs of the passes before those three.
   */
  lemma ScrapeOk(feed: nat -> Batch, full: set<Pair>, p: Pair)
    requires ScrapeResult(feed) == Ok(full)
    ensures var n := FirstStop(feed);
            n >= 2 && full == Seen(Added(feed), n - 2) &&
            (p in full <==> exists k :: 0 <= k < n - 2 && p in Added(feed)(k))
  {
    OkIsStall(feed, full);
    StallMembers(Added(feed), FirstStop(feed), full, p);
  }

  /** The scrape fails with a pass's error only on the pass where the loop stops, after passes that all read both queries. */
  lemma ScrapeFailed(feed: nat -> Batch, e: ScrapeError)
    requires ScrapeResult(feed) == Err(e) && e != ScrollLimit
    ensures Sample(feed(FirstStop(feed))) == Err(e)
    ensures forall j :: 0 <= j < FirstStop(feed) ==> Sample(feed(j)).Ok? && Streak(Added(feed), j) < StallLimit
  {
    BeforeStopAllRead(feed);
  }

  /** The scroll limit is raised on pass 3200, which read both queries and did not stall. */
  lemma LastPassAllowed(feed: nat -> Batch)
    requires ScrapeResult(feed) == Err(ScrollLimit)
    ensures FirstStop(feed) == MaxScrolls
    ensures Sample(feed(MaxScrolls)).Ok? && Streak(Added(feed), MaxScrolls) < StallLimit
  {
  }

  /** A scrape that hits the scroll limit stops on pass 3200 after passes that all read both queries without stalling. */
  lemma ScrollLimitMeans(feed: nat -> Batch)
    requires ScrapeResult(feed) == Err(ScrollLimit)
    ensures FirstStop(feed) == MaxScrolls
    ensures forall j :: 0 <= j <= MaxScrolls ==> Sample(feed(j)).Ok? && Streak(Added(feed), j) < StallLimit
  {
    LastPassAllowed(feed);
    forall j | 0 <= j <= MaxScrolls
      ensures Sample(feed(j)).Ok? && Streak(Added(feed), j) < StallLimit
    {
      if j < MaxScrolls {
        FirstStopMinimal(feed, j);
      }
    }
  }

  /** The scroll limit is hit exactly when all 3201 passes read both queries and none was a third stale one in a row. */
  lemma ScrollLimitIff(feed: nat -> Batch)
    ensures ScrapeResult(feed) == Err(ScrollLimit) <==>
            forall j :: 0 <= j <= MaxScrolls ==> Sample(feed(j)).Ok? && Streak(Added(feed), j) < StallLimit
  {
    if ScrapeResult(feed) == Err(ScrollLimit) {
      ScrollLimitMeans(feed);
    }
  }

  /** Each pass runs one, two or three scripts, the first of them the video pause. */
  lemma StepLogShape(feed: nat -> Batch, k: nat)
    ensures 1 <= |StepLog(feed, k)| <= 3 && StepLog(feed, k)[0] == PauseVideos
  {
  }

  /** The first `n` passes run between `n` and `3 * n` scripts. */
  lemma {:induction false} LogBounds(feed: nat -> Batch, n: nat)
    ensures n <= |LogUpTo(feed, n)| <= 3 * n
  {
    if n > 0 {
      LogBounds(feed, n - 1);
      StepLogShape(feed, n - 1);
    }
  }

  /** A scrape runs at least one script per pass and at most 9603 in all. */
  lemma CommandLogBounds(feed: nat -> Batch)
    ensures FirstStop(feed) + 1 <= |CommandLog(feed)| <= 3 * (FirstStop(feed) + 1) <= 3 * (MaxScrolls + 1)
  {
    LogBounds(feed, FirstStop(feed) + 1);
  }
}

/** How `scrape_full_page` behaves on a few pages. */
module PageScraperExamples {
  import opened Wrappers
  import opened PageScraper
  import opened PageScraperFacts

  /** A pass that reads at least one tweet with its datetime adds at least one pair. */
  lemma ReadAddsPairs(b: Batch)
    requires |b.tweets| > 0 && |b.times| == |b.tweets|
    ensures Sample(b).Ok? && PairsOf(b) != {}
  {
    SampleOk(b);
    assert (b.times[0].datetime, b.tweets[0].text) in PairsOf(b);
  }

  /** Passes that all add the same non-empty set grow once, then stall on the fourth. */
  lemma SameEveryPass(adds: nat -> set<Pair>, s: set<Pair>)
    requires s != {} && forall k :: adds(k) == s
    ensures Grew(adds, 0) && !Grew(adds, 1) && !Grew(adds, 2) && !Grew(adds, 3)
    ensures Streak(adds, 0) == 0 && Streak(adds, 1) == 1 && Streak(adds, 2) == 2 && Streak(adds, 3) == 3
    ensures Seen(adds, 4) == s
  {
    assert Seen(adds, 1) == s;
    assert Seen(adds, 2) == s;
    assert Seen(adds, 3) == s;
    assert Seen(adds, 4) == s;
  }

  /**
   * A page that shows the same tweets, with their datetimes, however far it is scrolled:
   * the first pass reads them, the next two are stale and scroll to the bottom, and
   * the fourth, stale again, returns them.
   */
  lemma SteadyPage(feed: nat -> Batch, b: Batch)
    requires forall k :: feed(k) == b
    requires |b.tweets| > 0 && |b.times| == |b.tweets|
    ensures FirstStop(feed) == 3
    ensures ScrapeResult(feed) == Ok(PairsOf(b))
    ensures var s := ScrollToLast(b.tweets);
            CommandLog(feed) == [PauseVideos, s, PauseVideos, s, ScrollToBottom, PauseVideos, s, ScrollToBottom, PauseVideos, s]
  {
    ReadAddsPairs(b);
    SameEveryPass(Added(feed), PairsOf(b));
    StallReported(feed, 3);
    var s := ScrollToLast(b.tweets);
    assert StepLog(feed, 0) == [PauseVideos, s];
    assert StepLog(feed, 1) == [PauseVideos, s, ScrollToBottom];
    assert StepLog(feed, 2) == [PauseVideos, s, ScrollToBottom];
    assert StepLog(feed, 3) == [PauseVideos, s];
    assert LogUpTo(feed, 4) == [PauseVideos, s] + [PauseVideos, s, ScrollToBottom] + [PauseVideos, s, ScrollToBottom] + [PauseVideos, s];
  }

  /** A page that shows no tweet: the first pass pauses the videos and fails. */
  lemma EmptyPage(feed: nat -> Batch)
    requires feed(0).tweets == []
    ensures ScrapeResult(feed) == Err(NoElements)
    ensures CommandLog(feed) == [PauseVideos]
  {
    assert Sample(feed(0)) == Err(NoElements);
    FailingPassReported(feed, 0);
    assert LogUpTo(feed, 1) == [] + [PauseVideos];
  }

  /** A first pass that finds tweets but a different number of datetimes scrolls to the last tweet and fails. */
  lemma MismatchedPage(feed: nat -> Batch)
    requires |feed(0).tweets| > 0 && |feed(0).times| != |feed(0).tweets|
    ensures ScrapeResult(feed) == Err(CountMismatch)
    ensures CommandLog(feed) == [PauseVideos, ScrollToLast(feed(0).tweets)]
  {
    assert Sample(feed(0)) == Err(CountMismatch);
    FailingPassReported(feed, 0);
    assert LogUpTo(feed, 1) == [] + [PauseVideos, ScrollToLast(feed(0).tweets)];
  }
}
