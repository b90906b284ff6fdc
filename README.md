# Tweet scraper model

A Dafny model of `tweet_scrape.py`, a Selenium script that collects tweets about a crypto coin from Twitter's search page. It runs one search per day and writes one CSV file per day. The model covers:

- **Text** (`text.dfy`): ASCII `str.lower()` and `str(int)`, with a parser as the inverse of `str(int)`.
- **Calendar** (`calendar.dfy`): proleptic Gregorian dates. Covers day ordinals, `timedelta(days=1)` as `NextDay`, `strftime("%Y-%m-%d")` as `Format`, and a strict `strptime` as `ParseDate`.
- **DayRange** (`day_range.dfy`): `date_rng` lists every day from `start` to `end` as printed dates. Worked examples use the command line's default dates.
- **Query** (`query.dfy`): `query_string` builds the search URL for one day window.
  - The `q` parameter is the advanced-search text with `%20` for spaces and `%3A` for colons.
  - For settings and dates with no space, colon or percent sign, the model proves that the text between `q=` and `&src=` is the escaped search text and unescapes back to it. It also proves that each threshold fills a slot of its own.
  - A worked example gives the URL of the first default window for Bitcoin.
- **PageScraper** (`page_scraper.dfy`): `scrape_visible_data` and the `while True` loop of `scrape_full_page`.
  - The browser is a *feed*, which says what the two element queries return on each pass.
  - The loop is modelled pass by pass (`Pass`, `Run`). A method `ScrapeFullPage` with a real loop is proved against the specification `ScrapeResult` and the script log `CommandLog`.
  - Properties cover:
    - when a scrape returns a set, fails, or hits the 3200-scroll limit;
    - what the returned set holds;
    - the `break_count` stall rule;
    - how many scripts a scrape runs.
- **Export** (`export.dfy`): `export_csv`, meaning the target path and the rows (a header, then the data).
  - Reading a written file back gives the data.
  - The path splits back into folder and file name.
  - A set of tuples is listed once per tuple by a loop over the set.
- **Orchestrator** (`orchestrator.dfy`): the day loop of `run_scraper`.
  - Covers the choice among the three `except` clauses, the cumulative `err_counter` with its limit of five, and the skip of a day that fails in any other way.
  - Also covers the file path of each day.
  - The browser is an oracle `Browser`: for each URL and error count it gives a page feed or an exception.
  - `RunScraper` is a loop proved against the pure run `Run`. Lemmas state what that run writes: its order, its bounds, distinct files, and the way errors accumulate.
- **Cli** (`cli.dfy`): the command line.
  - Covers the argument defaults, the three `ValueError` checks in the program's order, and the constructor's date parsing.
  - Also covers the days and URLs of a launched run.

I/O, the clock, Selenium and the file system are parameters or are left out, as listed below.

## Model

| member | source | states |
|---|---|---|
| Text.Lower | tweet_scrape.py:147 | the result has the input's length, folds each ASCII capital to lower case, and holds no capital |
| Text.LowerIdempotent | tweet_scrape.py:432 | lower-casing twice is lower-casing once |
| Text.NatToString | tweet_scrape.py:140-142 | the decimal digits of a natural number: non-empty, digits only, no leading zero |
| Text.IntToString | tweet_scrape.py:140-142 | `str(n)` of a threshold: never empty, with a leading `-` exactly when `n` is negative |
| Text.NatToStringRoundTrip | tweet_scrape.py:140-142 | the digits written for `n` have value `n` |
| Text.IntToStringRoundTrip | tweet_scrape.py:140-142 | parsing what `str(n)` writes gives back `n`, negative numbers included |
| Text.IntToStringInjective | tweet_scrape.py:140-142 | different thresholds are written differently |
| Calendar.NextDay | tweet_scrape.py:168 | the day after a civil date is a civil date after it |
| Calendar.OrdinalOfNextDay | tweet_scrape.py:168 | `start + timedelta(days=1)` moves the day ordinal up by exactly one |
| Calendar.Ordinal | tweet_scrape.py:166 | `toordinal()`, on which `end - start` rests: at least 1, and in January of year 1 the day of the month, so 0001-01-01 is day 1 |
| Calendar.FromOrdinal | tweet_scrape.py:167-168 | `fromordinal(n)`, on which `start + timedelta(days=i)` rests: a civil date for every `n >= 1` |
| Calendar.OrdinalOrder | tweet_scrape.py:166 | calendar order of dates is the order of their ordinals; equal dates have equal ordinals |
| Calendar.FromOrdinalOfOrdinal | tweet_scrape.py:166-168 | the date numbered by a date's ordinal is that date |
| Calendar.OrdinalOfFromOrdinal | tweet_scrape.py:166-168 | numbering the date of ordinal `n` gives `n` |
| Calendar.Format | tweet_scrape.py:168 | `strftime("%Y-%m-%d")` prints ten characters |
| Calendar.ParseDate | tweet_scrape.py:101-107 | a parsed date is a real date of years 1 to 9999 |
| Calendar.ParseFormat | tweet_scrape.py:101-103 | parsing a printed date gives back the date |
| Calendar.FormatParse | tweet_scrape.py:101-103 | printing a parsed date gives back the string |
| Calendar.FormatInjective | tweet_scrape.py:168 | different dates print differently |
| DayRange.Days | tweet_scrape.py:165-169 | `delta.days + 1` days when `start <= end`, none otherwise; day `i` is `start + i` |
| DayRange.DateRange | tweet_scrape.py:150-170 | one printed date per day of the range, in order |
| DayRange.DateRangeEmptyIff | tweet_scrape.py:165-169 | the range of two dates is empty exactly when `end` is before `start` |
| DayRange.DaysEnds | tweet_scrape.py:150-170 | a non-empty range begins at `start` and ends at `end`, both included |
| DayRange.DaysConsecutive | tweet_scrape.py:167 | each day of the range is the day after the one before it |
| DayRange.DaysIncreasing | tweet_scrape.py:167 | the days of the range strictly increase |
| DayRange.DateRangeParses | tweet_scrape.py:168 | each printed day parses back to its day |
| DayRange.DateRangeDistinct | tweet_scrape.py:168 | no printed day appears twice |
| DayRangeExamples.DateRangeDefaultWindow | tweet_scrape.py:381-392 | the default dates give `["2021-12-31", "2022-01-01"]`, across a year boundary |
| DayRangeExamples.DateRangeThreeDays | tweet_scrape.py:150-170 | 2022-01-01 to 2022-01-03 gives those three days |
| Query.With | tweet_scrape.py:140-142 | replacing one threshold changes that threshold only |
| Query.Fragments | tweet_scrape.py:137-147 | the pieces of the f-string, twenty in all: the search address first; the `str` of each threshold in the slot of its own; the coin name, abbreviation, language and both dates unescaped in theirs; `&src=typed_query&f=` and the lower-cased page last |
| Query.QueryString | tweet_scrape.py:117-148 | the URL begins with `https://twitter.com/search?q=` |
| Query.ThresholdLocality | tweet_scrape.py:137-147 | a threshold's value fills one slot of the URL, and the text around it does not depend on it |
| Query.ThresholdDetermined | tweet_scrape.py:137-147 | two URLs differing only in one threshold are equal exactly when the values are |
| Query.EscapePlain | tweet_scrape.py:137-147 | a text with no space and no colon is written into the URL unchanged |
| Query.UnescapeEscape | tweet_scrape.py:137-147 | percent-decoding the escaped text gives the text back, when it holds no `%` |
| Query.QueryFrame | tweet_scrape.py:137-148 | the URL is the search address, the `q` fragments, `&src=typed_query&f=` and the lower-cased page |
| Query.QueryEncodesSearch | tweet_scrape.py:137-148 | when the coin name, abbreviation, language and both dates hold no space, `:` or `%`: the URL is the address, the escaped search text (coins, thresholds, language, until, since) and the page, and the text between `q=` and `&src=` unescapes, with the URL's two escapes, back to the search text |
| QueryExamples.BitcoinFragments | tweet_scrape.py:137-147 | for Bitcoin/BTC, thresholds 0, `en`, page `top`, from 2021-12-31 until 2022-01-01, each piece of the URL as a literal |
| QueryExamples.BitcoinUrl | tweet_scrape.py:137-148 | that URL is `https://twitter.com/search?q=`, the pieces between `q=` and `&src=`, and `&src=typed_query&f=top` |
| PageScraper.VisibleData | tweet_scrape.py:208-220 | `scrape_visible_data`: the texts or `datetime` attributes in order; with `scroll`, a scroll to the last element, which fails with `IndexError` exactly on an empty list |
| PageScraper.Sample | tweet_scrape.py:249-257 | one pass fails with `IndexError` exactly when no tweet is found, else with the assertion exactly when the two counts differ |
| PageScraper.ZipSetMembers | tweet_scrape.py:257 | `set(zip(datetimes, tweets))` is the set of same-position pairs up to the shorter list |
| PageScraper.SampleOk | tweet_scrape.py:249-257 | a pass that reads both queries adds `(datetime, text)` of each tweet and scrolls to the last tweet |
| PageScraper.FirstStop | tweet_scrape.py:241-273 | the loop ends on some pass no later than pass 3200 |
| PageScraper.FirstStopMinimal | tweet_scrape.py:241-273 | every pass before the last one read both queries and had `break_count` below three |
| PageScraper.ScrapeResultCases | tweet_scrape.py:241-275 | `ScrapeResult`, the outcome of `scrape_full_page`: the scrape returns a set only when its last pass is the third stale one, and that set is the union of every pass; `IndexError` or the assertion is the last pass's own failure; the scroll limit is raised only on pass 3200 |
| PageScraper.CommandLog | tweet_scrape.py:242-264 | the scripts a scrape runs: at least one, the video pause first |
| PageScraper.StreakStep | tweet_scrape.py:258-266 | `break_count` resets to 0 when a pass grows the set, else goes up by one |
| PageScraper.Pass | tweet_scrape.py:241-273 | one pass: if the loop goes on, `num_scrolls` goes up by one, to 3200 at most |
| PageScraper.PassExtends | tweet_scrape.py:241-273 | after one pass `full_tweets` only has grown, and the scripts run so far stay at the front of the log, with at least one more |
| PageScraper.RunExtends | tweet_scrape.py:241-275 | `Run`, the loop from any variables: the scripts already run stay at the front of its log, which grows, and a returned set contains `full_tweets` as it was |
| PageScraper.PassOk | tweet_scrape.py:249-257 | a pass that reads both queries adds the zip of its datetimes and texts to the set |
| PageScraper.RunFromState | tweet_scrape.py:241-275 | from the top of any pass the loop ends with the scrape's result and script log |
| PageScraper.ScrapeFullPage | tweet_scrape.py:223-275 | the method's loop returns `ScrapeResult(feed)` and runs the scripts `CommandLog(feed)` |
| PageScraperFacts.SeenGrows | tweet_scrape.py:257 | `full_tweets` only grows from pass to pass |
| PageScraperFacts.SeenMembers | tweet_scrape.py:257 | a pair is in the set after `n` passes exactly when one of them read it |
| PageScraperFacts.StaleAddsNothing | tweet_scrape.py:258 | an unchanged `len(full_tweets)` means the pass added nothing new, and conversely |
| PageScraperFacts.StreakOfThree | tweet_scrape.py:258-261 | `break_count` reaches three exactly when the last three passes added nothing |
| PageScraperFacts.StallKeepsSet | tweet_scrape.py:258-261 | a stall returns the set held before its three stale passes |
| PageScraperFacts.FirstStopIs | tweet_scrape.py:241-273 | the pass that stops with none before it is the loop's last pass |
| PageScraperFacts.BeforeStopAllRead | tweet_scrape.py:241-273 | every pass before the last read both queries and did not stall |
| PageScraperFacts.FailingPassReported | tweet_scrape.py:208-257 | the first failing pass, with no stop before it, ends the scrape with its error |
| PageScraperFacts.StallReported | tweet_scrape.py:258-275 | the first third stale pass returns the set read so far |
| PageScraperFacts.OkIsStall | tweet_scrape.py:258-275 | a scrape that returns a set ended on a stall, returning the set read so far |
| PageScraperFacts.OkAllRead | tweet_scrape.py:249-261 | a successful scrape read both queries on every pass |
| PageScraperFacts.ScrapeOk | tweet_scrape.py:241-275 | a returned set holds exactly the pairs read before the three stale passes |
| PageScraperFacts.ScrapeFailed | tweet_scrape.py:208-257 | an `IndexError` or assertion comes from the last pass, after passes that all succeeded |
| PageScraperFacts.ScrollLimitMeans | tweet_scrape.py:268-272 | the scroll limit is raised on pass 3200 after 3201 passes that read both queries and never stalled |
| PageScraperFacts.ScrollLimitIff | tweet_scrape.py:268-272 | the scroll limit is raised exactly when all 3201 passes read both queries without a stall |
| PageScraperFacts.LogBounds | tweet_scrape.py:245-264 | `n` passes run between `n` and `3n` scripts |
| PageScraperFacts.CommandLogBounds | tweet_scrape.py:241-273 | a scrape runs at least one script per pass and at most 9603 in all |
| PageScraperExamples.SameEveryPass | tweet_scrape.py:258-261 | passes that all read the same non-empty set grow once and stall on the fourth |
| PageScraperExamples.SteadyPage | tweet_scrape.py:241-275 | a page that never changes is scraped in four passes and returns its pairs; the scripts are as listed |
| PageScraperExamples.EmptyPage | tweet_scrape.py:215 | a page with no tweet fails with `IndexError` after pausing the videos |
| PageScraperExamples.MismatchedPage | tweet_scrape.py:254-256 | different numbers of tweets and datetimes fail the assertion after one scroll |
| Export.ExportCsv | tweet_scrape.py:289-297 | the file is written at `folder + '/' + filename` when a folder is given and non-empty, else at `filename` |
| Export.TargetPath | tweet_scrape.py:289-292 | the path ends with the file name; inside a folder it begins with `folder/`, and with no folder or an empty one it is the file name |
| Export.ReadCsv | tweet_scrape.py:294-297 | a file reads back exactly when its first row is `datetime,tweet`, and it is that header followed by what it reads back as |
| Export.ReadExport | tweet_scrape.py:294-297 | reading an exported file back gives the data after the `datetime,tweet` header |
| Export.ExportOfRead | tweet_scrape.py:294-297 | rows that read back as the data are exactly the rows written for it |
| Export.HeaderOnly | tweet_scrape.py:296-297 | a file that lists no tuple holds the header alone |
| Export.LastSlash | tweet_scrape.py:292 | the position of the last `/`, with none after it; none when there is no `/` |
| Export.SplitTarget | tweet_scrape.py:289-292 | splitting the target path gives back the folder and the file name |
| Export.RowOfInjective | tweet_scrape.py:297 | different tuples give different rows |
| Export.ListRows | tweet_scrape.py:297 | `writer.writerows(data)` on a set writes each tuple once, as a two-field row, and nothing else |
| Orchestrator.Handler | tweet_scrape.py:339-353 | the first `except` clause that catches the exception, which catches it |
| Orchestrator.TimeoutHandledFirst | tweet_scrape.py:339-343 | a timeout, also a driver error, goes to the timeout clause |
| Orchestrator.Raised | tweet_scrape.py:254-272 | a failed scrape raises `IndexError`, `AssertionError` or a plain `Exception`: never a timeout or a driver error |
| Orchestrator.ScrapeErrorsCaughtLast | tweet_scrape.py:339-353 | every error of a scrape goes to `except Exception` |
| Orchestrator.TryBlock | tweet_scrape.py:322-338 | the `try` body gives a set exactly when the page loaded and the scrape returned that set; a timeout or a driver error comes only from loading the page |
| Orchestrator.ActionOf | tweet_scrape.py:338-353 | a driver error, and only one, retries; a returned set or a timeout writes, a timeout with no data; every other exception skips the day |
| Orchestrator.LoadedAction | tweet_scrape.py:338-359 | a loaded page that scrapes writes its set, and one that fails skips the day |
| Orchestrator.WindowUrl | tweet_scrape.py:323-328 | the URL of window `i`, from `dates[i]` until `dates[i + 1]`: a search URL |
| Orchestrator.DayPath | tweet_scrape.py:355-357 | a day is written to `Tweets/{coin_name}/{coin_abbrv}_tweets_{end_day}.csv` |
| Orchestrator.DayPathInjective | tweet_scrape.py:355-357 | different end days go to different files |
| Orchestrator.DayPathSplits | tweet_scrape.py:355-357 | when the coin abbreviation and the end day hold no `/`, the path splits into the coin's folder and the day's file name; an abbreviation such as `BTC/USD` splits elsewhere |
| Orchestrator.ExportedAppend | tweet_scrape.py:355-359 | adding a day's file keeps every file at its day's path with its data once each |
| Orchestrator.ExportWindow | tweet_scrape.py:355-357 | a day's file is at its path and reads back as its data, once each; a day with no data, as after a timeout, is the header alone |
| Orchestrator.Attempt | tweet_scrape.py:323-338 | one `try` body: the exception the page raises, or the outcome of `scrape_full_page` |
| Orchestrator.AttemptAction | tweet_scrape.py:321-353 | the action is the one the run's oracle gives for this day and error count |
| Orchestrator.RunFrom | tweet_scrape.py:321-359 | the day loop from window `i`: it never goes back a window, ends with between `errs` and five errors counted, and exports at most one file per window left |
| Orchestrator.Run | tweet_scrape.py:317-359 | the whole run: at most five errors, and at most one export per window |
| Orchestrator.WriteKeepsTrack | tweet_scrape.py:355-359 | an export keeps the loop matched to the run at the next day |
| Orchestrator.SkipKeepsTrack | tweet_scrape.py:349-353 | a skipped day keeps the loop matched to the run at the next day |
| Orchestrator.RetryKeepsTrack | tweet_scrape.py:343-348 | a driver error under five keeps the loop at the same day; the fifth ends the run |
| Orchestrator.Advance | tweet_scrape.py:339-359 | one pass of the day loop keeps the loop matched to the run, or stops with every export written |
| Orchestrator.RunScraper | tweet_scrape.py:317-359 | the loop writes exactly the files of the run, in order, at their paths, with their data |
| Orchestrator.RunEnds | tweet_scrape.py:321-359 | the run ends either after every day, or on a day before the last with five driver errors counted |
| Orchestrator.WrittenInOrder | tweet_scrape.py:321-359 | the exported days lie in the handled range, each once, increasing |
| Orchestrator.WrittenByAttempt | tweet_scrape.py:338-357 | every export holds the data of an attempt on its day |
| Orchestrator.AllWritten | tweet_scrape.py:321-359 | when every attempt succeeds, every day is exported in order |
| Orchestrator.RunPathsDistinct | tweet_scrape.py:355-357 | with distinct dates, no two exports share a file |
| Orchestrator.AlwaysFaulting | tweet_scrape.py:343-348 | five driver errors on the first day end the run with no file |
| Orchestrator.FaultsAccumulate | tweet_scrape.py:319-348 | errors count across days: two on day one and three on day two end the run after one export |
| Orchestrator.BrowserFaults | tweet_scrape.py:339-353 | a timeout exports the window with no data, so any file that lists it is the header alone; a driver error retries; any other exception skips the day |
| Orchestrator.EmptyExportIsHeader | tweet_scrape.py:339-357 | among the run's files, an export with no data, as after a timeout, holds the header alone |
| Cli.WithDefaults | tweet_scrape.py:381-420 | the defaults: dates 2021-12-31 and 2022-01-01, thresholds 0, page `top` |
| Cli.Validate | tweet_scrape.py:424-435 | the three checks in order: a space in the name, then in the abbreviation, then a page other than top or latest in any case |
| Cli.PageChoiceIgnoresCase | tweet_scrape.py:432 | a page passes exactly when its lower-cased form passes |
| Cli.Construct | tweet_scrape.py:100-115 | the scraper is built exactly when both dates parse, else the date-format error; the language is `en` |
| Cli.ConstructKeepsDates | tweet_scrape.py:101-103 | the parsed dates print back as the strings given |
| Cli.Launch | tweet_scrape.py:424-450 | the run starts exactly when the checks pass and both dates parse; a failed check is reported first |
| Cli.Dates | tweet_scrape.py:317 | `date_rng(self.date_start, self.date_end)`: the run has a day exactly when the end date is not before the start date |
| Cli.DatesDistinct | tweet_scrape.py:317 | no day of a run comes twice |
| Cli.DatesOfLaunch | tweet_scrape.py:317 | a launched run's days begin with the start date as typed |
| Cli.RunWritesDistinctFiles | tweet_scrape.py:317-357 | a run never writes two exports to the same file |
| Cli.WindowUrlEncodes | tweet_scrape.py:321-330 | when the coin name and abbreviation hold no space, `:` or `%`: each day's URL carries between `q=` and `&src=` the escaped search text for that day and the next, and it unescapes back |
| Cli.LaunchedWindowUrl | tweet_scrape.py:321-330 | a launched run's URLs end in `top` or `latest`, when the coin names hold no `:` or `%` |
| CliExamples.DefaultRun | tweet_scrape.py:381-450 | with only the positional arguments, the run has one window, 2021-12-31 to 2022-01-01, in English |
| CliExamples.SpacedName | tweet_scrape.py:424-427 | `Shiba Inu` is refused |
| CliExamples.PageChoices | tweet_scrape.py:432 | `Latest` and `TOP` pass; `new` does not |

## Left out

- Selenium: the browser, `WebDriverWait`, `find_elements_by_css_selector` and `execute_script`. The browser is an oracle (`Browser`, a page feed). The scripts are recorded as commands, not run.
- `sleep` calls, `print` messages, the `errors.log` writes and `driver.quit()`: they do not change the CSV exports.
- Folder creation (`makedirs`) and the file write: a file is a path and a list of rows.
- csv quoting: a row is the list of its fields.
- The order in which a Python set is listed is not fixed. `Export.ListRows` picks any order, and its contract states only which rows appear.
- A driver exception raised inside `scrape_full_page`, after the page has loaded, is not modelled. An attempt either raises on load or scrapes a feed that raises no driver exception.
- Calendar.ParseDate: it accepts only strict `YYYY-MM-DD` with zero-padded fields. `strptime` also accepts unpadded months and days such as `2022-1-5`, and the model refuses those.
- Text.Lower: it folds ASCII capitals only. Python's `str.lower()` also folds other scripts.
- Command-line parsing by `argparse`: parse errors, `-h`, and the conversion of `-faves`-style options to `int`. Args arrive already typed.
- The constructor's `language` parameter: the command line never sets it, so every launched run searches in `en`.
- `scrape_visible_data` reads an element's coordinates and builds the scroll script from them. The model keeps the coordinates as numbers in the command.
- Cli.LaunchedWindowUrl: it needs coin names without `:` or `%`. The checks refuse only spaces, and such names change the search text.
- Query.QueryEncodesSearch: it needs a coin name, abbreviation, language and dates with no space, `:` or `%`. It unescapes with the URL's two escapes only, not as a URL is parsed: a `&` or `#` in a coin name, which the checks allow, would end the `q` parameter, and a `+` would read as a space.
- Cli.WindowUrlEncodes: the same hypotheses and the same limit, for every window of a scraper.
- Calendar.Format: it pads years below 1000 to four digits. CPython's `strftime("%Y")` leaves those years to the platform's C library, and glibc prints `999` unpadded, so `Cli.ConstructKeepsDates` holds there only from year 1000 on.

## Notes on the code as written

- **The scroll limit skips the day; it does not abort the run.** The exception for the scroll limit (lines 269-272) is a plain `Exception`. So the day loop's `except Exception` catches it, logs it and moves on to the next day without an export. `Orchestrator.ScrapeErrorsCaughtLast` states this.
- **`err_counter` counts errors over the whole run.** It is never reset, so five driver errors on different days end the run. `Orchestrator.FaultsAccumulate` shows this.
- **A timeout exports an empty file.** After a timeout `data` is `[]`, and the file holds only the header, as `Orchestrator.BrowserFaults`, `Orchestrator.ExportWindow` and `Orchestrator.EmptyExportIsHeader` state.
- **The loop stops after at most 3201 passes.** The scroll counter is checked after it is incremented, so 3201 passes run (0 to 3200) before the limit is raised.
