/**
 * `TweetScraper.query_string`: the search URL for one day window. The `q` parameter is
 * the Twitter advanced-search text, with its spaces written `%20` and its colons `%3A`;
 * the coin name and abbreviation go in unescaped.
 */
module Query {
  import opened Text

  /** The search settings a `TweetScraper` is built with. */
  datatype Search = Search(
    coinName: string,
    coinAbbrv: string,
    minFaves: int,
    minRetweets: int,
    minReplies: int,
    page: string,
    language: string)

  /** The three engagement thresholds of the query. */
  datatype Threshold = Replies | Faves | Retweets

  function Get(s: Search, t: Threshold): int {
    match t
    case Replies => s.minReplies
    case Faves => s.minFaves
    case Retweets => s.minRetweets
  }

  /** The settings with one threshold replaced. */
  function With(s: Search, t: Threshold, v: int): (r: Search)
    ensures Get(r, t) == v
    ensures forall u :: u != t ==> Get(r, u) == Get(s, u)
    ensures r.coinName == s.coinName && r.coinAbbrv == s.coinAbbrv
    ensures r.page == s.page && r.language == s.language
  {
    match t
    case Replies => s.(minReplies := v)
    case Faves => s.(minFaves := v)
    case Retweets => s.(minRetweets := v)
  }

  const SearchUrl := "https://twitter.com/search?q="
  const PageParam := "&src=typed_query&f="

  /** The keys of the advanced-search operators the query uses. */
  const KeyReplies := "min_replies"
  const KeyFaves := "min_faves"
  const KeyRetweets := "min_retweets"
  const KeyLang := "lang"
  const KeyUntil := "until"
  const KeySince := "since"
  const Or := "OR"

  /** A search operator's key as the URL writes it: an escaped space, the key, an escaped colon. */
  function Param(key: string): string { "%20" + key + "%3A" }

  /** The strings concatenated one after the other. */
  function Concat(xs: seq<string>): string {
    if |xs| == 0 then "" else xs[0] + Concat(xs[1..])
  }

  /** The position of a threshold's value among the fragments. */
  function Slot(t: Threshold): nat {
    match t
    case Replies => 7
    case Faves => 9
    case Retweets => 11
  }

  /**
   * The fragments of the `query_string` f-string in the order it writes them: the
   * search address, the coin alternative, the three thresholds, the language, the
   * two dates and the lower-cased page.
   */
  function Fragments(s: Search, since: string, until: string): (fs: seq<string>)
    ensures |fs| == 20 && fs[0] == SearchUrl
    ensures forall t :: Slot(t) < |fs| && fs[Slot(t)] == IntToString(Get(s, t))
    ensures fs[2] == s.coinName && fs[4] == s.coinAbbrv && fs[13] == s.language
    ensures fs[15] == until && fs[17] == since && fs[18] == PageParam && fs[19] == Lower(s.page)
  {
    [SearchUrl, "(", s.coinName, "%20" + Or + "%20", s.coinAbbrv, ")",
     Param(KeyReplies), IntToString(s.minReplies),
     Param(KeyFaves), IntToString(s.minFaves),
     Param(KeyRetweets), IntToString(s.minRetweets),
     Param(KeyLang), s.language,
     Param(KeyUntil), until,
     Param(KeySince), since,
     PageParam, Lower(s.page)]
  }

  /** `query_string(date_since, date_until)`. */
  function QueryString(s: Search, since: string, until: string): (url: string)
    ensures SearchUrl <= url
  {
    var fs := Fragments(s, since, until);
    assert Concat(fs) == SearchUrl + Concat(fs[1..]);
    Concat(fs)
  }

  lemma {:induction false} ConcatAppend(xs: seq<string>, ys: seq<string>)
    ensures Concat(xs + ys) == Concat(xs) + Concat(ys)
  {
    if |xs| > 0 {
      assert (xs + ys)[1..] == xs[1..] + ys;
      ConcatAppend(xs[1..], ys);
    } else {
      assert xs + ys == ys;
    }
  }

  /** Concatenating a list with one element replaced. */
  lemma ConcatUpdate(xs: seq<string>, i: int, x: string)
    requires 0 <= i < |xs|
    ensures Concat(xs[i := x]) == Concat(xs[..i]) + x + Concat(xs[i + 1..])
  {
    assert xs[i := x] == xs[..i] + ([x] + xs[i + 1..]);
    ConcatAppend(xs[..i], [x] + xs[i + 1..]);
    ConcatAppend([x], xs[i + 1..]);
    ConcatOne(x);
  }

  lemma ConcatOne(x: string)
    ensures Concat([x]) == x
  {
    assert [x][1..] == [];
  }

  lemma ConcatTwo(x: string, y: string)
    ensures Concat([x, y]) == x + y
  {
    assert [x, y][1..] == [y];
    ConcatOne(y);
  }

  // ---- Each threshold has its own segment ----

  /** The URL up to a threshold's value, and the URL after it. */
  function SegmentBefore(s: Search, t: Threshold, since: string, until: string): string {
    Concat(Fragments(s, since, until)[..Slot(t)])
  }

  function SegmentAfter(s: Search, t: Threshold, since: string, until: string): string {
    Concat(Fragments(s, since, until)[Slot(t) + 1..])
  }

  lemma FragmentsWith(s: Search, t: Threshold, v: int, since: string, until: string)
    ensures Slot(t) < |Fragments(s, since, until)|
    ensures Fragments(With(s, t, v), since, until) == Fragments(s, since, until)[Slot(t) := IntToString(v)]
  {
  }

  /**
   * Setting one threshold to `v` puts `str(v)` in its segment and leaves the text
   * before and after that segment as it was, whatever the threshold held before.
   */
  lemma ThresholdLocality(s: Search, t: Threshold, v: int, since: string, until: string)
    ensures QueryString(With(s, t, v), since, until) == SegmentBefore(s, t, since, until) + IntToString(v) + SegmentAfter(s, t, since, until)
    ensures SegmentBefore(With(s, t, v), t, since, until) == SegmentBefore(s, t, since, until)
    ensures SegmentAfter(With(s, t, v), t, since, until) == SegmentAfter(s, t, since, until)
  {
    var fs, k, x := Fragments(s, since, until), Slot(t), IntToString(v);
    FragmentsWith(s, t, v, since, until);
    ConcatUpdate(fs, k, x);
    assert fs[k := x][..k] == fs[..k];
    assert fs[k := x][k + 1..] == fs[k + 1..];
  }

  /** Two thresholds give the same URL exactly when they are equal. */
  lemma ThresholdDetermined(s: Search, t: Threshold, v: int, w: int, since: string, until: string)
    ensures QueryString(With(s, t, v), since, until) == QueryString(With(s, t, w), since, until) <==> v == w
  {
    ThresholdLocality(s, t, v, since, until);
    ThresholdLocality(s, t, w, since, until);
    var p, q := SegmentBefore(s, t, since, until), SegmentAfter(s, t, since, until);
    var a, b := IntToString(v), IntToString(w);
    if p + a + q == p + b + q {
      assert |a| == |b|;
      assert a == (p + a + q)[|p|..|p| + |a|];
      assert b == (p + b + q)[|p|..|p| + |b|];
      IntToStringInjective(v, w);
    }
  }

  // ---- The URL as an escaped search text ----

  /** The separating space and the key of one `key:value` search operator. */
  function Operator(key: string): string { " " + key + ":" }

  /** The advanced-search text the URL asks for, as a user would type it, in pieces. */
  function TextFragments(s: Search, since: string, until: string): seq<string> {
    ["(", s.coinName, " " + Or + " ", s.coinAbbrv, ")",
     Operator(KeyReplies), IntToString(s.minReplies),
     Operator(KeyFaves), IntToString(s.minFaves),
     Operator(KeyRetweets), IntToString(s.minRetweets),
     Operator(KeyLang), s.language,
     Operator(KeyUntil), until,
     Operator(KeySince), since]
  }

  function SearchText(s: Search, since: string, until: string): string {
    Concat(TextFragments(s, since, until))
  }

  /** The two escapes the URL uses. */
  function EscapeChar(c: char): string {
    if c == ' ' then "%20" else if c == ':' then "%3A" else [c]
  }

  function Escape(t: string): string {
    if |t| == 0 then "" else EscapeChar(t[0]) + Escape(t[1..])
  }

  /** Percent-decoding of the two escapes; every other character stands for itself. */
  function Unescape(u: string): string {
    if |u| == 0 then ""
    else if |u| >= 3 && u[..3] == "%20" then " " + Unescape(u[3..])
    else if |u| >= 3 && u[..3] == "%3A" then ":" + Unescape(u[3..])
    else [u[0]] + Unescape(u[1..])
  }

  /** A text with nothing to escape. */
  predicate Plain(t: string) { forall i :: 0 <= i < |t| ==> t[i] != ' ' && t[i] != ':' }

  /** A text with no percent sign, so that unescaping cannot misread it. */
  predicate NoPercent(t: string) { forall i :: 0 <= i < |t| ==> t[i] != '%' }

  lemma {:induction false} EscapeAppend(a: string, b: string)
    ensures Escape(a + b) == Escape(a) + Escape(b)
  {
    if |a| > 0 {
      assert (a + b)[1..] == a[1..] + b;
      EscapeAppend(a[1..], b);
    } else {
      assert a + b == b;
    }
  }

  lemma {:induction false} EscapePlain(t: string)
    requires Plain(t)
    ensures Escape(t) == t
  {
    if |t| > 0 {
      EscapePlain(t[1..]);
      assert t == [t[0]] + t[1..];
    }
  }

  /** Unescaping undoes escaping, for any text without a percent sign. */
  lemma {:induction false} UnescapeEscape(t: string)
    requires NoPercent(t)
    ensures Unescape(Escape(t)) == t
  {
    if |t| > 0 {
      var rest := Escape(t[1..]);
      assert Escape(t) == EscapeChar(t[0]) + rest;
      UnescapeEscape(t[1..]);
      if t[0] == ' ' {
        assert (EscapeChar(t[0]) + rest)[..3] == "%20" && (EscapeChar(t[0]) + rest)[3..] == rest;
      } else if t[0] == ':' {
        assert (EscapeChar(t[0]) + rest)[..3] == "%3A" && (EscapeChar(t[0]) + rest)[3..] == rest;
      } else {
        assert (EscapeChar(t[0]) + rest)[0] == t[0] && (EscapeChar(t[0]) + rest)[1..] == rest;
      }
      assert t == [t[0]] + t[1..];
    }
  }

  lemma IntToStringPlain(n: int)
    ensures Plain(IntToString(n)) && NoPercent(IntToString(n))
  {
  }

  function EscapeEach(xs: seq<string>): (ys: seq<string>)
    ensures |ys| == |xs| && forall i :: 0 <= i < |xs| ==> ys[i] == Escape(xs[i])
  {
    seq(|xs|, i requires 0 <= i < |xs| => Escape(xs[i]))
  }

  lemma {:induction false} EscapeConcat(xs: seq<string>)
    ensures Escape(Concat(xs)) == Concat(EscapeEach(xs))
  {
    if |xs| > 0 {
      EscapeAppend(xs[0], Concat(xs[1..]));
      EscapeConcat(xs[1..]);
      assert EscapeEach(xs)[1..] == EscapeEach(xs[1..]);
    }
  }

  lemma {:induction false} NoPercentConcat(xs: seq<string>)
    requires forall i :: 0 <= i < |xs| ==> NoPercent(xs[i])
    ensures NoPercent(Concat(xs))
  {
    if |xs| > 0 {
      NoPercentConcat(xs[1..]);
      var a, b := xs[0], Concat(xs[1..]);
      forall i | 0 <= i < |a + b|
        ensures (a + b)[i] != '%'
      {
        if i >= |a| {
          assert (a + b)[i] == b[i - |a|];
        }
      }
    }
  }

  lemma KeysPlain()
    ensures Plain(KeyReplies) && Plain(KeyFaves) && Plain(KeyRetweets)
    ensures Plain(KeyLang) && Plain(KeyUntil) && Plain(KeySince) && Plain(Or)
    ensures NoPercent(KeyReplies) && NoPercent(KeyFaves) && NoPercent(KeyRetweets)
    ensures NoPercent(KeyLang) && NoPercent(KeyUntil) && NoPercent(KeySince) && NoPercent(Or)
  {
  }

  /** A key with nothing to escape has its space and colon escaped. */
  lemma EscapeOperator(key: string)
    requires Plain(key)
    ensures Escape(Operator(key)) == Param(key)
  {
    EscapeAppend(" ", key);
    EscapeAppend(" " + key, ":");
    EscapePlain(key);
    assert Escape(" ") == "%20";
    assert Escape(":") == "%3A";
  }

  lemma EscapeOr()
    ensures Escape(" " + Or + " ") == "%20" + Or + "%20"
  {
    KeysPlain();
    EscapeAppend(" ", Or);
    EscapeAppend(" " + Or, " ");
    EscapePlain(Or);
    assert Escape(" ") == "%20";
  }

  /** A list of escaped fragments, given element by element. */
  lemma EscapeEachOf(xs: seq<string>, ys: seq<string>)
    requires |xs| == |ys| && forall i :: 0 <= i < |xs| ==> Escape(xs[i]) == ys[i]
    ensures ys == EscapeEach(xs)
  {
  }

  /** An operator fragment and its value, against their escaped URL fragments. */
  lemma EscapeOperatorAt(ts: seq<string>, fs: seq<string>, i: int, key: string, value: string)
    requires 0 <= i && i + 2 < |fs| && i + 1 < |ts|
    requires Plain(key) && Plain(value)
    requires ts[i] == Operator(key) && ts[i + 1] == value
    requires fs[i + 1] == Param(key) && fs[i + 2] == value
    ensures Escape(ts[i]) == fs[i + 1] && Escape(ts[i + 1]) == fs[i + 2]
  {
    EscapeOperator(key);
    EscapePlain(value);
  }

  /** The parenthesised alternative of the coin's name and abbreviation, against its URL fragments. */
  lemma EscapeCoinsAt(ts: seq<string>, fs: seq<string>, name: string, abbrv: string)
    requires 5 <= |ts| && 6 <= |fs| && Plain(name) && Plain(abbrv)
    requires ts[0] == "(" && ts[1] == name && ts[2] == " " + Or + " " && ts[3] == abbrv && ts[4] == ")"
    requires fs[1] == "(" && fs[2] == name && fs[3] == "%20" + Or + "%20" && fs[4] == abbrv && fs[5] == ")"
    ensures forall i :: 0 <= i < 5 ==> Escape(ts[i]) == fs[i + 1]
  {
    assert Escape("(") == "(" && Escape(")") == ")";
    EscapePlain(name);
    EscapePlain(abbrv);
    EscapeOr();
  }

  lemma EscapeHeadFragments(s: Search, since: string, until: string)
    requires Plain(s.coinName) && Plain(s.coinAbbrv)
    ensures forall i :: 0 <= i < 5 ==> Escape(TextFragments(s, since, until)[i]) == Fragments(s, since, until)[i + 1]
  {
    EscapeCoinsAt(TextFragments(s, since, until), Fragments(s, since, until), s.coinName, s.coinAbbrv);
  }

  /** Three operators in a row, against their URL fragments. */
  lemma EscapeThreeOperatorsAt(ts: seq<string>, fs: seq<string>, i: int, k1: string, v1: string, k2: string, v2: string, k3: string, v3: string)
    requires 0 <= i && i + 6 < |fs| && i + 5 < |ts|
    requires Plain(k1) && Plain(v1) && Plain(k2) && Plain(v2) && Plain(k3) && Plain(v3)
    requires ts[i] == Operator(k1) && ts[i + 1] == v1 && ts[i + 2] == Operator(k2)
    requires ts[i + 3] == v2 && ts[i + 4] == Operator(k3) && ts[i + 5] == v3
    requires fs[i + 1] == Param(k1) && fs[i + 2] == v1 && fs[i + 3] == Param(k2)
    requires fs[i + 4] == v2 && fs[i + 5] == Param(k3) && fs[i + 6] == v3
    ensures forall j :: i <= j < i + 6 ==> Escape(ts[j]) == fs[j + 1]
  {
    EscapeOperatorAt(ts, fs, i, k1, v1);
    EscapeOperatorAt(ts, fs, i + 2, k2, v2);
    EscapeOperatorAt(ts, fs, i + 4, k3, v3);
  }

  lemma EscapeThresholdFragments(s: Search, since: string, until: string)
    ensures forall i :: 5 <= i < 11 ==> Escape(TextFragments(s, since, until)[i]) == Fragments(s, since, until)[i + 1]
  {
    KeysPlain();
    IntToStringPlain(s.minReplies);
    IntToStringPlain(s.minFaves);
    IntToStringPlain(s.minRetweets);
    EscapeThreeOperatorsAt(TextFragments(s, since, until), Fragments(s, since, until), 5,
      KeyReplies, IntToString(s.minReplies), KeyFaves, IntToString(s.minFaves), KeyRetweets, IntToString(s.minRetweets));
  }

  lemma EscapeTailFragments(s: Search, since: string, until: string)
    requires Plain(s.language) && Plain(since) && Plain(until)
    ensures forall i :: 11 <= i < 17 ==> Escape(TextFragments(s, since, until)[i]) == Fragments(s, since, until)[i + 1]
  {
    KeysPlain();
    EscapeThreeOperatorsAt(TextFragments(s, since, until), Fragments(s, since, until), 11,
      KeyLang, s.language, KeyUntil, until, KeySince, since);
  }

  /** Between the search address and the page parameter, the URL fragments are the escaped text fragments. */
  lemma FragmentsEscape(s: Search, since: string, until: string)
    requires Plain(s.coinName) && Plain(s.coinAbbrv) && Plain(s.language) && Plain(since) && Plain(until)
    ensures Fragments(s, since, until)[1..18] == EscapeEach(TextFragments(s, since, until))
  {
    EscapeHeadFragments(s, since, until);
    EscapeThresholdFragments(s, since, until);
    EscapeTailFragments(s, since, until);
    var ts, fs := TextFragments(s, since, until), Fragments(s, since, until)[1..18];
    forall i | 0 <= i < |ts|
      ensures Escape(ts[i]) == fs[i]
    {
    }
    EscapeEachOf(ts, fs);
  }

  /** Every text fragment is free of percent signs when the settings and dates are. */
  lemma TextFragmentsNoPercent(s: Search, since: string, until: string)
    requires NoPercent(s.coinName) && NoPercent(s.coinAbbrv) && NoPercent(s.language) && NoPercent(since) && NoPercent(until)
    ensures forall i :: 0 <= i < |TextFragments(s, since, until)| ==> NoPercent(TextFragments(s, since, until)[i])
  {
    IntToStringPlain(s.minReplies);
    IntToStringPlain(s.minFaves);
    IntToStringPlain(s.minRetweets);
    KeysPlain();
  }

  /** The URL is the search address, the `q` parameter, and the page parameter, for any settings. */
  lemma QueryFrame(s: Search, since: string, until: string)
    ensures QueryString(s, since, until) == SearchUrl + Concat(Fragments(s, since, until)[1..18]) + PageParam + Lower(s.page)
  {
    var fs := Fragments(s, since, until);
    assert fs == [fs[0]] + fs[1..18] + [fs[18], fs[19]];
    ConcatAppend([fs[0]] + fs[1..18], [fs[18], fs[19]]);
    ConcatAppend([fs[0]], fs[1..18]);
    ConcatOne(fs[0]);
    ConcatTwo(fs[18], fs[19]);
  }

  /**
   * The URL is the search address, the escaped search text, and the page parameter;
   * and the `q` parameter unescapes back to the search text. This holds when the
   * free-text settings and the two dates have nothing to escape and no percent sign.
   */
  lemma QueryEncodesSearch(s: Search, since: string, until: string)
    requires Plain(s.coinName) && Plain(s.coinAbbrv) && Plain(s.language) && Plain(since) && Plain(until)
    requires NoPercent(s.coinName) && NoPercent(s.coinAbbrv) && NoPercent(s.language) && NoPercent(since) && NoPercent(until)
    ensures QueryString(s, since, until) == SearchUrl + Escape(SearchText(s, since, until)) + PageParam + Lower(s.page)
    ensures Unescape(Escape(SearchText(s, since, until))) == SearchText(s, since, until)
  {
    QueryFrame(s, since, until);
    FragmentsEscape(s, since, until);
    EscapeConcat(TextFragments(s, since, until));
    TextFragmentsNoPercent(s, since, until);
    NoPercentConcat(TextFragments(s, since, until));
    UnescapeEscape(SearchText(s, since, until));
  }
}


/** The URL of one window for Bitcoin, with the command line's default thresholds and page. */
module QueryExamples {
  import opened Text
  import opened Query

  function Bitcoin(): Search { Search("Bitcoin", "BTC", 0, 0, 0, "top", "en") }

  /** The first default window: from 2021-12-31 until 2022-01-01. */
  predicate FirstWindow(s: Search, since: string, until: string) {
    s == Bitcoin() && since == "2021-12-31" && until == "2022-01-01"
  }

  /** Each fragment of the first default window's URL, as the f-string writes it. */
  lemma BitcoinFragments(s: Search, since: string, until: string)
    requires FirstWindow(s, since, until)
    ensures Fragments(s, since, until) ==
      ["https://twitter.com/search?q=", "(", "Bitcoin", "%20OR%20", "BTC", ")",
       "%20min_replies%3A", "0", "%20min_faves%3A", "0", "%20min_retweets%3A", "0",
       "%20lang%3A", "en", "%20until%3A", "2022-01-01", "%20since%3A", "2021-12-31",
       "&src=typed_query&f=", "top"]
  {
    assert Param(KeyReplies) == "%20min_replies%3A" && Param(KeyFaves) == "%20min_faves%3A";
    assert Param(KeyRetweets) == "%20min_retweets%3A" && Param(KeyLang) == "%20lang%3A";
    assert Param(KeyUntil) == "%20until%3A" && Param(KeySince) == "%20since%3A";
    assert "%20" + Or + "%20" == "%20OR%20";
    assert IntToString(0) == "0";
    assert Lower("top") == "top";
  }

  /**
   * The URL is the search address, the escaped search text between `q=` and `&src=` (the
   * fragments 1 to 17 listed by `BitcoinFragments`), and `&src=typed_query&f=top`.
   */
  lemma BitcoinUrl(s: Search, since: string, until: string)
    requires FirstWindow(s, since, until)
    ensures QueryString(s, since, until) ==
      "https://twitter.com/search?q=" + Concat(Fragments(s, since, until)[1..18]) + "&src=typed_query&f=" + "top"
  {
    QueryFrame(s, since, until);
    assert Lower(s.page) == "top";
  }
}
