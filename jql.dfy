/**
 * The mock Jira search: the JQL text the backend builds from a date range,
 * the two regular expressions that read the bounds back out of it, and the
 * inclusive, lexicographic filter on `created` that applies only when both
 * bounds were found.
 */
module Jql {
  import opened Wrappers
  import opened JsStrings
  import opened Seqs
  import opened Tickets

  /** The literal part of `/created >= "([^"]+)"/`, up to and including the opening quote. */
  const StartPattern: string := "created >= \""

  /** The literal part of `/created <= "([^"]+)"/`. */
  const EndPattern: string := "created <= \""

  /** What the template literal puts between the two dates, inside the quotes. */
  const Between: string := " AND created <= "

  /** What the template literal puts between the two dates. */
  const Middle: string := "\"" + Between + "\""

  /**
   * A pattern literal of the kind above: twelve characters, ending in the
   * quote that opens the capture and with no quote before it.
   */
  predicate IsPattern(lit: string) {
    |lit| == 12 && lit[11] == '"' && NoQuote(lit[..11])
  }

  lemma PatternsArePatterns()
    ensures IsPattern(StartPattern) && IsPattern(EndPattern)
    ensures StartPattern != EndPattern
  {
    assert StartPattern[8] != EndPattern[8];
  }

  // ---------------------------------------------------------------------------
  // String.prototype.match with /lit([^"]+)"/
  // ---------------------------------------------------------------------------

  /**
   * The regular expression `lit([^"]+)"` matches `s` at position `p` with
   * `c` as its capture: the literal, then one or more non-quote characters,
   * then a quote.
   */
  ghost predicate MatchesAt(s: string, lit: string, p: nat, c: string) {
    p + |lit| + |c| < |s|
    && s[p..p + |lit|] == lit
    && |c| > 0 && NoQuote(c)
    && s[p + |lit|..p + |lit| + |c|] == c
    && s[p + |lit| + |c|] == '"'
  }

  /** The index of the first quote at or after `i`, or `|s|` when there is none. */
  function QuoteFrom(s: string, i: nat): (j: nat)
    requires i <= |s|
    ensures i <= j <= |s|
    ensures forall k :: i <= k < j ==> s[k] != '"'
    ensures j < |s| ==> s[j] == '"'
    decreases |s| - i
  {
    if i == |s| || s[i] == '"' then i else QuoteFrom(s, i + 1)
  }

  /** The regular expression tried at the single position `p`. */
  function MatchAt(s: string, lit: string, p: nat): (r: Option<string>)
    ensures r.Some? ==> MatchesAt(s, lit, p, r.value)
    ensures forall c :: MatchesAt(s, lit, p, c) ==> r == Some(c)
  {
    if p + |lit| <= |s| && s[p..p + |lit|] == lit then
      var q := QuoteFrom(s, p + |lit|);
      if p + |lit| < q < |s| then
        assert |s[p + |lit|..q]| == q - (p + |lit|);
        Some(s[p + |lit|..q])
      else
        assert forall c :: MatchesAt(s, lit, p, c) ==> s[p + |lit|..p + |lit| + |c|][0] == c[0];
        None
    else None
  }

  /** A successful match: where it starts and what group 1 captured. */
  datatype Match = Match(pos: nat, capture: string)

  /**
   * The leftmost match at or after `from`: a regular expression without the
   * global flag reports the first position at which it matches, trying
   * every later position when an earlier occurrence of the literal fails.
   */
  function Search(s: string, lit: string, from: nat): (r: Option<Match>)
    requires from <= |s|
    ensures r.None? ==> forall p: nat, c :: from <= p ==> !MatchesAt(s, lit, p, c)
    ensures r.Some? ==> from <= r.value.pos && MatchesAt(s, lit, r.value.pos, r.value.capture)
    ensures r.Some? ==> forall q: nat, d :: from <= q < r.value.pos ==> !MatchesAt(s, lit, q, d)
    decreases |s| - from
  {
    match MatchAt(s, lit, from)
    case Some(c) => Some(Match(from, c))
    case None =>
      if from == |s| then None else Search(s, lit, from + 1)
  }

  /** Group 1 of `s.match(/lit([^"]+)"/)`, or `None` when the match is null. */
  function Capture(s: string, lit: string): (r: Option<string>)
    ensures r.None? ==> forall p: nat, c :: !MatchesAt(s, lit, p, c)
    ensures r.Some? ==>
      exists p: nat ::
        MatchesAt(s, lit, p, r.value) && (forall q: nat, d :: q < p ==> !MatchesAt(s, lit, q, d))
  {
    match Search(s, lit, 0)
    case Some(m) => Some(m.capture)
    case None => None
  }

  /** A capture is determined by the position of its match. */
  lemma CaptureUnique(s: string, lit: string, p: nat, c: string, d: string)
    requires MatchesAt(s, lit, p, c) && MatchesAt(s, lit, p, d)
    ensures c == d
  {
    var r := MatchAt(s, lit, p);
  }

  /** The capture of the leftmost match, once that match is known. */
  lemma LeftmostCapture(s: string, lit: string, p: nat, c: string)
    requires MatchesAt(s, lit, p, c)
    requires forall q: nat, d :: q < p ==> !MatchesAt(s, lit, q, d)
    ensures Capture(s, lit) == Some(c)
  {
    var r := Search(s, lit, 0);
    assert r.Some?;
    if r.value.pos < p {
      assert false;
    } else if p < r.value.pos {
      assert false;
    }
    CaptureUnique(s, lit, p, c, r.value.capture);
  }

  // ---------------------------------------------------------------------------
  // The search endpoint
  // ---------------------------------------------------------------------------

  /** The optional `startDate` and `endDate` the endpoint reads from its query. */
  datatype Bounds = Bounds(startDate: Option<string>, endDate: Option<string>)

  /** JavaScript truthiness of a value that is `null` or a string. */
  predicate Truthy(v: Option<string>) {
    v.Some? && v.value != ""
  }

  /**
   * Both bounds start out `null`; only a truthy `jql` is matched against
   * the two expressions, and each capture found replaces its `null`.
   */
  function ExtractBounds(jql: Option<string>): (b: Bounds)
    ensures !Truthy(jql) ==> b == Bounds(None, None)
    ensures Truthy(jql) ==>
      b == Bounds(Capture(jql.value, StartPattern), Capture(jql.value, EndPattern))
    ensures b.startDate.Some? ==> b.startDate.value != "" && NoQuote(b.startDate.value)
    ensures b.endDate.Some? ==> b.endDate.value != "" && NoQuote(b.endDate.value)
  {
    if Truthy(jql) then
      Bounds(Capture(jql.value, StartPattern), Capture(jql.value, EndPattern))
    else
      Bounds(None, None)
  }

  /** `created >= startDate && created <= endDate`, with JavaScript's string order. */
  predicate InWindow(created: string, startDate: string, endDate: string) {
    StrLe(startDate, created) && StrLe(created, endDate)
  }

  /** The callback the endpoint hands to `filter`. */
  function InWindowOf(startDate: string, endDate: string): Issue -> bool {
    (i: Issue) => InWindow(i.created, startDate, endDate)
  }

  /**
   * The body of `GET /rest/api/3/search`: every issue when either bound is
   * missing, otherwise the issues whose `created` lies in the inclusive
   * window, in fixture order.
   */
  function SearchIssues(issues: seq<Issue>, jql: Option<string>): (r: seq<Issue>)
    ensures IsSubsequence(r, issues)
    ensures
      var b := ExtractBounds(jql);
      (Truthy(b.startDate) && Truthy(b.endDate)) ==>
        ((forall i :: 0 <= i < |r| ==> InWindow(r[i].created, b.startDate.value, b.endDate.value))
         && (forall i :: 0 <= i < |issues| && InWindow(issues[i].created, b.startDate.value, b.endDate.value) ==>
               issues[i] in r))
    ensures
      var b := ExtractBounds(jql);
      !(Truthy(b.startDate) && Truthy(b.endDate)) ==> r == issues
    ensures
      var b := ExtractBounds(jql);
      (Truthy(b.startDate) && Truthy(b.endDate)) ==>
        r == Filter(issues, InWindowOf(b.startDate.value, b.endDate.value))
  {
    var b := ExtractBounds(jql);
    if Truthy(b.startDate) && Truthy(b.endDate) then
      FilterIsSubsequence(issues, InWindowOf(b.startDate.value, b.endDate.value));
      FilterMembers(issues, InWindowOf(b.startDate.value, b.endDate.value));
      Filter(issues, InWindowOf(b.startDate.value, b.endDate.value))
    else
      SubsequenceReflexive(issues);
      issues
  }

  /** The JQL text `POST /api/tickets` builds from the request body's two dates. */
  function BuildJql(startDate: string, endDate: string): (j: string)
    ensures |j| == 31 + |startDate| + |endDate|
    ensures j[..12] == StartPattern
    ensures j[12..12 + |startDate|] == startDate
    ensures j[12 + |startDate|..30 + |startDate|] == Middle
    ensures j[18 + |startDate|..30 + |startDate|] == EndPattern
    ensures j[30 + |startDate|..30 + |startDate| + |endDate|] == endDate
    ensures j[30 + |startDate| + |endDate|] == '"'
  {
    assert Middle[6..] == EndPattern;
    StartPattern + startDate + Middle + endDate + "\""
  }

  // ---------------------------------------------------------------------------
  // Reading the built JQL back
  // ---------------------------------------------------------------------------

  /** With quote-free dates, the built text has exactly four quotes. */
  lemma BuiltQuotes(s: string, e: string, i: nat)
    requires NoQuote(s) && NoQuote(e)
    requires i < |BuildJql(s, e)|
    ensures BuildJql(s, e)[i] == '"' <==>
      i == 11 || i == 12 + |s| || i == 29 + |s| || i == 30 + |s| + |e|
  {
    var j := BuildJql(s, e);
    assert |j| == 31 + |s| + |e|;
    if i < 12 {
      assert j[i] == StartPattern[i];
    } else if i < 12 + |s| {
      assert j[i] == s[i - 12];
    } else if i < 30 + |s| {
      assert j[i] == Middle[i - 12 - |s|];
    } else if i < 30 + |s| + |e| {
      assert j[i] == e[i - 30 - |s|];
    }
  }

  /** A match shows the quote that opens the capture, the capture, and the quote that closes it. */
  lemma MatchQuotes(j: string, lit: string, p: nat, c: string)
    requires IsPattern(lit) && MatchesAt(j, lit, p, c)
    ensures j[p + 11] == '"' && j[p + 12 + |c|] == '"'
    ensures forall k :: p + 11 < k < p + 12 + |c| ==> j[k] != '"'
    ensures j[p + 12..p + 12 + |c|] == c
  {
    assert j[p..p + 12][11] == j[p + 11];
    forall k | p + 11 < k < p + 12 + |c| ensures j[k] != '"' {
      assert j[p + 12..p + 12 + |c|][k - p - 12] == j[k];
    }
  }

  /** The quote pairs a match can span in the built text, by position and length. */
  lemma BuiltMatchSpans(s: string, e: string, p: nat, n: nat)
    requires NoQuote(s) && NoQuote(e) && n > 0
    requires p + 12 + n < |BuildJql(s, e)|
    requires BuildJql(s, e)[p + 11] == '"' && BuildJql(s, e)[p + 12 + n] == '"'
    requires forall k :: p + 11 < k < p + 12 + n ==> BuildJql(s, e)[k] != '"'
    ensures (p == 0 && n == |s|) || (p == |s| + 1 && n == 16) || (p == 18 + |s| && n == |e|)
  {
    BuiltQuotes(s, e, p + 11);
    BuiltQuotes(s, e, p + 12 + n);
    if p + 11 == 11 {
      if 12 + |s| < p + 12 + n {
        BuiltQuotes(s, e, 12 + |s|);
      }
    } else if p + 11 == 12 + |s| {
      if 29 + |s| < p + 12 + n {
        BuiltQuotes(s, e, 29 + |s|);
      }
    }
  }

  /**
   * With quote-free dates a pattern can match the built text in only three
   * places: around the start date, around the text between the dates, or
   * around the end date.
   */
  lemma BuiltMatchPositions(s: string, e: string, lit: string, p: nat, c: string)
    requires NoQuote(s) && NoQuote(e) && IsPattern(lit)
    requires MatchesAt(BuildJql(s, e), lit, p, c)
    ensures (p == 0 && c == s)
         || (p == |s| + 1 && c == Between)
         || (p == 18 + |s| && c == e)
  {
    var j := BuildJql(s, e);
    MatchQuotes(j, lit, p, c);
    BuiltMatchSpans(s, e, p, |c|);
    if p == 0 {
      assert c == j[12..12 + |s|];
    } else if p == |s| + 1 {
      assert c == j[|s| + 13..|s| + 29] == Middle[1..17] == Between;
    } else {
      assert c == j[30 + |s|..30 + |s| + |e|];
    }
  }

  /**
   * What the search endpoint reads back from the text it was sent: the start
   * date whenever it is non-empty, the end date unless it is empty, except
   * that a start date ending in `created <= ` makes the end expression match
   * first on the text between the two dates.
   */
  lemma ExtractBuilt(s: string, e: string)
    requires NoQuote(s) && NoQuote(e)
    ensures ExtractBounds(Some(BuildJql(s, e))) == Bounds(
      if s == "" then None else Some(s),
      if EndsWith(s, EndPattern[..11]) then Some(Between)
      else if e == "" then None else Some(e))
  {
    var j := BuildJql(s, e);
    PatternsArePatterns();
    StartBuilt(s, e);
    EndBuilt(s, e);
  }

  lemma StartBuilt(s: string, e: string)
    requires NoQuote(s) && NoQuote(e)
    ensures Capture(BuildJql(s, e), StartPattern) == if s == "" then None else Some(s)
  {
    var j := BuildJql(s, e);
    PatternsArePatterns();
    BuiltQuotes(s, e, 12 + |s|);
    if s == "" {
      BuiltQuotes(s, e, 11);
      assert j[1..13][10] == j[11];
      assert MatchAt(j, StartPattern, 0) == None;
      assert MatchAt(j, StartPattern, 1) == None;
      assert MatchAt(j, StartPattern, 18) == None;
      forall p: nat, c ensures !MatchesAt(j, StartPattern, p, c) {
        if MatchesAt(j, StartPattern, p, c) {
          BuiltMatchPositions(s, e, StartPattern, p, c);
        }
      }
    } else {
      assert MatchesAt(j, StartPattern, 0, s);
      LeftmostCapture(j, StartPattern, 0, s);
    }
  }

  lemma EndBuilt(s: string, e: string)
    requires NoQuote(s) && NoQuote(e)
    ensures Capture(BuildJql(s, e), EndPattern) ==
      if EndsWith(s, EndPattern[..11]) then Some(Between)
      else if e == "" then None else Some(e)
  {
    var j := BuildJql(s, e);
    PatternsArePatterns();
    // no match at the start: the text begins with the other pattern
    assert j[0..12] == StartPattern;
    assert MatchAt(j, EndPattern, 0) == None;
    // a match between the dates exactly when the start date ends in `created <= `
    var m := MatchAt(j, EndPattern, |s| + 1);
    if m.Some? {
      MiddleMatchNeedsSuffix(s, e, m.value);
    }
    if EndsWith(s, EndPattern[..11]) {
      MiddleMatchFromSuffix(s, e);
      forall q: nat, d | q < |s| + 1 ensures !MatchesAt(j, EndPattern, q, d) {
        if MatchesAt(j, EndPattern, q, d) {
          BuiltMatchPositions(s, e, EndPattern, q, d);
        }
      }
      LeftmostCapture(j, EndPattern, |s| + 1, Between);
    } else if e == "" {
      forall p: nat, c ensures !MatchesAt(j, EndPattern, p, c) {
        if MatchesAt(j, EndPattern, p, c) {
          BuiltMatchPositions(s, e, EndPattern, p, c);
        }
      }
    } else {
      BuiltQuotes(s, e, 30 + |s| + |e|);
      assert MatchesAt(j, EndPattern, 18 + |s|, e);
      forall q: nat, d | q < 18 + |s| ensures !MatchesAt(j, EndPattern, q, d) {
        if MatchesAt(j, EndPattern, q, d) {
          BuiltMatchPositions(s, e, EndPattern, q, d);
        }
      }
      LeftmostCapture(j, EndPattern, 18 + |s|, e);
    }
  }

  lemma MiddleMatchNeedsSuffix(s: string, e: string, c: string)
    requires NoQuote(s) && NoQuote(e)
    requires MatchesAt(BuildJql(s, e), EndPattern, |s| + 1, c)
    ensures EndsWith(s, EndPattern[..11])
  {
    var j := BuildJql(s, e);
    var w := j[|s| + 1..|s| + 13];
    assert w == EndPattern;
    forall i | |s| + 1 <= i < |s| + 12 ensures j[i] != '"' {
      assert j[i] == w[i - |s| - 1] == EndPattern[..11][i - |s| - 1];
    }
    BuiltQuotes(s, e, 11);
    assert |s| >= 11;
    forall k | 0 <= k < 11 ensures s[|s| - 11..][k] == EndPattern[k] {
      assert w[k] == j[|s| + 1 + k] == s[|s| - 11 + k];
    }
  }

  lemma MiddleMatchFromSuffix(s: string, e: string)
    requires NoQuote(s) && NoQuote(e)
    requires EndsWith(s, EndPattern[..11])
    ensures MatchesAt(BuildJql(s, e), EndPattern, |s| + 1, Between)
  {
    var j := BuildJql(s, e);
    BuiltQuotes(s, e, 29 + |s|);
    forall k | 0 <= k < 12 ensures j[|s| + 1..|s| + 13][k] == EndPattern[k] {
      if k < 11 {
        assert j[|s| + 1 + k] == s[|s| - 11 + k] == s[|s| - 11..][k];
      } else {
        assert j[|s| + 12] == Middle[0];
      }
    }
    assert j[|s| + 13..|s| + 29] == Between;
  }

  // ---------------------------------------------------------------------------
  // The properties of the endpoint
  // ---------------------------------------------------------------------------

  /**
   * The dates the frontend sends come back out of the JQL unchanged, as long
   * as both are non-empty, contain no quote, and the start date does not end
   * in `created <= `.
   */
  lemma JqlRoundTrip(s: string, e: string)
    requires s != "" && e != "" && NoQuote(s) && NoQuote(e)
    requires !EndsWith(s, EndPattern[..11])
    ensures ExtractBounds(Some(BuildJql(s, e))) == Bounds(Some(s), Some(e))
  {
    ExtractBuilt(s, e);
  }

  /**
   * The bound the round trip breaks on: a start date ending in `created <= `
   * makes the end expression capture the text between the dates instead of
   * the end date.
   */
  lemma SpoiledEndBound(s: string, e: string)
    requires NoQuote(s) && NoQuote(e)
    requires EndsWith(s, EndPattern[..11])
    ensures ExtractBounds(Some(BuildJql(s, e))).endDate == Some(" AND created <= ")
  {
    ExtractBuilt(s, e);
  }

  /** An empty date disables the filter: the search returns every issue. */
  lemma EmptyDateReturnsAll(issues: seq<Issue>, s: string, e: string)
    requires NoQuote(s) && NoQuote(e)
    requires s == "" || (e == "" && !EndsWith(s, EndPattern[..11]))
    ensures SearchIssues(issues, Some(BuildJql(s, e))) == issues
  {
    ExtractBuilt(s, e);
  }

  /** No JQL at all, or an empty one, also returns every issue. */
  lemma NoJqlReturnsAll(issues: seq<Issue>, jql: Option<string>)
    requires !Truthy(jql)
    ensures SearchIssues(issues, jql) == issues
  {
  }

  /** `lit` occurs in `s` at position `p`. */
  predicate OccursAt(s: string, lit: string, p: nat) {
    p + |lit| <= |s| && s[p..p + |lit|] == lit
  }

  /** A text in which the literal never occurs yields no capture for it. */
  lemma AbsentLiteral(s: string, lit: string)
    requires forall p: nat :: !OccursAt(s, lit, p)
    ensures Capture(s, lit) == None
  {
    var r := Search(s, lit, 0);
    assert r.Some? ==> OccursAt(s, lit, r.value.pos);
  }

  /**
   * The patterns are matched character for character: with the spaces around
   * the operators left out, neither bound is found and the search keeps every issue.
   */
  lemma CompactSpacingNoBound(issues: seq<Issue>, jql: string)
    requires jql == "created>=\"2025-09-01\" AND created<=\"2025-09-05\""
    ensures ExtractBounds(Some(jql)) == Bounds(None, None)
    ensures SearchIssues(issues, Some(jql)) == issues
  {
    // `>` occurs only at index 7 and `<` only at index 33, where `d` precedes it.
    forall p: nat ensures !OccursAt(jql, StartPattern, p) {
      if p + 12 <= |jql| {
        assert jql[p..p + 12][8] == jql[p + 8] != '>';
      }
    }
    forall p: nat ensures !OccursAt(jql, EndPattern, p) {
      if p + 12 <= |jql| {
        assert jql[p..p + 12][7] == jql[p + 7] && jql[p..p + 12][8] == jql[p + 8];
        assert jql[p + 8] == '<' ==> p == 25;
      }
    }
    AbsentLiteral(jql, StartPattern);
    AbsentLiteral(jql, EndPattern);
  }

  /** A search for the dates `s` to `e` returns exactly the issues created in that window. */
  lemma SearchByDates(issues: seq<Issue>, s: string, e: string)
    requires s != "" && e != "" && NoQuote(s) && NoQuote(e)
    requires !EndsWith(s, EndPattern[..11])
    ensures forall x :: x in SearchIssues(issues, Some(BuildJql(s, e))) <==>
      x in issues && InWindow(x.created, s, e)
  {
    JqlRoundTrip(s, e);
    var r := SearchIssues(issues, Some(BuildJql(s, e)));
    forall x ensures x in r <==> x in issues && InWindow(x.created, s, e) {
      if x in r {
        var i :| 0 <= i < |r| && r[i] == x;
        SubsequenceMembers(r, issues, i);
      }
      if x in issues && InWindow(x.created, s, e) {
        var i :| 0 <= i < |issues| && issues[i] == x;
      }
    }
  }

  /**
   * `POST /api/tickets`: the issues the search endpoint returns for the JQL
   * built from the two dates of the request body.
   */
  function TicketsForRange(issues: seq<Issue>, startDate: string, endDate: string): (r: seq<Issue>)
    ensures IsSubsequence(r, issues)
    ensures startDate != "" && endDate != "" && NoQuote(startDate) && NoQuote(endDate)
            && !EndsWith(startDate, EndPattern[..11]) ==>
      forall x :: x in r <==> x in issues && InWindow(x.created, startDate, endDate)
  {
    if startDate != "" && endDate != "" && NoQuote(startDate) && NoQuote(endDate)
       && !EndsWith(startDate, EndPattern[..11]) then
      SearchByDates(issues, startDate, endDate);
      SearchIssues(issues, Some(BuildJql(startDate, endDate)))
    else
      SearchIssues(issues, Some(BuildJql(startDate, endDate)))
  }

  /** For well-formed dates the range endpoint is exactly the window filter. */
  lemma TicketsForRangeFilter(issues: seq<Issue>, s: string, e: string)
    requires s != "" && e != "" && NoQuote(s) && NoQuote(e)
    requires !EndsWith(s, EndPattern[..11])
    ensures TicketsForRange(issues, s, e) == Filter(issues, InWindowOf(s, e))
  {
    JqlRoundTrip(s, e);
  }

  /**
   * Timestamps and bare dates of one month compare by the day's last digit:
   * `lo <= c` when `c`'s day is not before `lo`'s, and `c <= hi` only when
   * `c`'s day is strictly before `hi`'s (a timestamp sorts after its own date).
   */
  lemma DayWindow(c: string, lo: string, hi: string)
    requires |lo| == 10 && |hi| == 10 && |c| > 10
    requires lo[..9] == c[..9] && hi[..9] == c[..9]
    ensures InWindow(c, lo, hi) <==> lo[9] <= c[9] < hi[9]
  {
    if lo[9] != c[9] {
      FirstDifference(lo, c, 9);
    } else {
      assert c[..10] == lo;
      PrefixOrder(lo, c);
    }
    if c[9] != hi[9] {
      FirstDifference(c, hi, 9);
    } else {
      assert c[..10] == hi;
      PrefixOrder(hi, c);
    }
  }

  /** A window whose start sorts after its end matches no issue. */
  lemma InvertedWindowEmpty(issues: seq<Issue>, lo: string, hi: string)
    requires !StrLe(lo, hi)
    ensures Filter(issues, InWindowOf(lo, hi)) == []
  {
    forall x | x in issues ensures !InWindow(x.created, lo, hi) {
      if InWindow(x.created, lo, hi) {
        StrLeTransitive(lo, x.created, hi);
      }
    }
    FilterKeepsNone(issues, InWindowOf(lo, hi));
  }

  /** Asking for a range whose start date sorts after its end date gives no ticket. */
  lemma InvertedRangeEmpty(issues: seq<Issue>, s: string, e: string)
    requires s != "" && e != "" && NoQuote(s) && NoQuote(e)
    requires !EndsWith(s, EndPattern[..11])
    requires !StrLe(s, e)
    ensures TicketsForRange(issues, s, e) == []
  {
    TicketsForRangeFilter(issues, s, e);
    InvertedWindowEmpty(issues, s, e);
  }

  /**
   * With bare dates as bounds, an issue created on the start date is inside
   * the window, but one created on the end date (after midnight) is not:
   * the timestamp sorts after the date it begins with.
   */
  lemma DateBoundaries(created: string, lo: string, hi: string)
    ensures IsPrefix(lo, created) ==> StrLe(lo, created)
    ensures IsPrefix(hi, created) && |hi| < |created| ==> !StrLe(created, hi)
  {
    if IsPrefix(lo, created) { PrefixOrder(lo, created); }
    if IsPrefix(hi, created) { PrefixOrder(hi, created); }
  }
}
