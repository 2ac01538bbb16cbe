/**
 * The string facts the rest of the model relies on: JavaScript's relational
 * operators on strings (lexicographic by character, a proper prefix sorts
 * first), prefixes and suffixes, and the decimal rendering that template
 * literals and Python f-strings give a non-negative integer.
 */
module JsStrings {

  predicate IsPrefix(p: string, s: string) {
    |p| <= |s| && s[..|p|] == p
  }

  predicate EndsWith(s: string, suffix: string) {
    |suffix| <= |s| && s[|s| - |suffix|..] == suffix
  }

  /** The string contains no double-quote character. */
  predicate NoQuote(s: string) {
    forall i :: 0 <= i < |s| ==> s[i] != '"'
  }

  // ---------------------------------------------------------------------------
  // String order: `a <= b` in JavaScript
  // ---------------------------------------------------------------------------

  /** Compares `a[i..]` with `b[i..]` the way JavaScript's `<=` compares strings. */
  predicate LeFrom(a: string, b: string, i: nat)
    decreases |a| - i
  {
    if i >= |a| then true
    else if i >= |b| then false
    else if a[i] != b[i] then a[i] < b[i]
    else LeFrom(a, b, i + 1)
  }

  /** JavaScript's `a <= b` on two strings. */
  predicate StrLe(a: string, b: string) {
    LeFrom(a, b, 0)
  }

  lemma {:induction false} LeFromTransitive(a: string, b: string, c: string, i: nat)
    requires LeFrom(a, b, i) && LeFrom(b, c, i)
    ensures LeFrom(a, c, i)
    decreases |a| - i
  {
    if i < |a| && i < |b| && i < |c| && a[i] == b[i] && b[i] == c[i] {
      LeFromTransitive(a, b, c, i + 1);
    }
  }

  /** `<=` on strings is transitive. */
  lemma StrLeTransitive(a: string, b: string, c: string)
    requires StrLe(a, b) && StrLe(b, c)
    ensures StrLe(a, c)
  {
    LeFromTransitive(a, b, c, 0);
  }

  lemma {:induction false} LeFromPrefix(a: string, b: string, i: nat)
    requires IsPrefix(a, b) && i <= |a|
    ensures LeFrom(a, b, i)
    ensures |a| < |b| ==> !LeFrom(b, a, i)
    decreases |a| - i
  {
    if i < |a| {
      assert a[i] == b[..|a|][i];
      LeFromPrefix(a, b, i + 1);
    }
  }

  /**
   * A prefix sorts at or before the longer string, and a proper prefix
   * strictly before it: "2025-09-05" <= "2025-09-05T14:30:00.000Z" but not
   * the other way round.
   */
  lemma PrefixOrder(a: string, b: string)
    requires IsPrefix(a, b)
    ensures StrLe(a, b)
    ensures |a| < |b| ==> !StrLe(b, a)
  {
    LeFromPrefix(a, b, 0);
  }

  lemma {:induction false} LeFromFirstDifference(a: string, b: string, i: nat, k: nat)
    requires i <= k < |a| && k < |b| && a[i..k] == b[i..k] && a[k] != b[k]
    ensures LeFrom(a, b, i) == (a[k] < b[k])
    decreases k - i
  {
    if i < k {
      assert a[i] == a[i..k][0] && b[i] == b[i..k][0];
      assert a[i + 1..k] == a[i..k][1..] && b[i + 1..k] == b[i..k][1..];
      LeFromFirstDifference(a, b, i + 1, k);
    }
  }

  /** Where two strings first differ, the characters there decide the order. */
  lemma FirstDifference(a: string, b: string, k: nat)
    requires k < |a| && k < |b| && a[..k] == b[..k] && a[k] != b[k]
    ensures StrLe(a, b) == (a[k] < b[k])
  {
    assert a[0..k] == a[..k] && b[0..k] == b[..k];
    LeFromFirstDifference(a, b, 0, k);
  }

  /** Appending to a string leaves what was appended at its end. */
  lemma EndsWithAppend(a: string, b: string)
    ensures EndsWith(a + b, b)
  {
  }

  /** Two regroupings of four concatenated pieces. */
  lemma Regroup(a: string, b: string, c: string, d: string)
    ensures a + (b + c + d) == (a + b) + c + d
    ensures a + (b + (c + d)) == (a + b + c) + d
  {
  }

  // ---------------------------------------------------------------------------
  // Decimal rendering of a non-negative integer
  // ---------------------------------------------------------------------------

  predicate IsDigit(c: char) {
    '0' <= c <= '9'
  }

  predicate AllDigits(s: string) {
    forall i :: 0 <= i < |s| ==> IsDigit(s[i])
  }

  function DigitChar(d: nat): (c: char)
    requires d < 10
    ensures IsDigit(c)
  {
    ('0' as int + d) as char
  }

  function DigitValue(c: char): nat
    requires IsDigit(c)
  {
    c as int - '0' as int
  }

  /** `${n}` for an integer `n >= 0`: its decimal digits, no leading zero. */
  function Decimal(n: nat): (r: string)
    ensures |r| > 0 && AllDigits(r)
    ensures |r| > 1 ==> r[0] != '0'
  {
    if n < 10 then [DigitChar(n)] else Decimal(n / 10) + [DigitChar(n % 10)]
  }

  /** Reads a string of decimal digits back as a number. */
  function DecimalValue(s: string): nat
    requires AllDigits(s)
  {
    if s == [] then 0 else DecimalValue(s[..|s| - 1]) * 10 + DigitValue(s[|s| - 1])
  }

  lemma {:induction false} DecimalRoundTrip(n: nat)
    ensures DecimalValue(Decimal(n)) == n
  {
    if n >= 10 {
      DecimalRoundTrip(n / 10);
      var r := Decimal(n);
      assert r[..|r| - 1] == Decimal(n / 10);
    }
  }

  /** Different numbers render differently. */
  lemma DecimalInjective(m: nat, n: nat)
    requires Decimal(m) == Decimal(n)
    ensures m == n
  {
    DecimalRoundTrip(m);
    DecimalRoundTrip(n);
  }

  /** Every number from 100 to 999 renders as exactly three digits. */
  lemma DecimalThreeDigits(n: nat)
    requires 100 <= n < 1000
    ensures |Decimal(n)| == 3
  {
    assert Decimal(n) == Decimal(n / 10) + [DigitChar(n % 10)];
    assert Decimal(n / 10) == Decimal(n / 100) + [DigitChar(n / 10 % 10)];
  }
}
