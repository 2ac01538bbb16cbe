/**
 * The sequence operations the core uses from JavaScript's Array and String
 * prototypes: `filter` (order-preserving selection), `join` and `split`
 * with a one-character separator, together with the subsequence relation
 * that states what a filter may and may not return.
 */
module Seqs {

  /**
   * `a` can be obtained from `b` by deleting elements: each element of `b`
   * is either kept, as the next element of `a`, or dropped.
   */
  ghost predicate IsSubsequence<T>(a: seq<T>, b: seq<T>)
    decreases |b|
  {
    if b == [] then a == []
    else (a != [] && a[0] == b[0] && IsSubsequence(a[1..], b[1..])) || IsSubsequence(a, b[1..])
  }

  lemma {:induction false} SubsequenceReflexive<T>(s: seq<T>)
    ensures IsSubsequence(s, s)
    decreases |s|
  {
    if s != [] { SubsequenceReflexive(s[1..]); }
  }

  /** Every element of a subsequence is an element of the whole. */
  lemma {:induction false} SubsequenceMembers<T>(a: seq<T>, b: seq<T>, i: nat)
    requires IsSubsequence(a, b) && i < |a|
    ensures a[i] in b
    decreases |b|
  {
    if b == [] {
    } else if a != [] && a[0] == b[0] && IsSubsequence(a[1..], b[1..]) {
      if i > 0 {
        SubsequenceMembers(a[1..], b[1..], i - 1);
      }
    } else {
      SubsequenceMembers(a, b[1..], i);
    }
  }

  /** `s.filter(p)`: the elements of `s` that satisfy `p`, in their order in `s`. */
  function Filter<T>(s: seq<T>, p: T -> bool): (r: seq<T>)
    ensures |r| <= |s|
  {
    if s == [] then [] else (if p(s[0]) then [s[0]] else []) + Filter(s[1..], p)
  }

  /** What a filter keeps: every element it returns passes `p`, and every element of `s` that passes is returned. */
  lemma {:induction false} FilterMembers<T>(s: seq<T>, p: T -> bool)
    ensures forall i :: 0 <= i < |Filter(s, p)| ==> Filter(s, p)[i] in s && p(Filter(s, p)[i])
    ensures forall i :: 0 <= i < |s| && p(s[i]) ==> s[i] in Filter(s, p)
    decreases |s|
  {
    if s != [] {
      FilterMembers(s[1..], p);
      var head := if p(s[0]) then [s[0]] else [];
      var r, rest := Filter(s, p), Filter(s[1..], p);
      assert r == head + rest;
      forall i | 0 <= i < |r| ensures r[i] in s && p(r[i]) {
        if i >= |head| {
          var j := i - |head|;
          assert r[i] == rest[j];
          assert rest[j] in s[1..];
          var m :| 0 <= m < |s[1..]| && s[1..][m] == rest[j];
          assert s[m + 1] == r[i];
        }
      }
      forall i | 0 <= i < |s| && p(s[i]) ensures s[i] in r {
        if i > 0 {
          assert s[i] == s[1..][i - 1];
        }
      }
    }
  }

  /** A filter keeps the relative order of what it keeps: the result is a subsequence. */
  lemma {:induction false} FilterIsSubsequence<T>(s: seq<T>, p: T -> bool)
    ensures IsSubsequence(Filter(s, p), s)
    decreases |s|
  {
    if s != [] {
      FilterIsSubsequence(s[1..], p);
      var r := Filter(s, p);
      if p(s[0]) {
        assert r[0] == s[0] && r[1..] == Filter(s[1..], p);
      } else {
        assert r == Filter(s[1..], p);
      }
    }
  }

  /**
   * A filter neither duplicates nor invents elements: each kept value occurs
   * exactly as often as in the input, each other value not at all.
   */
  lemma {:induction false} FilterMultiplicity<T>(s: seq<T>, p: T -> bool, x: T)
    ensures multiset(Filter(s, p))[x] == if p(x) then multiset(s)[x] else 0
    decreases |s|
  {
    if s != [] {
      FilterMultiplicity(s[1..], p, x);
      assert s == [s[0]] + s[1..];
      assert multiset(s) == multiset([s[0]]) + multiset(s[1..]);
      var head := if p(s[0]) then [s[0]] else [];
      assert multiset(Filter(s, p)) == multiset(head) + multiset(Filter(s[1..], p));
    }
  }

  lemma {:induction false} FilterKeepsAll<T>(s: seq<T>, p: T -> bool)
    requires forall x :: x in s ==> p(x)
    ensures Filter(s, p) == s
    decreases |s|
  {
    if s != [] {
      FilterKeepsAll(s[1..], p);
      assert s == [s[0]] + s[1..];
    }
  }

  lemma {:induction false} FilterKeepsNone<T>(s: seq<T>, p: T -> bool)
    requires forall x :: x in s ==> !p(x)
    ensures Filter(s, p) == []
    decreases |s|
  {
    if s != [] {
      FilterKeepsNone(s[1..], p);
    }
  }

  /** Filtering from `i` on: the element at `i` is kept or dropped, then the rest is filtered. */
  lemma FilterSuffix<T>(s: seq<T>, p: T -> bool, i: nat)
    requires i < |s|
    ensures Filter(s[i..], p) == (if p(s[i]) then [s[i]] else []) + Filter(s[i + 1..], p)
  {
    assert s[i..][0] == s[i];
    assert s[i..][1..] == s[i + 1..];
  }

  /** No element from position `i` up to `j` passes `p`. */
  predicate Rejects<T>(s: seq<T>, p: T -> bool, i: nat, j: nat)
    requires j <= |s|
  {
    forall k :: i <= k < j ==> !p(s[k])
  }

  /** A run of rejected elements contributes nothing to the result. */
  lemma {:induction false} FilterSkip<T>(s: seq<T>, p: T -> bool, i: nat, j: nat)
    requires i <= j <= |s|
    requires Rejects(s, p, i, j)
    ensures Filter(s[i..], p) == Filter(s[j..], p)
    decreases j - i
  {
    if i < j {
      FilterSuffix(s, p, i);
      FilterSkip(s, p, i + 1, j);
    }
  }

  /** Filtering from a kept position `i` up to the next kept position `j`. */
  lemma FilterRun<T>(s: seq<T>, p: T -> bool, i: nat, j: nat)
    requires i < j <= |s|
    requires p(s[i]) && Rejects(s, p, i + 1, j)
    ensures Filter(s[i..], p) == [s[i]] + Filter(s[j..], p)
  {
    FilterSuffix(s, p, i);
    FilterSkip(s, p, i + 1, j);
  }

  lemma FilterNil<T>(s: seq<T>, p: T -> bool)
    ensures Filter(s[|s|..], p) == []
  {
    assert s[|s|..] == [];
  }

  /** A filter that accepts exactly one position keeps exactly that element. */
  lemma FilterOne<T>(s: seq<T>, p: T -> bool, a: nat)
    requires a < |s|
    requires p(s[a])
    requires forall k :: 0 <= k < |s| && k != a ==> !p(s[k])
    ensures Filter(s, p) == [s[a]]
  {
    assert Rejects(s, p, 0, a) && Rejects(s, p, a + 1, |s|);
    FilterRun(s, p, a, |s|);
    FilterNil(s, p);
    FilterSkip(s, p, 0, a);
    assert s[0..] == s;
  }

  /** A filter that accepts exactly three positions keeps those elements, in order. */
  lemma FilterThree<T>(s: seq<T>, p: T -> bool, a: nat, b: nat, c: nat)
    requires a < b < c < |s|
    requires p(s[a]) && p(s[b]) && p(s[c])
    requires forall k :: 0 <= k < |s| && k != a && k != b && k != c ==> !p(s[k])
    ensures Filter(s, p) == [s[a], s[b], s[c]]
  {
    assert Rejects(s, p, 0, a) && Rejects(s, p, a + 1, b);
    assert Rejects(s, p, b + 1, c) && Rejects(s, p, c + 1, |s|);
    FilterThreeRuns(s, p, a, b, c);
  }

  lemma FilterThreeRuns<T>(s: seq<T>, p: T -> bool, a: nat, b: nat, c: nat)
    requires a < b < c < |s|
    requires p(s[a]) && p(s[b]) && p(s[c])
    requires Rejects(s, p, 0, a) && Rejects(s, p, a + 1, b)
    requires Rejects(s, p, b + 1, c) && Rejects(s, p, c + 1, |s|)
    ensures Filter(s, p) == [s[a], s[b], s[c]]
  {
    assert Filter(s[c..], p) == [s[c]] by {
      FilterRun(s, p, c, |s|);
      FilterNil(s, p);
    }
    assert Filter(s[b..], p) == [s[b], s[c]] by {
      FilterRun(s, p, b, c);
    }
    assert Filter(s[a..], p) == [s[a], s[b], s[c]] by {
      FilterRun(s, p, a, b);
    }
    assert Filter(s, p) == Filter(s[a..], p) by {
      FilterSkip(s, p, 0, a);
      assert s[0..] == s;
    }
  }

  /** The result depends only on the values `p` takes on elements of `s`. */
  lemma {:induction false} FilterCongruent<T>(s: seq<T>, p: T -> bool, q: T -> bool)
    requires forall x :: x in s ==> p(x) == q(x)
    ensures Filter(s, p) == Filter(s, q)
    decreases |s|
  {
    if s != [] {
      FilterCongruent(s[1..], p, q);
    }
  }

  // ---------------------------------------------------------------------------
  // join and split on a one-character separator
  // ---------------------------------------------------------------------------

  /** `lines.join(sep)`. */
  function Join(lines: seq<string>, sep: char): string
    decreases |lines|
  {
    if |lines| == 0 then ""
    else if |lines| == 1 then lines[0]
    else lines[0] + [sep] + Join(lines[1..], sep)
  }

  /** `s.split(sep)`: the pieces between separators; never empty. */
  function Split(s: string, sep: char): (r: seq<string>)
    ensures |r| > 0
    decreases |s|
  {
    if s == [] then [""]
    else if s[0] == sep then [""] + Split(s[1..], sep)
    else
      var rest := Split(s[1..], sep);
      [[s[0]] + rest[0]] + rest[1..]
  }

  lemma {:induction false} SplitPiece(a: string, sep: char, tail: seq<string>, b: string)
    requires sep !in a
    requires Split(b, sep) == tail
    ensures Split(a + b, sep) == [a + tail[0]] + tail[1..]
    decreases |a|
  {
    if a == [] {
      assert a + b == b && a + tail[0] == tail[0];
      assert tail == [tail[0]] + tail[1..];
    } else {
      assert (a + b)[0] == a[0] && (a + b)[1..] == a[1..] + b;
      SplitPiece(a[1..], sep, tail, b);
      assert [a[0]] + (a[1..] + tail[0]) == a + tail[0];
    }
  }

  /**
   * Joining lines that contain no separator and splitting the result again
   * gives back exactly those lines, one piece per line, in order.
   */
  lemma {:induction false} SplitJoin(lines: seq<string>, sep: char)
    requires |lines| > 0
    requires forall i :: 0 <= i < |lines| ==> sep !in lines[i]
    ensures Split(Join(lines, sep), sep) == lines
    decreases |lines|
  {
    if |lines| == 1 {
      SplitPiece(lines[0], sep, [""], "");
      assert lines[0] + "" == lines[0];
    } else {
      SplitJoin(lines[1..], sep);
      var rest := Join(lines[1..], sep);
      assert ([sep] + rest)[1..] == rest;
      assert Split([sep] + rest, sep) == [""] + lines[1..];
      assert ([""] + lines[1..])[0] == "" && ([""] + lines[1..])[1..] == lines[1..];
      assert lines[0] + "" == lines[0];
      assert lines[0] + [sep] + rest == lines[0] + ([sep] + rest);
      SplitPiece(lines[0], sep, [""] + lines[1..], [sep] + rest);
      assert lines == [lines[0]] + lines[1..];
    }
  }
}
