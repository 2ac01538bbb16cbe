/**
 * `jumble_script.py`: builds the map from each original id 1 to 100 to its
 * JSD key, then lists the fixed shuffle of those ids, one comment line per
 * position, framed as the opening of a JavaScript array. Printing is modelled
 * as appending to the sequence of emitted lines.
 */
module JumbleScript {
  import opened JsStrings

  // ---------------------------------------------------------------------------
  // The shuffle
  // ---------------------------------------------------------------------------

  const Row0: seq<nat> := [41, 94, 32, 2, 12, 97, 21, 64, 31, 19, 29, 79, 22, 53, 20, 68, 25, 55, 95, 92]
  const Row1: seq<nat> := [34, 51, 6, 1, 54, 4, 24, 63, 59, 13, 56, 73, 78, 74, 80, 49, 42, 38, 5, 28]
  const Row2: seq<nat> := [100, 62, 60, 86, 23, 17, 45, 3, 52, 18, 66, 76, 7, 98, 85, 83, 8, 96, 75, 77]
  const Row3: seq<nat> := [70, 71, 30, 89, 48, 35, 87, 90, 57, 47, 11, 14, 43, 33, 50, 61, 40, 27, 9, 81]
  const Row4: seq<nat> := [88, 15, 69, 99, 39, 72, 84, 91, 16, 36, 46, 10, 67, 82, 58, 26, 37, 65, 93, 44]

  /** `jumbled_order`, twenty entries per row. */
  const JumbledOrder: seq<nat> := Row0 + Row1 + Row2 + Row3 + Row4

  /**
   * Where each id sits in the shuffle: entry `n - 1` is the 0-based position
   * of id `n`. It certifies that the shuffle is a permutation.
   */
  ghost const PositionRow0: seq<nat> := [23, 3, 47, 25, 38, 22, 52, 56, 78, 91, 70, 4, 29, 71, 81, 88, 45, 49, 9, 14]
  ghost const PositionRow1: seq<nat> := [6, 12, 44, 26, 16, 95, 77, 39, 10, 62, 8, 2, 73, 20, 65, 89, 96, 37, 84, 76]
  ghost const PositionRow2: seq<nat> := [0, 36, 72, 99, 46, 90, 69, 64, 35, 74, 21, 48, 13, 24, 17, 30, 68, 94, 28, 42]
  ghost const PositionRow3: seq<nat> := [75, 41, 27, 7, 97, 50, 92, 15, 82, 60, 61, 85, 31, 33, 58, 51, 59, 32, 11, 34]
  ghost const PositionRow4: seq<nat> := [79, 93, 55, 86, 54, 43, 66, 80, 63, 67, 87, 19, 98, 1, 18, 57, 5, 53, 83, 40]

  ghost const Positions: seq<nat> := PositionRow0 + PositionRow1 + PositionRow2 + PositionRow3 + PositionRow4

  lemma OrderRow0()
    ensures forall i :: 0 <= i < 20 ==> 1 <= Row0[i] <= 100 && Positions[Row0[i] - 1] == 0 + i
  {
  }

  lemma OrderRow1()
    ensures forall i :: 0 <= i < 20 ==> 1 <= Row1[i] <= 100 && Positions[Row1[i] - 1] == 20 + i
  {
  }

  lemma OrderRow2()
    ensures forall i :: 0 <= i < 20 ==> 1 <= Row2[i] <= 100 && Positions[Row2[i] - 1] == 40 + i
  {
  }

  lemma OrderRow3()
    ensures forall i :: 0 <= i < 20 ==> 1 <= Row3[i] <= 100 && Positions[Row3[i] - 1] == 60 + i
  {
  }

  lemma OrderRow4()
    ensures forall i :: 0 <= i < 20 ==> 1 <= Row4[i] <= 100 && Positions[Row4[i] - 1] == 80 + i
  {
  }

  lemma PositionsRow0()
    ensures forall n :: 0 <= n < 20 ==> 0 <= PositionRow0[n] < 100 && JumbledOrder[PositionRow0[n]] == 0 + n + 1
  {
  }

  lemma PositionsRow1()
    ensures forall n :: 0 <= n < 20 ==> 0 <= PositionRow1[n] < 100 && JumbledOrder[PositionRow1[n]] == 20 + n + 1
  {
  }

  lemma PositionsRow2()
    ensures forall n :: 0 <= n < 20 ==> 0 <= PositionRow2[n] < 100 && JumbledOrder[PositionRow2[n]] == 40 + n + 1
  {
  }

  lemma PositionsRow3()
    ensures forall n :: 0 <= n < 20 ==> 0 <= PositionRow3[n] < 100 && JumbledOrder[PositionRow3[n]] == 60 + n + 1
  {
  }

  lemma PositionsRow4()
    ensures forall n :: 0 <= n < 20 ==> 0 <= PositionRow4[n] < 100 && JumbledOrder[PositionRow4[n]] == 80 + n + 1
  {
  }

  /** The shuffle and its certificate undo each other. */
  lemma ShuffleInverse()
    ensures |JumbledOrder| == 100 && |Positions| == 100
    ensures forall i :: 0 <= i < 100 ==> 1 <= JumbledOrder[i] <= 100 && Positions[JumbledOrder[i] - 1] == i
    ensures forall n :: 0 <= n < 100 ==> Positions[n] < 100 && JumbledOrder[Positions[n]] == n + 1
  {
    OrderRow0(); OrderRow1(); OrderRow2(); OrderRow3(); OrderRow4();
    PositionsRow0(); PositionsRow1(); PositionsRow2(); PositionsRow3(); PositionsRow4();
    forall i | 0 <= i < 100 ensures 1 <= JumbledOrder[i] <= 100 && Positions[JumbledOrder[i] - 1] == i {
      if i < 20 { assert JumbledOrder[i] == Row0[i]; }
      else if i < 40 { assert JumbledOrder[i] == Row1[i - 20]; }
      else if i < 60 { assert JumbledOrder[i] == Row2[i - 40]; }
      else if i < 80 { assert JumbledOrder[i] == Row3[i - 60]; }
      else { assert JumbledOrder[i] == Row4[i - 80]; }
    }
    forall n | 0 <= n < 100 ensures Positions[n] < 100 && JumbledOrder[Positions[n]] == n + 1 {
      if n < 20 { assert Positions[n] == PositionRow0[n]; }
      else if n < 40 { assert Positions[n] == PositionRow1[n - 20]; }
      else if n < 60 { assert Positions[n] == PositionRow2[n - 40]; }
      else if n < 80 { assert Positions[n] == PositionRow3[n - 60]; }
      else { assert Positions[n] == PositionRow4[n - 80]; }
    }
  }

  /**
   * `jumbled_order` is a permutation of 1 to 100: a hundred entries, each an
   * id in range, no id twice, every id present.
   */
  lemma ShuffleIsPermutation()
    ensures |JumbledOrder| == 100
    ensures forall i :: 0 <= i < |JumbledOrder| ==> 1 <= JumbledOrder[i] <= 100
    ensures forall i, j :: 0 <= i < |JumbledOrder| && 0 <= j < |JumbledOrder| && JumbledOrder[i] == JumbledOrder[j] ==> i == j
    ensures forall n :: 1 <= n <= 100 ==> n in JumbledOrder
  {
    forall i | 0 <= i < 100 ensures 1 <= JumbledOrder[i] <= 100 {
      ShuffleAt(i);
    }
    forall i, j | 0 <= i < 100 && 0 <= j < 100 && JumbledOrder[i] == JumbledOrder[j] ensures i == j {
      ShuffleAt(i);
      ShuffleAt(j);
    }
    forall n | 1 <= n <= 100 ensures n in JumbledOrder {
      PositionOf(n);
    }
  }

  /** The id at position `k` of the shuffle, and where the certificate puts it. */
  lemma ShuffleAt(k: nat)
    requires k < 100
    ensures 1 <= JumbledOrder[k] <= 100 && Positions[JumbledOrder[k] - 1] == k
  {
    ShuffleInverse();
  }

  /** The position of id `id` in the shuffle. */
  lemma PositionOf(id: nat)
    requires 1 <= id <= 100
    ensures Positions[id - 1] < 100 && JumbledOrder[Positions[id - 1]] == id
  {
    ShuffleInverse();
    assert Positions[id - 1] < 100 && JumbledOrder[Positions[id - 1]] == id - 1 + 1;
  }

  // ---------------------------------------------------------------------------
  // id_to_jsd
  // ---------------------------------------------------------------------------

  /** `f"JSD-{100 + i}"`. */
  function JsdKey(id: nat): string {
    "JSD-" + Decimal(100 + id)
  }

  /** Different ids get different keys. */
  lemma JsdKeyInjective(a: nat, b: nat)
    requires JsdKey(a) == JsdKey(b)
    ensures a == b
  {
    assert Decimal(100 + a) == JsdKey(a)[4..] == JsdKey(b)[4..] == Decimal(100 + b);
    DecimalInjective(100 + a, 100 + b);
  }

  /** The keys of ids 1 to 100 are seven characters long. */
  lemma JsdKeyLength(i: nat)
    requires 1 <= i <= 100
    ensures |JsdKey(i)| == 7
  {
    DecimalThreeDigits(100 + i);
  }

  /** The values of `id_to_jsd`: the keys of the ids 1 to 100. */
  function IdKeys(): set<string> {
    set i: nat | 1 <= i <= 100 :: JsdKey(i)
  }

  /** The keys JSD-101 to JSD-200. */
  function KeyRange(): set<string> {
    set n: nat | 101 <= n <= 200 :: "JSD-" + Decimal(n)
  }

  /** The keys of ids 1 to 100 are exactly JSD-101 to JSD-200. */
  lemma JsdKeysRange()
    ensures IdKeys() == KeyRange()
  {
    forall v | v in KeyRange() ensures v in IdKeys() {
      var n: nat :| 101 <= n <= 200 && v == "JSD-" + Decimal(n);
      assert v == JsdKey(n - 100);
    }
    forall v | v in IdKeys() ensures v in KeyRange() {
      var i: nat :| 1 <= i <= 100 && v == JsdKey(i);
      assert v == "JSD-" + Decimal(100 + i);
    }
  }

  /** The loop `for i in range(1, 101): id_to_jsd[i] = f"JSD-{100 + i}"`. */
  method BuildIdToJsd() returns (idToJsd: map<nat, string>)
    ensures forall i :: i in idToJsd <==> 1 <= i <= 100
    ensures forall i :: i in idToJsd ==> idToJsd[i] == JsdKey(i)
  {
    idToJsd := map[];
    for i: nat := 1 to 101
      invariant forall j :: j in idToJsd <==> 1 <= j < i
      invariant forall j :: j in idToJsd ==> idToJsd[j] == JsdKey(j)
    {
      idToJsd := idToJsd[i := JsdKey(i)];
    }
  }

  /**
   * A map built as `BuildIdToJsd` builds it is injective and its values are
   * exactly JSD-101 to JSD-200.
   */
  lemma IdToJsdFacts(idToJsd: map<nat, string>)
    requires forall i :: i in idToJsd <==> 1 <= i <= 100
    requires forall i :: i in idToJsd ==> idToJsd[i] == JsdKey(i)
    ensures forall i, j :: i in idToJsd && j in idToJsd && idToJsd[i] == idToJsd[j] ==> i == j
    ensures idToJsd.Values == KeyRange()
  {
    forall i, j | i in idToJsd && j in idToJsd && idToJsd[i] == idToJsd[j] ensures i == j {
      JsdKeyInjective(i, j);
    }
    JsdKeysRange();
    forall v | v in idToJsd.Values ensures v in IdKeys() {
      var i :| i in idToJsd && idToJsd[i] == v;
    }
    forall v | v in IdKeys() ensures v in idToJsd.Values {
      var i: nat :| 1 <= i <= 100 && v == JsdKey(i);
      assert idToJsd[i] == v;
    }
  }

  // ---------------------------------------------------------------------------
  // The listing
  // ---------------------------------------------------------------------------

  const Header: string := "// Mock issues database - 100 issues with consistent themes (jumbled order)"
  const Opening: string := "const mockIssues = ["
  const Closing: string := "];"

  /** `f"  // Position {idx + 1}: Original ID {original_id} -> {jsd_key}"`. */
  function CommentLine(position: nat, id: nat): string {
    "  // Position " + Decimal(position) + ": Original ID " + Decimal(id) + Arrow + JsdKey(id)
  }

  function CommentLines(order: seq<nat>): seq<string> {
    seq(|order|, k requires 0 <= k < |order| => CommentLine(k + 1, order[k]))
  }

  /** Everything the script prints for a shuffle, one string per line. */
  function Listing(order: seq<nat>): seq<string> {
    [Header, Opening] + CommentLines(order) + [Closing]
  }

  /**
   * The emitted lines: the header, the array opening, one comment per
   * shuffle position (position `k` counted from 1 names the id at `k - 1`
   * and its key), the array closing.
   */
  lemma ListingShape(order: seq<nat>)
    ensures |Listing(order)| == |order| + 3
    ensures Listing(order)[0] == Header && Listing(order)[1] == Opening
    ensures Listing(order)[|order| + 2] == Closing
    ensures forall k :: 0 <= k < |order| ==> Listing(order)[k + 2] == CommentLine(k + 1, order[k])
  {
  }

  /** The output loop: for each position of `order`, look up the id's key and emit its comment line. */
  method EmitComments(order: seq<nat>, idToJsd: map<nat, string>, before: seq<string>) returns (lines: seq<string>)
    requires forall k :: 0 <= k < |order| ==> order[k] in idToJsd
    requires forall i :: i in idToJsd ==> idToJsd[i] == JsdKey(i)
    ensures lines == before + CommentLines(order)
  {
    lines := before;
    for idx := 0 to |order|
      invariant lines == before + CommentLines(order[..idx])
    {
      var originalId := order[idx];
      var jsdKey := idToJsd[originalId];
      lines := lines + ["  // Position " + Decimal(idx + 1) + ": Original ID " + Decimal(originalId) + " -> " + jsdKey];
      assert CommentLines(order[..idx + 1]) == CommentLines(order[..idx]) + [CommentLine(idx + 1, originalId)];
    }
    assert order[..|order|] == order;
  }

  /** The whole script: build the map, print the header, the comments and the closing bracket. */
  method JumbleListing() returns (lines: seq<string>)
    ensures lines == Listing(JumbledOrder)
  {
    var idToJsd := BuildIdToJsd();
    ShuffleIsPermutation();
    lines := [Header, Opening];
    lines := EmitComments(JumbledOrder, idToJsd, lines);
    lines := lines + [Closing];
  }

  /** What separates a comment line's id from its key. */
  const Arrow: string := " -> "

  /** A comment line ends with the key of the id it names. */
  lemma CommentKey(position: nat, id: nat)
    ensures EndsWith(CommentLine(position, id), Arrow + JsdKey(id))
  {
    var line := CommentLine(position, id);
    var prefix := "  // Position " + Decimal(position) + ": Original ID " + Decimal(id);
    assert line == prefix + (Arrow + JsdKey(id));
  }

  lemma SameSuffix(s: string, x: string, y: string)
    requires EndsWith(s, x) && EndsWith(s, y) && |x| == |y|
    ensures x == y
  {
  }

  lemma CancelPrefix(a: string, x: string, y: string)
    requires a + x == a + y
    ensures x == y
  {
    assert x == (a + x)[|a|..];
    assert y == (a + y)[|a|..];
  }

  /** Two comment lines for ids 1 to 100 end with the same key only if they name the same id. */
  lemma CommentKeysDiffer(a: nat, position: nat, b: nat)
    requires 1 <= a <= 100 && 1 <= b <= 100
    requires EndsWith(CommentLine(position, b), Arrow + JsdKey(a))
    ensures a == b
  {
    JsdKeyLength(a);
    JsdKeyLength(b);
    CommentKey(position, b);
    SameSuffix(CommentLine(position, b), Arrow + JsdKey(a), Arrow + JsdKey(b));
    CancelPrefix(Arrow, JsdKey(a), JsdKey(b));
    JsdKeyInjective(a, b);
  }

  /** A comment line that ends with the key of id `id` names that id. */
  lemma ListedKeyNamesId(order: seq<nat>, k: nat, id: nat)
    requires k < |order| && 1 <= order[k] <= 100 && 1 <= id <= 100
    requires EndsWith(CommentLines(order)[k], Arrow + JsdKey(id))
    ensures order[k] == id
  {
    CommentKeysDiffer(id, k + 1, order[k]);
  }

  /**
   * Every key of an id from 1 to 100 ends exactly one comment line of the
   * listing: the line of the position where the id sits in the shuffle.
   * (Those keys are JSD-101 to JSD-200, by `JsdKeysRange`.)
   */
  lemma EachKeyListedOnce(id: nat)
    requires 1 <= id <= 100
    ensures exists k :: 0 <= k < 100 && EndsWith(CommentLines(JumbledOrder)[k], Arrow + JsdKey(id))
    ensures forall k, k' ::
      (0 <= k < 100 && 0 <= k' < 100 &&
       EndsWith(CommentLines(JumbledOrder)[k], Arrow + JsdKey(id)) &&
       EndsWith(CommentLines(JumbledOrder)[k'], Arrow + JsdKey(id))) ==> k == k'
  {
    PositionOf(id);
    var p := Positions[id - 1];
    CommentKey(p + 1, JumbledOrder[p]);
    assert EndsWith(CommentLines(JumbledOrder)[p], Arrow + JsdKey(id));
    forall k, k' |
      0 <= k < 100 && 0 <= k' < 100 &&
      EndsWith(CommentLines(JumbledOrder)[k], Arrow + JsdKey(id)) &&
      EndsWith(CommentLines(JumbledOrder)[k'], Arrow + JsdKey(id))
      ensures k == k'
    {
      ShuffleAt(k);
      ShuffleAt(k');
      ListedKeyNamesId(JumbledOrder, k, id);
      ListedKeyNamesId(JumbledOrder, k', id);
    }
  }
}
