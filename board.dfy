/** The 3x3 board as a sequence of nine cells, cell k holding slot k + 1.
    A cell holds 'X' or 'O' once a player has marked it, and otherwise the
    placeholder character it displays while free. */
module Board {

  /** The two marks a player can place. */
  predicate IsMark(c: char) {
    c == 'X' || c == 'O'
  }

  /** The eight lines of the grid as zero-based cell indices:
      rows 0..2, columns 3..5, diagonals 6..7. */
  function Line(k: nat): (t: (nat, nat, nat))
    requires k < 8
    ensures t.0 < t.1 < t.2 < 9
  {
    match k
    case 0 => (0, 1, 2)
    case 1 => (3, 4, 5)
    case 2 => (6, 7, 8)
    case 3 => (0, 3, 6)
    case 4 => (1, 4, 7)
    case 5 => (2, 5, 8)
    case 6 => (0, 4, 8)
    case _ => (2, 4, 6)
  }

  /** The three cells of line k hold the same character. */
  predicate LineEqual(b: seq<char>, k: nat)
    requires |b| == 9 && k < 8
  {
    b[Line(k).0] == b[Line(k).1] && b[Line(k).1] == b[Line(k).2]
  }

  /** The three cells of line k all hold c. */
  predicate LineOf(b: seq<char>, k: nat, c: char)
    requires |b| == 9 && k < 8
  {
    b[Line(k).0] == c && b[Line(k).1] == c && b[Line(k).2] == c
  }

  /** Some line has three equal cells (what the win test compares). */
  predicate HasEqualLine(b: seq<char>)
    requires |b| == 9
  {
    exists k: nat :: k < 8 && LineEqual(b, k)
  }

  /** Some line is filled with c. */
  predicate HasLineOf(b: seq<char>, c: char)
    requires |b| == 9
  {
    exists k: nat :: k < 8 && LineOf(b, k, c)
  }

  /** Every free cell shows a character no other cell holds. */
  predicate PlaceholdersDistinct(b: seq<char>) {
    forall i, j :: 0 <= i < |b| && 0 <= j < |b| && i != j && !IsMark(b[i]) ==> b[i] != b[j]
  }

  /** Every cell is marked. */
  predicate Full(b: seq<char>) {
    forall i :: 0 <= i < |b| ==> IsMark(b[i])
  }

  /** The number of marked cells. */
  function MarkCount(b: seq<char>): (n: nat)
    ensures n <= |b|
  {
    if b == [] then 0 else MarkCount(b[..|b| - 1]) + (if IsMark(b[|b| - 1]) then 1 else 0)
  }

  /** The line-by-line unfolding of HasEqualLine. */
  lemma EqualLineCases(b: seq<char>)
    requires |b| == 9
    ensures HasEqualLine(b) <==>
      LineEqual(b, 0) || LineEqual(b, 1) || LineEqual(b, 2) || LineEqual(b, 3) ||
      LineEqual(b, 4) || LineEqual(b, 5) || LineEqual(b, 6) || LineEqual(b, 7)
  {
  }

  /** Under distinct placeholders, three equal cells on a line are three
      equal marks: an all-equal line is an all-'X' or an all-'O' line. */
  lemma EqualLineIsMarkLine(b: seq<char>)
    requires |b| == 9 && PlaceholdersDistinct(b)
    ensures HasEqualLine(b) <==> HasLineOf(b, 'X') || HasLineOf(b, 'O')
  {
    if HasEqualLine(b) {
      var k: nat :| k < 8 && LineEqual(b, k);
      var c := b[Line(k).0];
      assert IsMark(c);
      assert LineOf(b, k, c);
    }
    if HasLineOf(b, 'X') {
      var k: nat :| k < 8 && LineOf(b, k, 'X');
      assert LineEqual(b, k);
    }
    if HasLineOf(b, 'O') {
      var k: nat :| k < 8 && LineOf(b, k, 'O');
      assert LineEqual(b, k);
    }
  }

  /** A line that becomes equal when c is written into cell k passes through
      k, so it is a line of c. */
  lemma NewLineIsMovers(b: seq<char>, k: nat, c: char)
    requires |b| == 9 && k < 9 && !HasEqualLine(b)
    ensures HasEqualLine(b[k := c]) ==> HasLineOf(b[k := c], c)
  {
    var b' := b[k := c];
    if HasEqualLine(b') {
      var n: nat :| n < 8 && LineEqual(b', n);
      assert !LineEqual(b, n);
      assert LineOf(b', n, c);
    }
  }

  /** Writing a mark keeps the free cells distinct. */
  lemma PlaceKeepsDistinct(b: seq<char>, k: nat, c: char)
    requires k < |b| && IsMark(c) && PlaceholdersDistinct(b)
    ensures PlaceholdersDistinct(b[k := c])
  {
  }

  /** Writing a mark into a free cell adds exactly one mark. */
  lemma {:induction false} PlaceCountsOne(b: seq<char>, k: nat, c: char)
    requires k < |b| && IsMark(c) && !IsMark(b[k])
    ensures MarkCount(b[k := c]) == MarkCount(b) + 1
  {
    var b' := b[k := c];
    var n := |b| - 1;
    if k == n {
      assert b'[..n] == b[..n];
    } else {
      assert b'[..n] == b[..n][k := c];
      PlaceCountsOne(b[..n], k, c);
    }
  }

  /** A board without marks counts none. */
  lemma {:induction false} NoMarksCountZero(b: seq<char>)
    requires forall i :: 0 <= i < |b| ==> !IsMark(b[i])
    ensures MarkCount(b) == 0
  {
    if b != [] {
      NoMarksCountZero(b[..|b| - 1]);
    }
  }

  /** A board all of whose cells count as marks is full, and conversely. */
  lemma {:induction false} CountFull(b: seq<char>)
    ensures MarkCount(b) == |b| <==> Full(b)
  {
    if b != [] {
      var n := |b| - 1;
      CountFull(b[..n]);
      assert Full(b) <==> Full(b[..n]) && IsMark(b[n]);
    }
  }
}
