/** Optional value. */
module Wrappers {
  datatype Option<T> = None | Some(value: T)
}

/**
 * The calibration-value rule of the "Trebuchet?!" puzzle: every line of the
 * calibration document yields 10 * (first digit on the line) + (last digit on
 * the line), and the document's answer is the sum of those values.
 *
 * A "digit" is a decimal character in part one; in part two the spelled-out
 * words of the NUMBERS table count too, each worth its index in the table.
 * Matches are tried at every character position, so overlapping words
 * ("eightwo", "twone") are all seen.
 */
module Day1 {
  import opened Wrappers

  type Line = seq<char>

  /** The word table: NUMBERS[k] spells the digit k. */
  const NUMBERS: seq<string> :=
    ["zero", "one", "two", "three", "four", "five", "six", "seven", "eight", "nine"]

  /**
   * What counts as a digit. `Numerals` is part one (decimal characters only);
   * `NumeralsAndWords` is part two. The table holds "zero" but the puzzle text
   * names only one to nine, so `withZero` chooses whether "zero" is a word.
   */
  datatype Mode = Numerals | NumeralsAndWords(withZero: bool)

  /** Smallest table index recognised as a word. */
  function LowestWord(withZero: bool): nat
  {
    if withZero then 0 else 1
  }

  predicate IsDecimal(c: char)
  {
    '0' <= c <= '9'
  }

  /** The word `w` occurs in `line` starting at position `i`. */
  predicate StartsWith(line: Line, i: int, w: string)
  {
    0 <= i && i + |w| <= |line| && line[i..i + |w|] == w
  }

  /** Independent description of a token: value `v` can be read at position `i`. */
  predicate IsTokenAt(mode: Mode, line: Line, i: int, v: int)
  {
    (0 <= i < |line| && IsDecimal(line[i]) && v == line[i] as int - '0' as int)
    || (mode.NumeralsAndWords? && LowestWord(mode.withZero) <= v < |NUMBERS|
        && StartsWith(line, i, NUMBERS[v]))
  }

  /** Every word of the table has a first two letters no other word shares. */
  lemma WordsDifferEarly()
    ensures forall k :: 0 <= k < |NUMBERS| ==> 3 <= |NUMBERS[k]| && 'a' <= NUMBERS[k][0] <= 'z'
    ensures forall j, k :: 0 <= j < k < |NUMBERS| ==> NUMBERS[j][..2] != NUMBERS[k][..2]
  {
    assert NUMBERS[0][..2] == "ze" && NUMBERS[1][..2] == "on" && NUMBERS[2][..2] == "tw";
    assert NUMBERS[3][..2] == "th" && NUMBERS[4][..2] == "fo" && NUMBERS[5][..2] == "fi";
    assert NUMBERS[6][..2] == "si" && NUMBERS[7][..2] == "se" && NUMBERS[8][..2] == "ei";
    assert NUMBERS[9][..2] == "ni";
  }

  /** At most one word of the table starts at any given position. */
  lemma WordAtMostOne(line: Line, i: int, j: nat, k: nat)
    requires j < |NUMBERS| && k < |NUMBERS|
    requires StartsWith(line, i, NUMBERS[j]) && StartsWith(line, i, NUMBERS[k])
    ensures j == k
  {
    WordsDifferEarly();
    assert NUMBERS[j][..2] == line[i..i + 2] by {
      assert NUMBERS[j][..2] == line[i..i + |NUMBERS[j]|][..2];
    }
    assert NUMBERS[k][..2] == line[i..i + 2] by {
      assert NUMBERS[k][..2] == line[i..i + |NUMBERS[k]|][..2];
    }
  }

  /** A word starts with a letter, so no word starts where a decimal character stands. */
  lemma WordNotAtDecimal(line: Line, i: int, k: nat)
    requires k < |NUMBERS| && StartsWith(line, i, NUMBERS[k])
    ensures 0 <= i < |line| && !IsDecimal(line[i])
  {
    WordsDifferEarly();
    assert line[i] == line[i..i + |NUMBERS[k]|][0];
  }

  /** The letters `a`, `b`, `c` are the first three of some table word. */
  predicate OpensWord(a: char, b: char, c: char)
  {
    match a
    case 'z' => b == 'e' && c == 'r'
    case 'o' => b == 'n' && c == 'e'
    case 't' => (b == 'w' && c == 'o') || (b == 'h' && c == 'r')
    case 'f' => (b == 'o' && c == 'u') || (b == 'i' && c == 'v')
    case 's' => (b == 'i' && c == 'x') || (b == 'e' && c == 'v')
    case 'e' => b == 'i' && c == 'g'
    case 'n' => b == 'i' && c == 'n'
    case _ => false
  }

  lemma WordsOpenWords()
    ensures forall k :: 0 <= k < |NUMBERS| ==>
              3 <= |NUMBERS[k]| && OpensWord(NUMBERS[k][0], NUMBERS[k][1], NUMBERS[k][2])
  {
  }

  /**
   * Position `i` starts no token in any mode: it holds no decimal character and
   * its next three letters open no table word. Stated on characters only.
   */
  predicate PlainAt(line: Line, i: int)
  {
    0 <= i < |line| && !IsDecimal(line[i])
    && (i + 2 < |line| ==> !OpensWord(line[i], line[i + 1], line[i + 2]))
  }

  /** Every position in [lo, hi) is plain. */
  predicate PlainFrom(line: Line, lo: int, hi: int)
    decreases hi - lo
  {
    lo >= hi || (PlainAt(line, lo) && PlainFrom(line, lo + 1, hi))
  }

  lemma {:induction false} PlainFromAll(line: Line, lo: int, hi: int)
    requires PlainFrom(line, lo, hi)
    ensures forall j :: lo <= j < hi ==> PlainAt(line, j)
    decreases hi - lo
  {
    if lo < hi { PlainFromAll(line, lo + 1, hi); }
  }

  /** The first word of the table, from index `k` on, that starts at position `i`. */
  function WordFrom(line: Line, i: int, k: nat): (r: Option<nat>)
    requires k <= |NUMBERS|
    ensures r.Some? ==> k <= r.value < |NUMBERS| && StartsWith(line, i, NUMBERS[r.value])
    ensures r.None? ==> forall j :: k <= j < |NUMBERS| ==> !StartsWith(line, i, NUMBERS[j])
    decreases |NUMBERS| - k
  {
    if k == |NUMBERS| then None
    else if StartsWith(line, i, NUMBERS[k]) then Some(k)
    else WordFrom(line, i, k + 1)
  }

  /**
   * The token read at position `i`: a decimal character gives its value, and in
   * word mode a table word starting at `i` gives its index. Nothing before `i`
   * matters, so a word is found even when it overlaps a neighbouring one.
   */
  function TokenAt(mode: Mode, line: Line, i: int): (r: Option<nat>)
    ensures r.Some? ==> r.value <= 9
  {
    if 0 <= i < |line| && IsDecimal(line[i]) then Some(line[i] as int - '0' as int)
    else if mode.NumeralsAndWords? then WordFrom(line, i, LowestWord(mode.withZero))
    else None
  }

  /**
   * TokenAt reads value `v` exactly when `v` can be read there: the search
   * finds every token, and no position holds two.
   */
  lemma TokenAtMeans(mode: Mode, line: Line, i: int)
    ensures forall v :: TokenAt(mode, line, i) == Some(v) <==> IsTokenAt(mode, line, i, v)
  {
    if 0 <= i < |line| && IsDecimal(line[i]) {
      forall k | 0 <= k < |NUMBERS| ensures !StartsWith(line, i, NUMBERS[k]) {
        if StartsWith(line, i, NUMBERS[k]) { WordNotAtDecimal(line, i, k); }
      }
    } else if mode.NumeralsAndWords? {
      var w := TokenAt(mode, line, i);
      forall v | IsTokenAt(mode, line, i, v) ensures w == Some(v) {
        WordAtMostOne(line, i, w.value, v);
      }
    }
  }

  predicate HasToken(mode: Mode, line: Line, i: int)
  {
    TokenAt(mode, line, i).Some?
  }

  /** A plain position starts no token. */
  lemma NoTokenAt(mode: Mode, line: Line, i: int)
    requires PlainAt(line, i)
    ensures !HasToken(mode, line, i)
  {
    WordsOpenWords();
    forall k | 0 <= k < |NUMBERS| ensures !StartsWith(line, i, NUMBERS[k]) {
      var w := NUMBERS[k];
      if i + |w| <= |line| {
        var slice := line[i..i + |w|];
        assert slice[0] == line[i] && slice[1] == line[i + 1] && slice[2] == line[i + 2];
        assert (slice[0], slice[1], slice[2]) != (w[0], w[1], w[2]);
      }
    }
    assert forall v :: !IsTokenAt(mode, line, i, v);
    TokenAtMeans(mode, line, i);
  }

  /** Position `p` holds the leftmost token of the line. */
  predicate IsFirstToken(mode: Mode, line: Line, p: int)
  {
    0 <= p < |line| && HasToken(mode, line, p) && forall j :: 0 <= j < p ==> !HasToken(mode, line, j)
  }

  /** Position `q` holds the rightmost token of the line. */
  predicate IsLastToken(mode: Mode, line: Line, q: int)
  {
    0 <= q < |line| && HasToken(mode, line, q) && forall j :: q < j < |line| ==> !HasToken(mode, line, j)
  }

  /** The line holds no token at all. */
  predicate NoToken(mode: Mode, line: Line)
  {
    forall j :: 0 <= j < |line| ==> !HasToken(mode, line, j)
  }

  /** Left-to-right search for the first token at or after `i`. */
  function FirstTokenFrom(mode: Mode, line: Line, i: nat): (r: Option<nat>)
    requires i <= |line|
    ensures r.Some? ==> i <= r.value < |line| && HasToken(mode, line, r.value)
    ensures forall j :: i <= j < |line| && (r.None? || j < r.value) ==> !HasToken(mode, line, j)
    decreases |line| - i
  {
    if i == |line| then None
    else if HasToken(mode, line, i) then Some(i)
    else FirstTokenFrom(mode, line, i + 1)
  }

  /** Right-to-left search for the last token strictly before `n`. */
  function LastTokenBefore(mode: Mode, line: Line, n: nat): (r: Option<nat>)
    requires n <= |line|
    ensures r.Some? ==> r.value < n && HasToken(mode, line, r.value)
    ensures forall j :: 0 <= j < n && (r.None? || r.value < j) ==> !HasToken(mode, line, j)
  {
    if n == 0 then None
    else if HasToken(mode, line, n - 1) then Some(n - 1)
    else LastTokenBefore(mode, line, n - 1)
  }

  /**
   * The calibration value of one line: 10 * (first token) + (last token). A line
   * without any token contributes 0.
   */
  function CalibrationValue(mode: Mode, line: Line): (r: nat)
    ensures r <= 99
  {
    match FirstTokenFrom(mode, line, 0)
    case None => 0
    case Some(p) =>
      var q := LastTokenBefore(mode, line, |line|);
      assert q.Some? by { assert 0 <= p < |line| && HasToken(mode, line, p); }
      10 * TokenAt(mode, line, p).value + TokenAt(mode, line, q.value).value
  }

  /**
   * What the value means: ten times the leftmost token plus the rightmost one,
   * or 0 when the line holds no token.
   */
  lemma CalibrationValueMeans(mode: Mode, line: Line)
    ensures forall p, q :: IsFirstToken(mode, line, p) && IsLastToken(mode, line, q) ==>
              CalibrationValue(mode, line) == 10 * TokenAt(mode, line, p).value + TokenAt(mode, line, q).value
    ensures NoToken(mode, line) ==> CalibrationValue(mode, line) == 0
  {
  }

  /** A line with a token has a leftmost and a rightmost one, so its value is pinned down. */
  lemma FirstAndLastExist(mode: Mode, line: Line, i: int) returns (p: int, q: int)
    requires HasToken(mode, line, i)
    ensures 0 <= i < |line|
    ensures IsFirstToken(mode, line, p) && IsLastToken(mode, line, q) && p <= i <= q
  {
    WordsDifferEarly();
    TokenAtMeans(mode, line, i);
    assert IsTokenAt(mode, line, i, TokenAt(mode, line, i).value);
    p := FirstTokenFrom(mode, line, 0).value;
    q := LastTokenBefore(mode, line, |line|).value;
  }

  /**
   * The value of a line, read from its ends: the first token is `vp` at `p`,
   * the last is `vq` at `q`, and every position before `p` and after `q` is plain.
   */
  lemma ValueFromTokens(mode: Mode, line: Line, p: int, vp: nat, q: int, vq: nat)
    requires 0 <= p <= q < |line|
    requires IsTokenAt(mode, line, p, vp) && IsTokenAt(mode, line, q, vq)
    requires PlainFrom(line, 0, p) && PlainFrom(line, q + 1, |line|)
    ensures CalibrationValue(mode, line) == 10 * vp + vq
  {
    TokenAtMeans(mode, line, p);
    TokenAtMeans(mode, line, q);
    CalibrationValueMeans(mode, line);
    PlainFromAll(line, 0, p);
    PlainFromAll(line, q + 1, |line|);
    forall j | 0 <= j < p || q < j < |line| ensures !HasToken(mode, line, j) {
      NoTokenAt(mode, line, j);
    }
    assert IsFirstToken(mode, line, p) && IsLastToken(mode, line, q);
  }

  /** Without a '0' character, and without "zero" as a word or on the line, no token reads 0. */
  lemma TokenNotZero(mode: Mode, line: Line, j: int)
    requires HasToken(mode, line, j)
    requires '0' !in line
    requires mode != NumeralsAndWords(true) || forall k :: !StartsWith(line, k, "zero")
    ensures 1 <= TokenAt(mode, line, j).value
  {
    TokenAtMeans(mode, line, j);
    assert IsTokenAt(mode, line, j, TokenAt(mode, line, j).value);
    if 0 <= j < |line| { assert line[j] in line; }
  }

  /**
   * With no zero among the tokens (no '0' character, and "zero" either not a
   * word or absent from the line) a value is 11..99.
   */
  lemma ValueAtLeastEleven(mode: Mode, line: Line, i: int)
    requires HasToken(mode, line, i)
    requires '0' !in line
    requires mode != NumeralsAndWords(true) || forall k :: !StartsWith(line, k, "zero")
    ensures 11 <= CalibrationValue(mode, line) <= 99
  {
    var p, q := FirstAndLastExist(mode, line, i);
    CalibrationValueMeans(mode, line);
    TokenNotZero(mode, line, p);
    TokenNotZero(mode, line, q);
  }

  /** A line with exactly one token uses it as both first and last digit ("treb7uchet" gives 77). */
  lemma SingleTokenDoubles(mode: Mode, line: Line, p: int)
    requires HasToken(mode, line, p)
    requires forall j :: j != p ==> !HasToken(mode, line, j)
    ensures CalibrationValue(mode, line) == 11 * TokenAt(mode, line, p).value
  {
    var first, last := FirstAndLastExist(mode, line, p);
    CalibrationValueMeans(mode, line);
    assert first == p && last == p;
  }

  /** A table word is recognised wherever it starts, whatever surrounds it. */
  lemma WordRecognisedAnywhere(withZero: bool, line: Line, i: int, k: nat)
    requires LowestWord(withZero) <= k < |NUMBERS|
    requires StartsWith(line, i, NUMBERS[k])
    ensures TokenAt(NumeralsAndWords(withZero), line, i) == Some(k)
  {
    TokenAtMeans(NumeralsAndWords(withZero), line, i);
    assert IsTokenAt(NumeralsAndWords(withZero), line, i, k);
  }

  /** A decimal character is read as its value in either mode. */
  lemma DigitRecognised(mode: Mode, line: Line, i: int)
    requires 0 <= i < |line| && IsDecimal(line[i])
    ensures TokenAt(mode, line, i) == Some(line[i] as int - '0' as int)
  {
    TokenAtMeans(mode, line, i);
    assert IsTokenAt(mode, line, i, line[i] as int - '0' as int);
  }

  /** What is read at position `i` depends only on the text from `i` on. */
  lemma {:induction false} TokenAtIgnoresPrefix(mode: Mode, before: Line, rest: Line)
    ensures TokenAt(mode, before + rest, |before|) == TokenAt(mode, rest, 0)
  {
    var line := before + rest;
    var i := |before|;
    forall w: string ensures StartsWith(line, i, w) == StartsWith(rest, 0, w) {
      if 0 <= i && i + |w| <= |line| {
        assert line[i..i + |w|] == rest[0..|w|];
      }
    }
    forall v ensures IsTokenAt(mode, line, i, v) == IsTokenAt(mode, rest, 0, v) {
      if i < |line| { assert line[i] == rest[0]; }
    }
    TokenAtMeans(mode, line, i);
    TokenAtMeans(mode, rest, 0);
    var r := TokenAt(mode, rest, 0);
    if r.Some? {
      assert IsTokenAt(mode, line, i, r.value);
    } else if TokenAt(mode, line, i).Some? {
      assert IsTokenAt(mode, rest, 0, TokenAt(mode, line, i).value);
    }
  }

  /** Word mode only adds tokens: every decimal character is read the same way in both modes. */
  lemma NumeralTokensKept(withZero: bool, line: Line, i: int)
    requires HasToken(Numerals, line, i)
    ensures TokenAt(NumeralsAndWords(withZero), line, i) == TokenAt(Numerals, line, i)
  {
    var v := TokenAt(Numerals, line, i).value;
    TokenAtMeans(Numerals, line, i);
    TokenAtMeans(NumeralsAndWords(withZero), line, i);
    assert IsTokenAt(Numerals, line, i, v);
    assert IsTokenAt(NumeralsAndWords(withZero), line, i, v);
  }

  /** Two modes that read the same token at every position give the same value. */
  lemma SameTokensSameValue(m1: Mode, m2: Mode, line: Line)
    requires forall j :: 0 <= j < |line| ==> TokenAt(m1, line, j) == TokenAt(m2, line, j)
    ensures CalibrationValue(m1, line) == CalibrationValue(m2, line)
  {
    forall j | 0 <= j < |line| ensures HasToken(m1, line, j) == HasToken(m2, line, j) {
      assert TokenAt(m1, line, j) == TokenAt(m2, line, j);
    }
    CalibrationValueMeans(m1, line);
    CalibrationValueMeans(m2, line);
    if NoToken(m1, line) {
      assert NoToken(m2, line);
    } else {
      var i :| 0 <= i < |line| && HasToken(m1, line, i);
      var p, q := FirstAndLastExist(m1, line, i);
      assert IsFirstToken(m2, line, p) && IsLastToken(m2, line, q);
      assert TokenAt(m1, line, p) == TokenAt(m2, line, p);
      assert TokenAt(m1, line, q) == TokenAt(m2, line, q);
    }
  }

  /** On a line where no table word occurs, part one and part two agree. */
  lemma ModesAgreeWithoutWords(withZero: bool, line: Line)
    requires forall i, k :: 0 <= i < |line| && LowestWord(withZero) <= k < |NUMBERS| ==> !StartsWith(line, i, NUMBERS[k])
    ensures CalibrationValue(NumeralsAndWords(withZero), line) == CalibrationValue(Numerals, line)
  {
    var m := NumeralsAndWords(withZero);
    forall j | 0 <= j < |line| ensures TokenAt(m, line, j) == TokenAt(Numerals, line, j) {
      if HasToken(m, line, j) {
        TokenAtMeans(m, line, j);
        assert IsTokenAt(m, line, j, TokenAt(m, line, j).value);
      }
      if HasToken(Numerals, line, j) {
        NumeralTokensKept(withZero, line, j);
      }
    }
    SameTokensSameValue(m, Numerals, line);
  }

  /**
   * One left-to-right pass over the line, testing every position for a token
   * and keeping the first value found and the latest one.
   */
  method ScanCalibrationValue(mode: Mode, line: Line) returns (r: nat)
    ensures r == CalibrationValue(mode, line)
  {
    var first: Option<nat> := None;
    var last: Option<nat> := None;
    ghost var firstPos: nat := 0;
    ghost var lastPos: nat := 0;
    var i := 0;
    while i < |line|
      invariant 0 <= i <= |line|
      invariant first.None? <==> last.None?
      invariant first.None? ==> forall j :: 0 <= j < i ==> !HasToken(mode, line, j)
      invariant first.Some? ==> firstPos < i && HasToken(mode, line, firstPos)
                                && first.value == TokenAt(mode, line, firstPos).value
                                && forall j :: 0 <= j < firstPos ==> !HasToken(mode, line, j)
      invariant last.Some? ==> lastPos < i && HasToken(mode, line, lastPos)
                               && last.value == TokenAt(mode, line, lastPos).value
                               && forall j :: lastPos < j < i ==> !HasToken(mode, line, j)
    {
      var t := TokenAt(mode, line, i);
      if t.Some? {
        if first.None? {
          first := t;
          firstPos := i;
        }
        last := t;
        lastPos := i;
      }
      i := i + 1;
    }
    CalibrationValueMeans(mode, line);
    if first.None? {
      r := 0;
    } else {
      assert IsFirstToken(mode, line, firstPos) && IsLastToken(mode, line, lastPos);
      r := 10 * first.value + last.value;
    }
  }

  // ---------------------------------------------------------------------------
  // The aggregator

  /** Sum of a list of values: no entry exceeds it, and it is 0 exactly when every entry is. */
  function Sum(s: seq<nat>): (r: nat)
    ensures forall i :: 0 <= i < |s| ==> s[i] <= r
    ensures r == 0 <==> forall i :: 0 <= i < |s| ==> s[i] == 0
  {
    if s == [] then 0
    else
      assert forall i :: 1 <= i < |s| ==> s[i] == s[1..][i - 1];
      s[0] + Sum(s[1..])
  }

  lemma {:induction false} SumAppend(a: seq<nat>, b: seq<nat>)
    ensures Sum(a + b) == Sum(a) + Sum(b)
  {
    if a == [] {
      assert a + b == b;
    } else {
      assert (a + b)[1..] == a[1..] + b;
      SumAppend(a[1..], b);
    }
  }

  /** The per-line values, one per line and in line order. */
  function NumbersFromLines(mode: Mode, lines: seq<Line>): (r: seq<nat>)
    ensures |r| == |lines|
    ensures forall i :: 0 <= i < |lines| ==> r[i] == CalibrationValue(mode, lines[i])
  {
    if lines == [] then [] else [CalibrationValue(mode, lines[0])] + NumbersFromLines(mode, lines[1..])
  }

  lemma {:induction false} NumbersFromLinesAppend(mode: Mode, a: seq<Line>, b: seq<Line>)
    ensures NumbersFromLines(mode, a + b) == NumbersFromLines(mode, a) + NumbersFromLines(mode, b)
  {
    var l, r := NumbersFromLines(mode, a + b), NumbersFromLines(mode, a) + NumbersFromLines(mode, b);
    assert |l| == |r|;
    forall i | 0 <= i < |l| ensures l[i] == r[i] {
      if i < |a| { assert (a + b)[i] == a[i]; } else { assert (a + b)[i] == b[i - |a|]; }
    }
  }

  /** The calibration sum of a document. */
  function SolvePuzzle(mode: Mode, lines: seq<Line>): (r: nat)
    ensures r <= 99 * |lines|
  {
    SumBound(mode, lines);
    Sum(NumbersFromLines(mode, lines))
  }

  lemma {:induction false} SumBound(mode: Mode, lines: seq<Line>)
    ensures Sum(NumbersFromLines(mode, lines)) <= 99 * |lines|
  {
    if lines != [] {
      var ns := NumbersFromLines(mode, lines);
      assert ns[1..] == NumbersFromLines(mode, lines[1..]);
      SumBound(mode, lines[1..]);
    }
  }

  /** Splitting a document splits its calibration sum. */
  lemma SolvePuzzleAppend(mode: Mode, a: seq<Line>, b: seq<Line>)
    ensures SolvePuzzle(mode, a + b) == SolvePuzzle(mode, a) + SolvePuzzle(mode, b)
  {
    NumbersFromLinesAppend(mode, a, b);
    SumAppend(NumbersFromLines(mode, a), NumbersFromLines(mode, b));
  }

  /** Reordering the lines of a document does not change its calibration sum. */
  lemma {:induction false} SolvePuzzleReorder(mode: Mode, a: seq<Line>, b: seq<Line>)
    requires multiset(a) == multiset(b)
    ensures SolvePuzzle(mode, a) == SolvePuzzle(mode, b)
    decreases |a|
  {
    if a == [] {
      assert |b| == |multiset(b)| == |multiset(a)| == 0;
    } else {
      var x := a[0];
      assert x in multiset(b);
      var k :| 0 <= k < |b| && b[k] == x;
      var rest := b[..k] + b[k + 1..];
      assert b == b[..k] + [x] + b[k + 1..];
      assert a == [x] + a[1..];
      assert multiset(b) == multiset(b[..k]) + multiset{x} + multiset(b[k + 1..]);
      assert multiset(a) == multiset{x} + multiset(a[1..]);
      assert multiset(rest) == multiset(b[..k]) + multiset(b[k + 1..]);
      assert multiset(a[1..]) == multiset(a) - multiset{x};
      assert multiset(rest) == multiset(b) - multiset{x};
      SolvePuzzleReorder(mode, a[1..], rest);
      SolvePuzzleAppend(mode, [x], a[1..]);
      SolvePuzzleAppend(mode, b[..k] + [x], b[k + 1..]);
      SolvePuzzleAppend(mode, b[..k], [x]);
      SolvePuzzleAppend(mode, b[..k], b[k + 1..]);
    }
  }

  // ---------------------------------------------------------------------------
  // The extractor as the repository's body has it

  /** The unfinished extractor: it only traces what it sees and maps every line to 0. */
  function StubNumbersFromLines(lines: seq<Line>): (r: seq<nat>)
    ensures |r| == |lines|
    ensures forall i :: 0 <= i < |r| ==> r[i] == 0
  {
    if lines == [] then [] else [0] + StubNumbersFromLines(lines[1..])
  }

  /** The unfinished aggregator's answer: the sum of the stub's values, always 0. */
  function StubSolvePuzzle(lines: seq<Line>): (r: nat)
    ensures r == 0
  {
    Sum(StubNumbersFromLines(lines))
  }
}
