/**
 * The worked examples of the puzzle text and of the repository's tests,
 * stated against the model.
 *
 * Each line's value is read off its ends with ValueFromTokens: the first and
 * last tokens are named, and everything before the first and after the last
 * is checked to be plain text. The lines are passed as parameters equal to
 * the literal text, which keeps the verifier from unfolding the definitions
 * on the literal itself.
 */
module Day1Examples {
  import opened Day1

  /** The part-one example document. */
  const PartOneLines: seq<Line> := ["1abc2", "pqr3stu8vwx", "a1b2c3d4e5f", "treb7uchet"]

  /** The part-two example document, also the input of both tests. */
  const PartTwoLines: seq<Line> :=
    ["two1nine", "eightwothree", "abcone2threexyz", "xtwone3four",
     "4nineeightseven2", "zoneight234", "7pqrstsixteen"]

  lemma OneAbcTwo(line: Line)
    requires line == "1abc2"
    ensures CalibrationValue(Numerals, line) == 12
  {
    assert PlainFrom("1abc2", 0, 0) && PlainFrom("1abc2", 5, 5);
    ValueFromTokens(Numerals, "1abc2", 0, 1, 4, 2);
  }

  lemma PqrThreeStuEightVwx(line: Line)
    requires line == "pqr3stu8vwx"
    ensures CalibrationValue(Numerals, line) == 38
  {
    assert PlainFrom("pqr3stu8vwx", 0, 3) && PlainFrom("pqr3stu8vwx", 8, 11);
    ValueFromTokens(Numerals, "pqr3stu8vwx", 3, 3, 7, 8);
  }

  /** Only the outermost digits count. */
  lemma AOneBTwoCThree(line: Line)
    requires line == "a1b2c3d4e5f"
    ensures CalibrationValue(Numerals, line) == 15
  {
    assert PlainFrom("a1b2c3d4e5f", 0, 1) && PlainFrom("a1b2c3d4e5f", 10, 11);
    ValueFromTokens(Numerals, "a1b2c3d4e5f", 1, 1, 9, 5);
  }

  /** A line with one digit uses it as first and last. */
  lemma TrebSevenUchet(line: Line)
    requires line == "treb7uchet"
    ensures CalibrationValue(Numerals, line) == 77
  {
    assert PlainFrom("treb7uchet", 0, 4) && PlainFrom("treb7uchet", 5, 10);
    ValueFromTokens(Numerals, "treb7uchet", 4, 7, 4, 7);
  }

  lemma TwoOneNine(withZero: bool, line: Line)
    requires line == "two1nine"
    ensures CalibrationValue(NumeralsAndWords(withZero), line) == 29
  {
    assert PlainFrom("two1nine", 0, 0) && PlainFrom("two1nine", 5, 8);
    ValueFromTokens(NumeralsAndWords(withZero), "two1nine", 0, 2, 4, 9);
  }

  /** "eight" and "two" share a letter; the first token is "eight". */
  lemma EightwoThree(withZero: bool, line: Line)
    requires line == "eightwothree"
    ensures CalibrationValue(NumeralsAndWords(withZero), line) == 83
  {
    assert PlainFrom("eightwothree", 0, 0) && PlainFrom("eightwothree", 8, 12);
    ValueFromTokens(NumeralsAndWords(withZero), "eightwothree", 0, 8, 7, 3);
  }

  lemma AbcOneTwoThreeXyz(withZero: bool, line: Line)
    requires line == "abcone2threexyz"
    ensures CalibrationValue(NumeralsAndWords(withZero), line) == 13
  {
    assert PlainFrom("abcone2threexyz", 0, 3) && PlainFrom("abcone2threexyz", 8, 15);
    ValueFromTokens(NumeralsAndWords(withZero), "abcone2threexyz", 3, 1, 7, 3);
  }

  /** "two" overlaps "one"; the first token is "two". */
  lemma XtwoneThreeFour(withZero: bool, line: Line)
    requires line == "xtwone3four"
    ensures CalibrationValue(NumeralsAndWords(withZero), line) == 24
  {
    assert PlainFrom("xtwone3four", 0, 1) && PlainFrom("xtwone3four", 8, 11);
    ValueFromTokens(NumeralsAndWords(withZero), "xtwone3four", 1, 2, 7, 4);
  }

  /** Literal digits at both ends win over the words between them. */
  lemma FourNineEightSevenTwo(withZero: bool, line: Line)
    requires line == "4nineeightseven2"
    ensures CalibrationValue(NumeralsAndWords(withZero), line) == 42
  {
    assert PlainFrom("4nineeightseven2", 0, 0) && PlainFrom("4nineeightseven2", 16, 16);
    ValueFromTokens(NumeralsAndWords(withZero), "4nineeightseven2", 0, 4, 15, 2);
  }

  /** The 'z' opens no word, and "one" overlaps "eight". */
  lemma ZoneightTwoThreeFour(withZero: bool, line: Line)
    requires line == "zoneight234"
    ensures CalibrationValue(NumeralsAndWords(withZero), line) == 14
  {
    assert PlainFrom("zoneight234", 0, 1) && PlainFrom("zoneight234", 11, 11);
    ValueFromTokens(NumeralsAndWords(withZero), "zoneight234", 1, 1, 10, 4);
  }

  /** "six" is read inside the longer word "sixteen". */
  lemma SevenPqrstSixteen(withZero: bool, line: Line)
    requires line == "7pqrstsixteen"
    ensures CalibrationValue(NumeralsAndWords(withZero), line) == 76
  {
    assert PlainFrom("7pqrstsixteen", 0, 0) && PlainFrom("7pqrstsixteen", 7, 13);
    ValueFromTokens(NumeralsAndWords(withZero), "7pqrstsixteen", 0, 7, 6, 6);
  }

  /** Overlapping words are both read: "eightwo" gives 82, not 88. */
  lemma EightwoOverlap(withZero: bool, line: Line)
    requires line == "eightwo"
    ensures CalibrationValue(NumeralsAndWords(withZero), line) == 82
  {
    assert PlainFrom("eightwo", 0, 0) && PlainFrom("eightwo", 5, 7);
    ValueFromTokens(NumeralsAndWords(withZero), "eightwo", 0, 8, 4, 2);
  }

  /** A line that is a single digit gives 11 times that digit, in either mode. */
  lemma SingleDigitLine(m: Mode, line: Line)
    requires |line| == 1 && IsDecimal(line[0])
    ensures CalibrationValue(m, line) == 11 * (line[0] as int - '0' as int)
  {
    var d := line[0] as int - '0' as int;
    assert PlainFrom(line, 0, 0) && PlainFrom(line, 1, 1);
    ValueFromTokens(m, line, 0, d, 0, d);
  }

  /** A list whose entries are known one by one is that list. */
  lemma ListedFour(ns: seq<nat>, a: nat, b: nat, c: nat, d: nat)
    requires |ns| == 4 && ns[0] == a && ns[1] == b && ns[2] == c && ns[3] == d
    ensures ns == [a, b, c, d]
  {
  }

  /** A list whose entries are known one by one is that list. */
  lemma ListedSeven(ns: seq<nat>, a: nat, b: nat, c: nat, d: nat, e: nat, f: nat, g: nat)
    requires |ns| == 7 && ns[0] == a && ns[1] == b && ns[2] == c && ns[3] == d
    requires ns[4] == e && ns[5] == f && ns[6] == g
    ensures ns == [a, b, c, d, e, f, g]
  {
  }

  /** Part one: 12, 38, 15 and 77, summing to 142. */
  lemma PartOneExamples(lines: seq<Line>)
    requires lines == PartOneLines
    ensures NumbersFromLines(Numerals, lines) == [12, 38, 15, 77]
    ensures SolvePuzzle(Numerals, lines) == 142
  {
    OneAbcTwo(lines[0]);
    PqrThreeStuEightVwx(lines[1]);
    AOneBTwoCThree(lines[2]);
    TrebSevenUchet(lines[3]);
    ListedFour(NumbersFromLines(Numerals, lines), 12, 38, 15, 77);
    assert Sum([12, 38, 15, 77]) == 142;
  }

  /** The first four lines of the part-two document. */
  lemma PartTwoOpeningLines(withZero: bool, lines: seq<Line>)
    requires lines == PartTwoLines
    ensures NumbersFromLines(NumeralsAndWords(withZero), lines)[0] == 29
    ensures NumbersFromLines(NumeralsAndWords(withZero), lines)[1] == 83
    ensures NumbersFromLines(NumeralsAndWords(withZero), lines)[2] == 13
    ensures NumbersFromLines(NumeralsAndWords(withZero), lines)[3] == 24
  {
    TwoOneNine(withZero, lines[0]);
    EightwoThree(withZero, lines[1]);
    AbcOneTwoThreeXyz(withZero, lines[2]);
    XtwoneThreeFour(withZero, lines[3]);
  }

  /** The last three lines of the part-two document. */
  lemma PartTwoClosingLines(withZero: bool, lines: seq<Line>)
    requires lines == PartTwoLines
    ensures NumbersFromLines(NumeralsAndWords(withZero), lines)[4] == 42
    ensures NumbersFromLines(NumeralsAndWords(withZero), lines)[5] == 14
    ensures NumbersFromLines(NumeralsAndWords(withZero), lines)[6] == 76
  {
    FourNineEightSevenTwo(withZero, lines[4]);
    ZoneightTwoThreeFour(withZero, lines[5]);
    SevenPqrstSixteen(withZero, lines[6]);
  }

  /** The part-two values add up to 281. */
  lemma PartTwoTotal()
    ensures Sum([29, 83, 13, 24, 42, 14, 76]) == 281
  {
  }

  /** Part two, with or without "zero" as a word: 29, 83, 13, 24, 42, 14 and 76, summing to 281. */
  lemma PartTwoExamples(withZero: bool, lines: seq<Line>)
    requires lines == PartTwoLines
    ensures NumbersFromLines(NumeralsAndWords(withZero), lines) == [29, 83, 13, 24, 42, 14, 76]
    ensures SolvePuzzle(NumeralsAndWords(withZero), lines) == 281
  {
    PartTwoOpeningLines(withZero, lines);
    PartTwoClosingLines(withZero, lines);
    ListedSeven(NumbersFromLines(NumeralsAndWords(withZero), lines), 29, 83, 13, 24, 42, 14, 76);
    PartTwoTotal();
  }

  /** The repository's unfinished body fails both of its tests. */
  lemma StubFailsTests(lines: seq<Line>)
    requires lines == PartTwoLines
    ensures StubNumbersFromLines(lines) != [29, 83, 13, 24, 42, 14, 76]
    ensures StubSolvePuzzle(lines) != 281
  {
    assert StubNumbersFromLines(lines)[0] == 0;
  }
}
