# Trebuchet calibration (Advent of Code 2023, day 1) in Dafny

This project models the calibration rule of the day-1 puzzle as the repository
states it in `2023/day1/src/main.rs`. It proves properties of that model.

A calibration document is a list of lines. Each line yields a calibration value:
ten times the first "digit" on the line plus the last "digit". The document's
answer is the sum of the values. Part one counts decimal characters as digits.
Part two also counts the spelled-out words of the `NUMBERS` table, each worth
its index in the table. A word is tried at every position, so overlapping words
("eightwo", "twone") are each read.

Files:

- `day1.dfy`, module `Day1`: the word table, the token reader (`TokenAt`), the
  leftmost and rightmost token searches, the per-line value
  (`CalibrationValue`), a left-to-right scan method proved equal to it, the
  extractor (`NumbersFromLines`) and the aggregator (`SolvePuzzle`). It also
  holds the extractor as the repository's body actually has it
  (`StubNumbersFromLines`). Module `Wrappers` holds the `Option` type.
- `day1_examples.dfy`, module `Day1Examples`: the worked examples of the puzzle
  text and the two repository tests, proved against the model.

Modelling choices:

- A line is a `seq<char>`. A decimal character is one of '0'..'9'.
- `Mode` is `Numerals` (part one) or `NumeralsAndWords(withZero)` (part two).
  The table holds "zero" at index 0, but the puzzle text lists only one to
  nine, so `withZero` says whether "zero" counts as a word. The part-two
  examples hold in either setting.
- A line with no digit at all has value 0. The source never states a value for it.
- Sums are unbounded naturals.

## Model

| member | source | states |
|---|---|---|
| Day1.WordFrom | 2023/day1/src/main.rs:64-66 | the search returns a table index at or above the lowest allowed one whose word starts at the position, and returns nothing only when no allowed word starts there |
| Day1.TokenAt | 2023/day1/src/main.rs:45-46 | the token read at a position, a decimal character's value or in word mode the table index of a word the mode counts starting there, is a single digit, at most 9 |
| Day1.TokenAtMeans | 2023/day1/src/main.rs:31-32 | the token reader yields value v at a position exactly when a decimal character of value v stands there or, in word mode, a word the mode counts, of table index v, starts there |
| Day1.WordAtMostOne | 2023/day1/src/main.rs:64-66 | no two table words start at the same position |
| Day1.WordNotAtDecimal | 2023/day1/src/main.rs:45-46 | a table word never starts on a decimal character, so a digit and a word never compete for one position |
| Day1.NoTokenAt | 2023/day1/src/main.rs:45-46 | a position with no decimal character, whose next three letters open no table word, holds no token in any mode |
| Day1.FirstTokenFrom | 2023/day1/src/main.rs:31-32 | the left-to-right search finds a token position, and no token lies between the start and the position found |
| Day1.LastTokenBefore | 2023/day1/src/main.rs:31-32 | the right-to-left search finds a token position, and no token lies between the position found and the end |
| Day1.CalibrationValue | 2023/day1/src/main.rs:31-32 | a line's value is at most 99 |
| Day1.CalibrationValueMeans | 2023/day1/src/main.rs:29-32 | the value is ten times the leftmost token plus the rightmost token, and 0 on a line without tokens |
| Day1.FirstAndLastExist | 2023/day1/src/main.rs:31-32 | a line holding a token has a leftmost and a rightmost token, on either side of it |
| Day1.ValueFromTokens | 2023/day1/src/main.rs:31-32 | if tokens vp at p and vq at q have only plain text before p and after q, the value is 10 * vp + vq |
| Day1.TokenNotZero | 2023/day1/src/main.rs:45-46 | without a '0' character, and with "zero" either not a word or absent from the line, every token is 1..9 |
| Day1.ValueAtLeastEleven | 2023/day1/src/main.rs:31-32 | a line with a token, no '0' character, and "zero" either not a word or absent from the line, has a value between 11 and 99 |
| Day1.SingleTokenDoubles | 2023/day1/src/main.rs:39-40 | a line with exactly one token uses it as first and last digit, so its value is 11 times that token |
| Day1.WordRecognisedAnywhere | 2023/day1/src/main.rs:54-57 | in word mode a word the mode counts is read as its table index wherever it starts, whatever letters surround or overlap it |
| Day1.DigitRecognised | 2023/day1/src/main.rs:86-87 | a decimal character is read as its numeric value in either mode |
| Day1.TokenAtIgnoresPrefix | 2023/day1/src/main.rs:51-57 | what is read at a position depends only on the text from that position on, so an earlier overlapping word does not hide it |
| Day1.NumeralTokensKept | 2023/day1/src/main.rs:43-46 | part two reads every decimal character exactly as part one does |
| Day1.SameTokensSameValue | 2023/day1/src/main.rs:31-32 | two modes that read the same token at every position give the line the same value |
| Day1.ModesAgreeWithoutWords | 2023/day1/src/main.rs:43-46 | on a line where no word counted by part two occurs, part one and part two give the same value |
| Day1.ScanCalibrationValue | 2023/day1/src/main.rs:86-91 | one left-to-right pass that keeps the first token found and the latest one returns exactly the line's calibration value |
| Day1.Sum | 2023/day1/src/main.rs:99 | the sum of a list is at least each of its entries, and is 0 exactly when every entry is 0 |
| Day1.SumAppend | 2023/day1/src/main.rs:99 | the sum of a concatenation is the sum of the parts |
| Day1.NumbersFromLines | 2023/day1/src/main.rs:76-93 | the extractor returns one value per line, in line order, the i-th being the value of the i-th line |
| Day1.NumbersFromLinesAppend | 2023/day1/src/main.rs:78-93 | extracting from two documents joined is joining their extractions |
| Day1.SolvePuzzle | 2023/day1/src/main.rs:96-100 | the answer is at most 99 times the number of lines |
| Day1.SumBound | 2023/day1/src/main.rs:96-100 | the sum of the extracted values is at most 99 per line |
| Day1.SolvePuzzleAppend | 2023/day1/src/main.rs:96-100 | the answer for two documents joined is the sum of their answers |
| Day1.SolvePuzzleReorder | 2023/day1/src/main.rs:96-100 | any reordering of the lines gives the same answer |
| Day1.StubNumbersFromLines | 2023/day1/src/main.rs:78-93 | the body as written maps every line, whatever it holds, to 0 |
| Day1.StubSolvePuzzle | 2023/day1/src/main.rs:96-100 | with that body the answer is always 0 |
| Day1Examples.OneAbcTwo | 2023/day1/src/main.rs:36 | part one reads "1abc2" as 12 |
| Day1Examples.PqrThreeStuEightVwx | 2023/day1/src/main.rs:37 | part one reads "pqr3stu8vwx" as 38 |
| Day1Examples.AOneBTwoCThree | 2023/day1/src/main.rs:38 | part one reads "a1b2c3d4e5f" as 15: only the outermost digits count |
| Day1Examples.TrebSevenUchet | 2023/day1/src/main.rs:39-40 | part one reads "treb7uchet" as 77 |
| Day1Examples.PartOneExamples | 2023/day1/src/main.rs:36-41 | the part-one document gives 12, 38, 15, 77 and the answer 142 |
| Day1Examples.TwoOneNine | 2023/day1/src/main.rs:51 | part two reads "two1nine" as 29 |
| Day1Examples.EightwoThree | 2023/day1/src/main.rs:52 | part two reads "eightwothree" as 83 |
| Day1Examples.AbcOneTwoThreeXyz | 2023/day1/src/main.rs:53 | part two reads "abcone2threexyz" as 13 |
| Day1Examples.XtwoneThreeFour | 2023/day1/src/main.rs:54 | part two reads "xtwone3four" as 24: the first token is "two", though "one" overlaps it |
| Day1Examples.FourNineEightSevenTwo | 2023/day1/src/main.rs:55 | part two reads "4nineeightseven2" as 42 |
| Day1Examples.ZoneightTwoThreeFour | 2023/day1/src/main.rs:56 | part two reads "zoneight234" as 14 |
| Day1Examples.SevenPqrstSixteen | 2023/day1/src/main.rs:57 | part two reads "7pqrstsixteen" as 76: "six" is read inside "sixteen" |
| Day1Examples.EightwoOverlap | 2023/day1/src/main.rs:52 | part two reads "eightwo" as 82: both overlapping words are read |
| Day1Examples.SingleDigitLine | 2023/day1/src/main.rs:39-40 | any line that is a single decimal character gives 11 times its value, in either mode |
| Day1Examples.PartTwoExamples | 2023/day1/src/main.rs:107-141 | the part-two document gives 29, 83, 13, 24, 42, 14, 76 and the answer 281, with or without "zero" as a word |
| Day1Examples.StubFailsTests | 2023/day1/src/main.rs:118-140 | the body as written fails both tests: its list is not the expected one and its answer is not 281 |

## Left out

- `main` (2023/day1/src/main.rs:68-74): reading the input file, the panic on a missing file and the final print are I/O.
- The `println!` tracing in the extractor and the aggregator (lines 83, 88 and 98). It does not change any returned value.
- The unused `numbers` local (line 77). It is dead code.
- SolvePuzzle: does not model the `u32` overflow of the Rust sum. The model sums unbounded naturals; at most 99 per line, the Rust sum stays exact below about 43 million lines.
- Unicode: `lines()` and `chars()` are taken as giving a sequence of characters, and `is_digit(10)` as '0'..'9'.
- The value of a line with no digit is never stated by the source. The model gives such a line 0.
- Whether "zero" counts as a word is not settled by the source: the table holds it, the puzzle text does not. The model takes it as a parameter.
- The source's body and its doc comment disagree. The body is unfinished: it only traces what it finds and maps every line to 0. The model follows the doc comment and the tests, and models the body separately (see Findings).

## Findings

| source | as written | input that shows it | evidently intended | confidence | as-written member | corrected member |
|---|---|---|---|---|---|---|
| 2023/day1/src/main.rs:91 | every line is mapped to 0, so the list is all zeros and the answer is 0 | the seven-line document of the tests (lines 108-116): the list is [0, 0, 0, 0, 0, 0, 0] and the answer 0 | [29, 83, 13, 24, 42, 14, 76] and 281, as the tests at lines 118 and 140 expect | high; not executed | Day1Examples.StubFailsTests | Day1Examples.PartTwoExamples |
