/**
 Whether a batch's lines belong to its cues: what a shift of the lines leaves
 behind, stated of the whole batch (services/translate_server.py:138-289).
 */
module Alignment {
  import opened Wrappers
  import opened Text

  const MERGE_FLOOR := 24
  // MERGE_RATIO is 2.4, kept in tenths.
  const MERGE_RATIO_TENTHS := 24
  const CONTEXT_LINES := 3

  // `casefold` of ASCII.
  function FoldChar(c: char): char { if 'A' <= c <= 'Z' then c - 'A' + 'a' else c }

  function Casefold(t: string): (r: string)
    ensures |r| == |t|
  {
    seq(|t|, k requires 0 <= k < |t| => FoldChar(t[k]))
  }

  function Key(line: string): string { Casefold(Strip(line)) }

  // ---- a line repeated ----

  /** Lines i and j are one line, not blank, for two cues that are not. */
  predicate RepeatAt(cues: seq<string>, out: seq<string>, i: int, j: int)
    requires |out| <= |cues|
  {
    && 0 <= i < j < |out|
    && Key(out[i]) == Key(out[j]) != ""
    && Strip(cues[i]) != Strip(cues[j])
  }

  predicate NoRepeat(cues: seq<string>, out: seq<string>)
    requires |out| <= |cues|
  {
    forall i, j :: 0 <= i < j < |out| ==> !RepeatAt(cues, out, i, j)
  }

  // ---- two cues joined ----

  predicate TooLong(cue: string, line: string) {
    Strip(cue) != "" && 10 * |Strip(line)| > 10 * MERGE_FLOOR + MERGE_RATIO_TENTHS * |Strip(cue)|
  }

  // ---- a figure of the next cue ----

  /** Every run of digits in the text, in order. */
  function DigitRuns(t: string): (r: seq<string>)
    ensures forall k :: 0 <= k < |r| ==> r[k] != "" && AllDigits(r[k])
    decreases |t|
  {
    if t == "" then []
    else if Digits(t) > 0 then [t[..Digits(t)]] + DigitRuns(t[Digits(t)..])
    else DigitRuns(t[1..])
  }

  predicate IsLetter(c: char) { 'a' <= c <= 'z' || 'A' <= c <= 'Z' }

  function Letters(t: string): (n: nat)
    ensures n <= |t|
  {
    if t == "" || !IsLetter(t[0]) then 0 else 1 + Letters(t[1..])
  }

  /** Every run of letters in the text, in order. */
  function Words(t: string): seq<string>
    decreases |t|
  {
    if t == "" then []
    else if Letters(t) > 0 then [t[..Letters(t)]] + Words(t[Letters(t)..])
    else Words(t[1..])
  }

  const NUMBER_WORDS: map<string, nat> := map[
    "zero" := 0, "one" := 1, "two" := 2, "three" := 3, "four" := 4, "five" := 5,
    "six" := 6, "seven" := 7, "eight" := 8, "nine" := 9, "ten" := 10, "eleven" := 11,
    "twelve" := 12, "thirteen" := 13, "fourteen" := 14, "fifteen" := 15,
    "sixteen" := 16, "seventeen" := 17, "eighteen" := 18, "nineteen" := 19,
    "twenty" := 20, "thirty" := 30, "forty" := 40, "fifty" := 50, "sixty" := 60,
    "seventy" := 70, "eighty" := 80, "ninety" := 90, "hundred" := 100,
    "january" := 1, "february" := 2, "march" := 3, "april" := 4, "may" := 5, "june" := 6,
    "july" := 7, "august" := 8, "september" := 9, "october" := 10, "november" := 11,
    "december" := 12]

  function RstripS(t: string): string
  {
    if t == "" || t[|t| - 1] != 's' then t else RstripS(t[..|t| - 1])
  }

  // A number found as 0 is looked up again without its plural, as Python's `or` has it.
  function WordValue(words: map<string, nat>, word: string): Option<nat> {
    if word in words && words[word] != 0 then Some(words[word])
    else if RstripS(word) in words then Some(words[RstripS(word)])
    else None
  }

  /** Every number a text carries, as a digit or as a word. */
  function NumbersIn(t: string): set<nat> {
    (set run | run in DigitRuns(t) :: Value(run)) +
    (set word | word in Words(Casefold(t)) && WordValue(NUMBER_WORDS, word).Some? :: WordValue(NUMBER_WORDS, word).value)
  }

  function Value(run: string): nat { if AllDigits(run) then ReadDecimal(run) else 0 }

  predicate Within(part: string, whole: string) {
    exists k: nat :: k <= |whole| && OccursAt(whole, part, k)
  }

  /** A run of digits in a line is the next cue's: its number is not this cue's, is the next one's, and is no part of a figure of this cue. */
  predicate IsBorrowed(cue: string, next: string, run: string) {
    && Value(run) !in NumbersIn(cue) && Value(run) in NumbersIn(next)
    && forall whole :: whole in DigitRuns(cue) ==> !Within(run, whole)
  }

  /** Line i carries a figure of the cue after it. */
  predicate BorrowsAt(cues: seq<string>, out: seq<string>, i: int) {
    && 0 <= i < |out| - 1 && i < |cues| - 1
    && exists run :: run in DigitRuns(out[i]) && IsBorrowed(cues[i], cues[i + 1], run)
  }

  // ---- all three ----

  /** No sign of a shift: no line repeated, none twice too long, none with the next cue's figures. */
  predicate Belongs(cues: seq<string>, out: seq<string>)
    requires |out| <= |cues|
  {
    && NoRepeat(cues, out)
    && (forall i :: 0 <= i < |out| ==> !TooLong(cues[i], out[i]))
    && (forall i :: 0 <= i < |out| - 1 ==> !BorrowsAt(cues, out, i))
  }

  // ---- the one-pass check ----

  /** What the one pass remembers of the first n lines: where each line that is not blank was first seen. */
  ghost predicate FirstSeen(out: seq<string>, n: nat, seen: map<string, nat>)
    requires n <= |out|
  {
    && (forall key :: key in seen ==>
          seen[key] < n && key != "" && Key(out[seen[key]]) == key && forall i :: 0 <= i < seen[key] ==> Key(out[i]) != key)
    && (forall i :: 0 <= i < n && Key(out[i]) != "" ==> Key(out[i]) in seen)
  }

  /** While nothing has been repeated among the first n lines, the next is a repeat of some line exactly when it is one of the first line like it. */
  lemma FirstIsEnough(cues: seq<string>, out: seq<string>, n: nat, seen: map<string, nat>)
    requires n < |out| <= |cues| && FirstSeen(out, n, seen)
    requires forall i, j :: 0 <= i < j < n ==> !RepeatAt(cues, out, i, j)
    ensures (exists i :: RepeatAt(cues, out, i, n)) <==>
      Key(out[n]) in seen && Strip(cues[seen[Key(out[n])]]) != Strip(cues[n])
  {
    if i :| RepeatAt(cues, out, i, n) {
      var first := seen[Key(out[n])];
      assert Key(out[i]) == Key(out[n]);
      if first < i {
        assert !RepeatAt(cues, out, first, i);
      }
    }
    if Key(out[n]) in seen && Strip(cues[seen[Key(out[n])]]) != Strip(cues[n]) {
      assert RepeatAt(cues, out, seen[Key(out[n])], n);
    }
  }

  lemma SeenOneMore(out: seq<string>, n: nat, seen: map<string, nat>)
    requires n < |out| && FirstSeen(out, n, seen)
    ensures FirstSeen(out, n + 1, if Key(out[n]) == "" || Key(out[n]) in seen then seen else seen[Key(out[n]) := n])
  {
  }
}
