/**
 What the detectors of a shifted answer look at, character by character: the
 runs of digits and of letters in a text, the numbers they stand for, lines alike
 but for case, and lines too long (services/translate_server.py:138-289).
 */
module Figures {
  import opened Wrappers
  import opened Text
  import opened NumberedLines
  import opened Alignment

  // ---- runs ----

  predicate Digit(c: char) { '0' <= c <= '9' }

  predicate Letter(c: char) { 'a' <= c <= 'z' || 'A' <= c <= 'Z' }

  /** The text has this run of digits at p, and it goes on no further either way. */
  predicate DigitsAt(t: string, p: nat, run: string) {
    && run != "" && p + |run| <= |t| && t[p..p + |run|] == run
    && (forall k :: 0 <= k < |run| ==> Digit(run[k]))
    && (p > 0 ==> !Digit(t[p - 1])) && (p + |run| < |t| ==> !Digit(t[p + |run|]))
  }

  predicate LettersAt(t: string, p: nat, run: string) {
    && run != "" && p + |run| <= |t| && t[p..p + |run|] == run
    && (forall k :: 0 <= k < |run| ==> Letter(run[k]))
    && (p > 0 ==> !Letter(t[p - 1])) && (p + |run| < |t| ==> !Letter(t[p + |run|]))
  }

  lemma DigitsFurther(t: string, n: nat, p: nat, run: string)
    requires n <= |t| && (n > 0 && n < |t| ==> Digit(t[n - 1]) != Digit(t[n]) || !Digit(t[n - 1]))
    ensures DigitsAt(t[n..], p, run) ==> DigitsAt(t, n + p, run)
    ensures DigitsAt(t, n + p, run) ==> DigitsAt(t[n..], p, run)
  {
    if n + p + |run| <= |t| {
      assert t[n..][p..p + |run|] == t[n + p..n + p + |run|];
      if run != "" && t[n + p..n + p + |run|] == run {
        assert t[n + p] == run[0];
      }
    }
  }

  /** The runs of digits found are all there are, each to its full length. */
  lemma {:induction false} DigitRunsAreAll(t: string, run: string)
    ensures run in DigitRuns(t) <==> exists p: nat :: DigitsAt(t, p, run)
    decreases |t|
  {
    hide DigitsAt;
    if t == "" {
      NoDigits(run);
    } else {
      var n := if Digits(t) > 0 then Digits(t) else 1;
      var rest := t[n..];
      DigitRunsAreAll(rest, run);
      FirstDigits(t, run);
      forall p: nat ensures DigitsAt(rest, p, run) <==> DigitsAt(t, n + p, run) {
        DigitsFurther(t, n, p, run);
      }
      if run in DigitRuns(t) {
        if run in DigitRuns(rest) {
          var p: nat :| DigitsAt(rest, p, run);
          assert DigitsAt(t, n + p, run);
        } else {
          assert DigitsAt(t, 0, run);
        }
      }
      if p: nat :| DigitsAt(t, p, run) {
        if p >= n {
          assert DigitsAt(rest, p - n, run);
        } else {
          DigitsBefore(t, p, run);
        }
      }
    }
  }

  lemma NoDigits(run: string)
    ensures forall p: nat :: !DigitsAt("", p, run)
  {
  }

  lemma FirstDigits(t: string, run: string)
    requires t != ""
    ensures Digits(t) > 0 ==> DigitsAt(t, 0, t[..Digits(t)]) && DigitRuns(t) == [t[..Digits(t)]] + DigitRuns(t[Digits(t)..])
    ensures Digits(t) == 0 ==> !Digit(t[0]) && DigitRuns(t) == DigitRuns(t[1..])
  {
  }

  /** A run that begins within the opening digits is all of them. */
  lemma DigitsBefore(t: string, p: nat, run: string)
    requires t != "" && DigitsAt(t, p, run) && p < (if Digits(t) > 0 then Digits(t) else 1)
    ensures Digits(t) > 0 && run == t[..Digits(t)]
  {
    var n := Digits(t);
    assert forall k :: 0 <= k < |run| ==> t[p + k] == run[k];
    assert Digit(t[p + 0]);
    assert p == 0 && |run| >= n;
  }

  lemma LettersFurther(t: string, n: nat, p: nat, run: string)
    requires n <= |t| && (n > 0 && n < |t| ==> Letter(t[n - 1]) != Letter(t[n]) || !Letter(t[n - 1]))
    ensures LettersAt(t[n..], p, run) ==> LettersAt(t, n + p, run)
    ensures LettersAt(t, n + p, run) ==> LettersAt(t[n..], p, run)
  {
    if n + p + |run| <= |t| {
      assert t[n..][p..p + |run|] == t[n + p..n + p + |run|];
      if run != "" && t[n + p..n + p + |run|] == run {
        assert t[n + p] == run[0];
      }
    }
  }

  lemma {:induction false} LettersCount(t: string)
    ensures forall k :: 0 <= k < Letters(t) ==> Letter(t[k])
    ensures Letters(t) < |t| ==> !Letter(t[Letters(t)])
  {
    if t != "" && IsLetter(t[0]) {
      LettersCount(t[1..]);
    }
  }

  /** And so are the runs of letters. */
  lemma {:induction false} WordsAreAll(t: string, run: string)
    ensures run in Words(t) <==> exists p: nat :: LettersAt(t, p, run)
    decreases |t|
  {
    hide LettersAt;
    if t == "" {
      NoLetters(run);
    } else {
      var n := if Letters(t) > 0 then Letters(t) else 1;
      var rest := t[n..];
      WordsAreAll(rest, run);
      FirstLetters(t, run);
      LettersCount(t);
      forall p: nat ensures LettersAt(rest, p, run) <==> LettersAt(t, n + p, run) {
        LettersFurther(t, n, p, run);
      }
      if run in Words(t) {
        if run in Words(rest) {
          var p: nat :| LettersAt(rest, p, run);
          assert LettersAt(t, n + p, run);
        } else {
          assert LettersAt(t, 0, run);
        }
      }
      if p: nat :| LettersAt(t, p, run) {
        if p >= n {
          assert LettersAt(rest, p - n, run);
        } else {
          LettersBefore(t, p, run);
        }
      }
    }
  }

  lemma NoLetters(run: string)
    ensures forall p: nat :: !LettersAt("", p, run)
  {
  }

  lemma FirstLetters(t: string, run: string)
    requires t != ""
    ensures Letters(t) > 0 ==> LettersAt(t, 0, t[..Letters(t)]) && Words(t) == [t[..Letters(t)]] + Words(t[Letters(t)..])
    ensures Letters(t) == 0 ==> !Letter(t[0]) && Words(t) == Words(t[1..])
  {
    LettersCount(t);
  }

  lemma LettersBefore(t: string, p: nat, run: string)
    requires t != "" && LettersAt(t, p, run) && p < (if Letters(t) > 0 then Letters(t) else 1)
    ensures Letters(t) > 0 && run == t[..Letters(t)]
  {
    LettersCount(t);
    var n := Letters(t);
    assert forall k :: 0 <= k < |run| ==> t[p + k] == run[k];
    assert Letter(t[p + 0]);
    assert p == 0 && |run| >= n;
  }

  // ---- numbers ----

  const UNITS := ["zero", "one", "two", "three", "four", "five", "six", "seven", "eight", "nine"]
  const TEENS := ["ten", "eleven", "twelve", "thirteen", "fourteen", "fifteen", "sixteen", "seventeen", "eighteen", "nineteen"]
  const TENS := ["twenty", "thirty", "forty", "fifty", "sixty", "seventy", "eighty", "ninety"]
  const MONTHS := ["january", "february", "march", "april", "may", "june",
                   "july", "august", "september", "october", "november", "december"]

  /** Numbers spelled out are the units, the teens and the tens by their place, a hundred, and the months by theirs. */
  lemma UnitsAre(n: nat)
    requires n < |UNITS|
    ensures UNITS[n] in NUMBER_WORDS && NUMBER_WORDS[UNITS[n]] == n
  {
    if n < 5 {
      assert UNITS[..5] == ["zero", "one", "two", "three", "four"];
      assert UNITS[n] == UNITS[..5][n];
    } else {
      assert UNITS[5..] == ["five", "six", "seven", "eight", "nine"];
      assert UNITS[n] == UNITS[5..][n - 5];
    }
  }

  lemma TeensAre(n: nat)
    requires n < |TEENS|
    ensures TEENS[n] in NUMBER_WORDS && NUMBER_WORDS[TEENS[n]] == n + 10
  {
  }

  lemma TensAre(n: nat)
    requires n < |TENS|
    ensures TENS[n] in NUMBER_WORDS && NUMBER_WORDS[TENS[n]] == 10 * (n + 2)
    ensures "hundred" in NUMBER_WORDS && NUMBER_WORDS["hundred"] == 100
  {
  }

  lemma MonthsAre(n: nat)
    requires n < |MONTHS|
    ensures MONTHS[n] in NUMBER_WORDS && NUMBER_WORDS[MONTHS[n]] == n + 1
  {
  }

  lemma NoOtherWords(word: string)
    requires word in NUMBER_WORDS
    ensures word in UNITS || word in TEENS || word in TENS || word in MONTHS || word == "hundred"
  {
  }

  lemma NoneEndsInS(word: string)
    requires word in NUMBER_WORDS
    ensures word != "" && word[|word| - 1] != 's'
  {
  }

  /** The word is one that names n, with any number of plural endings. */
  predicate NamesWith(word: string, n: nat, plural: nat) {
    && plural <= |word| && word[..|word| - plural] in NUMBER_WORDS && NUMBER_WORDS[word[..|word| - plural]] == n
    && forall k :: |word| - plural <= k < |word| ==> word[k] == 's'
  }

  lemma {:induction false} RstripSIs(word: string)
    ensures var n := |RstripS(word)|;
      && n <= |word| && RstripS(word) == word[..n]
      && (forall k :: n <= k < |word| ==> word[k] == 's')
      && (n > 0 ==> word[n - 1] != 's')
  {
    if word != "" && word[|word| - 1] == 's' {
      RstripSIs(word[..|word| - 1]);
    }
  }

  /** A word counts for the number it names, singular or plural, and for no other. */
  lemma WordCountsFor(word: string, n: nat)
    ensures WordValue(NUMBER_WORDS, word) == Some(n) <==> exists plural :: NamesWith(word, n, plural)
  {
    hide NUMBER_WORDS;
    RstripSIs(word);
    var m := |RstripS(word)|;
    assert word[..|word|] == word;
    if word in NUMBER_WORDS {
      NoneEndsInS(word);
      assert m == |word|;
      assert NUMBER_WORDS[word] == n ==> NamesWith(word, n, 0);
    }
    if word[..m] in NUMBER_WORDS {
      assert NUMBER_WORDS[word[..m]] == n ==> NamesWith(word, n, |word| - m);
    }
    if plural :| NamesWith(word, n, plural) {
      NoneEndsInS(word[..|word| - plural]);
      assert |word| - plural == m;
    }
  }

  /** Lower case is thirty-two further on, for the letters that have it, and nothing else changes. */
  lemma CasefoldIs(t: string)
    ensures |Casefold(t)| == |t|
    ensures forall k :: 0 <= k < |t| ==> Casefold(t)[k] as int == t[k] as int + (if 'A' <= t[k] <= 'Z' then 32 else 0)
  {
  }

  /** The text says the number: in digits standing by themselves, or in a word, of either case and number. */
  ghost predicate Says(t: string, n: nat) {
    || (exists p: nat, run :: DigitsAt(t, p, run) && SaysInDigits(run, n))
    || (exists p: nat, word :: LettersAt(Casefold(t), p, word) && SaysInAWord(word, n))
  }

  predicate SaysInDigits(run: string, n: nat) { AllDigits(run) && ReadDecimal(run) == n }

  ghost predicate SaysInAWord(word: string, n: nat) { exists plural :: NamesWith(word, n, plural) }

  lemma NumbersAreThoseSaid(t: string, n: nat)
    ensures n in NumbersIn(t) <==> Says(t, n)
  {
    hide DigitRuns, Words, Casefold, WordValue, DigitsAt, LettersAt, NamesWith, NUMBER_WORDS, ReadDecimal, SaysInAWord;
    if n in NumbersIn(t) {
      if run :| run in DigitRuns(t) && Value(run) == n {
        DigitRunsAreAll(t, run);
        var p: nat :| DigitsAt(t, p, run);
        assert AllDigits(run) by { RunIsDigits(t, run); }
        assert SaysInDigits(run, n);
      } else {
        var word :| word in Words(Casefold(t)) && WordValue(NUMBER_WORDS, word) == Some(n);
        WordsAreAll(Casefold(t), word);
        WordSays(word, n);
        var p: nat :| LettersAt(Casefold(t), p, word);
      }
    }
    if p: nat, run :| DigitsAt(t, p, run) && SaysInDigits(run, n) {
      DigitRunsAreAll(t, run);
      assert Value(run) == n;
    }
    if p: nat, word :| LettersAt(Casefold(t), p, word) && SaysInAWord(word, n) {
      WordsAreAll(Casefold(t), word);
      WordSays(word, n);
    }
  }

  lemma WordSays(word: string, n: nat)
    ensures WordValue(NUMBER_WORDS, word) == Some(n) <==> SaysInAWord(word, n)
  {
    hide WordValue, NamesWith, NUMBER_WORDS;
    WordCountsFor(word, n);
  }

  lemma RunIsDigits(t: string, run: string)
    requires run in DigitRuns(t)
    ensures AllDigits(run) && run != ""
  {
  }

  // ---- the three signs ----

  /** The same letters in the same places, whatever their case. */
  predicate Alike(a: string, b: string) {
    && |a| == |b|
    && forall k :: 0 <= k < |a| ==>
         || a[k] == b[k]
         || ('A' <= a[k] <= 'Z' && b[k] as int == a[k] as int + 32)
         || ('A' <= b[k] <= 'Z' && a[k] as int == b[k] as int + 32)
  }

  /** One line, whatever its case and the white space around it, for two cues that differ. */
  lemma RepeatedWhen(cues: seq<string>, out: seq<string>, i: int, j: int)
    requires |out| <= |cues|
    ensures RepeatAt(cues, out, i, j) <==>
      && 0 <= i < j < |out| && Strip(out[i]) != "" && Alike(Strip(out[i]), Strip(out[j])) && Strip(cues[i]) != Strip(cues[j])
  {
    hide Strip, Casefold;
    if 0 <= i < j < |out| {
      CasefoldIs(Strip(out[i]));
      CasefoldIs(Strip(out[j]));
      FoldedAlike(Strip(out[i]), Strip(out[j]));
    }
  }

  lemma FoldedAlike(a: string, b: string)
    ensures Casefold(a) == Casefold(b) <==> Alike(a, b)
  {
    CasefoldIs(a);
    CasefoldIs(b);
    if Alike(a, b) {
      assert forall k :: 0 <= k < |a| ==> Casefold(a)[k] as int == Casefold(b)[k] as int;
      assert forall k :: 0 <= k < |a| ==> Casefold(a)[k] == Casefold(b)[k];
    } else if |a| == |b| {
      var k :| 0 <= k < |a| && a[k] != b[k] && !('A' <= a[k] <= 'Z' && b[k] as int == a[k] as int + 32)
               && !('A' <= b[k] <= 'Z' && a[k] as int == b[k] as int + 32);
      assert Casefold(a)[k] as int != Casefold(b)[k] as int;
    }
  }

  /** More than twenty-four characters and 2.4 times its cue, blank cues apart. */
  lemma MergedWhen(cue: string, line: string)
    ensures TooLong(cue, line) <==> |Strip(cue)| > 0 && 5 * |Strip(line)| > 5 * 24 + 12 * |Strip(cue)|
  {
    hide Strip;
  }

  /** The line has a figure that the next cue says and this one does not, not even as part of a figure of its own. */
  ghost predicate HasNextFigure(cue: string, next: string, line: string) {
    exists p: nat, run :: DigitsAt(line, p, run) && IsNextFigure(cue, next, run)
  }

  ghost predicate IsNextFigure(cue: string, next: string, run: string) {
    && AllDigits(run) && Says(next, ReadDecimal(run)) && !Says(cue, ReadDecimal(run))
    && forall q: nat, whole :: DigitsAt(cue, q, whole) ==> !Inside(run, whole)
  }

  ghost predicate Inside(run: string, whole: string) {
    exists k: nat :: StandsAt(run, whole, k)
  }

  predicate StandsAt(run: string, whole: string, k: nat) { k + |run| <= |whole| && whole[k..k + |run|] == run }

  lemma BorrowedIs(cue: string, next: string, run: string)
    requires AllDigits(run)
    ensures IsBorrowed(cue, next, run) <==> IsNextFigure(cue, next, run)
  {
    hide NumbersIn, Says, DigitRuns, DigitsAt, ReadDecimal, Inside, Within;
    NumbersAreThoseSaid(cue, ReadDecimal(run));
    NumbersAreThoseSaid(next, ReadDecimal(run));
    forall whole ensures Within(run, whole) <==> Inside(run, whole) {
      WithinIs(run, whole);
    }
    forall whole ensures whole in DigitRuns(cue) <==> exists q: nat :: DigitsAt(cue, q, whole) {
      DigitRunsAreAll(cue, whole);
    }
  }

  lemma WithinIs(run: string, whole: string)
    ensures Within(run, whole) <==> Inside(run, whole)
  {
    forall k: nat ensures OccursAt(whole, run, k) <==> StandsAt(run, whole, k) {
    }
  }

  lemma BorrowedWhen(cues: seq<string>, out: seq<string>, i: int)
    ensures BorrowsAt(cues, out, i) <==>
      0 <= i < |out| - 1 && i < |cues| - 1 && HasNextFigure(cues[i], cues[i + 1], out[i])
  {
    hide IsBorrowed, DigitRuns, IsNextFigure, DigitsAt;
    if 0 <= i < |out| - 1 && i < |cues| - 1 {
      if run :| run in DigitRuns(out[i]) && IsBorrowed(cues[i], cues[i + 1], run) {
        RunIsDigits(out[i], run);
        BorrowedIs(cues[i], cues[i + 1], run);
        DigitRunsAreAll(out[i], run);
      }
      if p: nat, run :| DigitsAt(out[i], p, run) && IsNextFigure(cues[i], cues[i + 1], run) {
        DigitRunsAreAll(out[i], run);
        RunIsDigits(out[i], run);
        BorrowedIs(cues[i], cues[i + 1], run);
      }
    }
  }

  lemma NoneRepeatedWhen(cues: seq<string>, out: seq<string>)
    requires |out| <= |cues|
    ensures NoRepeat(cues, out) <==>
      forall i, j :: 0 <= i < j < |out| && Alike(Strip(out[i]), Strip(out[j])) ==>
        Strip(out[i]) == "" || Strip(cues[i]) == Strip(cues[j])
  {
    hide RepeatAt, Strip, Alike;
    forall i, j | 0 <= i < j < |out|
      ensures RepeatAt(cues, out, i, j) <==>
        Strip(out[i]) != "" && Alike(Strip(out[i]), Strip(out[j])) && Strip(cues[i]) != Strip(cues[j])
    {
      RepeatedWhen(cues, out, i, j);
    }
  }

  lemma NoneMergedWhen(cues: seq<string>, out: seq<string>)
    requires |out| <= |cues|
    ensures (forall i :: 0 <= i < |out| ==> !TooLong(cues[i], out[i])) <==>
      forall i :: 0 <= i < |out| && Strip(cues[i]) != "" ==> 5 * |Strip(out[i])| <= 120 + 12 * |Strip(cues[i])|
  {
    hide TooLong, Strip;
    forall i | 0 <= i < |out|
      ensures TooLong(cues[i], out[i]) <==> Strip(cues[i]) != "" && 5 * |Strip(out[i])| > 120 + 12 * |Strip(cues[i])|
    {
      MergedWhen(cues[i], out[i]);
    }
  }

  lemma NoneBorrowedWhen(cues: seq<string>, out: seq<string>)
    requires |out| <= |cues|
    ensures (forall i :: 0 <= i < |out| - 1 ==> !BorrowsAt(cues, out, i)) <==>
      forall i :: 0 <= i < |out| - 1 ==> !HasNextFigure(cues[i], cues[i + 1], out[i])
  {
    hide BorrowsAt, HasNextFigure;
    if i :| 0 <= i < |out| - 1 && BorrowsAt(cues, out, i) {
      BorrowedWhen(cues, out, i);
    }
    if i :| 0 <= i < |out| - 1 && HasNextFigure(cues[i], cues[i + 1], out[i]) {
      BorrowedWhen(cues, out, i);
    }
  }

  /** What it takes for lines to belong to their cues, character by character. */
  lemma BelongsWhen(cues: seq<string>, out: seq<string>)
    requires |out| <= |cues|
    ensures Belongs(cues, out) <==>
      && (forall i, j :: 0 <= i < j < |out| && Alike(Strip(out[i]), Strip(out[j])) ==>
            Strip(out[i]) == "" || Strip(cues[i]) == Strip(cues[j]))
      && (forall i :: 0 <= i < |out| && Strip(cues[i]) != "" ==> 5 * |Strip(out[i])| <= 120 + 12 * |Strip(cues[i])|)
      && (forall i :: 0 <= i < |out| - 1 ==> !HasNextFigure(cues[i], cues[i + 1], out[i]))
  {
    hide NoRepeat, TooLong, BorrowsAt, Strip, Alike, HasNextFigure;
    NoneRepeatedWhen(cues, out);
    NoneMergedWhen(cues, out);
    NoneBorrowedWhen(cues, out);
  }

  // ---- a slot in the prompt ----

  /** A slot is printed to the nearest tenth of a second, and to the even one from half-way. */
  lemma SlotIsRounded(slot: real)
    requires slot > 0.0
    ensures var n := Tenths(slot);
      && -1.0 <= 2.0 * (10.0 * slot - n as real) <= 1.0
      && (2.0 * (10.0 * slot - n as real) in {-1.0, 1.0} ==> n % 2 == 0)
  {
    Rounded(slot * 10.0, (slot * 10.0).Floor, Tenths(slot));
  }

  lemma Rounded(x: real, whole: int, n: int)
    requires whole as real <= x < whole as real + 1.0
    requires n == if x - whole as real < 0.5 || (x - whole as real == 0.5 && whole % 2 == 0) then whole else whole + 1
    ensures -1.0 <= 2.0 * (x - n as real) <= 1.0
    ensures 2.0 * (x - n as real) in {-1.0, 1.0} ==> n % 2 == 0
  {
    var part := x - whole as real;
    assert x - n as real == if n == whole then part else part - 1.0;
  }

  lemma SlotIsPrinted(slot: real)
    requires slot > 0.0
    ensures PrintSlot(slot) == Decimal(Tenths(slot) / 10) + "." + ["0123456789"[Tenths(slot) % 10]]
  {
    hide Decimal, Tenths;
    DigitsInOrder(Tenths(slot) % 10);
  }

  lemma DigitsInOrder(n: nat)
    requires n < 10
    ensures DigitOf(n) == "0123456789"[n]
  {
  }
}
