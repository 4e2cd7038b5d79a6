/** A batch answered line for line as it was put comes back cue for cue. */
module RoundTrip {
  import opened Wrappers
  import opened Text
  import opened NumberedLines

  /** A cue that survives being printed: on one line, not blank, with no reasoning tag, and, with no budget before it, not opening with one. */
  ghost predicate Plain(cue: string, budgeted: bool) {
    && OneLine(cue) && Strip(cue) != ""
    && (forall p: nat :: !OccursAt(cue, OPEN_THINK, p))
    && (!budgeted ==> AfterBudget(Lstrip(cue)).None?)
  }

  ghost predicate PlainCues(cues: seq<string>, slots: seq<real>) {
    forall i :: 0 <= i < |cues| ==> Plain(cues[i], HasSlot(slots, i))
  }

  // ---- one line ----

  /** What the parser's group holds of a line: the text after the number, from its first character that is not white space. */
  function Group(cue: string, slots: seq<real>, i: nat): string { Lstrip(Budgeted(cue, slots, i)) }

  lemma BudgetedIsOneLine(cue: string, slots: seq<real>, i: nat)
    requires Plain(cue, HasSlot(slots, i))
    ensures OneLine(Budgeted(cue, slots, i)) && Lstrip(Budgeted(cue, slots, i)) != ""
  {
    BlankOrNot(cue);
    if HasSlot(slots, i) {
      var d := Decimal(Tenths(slots[i]) / 10);
      assert forall k :: 0 <= k < |d| ==> IsDigit(d[k]);
      var b := Budgeted(cue, slots, i);
      assert b[0] == '[';
    }
  }

  lemma DecimalStaysAtFront(d: string, rest: string)
    requires d != "" && AllDigits(d)
    ensures Lstrip(d + rest) == d + rest
  {
    assert (d + rest)[0] == d[0];
  }

  lemma SpaceThen(t: string)
    ensures Lstrip(" " + t) == Lstrip(t)
  {
    assert (" " + t)[1..] == t;
  }

  lemma MatchOfALine(i: nat, x: string, tail: string)
    requires OneLine(x) && Lstrip(x) != "" && (tail != "" ==> tail[0] == '\n')
    ensures MatchHere(Decimal(i + 1) + ". " + x + tail)
         == Some(Found(Decimal(i + 1), Lstrip(x), if tail == "" then "" else tail[1..]))
  {
    hide Decimal, Lstrip, Digits, LineLen, OneLine, AllDigits;
    var d := Decimal(i + 1);
    var t := d + ". " + x + tail;
    assert t == d + (". " + x + tail);
    DecimalStaysAtFront(d, ". " + x + tail);
    DigitsOfARun(d, ". " + x + tail);
    assert t[|d|] == '.' && t[..|d|] == d;
    var after := t[|d| + 1..];
    assert after == " " + (x + tail);
    SpaceThen(x + tail);
    LstripOfMore(x, tail);
    LstripKeepsLines(x);
    var text := Lstrip(x) + tail;
    LineLenOfALine(Lstrip(x), tail);
    assert text[..|Lstrip(x)|] == Lstrip(x);
    assert NextLine(text) == if tail == "" then "" else tail[1..];
  }

  /** The first line of what is left is found, and the rest of it is what is left after. */
  lemma OneLineIsFound(cues: seq<string>, slots: seq<real>, i: nat)
    requires i < |cues| && Plain(cues[i], HasSlot(slots, i))
    ensures FindAll(LinesFrom(cues, slots, i))
         == [Found(Decimal(i + 1), Group(cues[i], slots, i), LinesFrom(cues, slots, i + 1))] + FindAll(LinesFrom(cues, slots, i + 1))
  {
    hide MatchHere, Budgeted, Plain, Decimal, Lstrip, OneLine;
    var x := Budgeted(cues[i], slots, i);
    BudgetedIsOneLine(cues[i], slots, i);
    var tail := if i + 1 == |cues| then "" else "\n" + LinesFrom(cues, slots, i + 1);
    MatchOfALine(i, x, tail);
    assert LinesFrom(cues, slots, i) == Decimal(i + 1) + ". " + x + tail;
    assert i + 1 < |cues| ==> tail[1..] == LinesFrom(cues, slots, i + 1);
  }

  /** Every printed line is found, with its number and its text. */
  lemma {:induction false} LinesAreFound(cues: seq<string>, slots: seq<real>, i: nat)
    requires i <= |cues| && PlainCues(cues, slots)
    ensures var found := FindAll(LinesFrom(cues, slots, i));
      && |found| == |cues| - i
      && forall k :: 0 <= k < |found| ==>
           found[k].number == Decimal(i + k + 1) && found[k].text == Group(cues[i + k], slots, i + k)
    decreases |cues| - i
  {
    hide Plain, Decimal, Group, LinesFrom, FindAll;
    if i == |cues| {
      NoLinesAreFound(cues, slots);
    } else {
      OneLineIsFound(cues, slots, i);
      LinesAreFound(cues, slots, i + 1);
      var found, rest := FindAll(LinesFrom(cues, slots, i)), FindAll(LinesFrom(cues, slots, i + 1));
      forall k | 0 <= k < |found|
        ensures found[k].number == Decimal(i + k + 1) && found[k].text == Group(cues[i + k], slots, i + k)
      {
        assert k > 0 ==> found[k] == rest[k - 1];
      }
    }
  }

  lemma NoLinesAreFound(cues: seq<string>, slots: seq<real>)
    ensures FindAll(LinesFrom(cues, slots, |cues|)) == []
  {
  }

  // ---- the budget ----

  lemma BudgetIsDropped(cue: string, slots: seq<real>, i: nat)
    requires Plain(cue, HasSlot(slots, i))
    ensures StripBudget(Group(cue, slots, i)) == Strip(cue)
  {
    if HasSlot(slots, i) {
      BudgetOfASlot(cue, slots[i]);
      LstripTwice(cue);
    } else {
      LstripTwice(cue);
    }
  }

  lemma UnitOfASlot(cue: string)
    ensures AfterUnit("s] " + cue) == Some(Lstrip(cue))
  {
    var unit := "s] " + cue;
    assert unit[1..] == "] " + cue;
    assert unit[1..][1..] == " " + cue;
    SpaceThen(cue);
  }

  lemma FractionOfASlot(e: char, cue: string)
    requires IsDigit(e)
    ensures AfterFraction("." + [e] + "s] " + cue) == "s] " + cue
  {
    var unit := "s] " + cue;
    var fraction := "." + [e] + "s] " + cue;
    assert fraction[1..] == [e] + unit;
    DigitsOfARun([e], unit);
    assert fraction[2..] == unit;
  }

  lemma BudgetOfDigits(d: string, e: char, cue: string)
    requires d != "" && AllDigits(d) && IsDigit(e)
    ensures var line := "[" + d + "." + [e] + "s] " + cue;
      Lstrip(line) == line && AfterBudget(line) == Some(Lstrip(cue))
  {
    hide AfterFraction, AfterUnit;
    var line := "[" + d + "." + [e] + "s] " + cue;
    var fraction := "." + [e] + "s] " + cue;
    assert line[0] == '[';
    assert line[1..] == d + fraction;
    DecimalStaysAtFront(d, fraction);
    DigitsOfARun(d, fraction);
    assert (d + fraction)[|d|..] == fraction;
    FractionOfASlot(e, cue);
    UnitOfASlot(cue);
  }

  lemma BudgetOfASlot(cue: string, slot: real)
    requires slot > 0.0
    ensures var line := "[" + PrintSlot(slot) + "s] " + cue;
      Lstrip(line) == line && AfterBudget(line) == Some(Lstrip(cue))
  {
    hide Lstrip, AfterBudget, Decimal, Tenths, DigitOf;
    var d, e := Decimal(Tenths(slot) / 10), DigitOf(Tenths(slot) % 10);
    BudgetOfDigits(d, e, cue);
    assert "[" + PrintSlot(slot) + "s] " + cue == "[" + d + "." + [e] + "s] " + cue;
  }

  // ---- no reasoning tag ----

  /** The characters of "<think>", none of which a number, a budget or a line break has at the front. */
  lemma TagIs(t: string, p: nat)
    ensures OccursAt(t, OPEN_THINK, p) ==> p + 7 <= |t| && t[p] == '<' && forall k :: p <= k < p + 7 ==> t[k] in OPEN_THINK
  {
    if OccursAt(t, OPEN_THINK, p) {
      assert t[p..p + 7][0] == t[p];
      forall k | p <= k < p + 7 ensures t[k] in OPEN_THINK {
        assert t[p..p + 7][k - p] == t[k];
      }
    }
  }

  lemma TagInMore(a: string, b: string, p: nat)
    requires OccursAt(a + b, OPEN_THINK, p) && p >= |a|
    ensures OccursAt(b, OPEN_THINK, p - |a|)
  {
    assert (a + b)[p..p + 7] == b[p - |a|..p - |a| + 7];
  }

  lemma TagInFront(a: string, b: string, p: nat)
    requires OccursAt(a + b, OPEN_THINK, p) && p + 7 <= |a|
    ensures OccursAt(a, OPEN_THINK, p)
  {
    assert (a + b)[p..p + 7] == a[p..p + 7];
  }

  /** What stands before the cue in its line. */
  function Front(slots: seq<real>, i: nat): string {
    Decimal(i + 1) + ". " + (if HasSlot(slots, i) then "[" + PrintSlot(slots[i]) + "s] " else "")
  }

  lemma LineIsFrontAndCue(cues: seq<string>, slots: seq<real>, i: nat)
    requires i < |cues|
    ensures Line(cues, slots, i) == Front(slots, i) + cues[i]
  {
    hide Decimal, PrintSlot;
  }

  lemma FrontHasNoTag(slots: seq<real>, i: nat)
    ensures '<' !in Front(slots, i)
  {
    hide Decimal, Tenths, DigitOf;
    assert '<' !in Decimal(i + 1);
    if HasSlot(slots, i) {
      assert '<' !in Decimal(Tenths(slots[i]) / 10);
      assert '<' != DigitOf(Tenths(slots[i]) % 10);
    }
  }

  lemma NoTagInALine(cues: seq<string>, slots: seq<real>, i: nat, p: nat)
    requires i < |cues| && Plain(cues[i], HasSlot(slots, i))
    ensures !OccursAt(Line(cues, slots, i), OPEN_THINK, p)
  {
    hide Line, Front, OccursAt, Strip, OneLine, AfterBudget;
    var front, cue := Front(slots, i), cues[i];
    LineIsFrontAndCue(cues, slots, i);
    TagIs(front + cue, p);
    FrontHasNoTag(slots, i);
    if OccursAt(front + cue, OPEN_THINK, p) && p >= |front| {
      TagInMore(front, cue, p);
    }
  }

  /** No tag runs across a line break. */
  lemma TagOnOneLine(line: string, rest: string, p: nat)
    requires OccursAt(line + "\n" + rest, OPEN_THINK, p)
    ensures OccursAt(line, OPEN_THINK, p) || (p > |line| && OccursAt(rest, OPEN_THINK, p - |line| - 1))
  {
    hide OccursAt;
    var both := line + "\n" + rest;
    TagIs(both, p);
    assert both == line + ("\n" + rest) && both[|line|] == '\n' && '\n' !in OPEN_THINK;
    if p + 7 <= |line| {
      TagInFront(line, "\n" + rest, p);
    } else {
      TagInMore(line + "\n", rest, p);
    }
  }

  lemma {:induction false} NoTagInTheBody(cues: seq<string>, slots: seq<real>, i: nat, p: nat)
    requires i <= |cues| && PlainCues(cues, slots)
    ensures !OccursAt(LinesFrom(cues, slots, i), OPEN_THINK, p)
    decreases |cues| - i
  {
    hide Line, OccursAt, Plain;
    var body := LinesFrom(cues, slots, i);
    if i == |cues| {
      TagIs("", p);
    } else {
      NoTagInALine(cues, slots, i, p);
      if i + 1 < |cues| && OccursAt(body, OPEN_THINK, p) {
        var line, rest := Line(cues, slots, i), LinesFrom(cues, slots, i + 1);
        assert body == line + "\n" + rest;
        TagOnOneLine(line, rest, p);
        if p > |line| {
          NoTagInTheBody(cues, slots, i + 1, p - |line| - 1);
        }
      } else if i + 1 == |cues| {
        assert body == Line(cues, slots, i);
      }
    }
  }

  // ---- the whole batch ----

  lemma NumberedNone()
    ensures Numbered([]) == map[]
  {
  }

  lemma NumberedLast(found: seq<Found>)
    requires found != [] && forall k :: 0 <= k < |found| ==> AllDigits(found[k].number)
    ensures var last := found[|found| - 1];
      Numbered(found) == Numbered(found[..|found| - 1])[ReadDecimal(last.number) := StripBudget(last.text)]
  {
  }

  lemma OneToNext(n: nat)
    ensures OneTo(n + 1) == OneTo(n) + {n + 1}
  {
  }

  /** Numbers 1 to n, each once, are a map of that many keys. */
  lemma {:induction false} NumberedInOrder(found: seq<Found>)
    requires forall k :: 0 <= k < |found| ==> AllDigits(found[k].number) && ReadDecimal(found[k].number) == k + 1
    ensures Numbered(found).Keys == OneTo(|found|)
    ensures forall k :: 0 <= k < |found| ==> Numbered(found)[k + 1] == StripBudget(found[k].text)
  {
    hide *;
    if found == [] {
      NumberedNone();
    } else {
      var n := |found| - 1;
      var fewer := found[..n];
      NumberedInOrder(fewer);
      NumberedLast(found);
      OneToNext(n);
      forall k | 0 <= k < |found| ensures Numbered(found)[k + 1] == StripBudget(found[k].text) {
        if k < n {
          assert fewer[k] == found[k];
          assert k + 1 in Numbered(fewer).Keys;
        }
      }
    }
  }

  lemma NothingRemoved(cues: seq<string>, slots: seq<real>)
    requires PlainCues(cues, slots)
    ensures RemoveThink(Body(cues, slots)) == Body(cues, slots)
  {
    hide PlainCues, LinesFrom, OccursAt;
    var found := FindTag(Body(cues, slots), OPEN_THINK, 0);
    if found.Some? {
      NoTagInTheBody(cues, slots, 0, found.value);
    }
  }

  lemma FoundInOrder(cues: seq<string>, slots: seq<real>)
    requires PlainCues(cues, slots)
    ensures var found := FindAll(Body(cues, slots));
      && |found| == |cues|
      && forall k :: 0 <= k < |found| ==>
           AllDigits(found[k].number) && ReadDecimal(found[k].number) == k + 1 && found[k].text == Group(cues[k], slots, k)
  {
    hide PlainCues, LinesFrom, FindAll, Group, Decimal, ReadDecimal;
    LinesAreFound(cues, slots, 0);
    var found := FindAll(Body(cues, slots));
    forall k | 0 <= k < |found| ensures AllDigits(found[k].number) && ReadDecimal(found[k].number) == k + 1 {
      DecimalReadsBack(k + 1);
    }
  }

  lemma ReadBack(cues: seq<string>, slots: seq<real>)
    requires PlainCues(cues, slots)
    ensures var parsed := Parsed(Body(cues, slots));
      && parsed.Keys == OneTo(|cues|)
      && forall k :: 0 <= k < |cues| ==> parsed[k + 1] == Strip(cues[k])
  {
    hide Plain, LinesFrom, FindAll, Group, Decimal, ReadDecimal, Numbered, RemoveThink, StripBudget, Strip, OneTo;
    NothingRemoved(cues, slots);
    FoundInOrder(cues, slots);
    NumberedInOrder(FindAll(Body(cues, slots)));
    forall k | 0 <= k < |cues| ensures Parsed(Body(cues, slots))[k + 1] == Strip(cues[k]) {
      assert Plain(cues[k], HasSlot(slots, k));
      BudgetIsDropped(cues[k], slots, k);
    }
  }

  /** The cues without the white space around them. */
  function Stripped(cues: seq<string>): seq<string> { seq(|cues|, i requires 0 <= i < |cues| => Strip(cues[i])) }

  /**
   Round trip. For every list of plain cues, of any length and with any slots,
   reading back what was printed gives exactly the cues, stripped.
   */
  lemma PrintedCuesReadBack(cues: seq<string>, slots: seq<real>)
    requires PlainCues(cues, slots)
    ensures AlignedOrNone(Parsed(Body(cues, slots)), |cues|) == Some(Stripped(cues))
  {
    hide PlainCues, Parsed, Body, Strip, AlignedOrNone, OneTo;
    ReadBack(cues, slots);
    AlignedIffExactCover(Parsed(Body(cues, slots)), |cues|);
    assert AlignedOrNone(Parsed(Body(cues, slots)), |cues|).value == Stripped(cues);
  }
}
