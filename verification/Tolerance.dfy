/**
 What a model puts around and into the lines it was asked for is read through: a
 lead-in, blank lines, reasoning, either mark after a number, a budget copied
 back in any of its spellings, a line given twice
 (services/translate_server.py:63-122).
 */
module Tolerance {
  import opened Wrappers
  import opened Text
  import opened NumberedLines
  import opened RoundTrip

  // A line that is not numbered, or a numbered one with the white space before
  // its number and between its mark and its text.
  datatype Piece =
    | Lead(text: string)
    | Numbering(indent: string, digits: string, mark: char, gap: string, text: string)

  /** What Python takes for white space, of the characters up to '~'. */
  predicate White(c: char) { c == ' ' || 9 <= c as int <= 13 || 28 <= c as int <= 31 }

  predicate Blank(t: string) { forall k :: 0 <= k < |t| ==> White(t[k]) }

  predicate Numeric(t: string) { forall k :: 0 <= k < |t| ==> '0' <= t[k] <= '9' }

  /** The first character that is not white space, and no digit. */
  predicate Opens(t: string, k: int)
    requires 0 <= k < |t|
  {
    Blank(t[..k]) && !White(t[k]) && !('0' <= t[k] <= '9')
  }

  ghost predicate Fits(piece: Piece) {
    match piece
    case Lead(text) => OneLine(text) && (Blank(text) || exists k :: 0 <= k < |text| && Opens(text, k))
    case Numbering(indent, digits, mark, gap, text) =>
      && Blank(indent) && digits != "" && Numeric(digits)
      && (mark == '.' || mark == ')') && Blank(gap)
      && OneLine(text) && text != "" && !White(text[0])
  }

  function Spelled(piece: Piece): string {
    match piece
    case Lead(text) => text
    case Numbering(indent, digits, mark, gap, text) => indent + digits + [mark] + gap + text
  }

  /** The pieces, each on its own line. */
  function Written(pieces: seq<Piece>): string {
    if pieces == [] then ""
    else Spelled(pieces[0]) + (if |pieces| == 1 then "" else "\n" + Written(pieces[1..]))
  }

  // ---- white space ----

  lemma {:induction false} LstripBlank(blank: string, rest: string)
    requires Blank(blank)
    ensures Lstrip(blank + rest) == Lstrip(rest)
  {
    if blank == "" {
      assert blank + rest == rest;
    } else {
      assert (blank + rest)[1..] == blank[1..] + rest;
      LstripBlank(blank[1..], rest);
    }
  }

  lemma {:induction false} RstripSplits(t: string)
    ensures Rstrip(t) <= t && Blank(t[|Rstrip(t)|..]) && (Rstrip(t) != "" ==> !White(Rstrip(t)[|Rstrip(t)| - 1]))
  {
    if t != "" && IsSpace(t[|t| - 1]) {
      var shorter := t[..|t| - 1];
      RstripSplits(shorter);
      assert t[|Rstrip(t)|..] == shorter[|Rstrip(t)|..] + [t[|t| - 1]];
    }
  }

  /** Stripping takes the white space at both ends, all of it, and nothing else. */
  lemma StripIs(t: string)
    ensures exists p, q :: 0 <= p <= q <= |t| && Strips(t, p, q, Strip(t))
  {
    LstripSplits(t);
    var p := |t| - |Lstrip(t)|;
    RstripSplits(Lstrip(t));
    var q := p + |Strip(t)|;
    assert t[q..] == t[p..][|Strip(t)|..];
    assert t[p..q] == t[p..][..|Strip(t)|];
    if Strip(t) != "" {
      RstripKeepsFront(Lstrip(t));
    }
    assert Strips(t, p, q, Strip(t));
  }

  predicate Strips(t: string, p: int, q: int, rest: string)
    requires 0 <= p <= q <= |t|
  {
    && Blank(t[..p]) && t[p..q] == rest && Blank(t[q..])
    && (rest != "" ==> !White(rest[0]) && !White(rest[|rest| - 1]))
  }

  lemma OpensIsLeft(t: string, rest: string)
    requires t != "" && !White(t[0])
    ensures Lstrip(t + rest) == t + rest && Lstrip(t) == t
  {
    assert (t + rest)[0] == t[0];
  }

  // ---- one piece ----

  lemma MatchOf(t: string, digits: string, mark: char, after: string)
    requires Lstrip(t) == digits + ([mark] + after) && digits != "" && AllDigits(digits) && mark in ".)"
    requires Lstrip(after) != ""
    ensures MatchHere(t) == Some(Found(digits, Lstrip(after)[..LineLen(Lstrip(after))], NextLine(Lstrip(after))))
  {
    hide Lstrip, LineLen, NextLine;
    var number := Lstrip(t);
    DigitsOfARun(digits, [mark] + after);
    assert number[|digits|] == mark && number[..|digits|] == digits && number[|digits| + 1..] == after;
  }

  lemma LineThenTail(line: string, tail: string)
    requires OneLine(line) && (tail != "" ==> tail[0] == '\n')
    ensures var t := line + tail;
      t[..LineLen(t)] == line && NextLine(t) == if tail == "" then "" else tail[1..]
  {
    LineLenOfALine(line, tail);
  }

  lemma NumberingIsMatched(piece: Piece, tail: string)
    requires piece.Numbering? && Fits(piece) && (tail != "" ==> tail[0] == '\n')
    ensures AllDigits(piece.digits)
    ensures MatchHere(Spelled(piece) + tail)
         == Some(Found(piece.digits, piece.text, if tail == "" then "" else tail[1..]))
  {
    hide Lstrip, LineLen, OneLine, MatchHere, NextLine, Blank;
    var Numbering(indent, digits, mark, gap, text) := piece;
    var after := gap + (text + tail);
    var number := digits + ([mark] + after);
    SpelledThen(piece, tail);
    LstripBlank(indent, number);
    DecimalStaysAtFront(digits, [mark] + after);
    LstripBlank(gap, text + tail);
    OpensIsLeft(text, tail);
    MatchOf(Spelled(piece) + tail, digits, mark, after);
    LineThenTail(text, tail);
  }

  lemma SpelledThen(piece: Piece, tail: string)
    requires piece.Numbering?
    ensures Spelled(piece) + tail == piece.indent + (piece.digits + ([piece.mark] + (piece.gap + (piece.text + tail))))
  {
  }

  lemma MatchAgain(t: string, t': string)
    requires Lstrip(t) == Lstrip(t')
    ensures MatchHere(t) == MatchHere(t')
  {
  }

  lemma FindAllIs(t: string)
    ensures FindAll("") == []
    ensures t != "" && MatchHere(t).None? ==> FindAll(t) == FindAll(NextLine(t))
    ensures t != "" && MatchHere(t).Some? ==> FindAll(t) == [MatchHere(t).value] + FindAll(MatchHere(t).value.rest)
  {
  }

  lemma NotNumbered(t: string, k: nat)
    requires k < |t| && Opens(t, k)
    ensures MatchHere(t) == None && t != ""
  {
    assert t == t[..k] + t[k..];
    LstripBlank(t[..k], t[k..]);
    assert t[k..][0] == t[k];
  }

  lemma NothingHere()
    ensures MatchHere("") == None
  {
  }

  /** A lead-in, wherever it stands, is as if it had not been written. */
  lemma LeadIsSkipped(lead: string, rest: string)
    requires Fits(Lead(lead))
    ensures FindAll(lead + "\n" + rest) == FindAll(rest)
    ensures FindAll(lead) == []
  {
    hide FindAll, MatchHere, Lstrip, LineLen;
    var t := lead + "\n" + rest;
    assert t == lead + ("\n" + rest);
    LineLenOfALine(lead, "\n" + rest);
    assert NextLine(t) == rest;
    assert lead + "" == lead;
    LineLenOfALine(lead, "");
    assert NextLine(lead) == "";
    FindAllIs(t);
    FindAllIs(lead);
    FindAllIs(rest);
    if Blank(lead) {
      LstripBlank(lead + "\n", rest);
      assert lead + "\n" + rest == (lead + "\n") + rest;
      MatchAgain(t, rest);
      LstripBlank(lead, "");
      MatchAgain(lead, "");
      NothingHere();
    } else {
      var k :| 0 <= k < |lead| && Opens(lead, k);
      assert t[..k] == lead[..k] && t[k] == lead[k];
      NotNumbered(t, k);
      NotNumbered(lead, k);
    }
  }

  // ---- a whole answer ----

  /** The numbered pieces, in order. */
  function NumberedOf(pieces: seq<Piece>): seq<Piece> {
    if pieces == [] then []
    else (if pieces[0].Numbering? then [pieces[0]] else []) + NumberedOf(pieces[1..])
  }

  ghost predicate FoundAs(found: seq<Found>, numbered: seq<Piece>) {
    && |found| == |numbered|
    && forall k :: 0 <= k < |found| ==>
         numbered[k].Numbering? && found[k].number == numbered[k].digits && found[k].text == numbered[k].text
  }

  /** Every numbered line of an answer is found, in order, and nothing else is. */
  lemma {:induction false} NumberedLinesAreFound(pieces: seq<Piece>)
    requires forall k :: 0 <= k < |pieces| ==> Fits(pieces[k])
    ensures FoundAs(FindAll(Written(pieces)), NumberedOf(pieces))
    decreases |pieces|
  {
    hide FindAll, MatchHere, Fits, Spelled, NumberedOf, Written;
    if pieces == [] {
      NothingWritten();
    } else {
      var first, rest := pieces[0], pieces[1..];
      NumberedLinesAreFound(rest);
      FirstWritten(pieces);
      var tail := if |pieces| == 1 then "" else "\n" + Written(rest);
      if first.Numbering? {
        NumberingIsMatched(first, tail);
        SpelledIsThere(first, tail);
        FindAllIs(Spelled(first) + tail);
        assert |pieces| > 1 ==> tail[1..] == Written(rest);
        if |pieces| == 1 {
          NothingWritten();
        }
      } else {
        LeadSpelled(first);
        LeadIsSkipped(first.text, Written(rest));
        if |pieces| == 1 {
          NothingWritten();
          assert first.text + "" == first.text;
        } else {
          assert first.text + ("\n" + Written(rest)) == first.text + "\n" + Written(rest);
        }
      }
    }
  }

  lemma NothingWritten()
    ensures Written([]) == "" && FindAll("") == [] && NumberedOf([]) == []
  {
  }

  lemma FirstWritten(pieces: seq<Piece>)
    requires pieces != []
    ensures Written(pieces) == Spelled(pieces[0]) + (if |pieces| == 1 then "" else "\n" + Written(pieces[1..]))
    ensures NumberedOf(pieces) == (if pieces[0].Numbering? then [pieces[0]] else []) + NumberedOf(pieces[1..])
  {
  }

  lemma SpelledIsThere(piece: Piece, tail: string)
    requires piece.Numbering?
    ensures Spelled(piece) + tail != ""
  {
  }

  lemma LeadSpelled(piece: Piece)
    requires piece.Lead?
    ensures Spelled(piece) == piece.text && (Fits(piece) ==> Fits(Lead(piece.text)))
  {
  }

  // ---- a number with nothing after it ----

  lemma {:induction false} BlankHasNone(t: string)
    requires Blank(t)
    ensures Lstrip(t) == "" && MatchHere(t) == None && FindAll(t) == []
    decreases |t|
  {
    assert t + "" == t;
    LstripBlank(t, "");
    if t != "" {
      assert NextLine(t) == t[|t| - |NextLine(t)|..];
      BlankHasNone(NextLine(t));
    }
  }

  /** The last character that is not a line break, and what follows it. */
  lemma {:induction false} LastInLineIs(t: string)
    ensures OneBreakAfterAnother(t) <==> LastInLine(t) == None
    ensures LastInLine(t).Some? ==> LastInLine(t).value == t[|t| - |LastInLine(t).value|..] && OneBreakAfterAnother(LastInLine(t).value[1..])
  {
    if t != "" {
      LastInLineIs(t[1..]);
      assert OneBreakAfterAnother(t) <==> t[0] == '\n' && OneBreakAfterAnother(t[1..]);
    }
  }

  predicate OneBreakAfterAnother(t: string) { forall k :: 0 <= k < |t| ==> t[k] == '\n' }

  lemma MatchOfBlank(t: string, digits: string, mark: char, gap: string)
    requires Lstrip(t) == digits + ([mark] + gap) && digits != "" && AllDigits(digits) && mark in ".)" && Blank(gap)
    ensures LastInLine(gap).None? ==> MatchHere(t) == None
    ensures LastInLine(gap).Some? ==>
      var text := LastInLine(gap).value;
      MatchHere(t) == Some(Found(digits, text[..LineLen(text)], NextLine(text)))
  {
    hide Lstrip, LineLen, NextLine, LastInLine;
    DigitsOfARun(digits, [mark] + gap);
    var number := Lstrip(t);
    assert number[|digits|] == mark && number[..|digits|] == digits && number[|digits| + 1..] == gap;
    BlankHasNone(gap);
  }

  /**
   A number with white space alone to the end of the answer reads as an empty
   line, as long as one character of it is no line break, and else as none.
   */
  lemma BlankTextIsEmpty(indent: string, digits: string, mark: char, gap: string)
    requires Blank(indent) && OneLine(indent) && digits != "" && Numeric(digits) && (mark == '.' || mark == ')') && Blank(gap)
    ensures var found := FindAll(indent + (digits + ([mark] + gap)));
      if forall k :: 0 <= k < |gap| ==> gap[k] == '\n' then found == []
      else |found| == 1 && found[0].number == digits && |found[0].text| == 1 && Blank(found[0].text)
           && StripBudget(found[0].text) == ""
  {
    hide FindAll, MatchHere, LastInLine, LineLen, NextLine, Lstrip;
    var number := digits + ([mark] + gap);
    var t := indent + number;
    NumericIs(digits);
    LstripBlank(indent, number);
    DecimalStaysAtFront(digits, [mark] + gap);
    MatchOfBlank(t, digits, mark, gap);
    LastInLineIs(gap);
    FindAllIs(t);
    match LastInLine(gap) {
      case None =>
        var line := indent + (digits + [mark]);
        assert t == line + gap;
        LineThenTail(line, gap);
        BlankHasNone(NextLine(t));
      case Some(text) =>
        var after := text[1..];
        assert text == [text[0]] + after;
        LineThenTail([text[0]], after);
        BlankHasNone(NextLine(text));
        BlankHasNone([text[0]]);
    }
  }

  // ---- a number given more than once ----

  predicate NumberIs(found: Found, n: int) { AllDigits(found.number) && ReadDecimal(found.number) == n }

  /** The numbers read are those of the lines. */
  lemma {:induction false} NumbersRead(found: seq<Found>, n: int)
    requires forall k :: 0 <= k < |found| ==> AllDigits(found[k].number)
    ensures n in Numbered(found) <==> exists k :: 0 <= k < |found| && NumberIs(found[k], n)
    decreases |found|
  {
    hide Numbered, AllDigits, ReadDecimal;
    if found == [] {
      NumberedNone();
    } else {
      NumbersRead(found[..|found| - 1], n);
      NumberedLast(found);
      assert NumberIs(found[|found| - 1], n) <==> ReadDecimal(found[|found| - 1].number) == n;
    }
  }

  /** Of two lines with one number the last counts. */
  lemma {:induction false} LastCounts(found: seq<Found>, k: nat, n: int)
    requires k < |found| && NumberIs(found[k], n) && forall j :: k < j < |found| ==> !NumberIs(found[j], n)
    requires forall j :: 0 <= j < |found| ==> AllDigits(found[j].number)
    ensures n in Numbered(found) && Numbered(found)[n] == StripBudget(found[k].text)
    decreases |found|
  {
    hide Numbered, AllDigits, ReadDecimal, StripBudget;
    var last := |found| - 1;
    NumberedLast(found);
    if k < last {
      assert found[..last][k] == found[k];
      assert ReadDecimal(found[last].number) != n by {
        assert !NumberIs(found[last], n);
      }
      LastCounts(found[..last], k, n);
    }
  }

  // ---- reasoning ----

  lemma TagAt(t: string, tag: string, p: nat, k: nat)
    requires OccursAt(t, tag, p) && k < |tag|
    ensures t[p + k] == tag[k]
  {
    assert t[p..p + |tag|][k] == t[p + k];
  }

  /** A tag opens with '<' and has no other, so none begins before one and runs into it. */
  lemma TagBefore(a: string, tag: string, b: string, p: nat)
    requires |tag| > 0 && tag[0] == '<' && (forall k :: 0 < k < |tag| ==> tag[k] != '<')
    requires p < |a| && OccursAt(a + tag + b, tag, p)
    ensures OccursAt(a, tag, p)
  {
    var t := a + tag + b;
    assert t[|a|] == tag[0];
    if p + |tag| <= |a| {
      assert t[p..p + |tag|] == a[p..p + |tag|];
    } else {
      TagAt(t, tag, p, |a| - p);
    }
  }

  lemma TagIsFirst(a: string, tag: string, b: string, from: nat)
    requires |tag| > 0 && tag[0] == '<' && (forall k :: 0 < k < |tag| ==> tag[k] != '<')
    requires from <= |a| && forall p: nat :: from <= p ==> !OccursAt(a, tag, p)
    ensures FindTag(a + tag + b, tag, from) == Some(|a|)
  {
    hide OccursAt, FindTag;
    var t := a + tag + b;
    TagStandsThere(a, tag, b);
    forall p | from <= p < |a| && OccursAt(t, tag, p) ensures OccursAt(a, tag, p) {
      TagBefore(a, tag, b, p);
    }
  }

  lemma TagStandsThere(a: string, tag: string, b: string)
    ensures OccursAt(a + tag + b, tag, |a|)
  {
    assert (a + tag + b)[|a|..|a| + |tag|] == tag;
  }

  lemma OpenTag()
    ensures "<think>"[0] == '<' && forall k :: 0 < k < |"<think>"| ==> "<think>"[k] != '<'
    ensures "</think>"[0] == '<' && forall k :: 0 < k < |"</think>"| ==> "</think>"[k] != '<'
  {
  }

  /** Reasoning is left out, from the first opening tag to the first closing one after it, whatever stands before and after. */
  lemma ReasoningIsLeftOut(before: string, thought: string, after: string)
    requires forall p: nat :: !OccursAt(before, "<think>", p)
    requires forall p: nat :: !OccursAt(thought, "</think>", p)
    ensures RemoveThink(before + "<think>" + thought + "</think>" + after) == before + RemoveThink(after)
  {
    hide OccursAt, FindTag;
    OpenTag();
    var front := before + "<think>";
    var t := front + thought + "</think>" + after;
    var rest := thought + "</think>" + after;
    assert t == before + "<think>" + rest;
    TagIsFirst(before, "<think>", rest, 0);
    forall p: nat | |front| <= p && OccursAt(front + thought, "</think>", p) ensures OccursAt(thought, "</think>", p - |front|) {
      InTheRest(front, thought, "</think>", p);
    }
    TagIsFirst(front + thought, "</think>", after, |front|);
    assert t == (front + thought) + "</think>" + after;
    assert t[..|before|] == before && t[|front + thought| + |"</think>"|..] == after;
  }

  lemma InTheRest(front: string, rest: string, tag: string, p: nat)
    requires p >= |front| && OccursAt(front + rest, tag, p)
    ensures OccursAt(rest, tag, p - |front|)
  {
    assert (front + rest)[p..p + |tag|] == rest[p - |front|..p - |front| + |tag|];
  }

  /** Without an opening tag, or without a closing one, everything stays. */
  lemma NoReasoningIsKept(t: string)
    requires (forall p: nat :: !OccursAt(t, "<think>", p)) || (forall p: nat :: !OccursAt(t, "</think>", p))
    ensures RemoveThink(t) == t
  {
    hide OccursAt, FindTag;
  }

  // ---- a budget copied back ----

  // A duration in brackets, as a model may copy it: "[2.4s]", "[ 2,4 S ]".
  datatype Budget = Budget(before: string, digits: string, fraction: string, middle: string, unit: char, end: string)

  predicate IsBudget(b: Budget) {
    && Blank(b.before) && b.digits != "" && Numeric(b.digits)
    && (b.fraction == "" || (|b.fraction| > 1 && b.fraction[0] in {'.', ','} && Numeric(b.fraction[1..])))
    && Blank(b.middle) && b.unit in {'s', 'S'} && Blank(b.end)
  }

  function BudgetText(b: Budget): string {
    "[" + b.before + b.digits + b.fraction + b.middle + [b.unit] + b.end + "]"
  }

  lemma NumericIs(t: string)
    ensures Numeric(t) == AllDigits(t)
  {
  }

  lemma UnitOf(b: Budget, rest: string)
    requires IsBudget(b)
    ensures AfterUnit(b.middle + ([b.unit] + (b.end + ("]" + rest)))) == Some(Lstrip(rest))
  {
    var bracket := "]" + rest;
    var unit := [b.unit] + (b.end + bracket);
    LstripBlank(b.middle, unit);
    assert unit[1..] == b.end + bracket;
    LstripBlank(b.end, bracket);
    assert bracket[1..] == rest;
  }

  lemma FractionOf(b: Budget, rest: string)
    requires IsBudget(b)
    ensures var unit := b.middle + ([b.unit] + (b.end + ("]" + rest)));
      AfterFraction(b.fraction + unit) == unit && !IsDigit((b.fraction + unit)[0])
  {
    var unit := b.middle + ([b.unit] + (b.end + ("]" + rest)));
    assert !IsDigit(unit[0]) && unit[0] !in ".,";
    if b.fraction == "" {
      assert b.fraction + unit == unit;
    } else {
      var digits := b.fraction[1..];
      var t := b.fraction + unit;
      NumericIs(digits);
      assert t[1..] == digits + unit;
      DigitsOfARun(digits, unit);
      assert t[1 + |digits|..] == unit;
      assert t[1] == digits[0];
    }
  }

  lemma BudgetRead(b: Budget, rest: string)
    requires IsBudget(b)
    ensures AfterBudget(BudgetText(b) + rest) == Some(Lstrip(rest))
  {
    hide AfterFraction, AfterUnit;
    var unit := b.middle + ([b.unit] + (b.end + ("]" + rest)));
    var number := b.digits + (b.fraction + unit);
    var line := BudgetText(b) + rest;
    assert line[1..] == b.before + number;
    LstripBlank(b.before, number);
    NumericIs(b.digits);
    DecimalStaysAtFront(b.digits, b.fraction + unit);
    FractionOf(b, rest);
    DigitsOfARun(b.digits, b.fraction + unit);
    assert number[|b.digits|..] == b.fraction + unit;
    UnitOf(b, rest);
  }

  /** A budget in any of its spellings is dropped, with the white space after it. */
  lemma AnyBudgetIsDropped(b: Budget, cue: string)
    requires IsBudget(b)
    ensures StripBudget(BudgetText(b) + cue) == Strip(cue)
  {
    hide AfterBudget;
    BudgetRead(b, cue);
    LstripTwice(cue);
  }

  lemma {:induction false} LstripSplits(t: string)
    ensures var n := |t| - |Lstrip(t)|;
      0 <= n <= |t| && Blank(t[..n]) && t[n..] == Lstrip(t)
  {
    if t != "" && IsSpace(t[0]) {
      LstripSplits(t[1..]);
      var n := |t| - |Lstrip(t)|;
      assert t[..n] == [t[0]] + t[1..][..n - 1];
    }
  }

  lemma FractionFound(t: string)
    ensures var n := |t| - |AfterFraction(t)|;
      && 0 <= n <= |t| && t[n..] == AfterFraction(t)
      && (n == 0 || (n > 1 && t[0] in {'.', ','} && Numeric(t[1..n])))
  {
    if |t| > 1 && t[0] in ".," && IsDigit(t[1]) {
      var n := 1 + Digits(t[1..]);
      assert t[1..n] == t[1..][..n - 1];
    }
  }

  lemma Halves(t: string, n: nat)
    requires n <= |t|
    ensures t == t[..n] + t[n..]
    ensures n > 0 ==> t == [t[0]] + t[1..]
  {
  }

  lemma UnitSpelled(t: string, middle: string, u: string, v: string, end: string, bracket: string)
    requires u != "" && bracket != ""
    requires t == middle + u && u == [u[0]] + v && v == end + bracket && bracket == [']'] + bracket[1..]
    ensures t == middle + [u[0]] + end + "]" + bracket[1..]
  {
  }

  lemma UnitFound(t: string) returns (middle: string, unit: char, end: string, cue: string)
    requires AfterUnit(t).Some?
    ensures Blank(middle) && unit in {'s', 'S'} && Blank(end) && t == middle + [unit] + end + "]" + cue
  {
    hide Lstrip, Blank;
    var u := Lstrip(t);
    var v := u[1..];
    var bracket := Lstrip(v);
    LstripSplits(t);
    LstripSplits(v);
    middle, unit, end, cue := t[..|t| - |u|], u[0], v[..|v| - |bracket|], bracket[1..];
    Halves(t, |middle|);
    Halves(u, 1);
    Halves(v, |end|);
    Halves(bracket, 1);
    UnitSpelled(t, middle, u, v, end, bracket);
  }

  lemma DigitsFound(number: string)
    ensures var n := Digits(number);
      n <= |number| && Numeric(number[..n]) && (n > 0 ==> number[..n] != "")
  {
  }

  lemma NumberSpelled(line: string, before: string, number: string, digits: string, fraction: string, unit: string)
    requires line == ['['] + (before + number) && number == digits + (fraction + unit)
    ensures line == "[" + (before + (digits + (fraction + unit)))
  {
  }

  lemma NumberFound(line: string) returns (before: string, digits: string, fraction: string, unit: string)
    requires AfterBudget(line).Some?
    ensures Blank(before) && digits != "" && Numeric(digits)
    ensures fraction == "" || (|fraction| > 1 && fraction[0] in {'.', ','} && Numeric(fraction[1..]))
    ensures AfterUnit(unit).Some? && line == "[" + (before + (digits + (fraction + unit)))
  {
    hide AfterUnit, AfterFraction, Lstrip, Blank, Numeric;
    var inside := line[1..];
    var number := Lstrip(inside);
    var n := Digits(number);
    var rest := number[n..];
    LstripSplits(inside);
    DigitsFound(number);
    FractionFound(rest);
    unit := AfterFraction(rest);
    before, digits, fraction := inside[..|inside| - |number|], number[..n], rest[..|rest| - |unit|];
    Halves(line, 1);
    Halves(inside, |before|);
    Halves(number, n);
    Halves(rest, |fraction|);
    FractionPart(rest, |fraction|);
    NumberSpelled(line, before, number, digits, fraction, unit);
  }

  lemma FractionPart(rest: string, n: nat)
    requires n <= |rest| && (n == 0 || (n > 1 && rest[0] in {'.', ','} && Numeric(rest[1..n])))
    ensures var fraction := rest[..n];
      fraction == "" || (|fraction| > 1 && fraction[0] in {'.', ','} && Numeric(fraction[1..]))
  {
    if n > 0 {
      assert rest[..n][1..] == rest[1..n];
    }
  }

  lemma BudgetFound(line: string) returns (b: Budget, cue: string)
    requires AfterBudget(line).Some?
    ensures IsBudget(b) && line == BudgetText(b) + cue
  {
    hide AfterBudget, AfterUnit, Blank, Numeric, BudgetText;
    var before, digits, fraction, rest := NumberFound(line);
    var middle, unit, end, after := UnitFound(rest);
    b, cue := Budget(before, digits, fraction, middle, unit, end), after;
    BudgetSpelled(b, cue, rest, fraction + rest, digits + (fraction + rest), line);
  }

  lemma BudgetSpelled(b: Budget, cue: string, unit: string, rest: string, number: string, line: string)
    requires unit == b.middle + [b.unit] + b.end + "]" + cue && rest == b.fraction + unit
    requires number == b.digits + rest && line == "[" + (b.before + number)
    ensures line == BudgetText(b) + cue
  {
  }

  /** And nothing else is: a line that does not open with a budget only loses the white space around it. */
  lemma OnlyABudgetIsDropped(line: string)
    requires forall b: Budget, cue: string :: IsBudget(b) ==> line != BudgetText(b) + cue
    ensures StripBudget(line) == Strip(line)
  {
    hide AfterBudget, BudgetText;
    if AfterBudget(line).Some? {
      var b, cue := BudgetFound(line);
    }
  }

  // ---- an answer with all of it ----

  /** The numbered lines of an answer cover the cues: each number is a cue's, and the last line with it says that cue. */
  ghost predicate Answers(cues: seq<string>, numbered: seq<Piece>) {
    && (forall k :: 0 <= k < |numbered| ==>
          numbered[k].Numbering? && AllDigits(numbered[k].digits) && 1 <= ReadDecimal(numbered[k].digits) <= |cues|)
    && (forall i :: 0 <= i < |cues| ==> Answered(cues, numbered, i))
  }

  ghost predicate Answered(cues: seq<string>, numbered: seq<Piece>, i: nat)
    requires i < |cues| && forall j :: 0 <= j < |numbered| ==> numbered[j].Numbering? && AllDigits(numbered[j].digits)
  {
    exists k :: 0 <= k < |numbered| && AnswersAt(cues, numbered, i, k)
  }

  ghost predicate AnswersAt(cues: seq<string>, numbered: seq<Piece>, i: nat, k: nat)
    requires i < |cues| && k < |numbered|
    requires forall j :: 0 <= j < |numbered| ==> numbered[j].Numbering? && AllDigits(numbered[j].digits)
  {
    && ReadDecimal(numbered[k].digits) == i + 1 && StripBudget(numbered[k].text) == Strip(cues[i])
    && forall j :: k < j < |numbered| ==> ReadDecimal(numbered[j].digits) != i + 1
  }

  lemma {:induction false} AllNumbers(cues: seq<string>, numbered: seq<Piece>, found: seq<Found>)
    requires Answers(cues, numbered) && FoundAs(found, numbered)
    ensures forall k :: 0 <= k < |found| ==> AllDigits(found[k].number) && 1 <= ReadDecimal(found[k].number) <= |cues|
  {
    hide ReadDecimal;
  }

  /** A cue's number is among those read, and stands for the cue. */
  lemma {:induction false} CueIsFound(cues: seq<string>, numbered: seq<Piece>, found: seq<Found>, i: nat)
    requires Answers(cues, numbered) && FoundAs(found, numbered) && i < |cues|
    requires forall k :: 0 <= k < |found| ==> AllDigits(found[k].number)
    ensures i + 1 in Numbered(found) && Numbered(found)[i + 1] == Strip(cues[i])
  {
    hide ReadDecimal, StripBudget, Strip, Numbered;
    assert Answered(cues, numbered, i);
    var k: nat :| k < |numbered| && AnswersAt(cues, numbered, i, k);
    LastCounts(found, k, i + 1);
  }

  lemma {:induction false} NumbersAreTheCues(cues: seq<string>, numbered: seq<Piece>, found: seq<Found>)
    requires Answers(cues, numbered) && FoundAs(found, numbered)
    ensures forall k :: 0 <= k < |found| ==> AllDigits(found[k].number)
    ensures forall n :: n in Numbered(found) <==> 1 <= n <= |cues|
    ensures forall i :: 0 <= i < |cues| ==> Numbered(found)[i + 1] == Strip(cues[i])
  {
    hide ReadDecimal, StripBudget, Strip, Numbered, Answers, FoundAs;
    AllNumbers(cues, numbered, found);
    forall i | 0 <= i < |cues| ensures i + 1 in Numbered(found) && Numbered(found)[i + 1] == Strip(cues[i]) {
      CueIsFound(cues, numbered, found, i);
    }
    forall n ensures n in Numbered(found) <==> 1 <= n <= |cues| {
      NumbersRead(found, n);
      if 1 <= n <= |cues| {
        CueIsFound(cues, numbered, found, n - 1);
      }
    }
  }

  lemma {:induction false} CoveredByFound(cues: seq<string>, numbered: seq<Piece>, found: seq<Found>)
    requires Answers(cues, numbered) && FoundAs(found, numbered)
    ensures (forall k :: 0 <= k < |found| ==> AllDigits(found[k].number)) && AlignedOrNone(Numbered(found), |cues|) == Some(Stripped(cues))
  {
    hide ReadDecimal, StripBudget, Strip, Numbered, AlignedOrNone, OneTo, Answers, FoundAs;
    NumbersAreTheCues(cues, numbered, found);
    var parsed := Numbered(found);
    InOneTo(|cues|);
    assert parsed.Keys == OneTo(|cues|);
    AlignedIffExactCover(parsed, |cues|);
    assert AlignedOrNone(parsed, |cues|).value == Stripped(cues);
  }

  lemma InOneTo(n: nat)
    ensures forall i :: i in OneTo(n) <==> 1 <= i <= n
  {
  }

  /**
   Whatever a model puts around its lines, as long as their numbers are the
   cues' and the last line of each number says its cue, the answer reads back
   the cues: lead-ins and blank lines anywhere, numbers in any order and given
   twice, either mark, any white space, and reasoning in front.
   */
  lemma AnswerIsReadThrough(cues: seq<string>, pieces: seq<Piece>, thought: string)
    requires forall k :: 0 <= k < |pieces| ==> Fits(pieces[k])
    requires Answers(cues, NumberedOf(pieces))
    requires forall p: nat :: !OccursAt(Written(pieces), "<think>", p)
    requires forall p: nat :: !OccursAt(thought, "</think>", p)
    ensures AlignedOrNone(Parsed(Written(pieces)), |cues|) == Some(Stripped(cues))
    ensures AlignedOrNone(Parsed("<think>" + thought + "</think>" + Written(pieces)), |cues|) == Some(Stripped(cues))
  {
    hide OccursAt, RemoveThink, FindAll, Numbered, AlignedOrNone, Written, Answers, Fits;
    var answer := Written(pieces);
    NoReasoningIsKept(answer);
    EmptyHasNoTag();
    ReasoningIsLeftOut("", thought, answer);
    assert "" + "<think>" + thought + "</think>" + answer == "<think>" + thought + "</think>" + answer;
    assert "" + answer == answer;
    NumberedLinesAreFound(pieces);
    CoveredByFound(cues, NumberedOf(pieces), FindAll(answer));
  }

  lemma EmptyHasNoTag()
    ensures forall p: nat :: !OccursAt("", "<think>", p)
  {
  }

  // ---- the printed lines, with lead-ins among them ----

  /** A printed line as a piece of an answer. */
  function Printed(cues: seq<string>, slots: seq<real>, i: nat): Piece
    requires i < |cues|
  {
    var said := Budgeted(cues[i], slots, i);
    Numbering("", Decimal(i + 1), '.', " " + said[..|said| - |Lstrip(said)|], Group(cues[i], slots, i))
  }

  lemma PrintedIsALine(cues: seq<string>, slots: seq<real>, i: nat)
    requires i < |cues| && Plain(cues[i], HasSlot(slots, i))
    ensures Spelled(Printed(cues, slots, i)) == Line(cues, slots, i) && Fits(Printed(cues, slots, i))
  {
    hide Decimal, Plain, Budgeted;
    var said := Budgeted(cues[i], slots, i);
    BudgetedIsOneLine(cues[i], slots, i);
    LstripSplits(said);
    LstripKeepsLines(said);
    NumericIs(Decimal(i + 1));
  }

  lemma {:induction false} NoTagWritten(pieces: seq<Piece>, p: nat)
    requires forall k :: 0 <= k < |pieces| ==> forall q: nat :: !OccursAt(Spelled(pieces[k]), "<think>", q)
    ensures !OccursAt(Written(pieces), "<think>", p)
    decreases |pieces|
  {
    hide OccursAt, Spelled;
    if pieces == [] {
      EmptyHasNoTag();
    } else if |pieces| == 1 {
      assert Written(pieces) == Spelled(pieces[0]) + "" == Spelled(pieces[0]);
    } else if OccursAt(Written(pieces), "<think>", p) {
      var first, rest := Spelled(pieces[0]), Written(pieces[1..]);
      assert Written(pieces) == first + ("\n" + rest) == first + "\n" + rest;
      TagOnOneLine(first, rest, p);
      if p > |first| {
        NoTagWritten(pieces[1..], p - |first| - 1);
      }
    }
  }

  lemma {:induction false} PieceIsPrinted(pieces: seq<Piece>, k: nat)
    requires k < |pieces| && pieces[k].Numbering?
    ensures pieces[k] in NumberedOf(pieces)
  {
    if k > 0 {
      PieceIsPrinted(pieces[1..], k - 1);
    }
  }

  /**
   Round trip, with lead-ins before, between and after: an answer whose numbered
   lines are those printed reads back exactly the cues, stripped.
   */
  lemma PrintedCuesReadBackAmongLeads(cues: seq<string>, slots: seq<real>, pieces: seq<Piece>)
    requires PlainCues(cues, slots)
    requires NumberedOf(pieces) == seq(|cues|, i requires 0 <= i < |cues| => Printed(cues, slots, i))
    requires forall k :: 0 <= k < |pieces| && pieces[k].Lead? ==>
      Fits(pieces[k]) && forall q: nat :: !OccursAt(pieces[k].text, "<think>", q)
    ensures AlignedOrNone(Parsed(Written(pieces)), |cues|) == Some(Stripped(cues))
  {
    hide OccursAt, Parsed, AlignedOrNone, Fits, Printed, Spelled, Plain, Written, NumberedOf;
    var numbered := NumberedOf(pieces);
    forall k | 0 <= k < |pieces| ensures Fits(pieces[k]) && forall q: nat :: !OccursAt(Spelled(pieces[k]), "<think>", q) {
      if pieces[k].Numbering? {
        PieceIsPrinted(pieces, k);
        var i :| 0 <= i < |cues| && pieces[k] == numbered[i];
        assert Plain(cues[i], HasSlot(slots, i));
        PrintedIsALine(cues, slots, i);
        forall q: nat ensures !OccursAt(Spelled(pieces[k]), "<think>", q) {
          NoTagInALine(cues, slots, i, q);
        }
      } else {
        LeadSpelled(pieces[k]);
      }
    }
    forall p: nat ensures !OccursAt(Written(pieces), "<think>", p) {
      NoTagWritten(pieces, p);
    }
    PrintedAnswers(cues, slots);
    NoCloseInNothing();
    AnswerIsReadThrough(cues, pieces, "");
  }

  lemma NoCloseInNothing()
    ensures forall p: nat :: !OccursAt("", "</think>", p)
  {
  }

  lemma PrintedAnswers(cues: seq<string>, slots: seq<real>)
    requires PlainCues(cues, slots)
    ensures Answers(cues, seq(|cues|, i requires 0 <= i < |cues| => Printed(cues, slots, i)))
  {
    hide Plain, Decimal, ReadDecimal, StripBudget, Strip, Group;
    var numbered := seq(|cues|, i requires 0 <= i < |cues| => Printed(cues, slots, i));
    forall k | 0 <= k < |numbered|
      ensures AllDigits(numbered[k].digits) && ReadDecimal(numbered[k].digits) == k + 1
      ensures StripBudget(numbered[k].text) == Strip(cues[k])
    {
      DecimalReadsBack(k + 1);
      assert Plain(cues[k], HasSlot(slots, k));
      BudgetIsDropped(cues[k], slots, k);
    }
    forall i | 0 <= i < |cues| ensures Answered(cues, numbered, i) {
      assert AnswersAt(cues, numbered, i, i);
    }
  }
}
