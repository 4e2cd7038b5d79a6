/**
 The batch translator (services/translate_server.py): its loops, proved against
 NumberedLines and Alignment, and what its endpoint returns whatever the model
 answers.
 */
module TranslateServer {
  import opened Wrappers
  import opened Text
  import opened NumberedLines
  import opened Alignment

  // ---- printing and reading ----

  function Joined(lines: seq<string>): string {
    if lines == [] then "" else if |lines| == 1 then lines[0] else lines[0] + "\n" + Joined(lines[1..])
  }

  lemma {:induction false} JoinedIsBody(cues: seq<string>, slots: seq<real>, lines: seq<string>, i: nat)
    requires i + |lines| == |cues| && forall k :: 0 <= k < |lines| ==> lines[k] == Line(cues, slots, i + k)
    ensures Joined(lines) == LinesFrom(cues, slots, i)
    decreases |lines|
  {
    hide Line;
    if lines != [] {
      forall k | 0 <= k < |lines| - 1 ensures lines[1..][k] == Line(cues, slots, i + 1 + k) {
        assert lines[1..][k] == lines[k + 1] == Line(cues, slots, i + (k + 1));
      }
      JoinedIsBody(cues, slots, lines[1..], i + 1);
      assert lines[0] == Line(cues, slots, i + 0);
      LineThen(lines[0], Joined(lines[1..]));
    }
  }

  lemma LineThen(line: string, rest: string)
    ensures line + "" == line && line + "\n" + rest == line + ("\n" + rest)
  {
  }

  method BuildBody(cues: seq<string>, slots: seq<real>) returns (body: string)
    ensures body == Body(cues, slots)
    ensures exists lines: seq<string> ::
      && body == Joined(lines) && |lines| == |cues|
      && forall i :: 0 <= i < |lines| ==>
           lines[i] == Decimal(i + 1) + ". " + (if i < |slots| && slots[i] > 0.0 then "[" + PrintSlot(slots[i]) + "s] " else "") + cues[i]
  {
    hide Decimal, PrintSlot;
    var out: seq<string> := [];
    for i := 0 to |cues|
      invariant |out| == i
      invariant forall k :: 0 <= k < i ==> out[k] == Line(cues, slots, k)
    {
      var slot := if i < |slots| then slots[i] else 0.0;
      if slot > 0.0 {
        out := out + [Decimal(i + 1) + ". [" + PrintSlot(slot) + "s] " + cues[i]];
      } else {
        out := out + [Decimal(i + 1) + ". " + cues[i]];
      }
      assert out[i] == Line(cues, slots, i);
    }
    JoinedIsBody(cues, slots, out, 0);
    body := Joined(out);
  }

  method ParseNumbered(answer: string) returns (out: map<int, string>)
    ensures out == Parsed(answer)
  {
    var found := FindAll(RemoveThink(answer));
    out := map[];
    assert found[..0] == [];
    for i := 0 to |found|
      invariant out == Numbered(found[..i])
    {
      out := out[ReadDecimal(found[i].number) := StripBudget(found[i].text)];
      assert found[..i + 1][..i] == found[..i];
    }
    assert found[..|found|] == found;
  }

  // ---- misalignment ----

  // Why a batch is refused, by line; the server words it.
  datatype Why = Fine | Repeated(first: nat, again: nat) | Merged(line: nat) | Borrowing(at: nat, numbers: set<nat>)

  method CollectNumbers(t: string) returns (found: set<nat>)
    ensures found == NumbersIn(t)
  {
    hide WordValue, DigitRuns, Words, Value, Casefold;
    var runs, words := DigitRuns(t), Words(Casefold(t));
    found := {};
    for i := 0 to |runs|
      invariant found == set run | run in runs[..i] :: Value(run)
    {
      found := found + {Value(runs[i])};
      assert runs[..i + 1] == runs[..i] + [runs[i]];
    }
    assert runs[..|runs|] == runs;
    ghost var digits := found;
    for i := 0 to |words|
      invariant found == digits + set word | word in words[..i] && WordValue(NUMBER_WORDS, word).Some? :: WordValue(NUMBER_WORDS, word).value
    {
      var value := WordValue(NUMBER_WORDS, words[i]);
      if value.Some? {
        found := found + {value.value};
      }
      assert words[..i + 1] == words[..i] + [words[i]];
    }
    assert words[..|words|] == words;
  }

  /** The first line that carries a figure of the cue after it, and which figures those are. */
  method BorrowedNumber(cues: seq<string>, out: seq<string>) returns (why: Why)
    ensures why.Fine? || why.Borrowing?
    ensures why.Fine? <==> forall i :: 0 <= i < |out| - 1 ==> !BorrowsAt(cues, out, i)
    ensures why.Borrowing? ==>
      && BorrowsAt(cues, out, why.at) && (forall i :: 0 <= i < why.at ==> !BorrowsAt(cues, out, i))
      && forall n :: n in why.numbers <==>
           exists run :: run in DigitRuns(out[why.at]) && IsBorrowed(cues[why.at], cues[why.at + 1], run) && Value(run) == n
  {
    hide IsBorrowed, DigitRuns, Value;
    var last := (if |out| < |cues| then |out| else |cues|) - 1;
    var i := 0;
    while i < last
      invariant 0 <= i && (i <= last || last == -1)
      invariant forall k :: 0 <= k < i ==> !BorrowsAt(cues, out, k)
    {
      var borrowed := BorrowedAt(cues[i], cues[i + 1], out[i]);
      BorrowsWhenFound(cues, out, i, borrowed);
      if borrowed != {} {
        return Borrowing(i, borrowed);
      }
      i := i + 1;
    }
    return Fine;
  }

  lemma BorrowsWhenFound(cues: seq<string>, out: seq<string>, i: nat, borrowed: set<nat>)
    requires i < |out| - 1 && i < |cues| - 1
    requires forall n :: n in borrowed <==>
      exists run :: run in DigitRuns(out[i]) && IsBorrowed(cues[i], cues[i + 1], run) && Value(run) == n
    ensures BorrowsAt(cues, out, i) <==> borrowed != {}
  {
    hide IsBorrowed, DigitRuns, Value;
    if BorrowsAt(cues, out, i) {
      var run :| run in DigitRuns(out[i]) && IsBorrowed(cues[i], cues[i + 1], run);
      assert Value(run) in borrowed;
    }
    if n :| n in borrowed {
      var run :| run in DigitRuns(out[i]) && IsBorrowed(cues[i], cues[i + 1], run) && Value(run) == n;
    }
  }

  /** The figures of the next cue in one line. */
  method BorrowedAt(cue: string, next: string, line: string) returns (borrowed: set<nat>)
    ensures forall n :: n in borrowed <==> exists run :: run in DigitRuns(line) && IsBorrowed(cue, next, run) && Value(run) == n
  {
    hide NumbersIn, Value, DigitRuns, Within;
    var source := DigitRuns(cue);
    var mine := CollectNumbers(cue);
    var theirs := CollectNumbers(next);
    var runs := DigitRuns(line);
    borrowed := {};
    for i := 0 to |runs|
      invariant forall n :: n in borrowed <==> exists run :: run in runs[..i] && IsBorrowed(cue, next, run) && Value(run) == n
    {
      var run := runs[i];
      ghost var before := borrowed;
      assert runs[..i + 1] == runs[..i] + [run];
      if Value(run) in mine || Value(run) !in theirs || exists whole :: whole in source && Within(run, whole) {
        assert !IsBorrowed(cue, next, run);
      } else {
        assert IsBorrowed(cue, next, run);
        borrowed := borrowed + {Value(run)};
      }
      assert forall r :: r in runs[..i + 1] <==> r in runs[..i] || r == run;
    }
    assert runs[..|runs|] == runs;
  }

  /** One pass over the lines, remembering only where each was first seen. */
  method RepeatedLine(cues: seq<string>, out: seq<string>) returns (why: Why)
    requires |out| <= |cues|
    ensures why.Fine? || why.Repeated?
    ensures why.Fine? <==> NoRepeat(cues, out)
    ensures why.Repeated? ==>
      && RepeatAt(cues, out, why.first, why.again)
      && (forall i :: 0 <= i < why.first ==> Key(out[i]) != Key(out[why.first]))
      && forall i, j :: 0 <= i < j < why.again ==> !RepeatAt(cues, out, i, j)
  {
    hide Casefold, Strip;
    var seen: map<string, nat> := map[];
    for i := 0 to |out|
      invariant FirstSeen(out, i, seen)
      invariant forall a, b :: 0 <= a < b < i ==> !RepeatAt(cues, out, a, b)
    {
      FirstIsEnough(cues, out, i, seen);
      SeenOneMore(out, i, seen);
      var key := Casefold(Strip(out[i]));
      if key == "" {
        continue;
      }
      if key in seen && Strip(cues[seen[key]]) != Strip(cues[i]) {
        return Repeated(seen[key], i);
      }
      if key !in seen {
        seen := seen[key := i];
      }
    }
    why := Fine;
  }

  /** The first line far longer than its cue. */
  method MergedLine(cues: seq<string>, out: seq<string>) returns (why: Why)
    requires |out| <= |cues|
    ensures why.Fine? || why.Merged?
    ensures why.Fine? <==> forall i :: 0 <= i < |out| ==> !TooLong(cues[i], out[i])
    ensures why.Merged? ==>
      why.line < |out| && TooLong(cues[why.line], out[why.line]) && forall i :: 0 <= i < why.line ==> !TooLong(cues[i], out[i])
  {
    hide Strip;
    for i := 0 to |out|
      invariant forall k :: 0 <= k < i ==> !TooLong(cues[k], out[k])
    {
      var source := |Strip(cues[i])|;
      if source == 0 {
        continue;
      }
      if 10 * |Strip(out[i])| > 10 * MERGE_FLOOR + MERGE_RATIO_TENTHS * source {
        return Merged(i);
      }
    }
    why := Fine;
  }

  /** Why the lines do not belong to the cues: a repeat first, then a line too long, then a borrowed figure. */
  method Misaligned(cues: seq<string>, out: seq<string>) returns (why: Why)
    requires |out| <= |cues|
    ensures why.Fine? <==> Belongs(cues, out)
    ensures why.Repeated? ==>
      && RepeatAt(cues, out, why.first, why.again)
      && (forall i :: 0 <= i < why.first ==> Key(out[i]) != Key(out[why.first]))
      && forall i, j :: 0 <= i < j < why.again ==> !RepeatAt(cues, out, i, j)
    ensures why.Merged? ==> NoRepeat(cues, out) && why.line < |out| && TooLong(cues[why.line], out[why.line])
    ensures why.Borrowing? ==>
      && NoRepeat(cues, out) && (forall i :: 0 <= i < |out| ==> !TooLong(cues[i], out[i]))
      && BorrowsAt(cues, out, why.at)
  {
    hide RepeatAt, NoRepeat, TooLong, BorrowsAt, Key;
    why := RepeatedLine(cues, out);
    if why.Fine? {
      why := MergedLine(cues, out);
    }
    if why.Fine? {
      why := BorrowedNumber(cues, out);
    }
  }

  // ---- one call to the model ----

  // One question put to the router: how many lines it is to answer, the lines
  // before them, and the numbered lines themselves.
  datatype Ask = Ask(lines: nat, context: seq<string>, body: string)

  /** The router: it answers anything, by how often it was asked before; None when the call failed. */
  class Router {
    const answers: nat -> Option<string>
    var asked: seq<Ask>

    constructor (answers: nat -> Option<string>)
      ensures this.answers == answers && asked == []
    {
      this.answers := answers;
      asked := [];
    }

    method Post(ask: Ask) returns (answer: Option<string>)
      modifies this
      ensures asked == old(asked) + [ask] && answer == answers(|old(asked)|)
    {
      answer := answers(|asked|);
      asked := asked + [ask];
    }
  }

  /** The lines of an answer numbered 1 to n, in order. */
  function InOrder(parsed: map<int, string>, n: nat): (out: seq<string>)
    requires parsed.Keys == OneTo(n)
    ensures |out| == n && forall i :: 0 <= i < n ==> out[i] == parsed[i + 1]
  {
    seq(n, i requires 0 <= i < n => parsed[i + 1])
  }

  method OmnirouteBatch(router: Router, configured: bool, cues: seq<string>, context: seq<string>, slots: seq<real>)
    returns (out: Option<seq<string>>)
    modifies router
    ensures !configured ==> out == None && router.asked == old(router.asked)
    ensures configured ==>
      && router.asked == old(router.asked) + [Ask(|cues|, context, Body(cues, slots))]
      && var answer := router.answers(|old(router.asked)|);
      && (out.Some? <==>
            && answer.Some? && Parsed(answer.value).Keys == OneTo(|cues|)
            && (|cues| > 1 ==> Belongs(cues, InOrder(Parsed(answer.value), |cues|))))
      && (out.Some? ==> out.value == InOrder(Parsed(answer.value), |cues|))
  {
    hide Parsed, Belongs, AlignedOrNone, Body, OneTo;
    if !configured {
      return None;
    }
    var body := BuildBody(cues, slots);
    var answer := router.Post(Ask(|cues|, context, body));
    if answer.None? {
      return None;
    }
    var parsed := ParseNumbered(answer.value);
    AlignedIffExactCover(parsed, |cues|);
    out := AlignedOrNone(parsed, |cues|);
    if out.None? {
      return None;
    }
    assert out.value == InOrder(parsed, |cues|);
    if |cues| > 1 {
      var why := Misaligned(cues, out.value);
      if !why.Fine? {
        return None;
      }
    }
  }

  // ---- the endpoint ----

  /** The last lines before cue i: the caller's, and then the batch's own. */
  function ContextFor(context: seq<string>, cues: seq<string>, i: nat): (r: seq<string>)
    requires i <= |cues|
    ensures |r| == (if |context| + i < 3 then |context| + i else 3)
    ensures forall k :: 0 <= k < |r| ==>
      var before := |context| + i - |r| + k;
      r[k] == if before < |context| then context[before] else cues[before - |context|]
  {
    var lines := context + cues[..i];
    if |lines| <= CONTEXT_LINES then lines else lines[|lines| - CONTEXT_LINES..]
  }

  /** The prompt of a single cue: its number, the budget of its own slot when it has one, and the cue. */
  lemma BodyOfOne(cues: seq<string>, slots: seq<real>, i: nat)
    requires i < |cues|
    ensures Body([cues[i]], if i < |slots| then [slots[i]] else [])
         == "1. " + (if i < |slots| && slots[i] > 0.0 then "[" + PrintSlot(slots[i]) + "s] " else "") + cues[i]
  {
    hide PrintSlot;
    var oneSlot := if i < |slots| then [slots[i]] else [];
    assert Decimal(1) == "1";
    assert LinesFrom([cues[i]], oneSlot, 0) == Line([cues[i]], oneSlot, 0) + "";
  }

  /**
   Translates a batch: whatever the model answers, one line for every cue, and
   every line either of a batch that was trusted whole, or of the cue's own
   answer, or empty.
   */
  method TranslateBatch(router: Router, configured: bool, cues: seq<string>, context: seq<string>, slots: seq<real>)
    returns (out: seq<string>, fellBack: bool)
    modifies router
    ensures |out| == |cues|
    ensures cues == [] ==> !fellBack && router.asked == old(router.asked)
    ensures cues != [] && !configured ==> fellBack && router.asked == old(router.asked) && forall i :: 0 <= i < |out| ==> out[i] == ""
    ensures cues != [] && configured ==>
      var answer := router.answers(|old(router.asked)|);
      !fellBack <==>
        && answer.Some? && Parsed(answer.value).Keys == OneTo(|cues|)
        && (|cues| > 1 ==> Belongs(cues, InOrder(Parsed(answer.value), |cues|)))
    ensures cues != [] && configured && !fellBack ==>
      && router.asked == old(router.asked) + [Ask(|cues|, context, Body(cues, slots))]
      && out == InOrder(Parsed(router.answers(|old(router.asked)|).value), |cues|)
    ensures cues != [] && configured && fellBack ==>
      && |router.asked| == |old(router.asked)| + 1 + |cues|
      && router.asked[..|old(router.asked)| + 1] == old(router.asked) + [Ask(|cues|, context, Body(cues, slots))]
      && forall i :: 0 <= i < |cues| ==>
           && router.asked[|old(router.asked)| + 1 + i] ==
                Ask(1, ContextFor(context, cues, i),
                    "1. " + (if i < |slots| && slots[i] > 0.0 then "[" + PrintSlot(slots[i]) + "s] " else "") + cues[i])
           && var alone := router.answers(|old(router.asked)| + 1 + i);
              out[i] == if alone.Some? && Parsed(alone.value).Keys == {1} then Parsed(alone.value)[1] else ""
  {
    hide Parsed, Belongs, ContextFor, OneTo, Body, PrintSlot;
    out, fellBack := [], false;
    if cues == [] {
      return;
    }
    var batch := OmnirouteBatch(router, configured, cues, context, slots);
    if batch.Some? {
      out := batch.value;
      return;
    }
    fellBack := true;
    OneIsOne();
    ghost var first := |old(router.asked)| + 1;
    for i := 0 to |cues|
      invariant |out| == i
      invariant !configured ==> router.asked == old(router.asked) && forall k :: 0 <= k < i ==> out[k] == ""
      invariant configured ==>
        |router.asked| == first + i && router.asked[..first] == old(router.asked) + [Ask(|cues|, context, Body(cues, slots))]
      invariant configured ==> forall k :: 0 <= k < i ==>
        && router.asked[|old(router.asked)| + 1 + k] ==
             Ask(1, ContextFor(context, cues, k),
                 "1. " + (if k < |slots| && slots[k] > 0.0 then "[" + PrintSlot(slots[k]) + "s] " else "") + cues[k])
        && var alone := router.answers(|old(router.asked)| + 1 + k);
           out[k] == if alone.Some? && Parsed(alone.value).Keys == {1} then Parsed(alone.value)[1] else ""
    {
      var oneSlot := if i < |slots| then [slots[i]] else [];
      BodyOfOne(cues, slots, i);
      var single := OmnirouteBatch(router, configured, [cues[i]], ContextFor(context, cues, i), oneSlot);
      out := out + [if single.Some? then single.value[0] else ""];
    }
  }

  lemma OneIsOne()
    ensures OneTo(1) == {1}
  {
  }
}
