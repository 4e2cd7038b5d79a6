/**
 The lines sent to the model and read back from its answer: a printer of
 numbered lines, a tolerant parser, and the check that every number came back
 (services/translate_server.py:71-135).

 Regular expressions are written out as what they match, reading a text from
 its front: `rest` is always the text after what was matched.
 */
module NumberedLines {
  import opened Wrappers
  import opened Text

  // ---- printing ----

  // A slot in tenths of a second, rounded to the even tenth at a half, as `:.1f` is.
  function Tenths(slot: real): nat
    requires slot > 0.0
  {
    var whole := (slot * 10.0).Floor;
    var part := slot * 10.0 - whole as real;
    if part < 0.5 || (part == 0.5 && whole % 2 == 0) then whole else whole + 1
  }

  function PrintSlot(slot: real): string
    requires slot > 0.0
  {
    Decimal(Tenths(slot) / 10) + "." + [DigitOf(Tenths(slot) % 10)]
  }

  /** The cue has a budget to state: a slot was sent for it, and there is time in it. */
  predicate HasSlot(slots: seq<real>, i: nat) {
    i < |slots| && slots[i] > 0.0
  }

  function Budgeted(cue: string, slots: seq<real>, i: nat): string {
    if HasSlot(slots, i) then "[" + PrintSlot(slots[i]) + "s] " + cue else cue
  }

  function Line(cues: seq<string>, slots: seq<real>, i: nat): string
    requires i < |cues|
  {
    Decimal(i + 1) + ". " + Budgeted(cues[i], slots, i)
  }

  /** The lines from the i-th on, with a line break between each two. */
  function LinesFrom(cues: seq<string>, slots: seq<real>, i: nat): string
    requires i <= |cues|
    decreases |cues| - i
  {
    if i == |cues| then ""
    else Line(cues, slots, i) + (if i + 1 == |cues| then "" else "\n" + LinesFrom(cues, slots, i + 1))
  }

  /** What is put before the model. */
  function Body(cues: seq<string>, slots: seq<real>): string { LinesFrom(cues, slots, 0) }

  // ---- the budget a model copied back ----

  /** What follows a duration in brackets at the front of the text, such as "[2.4s] "; None when there is none. */
  function AfterBudget(t: string): Option<string> {
    if t == "" || t[0] != '[' then None
    else
      var number := Lstrip(t[1..]);
      if Digits(number) == 0 then None
      else
        AfterUnit(AfterFraction(number[Digits(number)..]))
  }

  // `\s*s\s*\]\s*`, in either case.
  function AfterUnit(t: string): Option<string> {
    var unit := Lstrip(t);
    if unit == "" || unit[0] !in "sS" then None
    else
      var bracket := Lstrip(unit[1..]);
      if bracket == "" || bracket[0] != ']' then None else Some(Lstrip(bracket[1..]))
  }

  // The optional "[.,]\d+", taken only when a digit follows the point.
  function AfterFraction(t: string): string {
    if |t| > 1 && t[0] in ".," && IsDigit(t[1]) then t[1 + Digits(t[1..])..] else t
  }

  function StripBudget(line: string): string {
    match AfterBudget(line)
    case Some(rest) => Strip(rest)
    case None => Strip(line)
  }

  // ---- reading an answer ----

  function FindTag(t: string, tag: string, p: nat): (r: Option<nat>)
    ensures r.Some? ==> p <= r.value && OccursAt(t, tag, r.value) && forall q :: p <= q < r.value ==> !OccursAt(t, tag, q)
    ensures r.None? ==> forall q :: p <= q ==> !OccursAt(t, tag, q)
    decreases |t| - p
  {
    if p + |tag| > |t| then None
    else if OccursAt(t, tag, p) then Some(p)
    else if p == |t| then None
    else FindTag(t, tag, p + 1)
  }

  const OPEN_THINK := "<think>"
  const CLOSE_THINK := "</think>"

  /** The text without its reasoning blocks, each from an opening tag to the first closing one after it. */
  function RemoveThink(t: string): string
    decreases |t|
  {
    match FindTag(t, OPEN_THINK, 0)
    case None => t
    case Some(open) =>
      match FindTag(t, CLOSE_THINK, open + |OPEN_THINK|)
      case None => t
      case Some(close) => t[..open] + RemoveThink(t[close + |CLOSE_THINK|..])
  }

  // A numbered line found: its number, its text, and what follows its line.
  datatype Found = Found(number: string, text: string, rest: string)

  /** Past the first line break, or the end of the text. */
  function NextLine(t: string): (r: string)
    ensures |r| <= |t| && (t != "" ==> |r| < |t|)
  {
    if LineLen(t) < |t| then t[LineLen(t) + 1..] else ""
  }

  // Where `\s*(.+)` begins its group: at the first character that is not white
  // space, or, when nothing but white space is left, as late as a line allows.
  function TextFrom(t: string): (r: Option<string>)
    ensures r.Some? ==> r.value != "" && |r.value| <= |t| && r.value[0] != '\n'
  {
    if Lstrip(t) != "" then Some(Lstrip(t)) else LastInLine(t)
  }

  function LastInLine(t: string): (r: Option<string>)
    ensures r.Some? ==> r.value != "" && |r.value| <= |t| && r.value[0] != '\n'
  {
    if t == "" then None
    else if LastInLine(t[1..]).Some? then LastInLine(t[1..])
    else if t[0] != '\n' then Some(t) else None
  }

  /** A numbered line at the front of the text, whatever white space and blank lines come before it. */
  function MatchHere(t: string): (r: Option<Found>)
    ensures r.Some? ==> |r.value.rest| < |t| && AllDigits(r.value.number)
  {
    var number := Lstrip(t);
    var n := Digits(number);
    if n == 0 || n == |number| || number[n] !in ".)" then None
    else
      match TextFrom(number[n + 1..])
      case None => None
      case Some(text) => Some(Found(number[..n], text[..LineLen(text)], NextLine(text)))
  }

  /** Every numbered line of a text, in order. */
  function FindAll(t: string): (r: seq<Found>)
    ensures forall k :: 0 <= k < |r| ==> AllDigits(r[k].number)
    decreases |t|
  {
    if t == "" then []
    else
      match MatchHere(t)
      case None => FindAll(NextLine(t))
      case Some(found) => [found] + FindAll(found.rest)
  }

  /** The answers by number; a number given twice keeps its last line. */
  function Numbered(found: seq<Found>): map<int, string>
    requires forall k :: 0 <= k < |found| ==> AllDigits(found[k].number)
  {
    if found == [] then map[]
    else
      var last := found[|found| - 1];
      Numbered(found[..|found| - 1])[ReadDecimal(last.number) := StripBudget(last.text)]
  }

  function Parsed(answer: string): map<int, string> { Numbered(FindAll(RemoveThink(answer))) }

  /** Every number from 1 is there, and no other. */
  function AlignedOrNone(parsed: map<int, string>, want: nat): Option<seq<string>> {
    if |parsed| != want || exists i :: 1 <= i < want + 1 && i !in parsed then None
    else Some(seq(want, i requires 0 <= i < want => parsed[i + 1]))
  }

  // ---- the cover ----

  function OneTo(n: nat): (r: set<int>)
    ensures forall i :: i in r <==> 1 <= i <= n
    ensures |r| == n
  {
    if n == 0 then {} else OneTo(n - 1) + {n}
  }

  lemma SameSizeSubset(small: set<int>, big: set<int>)
    requires small <= big && |small| == |big|
    ensures small == big
  {
    var more := big - small;
    assert small + more == big && small * more == {};
    assert |more| == 0;
  }

  /** Length and membership together are an exact cover: the answer is used exactly when its numbers are 1 to n, and then in order. */
  lemma AlignedIffExactCover(parsed: map<int, string>, want: nat)
    ensures var out := AlignedOrNone(parsed, want);
      && (out.Some? <==> parsed.Keys == OneTo(want))
      && (out.Some? ==> |out.value| == want && forall i :: 0 <= i < want ==> out.value[i] == parsed[i + 1])
  {
    var keys := parsed.Keys;
    assert |keys| == |parsed|;
    if |parsed| == want && forall i :: 1 <= i < want + 1 ==> i in parsed {
      assert OneTo(want) <= keys;
      SameSizeSubset(OneTo(want), keys);
    }
    if keys == OneTo(want) {
      assert forall i :: 1 <= i < want + 1 ==> i in keys;
    }
  }
}
