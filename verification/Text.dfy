/**
 Python's strings, as far as numbered lines need them: white space, digits,
 decimal numbers and lines. Characters are ASCII.
 */
module Text {

  // What `str.isspace` and `\s` hold true of.
  predicate IsSpace(c: char) {
    c == ' ' || 9 <= c as int <= 13 || 28 <= c as int <= 31
  }

  predicate IsDigit(c: char) { '0' <= c <= '9' }

  /** The text from its first character that is not white space. */
  function Lstrip(t: string): (r: string)
    ensures |r| <= |t| && (r != "" ==> !IsSpace(r[0]))
  {
    if t == "" || !IsSpace(t[0]) then t else Lstrip(t[1..])
  }

  function Rstrip(t: string): (r: string)
    ensures r <= t && (r != "" ==> !IsSpace(r[|r| - 1]))
  {
    if t == "" || !IsSpace(t[|t| - 1]) then t else Rstrip(t[..|t| - 1])
  }

  function Strip(t: string): string { Rstrip(Lstrip(t)) }

  /** How many digits the text opens with. */
  function Digits(t: string): (n: nat)
    ensures n <= |t|
    ensures forall k :: 0 <= k < n ==> IsDigit(t[k])
    ensures n < |t| ==> !IsDigit(t[n])
  {
    if t == "" || !IsDigit(t[0]) then 0 else 1 + Digits(t[1..])
  }

  /** How far the first line of the text goes. */
  function LineLen(t: string): (n: nat)
    ensures n <= |t|
    ensures forall k :: 0 <= k < n ==> t[k] != '\n'
    ensures n < |t| ==> t[n] == '\n'
  {
    if t == "" || t[0] == '\n' then 0 else 1 + LineLen(t[1..])
  }

  predicate AllDigits(t: string) { forall k :: 0 <= k < |t| ==> IsDigit(t[k]) }

  predicate OneLine(t: string) { forall k :: 0 <= k < |t| ==> t[k] != '\n' }

  predicate OccursAt(t: string, part: string, p: nat) { p + |part| <= |t| && t[p..p + |part|] == part }

  // ---- decimal numbers ----

  function DigitOf(n: nat): (c: char)
    requires n < 10
    ensures IsDigit(c)
  {
    '0' + n as char
  }

  function Decimal(n: nat): (t: string)
    ensures t != "" && AllDigits(t)
  {
    if n < 10 then [DigitOf(n)] else Decimal(n / 10) + [DigitOf(n % 10)]
  }

  /** Python's `int` of a run of digits. */
  function ReadDecimal(t: string): nat
    requires AllDigits(t)
  {
    if t == "" then 0 else 10 * ReadDecimal(t[..|t| - 1]) + (t[|t| - 1] - '0') as nat
  }

  lemma {:induction false} DecimalReadsBack(n: nat)
    ensures ReadDecimal(Decimal(n)) == n
  {
    if n >= 10 {
      DecimalReadsBack(n / 10);
      assert Decimal(n)[..|Decimal(n)| - 1] == Decimal(n / 10);
    }
  }

  // ---- runs ----

  lemma {:induction false} DigitsOfARun(run: string, rest: string)
    requires AllDigits(run) && (rest != "" ==> !IsDigit(rest[0]))
    ensures Digits(run + rest) == |run|
  {
    if run == "" {
      assert run + rest == rest;
    } else {
      assert (run + rest)[1..] == run[1..] + rest;
      DigitsOfARun(run[1..], rest);
    }
  }

  lemma {:induction false} LineLenOfALine(line: string, rest: string)
    requires OneLine(line) && (rest != "" ==> rest[0] == '\n')
    ensures LineLen(line + rest) == |line|
  {
    if line == "" {
      assert line + rest == rest;
    } else {
      assert (line + rest)[1..] == line[1..] + rest;
      LineLenOfALine(line[1..], rest);
    }
  }

  /** Stripping the front of a text that is not blank leaves what follows it alone. */
  lemma {:induction false} LstripOfMore(t: string, rest: string)
    requires Lstrip(t) != ""
    ensures Lstrip(t + rest) == Lstrip(t) + rest
  {
    if IsSpace(t[0]) {
      assert (t + rest)[1..] == t[1..] + rest;
      LstripOfMore(t[1..], rest);
    }
  }

  lemma {:induction false} LstripKeepsLines(t: string)
    requires OneLine(t)
    ensures OneLine(Lstrip(t))
  {
    if t != "" && IsSpace(t[0]) {
      LstripKeepsLines(t[1..]);
    }
  }

  lemma LstripTwice(t: string)
    ensures Lstrip(Lstrip(t)) == Lstrip(t)
  {
  }

  lemma {:induction false} RstripKeepsFront(t: string)
    requires t != "" && !IsSpace(t[0])
    ensures Rstrip(t) != "" && Rstrip(t)[0] == t[0]
  {
    if IsSpace(t[|t| - 1]) {
      RstripKeepsFront(t[..|t| - 1]);
    }
  }

  lemma BlankOrNot(t: string)
    ensures Strip(t) == "" <==> Lstrip(t) == ""
  {
    if Lstrip(t) != "" {
      RstripKeepsFront(Lstrip(t));
    }
  }
}
