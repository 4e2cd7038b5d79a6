/**
 The audit of narration already on disk (scripts/narration-audit.py:45-94): which
 of its reports the server refuses today.
 */
module NarrationAudit {
  import opened Wrappers
  import opened Text
  import opened Alignment
  import opened TranslateServer

  const BATCH := 15
  const DISTINCTIVE := 40

  /** Two lines of a video close enough to have come from one batch, the same and long, for two different cues. */
  predicate SharesALine(cues: seq<string>, lines: seq<string>, i: int, j: int) {
    && 0 <= i < j < i + BATCH && j < |lines| && j < |cues|
    && |Strip(lines[i])| >= DISTINCTIVE
    && Key(lines[i]) == Key(lines[j])
    && Strip(cues[i]) != Strip(cues[j])
  }

  /** Of lines otherwise shared, those within fourteen of each other are reported, and those of forty characters or more. */
  lemma WindowIs(cues: seq<string>, lines: seq<string>, i: int, j: int)
    requires 0 <= i < j < |lines| && j < |cues| && Strip(cues[i]) != Strip(cues[j]) && Key(lines[i]) == Key(lines[j])
    ensures SharesALine(cues, lines, i, j) <==> j - i <= 14 && |Strip(lines[i])| >= 40
  {
    hide Strip, Key;
  }

  predicate NoneShared(cues: seq<string>, lines: seq<string>) {
    forall i, j :: 0 <= i < j < |lines| ==> !SharesALine(cues, lines, i, j)
  }

  /** The first pair of cues that share a line. */
  method Suspect(cues: seq<string>, lines: seq<string>) returns (pair: Option<(nat, nat)>)
    ensures pair.None? <==> NoneShared(cues, lines)
    ensures pair.Some? ==>
      && SharesALine(cues, lines, pair.value.0, pair.value.1)
      && (forall i, j :: 0 <= i < pair.value.0 && i < j < |lines| ==> !SharesALine(cues, lines, i, j))
      && forall j :: pair.value.0 < j < pair.value.1 ==> !SharesALine(cues, lines, pair.value.0, j)
  {
    hide Strip, Casefold;
    for i := 0 to |lines|
      invariant forall a, b :: 0 <= a < i && a < b < |lines| ==> !SharesALine(cues, lines, a, b)
    {
      var text := Strip(lines[i]);
      if |text| < DISTINCTIVE || i >= |cues| {
        continue;
      }
      var key := Casefold(text);
      var end := if i + BATCH < |lines| then i + BATCH else |lines|;
      var j := i + 1;
      while j < end
        invariant i + 1 <= j && (j <= end || j == i + 1)
        invariant forall b :: i < b < j ==> !SharesALine(cues, lines, i, b)
      {
        if j >= |cues| {
          break;
        }
        if Casefold(Strip(lines[j])) == key && Strip(cues[i]) != Strip(cues[j]) {
          assert SharesALine(cues, lines, i, j);
          return Some((i, j));
        }
        j := j + 1;
      }
    }
    return None;
  }

  const QUOTED := 60

  /** The server's own detector, with the line it names quoted. */
  method Borrowed(cues: seq<string>, lines: seq<string>) returns (why: Why, quoted: string)
    ensures why.Fine? || why.Borrowing?
    ensures why.Fine? <==> forall i :: 0 <= i < |lines| - 1 ==> !BorrowsAt(cues, lines, i)
    ensures why.Fine? ==> quoted == ""
    ensures why.Borrowing? ==>
      && BorrowsAt(cues, lines, why.at) && (forall i :: 0 <= i < why.at ==> !BorrowsAt(cues, lines, i))
      && why.at < |lines| && quoted <= lines[why.at] && |quoted| == (if |lines[why.at]| < 60 then |lines[why.at]| else 60)
  {
    hide BorrowsAt;
    why := BorrowedNumber(cues, lines);
    quoted := "";
    if why.Borrowing? {
      BorrowsInside(cues, lines, why.at);
      quoted := if |lines[why.at]| < QUOTED then lines[why.at] else lines[why.at][..QUOTED];
    }
  }

  lemma BorrowsInside(cues: seq<string>, lines: seq<string>, i: int)
    requires BorrowsAt(cues, lines, i)
    ensures 0 <= i < |lines| - 1 && i < |cues| - 1
  {
  }

  lemma LongIsNotBlank(line: string)
    requires |Strip(line)| >= DISTINCTIVE
    ensures Key(line) != ""
  {
    assert |Key(line)| == |Strip(line)|;
  }

  /** A line shared is a line repeated: the audit looks for nothing the server does not. */
  lemma SharedIsRepeated(cues: seq<string>, lines: seq<string>, i: int, j: int)
    requires |lines| <= |cues| && SharesALine(cues, lines, i, j)
    ensures RepeatAt(cues, lines, i, j)
  {
    hide Strip, Key;
    LongIsNotBlank(lines[i]);
  }

  /** Audit soundness. A batch the server accepts gives the audit nothing to report. */
  lemma AcceptedBatchesAreNotReported(cues: seq<string>, lines: seq<string>)
    requires |lines| <= |cues| && Belongs(cues, lines)
    ensures NoneShared(cues, lines)
    ensures forall i :: 0 <= i < |lines| - 1 ==> !BorrowsAt(cues, lines, i)
  {
    hide SharesALine, RepeatAt, BorrowsAt, TooLong;
    forall i, j | 0 <= i < j < |lines| ensures !SharesALine(cues, lines, i, j) {
      if SharesALine(cues, lines, i, j) {
        SharedIsRepeated(cues, lines, i, j);
      }
    }
  }

  // ---- videos of more than one batch ----

  /** Where a video of n cues is cut into batches, both its ends among them. */
  predicate IsCut(ends: seq<nat>, n: nat) {
    && |ends| > 0 && ends[0] == 0 && ends[|ends| - 1] == n
    && forall i, j :: 0 <= i < j < |ends| ==> ends[i] < ends[j]
  }

  /** The server takes a batch: one cue alone, or lines that belong. */
  predicate Accepts(cues: seq<string>, lines: seq<string>)
    requires |lines| <= |cues|
  {
    |cues| > 1 ==> Belongs(cues, lines)
  }

  ghost predicate AllAccepted(cues: seq<string>, lines: seq<string>, ends: seq<nat>)
    requires |lines| == |cues| && IsCut(ends, |cues|)
  {
    forall b :: 0 <= b < |ends| - 1 ==> Accepts(cues[ends[b]..ends[b + 1]], lines[ends[b]..ends[b + 1]])
  }

  ghost predicate Reported(cues: seq<string>, lines: seq<string>) {
    !NoneShared(cues, lines) || exists i :: 0 <= i < |lines| - 1 && BorrowsAt(cues, lines, i)
  }

  /** Cues i and j went in different batches. */
  predicate Separates(ends: seq<nat>, i: int, j: int) {
    exists b :: 0 < b < |ends| && i < ends[b] <= j
  }

  /** Two cues of a video of n that the audit compares. */
  predicate Compared(i: int, j: int, n: nat) { 0 <= i < j < n && j < i + BATCH }

  lemma SharedInABatch(cues: seq<string>, lines: seq<string>, i: nat, j: nat, lo: nat, hi: nat)
    requires |lines| == |cues| && SharesALine(cues, lines, i, j) && lo <= i && j < hi <= |cues|
    ensures !Belongs(cues[lo..hi], lines[lo..hi])
  {
    hide Key, Strip, BorrowsAt, TooLong;
    SharedIsRepeated(cues, lines, i, j);
    assert RepeatAt(cues[lo..hi], lines[lo..hi], i - lo, j - lo);
  }

  lemma BorrowedInABatch(cues: seq<string>, lines: seq<string>, i: nat, lo: nat, hi: nat)
    requires |lines| == |cues| && BorrowsAt(cues, lines, i) && lo <= i && i + 1 < hi <= |cues|
    ensures !Belongs(cues[lo..hi], lines[lo..hi])
  {
    hide IsBorrowed, DigitRuns, RepeatAt, TooLong;
    assert BorrowsAt(cues[lo..hi], lines[lo..hi], i - lo);
  }

  /** The batch a cue went in. */
  lemma {:induction false} BatchOf(ends: seq<nat>, n: nat, i: nat, upTo: nat) returns (b: nat)
    requires IsCut(ends, n) && upTo < |ends| && i < ends[upTo]
    ensures b + 1 <= upTo && ends[b] <= i < ends[b + 1]
    decreases upTo
  {
    if ends[upTo - 1] <= i {
      b := upTo - 1;
    } else {
      b := BatchOf(ends, n, i, upTo - 1);
    }
  }

  /** When the server took every batch, whatever the audit reports of the video lies across a cut. */
  lemma ReportsCrossCuts(cues: seq<string>, lines: seq<string>, ends: seq<nat>)
    requires |lines| == |cues| && IsCut(ends, |cues|) && AllAccepted(cues, lines, ends)
    ensures forall i, j :: SharesALine(cues, lines, i, j) ==> Separates(ends, i, j)
    ensures forall i :: 0 <= i < |lines| - 1 && BorrowsAt(cues, lines, i) ==> Separates(ends, i, i + 1)
  {
    hide SharesALine, BorrowsAt, Belongs;
    forall i, j | SharesALine(cues, lines, i, j) ensures Separates(ends, i, j) {
      SharesInside(cues, lines, i, j);
      if !Separates(ends, i, j) {
        var b := BatchOf(ends, |cues|, i, |ends| - 1);
        SharedInABatch(cues, lines, i, j, ends[b], ends[b + 1]);
        assert false;
      }
    }
    forall i | 0 <= i < |lines| - 1 && BorrowsAt(cues, lines, i) ensures Separates(ends, i, i + 1) {
      if !Separates(ends, i, i + 1) {
        var b := BatchOf(ends, |cues|, i, |ends| - 1);
        BorrowedInABatch(cues, lines, i, ends[b], ends[b + 1]);
        assert false;
      }
    }
  }

  lemma SharesInside(cues: seq<string>, lines: seq<string>, i: int, j: int)
    requires SharesALine(cues, lines, i, j)
    ensures Compared(i, j, |lines|) && j < |cues|
  {
  }

  // ---- a video reported and taken ----

  function Repeat(c: char, n: nat): string { seq(n, _ => c) }

  /** n different cues with n lines, all of letters, and one line twice: at cue c and the one before it. */
  function LongCues(n: nat): seq<string> { seq(n, k requires 0 <= k < n => Repeat('a', 8 + k)) }

  function LineLength(k: nat, c: nat): nat { if k == c || k + 1 == c then DISTINCTIVE else DISTINCTIVE + 1 + k }

  function LongLines(n: nat, c: nat): seq<string> { seq(n, k requires 0 <= k < n => Repeat('x', LineLength(k, c))) }

  lemma RunIsStripped(c: char, n: nat)
    requires n > 0 && !IsSpace(c)
    ensures Strip(Repeat(c, n)) == Repeat(c, n)
  {
    assert Repeat(c, n)[0] == c && Repeat(c, n)[n - 1] == c;
  }

  lemma {:induction false} NoDigitRuns(t: string)
    requires forall k :: 0 <= k < |t| ==> !IsDigit(t[k])
    ensures DigitRuns(t) == []
    decreases |t|
  {
    if t != "" {
      NoDigitRuns(t[1..]);
    }
  }

  lemma RunLineIs(n: nat, c: nat, k: nat)
    requires k < n
    ensures var line := LongLines(n, c)[k];
      Strip(line) == line && |line| == LineLength(k, c) && |Key(line)| == LineLength(k, c) && DigitRuns(line) == []
    ensures Strip(LongCues(n)[k]) == LongCues(n)[k] && |LongCues(n)[k]| == 8 + k
  {
    hide Strip, DigitRuns;
    RunIsStripped('x', LineLength(k, c));
    RunIsStripped('a', 8 + k);
    NoDigitRuns(LongLines(n, c)[k]);
  }

  /** A part of such a video that does not hold both of the lines that are one. */
  lemma PartBelongs(n: nat, c: nat, lo: nat, hi: nat)
    requires lo <= hi <= n && (hi <= c || c <= lo)
    ensures Belongs(LongCues(n)[lo..hi], LongLines(n, c)[lo..hi])
  {
    hide Strip, Key, DigitRuns, LongCues, LongLines, IsBorrowed;
    RunsAre(n, c);
    var cues, lines := LongCues(n)[lo..hi], LongLines(n, c)[lo..hi];
    forall k | 0 <= k < |lines|
      ensures !TooLong(cues[k], lines[k]) && DigitRuns(lines[k]) == [] && |Key(lines[k])| == LineLength(lo + k, c)
    {
      RunLineIs(n, c, lo + k);
    }
    forall i, j | 0 <= i < j < |lines| ensures !RepeatAt(cues, lines, i, j) {
      assert |Key(lines[i])| != |Key(lines[j])|;
    }
  }

  /** Wherever a video is cut, there is one with no blank cue and no two cues the same that the audit reports and the server takes, batch by batch. */
  lemma ReportTheServerAccepts(n: nat, ends: seq<nat>, at: nat)
    requires IsCut(ends, n) && 0 < at < |ends| - 1
    ensures var cues, lines := LongCues(n), LongLines(n, ends[at]);
      && |cues| == |lines| == n && Reported(cues, lines) && AllAccepted(cues, lines, ends)
      && (forall i :: 0 <= i < n ==> Strip(cues[i]) != "" && Strip(lines[i]) != "")
      && (forall i, j :: 0 <= i < j < n ==> cues[i] != cues[j])
  {
    hide Strip, Key, DigitRuns, Belongs, LongCues, LongLines, BorrowsAt;
    var c := ends[at];
    var cues, lines := LongCues(n), LongLines(n, c);
    RunsAre(n, c);
    forall i | 0 <= i < n ensures Strip(cues[i]) != "" && Strip(lines[i]) != "" && |cues[i]| == 8 + i {
      RunLineIs(n, c, i);
    }
    RunLineIs(n, c, c - 1);
    RunLineIs(n, c, c);
    assert SharesALine(cues, lines, c - 1, c);
    forall b | 0 <= b < |ends| - 1 ensures Accepts(cues[ends[b]..ends[b + 1]], lines[ends[b]..ends[b + 1]]) {
      PartBelongs(n, c, ends[b], ends[b + 1]);
    }
  }

  lemma RunsAre(n: nat, c: nat)
    ensures |LongCues(n)| == n && |LongLines(n, c)| == n
    ensures 0 < c < n ==> LongLines(n, c)[c - 1] == LongLines(n, c)[c]
  {
  }

  /** That a video reported is one of which the server refuses a batch. */
  ghost predicate ReportedIsRefused(n: nat, ends: seq<nat>)
    requires IsCut(ends, n)
  {
    forall cues: seq<string>, lines: seq<string> ::
      |cues| == n && |lines| == n && Reported(cues, lines) ==> !AllAccepted(cues, lines, ends)
  }

  /** It is so of every video exactly when no cut separates two cues the audit compares. */
  lemma ReportedIsRefusedWhen(n: nat, ends: seq<nat>)
    requires IsCut(ends, n)
    ensures ReportedIsRefused(n, ends) <==> forall i, j :: Compared(i, j, n) ==> !Separates(ends, i, j)
  {
    hide SharesALine, BorrowsAt, Belongs, Strip;
    if i, j :| Compared(i, j, n) && Separates(ends, i, j) {
      var b :| 0 < b < |ends| && i < ends[b] <= j;
      ReportTheServerAccepts(n, ends, b);
      assert Reported(LongCues(n), LongLines(n, ends[b]));
    } else {
      forall cues: seq<string>, lines: seq<string> | |cues| == n && |lines| == n && Reported(cues, lines)
        ensures !AllAccepted(cues, lines, ends)
      {
        if AllAccepted(cues, lines, ends) {
          ReportsCrossCuts(cues, lines, ends);
          UncutIsNotReported(cues, lines, ends);
          assert false;
        }
      }
    }
  }

  lemma UncutIsNotReported(cues: seq<string>, lines: seq<string>, ends: seq<nat>)
    requires |lines| == |cues| && forall i, j :: Compared(i, j, |cues|) ==> !Separates(ends, i, j)
    requires forall i, j :: SharesALine(cues, lines, i, j) ==> Separates(ends, i, j)
    requires forall i :: 0 <= i < |lines| - 1 && BorrowsAt(cues, lines, i) ==> Separates(ends, i, i + 1)
    ensures !Reported(cues, lines)
  {
    hide SharesALine, BorrowsAt, Separates;
    forall i, j | 0 <= i < j < |lines| ensures !SharesALine(cues, lines, i, j) {
      if SharesALine(cues, lines, i, j) {
        SharesInside(cues, lines, i, j);
      }
    }
    forall i | 0 <= i < |lines| - 1 ensures !BorrowsAt(cues, lines, i) {
      assert Compared(i, i + 1, |cues|);
    }
  }

  // ---- the gateway's cut ----

  const FIRST_BATCH := 3
  const BATCH_SIZE := 15

  /** Three cues and then fifteen at a time, from cue `at` on. */
  function CutFrom(at: nat, n: nat): (ends: seq<nat>)
    requires at <= n
    ensures |ends| > 0 && ends[0] == at && ends[|ends| - 1] == n
    ensures forall i, j :: 0 <= i < j < |ends| ==> ends[i] < ends[j]
    decreases n - at
  {
    if at == n then [n]
    else
      var size := if at == 0 then FIRST_BATCH else BATCH_SIZE;
      [at] + CutFrom(if at + size < n then at + size else n, n)
  }

  /** After the first three cues a batch ends at every fifteenth, as far as there are cues. */
  lemma {:induction false} CutsAt(at: nat, n: nat, k: nat)
    requires 0 < at <= n && k < |CutFrom(at, n)| - 1
    ensures CutFrom(at, n)[k] == at + 15 * k
    decreases n - at
  {
    if k > 0 {
      assert at < n;
      var next := if at + 15 < n then at + 15 else n;
      assert CutFrom(at, n) == [at] + CutFrom(next, n);
      CutsAt(next, n, k - 1);
    }
  }

  lemma GatewayCutsAt(n: nat, k: nat)
    requires 0 < k < |CutFrom(0, n)| - 1
    ensures CutFrom(0, n)[k] == 3 + 15 * (k - 1)
  {
    assert n > 0;
    var next := if 3 < n then 3 else n;
    assert CutFrom(0, n) == [0] + CutFrom(next, n);
    CutsAt(next, n, k - 1);
  }

  /** The gateway's cut of a video leaves the claim true of those of three cues or fewer, and of no longer ones. */
  lemma GatewayCuts(n: nat)
    ensures IsCut(CutFrom(0, n), n)
    ensures forall k :: 0 < k < |CutFrom(0, n)| - 1 ==> CutFrom(0, n)[k] == 3 + 15 * (k - 1)
    ensures ReportedIsRefused(n, CutFrom(0, n)) <==> n <= 3
  {
    hide CutFrom, ReportedIsRefused;
    GatewayClaim(n);
    forall k | 0 < k < |CutFrom(0, n)| - 1 ensures CutFrom(0, n)[k] == 3 + 15 * (k - 1) {
      GatewayCutsAt(n, k);
    }
  }

  lemma GatewayClaim(n: nat)
    ensures IsCut(CutFrom(0, n), n)
    ensures ReportedIsRefused(n, CutFrom(0, n)) <==> n <= 3
  {
    var ends := CutFrom(0, n);
    ReportedIsRefusedWhen(n, ends);
    if n <= 3 {
      assert n > 0 ==> ends == [0] + CutFrom(n, n) == [0, n];
    } else {
      assert ends == [0] + CutFrom(3, n);
      assert Compared(2, 3, n) && Separates(ends, 2, 3) by { assert ends[1] == 3; }
    }
  }
}
