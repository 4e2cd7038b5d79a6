/**
 Where a load lands: the work list that `apply` walks while it grows comes to
 the first song from the one asked for that the speaker takes
 (services/cast/internal/usecase/engine.go, `apply`).
 */
module CastApply {
  import opened Wrappers
  import opened CastSession
  import opened CastReconcile
  import opened CastWorld
  import opened CastSteps

  /** The loads among the calls made since the trace was `from` long. */
  function HandedSince(trace: seq<Event>, from: nat): seq<Event> {
    if |trace| <= from then []
    else
      var last := trace[|trace| - 1];
      HandedSince(trace[..|trace| - 1], from) + (if last.Handed? then [last] else [])
  }

  lemma {:induction false} HandedSplit(trace: seq<Event>, from: nat, mid: nat)
    requires from <= mid <= |trace|
    ensures HandedSince(trace, from) == HandedSince(trace[..mid], from) + HandedSince(trace, mid)
    decreases |trace|
  {
    if |trace| == mid {
      assert trace[..mid] == trace;
    } else {
      var shorter := trace[..|trace| - 1];
      HandedSplit(shorter, from, mid);
      assert shorter[..mid] == trace[..mid];
    }
  }

  lemma {:induction false} QuietHandsNothing(trace: seq<Event>, from: nat)
    requires forall k :: from <= k < |trace| ==> !trace[k].Handed?
    ensures HandedSince(trace, from) == []
    decreases |trace|
  {
    if |trace| > from {
      QuietHandsNothing(trace[..|trace| - 1], from);
    }
  }

  /** A session moved past refused songs to item `index`: loaded afresh there, one version for every song passed. */
  function SkippedTo(s: Session, index: int, now: Time): Session
    requires s.currentIndex <= index < |s.queue| && 0 <= index
  {
    if index == s.currentIndex then s
    else LoadAt(s, index, 0, false, now).0.(version := s.version + index - s.currentIndex)
  }

  /** The k-th load asked for: consecutive songs, only the first from where it was asked and announced. */
  ghost predicate Asks(s: Session, handed: seq<Event>, k: int, startS: int, first: bool)
    requires s.HasCurrent() && 0 <= k < |handed| <= |s.queue| - s.currentIndex
  {
    && handed[k].Handed?
    && handed[k].device == s.sitting.deviceId
    && handed[k].video == s.queue[s.currentIndex + k].videoId
    && handed[k].startS == (if k == 0 then startS else 0)
    && handed[k].first == (k == 0 && first)
  }

  /**
   The loads `handed` are the songs from the current one on, every one but the
   last refused; the last was taken and is what the session now plays, or was
   refused with none left and the session has failed.
   */
  ghost predicate Landed(s: Session, after: Session, handed: seq<Event>, startS: int, first: bool, now: Time)
    requires s.HasCurrent()
  {
    var n := |handed|;
    && 1 <= n <= |s.queue| - s.currentIndex
    && (forall k :: 0 <= k < n ==> Asks(s, handed, k, startS, first))
    && (forall k :: 0 <= k < n - 1 ==> handed[k].TurnedDown())
    && var reached := SkippedTo(s, s.currentIndex + n - 1, now);
       var last := handed[n - 1];
       || (last.Took() && after == reached.Loaded(last.answer.key, last.narrated))
       || (last.TurnedDown() && s.currentIndex + n == |s.queue| && after == End(reached, Failed, now))
  }

  /** An attempt is one load, of the current song. */
  lemma OneAttempt(w: World, m: Memory, s: Session, startS: int, first: bool, now: Time)
    requires s.HasCurrent()
    ensures var (e, m') := Attempt(w, m, s, startS, first, now);
      HandedSince(m'.trace, |m.trace|) == [e] && Asks(s, [e], 0, startS, first)
  {
    var (e, m') := Attempt(w, m, s, startS, first, now);
    QuietHandsNothing(m'.trace[..|m'.trace| - 1], |m.trace|);
  }

  /** Skipping on from a song already skipped to is one longer skip. */
  lemma SkipsAddUp(s: Session, index: int, now: Time)
    requires s.HasCurrent() && s.currentIndex + 1 <= index < |s.queue|
    ensures SkippedTo(LoadAt(s, s.currentIndex + 1, 0, false, now).0, index, now) == SkippedTo(s, index, now)
  {
  }

  lemma LandedOneFurther(s: Session, next: Session, after: Session, e: Event, rest: seq<Event>,
                         startS: int, first: bool, now: Time)
    requires s.HasCurrent() && s.currentIndex + 1 < |s.queue|
    requires next == LoadAt(s, s.currentIndex + 1, 0, false, now).0
    requires Asks(s, [e], 0, startS, first) && e.TurnedDown()
    requires Landed(next, after, rest, 0, false, now)
    ensures Landed(s, after, [e] + rest, startS, first, now)
  {
    hide Asks, SkippedTo, LoadAt;
    var handed := [e] + rest;
    NextIsLoading(s, now);
    forall k | 0 <= k < |handed| ensures Asks(s, handed, k, startS, first) && (k < |handed| - 1 ==> handed[k].TurnedDown()) {
      AsksOneFurther(s, next, e, rest, k, startS, first, now);
      assert k > 0 ==> handed[k] == rest[k - 1] && Asks(next, rest, k - 1, 0, false);
    }
    SkipsAddUp(s, s.currentIndex + |rest|, now);
    assert handed[|handed| - 1] == rest[|rest| - 1];
  }

  lemma AsksOneFurther(s: Session, next: Session, e: Event, rest: seq<Event>, k: nat, startS: int, first: bool, now: Time)
    requires s.HasCurrent() && s.currentIndex + 1 < |s.queue|
    requires next == LoadAt(s, s.currentIndex + 1, 0, false, now).0
    requires k <= |rest| <= |s.queue| - s.currentIndex - 1
    requires Asks(s, [e], 0, startS, first) && (k > 0 ==> Asks(next, rest, k - 1, 0, false))
    ensures Asks(s, [e] + rest, k, startS, first)
  {
    assert k > 0 ==> ([e] + rest)[k] == rest[k - 1];
  }

  /** One round of the work list: taken, refused with nothing after it, or refused and on to the next song. */
  lemma OneRound(w: World, m: Memory, s: Session, startS: int, first: bool, now: Time)
    requires s.HasCurrent() && s.state == Loading
    ensures var (e, m') := Attempt(w, m, s, startS, first, now);
      ApplyLoad(w, m, s, startS, first, now) ==
        if e.Took() then (s.Loaded(e.answer.key, e.narrated), m')
        else if s.currentIndex + 1 == |s.queue| then (End(s, Failed, now), m')
        else ApplyLoad(w, m', LoadAt(s, s.currentIndex + 1, 0, false, now).0, 0, false, now)
  {
    hide Attempt, WantsNarrated;
  }

  lemma InRange(s: Session)
    ensures s.HasCurrent() <==> 0 <= s.currentIndex < |s.queue|
  {
  }

  lemma TakenOrNot()
    ensures forall e: Event :: e.Handed? ==> e.Took() != e.TurnedDown()
  {
  }

  lemma NextIsLoading(s: Session, now: Time)
    requires s.HasCurrent() && s.currentIndex + 1 < |s.queue|
    ensures var next := LoadAt(s, s.currentIndex + 1, 0, false, now).0;
      && next.HasCurrent() && next.state == Loading
      && next.queue == s.queue && next.currentIndex == s.currentIndex + 1
      && |next.queue| - next.currentIndex == |s.queue| - s.currentIndex - 1
  {
  }

  lemma LandedAtOnce(s: Session, after: Session, e: Event, startS: int, first: bool, now: Time)
    requires s.HasCurrent() && Asks(s, [e], 0, startS, first)
    requires
      || (e.Took() && after == s.Loaded(e.answer.key, e.narrated))
      || (e.TurnedDown() && s.currentIndex + 1 == |s.queue| && after == End(s, Failed, now))
    ensures Landed(s, after, [e], startS, first, now)
  {
    assert SkippedTo(s, s.currentIndex, now) == s;
  }

  /**
   `apply` ends although it appends to the list it walks, and comes to the least
   item from the one asked for that the speaker takes, or to a failed session
   when it takes none of them.
   */
  lemma {:induction false} LandsOnTheFirstSongTaken(w: World, m: Memory, s: Session, startS: int, first: bool, now: Time)
    requires s.HasCurrent() && s.state == Loading
    ensures var (after, m') := ApplyLoad(w, m, s, startS, first, now);
      Landed(s, after, HandedSince(m'.trace, |m.trace|), startS, first, now)
    decreases |s.queue| - s.currentIndex
  {
    hide *;
    InRange(s);
    TakenOrNot();
    var (after, m') := ApplyLoad(w, m, s, startS, first, now);
    var (e, m2) := Attempt(w, m, s, startS, first, now);
    OneAttempt(w, m, s, startS, first, now);
    OneRound(w, m, s, startS, first, now);
    if !e.Took() && s.currentIndex + 1 < |s.queue| {
      var next := LoadAt(s, s.currentIndex + 1, 0, false, now).0;
      NextIsLoading(s, now);
      LandsOnTheFirstSongTaken(w, m2, next, 0, false, now);
      LandedOneFurther(s, next, after, e, HandedSince(m'.trace, |m2.trace|), startS, first, now);
      HandedSplit(m'.trace, |m.trace|, |m2.trace|);
      assert m'.trace[..|m2.trace|] == m2.trace;
    } else {
      LandedAtOnce(s, after, e, startS, first, now);
    }
  }

  lemma ApplyNothing(w: World, m: Memory, s: Session, now: Time)
    ensures Pending(s, []) && Apply(w, m, s, [], now) == (s, m)
  {
  }

  /** A load asked for first is the only thing asked for, and refused comes to carrying out what skipping the song asks for. */
  lemma ApplyLoadFirst(w: World, m: Memory, s: Session, actions: seq<Action>, now: Time)
    requires actions != [] && Pending(s, actions) && actions[0].Load?
    ensures |actions| == 1 && s.HasCurrent() && actions[0].index == s.currentIndex
    ensures var (e, m') := Attempt(w, m, s, actions[0].startS, actions[0].first, now);
      var (skipped, more) := SkipFailed(s, now);
      && Pending(skipped, more) && |skipped.queue| == |s.queue|
      && (if more == [] then skipped.currentIndex == s.currentIndex else s.currentIndex < skipped.currentIndex < |s.queue|)
      && Apply(w, m, s, actions, now) ==
         if e.answer.Accepted? then (s.Loaded(e.answer.key, e.narrated), m') else Apply(w, m', skipped, more, now)
  {
    hide Attempt, ApplyLoad;
    assert actions[|actions| - 1].Load? by {
      assert actions[0].Load?;
    }
    var (startS, first) := (actions[0].startS, actions[0].first);
    OneRound(w, m, s, startS, first, now);
    RefusedGoesOn(w, Attempt(w, m, s, startS, first, now).1, s, now);
  }

  /** Anything else asked for first is one call, and the rest follows. */
  lemma ApplyCallFirst(w: World, m: Memory, s: Session, actions: seq<Action>, now: Time)
    requires actions != [] && Pending(s, actions) && !actions[0].Load?
    ensures Pending(s, actions[1..])
    ensures var e := if actions[0].StopDevice? then Ordered(s.sitting.deviceId, StopOrder, w.hears(|m.trace|))
                     else Wrote(s.sitting.startedBy, actions[0].videoId, actions[0].positionS, actions[0].durationS);
      Apply(w, m, s, actions, now) == Apply(w, m.Log(e), s, actions[1..], now)
  {
    assert forall k :: 0 <= k < |actions| - 1 ==> actions[1..][k] == actions[k + 1];
  }

  lemma RefusedGoesOn(w: World, m: Memory, s: Session, now: Time)
    requires s.HasCurrent()
    ensures var (skipped, more) := SkipFailed(s, now);
      && Pending(skipped, more) && |skipped.queue| == |s.queue|
      && if s.currentIndex + 1 == |s.queue| then
           (skipped, more) == (End(s, Failed, now), []) && Apply(w, m, skipped, more, now) == (skipped, m)
         else
           && skipped == LoadAt(s, s.currentIndex + 1, 0, false, now).0 && more != []
           && Apply(w, m, skipped, more, now) == ApplyLoad(w, m, skipped, 0, false, now)
  {
    hide ApplyLoad;
    if s.currentIndex + 1 < |s.queue| {
      NextIsLoading(s, now);
      ApplyOneLoad(w, m, LoadAt(s, s.currentIndex + 1, 0, false, now).0, Load(s.currentIndex + 1, 0, false), now);
    }
  }

  lemma ApplyOneLoad(w: World, m: Memory, s: Session, load: Action, now: Time)
    requires s.HasCurrent() && load.Load? && Pending(s, [load])
    ensures s.state == Loading && Apply(w, m, s, [load], now) == ApplyLoad(w, m, s, load.startS, load.first, now)
  {
    hide ApplyLoad;
    assert [load][0] == load;
  }

  lemma ApplyOneRecord(w: World, m: Memory, s: Session, record: Action, now: Time)
    requires record.RecordProgress? && Pending(s, [record])
    ensures Apply(w, m, s, [record], now)
         == (s, m.Log(Wrote(s.sitting.startedBy, record.videoId, record.positionS, record.durationS)))
  {
    hide ApplyLoad;
    var m' := m.Log(Wrote(s.sitting.startedBy, record.videoId, record.positionS, record.durationS));
    assert [record][1..] == [];
    assert Apply(w, m', s, [], now) == (s, m');
  }

  /** The first song asked for, taken, is the one the session stands on; refused, it is left behind. */
  lemma LandedFirst(s: Session, after: Session, handed: seq<Event>, startS: int, first: bool, now: Time)
    requires s.HasCurrent() && s.state == Loading && Landed(s, after, handed, startS, first, now)
    ensures handed != [] && handed[0].Handed? && handed[0].video == s.Current().videoId
    ensures handed[0].startS == startS && handed[0].first == first
    ensures s.currentIndex <= after.currentIndex
    ensures handed[0].Took() ==> |handed| == 1 && after == s.Loaded(handed[0].answer.key, handed[0].narrated)
    ensures handed[0].TurnedDown() ==> after.currentIndex > s.currentIndex || after.state == Ended
  {
    assert Asks(s, handed, 0, startS, first);
  }

  /** The session a load that stopped at item `j` leaves: waiting for that item, or failed at the last. */
  ghost predicate StandsAt(s: Session, after: Session, j: int, now: Time) {
    && s.currentIndex <= j < |s.queue|
    && after.sitting == s.sitting && after.queue == s.queue && after.currentIndex == j
    && after.version == s.version + j - s.currentIndex
    && (after.state == Loading || (after.state == Ended && after.endedReason == Failed && j == |s.queue| - 1))
    && after.loadingSince == (if j == s.currentIndex then s.loadingSince else now)
    && after.lastSeenOK == s.lastSeenOK
    && after.narration == s.narration && after.narrationForcedFor == s.narrationForcedFor
  }

  lemma LandedStands(s: Session, after: Session, handed: seq<Event>, startS: int, first: bool, now: Time)
    requires s.HasCurrent() && s.state == Loading && Landed(s, after, handed, startS, first, now)
    ensures StandsAt(s, after, s.currentIndex + |handed| - 1, now)
  {
    hide Asks, SkippedTo;
    SkippedStands(s, s.currentIndex + |handed| - 1, now);
  }

  lemma SkippedStands(s: Session, j: int, now: Time)
    requires s.HasCurrent() && s.state == Loading && s.currentIndex <= j < |s.queue|
    ensures StandsAt(s, SkippedTo(s, j, now), j, now) && SkippedTo(s, j, now).state == Loading
  {
  }

  /** What carrying out a decision may do to its session: nothing, or land a load of its current item. */
  ghost predicate Reached(s: Session, after: Session, now: Time)
  {
    after == s || (s.state == Loading && exists j :: StandsAt(s, after, j, now))
  }

  /** A work list with no load leaves its session as it is; one with a load comes to that load and nothing after it. */
  lemma {:induction false} CarryingOutReaches(w: World, m: Memory, s: Session, actions: seq<Action>, now: Time)
    requires s.HasCurrent() && Pending(s, actions)
    ensures Reached(s, Apply(w, m, s, actions, now).0, now)
    decreases |actions|
  {
    if actions != [] {
      match actions[0]
      case Load(_, startS, first) =>
        LoadReaches(w, m, s, startS, first, now);
      case StopDevice =>
        CarryingOutReaches(w, m.Log(Ordered(s.sitting.deviceId, StopOrder, w.hears(|m.trace|))), s, actions[1..], now);
      case RecordProgress(video, positionS, durationS) =>
        CarryingOutReaches(w, m.Log(Wrote(s.sitting.startedBy, video, positionS, durationS)), s, actions[1..], now);
    }
  }

  lemma LoadReaches(w: World, m: Memory, s: Session, startS: int, first: bool, now: Time)
    requires s.HasCurrent() && s.state == Loading
    ensures Reached(s, ApplyLoad(w, m, s, startS, first, now).0, now)
  {
    hide ApplyLoad, Landed, StandsAt;
    var (after, m') := ApplyLoad(w, m, s, startS, first, now);
    LandsOnTheFirstSongTaken(w, m, s, startS, first, now);
    LandedStands(s, after, HandedSince(m'.trace, |m.trace|), startS, first, now);
  }

  ghost predicate AsksForLoad(actions: seq<Action>) {
    exists k :: 0 <= k < |actions| && actions[k].Load?
  }

  lemma NoActions()
    ensures !AsksForLoad([])
  {
  }

  lemma OneAction(action: Action)
    ensures AsksForLoad([action]) == action.Load?
    ensures forall r: Action :: AsksForLoad([r, action]) == (r.Load? || action.Load?)
  {
    assert action.Load? ==> [action][0].Load?;
    forall r: Action ensures AsksForLoad([r, action]) == (r.Load? || action.Load?) {
      assert [r, action][0] == r && [r, action][1] == action;
    }
  }

  lemma ReconcileLoadsOnlyWhenMoving(s: Session, answer: Option<DeviceStatus>, now: Time)
    requires s.HasCurrent() && s.state != Ended
    ensures var (after, actions) := Reconcile(s, answer, now);
      AsksForLoad(actions) <==> after.currentIndex != s.currentIndex
  {
    var (after, actions) := Reconcile(s, answer, now);
    MovesOnAfresh(s, answer, now);
    if |actions| == 1 {
      OneAction(actions[0]);
      assert actions == [actions[0]];
    } else if |actions| == 2 {
      OneAction(actions[1]);
      assert actions == [actions[0], actions[1]];
    }
  }
}
