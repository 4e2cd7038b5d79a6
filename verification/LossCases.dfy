/** Cases in which a write that does not go through costs what CastLosses and CastForgets say. */
module LossCases {
  import opened Wrappers
  import opened CastSession
  import opened CastReconcile
  import opened CastWorld
  import opened CastSteps
  import opened CastStore
  import opened CastApply
  import opened CastSpeaker
  import opened CastEndings
  import opened CastCommands
  import opened CastRates
  import opened CastLosses
  import opened CastNarration
  import opened CastForgets

  // A world in which every call is answered the same way.
  function Steady(status: Option<DeviceStatus>, load: LoadAnswer): World {
    World({R1, Google}, false, _ => status, _ => load, _ => true, (_, _) => None, (_, _) => "", _ => [])
  }

  function Naming(key: string): Option<DeviceStatus> { Some(DeviceStatus(DevicePlaying, key, 5, 60, 30, IdleNone)) }

  function Song(video: string): Item { Item(video, video, "", "", 60) }

  const KITCHEN := Sitting("s1", "kitchen", "Kitchen", Google, "u", 100)
  const NOTHING := Memory(map[], map[], [])

  /** "Next" is pressed on a live session, and the speaker takes the next song, which is another. */
  ghost predicate NextIsTaken(next: Step, s: Session) {
    && next.op == CommandOp(Next) && Live(next.world, s) && s.currentIndex + 1 < |s.queue|
    && s.queue[s.currentIndex + 1].videoId != s.Current().videoId
    && (forall n: nat :: next.world.load(n).Accepted?)
  }

  lemma NextLands(next: Step, s: Session)
    requires NextIsTaken(next, s)
    ensures var after := Do(next, s).session;
      && after.state == Loading && after.Current() == s.queue[s.currentIndex + 1]
      && (exists n: nat :: next.world.load(n) == Accepted(after.loadedMediaKey))
  {
    hide ApplyLoad, Attempt, Apply, NarrationSwitch, ReplaceQueue, Pending;
    var w, m, now := next.world, next.memory, next.now;
    var (loading, load) := LoadAt(s, s.currentIndex + 1, 0, false, now);
    DecisionIsPending(w, m, s, Next, now);
    ApplyOneLoad(w, m, loading, load, now);
    OneRound(w, m, loading, 0, false, now);
    AttemptAsks(w, m, loading, 0, false, now);
  }

  lemma AttemptAsks(w: World, m: Memory, s: Session, startS: int, first: bool, now: Time)
    requires s.HasCurrent()
    ensures exists n: nat :: w.load(n) == Attempt(w, m, s, startS, first, now).0.answer
  {
    hide WantsNarrated;
    var m' := WantsNarrated(w, m, s, s.Current().videoId, startS, now).1;
    assert w.load(|m'.trace|) == Attempt(w, m, s, startS, first, now).0.answer;
  }

  /** Its save lost, the speaker plays the next song, and a handoff of what is stored writes for the one before. */
  lemma LostNextIsWrittenForAnother(sp: Speaker, s: Session, next: Step, w: World, m: Memory, now: Time)
    requires NextIsTaken(next, s) && Tracks(s, sp) && Live(w, s)
    ensures HeardThrough(sp, next, s).video == s.queue[s.currentIndex + 1].videoId
    ensures !Attributed(HeardThrough(sp, next, s), Run(w, m, s, Handoff, now).memory.trace, |m.trace|)
  {
    hide HeardThrough, Attributed, Run, Do, Tracks;
    NextLands(next, s);
    HeardAfter(sp, s, next);
    HandoffIsOf(HeardThrough(sp, next, s), w, m, s, now);
  }

  /** The next tick hears that song, and ends the session as taken over, when its key is not one the session knows. */
  lemma LostNextReadsAsTakeover(s: Session, next: Step, tick: Step)
    requires NextIsTaken(next, s) && LiveTick(tick, s) && Answer(tick).Some?
    requires Answer(tick).value.mediaKey == Do(next, s).session.loadedMediaKey
    requires forall n: nat :: next.world.load(n).key !in {"", s.loadedMediaKey, s.prevMediaKey}
    ensures EndedAs(Do(tick, s).session, TakenOver)
  {
    hide Do;
    NextLands(next, s);
    TakenOverOnlyByAForeignKey(tick, s);
  }

  // "a" plays, the first of two songs.
  const PLAYING_A := Session(KITCHEN, [Song("a"), Song("b")], 0, Playing, NotEnded, 5, 60, 30, false, false, "", "key-a", "", true,
                             ZERO_TIME, 110, 110, 1, 110)
  const HANDED_A := Speaker("a", "key-a", "", true)

  /** A session of which all that is so. */
  lemma PlayingA()
    ensures NextIsTaken(Step(Steady(None, Accepted("key-b")), NOTHING, 120, CommandOp(Next), false), PLAYING_A)
    ensures Tracks(PLAYING_A, HANDED_A)
    ensures LiveTick(Step(Steady(Naming("key-b"), Refused), NOTHING, 123, TickOp, true), PLAYING_A)
    ensures "key-b" !in {"", PLAYING_A.loadedMediaKey, PLAYING_A.prevMediaKey}
  {
  }

  /**
   "a" plays on the kitchen speaker and "b" is started there. Storage replaces
   the first session by the second, and the second is ended as taken over by
   its first tick if that still hears "a".
   */
  lemma StartOverAPlayingSong(kept: bool)
    ensures var sitting := KITCHEN.(id := "s2");
      var started := Start(Steady(None, Accepted("key-b")), NOTHING, sitting, [Song("b")], 0, 0, false, 120).0;
      started.Some?
      && var store := Created(map["s1" := PLAYING_A], started.value, 120);
         var tick := Step(Steady(Naming("key-a"), Refused), NOTHING, 123, TickOp, kept);
         && EndedAs(store["s1"], Replaced) && store["s2"] == started.value
         && EndedAs(Do(tick, store["s2"]).session, TakenOver)
  {
    hide Do;
    var sitting := KITCHEN.(id := "s2");
    var w := Steady(None, Accepted("key-b"));
    var started := Start(w, NOTHING, sitting, [Song("b")], 0, 0, false, 120).0;
    var tick := Step(Steady(Naming("key-a"), Refused), NOTHING, 123, TickOp, kept);
    StartIsTakenOverByTheSongItReplaced(w, NOTHING, sitting, [Song("b")], 0, 0, false, 120, tick);
  }

  // ---- a song started and not stored ----

  lemma StartTaken(w: World, m: Memory, sitting: Sitting, items: seq<Item>, start: int, startS: int, narration: bool, now: Time)
    requires 0 <= start < |items| && forall n: nat :: w.load(n).Accepted?
    ensures Start(w, m, sitting, items, start, startS, narration, now).0.Some?
  {
    hide Attempt;
    var s := LoadAt(NewSession(sitting, items, narration, now), start, Max(startS, 0), true, now).0;
    AttemptAsks(w, m, s, Max(startS, 0), true, now);
  }

  /** "b" is started over "a", taken, and cannot be stored: handing off what is stored writes for "a", and "b" is what was handed over. */
  lemma FailedStartIsWrittenForAnother(w: World, m: Memory, now: Time)
    requires Live(w, PLAYING_A)
    ensures var via := Steady(None, Accepted("key-b"));
      var m1 := Start(via, NOTHING, KITCHEN.(id := "s2"), [Song("b")], 0, 0, false, 120).1;
      !Attributed(HeardSince(HANDED_A, m1.trace, 0), Run(w, m, PLAYING_A, Handoff, now).memory.trace, |m.trace|)
  {
    hide Start, Run, Attributed, HeardSince;
    var via := Step(Steady(None, Accepted("key-b")), NOTHING, 120, TickOp, false);
    var sitting := KITCHEN.(id := "s2");
    StartTaken(via.world, NOTHING, sitting, [Song("b")], 0, 0, false, 120);
    FailedCreateIsWrittenForAnother(HANDED_A, PLAYING_A, via, sitting, [Song("b")], 0, 0, false, w, m, now);
  }

  // ---- what is forgotten ----

  lemma PlainIsLeft(w: World, m: Memory, s: Session, now: Time)
    requires s.HasCurrent() && !s.narration && !s.loadedNarrated
    ensures FollowNarration(w, m, s, now) == (s, m)
  {
  }

  /** A tick that hears a song in its own sound, with narration off, asks and does nothing else but report every ten seconds. */
  lemma PlainTick(step: Step, s: Session)
    requires s.HasCurrent() && Hears(step, s) && !s.narration && !s.loadedNarrated
    ensures !Loads(step, s)
    ensures Reports(step, s) <==> step.now - s.lastProgressAt >= PROGRESS_EVERY
  {
    hide Listened, Do, Loads, Reports, Heard, Apply, NarrationSwitch, Calls;
    HearingListens(step, s);
    TickIsListenThenFollow(step, s);
    var (listened, m) := Listened(step, s);
    PlainIsLeft(step.world, m, listened, step.now);
    CallsAreSince(step, s);
    var trace, from := m.trace, |step.memory.trace|;
    assert step.now - s.lastProgressAt >= PROGRESS_EVERY ==> trace[from + 1].Wrote?;
  }

  /** A report that is due and whose save is lost is made twice within ten seconds. */
  lemma LostReportIsMadeTwice(s: Session, first: Step, second: Step)
    requires s.HasCurrent() && !s.narration && !s.loadedNarrated && !first.kept && Hears(first, s) && Hears(second, s)
    requires s.lastProgressAt + PROGRESS_EVERY <= first.now <= second.now < first.now + PROGRESS_EVERY
    ensures Reports(first, s) && Reports(second, StoredBy(first, s))
  {
    hide Do, Loads, Reports, Reconcile, Listened;
    PlainTick(first, s);
    PlainTick(second, s);
  }

  /** An answer at 138 whose save is lost does not keep the session, last heard at 110, from ending as offline from 141 on. */
  lemma LostAnswerEndsPlayingA(silent: Step)
    requires LiveTick(silent, PLAYING_A) && Answer(silent).None? && 140 < silent.now <= 168
    ensures Answer(HEARS_A.(now := 138)).Some? && LiveTick(HEARS_A.(now := 138), PLAYING_A)
    ensures EndedAs(Do(silent, PLAYING_A).session, DeviceOffline)
  {
    hide Do;
    LostAnswerIsForgotten(PLAYING_A, HEARS_A.(now := 138), silent);
  }

  /** A song that sounds narrated with narration off is reloaded by every tick that hears it, until a save goes through. */
  lemma LostReloadIsMadeTwice(s: Session, lost: Step, again: Step)
    requires s.HasCurrent() && !s.narration && s.loadedNarrated && Hears(lost, s) && Hears(again, s)
    ensures Switches(lost, s) && Switches(again, s)
  {
    hide Listened, NarrationSwitch, NarratedForm;
    HearingListens(lost, s);
    HearingListens(again, s);
    SwitchesWhen(lost.world, Listened(lost, s).1, Listened(lost, s).0, lost.now);
    LostReloadIsMadeAgain(s, lost, again);
  }

  // Hears "a" on the kitchen speaker; its save is lost.
  const HEARS_A := Step(Steady(Naming("key-a"), Refused), NOTHING, 121, TickOp, false)

  /** "a" in its own sound or narrated is heard, and its report is due. */
  lemma HearsA()
    ensures Hears(HEARS_A, PLAYING_A) && Hears(HEARS_A.(now := 124), PLAYING_A)
    ensures Hears(HEARS_A, PLAYING_A.(loadedNarrated := true))
    ensures PLAYING_A.lastProgressAt + PROGRESS_EVERY <= HEARS_A.now
    ensures !PLAYING_A.narration && !PLAYING_A.loadedNarrated && !HEARS_A.kept
  {
  }
}
