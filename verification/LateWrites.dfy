/**
 A song reloaded three times: another goroutine's late "not known" lands over
 the language the song was found to be spoken in
 (services/cast/internal/usecase/engine.go:264-286, 204-230).
 */
module LateWrites {
  import opened Wrappers
  import opened CastSession
  import opened CastReconcile
  import opened CastWorld
  import opened CastSteps
  import opened CastApply
  import opened CastEndings
  import opened CastCaches
  import opened CastNarration
  import opened CastForgets
  import opened LossCases

  /** The mutex of the caches is taken with nothing new written. */
  lemma EnterUnchanged(w: World, m: Memory)
    requires w.lands(|m.trace|) == []
    ensures SameCaches(m, Enter(w, m)) && |Enter(w, m).trace| == |m.trace| + 1
  {
  }

  /** With a song's language standing and its narrated sound ready, and nothing new written, nobody is asked and nothing changes. */
  lemma LanguageIsThere(w: World, m: Memory, s: Session, video: string, now: Time)
    requires s.narration && w.narrator && w.lands(|m.trace|) == []
    requires video in m.spoken && m.spoken[video].Stands(now)
    ensures var (covers, m1) := Covers(w, m, s, video, now);
      covers == Covered(SongOf(true, s, video), m) && SameCaches(m, m1) && |m1.trace| == |m.trace| + 1
  {
    hide Enter;
    EnterUnchanged(w, m);
  }

  lemma FormIsThere(w: World, m: Memory, kind: Kind, video: string, fromS: int, now: Time)
    requires w.narrator && w.lands(|m.trace|) == [] && ReadyKnown(m, kind, video)
    ensures var (form, m1) := NarratedForm(w, m, kind, video, fromS);
      form == NarratedReady && SameCaches(m, m1) && |m1.trace| == |m.trace| + 1
  {
    hide Enter;
    EnterUnchanged(w, m);
  }

  /** What the caches then have settles the song: its narrated sound is ready, and its language stands. */
  predicate Settled(m: Memory, kind: Kind, video: string, now: Time) {
    ReadyKnown(m, kind, video) && video in m.spoken && m.spoken[video].Stands(now)
  }

  lemma SettledIn(m: Memory, m': Memory, s: Session, now: Time)
    requires SameCaches(m, m')
    ensures Settled(m, s.sitting.kind, s.Current().videoId, now) ==> Settled(m', s.sitting.kind, s.Current().videoId, now)
    ensures Covered(AskingOf(true, s), m) == Covered(AskingOf(true, s), m')
  {
  }

  /** The load that comes of it is wanted as the caches have it. */
  lemma WantsWhatIsThere(w: World, m: Memory, s: Session, startS: int, now: Time)
    requires s.HasCurrent() && s.narration && w.narrator && forall n: nat :: n >= |m.trace| ==> w.lands(n) == []
    requires Settled(m, s.sitting.kind, s.Current().videoId, now)
    ensures var (e, m') := Attempt(w, m, s, startS, false, now);
      e.narrated == Covered(AskingOf(true, s), m) && SameCaches(m, m')
  {
    hide Covers, NarratedForm, Covered;
    LanguageIsThere(w, m, s, s.Current().videoId, now);
    FormIsThere(w, Covers(w, m, s, s.Current().videoId, now).1, s.sitting.kind, s.Current().videoId, startS, now);
  }

  /** Others have written these words when the mutex is taken for the n-th call, and nothing after. */
  ghost predicate LandsOnce(w: World, n: nat, words: seq<Word>) {
    w.lands(n) == words && forall k: nat :: k > n ==> w.lands(k) == []
  }

  lemma LooksUpFirst(w: World, m: Memory, s: Session, words: seq<Word>, now: Time)
    requires s.HasCurrent() && s.narration && w.narrator && LandsOnce(w, |m.trace|, words)
    requires Settled(RememberAll(m, words), s.sitting.kind, s.Current().videoId, now)
    ensures var (covers, m1) := Covers(w, m, s, s.Current().videoId, now);
      && covers == Covered(AskingOf(true, s), RememberAll(m, words))
      && SameCaches(RememberAll(m, words), m1) && |m.trace| < |m1.trace|
  {
    hide RememberAll;
    SameWrites(m, m.Log(Entered), words);
  }

  /** The tick finds the song settled, others having written, and reloads it when that is not how it sounds. */
  ghost predicate Finds(step: Step, s: Session, words: seq<Word>, key: string)
    requires s.HasCurrent()
  {
    && Hears(step, s) && s.narration && step.world.narrator
    && LandsOnce(step.world, |Listened(step, s).1.trace|, words)
    && Settled(RememberAll(step.memory, words), s.sitting.kind, s.Current().videoId, step.now)
    && forall n: nat :: step.world.load(n) == Accepted(key)
  }

  lemma FindsAndSwitches(w: World, m: Memory, s: Session, words: seq<Word>, key: string, now: Time)
    requires s.HasCurrent() && s.state == Playing && s.narration && w.narrator && LandsOnce(w, |m.trace|, words)
    requires Settled(RememberAll(m, words), s.sitting.kind, s.Current().videoId, now)
    requires forall n: nat :: w.load(n) == Accepted(key)
    requires s.loadedNarrated != Covered(AskingOf(true, s), RememberAll(m, words))
    ensures SwitchesAfter(w, m, s, now)
    ensures var (after, m') := FollowNarration(w, m, s, now);
      && SameCaches(RememberAll(m, words), m')
      && after == Reload(s, now).0.Loaded(key, !s.loadedNarrated)
  {
    hide Covers, NarratedForm, Covered, RememberAll, Apply, ApplyLoad, Attempt, NarrationSwitch, FollowNarration, Pending;
    var video, known := s.Current().videoId, RememberAll(m, words);
    LooksUpFirst(w, m, s, words, now);
    var (covers, m1) := Covers(w, m, s, video, now);
    SettledIn(known, m1, s, now);
    assert ReadyKnown(m1, s.sitting.kind, video);
    if covers {
      FormIsThere(w, m1, s.sitting.kind, video, s.positionS, now);
    }
    SwitchesWhen(w, m, s, now);
    SwitchReloadsOrStays(w, m, s, now);
    SwitchDecidedIn(w, m, s, now);
    FollowNarrationIs(w, m, s, now);
    var (switched, actions, m2) := NarrationSwitch(w, m, s, now);
    ApplyOneLoad(w, m2, switched, actions[0], now);
    OneRound(w, m2, switched, s.positionS, false, now);
    SettledIn(known, m2, switched, now);
    AttemptAsks(w, m2, switched, s.positionS, false, now);
    WantsWhatIsThere(w, m2, switched, s.positionS, now);
  }

  /** One such tick: the song is reloaded in the other sound, and storage waits for it on the new key. */
  lemma FoundTick(step: Step, s: Session, words: seq<Word>, key: string)
    requires s.HasCurrent() && Finds(step, s, words, key)
    requires s.loadedNarrated != Covered(AskingOf(true, s), RememberAll(step.memory, words))
    ensures Switches(step, s)
    ensures var r := Do(step, s);
      && SameCaches(RememberAll(step.memory, words), r.memory)
      && SameAsking(s, r.session) && r.session.queue == s.queue && r.session.currentIndex == s.currentIndex
      && r.session.state == Loading && r.session.loadedNarrated == !s.loadedNarrated
      && r.session.loadedMediaKey == key && r.session.lastProgressAt == ZERO_TIME
  {
    hide Listened, Do, RememberAll, Covered, SwitchesAfter, FollowNarration, Heard;
    HearingListens(step, s);
    TickIsListenThenFollow(step, s);
    var (playing, m) := Listened(step, s);
    SameWrites(step.memory, m, words);
    SettledIn(RememberAll(step.memory, words), RememberAll(m, words), s, step.now);
    SameAskingIs(true, s, playing);
    FindsAndSwitches(step.world, m, playing, words, key, step.now);
  }

  /** A gateway that answered one goroutine that the song is in Vietnamese, and another one, late, that it is not known. */
  ghost predicate AnsweredLate(s: Session, steps: seq<Step>, keys: seq<string>, learned: SpokenAnswer, late: SpokenAnswer)
    requires s.HasCurrent() && ValidRun(steps)
  {
    var video := s.Current().videoId;
    && |steps| == |keys| == 3 && steps[0].kept && steps[1].kept && steps[2].kept
    && learned.language == VIETNAMESE && late.language == ""
    && s.narrationForcedFor != video && !s.loadedNarrated && KnownLanguage(steps[0].memory, video) == ""
    && Finds(steps[0], s, [], keys[0])
    && Finds(steps[1], At(s, steps, 1), [Language(video, learned)], keys[1])
    && Finds(steps[2], At(s, steps, 2), [Language(video, late)], keys[2])
  }

  lemma OneWord(m: Memory, word: Word)
    ensures RememberAll(m, [word]) == Remember(m, word) && RememberAll(m, []) == m
  {
    assert [word][..0] == [];
  }

  lemma CoveredAfter(a: Asking, m: Memory, spoken: SpokenAnswer)
    requires a.narrator && a.narration && !a.forced
    ensures Covered(a, RememberAll(m, [Language(a.video, spoken)])) <==> spoken.language != VIETNAMESE
    ensures Covered(a, RememberAll(m, [])) <==> KnownLanguage(m, a.video) != VIETNAMESE
  {
    OneWord(m, Language(a.video, spoken));
  }

  lemma ThreeTicks(s: Session, steps: seq<Step>, keys: seq<string>, learned: SpokenAnswer, late: SpokenAnswer)
    requires s.HasCurrent() && ValidRun(steps) && AnsweredLate(s, steps, keys, learned, late)
    ensures Switches(steps[0], s) && Switches(steps[1], At(s, steps, 1)) && Switches(steps[2], At(s, steps, 2))
    ensures forall k :: 0 <= k <= 3 ==> At(s, steps, k).state != Ended && SameAsking(s, At(s, steps, k))
  {
    hide Do, Switches, Covered, RememberAll, At, Finds;
    var a := AskingOf(true, s);
    AtNone(s, steps);
    FoundLive(steps[0], s, [], keys[0]);
    CoveredAfter(a, steps[0].memory, learned);
    FoundTick(steps[0], s, [], keys[0]);
    AtNext(s, steps, 0);
    var s1 := At(s, steps, 1);
    SameAskingIs(true, s, s1);
    CoveredAfter(a, steps[1].memory, learned);
    FoundLive(steps[1], s1, [Language(a.video, learned)], keys[1]);
    FoundTick(steps[1], s1, [Language(a.video, learned)], keys[1]);
    AtNext(s, steps, 1);
    var s2 := At(s, steps, 2);
    SameAskingIs(true, s1, s2);
    CoveredAfter(a, steps[2].memory, late);
    FoundLive(steps[2], s2, [Language(a.video, late)], keys[2]);
    FoundTick(steps[2], s2, [Language(a.video, late)], keys[2]);
    AtNext(s, steps, 2);
  }

  lemma AtNone(s: Session, steps: seq<Step>)
    requires s.HasCurrent() && ValidRun(steps)
    ensures At(s, steps, 0) == s
  {
  }

  lemma FoundLive(step: Step, s: Session, words: seq<Word>, key: string)
    requires s.HasCurrent() && Finds(step, s, words, key)
    ensures s.state != Ended && step.op == TickOp && s.narration && step.world.narrator
  {
    hide Listened, Heard;
  }

  /**
   So a song is reloaded three times although it stays current and nobody
   switches narration: in its narrated sound, in its own once its language is
   known, and in the narrated one again once that is written over.
   */
  lemma ReloadedThreeTimes(s: Session, steps: seq<Step>, keys: seq<string>, learned: SpokenAnswer, late: SpokenAnswer)
    requires s.HasCurrent() && ValidRun(steps) && AnsweredLate(s, steps, keys, learned, late)
    ensures StaysOn(s, steps) && Reloads(s, steps, 3, true) == 3
    ensures OneProcess(true, s, steps) ==> UndoneBy(AskingOf(true, s), s, steps, 3) > 0
  {
    hide Do, Switches, At, Finds, UndoneFor;
    ThreeTicks(s, steps, keys, learned, late);
    AtNone(s, steps);
    AllTicks(s, steps, keys, learned, late);
    assert Reloads(s, steps, 1, true) == 1;
    assert Reloads(s, steps, 2, true) == 2;
    if OneProcess(true, s, steps) {
      ReloadsAtMostTwice(true, s, steps);
      PlainIsInProcess(s, steps[0].memory);
    }
  }

  lemma AllTicks(s: Session, steps: seq<Step>, keys: seq<string>, learned: SpokenAnswer, late: SpokenAnswer)
    requires s.HasCurrent() && ValidRun(steps) && AnsweredLate(s, steps, keys, learned, late)
    ensures forall k :: 0 <= k < |steps| ==> steps[k].op == TickOp
  {
    hide Do, At, Finds;
    FoundLive(steps[0], s, [], keys[0]);
    FoundLive(steps[1], At(s, steps, 1), [Language(s.Current().videoId, learned)], keys[1]);
    FoundLive(steps[2], At(s, steps, 2), [Language(s.Current().videoId, late)], keys[2]);
  }

  lemma PlainIsInProcess(s: Session, m: Memory)
    requires !s.loadedNarrated
    ensures InProcess(true, s, m)
  {
  }

  // ---- three ticks in which that happens ----

  // "a" with narration on, its language not known and its narrated sound ready.
  const ASKED_A := PLAYING_A.(narration := true)
  const BOTH_READY := map["a" := NarratedAnswer(NarratedReady, NarratedReady)]
  const IN_VIETNAMESE := SpokenAnswer(VIETNAMESE, 130)
  const NOT_KNOWN := SpokenAnswer("", 130)

  function Hearing(hears: string, key: string, n: nat, words: seq<Word>): World {
    World({Google}, true, _ => Naming(hears), _ => Accepted(key), _ => true, (_, _) => None, (_, _) => "",
          k => if k == n then words else [])
  }

  const TICKS := [
    Step(Hearing("key-a", "key-1", 1, []), Memory(BOTH_READY, map["a" := NOT_KNOWN], []), 112, TickOp, true),
    Step(Hearing("key-1", "key-2", 2, [Language("a", IN_VIETNAMESE)]), Memory(BOTH_READY, map["a" := NOT_KNOWN], []), 115, TickOp, true),
    Step(Hearing("key-2", "key-3", 2, [Language("a", NOT_KNOWN)]), Memory(BOTH_READY, map["a" := IN_VIETNAMESE], []), 118, TickOp, true)]
  const KEYS := ["key-1", "key-2", "key-3"]

  /** When such a tick finds what it does, by how long its trace is once it has listened. */
  lemma FindsWhen(step: Step, s: Session, n: nat, words: seq<Word>, key: string)
    requires s.HasCurrent() && Hears(step, s) && s.narration && step.world.narrator
    requires n == |step.memory.trace| + (if step.now - s.lastProgressAt < PROGRESS_EVERY then 1 else 2)
    requires LandsOnce(step.world, n, words) && forall k: nat :: step.world.load(k) == Accepted(key)
    requires Settled(RememberAll(step.memory, words), s.sitting.kind, s.Current().videoId, step.now)
    ensures Finds(step, s, words, key)
  {
    hide Listened, Hears, RememberAll;
    assert LiveTick(step, s) by { HearsIsLive(step, s); }
    HearingListens(step, s);
  }

  lemma HearsIsLive(step: Step, s: Session)
    requires Hears(step, s)
    ensures LiveTick(step, s)
  {
  }

  lemma TicksAreAnsweredLate()
    ensures ASKED_A.HasCurrent() && ValidRun(TICKS)
    ensures AnsweredLate(ASKED_A, TICKS, KEYS, IN_VIETNAMESE, NOT_KNOWN) && OneProcess(true, ASKED_A, TICKS)
  {
    hide Do, At, Finds, RememberAll, Switches, Covered;
    var a := AskingOf(true, ASKED_A);
    AtNone(ASKED_A, TICKS);
    OneWord(TICKS[1].memory, Language("a", IN_VIETNAMESE));
    OneWord(TICKS[2].memory, Language("a", NOT_KNOWN));
    CoveredAfter(a, TICKS[0].memory, IN_VIETNAMESE);
    FindsWhen(TICKS[0], ASKED_A, 1, [], "key-1");
    FoundTick(TICKS[0], ASKED_A, [], "key-1");
    AtNext(ASKED_A, TICKS, 0);
    var s1 := At(ASKED_A, TICKS, 1);
    FindsWhen(TICKS[1], s1, 2, [Language("a", IN_VIETNAMESE)], "key-2");
    SameAskingIs(true, ASKED_A, s1);
    CoveredAfter(a, TICKS[1].memory, IN_VIETNAMESE);
    FoundTick(TICKS[1], s1, [Language("a", IN_VIETNAMESE)], "key-2");
    AtNext(ASKED_A, TICKS, 1);
    var s2 := At(ASKED_A, TICKS, 2);
    FindsWhen(TICKS[2], s2, 2, [Language("a", NOT_KNOWN)], "key-3");
  }
}
