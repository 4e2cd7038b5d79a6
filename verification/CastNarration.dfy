/**
 Narration does not thrash: how often a song is reloaded to change between its
 own sound and its narrated sound, with the engine's memory of the gateway's
 answers shared by every speaker and written by their goroutines at any time.
 */
module CastNarration {
  import opened Wrappers
  import opened CastSession
  import opened CastReconcile
  import opened CastWorld
  import opened CastSteps
  import opened CastApply
  import opened CastEndings
  import opened CastCaches

  function SongOf(narrator: bool, s: Session, video: string): Asking {
    Asking(narrator, s.sitting.kind, video, s.narration, s.narrationForcedFor == video)
  }

  /** What is asked of the song that is current. */
  function AskingOf(narrator: bool, s: Session): Asking { SongOf(narrator, s, s.Current().videoId) }

  // ---- questions ----

  lemma CoversSpends(a: Asking, w: World, m: Memory, s: Session, video: string, now: Time)
    ensures var (covers, m') := Covers(w, m, s, video, now);
      Spends(a, m, m') && covers == Covered(SongOf(w.narrator, s, video), m')
  {
    hide SpokenLanguage, Spends;
    SpendsNothing(a, m, m);
    LanguageSpends(a, w, m, video, now);
  }

  lemma WantsLands(a: Asking, w: World, m: Memory, s: Session, video: string, fromS: int, now: Time) returns (m1: Memory)
    ensures var (wants, m') := WantsNarrated(w, m, s, video, fromS, now);
      Spends(a, m, m1) && Spends(a, m1, m') && LandsAs(SongOf(w.narrator, s, video), m1, m', wants)
  {
    hide Covers, NarratedForm, Spends, Covered;
    CoversSpends(a, w, m, s, video, now);
    m1 := Covers(w, m, s, video, now).1;
    SpendsNothing(a, m1, m1);
    FormSpends(a, w, m1, s.sitting.kind, video, fromS);
  }

  lemma AttemptLands(a: Asking, w: World, m: Memory, s: Session, startS: int, first: bool, now: Time) returns (m1: Memory)
    requires s.HasCurrent()
    ensures var (e, m') := Attempt(w, m, s, startS, first, now);
      Spends(a, m, m1) && Spends(a, m1, m') && LandsAs(AskingOf(w.narrator, s), m1, m', e.narrated)
  {
    hide WantsNarrated, Spends, Covered;
    var video := s.Current().videoId;
    m1 := WantsLands(a, w, m, s, video, startS, now);
    var m2 := WantsNarrated(w, m, s, video, startS, now).1;
    var (e, m') := Attempt(w, m, s, startS, first, now);
    LogSpends(a, m2, e);
    SpendsOn(a, m1, m2, m');
  }

  /**
   The load that lands hands the song over narrated exactly when it is covered,
   by its language when that was looked up, and known to be ready.
   */
  lemma {:induction false} LoadLands(a: Asking, w: World, m: Memory, s: Session, startS: int, first: bool, now: Time)
    returns (m1: Memory)
    requires s.HasCurrent() && s.state == Loading
    ensures var (after, m') := ApplyLoad(w, m, s, startS, first, now);
      && Spends(a, m, m1) && Spends(a, m1, m')
      && (after.state != Ended ==> LandsAs(AskingOf(w.narrator, after), m1, m', after.loadedNarrated))
    decreases |s.queue| - s.currentIndex
  {
    hide *;
    InRange(s);
    TakenOrNot();
    var (e, m2) := Attempt(w, m, s, startS, first, now);
    m1 := AttemptLands(a, w, m, s, startS, first, now);
    OneRound(w, m, s, startS, first, now);
    if !e.Took() && s.currentIndex + 1 < |s.queue| {
      NextIsLoading(s, now);
      var next := LoadAt(s, s.currentIndex + 1, 0, false, now).0;
      SpendsOn(a, m, m1, m2);
      m1 := LoadLands(a, w, m2, next, 0, false, now);
      SpendsOn(a, m, m2, m1);
    } else if !e.Took() {
      EndingEnds(s, Failed, now);
    } else {
      TakenIs(w.narrator, s, e);
    }
  }

  lemma EndingEnds(s: Session, reason: EndedReason, now: Time)
    ensures End(s, reason, now).state == Ended
  {
  }

  lemma TakenIs(narrator: bool, s: Session, e: Event)
    requires e.Took()
    ensures var taken := s.Loaded(e.answer.key, e.narrated);
      taken.loadedNarrated == e.narrated && AskingOf(narrator, taken) == AskingOf(narrator, s)
  {
  }

  lemma {:induction false} CarryingOutLands(a: Asking, w: World, m: Memory, s: Session, actions: seq<Action>, now: Time)
    returns (m1: Memory)
    requires s.HasCurrent() && Pending(s, actions)
    ensures var (after, m') := Apply(w, m, s, actions, now);
      && Spends(a, m, m1) && Spends(a, m1, m')
      && (!AsksForLoad(actions) ==> after == s)
      && (AsksForLoad(actions) ==>
            after.state == Ended || LandsAs(AskingOf(w.narrator, after), m1, m', after.loadedNarrated))
    decreases |actions|
  {
    hide ApplyLoad, Spends, LandsAs;
    m1 := m;
    SpendsNothing(a, m, m);
    if actions == [] {
    } else if actions[0].Load? {
      m1 := LoadLands(a, w, m, s, actions[0].startS, actions[0].first, now);
    } else {
      var e := if actions[0].StopDevice? then Ordered(s.sitting.deviceId, StopOrder, w.hears(|m.trace|))
               else Wrote(s.sitting.startedBy, actions[0].videoId, actions[0].positionS, actions[0].durationS);
      LogSpends(a, m, e);
      m1 := CarryingOutLands(a, w, m.Log(e), s, actions[1..], now);
      SpendsOn(a, m, m.Log(e), m1);
      assert forall k :: 0 < k < |actions| ==> actions[k] == actions[1..][k - 1];
    }
  }

  // ---- the switch ----

  /**
   When the song playing is reloaded: it is to be narrated, its narrated sound
   is ready and it sounds plain; or it sounds narrated and is not to be, or has
   no narrated sound. A gateway that cannot say yet never changes it.
   */
  lemma SwitchesWhen(w: World, m: Memory, s: Session, now: Time)
    requires s.HasCurrent() && s.state == Playing
    ensures var (covers, m1) := Covers(w, m, s, s.Current().videoId, now);
      var form := NarratedForm(w, m1, s.sitting.kind, s.Current().videoId, s.positionS).0;
      NarrationSwitch(w, m, s, now).1 != [] <==>
        if s.loadedNarrated then !covers || form == NarratedNone else covers && form == NarratedReady
  {
    hide Covers, NarratedForm, Reload;
  }

  lemma SwitchSpends(a: Asking, w: World, m: Memory, s: Session, now: Time)
    ensures Spends(a, m, NarrationSwitch(w, m, s, now).2)
  {
    hide Covers, NarratedForm, Spends, Reload;
    SpendsNothing(a, m, m);
    if s.HasCurrent() && s.state == Playing {
      var video := s.Current().videoId;
      CoversSpends(a, w, m, s, video, now);
      var (covers, m1) := Covers(w, m, s, video, now);
      if covers {
        FormSpends(a, w, m1, s.sitting.kind, video, s.positionS);
        SpendsOn(a, m, m1, NarratedForm(w, m1, s.sitting.kind, video, s.positionS).1);
      }
    }
  }

  /** A reload is for a song that sounds other than it is to, or has cost its turn already: its language was learned on the way. */
  lemma SwitchCosts(w: World, m: Memory, s: Session, now: Time)
    requires s.HasCurrent() && s.state == Playing && NarrationSwitch(w, m, s, now).1 != []
    ensures var a, m1 := AskingOf(w.narrator, s), NarrationSwitch(w, m, s, now).2;
      || s.loadedNarrated != Wanted(a, m1)
      || Turns(a, s.loadedNarrated, m1) + 1 <= Turns(a, s.loadedNarrated, m) + 2 * UndoneFor(a, m, m1)
  {
    hide Covers, NarratedForm, Spends, Reload, Turns, Covered, Wanted;
    var a, video := AskingOf(w.narrator, s), s.Current().videoId;
    CoversSpends(a, w, m, s, video, now);
    var (covers, m1) := Covers(w, m, s, video, now);
    var (form, m2) := NarratedForm(w, m1, s.sitting.kind, video, s.positionS);
    FormSpends(a, w, m1, s.sitting.kind, video, s.positionS);
    SpendsNothing(a, m1, m1);
    SwitchesWhen(w, m, s, now);
    if covers {
      SwitchTurns(a, s.loadedNarrated, m, m1, m2, form);
    } else {
      UncoveredIsUnwanted(a, m1);
    }
  }

  lemma UncoveredIsUnwanted(a: Asking, m: Memory)
    requires !Covered(a, m)
    ensures !Wanted(a, m)
  {
  }

  lemma CarryingOutAsks(w: World, m: Memory, s: Session, actions: seq<Action>, now: Time)
    requires s.HasCurrent() && Pending(s, actions)
    ensures var after := Apply(w, m, s, actions, now).0;
      && after.sitting == s.sitting
      && after.narration == s.narration && after.narrationForcedFor == s.narrationForcedFor
      && (AsksForLoad(actions) ==> s.state == Loading)
      && (s.state == Loading ==> after.state in {Loading, Ended})
  {
    hide Apply;
    CarryingOutReaches(w, m, s, actions, now);
  }

  /** The reload for narration that a tick comes to after it has heard the speaker. */
  predicate SwitchesAfter(w: World, m: Memory, s: Session, now: Time) {
    NarrationSwitch(w, m, s, now).1 != []
  }

  /** The same song on the same speaker, with narration asked for as before. */
  predicate SameAsking(s: Session, after: Session) {
    && after.sitting == s.sitting && after.Current().videoId == s.Current().videoId
    && after.narration == s.narration && after.narrationForcedFor == s.narrationForcedFor
  }

  lemma SameAskingIs(narrator: bool, s: Session, after: Session)
    requires SameAsking(s, after)
    ensures AskingOf(narrator, after) == AskingOf(narrator, s)
  {
  }

  lemma FollowNarrationTurns(w: World, m: Memory, s: Session, now: Time)
    requires s.HasCurrent()
    ensures var (after, m') := FollowNarration(w, m, s, now);
      var a := AskingOf(w.narrator, s);
      && after.sitting == s.sitting && after.narration == s.narration && after.narrationForcedFor == s.narrationForcedFor
      && (after.state != Ended && after.Current().videoId == s.Current().videoId ==>
            Turns(a, after.loadedNarrated, m') + (if SwitchesAfter(w, m, s, now) then 1 else 0)
            <= Turns(a, s.loadedNarrated, m) + 2 * UndoneFor(a, m, m'))
  {
    hide NarrationSwitch, FollowNarration, Apply, Spends, Turns, Wanted, Pending, UndoneFor;
    var a := AskingOf(w.narrator, s);
    SwitchReloadsOrStays(w, m, s, now);
    var (switched, actions, m1) := NarrationSwitch(w, m, s, now);
    FollowNarrationIs(w, m, s, now);
    var (after, m') := FollowNarration(w, m, s, now);
    if actions != [] {
      SwitchSpends(a, w, m, s, now);
      OneAction(actions[0]);
      CarryingOutAsks(w, m1, switched, actions, now);
      var mid := CarryingOutLands(a, w, m1, switched, actions, now);
      SpendsOn(a, m1, mid, m');
      SpendsOn(a, m, m1, m');
      if after.state != Ended && after.Current().videoId == s.Current().videoId {
        SwitchCosts(w, m, s, now);
        LandingTurns(a, s.loadedNarrated, m1, mid, m', after.loadedNarrated);
        SpendsTurns(a, s.loadedNarrated, m, m1);
      }
    } else {
      FollowNarrationSpends(a, w, m, s, now);
      SpendsTurns(a, s.loadedNarrated, m, m');
    }
  }

  lemma SpendsTurns(a: Asking, loaded: bool, m: Memory, m': Memory)
    requires Spends(a, m, m')
    ensures Turns(a, loaded, m') <= Turns(a, loaded, m) + 2 * UndoneFor(a, m, m')
  {
  }

  lemma SpendsKeeps(a: Asking, m: Memory, m': Memory)
    requires Spends(a, m, m') && UndoneFor(a, m, m') == 0
    ensures Keeps(m, m', a.kind, a.video)
  {
  }

  lemma FollowNarrationIs(w: World, m: Memory, s: Session, now: Time)
    requires s.HasCurrent()
    ensures var (switched, actions, m1) := NarrationSwitch(w, m, s, now);
      if actions != [] then FollowNarration(w, m, s, now) == Apply(w, m1, switched, actions, now)
      else FollowNarration(w, m, s, now).0 == s
  {
    hide NarrationSwitch, Apply, Covers, NarratedForm, Pending;
  }

  lemma FollowNarrationSpends(a: Asking, w: World, m: Memory, s: Session, now: Time)
    requires s.HasCurrent()
    ensures Spends(a, m, FollowNarration(w, m, s, now).1)
  {
    hide NarrationSwitch, Covers, NarratedForm, Apply, Spends, Pending, AsksForLoad, LandsAs;
    SwitchSpends(a, w, m, s, now);
    var (switched, actions, m1) := NarrationSwitch(w, m, s, now);
    if actions != [] {
      var mid := CarryingOutLands(a, w, m1, switched, actions, now);
      SpendsOn(a, m1, mid, Apply(w, m1, switched, actions, now).1);
      SpendsOn(a, m, m1, Apply(w, m1, switched, actions, now).1);
    } else if s.state == Playing && s.loadedNarrated && s.currentIndex + 1 < |s.queue| {
      var upNext := s.queue[s.currentIndex + 1].videoId;
      CoversSpends(a, w, m1, s, upNext, now);
      var (covers, m2) := Covers(w, m1, s, upNext, now);
      SpendsOn(a, m, m1, m2);
      if covers {
        FormSpends(a, w, m2, s.sitting.kind, upNext, 0);
        SpendsOn(a, m, m2, NarratedForm(w, m2, s.sitting.kind, upNext, 0).1);
      }
    }
  }

  // ---- what the gateway is asked ----

  lemma AsksNothingYet(m: Memory, video: string, fromS: int)
    ensures AsksAbout(m.trace, |m.trace|, video, fromS)
  {
  }

  /** A load asks about its own song, from where it is to start; the switch about the song playing, from where it is. */
  lemma QuestionsAreOfTheSong(w: World, m: Memory, s: Session, startS: int, first: bool, now: Time)
    requires s.HasCurrent()
    ensures AsksAbout(Attempt(w, m, s, startS, first, now).1.trace, |m.trace|, s.queue[s.currentIndex].videoId, startS)
    ensures AsksAbout(NarrationSwitch(w, m, s, now).2.trace, |m.trace|, s.queue[s.currentIndex].videoId, s.positionS)
  {
    hide Covers, NarratedForm, Reload;
    var video := s.Current().videoId;
    AsksNothingYet(m, video, startS);
    AsksNothingYet(m, video, s.positionS);
    CoversAsks(w, m, s, video, startS, now, |m.trace|);
    CoversAsks(w, m, s, video, s.positionS, now, |m.trace|);
    var m1 := Covers(w, m, s, video, now).1;
    FormAsks(w, m1, s.sitting.kind, video, startS, |m.trace|);
    FormAsks(w, m1, s.sitting.kind, video, s.positionS, |m.trace|);
  }

  ghost predicate SomePrepared(trace: seq<Event>, from: nat) {
    exists k :: from <= k < |trace| && trace[k].AskedPrepare?
  }

  lemma CoversPreparesNothing(w: World, m: Memory, s: Session, video: string, now: Time)
    requires Undisturbed(w)
    ensures var m' := Covers(w, m, s, video, now).1;
      m'.narrated == m.narrated && !SomePrepared(m'.trace, |m.trace|)
  {
    hide SpokenLanguage;
    if s.narration && w.narrator {
      LanguageIsAskedFor(w, m, video, now);
      var m' := SpokenLanguage(w, m, video, now).1;
      assert |m'.trace| == |m.trace| + 4 ==> m'.trace[|m.trace| + 3].Remembered? by {
        LastIsRemembered(w, m, video, now);
      }
      OffAsksNothing(w, m, s.(narration := false), video, 0, now);
    } else {
      OffAsksNothing(w, m, s, video, 0, now);
    }
  }

  lemma LastIsRemembered(w: World, m: Memory, video: string, now: Time)
    ensures var m' := SpokenLanguage(w, m, video, now).1;
      Undisturbed(w) && |m'.trace| == |m.trace| + 4 ==> m'.trace[|m.trace| + 3].Remembered?
  {
    hide Enter;
    if Undisturbed(w) {
      EnterUndisturbed(w, m);
      EnterUndisturbed(w, m.Log(Entered).Log(AskedLanguage(video)));
    }
  }

  /** A song playing narrated and left so has the next one asked for, from its start, when that is covered and not known to be ready. */
  lemma NextSongIsAskedFor(w: World, m: Memory, s: Session, now: Time)
    requires s.HasCurrent() && NarrationSwitch(w, m, s, now).1 == [] && Undisturbed(w)
    ensures var m1, m' := NarrationSwitch(w, m, s, now).2, FollowNarration(w, m, s, now).1;
      if s.state == Playing && s.loadedNarrated && s.currentIndex + 1 < |s.queue| then
        var next := s.queue[s.currentIndex + 1].videoId;
        && AsksAbout(m'.trace, |m1.trace|, next, 0)
        && (SomePrepared(m'.trace, |m1.trace|) <==>
              && w.narrator && s.narration && (s.narrationForcedFor == next || KnownLanguage(m', next) != "vi")
              && !ReadyKnown(m1, s.sitting.kind, next))
      else m' == m1
  {
    hide NarrationSwitch, Covers, NarratedForm, Apply, Pending, SomePrepared;
    var m1 := NarrationSwitch(w, m, s, now).2;
    if s.state == Playing && s.loadedNarrated && s.currentIndex + 1 < |s.queue| {
      var next := s.queue[s.currentIndex + 1].videoId;
      var a := SongOf(w.narrator, s, next);
      AsksNothingYet(m1, next, 0);
      CoversAsks(w, m1, s, next, 0, now, |m1.trace|);
      CoversPreparesNothing(w, m1, s, next, now);
      CoversSpends(a, w, m1, s, next, now);
      var (covers, m2) := Covers(w, m1, s, next, now);
      if covers && w.narrator {
        FormAsks(w, m2, s.sitting.kind, next, 0, |m1.trace|);
        FormIsAskedFor(w, m2, s.sitting.kind, next, 0);
        PreparedWhen(w, m2, s.sitting.kind, next, |m1.trace|);
      } else if covers {
        FormSpends(a, w, m2, s.sitting.kind, next, 0);
      }
    }
  }

  lemma PreparedWhen(w: World, m: Memory, kind: Kind, video: string, from: nat)
    requires w.narrator && Undisturbed(w) && from <= |m.trace| && !SomePrepared(m.trace, from)
    ensures var m' := NarratedForm(w, m, kind, video, 0).1;
      SomePrepared(m'.trace, from) <==> !ReadyKnown(m, kind, video)
  {
    hide NarratedForm;
    FormIsAskedFor(w, m, kind, video, 0);
    var m' := NarratedForm(w, m, kind, video, 0).1;
    if ReadyKnown(m, kind, video) {
      assert forall k :: 0 <= k < |m.trace| ==> m'.trace[k] == m.trace[k];
    } else {
      assert m'.trace[|m.trace| + 1] == (m.trace + [Entered, AskedPrepare(video, 0)])[|m.trace| + 1];
    }
  }

  // ---- one step ----

  /** Where a tick stands once it has heard the speaker and done what that asked for, before it looks at narration. */
  function Listened(step: Step, s: Session): (r: (Session, Memory))
    requires s.HasCurrent() && LiveTick(step, s)
    ensures r.0.HasCurrent()
  {
    var m1 := step.memory.Log(AskedStatus(s.sitting.deviceId, Answer(step)));
    var (decided, actions) := Reconcile(s, Answer(step), step.now);
    ReconcileKeepsAccount(s, Answer(step), step.now);
    ReconcileLeavesPending(s, Answer(step), step.now);
    Apply(step.world, m1, decided, actions, step.now)
  }

  /** The step reloads the song to change its sound. */
  predicate Switches(step: Step, s: Session)
    requires s.HasCurrent()
  {
    LiveTick(step, s) && SwitchesAfter(step.world, Listened(step, s).1, Listened(step, s).0, step.now)
  }

  lemma TickIsListenThenFollow(step: Step, s: Session)
    requires s.HasCurrent() && LiveTick(step, s)
    ensures var (listened, m2) := Listened(step, s);
      var (followed, m3) := FollowNarration(step.world, m2, listened, step.now);
      Do(step, s) == Outcome(followed.(updatedAt := step.now), m3, None)
  {
    hide Reconcile, Apply, FollowNarration, Pending;
  }

  /** A tick that the speaker answers with the session's own song, playing. */
  predicate Hears(step: Step, s: Session) {
    LiveTick(step, s) && Answer(step).Some? && Answer(step).value.state == DevicePlaying && Heard(s, Answer(step).value)
  }

  /** A speaker heard: the session plays on as it was, and one report is written when ten seconds have passed. */
  lemma HearingListens(step: Step, s: Session)
    requires s.HasCurrent() && Hears(step, s)
    ensures var (listened, m) := Listened(step, s);
      && listened.state == Playing && SameAccount(s, listened) && listened.currentIndex == s.currentIndex
      && SameCaches(step.memory, m)
      && var asked := step.memory.trace + [AskedStatus(s.sitting.deviceId, Answer(step))];
         m.trace == if step.now - s.lastProgressAt < PROGRESS_EVERY then asked
                    else asked + [Wrote(s.sitting.startedBy, s.Current().videoId, listened.positionS, listened.durationS)]
  {
    hide Reconcile, Apply, Pending;
    var w, now := step.world, step.now;
    var m := step.memory.Log(AskedStatus(s.sitting.deviceId, Answer(step)));
    ReconcileKeepsAccount(s, Answer(step), now);
    ReconcileLeavesPending(s, Answer(step), now);
    Decides(s, Answer(step), now);
    var (decided, actions) := Reconcile(s, Answer(step), now);
    if actions == [] {
      ApplyNothing(w, m, decided, now);
    } else {
      assert actions == [actions[0]];
      ApplyOneRecord(w, m, decided, actions[0], now);
    }
  }

  /** The song a session stands on was handed over before and has not changed, or has landed since. */
  ghost predicate StaysOrLands(narrator: bool, s: Session, m1: Memory, after: Session, m': Memory) {
    || after.state == Ended
    || (after.loadedNarrated == s.loadedNarrated && after.sitting == s.sitting && after.Current().videoId == s.Current().videoId)
    || LandsAs(AskingOf(narrator, after), m1, m', after.loadedNarrated)
  }

  lemma ListenedLands(a: Asking, step: Step, s: Session) returns (m1: Memory)
    requires s.HasCurrent() && LiveTick(step, s)
    ensures var (listened, m') := Listened(step, s);
      && Spends(a, step.memory, m1) && Spends(a, m1, m')
      && listened.sitting == s.sitting
      && listened.narration == s.narration && listened.narrationForcedFor == s.narrationForcedFor
      && (|| (listened.loadedNarrated == s.loadedNarrated && listened.Current() == s.Current())
          || listened.state == Ended
          || (listened.state == Loading
              && LandsAs(AskingOf(step.world.narrator, listened), m1, m', listened.loadedNarrated)))
  {
    hide Reconcile, Apply, Spends, LandsAs, AsksForLoad, Pending;
    var w, m, now := step.world, step.memory, step.now;
    var e := AskedStatus(s.sitting.deviceId, Answer(step));
    var (decided, actions) := Reconcile(s, Answer(step), now);
    ReconcileKeepsAccount(s, Answer(step), now);
    ReconcileLeavesPending(s, Answer(step), now);
    ReconcileLoadsOnlyWhenMoving(s, Answer(step), now);
    LogSpends(a, m, e);
    m1 := CarryingOutLands(a, w, m.Log(e), decided, actions, now);
    SpendsOn(a, m, m.Log(e), m1);
    CarryingOutAsks(w, m.Log(e), decided, actions, now);
  }

  lemma NoNarrationAfterALoad(w: World, m: Memory, s: Session, now: Time)
    requires s.HasCurrent() && s.state != Playing
    ensures FollowNarration(w, m, s, now) == (s, m) && !SwitchesAfter(w, m, s, now)
  {
  }

  lemma TickTurns(step: Step, s: Session)
    requires s.HasCurrent() && LiveTick(step, s)
    ensures var r := Do(step, s);
      var a := AskingOf(step.world.narrator, s);
      r.session.state != Ended && r.session.Current().videoId == s.Current().videoId ==>
        && SameAsking(s, r.session)
        && Turns(a, r.session.loadedNarrated, r.memory) + (if Switches(step, s) then 1 else 0)
           <= Turns(a, s.loadedNarrated, step.memory) + 2 * UndoneFor(a, step.memory, r.memory)
  {
    hide Listened, FollowNarration, Do, Spends, Turns, SwitchesAfter, UndoneFor, LandsAs;
    var w, m, now := step.world, step.memory, step.now;
    var a := AskingOf(w.narrator, s);
    var mid := ListenedLands(a, step, s);
    TickIsListenThenFollow(step, s);
    var (listened, m2) := Listened(step, s);
    SpendsOn(a, m, mid, m2);
    if listened.loadedNarrated == s.loadedNarrated && listened.Current() == s.Current() {
      FollowNarrationTurns(w, m2, listened, now);
      FollowNarrationSpends(a, w, m2, listened, now);
      SpendsTurns(a, s.loadedNarrated, m, m2);
      SpendsOn(a, m, m2, FollowNarration(w, m2, listened, now).1);
    } else {
      NoNarrationAfterALoad(w, m2, listened, now);
      if listened.state != Ended && listened.Current().videoId == s.Current().videoId {
        SameAskingIs(w.narrator, s, listened);
        LandingTurns(a, s.loadedNarrated, m, mid, m2, listened.loadedNarrated);
      }
    }
  }

  lemma DecideSpends(a: Asking, w: World, m: Memory, s: Session, command: Command, now: Time)
    requires s.HasCurrent() && ValidCommand(command)
    ensures Spends(a, m, Decide(w, m, s, command, now).memory)
  {
    hide Spends, ReplaceQueue, NarrationSwitch;
    SpendsNothing(a, m, m);
    var m' := Decide(w, m, s, command, now).memory;
    if command.SetNarration? {
      SwitchSpends(a, w, m, WithNarration(s, command.on), now);
    } else if m' != m {
      LogSpends(a, m, m'.trace[|m.trace|]);
    }
  }

  lemma DecideAsks(w: World, m: Memory, s: Session, command: Command, now: Time)
    requires s.HasCurrent() && ValidCommand(command) && s.state != Ended
    ensures var d := Decide(w, m, s, command, now);
      && (!command.SetNarration? ==>
            d.session.narration == s.narration && d.session.narrationForcedFor == s.narrationForcedFor)
      && d.session.loadedNarrated == s.loadedNarrated
      && (AsksForLoad(d.actions) || d.session.state == Ended || d.session.Current().videoId == s.Current().videoId)
  {
    hide NarrationSwitch, Holds, ReplaceQueue, AsksForLoad;
    NoActions();
    var d := Decide(w, m, s, command, now);
    match command
    case EditQueue(version, items, currentIndex) =>
      EditKeepsTheSongPlaying(s, items, currentIndex);
      if d.actions != [] {
        OneAction(d.actions[0]);
        assert d.actions == [d.actions[0]];
      }
    case Jump(index) => OneAction(Load(index, 0, false));
    case SetNarration(on) =>
      SwitchReloadsOrStays(w, m, WithNarration(s, on), now);
      OneAction(Load(s.currentIndex, s.positionS, false));
    case Next => OneAction(Load(s.currentIndex + 1, 0, false));
    case _ =>
  }

  lemma CommandLands(a: Asking, step: Step, s: Session) returns (m1: Memory)
    requires s.HasCurrent() && ValidStep(step) && step.op.CommandOp?
    ensures var r := Do(step, s);
      && Spends(a, step.memory, m1) && Spends(a, m1, r.memory)
      && StaysOrLands(step.world.narrator, s, m1, r.session, r.memory)
      && (!step.op.command.SetNarration? ==>
            r.session.narration == s.narration && r.session.narrationForcedFor == s.narrationForcedFor)
      && r.session.sitting == s.sitting
  {
    hide Decide, Apply, Spends, AsksForLoad, Pending, LandsAs;
    var w, m, command, now := step.world, step.memory, step.op.command, step.now;
    m1 := m;
    SpendsNothing(a, m, m);
    if s.state != Ended && s.sitting.kind in w.drivers {
      DecideSpends(a, w, m, s, command, now);
      DecideAsks(w, m, s, command, now);
      DecisionIsPending(w, m, s, command, now);
      var d := Decide(w, m, s, command, now);
      if d.error == None {
        m1 := CarryingOutLands(a, w, d.memory, d.session, d.actions, now);
        CarryingOutAsks(w, d.memory, d.session, d.actions, now);
        SpendsOn(a, m, d.memory, m1);
      }
    }
  }

  /** Whatever a step does, it spends; and the song it leaves current is as it was handed over, or landed in it. */
  lemma StepLands(a: Asking, step: Step, s: Session) returns (m1: Memory)
    requires s.HasCurrent() && ValidStep(step)
    ensures var r := Do(step, s);
      && Spends(a, step.memory, m1) && Spends(a, m1, r.memory)
      && StaysOrLands(step.world.narrator, s, m1, r.session, r.memory)
  {
    hide Tick, Run, Spends, LandsAs, Listened;
    m1 := step.memory;
    SpendsNothing(a, m1, m1);
    match step.op
    case TickOp =>
      if LiveTick(step, s) {
        m1 := TickLands(a, step, s);
      } else {
        TickLeavesAlone(step.world, step.memory, s, step.now);
      }
    case CommandOp(_) => m1 := CommandLands(a, step, s);
    case ReplacedOp =>
  }

  lemma TickLands(a: Asking, step: Step, s: Session) returns (m1: Memory)
    requires s.HasCurrent() && LiveTick(step, s)
    ensures var r := Do(step, s);
      && Spends(a, step.memory, m1) && Spends(a, m1, r.memory)
      && StaysOrLands(step.world.narrator, s, m1, r.session, r.memory)
  {
    hide Listened, FollowNarration, NarrationSwitch, Do, Spends, LandsAs, Apply, Pending;
    var w, now := step.world, step.now;
    m1 := ListenedLands(a, step, s);
    TickIsListenThenFollow(step, s);
    var (listened, m2) := Listened(step, s);
    if listened.state == Playing && SwitchesAfter(w, m2, listened, now) {
      SpendsOn(a, step.memory, m1, m2);
      SwitchReloadsOrStays(w, m2, listened, now);
      SwitchSpends(a, w, m2, listened, now);
      FollowNarrationIs(w, m2, listened, now);
      var (switched, actions, m3) := NarrationSwitch(w, m2, listened, now);
      OneAction(actions[0]);
      SpendsOn(a, step.memory, m2, m3);
      m1 := CarryingOutLands(a, w, m3, switched, actions, now);
      SpendsOn(a, step.memory, m3, m1);
    } else if listened.state == Playing {
      FollowNarrationIs(w, m2, listened, now);
      FollowNarrationSpends(a, w, m2, listened, now);
      SpendsOn(a, m1, m2, FollowNarration(w, m2, listened, now).1);
    } else {
      NoNarrationAfterALoad(w, m2, listened, now);
    }
  }

  /**
   One step of a live session, narration not being switched by hand, takes a
   turn for every reload it makes, and gets back two at most for every write in
   the course of it that undoes something known of its song.
   */
  lemma StepTurns(step: Step, s: Session)
    requires s.HasCurrent() && ValidStep(step) && !(step.op.CommandOp? && step.op.command.SetNarration?)
    requires s.state != Ended
    ensures var r := Do(step, s);
      var a := AskingOf(step.world.narrator, s);
      r.session.state != Ended && r.session.Current().videoId == s.Current().videoId ==>
        && SameAsking(s, r.session)
        && Turns(a, r.session.loadedNarrated, r.memory) + (if Switches(step, s) then 1 else 0)
           <= Turns(a, s.loadedNarrated, step.memory) + 2 * UndoneFor(a, step.memory, r.memory)
  {
    hide Tick, Run, Spends, Turns, SwitchesAfter, Listened, UndoneFor, LandsAs;
    var a := AskingOf(step.world.narrator, s);
    var r := Do(step, s);
    match step.op
    case TickOp =>
      if LiveTick(step, s) {
        TickTurns(step, s);
      } else {
        TickLeavesAlone(step.world, step.memory, s, step.now);
      }
    case CommandOp(command) =>
      var mid := CommandLands(a, step, s);
      SpendsOn(a, step.memory, mid, r.memory);
      SpendsTurns(a, s.loadedNarrated, step.memory, r.memory);
      if r.session.state != Ended && r.session.Current().videoId == s.Current().videoId
         && r.session.loadedNarrated != s.loadedNarrated {
        LandingTurns(a, s.loadedNarrated, step.memory, mid, r.memory, r.session.loadedNarrated);
      }
    case ReplacedOp =>
  }

  // ---- a song handed over narrated is known to be ready ----

  /** In one process, a song handed over narrated is one this process knows to be ready. */
  predicate InProcess(narrator: bool, s: Session, m: Memory) {
    s.loadedNarrated ==> narrator && ReadyKnown(m, s.sitting.kind, s.Current().videoId)
  }

  /** Nothing known of a session's current song is undone while a step is made of it. */
  ghost predicate UndoesNothing(step: Step, s: Session)
    requires s.HasCurrent() && ValidStep(step)
  {
    UndoneFor(AskingOf(step.world.narrator, s), step.memory, Do(step, s).memory) == 0
  }

  lemma StartInProcess(w: World, m: Memory, sitting: Sitting, items: seq<Item>, start: int, startS: int, narration: bool, now: Time)
    requires 0 <= start < |items|
    ensures var (started, m') := Start(w, m, sitting, items, start, startS, narration, now);
      started.Some? ==> InProcess(w.narrator, started.value, m')
  {
    hide Attempt, Spends;
    var s := LoadAt(NewSession(sitting, items, narration, now), start, Max(startS, 0), true, now).0;
    var _ := AttemptLands(AskingOf(w.narrator, s), w, m, s, Max(startS, 0), true, now);
  }

  /** So it stays through any step, a switch by hand and a change of song included, while nothing known of the song is undone. */
  lemma StepInProcess(step: Step, s: Session)
    requires s.HasCurrent() && ValidStep(step) && InProcess(step.world.narrator, s, step.memory) && UndoesNothing(step, s)
    ensures var r := Do(step, s);
      && (r.session.state != Ended ==> InProcess(step.world.narrator, r.session, r.memory))
      && InProcess(step.world.narrator, s, r.memory)
  {
    hide Do, Spends, UndoneFor;
    var a := AskingOf(step.world.narrator, s);
    var mid := StepLands(a, step, s);
    SpendsOn(a, step.memory, mid, Do(step, s).memory);
    SpendsKeeps(a, step.memory, Do(step, s).memory);
  }

  // ---- over runs ----

  /** One process: each step finds the caches as the one before left them; whatever others write lands in the course of a step. */
  ghost predicate OneProcess(narrator: bool, s: Session, steps: seq<Step>)
    requires s.HasCurrent() && ValidRun(steps)
  {
    && (forall k :: 0 <= k < |steps| ==> steps[k].world.narrator == narrator)
    && (forall k :: 0 < k < |steps| ==> SameCaches(Do(steps[k - 1], At(s, steps, k - 1)).memory, steps[k].memory))
  }

  lemma SameCachesSame(a: Asking, loaded: bool, m: Memory, m': Memory)
    requires SameCaches(m, m')
    ensures Turns(a, loaded, m) == Turns(a, loaded, m')
    ensures forall s: Session :: InProcess(a.narrator, s, m) == InProcess(a.narrator, s, m')
  {
  }

  /**
   From a start on, whatever is stored or lost, switched by hand or moved on
   to, a live session's song was handed over narrated only if this process
   knows it to be ready, as long as nothing known of the song current is undone.
   */
  lemma {:induction false} AlwaysInProcess(narrator: bool, s: Session, steps: seq<Step>, k: nat)
    requires s.HasCurrent() && ValidRun(steps) && k < |steps| && OneProcess(narrator, s, steps)
    requires InProcess(narrator, s, steps[0].memory)
    requires forall i :: 0 <= i < k ==> UndoesNothing(steps[i], At(s, steps, i))
    ensures At(s, steps, k).state == Ended || InProcess(narrator, At(s, steps, k), steps[k].memory)
    decreases k
  {
    hide Do, InProcess, UndoesNothing;
    if k > 0 {
      AlwaysInProcess(narrator, s, steps, k - 1);
      var step, before := steps[k - 1], At(s, steps, k - 1);
      if before.state == Ended {
        EndedIsFinal(step, before);
      } else {
        StepInProcess(step, before);
        SameCachesSame(AskingOf(narrator, before), true, Do(step, before).memory, steps[k].memory);
      }
    }
  }

  /** Through the run the session is live, the same song is current, and nobody switches narration. */
  ghost predicate StaysOn(s: Session, steps: seq<Step>)
    requires s.HasCurrent() && ValidRun(steps)
  {
    && (forall k :: 0 <= k <= |steps| ==>
          At(s, steps, k).state != Ended && At(s, steps, k).Current().videoId == s.Current().videoId)
    && (forall k :: 0 <= k < |steps| && steps[k].op.CommandOp? ==> !steps[k].op.command.SetNarration?)
  }

  /** How often the first `k` steps reloaded a song to change its sound, counting those stored or those lost. */
  ghost function Reloads(s: Session, steps: seq<Step>, k: nat, kept: bool): nat
    requires s.HasCurrent() && ValidRun(steps) && k <= |steps|
  {
    if k == 0 then 0
    else
      Reloads(s, steps, k - 1, kept)
      + (if steps[k - 1].kept == kept && Switches(steps[k - 1], At(s, steps, k - 1)) then 1 else 0)
  }

  /** How many writes undid something known of a song in the course of the first `k` steps, stored or lost. */
  ghost function UndoneBy(a: Asking, s: Session, steps: seq<Step>, k: nat): nat
    requires s.HasCurrent() && ValidRun(steps) && k <= |steps|
  {
    if k == 0 then 0
    else UndoneBy(a, s, steps, k - 1) + UndoneFor(a, steps[k - 1].memory, Do(steps[k - 1], At(s, steps, k - 1)).memory)
  }

  lemma StaysAsking(narrator: bool, s: Session, steps: seq<Step>, k: nat)
    requires s.HasCurrent() && ValidRun(steps) && StaysOn(s, steps) && k < |steps|
    ensures At(s, steps, k).state != Ended && At(s, steps, k + 1).state != Ended
    ensures At(s, steps, k).Current().videoId == At(s, steps, k + 1).Current().videoId == s.Current().videoId
    ensures !(steps[k].op.CommandOp? && steps[k].op.command.SetNarration?)
  {
    hide Do, At;
  }

  /** One step's turns, whether or not it was stored. */
  lemma OneTurn(a: Asking, s: Session, steps: seq<Step>, k: nat)
    requires s.HasCurrent() && ValidRun(steps) && k < |steps| && OneProcess(a.narrator, s, steps) && StaysOn(s, steps)
    requires AskingOf(a.narrator, At(s, steps, k)) == a
    ensures AskingOf(a.narrator, At(s, steps, k + 1)) == a
    ensures var left := Do(steps[k], At(s, steps, k)).memory;
      Reloads(s, steps, k + 1, true) + Turns(a, At(s, steps, k + 1).loadedNarrated, left)
      <= Reloads(s, steps, k, true) + Turns(a, At(s, steps, k).loadedNarrated, steps[k].memory)
         + 2 * UndoneFor(a, steps[k].memory, left)
  {
    hide Do, Switches, Turns, Spends, UndoneFor, StaysOn, LandsAs, SameAsking;
    StaysAsking(a.narrator, s, steps, k);
    AtNext(s, steps, k);
    var step, before := steps[k], At(s, steps, k);
    if step.kept {
      StepTurns(step, before);
      SameAskingIs(a.narrator, before, Do(step, before).session);
    } else {
      var mid := StepLands(a, step, before);
      SpendsOn(a, step.memory, mid, Do(step, before).memory);
      SpendsTurns(a, before.loadedNarrated, step.memory, Do(step, before).memory);
    }
  }

  lemma {:induction false} TurnsAreSpent(a: Asking, s: Session, steps: seq<Step>, k: nat)
    requires s.HasCurrent() && ValidRun(steps) && k < |steps| && OneProcess(a.narrator, s, steps) && StaysOn(s, steps)
    requires AskingOf(a.narrator, s) == a
    ensures AskingOf(a.narrator, At(s, steps, k)) == a
    ensures Reloads(s, steps, k, true) + Turns(a, At(s, steps, k).loadedNarrated, steps[k].memory)
         <= Turns(a, s.loadedNarrated, steps[0].memory) + 2 * UndoneBy(a, s, steps, k)
    decreases k
  {
    hide Do, Switches, Turns, UndoneFor, StaysOn, SameCaches;
    if k > 0 {
      TurnsAreSpent(a, s, steps, k - 1);
      OneTurn(a, s, steps, k - 1);
      var left := Do(steps[k - 1], At(s, steps, k - 1)).memory;
      SameCachesSame(a, At(s, steps, k).loadedNarrated, left, steps[k].memory);
    }
  }

  /**
   No thrash. While one song stays current and narration is not switched by
   hand, the engine reloads it for narration at most twice, and twice more for
   every write into the shared caches that undoes something known of it; once
   more when the song was handed over narrated without this process knowing it
   to be ready. Nothing is asked of the gateway, of other speakers' goroutines,
   or of the saves of other steps; a reload whose own save is lost does not
   count (`CastForgets.LostReloadIsMadeAgain`).
   */
  lemma ReloadsAtMostTwice(narrator: bool, s: Session, steps: seq<Step>)
    requires s.HasCurrent() && ValidRun(steps) && OneProcess(narrator, s, steps) && StaysOn(s, steps)
    ensures Reloads(s, steps, |steps|, true)
         <= (if steps == [] || InProcess(narrator, s, steps[0].memory) then 2 else 3)
            + 2 * UndoneBy(AskingOf(narrator, s), s, steps, |steps|)
  {
    hide Do, Switches, UndoneFor, StaysOn, Turns, At;
    var a := AskingOf(narrator, s);
    if steps != [] {
      var k := |steps| - 1;
      TurnsAreSpent(a, s, steps, k);
      OneTurn(a, s, steps, k);
      AtMostThree(a, s.loadedNarrated, steps[0].memory);
    }
  }

  // ---- what a reload keeps ----

  /**
   A reload for narration happens only to a song that plays, and is one load of
   that song from where the speaker said it was. Taken, it moves neither the
   version, the queue, the item nor the position; refused, the song is skipped.
   */
  lemma ReloadKeepsItsPlace(step: Step, s: Session)
    requires s.HasCurrent() && Switches(step, s)
    ensures var playing := Listened(step, s).0;
      var after := Do(step, s).session;
      var handed := HandedSince(Do(step, s).memory.trace, |Listened(step, s).1.trace|);
      && playing.state == Playing && handed != []
      && handed[0].Handed? && handed[0].video == playing.Current().videoId
      && handed[0].startS == playing.positionS && !handed[0].first
      && (handed[0].Took() ==>
            && |handed| == 1 && after.state == Loading
            && after.version == playing.version && after.queue == playing.queue
            && after.currentIndex == playing.currentIndex && after.positionS == playing.positionS
            && after.loadedNarrated == handed[0].narrated)
      && (handed[0].TurnedDown() ==> after.currentIndex > playing.currentIndex || after.state == Ended)
  {
    hide Listened, Do, Apply, ApplyLoad, Landed, NarrationSwitch, Covers, NarratedForm, HandedSince, Asks;
    TickIsListenThenFollow(step, s);
    var w, now := step.world, step.now;
    var (playing, m2) := Listened(step, s);
    SwitchReloadsOrStays(w, m2, playing, now);
    var (switched, actions, m1) := NarrationSwitch(w, m2, playing, now);
    var (after, m3) := ApplyLoad(w, m1, switched, playing.positionS, false, now);
    assert FollowNarration(w, m2, playing, now) == (after, m3) by { ApplyOneLoad(w, m1, switched, actions[0], now); }
    LandsOnTheFirstSongTaken(w, m1, switched, playing.positionS, false, now);
    var handed := HandedSince(m3.trace, |m1.trace|);
    QuietHandsNothing(m1.trace, |m2.trace|);
    HandedSplit(m3.trace, |m2.trace|, |m1.trace|);
    assert m3.trace[..|m1.trace|] == m1.trace;
    ReloadLanded(playing, after, handed, now);
  }

  lemma ReloadLanded(playing: Session, after: Session, handed: seq<Event>, now: Time)
    requires playing.HasCurrent() && Landed(Reload(playing, now).0, after, handed, playing.positionS, false, now)
    ensures handed != [] && handed[0].Handed? && handed[0].video == playing.Current().videoId
    ensures handed[0].startS == playing.positionS && !handed[0].first
    ensures handed[0].Took() ==>
      && |handed| == 1 && after.state == Loading
      && after.version == playing.version && after.queue == playing.queue
      && after.currentIndex == playing.currentIndex && after.positionS == playing.positionS
      && after.loadedNarrated == handed[0].narrated
    ensures handed[0].TurnedDown() ==> after.currentIndex > playing.currentIndex || after.state == Ended
  {
    hide Landed, Asks;
    LandedFirst(Reload(playing, now).0, after, handed, playing.positionS, false, now);
  }
}
