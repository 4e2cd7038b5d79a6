/**
 What a save that is lost has the engine forget: a report it made, an answer it
 had, a narration reload it asked for
 (services/cast/internal/usecase/engine.go:369-374).
 */
module CastForgets {
  import opened CastSession
  import opened CastReconcile
  import opened CastWorld
  import opened CastSteps
  import opened CastApply
  import opened CastEndings
  import opened CastRates
  import opened CastCaches
  import opened CastNarration

  /** What storage has after a step. */
  function StoredBy(step: Step, s: Session): (r: Session)
    requires s.HasCurrent() && ValidStep(step)
    ensures r.HasCurrent()
  {
    if step.kept then Do(step, s).session else s
  }

  /** A tick that hears the session's song started, and asks for no load. */
  ghost predicate JustHears(step: Step, s: Session)
    requires s.HasCurrent()
  {
    LiveTick(step, s) && Answer(step).Some? && Heard(s, Answer(step).value) && !Loads(step, s)
  }

  /**
   A report is held off for ten seconds exactly by the report before it having
   been stored: lost, it is made again by the next tick that hears the song.
   */
  lemma ReportIsMadeAgainWhenLost(s: Session, first: Step, second: Step)
    requires s.HasCurrent() && ValidStep(first) && ValidStep(second) && Reports(first, s) && !Loads(first, s)
    requires first.now <= second.now < first.now + PROGRESS_EVERY && JustHears(second, StoredBy(first, s))
    ensures Reports(second, StoredBy(first, s)) <==> !first.kept
  {
    hide Do, Loads, Heard, LiveTick, Reconcile;
    var stored := StoredBy(first, s);
    StepMarks(first, s);
    HeardFollows(second, stored);
    StepMarks(second, stored);
  }

  /** A session that hears its song and loads nothing stays live, and has its marker no more than ten seconds behind. */
  lemma HeardFollows(step: Step, s: Session)
    requires s.HasCurrent() && JustHears(step, s)
    ensures var decided := Reconcile(s, Answer(step), step.now).0;
      && Do(step, s).session == decided.(updatedAt := step.now)
      && decided.state != Ended && step.now - decided.lastProgressAt < PROGRESS_EVERY
  {
    hide Reconcile, Apply, FollowNarration, Pending, Loads, Reports, NoneHanded, SomeWritten, Calls;
    var w, m, now := step.world, step.memory, step.now;
    var from := |m.trace|;
    CallsAreSince(step, s);
    var m1 := m.Log(AskedStatus(s.sitting.deviceId, Answer(step)));
    var (decided, actions) := Reconcile(s, Answer(step), now);
    ReconcileKeepsAccount(s, Answer(step), now);
    ReconcileLeavesPending(s, Answer(step), now);
    var (applied, m2) := Apply(w, m1, decided, actions, now);
    var (followed, m3) := FollowNarration(w, m2, applied, now);
    FollowNarrationWithoutALoad(w, m2, applied, now, from);
    FewerHanded(m2.trace, m3.trace, from);
    WithoutALoad(w, m1, decided, actions, now, from);
    Decides(s, Answer(step), now);
  }

  /**
   An answer whose save was lost is forgotten: a tick left unanswered within
   the time allowed of it ends the session as offline exactly when the answer
   stored before it is too long ago.
   */
  lemma LostAnswerIsForgotten(s: Session, lost: Step, silent: Step)
    requires s.HasCurrent() && LiveTick(lost, s) && Answer(lost).Some?
    requires LiveTick(silent, s) && Answer(silent).None? && lost.now <= silent.now <= lost.now + OFFLINE_AFTER
    ensures EndedAs(Do(silent, s).session, DeviceOffline) <==> silent.now - s.lastSeenOK > OFFLINE_AFTER
    ensures var stored := Do(lost, s).session;
      LiveTick(silent, stored) ==> !EndedAs(Do(silent, stored).session, DeviceOffline)
  {
    hide Do, Reconcile;
    EndsOnlyFor(s, Answer(silent), silent.now);
    TickEndsAs(silent, s, DeviceOffline);
    StepSeen(lost, s);
    var stored := Do(lost, s).session;
    if LiveTick(silent, stored) {
      EndsOnlyFor(stored, Answer(silent), silent.now);
      TickEndsAs(silent, stored, DeviceOffline);
    }
  }

  // ---- a reload for narration ----

  /** The caches once a tick has decided about narration. */
  function DecidedIn(step: Step, s: Session): Memory
    requires s.HasCurrent() && LiveTick(step, s)
  {
    NarrationSwitch(step.world, Listened(step, s).1, Listened(step, s).0, step.now).2
  }

  /** Only undoing what is known can have the song left as it sounds: its language is known or does not matter, and it is to sound otherwise. */
  predicate StillStands(a: Asking, loaded: bool, m: Memory) {
    && (a.narrator && a.narration && !a.forced ==> KnownLanguage(m, a.video) != "")
    && (if loaded then !Covered(a, m) else Wanted(a, m))
  }

  lemma StandsOn(a: Asking, loaded: bool, m: Memory, m': Memory)
    requires StillStands(a, loaded, m) && Spends(a, m, m') && UndoneFor(a, m, m') == 0
    ensures StillStands(a, loaded, m')
  {
    hide UndoneFor, Turns;
  }

  /** A switch that stands is made by the next look at it. */
  lemma SwitchIsMade(w: World, m: Memory, s: Session, now: Time)
    requires s.HasCurrent() && s.state == Playing && StillStands(AskingOf(w.narrator, s), s.loadedNarrated, m)
    requires UndoneFor(AskingOf(w.narrator, s), m, NarrationSwitch(w, m, s, now).2) == 0
    ensures NarrationSwitch(w, m, s, now).1 != []
  {
    hide Covers, NarratedForm, UndoneFor, Spends, StillStands, Covered, Wanted;
    var a, video := AskingOf(w.narrator, s), s.Current().videoId;
    CoversSpends(a, w, m, s, video, now);
    var (covers, m1) := Covers(w, m, s, video, now);
    FormSpends(a, w, m1, s.sitting.kind, video, s.positionS);
    var (form, m2) := NarratedForm(w, m1, s.sitting.kind, video, s.positionS);
    SwitchesWhen(w, m, s, now);
    SpendsNothing(a, m1, m1);
    SpendsOn(a, m, m1, if covers then m2 else m1);
    SwitchDecidedIn(w, m, s, now);
    StandsOn(a, s.loadedNarrated, m, m1);
    StandingIs(a, s.loadedNarrated, m1);
    if covers {
      StandsOn(a, s.loadedNarrated, m1, m2);
      StandingIs(a, s.loadedNarrated, m2);
    }
  }

  lemma SwitchDecidedIn(w: World, m: Memory, s: Session, now: Time)
    requires s.HasCurrent() && s.state == Playing
    ensures var (covers, m1) := Covers(w, m, s, s.Current().videoId, now);
      NarrationSwitch(w, m, s, now).2
        == if covers then NarratedForm(w, m1, s.sitting.kind, s.Current().videoId, s.positionS).1 else m1
  {
    hide Covers, NarratedForm, Reload;
  }

  lemma StandingIs(a: Asking, loaded: bool, m: Memory)
    requires StillStands(a, loaded, m)
    ensures if loaded then !Covered(a, m) else a.narrator && Covered(a, m) && ReadyKnown(m, a.kind, a.video)
  {
  }

  /** A tick that ends up playing has loaded nothing on the way. */
  lemma PlayingIsUnchanged(step: Step, s: Session)
    requires s.HasCurrent() && LiveTick(step, s) && Listened(step, s).0.state == Playing
    ensures var playing := Listened(step, s).0;
      playing.HasCurrent() && SameAsking(s, playing) && playing.loadedNarrated == s.loadedNarrated
  {
    hide Listened, Spends;
    var _ := ListenedLands(AskingOf(step.world.narrator, s), step, s);
  }

  /** What the lost reload goes on to learn. */
  lemma SwitchedSpends(a: Asking, step: Step, s: Session)
    requires s.HasCurrent() && Switches(step, s)
    ensures Spends(a, DecidedIn(step, s), Do(step, s).memory)
  {
    hide Listened, NarrationSwitch, FollowNarration, Do, Apply, Spends, Pending, AsksForLoad, LandsAs;
    var w, now := step.world, step.now;
    var (playing, m) := Listened(step, s);
    TickIsListenThenFollow(step, s);
    SwitchReloadsOrStays(w, m, playing, now);
    FollowNarrationIs(w, m, playing, now);
    var (switched, actions, m1) := NarrationSwitch(w, m, playing, now);
    var mid := CarryingOutLands(a, w, m1, switched, actions, now);
    SpendsOn(a, m1, mid, Do(step, s).memory);
  }

  /** When the next tick that finds the song playing makes a lost reload again, by what it finds of the song. */
  lemma LostReloadIsMadeAgain(s: Session, lost: Step, again: Step)
    requires s.HasCurrent() && Switches(lost, s) && LiveTick(again, s) && Listened(again, s).0.state == Playing
    ensures var (playing, m) := Listened(again, s);
      var (covers, m1) := Covers(again.world, m, playing, s.Current().videoId, again.now);
      var form := NarratedForm(again.world, m1, s.sitting.kind, s.Current().videoId, playing.positionS).0;
      Switches(again, s) <==>
        if s.loadedNarrated then !covers || form == NarratedNone else covers && form == NarratedReady
  {
    hide Listened, NarrationSwitch, Covers, NarratedForm;
    PlayingIsUnchanged(again, s);
    SwitchesWhen(again.world, Listened(again, s).1, Listened(again, s).0, again.now);
  }

  /**
   So it is whenever what called for the lost reload still stands in the caches
   that it decided in, and nothing known of the song is undone from there on.
   */
  lemma StandingReloadIsMadeAgain(s: Session, lost: Step, again: Step)
    requires s.HasCurrent() && Switches(lost, s) && LiveTick(again, s) && Listened(again, s).0.state == Playing
    requires lost.world.narrator == again.world.narrator && SameCaches(Do(lost, s).memory, again.memory)
    requires var a := AskingOf(again.world.narrator, s);
      && StillStands(a, s.loadedNarrated, DecidedIn(lost, s))
      && UndoneFor(a, DecidedIn(lost, s), Do(lost, s).memory) == 0
      && UndoneFor(a, again.memory, DecidedIn(again, s)) == 0
    ensures Switches(again, s)
  {
    hide Listened, Do, NarrationSwitch, Spends, UndoneFor, StillStands, LandsAs;
    var a := AskingOf(again.world.narrator, s);
    SwitchedSpends(a, lost, s);
    StandsOn(a, s.loadedNarrated, DecidedIn(lost, s), Do(lost, s).memory);
    StandsInSame(a, s.loadedNarrated, Do(lost, s).memory, again.memory);
    var mid := ListenedLands(a, again, s);
    var (playing, m) := Listened(again, s);
    SpendsOn(a, again.memory, mid, m);
    SwitchSpends(a, again.world, m, playing, again.now);
    SpendsOn(a, again.memory, m, DecidedIn(again, s));
    StandsOn(a, s.loadedNarrated, again.memory, m);
    PlayingIsUnchanged(again, s);
    SameAskingIs(a.narrator, s, playing);
    SwitchIsMade(again.world, m, playing, again.now);
  }

  lemma StandsInSame(a: Asking, loaded: bool, m: Memory, m': Memory)
    requires StillStands(a, loaded, m) && SameCaches(m, m')
    ensures StillStands(a, loaded, m')
  {
  }
}
