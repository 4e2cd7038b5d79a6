/**
 What ends a session over whole runs: a foreign key, a speaker silent too
 long, and nothing once it has ended.
 */
module CastEndings {
  import opened Wrappers
  import opened CastSession
  import opened CastReconcile
  import opened CastWorld
  import opened CastSteps
  import opened CastApply
  import opened CastSpeaker

  /** A tick that asks the speaker how it stands, and what the speaker answers. */
  predicate LiveTick(step: Step, s: Session) {
    step.op.TickOp? && s.state != Ended && s.sitting.kind in step.world.drivers
  }

  function Answer(step: Step): Option<DeviceStatus> {
    step.world.status(|step.memory.trace|)
  }

  predicate EndedAs(s: Session, reason: EndedReason) {
    s.state == Ended && s.endedReason == reason
  }

  // ---- one step ----

  lemma CarryingOutEndsAs(w: World, m: Memory, s: Session, actions: seq<Action>, now: Time)
    requires s.HasCurrent() && Pending(s, actions)
    ensures var after := Apply(w, m, s, actions, now).0;
      && (s.state == Ended ==> after == s)
      && (s.state != Ended && after.state == Ended ==> after.endedReason == Failed)
  {
    hide Apply, Pending;
    CarryingOutReaches(w, m, s, actions, now);
  }

  lemma FollowNarrationEndsAs(w: World, m: Memory, s: Session, now: Time)
    requires s.HasCurrent()
    ensures var (after, m') := FollowNarration(w, m, s, now);
      && (s.state == Ended ==> after == s && m' == m)
      && (s.state != Ended && after.state == Ended ==> after.endedReason == Failed)
  {
    hide Covers, NarratedForm, Apply;
    var (switched, actions, m1) := NarrationSwitch(w, m, s, now);
    CarryingOutEndsAs(w, m1, switched, actions, now);
  }

  /** What a tick ends a session for is what the answer ends it for, or a load nobody would take. */
  lemma TickEndsAs(step: Step, s: Session, reason: EndedReason)
    requires s.HasCurrent() && LiveTick(step, s) && reason != Failed
    ensures EndedAs(Do(step, s).session, reason) <==> EndedAs(Reconcile(s, Answer(step), step.now).0, reason)
  {
    hide Reconcile, Apply, FollowNarration, Pending;
    var w, m, now := step.world, step.memory, step.now;
    var m1 := m.Log(AskedStatus(s.sitting.deviceId, Answer(step)));
    var (decided, actions) := Reconcile(s, Answer(step), now);
    ReconcileKeepsAccount(s, Answer(step), now);
    ReconcileLeavesPending(s, Answer(step), now);
    CarryingOutEndsAs(w, m1, decided, actions, now);
    var (applied, m2) := Apply(w, m1, decided, actions, now);
    FollowNarrationEndsAs(w, m2, applied, now);
  }

  lemma DecideEndsAs(w: World, m: Memory, s: Session, command: Command, now: Time)
    requires s.HasCurrent() && s.state != Ended && ValidCommand(command)
    ensures var after := Decide(w, m, s, command, now).session;
      after.state == Ended ==> after.endedReason in {QueueFinished, Stopped, HandedOff}
  {
    hide NarrationSwitch, ReplaceQueue;
    match command
    case EditQueue(version, items, currentIndex) => EditKeepsTheSongPlaying(s, items, currentIndex);
    case SetNarration(on) => SwitchReloadsOrStays(w, m, WithNarration(s, on), now);
    case _ =>
  }

  lemma CommandEndsAs(w: World, m: Memory, s: Session, command: Command, now: Time)
    requires s.HasCurrent() && s.state != Ended && ValidCommand(command)
    ensures var after := Run(w, m, s, command, now).session;
      after.state == Ended ==> after.endedReason in {QueueFinished, Stopped, HandedOff, Failed}
  {
    hide Decide, Apply, Pending;
    DecideEndsAs(w, m, s, command, now);
    DecisionIsPending(w, m, s, command, now);
    var d := Decide(w, m, s, command, now);
    CarryingOutEndsAs(w, d.memory, d.session, d.actions, now);
  }

  /** A session ended is never touched again, keeps its first reason, and is asked nothing more. */
  lemma EndedIsFinal(step: Step, s: Session)
    requires s.HasCurrent() && ValidStep(step) && s.state == Ended
    ensures Do(step, s).session == s && Do(step, s).memory == step.memory
  {
  }

  lemma {:induction false} EndedStays(s: Session, steps: seq<Step>, i: nat, j: nat)
    requires s.HasCurrent() && ValidRun(steps) && i <= j <= |steps| && At(s, steps, i).state == Ended
    ensures At(s, steps, j) == At(s, steps, i)
    decreases j
  {
    hide Do;
    if i < j {
      EndedStays(s, steps, i, j - 1);
      EndedIsFinal(steps[j - 1], At(s, steps, j - 1));
    }
  }

  // ---- whom a step calls ----

  /** Every order given since is to one speaker. */
  ghost predicate AllTo(device: string, trace: seq<Event>, from: nat) {
    forall k :: from <= k < |trace| && trace[k].IsOrder() ==> trace[k].device == device
  }

  lemma LoggedTo(device: string, trace: seq<Event>, e: Event, from: nat)
    requires AllTo(device, trace, from) && (e.IsOrder() ==> e.device == device)
    ensures AllTo(device, trace + [e], from)
  {
  }

  lemma QuietTo(device: string, m: Memory, m': Memory, from: nat)
    requires AllTo(device, m.trace, from) && Quiet(m, m')
    ensures AllTo(device, m'.trace, from)
  {
    assert forall k :: 0 <= k < |m.trace| ==> m'.trace[k] == m.trace[k];
  }

  lemma {:induction false} LoadTo(w: World, m: Memory, s: Session, startS: int, first: bool, now: Time, from: nat)
    requires s.HasCurrent() && s.state == Loading && AllTo(s.sitting.deviceId, m.trace, from)
    ensures AllTo(s.sitting.deviceId, ApplyLoad(w, m, s, startS, first, now).1.trace, from)
    decreases |s.queue| - s.currentIndex
  {
    hide *;
    InRange(s);
    TakenOrNot();
    var (e, m2) := Attempt(w, m, s, startS, first, now);
    AttemptTo(w, m, s, startS, first, now, from);
    OneRound(w, m, s, startS, first, now);
    if !e.Took() && s.currentIndex + 1 < |s.queue| {
      NextIsLoading(s, now);
      NextIsOf(s, now);
      LoadTo(w, m2, LoadAt(s, s.currentIndex + 1, 0, false, now).0, 0, false, now, from);
    }
  }

  lemma NextIsOf(s: Session, now: Time)
    requires s.HasCurrent() && s.currentIndex + 1 < |s.queue|
    ensures LoadAt(s, s.currentIndex + 1, 0, false, now).0.sitting == s.sitting
  {
  }

  lemma AttemptTo(w: World, m: Memory, s: Session, startS: int, first: bool, now: Time, from: nat)
    requires s.HasCurrent() && AllTo(s.sitting.deviceId, m.trace, from)
    ensures AllTo(s.sitting.deviceId, Attempt(w, m, s, startS, first, now).1.trace, from)
  {
    hide WantsNarrated, AllTo;
    var (wants, m1) := WantsNarrated(w, m, s, s.Current().videoId, startS, now);
    QuietTo(s.sitting.deviceId, m, m1, from);
    LoggedTo(s.sitting.deviceId, m1.trace, Attempt(w, m, s, startS, first, now).0, from);
  }

  lemma {:induction false} CarryingOutTo(w: World, m: Memory, s: Session, actions: seq<Action>, now: Time, from: nat)
    requires Pending(s, actions) && AllTo(s.sitting.deviceId, m.trace, from)
    ensures AllTo(s.sitting.deviceId, Apply(w, m, s, actions, now).1.trace, from)
    decreases |actions|
  {
    hide ApplyLoad, AllTo;
    if actions == [] {
    } else if actions[0].Load? {
      LoadTo(w, m, s, actions[0].startS, actions[0].first, now, from);
    } else {
      var e := if actions[0].StopDevice? then Ordered(s.sitting.deviceId, StopOrder, w.hears(|m.trace|))
               else Wrote(s.sitting.startedBy, actions[0].videoId, actions[0].positionS, actions[0].durationS);
      LoggedTo(s.sitting.deviceId, m.trace, e, from);
      CarryingOutTo(w, m.Log(e), s, actions[1..], now, from);
    }
  }

  lemma FollowNarrationTo(w: World, m: Memory, s: Session, now: Time, from: nat)
    requires s.HasCurrent() && AllTo(s.sitting.deviceId, m.trace, from)
    ensures AllTo(s.sitting.deviceId, FollowNarration(w, m, s, now).1.trace, from)
  {
    hide NarrationSwitch, Covers, NarratedForm, Apply, AllTo, Pending;
    SwitchReloadsOrStays(w, m, s, now);
    var (switched, actions, m1) := NarrationSwitch(w, m, s, now);
    QuietTo(s.sitting.deviceId, m, m1, from);
    if actions != [] {
      CarryingOutTo(w, m1, switched, actions, now, from);
    } else {
      QuietTo(s.sitting.deviceId, m, FollowNarration(w, m, s, now).1, from);
    }
  }

  lemma CarryingOutOf(w: World, m: Memory, s: Session, actions: seq<Action>, now: Time)
    requires s.HasCurrent() && Pending(s, actions)
    ensures Apply(w, m, s, actions, now).0.sitting == s.sitting
  {
    hide Apply, Pending;
    CarryingOutReaches(w, m, s, actions, now);
  }

  lemma DecideTo(w: World, m: Memory, s: Session, command: Command, now: Time, from: nat)
    requires s.HasCurrent() && ValidCommand(command) && AllTo(s.sitting.deviceId, m.trace, from)
    ensures AllTo(s.sitting.deviceId, Decide(w, m, s, command, now).memory.trace, from)
  {
    hide NarrationSwitch, AllTo;
    var m' := Decide(w, m, s, command, now).memory;
    if command.SetNarration? {
      QuietTo(s.sitting.deviceId, m, m', from);
    } else if m' != m {
      LoggedTo(s.sitting.deviceId, m.trace, m'.trace[|m.trace|], from);
      assert m'.trace == m.trace + [m'.trace[|m.trace|]];
    }
  }

  /** A step orders nobody but its own session's speaker. */
  lemma StepOrdersItsSpeaker(step: Step, s: Session)
    requires s.HasCurrent() && ValidStep(step)
    ensures AllTo(s.sitting.deviceId, Do(step, s).memory.trace, |step.memory.trace|)
  {
    hide Reconcile, Apply, FollowNarration, Decide, AllTo, Pending;
    var w, m, now, device := step.world, step.memory, step.now, s.sitting.deviceId;
    assert AllTo(device, m.trace, |m.trace|) by { NoneGiven(device, m.trace); }
    if LiveTick(step, s) {
      var e := AskedStatus(device, Answer(step));
      LoggedTo(device, m.trace, e, |m.trace|);
      var (decided, actions) := Reconcile(s, Answer(step), now);
      ReconcileKeepsAccount(s, Answer(step), now);
      ReconcileLeavesPending(s, Answer(step), now);
      CarryingOutTo(w, m.Log(e), decided, actions, now, |m.trace|);
      CarryingOutOf(w, m.Log(e), decided, actions, now);
      var (applied, m2) := Apply(w, m.Log(e), decided, actions, now);
      FollowNarrationTo(w, m2, applied, now, |m.trace|);
    } else if step.op.CommandOp? && s.state != Ended && s.sitting.kind in w.drivers {
      DecideTo(w, m, s, step.op.command, now, |m.trace|);
      DecisionIsPending(w, m, s, step.op.command, now);
      var d := Decide(w, m, s, step.op.command, now);
      CarryingOutTo(w, d.memory, d.session, d.actions, now, |m.trace|);
    }
  }

  lemma NoneGiven(device: string, trace: seq<Event>)
    ensures AllTo(device, trace, |trace|)
  {
  }

  /** So does a start. */
  lemma StartOrdersItsSpeaker(w: World, m: Memory, sitting: Sitting, items: seq<Item>, start: int, startS: int, narration: bool, now: Time)
    requires 0 <= start < |items|
    ensures AllTo(sitting.deviceId, Start(w, m, sitting, items, start, startS, narration, now).1.trace, |m.trace|)
  {
    hide Attempt, AllTo;
    NoneGiven(sitting.deviceId, m.trace);
    var s := LoadAt(NewSession(sitting, items, narration, now), start, Max(startS, 0), true, now).0;
    AttemptTo(w, m, s, Max(startS, 0), true, now, |m.trace|);
  }

  // ---- takeovers ----

  /** Only a tick that is answered with a foreign key takes a session for somebody else's, and every such tick does. */
  lemma TakenOverOnlyByAForeignKey(step: Step, s: Session)
    requires s.HasCurrent() && ValidStep(step) && s.state != Ended
    ensures EndedAs(Do(step, s).session, TakenOver) <==>
      LiveTick(step, s) && Answer(step).Some? && Foreign(s, Answer(step).value)
  {
    hide Reconcile, Tick, Run, Foreign, GivenUp, WentIdle, Finished;
    if LiveTick(step, s) {
      EndsOnlyFor(s, Answer(step), step.now);
      TickEndsAs(step, s, TakenOver);
    } else if step.op.TickOp? {
      TickLeavesAlone(step.world, step.memory, s, step.now);
    } else if step.op.CommandOp? {
      CommandEndsAs(step.world, step.memory, s, step.op.command, step.now);
    }
  }

  /** A speaker somebody else has taken is asked how it stands, and sent nothing. */
  lemma AForeignKeyIsSentNothing(step: Step, s: Session)
    requires s.HasCurrent() && LiveTick(step, s) && Answer(step).Some? && Foreign(s, Answer(step).value)
    ensures Do(step, s).memory == step.memory.Log(AskedStatus(s.sitting.deviceId, Answer(step)))
    ensures EndedAs(Do(step, s).session, TakenOver)
  {
    hide FollowNarration;
    var ended := Reconcile(s, Answer(step), step.now).0;
    FollowNarrationEndsAs(step.world, step.memory.Log(AskedStatus(s.sitting.deviceId, Answer(step))), ended, step.now);
  }

  /** A speaker that names the last song it took, none, or, until it first names that one, the song before it. */
  predicate Honest(sp: Speaker, st: DeviceStatus) {
    st.mediaKey == "" || st.mediaKey == sp.latest || (!sp.named && st.mediaKey == sp.before)
  }

  ghost predicate HonestThroughout(sp: Speaker, s: Session, steps: seq<Step>)
    requires s.HasCurrent() && ValidRun(steps)
  {
    forall k :: 0 <= k < |steps| && LiveTick(steps[k], At(s, steps, k)) && Answer(steps[k]).Some? ==>
      Honest(SpeakerAt(sp, s, steps, k), Answer(steps[k]).value)
  }

  lemma HonestIsNotForeign(s: Session, sp: Speaker, st: DeviceStatus)
    requires s.state != Ended && Tracks(s, sp) && Honest(sp, st)
    ensures !Foreign(s, st)
  {
  }

  lemma HonestStepIsNotTakenOver(step: Step, s: Session, sp: Speaker)
    requires s.HasCurrent() && ValidStep(step) && Tracks(s, sp) && !EndedAs(s, TakenOver)
    requires LiveTick(step, s) && Answer(step).Some? ==> Honest(sp, Answer(step).value)
    ensures !EndedAs(Do(step, s).session, TakenOver)
  {
    hide Do, Tracks, Foreign, Honest, LiveTick;
    if s.state == Ended {
      EndedIsFinal(step, s);
    } else {
      TakenOverOnlyByAForeignKey(step, s);
      if LiveTick(step, s) && Answer(step).Some? {
        HonestIsNotForeign(s, sp, Answer(step).value);
      }
    }
  }

  /**
   No false takeover: with such a speaker, and while no load that was taken is
   lost with its save, no run of ticks and commands takes the session for
   somebody else's.
   */
  lemma {:induction false} NoFalseTakeover(sp: Speaker, s: Session, steps: seq<Step>, k: nat)
    requires s.HasCurrent() && ValidRun(steps) && k <= |steps| && Tracks(s, sp)
    requires !EndedAs(s, TakenOver) && HonestThroughout(sp, s, steps) && LosesNoLoad(s, steps)
    ensures !EndedAs(At(s, steps, k), TakenOver)
    decreases k
  {
    hide Do, Tracks, Foreign, Honest, LiveTick, EndedAs, SpeakerAt, LosesNoLoad;
    if k > 0 {
      NoFalseTakeover(sp, s, steps, k - 1);
      HistoryNamesTheSongHanded(sp, s, steps, k - 1);
      HonestStepIsNotTakenOver(steps[k - 1], At(s, steps, k - 1), SpeakerAt(sp, s, steps, k - 1));
    }
  }

  /**
   Where the code is less forgiving. A session just started has no song before
   it, so a speaker that still names the song of the session it replaced has
   the new one ended as taken over on its first tick; any other key but the new
   song's own does the same, and no key does not.
   */
  lemma StartIsTakenOverByTheSongItReplaced(w: World, m: Memory, sitting: Sitting, items: seq<Item>, start: int, startS: int,
                                            narration: bool, now: Time, step: Step)
    requires 0 <= start < |items| && Start(w, m, sitting, items, start, startS, narration, now).0.Some?
    requires step.op.TickOp? && sitting.kind in step.world.drivers && Answer(step).Some?
    ensures var s := Start(w, m, sitting, items, start, startS, narration, now).0.value;
      EndedAs(Do(step, s).session, TakenOver) <==>
        Answer(step).value.mediaKey != "" && Answer(step).value.mediaKey != s.loadedMediaKey
  {
    hide Start, Do, Tracks;
    StartTracks(w, m, sitting, items, start, startS, narration, now);
    StartIsOf(w, m, sitting, items, start, startS, narration, now);
    var s := Start(w, m, sitting, items, start, startS, narration, now).0.value;
    TakenOverOnlyByAForeignKey(step, s);
  }

  lemma StartIsOf(w: World, m: Memory, sitting: Sitting, items: seq<Item>, start: int, startS: int, narration: bool, now: Time)
    requires 0 <= start < |items|
    ensures var started := Start(w, m, sitting, items, start, startS, narration, now).0;
      started.Some? ==>
        && started.value.sitting == sitting && started.value.queue == items && started.value.currentIndex == start
        && started.value.lastSeenOK == now && started.value.loadingSince == now
        && started.value.lastProgressAt == ZERO_TIME
  {
    hide Attempt;
  }

  // ---- silence ----

  /** The clock does not go back from step to step, nor behind `from`. */
  predicate Clocked(from: Time, steps: seq<Step>) {
    && (forall k :: 0 <= k < |steps| ==> from <= steps[k].now)
    && (forall i, j :: 0 <= i <= j < |steps| ==> steps[i].now <= steps[j].now)
  }

  lemma CarryingOutSeen(w: World, m: Memory, s: Session, actions: seq<Action>, now: Time)
    requires s.HasCurrent() && Pending(s, actions)
    ensures Apply(w, m, s, actions, now).0.lastSeenOK == s.lastSeenOK
  {
    hide Apply, Pending;
    CarryingOutReaches(w, m, s, actions, now);
  }

  lemma FollowNarrationSeen(w: World, m: Memory, s: Session, now: Time)
    requires s.HasCurrent()
    ensures FollowNarration(w, m, s, now).0.lastSeenOK == s.lastSeenOK
  {
    hide Covers, NarratedForm, Apply;
    var (switched, actions, m1) := NarrationSwitch(w, m, s, now);
    CarryingOutSeen(w, m1, switched, actions, now);
  }

  lemma ReconcileSeen(s: Session, answer: Option<DeviceStatus>, now: Time)
    requires s.HasCurrent() && s.state != Ended
    ensures Reconcile(s, answer, now).0.lastSeenOK == if answer.Some? then now else s.lastSeenOK
  {
    hide Reconcile;
    Decides(s, answer, now);
  }

  lemma DecideSeen(w: World, m: Memory, s: Session, command: Command, now: Time)
    requires s.HasCurrent() && ValidCommand(command)
    ensures Decide(w, m, s, command, now).session.lastSeenOK == s.lastSeenOK
  {
    hide NarrationSwitch, ReplaceQueue;
    match command
    case EditQueue(version, items, currentIndex) => EditKeepsTheSongPlaying(s, items, currentIndex);
    case SetNarration(on) => SwitchReloadsOrStays(w, m, WithNarration(s, on), now);
    case _ =>
  }

  /** When the speaker was last seen is the clock of the last tick it answered, and nothing else moves it. */
  lemma StepSeen(step: Step, s: Session)
    requires s.HasCurrent() && ValidStep(step)
    ensures Do(step, s).session.lastSeenOK ==
      if LiveTick(step, s) && Answer(step).Some? then step.now else s.lastSeenOK
  {
    hide Reconcile, Apply, FollowNarration, Decide, Pending;
    var w, m, now := step.world, step.memory, step.now;
    if LiveTick(step, s) {
      var m1 := m.Log(AskedStatus(s.sitting.deviceId, Answer(step)));
      var (decided, actions) := Reconcile(s, Answer(step), now);
      ReconcileSeen(s, Answer(step), now);
      ReconcileKeepsAccount(s, Answer(step), now);
      ReconcileLeavesPending(s, Answer(step), now);
      CarryingOutSeen(w, m1, decided, actions, now);
      var (applied, m2) := Apply(w, m1, decided, actions, now);
      FollowNarrationSeen(w, m2, applied, now);
    } else if step.op.CommandOp? && s.state != Ended && s.sitting.kind in w.drivers {
      DecideSeen(w, m, s, step.op.command, now);
      DecisionIsPending(w, m, s, step.op.command, now);
      var d := Decide(w, m, s, step.op.command, now);
      CarryingOutSeen(w, d.memory, d.session, d.actions, now);
    }
  }

  /** The speaker has been silent for longer than allowed at `now`, as far as storage knows: no answer stored in the first `k` steps is that recent. */
  ghost predicate SilentSince(s: Session, steps: seq<Step>, k: nat, now: Time)
    requires s.HasCurrent() && ValidRun(steps) && k <= |steps|
  {
    && now - s.lastSeenOK > OFFLINE_AFTER
    && forall i :: 0 <= i < k && steps[i].kept && LiveTick(steps[i], At(s, steps, i)) && Answer(steps[i]).Some? ==>
         now - steps[i].now > OFFLINE_AFTER
  }

  lemma {:induction false} SeenIsTheLastAnswer(s: Session, steps: seq<Step>, k: nat, now: Time)
    requires s.HasCurrent() && ValidRun(steps) && k <= |steps| && Clocked(s.lastSeenOK, steps)
    ensures now - At(s, steps, k).lastSeenOK > OFFLINE_AFTER <==> SilentSince(s, steps, k, now)
    ensures s.lastSeenOK <= At(s, steps, k).lastSeenOK
    ensures k > 0 ==> At(s, steps, k).lastSeenOK <= steps[k - 1].now
    ensures k == 0 ==> At(s, steps, k).lastSeenOK <= s.lastSeenOK
    decreases k
  {
    hide Do, LiveTick;
    if k > 0 {
      SeenIsTheLastAnswer(s, steps, k - 1, now);
      if steps[k - 1].kept {
        StepSeen(steps[k - 1], At(s, steps, k - 1));
      }
    }
  }

  /**
   A step ends a session as offline exactly when it is a tick left unanswered,
   and no tick whose save went through was answered within the time allowed, nor
   was the session created within it. An answer whose save was lost is forgotten.
   */
  lemma OfflineOnlyAfterSilence(s: Session, steps: seq<Step>, k: nat)
    requires s.HasCurrent() && ValidRun(steps) && k < |steps| && Clocked(s.lastSeenOK, steps)
    requires At(s, steps, k).state != Ended
    ensures EndedAs(Do(steps[k], At(s, steps, k)).session, DeviceOffline) <==>
      && LiveTick(steps[k], At(s, steps, k)) && Answer(steps[k]).None?
      && SilentSince(s, steps, k, steps[k].now)
  {
    hide Reconcile, Tick, Run, Foreign, GivenUp, WentIdle, Finished, SilentSince;
    var before := At(s, steps, k);
    var step := steps[k];
    SeenIsTheLastAnswer(s, steps, k, step.now);
    if LiveTick(step, before) {
      EndsOnlyFor(before, Answer(step), step.now);
      TickEndsAs(step, before, DeviceOffline);
    } else if step.op.TickOp? {
      TickLeavesAlone(step.world, step.memory, before, step.now);
    } else if step.op.CommandOp? {
      CommandEndsAs(step.world, step.memory, before, step.op.command, step.now);
    }
  }
}
