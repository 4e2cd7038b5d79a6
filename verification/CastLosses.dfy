/**
 What a load costs that the speaker took and storage does not have: a save lost
 after its step's calls were made, and a session loaded but not created
 (services/cast/internal/usecase/engine.go:369-374, 454-462).

 Each statement gives the exact condition, in terms of the step or start that
 was lost; LossCases has cases in which it applies.
 */
module CastLosses {
  import opened CastSession
  import opened CastReconcile
  import opened CastWorld
  import opened CastSteps
  import opened CastApply
  import opened CastSpeaker
  import opened CastEndings
  import opened CastCommands

  // ---- a load taken is waited on ----

  lemma {:induction false} LoadTakes(w: World, m: Memory, s: Session, startS: int, first: bool, now: Time, from: nat)
    requires s.HasCurrent() && s.state == Loading && NothingTaken(m.trace, from)
    ensures var (after, m') := ApplyLoad(w, m, s, startS, first, now);
      NothingTaken(m'.trace, from) || after.state == Loading
    decreases |s.queue| - s.currentIndex
  {
    hide Attempt;
    OneRound(w, m, s, startS, first, now);
    var (e, m') := Attempt(w, m, s, startS, first, now);
    if !e.Took() {
      assert forall k :: 0 <= k < |m.trace| ==> m'.trace[k] == m.trace[k];
      if s.currentIndex + 1 < |s.queue| {
        LoadTakes(w, m', LoadAt(s, s.currentIndex + 1, 0, false, now).0, 0, false, now, from);
      }
    }
  }

  lemma {:induction false} CarryingOutTakes(w: World, m: Memory, s: Session, actions: seq<Action>, now: Time, from: nat)
    requires s.HasCurrent() && Pending(s, actions) && NothingTaken(m.trace, from)
    ensures var (after, m') := Apply(w, m, s, actions, now);
      NothingTaken(m'.trace, from) || after.state == Loading
    decreases |actions|
  {
    hide ApplyLoad;
    if actions == [] {
    } else if actions[0].Load? {
      LoadTakes(w, m, s, actions[0].startS, actions[0].first, now, from);
    } else {
      var e := if actions[0].StopDevice? then Ordered(s.sitting.deviceId, StopOrder, w.hears(|m.trace|))
               else Wrote(s.sitting.startedBy, actions[0].videoId, actions[0].positionS, actions[0].durationS);
      CarryingOutTakes(w, m.Log(e), s, actions[1..], now, from);
    }
  }

  lemma QuietTakesNothing(m: Memory, m': Memory, from: nat)
    requires Quiet(m, m') && NothingTaken(m.trace, from)
    ensures NothingTaken(m'.trace, from)
  {
    assert forall k :: 0 <= k < |m.trace| ==> m'.trace[k] == m.trace[k];
  }

  lemma FollowNarrationTakes(w: World, m: Memory, s: Session, now: Time, from: nat)
    requires s.HasCurrent() && (NothingTaken(m.trace, from) || s.state == Loading)
    ensures var (after, m') := FollowNarration(w, m, s, now);
      NothingTaken(m'.trace, from) || after.state == Loading
  {
    hide NarrationSwitch, Covers, NarratedForm, Apply, Pending, NothingTaken;
    SwitchReloadsOrStays(w, m, s, now);
    var (switched, actions, m1) := NarrationSwitch(w, m, s, now);
    if NothingTaken(m.trace, from) {
      QuietTakesNothing(m, m1, from);
      if actions != [] {
        CarryingOutTakes(w, m1, switched, actions, now, from);
      } else {
        QuietTakesNothing(m, FollowNarration(w, m, s, now).1, from);
      }
    }
  }

  lemma DecideTakes(w: World, m: Memory, s: Session, command: Command, now: Time)
    requires s.HasCurrent() && ValidCommand(command)
    ensures NothingTaken(Decide(w, m, s, command, now).memory.trace, |m.trace|)
  {
    hide Covers, NarratedForm, ReplaceQueue;
  }

  /** A load taken is the last thing a step does to its session, which is then waiting on it. */
  lemma StepTakes(step: Step, s: Session)
    requires s.HasCurrent() && ValidStep(step)
    ensures NothingTaken(Do(step, s).memory.trace, |step.memory.trace|) || Do(step, s).session.state == Loading
  {
    hide Reconcile, Apply, FollowNarration, Decide, Pending;
    var w, m, now := step.world, step.memory, step.now;
    if LiveTick(step, s) {
      var m1 := m.Log(AskedStatus(s.sitting.deviceId, Answer(step)));
      var (decided, actions) := Reconcile(s, Answer(step), now);
      ReconcileKeepsAccount(s, Answer(step), now);
      ReconcileLeavesPending(s, Answer(step), now);
      CarryingOutTakes(w, m1, decided, actions, now, |m.trace|);
      var (applied, m2) := Apply(w, m1, decided, actions, now);
      FollowNarrationTakes(w, m2, applied, now, |m.trace|);
    } else if step.op.CommandOp? && s.state != Ended && s.sitting.kind in w.drivers {
      DecideTakes(w, m, s, step.op.command, now);
      DecisionIsPending(w, m, s, step.op.command, now);
      var d := Decide(w, m, s, step.op.command, now);
      CarryingOutTakes(w, d.memory, d.session, d.actions, now, |m.trace|);
    }
  }

  // ---- history ----

  /** The step leaves its session live, on another video than it found it on. */
  predicate MovesToAnother(step: Step, s: Session)
    requires s.HasCurrent() && ValidStep(step)
  {
    var after := Do(step, s).session;
    after.state != Ended && after.Current().videoId != s.Current().videoId
  }

  /** What the speaker has been handed after a step. */
  function HeardThrough(sp: Speaker, step: Step, s: Session): Speaker
    requires s.HasCurrent() && ValidStep(step)
  {
    HeardSince(sp, Do(step, s).memory.trace, |step.memory.trace|)
  }

  /** What the speaker plays after a step, whether or not the step was stored, is the song the step left current, unless it ended. */
  lemma HeardAfter(sp: Speaker, s: Session, step: Step)
    requires s.HasCurrent() && ValidStep(step) && s.state != Ended && Tracks(s, sp)
    ensures var heard := HeardThrough(sp, step, s);
      heard.video == if Do(step, s).session.state == Ended then s.Current().videoId else Do(step, s).session.Current().videoId
  {
    hide Do, HeardSince, Attributed, NothingTaken;
    StepTracks(step, s, sp);
    StepTakes(step, s);
    if Do(step, s).session.state == Ended {
      NothingTakenChangesNothing(sp, Do(step, s).memory.trace, |step.memory.trace|);
    }
  }

  lemma HandoffHeard(heard: Speaker, m: Memory, order: Event, written: Event)
    requires order.Ordered? && written.Wrote?
    ensures Attributed(heard, m.Log(order).Log(written).trace, |m.trace|) <==> written.video == heard.video
  {
    hide HeardSince;
    var from := |m.trace|;
    var trace := m.Log(order).Log(written).trace;
    HeardNothing(heard, m.trace);
    HearsOneMore(heard, m.trace, order, from);
    assert trace[..from + 1] == m.trace + [order] && trace[from] == order && trace[from + 1] == written;
  }

  /** Handing off the stored session writes for the song the speaker plays exactly when that is its current one. */
  lemma HandoffIsOf(heard: Speaker, w: World, m: Memory, s: Session, now: Time)
    requires Live(w, s)
    ensures Attributed(heard, Run(w, m, s, Handoff, now).memory.trace, |m.trace|) <==> heard.video == s.Current().videoId
  {
    hide Run, Attributed, HeardSince;
    HandoffLeavesThePlace(w, m, s, now);
    HandoffHeard(heard, m, Ordered(s.sitting.deviceId, StopOrder, w.hears(|m.trace|)),
                 Wrote(s.sitting.startedBy, s.queue[s.currentIndex].videoId, s.positionS, s.durationS));
  }

  /**
   After a step whose save was lost, handing off what is stored writes for the
   song the speaker plays if and only if the lost step did not move to another.
   */
  lemma UnsavedLoadIsWrittenForAnother(sp: Speaker, s: Session, unsaved: Step, w: World, m: Memory, now: Time)
    requires Live(w, s) && ValidStep(unsaved) && Tracks(s, sp)
    ensures var heard := HeardThrough(sp, unsaved, s);
      Attributed(heard, Run(w, m, s, Handoff, now).memory.trace, |m.trace|) <==> !MovesToAnother(unsaved, s)
  {
    hide Do, Run, HeardSince, Attributed, Tracks;
    HeardAfter(sp, s, unsaved);
    HandoffIsOf(HeardThrough(sp, unsaved, s), w, m, s, now);
  }

  /**
   The same of a start on the session's own speaker that was loaded and could
   not be stored: the session stays live, and what it writes is for the song the
   speaker was last handed unless the start was taken with another.
   */
  lemma FailedCreateIsWrittenForAnother(sp: Speaker, s: Session, via: Step, sitting: Sitting, items: seq<Item>, start: int,
                                        startS: int, narration: bool, w: World, m: Memory, now: Time)
    requires Live(w, s) && Tracks(s, sp) && 0 <= start < |items|
    ensures var (started, m1) := Start(via.world, via.memory, sitting, items, start, startS, narration, via.now);
      var heard := HeardSince(sp, m1.trace, |via.memory.trace|);
      Attributed(heard, Run(w, m, s, Handoff, now).memory.trace, |m.trace|) <==>
        !(started.Some? && items[start].videoId != s.Current().videoId)
  {
    hide Run, HeardSince, Attributed;
    var m1 := Start(via.world, via.memory, sitting, items, start, startS, narration, via.now).1;
    StartHeard(sp, via, sitting, items, start, startS, narration);
    HandoffIsOf(HeardSince(sp, m1.trace, |via.memory.trace|), w, m, s, now);
  }

  /** What the speaker has been handed after a start: the song started on, when it took it. */
  lemma StartHeard(sp: Speaker, via: Step, sitting: Sitting, items: seq<Item>, start: int, startS: int, narration: bool)
    requires 0 <= start < |items|
    ensures var (started, m1) := Start(via.world, via.memory, sitting, items, start, startS, narration, via.now);
      HeardSince(sp, m1.trace, |via.memory.trace|) ==
        if started.Some? then Speaker(items[start].videoId, started.value.loadedMediaKey, sp.latest, false) else sp
  {
    hide Attempt, Attributed, HeardSince;
    var w, m := via.world, via.memory;
    var s := LoadAt(NewSession(sitting, items, narration, via.now), start, Max(startS, 0), true, via.now).0;
    var (e, m1) := Attempt(w, m, s, Max(startS, 0), true, via.now);
    var asked := m1.trace[..|m1.trace| - 1];
    HeardNothing(sp, m.trace);
    AsidesChangeNothing(sp, m.trace, asked, |m.trace|);
    HearsOneMore(sp, asked, e, |m.trace|);
    assert m1.trace == asked + [e];
    AttemptHands(w, m, s, Max(startS, 0), true, via.now);
  }

  lemma AttemptHands(w: World, m: Memory, s: Session, startS: int, first: bool, now: Time)
    requires s.HasCurrent()
    ensures Attempt(w, m, s, startS, first, now).0.video == s.Current().videoId
  {
    hide WantsNarrated;
  }

  // ---- takeover ----

  /** The tick is answered with the key of the load the speaker took last. */
  predicate NamesTheLast(sp: Speaker, tick: Step) {
    Answer(tick).Some? && sp.latest != "" && Answer(tick).value.mediaKey == sp.latest
  }

  /** The step leaves its session live on another load, other than the one before that a loading session still allows. */
  predicate LeavesOnAnotherLoad(step: Step, s: Session)
    requires s.HasCurrent() && ValidStep(step)
  {
    var after := Do(step, s).session;
    && after.state != Ended && after.loadedMediaKey != s.loadedMediaKey
    && !(s.state == Loading && after.loadedMediaKey == s.prevMediaKey)
  }

  /**
   After a step whose save was lost, a tick that names the load taken last ends
   the session as taken over if and only if the lost step left it on another.
   */
  lemma UnsavedLoadReadsAsTakeover(sp: Speaker, s: Session, unsaved: Step, tick: Step)
    requires s.HasCurrent() && ValidStep(unsaved) && s.state != Ended && Tracks(s, sp)
    requires LiveTick(tick, s) && NamesTheLast(HeardThrough(sp, unsaved, s), tick)
    ensures EndedAs(Do(tick, s).session, TakenOver) <==> LeavesOnAnotherLoad(unsaved, s)
  {
    hide Do, HeardSince, Attributed, NothingTaken;
    StepTracks(unsaved, s, sp);
    StepTakes(unsaved, s);
    if Do(unsaved, s).session.state == Ended {
      NothingTakenChangesNothing(sp, Do(unsaved, s).memory.trace, |unsaved.memory.trace|);
    }
    TakenOverOnlyByAForeignKey(tick, s);
  }
}
