/**
 The session against the speaker it drives: whose song the history names, and
 when a song is taken for somebody else's.

 What the speaker has been handed is read off the calls alone, so that the
 session's own account of it (its current item and its two media keys) is
 compared with something it did not write itself.
 */
module CastSpeaker {
  import opened Wrappers
  import opened CastSession
  import opened CastReconcile
  import opened CastWorld
  import opened CastSteps
  import opened CastApply

  /** The last load this session's speaker took: its video, its key, the key taken before it, and whether it has been named since. */
  datatype Speaker = Speaker(video: string, latest: string, before: string, named: bool)

  function Hear(sp: Speaker, e: Event): Speaker {
    match e
    case Handed(_, video, _, _, _, Accepted(key)) => Speaker(video, key, sp.latest, false)
    case AskedStatus(_, Some(st)) => sp.(named := sp.named || (st.mediaKey != "" && st.mediaKey == sp.latest))
    case _ => sp
  }

  function HeardSince(sp: Speaker, trace: seq<Event>, from: nat): Speaker {
    if |trace| <= from then sp
    else Hear(HeardSince(sp, trace[..|trace| - 1], from), trace[|trace| - 1])
  }

  /** Every history write since names the video last taken when it was written. */
  ghost predicate Attributed(sp: Speaker, trace: seq<Event>, from: nat) {
    forall k :: from <= k < |trace| && trace[k].Wrote? ==> trace[k].video == HeardSince(sp, trace[..k], from).video
  }

  lemma HearsOneMore(sp: Speaker, trace: seq<Event>, e: Event, from: nat)
    requires from <= |trace|
    ensures HeardSince(sp, trace + [e], from) == Hear(HeardSince(sp, trace, from), e)
    ensures Attributed(sp, trace, from) && (e.Wrote? ==> e.video == HeardSince(sp, trace, from).video) ==>
      Attributed(sp, trace + [e], from)
  {
    var longer := trace + [e];
    assert longer[..|longer| - 1] == trace;
    if Attributed(sp, trace, from) && (e.Wrote? ==> e.video == HeardSince(sp, trace, from).video) {
      forall k | from <= k < |longer| && longer[k].Wrote?
        ensures longer[k].video == HeardSince(sp, longer[..k], from).video
      {
        assert k < |trace| ==> longer[..k] == trace[..k] && longer[k] == trace[k];
      }
    }
  }

  lemma {:induction false} AsidesChangeNothing(sp: Speaker, trace: seq<Event>, longer: seq<Event>, from: nat)
    requires from <= |trace| && trace <= longer
    requires forall k :: |trace| <= k < |longer| ==> longer[k].IsAside()
    ensures HeardSince(sp, longer, from) == HeardSince(sp, trace, from)
    ensures Attributed(sp, trace, from) ==> Attributed(sp, longer, from)
    decreases |longer|
  {
    hide HeardSince, Attributed;
    if |longer| == |trace| {
      assert longer == trace;
    } else {
      var shorter := longer[..|longer| - 1];
      AsidesChangeNothing(sp, trace, shorter, from);
      HearsOneMore(sp, shorter, longer[|longer| - 1], from);
      assert shorter + [longer[|longer| - 1]] == longer;
    }
  }

  /**
   The session's account agrees with the calls: its current song is the one the
   speaker took last, its keys are the last two taken, and it is past loading
   only once the speaker has named the last of them.
   */
  ghost predicate Tracks(s: Session, sp: Speaker) {
    s.state != Ended ==>
      && s.Current().videoId == sp.video
      && s.loadedMediaKey == sp.latest
      && s.prevMediaKey == sp.before
      && (s.state in {Playing, Paused} ==> sp.named)
  }

  /** As far as the keys go: what holds while a load is still to be carried out. */
  ghost predicate KeysTrack(s: Session, sp: Speaker) {
    s.loadedMediaKey == sp.latest && s.prevMediaKey == sp.before
  }

  // ---- carrying out a decision ----

  lemma {:induction false} LoadTracks(w: World, m: Memory, s: Session, startS: int, first: bool, now: Time, sp0: Speaker, from: nat)
    requires s.HasCurrent() && s.state == Loading && from <= |m.trace|
    requires KeysTrack(s, HeardSince(sp0, m.trace, from)) && Attributed(sp0, m.trace, from)
    ensures var (after, m') := ApplyLoad(w, m, s, startS, first, now);
      && Tracks(after, HeardSince(sp0, m'.trace, from)) && Attributed(sp0, m'.trace, from)
    decreases |s.queue| - s.currentIndex
  {
    hide *;
    InRange(s);
    TakenOrNot();
    var (e, m2) := Attempt(w, m, s, startS, first, now);
    AttemptTracks(w, m, s, startS, first, now, sp0, from);
    OneRound(w, m, s, startS, first, now);
    if !e.Took() && s.currentIndex + 1 < |s.queue| {
      NextIsLoading(s, now);
      KeysStay(s, HeardSince(sp0, m2.trace, from), now);
      LoadTracks(w, m2, LoadAt(s, s.currentIndex + 1, 0, false, now).0, 0, false, now, sp0, from);
    } else if !e.Took() {
      EndedTracks(s, Failed, now, HeardSince(sp0, m2.trace, from));
    }
  }

  lemma KeysStay(s: Session, sp: Speaker, now: Time)
    requires s.HasCurrent() && s.currentIndex + 1 < |s.queue| && KeysTrack(s, sp)
    ensures KeysTrack(LoadAt(s, s.currentIndex + 1, 0, false, now).0, sp)
  {
  }

  lemma EndedTracks(s: Session, reason: EndedReason, now: Time, sp: Speaker)
    ensures Tracks(End(s, reason, now), sp)
  {
  }

  lemma AttemptTracks(w: World, m: Memory, s: Session, startS: int, first: bool, now: Time, sp0: Speaker, from: nat)
    requires s.HasCurrent() && s.state == Loading && from <= |m.trace|
    requires KeysTrack(s, HeardSince(sp0, m.trace, from)) && Attributed(sp0, m.trace, from)
    ensures var (e, m') := Attempt(w, m, s, startS, first, now);
      && Attributed(sp0, m'.trace, from)
      && (if e.Took() then Tracks(s.Loaded(e.answer.key, e.narrated), HeardSince(sp0, m'.trace, from))
          else KeysTrack(s, HeardSince(sp0, m'.trace, from)))
  {
    hide WantsNarrated, HeardSince, Attributed;
    var (e, m') := Attempt(w, m, s, startS, first, now);
    var asked := m'.trace[..|m'.trace| - 1];
    assert m'.trace == asked + [e];
    AsidesChangeNothing(sp0, m.trace, asked, from);
    HearsOneMore(sp0, asked, e, from);
  }

  /** A decision whose history writes are of the song the speaker took last, and whose load, if any, is still to come. */
  ghost predicate Faithful(s: Session, actions: seq<Action>, sp: Speaker) {
    && (forall k :: 0 <= k < |actions| && actions[k].RecordProgress? ==> actions[k].videoId == sp.video)
    && (if AsksForLoad(actions) then KeysTrack(s, sp) else Tracks(s, sp))
  }

  lemma {:induction false} CarryingOutTracks(w: World, m: Memory, s: Session, actions: seq<Action>, now: Time, sp0: Speaker, from: nat)
    requires s.HasCurrent() && Pending(s, actions) && from <= |m.trace|
    requires Faithful(s, actions, HeardSince(sp0, m.trace, from)) && Attributed(sp0, m.trace, from)
    ensures var (after, m') := Apply(w, m, s, actions, now);
      Tracks(after, HeardSince(sp0, m'.trace, from)) && Attributed(sp0, m'.trace, from)
    decreases |actions|
  {
    hide HeardSince, Attributed, Tracks, ApplyLoad;
    if actions != [] {
      var rest := actions[1..];
      match actions[0]
      case Load(_, startS, first) =>
        LoadTracks(w, m, s, startS, first, now, sp0, from);
      case StopDevice =>
        var e := Ordered(s.sitting.deviceId, StopOrder, w.hears(|m.trace|));
        HearsOneMore(sp0, m.trace, e, from);
        FaithfulRest(s, actions, HeardSince(sp0, m.trace, from));
        CarryingOutTracks(w, m.Log(e), s, rest, now, sp0, from);
      case RecordProgress(video, positionS, durationS) =>
        var e := Wrote(s.sitting.startedBy, video, positionS, durationS);
        HearsOneMore(sp0, m.trace, e, from);
        FaithfulRest(s, actions, HeardSince(sp0, m.trace, from));
        CarryingOutTracks(w, m.Log(e), s, rest, now, sp0, from);
    }
  }

  lemma FaithfulRest(s: Session, actions: seq<Action>, sp: Speaker)
    requires actions != [] && !actions[0].Load? && Faithful(s, actions, sp)
    ensures Faithful(s, actions[1..], sp)
  {
    hide Tracks, KeysTrack;
    var rest := actions[1..];
    if AsksForLoad(actions) {
      var k :| 0 <= k < |actions| && actions[k].Load?;
      assert rest[k - 1].Load?;
    }
    if AsksForLoad(rest) {
      var k :| 0 <= k < |rest| && rest[k].Load?;
      assert actions[k + 1].Load?;
    }
  }

  // ---- decisions ----

  lemma ReconcileStartsOnlyOurs(s: Session, answer: Option<DeviceStatus>, now: Time)
    requires s.HasCurrent()
    ensures var after := Reconcile(s, answer, now).0;
      after.state in {Playing, Paused} && s.state == Loading ==> answer.Some? && Ours(s, answer.value)
  {
  }

  lemma ReconcileFaithful(s: Session, answer: Option<DeviceStatus>, now: Time, sp: Speaker)
    requires s.HasCurrent() && s.state != Ended && Tracks(s, sp)
    ensures var (after, actions) := Reconcile(s, answer, now);
      Faithful(after, actions, Hear(sp, AskedStatus(s.sitting.deviceId, answer)))
  {
    hide Reconcile, AsksForLoad, Foreign, Finished, WentIdle;
    ReconcileKeepsAccount(s, answer, now);
    ReconcileStartsOnlyOurs(s, answer, now);
    ReconcileLoadsOnlyWhenMoving(s, answer, now);
    RecordsTheSongThatPlayed(s, answer, now);
  }

  lemma SwitchFaithful(w: World, m: Memory, s: Session, now: Time, sp: Speaker)
    requires s.HasCurrent() && Tracks(s, sp)
    ensures var (switched, actions, m') := NarrationSwitch(w, m, s, now);
      Faithful(switched, actions, sp)
  {
    hide NarrationSwitch;
    SwitchReloadsOrStays(w, m, s, now);
    var (switched, actions, m') := NarrationSwitch(w, m, s, now);
    if actions != [] {
      OneAction(actions[0]);
      assert actions == [actions[0]];
    }
  }

  lemma EditFaithful(m: Memory, s: Session, version: int, items: seq<Item>, currentIndex: int, now: Time, sp: Speaker)
    requires s.HasCurrent() && items != [] && s.state != Ended && Tracks(s, sp)
    ensures var d := Edit(m, s, version, items, currentIndex, now);
      Faithful(d.session, d.actions, sp)
  {
    EditKeepsTheSongPlaying(s, items, currentIndex);
    var d := Edit(m, s, version, items, currentIndex, now);
    if d.actions != [] {
      OneAction(d.actions[0]);
      assert d.actions == [d.actions[0]];
    }
  }

  lemma DecideFaithful(w: World, m: Memory, s: Session, command: Command, now: Time, sp: Speaker)
    requires s.HasCurrent() && s.state != Ended && ValidCommand(command) && Tracks(s, sp)
    ensures var d := Decide(w, m, s, command, now);
      Faithful(d.session, d.actions, sp)
  {
    hide Covers, NarratedForm, NarrationSwitch, Edit, AsksForLoad;
    assert !AsksForLoad([]) by { NoActions(); }
    match command
    case EditQueue(version, items, currentIndex) => EditFaithful(m, s, version, items, currentIndex, now, sp);
    case SetNarration(on) => SwitchFaithful(w, m, WithNarration(s, on), now, sp);
    case Jump(index) => OneAction(Load(index, 0, false));
    case Next => OneAction(StopDevice); OneAction(Load(s.currentIndex + 1, 0, false));
    case Handoff => OneAction(RecordProgress(s.Current().videoId, s.positionS, s.durationS));
    case _ =>
  }

  lemma DecideHeard(w: World, m: Memory, s: Session, command: Command, now: Time, sp0: Speaker, from: nat)
    requires s.HasCurrent() && ValidCommand(command) && from <= |m.trace| && Attributed(sp0, m.trace, from)
    ensures var d := Decide(w, m, s, command, now);
      && HeardSince(sp0, d.memory.trace, from) == HeardSince(sp0, m.trace, from)
      && Attributed(sp0, d.memory.trace, from)
  {
    hide Covers, NarratedForm, NarrationSwitch, HeardSince, Attributed;
    var m' := Decide(w, m, s, command, now).memory;
    if command.SetNarration? {
      AsidesChangeNothing(sp0, m.trace, m'.trace, from);
    } else if m' != m {
      HearsOneMore(sp0, m.trace, m'.trace[|m'.trace| - 1], from);
      assert m'.trace == m.trace + [m'.trace[|m'.trace| - 1]];
    }
  }

  // ---- steps ----

  lemma FollowNarrationTracks(w: World, m: Memory, s: Session, now: Time, sp0: Speaker, from: nat)
    requires s.HasCurrent() && from <= |m.trace|
    requires Tracks(s, HeardSince(sp0, m.trace, from)) && Attributed(sp0, m.trace, from)
    ensures var (after, m') := FollowNarration(w, m, s, now);
      Tracks(after, HeardSince(sp0, m'.trace, from)) && Attributed(sp0, m'.trace, from)
  {
    hide NarrationSwitch, Covers, NarratedForm, Apply, HeardSince, Attributed, Tracks, Faithful;
    var (switched, actions, m1) := NarrationSwitch(w, m, s, now);
    SwitchFaithful(w, m, s, now, HeardSince(sp0, m.trace, from));
    AsidesChangeNothing(sp0, m.trace, m1.trace, from);
    var (after, m') := FollowNarration(w, m, s, now);
    if actions != [] {
      CarryingOutTracks(w, m1, switched, actions, now, sp0, from);
    } else {
      AsidesChangeNothing(sp0, m.trace, m'.trace, from);
    }
  }

  /** Updating when a session was last written changes nothing of this. */
  lemma StampTracks(s: Session, now: Time, sp: Speaker)
    requires Tracks(s, sp)
    ensures Tracks(s.(updatedAt := now), sp)
  {
  }

  lemma TickTracks(w: World, m: Memory, s: Session, now: Time, sp: Speaker)
    requires s.HasCurrent() && Tracks(s, sp)
    ensures var r := Tick(w, m, s, now);
      Tracks(r.session, HeardSince(sp, r.memory.trace, |m.trace|)) && Attributed(sp, r.memory.trace, |m.trace|)
  {
    hide Reconcile, Apply, FollowNarration, Tracks, Faithful, Pending;
    if s.state != Ended && s.sitting.kind in w.drivers {
      var from := |m.trace|;
      var answer := w.status(from);
      var e := AskedStatus(s.sitting.deviceId, answer);
      var m1 := m.Log(e);
      HearsOneMore(sp, m.trace, e, from);
      var (decided, actions) := Reconcile(s, answer, now);
      ReconcileKeepsAccount(s, answer, now);
      ReconcileLeavesPending(s, answer, now);
      ReconcileFaithful(s, answer, now, sp);
      CarryingOutTracks(w, m1, decided, actions, now, sp, from);
      var (applied, m2) := Apply(w, m1, decided, actions, now);
      FollowNarrationTracks(w, m2, applied, now, sp, from);
      var (followed, m3) := FollowNarration(w, m2, applied, now);
      StampTracks(followed, now, HeardSince(sp, m3.trace, from));
    }
  }

  lemma RunTracks(w: World, m: Memory, s: Session, command: Command, now: Time, sp: Speaker)
    requires s.HasCurrent() && ValidCommand(command) && Tracks(s, sp)
    ensures var r := Run(w, m, s, command, now);
      Tracks(r.session, HeardSince(sp, r.memory.trace, |m.trace|)) && Attributed(sp, r.memory.trace, |m.trace|)
  {
    hide Apply, Decide, Tracks, Faithful, Pending;
    if s.state != Ended && s.sitting.kind in w.drivers {
      var from := |m.trace|;
      DecideHeard(w, m, s, command, now, sp, from);
      DecideFaithful(w, m, s, command, now, sp);
      DecisionIsPending(w, m, s, command, now);
      var d := Decide(w, m, s, command, now);
      if d.error == None {
        CarryingOutTracks(w, d.memory, d.session, d.actions, now, sp, from);
        var (applied, m') := Apply(w, d.memory, d.session, d.actions, now);
        StampTracks(applied, now, HeardSince(sp, m'.trace, from));
      }
    }
  }

  lemma StepTracks(step: Step, s: Session, sp: Speaker)
    requires s.HasCurrent() && ValidStep(step) && Tracks(s, sp)
    ensures var r := Do(step, s);
      var from := |step.memory.trace|;
      Tracks(r.session, HeardSince(sp, r.memory.trace, from)) && Attributed(sp, r.memory.trace, from)
  {
    hide Tick, Run;
    match step.op
    case TickOp => TickTracks(step.world, step.memory, s, step.now, sp);
    case CommandOp(command) => RunTracks(step.world, step.memory, s, command, step.now, sp);
    case ReplacedOp =>
  }

  // ---- runs ----

  const UNHEARD := Speaker("", "", "", false)

  /** What the speaker has been handed for the session after `k` steps. */
  ghost function SpeakerAt(sp: Speaker, s: Session, steps: seq<Step>, k: nat): Speaker
    requires s.HasCurrent() && ValidRun(steps) && k <= |steps|
  {
    if k == 0 then sp
    else
      HeardSince(SpeakerAt(sp, s, steps, k - 1), Do(steps[k - 1], At(s, steps, k - 1)).memory.trace,
                 |steps[k - 1].memory.trace|)
  }

  /** A session just started stands on the load its speaker took. */
  lemma StartTracks(w: World, m: Memory, sitting: Sitting, items: seq<Item>, start: int, startS: int, narration: bool, now: Time)
    requires 0 <= start < |items|
    ensures var (started, m') := Start(w, m, sitting, items, start, startS, narration, now);
      started.Some? ==>
        && Tracks(started.value, HeardSince(UNHEARD, m'.trace, |m.trace|))
        && started.value.state == Loading && started.value.version == 1
        && started.value.Current() == items[start]
        && started.value.positionS == Max(startS, 0)
        && started.value.prevMediaKey == ""
  {
    hide WantsNarrated, HeardSince, Attributed;
    var s := LoadAt(NewSession(sitting, items, narration, now), start, Max(startS, 0), true, now).0;
    assert KeysTrack(s, UNHEARD);
    assert HeardSince(UNHEARD, m.trace, |m.trace|) == UNHEARD by { HeardNothing(UNHEARD, m.trace); }
    var (e, m') := Attempt(w, m, s, Max(startS, 0), true, now);
    AttributedNothing(UNHEARD, m.trace);
    AttemptTracks(w, m, s, Max(startS, 0), true, now, UNHEARD, |m.trace|);
  }

  lemma HeardNothing(sp: Speaker, trace: seq<Event>)
    ensures HeardSince(sp, trace, |trace|) == sp
  {
  }

  lemma AttributedNothing(sp: Speaker, trace: seq<Event>)
    ensures Attributed(sp, trace, |trace|)
  {
  }

  /** The speaker took nothing in the calls made since. */
  ghost predicate NothingTaken(trace: seq<Event>, from: nat) {
    forall k :: from <= k < |trace| ==> !trace[k].Took()
  }

  lemma {:induction false} NothingTakenChangesNothing(sp: Speaker, trace: seq<Event>, from: nat)
    requires NothingTaken(trace, from)
    ensures var heard := HeardSince(sp, trace, from);
      heard == sp.(named := heard.named) && (sp.named ==> heard.named)
    decreases |trace|
  {
    if |trace| > from {
      NothingTakenChangesNothing(sp, trace[..|trace| - 1], from);
    }
  }

  lemma NothingTakenTracks(sp: Speaker, s: Session, trace: seq<Event>, from: nat)
    requires Tracks(s, sp) && NothingTaken(trace, from)
    ensures Tracks(s, HeardSince(sp, trace, from))
  {
    hide HeardSince, NothingTaken;
    NothingTakenChangesNothing(sp, trace, from);
  }

  /** No step whose save was lost had a load taken. */
  ghost predicate LosesNoLoad(s: Session, steps: seq<Step>)
    requires s.HasCurrent() && ValidRun(steps)
  {
    forall k :: 0 <= k < |steps| && !steps[k].kept ==>
      NothingTaken(Do(steps[k], At(s, steps, k)).memory.trace, |steps[k].memory.trace|)
  }

  /**
   Attribution. While no load that was taken is lost with its save, after every
   step of any run a session not ended has as its current song the one its
   speaker took last, and every history write any step made names the song the
   speaker had taken last when it was written.
   */
  lemma {:induction false} HistoryNamesTheSongHanded(sp: Speaker, s: Session, steps: seq<Step>, k: nat)
    requires s.HasCurrent() && ValidRun(steps) && k <= |steps| && Tracks(s, sp) && LosesNoLoad(s, steps)
    ensures Tracks(At(s, steps, k), SpeakerAt(sp, s, steps, k))
    ensures k < |steps| ==>
      Attributed(SpeakerAt(sp, s, steps, k), Do(steps[k], At(s, steps, k)).memory.trace, |steps[k].memory.trace|)
    decreases k
  {
    hide Do, HeardSince, Attributed, Tracks, NothingTaken;
    if k > 0 {
      var step, before, heard := steps[k - 1], At(s, steps, k - 1), SpeakerAt(sp, s, steps, k - 1);
      HistoryNamesTheSongHanded(sp, s, steps, k - 1);
      if step.kept {
        StepTracks(step, before, heard);
      } else {
        NothingTakenTracks(heard, before, Do(step, before).memory.trace, |step.memory.trace|);
      }
    }
    if k < |steps| {
      StepTracks(steps[k], At(s, steps, k), SpeakerAt(sp, s, steps, k));
    }
  }
}
