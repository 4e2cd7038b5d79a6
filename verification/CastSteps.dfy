/**
 The engine's tick and commands on one stored session, as functions of the
 session, the engine's memory, the world and the clock
 (services/cast/internal/usecase/engine.go).

 These specify the methods of class CastEngine.Engine; what they promise over
 whole runs is proved about them.
 */
module CastSteps {
  import opened Wrappers
  import opened CastSession
  import opened CastReconcile
  import opened CastWorld

  datatype Error = ErrNotFound | ErrEnded | ErrStaleVersion | ErrLive | ErrDeviceOffline | ErrEmptyQueue | ErrCatalog | ErrStore | ErrBadIndex | ErrNoDriver

  datatype Command =
    | Pause
    | Resume
    | Next
    | Stop
    | Seek(positionS: int)
    | SetVolume(percent: int)
    | Jump(index: int)
    | EditQueue(version: int, items: seq<Item>, currentIndex: int)
    | SetNarration(on: bool)
    | Handoff

  /** A queue edit carries what `queueFor` described, which is never empty. */
  predicate ValidCommand(command: Command) {
    command.EditQueue? ==> command.items != []
  }

  // ---- apply ----

  /** Asks the driver to load the current item, narrated when the gateway has it so; the call comes last in the trace. */
  function Attempt(w: World, m: Memory, s: Session, startS: int, first: bool, now: Time): (r: (Event, Memory))
    requires s.HasCurrent()
    ensures r.0.Handed? && m.trace < r.1.trace && m.trace <= r.1.trace[..|r.1.trace| - 1]
    ensures r.1.trace[|r.1.trace| - 1] == r.0
    ensures forall k :: |m.trace| <= k < |r.1.trace| - 1 ==> r.1.trace[k].IsAside()
  {
    var video := s.Current().videoId;
    var (narrated, m') := WantsNarrated(w, m, s, video, startS, now);
    var e := Handed(s.sitting.deviceId, video, startS, first, narrated, w.load(|m'.trace|));
    (e, m'.Log(e))
  }

  /** Hands the speaker the current item, and on a refusal the next one, until one is taken or none is left. */
  function ApplyLoad(w: World, m: Memory, s: Session, startS: int, first: bool, now: Time): (r: (Session, Memory))
    requires s.HasCurrent() && s.state == Loading
    ensures m.trace <= r.1.trace
    ensures r.0.HasCurrent()
    decreases |s.queue| - s.currentIndex
  {
    var (e, m') := Attempt(w, m, s, startS, first, now);
    if e.answer.Accepted? then (s.Loaded(e.answer.key, e.narrated), m')
    else
      var (skipped, more) := SkipFailed(s, now);
      if more == [] then (skipped, m') else ApplyLoad(w, m', skipped, more[0].startS, more[0].first, now)
  }

  function Apply(w: World, m: Memory, s: Session, actions: seq<Action>, now: Time): (r: (Session, Memory))
    requires Pending(s, actions)
    ensures m.trace <= r.1.trace
    ensures s.HasCurrent() ==> r.0.HasCurrent()
    decreases |actions|
  {
    if actions == [] then (s, m)
    else
      match actions[0]
      case Load(_, startS, first) => ApplyLoad(w, m, s, startS, first, now)
      case StopDevice =>
        Apply(w, m.Log(Ordered(s.sitting.deviceId, StopOrder, w.hears(|m.trace|))), s, actions[1..], now)
      case RecordProgress(video, positionS, durationS) =>
        Apply(w, m.Log(Wrote(s.sitting.startedBy, video, positionS, durationS)), s, actions[1..], now)
  }

  // ---- narration ----

  function NarrationSwitch(w: World, m: Memory, s: Session, now: Time): (r: (Session, seq<Action>, Memory))
    ensures Quiet(m, r.2)
    ensures Pending(r.0, r.1)
    ensures s.HasCurrent() ==> r.0.HasCurrent()
  {
    if !s.HasCurrent() || s.state != Playing then (s, [], m)
    else
      var video := s.Current().videoId;
      var (covers, m1) := Covers(w, m, s, video, now);
      var (form, m2) := if covers then NarratedForm(w, m1, s.sitting.kind, video, s.positionS) else (NarratedNone, m1);
      var want := covers && (form == NarratedReady || (form == NarratedPreparing && s.loadedNarrated));
      if want == s.loadedNarrated then (s, [], m2)
      else
        var (reloading, load) := Reload(s, now);
        (reloading, [load], m2)
  }

  function FollowNarration(w: World, m: Memory, s: Session, now: Time): (r: (Session, Memory))
    requires s.HasCurrent()
    ensures m.trace <= r.1.trace
    ensures r.0.HasCurrent()
  {
    var (switched, actions, m1) := NarrationSwitch(w, m, s, now);
    if actions != [] then Apply(w, m1, switched, actions, now)
    else if s.state == Playing && s.loadedNarrated && s.currentIndex + 1 < |s.queue| then
      var upNext := s.queue[s.currentIndex + 1].videoId;
      var (covers, m2) := Covers(w, m1, s, upNext, now);
      (s, if covers then NarratedForm(w, m2, s.sitting.kind, upNext, 0).1 else m2)
    else (s, m1)
  }

  // ---- tick ----

  datatype Outcome = Outcome(session: Session, memory: Memory, error: Option<Error>)

  /** One tick's work on a stored session, and what is stored after it. */
  function Tick(w: World, m: Memory, s: Session, now: Time): (r: Outcome)
    requires s.HasCurrent()
    ensures m.trace <= r.memory.trace
    ensures r.session.HasCurrent()
  {
    if s.state == Ended then Outcome(s, m, Some(ErrEnded))
    else if s.sitting.kind !in w.drivers then Outcome(s, m, Some(ErrNoDriver))
    else
      var answer := w.status(|m.trace|);
      var m1 := m.Log(AskedStatus(s.sitting.deviceId, answer));
      var (decided, actions) := Reconcile(s, answer, now);
      ReconcileKeepsAccount(s, answer, now);
      ReconcileLeavesPending(s, answer, now);
      var (applied, m2) := Apply(w, m1, decided, actions, now);
      var (followed, m3) := FollowNarration(w, m2, applied, now);
      Outcome(followed.(updatedAt := now), m3, None)
  }

  /** A session already ended, or of a speaker with no driver, is left alone and nothing is asked. */
  lemma TickLeavesAlone(w: World, m: Memory, s: Session, now: Time)
    requires s.HasCurrent() && (s.state == Ended || s.sitting.kind !in w.drivers)
    ensures var r := Tick(w, m, s, now);
      r.error.Some? && r.session == s && r.memory == m
  {
  }

  // ---- commands ----

  // What a command's own function decides, before anything it asks for is carried out.
  datatype Decision = Decision(session: Session, actions: seq<Action>, memory: Memory, error: Option<Error>)

  /** A command that is nothing but an order to the speaker, refused when the speaker does not hear it. */
  function Direct(w: World, m: Memory, s: Session, order: Order, obeyed: Session): Decision {
    var heard := w.hears(|m.trace|);
    var m' := m.Log(Ordered(s.sitting.deviceId, order, heard));
    if heard then Decision(obeyed, [], m', None) else Decision(s, [], m', Some(ErrDeviceOffline))
  }

  function SeekTarget(s: Session, positionS: int): int {
    if s.durationS > 0 then Min(Max(positionS, 0), s.durationS) else Max(positionS, 0)
  }

  function VolumeTarget(percent: int): int { Min(Max(percent, 0), 100) }

  function WithNarration(s: Session, on: bool): Session {
    s.(narration := on, narrationForcedFor := if on && s.HasCurrent() then s.Current().videoId else "")
  }

  function Edit(m: Memory, s: Session, version: int, items: seq<Item>, currentIndex: int, now: Time): (d: Decision)
    requires s.HasCurrent() && items != []
  {
    if s.version != version then Decision(s, [], m, Some(ErrStaleVersion))
    else
      var (edited, reload) := ReplaceQueue(s, items, currentIndex);
      EditKeepsTheSongPlaying(s, items, currentIndex);
      if !reload then Decision(edited, [], m, None)
      else
        var (loading, load) := LoadAt(edited, edited.currentIndex, 0, false, now);
        Decision(loading, [load], m, None)
  }

  function Decide(w: World, m: Memory, s: Session, command: Command, now: Time): (d: Decision)
    requires s.HasCurrent() && ValidCommand(command)
  {
    match command
    case Pause => Direct(w, m, s, PauseOrder, if s.state == Playing then s.(state := Paused) else s)
    case Resume => Direct(w, m, s, ResumeOrder, if s.state == Paused then s.(state := Playing) else s)
    case Next =>
      var (advanced, actions) := Advance(s, now);
      Decision(advanced, actions, m, None)
    case Stop =>
      Decision(End(s, Stopped, now), [], m.Log(Ordered(s.sitting.deviceId, StopOrder, w.hears(|m.trace|))), None)
    case Seek(positionS) =>
      Direct(w, m, s, SeekOrder(SeekTarget(s, positionS)), s.(positionS := SeekTarget(s, positionS)))
    case SetVolume(percent) =>
      Direct(w, m, s, VolumeOrder(VolumeTarget(percent)), s.(volume := VolumeTarget(percent)))
    case Jump(index) =>
      if 0 <= index < |s.queue| then
        var (loading, load) := LoadAt(s, index, 0, false, now);
        Decision(loading, [load], m, None)
      else Decision(s, [], m, Some(ErrBadIndex))
    case EditQueue(version, items, currentIndex) => Edit(m, s, version, items, currentIndex, now)
    case SetNarration(on) =>
      var (switched, actions, m') := NarrationSwitch(w, m, WithNarration(s, on), now);
      Decision(switched, actions, m', None)
    case Handoff =>
      Decision(End(s, HandedOff, now),
               [RecordProgress(s.Current().videoId, s.positionS, s.durationS)],
               m.Log(Ordered(s.sitting.deviceId, StopOrder, w.hears(|m.trace|))), None)
  }

  /** The narration switch reloads the song that is playing, or leaves the session alone. */
  lemma SwitchReloadsOrStays(w: World, m: Memory, s: Session, now: Time)
    ensures var (switched, actions, m1) := NarrationSwitch(w, m, s, now);
      if actions == [] then switched == s
      else
        && s.HasCurrent() && s.state == Playing
        && switched == Reload(s, now).0 && actions == [Load(s.currentIndex, s.positionS, false)]
        && switched.HasCurrent() && switched.state == Loading && switched.sitting == s.sitting
  {
    hide Covers, NarratedForm;
  }

  lemma AdvanceIsPending(s: Session, now: Time)
    requires s.HasCurrent()
    ensures var (after, actions) := Advance(s, now);
      after.HasCurrent() && after.sitting == s.sitting && Pending(after, actions)
  {
  }

  lemma LoadAtIsPending(s: Session, index: int, now: Time)
    requires 0 <= index < |s.queue|
    ensures var (loading, load) := LoadAt(s, index, 0, false, now);
      loading.HasCurrent() && loading.sitting == s.sitting && Pending(loading, [load])
  {
  }

  lemma NoLoadIsPending()
    ensures forall s :: Pending(s, [])
    ensures forall s, record: Action :: record.RecordProgress? ==> Pending(s, [record])
  {
  }

  lemma DirectIsPending(w: World, m: Memory, s: Session, order: Order, obeyed: Session)
    ensures var d := Direct(w, m, s, order, obeyed);
      && d.actions == [] && m.trace <= d.memory.trace
      && d.session == if d.error.Some? then s else obeyed
  {
  }

  lemma DecisionIsPending(w: World, m: Memory, s: Session, command: Command, now: Time)
    requires s.HasCurrent() && ValidCommand(command)
    ensures var d := Decide(w, m, s, command, now);
      && d.session.HasCurrent() && d.session.sitting == s.sitting
      && Pending(d.session, d.actions)
      && m.trace <= d.memory.trace
      && (d.error.Some? ==> d.session == s && d.actions == [])
  {
    hide NarrationSwitch, ReplaceQueue, Advance, LoadAt, Pending, Direct, SeekTarget, VolumeTarget;
    NoLoadIsPending();
    match command
    case Pause => DirectIsPending(w, m, s, PauseOrder, if s.state == Playing then s.(state := Paused) else s);
    case Resume => DirectIsPending(w, m, s, ResumeOrder, if s.state == Paused then s.(state := Playing) else s);
    case Seek(positionS) =>
      DirectIsPending(w, m, s, SeekOrder(SeekTarget(s, positionS)), s.(positionS := SeekTarget(s, positionS)));
    case SetVolume(percent) =>
      DirectIsPending(w, m, s, VolumeOrder(VolumeTarget(percent)), s.(volume := VolumeTarget(percent)));
    case Next => AdvanceIsPending(s, now);
    case Jump(index) =>
      if 0 <= index < |s.queue| {
        LoadAtIsPending(s, index, now);
      }
    case EditQueue(version, items, currentIndex) =>
      EditKeepsTheSongPlaying(s, items, currentIndex);
      var edited := ReplaceQueue(s, items, currentIndex).0;
      LoadAtIsPending(edited, edited.currentIndex, now);
    case SetNarration(on) => SwitchReloadsOrStays(w, m, WithNarration(s, on), now);
    case _ =>
  }

  /** A command on a live session: nothing is stored when it is refused. */
  function Run(w: World, m: Memory, s: Session, command: Command, now: Time): (r: Outcome)
    requires s.HasCurrent() && ValidCommand(command)
    ensures m.trace <= r.memory.trace
    ensures r.session.HasCurrent()
  {
    if s.state == Ended then Outcome(s, m, Some(ErrEnded))
    else if s.sitting.kind !in w.drivers then Outcome(s, m, Some(ErrNoDriver))
    else
      var d := Decide(w, m, s, command, now);
      DecisionIsPending(w, m, s, command, now);
      if d.error.Some? then Outcome(s, d.memory, d.error)
      else
        var (applied, m') := Apply(w, d.memory, d.session, d.actions, now);
        Outcome(applied.(updatedAt := now), m', None)
  }

  // ---- start ----

  // A session before its opening song is asked for: everything not named is Go's zero value.
  function NewSession(sitting: Sitting, items: seq<Item>, narration: bool, now: Time): Session {
    Session(sitting, items, 0, Loading, NotEnded, 0, 0, 0, narration, false, "", "", "", false,
            ZERO_TIME, now, ZERO_TIME, 0, now)
  }

  /** A session's opening load; None when the speaker refuses it, and nothing is created. */
  function Start(w: World, m: Memory, sitting: Sitting, items: seq<Item>, start: int, startS: int,
                 narration: bool, now: Time): (r: (Option<Session>, Memory))
    requires 0 <= start < |items|
    ensures m.trace <= r.1.trace
    ensures r.0.Some? ==> r.0.value.HasCurrent()
  {
    var s := LoadAt(NewSession(sitting, items, narration, now), start, Max(startS, 0), true, now).0;
    var (e, m') := Attempt(w, m, s, Max(startS, 0), true, now);
    (if e.answer.Accepted? then Some(s.Loaded(e.answer.key, e.narrated)) else None, m')
  }

  // ---- runs ----

  // What happens to one stored session: a tick, a command, or another session
  // started on its speaker.
  datatype Op = TickOp | CommandOp(command: Command) | ReplacedOp

  // Each step brings the memory it starts from, so that whatever other
  // sessions did to the engine's caches in between is allowed for, and whether
  // its save went through: one that did not leaves its calls made and the
  // stored session as it was.
  datatype Step = Step(world: World, memory: Memory, now: Time, op: Op, kept: bool)

  predicate ValidStep(step: Step) {
    step.op.CommandOp? ==> ValidCommand(step.op.command)
  }

  function Do(step: Step, s: Session): (r: Outcome)
    requires s.HasCurrent() && ValidStep(step)
    ensures step.memory.trace <= r.memory.trace
    ensures r.session.HasCurrent()
  {
    match step.op
    case TickOp => Tick(step.world, step.memory, s, step.now)
    case CommandOp(command) => Run(step.world, step.memory, s, command, step.now)
    case ReplacedOp => Outcome(End(s, Replaced, step.now), step.memory, None)
  }

  predicate ValidRun(steps: seq<Step>) {
    forall k :: 0 <= k < |steps| ==> ValidStep(steps[k])
  }

  /** The session as stored after the first `k` steps of a run. */
  function At(s: Session, steps: seq<Step>, k: nat): (r: Session)
    requires s.HasCurrent() && ValidRun(steps) && k <= |steps|
    ensures r.HasCurrent()
  {
    if k == 0 then s
    else if steps[k - 1].kept then Do(steps[k - 1], At(s, steps, k - 1)).session
    else At(s, steps, k - 1)
  }

  lemma AtNext(s: Session, steps: seq<Step>, k: nat)
    requires s.HasCurrent() && ValidRun(steps) && k < |steps|
    ensures At(s, steps, k + 1) == if steps[k].kept then Do(steps[k], At(s, steps, k)).session else At(s, steps, k)
  {
  }

  /** The steps whose saves went through. */
  function StoredSteps(steps: seq<Step>): (r: seq<Step>)
    ensures ValidRun(steps) ==> ValidRun(r)
    ensures forall k :: 0 <= k < |r| ==> r[k].kept
  {
    if steps == [] then []
    else
      var last := steps[|steps| - 1];
      StoredSteps(steps[..|steps| - 1]) + (if last.kept then [last] else [])
  }

  lemma {:induction false} AtOfALongerRun(s: Session, steps: seq<Step>, longer: seq<Step>, k: nat)
    requires s.HasCurrent() && ValidRun(steps) && ValidRun(longer) && steps <= longer && k <= |steps|
    ensures At(s, steps, k) == At(s, longer, k)
    decreases k
  {
    hide Do;
    if k > 0 {
      AtOfALongerRun(s, steps, longer, k - 1);
    }
  }

  /** Storage is where the steps that were stored bring it, as if the others had not been. */
  lemma {:induction false} LostStepsDropOut(s: Session, steps: seq<Step>)
    requires s.HasCurrent() && ValidRun(steps)
    ensures At(s, steps, |steps|) == At(s, StoredSteps(steps), |StoredSteps(steps)|)
    decreases |steps|
  {
    hide Do;
    if steps != [] {
      var n := |steps| - 1;
      var fewer := steps[..n];
      LostStepsDropOut(s, fewer);
      AtOfALongerRun(s, fewer, steps, n);
      var stored := StoredSteps(fewer);
      if steps[n].kept {
        assert StoredSteps(steps) == stored + [steps[n]];
        AtOfALongerRun(s, stored, StoredSteps(steps), |stored|);
      } else {
        assert StoredSteps(steps) == stored + [] == stored;
      }
    }
  }
}
