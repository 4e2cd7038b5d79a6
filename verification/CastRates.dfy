/** How often listening is written to history while a song plays. */
module CastRates {
  import opened Wrappers
  import opened CastSession
  import opened CastReconcile
  import opened CastWorld
  import opened CastSteps
  import opened CastEndings

  /** What a step called out to. */
  function Calls(step: Step, s: Session): seq<Event>
    requires s.HasCurrent() && ValidStep(step)
  {
    Do(step, s).memory.trace[|step.memory.trace|..]
  }

  /** The step asked the speaker to load something, whether or not it did. */
  ghost predicate Loads(step: Step, s: Session)
    requires s.HasCurrent() && ValidStep(step)
  {
    exists k :: 0 <= k < |Calls(step, s)| && Calls(step, s)[k].Handed?
  }

  /** A tick that asks its speaker, writes listening to history and leaves the session live: a periodic report, as against a song's end. */
  ghost predicate Reports(step: Step, s: Session)
    requires s.HasCurrent() && ValidStep(step)
  {
    && LiveTick(step, s) && Do(step, s).session.state != Ended
    && exists k :: 0 <= k < |Calls(step, s)| && Calls(step, s)[k].Wrote?
  }

  /** Going by the calls made since `from`, no load was asked for. */
  ghost predicate NoneHanded(trace: seq<Event>, from: nat) {
    forall k :: from <= k < |trace| ==> !trace[k].Handed?
  }

  ghost predicate SomeWritten(trace: seq<Event>, from: nat) {
    exists k :: from <= k < |trace| && trace[k].Wrote?
  }

  lemma CallsAreSince(step: Step, s: Session)
    requires s.HasCurrent() && ValidStep(step)
    ensures var trace, from := Do(step, s).memory.trace, |step.memory.trace|;
      && Loads(step, s) == !NoneHanded(trace, from)
      && (Reports(step, s) <==> LiveTick(step, s) && Do(step, s).session.state != Ended && SomeWritten(trace, from))
  {
    hide Do;
    var trace, from := Do(step, s).memory.trace, |step.memory.trace|;
    assert forall k :: from <= k < |trace| ==> trace[k] == Calls(step, s)[k - from];
    assert forall k :: 0 <= k < |Calls(step, s)| ==> Calls(step, s)[k] == trace[from + k];
  }

  lemma {:induction false} LoadIsHanded(w: World, m: Memory, s: Session, startS: int, first: bool, now: Time)
    requires s.HasCurrent() && s.state == Loading
    ensures !NoneHanded(ApplyLoad(w, m, s, startS, first, now).1.trace, |m.trace|)
  {
    hide Attempt;
    var (e, m') := Attempt(w, m, s, startS, first, now);
    var trace := ApplyLoad(w, m, s, startS, first, now).1.trace;
    assert m'.trace <= trace;
    assert trace[|m'.trace| - 1] == e;
  }

  ghost predicate HasRecord(actions: seq<Action>) {
    exists k :: 0 <= k < |actions| && actions[k].RecordProgress?
  }

  /** A work list whose load is never asked for had none: it leaves its session, and writes only what it says. */
  lemma {:induction false} WithoutALoad(w: World, m: Memory, s: Session, actions: seq<Action>, now: Time, from: nat)
    requires s.HasCurrent() && Pending(s, actions) && from <= |m.trace|
    requires NoneHanded(Apply(w, m, s, actions, now).1.trace, from)
    ensures Apply(w, m, s, actions, now).0 == s
    ensures SomeWritten(Apply(w, m, s, actions, now).1.trace, from) <==> SomeWritten(m.trace, from) || HasRecord(actions)
    decreases |actions|
  {
    hide ApplyLoad;
    if actions != [] {
      var trace := Apply(w, m, s, actions, now).1.trace;
      if actions[0].Load? {
        LoadIsHanded(w, m, s, actions[0].startS, actions[0].first, now);
      } else {
        var e := if actions[0].StopDevice? then Ordered(s.sitting.deviceId, StopOrder, w.hears(|m.trace|))
                 else Wrote(s.sitting.startedBy, actions[0].videoId, actions[0].positionS, actions[0].durationS);
        WithoutALoad(w, m.Log(e), s, actions[1..], now, from);
        OneMoreWritten(m.trace, e, from);
        OneLessRecord(actions);
      }
    }
  }

  lemma OneMoreWritten(trace: seq<Event>, e: Event, from: nat)
    requires from <= |trace|
    ensures SomeWritten(trace + [e], from) <==> SomeWritten(trace, from) || e.Wrote?
  {
    var longer := trace + [e];
    assert longer[|trace|] == e;
    assert forall k :: 0 <= k < |trace| ==> longer[k] == trace[k];
  }

  lemma OneLessRecord(actions: seq<Action>)
    requires actions != []
    ensures HasRecord(actions) <==> actions[0].RecordProgress? || HasRecord(actions[1..])
  {
    assert forall k :: 0 < k < |actions| ==> actions[k] == actions[1..][k - 1];
  }

  lemma QuietWritesNothing(m: Memory, m': Memory, from: nat)
    requires Quiet(m, m') && from <= |m.trace|
    ensures SomeWritten(m'.trace, from) == SomeWritten(m.trace, from)
    ensures NoneHanded(m'.trace, from) == NoneHanded(m.trace, from)
  {
    assert forall k :: 0 <= k < |m.trace| ==> m'.trace[k] == m.trace[k];
  }

  lemma FollowNarrationWithoutALoad(w: World, m: Memory, s: Session, now: Time, from: nat)
    requires s.HasCurrent() && from <= |m.trace|
    requires NoneHanded(FollowNarration(w, m, s, now).1.trace, from)
    ensures FollowNarration(w, m, s, now).0 == s
    ensures SomeWritten(FollowNarration(w, m, s, now).1.trace, from) == SomeWritten(m.trace, from)
  {
    hide Covers, NarratedForm, NarrationSwitch, SomeWritten, Pending;
    var (switched, actions, m1) := NarrationSwitch(w, m, s, now);
    var m' := FollowNarration(w, m, s, now).1;
    SwitchReloadsOrStays(w, m, s, now);
    if actions != [] {
      LoadIsHanded(w, m1, switched, actions[0].startS, actions[0].first, now);
      assert false;
    } else {
      QuietWritesNothing(m, m', from);
    }
  }

  /** An answer that asks for no load writes listening exactly when ten seconds have passed, and then starts them again. */
  lemma ReconcileReports(s: Session, answer: Option<DeviceStatus>, now: Time)
    requires s.HasCurrent() && s.state != Ended
    ensures var (after, actions) := Reconcile(s, answer, now);
      after.state != Ended && after.currentIndex == s.currentIndex ==>
        && (HasRecord(actions) ==> now - s.lastProgressAt >= PROGRESS_EVERY && after.lastProgressAt == now)
        && (!HasRecord(actions) ==> after.lastProgressAt == s.lastProgressAt)
  {
    hide Reconcile;
    Decides(s, answer, now);
    var actions := Reconcile(s, answer, now).1;
    assert actions != [] && actions[0].RecordProgress? ==> HasRecord(actions);
  }

  /** Listening moved the marker on: not sooner than ten seconds, and only by a report. */
  ghost predicate Marks(s: Session, after: Session, reported: bool, now: Time) {
    if reported then now - s.lastProgressAt >= PROGRESS_EVERY && after.lastProgressAt == now
    else after.lastProgressAt == s.lastProgressAt
  }

  lemma TickMarks(step: Step, s: Session)
    requires s.HasCurrent() && LiveTick(step, s)
    ensures !Loads(step, s) && Do(step, s).session.state != Ended ==> Marks(s, Do(step, s).session, Reports(step, s), step.now)
  {
    hide Reconcile, Apply, FollowNarration, Pending, SomeWritten, HasRecord, Marks, Loads, Reports, Calls;
    var w, m, now := step.world, step.memory, step.now;
    var from := |m.trace|;
    CallsAreSince(step, s);
    var m1 := m.Log(AskedStatus(s.sitting.deviceId, Answer(step)));
    var (decided, actions) := Reconcile(s, Answer(step), now);
    ReconcileKeepsAccount(s, Answer(step), now);
    ReconcileLeavesPending(s, Answer(step), now);
    var (applied, m2) := Apply(w, m1, decided, actions, now);
    var (followed, m3) := FollowNarration(w, m2, applied, now);
    if !Loads(step, s) && Do(step, s).session.state != Ended {
      FollowNarrationWithoutALoad(w, m2, applied, now, from);
      assert NoneHanded(m2.trace, from) by { FewerHanded(m2.trace, m3.trace, from); }
      WithoutALoad(w, m1, decided, actions, now, from);
      OneMoreWritten(m.trace, AskedStatus(s.sitting.deviceId, Answer(step)), from);
      NothingWrittenYet(m.trace);
      MovingLoads(w, m1, s, Answer(step), now, from);
      ReconcileReports(s, Answer(step), now);
      MarksOf(s, followed, followed.(updatedAt := now), Reports(step, s), now);
    }
  }

  lemma MarksOf(s: Session, followed: Session, after: Session, reported: bool, now: Time)
    requires followed.lastProgressAt == after.lastProgressAt
    requires reported ==> now - s.lastProgressAt >= PROGRESS_EVERY && followed.lastProgressAt == now
    requires !reported ==> followed.lastProgressAt == s.lastProgressAt
    ensures Marks(s, after, reported, now)
  {
  }

  lemma FewerHanded(trace: seq<Event>, longer: seq<Event>, from: nat)
    requires trace <= longer && NoneHanded(longer, from)
    ensures NoneHanded(trace, from)
  {
    assert forall k :: 0 <= k < |trace| ==> longer[k] == trace[k];
  }

  lemma NothingWrittenYet(trace: seq<Event>)
    ensures !SomeWritten(trace, |trace|)
  {
  }

  lemma MovingLoads(w: World, m: Memory, s: Session, answer: Option<DeviceStatus>, now: Time, from: nat)
    requires s.HasCurrent() && s.state != Ended && from <= |m.trace|
    requires var (after, actions) := Reconcile(s, answer, now);
      Pending(after, actions) && after.HasCurrent() && NoneHanded(Apply(w, m, after, actions, now).1.trace, from)
    ensures Reconcile(s, answer, now).0.currentIndex == s.currentIndex
  {
    hide Reconcile, ApplyLoad;
    var (after, actions) := Reconcile(s, answer, now);
    MovesOnAfresh(s, answer, now);
    if after.currentIndex != s.currentIndex {
      CarryingOutHands(w, m, after, actions, now);
      assert false;
    }
  }

  lemma {:induction false} CarryingOutHands(w: World, m: Memory, s: Session, actions: seq<Action>, now: Time)
    requires s.HasCurrent() && Pending(s, actions) && actions != [] && actions[|actions| - 1].Load?
    ensures !NoneHanded(Apply(w, m, s, actions, now).1.trace, |m.trace|)
    decreases |actions|
  {
    hide ApplyLoad;
    if actions[0].Load? {
      LoadIsHanded(w, m, s, actions[0].startS, actions[0].first, now);
    } else {
      var e := if actions[0].StopDevice? then Ordered(s.sitting.deviceId, StopOrder, w.hears(|m.trace|))
               else Wrote(s.sitting.startedBy, actions[0].videoId, actions[0].positionS, actions[0].durationS);
      CarryingOutHands(w, m.Log(e), s, actions[1..], now);
    }
  }

  lemma DecideMarks(w: World, m: Memory, s: Session, command: Command, now: Time)
    requires s.HasCurrent() && ValidCommand(command)
    ensures var d := Decide(w, m, s, command, now);
      || d.session.lastProgressAt == s.lastProgressAt
      || (d.actions != [] && d.actions[|d.actions| - 1].Load? && d.session.state == Loading)
  {
    hide NarrationSwitch, ReplaceQueue;
    match command
    case EditQueue(version, items, currentIndex) => EditKeepsTheSongPlaying(s, items, currentIndex);
    case SetNarration(on) => SwitchReloadsOrStays(w, m, WithNarration(s, on), now);
    case _ =>
  }

  lemma CommandMarks(step: Step, s: Session)
    requires s.HasCurrent() && ValidStep(step) && step.op.CommandOp? && !Loads(step, s)
    ensures Do(step, s).session.lastProgressAt == s.lastProgressAt
  {
    hide Decide, Apply, Pending, Loads, Reports, Calls;
    var w, m, command, now := step.world, step.memory, step.op.command, step.now;
    if s.state != Ended && s.sitting.kind in w.drivers {
      CallsAreSince(step, s);
      DecisionIsPending(w, m, s, command, now);
      DecideMarks(w, m, s, command, now);
      var d := Decide(w, m, s, command, now);
      if d.error == None {
        var (applied, m') := Apply(w, d.memory, d.session, d.actions, now);
        assert NoneHanded(m'.trace, |d.memory.trace|);
        if d.session.lastProgressAt != s.lastProgressAt {
          CarryingOutHands(w, d.memory, d.session, d.actions, now);
          assert false;
        }
        WithoutALoad(w, d.memory, d.session, d.actions, now, |d.memory.trace|);
      }
    }
  }

  /** One step with no load moves the marker only by a report, and then by ten seconds or more. */
  lemma StepMarks(step: Step, s: Session)
    requires s.HasCurrent() && ValidStep(step) && !Loads(step, s) && Do(step, s).session.state != Ended
    ensures Marks(s, Do(step, s).session, Reports(step, s), step.now)
  {
    hide Do, Loads, Calls;
    if LiveTick(step, s) {
      TickMarks(step, s);
    } else if step.op.TickOp? {
      TickUnasked(step, s);
    } else if step.op.CommandOp? {
      CommandMarks(step, s);
    } else {
      ReplacedEnds(step, s);
      assert false;
    }
  }

  lemma TickUnasked(step: Step, s: Session)
    requires s.HasCurrent() && step.op.TickOp? && !LiveTick(step, s)
    ensures Do(step, s).session == s && !Reports(step, s)
  {
    TickLeavesAlone(step.world, step.memory, s, step.now);
  }

  lemma ReplacedEnds(step: Step, s: Session)
    requires s.HasCurrent() && step.op.ReplacedOp?
    ensures Do(step, s).session.state == Ended
  {
  }

  // ---- over runs ----

  /** No load is asked for in the steps stored after `i` up to `j`, nor in `j` itself. */
  ghost predicate LoadsNothingAfter(s: Session, steps: seq<Step>, i: nat, j: nat)
    requires s.HasCurrent() && ValidRun(steps) && j < |steps|
  {
    forall k {:trigger Loads(steps[k], At(s, steps, k))} :: i < k <= j && (steps[k].kept || k == j) ==> !Loads(steps[k], At(s, steps, k))
  }

  /** No load is asked for in the steps stored after `i` and before `j`. */
  ghost predicate NoLoadStored(s: Session, steps: seq<Step>, i: nat, j: nat)
    requires s.HasCurrent() && ValidRun(steps) && j <= |steps|
  {
    forall k {:trigger Loads(steps[k], At(s, steps, k))} :: i < k < j && steps[k].kept ==> !Loads(steps[k], At(s, steps, k))
  }

  lemma {:induction false} LiveBefore(s: Session, steps: seq<Step>, i: nat, j: nat)
    requires s.HasCurrent() && ValidRun(steps) && i <= j <= |steps| && At(s, steps, j).state != Ended
    ensures At(s, steps, i).state != Ended
    decreases j
  {
    hide Do;
    if i < j {
      if At(s, steps, j - 1).state == Ended {
        EndedIsFinal(steps[j - 1], At(s, steps, j - 1));
      }
      LiveBefore(s, steps, i, j - 1);
    }
  }

  lemma MarkerNeverFallsBehind(step: Step, s: Session, mark: Time)
    requires s.HasCurrent() && ValidStep(step) && !Loads(step, s) && Do(step, s).session.state != Ended
    requires (s.lastProgressAt >= mark || Reports(step, s)) && step.now >= mark
    ensures Do(step, s).session.lastProgressAt >= mark
  {
    hide Do, Loads, Reports;
    StepMarks(step, s);
  }

  lemma InOrder(from: Time, steps: seq<Step>, i: nat, j: nat)
    requires Clocked(from, steps) && i <= j < |steps|
    ensures steps[i].now <= steps[j].now
  {
  }

  /** From a report on, and while nothing is loaded, the marker is never behind that report. */
  lemma {:induction false} MarkerStays(s: Session, steps: seq<Step>, i: nat, k: nat)
    requires s.HasCurrent() && ValidRun(steps) && Clocked(s.lastSeenOK, steps)
    requires i < k <= |steps| && At(s, steps, k).state != Ended && steps[i].kept
    requires !Loads(steps[i], At(s, steps, i)) && Reports(steps[i], At(s, steps, i)) && NoLoadStored(s, steps, i, k)
    ensures At(s, steps, k).lastProgressAt >= steps[i].now
    decreases k
  {
    hide Do, Loads, Reports, At, Clocked;
    AtNext(s, steps, k - 1);
    InOrder(s.lastSeenOK, steps, i, k - 1);
    if k > i + 1 {
      LiveBefore(s, steps, k - 1, k);
      MarkerStays(s, steps, i, k - 1);
    }
    if steps[k - 1].kept {
      MarkerNeverFallsBehind(steps[k - 1], At(s, steps, k - 1), steps[i].now);
    }
  }

  /** Two reports, the first of them stored, with no load stored between them are at least ten seconds apart. */
  lemma ReportsAreApart(s: Session, steps: seq<Step>, i: nat, j: nat)
    requires s.HasCurrent() && ValidRun(steps) && Clocked(s.lastSeenOK, steps)
    requires i < j < |steps| && Reports(steps[i], At(s, steps, i)) && Reports(steps[j], At(s, steps, j))
    requires steps[i].kept && !Loads(steps[i], At(s, steps, i)) && LoadsNothingAfter(s, steps, i, j)
    ensures steps[j].now - steps[i].now >= PROGRESS_EVERY
  {
    hide Do, Loads;
    MarkerStays(s, steps, i, j);
    StepMarks(steps[j], At(s, steps, j));
  }

  /** Steps of a run that report, in order, each but perhaps the last stored. */
  ghost predicate ReportsAt(s: Session, steps: seq<Step>, at: seq<nat>)
    requires s.HasCurrent() && ValidRun(steps)
  {
    && (forall n :: 0 <= n < |at| ==>
          at[n] < |steps| && Reports(steps[at[n]], At(s, steps, at[n])) && (n < |at| - 1 ==> steps[at[n]].kept))
    && (forall n, n' :: 0 <= n < n' < |at| ==> at[n] < at[n'])
  }

  /** The rate of history writes: N reports with no load among them span (N - 1) times ten seconds or more. */
  lemma {:induction false} ReportsSpan(s: Session, steps: seq<Step>, at: seq<nat>)
    requires s.HasCurrent() && ValidRun(steps) && Clocked(s.lastSeenOK, steps)
    requires at != [] && ReportsAt(s, steps, at)
    requires !Loads(steps[at[0]], At(s, steps, at[0])) && LoadsNothingAfter(s, steps, at[0], at[|at| - 1])
    ensures steps[at[|at| - 1]].now - steps[at[0]].now >= (|at| - 1) * PROGRESS_EVERY
    decreases |at|
  {
    hide Do, Loads, Reports;
    if |at| > 1 {
      var fewer := at[..|at| - 1];
      var i, j := at[|at| - 2], at[|at| - 1];
      ReportsSpan(s, steps, fewer);
      assert !Loads(steps[i], At(s, steps, i));
      ReportsAreApart(s, steps, i, j);
    }
  }
}
