/**
 Bounded lifetime: a session whose speaker never starts its songs ends in a
 time fixed by how many are left, whatever else the speaker answers.
 */
module CastLifetime {
  import opened Wrappers
  import opened CastSession
  import opened CastReconcile
  import opened CastWorld
  import opened CastSteps
  import opened CastApply
  import opened CastEndings

  /** A load is waited on, and the speaker was not seen since it was due. */
  predicate Recent(s: Session) {
    s.state == Loading ==> s.lastSeenOK <= s.loadingSince + LOAD_TIMEOUT
  }

  /** The answer is not our song playing or paused. */
  predicate NotStarted(s: Session, answer: Option<DeviceStatus>) {
    answer.Some? ==> !(Ours(s, answer.value) && answer.value.state in {DevicePlaying, DevicePaused})
  }

  /** A tick leaves the wait as it is and not overdue, or begins a new one further down the queue. */
  ghost predicate Waits(s: Session, after: Session, now: Time) {
    && after.state == Loading && Recent(after)
    && after.queue == s.queue && after.sitting == s.sitting
    && (|| (after.currentIndex == s.currentIndex && after.loadingSince == s.loadingSince
            && now <= s.loadingSince + LOAD_TIMEOUT + OFFLINE_AFTER)
        || (s.currentIndex < after.currentIndex < |s.queue| && after.loadingSince == now))
  }

  lemma LoadingWaits(s: Session, st: DeviceStatus, now: Time)
    requires s.HasCurrent() && s.state == Loading && !(Ours(s, st) && st.state in {DevicePlaying, DevicePaused})
    requires s.lastSeenOK == now
    ensures var after := ReconcileLoading(s, st, Ours(s, st), now).0;
      after.lastSeenOK == now && (after.state == Ended || Waits(s, after, now))
  {
  }

  lemma ReconcileWaits(s: Session, answer: Option<DeviceStatus>, now: Time)
    requires s.HasCurrent() && s.state == Loading && Recent(s) && NotStarted(s, answer)
    ensures var (after, actions) := Reconcile(s, answer, now);
      && after.lastSeenOK <= Max(now, s.lastSeenOK)
      && (after.state == Ended || Waits(s, after, now))
  {
    hide ReconcileLoading, Follow, SkipFailed, Advance, Finished, Foreign;
    if answer.Some? {
      LoadingWaits(s.(lastSeenOK := now, volume := answer.value.volume), answer.value, now);
    }
  }

  lemma CarryingOutWaits(w: World, m: Memory, s: Session, actions: seq<Action>, now: Time)
    requires s.HasCurrent() && Pending(s, actions) && s.state == Loading && Recent(s) && s.lastSeenOK <= now
    ensures var after := Apply(w, m, s, actions, now).0;
      || after.state == Ended
      || (&& after.state == Loading && Recent(after) && after.queue == s.queue && after.sitting == s.sitting
          && (|| (after.currentIndex == s.currentIndex && after.loadingSince == s.loadingSince)
              || (s.currentIndex < after.currentIndex < |s.queue| && after.loadingSince == now)))
  {
    hide Apply, Pending;
    CarryingOutReaches(w, m, s, actions, now);
  }

  lemma NoNarrationWhileLoading(w: World, m: Memory, s: Session, now: Time)
    requires s.HasCurrent() && s.state != Playing
    ensures FollowNarration(w, m, s, now) == (s, m)
  {
  }

  lemma TickWaits(step: Step, s: Session)
    requires s.HasCurrent() && LiveTick(step, s) && s.state == Loading && Recent(s) && s.lastSeenOK <= step.now
    requires NotStarted(s, Answer(step))
    ensures var after := Do(step, s).session;
      after.state == Ended || Waits(s, after, step.now)
  {
    hide Reconcile, Apply, FollowNarration, Pending;
    var w, m, now := step.world, step.memory, step.now;
    var m1 := m.Log(AskedStatus(s.sitting.deviceId, Answer(step)));
    var (decided, actions) := Reconcile(s, Answer(step), now);
    ReconcileWaits(s, Answer(step), now);
    ReconcileKeepsAccount(s, Answer(step), now);
    ReconcileLeavesPending(s, Answer(step), now);
    if decided.state == Ended {
      CarryingOutEndsAs(w, m1, decided, actions, now);
    } else {
      CarryingOutWaits(w, m1, decided, actions, now);
    }
    var (applied, m2) := Apply(w, m1, decided, actions, now);
    NoNarrationWhileLoading(w, m2, applied, now);
  }

  /** By when a session waiting on a load is over, with its speaker ticked at most `g` apart. */
  function Deadline(s: Session, g: nat): Time {
    s.loadingSince + (|s.queue| - s.currentIndex) * (LOAD_TIMEOUT + OFFLINE_AFTER + g)
  }

  /**
   Ticks alone, each stored and at most `g` apart, on a speaker that has a
   driver and never starts the song it was handed; the first of them no later
   than `g` after the wait should have been over. A tick whose save is lost is
   no tick (`LostStepsDropOut`).
   */
  ghost predicate NeverStarts(s: Session, steps: seq<Step>, g: nat)
    requires s.HasCurrent() && ValidRun(steps)
  {
    && Clocked(s.lastSeenOK, steps)
    && (forall k :: 0 <= k < |steps| ==> steps[k].op.TickOp? && steps[k].kept && s.sitting.kind in steps[k].world.drivers)
    && (|steps| > 0 ==> steps[0].now <= s.loadingSince + LOAD_TIMEOUT + OFFLINE_AFTER + g)
    && (forall j, k :: 0 <= j && k == j + 1 < |steps| ==> steps[k].now <= steps[j].now + g)
    && (forall k {:trigger NotStarted(At(s, steps, k), Answer(steps[k]))} :: 0 <= k < |steps| ==>
          NotStarted(At(s, steps, k), Answer(steps[k])))
  }

  /** One wait further down costs no more than the waits it passes. */
  lemma DeadlineHolds(s: Session, after: Session, now: Time, g: nat)
    requires s.HasCurrent() && Waits(s, after, now)
    requires now <= s.loadingSince + LOAD_TIMEOUT + OFFLINE_AFTER + g
    ensures Deadline(after, g) <= Deadline(s, g)
    ensures after.loadingSince + LOAD_TIMEOUT + OFFLINE_AFTER + g <= Deadline(after, g)
  {
    var unit := LOAD_TIMEOUT + OFFLINE_AFTER + g;
    var left, leftAfter := |s.queue| - s.currentIndex, |after.queue| - after.currentIndex;
    AtLeastOne(leftAfter, unit);
    if after.currentIndex != s.currentIndex {
      OneLess(left, leftAfter, unit);
    }
  }

  lemma AtLeastOne(n: int, unit: nat)
    requires n >= 1
    ensures n * unit >= unit
  {
  }

  lemma OneLess(n: int, m: int, unit: nat)
    requires m <= n - 1
    ensures m * unit + unit <= n * unit
  {
    assert n * unit - m * unit == (n - m) * unit;
    AtLeastOne(n - m, unit);
  }

  /** What every tick of such a run finds: the session over, or waiting within its deadline. */
  lemma {:induction false} WaitsWithinItsDeadline(s: Session, steps: seq<Step>, g: nat, k: nat)
    requires s.HasCurrent() && ValidRun(steps) && k <= |steps|
    requires s.state == Loading && Recent(s) && NeverStarts(s, steps, g)
    ensures var after := At(s, steps, k);
      || after.state == Ended
      || (&& after.state == Loading && Recent(after) && after.sitting == s.sitting
          && Deadline(after, g) <= Deadline(s, g)
          && (k > 0 ==> steps[k - 1].now <= after.loadingSince + LOAD_TIMEOUT + OFFLINE_AFTER)
          && (k == 0 ==> after == s))
    ensures k > 0 && At(s, steps, k).state != Ended ==> steps[k - 1].now + g <= Deadline(s, g)
    decreases k
  {
    hide Do, NotStarted, Deadline;
    if k > 0 {
      var before, step := At(s, steps, k - 1), steps[k - 1];
      WaitsWithinItsDeadline(s, steps, g, k - 1);
      if before.state == Ended {
        EndedIsFinal(step, before);
      } else {
        SeenIsTheLastAnswer(s, steps, k - 1, step.now);
        assert NotStarted(At(s, steps, k - 1), Answer(steps[k - 1]));
        TickWaits(step, before);
        if At(s, steps, k).state != Ended {
          DeadlineHolds(before, At(s, steps, k), step.now, g);
        }
      }
    }
  }

  lemma {:induction false} FirstEnding(s: Session, steps: seq<Step>, n: nat) returns (k: nat)
    requires s.HasCurrent() && ValidRun(steps) && n <= |steps|
    requires s.state != Ended && At(s, steps, n).state == Ended
    ensures 0 < k <= n && At(s, steps, k).state == Ended && At(s, steps, k - 1).state != Ended
    decreases n
  {
    hide Do;
    if At(s, steps, n - 1).state == Ended {
      k := FirstEnding(s, steps, n - 1);
    } else {
      k := n;
    }
  }

  lemma DeadlineIsOneWaitOff(s: Session, g: nat)
    requires s.HasCurrent()
    ensures s.loadingSince + LOAD_TIMEOUT + OFFLINE_AFTER + g <= Deadline(s, g)
  {
    AtLeastOne(|s.queue| - s.currentIndex, LOAD_TIMEOUT + OFFLINE_AFTER + g);
  }

  /**
   Bounded lifetime. However errors, idle answers, refusals and foreign keys are
   mixed, once the ticks have gone past the deadline less one gap the session
   has ended, and the tick that ended it came by the deadline.
   */
  lemma EndsByItsDeadline(s: Session, steps: seq<Step>, g: nat) returns (k: nat)
    requires s.HasCurrent() && ValidRun(steps) && steps != []
    requires s.state == Loading && Recent(s) && NeverStarts(s, steps, g)
    requires steps[|steps| - 1].now > Deadline(s, g) - g
    ensures 0 < k <= |steps|
    ensures At(s, steps, k).state == Ended && At(s, steps, k - 1).state != Ended
    ensures steps[k - 1].now <= Deadline(s, g)
  {
    hide At, Do, NotStarted, Recent, Deadline;
    WaitsWithinItsDeadline(s, steps, g, |steps|);
    k := FirstEnding(s, steps, |steps|);
    WaitsWithinItsDeadline(s, steps, g, k - 1);
    DeadlineIsOneWaitOff(s, g);
    assert k > 1 ==> steps[k - 1].now <= steps[k - 2].now + g;
  }

  // ---- that a session waiting on a load is always one the bound is about ----

  lemma CarryingOutRecent(w: World, m: Memory, s: Session, actions: seq<Action>, now: Time)
    requires s.HasCurrent() && Pending(s, actions) && Recent(s) && s.lastSeenOK <= now
    ensures var after := Apply(w, m, s, actions, now).0;
      Recent(after) && after.lastSeenOK <= now
  {
    hide Apply, Pending;
    CarryingOutReaches(w, m, s, actions, now);
  }

  lemma ReconcileRecent(s: Session, answer: Option<DeviceStatus>, now: Time)
    requires s.HasCurrent() && Recent(s) && s.lastSeenOK <= now
    ensures var after := Reconcile(s, answer, now).0;
      Recent(after) && after.lastSeenOK <= now
  {
    if s.state != Ended {
      hide Reconcile;
      Decides(s, answer, now);
    }
  }

  lemma FollowNarrationRecent(w: World, m: Memory, s: Session, now: Time)
    requires s.HasCurrent() && Recent(s) && s.lastSeenOK <= now
    ensures Recent(FollowNarration(w, m, s, now).0)
  {
    hide Covers, NarratedForm, Apply;
    var (switched, actions, m1) := NarrationSwitch(w, m, s, now);
    CarryingOutRecent(w, m1, switched, actions, now);
  }

  lemma DecideRecent(w: World, m: Memory, s: Session, command: Command, now: Time)
    requires s.HasCurrent() && ValidCommand(command) && Recent(s) && s.lastSeenOK <= now
    ensures var d := Decide(w, m, s, command, now);
      Recent(d.session) && d.session.lastSeenOK <= now
  {
    hide NarrationSwitch, ReplaceQueue;
    match command
    case EditQueue(version, items, currentIndex) => EditKeepsTheSongPlaying(s, items, currentIndex);
    case SetNarration(on) => SwitchReloadsOrStays(w, m, WithNarration(s, on), now);
    case _ =>
  }

  lemma StepRecent(step: Step, s: Session)
    requires s.HasCurrent() && ValidStep(step) && Recent(s) && s.lastSeenOK <= step.now
    ensures Recent(Do(step, s).session)
  {
    hide Reconcile, Apply, FollowNarration, Decide, Pending;
    var w, m, now := step.world, step.memory, step.now;
    if LiveTick(step, s) {
      var m1 := m.Log(AskedStatus(s.sitting.deviceId, Answer(step)));
      var (decided, actions) := Reconcile(s, Answer(step), now);
      ReconcileRecent(s, Answer(step), now);
      ReconcileKeepsAccount(s, Answer(step), now);
      ReconcileLeavesPending(s, Answer(step), now);
      CarryingOutRecent(w, m1, decided, actions, now);
      var (applied, m2) := Apply(w, m1, decided, actions, now);
      FollowNarrationRecent(w, m2, applied, now);
    } else if step.op.CommandOp? && s.state != Ended && s.sitting.kind in w.drivers {
      DecideRecent(w, m, s, step.op.command, now);
      DecisionIsPending(w, m, s, step.op.command, now);
      var d := Decide(w, m, s, step.op.command, now);
      CarryingOutRecent(w, d.memory, d.session, d.actions, now);
    }
  }

  /** Every session of a run under a clock that does not go back waits on loads that are recent. */
  lemma {:induction false} LoadsAreRecent(s: Session, steps: seq<Step>, k: nat)
    requires s.HasCurrent() && ValidRun(steps) && k <= |steps| && Recent(s) && Clocked(s.lastSeenOK, steps)
    ensures Recent(At(s, steps, k))
    decreases k
  {
    hide Do, Recent;
    if k > 0 {
      LoadsAreRecent(s, steps, k - 1);
      SeenIsTheLastAnswer(s, steps, k - 1, 0);
      if steps[k - 1].kept {
        StepRecent(steps[k - 1], At(s, steps, k - 1));
      }
    }
  }
}
