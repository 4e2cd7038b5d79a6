/**
 Versions over whole runs: a version names one queue and one current item, so
 an edit accepted by its version is of the queue the remote read.
 */
module CastVersions {
  import opened Wrappers
  import opened CastSession
  import opened CastReconcile
  import opened CastWorld
  import opened CastSteps
  import opened CastApply

  /** The version only rises, and while it stands so do the queue and the current item. */
  ghost predicate Moved(s: Session, after: Session) {
    && after.sitting == s.sitting
    && s.version <= after.version
    && (s.version == after.version ==> after.queue == s.queue && after.currentIndex == s.currentIndex)
  }

  lemma ReachedMoved(s: Session, after: Session, now: Time)
    requires Reached(s, after, now)
    ensures Moved(s, after) && after.queue == s.queue
  {
  }

  lemma ApplyMoved(w: World, m: Memory, s: Session, actions: seq<Action>, now: Time)
    requires s.HasCurrent() && Pending(s, actions)
    ensures Moved(s, Apply(w, m, s, actions, now).0)
  {
    hide *;
    CarryingOutReaches(w, m, s, actions, now);
    ReachedMoved(s, Apply(w, m, s, actions, now).0, now);
  }

  lemma ReconcileMoved(s: Session, answer: Option<DeviceStatus>, now: Time)
    requires s.HasCurrent()
    ensures Moved(s, Reconcile(s, answer, now).0)
  {
    if s.state != Ended {
      hide Reconcile;
      Decides(s, answer, now);
    }
  }

  lemma FollowNarrationMoved(w: World, m: Memory, s: Session, now: Time)
    requires s.HasCurrent()
    ensures Moved(s, FollowNarration(w, m, s, now).0)
  {
    hide NarrationSwitch, Covers, NarratedForm, Apply;
    SwitchReloadsOrStays(w, m, s, now);
    var (switched, actions, m1) := NarrationSwitch(w, m, s, now);
    ApplyMoved(w, m1, switched, actions, now);
  }

  lemma DecideMoved(w: World, m: Memory, s: Session, command: Command, now: Time)
    requires s.HasCurrent() && ValidCommand(command)
    ensures Moved(s, Decide(w, m, s, command, now).session)
  {
    hide NarrationSwitch, ReplaceQueue;
    match command
    case EditQueue(version, items, currentIndex) => EditKeepsTheSongPlaying(s, items, currentIndex);
    case SetNarration(on) => SwitchReloadsOrStays(w, m, WithNarration(s, on), now);
    case _ =>
  }

  /** One step moves a stored session forward, or not at all. */
  lemma StepMoved(step: Step, s: Session)
    requires s.HasCurrent() && ValidStep(step)
    ensures Moved(s, Do(step, s).session)
  {
    hide Reconcile, Apply, FollowNarration, Decide, Pending;
    var w, m, now := step.world, step.memory, step.now;
    match step.op
    case TickOp =>
      if s.state != Ended && s.sitting.kind in w.drivers {
        var answer := w.status(|m.trace|);
        var m1 := m.Log(AskedStatus(s.sitting.deviceId, answer));
        var (decided, actions) := Reconcile(s, answer, now);
        ReconcileMoved(s, answer, now);
        ReconcileKeepsAccount(s, answer, now);
        ReconcileLeavesPending(s, answer, now);
        ApplyMoved(w, m1, decided, actions, now);
        var (applied, m2) := Apply(w, m1, decided, actions, now);
        FollowNarrationMoved(w, m2, applied, now);
      }
    case CommandOp(command) =>
      if s.state != Ended && s.sitting.kind in w.drivers {
        DecideMoved(w, m, s, command, now);
        DecisionIsPending(w, m, s, command, now);
        var d := Decide(w, m, s, command, now);
        ApplyMoved(w, d.memory, d.session, d.actions, now);
      }
    case ReplacedOp =>
  }

  /** Over any run of ticks, commands and replacements. */
  lemma {:induction false} VersionsNameOneQueue(s: Session, steps: seq<Step>, i: nat, j: nat)
    requires s.HasCurrent() && ValidRun(steps) && i <= j <= |steps|
    ensures Moved(At(s, steps, i), At(s, steps, j))
    decreases j
  {
    hide Do;
    if i < j {
      VersionsNameOneQueue(s, steps, i, j - 1);
      if steps[j - 1].kept {
        StepMoved(steps[j - 1], At(s, steps, j - 1));
      }
    }
  }

  /** An edit accepted by the version a remote read replaces exactly the queue it read, on the song it read. */
  lemma AcceptedEditIsOfTheQueueRead(s: Session, steps: seq<Step>, read: nat, edit: nat)
    requires s.HasCurrent() && ValidRun(steps) && read <= edit < |steps|
    requires steps[edit].op.CommandOp? && steps[edit].op.command.EditQueue?
    requires steps[edit].op.command.version == At(s, steps, read).version
    requires Do(steps[edit], At(s, steps, edit)).error == None
    ensures At(s, steps, edit).queue == At(s, steps, read).queue
    ensures At(s, steps, edit).currentIndex == At(s, steps, read).currentIndex
    ensures At(s, steps, edit).state != Ended
    ensures steps[edit].kept ==>
      && At(s, steps, edit + 1).queue == steps[edit].op.command.items
      && At(s, steps, edit + 1).version > At(s, steps, read).version
    ensures !steps[edit].kept ==> At(s, steps, edit + 1) == At(s, steps, edit)
  {
    VersionsNameOneQueue(s, steps, read, edit);
    EditAccepted(steps[edit], At(s, steps, edit));
  }

  /** An edit goes through exactly when the session is live, has a driver, and stands at the version named. */
  lemma EditAccepted(step: Step, s: Session)
    requires s.HasCurrent() && ValidStep(step) && step.op.CommandOp? && step.op.command.EditQueue?
    ensures Do(step, s).error == None <==>
      s.state != Ended && s.sitting.kind in step.world.drivers && s.version == step.op.command.version
    ensures Do(step, s).error == None ==>
      Do(step, s).session.queue == step.op.command.items && Do(step, s).session.version > s.version
    ensures Do(step, s).error != None ==> Do(step, s).session == s
  {
    hide Apply, Pending;
    var w, m, now := step.world, step.memory, step.now;
    if s.state != Ended && s.sitting.kind in w.drivers {
      var command := step.op.command;
      DecisionIsPending(w, m, s, command, now);
      var d := Decide(w, m, s, command, now);
      EditKeepsTheSongPlaying(s, command.items, command.currentIndex);
      CarryingOutReaches(w, d.memory, d.session, d.actions, now);
      ReachedMoved(d.session, Apply(w, d.memory, d.session, d.actions, now).0, now);
    }
  }
}
