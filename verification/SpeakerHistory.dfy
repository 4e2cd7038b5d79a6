/**
 Attribution on a speaker's own log, over every interleaving: each history
 write names the video that speaker was last handed by anybody, while no load
 it took is lost with a save or a start
 (services/cast/internal/usecase/engine.go:337-379, 425-466).
 */
module SpeakerHistory {
  import opened CastSession
  import opened CastReconcile
  import opened CastWorld
  import opened CastSteps
  import opened CastStore
  import opened CastSpeaker
  import opened CastEndings
  import opened CastRates
  import opened Interleavings
  import opened SpeakerLog

  /**
   A speaker by its own log and by a session's part of it: handed the same last,
   named since or not alike, and before that the same, unless the session has
   had only its opening load.
   */
  predicate SameHeard(whole: Speaker, own: Speaker) {
    && own.video == whole.video && own.latest == whole.latest && own.named == whole.named
    && own.before in {"", whole.before}
  }

  ghost predicate SameTold(log: seq<Sent>, device: string, id: string) {
    SameHeard(Told(To(log, device)), Told(Of(log, id)))
  }

  /** A start whose load the speaker takes, and which is not stored yet. */
  predicate Starting(m: Machine, t: Thread, device: string) {
    InHand(m, t) && m.threads[t].device == device && TaskOf(m, t).Opening? && TaskOf(m, t).started.Some?
  }

  predicate On(m: Machine, id: string, device: string) {
    id in m.store && m.store[id].sitting.deviceId == device
  }

  /** A load that the speaker took is lost: with a save, or with a session that could not be created. */
  predicate Spoils(m: Machine, move: Move, device: string) {
    && InHand(m, move.t) && m.threads[move.t].device == device
    && (move.CreateFails?
        || (move.SaveFails? && TaskOf(m, move.t).Working?
            && TaskOf(m, move.t).read.HasCurrent() && ValidStep(TaskOf(m, move.t).step)
            && exists k :: 0 <= k < |Calls(TaskOf(m, move.t).step, TaskOf(m, move.t).read)|
                           && Calls(TaskOf(m, move.t).step, TaskOf(m, move.t).read)[k].Took()))
  }

  ghost predicate NoneStopping(m: Machine, device: string) {
    forall t :: InHand(m, t) && m.threads[t].device == device ==> !TaskOf(m, t).Stopping?
  }

  /** Unless one is just starting, the live session of a speaker has the last load it took. */
  ghost predicate LiveIsTold(m: Machine, device: string) {
    || (exists t :: Starting(m, t, device))
    || (forall id :: LiveOn(m.store, id) && On(m, id, device) ==> SameTold(m.log, device, id))
  }

  /** One just starting has it once its load is made. */
  ghost predicate StartIsTold(m: Machine, device: string) {
    forall t :: Starting(m, t, device) ==>
      NothingTaken(Of(m.log, m.threads[t].id), 0) || SameTold(m.log, device, m.threads[t].id)
  }

  ghost predicate NothingLost(m: Machine, device: string) {
    forall id :: On(m, id, device) && id in m.lives ==> LosesNothing(m.lives[id])
  }

  ghost predicate WellTold(m: Machine, device: string) {
    && NoneStopping(m, device) && LiveIsTold(m, device) && StartIsTold(m, device) && NothingLost(m, device)
    && Attributed(UNHEARD, To(m.log, device), 0)
  }

  lemma StartsWellTold(m: Machine, device: string)
    requires Starts(m)
    ensures WellTold(m, device)
  {
  }

  // ---- a call goes out ----

  lemma TakenOneMore(calls: seq<Event>, e: Event)
    ensures NothingTaken(calls + [e], 0) <==> NothingTaken(calls, 0) && !e.Took()
  {
    assert (calls + [e])[|calls|] == e;
    assert forall k :: 0 <= k < |calls| ==> (calls + [e])[k] == calls[k];
  }

  lemma NotTakenIsNotHeard(sp: Speaker, e: Event)
    requires !e.Took() && !e.AskedStatus?
    ensures Hear(sp, e) == sp
  {
  }

  lemma TakenIsHeard(whole: Speaker, own: Speaker, e: Event)
    requires SameHeard(whole, own)
    ensures SameHeard(Hear(whole, e), Hear(own, e))
  {
  }

  lemma FirstIsHeard(whole: Speaker, own: Speaker, e: Event)
    requires e.Took() && own.latest == ""
    ensures SameHeard(Hear(whole, e), Hear(own, e))
  {
  }

  /** The history a step in hand goes on to write is of the song its session's part of the log was told last. */
  lemma WritesWhatItWasTold(m: Machine, t: Thread, device: string)
    requires Inv(m) && Accounted(m) && WellTold(m, device) && InHand(m, t) && m.threads[t].device == device
    requires TaskOf(m, t).Working? && TaskOf(m, t).unsent != [] && TaskOf(m, t).unsent[0].Wrote?
    ensures TaskOf(m, t).unsent[0].video == Told(Of(m.log, m.threads[t].id)).video
  {
    hide LocksOk, OneEach, LiveIsTold, StartIsTold, NoneStopping, Of, To, Spoken, Calls, Opens, Tracks, HeardSince, At, LosesNothing;
    var id, task := m.threads[t].id, TaskOf(m, t);
    assert ThreadOk(m, t) && LifeOk(m, id) && TaskAccounted(m, t) && LifeAccounted(m, id);
    assert On(m, id, device);
    InHandIsAttributed(m.lives[id], task.step);
    AttributedNext(Of(m.log, id), task.unsent);
  }

  lemma AttributedNext(sent: seq<Event>, unsent: seq<Event>)
    requires unsent != [] && unsent[0].Wrote? && Attributed(UNHEARD, sent + unsent, 0)
    ensures unsent[0].video == Told(sent).video
  {
    hide HeardSince;
    assert (sent + unsent)[|sent|] == unsent[0] && (sent + unsent)[..|sent|] == sent;
  }

  /** Nobody else has this speaker's lock. */
  lemma OneInHand(m: Machine, t: Thread, t': Thread)
    requires Inv(m) && InHand(m, t) && InHand(m, t') && m.threads[t].device == m.threads[t'].device
    ensures t == t'
  {
    hide OneEach, StoredOk, LifeOk;
    assert ThreadOk(m, t) && ThreadOk(m, t');
    OneHolder(m, t, t');
  }

  lemma WorkerSends(a: Machine, move: Move, b: Machine, device: string)
    requires Inv(a) && Accounted(a) && WellTold(a, device) && Interleavings.Next(a, move, b) && move.Send?
    requires InHand(a, move.t) && a.threads[move.t].device == device && TaskOf(a, move.t).Working?
    ensures LiveIsTold(b, device) && StartIsTold(b, device) && Attributed(UNHEARD, To(b.log, device), 0)
  {
    hide Interleavings.Next, LocksOk, Of, To, HeardSince, Attributed, NothingTaken, NothingLost, LifeOk, StoredOk, NoneStopping;
    var t := move.t;
    OthersStandStill(a, move, b);
    SendDoes(a, move, b);
    var id, e := a.threads[t].id, TaskOf(a, t).unsent[0];
    LogAfter(a, move, b);
    assert ThreadOk(a, t);
    forall t' ensures !Starting(a, t', device) && !Starting(b, t', device) {
      if Starting(a, t', device) || Starting(b, t', device) {
        OneInHand(a, t, t');
        assert false;
      }
    }
    assert LiveOn(a.store, id) && On(a, id, device);
    assert SameTold(a.log, device, id);
    if e.Wrote? {
      WritesWhatItWasTold(a, t, device);
    }
    HearsOneMore(UNHEARD, To(a.log, device), e, 0);
    HearsOneMore(UNHEARD, Of(a.log, id), e, 0);
    TakenIsHeard(Told(To(a.log, device)), Told(Of(a.log, id)), e);
    forall id' | LiveOn(b.store, id') && On(b, id', device) ensures SameTold(b.log, device, id') {
      assert id' == id;
    }
  }

  lemma StarterSends(a: Machine, move: Move, b: Machine, device: string)
    requires Inv(a) && Accounted(a) && WellTold(a, device) && Interleavings.Next(a, move, b) && move.Send?
    requires InHand(a, move.t) && a.threads[move.t].device == device && TaskOf(a, move.t).Opening?
    ensures LiveIsTold(b, device) && StartIsTold(b, device) && Attributed(UNHEARD, To(b.log, device), 0)
  {
    hide Interleavings.Next, LocksOk, OneEach, StoredOk, Of, To, HeardSince, Attributed, NothingTaken, NothingLost, NoneStopping, Tracks, Spoken, Calls;
    var t := move.t;
    var id, task := a.threads[t].id, TaskOf(a, t);
    OthersStandStill(a, move, b);
    SendDoes(a, move, b);
    var e := task.unsent[0];
    LogAfter(a, move, b);
    assert TaskAccounted(a, t);
    assert task.opening[|Of(a.log, id)|] == e;
    HearsOneMore(UNHEARD, To(a.log, device), e, 0);
    HearsOneMore(UNHEARD, Of(a.log, id), e, 0);
    forall t' | Starting(a, t', device) || Starting(b, t', device) ensures t' == t {
      OneInHand(a, t, t');
    }
    assert Starting(b, t, device) == Starting(a, t, device) == task.started.Some?;
    if task.started.Some? {
      TakenOneMore(Of(a.log, id), e);
      if SameTold(a.log, device, id) {
        TakenIsHeard(Told(To(a.log, device)), Told(Of(a.log, id)), e);
      } else if e.Took() {
        NothingTakenChangesNothing(UNHEARD, Of(a.log, id), 0);
        FirstIsHeard(Told(To(a.log, device)), Told(Of(a.log, id)), e);
      }
    } else {
      NeverTaken(task.opening, |Of(a.log, id)|);
      NotTakenIsNotHeard(Told(To(a.log, device)), e);
      forall id' | LiveOn(b.store, id') && On(b, id', device) ensures SameTold(b.log, device, id') {
        assert LifeOk(a, id') && LifeAccounted(a, id');
        assert SameTold(a.log, device, id');
      }
    }
  }

  lemma NeverTaken(calls: seq<Event>, k: nat)
    requires NothingTaken(calls, 0) && k < |calls|
    ensures !calls[k].Took()
  {
  }

  lemma ElsewhereSends(a: Machine, move: Move, b: Machine, device: string)
    requires Inv(a) && Accounted(a) && WellTold(a, device) && Interleavings.Next(a, move, b) && move.Send?
    requires InHand(a, move.t) && a.threads[move.t].device != device
    ensures LiveIsTold(b, device) && StartIsTold(b, device) && Attributed(UNHEARD, To(b.log, device), 0)
  {
    hide Interleavings.Next, LocksOk, OneEach, StoredOk, Of, To, HeardSince, Attributed, NothingTaken, NothingLost, NoneStopping, Tracks, Spoken, Calls, Opens;
    var t := move.t;
    var id := a.threads[t].id;
    OthersStandStill(a, move, b);
    SendDoes(a, move, b);
    LogAfter(a, move, b);
    assert TaskAccounted(a, t) && ThreadOk(a, t);
    forall t' ensures Starting(b, t', device) == Starting(a, t', device) {
    }
    forall t' | Starting(a, t', device) ensures a.threads[t'].id != id {
      IdsDiffer(a, t', t);
    }
    forall id' | On(a, id', device) ensures id' != id {
      assert LifeOk(a, id');
    }
    forall id' | LiveOn(b.store, id') && On(b, id', device) && SameTold(a.log, device, id') ensures SameTold(b.log, device, id') {
      assert On(a, id', device);
    }
    forall t' | Starting(b, t', device) && SameTold(a.log, device, a.threads[t'].id) ensures SameTold(b.log, device, b.threads[t'].id) {
    }
  }

  // ---- the other moves ----

  lemma SilentMoves(a: Machine, move: Move, b: Machine, device: string)
    requires Inv(a) && Inv(b) && Accounted(a) && WellTold(a, device) && Interleavings.Next(a, move, b) && !move.Send?
    requires !Spoils(a, move, device)
    ensures LiveIsTold(b, device) && StartIsTold(b, device) && Attributed(UNHEARD, To(b.log, device), 0)
  {
    hide Interleavings.Next, Inv, Of, To, HeardSince, Attributed, NothingTaken, NothingLost, NoneStopping, Accounted, SameTold;
    LogAfter(a, move, b);
    forall t | Starting(b, t, device)
      ensures NothingTaken(Of(b.log, b.threads[t].id), 0) || SameTold(b.log, device, b.threads[t].id)
    {
      StartedBefore(a, move, b, t, device);
    }
    if forall t :: !Starting(b, t, device) {
      if t0 :| Starting(a, t0, device) {
        StartIsStored(a, move, b, t0, device);
      } else {
        forall id | LiveOn(b.store, id) && On(b, id, device) ensures SameTold(b.log, device, id) {
          LiveIsStillTold(a, move, b, id, device);
        }
      }
    }
  }

  lemma StartedBefore(a: Machine, move: Move, b: Machine, t: Thread, device: string)
    requires Inv(a) && Accounted(a) && Interleavings.Next(a, move, b) && !move.Send? && Starting(b, t, device)
    ensures b.log == a.log
    ensures (Starting(a, t, device) && b.threads[t].id == a.threads[t].id) || NothingTaken(Of(b.log, b.threads[t].id), 0)
  {
    hide Interleavings.Next, Inv, Opens, Spoken, Calls, Tracks;
    LogAfter(a, move, b);
    OthersStandStill(a, move, b);
    if t == move.t {
      if move.Work? {
        WorkDoes(a, move, b);
      } else if move.Open? {
        OpenDoes(a, move, b);
        assert LifeAccounted(a, move.sitting.id);
      } else if Writes(move) || Notes(move) {
        PutDownDoes(a, move, b);
      } else if move.CreateFails? {
        CreateFailsDoes(a, move, b);
      } else {
        IdleDoes(a, move, b);
      }
    }
  }

  /** A start that is over and spoiled nothing has been stored, and its session is the live one. */
  lemma StartIsStored(a: Machine, move: Move, b: Machine, t0: Thread, device: string)
    requires Inv(a) && Inv(b) && Accounted(a) && WellTold(a, device) && Interleavings.Next(a, move, b) && !move.Send?
    requires !Spoils(a, move, device) && Starting(a, t0, device) && forall t :: !Starting(b, t, device)
    ensures forall id :: LiveOn(b.store, id) && On(b, id, device) ==> SameTold(b.log, device, id)
  {
    hide Interleavings.Next, LocksOk, StoredOk, LifeOk, Of, To, HeardSince, Attributed, NothingLost, NoneStopping, LiveIsTold, Tracks, Spoken, Calls, Created, Succeeded, SameTold;
    OthersStandStill(a, move, b);
    LogAfter(a, move, b);
    assert t0 == move.t by {
      assert !Starting(b, t0, device);
    }
    StarterMoves(a, move, b, device);
    CreateDoes(a, move, b);
    assert TaskAccounted(a, t0);
    var task := TaskOf(a, t0);
    var s := task.started.value;
    PutDownDoes(a, move, b);
    assert Of(a.log, a.threads[t0].id) + [] == Of(a.log, a.threads[t0].id);
    CreatedStore(a.store, s, task.via.now, s.sitting.id);
    assert ThreadOk(a, t0);
    forall id | LiveOn(b.store, id) && On(b, id, device) ensures SameTold(b.log, device, id) {
      assert LiveOn(b.store, s.sitting.id) && id == s.sitting.id;
    }
  }

  lemma StarterMoves(a: Machine, move: Move, b: Machine, device: string)
    requires Interleavings.Next(a, move, b) && !move.Send? && !Spoils(a, move, device)
    requires Starting(a, move.t, device) && !Starting(b, move.t, device)
    ensures move.CreateIt?
  {
    hide Interleavings.Next;
    if move.Work? {
      WorkDoes(a, move, b);
    } else if move.Open? {
      OpenDoes(a, move, b);
    } else if Writes(move) || Notes(move) {
      PutDownDoes(a, move, b);
    } else if move.CreateFails? {
      LostStartSpoils(a, move, b, device);
      assert false;
    } else {
      IdleDoes(a, move, b);
    }
  }

  lemma LostStartSpoils(a: Machine, move: Move, b: Machine, device: string)
    requires move.CreateFails? && Starting(a, move.t, device)
    ensures Spoils(a, move, device)
  {
  }

  lemma LiveIsStillTold(a: Machine, move: Move, b: Machine, id: string, device: string)
    requires Inv(a) && Inv(b) && Accounted(a) && WellTold(a, device) && Interleavings.Next(a, move, b) && !move.Send?
    requires (forall t :: !Starting(a, t, device)) && LiveOn(b.store, id) && On(b, id, device)
    ensures SameTold(b.log, device, id)
  {
    hide Interleavings.Next, LocksOk, OneEach, StoredOk, Of, To, HeardSince, Attributed, NothingLost, NoneStopping, StartIsTold, Tracks, Spoken, Calls, Created, Succeeded, SameTold, Do;
    OthersStandStill(a, move, b);
    LogAfter(a, move, b);
    if move.SaveIt? {
      SaveDoes(a, move, b);
    } else if move.CreateIt? {
      CreateDoes(a, move, b);
      var task := a.threads[move.t].phase.task;
      CreatedStore(a.store, task.started.value, task.via.now, id);
      assert ThreadOk(a, move.t);
      assert !Starting(a, move.t, device);
    }
    assert LiveOn(a.store, id) && On(a, id, device);
  }

  // ---- all of it ----

  lemma StillNothingLost(a: Machine, move: Move, b: Machine, device: string)
    requires Inv(a) && Inv(b) && Accounted(a) && WellTold(a, device) && Interleavings.Next(a, move, b) && !Spoils(a, move, device)
    ensures NothingLost(b, device)
  {
    hide Interleavings.Next, Inv, Accounted, LiveIsTold, StartIsTold, NoneStopping, Attributed, HeardSince, Of, To;
    forall id | On(b, id, device) && id in b.lives ensures LosesNothing(b.lives[id]) {
      LifeStillLosesNothing(a, move, b, id, device);
    }
  }

  lemma LifeStillLosesNothing(a: Machine, move: Move, b: Machine, id: string, device: string)
    requires Inv(a) && Inv(b) && Accounted(a) && NothingLost(a, device) && Interleavings.Next(a, move, b) && !Spoils(a, move, device)
    requires On(b, id, device) && id in b.lives
    ensures LosesNothing(b.lives[id])
  {
    hide Interleavings.Next, LocksOk, OneEach, Of, To, Tracks, Spoken, Calls, Opens, At, Do, LosesNoLoad, Created, Succeeded;
    OthersStandStill(a, move, b);
    LifeAfter(a, move, b, id);
    assert LifeOk(a, id) && LifeOk(b, id);
    if id in a.lives {
      SameSpeaker(a, move, b, id);
      if b.lives[id] != a.lives[id] {
        var life := a.lives[id];
        if move.CreateIt? {
          KeptLosesNothing(life, TaskOf(a, move.t).via.(op := ReplacedOp, kept := true));
        } else {
          assert ThreadOk(a, move.t);
          var task := TaskOf(a, move.t);
          CallsKeep(task.step, task.read, !move.SaveFails?);
          KeptLosesNothing(life, task.step.(kept := !move.SaveFails?));
        }
      }
    } else {
      NoStepsLoseNothing(b.lives[id]);
    }
  }

  lemma NoStepsLoseNothing(life: Life)
    requires Lives(life) && life.steps == []
    ensures LosesNothing(life)
  {
  }

  /** A life is of a stored session, on the speaker it was created on. */
  lemma SameSpeaker(a: Machine, move: Move, b: Machine, id: string)
    requires Inv(a) && Accounted(a) && Interleavings.Next(a, move, b) && id in a.lives && id in b.store
    ensures id in a.store && a.store[id].sitting == b.store[id].sitting
  {
    hide Interleavings.Next, LocksOk, OneEach, Of, To, Tracks, Spoken, Calls, Opens, At, Do, Created, Succeeded;
    OthersStandStill(a, move, b);
    if move.SaveIt? {
      SaveDoes(a, move, b);
    } else if move.CreateIt? {
      CreateDoes(a, move, b);
      var task := a.threads[move.t].phase.task;
      CreatedStore(a.store, task.started.value, task.via.now, id);
      assert ThreadOk(a, move.t) && TaskAccounted(a, move.t);
    }
  }

  lemma StillNoneStopping(a: Machine, move: Move, b: Machine, device: string)
    requires Interleavings.Next(a, move, b) && NoneStopping(a, device) && !Spoils(a, move, device)
    ensures NoneStopping(b, device)
  {
    hide Interleavings.Next;
    OthersStandStill(a, move, b);
    var t := move.t;
    if InHand(b, t) && b.threads[t].device == device && TaskOf(b, t).Stopping? {
      if move.Send? {
        SendDoes(a, move, b);
      } else if move.Work? {
        WorkDoes(a, move, b);
      } else if move.Open? {
        OpenDoes(a, move, b);
      } else if Writes(move) || Notes(move) {
        PutDownDoes(a, move, b);
      } else if move.CreateFails? {
        CreateFailsDoes(a, move, b);
      } else {
        IdleDoes(a, move, b);
      }
    }
  }

  lemma StaysWellTold(a: Machine, move: Move, b: Machine, device: string)
    requires Inv(a) && Inv(b) && Accounted(a) && WellTold(a, device) && Interleavings.Next(a, move, b) && !Spoils(a, move, device)
    ensures WellTold(b, device)
  {
    hide Interleavings.Next, Inv, Accounted, LiveIsTold, StartIsTold, NothingLost, Attributed, HeardSince, To, Of, Spoils;
    StillNoneStopping(a, move, b, device);
    StillNothingLost(a, move, b, device);
    if move.Send? {
      SendDoes(a, move, b);
      if a.threads[move.t].device != device {
        ElsewhereSends(a, move, b, device);
      } else if TaskOf(a, move.t).Working? {
        WorkerSends(a, move, b, device);
      } else {
        StarterSends(a, move, b, device);
      }
    } else {
      SilentMoves(a, move, b, device);
    }
  }

  /**
   Attribution, on a speaker's log. In every interleaving in which no load this
   speaker took was lost with a save or with a start, every history write made
   under its lock names the video it was last handed.
   */
  lemma {:induction false} HistoryOnTheLogNamesTheSongHanded(ms: seq<Machine>, moves: seq<Move>, k: nat, device: string)
    requires Execution(ms, moves) && k < |ms|
    requires forall i :: 0 <= i < k ==> !Spoils(ms[i], moves[i], device)
    ensures Attributed(UNHEARD, To(ms[k].log, device), 0)
    ensures WellTold(ms[k], device)
    decreases k
  {
    hide Interleavings.Next, Inv, Accounted, WellTold, Spoils, Attributed, To, HeardSince;
    if k == 0 {
      StartsWellTold(ms[0], device);
    } else {
      HistoryOnTheLogNamesTheSongHanded(ms, moves, k - 1, device);
      AlwaysOk(ms, moves, k - 1);
      AlwaysOk(ms, moves, k);
      AlwaysAccounted(ms, moves, k - 1);
      StaysWellTold(ms[k - 1], moves[k - 1], ms[k], device);
    }
    WellToldIsAttributed(ms[k], device);
  }

  // ---- takeover, on a speaker's log ----

  /** A session read under the lock, and about to be worked on, agrees with what its part of the log was told. */
  lemma ReadTracks(m: Machine, t: Thread, device: string)
    requires Inv(m) && Accounted(m) && WellTold(m, device) && InHand(m, t) && m.threads[t].device == device && TaskOf(m, t).Reading?
    ensures var s, id := TaskOf(m, t).before, m.threads[t].id;
      && s.HasCurrent() && s.state != Ended && Tracks(s, Told(Of(m.log, id))) && SameTold(m.log, device, id)
  {
    hide LocksOk, OneEach, StartIsTold, NoneStopping, Of, To, Spoken, Calls, Opens, Tracks, HeardSince, At, LosesNothing, SameTold;
    var id := m.threads[t].id;
    assert ThreadOk(m, t) && LifeOk(m, id) && StoredOk(m, id) && LifeAccounted(m, id);
    assert LiveOn(m.store, id) && On(m, id, device);
    forall t' ensures !Starting(m, t', device) && !WorkingOn(m, t', id) {
      if Starting(m, t', device) {
        OneInHand(m, t, t');
        assert false;
      } else if WorkingOn(m, t', id) {
        OneWorker(m, t, t', id);
        assert false;
      }
    }
    SpokenTracks(m.lives[id]);
  }

  lemma SpokenTracks(life: Life)
    requires LosesNothing(life) && Tracks(life.first, Told(life.opening))
    ensures Tracks(Now(life), Told(Spoken(life)))
  {
    hide Do, HeardSince, Tracks, Attributed, At, SpeakerAt, CallsUpTo;
    var n := |life.steps|;
    HistoryNamesTheSongHanded(Told(life.opening), life.first, life.steps, n);
    ToldIsHeard(life, n);
  }

  /** Where a speaker names only what its own log says it took, that is foreign to a session just in one case. */
  lemma ForeignWhen(s: Session, own: Speaker, whole: Speaker, st: DeviceStatus)
    requires s.state != Ended && Tracks(s, own) && SameHeard(whole, own) && Honest(whole, st)
    ensures Foreign(s, st) <==> s.prevMediaKey == "" && st.mediaKey !in {"", s.loadedMediaKey}
    ensures Foreign(s, st) ==> s.state == Loading && st.mediaKey == whole.before
  {
  }

  /**
   Takeover, on a speaker's log. In every interleaving in which no load this
   speaker took was lost, and with a speaker that names only what its own log
   says it took, a tick ends a session as taken over exactly when the session
   still waits on its opening load and the speaker still names the song of the
   session it replaced.
   */
  lemma TakenOverOnlyWhileOpening(ms: seq<Machine>, moves: seq<Move>, k: nat, device: string)
    requires Execution(ms, moves) && k < |moves| && forall i :: 0 <= i < k ==> !Spoils(ms[i], moves[i], device)
    requires moves[k].Work? && InHand(ms[k], moves[k].t) && ms[k].threads[moves[k].t].device == device
    requires TaskOf(ms[k], moves[k].t).Reading? && LiveTick(moves[k].step, TaskOf(ms[k], moves[k].t).before)
    requires Answer(moves[k].step).Some? && Honest(Told(To(ms[k].log, device)), Answer(moves[k].step).value)
    ensures TaskOf(ms[k], moves[k].t).before.HasCurrent()
    ensures var s, step := TaskOf(ms[k], moves[k].t).before, moves[k].step;
      var key := Answer(step).value.mediaKey;
      && (EndedAs(Do(step, s).session, TakenOver) <==> s.prevMediaKey == "" && key !in {"", s.loadedMediaKey})
      && (EndedAs(Do(step, s).session, TakenOver) ==> s.state == Loading && key == Told(To(ms[k].log, device)).before)
  {
    hide Interleavings.Next, Inv, Accounted, WellTold, Spoils, Attributed, To, Of, HeardSince, Tracks, Do, Foreign, Honest, SameHeard;
    HistoryOnTheLogNamesTheSongHanded(ms, moves, k, device);
    AlwaysOk(ms, moves, k);
    AlwaysAccounted(ms, moves, k);
    var t := moves[k].t;
    var s, id := TaskOf(ms[k], t).before, ms[k].threads[t].id;
    ReadTracks(ms[k], t, device);
    ForeignWhen(s, Told(Of(ms[k].log, id)), Told(To(ms[k].log, device)), Answer(moves[k].step).value);
    TakenOverOnlyByAForeignKey(moves[k].step, s);
  }

  lemma WellToldIsAttributed(m: Machine, device: string)
    requires WellTold(m, device)
    ensures Attributed(UNHEARD, To(m.log, device), 0)
  {
  }
}
