/** What each command promises whoever presses it (services/cast/internal/usecase/engine.go:556-695). */
module CastCommands {
  import opened Wrappers
  import opened CastSession
  import opened CastReconcile
  import opened CastWorld
  import opened CastSteps
  import opened CastApply
  import opened CastEndings

  /** A command on a live session whose speaker has a driver. */
  predicate Live(w: World, s: Session) {
    s.HasCurrent() && s.state != Ended && s.sitting.kind in w.drivers
  }

  /** A command refused stores nothing, and has neither loaded a song nor written to history. */
  lemma RefusedIsAsItWas(w: World, m: Memory, s: Session, command: Command, now: Time)
    requires s.HasCurrent() && ValidCommand(command) && Run(w, m, s, command, now).error.Some?
    ensures Run(w, m, s, command, now).session == s
    ensures var trace := Run(w, m, s, command, now).memory.trace;
      forall k :: |m.trace| <= k < |trace| ==> !trace[k].Handed? && !trace[k].Wrote?
  {
    hide NarrationSwitch, Apply, ReplaceQueue, Pending;
    DecisionIsPending(w, m, s, command, now);
  }

  /** Which commands are refused, and why: an order unheard, a place the queue does not have, a version gone by. */
  lemma RefusedWhen(w: World, m: Memory, s: Session, command: Command, now: Time)
    requires Live(w, s) && ValidCommand(command)
    ensures var error := Run(w, m, s, command, now).error;
      match command
      case Pause => error == if w.hears(|m.trace|) then None else Some(ErrDeviceOffline)
      case Resume => error == if w.hears(|m.trace|) then None else Some(ErrDeviceOffline)
      case Seek(_) => error == if w.hears(|m.trace|) then None else Some(ErrDeviceOffline)
      case SetVolume(_) => error == if w.hears(|m.trace|) then None else Some(ErrDeviceOffline)
      case Jump(index) => error == if 0 <= index < |s.queue| then None else Some(ErrBadIndex)
      case EditQueue(version, _, _) => error == if s.version == version then None else Some(ErrStaleVersion)
      case _ => error == None
  {
    hide NarrationSwitch, Apply, ReplaceQueue, Pending;
    DecisionIsPending(w, m, s, command, now);
  }

  /** Stop ends the session and orders the speaker to stop, whether or not it hears. */
  lemma StopAlwaysEnds(w: World, m: Memory, s: Session, now: Time)
    requires Live(w, s)
    ensures var r := Run(w, m, s, Stop, now);
      && r.error == None && EndedAs(r.session, Stopped)
      && r.memory == m.Log(Ordered(s.sitting.deviceId, StopOrder, w.hears(|m.trace|)))
  {
  }

  /** Handoff does too, and leaves in history the very place it names. */
  lemma HandoffLeavesThePlace(w: World, m: Memory, s: Session, now: Time)
    requires Live(w, s)
    ensures var r := Run(w, m, s, Handoff, now);
      && r.error == None && EndedAs(r.session, HandedOff)
      && r.memory == m.Log(Ordered(s.sitting.deviceId, StopOrder, w.hears(|m.trace|)))
                      .Log(Wrote(s.sitting.startedBy, s.queue[s.currentIndex].videoId, s.positionS, s.durationS))
  {
    hide NarrationSwitch, Apply, ReplaceQueue;
    var ended := End(s, HandedOff, now);
    var m1 := m.Log(Ordered(s.sitting.deviceId, StopOrder, w.hears(|m.trace|)));
    DecisionIsPending(w, m, s, Handoff, now);
    ApplyOneRecord(w, m1, ended, RecordProgress(s.Current().videoId, s.positionS, s.durationS), now);
  }

  /** An order heard is the order sent: inside the song for a seek, inside the scale for a volume, and both kept as sent. */
  lemma OrdersStayInside(w: World, m: Memory, s: Session, asked: int, now: Time)
    requires Live(w, s) && w.hears(|m.trace|)
    ensures var r := Run(w, m, s, Seek(asked), now);
      && r.session == s.(positionS := r.session.positionS, updatedAt := now)
      && r.memory == m.Log(Ordered(s.sitting.deviceId, SeekOrder(r.session.positionS), true))
      && 0 <= r.session.positionS && (s.durationS > 0 ==> r.session.positionS <= s.durationS)
      && (0 <= asked && (s.durationS > 0 ==> asked <= s.durationS) ==> r.session.positionS == asked)
    ensures var r := Run(w, m, s, SetVolume(asked), now);
      && r.session == s.(volume := r.session.volume, updatedAt := now)
      && r.memory == m.Log(Ordered(s.sitting.deviceId, VolumeOrder(r.session.volume), true))
      && 0 <= r.session.volume <= 100 && (0 <= asked <= 100 ==> r.session.volume == asked)
  {
  }

  /** Pausing is one order to pause and resuming one to resume, heard or not, and only heard do they change the session. */
  lemma PauseAndResumeOrder(w: World, m: Memory, s: Session, now: Time)
    requires Live(w, s)
    ensures var heard, device := w.hears(|m.trace|), s.sitting.deviceId;
      var error := if heard then None else Some(ErrDeviceOffline);
      && Run(w, m, s, Pause, now) ==
           Outcome(if heard then s.(state := if s.state == Playing then Paused else s.state, updatedAt := now) else s,
                   m.Log(Ordered(device, PauseOrder, heard)), error)
      && Run(w, m, s, Resume, now) ==
           Outcome(if heard then s.(state := if s.state == Paused then Playing else s.state, updatedAt := now) else s,
                   m.Log(Ordered(device, ResumeOrder, heard)), error)
  {
    hide NarrationSwitch, ReplaceQueue, ApplyLoad;
  }

  /** A seek is one order, inside the song, and so is a volume, inside the scale: sent and, when heard, stored alike. */
  lemma SeekAndVolumeOrder(w: World, m: Memory, s: Session, asked: int, now: Time)
    requires Live(w, s)
    ensures var heard, device := w.hears(|m.trace|), s.sitting.deviceId;
      var error := if heard then None else Some(ErrDeviceOffline);
      var position := if asked < 0 then 0 else if s.durationS > 0 && asked > s.durationS then s.durationS else asked;
      var volume := if asked < 0 then 0 else if asked > 100 then 100 else asked;
      && Run(w, m, s, Seek(asked), now) ==
           Outcome(if heard then s.(positionS := position, updatedAt := now) else s,
                   m.Log(Ordered(device, SeekOrder(position), heard)), error)
      && Run(w, m, s, SetVolume(asked), now) ==
           Outcome(if heard then s.(volume := volume, updatedAt := now) else s,
                   m.Log(Ordered(device, VolumeOrder(volume), heard)), error)
  {
    hide NarrationSwitch, ReplaceQueue, ApplyLoad;
  }

  /** An ended session, and one on a speaker nobody can drive, refuse every command before anything is called. */
  lemma RefusedUnasked(w: World, m: Memory, s: Session, command: Command, now: Time)
    requires s.HasCurrent() && ValidCommand(command) && !Live(w, s)
    ensures Run(w, m, s, command, now) == Outcome(s, m, Some(if s.state == Ended then ErrEnded else ErrNoDriver))
  {
  }

  /** Resuming undoes pausing, and neither starts a song that is still loading. */
  lemma ResumeUndoesPause(w: World, m: Memory, s: Session, now: Time, later: Time)
    requires Live(w, s) && w.hears(|m.trace|) && w.hears(|m.trace| + 1)
    ensures var paused := Run(w, m, s, Pause, now);
      var resumed := Run(w, paused.memory, paused.session, Resume, later);
      && paused.session == s.(state := if s.state == Playing then Paused else s.state, updatedAt := now)
      && resumed.session == s.(state := if s.state == Paused then Playing else s.state, updatedAt := later)
  {
    hide NarrationSwitch;
  }

  /** A jump asks for the song at its index first, from its start, and comes to it or to a later one. */
  lemma JumpComesTo(w: World, m: Memory, s: Session, index: int, now: Time)
    requires Live(w, s) && 0 <= index < |s.queue|
    ensures var r := Run(w, m, s, Jump(index), now);
      var handed := HandedSince(r.memory.trace, |m.trace|);
      && handed != [] && handed[0].Handed? && handed[0].video == s.queue[index].videoId
      && handed[0].startS == 0 && !handed[0].first
      && index <= r.session.currentIndex
      && (handed[0].Took() ==> r.session.currentIndex == index && r.session.state == Loading && r.session.version == s.version + 1)
  {
    hide Apply, ApplyLoad, HandedSince, Landed, Asks;
    var (loading, load) := LoadAt(s, index, 0, false, now);
    ApplyOneLoad(w, m, loading, load, now);
    LandsOnTheFirstSongTaken(w, m, loading, 0, false, now);
    var (after, m') := ApplyLoad(w, m, loading, 0, false, now);
    LandedFirst(loading, after, HandedSince(m'.trace, |m.trace|), 0, false, now);
  }

  /** Next does the same for the song after the current one, and at the last one finishes the queue and stops the speaker. */
  lemma NextComesTo(w: World, m: Memory, s: Session, now: Time)
    requires Live(w, s)
    ensures var r := Run(w, m, s, Next, now);
      if s.currentIndex + 1 == |s.queue| then
        && EndedAs(r.session, QueueFinished)
        && r.memory == m.Log(Ordered(s.sitting.deviceId, StopOrder, w.hears(|m.trace|)))
      else
        var handed := HandedSince(r.memory.trace, |m.trace|);
        && handed != [] && handed[0].Handed? && handed[0].video == s.queue[s.currentIndex + 1].videoId
        && handed[0].startS == 0 && !handed[0].first
        && s.currentIndex + 1 <= r.session.currentIndex
        && (handed[0].Took() ==> r.session.currentIndex == s.currentIndex + 1 && r.session.state == Loading)
  {
    if s.currentIndex + 1 < |s.queue| {
      hide Run, HandedSince;
      NextIsAJump(w, m, s, now);
      JumpComesTo(w, m, s, s.currentIndex + 1, now);
    } else {
      NextAtTheEnd(w, m, s, now);
    }
  }

  lemma NextAtTheEnd(w: World, m: Memory, s: Session, now: Time)
    requires Live(w, s) && s.currentIndex + 1 == |s.queue|
    ensures var r := Run(w, m, s, Next, now);
      && EndedAs(r.session, QueueFinished)
      && r.memory == m.Log(Ordered(s.sitting.deviceId, StopOrder, w.hears(|m.trace|)))
  {
    hide ApplyLoad;
    var ended := End(s, QueueFinished, now);
    var m' := m.Log(Ordered(s.sitting.deviceId, StopOrder, w.hears(|m.trace|)));
    assert [StopDevice][1..] == [];
    assert Apply(w, m', ended, [], now) == (ended, m');
  }

  lemma NextIsAJump(w: World, m: Memory, s: Session, now: Time)
    requires Live(w, s) && s.currentIndex + 1 < |s.queue|
    ensures Run(w, m, s, Next, now) == Run(w, m, s, Jump(s.currentIndex + 1), now)
  {
    hide Apply, Pending;
  }

  /**
   An edit at the version named. With the current video in the new queue nobody
   is called and only queue, index and version change; without it the speaker
   is handed the item named, clamped, from its start.
   */
  lemma EditComesTo(w: World, m: Memory, s: Session, items: seq<Item>, index: int, now: Time)
    requires Live(w, s) && items != []
    ensures var r := Run(w, m, s, EditQueue(s.version, items, index), now);
      && r.error == None && r.session.queue == items
      && if Holds(items, s.Current().videoId) then
           && r.memory == m && r.session.Current().videoId == s.Current().videoId
           && r.session == s.(queue := items, currentIndex := r.session.currentIndex, version := s.version + 1, updatedAt := now)
         else
           var to := Min(Max(index, 0), |items| - 1);
           var handed := HandedSince(r.memory.trace, |m.trace|);
           && handed != [] && handed[0].Handed? && handed[0].video == items[to].videoId
           && handed[0].startS == 0 && !handed[0].first
           && to <= r.session.currentIndex
           && (handed[0].Took() ==>
                 r.session.currentIndex == to && r.session.state == Loading && r.session.version == s.version + 2)
  {
    hide ApplyLoad, HandedSince, Landed, Asks, ReplaceQueue, NarrationSwitch, Holds;
    EditKeepsTheSongPlaying(s, items, index);
    var (edited, reload) := ReplaceQueue(s, items, index);
    if reload {
      var (loading, load) := LoadAt(edited, edited.currentIndex, 0, false, now);
      ApplyOneLoad(w, m, loading, load, now);
      LandsOnTheFirstSongTaken(w, m, loading, 0, false, now);
      var (after, m') := ApplyLoad(w, m, loading, 0, false, now);
      LandedFirst(loading, after, HandedSince(m'.trace, |m.trace|), 0, false, now);
      LandedKeepsQueue(loading, after, HandedSince(m'.trace, |m.trace|), 0, false, now);
    }
  }

  lemma LandedKeepsQueue(s: Session, after: Session, handed: seq<Event>, startS: int, first: bool, now: Time)
    requires s.HasCurrent() && s.state == Loading && Landed(s, after, handed, startS, first, now)
    ensures after.queue == s.queue
  {
    hide Landed;
    LandedStands(s, after, handed, startS, first, now);
  }

  /** Switching narration is always taken up, and keeps the song asked for by hand only while it is on; a song that is not playing is left to play as it is. */
  lemma NarrationIsTakenUp(w: World, m: Memory, s: Session, on: bool, now: Time)
    requires Live(w, s)
    ensures var r := Run(w, m, s, SetNarration(on), now);
      && r.error == None
      && r.session.narration == on && r.session.narrationForcedFor == (if on then s.Current().videoId else "")
      && (s.state != Playing ==>
            && r.memory == m
            && r.session == s.(narration := on, narrationForcedFor := r.session.narrationForcedFor, updatedAt := now))
  {
    hide NarrationSwitch, Apply, Reached, StandsAt, ReplaceQueue;
    var asked := WithNarration(s, on);
    SwitchReloadsOrStays(w, m, asked, now);
    var (switched, actions, m1) := NarrationSwitch(w, m, asked, now);
    CarryingOutReaches(w, m1, switched, actions, now);
    ReachedKeepsNarration(switched, Apply(w, m1, switched, actions, now).0, now);
    if s.state != Playing {
      NotPlayingIsLeft(w, m, asked, now);
    }
  }

  lemma ReachedKeepsNarration(s: Session, after: Session, now: Time)
    requires Reached(s, after, now)
    ensures after.narration == s.narration && after.narrationForcedFor == s.narrationForcedFor
  {
  }

  lemma NotPlayingIsLeft(w: World, m: Memory, s: Session, now: Time)
    requires s.state != Playing
    ensures NarrationSwitch(w, m, s, now) == (s, [], m) && Apply(w, m, s, [], now) == (s, m)
  {
  }

  /** Starting asks for one load, announced, from the position asked for or 0; taken, it is what the session stands on, with no song before it. */
  lemma StartOpens(w: World, m: Memory, sitting: Sitting, items: seq<Item>, start: int, startS: int, narration: bool, now: Time)
    requires 0 <= start < |items|
    ensures var (started, m') := Start(w, m, sitting, items, start, startS, narration, now);
      var handed := HandedSince(m'.trace, |m.trace|);
      && |handed| == 1 && handed[0].Handed?
      && handed[0].device == sitting.deviceId && handed[0].video == items[start].videoId
      && handed[0].startS == Max(startS, 0) && handed[0].first
      && (started.Some? <==> handed[0].Took())
      && (started.Some? ==>
            var s := started.value;
            && s.sitting == sitting && s.queue == items && s.currentIndex == start && s.version == 1
            && s.state == Loading && s.positionS == Max(startS, 0) && s.durationS == items[start].durationS
            && s.narration == narration && s.loadedNarrated == handed[0].narrated
            && s.loadedMediaKey == handed[0].answer.key && s.prevMediaKey == ""
            && s.loadingSince == now && s.lastSeenOK == now)
  {
    hide Attempt, HandedSince;
    var s := LoadAt(NewSession(sitting, items, narration, now), start, Max(startS, 0), true, now).0;
    OneAttempt(w, m, s, Max(startS, 0), true, now);
  }
}
