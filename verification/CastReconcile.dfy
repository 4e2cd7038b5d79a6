/**
 What a session becomes once its speaker has answered, or has failed to
 (services/cast/internal/domain/reconcile.go).
 */
module CastReconcile {
  import opened Wrappers
  import opened CastSession

  datatype DeviceState = DeviceIdle | DeviceLoading | DevicePlaying | DevicePaused

  datatype IdleReason = IdleNone | IdleFinished | IdleCancelled | IdleInterrupted | IdleError

  datatype DeviceStatus = DeviceStatus(
    state: DeviceState,
    mediaKey: string,
    positionS: int,
    durationS: int,
    volume: int,
    idleReason: IdleReason)

  const OFFLINE_AFTER := 30
  const LOAD_TIMEOUT := 90
  const END_SLACK := 5
  const PROGRESS_EVERY := 10

  // A status call that failed is None.
  function Reconcile(s: Session, answer: Option<DeviceStatus>, now: Time): (Session, seq<Action>)
    requires -1 <= s.currentIndex
  {
    if s.state == Ended then (s, [])
    else if answer.None? then
      if now - s.lastSeenOK > OFFLINE_AFTER then (End(s, DeviceOffline, now), []) else (s, [])
    else
      var st := answer.value;
      var seen := s.(lastSeenOK := now, volume := st.volume);
      if Foreign(seen, st) then
        (End(seen, TakenOver, now), [])
      else if seen.state == Loading then
        ReconcileLoading(seen, st, Ours(seen, st), now)
      else if st.state == DeviceIdle then
        if st.idleReason == IdleError then
          SkipFailed(seen, now)
        else if Finished(seen, st) then
          var (advanced, actions) := Advance(seen, now);
          (advanced, [RecordProgress(seen.Current().videoId, seen.durationS, seen.durationS)] + actions)
        else
          (End(seen, StoppedOnDevice, now), [])
      else
        Follow(seen, st, now)
  }

  predicate Ours(s: Session, st: DeviceStatus) {
    st.mediaKey != "" && st.mediaKey == s.loadedMediaKey
  }

  // A loading session puts up with the key of the load before its own.
  predicate StillPrevious(s: Session, st: DeviceStatus) {
    s.state == Loading && st.mediaKey != "" && st.mediaKey == s.prevMediaKey
  }

  predicate Foreign(s: Session, st: DeviceStatus) {
    st.mediaKey != "" && !Ours(s, st) && !StillPrevious(s, st)
  }

  function ReconcileLoading(s: Session, st: DeviceStatus, ours: bool, now: Time): (Session, seq<Action>)
    requires -1 <= s.currentIndex
  {
    if ours && (st.state == DevicePlaying || st.state == DevicePaused) then
      Follow(s.(loadAcked := true, loadingSince := ZERO_TIME), st, now)
    else
      var acked := if ours && st.state == DeviceLoading then s.(loadAcked := true) else s;
      if st.state == DeviceIdle && (acked.loadAcked || st.idleReason == IdleError) then
        SkipFailed(acked, now)
      else if now - acked.loadingSince > LOAD_TIMEOUT then
        SkipFailed(acked, now)
      else
        (acked, [])
  }

  function Follow(s: Session, st: DeviceStatus, now: Time): (Session, seq<Action>) {
    var state := if st.state == DevicePaused then Paused else if st.state == DevicePlaying then Playing else s.state;
    var duration := if st.durationS > 0 then st.durationS else s.durationS;
    var followed := s.(state := state, positionS := st.positionS, durationS := duration);
    if now - followed.lastProgressAt < PROGRESS_EVERY then
      (followed, [])
    else
      (followed.(lastProgressAt := now),
       [RecordProgress(followed.Current().videoId, followed.positionS, followed.durationS)])
  }

  predicate Finished(s: Session, st: DeviceStatus) {
    if st.idleReason != IdleNone then
      st.idleReason == IdleFinished
    else
      s.durationS > 0 && s.positionS >= s.durationS - END_SLACK
  }

  /** A song still loading is given up when the speaker showed it and went idle, reported an error, or took too long. */
  predicate GivenUp(s: Session, st: DeviceStatus, now: Time) {
    && s.state == Loading
    && !(Ours(s, st) && st.state in {DevicePlaying, DevicePaused})
    && (|| (st.state == DeviceIdle && (s.loadAcked || st.idleReason == IdleError))
        || now - s.loadingSince > LOAD_TIMEOUT)
  }

  /** A song that had started is over: it failed, ran to its end, or was stopped. */
  predicate WentIdle(s: Session, st: DeviceStatus) {
    s.state in {Playing, Paused} && st.state == DeviceIdle
  }

  /** The speaker reports our song, started: the session takes its word for where it is. */
  predicate Heard(s: Session, st: DeviceStatus) {
    if s.state == Loading then Ours(s, st) && st.state in {DevicePlaying, DevicePaused}
    else !Foreign(s, st) && st.state != DeviceIdle
  }

  /** What hearing a speaker leaves alone: whose session it is, its queue, its narration and its keys. */
  ghost predicate SameAccount(s: Session, after: Session) {
    && after.sitting == s.sitting && after.queue == s.queue
    && after.narration == s.narration && after.narrationForcedFor == s.narrationForcedFor
    && after.loadedNarrated == s.loadedNarrated
    && after.loadedMediaKey == s.loadedMediaKey && after.prevMediaKey == s.prevMediaKey
  }

  /** A song left: for the next one, afresh and asked for, or, after the last, for an ended session. */
  ghost predicate Left(s: Session, after: Session, actions: seq<Action>, reason: EndedReason, now: Time)
    requires s.HasCurrent()
  {
    && SameAccount(s, after)
    && after.lastSeenOK == s.lastSeenOK && after.volume == s.volume
    && (if s.currentIndex + 1 == |s.queue| then
          && after.state == Ended && after.endedReason == reason
          && after.currentIndex == s.currentIndex && after.version == s.version
          && actions == if reason == Failed then [] else [StopDevice]
        else
          && after.state == Loading && after.currentIndex == s.currentIndex + 1
          && after.loadingSince == now && !after.loadAcked
          && after.positionS == 0 && after.durationS == s.queue[after.currentIndex].durationS
          && after.version == s.version + 1
          && after.lastProgressAt == ZERO_TIME
          && actions == [Load(after.currentIndex, 0, false)])
  }

  lemma AdvanceLeaves(s: Session, now: Time)
    requires s.HasCurrent() && s.state != Ended
    ensures Left(s, Advance(s, now).0, Advance(s, now).1, QueueFinished, now)
    ensures Left(s, SkipFailed(s, now).0, SkipFailed(s, now).1, Failed, now)
  {
  }

  /** A song gone on with: still the one it was, where the speaker says, and nothing but history is asked for. */
  ghost predicate GoesOn(s: Session, st: DeviceStatus, after: Session, actions: seq<Action>, now: Time) {
    && after == s.(positionS := st.positionS,
                   durationS := if st.durationS > 0 then st.durationS else s.durationS,
                   state := match st.state case DevicePaused => Paused case DevicePlaying => Playing case _ => s.state,
                   lastProgressAt := if now - s.lastProgressAt < PROGRESS_EVERY then s.lastProgressAt else now)
    && actions == if now - s.lastProgressAt < PROGRESS_EVERY then []
                  else [RecordProgress(s.Current().videoId, after.positionS, after.durationS)]
  }

  lemma FollowGoesOn(s: Session, st: DeviceStatus, now: Time)
    ensures GoesOn(s, st, Follow(s, st, now).0, Follow(s, st, now).1, now)
  {
  }

  /** What an answer makes of a session still loading: left, heard, or waiting on. */
  lemma LoadingDecides(s: Session, st: DeviceStatus, now: Time)
    requires s.HasCurrent() && s.state == Loading && !Foreign(s, st)
    ensures var (after, actions) := ReconcileLoading(s, st, Ours(s, st), now);
      if GivenUp(s, st, now) then Left(s, after, actions, Failed, now)
      else if Heard(s, st) then GoesOn(s.(loadAcked := true, loadingSince := ZERO_TIME), st, after, actions, now)
      else after == s.(loadAcked := s.loadAcked || (Ours(s, st) && st.state == DeviceLoading)) && actions == []
  {
    hide Follow, SkipFailed, Foreign, Ours;
    var ours := Ours(s, st);
    FollowGoesOn(s.(loadAcked := true, loadingSince := ZERO_TIME), st, now);
    AdvanceLeaves(if ours && st.state == DeviceLoading then s.(loadAcked := true) else s, now);
  }

  /** What an answer makes of a session: ended, left, heard, or still loading. */
  lemma Decides(s: Session, answer: Option<DeviceStatus>, now: Time)
    requires s.HasCurrent() && s.state != Ended
    ensures var (after, actions) := Reconcile(s, answer, now);
      if answer.None? then
        (after, actions) == (if now - s.lastSeenOK > OFFLINE_AFTER then End(s, DeviceOffline, now) else s, [])
      else
        var st := answer.value;
        var seen := s.(lastSeenOK := now, volume := st.volume);
        if Foreign(s, st) then (after, actions) == (End(seen, TakenOver, now), [])
        else if s.state == Loading then
          if GivenUp(s, st, now) then Left(seen, after, actions, Failed, now)
          else if Heard(s, st) then GoesOn(seen.(loadAcked := true, loadingSince := ZERO_TIME), st, after, actions, now)
          else after == seen.(loadAcked := s.loadAcked || (Ours(s, st) && st.state == DeviceLoading)) && actions == []
        else if WentIdle(s, st) then
          if st.idleReason == IdleError then Left(seen, after, actions, Failed, now)
          else if Finished(s, st) then
            && |actions| > 0 && actions[0] == RecordProgress(s.Current().videoId, s.durationS, s.durationS)
            && Left(seen, after, actions[1..], QueueFinished, now)
          else (after, actions) == (End(seen, StoppedOnDevice, now), [])
        else GoesOn(seen, st, after, actions, now)
  {
    hide Follow, SkipFailed, Advance, ReconcileLoading, End, Left, GoesOn;
    if answer.Some? {
      var st := answer.value;
      var seen := s.(lastSeenOK := now, volume := st.volume);
      AdvanceLeaves(seen, now);
      FollowGoesOn(seen, st, now);
      if s.state == Loading && !Foreign(s, st) {
        LoadingDecides(seen, st, now);
      } else {
        assert ([RecordProgress(s.Current().videoId, s.durationS, s.durationS)] + Advance(seen, now).1)[1..]
            == Advance(seen, now).1;
      }
    }
  }

  /**
   Why an answer ends a session, reason by reason, and that nothing else does.
   The reasons exclude one another, so a session is never ended for the wrong one.
   */
  lemma EndsOnlyFor(s: Session, answer: Option<DeviceStatus>, now: Time)
    requires s.HasCurrent() && s.state != Ended
    ensures var after := Reconcile(s, answer, now).0;
      var last := s.currentIndex + 1 == |s.queue|;
      after.state == Ended <==>
        if answer.None? then now - s.lastSeenOK > OFFLINE_AFTER
        else
          var st := answer.value;
          || Foreign(s, st)
          || (last && GivenUp(s, st, now))
          || (WentIdle(s, st) && (last || (st.idleReason != IdleError && !Finished(s, st))))
    ensures var after := Reconcile(s, answer, now).0;
      after.state == Ended ==>
        after.endedReason ==
          if answer.None? then DeviceOffline
          else
            var st := answer.value;
            if Foreign(s, st) then TakenOver
            else if s.state == Loading || st.idleReason == IdleError then Failed
            else if Finished(s, st) then QueueFinished
            else StoppedOnDevice
  {
    hide Reconcile;
    Decides(s, answer, now);
  }

  /** When an answer moves the queue on: one song further, from its start, and only for a song given up or over. */
  lemma MovesOnOnlyFor(s: Session, answer: Option<DeviceStatus>, now: Time)
    requires s.HasCurrent() && s.state != Ended
    ensures var (after, actions) := Reconcile(s, answer, now);
      after.currentIndex != s.currentIndex <==>
        && answer.Some?
        && !Foreign(s, answer.value)
        && s.currentIndex + 1 < |s.queue|
        && (GivenUp(s, answer.value, now)
            || (WentIdle(s, answer.value) && (answer.value.idleReason == IdleError || Finished(s, answer.value))))
  {
    hide Reconcile;
    Decides(s, answer, now);
  }

  /** A queue moved on starts its next song afresh, and asks for it to be loaded. */
  lemma MovesOnAfresh(s: Session, answer: Option<DeviceStatus>, now: Time)
    requires s.HasCurrent() && s.state != Ended
    ensures var (after, actions) := Reconcile(s, answer, now);
      after.currentIndex != s.currentIndex ==>
        && after.currentIndex == s.currentIndex + 1
        && after.state == Loading && after.loadingSince == now && !after.loadAcked
        && after.positionS == 0 && after.durationS == s.queue[after.currentIndex].durationS
        && after.version == s.version + 1
        && after.lastProgressAt == ZERO_TIME
        && actions != [] && actions[|actions| - 1] == Load(after.currentIndex, 0, false)
  {
    hide Reconcile;
    Decides(s, answer, now);
  }

  /** A session that goes on is where its speaker is, and one still loading is as it was but for what the speaker has shown. */
  lemma FollowsTheSpeaker(s: Session, answer: Option<DeviceStatus>, now: Time)
    requires s.HasCurrent() && s.state != Ended
    ensures answer.None? && now - s.lastSeenOK <= OFFLINE_AFTER ==> Reconcile(s, answer, now) == (s, [])
    ensures answer.Some? ==>
      var st, after := answer.value, Reconcile(s, answer, now).0;
      && after.lastSeenOK == now && after.volume == st.volume
      && (Heard(s, st) ==>
            && after.positionS == st.positionS && after.currentIndex == s.currentIndex && after.version == s.version
            && after.durationS == (if st.durationS > 0 then st.durationS else s.durationS)
            && after.state == (match st.state case DevicePaused => Paused case DevicePlaying => Playing case _ => s.state))
      && (s.state == Loading && !Heard(s, st) && !Foreign(s, st) && !GivenUp(s, st, now) ==>
            after == s.(lastSeenOK := now, volume := st.volume,
                        loadAcked := s.loadAcked || (Ours(s, st) && st.state == DeviceLoading)))
  {
    hide Reconcile;
    Decides(s, answer, now);
  }

  /**
   What a decision may ask for: a load is the last thing asked, and is of the
   session's own current item.
   */
  ghost predicate Pending(s: Session, actions: seq<Action>) {
    forall k :: 0 <= k < |actions| && actions[k].Load? ==>
      k == |actions| - 1 && s.HasCurrent() && s.state == Loading && actions[k].index == s.currentIndex
  }

  lemma ReconcileKeepsAccount(s: Session, answer: Option<DeviceStatus>, now: Time)
    requires s.HasCurrent()
    ensures var after := Reconcile(s, answer, now).0;
      SameAccount(s, after) && after.HasCurrent()
  {
    if s.state != Ended {
      hide Reconcile;
      Decides(s, answer, now);
    }
  }

  lemma ReconcileLeavesPending(s: Session, answer: Option<DeviceStatus>, now: Time)
    requires s.HasCurrent()
    ensures var (after, actions) := Reconcile(s, answer, now);
      Pending(after, actions)
  {
    if s.state != Ended {
      hide Reconcile;
      var (after, actions) := Reconcile(s, answer, now);
      Decides(s, answer, now);
      assert forall k :: 1 <= k < |actions| ==> actions[k] == actions[1..][k - 1];
    }
  }

  /**
   Listening is written for the song that was current when the speaker
   answered: at its end for its whole length, and while it plays with the
   speaker's own position.
   */
  lemma RecordsTheSongThatPlayed(s: Session, answer: Option<DeviceStatus>, now: Time)
    requires s.HasCurrent()
    ensures var (after, actions) := Reconcile(s, answer, now);
      forall k :: 0 <= k < |actions| && actions[k].RecordProgress? ==>
        && k == 0 && answer.Some? && s.state != Ended && !Foreign(s, answer.value)
        && actions[k].videoId == s.Current().videoId
        && (if WentIdle(s, answer.value) then
              Finished(s, answer.value) && actions[k].positionS == s.durationS == actions[k].durationS
            else
              && actions[k].positionS == answer.value.positionS == after.positionS
              && actions[k].durationS == after.durationS
              && after.lastProgressAt == now && now - s.lastProgressAt >= PROGRESS_EVERY)
  {
    if s.state != Ended {
      hide Reconcile;
      Decides(s, answer, now);
      var actions := Reconcile(s, answer, now).1;
      assert forall k :: 1 <= k < |actions| ==> actions[k] == actions[1..][k - 1];
    }
  }

  // ---- in the speaker's own words ----

  /** What a session goes on to once its song is over or was given up. */
  ghost predicate MovedOn(s: Session, after: Session, asked: seq<Action>, now: Time)
    requires s.HasCurrent() && s.currentIndex + 1 < |s.queue|
  {
    && after.state == Loading && after.currentIndex == s.currentIndex + 1 && after.queue == s.queue
    && after.positionS == 0 && after.loadingSince == now && after.version == s.version + 1
    && asked == [Load(s.currentIndex + 1, 0, false)]
  }

  /**
   A speaker gone idle under a song that had started. FINISHED is the song's end,
   and so is no reason at all within five seconds of it: its whole length is
   written, and the next song is loaded or the queue is over. ERROR leaves the
   song behind unwritten. Anything else, CANCELLED and INTERRUPTED among it, was
   somebody at the speaker: the session ends, and nothing is written.
   */
  lemma IdleMeans(s: Session, st: DeviceStatus, now: Time)
    requires s.HasCurrent() && s.state in {Playing, Paused}
    requires st.state == DeviceIdle && st.mediaKey in {"", s.loadedMediaKey}
    ensures var (after, actions) := Reconcile(s, Some(st), now);
      var last := s.currentIndex + 1 == |s.queue|;
      match st.idleReason
      case IdleFinished => SongEnded(s, after, actions, now)
      case IdleNone =>
        if s.durationS > 0 && s.positionS + 5 >= s.durationS then SongEnded(s, after, actions, now)
        else after.state == Ended && after.endedReason == StoppedOnDevice && actions == []
      case IdleError =>
        if last then after.state == Ended && after.endedReason == Failed && actions == []
        else MovedOn(s, after, actions, now)
      case IdleCancelled => after.state == Ended && after.endedReason == StoppedOnDevice && actions == []
      case IdleInterrupted => after.state == Ended && after.endedReason == StoppedOnDevice && actions == []
  {
    hide Reconcile;
    Decides(s, Some(st), now);
    var actions := Reconcile(s, Some(st), now).1;
    assert |actions| > 0 ==> actions == [actions[0]] + actions[1..];
  }

  /** The song ran to its end: written whole, and the next one loaded or the queue finished and the speaker stopped. */
  ghost predicate SongEnded(s: Session, after: Session, actions: seq<Action>, now: Time)
    requires s.HasCurrent()
  {
    && actions != [] && actions[0] == RecordProgress(s.queue[s.currentIndex].videoId, s.durationS, s.durationS)
    && if s.currentIndex + 1 == |s.queue| then
         after.state == Ended && after.endedReason == QueueFinished && actions[1..] == [StopDevice]
       else MovedOn(s, after, actions[1..], now)
  }

  /**
   A speaker that names a load neither the session's own nor, while it loads, the
   one before, is somebody else's: the session ends and nothing is asked for.
   One that names none is not.
   */
  lemma NamingMeans(s: Session, st: DeviceStatus, now: Time)
    requires s.HasCurrent() && s.state != Ended
    ensures var (after, actions) := Reconcile(s, Some(st), now);
      && (after.state == Ended && after.endedReason == TakenOver <==>
            st.mediaKey !in {"", s.loadedMediaKey} && !(s.state == Loading && st.mediaKey == s.prevMediaKey))
      && (after.state == Ended && after.endedReason == TakenOver ==> actions == [])
  {
    hide Reconcile;
    EndsOnlyFor(s, Some(st), now);
    Decides(s, Some(st), now);
  }

  /**
   A song still loading. Its own key on a speaker that plays or is paused is the
   song started; its own key on one that loads is remembered. A speaker that goes
   idle having shown it, or with an error, or ninety seconds without the song
   starting, gives it up unwritten.
   */
  lemma LoadingMeans(s: Session, st: DeviceStatus, now: Time)
    requires s.HasCurrent() && s.state == Loading && st.mediaKey in {"", s.loadedMediaKey, s.prevMediaKey}
    ensures var (after, actions) := Reconcile(s, Some(st), now);
      var ours := st.mediaKey != "" && st.mediaKey == s.loadedMediaKey;
      if ours && st.state in {DevicePlaying, DevicePaused} then
        && after.state == (if st.state == DevicePlaying then Playing else Paused)
        && after.loadAcked && after.currentIndex == s.currentIndex && after.positionS == st.positionS
      else if (st.state == DeviceIdle && (s.loadAcked || st.idleReason == IdleError)) || now - s.loadingSince > 90 then
        if s.currentIndex + 1 == |s.queue| then after.state == Ended && after.endedReason == Failed && actions == []
        else MovedOn(s, after, actions, now)
      else
        && after == s.(lastSeenOK := now, volume := st.volume, loadAcked := s.loadAcked || (ours && st.state == DeviceLoading))
        && actions == []
  {
    hide Reconcile;
    Decides(s, Some(st), now);
  }

  /** A song that has started, on a speaker that is not idle: where the speaker says, and written down once ten seconds have passed. */
  lemma PlayingMeans(s: Session, st: DeviceStatus, now: Time)
    requires s.HasCurrent() && s.state in {Playing, Paused}
    requires st.state != DeviceIdle && st.mediaKey in {"", s.loadedMediaKey}
    ensures var (after, actions) := Reconcile(s, Some(st), now);
      && after.state == (match st.state case DevicePlaying => Playing case DevicePaused => Paused case _ => s.state)
      && after.currentIndex == s.currentIndex && after.positionS == st.positionS
      && after.durationS == (if st.durationS > 0 then st.durationS else s.durationS)
      && (if now - s.lastProgressAt >= 10 then
            && after.lastProgressAt == now
            && actions == [RecordProgress(s.queue[s.currentIndex].videoId, st.positionS, after.durationS)]
          else after.lastProgressAt == s.lastProgressAt && actions == [])
  {
    hide Reconcile;
    Decides(s, Some(st), now);
  }

  /** A speaker that does not answer is waited for, and given up thirty seconds after its last answer. */
  lemma SilenceMeans(s: Session, now: Time)
    requires s.HasCurrent() && s.state != Ended
    ensures var (after, actions) := Reconcile(s, None, now);
      && actions == []
      && (if now - s.lastSeenOK > 30 then after.state == Ended && after.endedReason == DeviceOffline else after == s)
  {
    hide Reconcile;
    Decides(s, None, now);
  }
}
