/**
 A cast session and the transitions that take it from song to song.

 Every function takes a session by value and returns a new one, as the Go
 package does (services/cast/internal/domain/session.go).
 */
module CastSession {
  import opened Wrappers

  // Seconds since Go's zero time, so that a field never set reads 0.
  type Time = int
  const ZERO_TIME: Time := 0

  datatype Kind = R1 | Google

  datatype State = Loading | Playing | Paused | Ended

  datatype EndedReason =
    | NotEnded
    | QueueFinished
    | Stopped
    | Replaced
    | TakenOver
    | StoppedOnDevice
    | DeviceOffline
    | HandedOff
    | Failed

  // The gateway's word on one form of a song's narrated sound, and on both.
  datatype Narrated = NarratedPreparing | NarratedReady | NarratedNone
  datatype NarratedAnswer = NarratedAnswer(file: Narrated, stream: Narrated)

  const VIETNAMESE := "vi"

  datatype Item = Item(videoId: string, title: string, channel: string, thumbnailUrl: string, durationS: int)

  // What Go's `item, _ := s.Current()` binds when there is no current item.
  const NO_ITEM := Item("", "", "", "", 0)

  // The part of a session that no transition touches, kept as one field.
  datatype Sitting = Sitting(
    id: string,
    deviceId: string,
    deviceName: string,
    kind: Kind,
    startedBy: string,
    createdAt: Time)

  datatype Session = Session(
    sitting: Sitting,
    queue: seq<Item>,
    currentIndex: int,
    state: State,
    endedReason: EndedReason,
    positionS: int,
    durationS: int,
    volume: int,
    narration: bool,
    loadedNarrated: bool,
    narrationForcedFor: string,
    loadedMediaKey: string,
    prevMediaKey: string,
    loadAcked: bool,
    loadingSince: Time,
    lastSeenOK: Time,
    lastProgressAt: Time,
    version: int,
    updatedAt: Time)
  {
    predicate HasCurrent() {
      0 <= currentIndex < |queue|
    }

    function Current(): Item {
      if HasCurrent() then queue[currentIndex] else NO_ITEM
    }

    /** The session once its load was taken: the keys move on by one, and the sound is noted. */
    function Loaded(mediaKey: string, narrated: bool): Session {
      this.(prevMediaKey := loadedMediaKey, loadedMediaKey := mediaKey, loadedNarrated := narrated)
    }
  }

  // What the engine must do after a decision.
  datatype Action =
    | Load(index: int, startS: int, first: bool)
    | StopDevice
    | RecordProgress(videoId: string, positionS: int, durationS: int)

  predicate NarratesSong(s: Session, videoId: string, spoken: string) {
    s.narration && (spoken != VIETNAMESE || s.narrationForcedFor == videoId)
  }

  function End(s: Session, reason: EndedReason, now: Time): Session {
    if s.state == Ended then s else s.(state := Ended, endedReason := reason, updatedAt := now)
  }

  function LoadAt(s: Session, index: int, startS: int, first: bool, now: Time): (Session, Action)
    requires 0 <= index < |s.queue|
  {
    (s.(currentIndex := index,
        state := Loading,
        loadingSince := now,
        loadAcked := false,
        positionS := startS,
        durationS := s.queue[index].durationS,
        lastProgressAt := ZERO_TIME,
        version := s.version + 1),
     Load(index, startS, first))
  }

  function Reload(s: Session, now: Time): (Session, Action)
    requires s.HasCurrent()
  {
    var (loading, load) := LoadAt(s, s.currentIndex, s.positionS, false, now);
    (loading.(version := s.version), load)
  }

  // An index below -1 would be an index out of range in Go as well.
  function Advance(s: Session, now: Time): (Session, seq<Action>)
    requires -1 <= s.currentIndex
  {
    if s.currentIndex + 1 >= |s.queue| then
      (End(s, QueueFinished, now), [StopDevice])
    else
      var (loading, load) := LoadAt(s, s.currentIndex + 1, 0, false, now);
      (loading, [load])
  }

  function SkipFailed(s: Session, now: Time): (Session, seq<Action>)
    requires -1 <= s.currentIndex
  {
    if s.currentIndex + 1 >= |s.queue| then
      (End(s, Failed, now), [])
    else
      Advance(s, now)
  }

  function Min(a: int, b: int): int { if a <= b then a else b }

  function Max(a: int, b: int): int { if a >= b then a else b }

  // Where Go's search loop stops: the first item for `videoId` from `from` on.
  function FirstAt(items: seq<Item>, videoId: string, from: nat): (at: Option<nat>)
    requires from <= |items|
    ensures at.Some? ==> from <= at.value < |items| && items[at.value].videoId == videoId
    ensures at.Some? ==> forall k :: from <= k < at.value ==> items[k].videoId != videoId
    ensures at.None? ==> forall k :: from <= k < |items| ==> items[k].videoId != videoId
    decreases |items| - from
  {
    if from == |items| then None
    else if items[from].videoId == videoId then Some(from)
    else FirstAt(items, videoId, from + 1)
  }

  function ReplaceQueue(s: Session, items: seq<Item>, currentIndex: int): (Session, bool) {
    var moved := s.(queue := items, version := s.version + 1);
    var clamped := Min(Max(currentIndex, 0), |items| - 1);
    var reload := (moved.(currentIndex := clamped, state := Loading), true);
    if !s.HasCurrent() then
      reload
    else if 0 <= currentIndex < |items| && items[currentIndex].videoId == s.Current().videoId then
      (moved.(currentIndex := currentIndex), false)
    else
      match FirstAt(items, s.Current().videoId, 0)
      case Some(i) => (moved.(currentIndex := i), false)
      case None => reload
  }

  /** Whether a queue still holds a video. */
  predicate Holds(items: seq<Item>, videoId: string) {
    exists k :: 0 <= k < |items| && items[k].videoId == videoId
  }

  /**
   Editing the queue asks for a load exactly when the current video is gone from
   it. Otherwise the same video stays current, and what the speaker is doing is
   not touched; either way the index is inside the new queue.
   */
  lemma EditKeepsTheSongPlaying(s: Session, items: seq<Item>, currentIndex: int)
    requires s.HasCurrent() && items != []
    ensures var (edited, reload) := ReplaceQueue(s, items, currentIndex);
      && reload == !Holds(items, s.Current().videoId)
      && edited.HasCurrent()
      && edited.queue == items
      && edited.version == s.version + 1
      && (!reload ==>
            && edited.Current().videoId == s.Current().videoId
            && edited == s.(queue := items, version := s.version + 1, currentIndex := edited.currentIndex))
      && (reload ==>
            edited == s.(queue := items, version := s.version + 1, state := Loading,
                         currentIndex := Min(Max(currentIndex, 0), |items| - 1)))
  {
    var _ := FirstAt(items, s.Current().videoId, 0);
    if 0 <= currentIndex < |items| && items[currentIndex].videoId == s.Current().videoId {
      assert Holds(items, s.Current().videoId);
    }
  }

  /** Go prefers the index the remote named when the song is there, and otherwise the first place it is found. */
  lemma EditLandsOnTheNamedIndexFirst(s: Session, items: seq<Item>, currentIndex: int)
    requires s.HasCurrent() && items != []
    ensures var edited := ReplaceQueue(s, items, currentIndex).0;
      var video := s.Current().videoId;
      if 0 <= currentIndex < |items| && items[currentIndex].videoId == video then
        edited.currentIndex == currentIndex
      else if Holds(items, video) then
        forall k :: 0 <= k < edited.currentIndex ==> items[k].videoId != video
      else
        edited.currentIndex == Min(Max(currentIndex, 0), |items| - 1)
  {
    EditKeepsTheSongPlaying(s, items, currentIndex);
  }
}
