/**
 The engine as it runs: its caches, its locks, the loops and the store it
 writes to (services/cast/internal/usecase/engine.go). Each method is proved
 against the function of CastSteps or CastQueue that says what it does.

 A method here is what one goroutine does while it holds its speaker's lock;
 goroutines against each other are in Interleavings.
 */
module CastEngine {
  import opened Wrappers
  import opened CastSession
  import opened CastReconcile
  import opened CastWorld
  import opened CastSteps
  import opened CastApply
  import opened CastQueue
  import opened CastStore

  // Only its identity matters: two goroutines exclude each other when they hold the same one.
  class DeviceMutex {
    constructor () { }
  }

  datatype Device = Device(id: string, name: string, kind: Kind, online: bool)

  // How many videos were asked for is all of them that the engine itself looks at.
  datatype StartRequest = StartRequest(userId: string, deviceId: string, asked: nat, startIndex: int, startPositionS: int, narration: bool)

  /** The catalogue answered, the one asked for is not a broadcast, and something can be played. */
  predicate Playable(req: StartRequest, answered: Option<seq<CatalogVideo>>) {
    req.asked > 0 && answered.Some? && !AsksForABroadcast(answered.value, req.startIndex) && KeptItems(answered.value) != []
  }

  /** Why a queue that cannot be played is refused. */
  function Unplayable(asked: nat, answered: Option<seq<CatalogVideo>>, startIndex: int): Error {
    if asked == 0 then ErrEmptyQueue
    else if answered.None? then ErrCatalog
    else if AsksForABroadcast(answered.value, startIndex) then ErrLive
    else ErrEmptyQueue
  }

  datatype SaveResult = Stored | RefusedEnded | Broken

  /** The sessions in storage. A call may fail to reach it, as `works` says. */
  class Repo {
    const works: nat -> bool
    var calls: nat
    var sessions: map<string, Session>

    constructor (works: nat -> bool)
      ensures this.works == works && calls == 0 && sessions == map[]
    {
      this.works := works;
      calls := 0;
      sessions := map[];
    }

    method Get(id: string) returns (s: Option<Session>)
      modifies this`calls
      ensures calls == old(calls) + 1
      ensures s == if works(old(calls)) && id in sessions then Some(sessions[id]) else None
    {
      s := if works(calls) && id in sessions then Some(sessions[id]) else None;
      calls := calls + 1;
    }

    /** Writes over a session that has not ended, and over nothing else. */
    method Save(s: Session) returns (r: SaveResult)
      modifies this
      ensures calls == old(calls) + 1
      ensures r == if !works(old(calls)) then Broken
                   else if Writable(old(sessions), s) then Stored
                   else RefusedEnded
      ensures r == Stored <==> works(old(calls)) && s.sitting.id in old(sessions) && old(sessions)[s.sitting.id].state != Ended
      ensures sessions == if r == Stored then old(sessions)[s.sitting.id := s] else old(sessions)
    {
      if !works(calls) {
        r := Broken;
      } else if Writable(sessions, s) {
        sessions := sessions[s.sitting.id := s];
        r := Stored;
      } else {
        r := RefusedEnded;
      }
      calls := calls + 1;
    }

    /** Ends whatever is still active on the speaker and stores the new session, or does neither. */
    method Create(s: Session, now: Time) returns (ok: bool)
      modifies this
      ensures calls == old(calls) + 1
      ensures ok == (works(old(calls)) && s.sitting.id !in old(sessions))
      ensures sessions == if ok then Created(old(sessions), s, now) else old(sessions)
    {
      ok := works(calls) && s.sitting.id !in sessions;
      if ok {
        sessions := Created(sessions, s, now);
      }
      calls := calls + 1;
    }
  }

  class Engine {
    const world: World
    const repo: Repo
    var locks: map<string, DeviceMutex>
    var narrated: map<string, NarratedAnswer>
    var spoken: map<string, SpokenAnswer>
    var trace: seq<Event>

    constructor (world: World, repo: Repo)
      ensures this.world == world && this.repo == repo
      ensures locks == map[] && Mem() == Memory(map[], map[], [])
    {
      this.world := world;
      this.repo := repo;
      locks, narrated, spoken, trace := map[], map[], map[], [];
    }

    function Mem(): Memory
      reads this
    {
      Memory(narrated, spoken, trace)
    }

    /** One mutex per speaker, the same one for ever, and never one of another speaker's. */
    method DeviceLock(deviceId: string) returns (l: DeviceMutex)
      requires forall a, b :: a in locks && b in locks && a != b ==> locks[a] != locks[b]
      modifies this`locks
      ensures deviceId in locks && locks[deviceId] == l
      ensures forall a :: a in old(locks) ==> a in locks && locks[a] == old(locks)[a]
      ensures locks.Keys == old(locks).Keys + {deviceId}
      ensures forall a, b :: a in locks && b in locks && a != b ==> locks[a] != locks[b]
    {
      if deviceId in locks {
        l := locks[deviceId];
      } else {
        l := new DeviceMutex();
        locks := locks[deviceId := l];
      }
    }

    // ---- calls across a boundary ----

    method DriverLoad(s: Session, startS: int, first: bool, wanted: bool) returns (answer: LoadAnswer)
      modifies this`trace
      ensures answer == world.load(|old(trace)|)
      ensures trace == old(trace) + [Handed(s.sitting.deviceId, s.Current().videoId, startS, first, wanted, answer)]
    {
      answer := world.load(|trace|);
      trace := trace + [Handed(s.sitting.deviceId, s.Current().videoId, startS, first, wanted, answer)];
    }

    method DriverOrder(s: Session, order: Order) returns (heard: bool)
      modifies this`trace
      ensures heard == world.hears(|old(trace)|)
      ensures trace == old(trace) + [Ordered(s.sitting.deviceId, order, heard)]
    {
      heard := world.hears(|trace|);
      trace := trace + [Ordered(s.sitting.deviceId, order, heard)];
    }

    // ---- the caches ----

    method Write(word: Word)
      modifies this`narrated, this`spoken, this`trace
      ensures Mem() == Remember(old(Mem()), word)
    {
      trace := trace + [Remembered(word, Known(Mem(), word))];
      match word {
        case Language(video, answer) => spoken := spoken[video := answer];
        case Form(video, answer) => narrated := narrated[video := answer];
      }
    }

    /** Takes the caches' mutex: other goroutines may have written since it was last held. */
    method EnterCaches()
      modifies this`narrated, this`spoken, this`trace
      ensures Mem() == Enter(world, old(Mem()))
    {
      var words := world.lands(|trace|);
      trace := trace + [Entered];
      ghost var entered := Mem();
      assert words[..0] == [];
      for i := 0 to |words|
        invariant Mem() == RememberAll(entered, words[..i])
      {
        assert words[..i + 1][..i] == words[..i];
        Write(words[i]);
      }
      assert words[..|words|] == words;
    }

    // ---- narration ----

    method AskSpokenLanguage(video: string, now: Time) returns (language: string)
      modifies this`narrated, this`spoken, this`trace
      ensures (language, Mem()) == SpokenLanguage(world, old(Mem()), video, now)
    {
      if !world.narrator {
        return "";
      }
      EnterCaches();
      if video in spoken && spoken[video].Stands(now) {
        return spoken[video].language;
      }
      language := world.language(|trace|, video);
      trace := trace + [AskedLanguage(video)];
      EnterCaches();
      Write(Language(video, SpokenAnswer(language, now + SPOKEN_RETRY)));
    }

    method AskNarratedForm(kind: Kind, video: string, fromS: int) returns (form: Narrated)
      modifies this`narrated, this`spoken, this`trace
      ensures (form, Mem()) == NarratedForm(world, old(Mem()), kind, video, fromS)
    {
      if !world.narrator {
        return NarratedPreparing;
      }
      EnterCaches();
      if video in narrated && FormFor(kind, narrated[video]) == NarratedReady {
        return NarratedReady;
      }
      var answer := world.prepare(|trace|, video);
      trace := trace + [AskedPrepare(video, fromS)];
      if answer.None? {
        return NarratedPreparing;
      }
      EnterCaches();
      Write(Form(video, answer.value));
      form := FormFor(kind, answer.value);
    }

    method AskCovers(s: Session, video: string, now: Time) returns (covers: bool)
      modifies this`narrated, this`spoken, this`trace
      ensures (covers, Mem()) == Covers(world, old(Mem()), s, video, now)
    {
      if !s.narration {
        return false;
      }
      var language := AskSpokenLanguage(video, now);
      covers := NarratesSong(s, video, language);
    }

    method AskWantsNarrated(s: Session, video: string, fromS: int, now: Time) returns (wants: bool)
      modifies this`narrated, this`spoken, this`trace
      ensures (wants, Mem()) == WantsNarrated(world, old(Mem()), s, video, fromS, now)
    {
      var covers := AskCovers(s, video, now);
      if !covers {
        return false;
      }
      var form := AskNarratedForm(s.sitting.kind, video, fromS);
      wants := form == NarratedReady;
    }

    method SwitchNarration(s: Session, now: Time) returns (switched: Session, reload: seq<Action>)
      modifies this`narrated, this`spoken, this`trace
      ensures (switched, reload, Mem()) == NarrationSwitch(world, old(Mem()), s, now)
    {
      if !s.HasCurrent() || s.state != Playing {
        return s, [];
      }
      var video := s.Current().videoId;
      var want := false;
      var covers := AskCovers(s, video, now);
      if covers {
        var form := AskNarratedForm(s.sitting.kind, video, s.positionS);
        match form {
          case NarratedReady => want := true;
          case NarratedPreparing => want := s.loadedNarrated;
          case NarratedNone =>
        }
      }
      if want == s.loadedNarrated {
        return s, [];
      }
      var (reloading, load) := Reload(s, now);
      return reloading, [load];
    }

    // ---- apply ----

    /** What is left of a work list comes to the same as the whole of it. */
    ghost predicate Remains(s0: Session, actions0: seq<Action>, m0: Memory, s: Session, actions: seq<Action>, i: nat, now: Time)
      requires Pending(s0, actions0) && i <= |actions| && Pending(s, actions[i..])
      reads this
    {
      Apply(world, Mem(), s, actions[i..], now) == Apply(world, m0, s0, actions0, now)
    }

    /** Asks whether the current song is to be narrated, and has the driver load it. */
    method HandOver(s: Session, startS: int, first: bool, now: Time) returns (answer: LoadAnswer, wanted: bool)
      requires s.HasCurrent()
      modifies this`narrated, this`spoken, this`trace
      ensures (Handed(s.sitting.deviceId, s.Current().videoId, startS, first, wanted, answer), Mem())
           == Attempt(world, old(Mem()), s, startS, first, now)
    {
      hide WantsNarrated;
      wanted := AskWantsNarrated(s, s.Current().videoId, startS, now);
      answer := DriverLoad(s, startS, first, wanted);
    }

    /** Walks the work list, which a refused load makes longer. */
    method CarryOut(s0: Session, actions0: seq<Action>, now: Time) returns (s: Session)
      requires Pending(s0, actions0)
      modifies this`narrated, this`spoken, this`trace
      ensures (s, Mem()) == Apply(world, old(Mem()), s0, actions0, now)
    {
      hide Apply, ApplyLoad, Attempt, SkipFailed, Pending;
      s := s0;
      var actions := actions0;
      var i := 0;
      assert actions[0..] == actions0;
      while i < |actions|
        invariant 0 <= i <= |actions|
        invariant Pending(s, actions[i..])
        invariant Remains(s0, actions0, old(Mem()), s, actions, i, now)
        decreases |s.queue| - s.currentIndex, |actions| - i
      {
        assert actions[i..][0] == actions[i] && actions[i..][1..] == actions[i + 1..];
        match actions[i] {
          case Load(index, startS, first) =>
            ApplyLoadFirst(world, Mem(), s, actions[i..], now);
            var answer, wanted := HandOver(s, startS, first, now);
            if answer.Refused? {
              var (skipped, more) := SkipFailed(s, now);
              assert (actions + more)[i + 1..] == more;
              s := skipped;
              actions := actions + more;
              i := i + 1;
              continue;
            }
            s := s.Loaded(answer.key, wanted);
            assert actions[i + 1..] == [];
            ApplyNothing(world, Mem(), s, now);
          case StopDevice =>
            ApplyCallFirst(world, Mem(), s, actions[i..], now);
            var _ := DriverOrder(s, StopOrder);
          case RecordProgress(video, positionS, durationS) =>
            ApplyCallFirst(world, Mem(), s, actions[i..], now);
            trace := trace + [Wrote(s.sitting.startedBy, video, positionS, durationS)];
        }
        i := i + 1;
      }
      assert actions[i..] == [];
      ApplyNothing(world, Mem(), s, now);
    }

    // ---- tick ----

    method DoFollowNarration(s: Session, now: Time) returns (followed: Session)
      requires s.HasCurrent()
      modifies this`narrated, this`spoken, this`trace
      ensures (followed, Mem()) == FollowNarration(world, old(Mem()), s, now)
    {
      hide NarrationSwitch, Covers, NarratedForm, Apply, Pending;
      var switched, reload := SwitchNarration(s, now);
      if reload != [] {
        followed := CarryOut(switched, reload, now);
        return;
      }
      if s.state == Playing && s.loadedNarrated && s.currentIndex + 1 < |s.queue| {
        var upNext := s.queue[s.currentIndex + 1].videoId;
        var covers := AskCovers(s, upNext, now);
        if covers {
          var _ := AskNarratedForm(s.sitting.kind, upNext, 0);
        }
      }
      return s;
    }

    /** A tick's own work, between reading a live session and saving it. */
    method TickOn(s: Session, now: Time) returns (next: Session)
      requires s.HasCurrent() && s.state != Ended && s.sitting.kind in world.drivers
      modifies this`narrated, this`spoken, this`trace
      ensures Outcome(next, Mem(), None) == Tick(world, old(Mem()), s, now)
    {
      var answer := world.status(|trace|);
      trace := trace + [AskedStatus(s.sitting.deviceId, answer)];
      var (decided, actions) := Reconcile(s, answer, now);
      ReconcileKeepsAccount(s, answer, now);
      ReconcileLeavesPending(s, answer, now);
      hide Reconcile, Apply, FollowNarration;
      next := CarryOut(decided, actions, now);
      next := DoFollowNarration(next, now);
      next := next.(updatedAt := now);
    }

    /** What a store holds after a session read from it has been worked on and saved by the store's `call`-th call. */
    ghost function StoredAfter(store: Store, outcome: Outcome, call: nat): Store {
      if outcome.error.None? && repo.works(call) then Saved(store, outcome.session) else store
    }

    /** Follows one session under its speaker's lock: reads it, works on it, saves it. */
    method Follow(id: string, now: Time)
      requires forall k :: k in repo.sessions ==> repo.sessions[k].HasCurrent() && repo.sessions[k].sitting.id == k
      modifies this`narrated, this`spoken, this`trace, repo
      ensures if repo.works(old(repo.calls)) && id in old(repo.sessions) then
                var outcome := Tick(world, old(Mem()), old(repo.sessions)[id], now);
                && Mem() == outcome.memory
                && repo.sessions == StoredAfter(old(repo.sessions), outcome, old(repo.calls) + 1)
              else
                Mem() == old(Mem()) && repo.sessions == old(repo.sessions)
    {
      hide Tick;
      var s := repo.Get(id);
      if s.Some? && (s.value.state == Ended || s.value.sitting.kind !in world.drivers) {
        TickLeavesAlone(world, Mem(), s.value, now);
      }
      if s.None? || s.value.state == Ended || s.value.sitting.kind !in world.drivers {
        return;
      }
      var next := TickOn(s.value, now);
      var _ := repo.Save(next);
    }

    // ---- commands ----

    method Order(s: Session, order: Order, obeyed: Session) returns (next: Session, error: Option<Error>)
      modifies this`trace
      ensures Decision(next, [], Mem(), error) == Direct(world, old(Mem()), s, order, obeyed)
    {
      var heard := DriverOrder(s, order);
      if heard {
        return obeyed, None;
      }
      return s, Some(ErrDeviceOffline);
    }

    method DecideOn(s: Session, command: Command, now: Time) returns (next: Session, actions: seq<Action>, error: Option<Error>)
      requires s.HasCurrent() && ValidCommand(command)
      modifies this`narrated, this`spoken, this`trace
      ensures Decision(next, actions, Mem(), error) == Decide(world, old(Mem()), s, command, now)
    {
      next, actions, error := s, [], None;
      match command {
        case Pause =>
          next, error := Order(s, PauseOrder, if s.state == Playing then s.(state := Paused) else s);
        case Resume =>
          next, error := Order(s, ResumeOrder, if s.state == Paused then s.(state := Playing) else s);
        case Next =>
          var (advanced, more) := Advance(s, now);
          next, actions := advanced, more;
        case Stop =>
          var _ := DriverOrder(s, StopOrder);
          next := End(s, Stopped, now);
        case Seek(positionS) =>
          var target := Max(positionS, 0);
          if s.durationS > 0 {
            target := Min(target, s.durationS);
          }
          next, error := Order(s, SeekOrder(target), s.(positionS := target));
        case SetVolume(percent) =>
          var target := Min(Max(percent, 0), 100);
          next, error := Order(s, VolumeOrder(target), s.(volume := target));
        case Jump(index) =>
          if index < 0 || index >= |s.queue| {
            error := Some(ErrBadIndex);
          } else {
            var (loading, load) := LoadAt(s, index, 0, false, now);
            next, actions := loading, [load];
          }
        case EditQueue(version, items, currentIndex) =>
          if s.version != version {
            error := Some(ErrStaleVersion);
          } else {
            var (edited, reload) := ReplaceQueue(s, items, currentIndex);
            next := edited;
            if reload {
              EditKeepsTheSongPlaying(s, items, currentIndex);
              var (loading, load) := LoadAt(edited, edited.currentIndex, 0, false, now);
              next, actions := loading, [load];
            }
          }
        case SetNarration(on) =>
          next, actions := SwitchNarration(WithNarration(s, on), now);
        case Handoff =>
          var _ := DriverOrder(s, StopOrder);
          next := End(s, HandedOff, now);
          actions := [RecordProgress(s.Current().videoId, s.positionS, s.durationS)];
      }
    }

    /** A command's own work on a live session. */
    method RunOn(s: Session, command: Command, now: Time) returns (next: Session, error: Option<Error>)
      requires s.HasCurrent() && ValidCommand(command)
      modifies this`narrated, this`spoken, this`trace
      ensures Outcome(next, Mem(), error) == Run(world, old(Mem()), s, command, now)
    {
      if s.state == Ended {
        return s, Some(ErrEnded);
      }
      if s.sitting.kind !in world.drivers {
        return s, Some(ErrNoDriver);
      }
      DecisionIsPending(world, Mem(), s, command, now);
      hide Decide, Apply, Pending, WantsNarrated;
      var actions;
      next, actions, error := DecideOn(s, command, now);
      if error.Some? {
        return s, error;
      }
      next := CarryOut(next, actions, now);
      next := next.(updatedAt := now);
    }

    /** Runs a command on a stored session under its speaker's lock. */
    method Perform(id: string, command: Command, now: Time) returns (error: Option<Error>)
      requires ValidCommand(command)
      requires forall k :: k in repo.sessions ==> repo.sessions[k].HasCurrent() && repo.sessions[k].sitting.id == k
      modifies this`narrated, this`spoken, this`trace, repo
      ensures if repo.works(old(repo.calls)) && id in old(repo.sessions) then
                var outcome := Run(world, old(Mem()), old(repo.sessions)[id], command, now);
                && Mem() == outcome.memory && error == outcome.error
                && repo.sessions == StoredAfter(old(repo.sessions), outcome, old(repo.calls) + 1)
              else
                Mem() == old(Mem()) && repo.sessions == old(repo.sessions) && error == Some(ErrNotFound)
    {
      var s := repo.Get(id);
      if s.None? {
        return Some(ErrNotFound);
      }
      var next;
      next, error := RunOn(s.value, command, now);
      if error.None? {
        var _ := repo.Save(next);
      }
    }

    // ---- queues ----

    /** Writes down the language the catalogue knows a video to be spoken in. */
    method Seed(v: CatalogVideo)
      modifies this`narrated, this`spoken, this`trace
      ensures Mem() == if v.spokenLanguage != "" then
                         Remember(Enter(world, old(Mem())), Language(v.item.videoId, SpokenAnswer(v.spokenLanguage, ZERO_TIME)))
                       else old(Mem())
    {
      if v.spokenLanguage != "" {
        EnterCaches();
        Write(Language(v.item.videoId, SpokenAnswer(v.spokenLanguage, ZERO_TIME)));
      }
    }

    /** The items to queue and the index to start from, or why there are none. */
    method QueueFor(asked: nat, answered: Option<seq<CatalogVideo>>, startIndex: int)
      returns (items: seq<Item>, start: int, error: Option<Error>)
      modifies this`narrated, this`spoken, this`trace
      ensures asked == 0 ==> error == Some(ErrEmptyQueue) && Mem() == old(Mem())
      ensures asked > 0 && answered.None? ==> error == Some(ErrCatalog) && Mem() == old(Mem())
      ensures asked > 0 && answered.Some? ==>
        var videos := answered.value;
        if AsksForABroadcast(videos, startIndex) then
          error == Some(ErrLive) && Mem() == Seeded(world, old(Mem()), videos[..startIndex])
        else
          && Mem() == Seeded(world, old(Mem()), videos)
          && (if KeptItems(videos) == [] then error == Some(ErrEmptyQueue)
              else error == None && items == KeptItems(videos) && StartsAt(videos, startIndex, start))
      ensures error == None ==>
        && asked > 0 && answered.Some?
        && exists places :: Queued(answered.value, items, places) && StartsFrom(places, startIndex, start)
      ensures error == Some(ErrEmptyQueue) && asked > 0 ==>
        && answered.Some?
        && forall p :: 0 <= p < |answered.value| ==> answered.value[p].live || answered.value[p].unavailable
    {
      hide Enter, Remember, NoneKeptFrom, Queued, StartsFrom;
      items, start, error := [], 0, None;
      NoneKeptYet(startIndex);
      if asked == 0 {
        error := Some(ErrEmptyQueue);
        return;
      }
      if answered.None? {
        error := Some(ErrCatalog);
        return;
      }
      var videos := answered.value;
      start := -1;
      ghost var landed := 0;
      assert videos[..0] == [];
      for i := 0 to |videos|
        invariant items == KeptItems(videos[..i])
        invariant Mem() == Seeded(world, old(Mem()), videos[..i])
        invariant forall q :: 0 <= q < i && q == startIndex ==> !videos[q].live
        invariant start == -1 ==> NoneKeptFrom(videos[..i], startIndex)
        invariant start != -1 ==>
          && FirstKeptFrom(videos, startIndex, landed) && landed < i
          && start == |KeptItems(videos[..landed])|
          && 0 <= start < |items| && items[start] == videos[landed].item
      {
        var v := videos[i];
        if v.live && i == startIndex {
          error := Some(ErrLive);
          return;
        }
        KeptGrows(videos, i);
        NoneKeptGrows(videos, i, startIndex);
        SeededGrows(world, old(Mem()), videos, i);
        if v.live || v.unavailable {
          continue;
        }
        Seed(v);
        if i >= startIndex && start < 0 {
          start := |items|;
          landed := i;
        }
        items := items + [v.item];
      }
      assert videos[..|videos|] == videos;
      NothingToPlayWhen(videos);
      if items == [] {
        error := Some(ErrEmptyQueue);
        return;
      }
      if start < 0 {
        start := |items| - 1;
      }
      QueueIsWhatCanBePlayed(videos, startIndex, start);
    }

    /** What starting comes to: refused by the speaker, not stored and stopped again, or stored. */
    ghost predicate StartedAs(loaded: Option<Session>, m: Memory, call: nat, store: Store,
                              sitting: Sitting, now: Time, started: Option<Session>, error: Option<Error>)
      reads this, repo
    {
      if loaded.None? then
        started == None && error == Some(ErrDeviceOffline) && Mem() == m && repo.sessions == store
      else if !repo.works(call) || sitting.id in store then
        && started == None && error == Some(ErrStore) && repo.sessions == store
        && Mem() == m.Log(Ordered(sitting.deviceId, StopOrder, world.hears(|m.trace|)))
      else
        started == loaded && error == None && Mem() == m && repo.sessions == Created(store, loaded.value, now)
    }

    /** The opening load and the write, under the speaker's lock. */
    method StartOn(sitting: Sitting, items: seq<Item>, start: int, startS: int, narration: bool, now: Time)
      returns (started: Option<Session>, error: Option<Error>)
      requires 0 <= start < |items|
      modifies this`narrated, this`spoken, this`trace, repo
      ensures var (loaded, m) := Start(world, old(Mem()), sitting, items, start, startS, narration, now);
        StartedAs(loaded, m, old(repo.calls), old(repo.sessions), sitting, now, started, error)
      ensures started.Some? ==> error == None && sitting.id in repo.sessions && repo.sessions[sitting.id] == started.value
      ensures error == Some(ErrStore) ==>
        && repo.sessions == old(repo.sessions)
        && trace != [] && trace[|trace| - 1].Ordered? && trace[|trace| - 1].order == StopOrder
        && trace[|trace| - 1].device == sitting.deviceId
    {
      hide Attempt;
      var s := LoadAt(NewSession(sitting, items, narration, now), start, Max(startS, 0), true, now).0;
      var answer, wanted := HandOver(s, Max(startS, 0), true, now);
      if answer.Refused? {
        return None, Some(ErrDeviceOffline);
      }
      s := s.Loaded(answer.key, wanted);
      var created := repo.Create(s, now);
      if !created {
        var _ := DriverOrder(s, StopOrder);
        return None, Some(ErrStore);
      }
      return Some(s), None;
    }

    /** Starts a session on a speaker, replacing the one on it. */
    method StartSession(req: StartRequest, device: Option<Device>, answered: Option<seq<CatalogVideo>>, id: string, now: Time)
      returns (started: Option<Session>, start: int, error: Option<Error>)
      modifies this`narrated, this`spoken, this`trace, repo
      ensures !(device.Some? && device.value.online && Playable(req, answered)) ==>
        started == None && error.Some? && Quiet(old(Mem()), Mem()) && repo.sessions == old(repo.sessions)
      ensures device.None? ==> error == Some(ErrNotFound) && Mem() == old(Mem())
      ensures device.Some? && !device.value.online ==> error == Some(ErrDeviceOffline) && Mem() == old(Mem())
      ensures device.Some? && device.value.online && !Playable(req, answered) ==>
        error == Some(Unplayable(req.asked, answered, req.startIndex))
      ensures device.Some? && device.value.online && Playable(req, answered) ==>
        && StartsAt(answered.value, req.startIndex, start)
        && 0 <= start < |KeptItems(answered.value)|
        && var sitting := Sitting(id, device.value.id, device.value.name, device.value.kind, req.userId, now);
           var (loaded, m) := Start(world, Seeded(world, old(Mem()), answered.value), sitting,
                                    KeptItems(answered.value), start,
                                    if start == req.startIndex then req.startPositionS else 0, req.narration, now);
           StartedAs(loaded, m, old(repo.calls), old(repo.sessions), sitting, now, started, error)
    {
      hide StartsAt, KeptItems, Seeded, Start, StartedAs;
      started, start := None, 0;
      if device.None? {
        error := Some(ErrNotFound);
        return;
      }
      if !device.value.online {
        error := Some(ErrDeviceOffline);
        return;
      }
      var items;
      items, start, error := QueueFor(req.asked, answered, req.startIndex);
      if error.Some? {
        return;
      }
      StartsInside(answered.value, req.startIndex, start);
      var startS := req.startPositionS;
      if start != req.startIndex {
        startS := 0;
      }
      var sitting := Sitting(id, device.value.id, device.value.name, device.value.kind, req.userId, now);
      started, error := StartOn(sitting, items, start, startS, req.narration, now);
    }

    /** Replaces the queue of a stored session, when the remote has seen its latest. */
    method ReplaceQueueOf(id: string, version: int, asked: nat, answered: Option<seq<CatalogVideo>>, currentIndex: int, now: Time)
      returns (error: Option<Error>)
      requires forall k :: k in repo.sessions ==> repo.sessions[k].HasCurrent() && repo.sessions[k].sitting.id == k
      modifies this`narrated, this`spoken, this`trace, repo
      ensures !(repo.works(old(repo.calls)) && id in old(repo.sessions)) ==>
        error == Some(ErrNotFound) && Mem() == old(Mem()) && repo.sessions == old(repo.sessions)
      ensures repo.works(old(repo.calls)) && id in old(repo.sessions) ==>
        if asked == 0 || answered.None? || AsksForABroadcast(answered.value, 0) || KeptItems(answered.value) == [] then
          error == Some(Unplayable(asked, answered, 0)) && repo.sessions == old(repo.sessions) && Quiet(old(Mem()), Mem())
        else if !repo.works(old(repo.calls) + 1) then
          error == Some(ErrNotFound) && repo.sessions == old(repo.sessions) && Quiet(old(Mem()), Mem())
        else
          var outcome := Run(world, Seeded(world, old(Mem()), answered.value), old(repo.sessions)[id],
                             EditQueue(version, KeptItems(answered.value), currentIndex), now);
          && Mem() == outcome.memory && error == outcome.error
          && repo.sessions == StoredAfter(old(repo.sessions), outcome, old(repo.calls) + 2)
    {
      hide Run;
      var s := repo.Get(id);
      if s.None? {
        return Some(ErrNotFound);
      }
      var items, _, refused := QueueFor(asked, answered, 0);
      if refused.Some? {
        return refused;
      }
      error := Perform(id, EditQueue(version, items, currentIndex), now);
    }
  }
}
