# Casting, narration and eviction: a verified model

A Dafny model of three cores of a local YouTube service, and proofs about them.

**The cast session engine** (`services/cast`). A session is one sitting on one
speaker: a queue, a current item, a state (loading, playing, paused, ended), the
keys of what the speaker was handed, a version and several clocks. `CastSession`
and `CastReconcile` are its transitions on values, as the Go domain package has
them. `CastSteps` says what one tick and one command make of a stored session
and what they call out to; `CastEngine` is the engine with its maps, locks,
loops and store as classes, each method proved against those functions. The
world outside (speaker, gateway, catalogue, clock) is arbitrary: `CastWorld`
answers each call by how many were made before it, and says what other
goroutines have written into the engine's caches whenever their mutex is taken.
What is proved of runs is in `CastVersions`, `CastSpeaker`, `CastEndings`,
`CastLifetime`, `CastRates` and `CastNarration`, by induction over any sequence of
steps, each of which may have its save lost after its calls were made;
`CastLosses` and `CastForgets` are what that costs, with cases in `LossCases`.
`CastCaches` is about what a write into the caches can undo, `CacheRaces` about
goroutines looking, asking and writing there in any order, and `LateWrites` is a
case of what that comes to.
`Interleavings` is the engine as goroutines, one move at a time in any order,
and shows that storage always follows such a run. `SpeakerLog` and
`SpeakerHistory` are about the calls themselves: every interleaving's log is,
session by session, the calls of such a run, and speaker by speaker its history
writes name the song handed over last and a takeover is one but for one case.

**The batch translator** (`services/translate_server.py`, with
`scripts/narration-audit.py`). `Text`, `NumberedLines` and `RoundTrip` are the
printer of numbered lines, the tolerant parser written out as what its regular
expressions match, and the round trip; `Tolerance` is what an answer may have
around and in its lines and still read back. `Alignment` and `TranslateServer` are
the detectors of shifted answers and the endpoint with its fallback, and `Figures`
says character by character what the detectors find. `NarrationAudit`
compares the audit script with the server.

**The eviction sweep** (`services/catalog/internal/usecase/evict.go`).
`Eviction` is the loop over candidates with all its failure paths, over rows and
files.

## Where the code does not do what is said of it

Each of these is proved, with the condition under which the code does what is
meant and a case in which it does not, and the model follows the code.

- `StartSession` means to keep the start position only when the video asked for
  is the one that plays (comment at `engine.go:448-451`), but compares indices.
  `CastQueue.PositionFollowsTheVideoOnlyWhen` says when the two agree and
  `CastQueue.PositionOfAReplacedVideo` gives a queue for which they do not.
- A new session has no previous key, so a speaker that still names the song of
  the session it replaced has the new session ended as taken over:
  `CastEndings.StartIsTakenOverByTheSongItReplaced`, with the case
  `LossCases.StartOverAPlayingSong`.
- A step whose save fails has made its calls all the same, and a start that
  cannot be stored has loaded its song. History then goes to another song, a tick
  reads the speaker's own song as a takeover, a report or a reload is made again,
  and an answer is forgotten, exactly when the lemmas of `CastLosses` and
  `CastForgets` say, by what the lost step or start had done;
  `LossCases` has a case of each. Everything proved of runs is proved with saves
  lost, and asks that none be lost only where it must: attribution and no false
  takeover of those whose load was taken.
- A song's language is to be asked for once and remembered (`engine.go:264-265`),
  and Ready is to be final (`engine.go:298`). The mutex of the caches is not held
  while the gateway is asked, so a late "not known" can be written over a language
  learned meanwhile, and an older answer over Ready. `CacheRaces.OnlyOverlappingWritesUndo`,
  `CacheRaces.LanguageUndoneWhen` and `CacheRaces.FormUndoneOnlyByAnOlderAnswer`
  say when, `CacheRaces.LateAnswerUndoes` is a case, and in
  `LateWrites.ReloadedThreeTimes` a song is reloaded three times for it. The bound
  on reloads counts such writes (`CastNarration.ReloadsAtMostTwice`).
- A download whose row the catalogue does not take leaves its file behind
  (`services/ingest/internal/usecase/worker.go:358-360`), which is then neither
  counted nor swept: `Eviction.NoFileWithoutARow` has that as the only way, and
  `Eviction.FetchLeavesAFile` is the case.
- `narration-audit.py:24-25` says that a video it reports would be refused
  today. `NarrationAudit.ReportedIsRefusedWhen` is when that is so of every
  video, and by `NarrationAudit.GatewayCuts` it is not of one with more than three
  cues as the gateway cuts it (`services/gateway/internal/api/narration_manifest.go:62-63`);
  `NarrationAudit.ReportTheServerAccepts` gives one for any cut.
- The sweep is to delete until usage is back under the low watermark
  (`evict.go:63-65`), and counts only rows marked. `Eviction.CountedIsDeletedWhen`
  and `Eviction.CountedIsDeletedUnlessAMarkFails` are when the count is what was
  deleted, and by how much it falls short; `Eviction.AllThreeGo` is a case in which
  every file goes.

Some hypotheses are weaker than might be expected. The lifetime bound asks only
that the speaker was not last seen after the load was due to be given up; every
session reached meets that (`CastLifetime.LoadsAreRecent`). A tick whose save is
lost counts there as no tick, which loses nothing, since storage is where the
stored steps bring it (`CastSteps.LostStepsDropOut`). The narration bound asks
nothing of the gateway: one that takes Ready back, or names another language,
shows as writes that undo something, which are counted.

## Model

| member | source | states |
|---|---|---|
| `CastSession.FirstAt` | services/cast/internal/domain/session.go:254-259 | the search loop of `ReplaceQueue` stops at the first item for the video, or finds none when none is there |
| `CastSession.EditKeepsTheSongPlaying` | services/cast/internal/domain/session.go:242-264 | an edit asks for a load exactly when the current video is absent from the new queue; otherwise the same video stays current and state, position and keys are untouched; the index is inside the new queue either way, and the version goes up by one |
| `CastSession.EditLandsOnTheNamedIndexFirst` | services/cast/internal/domain/session.go:249-262 | where the current item lands: the index named when the song is there, else the first place it is found, else the index named, clamped |
| `CastReconcile.Decides` | services/cast/internal/domain/reconcile.go:84-153 | every answer falls in exactly one case (unanswered, foreign, given up, heard, waiting, idle with an error, finished, stopped) and each case fixes the session and the actions that come of it |
| `CastReconcile.EndsOnlyFor` | services/cast/internal/domain/reconcile.go:84-131 | an answer ends a session if and only if one of the named causes holds, and then with the one reason that belongs to that cause |
| `CastReconcile.MovesOnOnlyFor` | services/cast/internal/domain/reconcile.go:84-153 | an answer moves the queue on if and only if the song was given up while loading, or went idle failed or finished, and another song follows |
| `CastReconcile.MovesOnAfresh` | services/cast/internal/domain/reconcile.go:84-153 | a queue moved on is one item further, loading from 0, unacknowledged, with a new version, and the last action asks for that very item |
| `CastReconcile.FollowsTheSpeaker` | services/cast/internal/domain/reconcile.go:87-171 | a session that goes on is where the speaker says it is, one still loading changes in nothing but what the speaker has shown, and one unanswered within the time allowed not at all |
| `CastReconcile.ReconcileLeavesPending` | services/cast/internal/domain/reconcile.go:84-153 | whatever is decided, a load is the last thing asked for and is of the current item of a loading session |
| `CastReconcile.RecordsTheSongThatPlayed` | services/cast/internal/domain/reconcile.go:112-171 | a history write names the song current when the speaker answered: its whole length at its end, otherwise the speaker's own position and then only once ten seconds have passed |
| `CastReconcile.IdleMeans` | services/cast/internal/domain/reconcile.go:112-126 | a song that had started, on a speaker gone idle: FINISHED, or no reason within five seconds of the end, writes the whole length and loads the next song or finishes the queue; ERROR goes on unwritten; CANCELLED, INTERRUPTED and no reason earlier end the session as stopped on the device and write nothing |
| `CastReconcile.NamingMeans` | services/cast/internal/domain/reconcile.go:99-106 | a session ends as taken over, with nothing asked for, if and only if the speaker names a key that is not its own, nor, while it loads, the one before |
| `CastReconcile.LoadingMeans` | services/cast/internal/domain/reconcile.go:134-153 | a song still loading starts by its own key playing or paused; is given up by an idle speaker that had shown it, by an error, or after ninety seconds; and else is waited for, with its key seen loading remembered |
| `CastReconcile.PlayingMeans` | services/cast/internal/domain/reconcile.go:155-171 | a started song on a speaker that is not idle is where the speaker says, and is written down if and only if ten seconds have passed |
| `CastReconcile.SilenceMeans` | services/cast/internal/domain/reconcile.go:89-97 | no answer changes nothing for thirty seconds from the last one, and then ends the session as offline |
| `CastEngine.Repo.Save` | services/cast/internal/adapter/postgres/repo.go:95-116 | a session is written over exactly when its stored row has not ended; anything else leaves the store as it was and says so |
| `CastEngine.Repo.Create` | services/cast/internal/adapter/postgres/repo.go:69-93 | all or nothing: every live session of that speaker ends as replaced and the new one is stored, or the store is as it was |
| `CastEngine.Engine.DeviceLock` | services/cast/internal/usecase/engine.go:119-128 | the same mutex for a speaker for ever, a different one for every other speaker, and none forgotten |
| `CastEngine.Engine.AskSpokenLanguage` | services/cast/internal/usecase/engine.go:264-286 | the map, looked up and later written under a mutex that is not held while the gateway is asked, comes to `CastWorld.SpokenLanguage`: a known language stands, an empty one for fifteen seconds, and what other goroutines write lands before the look and before the write |
| `CastEngine.Engine.AskNarratedForm` | services/cast/internal/usecase/engine.go:288-314 | the same of `CastWorld.NarratedForm`: Ready is not asked again, and an unanswered question is Preparing and writes nothing |
| `CastEngine.Engine.SwitchNarration` | services/cast/internal/usecase/engine.go:204-230 | the branches come to `CastSteps.NarrationSwitch`, whose properties are those of CastNarration |
| `CastEngine.Engine.CarryOut` | services/cast/internal/usecase/engine.go:337-367 | the loop over a list that grows while it is walked ends, and leaves the session, caches and calls that the recursion over the queue does |
| `CastEngine.Engine.DoFollowNarration` | services/cast/internal/usecase/engine.go:188-202 | the reload, or else the question about the next song, as `CastSteps.FollowNarration` |
| `CastEngine.Engine.TickOn` | services/cast/internal/usecase/engine.go:178-186 | status, decision, actions, narration and the stamp, in this order, come to `CastSteps.Tick` |
| `CastEngine.Engine.Follow` | services/cast/internal/usecase/engine.go:168-186 | storage after a tick: the tick's outcome when the session was found live and the save went through, otherwise untouched |
| `CastEngine.Engine.DecideOn` | services/cast/internal/usecase/engine.go:556-695 | each command's function against `CastSteps.Decide`, of which CastCommands says command by command what it orders, changes and refuses |
| `CastEngine.Engine.Perform` | services/cast/internal/usecase/engine.go:518-550 | storage, caches, calls and error after a command; a refused command stores nothing |
| `CastEngine.Engine.QueueFor` | services/cast/internal/usecase/engine.go:468-508 | a broadcast at the index asked for is always refused; otherwise the items are exactly the videos that are neither broadcasts nor unavailable, in order, and the start is the first of them at or after that index, or else the last; with none of them the queue is refused as empty; each language the catalogue knew is written, others writing in between |
| `CastEngine.Engine.StartOn` | services/cast/internal/usecase/engine.go:442-466 | refused by the speaker: nothing stored; not stored: the speaker is stopped again; else stored with what it replaces ended |
| `CastEngine.Engine.StartSession` | services/cast/internal/usecase/engine.go:425-466 | a speaker unknown or offline, or a queue that cannot be played, is refused with its own error before the speaker hears anything or anything is stored; otherwise the session opens on the kept queue, at the position asked for only when start and index are equal, as `StartedAs` has it: not taken, stopped again when it cannot be stored, or stored |
| `CastEngine.Engine.ReplaceQueueOf` | services/cast/internal/usecase/engine.go:636-658 | the queue is described first, and refused with its own error; then it is edited under the version check; each way it can fail leaves storage as it was |
| `CastSteps.SwitchReloadsOrStays` | services/cast/internal/usecase/engine.go:211-230 | the switch reloads a song that is playing, from where it is, or leaves the session alone |
| `CastSteps.DecisionIsPending` | services/cast/internal/usecase/engine.go:520-695 | every command leaves a current item and a load, if any, last and of that item; an error leaves the session as it was |
| `CastSteps.LostStepsDropOut` | services/cast/internal/usecase/engine.go:369-374 | storage after any run, whatever saves are lost, is where the steps that were stored bring it by themselves |
| `CastApply.LandsOnTheFirstSongTaken` | services/cast/internal/usecase/engine.go:337-367 | the loads asked for are consecutive songs from the current one on, only the first announced and at the position asked; all before the last were refused; the last was taken, with the keys shifted once, or was the end of the queue and the session failed |
| `CastApply.CarryingOutReaches` | services/cast/internal/usecase/engine.go:337-367 | carrying out leaves the session alone, or takes it to some item at or after its own, one version for every song passed |
| `CastApply.ReconcileLoadsOnlyWhenMoving` | services/cast/internal/domain/reconcile.go:84-153 | an answer asks for a load if and only if it moves the queue on |
| `CastCommands.RefusedIsAsItWas` | services/cast/internal/usecase/engine.go:543-546 | a refused command stores nothing, loads nothing and writes nothing to history |
| `CastCommands.RefusedWhen` | services/cast/internal/usecase/engine.go:556-658 | exactly when each command is refused, and with which error |
| `CastCommands.RefusedUnasked` | services/cast/internal/usecase/engine.go:518-541 | an ended session, and one on a speaker with no driver, refuse every command with their own error before anything is called |
| `CastCommands.StopAlwaysEnds` | services/cast/internal/usecase/engine.go:587-596 | stop ends the session as stopped, with one order, whether or not the speaker hears |
| `CastCommands.HandoffLeavesThePlace` | services/cast/internal/usecase/engine.go:678-695 | handoff ends the session, stops the speaker and writes to history the video and position it hands over, and does nothing else |
| `CastCommands.PauseAndResumeOrder` | services/cast/internal/usecase/engine.go:556-578 | pause makes one call, the order to pause, and resume one, the order to resume, heard or not; heard, a playing session is paused or a paused one plays, and unheard nothing changes |
| `CastCommands.SeekAndVolumeOrder` | services/cast/internal/usecase/engine.go:598-621 | a seek and a volume are one order each, heard or not, with the position inside the song when its length is known and the volume in 0 to 100; heard, the session has the value sent |
| `CastCommands.OrdersStayInside` | services/cast/internal/usecase/engine.go:598-621 | the seek stored is the seek sent, inside the song when its length is known; the volume stored is the volume sent, in 0 to 100; a value already inside is kept |
| `CastCommands.ResumeUndoesPause` | services/cast/internal/usecase/engine.go:556-578 | pause and resume are inverse on a playing session and leave a loading one loading |
| `CastCommands.JumpComesTo` | services/cast/internal/usecase/engine.go:626-634 | the first load is of the song jumped to, from 0; taken, the session stands there one version on; otherwise at a later song |
| `CastCommands.NextComesTo` | services/cast/internal/usecase/engine.go:580-585 | next is a jump to the following song, or finishes the queue and stops the speaker |
| `CastCommands.EditComesTo` | services/cast/internal/usecase/engine.go:647-657 | an accepted edit that still holds the current video calls nobody and changes queue, index and version alone; one that does not hands the speaker the item named, clamped, from 0, two versions on |
| `CastCommands.NarrationIsTakenUp` | services/cast/internal/usecase/engine.go:663-676 | the switch is always stored, with the song it was made on only when switched on; a session not playing is changed in nothing else and nobody is asked |
| `CastCommands.StartOpens` | services/cast/internal/usecase/engine.go:442-458 | one announced load of the start item from the position asked for, or 0 when that is negative; taken, the session stands on exactly that load, with no previous key |
| `CastLosses.StepTakes` | services/cast/internal/usecase/engine.go:337-367 | a load taken is the last thing a step does: its session is then waiting on that load |
| `CastLosses.HeardAfter` | services/cast/internal/usecase/engine.go:369-374 | what the speaker plays after a step, stored or not, is the song the step left current, or the one before if it ended |
| `CastLosses.UnsavedLoadIsWrittenForAnother` | services/cast/internal/usecase/engine.go:369-374 | after a step whose save failed, a handoff of what is stored writes history for the song the speaker plays if and only if the lost step did not leave the session live on another video |
| `CastLosses.UnsavedLoadReadsAsTakeover` | services/cast/internal/usecase/engine.go:369-374 | after a step whose save failed, a tick that names the load taken last ends the session as taken over if and only if the lost step left the session live on another load, other than the one before that a loading session still puts up with |
| `CastLosses.FailedCreateIsWrittenForAnother` | services/cast/internal/usecase/engine.go:454-462 | after a start on its speaker that could not be stored, a live session writes history for the song the speaker was last handed if and only if the start was not taken or was of the same video |
| `LossCases.LostNextIsWrittenForAnother` | services/cast/internal/usecase/engine.go:580-585 | whenever "next" is taken by the speaker and its save lost, the speaker plays the next song and the handoff of what is stored writes for the one before |
| `LossCases.LostNextReadsAsTakeover` | services/cast/internal/usecase/engine.go:580-585 | and a tick that hears it ends the session as taken over, when its key is none the session knows |
| `LossCases.PlayingA` | services/cast/internal/usecase/engine.go:580-585 | a session on the first of two songs, a speaker and a "next" of which that is so |
| `LossCases.StartOverAPlayingSong` | services/cast/internal/usecase/engine.go:442-466 | two sessions on one speaker: the second replaces the first, and its first tick, still hearing the first one's song, ends it as taken over |
| `LossCases.FailedStartIsWrittenForAnother` | services/cast/internal/usecase/engine.go:454-462 | "b" is started over "a", taken and not stored: a handoff of "a" then writes history for "a" while "b" is what the speaker was handed |
| `LossCases.LostReportIsMadeTwice` | services/cast/internal/domain/reconcile.go:155-171 | a report that is due and not stored is made again within ten seconds |
| `LossCases.LostAnswerEndsPlayingA` | services/cast/internal/domain/reconcile.go:89-97 | a session answered at 138 whose save was lost, last answered before at 110, ends as offline when a tick from 141 on is not answered |
| `LossCases.LostReloadIsMadeTwice` | services/cast/internal/usecase/engine.go:192-230 | a song that sounds narrated with narration off is reloaded by the lost tick and by the next one that hears it |
| `LossCases.HearsA` | services/cast/internal/domain/reconcile.go:84-171 | a session and ticks of which these three are so |
| `CastForgets.ReportIsMadeAgainWhenLost` | services/cast/internal/domain/reconcile.go:155-171 | within ten seconds of a report, a tick that hears the song reports again if and only if the first report was not stored |
| `CastForgets.LostAnswerIsForgotten` | services/cast/internal/domain/reconcile.go:89-97 | within thirty seconds of an answer that was not stored, an unanswered tick ends the session as offline if and only if the answer stored before it is older than that; had it been stored, it would not |
| `CastForgets.LostReloadIsMadeAgain` | services/cast/internal/usecase/engine.go:192-230 | a narration reload that was not stored is made again by the next tick that finds the song playing if and only if that tick finds the song plain, covered and ready, or narrated and not covered or without a narrated form |
| `CastForgets.StandingReloadIsMadeAgain` | services/cast/internal/usecase/engine.go:192-230 | and it is made again whenever the language is known or does not matter, the caches of the lost decision have the song wanted otherwise than it sounds, and no write since has undone what they had |
| `CastQueue.KeptInOrder` | services/cast/internal/usecase/engine.go:480-500 | filtering loses no kept video and reorders none |
| `CastQueue.AllKeptWhenAsMany` | services/cast/internal/usecase/engine.go:480-500 | the kept queue is as long as the list asked for if and only if nothing was left out |
| `CastQueue.QueueIsWhatCanBePlayed` | services/cast/internal/usecase/engine.go:478-508 | flag by flag: the queue is the videos that are neither live nor unavailable, each once and in order, and starts at the first of them from the index asked for |
| `CastQueue.NothingToPlayWhen` | services/cast/internal/usecase/engine.go:501-503 | the queue is empty if and only if every video is live or unavailable |
| `CastQueue.SeededKnows` | services/cast/internal/usecase/engine.go:489-495 | a video that can be played and whose language the catalogue names has that language remembered, the last of its entries counting |
| `CastQueue.SeededLeaves` | services/cast/internal/usecase/engine.go:489-495 | of any other video nothing is remembered or forgotten |
| `CastQueue.StartIsUnique` | services/cast/internal/usecase/engine.go:496-507 | the start is determined: no two places meet its description |
| `CastQueue.PositionIsKeptWhen` | services/cast/internal/usecase/engine.go:447-451 | the position is kept if and only if everything before the index asked for was kept and something from it on was |
| `CastQueue.PositionFollowsTheVideoOnlyWhen` | services/cast/internal/usecase/engine.go:447-451 | exactly when the comparison of indices agrees with what its comment is after (position kept if and only if the video asked for is the one that plays) |
| `CastQueue.PositionOfAReplacedVideo` | services/cast/internal/usecase/engine.go:447-451 | a queue for which it does not: of three videos the second is unavailable and asked for, and the third starts at its position |
| `CastVersions.StepMoved` | services/cast/internal/domain/session.go:201-264 | a step keeps or raises the version, and keeps queue and index whenever it keeps the version, narration reloads included |
| `CastVersions.VersionsNameOneQueue` | services/cast/internal/domain/session.go:167-169 | over every run, with saves lost or not, the version never falls, and equal versions mean equal queue and current index |
| `CastVersions.AcceptedEditIsOfTheQueueRead` | services/cast/internal/usecase/engine.go:636-658 | an edit accepted by the version check is of exactly the queue and current index the remote read, however many steps lie between, and replaces them if its save goes through |
| `CastVersions.EditAccepted` | services/cast/internal/usecase/engine.go:647-657 | an edit goes through if and only if the session is live, has a driver and stands at the version named |
| `CastSpeaker.StepTracks` | services/cast/internal/usecase/engine.go:337-367 | one step keeps session and speaker in agreement: the current video is that of the last load taken, and the two keys are the last two taken |
| `CastSpeaker.StartTracks` | services/cast/internal/usecase/engine.go:442-466 | a session just started agrees with its speaker |
| `CastSpeaker.HistoryNamesTheSongHanded` | services/cast/internal/domain/reconcile.go:112-171 | over every run of ticks and commands in which no load taken is lost with its save, every history write (periodic, at a song's end, at handoff) names the video the speaker had last been handed for this session |
| `CastEndings.TickEndsAs` | services/cast/internal/usecase/engine.go:182-185 | for every reason but failed, a tick ends a session for it if and only if the answer does |
| `CastEndings.EndedIsFinal` | services/cast/internal/domain/session.go:191-198 | an ended session keeps everything, its first reason included, through any step, and the step calls nobody |
| `CastEndings.StepOrdersItsSpeaker` | services/cast/internal/usecase/engine.go:337-367 | no step orders a speaker other than its own session's |
| `CastEndings.TakenOverOnlyByAForeignKey` | services/cast/internal/domain/reconcile.go:99-106 | a step takes a session for somebody else's if and only if it is a tick answered with a foreign key |
| `CastEndings.AForeignKeyIsSentNothing` | services/cast/internal/domain/reconcile.go:102-106 | that tick sends the speaker nothing after the question, and nobody else either |
| `CastEndings.NoFalseTakeover` | services/cast/internal/domain/reconcile.go:99-106 | with a speaker that names its last song, none, or the one before until it first names the last, and no load taken lost with its save, no run of ticks and commands ends as taken over |
| `CastEndings.StartIsTakenOverByTheSongItReplaced` | services/cast/internal/usecase/engine.go:442-458 | the previous key of a new session is empty: its first tick ends it as taken over if and only if the speaker names any key but the new one, so also when it still names the song of the session replaced |
| `CastEndings.StepSeen` | services/cast/internal/domain/reconcile.go:89-97 | the speaker was last seen at the last tick it answered, and nothing else moves that time |
| `CastEndings.OfflineOnlyAfterSilence` | services/cast/internal/domain/reconcile.go:89-97 | over runs with saves lost or not, a step ends a session as offline if and only if it is an unanswered tick and no tick that was stored was answered, nor the session created, within the last thirty seconds |
| `CastLifetime.LoadsAreRecent` | services/cast/internal/domain/session.go:201-211 | under a clock that does not go back, every session reached meets the hypothesis of the bound below |
| `CastLifetime.WaitsWithinItsDeadline` | services/cast/internal/domain/reconcile.go:84-153 | what every tick of a run as below finds: the session over, or waiting on a load within its own deadline |
| `CastLifetime.EndsByItsDeadline` | services/cast/internal/domain/reconcile.go:74-153 | left to stored ticks at most g apart, the first no later than g after its wait should be over, a session whose speaker never shows a song started has ended by a tick no later than loading-since + songs left * (load timeout + offline limit + g) |
| `CastRates.StepMarks` | services/cast/internal/domain/reconcile.go:155-171 | with no load, a step moves the progress marker only by a report, and then by ten seconds or more |
| `CastRates.ReportsAreApart` | services/cast/internal/domain/reconcile.go:155-171 | two reports, the first of them stored, with no load stored between them are at least ten seconds apart, whatever other saves are lost |
| `CastRates.ReportsSpan` | services/cast/internal/domain/reconcile.go:155-171 | N reports, all but the last stored, with no load among them span at least (N - 1) * 10 seconds |
| `CastCaches.WriteKeepsWhen` | services/cast/internal/usecase/engine.go:282-284 | a write into the caches keeps what is known of a song if and only if it does not put another answer or none over a known language, nor a lesser answer over Ready |
| `CastCaches.WordsKeepWhen` | services/cast/internal/usecase/engine.go:264-314 | all the writes that land between two uses of the caches keep it, one after another, if and only if none of them undoes anything |
| `CastCaches.LanguageSpends` | services/cast/internal/usecase/engine.go:264-286 | the language answered is what the cache has afterwards, whoever wrote last; and what was known before is still known unless a write on the way undid it |
| `CastCaches.LanguageIsAskedFor` | services/cast/internal/usecase/engine.go:250-286 | with nobody else writing, a known language is not asked for again, "not known" not for fifteen seconds, and otherwise the gateway is asked once and its answer written |
| `CastCaches.FormIsAskedFor` | services/cast/internal/usecase/engine.go:291-321 | an R1 goes by the file and a Google speaker by the stream: Ready in its own form is not asked again, any other is, and the answer is what the gateway says of that form; an ask not answered is "preparing" and writes nothing |
| `CastCaches.OffAsksNothing` | services/cast/internal/usecase/engine.go:236-243 | with narration off, or nobody to ask, nothing is asked |
| `CastNarration.LoadLands` | services/cast/internal/usecase/engine.go:341-353 | the load that lands hands the song over narrated if and only if it was covered by the language known when that was looked up, and is known to be ready in the end |
| `CastNarration.SwitchesWhen` | services/cast/internal/usecase/engine.go:204-230 | a playing song is reloaded if and only if it sounds plain and is to be narrated with its form ready, or sounds narrated and is not to be or has no narrated form; a gateway that cannot say yet changes nothing |
| `CastNarration.QuestionsAreOfTheSong` | services/cast/internal/usecase/engine.go:211-236 | a load asks about its own song from where it starts, and the switch about the song playing from where it is |
| `CastNarration.NextSongIsAskedFor` | services/cast/internal/usecase/engine.go:192-202 | a song left playing narrated has the next one asked for, from its start, if and only if that is covered and not known to be ready; otherwise nothing is asked |
| `CastNarration.StepTurns` | services/cast/internal/usecase/engine.go:188-230 | each narration reload uses up one of the at most three turns a current song has, and a step gives back at most two for every write in the course of it that undoes something known of the song |
| `CastNarration.ReloadsAtMostTwice` | services/cast/internal/usecase/engine.go:192-314 | in one process, with goroutines of other speakers writing into the caches at any time and a gateway that may answer anything, the narration reloads stored while one song stays current and narration is not switched by hand are at most two, and two for every write that undid something known of the song; three where the song was handed over narrated without this process knowing it to be ready |
| `CastNarration.StartInProcess` | services/cast/internal/usecase/engine.go:442-458 | a session started by this process has its song handed over narrated only if the process knows it to be ready |
| `CastNarration.StepInProcess` | services/cast/internal/usecase/engine.go:168-366 | every tick and command keeps that, a change of song and a switch by hand included, stored or lost, unless a write undoes what is known of the current song |
| `CastNarration.AlwaysInProcess` | services/cast/internal/usecase/engine.go:168-366 | so it holds all through a run |
| `CastNarration.ReloadKeepsItsPlace` | services/cast/internal/domain/session.go:213-221 | a reload happens only to a playing song and is one load of it from where it is; taken, it keeps version, queue, index and position; refused, the song is skipped |
| `CacheRaces.OnlyOverlappingWritesUndo` | services/cast/internal/usecase/engine.go:264-314 | for goroutines looking, asking and writing in any order, and a gateway whose Ready is final: a write undoes something only if another write about the same thing has landed since its look |
| `CacheRaces.LanguageUndoneWhen` | services/cast/internal/usecase/engine.go:264-286 | where a song has one language, a language is undone if and only if a "not known" is written over it, and a queue described by the catalogue undoes nothing |
| `CacheRaces.FormUndoneOnlyByAnOlderAnswer` | services/cast/internal/usecase/engine.go:288-314 | with Ready final, an answer takes Ready back only when it is older than the answer it replaces |
| `CacheRaces.LateAnswerUndoes` | services/cast/internal/usecase/engine.go:264-286 | two goroutines ask for one language at once, and the second, not answered in time, undoes what the first wrote |
| `CacheRaces.AUseIsSpokenLanguage` | services/cast/internal/usecase/engine.go:264-286 | in any order of moves, what a goroutine gets and leaves by looking, asking and writing is `SpokenLanguage` in the world in which just the others' writes land |
| `CacheRaces.AUseIsNarratedForm` | services/cast/internal/usecase/engine.go:288-314 | the same of `NarratedForm` |
| `LateWrites.ReloadedThreeTimes` | services/cast/internal/usecase/engine.go:188-286 | a session playing plain, its song found ready, then found to be in Vietnamese, then "not known" written over that: three reloads are stored while the song stays current and nobody switches narration |
| `LateWrites.TicksAreAnsweredLate` | services/cast/internal/usecase/engine.go:188-286 | three ticks of one process of which that is so |
| `Interleavings.AlwaysOk` | services/cast/internal/usecase/engine.go:146-186 | every machine reached by any interleaving of ticks, commands and starts keeps the invariant of locks, reads, stored sessions and lives |
| `Interleavings.ReadIsWhatIsStored` | services/cast/internal/usecase/engine.go:518-550 | a goroutine that holds a speaker's lock with a session read finds storage still holding exactly that session, live, until its own save, and is the only one |
| `Interleavings.NoUpdateIsLost` | services/cast/internal/usecase/engine.go:369-378 | a save replaces the very session its step was decided on by what the step makes of it, and nothing else |
| `Interleavings.OrdersAreSentUnderTheLock` | services/cast/internal/usecase/engine.go:89-94 | every call goes out from the one holder of its speaker's lock, and for a stored session only while that session is live in storage |
| `Interleavings.OneLiveSessionToASpeaker` | services/cast/internal/usecase/engine.go:18-26 | in every store reached no two live sessions share a speaker |
| `Interleavings.InterleavingsAreRuns` | services/cast/internal/usecase/engine.go:89-94 | session by session every interleaving is a sequential run of whole steps, so what is proved of runs holds of storage |
| `Interleavings.EndedForEver` | services/cast/internal/usecase/engine.go:18-20 | a session ended in storage is stored exactly so ever after |
| `Interleavings.StoredVersionsNameOneQueue` | services/cast/internal/usecase/engine.go:636-658 | versions name one queue and index in storage, whoever wrote in between |
| `SpeakerLog.LogIsWhatLivesSay` | services/cast/internal/usecase/engine.go:89-94 | in every interleaving, whatever saves are lost, the calls made about a session are those of its opening and of its steps one after another, and of the step in hand as far as they have gone out |
| `SpeakerLog.StepStandsAt` | services/cast/internal/usecase/engine.go:337-367 | where each step's calls stand in its session's part of the log |
| `SpeakerLog.ReportsOnTheLogAreApart` | services/cast/internal/domain/reconcile.go:155-171 | two reports that stand in a session's part of the log with no load stored between them, the first stored, were decided at least ten seconds apart |
| `SpeakerHistory.HistoryOnTheLogNamesTheSongHanded` | services/cast/internal/usecase/engine.go:337-379 | in every interleaving in which no load that a speaker took is lost, with a save or with a start that could not be stored, every history write made under its lock names the video it was last handed by anybody |
| `SpeakerHistory.TakenOverOnlyWhileOpening` | services/cast/internal/domain/reconcile.go:99-106 | in every such interleaving, with a speaker that names only what its own log says it took, a tick ends a session as taken over if and only if the session still has no previous key and the speaker names another load, and then the session still waits on its opening load and the speaker names the load before it |
| `Text.DecimalReadsBack` | services/translate_server.py:81-88 | a line number printed in decimal reads back as itself |
| `RoundTrip.OneLineIsFound` | services/translate_server.py:109-121 | the parser finds the first printed line whole, with its number and its text from the first character that is not white space, and goes on at the next line |
| `NumberedLines.AlignedIffExactCover` | services/translate_server.py:124-135 | comparing lengths and looking every number up together accept exactly the answers numbered 1 to n, and then return them in order |
| `RoundTrip.LinesAreFound` | services/translate_server.py:71-121 | every line printed is found again, in order, with its number and its text |
| `RoundTrip.BudgetIsDropped` | services/translate_server.py:91-104 | a printed budget is stripped again, and nothing of a cue without one |
| `RoundTrip.PrintedCuesReadBack` | services/translate_server.py:71-135 | for any number of plain cues and any slots, printing, parsing and aligning give back exactly the stripped cues |
| `Tolerance.LeadIsSkipped` | services/translate_server.py:109-121 | a blank line, or one whose first character that is not white space is no digit, reads as if it had not been written, wherever it stands |
| `Tolerance.NumberedLinesAreFound` | services/translate_server.py:119 | of any answer the numbered lines are found, all of them and in order, with "." or ")" after the number and any white space before it and after the mark, and nothing else is |
| `Tolerance.LastCounts` | services/translate_server.py:118-121 | of two lines with one number the last counts |
| `Tolerance.ReasoningIsLeftOut` | services/translate_server.py:117 | a reasoning block is dropped, from its opening tag to the first closing one, whatever stands around it |
| `Tolerance.NoReasoningIsKept` | services/translate_server.py:117 | without an opening tag, or without a closing one, everything is kept |
| `Tolerance.AnyBudgetIsDropped` | services/translate_server.py:100-104 | a duration in brackets at the front of a line is dropped, however its fraction, unit and spaces are written |
| `Tolerance.OnlyABudgetIsDropped` | services/translate_server.py:100-104 | a line that does not open with one loses only the white space around it |
| `Tolerance.AnswerIsReadThrough` | services/translate_server.py:109-135 | an answer whose numbers are those of the cues and whose last line for each number says its cue reads back the cues, whatever lead-ins, order, repeats, marks, spacing and reasoning it has |
| `Tolerance.PrintedCuesReadBackAmongLeads` | services/translate_server.py:71-135 | the round trip with lead-ins before, between and after the printed lines |
| `Tolerance.BlankTextIsEmpty` | services/translate_server.py:118-121 | a number with only white space to the end of the answer reads as an empty line, or as no line at all exactly when that white space is line breaks alone |
| `Tolerance.StripIs` | services/translate_server.py:104 | stripping takes the white space at both ends, all of it and nothing else |
| `Figures.SlotIsRounded` | services/translate_server.py:78-89 | a slot is printed to the nearest tenth of a second, the even one from half-way |
| `Alignment.FirstIsEnough` | services/translate_server.py:268-279 | remembering only the first occurrence decides the same repeats as comparing all pairs |
| `Figures.DigitRunsAreAll` | services/translate_server.py:196-198 | the runs of digits found are exactly those in the text that go on no further either way |
| `Figures.WordsAreAll` | services/translate_server.py:208 | and so are the words |
| `Figures.WordCountsFor` | services/translate_server.py:178-211 | a word counts for the number it names, with any plural ending, and for no other |
| `Figures.UnitsAre` | services/translate_server.py:178-193 | the units are worth their place, as `Figures.TeensAre`, `TensAre` and `MonthsAre` have the others |
| `Figures.NoOtherWords` | services/translate_server.py:178-193 | no other word is a number |
| `Figures.NumbersAreThoseSaid` | services/translate_server.py:201-212 | the numbers of a text are those it says in digits standing by themselves or in such a word, of either case |
| `Figures.BelongsWhen` | services/translate_server.py:215-289 | lines belong to their cues if and only if no two are alike but for case and space for cues that differ, none is longer than 24 characters and 2.4 times its cue, and none has a figure that the next cue says and its own does not, not even as part of one |
| `TranslateServer.BuildBody` | services/translate_server.py:71-89 | the loop prints one line for every cue, with its number, the budget of its slot when it has one, and the cue: the body of which the round trip is proved |
| `TranslateServer.ParseNumbered` | services/translate_server.py:109-121 | the loop builds the map of which the round trip and `Tolerance` are proved |
| `TranslateServer.CollectNumbers` | services/translate_server.py:201-212 | exactly the numbers written in digits or as words, plurals included |
| `TranslateServer.BorrowedNumber` | services/translate_server.py:215-251 | the first line with a figure of the next cue that is neither this cue's nor part of one of its figures, and all those figures; none if and only if there is no such line |
| `TranslateServer.RepeatedLine` | services/translate_server.py:268-279 | the one pass reports nothing if and only if no two lines are equal, blank ones apart, for different cues; what it reports is a repeat with the first line like it, the earliest to complete one |
| `TranslateServer.MergedLine` | services/translate_server.py:281-287 | the first line more than 24 + 2.4 times as long as its cue, if and only if there is one |
| `TranslateServer.Misaligned` | services/translate_server.py:254-289 | lines are accepted if and only if no repeat, no merge and no borrowed figure is among them, and the first kind that applies is the one reported |
| `TranslateServer.ContextFor` | services/translate_server.py:158-174 | the last real lines before cue i, in order: the caller's context and then the batch's own cues, three of them or as many as there are |
| `TranslateServer.OmnirouteBatch` | services/translate_server.py:324-381 | one question at most, with the printed body; lines come of it if and only if the answer is numbered exactly 1 to n and, for more than one cue, the lines belong to the cues, and then they are its lines in order |
| `TranslateServer.TranslateBatch` | services/translate_server.py:467-510 | exactly one line for every cue; there is no fallback if and only if the first answer is numbered 1 to n and its lines belong to the cues, and then those are the lines; in the fallback each cue is asked for alone, with its own context and its own slot, and its line is the first and only one of the answer to it, or empty |
| `NarrationAudit.Suspect` | scripts/narration-audit.py:57-77 | the first pair within a window of fifteen that shares a long line for different cues; none if and only if there is no such pair |
| `NarrationAudit.WindowIs` | scripts/narration-audit.py:45-77 | the window is the fourteen cues after one, and the lines those of forty characters or more |
| `NarrationAudit.Borrowed` | scripts/narration-audit.py:80-94 | reports if and only if the server's own detector finds a borrowed figure, names the first line that holds one, and quotes the first sixty characters of that line |
| `NarrationAudit.SharedIsRepeated` | scripts/narration-audit.py:57-77 | whatever the audit calls shared the server calls repeated |
| `NarrationAudit.AcceptedBatchesAreNotReported` | scripts/narration-audit.py:24-29 | a batch the server accepts gives the audit nothing to report |
| `NarrationAudit.ReportsCrossCuts` | scripts/narration-audit.py:24-29 | when the server took every batch of a video, whatever the audit reports of it, a shared line or a borrowed figure, lies across a cut |
| `NarrationAudit.ReportedIsRefusedWhen` | scripts/narration-audit.py:24-29 | every reported video is one of which the server refuses a batch, if and only if no cut separates two cues the audit compares |
| `NarrationAudit.GatewayCuts` | services/gateway/internal/api/narration_manifest.go:407-443 | the gateway cuts after the third cue and then after every fifteenth; with its cut the claim holds of videos of at most three cues, and of no longer ones |
| `NarrationAudit.ReportTheServerAccepts` | scripts/narration-audit.py:24-29 | wherever a video is cut there is one, with no blank cue or line and no two cues alike, that the audit reports and the server takes batch by batch |
| `Eviction.Evictor.SweepOnce` | services/catalog/internal/usecase/evict.go:63-114 | the loop with its breaks and continues comes to `Eviction.SweepFrom`; at or under the high watermark, or with a question unanswered, nothing is touched |
| `Eviction.Evictor.Remove` | services/catalog/internal/usecase/evict.go:89-95 | a file that is there goes or not as the disk has it; one that is not there is no failure |
| `Eviction.UsedWithout` | services/catalog/internal/adapter/postgres/repository.go:1155-1160 | used bytes are a sum over ready rows, whatever order they are taken in |
| `Eviction.UsedWithOneMore` | services/catalog/internal/adapter/postgres/repository.go:1155-1160 | a row that is ready adds its size to the used bytes, and one that is not adds nothing |
| `Eviction.SweepConserves` | services/catalog/internal/usecase/evict.go:80-113 | freed is the size of exactly the rows marked and what usage falls by; all other rows are as they were; usage was above the low watermark before the last row counted, and at the end it is at or under it or every candidate was tried; the files that go are those of candidates tried, whatever removals and marks fail |
| `Eviction.CountedAndDeleted` | services/catalog/internal/usecase/evict.go:89-111 | bytes deleted exceed bytes counted by those that could not be marked, less those marked whose file was gone before |
| `Eviction.CountedIsDeletedWhen` | services/catalog/internal/usecase/evict.go:63-66 | with every file there to begin with, bytes counted are bytes deleted if and only if no candidate whose file went has a row still saying ready; otherwise the shortfall is the size of those, and bounds what is deleted below the low watermark |
| `Eviction.CountedIsDeletedUnlessAMarkFails` | services/catalog/internal/usecase/evict.go:89-111 | by the guard: they are equal if and only if at no candidate tried does the mark fail after a file that was there has been removed |
| `Eviction.AllThreeGo` | services/catalog/internal/usecase/evict.go:107-110 | three files of which two are too many, and no mark taken: all three are deleted and nothing is counted |
| `Eviction.NoFileWithoutARow` | services/catalog/internal/usecase/evict.go:89-111 | over any run of sweeps, downloads, repairs and pins, each as one step and whatever fails in it, a file is the one named by the ready row of its own video, or was left by a download whose row the catalogue did not take |
| `Eviction.FetchedCounts` | services/catalog/internal/adapter/postgres/repository.go:659-669 | a download stored counts with the size reported, or with the one the row already had when none was, in place of what the row counted before |
| `Eviction.FetchLeavesAFile` | services/ingest/internal/usecase/worker.go:355-360 | such a download leaves a file that is not counted as used and that no listing of candidates names |
| `Eviction.GoneUntilFetched` | services/catalog/internal/usecase/evict.go:89-95 | a file once gone is gone until its video is fetched to that path again |
| `Eviction.FailedMarksAreMadeGood` | services/catalog/internal/usecase/evict.go:89-111 | a candidate whose mark failed is without its file; a later sweep that comes to it, the video not fetched meanwhile, evicts its row if its own mark goes through, whatever removals do |
| `Eviction.NothingUntilTheGapIsFilled` | services/catalog/internal/usecase/evict.go:63-73 | once a sweep of a run has reached the low watermark, no later sweep changes anything while the bytes come to count since are at most high - low |

## Left out

- Clock readings: one per tick or command. The Go code reads the clock again for each skipped load, each narration question and the save; what depends on that difference is not captured.
- Integers are unbounded; Go's width of versions, positions and sizes is not modelled.
- `deviceLock`'s own mutex: each use of its map is one step. The caches' mutex: what is done while it is held is one step.
- CastSpeaker.HistoryNamesTheSongHanded: is about the loads of one session, and `SpeakerHistory.HistoryOnTheLogNamesTheSongHanded` about those of everybody on a speaker; both ask that no load taken is lost, and `CastLosses` has what one that is does.
- CastRates.ReportsSpan: is about reports with no load among them, because a load sets the marker back and the next report comes at once.
- CastNarration.ReloadsAtMostTwice: counts the reloads that are stored; one that is lost is made again (`CastForgets.StandingReloadIsMadeAgain`), so with saves that go on failing there is no bound.
- CacheRaces.OnlyOverlappingWritesUndo: takes the gateway's answers in the order in which they were asked for.
- SpeakerLog.ReportsOnTheLogAreApart: takes the clock readings of one session's steps not to go back, as the wall clock might.
- CastEngine.Engine.StartSession: the device lookup (`Devices`, `findDevice`) is a parameter, as are the catalogue's answer and the new id.
- CastEngine.Engine.Perform: a store that fails to read and a session that is not there are one error, and no driver for a speaker is one error value.
- The fan-out of `Tick` over active sessions, its wait group and its ticker: in `Interleavings` any goroutine may pick up any stored session at any time, which allows more.
- Several processes over one database, and the database's own unique index and isolation: the store is one map with the contract of `Repo`.
- `NarrationStatus` and the other reads a remote's display makes.
- Round trip and detectors are over ASCII: digits, white space, letters and case folding beyond it are not modelled.
- Slots are real numbers, so neither infinite nor not-a-number, and the tenths printed are rounded to even as Python does at an exact half; the binary rounding of a float before that is not captured. The ratio 2.4 is 24 tenths.
- Regular expressions are written as recursive functions of what they match, not as an engine with backtracking.
- Prompt wording, the HTTP call with its retry, the response's JSON shape, `resolve_config`, and the wording of refusals: a call answers with some content or fails.
- In the sweep: the deletion of `audio.m4a` and the narrated mixes beside a file, the ticker, and the order of candidates, which is taken as given. A sweep, a download's end and a repair are each one step, so a pin or a fetch between a sweep's listing and its marks is outside; removing a file that is not there fails in no other way.
- A download that moves a ready video's file to another path, and files put into the media directory by hand.
- In the audit: reading captions and transcripts from disk, cleaning and ordering them, deleting, and the wording of its reports. In the gateway's cut: a pass that begins part way, and cues already translated, which are not sent again.
- The web client, generated code, `castbridge.py`, the catalogue's other operations and service wiring hold no protocol of their own and would only add easy members.
