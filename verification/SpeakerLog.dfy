/**
 The calls that go out, over every interleaving: what each session's part of
 the log is, whose song the history writes in a speaker's log name, and how
 often they are made (services/cast/internal/usecase/engine.go:89-94, 337-367).
 */
module SpeakerLog {
  import opened Wrappers
  import opened CastSession
  import opened CastReconcile
  import opened CastWorld
  import opened CastSteps
  import opened CastStore
  import opened CastSpeaker
  import opened CastEndings
  import opened CastRates
  import opened Interleavings

  // ---- parts of the log ----

  /** The calls made about one session. */
  function Of(log: seq<Sent>, id: string): seq<Event> {
    if log == [] then []
    else
      var last := log[|log| - 1];
      Of(log[..|log| - 1], id) + (if last.id == id then [last.event] else [])
  }

  /** The calls made while one speaker's lock was held. */
  function To(log: seq<Sent>, device: string): seq<Event> {
    if log == [] then []
    else
      var last := log[|log| - 1];
      To(log[..|log| - 1], device) + (if last.device == device then [last.event] else [])
  }

  lemma OneMoreSent(log: seq<Sent>, sent: Sent)
    ensures forall id :: Of(log + [sent], id) == Of(log, id) + (if sent.id == id then [sent.event] else [])
    ensures forall device :: To(log + [sent], device) == To(log, device) + (if sent.device == device then [sent.event] else [])
  {
    assert (log + [sent])[..|log|] == log;
  }

  /** What the calls made say a speaker has been handed. */
  function Told(calls: seq<Event>): Speaker { HeardSince(UNHEARD, calls, 0) }

  // ---- lives and their calls ----

  /** The calls of the first `k` steps. */
  function CallsUpTo(s: Session, steps: seq<Step>, k: nat): seq<Event>
    requires s.HasCurrent() && ValidRun(steps) && k <= |steps|
  {
    if k == 0 then []
    else CallsUpTo(s, steps, k - 1) + Calls(steps[k - 1], At(s, steps, k - 1))
  }

  predicate Lives(life: Life) {
    life.first.HasCurrent() && ValidRun(life.steps)
  }

  /** Every call a life has made: those of its opening, and then step by step. */
  function Spoken(life: Life): seq<Event>
    requires Lives(life)
  {
    life.opening + CallsUpTo(life.first, life.steps, |life.steps|)
  }

  function Now(life: Life): Session
    requires Lives(life)
  {
    At(life.first, life.steps, |life.steps|)
  }

  lemma {:induction false} CallsOfALongerRun(s: Session, steps: seq<Step>, longer: seq<Step>, k: nat)
    requires s.HasCurrent() && ValidRun(steps) && ValidRun(longer) && steps <= longer && k <= |steps|
    ensures CallsUpTo(s, steps, k) == CallsUpTo(s, longer, k)
    decreases k
  {
    hide Calls, At;
    if k > 0 {
      CallsOfALongerRun(s, steps, longer, k - 1);
      AtOfALongerRun(s, steps, longer, k - 1);
    }
  }

  lemma SpokenThen(life: Life, step: Step)
    requires Lives(life) && ValidStep(step)
    ensures Lives(life.Then(step)) && Spoken(life.Then(step)) == Spoken(life) + Calls(step, Now(life))
  {
    hide Calls, At;
    var longer := life.steps + [step];
    CallsOfALongerRun(life.first, life.steps, longer, |life.steps|);
    AtOfALongerRun(life.first, life.steps, longer, |life.steps|);
  }

  /** A replaced session is called about no more. */
  lemma ReplacedIsSilent(step: Step, s: Session)
    requires s.HasCurrent() && step.op.ReplacedOp?
    ensures Calls(step, s) == []
  {
  }

  lemma CallsKeep(step: Step, s: Session, kept: bool)
    requires s.HasCurrent() && ValidStep(step)
    ensures Calls(step.(kept := kept), s) == Calls(step, s)
  {
    hide Do;
    KeptIsNoMatter(step, s, kept);
  }

  // ---- what each move does ----

  predicate InHand(m: Machine, t: Thread) {
    t in m.threads && m.threads[t].Busy? && m.threads[t].phase.Held?
  }

  function TaskOf(m: Machine, t: Thread): Task
    requires InHand(m, t)
  {
    m.threads[t].phase.task
  }

  predicate WorkingOn(m: Machine, t: Thread, id: string) {
    InHand(m, t) && TaskOf(m, t).Working? && m.threads[t].id == id
  }

  /** A goroutine with a new session's id in hand. */
  predicate Claiming(m: Machine, t: Thread, id: string) {
    InHand(m, t) && (TaskOf(m, t).Opening? || TaskOf(m, t).Stopping?) && m.threads[t].id == id
  }

  /** Moves that neither call nor take up or put down a task with calls. */
  predicate Idles(move: Move) {
    !move.Send? && !move.Work? && !move.Open? && !Writes(move) && !Notes(move) && !move.CreateFails?
  }

  lemma IdleDoes(a: Machine, move: Move, b: Machine)
    requires Interleavings.Next(a, move, b) && Idles(move)
    ensures b.log == a.log && b.ids == a.ids
    ensures InHand(a, move.t) ==> !TaskOf(a, move.t).Working?
    ensures InHand(b, move.t) ==> TaskOf(b, move.t).Fresh? || TaskOf(b, move.t).Reading? || TaskOf(b, move.t).Finished?
    ensures InHand(a, move.t) && TaskOf(a, move.t).Opening? ==> TaskOf(a, move.t).started.None?
  {
    hide Do, Start;
  }

  lemma SendDoes(a: Machine, move: Move, b: Machine)
    requires Interleavings.Next(a, move, b) && move.Send?
    ensures var t := move.t;
      && InHand(a, t) && (TaskOf(a, t).Working? || TaskOf(a, t).Opening? || TaskOf(a, t).Stopping?)
      && TaskOf(a, t).unsent != []
      && b.log == a.log + [Sent(t, a.threads[t].id, a.threads[t].device, TaskOf(a, t).unsent[0])]
      && b.ids == a.ids
      && InHand(b, t) && b.threads[t].id == a.threads[t].id && b.threads[t].device == a.threads[t].device
      && TaskOf(b, t) == TaskOf(a, t).(unsent := TaskOf(a, t).unsent[1..])
  {
    hide Do, Start;
  }

  lemma WorkDoes(a: Machine, move: Move, b: Machine)
    requires Interleavings.Next(a, move, b) && move.Work?
    ensures var t := move.t;
      && b.log == a.log && b.ids == a.ids
      && InHand(a, t) && TaskOf(a, t).Reading? && InHand(b, t)
      && var s := TaskOf(a, t).before;
      && s.HasCurrent() && ValidStep(move.step)
      && b.threads[t].id == a.threads[t].id && b.threads[t].device == a.threads[t].device
      && TaskOf(b, t) == Working(s, move.step, Calls(move.step, s))
  {
    hide Do, Start;
  }

  lemma OpenDoes(a: Machine, move: Move, b: Machine)
    requires Interleavings.Next(a, move, b) && move.Open?
    ensures var t := move.t;
      && b.log == a.log && b.ids == a.ids + {move.sitting.id} && move.sitting.id !in a.ids
      && InHand(a, t) && TaskOf(a, t).Fresh? && InHand(b, t)
      && b.threads[t].id == move.sitting.id && b.threads[t].device == a.threads[t].device == move.sitting.deviceId
      && var job := a.threads[t].job;
      && job.StartJob? && 0 <= job.start < |job.items|
      && var (started, m) := Start(move.via.world, move.via.memory, move.sitting, job.items, job.start, job.startS, job.narration, move.via.now);
         var calls := m.trace[|move.via.memory.trace|..];
         TaskOf(b, t) == Opening(started, move.via, calls, calls)
  {
    hide Do, Start;
  }

  lemma PutDownDoes(a: Machine, move: Move, b: Machine)
    requires Interleavings.Next(a, move, b) && (Writes(move) || Notes(move))
    ensures var t := move.t;
      && b.log == a.log && b.ids == a.ids
      && InHand(a, t) && InHand(b, t) && TaskOf(b, t).Finished?
      && (if move.CreateIt? then TaskOf(a, t).Opening? && TaskOf(a, t).unsent == [] && TaskOf(a, t).started.Some?
          else Worked(a.threads[t]))
      && b.threads[t].device == a.threads[t].device
  {
    hide Do, Start, Saved, Created, Succeeded;
  }

  lemma CreateFailsDoes(a: Machine, move: Move, b: Machine)
    requires Interleavings.Next(a, move, b) && move.CreateFails?
    ensures var t := move.t;
      && b.log == a.log && b.ids == a.ids
      && InHand(a, t) && TaskOf(a, t).Opening? && InHand(b, t) && TaskOf(b, t).Stopping?
      && b.threads[t].id == a.threads[t].id && b.threads[t].device == a.threads[t].device
  {
    hide Do, Start;
  }

  // ---- every call is accounted for ----

  /** What a start's calls are: one load of its song, last, and neither history nor a look at how the speaker stands. */
  ghost predicate Opens(started: Option<Session>, opening: seq<Event>) {
    && (forall k :: 0 <= k < |opening| ==> !opening[k].Wrote? && !opening[k].AskedStatus?)
    && (started.None? ==> NothingTaken(opening, 0))
    && (started.Some? ==> !NothingTaken(opening, 0) && Tracks(started.value, Told(opening)))
  }

  /** The calls made and still to be made about the session in hand are those of its life and of the step or start in hand. */
  ghost predicate TaskAccounted(m: Machine, t: Thread) {
    InHand(m, t) ==>
      var id := m.threads[t].id;
      match TaskOf(m, t)
      case Working(read, step, unsent) =>
        && id in m.lives && Lives(m.lives[id]) && read.HasCurrent() && ValidStep(step)
        && |unsent| <= |Calls(step, read)|
        && Of(m.log, id) + unsent == Spoken(m.lives[id]) + Calls(step, read)
      case Opening(started, _, opening, unsent) =>
        && id in m.ids && id !in m.lives
        && Of(m.log, id) + unsent == opening && Opens(started, opening)
      case Stopping(_) => id in m.ids && id !in m.lives
      case _ => true
  }

  /** The calls made about a session nobody has in hand are those of its life. */
  ghost predicate LifeAccounted(m: Machine, id: string) {
    && (id in m.lives ==>
          && id in m.ids && Lives(m.lives[id])
          && Tracks(m.lives[id].first, Told(m.lives[id].opening))
          && forall k :: 0 <= k < |m.lives[id].opening| ==> !m.lives[id].opening[k].Wrote?)
    && (id in m.lives && (forall t :: !WorkingOn(m, t, id)) ==> Of(m.log, id) == Spoken(m.lives[id]))
    && (id !in m.ids ==> Of(m.log, id) == [])
  }

  ghost predicate ClaimsApart(m: Machine) {
    forall t, t', id :: Claiming(m, t, id) && Claiming(m, t', id) ==> t == t'
  }

  ghost predicate Accounted(m: Machine) {
    && ClaimsApart(m)
    && (forall t :: TaskAccounted(m, t))
    && (forall id :: LifeAccounted(m, id))
  }

  lemma StartsAccounted(m: Machine)
    requires Starts(m)
    ensures Accounted(m)
  {
  }

  /** Nobody else works on the session of a goroutine that has its speaker's lock. */
  lemma OneWorker(m: Machine, t: Thread, t': Thread, id: string)
    requires Inv(m) && InHand(m, t) && WorkingOn(m, t', id) && m.threads[t].id == id
    requires TaskOf(m, t).Working? || TaskOf(m, t).Reading?
    ensures t == t'
  {
    hide LocksOk, OneEach, StoredOk, LifeOk;
    assert ThreadOk(m, t) && ThreadOk(m, t');
    OneHolder(m, t, t');
  }

  lemma OpensAsAStart(w: World, m: Memory, sitting: Sitting, items: seq<Item>, start: int, startS: int, narration: bool, now: Time)
    requires 0 <= start < |items|
    ensures var (started, m') := Start(w, m, sitting, items, start, startS, narration, now);
      Opens(started, m'.trace[|m.trace|..])
  {
    hide Start, HeardSince, Tracks, Attributed;
    var (started, m') := Start(w, m, sitting, items, start, startS, narration, now);
    var opening := m'.trace[|m.trace|..];
    StartAsksAndLoads(w, m, sitting, items, start, startS, narration, now);
    assert forall k :: 0 <= k < |opening| ==> opening[k] == m'.trace[|m.trace| + k];
    StartTracks(w, m, sitting, items, start, startS, narration, now);
    HeardOfTheRest(UNHEARD, m'.trace, |m.trace|);
  }

  lemma StartAsksAndLoads(w: World, m: Memory, sitting: Sitting, items: seq<Item>, start: int, startS: int, narration: bool, now: Time)
    requires 0 <= start < |items|
    ensures var (started, m') := Start(w, m, sitting, items, start, startS, narration, now);
      && |m.trace| < |m'.trace| && m.trace <= m'.trace
      && (forall k :: |m.trace| <= k < |m'.trace| - 1 ==> m'.trace[k].IsAside())
      && m'.trace[|m'.trace| - 1].Handed? && (m'.trace[|m'.trace| - 1].Took() <==> started.Some?)
  {
    hide Attempt;
  }

  // ---- hearing part of a log ----

  lemma {:induction false} HeardOfTheRest(sp: Speaker, trace: seq<Event>, from: nat)
    requires from <= |trace|
    ensures HeardSince(sp, trace, from) == HeardSince(sp, trace[from..], 0)
    decreases |trace|
  {
    if |trace| > from {
      var shorter := trace[..|trace| - 1];
      HeardOfTheRest(sp, shorter, from);
      assert trace[from..][..|trace| - from - 1] == shorter[from..];
    }
  }

  lemma {:induction false} HeardInTurn(sp: Speaker, a: seq<Event>, b: seq<Event>)
    ensures HeardSince(sp, a + b, 0) == HeardSince(HeardSince(sp, a, 0), b, 0)
    decreases |b|
  {
    if b == [] {
      assert a + b == a;
    } else {
      var shorter := b[..|b| - 1];
      HeardInTurn(sp, a, shorter);
      assert (a + b)[..|a + b| - 1] == a + shorter;
    }
  }

  lemma AttributedOfTheRest(sp: Speaker, trace: seq<Event>, from: nat)
    requires from <= |trace| && Attributed(sp, trace, from)
    ensures Attributed(sp, trace[from..], 0)
  {
    hide HeardSince;
    var rest := trace[from..];
    forall k | 0 <= k < |rest| && rest[k].Wrote? ensures rest[k].video == HeardSince(sp, rest[..k], 0).video {
      HeardOfTheRest(sp, trace[..from + k], from);
      assert trace[..from + k][from..] == rest[..k];
    }
  }

  lemma AttributedInTurn(sp: Speaker, a: seq<Event>, b: seq<Event>)
    requires Attributed(sp, a, 0) && Attributed(HeardSince(sp, a, 0), b, 0)
    ensures Attributed(sp, a + b, 0)
  {
    hide HeardSince;
    var both := a + b;
    forall k | 0 <= k < |both| && both[k].Wrote? ensures both[k].video == HeardSince(sp, both[..k], 0).video {
      UpTo(a, b, k);
      if k < |a| {
        assert a[k].Wrote?;
      } else {
        assert b[k - |a|].Wrote?;
        HeardInTurn(sp, a, b[..k - |a|]);
      }
    }
  }

  lemma UpTo(a: seq<Event>, b: seq<Event>, k: nat)
    requires k < |a + b|
    ensures if k < |a| then (a + b)[k] == a[k] && (a + b)[..k] == a[..k]
            else (a + b)[k] == b[k - |a|] && (a + b)[..k] == a + b[..k - |a|]
  {
  }

  // ---- a life's own history ----

  /** What a life's calls say its speaker has been handed, after `k` steps, is what the run says. */
  lemma {:induction false} ToldIsHeard(life: Life, k: nat)
    requires Lives(life) && k <= |life.steps|
    ensures Told(life.opening + CallsUpTo(life.first, life.steps, k))
         == SpeakerAt(Told(life.opening), life.first, life.steps, k)
    decreases k
  {
    hide Do, HeardSince, At;
    if k == 0 {
      assert life.opening + CallsUpTo(life.first, life.steps, 0) == life.opening;
    } else {
      var step, before := life.steps[k - 1], At(life.first, life.steps, k - 1);
      var said := life.opening + CallsUpTo(life.first, life.steps, k - 1);
      ToldIsHeard(life, k - 1);
      HeardOfTheRest(Told(said), Do(step, before).memory.trace, |step.memory.trace|);
      HeardInTurn(UNHEARD, said, Calls(step, before));
      assert life.opening + CallsUpTo(life.first, life.steps, k) == said + Calls(step, before);
    }
  }

  /** Nothing taken was lost with its save. */
  ghost predicate LosesNothing(life: Life) {
    Lives(life) && LosesNoLoad(life.first, life.steps)
  }

  lemma {:induction false} SpokenIsAttributed(life: Life, k: nat)
    requires LosesNothing(life) && Tracks(life.first, Told(life.opening)) && k <= |life.steps|
    requires forall j :: 0 <= j < |life.opening| ==> !life.opening[j].Wrote?
    ensures Attributed(UNHEARD, life.opening + CallsUpTo(life.first, life.steps, k), 0)
    decreases k
  {
    hide Do, HeardSince, At, Tracks, LosesNoLoad, SpeakerAt;
    if k == 0 {
      assert life.opening + CallsUpTo(life.first, life.steps, 0) == life.opening;
    } else {
      var step, before := life.steps[k - 1], At(life.first, life.steps, k - 1);
      var said := life.opening + CallsUpTo(life.first, life.steps, k - 1);
      SpokenIsAttributed(life, k - 1);
      ToldIsHeard(life, k - 1);
      HistoryNamesTheSongHanded(Told(life.opening), life.first, life.steps, k - 1);
      AttributedOfTheRest(Told(said), Do(step, before).memory.trace, |step.memory.trace|);
      AttributedInTurn(UNHEARD, said, Calls(step, before));
      assert life.opening + CallsUpTo(life.first, life.steps, k) == said + Calls(step, before);
    }
  }

  /** The same with one more step in hand, of whatever becomes of its save. */
  lemma InHandIsAttributed(life: Life, step: Step)
    requires LosesNothing(life) && Tracks(life.first, Told(life.opening)) && ValidStep(step)
    requires forall j :: 0 <= j < |life.opening| ==> !life.opening[j].Wrote?
    ensures Attributed(UNHEARD, Spoken(life) + Calls(step, Now(life)), 0)
  {
    hide Do, Calls, HeardSince, At, Tracks, Attributed, CallsUpTo;
    var kept := step.(kept := true);
    SpokenThen(life, kept);
    KeptLosesNothing(life, kept);
    SpokenIsAttributed(life.Then(kept), |life.steps| + 1);
    CallsKeep(step, Now(life), true);
  }

  lemma KeptLosesNothing(life: Life, step: Step)
    requires LosesNothing(life) && ValidStep(step)
    requires step.kept || NothingTaken(Calls(step, Now(life)), 0)
    ensures LosesNothing(life.Then(step))
  {
    hide Do, NothingTaken, At;
    var longer := life.steps + [step];
    forall k | 0 <= k < |longer| && !longer[k].kept
      ensures NothingTaken(Do(longer[k], At(life.first, longer, k)).memory.trace, |longer[k].memory.trace|)
    {
      AtOfALongerRun(life.first, life.steps, longer, k);
      if k < |life.steps| {
        assert longer[k] == life.steps[k];
      } else {
        TakenInTheRest(Do(step, Now(life)).memory.trace, |step.memory.trace|);
      }
    }
  }

  lemma TakenInTheRest(trace: seq<Event>, from: nat)
    requires from <= |trace|
    ensures NothingTaken(trace[from..], 0) <==> NothingTaken(trace, from)
  {
    assert forall k :: from <= k < |trace| ==> trace[k] == trace[from..][k - from];
  }

  // ---- that the account is kept ----

  predicate Calling(m: Machine, t: Thread) {
    InHand(m, t) && (TaskOf(m, t).Working? || TaskOf(m, t).Opening? || TaskOf(m, t).Stopping?)
  }

  /** Two goroutines with calls in hand have two sessions in hand. */
  lemma IdsDiffer(m: Machine, t: Thread, t': Thread)
    requires Inv(m) && Accounted(m) && Calling(m, t) && Calling(m, t') && t != t'
    ensures m.threads[t].id != m.threads[t'].id
  {
    hide Inv, Opens, Spoken, Calls, Of, Lives;
    var id := m.threads[t].id;
    assert TaskAccounted(m, t) && TaskAccounted(m, t');
    assert Claiming(m, t, id) <==> !TaskOf(m, t).Working?;
    assert Claiming(m, t', id) <==> !TaskOf(m, t').Working? && m.threads[t'].id == id;
    if m.threads[t'].id == id && TaskOf(m, t).Working? && TaskOf(m, t').Working? {
      OneWorker(m, t, t', id);
    }
  }

  lemma ClaimsStayApart(a: Machine, move: Move, b: Machine)
    requires Inv(a) && Interleavings.Next(a, move, b) && Accounted(a)
    ensures ClaimsApart(b)
  {
    hide Inv, Interleavings.Next, Opens, Spoken, Calls, Of, Lives;
    OthersStandStill(a, move, b);
    forall t, t', id | Claiming(b, t, id) && Claiming(b, t', id) ensures t == t' {
      ClaimedBefore(a, move, b, t, id);
      ClaimedBefore(a, move, b, t', id);
      assert TaskAccounted(a, t) && TaskAccounted(a, t');
    }
  }

  lemma ClaimedBefore(a: Machine, move: Move, b: Machine, t: Thread, id: string)
    requires Interleavings.Next(a, move, b) && Claiming(b, t, id)
    ensures Claiming(a, t, id) || (t == move.t && move.Open? && id !in a.ids)
  {
    hide Interleavings.Next;
    OthersStandStill(a, move, b);
    if t == move.t {
      if move.Send? {
        SendDoes(a, move, b);
      } else if move.Work? {
        WorkDoes(a, move, b);
      } else if move.Open? {
        OpenDoes(a, move, b);
      } else if Writes(move) || Notes(move) {
        PutDownDoes(a, move, b);
      } else if move.CreateFails? {
        CreateFailsDoes(a, move, b);
      } else {
        IdleDoes(a, move, b);
      }
    }
  }

  /** The log and the ids after a move. */
  lemma LogAfter(a: Machine, move: Move, b: Machine)
    requires Interleavings.Next(a, move, b)
    ensures move.Send? ==> InHand(a, move.t) && Calling(a, move.t) && TaskOf(a, move.t).unsent != []
    ensures move.Send? ==> forall id :: id != a.threads[move.t].id ==> Of(b.log, id) == Of(a.log, id)
    ensures move.Send? ==>
      Of(b.log, a.threads[move.t].id) == Of(a.log, a.threads[move.t].id) + [TaskOf(a, move.t).unsent[0]]
    ensures move.Send? ==> forall device :: device != a.threads[move.t].device ==> To(b.log, device) == To(a.log, device)
    ensures move.Send? ==>
      To(b.log, a.threads[move.t].device) == To(a.log, a.threads[move.t].device) + [TaskOf(a, move.t).unsent[0]]
    ensures !move.Send? ==> b.log == a.log
    ensures b.ids == if move.Open? then a.ids + {move.sitting.id} else a.ids
  {
    hide Interleavings.Next, Of, To;
    if move.Send? {
      SendDoes(a, move, b);
      var t := move.t;
      OneMoreSent(a.log, Sent(t, a.threads[t].id, a.threads[t].device, TaskOf(a, t).unsent[0]));
      forall id | id != a.threads[t].id ensures Of(b.log, id) == Of(a.log, id) {
        assert Of(a.log, id) + [] == Of(a.log, id);
      }
      forall device | device != a.threads[t].device ensures To(b.log, device) == To(a.log, device) {
        assert To(a.log, device) + [] == To(a.log, device);
      }
    } else if move.Work? {
      WorkDoes(a, move, b);
    } else if move.Open? {
      OpenDoes(a, move, b);
    } else if Writes(move) || Notes(move) {
      PutDownDoes(a, move, b);
    } else if move.CreateFails? {
      CreateFailsDoes(a, move, b);
    } else {
      IdleDoes(a, move, b);
    }
  }

  /** The life of the session in hand takes the step that is over, stored or not. */
  ghost predicate TakesItsStep(a: Machine, move: Move, b: Machine, id: string)
    requires id in a.lives && Lives(a.lives[id]) && id in b.lives
  {
    && WorkingOn(a, move.t, id) && TaskOf(a, move.t).unsent == []
    && TaskOf(a, move.t).read == Now(a.lives[id]) && ValidStep(TaskOf(a, move.t).step)
    && b.lives[id] == a.lives[id].Then(TaskOf(a, move.t).step.(kept := !move.SaveFails?))
  }

  lemma LifeAfterStep(a: Machine, move: Move, b: Machine, id: string)
    requires Inv(a) && Accounted(a) && Interleavings.Next(a, move, b) && (Notes(move) || move.SaveIt?)
    ensures b.lives.Keys == a.lives.Keys
    ensures id in a.lives ==>
      && Lives(a.lives[id]) && Lives(b.lives[id])
      && (b.lives[id] == a.lives[id] || TakesItsStep(a, move, b, id))
  {
    hide Interleavings.Next, Do, LocksOk, OneEach, At, Opens, Spoken, Calls, Of, Claiming;
    assert LifeAccounted(a, id);
    PutDownDoes(a, move, b);
    assert ThreadOk(a, move.t) && LifeOk(a, a.threads[move.t].id);
    if move.SaveIt? {
      SaveDoes(a, move, b);
    } else {
      NoteDoes(a, move, b);
    }
  }

  /** What a move does to the life of a session. */
  lemma LifeAfter(a: Machine, move: Move, b: Machine, id: string)
    requires Inv(a) && Accounted(a) && Interleavings.Next(a, move, b)
    ensures id in a.lives ==> Lives(a.lives[id]) && id in b.lives && Lives(b.lives[id])
    ensures id in a.lives ==>
      || b.lives[id] == a.lives[id]
      || ((Notes(move) || move.SaveIt?) && TakesItsStep(a, move, b, id))
      || (move.CreateIt? && InHand(a, move.t) && id in a.store && a.store[id].sitting.deviceId == a.threads[move.t].device
          && TaskOf(a, move.t).Opening? && ValidStep(TaskOf(a, move.t).via.(op := ReplacedOp, kept := true))
          && b.lives[id] == a.lives[id].Then(TaskOf(a, move.t).via.(op := ReplacedOp, kept := true)))
    ensures id !in a.lives && id in b.lives ==>
      && move.CreateIt? && Claiming(a, move.t, id) && TaskOf(a, move.t).Opening?
      && TaskOf(a, move.t).unsent == [] && TaskOf(a, move.t).started.Some?
      && b.lives[id] == Life(TaskOf(a, move.t).started.value, TaskOf(a, move.t).opening, [])
  {
    hide Interleavings.Next, Do, LocksOk, OneEach, At, Opens, Spoken, Calls, Of, Claiming, TakesItsStep, LifeOk, StoredOk;
    OthersStandStill(a, move, b);
    assert LifeAccounted(a, id);
    if Notes(move) || move.SaveIt? {
      LifeAfterStep(a, move, b, id);
    } else if move.CreateIt? {
      CreateDoes(a, move, b);
      PutDownDoes(a, move, b);
      assert ThreadOk(a, move.t) && TaskAccounted(a, move.t);
      CreatedLife(a, move, b, id);
      assert id == a.threads[move.t].id ==> Claiming(a, move.t, id) by { Claims(a, move.t); }
    }
  }

  lemma Claims(m: Machine, t: Thread)
    requires InHand(m, t) && TaskOf(m, t).Opening?
    ensures Claiming(m, t, m.threads[t].id)
  {
  }

  lemma CreatedLife(a: Machine, move: Move, b: Machine, id: string)
    requires move.CreateIt? && InHand(a, move.t) && TaskOf(a, move.t).Opening? && TaskOf(a, move.t).started.Some?
    requires var task := TaskOf(a, move.t);
      && b.lives == Succeeded(a.store, a.lives, task.started.value, task.via, task.opening)
      && task.started.value.sitting.id == a.threads[move.t].id && task.started.value.sitting.deviceId == a.threads[move.t].device
      && task.started.value.HasCurrent()
    requires ThreadOk(a, move.t) && TaskAccounted(a, move.t) && (id in a.lives ==> Lives(a.lives[id]))
    ensures id in a.lives ==> id in b.lives && Lives(b.lives[id])
    ensures id in a.lives && b.lives[id] != a.lives[id] ==>
      && id in a.store && a.store[id].sitting.deviceId == a.threads[move.t].device
      && b.lives[id] == a.lives[id].Then(TaskOf(a, move.t).via.(op := ReplacedOp, kept := true))
    ensures id !in a.lives && id in b.lives ==>
      id == a.threads[move.t].id && b.lives[id] == Life(TaskOf(a, move.t).started.value, TaskOf(a, move.t).opening, [])
  {
    hide Opens, Spoken, Calls, Of, ThreadOk;
  }

  lemma OtherTaskAccounted(a: Machine, move: Move, b: Machine, t: Thread)
    requires Inv(a) && Accounted(a) && Interleavings.Next(a, move, b) && t != move.t
    ensures TaskAccounted(b, t)
  {
    hide Interleavings.Next, LocksOk, OneEach, StoredOk, LifeOk, Of, Opens, Spoken, Calls, Lives, Now;
    OthersStandStill(a, move, b);
    assert TaskAccounted(a, t) && ThreadOk(a, t) && ThreadOk(a, move.t);
    if Calling(b, t) {
      var id := b.threads[t].id;
      LogAfter(a, move, b);
      LifeAfter(a, move, b, id);
      if Calling(a, move.t) {
        IdsDiffer(a, t, move.t);
      }
      if move.CreateIt? && InHand(a, move.t) && a.threads[t].device == a.threads[move.t].device {
        OneHolder(a, t, move.t);
      }
    }
  }

  lemma MoverTaskAccounted(a: Machine, move: Move, b: Machine)
    requires Inv(a) && Accounted(a) && Interleavings.Next(a, move, b)
    ensures TaskAccounted(b, move.t)
  {
    hide Interleavings.Next, LocksOk, OneEach, Opens, Spoken, Calls, Lives, Of, To;
    var t := move.t;
    OthersStandStill(a, move, b);
    LogAfter(a, move, b);
    assert TaskAccounted(a, t) && ThreadOk(a, t);
    if move.Send? {
      SendDoes(a, move, b);
      var id, unsent := a.threads[t].id, TaskOf(a, t).unsent;
      assert Of(b.log, id) + unsent[1..] == Of(a.log, id) + unsent;
    } else if move.Work? {
      WorkDoes(a, move, b);
      TakesUp(a, move, b);
    } else if move.Open? {
      OpenDoes(a, move, b);
      NewIdAccounted(a, move, b);
    } else if Writes(move) || Notes(move) {
      PutDownDoes(a, move, b);
    } else if move.CreateFails? {
      CreateFailsDoes(a, move, b);
    } else {
      IdleDoes(a, move, b);
    }
  }

  lemma TakesUp(a: Machine, move: Move, b: Machine)
    requires Inv(a) && Accounted(a) && Interleavings.Next(a, move, b) && move.Work?
    ensures TaskAccounted(b, move.t)
  {
    hide Interleavings.Next, LocksOk, OneEach, Opens, Spoken, Calls, Of, To, At;
    var t := move.t;
    WorkDoes(a, move, b);
    OthersStandStill(a, move, b);
    var id := a.threads[t].id;
    assert ThreadOk(a, t) && LifeOk(a, id) && LifeAccounted(a, id);
    forall t' ensures !WorkingOn(a, t', id) {
      if WorkingOn(a, t', id) {
        OneWorker(a, t, t', id);
        assert false;
      }
    }
  }

  lemma NewIdAccounted(a: Machine, move: Move, b: Machine)
    requires Inv(a) && Accounted(a) && Interleavings.Next(a, move, b) && move.Open?
    ensures TaskAccounted(b, move.t)
  {
    hide Interleavings.Next, Inv, Opens, Spoken, Calls, Of, To, Start, Lives;
    OpenDoes(a, move, b);
    OthersStandStill(a, move, b);
    var job, id := a.threads[move.t].job, move.sitting.id;
    assert LifeAccounted(a, id);
    OpensAsAStart(move.via.world, move.via.memory, move.sitting, job.items, job.start, job.startS, job.narration, move.via.now);
    assert [] + TaskOf(b, move.t).opening == TaskOf(b, move.t).opening;
  }

  lemma LifeStaysAccounted(a: Machine, move: Move, b: Machine, id: string)
    requires Inv(a) && Accounted(a) && Interleavings.Next(a, move, b)
    ensures LifeAccounted(b, id)
  {
    hide Interleavings.Next, Inv, Opens, Spoken, Calls, Of, To, Tracks, HeardSince, At;
    assert LifeAccounted(a, id) && TaskAccounted(a, move.t);
    LogAfter(a, move, b);
    LifeAfter(a, move, b, id);
    if id !in a.lives && id in b.lives {
      CreatedIsAccounted(a, move, b, id);
    } else if id in a.lives {
      LivedOn(a, move, b, id);
    } else if id !in b.ids && move.Send? {
      SendsOfAnId(a, move.t);
    }
  }

  lemma SendsOfAnId(a: Machine, t: Thread)
    requires Accounted(a) && Calling(a, t)
    ensures a.threads[t].id in a.ids
  {
    hide Opens, Spoken, Calls, Of, Lives, Tracks;
    assert TaskAccounted(a, t) && LifeAccounted(a, a.threads[t].id);
  }

  lemma CreatedIsAccounted(a: Machine, move: Move, b: Machine, id: string)
    requires Inv(a) && Accounted(a) && Interleavings.Next(a, move, b) && id !in a.lives && id in b.lives
    ensures LifeAccounted(b, id)
  {
    hide Interleavings.Next, Inv, Calls, Of, To, Tracks, HeardSince, At;
    LogAfter(a, move, b);
    LifeAfter(a, move, b, id);
    assert TaskAccounted(a, move.t);
    assert ThreadOk(a, move.t) by { ThreadsOk(a, move.t); }
    InvHasFirst(a, move, b);
    var life := b.lives[id];
    assert Spoken(life) == life.opening + [] == life.opening;
    assert Of(a.log, id) + [] == Of(a.log, id);
  }

  lemma ThreadsOk(m: Machine, t: Thread)
    requires Inv(m)
    ensures ThreadOk(m, t)
  {
  }

  lemma InvHasFirst(a: Machine, move: Move, b: Machine)
    requires ThreadOk(a, move.t) && Interleavings.Next(a, move, b) && move.CreateIt?
    ensures InHand(a, move.t) && TaskOf(a, move.t).Opening? && TaskOf(a, move.t).started.Some?
    ensures TaskOf(a, move.t).started.value.HasCurrent()
  {
    hide Interleavings.Next;
    PutDownDoes(a, move, b);
  }

  lemma LivedOn(a: Machine, move: Move, b: Machine, id: string)
    requires Inv(a) && Accounted(a) && Interleavings.Next(a, move, b) && id in a.lives
    ensures LifeAccounted(b, id)
  {
    hide Interleavings.Next, Inv, Opens, Spoken, Calls, Of, To, Tracks, HeardSince, At;
    assert LifeAccounted(a, id) && TaskAccounted(a, move.t);
    LogAfter(a, move, b);
    LifeAfter(a, move, b, id);
    if forall t :: !WorkingOn(b, t, id) {
      WorkersBefore(a, move, b, id);
      if WorkingOn(a, move.t, id) {
        var task := TaskOf(a, move.t);
        assert Of(a.log, id) + [] == Of(a.log, id);
        SpokenThen(a.lives[id], task.step.(kept := !move.SaveFails?));
        CallsKeep(task.step, task.read, !move.SaveFails?);
      } else {
        if move.CreateIt? && b.lives[id] != a.lives[id] {
          var step := TaskOf(a, move.t).via.(op := ReplacedOp, kept := true);
          SpokenThen(a.lives[id], step);
          ReplacedIsSilent(step, Now(a.lives[id]));
          assert Spoken(a.lives[id]) + [] == Spoken(a.lives[id]);
        }
        if move.Send? {
          assert a.threads[move.t].id != id;
        }
      }
    }
  }

  /** With nobody working on a session after a move, nobody but the mover was before it, and then the mover put it down. */
  lemma WorkersBefore(a: Machine, move: Move, b: Machine, id: string)
    requires Inv(a) && Accounted(a) && Interleavings.Next(a, move, b) && forall t :: !WorkingOn(b, t, id)
    ensures forall t :: WorkingOn(a, t, id) ==> t == move.t
    ensures WorkingOn(a, move.t, id) ==> (Notes(move) || move.SaveIt?) && TaskOf(a, move.t).unsent == []
    ensures WorkingOn(a, move.t, id) && id in a.lives ==>
      && Lives(a.lives[id]) && id in b.lives
      && b.lives[id] == a.lives[id].Then(TaskOf(a, move.t).step.(kept := !move.SaveFails?))
      && TaskOf(a, move.t).read == Now(a.lives[id])
  {
    hide Interleavings.Next, LocksOk, OneEach, Do, Opens, Spoken, Calls, Of, To, At;
    OthersStandStill(a, move, b);
    forall t | WorkingOn(a, t, id) ensures t == move.t {
      assert t != move.t ==> WorkingOn(b, t, id);
    }
    if WorkingOn(a, move.t, id) {
      if move.Send? {
        SenderStillWorks(a, move, b, id);
        assert false;
      } else if move.Work? {
        WorkDoes(a, move, b);
      } else if move.Open? {
        OpenDoes(a, move, b);
      } else if Writes(move) || Notes(move) {
        PutDownDoes(a, move, b);
        assert ThreadOk(a, move.t) && LifeOk(a, id);
        if Notes(move) {
          NoteDoes(a, move, b);
        } else {
          SaveDoes(a, move, b);
        }
      } else if move.CreateFails? {
        CreateFailsDoes(a, move, b);
      } else {
        IdleDoes(a, move, b);
      }
    }
  }

  lemma SenderStillWorks(a: Machine, move: Move, b: Machine, id: string)
    requires Interleavings.Next(a, move, b) && move.Send? && WorkingOn(a, move.t, id)
    ensures WorkingOn(b, move.t, id)
  {
    SendDoes(a, move, b);
  }

  lemma StaysAccounted(a: Machine, move: Move, b: Machine)
    requires Inv(a) && Accounted(a) && Interleavings.Next(a, move, b)
    ensures Accounted(b)
  {
    hide Interleavings.Next, Inv, ClaimsApart, TaskAccounted, LifeAccounted;
    ClaimsStayApart(a, move, b);
    forall t ensures TaskAccounted(b, t) {
      if t == move.t {
        MoverTaskAccounted(a, move, b);
      } else {
        OtherTaskAccounted(a, move, b, t);
      }
    }
    forall id ensures LifeAccounted(b, id) {
      LifeStaysAccounted(a, move, b, id);
    }
  }

  lemma {:induction false} AlwaysAccounted(ms: seq<Machine>, moves: seq<Move>, k: nat)
    requires Execution(ms, moves) && k < |ms|
    ensures Accounted(ms[k])
    decreases k
  {
    hide Interleavings.Next, Inv, Accounted;
    if k == 0 {
      StartsAccounted(ms[0]);
    } else {
      AlwaysAccounted(ms, moves, k - 1);
      AlwaysOk(ms, moves, k - 1);
      StaysAccounted(ms[k - 1], moves[k - 1], ms[k]);
    }
  }

  // ---- what that says ----

  /**
   In every interleaving, whatever saves are lost, the calls made about a stored
   session are those of its life, step by step from its opening load on, and of
   the step in hand as far as they have gone out.
   */
  lemma LogIsWhatLivesSay(ms: seq<Machine>, moves: seq<Move>, k: nat, id: string)
    requires Execution(ms, moves) && k < |ms| && id in ms[k].store
    ensures var m := ms[k];
      && id in m.lives && Lives(m.lives[id]) && m.store[id] == Now(m.lives[id])
      && ((forall t :: !WorkingOn(m, t, id)) ==> Of(m.log, id) == Spoken(m.lives[id]))
      && (forall t :: WorkingOn(m, t, id) ==>
            && TaskOf(m, t).read == m.store[id] && ValidStep(TaskOf(m, t).step) && TaskOf(m, t).read.HasCurrent()
            && Spoken(m.lives[id]) <= Of(m.log, id)
            && Of(m.log, id) + TaskOf(m, t).unsent == Spoken(m.lives[id]) + Calls(TaskOf(m, t).step, TaskOf(m, t).read))
  {
    hide Interleavings.Next, Execution, LocksOk, OneEach, Spoken, Calls, Of, Opens, At, Tracks;
    AlwaysOk(ms, moves, k);
    AlwaysAccounted(ms, moves, k);
    var m := ms[k];
    assert LifeOk(m, id) && StoredOk(m, id) && LifeAccounted(m, id);
    forall t | WorkingOn(m, t, id)
      ensures TaskOf(m, t).read == m.store[id] && ValidStep(TaskOf(m, t).step) && TaskOf(m, t).read.HasCurrent()
      ensures Spoken(m.lives[id]) <= Of(m.log, id)
      ensures Of(m.log, id) + TaskOf(m, t).unsent == Spoken(m.lives[id]) + Calls(TaskOf(m, t).step, TaskOf(m, t).read)
    {
      assert ThreadOk(m, t) && TaskAccounted(m, t);
      SameWhole(Of(m.log, id), TaskOf(m, t).unsent, Spoken(m.lives[id]), Calls(TaskOf(m, t).step, TaskOf(m, t).read));
    }
  }

  lemma SameWhole(a: seq<Event>, b: seq<Event>, c: seq<Event>, d: seq<Event>)
    requires a + b == c + d && |b| <= |d|
    ensures c <= a
  {
    assert (a + b)[..|c|] == a[..|c|] && (c + d)[..|c|] == c;
  }

  lemma {:induction false} CallsUpToIsAPrefix(s: Session, steps: seq<Step>, i: nat, k: nat)
    requires s.HasCurrent() && ValidRun(steps) && i <= k <= |steps|
    ensures CallsUpTo(s, steps, i) <= CallsUpTo(s, steps, k)
    decreases k
  {
    hide Calls, At;
    if i < k {
      CallsUpToIsAPrefix(s, steps, i, k - 1);
    }
  }

  /** Where the calls of the i-th step begin among those of its life. */
  function Place(life: Life, i: nat): nat
    requires Lives(life) && i <= |life.steps|
  {
    |life.opening| + |CallsUpTo(life.first, life.steps, i)|
  }

  lemma StepStandsAt(life: Life, i: nat)
    requires Lives(life) && i < |life.steps|
    ensures Place(life, i) <= Place(life, i + 1) <= |Spoken(life)|
    ensures Spoken(life)[Place(life, i)..Place(life, i + 1)] == Calls(life.steps[i], At(life.first, life.steps, i))
  {
    hide Calls, At;
    CallsUpToIsAPrefix(life.first, life.steps, i + 1, |life.steps|);
    var said := life.opening + CallsUpTo(life.first, life.steps, i + 1);
    assert said <= Spoken(life);
    assert said == life.opening + CallsUpTo(life.first, life.steps, i) + Calls(life.steps[i], At(life.first, life.steps, i));
  }

  /**
   The rate of history writes, on the log. Two reports standing in a session's
   part of the log, with no load stored between them, were decided at least ten
   seconds apart if the first was stored; `ReportIsMadeAgainWhenLost` is what
   happens otherwise.
   */
  lemma ReportsOnTheLogAreApart(ms: seq<Machine>, moves: seq<Move>, n: nat, id: string, i: nat, j: nat)
    requires Execution(ms, moves) && n < |ms| && id in ms[n].store && id in ms[n].lives && Lives(ms[n].lives[id])
    requires var life := ms[n].lives[id];
      && Clocked(life.first.lastSeenOK, life.steps) && i < j < |life.steps|
      && Reports(life.steps[i], At(life.first, life.steps, i))
      && Reports(life.steps[j], At(life.first, life.steps, j))
      && life.steps[i].kept && !Loads(life.steps[i], At(life.first, life.steps, i))
      && LoadsNothingAfter(life.first, life.steps, i, j)
    ensures var life := ms[n].lives[id];
      && life.steps[j].now - life.steps[i].now >= PROGRESS_EVERY
      && Place(life, i) <= Place(life, i + 1) <= Place(life, j) <= Place(life, j + 1) <= |Of(ms[n].log, id)|
      && (exists k :: Place(life, i) <= k < Place(life, i + 1) && Of(ms[n].log, id)[k].Wrote?)
      && (exists k :: Place(life, j) <= k < Place(life, j + 1) && Of(ms[n].log, id)[k].Wrote?)
  {
    hide Interleavings.Next, Execution, Do, Loads, At, LoadsNothingAfter, Clocked, Of, Spoken, WorkingOn;
    var life := ms[n].lives[id];
    LogIsWhatLivesSay(ms, moves, n, id);
    SpokenIsLogged(ms, moves, n, id);
    ReportsAreApart(life.first, life.steps, i, j);
    CallsUpToIsAPrefix(life.first, life.steps, i + 1, j);
    ReportStandsAt(life, i);
    ReportStandsAt(life, j);
  }

  lemma SpokenIsLogged(ms: seq<Machine>, moves: seq<Move>, k: nat, id: string)
    requires Execution(ms, moves) && k < |ms| && id in ms[k].store
    ensures id in ms[k].lives && Lives(ms[k].lives[id]) && Spoken(ms[k].lives[id]) <= Of(ms[k].log, id)
  {
    hide Interleavings.Next, Execution, Of, Spoken, Calls, WorkingOn;
    LogIsWhatLivesSay(ms, moves, k, id);
  }

  lemma ReportStandsAt(life: Life, i: nat)
    requires Lives(life) && i < |life.steps|
    ensures Place(life, i) <= Place(life, i + 1) <= |Spoken(life)|
    ensures Reports(life.steps[i], At(life.first, life.steps, i)) ==>
      exists k :: Place(life, i) <= k < Place(life, i + 1) && Spoken(life)[k].Wrote?
  {
    hide At, Do, Spoken, Place;
    StepStandsAt(life, i);
    var calls := Calls(life.steps[i], At(life.first, life.steps, i));
    if k :| 0 <= k < |calls| && calls[k].Wrote? {
      assert Spoken(life)[Place(life, i) + k] == Spoken(life)[Place(life, i)..Place(life, i + 1)][k];
    }
  }
}
