/**
 Ticks, commands and starts against one another: goroutines over one store,
 each under the lock of the speaker it is about.

 A goroutine is a program counter and what it has read. Every move of every
 goroutine is a move of the machine, in any order, so a statement about every
 execution is a statement about every interleaving.
 */
module Interleavings {
  import opened Wrappers
  import opened CastSession
  import opened CastReconcile
  import opened CastWorld
  import opened CastSteps
  import opened CastStore
  import opened CastVersions
  import opened CastEndings

  // A goroutine, and a mutex of `deviceLock`.
  type Thread = nat
  type Mutex = nat

  datatype Job = TickJob | CommandJob(command: Command) | StartJob(items: seq<Item>, start: int, startS: int, narration: bool)

  // Under the lock. `unsent` are the calls decided on and not yet made.
  datatype Task =
    | Fresh
    | Reading(before: Session)
    | Working(read: Session, step: Step, unsent: seq<Event>)
    | Opening(started: Option<Session>, via: Step, opening: seq<Event>, unsent: seq<Event>)
    | Stopping(unsent: seq<Event>)
    | Finished

  datatype Phase = Unlocked | Resolved(mutex: Mutex) | Held(mutex: Mutex, task: Task)

  datatype Local = Idle | Busy(id: string, device: string, job: Job, phase: Phase)

  // A session's life: how it was created, the calls that took, and every step
  // since, whether or not its save went through.
  datatype Life = Life(first: Session, opening: seq<Event>, steps: seq<Step>) {
    function Then(step: Step): Life { this.(steps := steps + [step]) }
  }

  // A call made: by whom, about which session, to which speaker.
  datatype Sent = Sent(thread: Thread, id: string, device: string, event: Event)

  datatype Machine = Machine(
    store: Store,
    lives: map<string, Life>,
    locks: map<string, Mutex>,
    holder: map<Mutex, Thread>,
    threads: map<Thread, Local>,
    ids: set<string>,
    log: seq<Sent>)
  {
    function With(t: Thread, local: Local): Machine { this.(threads := threads[t := local]) }
  }

  datatype Move =
    | Pick(t: Thread, id: string, job: Job)
    | PickStart(t: Thread, device: string, job: Job)
    | Resolve(t: Thread, made: Mutex)
    | Acquire(t: Thread)
    | GiveUp(t: Thread)
    | Read(t: Thread)
    | Leave(t: Thread)
    | Work(t: Thread, step: Step)
    | Send(t: Thread)
    | Refuse(t: Thread)
    | SaveIt(t: Thread)
    | SaveFails(t: Thread)
    | Open(t: Thread, sitting: Sitting, via: Step)
    | CreateIt(t: Thread)
    | CreateFails(t: Thread)
    | Release(t: Thread)

  // ---- what each move does ----

  predicate OpOf(job: Job, op: Op) {
    match job
    case TickJob => op.TickOp?
    case CommandJob(command) => op == CommandOp(command)
    case StartJob(_, _, _, _) => false
  }

  /** The stored lives once `s` is created: whatever it replaces takes its last step. */
  function Succeeded(store: Store, lives: map<string, Life>, s: Session, via: Step, opening: seq<Event>): map<string, Life> {
    (map id | id in lives ::
       if id in store && store[id].state != Ended && store[id].sitting.deviceId == s.sitting.deviceId then
         lives[id].Then(via.(op := ReplacedOp, kept := true))
       else lives[id])[s.sitting.id := Life(s, opening, [])]
  }

  /** A step decided on, with every call it asked for made. */
  predicate Worked(local: Local) {
    && local.Busy? && local.phase.Held? && local.phase.task.Working? && local.phase.task.unsent == []
    && local.phase.task.read.HasCurrent() && ValidStep(local.phase.task.step)
  }

  function Result(local: Local): Outcome
    requires Worked(local)
  {
    Do(local.phase.task.step, local.phase.task.read)
  }

  /** One more step of a life, stored or not. */
  function Noted(lives: map<string, Life>, id: string, step: Step, kept: bool): map<string, Life> {
    if id in lives then lives[id := lives[id].Then(step.(kept := kept))] else lives
  }

  ghost predicate Next(a: Machine, move: Move, b: Machine) {
    var t := move.t;
    t in a.threads && var local := a.threads[t];
    match move
    case Pick(_, id, job) =>
      // A tick that listed the session as active, or a command that looked it up.
      && local.Idle? && !job.StartJob? && (job.CommandJob? ==> ValidCommand(job.command))
      && id in a.store
      && b == a.With(t, Busy(id, a.store[id].sitting.deviceId, job, Unlocked))
    case PickStart(_, device, job) =>
      && local.Idle? && job.StartJob? && 0 <= job.start < |job.items|
      && b == a.With(t, Busy("", device, job, Unlocked))
    case Resolve(_, made) =>
      // `deviceLock`, under the engine's own mutex: the speaker's mutex, made on first asking.
      && local.Busy? && local.phase == Unlocked
      && (if local.device in a.locks then b == a.With(t, local.(phase := Resolved(a.locks[local.device])))
          else
            && made !in a.locks.Values
            && b == a.With(t, local.(phase := Resolved(made))).(locks := a.locks[local.device := made]))
    case Acquire(_) =>
      && local.Busy? && local.phase.Resolved? && local.phase.mutex !in a.holder
      && b == a.With(t, local.(phase := Held(local.phase.mutex, Fresh))).(holder := a.holder[local.phase.mutex := t])
    case GiveUp(_) =>
      // A tick tries the lock, and leaves a speaker that is busy for the next tick.
      && local.Busy? && local.phase.Resolved? && local.job.TickJob? && local.phase.mutex in a.holder
      && b == a.With(t, Idle)
    case Read(_) =>
      && local.Busy? && local.phase.Held? && local.phase.task.Fresh? && !local.job.StartJob?
      && local.id in a.store && a.store[local.id].state != Ended
      && b == a.With(t, local.(phase := Held(local.phase.mutex, Reading(a.store[local.id]))))
    case Leave(_) =>
      // Ended meanwhile, not found, the read failed, no driver, or a start refused or undone.
      && local.Busy? && local.phase.Held?
      && (local.phase.task.Fresh? || local.phase.task.Reading?
          || (local.phase.task.Opening? && local.phase.task.unsent == [] && local.phase.task.started.None?)
          || (local.phase.task.Stopping? && local.phase.task.unsent == []))
      && b == a.With(t, local.(phase := Held(local.phase.mutex, Finished)))
    case Work(_, step) =>
      && local.Busy? && local.phase.Held? && local.phase.task.Reading?
      && var s := local.phase.task.before;
      && s.HasCurrent() && ValidStep(step) && OpOf(local.job, step.op)
      && var calls := Do(step, s).memory.trace[|step.memory.trace|..];
         b == a.With(t, local.(phase := Held(local.phase.mutex, Working(s, step, calls))))
    case Send(_) =>
      && local.Busy? && local.phase.Held?
      && (local.phase.task.Working? || local.phase.task.Opening? || local.phase.task.Stopping?)
      && local.phase.task.unsent != []
      && var sent := Sent(t, local.id, local.device, local.phase.task.unsent[0]);
         b == a.With(t, local.(phase := Held(local.phase.mutex, local.phase.task.(unsent := local.phase.task.unsent[1..]))))
               .(log := a.log + [sent])
    case Refuse(_) =>
      // A command refused, its calls made: nothing is saved.
      && Worked(local) && Result(local).error.Some?
      && b == a.With(t, local.(phase := Held(local.phase.mutex, Finished)))
               .(lives := Noted(a.lives, local.id, local.phase.task.step, true))
    case SaveIt(_) =>
      && Worked(local) && Result(local).error.None?
      && b == a.With(t, local.(phase := Held(local.phase.mutex, Finished)))
               .(store := Saved(a.store, Result(local).session),
                 lives := Noted(a.lives, local.id, local.phase.task.step, Writable(a.store, Result(local).session)))
    case SaveFails(_) =>
      // The calls were made, and storage could not be written.
      && Worked(local) && Result(local).error.None?
      && b == a.With(t, local.(phase := Held(local.phase.mutex, Finished)))
               .(lives := Noted(a.lives, local.id, local.phase.task.step, false))
    case Open(_, sitting, via) =>
      && local.Busy? && local.phase.Held? && local.phase.task.Fresh? && local.job.StartJob?
      && 0 <= local.job.start < |local.job.items| && sitting.deviceId == local.device && sitting.id !in a.ids
      && var (started, m) := Start(via.world, via.memory, sitting, local.job.items, local.job.start,
                                   local.job.startS, local.job.narration, via.now);
         var calls := m.trace[|via.memory.trace|..];
         b == a.With(t, Busy(sitting.id, local.device, local.job, Held(local.phase.mutex, Opening(started, via, calls, calls))))
               .(ids := a.ids + {sitting.id})
    case CreateIt(_) =>
      && local.Busy? && local.phase.Held? && local.phase.task.Opening? && local.phase.task.unsent == []
      && local.phase.task.started.Some?
      && var s := local.phase.task.started.value;
      && s.sitting.id !in a.store
      && b == a.With(t, local.(phase := Held(local.phase.mutex, Finished)))
               .(store := Created(a.store, s, local.phase.task.via.now),
                 lives := Succeeded(a.store, a.lives, s, local.phase.task.via, local.phase.task.opening))
    case CreateFails(_) =>
      && local.Busy? && local.phase.Held? && local.phase.task.Opening? && local.phase.task.unsent == []
      && local.phase.task.started.Some?
      && (exists heard :: b == a.With(t, local.(phase := Held(local.phase.mutex, Stopping([Ordered(local.device, StopOrder, heard)])))))
    case Release(_) =>
      && local.Busy? && local.phase.Held? && local.phase.task.Finished?
      && b == a.With(t, Idle).(holder := a.holder - {local.phase.mutex})
  }

  /** Nothing stored yet, nothing locked, and every goroutine idle. */
  predicate Starts(m: Machine) {
    && m.store == map[] && m.lives == map[] && m.locks == map[] && m.holder == map[] && m.ids == {} && m.log == []
    && forall t :: t in m.threads ==> m.threads[t].Idle?
  }

  ghost predicate Execution(ms: seq<Machine>, moves: seq<Move>) {
    && |ms| == |moves| + 1
    && Starts(ms[0])
    && forall k :: 0 <= k < |moves| ==> Next(ms[k], moves[k], ms[k + 1])
  }

  // ---- what every machine reached satisfies ----

  /** What is still to be sent orders one speaker and no other. */
  ghost predicate OrdersOnly(device: string, unsent: seq<Event>) {
    forall k :: 0 <= k < |unsent| && unsent[k].IsOrder() ==> unsent[k].device == device
  }

  /** A session read or created under the lock is, for as long as the lock is held, what storage has. */
  ghost predicate TaskOk(m: Machine, id: string, device: string, task: Task) {
    match task
    case Reading(before) => id in m.store && m.store[id] == before && before.state != Ended && before.sitting.deviceId == device
    case Working(read, step, unsent) =>
      && id in m.store && m.store[id] == read && read.state != Ended && read.sitting.deviceId == device
      && ValidStep(step) && OrdersOnly(device, unsent)
    case Opening(started, _, _, unsent) =>
      && OrdersOnly(device, unsent)
      && (started.Some? ==>
        && started.value.HasCurrent() && started.value.sitting.deviceId == device && started.value.sitting.id == id
        && started.value.state != Ended)
    case Stopping(unsent) => OrdersOnly(device, unsent)
    case _ => true
  }

  ghost predicate LocksItsSpeaker(m: Machine, device: string, mutex: Mutex) {
    device in m.locks && m.locks[device] == mutex
  }

  ghost predicate ThreadOk(m: Machine, t: Thread) {
    t in m.threads && m.threads[t].Busy? ==>
      var local := m.threads[t];
      && (!local.job.StartJob? ==> local.id in m.store && m.store[local.id].sitting.deviceId == local.device)
      && (local.phase.Resolved? ==> LocksItsSpeaker(m, local.device, local.phase.mutex))
      && (local.phase.Held? ==>
            && LocksItsSpeaker(m, local.device, local.phase.mutex)
            && local.phase.mutex in m.holder && m.holder[local.phase.mutex] == t
            && TaskOk(m, local.id, local.device, local.phase.task)
            && (local.phase.task.Opening? || local.phase.task.Stopping? ==> local.job.StartJob?))
  }

  /** One mutex to a speaker, and one speaker to a mutex. */
  ghost predicate LocksOk(m: Machine) {
    forall d, d' :: d in m.locks && d' in m.locks && m.locks[d] == m.locks[d'] ==> d == d'
  }

  ghost predicate StoredOk(m: Machine, id: string) {
    id in m.store ==> m.store[id].HasCurrent() && m.store[id].sitting.id == id
  }

  /** What is stored is where the session's life so far has brought it. */
  ghost predicate LifeOk(m: Machine, id: string) {
    id in m.store ==>
      && id in m.lives
      && m.lives[id].first.HasCurrent() && ValidRun(m.lives[id].steps)
      && m.store[id] == At(m.lives[id].first, m.lives[id].steps, |m.lives[id].steps|)
  }

  predicate LiveOn(store: Store, id: string) {
    id in store && store[id].state != Ended
  }

  /** Two live sessions are on two speakers. */
  ghost predicate OneEach(m: Machine) {
    forall id, id' ::
      LiveOn(m.store, id) && LiveOn(m.store, id') && m.store[id].sitting.deviceId == m.store[id'].sitting.deviceId ==>
        id == id'
  }

  ghost predicate Inv(m: Machine) {
    && LocksOk(m) && OneEach(m)
    && (forall t :: ThreadOk(m, t))
    && (forall id :: StoredOk(m, id))
    && (forall id :: LifeOk(m, id))
  }

  lemma StartsOk(m: Machine)
    requires Starts(m)
    ensures Inv(m)
  {
  }

  /** Two goroutines that hold the lock of one speaker are one goroutine. */
  lemma OneHolder(m: Machine, t: Thread, t': Thread)
    requires ThreadOk(m, t) && ThreadOk(m, t') && t in m.threads && t' in m.threads
    requires m.threads[t].Busy? && m.threads[t].phase.Held? && m.threads[t'].Busy? && m.threads[t'].phase.Held?
    requires m.threads[t].device == m.threads[t'].device
    ensures t == t'
  {
  }

  // ---- moves that leave storage alone ----

  predicate Writes(move: Move) { move.SaveIt? || move.CreateIt? }

  /** A step that is over without storage having changed. */
  predicate Notes(move: Move) { move.Refuse? || move.SaveFails? }

  lemma OnlyTheMoverMoves(a: Machine, move: Move, b: Machine)
    requires Next(a, move, b)
    ensures move.t in a.threads && b.threads.Keys == a.threads.Keys
    ensures forall t :: t != move.t && t in a.threads ==> b.threads[t] == a.threads[t]
  {
    hide Do, Start, Saved, Created, Succeeded, Noted, Worked, OpOf, ValidCommand;
  }

  lemma OnlyWritesWrite(a: Machine, move: Move, b: Machine)
    requires Next(a, move, b)
    ensures forall d :: d in a.locks ==> d in b.locks && b.locks[d] == a.locks[d]
    ensures !Writes(move) ==> b.store == a.store
    ensures !Writes(move) && !Notes(move) ==> b.lives == a.lives
    ensures !move.Acquire? && !move.Release? ==> b.holder == a.holder
  {
    hide Do, Start, Saved, Created, Succeeded, Noted, Worked, OpOf, ValidCommand;
  }

  lemma OthersStandStill(a: Machine, move: Move, b: Machine)
    requires Next(a, move, b)
    ensures move.t in a.threads && b.threads.Keys == a.threads.Keys
    ensures forall t :: t != move.t && t in a.threads ==> b.threads[t] == a.threads[t]
    ensures forall d :: d in a.locks ==> d in b.locks && b.locks[d] == a.locks[d]
    ensures !Writes(move) ==> b.store == a.store
    ensures !Writes(move) && !Notes(move) ==> b.lives == a.lives
    ensures !move.Acquire? && !move.Release? ==> b.holder == a.holder
  {
    hide Next;
    OnlyTheMoverMoves(a, move, b);
    OnlyWritesWrite(a, move, b);
  }

  /** A step over without a write is one more step of its session's life, which leaves it where it was. */
  lemma NoteDoes(a: Machine, move: Move, b: Machine)
    requires Next(a, move, b) && Notes(move)
    ensures var local := a.threads[move.t];
      && Worked(local)
      && (move.Refuse? <==> Result(local).error.Some?)
      && b.lives == Noted(a.lives, local.id, local.phase.task.step, move.Refuse?)
  {
    hide Do;
  }

  lemma AcquiresTheFree(a: Machine, move: Move, b: Machine)
    requires Next(a, move, b) && (move.Acquire? || move.Release?)
    ensures var local := a.threads[move.t];
      && local.Busy? && !local.phase.Unlocked?
      && (move.Acquire? ==> local.phase.mutex !in a.holder && b.holder == a.holder[local.phase.mutex := move.t])
      && (move.Release? ==> local.phase.Held? && b.holder == a.holder - {local.phase.mutex})
  {
    hide Do, Start;
  }

  /** Storage still has what a goroutine goes by: the session's speaker, and once read under the lock the session itself. */
  ghost predicate KeepsWhatItGoesBy(a: Machine, b: Machine, t: Thread) {
    t in a.threads && a.threads[t].Busy? && a.threads[t].id in a.store ==>
      var id, phase := a.threads[t].id, a.threads[t].phase;
      && id in b.store && b.store[id].sitting == a.store[id].sitting
      && (phase.Held? && (phase.task.Reading? || phase.task.Working?) ==> b.store[id] == a.store[id])
  }

  lemma OtherThreadOk(a: Machine, move: Move, b: Machine, t: Thread)
    requires ThreadOk(a, t) && ThreadOk(a, move.t) && Next(a, move, b) && t != move.t && KeepsWhatItGoesBy(a, b, t)
    ensures ThreadOk(b, t)
  {
    hide Next, Do;
    OthersStandStill(a, move, b);
    if move.Acquire? || move.Release? {
      AcquiresTheFree(a, move, b);
    }
  }

  lemma StartIsLive(w: World, m: Memory, sitting: Sitting, items: seq<Item>, start: int, startS: int, narration: bool, now: Time)
    requires 0 <= start < |items|
    ensures var started := Start(w, m, sitting, items, start, startS, narration, now).0;
      started.Some? ==> started.value.HasCurrent() && started.value.sitting == sitting && started.value.state == Loading
  {
    hide Attempt;
  }

  lemma MoverOk(a: Machine, move: Move, b: Machine)
    requires Inv(a) && Next(a, move, b) && !Writes(move)
    ensures ThreadOk(b, move.t)
  {
    hide Next, ThreadOk, LifeOk, StoredOk, OneEach, LocksOk;
    assert ThreadOk(a, move.t);
    if move.Work? {
      WorkerOk(a, move, b);
    } else if move.Open? {
      OpenerOk(a, move, b);
    } else if move.Send? {
      SenderOk(a, move, b);
    } else if move.CreateFails? {
      FailerOk(a, move, b);
    } else {
      GoerOk(a, move, b);
    }
  }

  lemma GoerOk(a: Machine, move: Move, b: Machine)
    requires ThreadOk(a, move.t) && Next(a, move, b) && !Writes(move) && !move.Work? && !move.Open? && !move.Send?
    requires !move.CreateFails?
    ensures ThreadOk(b, move.t)
  {
    hide Next, ThreadOk;
    if move.Pick? || move.PickStart? || move.GiveUp? || move.Release? {
      IdlerOk(a, move, b);
    } else if move.Resolve? || move.Acquire? {
      LockerOk(a, move, b);
    } else {
      HolderOk(a, move, b);
    }
  }

  lemma IdlerOk(a: Machine, move: Move, b: Machine)
    requires ThreadOk(a, move.t) && Next(a, move, b) && (move.Pick? || move.PickStart? || move.GiveUp? || move.Release?)
    ensures ThreadOk(b, move.t)
  {
    hide ValidCommand, TaskOk, LocksItsSpeaker;
  }

  lemma LockerOk(a: Machine, move: Move, b: Machine)
    requires ThreadOk(a, move.t) && Next(a, move, b) && (move.Resolve? || move.Acquire?)
    ensures ThreadOk(b, move.t)
  {
    hide OrdersOnly;
  }

  lemma HolderOk(a: Machine, move: Move, b: Machine)
    requires ThreadOk(a, move.t) && Next(a, move, b) && (move.Read? || move.Leave? || move.Refuse? || move.SaveFails?)
    ensures ThreadOk(b, move.t)
  {
    hide Do, OrdersOnly, Noted;
  }

  lemma FailerOk(a: Machine, move: Move, b: Machine)
    requires ThreadOk(a, move.t) && Next(a, move, b) && move.CreateFails?
    ensures ThreadOk(b, move.t)
  {
    hide Do, Start, OrdersOnly;
    StopsOnly();
  }

  lemma StopsOnly()
    ensures forall device, heard :: OrdersOnly(device, [Ordered(device, StopOrder, heard)])
  {
  }

  lemma SenderOk(a: Machine, move: Move, b: Machine)
    requires ThreadOk(a, move.t) && Next(a, move, b) && move.Send?
    ensures ThreadOk(b, move.t)
  {
    hide Do, Start, OrdersOnly;
    OneLessUnsent(a.threads[move.t].device, a.threads[move.t].phase.task.unsent);
  }

  lemma OneLessUnsent(device: string, unsent: seq<Event>)
    requires unsent != []
    ensures OrdersOnly(device, unsent) ==> OrdersOnly(device, unsent[1..])
  {
  }

  lemma WorkerOk(a: Machine, move: Move, b: Machine)
    requires ThreadOk(a, move.t) && Next(a, move, b) && move.Work?
    ensures ThreadOk(b, move.t)
  {
    hide Do;
    StepOrdersItsSpeaker(move.step, a.threads[move.t].phase.task.before);
  }

  lemma OpenerOk(a: Machine, move: Move, b: Machine)
    requires ThreadOk(a, move.t) && Next(a, move, b) && move.Open?
    ensures ThreadOk(b, move.t)
  {
    hide Start;
    var job, via := a.threads[move.t].job, move.via;
    StartOrdersItsSpeaker(via.world, via.memory, move.sitting, job.items, job.start, job.startS, job.narration, via.now);
    StartIsLive(via.world, via.memory, move.sitting, job.items, job.start, job.startS, job.narration, via.now);
  }

  lemma LocksStayOk(a: Machine, move: Move, b: Machine)
    requires LocksOk(a) && Next(a, move, b)
    ensures LocksOk(b)
  {
    hide Next;
    LocksAfter(a, move, b);
    forall d, d' | d in b.locks && d' in b.locks && b.locks[d] == b.locks[d'] ensures d == d' {
      if d in a.locks { assert a.locks[d] in a.locks.Values; }
      if d' in a.locks { assert a.locks[d'] in a.locks.Values; }
    }
  }

  /** Only asking for a speaker's mutex the first time makes one, and it is a new one. */
  lemma LocksAfter(a: Machine, move: Move, b: Machine)
    requires Next(a, move, b)
    ensures b.locks == a.locks
         || (move.Resolve? && a.threads[move.t].Busy? && move.made !in a.locks.Values
             && b.locks == a.locks[a.threads[move.t].device := move.made])
  {
    hide Do, Start, Saved, Created, Succeeded, Noted, Worked, OpOf, ValidCommand, Result;
  }

  lemma QuietMoveOk(a: Machine, move: Move, b: Machine)
    requires Inv(a) && Next(a, move, b) && !Writes(move)
    ensures Inv(b)
  {
    hide Next, ThreadOk, LocksOk;
    OthersStandStill(a, move, b);
    LocksStayOk(a, move, b);
    forall t ensures ThreadOk(b, t) {
      if t == move.t {
        MoverOk(a, move, b);
      } else {
        QuietOtherOk(a, move, b, t);
      }
    }
    forall id ensures StoredOk(b, id) && LifeOk(b, id) {
      assert StoredOk(a, id) && LifeOk(a, id);
      if Notes(move) {
        NotedLifeOk(a, move, b, id);
      }
    }
  }

  lemma NotedLifeOk(a: Machine, move: Move, b: Machine, id: string)
    requires Inv(a) && Next(a, move, b) && Notes(move)
    ensures LifeOk(b, id)
  {
    hide Next, LocksOk, OneEach, Do;
    OthersStandStill(a, move, b);
    NoteDoes(a, move, b);
    assert ThreadOk(a, move.t) && LifeOk(a, id) && LifeOk(a, a.threads[move.t].id);
    var local := a.threads[move.t];
    var step := local.phase.task.step;
    if id == local.id && id in a.lives {
      LifeGoesOn(a.lives[id], step.(kept := move.Refuse?));
      KeptIsNoMatter(step, local.phase.task.read, move.Refuse?);
      if move.Refuse? {
        RefusedStays(step, local.phase.task.read);
      }
    }
  }

  lemma KeptIsNoMatter(step: Step, s: Session, kept: bool)
    requires s.HasCurrent() && ValidStep(step)
    ensures Do(step.(kept := kept), s) == Do(step, s)
  {
    hide Tick, Run;
  }

  /** A step refused leaves its session as it was. */
  lemma RefusedStays(step: Step, s: Session)
    requires s.HasCurrent() && ValidStep(step) && Do(step, s).error.Some?
    ensures Do(step, s).session == s
  {
    hide Decide, Reconcile, Apply, FollowNarration, Pending;
  }

  lemma QuietOtherOk(a: Machine, move: Move, b: Machine, t: Thread)
    requires Inv(a) && Next(a, move, b) && !Writes(move) && t != move.t
    ensures ThreadOk(b, t)
  {
    hide Next, LifeOk, StoredOk, OneEach, LocksOk;
    OthersStandStill(a, move, b);
    assert ThreadOk(a, t) && ThreadOk(a, move.t);
    OtherThreadOk(a, move, b, t);
  }

  // ---- moves that write ----

  lemma LifeGoesOn(life: Life, step: Step)
    requires life.first.HasCurrent() && ValidRun(life.steps) && ValidStep(step)
    ensures var longer := life.steps + [step];
      && ValidRun(longer)
      && var now := At(life.first, life.steps, |life.steps|);
         At(life.first, longer, |longer|) == if step.kept then Do(step, now).session else now
  {
    hide Do;
    AtOfALongerRun(life.first, life.steps, life.steps + [step], |life.steps|);
  }

  /** A save writes the step's outcome over exactly the session the step was decided on, and it is never refused. */
  lemma SaveDoes(a: Machine, move: Move, b: Machine)
    requires Inv(a) && Next(a, move, b) && move.SaveIt?
    ensures move.t in a.threads
    ensures var local := a.threads[move.t];
      && local.Busy? && local.phase.Held? && local.phase.task.Working?
      && var id, task := local.id, local.phase.task;
      && id in a.store && a.store[id] == task.read && task.read.HasCurrent() && ValidStep(task.step)
      && id in a.lives
      && task.read.state != Ended && task.read.sitting.deviceId == local.device
      && Do(task.step, task.read).session.sitting == task.read.sitting
      && b.store == a.store[id := Do(task.step, task.read).session]
      && b.lives == a.lives[id := a.lives[id].Then(task.step.(kept := true))]
  {
    hide Do, LocksOk, OneEach;
    var t := move.t;
    var local := a.threads[t];
    assert ThreadOk(a, t) && StoredOk(a, local.id) && LifeOk(a, local.id);
    StepMoved(local.phase.task.step, local.phase.task.read);
  }

  lemma SaveOk(a: Machine, move: Move, b: Machine)
    requires Inv(a) && Next(a, move, b) && move.SaveIt?
    ensures Inv(b)
  {
    hide Next, Do, ThreadOk, LocksOk;
    SaveDoes(a, move, b);
    OthersStandStill(a, move, b);
    LocksStayOk(a, move, b);
    var local := a.threads[move.t];
    forall t ensures ThreadOk(b, t) {
      SaveThreadOk(a, move, b, t);
    }
    forall id ensures StoredOk(b, id) && LifeOk(b, id) {
      assert StoredOk(a, id) && LifeOk(a, id);
      if id == local.id {
        LifeGoesOn(a.lives[id], local.phase.task.step.(kept := true));
        KeptIsNoMatter(local.phase.task.step, local.phase.task.read, true);
      }
    }
    assert forall id :: id in b.store ==>
      b.store[id].sitting == a.store[id].sitting && (LiveOn(b.store, id) ==> LiveOn(a.store, id));
  }

  lemma SaveThreadOk(a: Machine, move: Move, b: Machine, t: Thread)
    requires Inv(a) && Next(a, move, b) && move.SaveIt?
    ensures ThreadOk(b, t)
  {
    hide Do, LocksOk, OneEach, LifeOk, StoredOk, Next;
    SaveDoes(a, move, b);
    OthersStandStill(a, move, b);
    assert ThreadOk(a, t) && ThreadOk(a, move.t);
    if t == move.t {
      SaverOk(a, move, b);
    } else {
      if t in a.threads && a.threads[t].Busy? && a.threads[t].phase.Held?
         && (a.threads[t].phase.task.Reading? || a.threads[t].phase.task.Working?) && a.threads[t].id == a.threads[move.t].id {
        OneHolder(a, t, move.t);
      }
      OtherThreadOk(a, move, b, t);
    }
  }

  lemma SaverOk(a: Machine, move: Move, b: Machine)
    requires Inv(a) && Next(a, move, b) && Writes(move)
    requires ThreadOk(a, move.t)
    requires forall id :: id in a.store ==> id in b.store && b.store[id].sitting == a.store[id].sitting
    ensures ThreadOk(b, move.t)
  {
    hide Do, LocksOk, OneEach, LifeOk, StoredOk, Saved, Created, Succeeded;
  }

  /** A creation writes a new session and ends what was live on its speaker, and touches nothing else. */
  lemma CreateDoes(a: Machine, move: Move, b: Machine)
    requires Inv(a) && Next(a, move, b) && move.CreateIt?
    ensures move.t in a.threads
    ensures var local := a.threads[move.t];
      && local.Busy? && local.phase.Held? && local.phase.task.Opening? && local.phase.task.started.Some?
      && var s, via := local.phase.task.started.value, local.phase.task.via;
      && s.HasCurrent() && s.state != Ended && s.sitting.deviceId == local.device
      && s.sitting.id !in a.store
      && b.store == Created(a.store, s, via.now)
      && b.lives == Succeeded(a.store, a.lives, s, via, local.phase.task.opening)
  {
    hide Do, LocksOk, OneEach, LifeOk, StoredOk, Created, Succeeded;
    assert ThreadOk(a, move.t);
  }

  lemma CreatedStore(store: Store, s: Session, now: Time, id: string)
    requires s.sitting.id !in store
    ensures var after := Created(store, s, now);
      && (id in after <==> id in store || id == s.sitting.id)
      && (id == s.sitting.id ==> after[id] == s)
      && (id in store ==> after[id] == Superseded(store[id], s, now) && after[id].sitting == store[id].sitting)
  {
  }

  lemma ReplacedLife(a: Machine, s: Session, via: Step, opening: seq<Event>, id: string)
    requires LifeOk(a, id) && StoredOk(a, id) && id in a.store && s.sitting.id !in a.store
    ensures var lives := Succeeded(a.store, a.lives, s, via, opening);
      && id in lives
      && lives[id].first.HasCurrent() && ValidRun(lives[id].steps)
      && Superseded(a.store[id], s, via.now) == At(lives[id].first, lives[id].steps, |lives[id].steps|)
  {
    LifeGoesOn(a.lives[id], via.(op := ReplacedOp, kept := true));
    hide At;
  }

  lemma CreateOk(a: Machine, move: Move, b: Machine)
    requires Inv(a) && Next(a, move, b) && move.CreateIt?
    ensures Inv(b)
  {
    hide Next, Do, ThreadOk, LocksOk, Created, Succeeded, OneEach, StoredOk, LifeOk;
    LocksStayOk(a, move, b);
    forall t ensures ThreadOk(b, t) {
      CreateThreadOk(a, move, b, t);
    }
    forall id ensures StoredOk(b, id) && LifeOk(b, id) {
      CreateStoredOk(a, move, b, id);
    }
    CreateOneEach(a, move, b);
  }

  lemma CreateStoredOk(a: Machine, move: Move, b: Machine, id: string)
    requires Inv(a) && Next(a, move, b) && move.CreateIt?
    ensures StoredOk(b, id) && LifeOk(b, id)
  {
    hide Next, Do, ThreadOk, LocksOk, OneEach, Created;
    CreateDoes(a, move, b);
    var task := a.threads[move.t].phase.task;
    var s, via := task.started.value, task.via;
    CreatedStore(a.store, s, via.now, id);
    assert StoredOk(a, id) && LifeOk(a, id);
    if id in a.store {
      ReplacedLife(a, s, via, task.opening, id);
    }
  }

  lemma CreateOneEach(a: Machine, move: Move, b: Machine)
    requires Inv(a) && Next(a, move, b) && move.CreateIt?
    ensures OneEach(b)
  {
    hide Next, Do, ThreadOk, LocksOk, Created, StoredOk, LifeOk;
    CreateDoes(a, move, b);
    var task := a.threads[move.t].phase.task;
    var s, via := task.started.value, task.via;
    forall id ensures LiveOn(b.store, id) ==>
      || id == s.sitting.id
      || (LiveOn(a.store, id) && b.store[id] == a.store[id] && a.store[id].sitting.deviceId != s.sitting.deviceId)
    {
      CreatedStore(a.store, s, via.now, id);
    }
    CreatedStore(a.store, s, via.now, s.sitting.id);
  }

  lemma CreateThreadOk(a: Machine, move: Move, b: Machine, t: Thread)
    requires Inv(a) && Next(a, move, b) && move.CreateIt?
    ensures ThreadOk(b, t)
  {
    hide Do, LocksOk, OneEach, LifeOk, StoredOk, Next, Created;
    CreateDoes(a, move, b);
    OthersStandStill(a, move, b);
    var task := a.threads[move.t].phase.task;
    assert ThreadOk(a, t) && ThreadOk(a, move.t);
    forall id | id in a.store ensures id in b.store && b.store[id].sitting == a.store[id].sitting {
      CreatedStore(a.store, task.started.value, task.via.now, id);
    }
    if t == move.t {
      SaverOk(a, move, b);
    } else {
      if t in a.threads && a.threads[t].Busy? {
        var id := a.threads[t].id;
        CreatedStore(a.store, task.started.value, task.via.now, id);
        if a.threads[t].phase.Held? && a.threads[t].device == a.threads[move.t].device {
          OneHolder(a, t, move.t);
        }
      }
      OtherThreadOk(a, move, b, t);
    }
  }

  // ---- over executions ----

  lemma NextOk(a: Machine, move: Move, b: Machine)
    requires Inv(a) && Next(a, move, b)
    ensures Inv(b)
  {
    hide Inv, Next;
    if move.SaveIt? {
      SaveOk(a, move, b);
    } else if move.CreateIt? {
      CreateOk(a, move, b);
    } else {
      QuietMoveOk(a, move, b);
    }
  }

  /** In every interleaving, every machine reached keeps the invariant. */
  lemma {:induction false} AlwaysOk(ms: seq<Machine>, moves: seq<Move>, k: nat)
    requires Execution(ms, moves) && k < |ms|
    ensures Inv(ms[k])
    decreases k
  {
    hide Inv, Next;
    if k == 0 {
      StartsOk(ms[0]);
    } else {
      AlwaysOk(ms, moves, k - 1);
      NextOk(ms[k - 1], moves[k - 1], ms[k]);
    }
  }

  // ---- what that says ----

  /** What a goroutine has read under its speaker's lock, until it saves or leaves. */
  predicate HasRead(m: Machine, t: Thread) {
    && t in m.threads && m.threads[t].Busy? && m.threads[t].phase.Held?
    && (m.threads[t].phase.task.Reading? || m.threads[t].phase.task.Working?)
  }

  function ReadBy(m: Machine, t: Thread): Session
    requires HasRead(m, t)
  {
    var task := m.threads[t].phase.task;
    if task.Reading? then task.before else task.read
  }

  /**
   From its read under the lock to its own save, a goroutine finds storage
   holding exactly the session it read, live, and itself the only holder of the
   speaker's one lock.
   */
  lemma ReadIsWhatIsStored(ms: seq<Machine>, moves: seq<Move>, k: nat, t: Thread)
    requires Execution(ms, moves) && k < |ms| && HasRead(ms[k], t)
    ensures var m := ms[k];
      var local := m.threads[t];
      && local.id in m.store && m.store[local.id] == ReadBy(m, t) && m.store[local.id].state != Ended
      && m.store[local.id].sitting.deviceId == local.device
      && local.device in m.locks && m.locks[local.device] in m.holder && m.holder[m.locks[local.device]] == t
      && forall t' :: HasRead(m, t') && m.threads[t'].device == local.device ==> t' == t
  {
    hide Next, Execution, LocksOk, OneEach, StoredOk, LifeOk;
    AlwaysOk(ms, moves, k);
    assert ThreadOk(ms[k], t);
    forall t' | HasRead(ms[k], t') && ms[k].threads[t'].device == ms[k].threads[t].device ensures t' == t {
      assert ThreadOk(ms[k], t');
    }
  }

  /** No update is lost: a save replaces the very session its step was decided on, by what that step makes of it. */
  lemma NoUpdateIsLost(ms: seq<Machine>, moves: seq<Move>, k: nat)
    requires Execution(ms, moves) && k < |moves| && moves[k].SaveIt?
    ensures HasRead(ms[k], moves[k].t) && ms[k].threads[moves[k].t].phase.task.Working?
    ensures var local := ms[k].threads[moves[k].t];
      var task := local.phase.task;
      && local.id in ms[k].store && ms[k].store[local.id] == task.read
      && task.read.HasCurrent() && ValidStep(task.step)
      && ms[k + 1].store == ms[k].store[local.id := Do(task.step, task.read).session]
  {
    hide Next, Inv, Do;
    AlwaysOk(ms, moves, k);
    SaveDoes(ms[k], moves[k], ms[k + 1]);
  }

  /**
   Every order sent is sent by the one holder of its own speaker's lock, and on
   behalf of a stored session only while that session is live in storage.
   */
  lemma OrdersAreSentUnderTheLock(ms: seq<Machine>, moves: seq<Move>, k: nat)
    requires Execution(ms, moves) && k < |moves| && moves[k].Send?
    ensures |ms[k + 1].log| == |ms[k].log| + 1 && ms[k].log <= ms[k + 1].log
    ensures var m := ms[k];
      var sent := ms[k + 1].log[|m.log|];
      && (sent.event.IsOrder() ==> sent.event.device == sent.device)
      && sent.device in m.locks && m.locks[sent.device] in m.holder && m.holder[m.locks[sent.device]] == sent.thread
      && (HasRead(m, sent.thread) ==>
            sent.id in m.store && m.store[sent.id].state != Ended && m.store[sent.id].sitting.deviceId == sent.device)
      && (!HasRead(m, sent.thread) ==> sent.thread in m.threads && m.threads[sent.thread].Busy? && m.threads[sent.thread].job.StartJob?)
  {
    hide LocksOk, OneEach, StoredOk, LifeOk, Do, Start;
    AlwaysOk(ms, moves, k);
    assert Next(ms[k], moves[k], ms[k + 1]);
    assert ThreadOk(ms[k], moves[k].t);
  }

  /** In every store reached two live sessions are on two speakers. */
  lemma OneLiveSessionToASpeaker(ms: seq<Machine>, moves: seq<Move>, k: nat, id: string, id': string)
    requires Execution(ms, moves) && k < |ms| && LiveOn(ms[k].store, id) && LiveOn(ms[k].store, id') && id != id'
    ensures ms[k].store[id].sitting.deviceId != ms[k].store[id'].sitting.deviceId
  {
    hide Next, Execution, LocksOk, StoredOk, LifeOk;
    AlwaysOk(ms, moves, k);
  }

  // ---- stored lives ----

  /** Lives are only ever added to. */
  ghost predicate LifeGrows(a: Machine, b: Machine, id: string) {
    id in a.lives && id in a.store ==>
      && id in b.lives && id in b.store
      && b.lives[id].first == a.lives[id].first && a.lives[id].steps <= b.lives[id].steps
  }

  lemma NextGrows(a: Machine, move: Move, b: Machine, id: string)
    requires Inv(a) && Next(a, move, b)
    ensures LifeGrows(a, b, id)
  {
    hide Next, Do, Inv;
    OthersStandStill(a, move, b);
    if move.SaveIt? {
      SaveDoes(a, move, b);
    } else if move.CreateIt? {
      CreateDoes(a, move, b);
    } else if Notes(move) {
      NoteDoes(a, move, b);
    }
  }

  lemma {:induction false} LivesGrow(ms: seq<Machine>, moves: seq<Move>, i: nat, j: nat, id: string)
    requires Execution(ms, moves) && i <= j < |ms|
    ensures LifeGrows(ms[i], ms[j], id)
    decreases j
  {
    hide Inv, Next;
    if i < j {
      LivesGrow(ms, moves, i, j - 1, id);
      AlwaysOk(ms, moves, j - 1);
      NextGrows(ms[j - 1], moves[j - 1], ms[j], id);
    }
  }

  /**
   Every interleaving is, session by session, a run: what is stored later is
   what a run of whole steps makes of what was stored before.
   */
  lemma InterleavingsAreRuns(ms: seq<Machine>, moves: seq<Move>, i: nat, j: nat, id: string)
    returns (first: Session, steps: seq<Step>, n: nat)
    requires Execution(ms, moves) && i <= j < |ms| && id in ms[i].store
    ensures id in ms[j].store && first.HasCurrent() && ValidRun(steps) && n <= |steps|
    ensures ms[i].store[id] == At(first, steps, n)
    ensures ms[j].store[id] == At(first, steps, |steps|)
  {
    hide Next, Execution, ThreadOk, LocksOk, OneEach, StoredOk;
    AlwaysOk(ms, moves, i);
    AlwaysOk(ms, moves, j);
    LivesGrow(ms, moves, i, j, id);
    assert LifeOk(ms[i], id) && LifeOk(ms[j], id);
    first, steps, n := ms[j].lives[id].first, ms[j].lives[id].steps, |ms[i].lives[id].steps|;
    AtOfALongerRun(first, ms[i].lives[id].steps, steps, n);
  }

  /** A session that has ended in storage stays exactly as it ended. */
  lemma EndedForEver(ms: seq<Machine>, moves: seq<Move>, i: nat, j: nat, id: string)
    requires Execution(ms, moves) && i <= j < |ms| && id in ms[i].store && ms[i].store[id].state == Ended
    ensures id in ms[j].store && ms[j].store[id] == ms[i].store[id]
  {
    hide *;
    var first, steps, n := InterleavingsAreRuns(ms, moves, i, j, id);
    EndedStays(first, steps, n, |steps|);
  }

  /** Versions name one queue and one current item in storage too, whoever wrote in between. */
  lemma StoredVersionsNameOneQueue(ms: seq<Machine>, moves: seq<Move>, i: nat, j: nat, id: string)
    requires Execution(ms, moves) && i <= j < |ms| && id in ms[i].store
    ensures id in ms[j].store && Moved(ms[i].store[id], ms[j].store[id])
  {
    hide *;
    var first, steps, n := InterleavingsAreRuns(ms, moves, i, j, id);
    VersionsNameOneQueue(first, steps, n, |steps|);
  }
}
