/**
 Goroutines at the engine's two caches. Their mutex is held for a look and for
 a write and not while the gateway is asked in between, so another goroutine's
 write may land there
 (services/cast/internal/usecase/engine.go:264-314, 487-493).
 */
module CacheRaces {
  import opened Wrappers
  import opened CastSession
  import opened CastWorld
  import opened CastCaches

  type Goroutine = nat

  datatype Question = OfLanguage(video: string) | OfForm(video: string, kind: Kind)

  // A goroutine that found no answer that stands goes on to ask for one, and
  // then holds it until it is written. `since` is how much had happened to the
  // caches when it looked.
  datatype Use =
    | Idle
    | Looked(question: Question, since: nat)
    | Answered(since: nat, word: Word, nth: nat)

  // The gateway's answers, by how many questions it was asked before.
  datatype Gateway = Gateway(
    language: (nat, string) -> string,
    prepare: (nat, string) -> Option<NarratedAnswer>)

  // The caches with everything written into them, what each goroutine is
  // about, and how often the gateway was asked.
  datatype Race = Race(memory: Memory, uses: map<Goroutine, Use>, asked: nat)

  datatype Act =
    | Look(t: Goroutine, question: Question, now: Time)
    | Ask(t: Goroutine, now: Time)
    | Write(t: Goroutine)
    | Seed(video: string, language: string)

  /** What the caches have is not asked for again. */
  predicate Stands(m: Memory, question: Question, now: Time) {
    match question
    case OfLanguage(video) => video in m.spoken && m.spoken[video].Stands(now)
    case OfForm(video, kind) => ReadyKnown(m, kind, video)
  }

  function UseOf(a: Race, t: Goroutine): Use { if t in a.uses then a.uses[t] else Idle }

  /** What a goroutine holds once its question is answered; nothing when the gateway did not answer. */
  function AnswerTo(g: Gateway, question: Question, since: nat, nth: nat, now: Time): Use {
    match question
    case OfLanguage(video) => Answered(since, Language(video, SpokenAnswer(g.language(nth, video), now + SPOKEN_RETRY)), nth)
    case OfForm(video, _) =>
      match g.prepare(nth, video)
      case None => Idle
      case Some(answer) => Answered(since, Form(video, answer), nth)
  }

  predicate Enabled(a: Race, act: Act) {
    match act
    case Look(t, _, _) => UseOf(a, t).Idle?
    case Ask(t, _) => UseOf(a, t).Looked?
    case Write(t) => UseOf(a, t).Answered?
    case Seed(_, language) => language != ""
  }

  function After(g: Gateway, a: Race, act: Act): Race
    requires Enabled(a, act)
  {
    match act
    case Look(t, question, now) =>
      if Stands(a.memory, question, now) then a
      else a.(uses := a.uses[t := Looked(question, |a.memory.trace|)])
    case Ask(t, now) =>
      var use := UseOf(a, t);
      a.(uses := a.uses[t := AnswerTo(g, use.question, use.since, a.asked, now)], asked := a.asked + 1)
    case Write(t) => a.(memory := Remember(a.memory, UseOf(a, t).word), uses := a.uses[t := Idle])
    case Seed(video, language) => a.(memory := Remember(a.memory, SeedWord(video, language)))
  }

  function SeedWord(video: string, language: string): Word { Language(video, SpokenAnswer(language, ZERO_TIME)) }

  ghost predicate Unfolds(g: Gateway, races: seq<Race>, acts: seq<Act>) {
    && |races| == |acts| + 1
    && races[0] == Race(Memory(map[], map[], []), map[], 0)
    && forall k :: 0 <= k < |acts| ==> Enabled(races[k], acts[k]) && races[k + 1] == After(g, races[k], acts[k])
  }

  // ---- what a goroutine may count on ----

  predicate SameCache(word: Word, other: Word) {
    word.video == other.video && word.Language? == other.Language?
  }

  /** Somebody has written about the same thing since. */
  ghost predicate WrittenSince(m: Memory, since: nat, word: Word) {
    exists k :: since <= k < |m.trace| && m.trace[k].Remembered? && SameCache(m.trace[k].word, word)
  }

  /** The gateway gave this answer to a question before the n-th. */
  ghost predicate GivenBefore(g: Gateway, video: string, answer: NarratedAnswer, n: nat) {
    exists k: nat :: k < n && g.prepare(k, video) == Some(answer)
  }

  /** What a cache has about a word to be written is older than the answer it holds. */
  ghost predicate Older(g: Gateway, m: Memory, word: Word, n: nat) {
    match word
    case Language(video, _) => KnownLanguage(m, video) == ""
    case Form(video, _) => video in m.narrated ==> GivenBefore(g, video, m.narrated[video], n)
  }

  /** The word an answer to the question is written as, whatever it says. */
  function Blank(question: Question): Word {
    match question
    case OfLanguage(video) => Language(video, SpokenAnswer("", ZERO_TIME))
    case OfForm(video, _) => Form(video, NarratedAnswer(NarratedNone, NarratedNone))
  }

  /** Unless somebody wrote about it since the look, a cache has nothing newer than the answer being fetched. */
  ghost predicate UseSound(g: Gateway, a: Race, use: Use) {
    match use
    case Idle => true
    case Looked(question, since) =>
      since <= |a.memory.trace| && (WrittenSince(a.memory, since, Blank(question)) || Older(g, a.memory, Blank(question), a.asked))
    case Answered(since, word, nth) =>
      && since <= |a.memory.trace| && nth < a.asked
      && (word.Form? ==> g.prepare(nth, word.video) == Some(word.narrated))
      && (WrittenSince(a.memory, since, word) || Older(g, a.memory, word, nth))
  }

  ghost predicate Sound(g: Gateway, a: Race) {
    && (forall video :: video in a.memory.narrated ==> GivenBefore(g, video, a.memory.narrated[video], a.asked))
    && (forall t :: t in a.uses ==> UseSound(g, a, a.uses[t]))
  }

  lemma SinceSame(m: Memory, since: nat, word: Word, other: Word)
    requires SameCache(word, other)
    ensures WrittenSince(m, since, word) == WrittenSince(m, since, other)
  {
  }

  lemma WriteIsSince(m: Memory, since: nat, written: Word, word: Word)
    requires since <= |m.trace|
    ensures var m' := Remember(m, written);
      WrittenSince(m', since, word) <==> WrittenSince(m, since, word) || SameCache(written, word)
  {
    var m' := Remember(m, written);
    assert m'.trace[|m.trace|].word == written;
    assert forall k :: 0 <= k < |m.trace| ==> m'.trace[k] == m.trace[k];
  }

  lemma UseStaysSound(g: Gateway, a: Race, written: Word, b: Race, use: Use)
    requires UseSound(g, a, use) && b.memory == Remember(a.memory, written) && b.asked == a.asked
    ensures UseSound(g, b, use)
  {
    hide WrittenSince, GivenBefore;
    match use
    case Idle =>
    case Looked(question, since) => WriteIsSince(a.memory, since, written, Blank(question));
    case Answered(since, word, nth) => WriteIsSince(a.memory, since, written, word);
  }

  lemma GivenBeforeMore(g: Gateway, video: string, answer: NarratedAnswer, n: nat, n': nat)
    requires GivenBefore(g, video, answer, n) && n <= n'
    ensures GivenBefore(g, video, answer, n')
  {
  }

  lemma LookKeeps(g: Gateway, a: Race, act: Act)
    requires Sound(g, a) && Enabled(a, act) && act.Look?
    ensures Sound(g, After(g, a, act))
  {
    hide WrittenSince, GivenBefore;
  }

  lemma AskKeeps(g: Gateway, a: Race, act: Act)
    requires Sound(g, a) && Enabled(a, act) && act.Ask?
    ensures Sound(g, After(g, a, act))
  {
    hide WrittenSince, GivenBefore;
    var b := After(g, a, act);
    forall video | video in b.memory.narrated ensures GivenBefore(g, video, b.memory.narrated[video], b.asked) {
      GivenBeforeMore(g, video, b.memory.narrated[video], a.asked, b.asked);
    }
    forall t | t in b.uses ensures UseSound(g, b, b.uses[t]) {
      if t == act.t {
        AnswerIsSound(g, a, b, a.uses[t], act.now);
      } else {
        OthersAreSound(g, a, b, a.uses[t]);
      }
    }
  }

  lemma AnswerIsSound(g: Gateway, a: Race, b: Race, use: Use, now: Time)
    requires use.Looked? && UseSound(g, a, use) && b.memory == a.memory && b.asked == a.asked + 1
    ensures UseSound(g, b, AnswerTo(g, use.question, use.since, a.asked, now))
  {
    hide WrittenSince, GivenBefore;
    var answered := AnswerTo(g, use.question, use.since, a.asked, now);
    if answered.Answered? {
      SinceSame(a.memory, use.since, Blank(use.question), answered.word);
    }
  }

  lemma OthersAreSound(g: Gateway, a: Race, b: Race, use: Use)
    requires UseSound(g, a, use) && b.memory == a.memory && b.asked == a.asked + 1
    ensures UseSound(g, b, use)
  {
    hide WrittenSince;
  }

  lemma WriteKeeps(g: Gateway, a: Race, act: Act)
    requires Sound(g, a) && Enabled(a, act) && (act.Write? || act.Seed?)
    ensures Sound(g, After(g, a, act))
  {
    hide WrittenSince, UseSound;
    var b := After(g, a, act);
    var written := if act.Write? then UseOf(a, act.t).word else SeedWord(act.video, act.language);
    if act.Write? {
      AnsweredIsGiven(g, a, a.uses[act.t]);
    }
    forall t | t in b.uses ensures UseSound(g, b, b.uses[t]) {
      if !(act.Write? && t == act.t) {
        UseStaysSound(g, a, written, b, b.uses[t]);
      } else {
        IdleIsSound(g, b);
      }
    }
  }

  lemma IdleIsSound(g: Gateway, a: Race)
    ensures UseSound(g, a, Idle)
  {
  }

  lemma AnsweredIsGiven(g: Gateway, a: Race, use: Use)
    requires use.Answered? && UseSound(g, a, use)
    ensures use.word.Form? ==> GivenBefore(g, use.word.video, use.word.narrated, a.asked)
  {
  }

  lemma {:induction false} AlwaysSound(g: Gateway, races: seq<Race>, acts: seq<Act>, k: nat)
    requires Unfolds(g, races, acts) && k < |races|
    ensures Sound(g, races[k])
    decreases k
  {
    hide Sound, After, Enabled;
    if k == 0 {
      StartIsSound(g, races[0]);
    } else {
      AlwaysSound(g, races, acts, k - 1);
      match acts[k - 1]
      case Look(_, _, _) => LookKeeps(g, races[k - 1], acts[k - 1]);
      case Ask(_, _) => AskKeeps(g, races[k - 1], acts[k - 1]);
      case _ => WriteKeeps(g, races[k - 1], acts[k - 1]);
    }
  }

  lemma StartIsSound(g: Gateway, a: Race)
    requires a == Race(Memory(map[], map[], []), map[], 0)
    ensures Sound(g, a)
  {
  }

  // ---- which writes undo ----

  /** The gateway's Ready never goes back, in either form: what it once answered Ready it answers Ready whenever it answers. */
  ghost predicate ReadyIsFinal(g: Gateway) {
    forall n: nat, n': nat, video :: n <= n' && g.prepare(n, video).Some? && g.prepare(n', video).Some? ==>
      && (g.prepare(n, video).value.file == NarratedReady ==> g.prepare(n', video).value.file == NarratedReady)
      && (g.prepare(n, video).value.stream == NarratedReady ==> g.prepare(n', video).value.stream == NarratedReady)
  }

  /** The write that is about to be made, as the log will have it. */
  function WriteOf(a: Race, t: Goroutine): Event
    requires UseOf(a, t).Answered?
  {
    Remembered(UseOf(a, t).word, Known(a.memory, UseOf(a, t).word))
  }

  /**
   Only a write that another one has come before since its look can undo
   anything: uses of the caches that do not overlap undo nothing, whatever the
   gateway answers of languages, and as long as its Ready is final.
   */
  lemma OnlyOverlappingWritesUndo(g: Gateway, races: seq<Race>, acts: seq<Act>, k: nat, kind: Kind, video: string)
    requires Unfolds(g, races, acts) && k < |acts| && acts[k].Write? && ReadyIsFinal(g)
    ensures Enabled(races[k], acts[k])
    ensures var use := UseOf(races[k], acts[k].t);
      Undoes(WriteOf(races[k], acts[k].t), kind, video) ==> WrittenSince(races[k].memory, use.since, use.word)
  {
    hide WrittenSince, After, ReadyIsFinal, GivenBefore;
    AlwaysSound(g, races, acts, k);
    var a, use := races[k], UseOf(races[k], acts[k].t);
    assert UseSound(g, a, use);
    if Older(g, a.memory, use.word, use.nth) {
      OlderIsNotUndone(g, a.memory, use, kind, video);
    }
  }

  lemma OlderIsNotUndone(g: Gateway, m: Memory, use: Use, kind: Kind, video: string)
    requires use.Answered? && Older(g, m, use.word, use.nth) && ReadyIsFinal(g)
    requires use.word.Form? ==> g.prepare(use.nth, use.word.video) == Some(use.word.narrated)
    ensures !Undoes(Remembered(use.word, Known(m, use.word)), kind, video)
  {
    if use.word.Form? && use.word.video in m.narrated {
      var k: nat :| k < use.nth && g.prepare(k, use.word.video) == Some(m.narrated[use.word.video]);
    }
  }

  /** A song is spoken in one language: whatever the gateway or the catalogue says of it is that, or nothing. */
  ghost predicate OneLanguage(g: Gateway, acts: seq<Act>, spokenIn: string -> string) {
    && (forall n, video :: g.language(n, video) in {"", spokenIn(video)})
    && (forall k :: 0 <= k < |acts| && acts[k].Seed? ==> acts[k].language == spokenIn(acts[k].video))
  }

  ghost predicate SaysOne(word: Word, spokenIn: string -> string) {
    word.Language? ==> word.spoken.language in {"", spokenIn(word.video)}
  }

  lemma {:induction false} AlwaysOneLanguage(g: Gateway, races: seq<Race>, acts: seq<Act>, spokenIn: string -> string, k: nat)
    requires Unfolds(g, races, acts) && k < |races| && OneLanguage(g, acts, spokenIn)
    ensures forall video :: KnownLanguage(races[k].memory, video) in {"", spokenIn(video)}
    ensures forall t :: t in races[k].uses && races[k].uses[t].Answered? ==> SaysOne(races[k].uses[t].word, spokenIn)
    decreases k
  {
    if k > 0 {
      AlwaysOneLanguage(g, races, acts, spokenIn, k - 1);
      assert Enabled(races[k - 1], acts[k - 1]) && races[k] == After(g, races[k - 1], acts[k - 1]);
    }
  }

  /** Then a language is undone exactly by a late "not known" over one learned meanwhile, and describing a queue undoes nothing. */
  lemma LanguageUndoneWhen(g: Gateway, races: seq<Race>, acts: seq<Act>, spokenIn: string -> string, k: nat, kind: Kind, video: string)
    requires Unfolds(g, races, acts) && k < |acts| && OneLanguage(g, acts, spokenIn)
    ensures acts[k].Write? && UseOf(races[k], acts[k].t).Answered? && UseOf(races[k], acts[k].t).word.Language? ==>
      var word := UseOf(races[k], acts[k].t).word;
      Undoes(WriteOf(races[k], acts[k].t), kind, video) <==>
        word.video == video && word.spoken.language == "" && KnownLanguage(races[k].memory, video) != ""
    ensures acts[k].Seed? ==>
      var word := SeedWord(acts[k].video, acts[k].language);
      !Undoes(Remembered(word, Known(races[k].memory, word)), kind, video)
  {
    hide After, Enabled;
    AlwaysOneLanguage(g, races, acts, spokenIn, k);
  }

  /** An answer about a song's narrated sound undoes Ready only when it is older than the one it replaces. */
  lemma FormUndoneOnlyByAnOlderAnswer(g: Gateway, races: seq<Race>, acts: seq<Act>, k: nat, kind: Kind, video: string)
    requires Unfolds(g, races, acts) && k < |acts| && acts[k].Write? && ReadyIsFinal(g)
    requires Enabled(races[k], acts[k]) && UseOf(races[k], acts[k].t).word.Form?
    requires Undoes(WriteOf(races[k], acts[k].t), kind, video)
    ensures var use := UseOf(races[k], acts[k].t);
      exists n: nat :: use.nth < n < races[k].asked && g.prepare(n, video) == Some(races[k].memory.narrated[video])
  {
    hide WrittenSince, After, ReadyIsFinal, Older;
    AlwaysSound(g, races, acts, k);
    var a, use := races[k], UseOf(races[k], acts[k].t);
    assert UseSound(g, a, use);
    var n: nat :| n < a.asked && g.prepare(n, video) == Some(a.memory.narrated[video]);
    if n <= use.nth {
      ReadyStays(g, n, use.nth, video, kind);
      assert false;
    }
  }

  lemma ReadyStays(g: Gateway, n: nat, n': nat, video: string, kind: Kind)
    requires ReadyIsFinal(g) && n <= n' && g.prepare(n, video).Some? && g.prepare(n', video).Some?
    ensures FormFor(kind, g.prepare(n, video).value) == NarratedReady ==> FormFor(kind, g.prepare(n', video).value) == NarratedReady
  {
  }

  // ---- what one goroutine finds ----

  /** What was written from `i` up to `j`, in order. */
  ghost function WordsWritten(races: seq<Race>, acts: seq<Act>, i: nat, j: nat): seq<Word>
    requires i <= j <= |acts| <= |races|
    requires forall k :: i <= k < j ==> Enabled(races[k], acts[k])
  {
    if i == j then []
    else
      assert Enabled(races[j - 1], acts[j - 1]);
      WordsWritten(races, acts, i, j - 1)
      + match acts[j - 1]
        case Write(t) => [UseOf(races[j - 1], t).word]
        case Seed(video, language) => [SeedWord(video, language)]
        case _ => []
  }

  /** Between two uses of the caches by one goroutine, they change by what was written, in order: what a World's `lands` stands for. */
  lemma {:induction false} CachesAreWhatWasWritten(g: Gateway, races: seq<Race>, acts: seq<Act>, i: nat, j: nat)
    requires Unfolds(g, races, acts) && i <= j <= |acts|
    ensures RememberAll(races[i].memory, WordsWritten(races, acts, i, j)) == races[j].memory
    decreases j
  {
    hide Remember;
    if i < j {
      CachesAreWhatWasWritten(g, races, acts, i, j - 1);
      var before := WordsWritten(races, acts, i, j - 1);
      assert Enabled(races[j - 1], acts[j - 1]) && races[j] == After(g, races[j - 1], acts[j - 1]);
      match acts[j - 1]
      case Write(t) => assert (before + [UseOf(races[j - 1], t).word])[..|before|] == before;
      case Seed(video, language) => assert (before + [SeedWord(video, language)])[..|before|] == before;
      case _ => assert before + [] == before;
    }
  }

  predicate ActsFor(act: Act, t: Goroutine) { !act.Seed? && act.t == t }

  /** A goroutine that does nothing stays about what it was. */
  lemma {:induction false} StaysAbout(g: Gateway, races: seq<Race>, acts: seq<Act>, i: nat, j: nat, t: Goroutine)
    requires Unfolds(g, races, acts) && i <= j <= |acts| && forall n :: i <= n < j ==> !ActsFor(acts[n], t)
    ensures UseOf(races[j], t) == UseOf(races[i], t)
    decreases j
  {
    if i < j {
      StaysAbout(g, races, acts, i, j - 1, t);
      assert Enabled(races[j - 1], acts[j - 1]) && races[j] == After(g, races[j - 1], acts[j - 1]);
    }
  }

  /** One goroutine looks, asks and writes, with these acts and none in between. */
  ghost predicate AsksAndWrites(g: Gateway, races: seq<Race>, acts: seq<Act>, i: nat, j: nat, k: nat,
                                t: Goroutine, question: Question, now: Time) {
    && Unfolds(g, races, acts) && i < j < k < |acts|
    && acts[i] == Look(t, question, now) && !Stands(races[i].memory, question, now)
    && acts[j] == Ask(t, now) && acts[k] == Write(t)
    && (forall n :: i < n < j || j < n < k ==> !ActsFor(acts[n], t))
  }

  lemma HoldsItsAnswer(g: Gateway, races: seq<Race>, acts: seq<Act>, i: nat, j: nat, k: nat,
                       t: Goroutine, question: Question, now: Time)
    requires AsksAndWrites(g, races, acts, i, j, k, t, question, now)
    ensures UseOf(races[k], t) == AnswerTo(g, question, |races[i].memory.trace|, races[j].asked, now)
    ensures UseOf(races[k], t).Answered? && races[k + 1].memory == Remember(races[k].memory, UseOf(races[k], t).word)
  {
    hide Stands, AnswerTo;
    assert Enabled(races[i], acts[i]) && races[i + 1] == After(g, races[i], acts[i]);
    StaysAbout(g, races, acts, i + 1, j, t);
    assert Enabled(races[j], acts[j]) && races[j + 1] == After(g, races[j], acts[j]);
    StaysAbout(g, races, acts, j + 1, k, t);
    assert Enabled(races[k], acts[k]) && races[k + 1] == After(g, races[k], acts[k]);
  }

  /** The world that one goroutine meets at the caches: what was written before it looks and before it writes. */
  ghost predicate Meets(w: World, m: Memory, g: Gateway, races: seq<Race>, acts: seq<Act>, h: nat, i: nat, k: nat)
    requires Unfolds(g, races, acts) && h <= i <= k <= |acts|
  {
    && w.narrator && SameCaches(m, races[h].memory)
    && w.lands(|m.trace|) == WordsWritten(races, acts, h, i)
    && w.lands(|Enter(w, m).trace| + 1) == WordsWritten(races, acts, i, k)
  }

  lemma EntersAs(w: World, m: Memory, g: Gateway, races: seq<Race>, acts: seq<Act>, i: nat, j: nat)
    requires Unfolds(g, races, acts) && i <= j <= |acts| && SameCaches(m, races[i].memory)
    requires w.lands(|m.trace|) == WordsWritten(races, acts, i, j)
    ensures SameCaches(Enter(w, m), races[j].memory)
  {
    hide WordsWritten;
    CachesAreWhatWasWritten(g, races, acts, i, j);
    SameWrites(m.Log(Entered), races[i].memory, w.lands(|m.trace|));
  }

  /**
   In any order, a goroutine that looks a language up, asks for it and
   writes it down gets and leaves what `SpokenLanguage` says in that world.
   */
  lemma AUseIsSpokenLanguage(w: World, m: Memory, g: Gateway, races: seq<Race>, acts: seq<Act>,
                             h: nat, i: nat, j: nat, k: nat, t: Goroutine, video: string, now: Time)
    requires AsksAndWrites(g, races, acts, i, j, k, t, OfLanguage(video), now) && h <= i && Meets(w, m, g, races, acts, h, i, k)
    requires w.language(|Enter(w, m).trace|, video) == g.language(races[j].asked, video)
    ensures SpokenLanguage(w, m, video, now).0 == g.language(races[j].asked, video)
    ensures SameCaches(SpokenLanguage(w, m, video, now).1, races[k + 1].memory)
  {
    hide Enter, WordsWritten, Unfolds, ActsFor;
    EntersAs(w, m, g, races, acts, h, i);
    var asked := Enter(w, m).Log(AskedLanguage(video));
    EntersAs(w, asked, g, races, acts, i, k);
    HoldsItsAnswer(g, races, acts, i, j, k, t, OfLanguage(video), now);
  }

  /** So does one that fetches a song's form, and gets an answer, what `NarratedForm` says. */
  lemma AUseIsNarratedForm(w: World, m: Memory, g: Gateway, races: seq<Race>, acts: seq<Act>, h: nat, i: nat, j: nat, k: nat,
                           t: Goroutine, kind: Kind, video: string, fromS: int, now: Time)
    requires AsksAndWrites(g, races, acts, i, j, k, t, OfForm(video, kind), now) && h <= i && Meets(w, m, g, races, acts, h, i, k)
    requires w.prepare(|Enter(w, m).trace|, video) == g.prepare(races[j].asked, video)
    ensures g.prepare(races[j].asked, video).Some?
    ensures NarratedForm(w, m, kind, video, fromS).0 == FormFor(kind, g.prepare(races[j].asked, video).value)
    ensures SameCaches(NarratedForm(w, m, kind, video, fromS).1, races[k + 1].memory)
  {
    hide Enter, WordsWritten, Unfolds, ActsFor;
    EntersAs(w, m, g, races, acts, h, i);
    var asked := Enter(w, m).Log(AskedPrepare(video, fromS));
    EntersAs(w, asked, g, races, acts, i, k);
    HoldsItsAnswer(g, races, acts, i, j, k, t, OfForm(video, kind), now);
  }

  /** Two goroutines ask for one language at once. The second is answered late that it is not known, and undoes the first. */
  lemma LateAnswerUndoes(g: Gateway, video: string, kind: Kind, now: Time) returns (races: seq<Race>)
    requires g.language(0, video) != "" && g.language(1, video) == ""
    ensures var acts := [Look(0, OfLanguage(video), now), Look(1, OfLanguage(video), now), Ask(0, now), Ask(1, now), Write(0), Write(1)];
      Unfolds(g, races, acts) && Enabled(races[5], Write(1)) && Undoes(WriteOf(races[5], 1), kind, video)
  {
    hide Undoes;
    var question := OfLanguage(video);
    var r0 := Race(Memory(map[], map[], []), map[], 0);
    var r1 := After(g, r0, Look(0, question, now));
    var r2 := After(g, r1, Look(1, question, now));
    var r3 := After(g, r2, Ask(0, now));
    var r4 := After(g, r3, Ask(1, now));
    var r5 := After(g, r4, Write(0));
    var r6 := After(g, r5, Write(1));
    races := [r0, r1, r2, r3, r4, r5, r6];
    assert Undoes(WriteOf(r5, 1), kind, video) by {
      LearnedThenNot(r4.memory, UseOf(r4, 0).word, UseOf(r5, 1).word, kind);
    }
  }

  lemma LearnedThenNot(m: Memory, learned: Word, late: Word, kind: Kind)
    requires learned.Language? && late.Language? && learned.video == late.video
    requires learned.spoken.language != "" && late.spoken.language == ""
    ensures Undoes(Remembered(late, Known(Remember(m, learned), late)), kind, late.video)
  {
  }
}
