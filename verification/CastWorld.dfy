/**
 What the engine meets outside itself, and what it remembers of it.

 The speaker, the gateway and the clock are arbitrary: a World says how each
 call is answered, by how many calls were made before it, so a statement about
 every World is a statement about every sequence of answers.
 */
module CastWorld {
  import opened Wrappers
  import opened CastSession
  import opened CastReconcile

  // A load the driver took names the key the speaker will report for it.
  datatype LoadAnswer = Refused | Accepted(key: string)

  datatype Order =
    | PauseOrder
    | ResumeOrder
    | StopOrder
    | SeekOrder(positionS: int)
    | VolumeOrder(percent: int)

  // One call across a boundary, with its answer where the answer matters later.
  datatype Event =
    | AskedStatus(device: string, status: Option<DeviceStatus>)
    | Handed(device: string, video: string, startS: int, first: bool, narrated: bool, answer: LoadAnswer)
    | Ordered(device: string, order: Order, heard: bool)
    | Wrote(user: string, video: string, positionS: int, durationS: int)
    | AskedPrepare(video: string, fromS: int)
    | AskedLanguage(video: string)
    | Entered
    | Remembered(word: Word, was: Option<Word>)
  {
    /** An order to the speaker, as against a question or a history write. */
    predicate IsOrder() { Handed? || Ordered? }

    /** A load the driver took, and one it did not. */
    predicate Took() { Handed? && answer.Accepted? }
    predicate TurnedDown() { Handed? && answer.Refused? }

    /** Neither the speaker nor the history hears of it: a question to the gateway, or what became of the caches. */
    predicate IsAside() { AskedPrepare? || AskedLanguage? || Entered? || Remembered? }
  }

  // What a goroutine writes into one of the two caches: an answer about a song.
  datatype Word =
    | Language(video: string, spoken: SpokenAnswer)
    | Form(video: string, narrated: NarratedAnswer)

  // `lands` is what other goroutines have written into the caches when this one
  // takes their mutex.
  datatype World = World(
    drivers: set<Kind>,
    narrator: bool,
    status: nat -> Option<DeviceStatus>,
    load: nat -> LoadAnswer,
    hears: nat -> bool,
    prepare: (nat, string) -> Option<NarratedAnswer>,
    language: (nat, string) -> string,
    lands: nat -> seq<Word>)

  datatype SpokenAnswer = SpokenAnswer(language: string, retryAt: Time) {
    predicate Stands(now: Time) { language != "" || now < retryAt }
  }

  const SPOKEN_RETRY := 15

  // The engine's two caches, and every call it has made.
  datatype Memory = Memory(
    narrated: map<string, NarratedAnswer>,
    spoken: map<string, SpokenAnswer>,
    trace: seq<Event>)
  {
    function Log(e: Event): Memory { this.(trace := trace + [e]) }
  }

  /** Nothing the speaker or the history hears of happened between two memories. */
  ghost predicate Quiet(m: Memory, m': Memory) {
    && m.trace <= m'.trace
    && forall k :: |m.trace| <= k < |m'.trace| ==> m'.trace[k].IsAside()
  }

  // ---- the caches ----

  /** What a cache has about the song of a word, before that word is written. */
  function Known(m: Memory, word: Word): Option<Word> {
    match word
    case Language(video, _) => if video in m.spoken then Some(Language(video, m.spoken[video])) else None
    case Form(video, _) => if video in m.narrated then Some(Form(video, m.narrated[video])) else None
  }

  function Remember(m: Memory, word: Word): (r: Memory)
    ensures Quiet(m, r)
  {
    var logged := m.Log(Remembered(word, Known(m, word)));
    match word
    case Language(video, spoken) => logged.(spoken := m.spoken[video := spoken])
    case Form(video, narrated) => logged.(narrated := m.narrated[video := narrated])
  }

  function RememberAll(m: Memory, words: seq<Word>): (r: Memory)
    ensures Quiet(m, r)
  {
    if words == [] then m
    else Remember(RememberAll(m, words[..|words| - 1]), words[|words| - 1])
  }

  /** The caches' mutex is taken, and what others wrote while it was not held is there. */
  function Enter(w: World, m: Memory): (r: Memory)
    ensures Quiet(m, r) && m.trace < r.trace
  {
    RememberAll(m.Log(Entered), w.lands(|m.trace|))
  }

  // ---- the gateway ----

  function StreamsNarration(kind: Kind): bool { kind == Google }

  function FormFor(kind: Kind, answer: NarratedAnswer): Narrated {
    if StreamsNarration(kind) then answer.stream else answer.file
  }

  /** Looks the song up, and else asks and writes down the answer: the mutex is not held while the gateway is asked. */
  function SpokenLanguage(w: World, m: Memory, video: string, now: Time): (r: (string, Memory))
    ensures Quiet(m, r.1)
  {
    if !w.narrator then ("", m)
    else
      var looked := Enter(w, m);
      if video in looked.spoken && looked.spoken[video].Stands(now) then (looked.spoken[video].language, looked)
      else
        var language := w.language(|looked.trace|, video);
        var answered := Enter(w, looked.Log(AskedLanguage(video)));
        (language, Remember(answered, Language(video, SpokenAnswer(language, now + SPOKEN_RETRY))))
  }

  function NarratedForm(w: World, m: Memory, kind: Kind, video: string, fromS: int): (r: (Narrated, Memory))
    ensures Quiet(m, r.1)
  {
    if !w.narrator then (NarratedPreparing, m)
    else
      var looked := Enter(w, m);
      if video in looked.narrated && FormFor(kind, looked.narrated[video]) == NarratedReady then (NarratedReady, looked)
      else
        var asked := looked.Log(AskedPrepare(video, fromS));
        match w.prepare(|looked.trace|, video)
        case None => (NarratedPreparing, asked)
        case Some(answer) => (FormFor(kind, answer), Remember(Enter(w, asked), Form(video, answer)))
  }

  function Covers(w: World, m: Memory, s: Session, video: string, now: Time): (r: (bool, Memory))
    ensures Quiet(m, r.1)
  {
    if !s.narration then (false, m)
    else
      var (language, m') := SpokenLanguage(w, m, video, now);
      (NarratesSong(s, video, language), m')
  }

  function WantsNarrated(w: World, m: Memory, s: Session, video: string, fromS: int, now: Time): (r: (bool, Memory))
    ensures Quiet(m, r.1)
  {
    var (covers, m') := Covers(w, m, s, video, now);
    if !covers then (false, m')
    else
      var (form, m'') := NarratedForm(w, m', s.sitting.kind, video, fromS);
      (form == NarratedReady, m'')
  }
}
