/**
 The engine's two caches of the gateway's answers, which every session of the
 process shares, and what a write into them can undo
 (services/cast/internal/usecase/engine.go:264-314).
 */
module CastCaches {
  import opened CastSession
  import opened CastWorld

  // ---- what is known of a song ----

  predicate ReadyKnown(m: Memory, kind: Kind, video: string) {
    video in m.narrated && FormFor(kind, m.narrated[video]) == NarratedReady
  }

  /** The song's language as last written down; empty when it is not known. */
  function KnownLanguage(m: Memory, video: string): string {
    if video in m.spoken then m.spoken[video].language else ""
  }

  /** What is known of the song stays known: its language, and that it is ready for this kind of speaker. */
  predicate Keeps(m: Memory, m': Memory, kind: Kind, video: string) {
    && (ReadyKnown(m, kind, video) ==> ReadyKnown(m', kind, video))
    && (KnownLanguage(m, video) != "" ==> KnownLanguage(m', video) == KnownLanguage(m, video))
  }

  predicate SameCaches(m: Memory, m': Memory) {
    m.narrated == m'.narrated && m.spoken == m'.spoken
  }

  // ---- what a write undoes ----

  /** The write puts another answer, or none, over a language known, or a lesser answer over Ready. */
  predicate Undoes(e: Event, kind: Kind, video: string) {
    && e.Remembered? && e.was.Some? && e.word.video == video
    && match (e.word, e.was.value)
       case (Language(_, now), Language(_, before)) => before.language !in {"", now.language}
       case (Form(_, now), Form(_, before)) => FormFor(kind, before) == NarratedReady && FormFor(kind, now) != NarratedReady
       case _ => false
  }

  /** How many writes since the trace was `from` long undid something known of the song. */
  function Undone(trace: seq<Event>, from: nat, kind: Kind, video: string): nat {
    if |trace| <= from then 0
    else
      Undone(trace[..|trace| - 1], from, kind, video) + (if Undoes(trace[|trace| - 1], kind, video) then 1 else 0)
  }

  lemma {:induction false} UndoneSplit(trace: seq<Event>, from: nat, mid: nat, kind: Kind, video: string)
    requires from <= mid <= |trace|
    ensures Undone(trace, from, kind, video) == Undone(trace[..mid], from, kind, video) + Undone(trace, mid, kind, video)
    decreases |trace|
  {
    hide Undoes;
    if |trace| == mid {
      assert trace[..mid] == trace;
    } else {
      var shorter := trace[..|trace| - 1];
      UndoneSplit(shorter, from, mid, kind, video);
      assert shorter[..mid] == trace[..mid];
    }
  }

  /** A write keeps what is known of a song exactly when it undoes nothing of it. */
  lemma WriteKeepsWhen(m: Memory, word: Word, kind: Kind, video: string)
    ensures Keeps(m, Remember(m, word), kind, video) <==> !Undoes(Remembered(word, Known(m, word)), kind, video)
  {
  }

  /** One after another, the writes keep what is known of the song. */
  ghost predicate EachKeeps(m: Memory, words: seq<Word>, kind: Kind, video: string) {
    forall k :: 0 <= k < |words| ==> Keeps(RememberAll(m, words[..k]), Remember(RememberAll(m, words[..k]), words[k]), kind, video)
  }

  lemma OneMoreKeeps(m: Memory, words: seq<Word>, kind: Kind, video: string)
    requires words != []
    ensures var fewer, last := words[..|words| - 1], words[|words| - 1];
      EachKeeps(m, words, kind, video) <==>
        EachKeeps(m, fewer, kind, video) && Keeps(RememberAll(m, fewer), Remember(RememberAll(m, fewer), last), kind, video)
  {
    hide Keeps, RememberAll, Remember;
    var fewer := words[..|words| - 1];
    assert forall k :: 0 <= k <= |fewer| ==> fewer[..k] == words[..k];
    assert forall k :: 0 <= k < |fewer| ==> fewer[k] == words[k];
  }

  /** So do all that land between two uses of the caches, exactly when none of them undoes anything. */
  lemma {:induction false} WordsKeepWhen(m: Memory, words: seq<Word>, kind: Kind, video: string)
    ensures EachKeeps(m, words, kind, video) <==> Undone(RememberAll(m, words).trace, |m.trace|, kind, video) == 0
    ensures EachKeeps(m, words, kind, video) ==> Keeps(m, RememberAll(m, words), kind, video)
    decreases |words|
  {
    hide Keeps, Undoes, EachKeeps, Remember;
    if words == [] {
      KeepsItself(m, kind, video);
      NoWords(m, kind, video);
    } else {
      var n := |words| - 1;
      var before, after := RememberAll(m, words[..n]), RememberAll(m, words);
      WordsKeepWhen(m, words[..n], kind, video);
      WriteKeepsWhen(before, words[n], kind, video);
      OneWrite(before, words[n], kind, video);
      OneMoreKeeps(m, words, kind, video);
      assert after.trace[..|before.trace|] == before.trace;
      UndoneSplit(after.trace, |m.trace|, |before.trace|, kind, video);
      if EachKeeps(m, words, kind, video) {
        KeepsOn(m, before, after, kind, video);
      }
    }
  }

  lemma NoWords(m: Memory, kind: Kind, video: string)
    ensures EachKeeps(m, [], kind, video) && Undone(m.trace, |m.trace|, kind, video) == 0
  {
  }

  /** What is written depends on nothing but what was there. */
  lemma {:induction false} SameWrites(m: Memory, m': Memory, words: seq<Word>)
    requires SameCaches(m, m')
    ensures SameCaches(RememberAll(m, words), RememberAll(m', words))
    decreases |words|
  {
    if words != [] {
      SameWrites(m, m', words[..|words| - 1]);
    }
  }

  lemma KeepsItself(m: Memory, kind: Kind, video: string)
    ensures Keeps(m, m, kind, video)
  {
  }

  lemma KeepsOn(a: Memory, b: Memory, c: Memory, kind: Kind, video: string)
    requires Keeps(a, b, kind, video) && Keeps(b, c, kind, video)
    ensures Keeps(a, c, kind, video)
  {
  }

  // ---- what is wanted of a song ----

  // A song on a speaker, and what is asked of narration for it.
  datatype Asking = Asking(narrator: bool, kind: Kind, video: string, narration: bool, forced: bool)

  /** Narration covers the song, as far as its language is known. */
  predicate Covered(a: Asking, m: Memory) {
    a.narration && (a.forced || !a.narrator || KnownLanguage(m, a.video) != VIETNAMESE)
  }

  predicate Wanted(a: Asking, m: Memory) {
    a.narrator && Covered(a, m) && ReadyKnown(m, a.kind, a.video)
  }

  // ---- how many turns are left ----

  /**
   How often the song can still be reloaded to change its sound, while nothing
   known of it is undone: once to where it is to be, once on the way when it
   was handed over narrated without being known to be ready, and once more when
   its language may still turn out to be one not narrated.
   */
  function Turns(a: Asking, loaded: bool, m: Memory): nat {
    if !a.narrator || !Covered(a, m) then (if loaded then 1 else 0)
    else
      (if !loaded then 1 else if ReadyKnown(m, a.kind, a.video) then 0 else 2)
      + (if !a.forced && KnownLanguage(m, a.video) == "" then 1 else 0)
  }

  ghost function UndoneFor(a: Asking, m: Memory, m': Memory): nat {
    Undone(m'.trace, |m.trace|, a.kind, a.video)
  }

  /** From one memory to a later one: what is known stays unless undone, and each undoing gives back two turns at most. */
  ghost predicate Spends(a: Asking, m: Memory, m': Memory) {
    && m.trace <= m'.trace
    && (UndoneFor(a, m, m') == 0 ==> Keeps(m, m', a.kind, a.video))
    && (forall loaded :: Turns(a, loaded, m') <= Turns(a, loaded, m) + 2 * UndoneFor(a, m, m'))
  }

  lemma SpendsNothing(a: Asking, m: Memory, m': Memory)
    requires SameCaches(m, m') && m.trace <= m'.trace && forall k :: |m.trace| <= k < |m'.trace| ==> !m'.trace[k].Remembered?
    ensures Spends(a, m, m') && UndoneFor(a, m, m') == 0
  {
    NothingUndone(m'.trace, |m.trace|, a.kind, a.video);
  }

  lemma {:induction false} NothingUndone(trace: seq<Event>, from: nat, kind: Kind, video: string)
    requires forall k :: from <= k < |trace| ==> !trace[k].Remembered?
    ensures Undone(trace, from, kind, video) == 0
    decreases |trace|
  {
    if |trace| > from {
      NothingUndone(trace[..|trace| - 1], from, kind, video);
    }
  }

  lemma SpendsOn(a: Asking, m: Memory, m1: Memory, m2: Memory)
    requires Spends(a, m, m1) && Spends(a, m1, m2)
    ensures Spends(a, m, m2) && UndoneFor(a, m, m2) == UndoneFor(a, m, m1) + UndoneFor(a, m1, m2)
  {
    hide Turns, Undone;
    assert m2.trace[..|m1.trace|] == m1.trace;
    UndoneSplit(m2.trace, |m.trace|, |m1.trace|, a.kind, a.video);
    if UndoneFor(a, m, m2) == 0 {
      KeepsOn(m, m1, m2, a.kind, a.video);
    }
  }

  lemma LogSpends(a: Asking, m: Memory, e: Event)
    requires !e.Remembered?
    ensures Spends(a, m, m.Log(e)) && UndoneFor(a, m, m.Log(e)) == 0
  {
    SpendsNothing(a, m, m.Log(e));
  }

  lemma RememberSpends(a: Asking, m: Memory, word: Word)
    ensures Spends(a, m, Remember(m, word))
  {
    hide Undone;
    var m' := Remember(m, word);
    OneWrite(m, word, a.kind, a.video);
    WriteKeepsWhen(m, word, a.kind, a.video);
  }

  lemma OneWrite(m: Memory, word: Word, kind: Kind, video: string)
    ensures Undone(Remember(m, word).trace, |m.trace|, kind, video)
         == if Undoes(Remembered(word, Known(m, word)), kind, video) then 1 else 0
  {
    hide Undoes;
    assert Remember(m, word).trace[..|m.trace|] == m.trace;
  }

  lemma {:induction false} RememberAllSpends(a: Asking, m: Memory, words: seq<Word>)
    ensures Spends(a, m, RememberAll(m, words))
    decreases |words|
  {
    hide Spends, Remember;
    if words == [] {
      SpendsNothing(a, m, m);
    } else {
      var before := RememberAll(m, words[..|words| - 1]);
      RememberAllSpends(a, m, words[..|words| - 1]);
      RememberSpends(a, before, words[|words| - 1]);
      SpendsOn(a, m, before, RememberAll(m, words));
    }
  }

  lemma EnterSpends(a: Asking, w: World, m: Memory)
    ensures Spends(a, m, Enter(w, m))
  {
    hide Spends, RememberAll;
    LogSpends(a, m, Entered);
    RememberAllSpends(a, m.Log(Entered), w.lands(|m.trace|));
    SpendsOn(a, m, m.Log(Entered), Enter(w, m));
  }

  /** The language answered is the one the cache has afterwards. */
  lemma LanguageSpends(a: Asking, w: World, m: Memory, video: string, now: Time)
    ensures var (language, m') := SpokenLanguage(w, m, video, now);
      && Spends(a, m, m')
      && (w.narrator ==> language == KnownLanguage(m', video))
      && (!w.narrator ==> language == "" && m' == m)
  {
    hide Spends, Enter;
    SpendsNothing(a, m, m);
    var looked := Enter(w, m);
    EnterSpends(a, w, m);
    var asked := looked.Log(AskedLanguage(video));
    LogSpends(a, looked, AskedLanguage(video));
    SpendsOn(a, m, looked, asked);
    EnterSpends(a, w, asked);
    SpendsOn(a, m, asked, Enter(w, asked));
    var word := Language(video, SpokenAnswer(w.language(|looked.trace|, video), now + SPOKEN_RETRY));
    RememberSpends(a, Enter(w, asked), word);
    SpendsOn(a, m, Enter(w, asked), Remember(Enter(w, asked), word));
  }

  /** The form answered is Ready exactly when the cache has it so afterwards. */
  lemma FormSpends(a: Asking, w: World, m: Memory, kind: Kind, video: string, fromS: int)
    ensures var (form, m') := NarratedForm(w, m, kind, video, fromS);
      && Spends(a, m, m')
      && (w.narrator ==> (form == NarratedReady <==> ReadyKnown(m', kind, video)))
      && (!w.narrator ==> form == NarratedPreparing && m' == m)
  {
    hide Spends, Enter;
    SpendsNothing(a, m, m);
    var looked := Enter(w, m);
    EnterSpends(a, w, m);
    var asked := looked.Log(AskedPrepare(video, fromS));
    LogSpends(a, looked, AskedPrepare(video, fromS));
    SpendsOn(a, m, looked, asked);
    EnterSpends(a, w, asked);
    SpendsOn(a, m, asked, Enter(w, asked));
    match w.prepare(|looked.trace|, video)
    case None =>
    case Some(answer) =>
      RememberSpends(a, Enter(w, asked), Form(video, answer));
      SpendsOn(a, m, Enter(w, asked), Remember(Enter(w, asked), Form(video, answer)));
  }

  // ---- what a load comes to ----

  /** Handed over as wanted: covered when its language was looked up, and ready when its form was. */
  predicate LandsAs(a: Asking, m1: Memory, m': Memory, landed: bool) {
    landed == (a.narrator && Covered(a, m1) && ReadyKnown(m', a.kind, a.video))
  }

  /** A song loaded anew has no more turns left than before, and one fewer when it did not sound as it was to. */
  lemma LandingTurns(a: Asking, loaded: bool, m: Memory, m1: Memory, m': Memory, landed: bool)
    requires Spends(a, m, m1) && Spends(a, m1, m') && LandsAs(a, m1, m', landed)
    ensures Turns(a, landed, m') + (if loaded != Wanted(a, m) then 1 else 0) <= Turns(a, loaded, m) + 2 * UndoneFor(a, m, m')
  {
    hide Undone;
    SpendsOn(a, m, m1, m');
  }

  /** What the switch finds when it decides: the song sounds other than it is to, or its language has just settled it and cost the turn. */
  lemma SwitchTurns(a: Asking, loaded: bool, m: Memory, m1: Memory, m': Memory, form: Narrated)
    requires Spends(a, m, m1) && Spends(a, m1, m')
    requires a.narrator ==> (form == NarratedReady <==> ReadyKnown(m', a.kind, a.video))
    requires !a.narrator ==> form == NarratedPreparing
    requires if loaded then (!Covered(a, m1) && m' == m1) || (Covered(a, m1) && form == NarratedNone)
             else Covered(a, m1) && form == NarratedReady
    ensures loaded != Wanted(a, m') || Turns(a, loaded, m') + 1 <= Turns(a, loaded, m) + 2 * UndoneFor(a, m, m')
  {
    hide Undone;
    SpendsOn(a, m, m1, m');
  }

  lemma AtMostThree(a: Asking, loaded: bool, m: Memory)
    ensures Turns(a, loaded, m) <= if loaded && a.narrator && !ReadyKnown(m, a.kind, a.video) then 3 else 2
  {
  }

  // ---- what is asked ----

  /** Nobody else writes into the caches. */
  ghost predicate Undisturbed(w: World) { forall n: nat :: w.lands(n) == [] }

  lemma EnterUndisturbed(w: World, m: Memory)
    requires Undisturbed(w)
    ensures Enter(w, m) == m.Log(Entered)
  {
  }

  /**
   A language known is not asked for again, and "not known" is not for fifteen
   seconds. Otherwise the gateway is asked once, and its answer written down.
   */
  lemma LanguageIsAskedFor(w: World, m: Memory, video: string, now: Time)
    requires w.narrator && Undisturbed(w)
    ensures var (language, m') := SpokenLanguage(w, m, video, now);
      if video in m.spoken && (m.spoken[video].language != "" || now < m.spoken[video].retryAt) then
        language == m.spoken[video].language && m' == m.Log(Entered)
      else
        && language == w.language(|m.trace| + 1, video)
        && m'.narrated == m.narrated && m'.spoken == m.spoken[video := SpokenAnswer(language, now + 15)]
        && (m.trace + [Entered, AskedLanguage(video), Entered]) <= m'.trace && |m'.trace| == |m.trace| + 4
  {
    hide Enter;
    EnterUndisturbed(w, m);
    EnterUndisturbed(w, m.Log(Entered).Log(AskedLanguage(video)));
  }

  /**
   An R1 is handed the file and a Google speaker the stream: its own form decides
   whether the gateway is asked again, and is what the answer comes to. An ask
   that is not answered is "still preparing", and nothing is written.
   */
  lemma FormIsAskedFor(w: World, m: Memory, kind: Kind, video: string, fromS: int)
    requires w.narrator && Undisturbed(w)
    ensures var (form, m') := NarratedForm(w, m, kind, video, fromS);
      var ready := video in m.narrated
        && (match kind case R1 => m.narrated[video].file case Google => m.narrated[video].stream) == NarratedReady;
      if ready then form == NarratedReady && m' == m.Log(Entered)
      else
        && (m.trace + [Entered, AskedPrepare(video, fromS)]) <= m'.trace && m'.spoken == m.spoken
        && match w.prepare(|m.trace| + 1, video)
           case None => form == NarratedPreparing && m'.narrated == m.narrated && |m'.trace| == |m.trace| + 2
           case Some(NarratedAnswer(file, stream)) =>
             && form == (match kind case R1 => file case Google => stream)
             && m'.narrated == m.narrated[video := NarratedAnswer(file, stream)] && |m'.trace| == |m.trace| + 4
  {
    hide Enter;
    EnterUndisturbed(w, m);
    EnterUndisturbed(w, m.Log(Entered).Log(AskedPrepare(video, fromS)));
  }

  /** With narration off, or nobody to ask, nothing is asked and the caches are not looked at. */
  lemma OffAsksNothing(w: World, m: Memory, s: Session, video: string, fromS: int, now: Time)
    requires !s.narration || !w.narrator
    ensures Covers(w, m, s, video, now) == (s.narration, m)
    ensures WantsNarrated(w, m, s, video, fromS, now) == (false, m)
  {
  }

  /** Whatever is asked since is asked about this song, and narration from this place in it. */
  ghost predicate AsksAbout(trace: seq<Event>, from: nat, video: string, fromS: int) {
    forall k :: from <= k < |trace| ==>
      && (trace[k].AskedLanguage? ==> trace[k].video == video)
      && (trace[k].AskedPrepare? ==> trace[k].video == video && trace[k].fromS == fromS)
  }

  lemma {:induction false} RememberAllAsks(m: Memory, words: seq<Word>, from: nat, video: string, fromS: int)
    requires AsksAbout(m.trace, from, video, fromS)
    ensures AsksAbout(RememberAll(m, words).trace, from, video, fromS)
    decreases |words|
  {
    if words != [] {
      RememberAllAsks(m, words[..|words| - 1], from, video, fromS);
    }
  }

  lemma EnterAsks(w: World, m: Memory, from: nat, video: string, fromS: int)
    requires AsksAbout(m.trace, from, video, fromS)
    ensures AsksAbout(Enter(w, m).trace, from, video, fromS)
  {
    RememberAllAsks(m.Log(Entered), w.lands(|m.trace|), from, video, fromS);
  }

  lemma CoversAsks(w: World, m: Memory, s: Session, video: string, fromS: int, now: Time, from: nat)
    requires AsksAbout(m.trace, from, video, fromS)
    ensures AsksAbout(Covers(w, m, s, video, now).1.trace, from, video, fromS)
  {
    hide Enter;
    EnterAsks(w, m, from, video, fromS);
    EnterAsks(w, Enter(w, m).Log(AskedLanguage(video)), from, video, fromS);
  }

  lemma FormAsks(w: World, m: Memory, kind: Kind, video: string, fromS: int, from: nat)
    requires AsksAbout(m.trace, from, video, fromS)
    ensures AsksAbout(NarratedForm(w, m, kind, video, fromS).1.trace, from, video, fromS)
  {
    hide Enter;
    EnterAsks(w, m, from, video, fromS);
    EnterAsks(w, Enter(w, m).Log(AskedPrepare(video, fromS)), from, video, fromS);
  }
}
