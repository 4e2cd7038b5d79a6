/**
 The queue a remote asks for: which of its videos are kept, and where the one
 asked for landed (services/cast/internal/usecase/engine.go, `queueFor`).
 */
module CastQueue {
  import opened CastSession
  import opened CastWorld

  datatype CatalogVideo = CatalogVideo(item: Item, live: bool, unavailable: bool, spokenLanguage: string)

  /** Neither a broadcast nor refused for good upstream. */
  predicate Kept(v: CatalogVideo) { !v.live && !v.unavailable }

  function KeptItems(videos: seq<CatalogVideo>): seq<Item> {
    if videos == [] then []
    else
      var last := videos[|videos| - 1];
      KeptItems(videos[..|videos| - 1]) + (if Kept(last) then [last.item] else [])
  }

  /** The languages the catalogue knows of the videos kept are written down, one after another. */
  function Seeded(w: World, m: Memory, videos: seq<CatalogVideo>): (r: Memory)
    ensures Quiet(m, r)
  {
    if videos == [] then m
    else
      var last := videos[|videos| - 1];
      var before := Seeded(w, m, videos[..|videos| - 1]);
      if Kept(last) && last.spokenLanguage != "" then
        Remember(Enter(w, before), Language(last.item.videoId, SpokenAnswer(last.spokenLanguage, ZERO_TIME)))
      else before
  }

  /** A broadcast stands at the index asked for. */
  predicate AsksForABroadcast(videos: seq<CatalogVideo>, startIndex: int) {
    0 <= startIndex < |videos| && videos[startIndex].live
  }

  /** Video `p` is the first kept at or after the index asked for. */
  ghost predicate FirstKeptFrom(videos: seq<CatalogVideo>, startIndex: int, p: int) {
    && 0 <= p < |videos| && startIndex <= p && Kept(videos[p])
    && forall q :: startIndex <= q < p && 0 <= q ==> !Kept(videos[q])
  }

  ghost predicate NoneKeptFrom(videos: seq<CatalogVideo>, startIndex: int) {
    forall q :: startIndex <= q < |videos| && 0 <= q ==> !Kept(videos[q])
  }

  /** Where playing starts in the kept queue: at the first video kept from the index asked for, else at the last kept. */
  ghost predicate StartsAt(videos: seq<CatalogVideo>, startIndex: int, start: int) {
    var items := KeptItems(videos);
    && 0 <= start < |items|
    && (|| (exists p :: FirstKeptFrom(videos, startIndex, p) && start == |KeptItems(videos[..p])|
                        && items[start] == videos[p].item)
        || (NoneKeptFrom(videos, startIndex) && start == |items| - 1))
  }

  lemma NoneKeptYet(startIndex: int)
    ensures NoneKeptFrom([], startIndex)
  {
  }

  lemma NoneKeptGrows(videos: seq<CatalogVideo>, i: nat, startIndex: int)
    requires i < |videos|
    ensures NoneKeptFrom(videos[..i], startIndex) && !(Kept(videos[i]) && startIndex <= i) ==>
      NoneKeptFrom(videos[..i + 1], startIndex)
    ensures NoneKeptFrom(videos[..i], startIndex) && Kept(videos[i]) && startIndex <= i ==>
      FirstKeptFrom(videos, startIndex, i)
  {
    forall q | NoneKeptFrom(videos[..i], startIndex) && startIndex <= q < i && 0 <= q ensures !Kept(videos[q]) {
      assert videos[..i][q] == videos[q];
    }
  }

  lemma SeededGrows(w: World, m: Memory, videos: seq<CatalogVideo>, i: nat)
    requires i < |videos|
    ensures Seeded(w, m, videos[..i + 1]) ==
      if Kept(videos[i]) && videos[i].spokenLanguage != "" then
        Remember(Enter(w, Seeded(w, m, videos[..i])), Language(videos[i].item.videoId, SpokenAnswer(videos[i].spokenLanguage, ZERO_TIME)))
      else Seeded(w, m, videos[..i])
  {
    hide Enter, Remember;
    assert videos[..i + 1][..i] == videos[..i];
  }

  lemma KeptGrows(videos: seq<CatalogVideo>, i: nat)
    requires i < |videos|
    ensures KeptItems(videos[..i + 1]) == KeptItems(videos[..i]) + (if Kept(videos[i]) then [videos[i].item] else [])
  {
    assert videos[..i + 1][..i] == videos[..i];
  }

  /** Keeping loses nothing and reorders nothing: a kept video stands behind exactly the videos kept before it. */
  lemma {:induction false} KeptInOrder(videos: seq<CatalogVideo>, p: nat)
    requires p < |videos|
    ensures var before := KeptItems(videos[..p]);
      && before <= KeptItems(videos)
      && |before| <= p
      && (Kept(videos[p]) ==> |before| < |KeptItems(videos)| && KeptItems(videos)[|before|] == videos[p].item)
    ensures |KeptItems(videos)| <= |videos|
    decreases |videos|
  {
    var shorter := videos[..|videos| - 1];
    if p < |shorter| {
      KeptInOrder(shorter, p);
      assert shorter[..p] == videos[..p];
    } else if shorter != [] {
      KeptInOrder(shorter, 0);
      assert videos[..p] == shorter;
    }
  }

  /** As many are kept before an index as there are before it, exactly when none of them was left out. */
  lemma {:induction false} AllKeptWhenAsMany(videos: seq<CatalogVideo>)
    ensures |KeptItems(videos)| <= |videos|
    ensures |KeptItems(videos)| == |videos| <==> forall q :: 0 <= q < |videos| ==> Kept(videos[q])
    decreases |videos|
  {
    if videos != [] {
      var shorter := videos[..|videos| - 1];
      AllKeptWhenAsMany(shorter);
      assert forall q :: 0 <= q < |shorter| ==> shorter[q] == videos[q];
    }
  }

  lemma {:induction false} NoneKeptAfterAddsNothing(videos: seq<CatalogVideo>, from: nat)
    requires from <= |videos| && NoneKeptFrom(videos, from)
    ensures KeptItems(videos) == KeptItems(videos[..from])
    decreases |videos|
  {
    if |videos| == from {
      assert videos[..from] == videos;
    } else {
      var shorter := videos[..|videos| - 1];
      assert NoneKeptFrom(shorter, from);
      NoneKeptAfterAddsNothing(shorter, from);
      assert shorter[..from] == videos[..from];
    }
  }

  // ---- the queue, flag by flag ----

  /**
   The items are those of the videos at these places, in order: every video that
   is neither a broadcast nor unavailable, and no other.
   */
  ghost predicate Queued(videos: seq<CatalogVideo>, items: seq<Item>, places: seq<int>) {
    && |places| == |items|
    && (forall k :: 0 <= k < |places| ==> 0 <= places[k] < |videos| && items[k] == videos[places[k]].item)
    && (forall j, k :: 0 <= j < k < |places| ==> places[j] < places[k])
    && (forall p :: 0 <= p < |videos| ==> (p in places <==> !videos[p].live && !videos[p].unavailable))
  }

  /** The start is the first of them at or after the index asked for, or else the last. */
  ghost predicate StartsFrom(places: seq<int>, startIndex: int, start: int) {
    && 0 <= start < |places|
    && (forall k :: 0 <= k < start ==> places[k] < startIndex)
    && (startIndex <= places[start] || start == |places| - 1)
  }

  /** Where the videos kept stand. */
  function Places(videos: seq<CatalogVideo>): seq<int> {
    if videos == [] then []
    else
      var n := |videos| - 1;
      Places(videos[..n]) + (if Kept(videos[n]) then [n] else [])
  }

  lemma {:induction false} PlacesAreQueued(videos: seq<CatalogVideo>)
    ensures Queued(videos, KeptItems(videos), Places(videos))
    decreases |videos|
  {
    if videos != [] {
      var n := |videos| - 1;
      PlacesAreQueued(videos[..n]);
      OneMoreQueued(videos, KeptItems(videos[..n]), Places(videos[..n]));
    }
  }

  lemma OneMoreQueued(videos: seq<CatalogVideo>, items: seq<Item>, places: seq<int>)
    requires videos != [] && Queued(videos[..|videos| - 1], items, places)
    ensures var n := |videos| - 1;
      if Kept(videos[n]) then Queued(videos, items + [videos[n].item], places + [n])
      else Queued(videos, items + [], places + [])
  {
    var n := |videos| - 1;
    assert forall k :: 0 <= k < |places| ==> places[k] in places;
    assert forall p :: 0 <= p < n ==> videos[..n][p] == videos[p];
    assert items + [] == items && places + [] == places;
    assert n in places + [n] && forall p :: p in places + [n] <==> p in places || p == n;
  }

  lemma {:induction false} PlacesBefore(videos: seq<CatalogVideo>, p: nat)
    requires p <= |videos|
    ensures Places(videos[..p]) <= Places(videos)
    ensures |Places(videos[..p])| == |KeptItems(videos[..p])|
    ensures p < |videos| && Kept(videos[p]) ==>
      |Places(videos[..p])| < |Places(videos)| && Places(videos)[|Places(videos[..p])|] == p
    decreases |videos|
  {
    if p == |videos| {
      assert videos[..p] == videos;
      PlacesAreQueued(videos);
    } else {
      var shorter := videos[..|videos| - 1];
      PlacesBefore(shorter, p);
      assert shorter[..p] == videos[..p];
    }
  }

  /** The queue described is all that can be played of the answer, in order, and starts where the remote asked or as soon after as it can. */
  lemma QueueIsWhatCanBePlayed(videos: seq<CatalogVideo>, startIndex: int, start: int)
    requires StartsAt(videos, startIndex, start)
    ensures exists places :: Queued(videos, KeptItems(videos), places) && StartsFrom(places, startIndex, start)
  {
    hide Queued, Places, KeptItems;
    var places := Places(videos);
    PlacesAreQueued(videos);
    PlacesInRange(videos, KeptItems(videos), places);
    if p :| FirstKeptFrom(videos, startIndex, p) && start == |KeptItems(videos[..p])| {
      PlacesBefore(videos, p);
      forall k | 0 <= k < start ensures places[k] < startIndex {
        assert places[k] < places[start] == p;
      }
    } else {
      assert NoneKeptFrom(videos, startIndex);
    }
  }

  lemma PlacesInRange(videos: seq<CatalogVideo>, items: seq<Item>, places: seq<int>)
    requires Queued(videos, items, places)
    ensures |places| == |items|
    ensures forall k :: 0 <= k < |places| ==> 0 <= places[k] < |videos| && Kept(videos[places[k]])
    ensures forall j, k :: 0 <= j < k < |places| ==> places[j] < places[k]
  {
    assert forall k :: 0 <= k < |places| ==> places[k] in places;
  }

  /** Nothing is queued when every video is a broadcast or unavailable, and then only. */
  lemma NothingToPlayWhen(videos: seq<CatalogVideo>)
    ensures KeptItems(videos) == [] <==> forall p :: 0 <= p < |videos| ==> videos[p].live || videos[p].unavailable
  {
    hide KeptItems, Places;
    PlacesAreQueued(videos);
    var places := Places(videos);
    if KeptItems(videos) != [] {
      assert places[0] in places;
    }
  }

  /** The catalogue knows the language of this video, and it can be played. */
  predicate Names(v: CatalogVideo, video: string) {
    v.item.videoId == video && v.spokenLanguage != "" && !v.live && !v.unavailable
  }

  /** One video described, with nobody else writing. */
  lemma OneSeeded(w: World, m: Memory, videos: seq<CatalogVideo>, video: string)
    requires videos != [] && forall n: nat :: w.lands(n) == []
    ensures var before, after := Seeded(w, m, videos[..|videos| - 1]), Seeded(w, m, videos);
      var last := videos[|videos| - 1];
      if Names(last, video) then video in after.spoken && after.spoken[video] == SpokenAnswer(last.spokenLanguage, 0)
      else
        && (video in after.spoken <==> video in before.spoken)
        && (video in before.spoken ==> after.spoken[video] == before.spoken[video])
  {
    hide Seeded, RememberAll;
    var before := Seeded(w, m, videos[..|videos| - 1]);
    NothingLands(w, before);
    assert videos[..|videos| - 1 + 1] == videos;
    SeededGrows(w, m, videos, |videos| - 1);
  }

  lemma NothingLands(w: World, m: Memory)
    requires w.lands(|m.trace|) == []
    ensures Enter(w, m) == m.Log(Entered)
  {
  }

  /** What the catalogue says of the language of a video that can be played is remembered, where nobody else writes, the last word counting. */
  lemma {:induction false} SeededKnows(w: World, m: Memory, videos: seq<CatalogVideo>, p: nat)
    requires p < |videos| && forall n: nat :: w.lands(n) == []
    requires Names(videos[p], videos[p].item.videoId)
    requires forall q :: p < q < |videos| ==> !Names(videos[q], videos[p].item.videoId)
    ensures var spoken, video := Seeded(w, m, videos).spoken, videos[p].item.videoId;
      video in spoken && spoken[video] == SpokenAnswer(videos[p].spokenLanguage, 0)
    decreases |videos|
  {
    hide Seeded, Names;
    OneSeeded(w, m, videos, videos[p].item.videoId);
    if p < |videos| - 1 {
      assert videos[..|videos| - 1][p] == videos[p];
      SeededKnows(w, m, videos[..|videos| - 1], p);
    }
  }

  /** And nothing is remembered of any other video. */
  lemma {:induction false} SeededLeaves(w: World, m: Memory, videos: seq<CatalogVideo>, video: string)
    requires (forall n: nat :: w.lands(n) == []) && forall p :: 0 <= p < |videos| ==> !Names(videos[p], video)
    ensures var spoken := Seeded(w, m, videos).spoken;
      (video in spoken <==> video in m.spoken) && (video in m.spoken ==> spoken[video] == m.spoken[video])
    decreases |videos|
  {
    hide Names;
    if videos != [] {
      OneSeeded(w, m, videos, video);
      SeededLeaves(w, m, videos[..|videos| - 1], video);
    }
  }

  lemma StartsInside(videos: seq<CatalogVideo>, startIndex: int, start: int)
    requires StartsAt(videos, startIndex, start)
    ensures 0 <= start < |KeptItems(videos)|
  {
  }

  /** A start names one place in the queue and no other. */
  lemma StartIsUnique(videos: seq<CatalogVideo>, startIndex: int, a: int, b: int)
    requires StartsAt(videos, startIndex, a) && StartsAt(videos, startIndex, b)
    ensures a == b
  {
  }

  /**
   `StartSession` keeps the position asked for when the start and the index
   asked for are equal. They are equal exactly when every video before that
   index was kept and some video from it on was, whether or not it is the video
   asked for that is there.
   */
  lemma PositionIsKeptWhen(videos: seq<CatalogVideo>, startIndex: int, start: int)
    requires StartsAt(videos, startIndex, start)
    ensures start == startIndex <==>
      && 0 <= startIndex < |videos|
      && (forall q :: 0 <= q < startIndex ==> Kept(videos[q]))
      && !NoneKeptFrom(videos, startIndex)
  {
    if NoneKeptFrom(videos, startIndex) {
      if 0 <= startIndex < |videos| {
        NoneKeptAfterAddsNothing(videos, startIndex);
        AllKeptWhenAsMany(videos[..startIndex]);
      }
      AllKeptWhenAsMany(videos);
    } else {
      var p :| FirstKeptFrom(videos, startIndex, p) && start == |KeptItems(videos[..p])|;
      AllKeptWhenAsMany(videos[..p]);
      if start == startIndex {
        NoneKeptAfterAddsNothing(videos[..p], startIndex);
        assert videos[..p][..startIndex] == videos[..startIndex];
        AllKeptWhenAsMany(videos[..startIndex]);
        forall q | 0 <= q < startIndex ensures Kept(videos[q]) {
          assert videos[..startIndex][q] == videos[q];
        }
      } else if 0 <= startIndex && forall q :: 0 <= q < startIndex ==> Kept(videos[q]) {
        NoneKeptAfterAddsNothing(videos[..p], startIndex);
        assert videos[..p][..startIndex] == videos[..startIndex];
        AllKeptWhenAsMany(videos[..startIndex]);
        assert false;
      }
    }
  }

  /**
   What the comparison is there for is that the position be kept exactly when
   the video asked for is the one that plays. It is so exactly when the video
   was kept with everything before it, or was left out together with one before
   it or with everything after it.
   */
  lemma PositionFollowsTheVideoOnlyWhen(videos: seq<CatalogVideo>, startIndex: int, start: int)
    requires StartsAt(videos, startIndex, start) && 0 <= startIndex < |videos|
    ensures (start == startIndex <==> Kept(videos[startIndex])) <==>
      if Kept(videos[startIndex]) then
        forall q :: 0 <= q < startIndex ==> Kept(videos[q])
      else
        || (exists q :: 0 <= q < startIndex && !Kept(videos[q]))
        || NoneKeptFrom(videos, startIndex)
  {
    PositionIsKeptWhen(videos, startIndex, start);
  }

  /** A queue for which it is not so: the second of three videos is gone, and the third plays from its position. */
  lemma PositionOfAReplacedVideo(first: Item, gone: Item, last: Item)
    ensures var videos := [CatalogVideo(first, false, false, ""), CatalogVideo(gone, false, true, ""), CatalogVideo(last, false, false, "")];
      KeptItems(videos) == [first, last] && StartsAt(videos, 1, 1) && !Kept(videos[1])
  {
    var videos := [CatalogVideo(first, false, false, ""), CatalogVideo(gone, false, true, ""), CatalogVideo(last, false, false, "")];
    KeptGrows(videos, 0);
    KeptGrows(videos, 1);
    KeptGrows(videos, 2);
    assert videos[..0] == [] && videos[..3] == videos;
    assert FirstKeptFrom(videos, 1, 2);
    assert KeptItems(videos[..2]) == [first];
  }
}
