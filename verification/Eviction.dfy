/**
 The sweep that keeps the media directory under its budget
 (services/catalog/internal/usecase/evict.go), over the rows and files it
 changes. Whether a file that is there can be removed, and whether a mark goes
 through, is arbitrary, call by call.
 */
module Eviction {
  import opened Wrappers

  // A video's row. Evicting it forgets its path and its size, and nothing else.
  datatype Row = Row(mediaPath: string, size: nat, ready: bool, pinned: bool) {
    function Counted(): nat { if ready then size else 0 }

    function Evicted(): Row { Row("", 0, false, pinned) }
  }

  datatype Candidate = Candidate(id: string, mediaPath: string, size: nat)

  datatype Disk = Disk(rows: map<string, Row>, files: set<string>, calls: nat)

  // How the disk and the database answer, call by call. A file that is not
  // there is not removed, and is no failure.
  datatype Luck = Luck(removes: nat -> bool, marks: nat -> bool)

  /** After the call that removes it, the file is not there. */
  predicate Clears(luck: Luck, disk: Disk, path: string) {
    path in disk.files ==> luck.removes(disk.calls)
  }

  // ---- usage ----

  /** The bytes of every ready row: what `UsedBytes` sums. */
  ghost function Used(rows: map<string, Row>): nat
    decreases |rows|
  {
    if rows == map[] then 0
    else
      var id :| id in rows;
      assert |(rows - {id}).Keys| < |rows.Keys|;
      rows[id].Counted() + Used(rows - {id})
  }

  /** It does not matter in which order they are summed. */
  lemma {:induction false} UsedWithout(rows: map<string, Row>, id: string)
    requires id in rows
    ensures Used(rows) == rows[id].Counted() + Used(rows - {id})
    decreases |rows|
  {
    var first :| first in rows && Used(rows) == rows[first].Counted() + Used(rows - {first});
    if first != id {
      assert |(rows - {first}).Keys| < |rows.Keys|;
      assert |(rows - {id}).Keys| < |rows.Keys|;
      UsedWithout(rows - {first}, id);
      UsedWithout(rows - {id}, first);
      assert rows - {first} - {id} == rows - {id} - {first};
    }
  }

  lemma UsedAfterChange(rows: map<string, Row>, id: string, row: Row)
    requires id in rows
    ensures Used(rows[id := row]) == Used(rows) - rows[id].Counted() + row.Counted()
  {
    UsedWithout(rows, id);
    UsedWithout(rows[id := row], id);
    assert rows[id := row] - {id} == rows - {id};
  }

  /** A row that is ready adds its size, and one that is not adds nothing. */
  lemma UsedWithOneMore(rows: map<string, Row>, id: string, row: Row)
    requires id !in rows
    ensures Used(rows[id := row]) == Used(rows) + (if row.ready then row.size else 0)
  {
    UsedWithout(rows[id := row], id);
    assert rows[id := row] - {id} == rows;
  }

  // ---- the sweep ----

  // Where a sweep stands: the disk, what it has counted as freed, which
  // candidates it marked, whose files it really deleted, which of those it could
  // not mark, and which it marked though their file was gone before.
  datatype Sweep = Sweep(disk: Disk, freed: nat, marked: seq<Candidate>, deleted: seq<Candidate>,
                         unmarked: seq<Candidate>, late: seq<Candidate>, tried: nat)

  function Begin(disk: Disk): Sweep { Sweep(disk, 0, [], [], [], [], 0) }

  function Mark(rows: map<string, Row>, id: string): map<string, Row> {
    if id in rows then rows[id := rows[id].Evicted()] else rows
  }

  /** One candidate: its file goes, and then its row is marked; a failure of either leaves it uncounted. */
  function Try(luck: Luck, st: Sweep, c: Candidate): Sweep {
    var next := st.(tried := st.tried + 1);
    var disk := st.disk;
    if c.mediaPath == "" then next
    else if !Clears(luck, disk, c.mediaPath) then next.(disk := disk.(calls := disk.calls + 1))
    else
      var there := if c.mediaPath in disk.files then [c] else [];
      var gone := if c.mediaPath in disk.files then [] else [c];
      var cleared := disk.(files := disk.files - {c.mediaPath}, calls := disk.calls + 2);
      var removed := next.(disk := cleared, deleted := st.deleted + there);
      if !luck.marks(disk.calls + 1) then removed.(unmarked := st.unmarked + there)
      else
        removed.(disk := cleared.(rows := Mark(disk.rows, c.id)), freed := st.freed + c.size,
                 marked := st.marked + [c], late := st.late + gone)
  }

  /** The candidates in order, for as long as usage is above the low watermark. */
  function SweepFrom(luck: Luck, low: int, used: int, st: Sweep, candidates: seq<Candidate>): Sweep
    decreases |candidates|
  {
    if candidates == [] || used - st.freed <= low then st
    else SweepFrom(luck, low, used, Try(luck, st, candidates[0]), candidates[1..])
  }

  /** What `ListEvictionCandidates` returns: ready rows that are not pinned, each once, as they are. */
  ghost predicate Listed(rows: map<string, Row>, candidates: seq<Candidate>) {
    && (forall k :: 0 <= k < |candidates| ==>
          var c := candidates[k];
          c.id in rows && rows[c.id] == Row(c.mediaPath, c.size, true, false))
    && (forall i, j :: 0 <= i < j < |candidates| ==> candidates[i].id != candidates[j].id)
  }

  class Evictor {
    const high: int
    const low: int
    const luck: Luck
    var disk: Disk

    constructor (high: int, low: int, luck: Luck, disk: Disk)
      ensures this.high == high && this.low == low && this.luck == luck && this.disk == disk
    {
      this.high, this.low, this.luck, this.disk := high, low, luck, disk;
    }

    /** Removes a file; one that is not there is as good as removed. */
    method Remove(path: string) returns (gone: bool)
      modifies this`disk
      ensures gone == Clears(luck, old(disk), path)
      ensures disk == old(disk).(calls := old(disk).calls + 1, files := if gone then old(disk).files - {path} else old(disk).files)
    {
      gone := path !in disk.files || luck.removes(disk.calls);
      disk := disk.(calls := disk.calls + 1, files := if gone then disk.files - {path} else disk.files);
    }

    method MarkEvicted(id: string) returns (ok: bool)
      modifies this`disk
      ensures ok == luck.marks(old(disk).calls)
      ensures disk == old(disk).(calls := old(disk).calls + 1, rows := if ok then Mark(old(disk).rows, id) else old(disk).rows)
    {
      ok := luck.marks(disk.calls);
      disk := disk.(calls := disk.calls + 1, rows := if ok then Mark(disk.rows, id) else disk.rows);
    }

    /** Sweeps once, on what the repository answers; a question it cannot answer ends the sweep before it begins. */
    method SweepOnce(used: Option<int>, candidates: Option<seq<Candidate>>) returns (freed: nat, failed: bool)
      modifies this`disk
      ensures used.None? ==> failed && freed == 0 && disk == old(disk)
      ensures used.Some? && used.value <= high ==> !failed && freed == 0 && disk == old(disk)
      ensures used.Some? && used.value > high && candidates.None? ==> failed && freed == 0 && disk == old(disk)
      ensures used.Some? && used.value > high && candidates.Some? ==>
        var swept := SweepFrom(luck, low, used.value, Begin(old(disk)), candidates.value);
        !failed && freed == swept.freed && disk == swept.disk
    {
      freed, failed := 0, false;
      if used.None? {
        failed := true;
        return;
      }
      if used.value <= high {
        return;
      }
      if candidates.None? {
        failed := true;
        return;
      }
      ghost var st := Begin(disk);
      var i := 0;
      assert candidates.value[0..] == candidates.value;
      while i < |candidates.value|
        invariant 0 <= i <= |candidates.value|
        invariant st.disk == disk && st.freed == freed
        invariant SweepFrom(luck, low, used.value, st, candidates.value[i..])
               == SweepFrom(luck, low, used.value, Begin(old(disk)), candidates.value)
      {
        if used.value - freed <= low {
          break;
        }
        var c := candidates.value[i];
        assert candidates.value[i..][0] == c && candidates.value[i..][1..] == candidates.value[i + 1..];
        st := Try(luck, st, c);
        i := i + 1;
        if c.mediaPath == "" {
          continue;
        }
        var gone := Remove(c.mediaPath);
        if !gone {
          continue;
        }
        var ok := MarkEvicted(c.id);
        if !ok {
          continue;
        }
        freed := freed + c.size;
      }
    }
  }

  // ---- what one sweep does ----

  function Sizes(of: seq<Candidate>): nat {
    if of == [] then 0 else Sizes(of[..|of| - 1]) + of[|of| - 1].size
  }

  lemma SizesOneMore(of: seq<Candidate>, c: Candidate)
    ensures Sizes(of + [c]) == Sizes(of) + c.size
    ensures Sizes(of + []) == Sizes(of)
  {
    assert (of + [c])[..|of|] == of;
    assert of + [] == of;
  }

  lemma {:induction false} SizesOfSome(of: seq<Candidate>)
    requires forall c :: c in of ==> c.size > 0
    ensures Sizes(of) == 0 <==> of == []
    decreases |of|
  {
    if of != [] {
      assert of[|of| - 1] in of;
    }
  }

  predicate MarkedId(marked: seq<Candidate>, id: string) {
    exists c :: c in marked && c.id == id
  }

  lemma MarkedOneMore(marked: seq<Candidate>, c: Candidate)
    ensures forall id :: MarkedId(marked + [c], id) <==> MarkedId(marked, id) || id == c.id
  {
    assert c in marked + [c];
  }

  /** The rows of a sweep so far, against those it began with. */
  ghost predicate RowsAccount(before: Disk, st: Sweep) {
    && Used(st.disk.rows) == Used(before.rows) - st.freed
    && st.disk.rows.Keys == before.rows.Keys
    && (forall id :: id in before.rows ==>
          st.disk.rows[id] == if MarkedId(st.marked, id) then before.rows[id].Evicted() else before.rows[id])
    && (forall c :: c in st.marked ==>
          c.id in before.rows && before.rows[c.id] == Row(c.mediaPath, c.size, true, false) && c.mediaPath !in st.disk.files)
  }

  /** Its bytes: what is counted, what is really deleted, and why they differ. */
  ghost predicate BytesAccount(st: Sweep) {
    && st.freed == Sizes(st.marked)
    && Sizes(st.deleted) + Sizes(st.late) == st.freed + Sizes(st.unmarked)
  }

  /** Its files: those deleted are those of the candidates deleted, and no others. */
  ghost predicate FilesAccount(before: Disk, st: Sweep) {
    && st.disk.files <= before.files
    && (forall f :: f in before.files && f !in st.disk.files <==> exists c :: c in st.deleted && c.mediaPath == f)
    && (forall c :: c in st.deleted ==>
          c.mediaPath in before.files && c.mediaPath !in st.disk.files
          && c.id in before.rows && before.rows[c.id] == Row(c.mediaPath, c.size, true, false))
    && (forall c :: c in st.unmarked ==> c in st.deleted && c !in st.marked)
    && (forall c :: c in st.deleted && c !in st.unmarked ==> c in st.marked)
    && (forall c :: c in st.late ==> c in st.marked && c.mediaPath !in st.disk.files)
  }

  /** It went no further than it had to, by its own count. */
  ghost predicate Minimal(st: Sweep, low: int, used: int) {
    && (st.marked != [] ==> used - (st.freed - st.marked[|st.marked| - 1].size) > low)
    && (st.deleted != [] ==> used - (Sizes(st.deleted) - st.deleted[|st.deleted| - 1].size) > low - Sizes(st.unmarked))
  }

  ghost predicate Accounts(before: Disk, st: Sweep, low: int, used: int) {
    RowsAccount(before, st) && BytesAccount(st) && FilesAccount(before, st) && Minimal(st, low, used)
  }

  ghost predicate Candid(before: Disk, c: Candidate) {
    c.id in before.rows && before.rows[c.id] == Row(c.mediaPath, c.size, true, false)
  }

  lemma TryRows(luck: Luck, before: Disk, st: Sweep, c: Candidate)
    requires RowsAccount(before, st) && Candid(before, c) && !MarkedId(st.marked, c.id)
    ensures RowsAccount(before, Try(luck, st, c))
  {
    hide Used, MarkedId;
    if Try(luck, st, c).marked != st.marked {
      MarkedOneMore(st.marked, c);
      UsedAfterChange(st.disk.rows, c.id, st.disk.rows[c.id].Evicted());
    }
  }

  lemma TryBytes(luck: Luck, st: Sweep, c: Candidate, low: int, used: int)
    requires BytesAccount(st) && Minimal(st, low, used) && used - st.freed > low
    ensures BytesAccount(Try(luck, st, c)) && Minimal(Try(luck, st, c), low, used)
  {
    hide Sizes, Mark;
    SizesOneMore(st.marked, c);
    SizesOneMore(st.deleted, c);
    SizesOneMore(st.unmarked, c);
    SizesOneMore(st.late, c);
    assert st.deleted + [] == st.deleted && st.unmarked + [] == st.unmarked && st.late + [] == st.late;
  }

  /** The candidate deletes its file: it is there, and goes. */
  predicate Deletes(luck: Luck, disk: Disk, c: Candidate) {
    c.mediaPath != "" && c.mediaPath in disk.files && Clears(luck, disk, c.mediaPath)
  }

  predicate MarksNow(luck: Luck, disk: Disk, c: Candidate) {
    c.mediaPath != "" && Clears(luck, disk, c.mediaPath) && luck.marks(disk.calls + 1)
  }

  lemma TryLists(luck: Luck, st: Sweep, c: Candidate)
    ensures var next := Try(luck, st, c);
      && (forall x :: x in next.deleted <==> x in st.deleted || (x == c && Deletes(luck, st.disk, c)))
      && (forall x :: x in next.marked <==> x in st.marked || (x == c && MarksNow(luck, st.disk, c)))
      && (forall x :: x in next.unmarked <==>
            x in st.unmarked || (x == c && Deletes(luck, st.disk, c) && !MarksNow(luck, st.disk, c)))
      && (forall x :: x in next.late <==>
            x in st.late || (x == c && MarksNow(luck, st.disk, c) && c.mediaPath !in st.disk.files))
      && next.disk.files == (if Deletes(luck, st.disk, c) then st.disk.files - {c.mediaPath} else st.disk.files)
  {
    hide Mark;
  }

  lemma TryFiles(luck: Luck, before: Disk, st: Sweep, c: Candidate)
    requires FilesAccount(before, st) && Candid(before, c) && !MarkedId(st.marked, c.id) && c !in st.deleted
    ensures FilesAccount(before, Try(luck, st, c))
  {
    hide Try, Clears, MarksNow;
    TryLists(luck, st, c);
    var next := Try(luck, st, c);
    assert c !in st.marked by {
      assert c in st.marked ==> MarkedId(st.marked, c.id);
    }
    forall f | f in before.files && f !in next.disk.files ensures exists x :: x in next.deleted && x.mediaPath == f {
      if f in st.disk.files {
        assert c in next.deleted;
      } else {
        var x :| x in st.deleted && x.mediaPath == f;
        assert x in next.deleted;
      }
    }
  }

  lemma MarksAtMost(luck: Luck, st: Sweep, c: Candidate)
    ensures Try(luck, st, c).marked == st.marked || Try(luck, st, c).marked == st.marked + [c]
    ensures Try(luck, st, c).tried == st.tried + 1
  {
  }

  lemma {:induction false} SweepAccounts(luck: Luck, before: Disk, st: Sweep, low: int, used: int, candidates: seq<Candidate>)
    requires Accounts(before, st, low, used) && Listed(before.rows, candidates)
    requires forall k :: 0 <= k < |candidates| ==> !MarkedId(st.marked, candidates[k].id) && candidates[k] !in st.deleted
    ensures var swept := SweepFrom(luck, low, used, st, candidates);
      && Accounts(before, swept, low, used)
      && (used - swept.freed <= low || swept.tried == st.tried + |candidates|)
      && st.tried <= swept.tried <= st.tried + |candidates|
      && (forall c :: c in swept.deleted ==> c in st.deleted || c in candidates[..swept.tried - st.tried])
    decreases |candidates|
  {
    hide RowsAccount, BytesAccount, FilesAccount, Minimal, Try, Used, Sizes;
    if candidates != [] && used - st.freed > low {
      var c := candidates[0];
      var next := Try(luck, st, c);
      assert Candid(before, c);
      TryRows(luck, before, st, c);
      TryBytes(luck, st, c, low, used);
      TryFiles(luck, before, st, c);
      MarksAtMost(luck, st, c);
      DeletesAtMost(luck, st, c);
      MarkedOneMore(st.marked, c);
      assert Listed(before.rows, candidates[1..]);
      SweepAccounts(luck, before, next, low, used, candidates[1..]);
      var swept := SweepFrom(luck, low, used, st, candidates);
      forall x | x in swept.deleted ensures x in st.deleted || x in candidates[..swept.tried - st.tried] {
        assert candidates[1..][..swept.tried - next.tried] == candidates[..swept.tried - st.tried][1..];
        assert c in candidates[..1];
      }
    }
  }

  lemma DeletesAtMost(luck: Luck, st: Sweep, c: Candidate)
    ensures forall x :: x in Try(luck, st, c).deleted ==> x in st.deleted || x == c
  {
  }

  lemma BeginAccounts(disk: Disk, low: int, used: int)
    ensures Accounts(disk, Begin(disk), low, used)
  {
    hide Used;
  }

  /** What a sweep comes to, above its high watermark. */
  ghost function Swept(luck: Luck, low: int, disk: Disk, candidates: seq<Candidate>): Sweep {
    SweepFrom(luck, low, Used(disk.rows), Begin(disk), candidates)
  }

  lemma SweptAccounts(luck: Luck, low: int, disk: Disk, candidates: seq<Candidate>)
    requires Listed(disk.rows, candidates)
    ensures var swept := Swept(luck, low, disk, candidates);
      && Accounts(disk, swept, low, Used(disk.rows))
      && (Used(disk.rows) - swept.freed <= low || swept.tried == |candidates|)
      && swept.tried <= |candidates|
      && (forall c :: c in swept.deleted ==> c in candidates[..swept.tried])
  {
    hide Used, Sizes, Try, Accounts, SweepFrom, MarkedId;
    BeginAccounts(disk, low, Used(disk.rows));
    NothingMarked();
    SweepAccounts(luck, disk, Begin(disk), low, Used(disk.rows), candidates);
  }

  lemma NothingMarked()
    ensures forall id :: !MarkedId([], id)
  {
  }

  /**
   Conservation and minimality, whatever subset of removals and marks fails.
   What is freed is the size of exactly the rows marked, and what usage falls
   by; rows pinned or not ready are untouched; usage was above the low watermark
   before the last row counted; and at the end it is at or under it, or every
   candidate was tried. Files go that are a tried candidate's own, and no others.
   */
  lemma SweepConserves(luck: Luck, low: int, disk: Disk, candidates: seq<Candidate>)
    requires Listed(disk.rows, candidates)
    ensures var swept := Swept(luck, low, disk, candidates);
      && swept.freed == Sizes(swept.marked)
      && Used(swept.disk.rows) == Used(disk.rows) - swept.freed
      && (forall id :: id in disk.rows ==>
            && id in swept.disk.rows
            && (if MarkedId(swept.marked, id) then disk.rows[id].ready && !disk.rows[id].pinned && swept.disk.rows[id] == disk.rows[id].Evicted()
                else swept.disk.rows[id] == disk.rows[id]))
      && (swept.marked != [] ==> Used(disk.rows) - (swept.freed - swept.marked[|swept.marked| - 1].size) > low)
      && (Used(swept.disk.rows) <= low || swept.tried == |candidates|)
      && swept.tried <= |candidates|
      && (forall f :: f in disk.files && f !in swept.disk.files ==>
            exists k :: 0 <= k < swept.tried && candidates[k].mediaPath == f)
  {
    hide Used, Sizes, Try, Swept;
    SweptAccounts(luck, low, disk, candidates);
    var swept := Swept(luck, low, disk, candidates);
    forall id | id in disk.rows && MarkedId(swept.marked, id) ensures disk.rows[id].ready && !disk.rows[id].pinned {
      var c :| c in swept.marked && c.id == id;
    }
    forall f | f in disk.files && f !in swept.disk.files ensures exists k :: 0 <= k < swept.tried && candidates[k].mediaPath == f {
      var c :| c in swept.deleted && c.mediaPath == f;
      var k :| 0 <= k < swept.tried && candidates[..swept.tried][k] == c;
      assert candidates[k] == c;
    }
  }

  // ---- counted bytes and deleted bytes ----

  /** No two candidates have one file, and every candidate's file is there. */
  ghost predicate FilesThere(disk: Disk, candidates: seq<Candidate>) {
    && (forall k :: 0 <= k < |candidates| ==> candidates[k].mediaPath in disk.files)
    && (forall i, j :: 0 <= i < j < |candidates| ==> candidates[i].mediaPath != candidates[j].mediaPath)
  }

  lemma {:induction false} NoneLate(luck: Luck, low: int, used: int, st: Sweep, candidates: seq<Candidate>)
    requires FilesThere(st.disk, candidates) && st.late == []
    ensures SweepFrom(luck, low, used, st, candidates).late == []
    decreases |candidates|
  {
    if candidates != [] && used - st.freed > low {
      NoneLate(luck, low, used, Try(luck, st, candidates[0]), candidates[1..]);
    }
  }

  /** Whatever was there to begin with: what is deleted beyond the count is what could not be marked, less what was marked late. */
  lemma CountedAndDeleted(luck: Luck, low: int, disk: Disk, candidates: seq<Candidate>)
    requires Listed(disk.rows, candidates)
    ensures var swept := Swept(luck, low, disk, candidates);
      && Sizes(swept.deleted) - swept.freed == Sizes(swept.unmarked) - Sizes(swept.late)
      && (forall f :: f in disk.files && f !in swept.disk.files <==> exists c :: c in swept.deleted && c.mediaPath == f)
      && (forall c :: c in swept.late ==> c in swept.marked && c.mediaPath !in swept.disk.files)
      && (forall c :: c in swept.unmarked ==> c in swept.deleted && c !in swept.marked)
  {
    hide Used, Sizes, Swept, RowsAccount, Minimal;
    SweptAccounts(luck, low, disk, candidates);
  }

  /** A candidate whose file the sweep deleted without marking its row: the file is gone and the row still says ready. */
  predicate LeftBehind(disk: Disk, after: Disk, c: Candidate) {
    c.mediaPath in disk.files && c.mediaPath !in after.files && c.id in after.rows && after.rows[c.id].ready
  }

  /**
   Deleting is meant to stop once enough bytes are gone. The sweep counts the
   bytes of rows marked, which are those really deleted if and only if no
   candidate with a deleted file has a row left saying it is ready; the
   shortfall is the bytes of those candidates, and they are what it may have
   deleted beyond its low watermark.
   */
  lemma CountedIsDeletedWhen(luck: Luck, low: int, disk: Disk, candidates: seq<Candidate>)
    requires Listed(disk.rows, candidates) && FilesThere(disk, candidates)
    requires forall k :: 0 <= k < |candidates| ==> candidates[k].size > 0
    ensures var swept := Swept(luck, low, disk, candidates);
      && (swept.freed == Sizes(swept.deleted) <==> forall k :: 0 <= k < |candidates| ==> !LeftBehind(disk, swept.disk, candidates[k]))
      && Sizes(swept.deleted) - swept.freed == Sizes(swept.unmarked)
      && (forall c :: c in swept.unmarked <==> c in candidates && LeftBehind(disk, swept.disk, c))
      && (forall f :: f in disk.files && f !in swept.disk.files <==> exists c :: c in swept.deleted && c.mediaPath == f)
      && (swept.deleted != [] ==>
            Used(disk.rows) - (Sizes(swept.deleted) - swept.deleted[|swept.deleted| - 1].size) > low - Sizes(swept.unmarked))
  {
    hide Used, Sizes, Try, SweepFrom;
    var swept := Swept(luck, low, disk, candidates);
    SweptAccounts(luck, low, disk, candidates);
    NoneLate(luck, low, Used(disk.rows), Begin(disk), candidates);
    assert Sizes([]) == 0 by { SizesOfSome([]); }
    forall c | c in swept.unmarked ensures c in candidates {
      assert c in swept.deleted;
      assert c in candidates[..swept.tried];
    }
    forall c ensures c in swept.unmarked <==> c in candidates && LeftBehind(disk, swept.disk, c) {
      if c in candidates {
        UnmarkedIsLeftBehind(disk, swept, candidates, c, low, Used(disk.rows));
      }
    }
    forall c | c in swept.unmarked ensures c.size > 0 {
      assert c in candidates;
    }
    SizesOfSome(swept.unmarked);
    if swept.unmarked != [] {
      var c := swept.unmarked[0];
      assert c in candidates && LeftBehind(disk, swept.disk, c);
    }
  }

  lemma UnmarkedIsLeftBehind(disk: Disk, swept: Sweep, candidates: seq<Candidate>, c: Candidate, low: int, used: int)
    requires Listed(disk.rows, candidates) && FilesThere(disk, candidates) && Accounts(disk, swept, low, used) && c in candidates
    requires forall x :: x in swept.deleted ==> x in candidates
    ensures c in swept.unmarked <==> LeftBehind(disk, swept.disk, c)
  {
    hide Used, Sizes, Minimal, BytesAccount;
    var k :| 0 <= k < |candidates| && candidates[k] == c;
    assert MarkedId(swept.marked, c.id) <==> c in swept.marked by {
      if x :| x in swept.marked && x.id == c.id {
        assert x == c;
      }
    }
    assert c in swept.deleted <==> c.mediaPath !in swept.disk.files by {
      if x :| x in swept.deleted && x.mediaPath == c.mediaPath {
        var l :| 0 <= l < |candidates| && candidates[l] == x;
        assert l == k;
      }
    }
  }

  /** The candidate's file goes, and the mark of its row that follows fails. */
  predicate MarkFailsAfter(luck: Luck, disk: Disk, c: Candidate) {
    Deletes(luck, disk, c) && !luck.marks(disk.calls + 1)
  }

  lemma {:induction false} UnmarkedWhen(luck: Luck, low: int, used: int, st: Sweep, candidates: seq<Candidate>)
    ensures var swept := SweepFrom(luck, low, used, st, candidates);
      && st.tried <= swept.tried <= st.tried + |candidates|
      && (swept.unmarked == [] <==>
            && st.unmarked == []
            && forall k :: 0 <= k < swept.tried - st.tried ==>
                 !MarkFailsAfter(luck, SweepFrom(luck, low, used, st, candidates[..k]).disk, candidates[k]))
    decreases |candidates|
  {
    hide Try, MarkFailsAfter;
    if candidates != [] && used - st.freed > low {
      var c, next := candidates[0], Try(luck, st, candidates[0]);
      TryUnmarks(luck, st, c);
      UnmarkedWhen(luck, low, used, next, candidates[1..]);
      var swept := SweepFrom(luck, low, used, st, candidates);
      assert SweepFrom(luck, low, used, st, candidates[..0]) == st;
      forall k | 0 <= k < swept.tried - next.tried
        ensures SweepFrom(luck, low, used, st, candidates[..k + 1]) == SweepFrom(luck, low, used, next, candidates[1..][..k])
      {
        assert candidates[..k + 1][0] == c && candidates[..k + 1][1..] == candidates[1..][..k];
      }
      assert forall k :: 0 < k < swept.tried - st.tried ==> candidates[k] == candidates[1..][k - 1];
    }
  }

  lemma TryUnmarks(luck: Luck, st: Sweep, c: Candidate)
    ensures Try(luck, st, c).unmarked == st.unmarked + (if MarkFailsAfter(luck, st.disk, c) then [c] else [])
    ensures Try(luck, st, c).tried == st.tried + 1
  {
  }

  /** By the guard: counted is deleted if and only if no mark fails after the removal of a file that was there. */
  lemma CountedIsDeletedUnlessAMarkFails(luck: Luck, low: int, disk: Disk, candidates: seq<Candidate>)
    requires Listed(disk.rows, candidates) && FilesThere(disk, candidates)
    requires forall k :: 0 <= k < |candidates| ==> candidates[k].size > 0
    ensures var swept := Swept(luck, low, disk, candidates);
      && swept.tried <= |candidates|
      && (swept.freed == Sizes(swept.deleted) <==>
            forall k :: 0 <= k < swept.tried ==>
              !MarkFailsAfter(luck, SweepFrom(luck, low, Used(disk.rows), Begin(disk), candidates[..k]).disk, candidates[k]))
  {
    hide Used, Sizes, SweepFrom, MarkFailsAfter, LeftBehind, Listed, FilesThere;
    var swept := Swept(luck, low, disk, candidates);
    CountedIsDeletedWhen(luck, low, disk, candidates);
    UnmarkedWhen(luck, low, Used(disk.rows), Begin(disk), candidates);
    forall c | c in swept.unmarked ensures c.size > 0 {
      assert c in candidates;
    }
    SizesOfSome(swept.unmarked);
  }

  function Hundred(id: string): Row { Row(id, 100, true, false) }

  const THREE := map["a" := Hundred("a"), "b" := Hundred("b"), "c" := Hundred("c")]

  lemma ThreeHundred()
    ensures Used(THREE) == 300
  {
    hide Used;
    UsedWithout(THREE, "a");
    UsedWithout(THREE - {"a"}, "b");
    UsedWithout(THREE - {"a"} - {"b"}, "c");
    assert THREE - {"a"} - {"b"} - {"c"} == map[];
    NothingUsed();
  }

  lemma NothingUsed()
    ensures Used(map[]) == 0
  {
  }

  /** Three files of a hundred bytes, of which two are too many, and a database that takes no mark: all three go, and nothing is counted. */
  lemma AllThreeGo(luck: Luck)
    requires forall n :: luck.removes(n) && !luck.marks(n)
    ensures var disk := Disk(THREE, {"a", "b", "c"}, 0);
      var candidates := [Candidate("a", "a", 100), Candidate("b", "b", 100), Candidate("c", "c", 100)];
      var swept := Swept(luck, 150, disk, candidates);
      && Listed(disk.rows, candidates) && FilesThere(disk, candidates) && Used(disk.rows) == 300
      && swept.disk.files == {} && swept.freed == 0 && swept.disk.rows == THREE
  {
    hide Used;
    ThreeHundred();
    var disk := Disk(THREE, {"a", "b", "c"}, 0);
    var a, b, c := Candidate("a", "a", 100), Candidate("b", "b", 100), Candidate("c", "c", 100);
    var st1 := Try(luck, Begin(disk), a);
    var st2 := Try(luck, st1, b);
    assert [a, b, c][1..] == [b, c] && [b, c][1..] == [c] && [c][1..] == [];
    assert SweepFrom(luck, 150, 300, st2, [c]) == Try(luck, st2, c);
    assert SweepFrom(luck, 150, 300, st1, [b, c]) == Try(luck, st2, c);
  }

  // ---- sweeps that follow one another ----

  // What happens to the library, one thing after another: a sweep, with how its
  // calls are answered and what was listed; a download that has finished, whose
  // row the catalogue then takes or fails to take; a file found gone when somebody pressed play; a save or unsave by a viewer.
  datatype Happening =
    | SweptBy(luck: Luck, candidates: seq<Candidate>)
    | Fetched(id: string, path: string, size: nat, stored: bool)
    | FoundGone(id: string)
    | PinSet(id: string, pinned: bool)

  // The watermarks of the sweeps, and whose video each path in the media directory is.
  datatype Library = Library(high: int, low: int, owner: string -> string)

  function FetchedRow(row: Row, path: string, size: nat): Row {
    Row(path, if size > 0 then size else row.size, true, row.pinned)
  }

  /** A sweep, as the repository's answers have it: nothing at or under the high watermark. */
  ghost function SweptAbove(luck: Luck, high: int, low: int, disk: Disk, candidates: seq<Candidate>): Sweep {
    if Used(disk.rows) <= high then Begin(disk) else Swept(luck, low, disk, candidates)
  }

  /** A sweep goes by what is listed as it begins; only a video that is not there is fetched, into its own directory. */
  ghost predicate Possible(lib: Library, disk: Disk, h: Happening) {
    match h
    case SweptBy(_, candidates) => Listed(disk.rows, candidates)
    case Fetched(id, path, _, _) =>
      id in disk.rows && path != "" && lib.owner(path) == id && !(disk.rows[id].ready && disk.rows[id].mediaPath in disk.files)
    case FoundGone(id) => id in disk.rows && disk.rows[id].ready && disk.rows[id].mediaPath != "" && disk.rows[id].mediaPath !in disk.files
    case PinSet(id, _) => id in disk.rows
  }

  ghost function Happen(lib: Library, disk: Disk, h: Happening): Disk
    requires Possible(lib, disk, h)
  {
    match h
    case SweptBy(luck, candidates) => SweptAbove(luck, lib.high, lib.low, disk, candidates).disk
    case Fetched(id, path, size, stored) =>
      disk.(files := disk.files + {path},
            rows := if stored then disk.rows[id := FetchedRow(disk.rows[id], path, size)] else disk.rows)
    case FoundGone(id) => disk.(rows := disk.rows[id := disk.rows[id].(ready := false)])
    case PinSet(id, pinned) => disk.(rows := disk.rows[id := disk.rows[id].(pinned := pinned)])
  }

  /** The disks a library goes through. */
  ghost predicate History(lib: Library, disks: seq<Disk>, hs: seq<Happening>) {
    && |disks| == |hs| + 1
    && forall k :: 0 <= k < |hs| ==> Possible(lib, disks[k], hs[k]) && disks[k + 1] == Happen(lib, disks[k], hs[k])
  }

  /** A row names files of its own video only. */
  ghost predicate PathsOwned(lib: Library, disk: Disk) {
    forall id :: id in disk.rows && disk.rows[id].mediaPath != "" ==> lib.owner(disk.rows[id].mediaPath) == id
  }

  /** The file is the one that its own video's row names, and that row says it is ready. */
  predicate Named(lib: Library, disk: Disk, f: string) {
    && f != "" && lib.owner(f) in disk.rows
    && disk.rows[lib.owner(f)].ready && disk.rows[lib.owner(f)].mediaPath == f
  }

  ghost predicate Owned(lib: Library, disk: Disk) {
    PathsOwned(lib, disk) && forall f :: f in disk.files ==> Named(lib, disk, f)
  }

  /** A download put the file there, and the catalogue did not take its row. */
  ghost predicate FetchNotStored(hs: seq<Happening>, k: nat, f: string) {
    exists i :: 0 <= i < k <= |hs| && hs[i].Fetched? && !hs[i].stored && hs[i].path == f
  }

  lemma SweepKeepsNamed(lib: Library, luck: Luck, disk: Disk, candidates: seq<Candidate>)
    requires PathsOwned(lib, disk) && Listed(disk.rows, candidates)
    ensures var after := Swept(luck, lib.low, disk, candidates).disk;
      && PathsOwned(lib, after) && after.files <= disk.files
      && forall f :: f in after.files && Named(lib, disk, f) ==> Named(lib, after, f)
  {
    hide Used, Sizes, Swept, BytesAccount, Minimal;
    SweptAccounts(luck, lib.low, disk, candidates);
    var swept := Swept(luck, lib.low, disk, candidates);
    forall f, c | f in swept.disk.files && Named(lib, disk, f) && c in swept.marked ensures c.id != lib.owner(f) {
    }
  }

  lemma HappeningKeepsNamed(lib: Library, disk: Disk, h: Happening)
    requires PathsOwned(lib, disk) && Possible(lib, disk, h)
    ensures var after := Happen(lib, disk, h);
      && PathsOwned(lib, after)
      && forall f :: f in after.files ==>
           (f in disk.files && (Named(lib, disk, f) ==> Named(lib, after, f)))
           || (h.Fetched? && f == h.path && (h.stored ==> Named(lib, after, f)))
  {
    hide Used, Swept, Listed;
    if h.SweptBy? {
      SweepKeepsNamed(lib, h.luck, disk, h.candidates);
    }
  }

  /**
   Over any run of sweeps, downloads and repairs, whatever fails: a video whose
   row is not ready has no file, and one whose row is ready none but the one the
   row names, other than what a download has left whose row the catalogue did
   not take.
   */
  lemma {:induction false} NoFileWithoutARow(lib: Library, disks: seq<Disk>, hs: seq<Happening>, k: nat)
    requires History(lib, disks, hs) && k < |disks| && Owned(lib, disks[0])
    ensures PathsOwned(lib, disks[k])
    ensures forall f :: f in disks[k].files ==> Named(lib, disks[k], f) || FetchNotStored(hs, k, f)
    decreases k
  {
    hide Happen, Possible, Named, PathsOwned;
    if k > 0 {
      var h := hs[k - 1];
      NoFileWithoutARow(lib, disks, hs, k - 1);
      assert disks[k] == Happen(lib, disks[k - 1], h);
      HappeningKeepsNamed(lib, disks[k - 1], h);
      forall f | f in disks[k].files ensures Named(lib, disks[k], f) || FetchNotStored(hs, k, f) {
        if FetchNotStored(hs, k - 1, f) {
          var i :| 0 <= i < k - 1 && hs[i].Fetched? && !hs[i].stored && hs[i].path == f;
          assert hs[i].path == f;
        } else if !Named(lib, disks[k], f) {
          assert hs[k - 1].path == f;
        }
      }
    }
  }

  /** A download stored counts with its own size, or, when that is not known, with the one the row had before. */
  lemma FetchedCounts(lib: Library, disk: Disk, h: Happening)
    requires Possible(lib, disk, h) && h.Fetched? && h.stored
    ensures var before, after := disk.rows[h.id], Happen(lib, disk, h);
      && Used(after.rows) == Used(disk.rows) - (if before.ready then before.size else 0) + (if h.size > 0 then h.size else before.size)
      && after.rows[h.id].ready && after.rows[h.id].mediaPath == h.path && after.rows[h.id].pinned == before.pinned
      && after.files == disk.files + {h.path}
  {
    hide Used;
    UsedAfterChange(disk.rows, h.id, FetchedRow(disk.rows[h.id], h.path, h.size));
  }

  /** Such a download leaves a file no row names, which is not counted, and which no sweep that follows lists. */
  lemma FetchLeavesAFile(lib: Library, disk: Disk, h: Happening)
    requires PathsOwned(lib, disk) && Possible(lib, disk, h) && h.Fetched? && !h.stored && !disk.rows[h.id].ready
    ensures var after := Happen(lib, disk, h);
      && h.path in after.files && !Named(lib, after, h.path) && Used(after.rows) == Used(disk.rows)
      && forall candidates: seq<Candidate> :: Listed(after.rows, candidates) ==>
           forall k :: 0 <= k < |candidates| && candidates[k].mediaPath != "" ==> candidates[k].mediaPath != h.path
  {
    hide Used;
  }

  // ---- a mark that failed ----

  lemma SweepDeletesOnly(luck: Luck, low: int, disk: Disk, candidates: seq<Candidate>)
    requires Listed(disk.rows, candidates)
    ensures Swept(luck, low, disk, candidates).disk.files <= disk.files
  {
    hide Used, Sizes, Swept;
    SweptAccounts(luck, low, disk, candidates);
  }

  /** A file once gone is gone until its video is fetched to that path again. */
  lemma {:induction false} GoneUntilFetched(lib: Library, disks: seq<Disk>, hs: seq<Happening>, i: nat, k: nat, path: string)
    requires History(lib, disks, hs) && i <= k < |disks| && path !in disks[i].files
    requires forall l :: i <= l < k && hs[l].Fetched? ==> hs[l].path != path
    ensures path !in disks[k].files
    decreases k
  {
    hide Used, Swept, Listed;
    if i < k {
      GoneUntilFetched(lib, disks, hs, i, k - 1, path);
      assert disks[k] == Happen(lib, disks[k - 1], hs[k - 1]);
      if hs[k - 1].SweptBy? {
        SweepDeletesOnly(hs[k - 1].luck, lib.low, disks[k - 1], hs[k - 1].candidates);
      }
    }
  }

  lemma {:induction false} MarkedStays(luck: Luck, low: int, used: int, st: Sweep, candidates: seq<Candidate>)
    ensures st.marked <= SweepFrom(luck, low, used, st, candidates).marked
    decreases |candidates|
  {
    hide Mark;
    if candidates != [] && used - st.freed > low {
      MarksAtMost(luck, st, candidates[0]);
      MarkedStays(luck, low, used, Try(luck, st, candidates[0]), candidates[1..]);
    }
  }

  lemma {:induction false} FilesOnlyGo(luck: Luck, low: int, used: int, st: Sweep, candidates: seq<Candidate>)
    ensures SweepFrom(luck, low, used, st, candidates).disk.files <= st.disk.files
    decreases |candidates|
  {
    if candidates != [] && used - st.freed > low {
      FilesOnlyGo(luck, low, used, Try(luck, st, candidates[0]), candidates[1..]);
    }
  }

  /** The sweep comes to candidate k, and stands where the candidates before it have brought it. */
  lemma {:induction false} ComesTo(luck: Luck, low: int, used: int, st: Sweep, candidates: seq<Candidate>, k: nat)
    requires k < |candidates| && SweepFrom(luck, low, used, st, candidates).tried > st.tried + k
    ensures var reached := SweepFrom(luck, low, used, st, candidates[..k]);
      var next := Try(luck, reached, candidates[k]);
      && next.marked <= SweepFrom(luck, low, used, st, candidates).marked
      && SweepFrom(luck, low, used, st, candidates).disk.files <= next.disk.files
      && reached.disk.files <= st.disk.files
    decreases k
  {
    hide Try;
    var c, next := candidates[0], Try(luck, st, candidates[0]);
    assert used - st.freed > low;
    MarksAtMost(luck, st, c);
    if k == 0 {
      assert candidates[..0] == [];
      MarkedStays(luck, low, used, next, candidates[1..]);
      FilesOnlyGo(luck, low, used, next, candidates[1..]);
    } else {
      assert candidates[..k][0] == c && candidates[..k][1..] == candidates[1..][..k - 1];
      ComesTo(luck, low, used, next, candidates[1..], k - 1);
      FilesOnlyGo(luck, low, used, st, candidates[..k]);
    }
  }

  /** The sweep of a history that comes to candidate k, and whether the mark it then asks for goes through. */
  ghost predicate Reaches(lib: Library, disk: Disk, h: Happening, k: nat, marks: bool) {
    && h.SweptBy? && k < |h.candidates| && Used(disk.rows) > lib.high
    && Swept(h.luck, lib.low, disk, h.candidates).tried > k
    && var reached := SweepFrom(h.luck, lib.low, Used(disk.rows), Begin(disk), h.candidates[..k]).disk;
       var path := h.candidates[k].mediaPath;
       && path != "" && Clears(h.luck, reached, path)
       && h.luck.marks(reached.calls + 1) == marks
  }

  /**
   A sweep that could not mark a candidate has left it without its file. The
   later sweep that comes to it, its video not fetched meanwhile, marks it as
   soon as a mark goes through: the file being gone already is no failure.
   */
  lemma FailedMarksAreMadeGood(lib: Library, disks: seq<Disk>, hs: seq<Happening>, i: nat, k: nat, j: nat, l: nat)
    requires History(lib, disks, hs) && i < j < |hs|
    requires Reaches(lib, disks[i], hs[i], k, false)
    requires hs[j].SweptBy? && l < |hs[j].candidates| && hs[j].candidates[l].mediaPath == hs[i].candidates[k].mediaPath
    requires forall m :: i < m < j && hs[m].Fetched? ==> hs[m].path != hs[i].candidates[k].mediaPath
    requires Used(disks[j].rows) > lib.high && Swept(hs[j].luck, lib.low, disks[j], hs[j].candidates).tried > l
    ensures var path := hs[i].candidates[k].mediaPath;
      && path !in disks[i + 1].files && path !in disks[j].files
      && (Owned(lib, disks[0]) ==> hs[j].candidates[l].id == hs[i].candidates[k].id)
      && var reached := SweepFrom(hs[j].luck, lib.low, Used(disks[j].rows), Begin(disks[j]), hs[j].candidates[..l]).disk;
         (hs[j].luck.marks(reached.calls + 1) ==>
            var id := hs[j].candidates[l].id;
            id in disks[j + 1].rows && disks[j + 1].rows[id] == Row("", 0, false, disks[j].rows[id].pinned))
  {
    hide Used, SweepFrom, Try, Listed, RowsAccount, BytesAccount, FilesAccount, Minimal, Owned;
    var path := hs[i].candidates[k].mediaPath;
    assert disks[i + 1] == Happen(lib, disks[i], hs[i]) && disks[j + 1] == Happen(lib, disks[j], hs[j]);
    ComesTo(hs[i].luck, lib.low, Used(disks[i].rows), Begin(disks[i]), hs[i].candidates, k);
    ClearedIsGone(hs[i].luck, SweepFrom(hs[i].luck, lib.low, Used(disks[i].rows), Begin(disks[i]), hs[i].candidates[..k]), hs[i].candidates[k]);
    GoneUntilFetched(lib, disks, hs, i + 1, j, path);
    ComesTo(hs[j].luck, lib.low, Used(disks[j].rows), Begin(disks[j]), hs[j].candidates, l);
    var reached := SweepFrom(hs[j].luck, lib.low, Used(disks[j].rows), Begin(disks[j]), hs[j].candidates[..l]);
    if hs[j].luck.marks(reached.disk.calls + 1) {
      GoneIsMarked(hs[j].luck, reached, hs[j].candidates[l]);
      assert Try(hs[j].luck, reached, hs[j].candidates[l]).marked[|reached.marked|] == hs[j].candidates[l];
      MarkedIsEvicted(hs[j].luck, lib.low, disks[j], hs[j].candidates, hs[j].candidates[l]);
    }
    if Owned(lib, disks[0]) {
      NoFileWithoutARow(lib, disks, hs, i);
      NoFileWithoutARow(lib, disks, hs, j);
      OwnerOf(lib, disks[i], hs[i].candidates, k);
      OwnerOf(lib, disks[j], hs[j].candidates, l);
    }
  }

  lemma OwnerOf(lib: Library, disk: Disk, candidates: seq<Candidate>, k: nat)
    requires PathsOwned(lib, disk) && Listed(disk.rows, candidates) && k < |candidates| && candidates[k].mediaPath != ""
    ensures lib.owner(candidates[k].mediaPath) == candidates[k].id
  {
  }

  lemma ClearedIsGone(luck: Luck, st: Sweep, c: Candidate)
    requires c.mediaPath != "" && Clears(luck, st.disk, c.mediaPath)
    ensures c.mediaPath !in Try(luck, st, c).disk.files
  {
  }

  lemma GoneIsMarked(luck: Luck, st: Sweep, c: Candidate)
    requires c.mediaPath != "" && c.mediaPath !in st.disk.files && luck.marks(st.disk.calls + 1)
    ensures Try(luck, st, c).marked == st.marked + [c]
  {
  }

  lemma MarkedIsEvicted(luck: Luck, low: int, disk: Disk, candidates: seq<Candidate>, c: Candidate)
    requires Listed(disk.rows, candidates) && c in Swept(luck, low, disk, candidates).marked
    ensures var rows := Swept(luck, low, disk, candidates).disk.rows;
      c.id in rows && c.id in disk.rows && rows[c.id] == Row("", 0, false, disk.rows[c.id].pinned)
  {
    hide Used, Sizes, Swept, Listed;
    SweptAccounts(luck, low, disk, candidates);
    assert MarkedId(Swept(luck, low, disk, candidates).marked, c.id);
  }

  // ---- hysteresis ----

  /** The bytes a happening makes count that did not count before. */
  function Added(disk: Disk, h: Happening): nat {
    if h.Fetched? && h.stored && h.id in disk.rows then
      var before, after := disk.rows[h.id].Counted(), FetchedRow(disk.rows[h.id], h.path, h.size).Counted();
      if after > before then after - before else 0
    else 0
  }

  function AddedBetween(disks: seq<Disk>, hs: seq<Happening>, i: nat, k: nat): nat
    requires i <= k <= |hs| && |disks| == |hs| + 1
    decreases k
  {
    if i == k then 0 else AddedBetween(disks, hs, i, k - 1) + Added(disks[k - 1], hs[k - 1])
  }

  lemma UsedAfter(lib: Library, disk: Disk, h: Happening)
    requires Possible(lib, disk, h)
    ensures Used(Happen(lib, disk, h).rows) <= Used(disk.rows) + Added(disk, h)
    ensures h.SweptBy? && Used(disk.rows) <= lib.high ==> Happen(lib, disk, h) == disk
  {
    hide Used, Swept, Listed;
    match h
    case SweptBy(luck, candidates) =>
      SweepConserves(luck, lib.low, disk, candidates);
    case Fetched(id, path, size, stored) => UsedAfterChange(disk.rows, id, FetchedRow(disk.rows[id], path, size));
    case FoundGone(id) => UsedAfterChange(disk.rows, id, disk.rows[id].(ready := false));
    case PinSet(id, pinned) => UsedAfterChange(disk.rows, id, disk.rows[id].(pinned := pinned));
  }

  lemma {:induction false} UsedBetween(lib: Library, disks: seq<Disk>, hs: seq<Happening>, i: nat, k: nat)
    requires History(lib, disks, hs) && i <= k <= |hs|
    ensures Used(disks[k].rows) <= Used(disks[i].rows) + AddedBetween(disks, hs, i, k)
    decreases k
  {
    hide Used, Possible, Happen, Added;
    if i < k {
      UsedBetween(lib, disks, hs, i, k - 1);
      assert disks[k] == Happen(lib, disks[k - 1], hs[k - 1]);
      UsedAfter(lib, disks[k - 1], hs[k - 1]);
    }
  }

  /**
   Hysteresis. Once a sweep has reached the low watermark, no sweep of the run
   deletes or marks anything for as long as what has been added since is no more
   than lies between the two watermarks.
   */
  lemma NothingUntilTheGapIsFilled(lib: Library, disks: seq<Disk>, hs: seq<Happening>, i: nat, k: nat)
    requires History(lib, disks, hs) && i < k < |hs|
    requires hs[i].SweptBy? && Used(disks[i + 1].rows) <= lib.low
    requires hs[k].SweptBy? && AddedBetween(disks, hs, i + 1, k) <= lib.high - lib.low
    ensures disks[k + 1] == disks[k]
  {
    hide Used, Possible, Happen, Added;
    UsedBetween(lib, disks, hs, i + 1, k);
    assert disks[k + 1] == Happen(lib, disks[k], hs[k]);
    UsedAfter(lib, disks[k], hs[k]);
  }
}
