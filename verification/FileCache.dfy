/** core/src/files.rs: the rows of cached files. Eviction, pins, the row a download starts from, a
    file the server deleted, and the journal of blobs to unlink. */
module FileCache {
  import opened Tables
  import opened FileRows
  import opened Coverage

  // ---- Eviction ----

  function Unpinned(files: map<FileId, FileRow>): set<FileId> {
    set f | f in files && !files[f].pinned
  }

  /** `SUM(size)` over these rows. */
  function Weight(files: map<FileId, FileRow>, ids: set<FileId>): nat
    requires ids <= files.Keys
    decreases |ids|
  {
    if ids == {} then 0 else files[Min(ids)].size + Weight(files, ids - {Min(ids)})
  }

  lemma {:induction false} WeightWithout(files: map<FileId, FileRow>, ids: set<FileId>, f: FileId)
    requires ids <= files.Keys && f in ids
    ensures Weight(files, ids) == files[f].size + Weight(files, ids - {f})
    decreases |ids|
  {
    var least := Min(ids);
    if f != least {
      WeightWithout(files, ids - {least}, f);
      assert least in ids - {f};
      assert Min(ids - {f}) == least;
      assert ids - {f} - {least} == ids - {least} - {f};
    }
  }

  lemma {:induction false} WeightSame(files: map<FileId, FileRow>, files': map<FileId, FileRow>, ids: set<FileId>)
    requires ids <= files.Keys && ids <= files'.Keys
    requires forall f :: f in ids ==> files[f].size == files'[f].size
    ensures Weight(files, ids) == Weight(files', ids)
    decreases |ids|
  {
    if ids != {} {
      WeightSame(files, files', ids - {Min(ids)});
    }
  }

  /** `ORDER BY (state = 'partial') DESC, last_used ASC` may list `f` before `g`. */
  predicate Before(files: map<FileId, FileRow>, f: FileId, g: FileId)
    requires f in files && g in files
  {
    || (!files[f].complete && files[g].complete)
    || (files[f].complete == files[g].complete && files[f].lastUsed <= files[g].lastUsed)
  }

  ghost predicate Ordered(files: map<FileId, FileRow>, ids: seq<FileId>)
    requires Elements(ids) <= files.Keys
  {
    && (forall i, j :: 0 <= i < j < |ids| ==> ids[i] != ids[j])
    && (forall i, j :: 0 <= i < j < |ids| ==> ids[i] in Elements(ids) && ids[j] in Elements(ids) && Before(files, ids[i], ids[j]))
  }

  lemma {:induction false} HasFirst(files: map<FileId, FileRow>, ids: set<FileId>)
    requires ids != {} && ids <= files.Keys
    ensures exists f :: f in ids && forall g :: g in ids ==> Before(files, f, g)
    decreases |ids|
  {
    Inhabited(ids);
    var x :| x in ids;
    if ids == {x} {
      assert x in ids && forall g :: g in ids ==> Before(files, x, g);
    } else {
      var rest := ids - {x};
      assert rest != {} by { assert ids == rest + {x}; }
      HasFirst(files, rest);
      var f :| f in rest && forall g :: g in rest ==> Before(files, f, g);
      var first := if Before(files, x, f) then x else f;
      assert first in ids && forall g :: g in ids ==> Before(files, first, g);
    }
  }

  /** The query's rows; rows with equal keys come in any order. */
  method Candidates(files: map<FileId, FileRow>) returns (ids: seq<FileId>)
    ensures Elements(ids) == Unpinned(files) && Ordered(files, ids)
  {
    ids := [];
    var rest := Unpinned(files);
    while rest != {}
      invariant Elements(ids) + rest == Unpinned(files) && Elements(ids) !! rest
      invariant Ordered(files, ids)
      invariant forall f, g :: f in Elements(ids) && g in rest ==> Before(files, f, g)
    {
      HasFirst(files, rest);
      var f :| f in rest && forall g :: g in rest ==> Before(files, f, g);
      assert Elements(ids + [f]) == Elements(ids) + {f};
      assert forall i :: 0 <= i < |ids| ==> ids[i] in Elements(ids);
      ids, rest := ids + [f], rest - {f};
    }
  }

  /** The unpinned rows left once `gone` went. */
  function Left(files: map<FileId, FileRow>, gone: seq<FileId>): set<FileId> {
    Unpinned(files) - Elements(gone)
  }

  /** What an eviction may drop: none of `keep`; in order, skipping none but the kept; each only
      while the rest is over the cap; and it stops only under the cap, or with the kept alone left. */
  ghost predicate Evicts(files: map<FileId, FileRow>, cap: nat, keep: set<FileId>, gone: seq<FileId>) {
    && Elements(gone) <= Unpinned(files) - keep
    && Ordered(files, gone)
    && (forall f, g :: f in Elements(gone) && g in Left(files, gone) - keep ==> Before(files, f, g))
    && (forall i :: 0 <= i < |gone| ==> Weight(files, Left(files, gone[..i])) > cap)
    && (Weight(files, Left(files, gone)) <= cap || Left(files, gone) <= keep)
  }

  /** An eviction that has looked at the first `i` candidates. */
  ghost predicate Evicting(files: map<FileId, FileRow>, cap: nat, keep: set<FileId>, ids: seq<FileId>, i: nat, gone: seq<FileId>, total: nat) {
    && i <= |ids| && Elements(ids) == Unpinned(files) && Ordered(files, ids)
    && Elements(gone) == Elements(ids[..i]) - keep && Ordered(files, gone)
    && total == Weight(files, Left(files, gone))
    && (forall k :: 0 <= k < |gone| ==> Weight(files, Left(files, gone[..k])) > cap)
  }

  /** The rows at `i` and after are new, and come after those before. */
  lemma Unseen(files: map<FileId, FileRow>, ids: seq<FileId>, i: nat)
    requires i < |ids| && Elements(ids) == Unpinned(files) && Ordered(files, ids)
    ensures ids[i] in Unpinned(files) && ids[i] !in Elements(ids[..i])
  {
    assert ids[i] in Elements(ids);
  }

  lemma Appended(files: map<FileId, FileRow>, ids: seq<FileId>, i: nat, gone: seq<FileId>, keep: set<FileId>)
    requires i < |ids| && Elements(ids) == Unpinned(files) && Ordered(files, ids)
    requires Elements(gone) == Elements(ids[..i]) - keep && Ordered(files, gone)
    ensures Elements(gone + [ids[i]]) <= files.Keys && Ordered(files, gone + [ids[i]])
  {
    Unseen(files, ids, i);
    forall k | 0 <= k < |gone|
      ensures gone[k] != ids[i] && gone[k] in Unpinned(files) && Before(files, gone[k], ids[i])
    {
      assert gone[k] in Elements(gone);
      var j :| 0 <= j < i && ids[j] == gone[k];
    }
    assert Elements(gone + [ids[i]]) == Elements(gone) + {ids[i]};
  }

  lemma Skipped(files: map<FileId, FileRow>, cap: nat, keep: set<FileId>, ids: seq<FileId>, i: nat, gone: seq<FileId>, total: nat)
    requires Evicting(files, cap, keep, ids, i, gone, total) && i < |ids| && ids[i] in keep
    ensures Evicting(files, cap, keep, ids, i + 1, gone, total)
  {
    assert Elements(ids[..i + 1]) == Elements(ids[..i]) + {ids[i]};
  }

  lemma Taken(files: map<FileId, FileRow>, cap: nat, keep: set<FileId>, ids: seq<FileId>, i: nat, gone: seq<FileId>, total: nat)
    requires Evicting(files, cap, keep, ids, i, gone, total) && i < |ids| && ids[i] !in keep && total > cap
    ensures ids[i] in files && files[ids[i]].size <= total
    ensures Evicting(files, cap, keep, ids, i + 1, gone + [ids[i]], total - files[ids[i]].size)
  {
    var f := ids[i];
    Unseen(files, ids, i);
    Appended(files, ids, i, gone, keep);
    assert Elements(ids[..i + 1]) == Elements(ids[..i]) + {f};
    assert Elements(gone + [f]) == Elements(gone) + {f};
    assert Left(files, gone + [f]) == Left(files, gone) - {f};
    WeightWithout(files, Left(files, gone), f);
    forall k | 0 <= k < |gone + [f]|
      ensures Weight(files, Left(files, (gone + [f])[..k])) > cap
    {
      assert (gone + [f])[..k] == gone[..k];
      assert gone[..|gone|] == gone;
    }
  }

  lemma RestComeLater(files: map<FileId, FileRow>, ids: seq<FileId>, i: nat, gone: seq<FileId>, keep: set<FileId>)
    requires i <= |ids| && Elements(ids) == Unpinned(files) && Ordered(files, ids)
    requires Elements(gone) == Elements(ids[..i]) - keep
    ensures forall f, g :: f in Elements(gone) && g in Left(files, gone) - keep ==> Before(files, f, g)
    ensures i == |ids| ==> Left(files, gone) <= keep
  {
    assert ids[..|ids|] == ids;
    forall k | 0 <= k < i
      ensures ids[k] in Elements(ids[..i])
    {
      assert ids[..i][k] == ids[k];
    }
    forall f, g | f in Elements(gone) && g in Left(files, gone) - keep
      ensures Before(files, f, g)
    {
      var j :| 0 <= j < i && ids[j] == f;
      assert g in Elements(ids);
      var k :| 0 <= k < |ids| && ids[k] == g;
    }
  }

  lemma DroppedNext(t: FileTables, gone: seq<FileId>, f: FileId)
    ensures DroppedFiles(DroppedFiles(t, Elements(gone)), Elements([f])) == DroppedFiles(t, Elements(gone + [f]))
  {
    assert Elements([f]) == {f} && Elements(gone + [f]) == Elements(gone) + {f};
  }

  function SaturatingSub(a: nat, b: nat): nat {
    if b <= a then a - b else 0
  }

  method Evict(tx: Tx, cap: nat, flights: set<FileId>, just: FileId) returns (gone: seq<FileId>)
    modifies tx`files, tx`deletions
    ensures Evicts(old(tx.files), cap, flights + {just}, gone)
    ensures tx.Files() == DroppedFiles(old(tx.Files()), Elements(gone))
  {
    var files := tx.files;
    var keep := flights + {just};
    gone := [];
    assert Left(files, []) == Unpinned(files);
    assert tx.Files() == DroppedFiles(tx.Files(), {});
    var total: nat := Weight(files, Unpinned(files));
    if total > cap {
      var ids := Candidates(files);
      var i := 0;
      while i < |ids| && total > cap
        invariant 0 <= i <= |ids| && Evicting(files, cap, keep, ids, i, gone, total)
        invariant tx.Files() == DroppedFiles(old(tx.Files()), Elements(gone))
      {
        var f := ids[i];
        if f in keep {
          Skipped(files, cap, keep, ids, i, gone, total);
        } else {
          Taken(files, cap, keep, ids, i, gone, total);
          DroppedNext(old(tx.Files()), gone, f);
          DropFiles(tx, [f]);
          total := SaturatingSub(total, files[f].size);
          gone := gone + [f];
        }
        i := i + 1;
      }
      RestComeLater(files, ids, i, gone, keep);
    }
  }

  /** The order decides what goes: with no two evictable rows tied, any two evictions agree. */
  lemma EvictionIsDetermined(files: map<FileId, FileRow>, cap: nat, keep: set<FileId>, xs: seq<FileId>, ys: seq<FileId>)
    requires Evicts(files, cap, keep, xs) && Evicts(files, cap, keep, ys) && |xs| <= |ys|
    requires forall f, g :: f in Unpinned(files) - keep && g in Unpinned(files) - keep && Before(files, f, g) && Before(files, g, f) ==> f == g
    ensures xs == ys
  {
    SamePrefix(files, cap, keep, xs, ys, |xs|);
    assert ys[..|xs|] == xs[..|xs|] == xs;
    if |xs| < |ys| {
      StillOver(files, cap, keep, ys, |xs|);
    }
    assert ys[..|ys|] == ys;
  }

  /** Before each row goes, the sum is over the cap and a row that may go is left. */
  lemma StillOver(files: map<FileId, FileRow>, cap: nat, keep: set<FileId>, gone: seq<FileId>, n: nat)
    requires Evicts(files, cap, keep, gone) && n < |gone|
    ensures Weight(files, Left(files, gone[..n])) > cap && !(Left(files, gone[..n]) <= keep)
  {
    assert gone[n] in Elements(gone);
    assert gone[n] in Left(files, gone[..n]);
  }

  lemma {:induction false} SamePrefix(files: map<FileId, FileRow>, cap: nat, keep: set<FileId>, xs: seq<FileId>, ys: seq<FileId>, n: nat)
    requires Evicts(files, cap, keep, xs) && Evicts(files, cap, keep, ys) && n <= |xs| <= |ys|
    requires forall f, g :: f in Unpinned(files) - keep && g in Unpinned(files) - keep && Before(files, f, g) && Before(files, g, f) ==> f == g
    ensures xs[..n] == ys[..n]
  {
    if n > 0 {
      SamePrefix(files, cap, keep, xs, ys, n - 1);
      var x, y := xs[n - 1], ys[n - 1];
      forall i | 0 <= i < n - 1
        ensures xs[i] == ys[i]
      {
        assert xs[..n - 1][i] == ys[..n - 1][i];
      }
      assert x in Elements(xs) && y in Elements(ys);
      NextIsFirst(files, cap, keep, xs, n - 1, y);
      NextIsFirst(files, cap, keep, ys, n - 1, x);
      assert xs[..n] == xs[..n - 1] + [x] && ys[..n] == ys[..n - 1] + [y];
    }
  }

  /** The next row to go comes before every other evictable row not yet gone. */
  lemma NextIsFirst(files: map<FileId, FileRow>, cap: nat, keep: set<FileId>, xs: seq<FileId>, n: nat, g: FileId)
    requires Evicts(files, cap, keep, xs) && n < |xs|
    requires g in Unpinned(files) - keep && forall i :: 0 <= i < n ==> xs[i] != g
    ensures xs[n] in files && Before(files, xs[n], g)
  {
    assert xs[n] in Elements(xs);
    if g in Elements(xs) {
      var k :| 0 <= k < |xs| && xs[k] == g;
    }
  }

  /** An eviction leaves nothing for the next one to do. */
  lemma EvictingAgainDropsNothing(t: FileTables, cap: nat, keep: set<FileId>, gone: seq<FileId>)
    requires Evicts(t.files, cap, keep, gone)
    ensures Evicts(DroppedFiles(t, Elements(gone)).files, cap, keep, [])
  {
    var files := DroppedFiles(t, Elements(gone)).files;
    assert Left(files, []) == Left(t.files, gone);
    WeightSame(t.files, files, Left(t.files, gone));
  }

  // ---- One file ----

  /** The server deleted the file. */
  function FileGone(t: FileTables, f: FileId): FileTables {
    DroppedFiles(t.(listings := t.listings - {f}), {f})
  }

  method DropFile(tx: Tx, f: FileId)
    modifies tx`listings, tx`files, tx`deletions
    ensures tx.Files() == FileGone(old(tx.Files()), f)
  {
    tx.listings := tx.listings - {f};
    assert Elements([f]) == {f};
    DropFiles(tx, [f]);
  }

  /** Keep a file offline: its row is made only while a message lists it. */
  function Pinned(t: FileTables, f: FileId, sha256: Json, size: nat): FileTables {
    if f !in t.listings then t
    else if f in t.files then t.(files := t.files[f := t.files[f].(pinned := true)])
    else t.(files := t.files[f := FileRow(sha256, size, false, 0, true, 0)])
  }

  method PinFile(tx: Tx, f: FileId, sha256: Json, size: nat) returns (made: bool)
    modifies tx`files
    ensures made == (f in tx.listings)
    ensures tx.Files() == Pinned(old(tx.Files()), f, sha256, size)
  {
    made := f in tx.listings;
    if made {
      tx.files := tx.files[f := if f in tx.files then tx.files[f].(pinned := true) else FileRow(sha256, size, false, 0, true, 0)];
    }
  }

  function Unpin(t: FileTables, f: FileId): FileTables {
    if f in t.files then t.(files := t.files[f := t.files[f].(pinned := false)]) else t
  }

  method UnpinFile(tx: Tx, f: FileId)
    modifies tx`files
    ensures tx.Files() == Unpin(old(tx.Files()), f)
  {
    if f in tx.files {
      tx.files := tx.files[f := tx.files[f].(pinned := false)];
    }
  }

  /** A download resumes this row. */
  predicate Resumes(row: Option<FileRow>, sha256: Json, size: nat) {
    row.Some? && row.value.size == size && row.value.sha256 == sha256 && !row.value.complete
  }

  /** A download that resumes nothing makes its row, or starts the old one over; a journal entry of
      an earlier copy goes. */
  function Begun(t: FileTables, f: FileId, sha256: Json, size: nat): FileTables {
    var cleared := t.(deletions := t.deletions - {f});
    if f !in t.listings then cleared
    else if f in t.files then
      cleared.(files := t.files[f := t.files[f].(sha256 := sha256, size := size, complete := false, done := 0)])
    else cleared.(files := t.files[f := FileRow(sha256, size, false, 0, false, 0)])
  }

  method BeginDownload(tx: Tx, f: FileId, sha256: Json, size: nat) returns (made: bool)
    modifies tx`files, tx`deletions
    ensures made == (f in tx.listings)
    ensures tx.Files() == Begun(old(tx.Files()), f, sha256, size)
  {
    tx.deletions := tx.deletions - {f};
    made := f in tx.listings;
    if made {
      var row := if f in tx.files then tx.files[f] else FileRow(sha256, size, false, 0, false, 0);
      tx.files := tx.files[f := row.(sha256 := sha256, size := size, complete := false, done := 0)];
    }
  }

  // ---- The journal ----

  /** A file with a row again is live: its entry is stale and goes. */
  function JournalRead(t: FileTables): FileTables {
    t.(deletions := t.deletions - t.files.Keys)
  }

  method ReadJournal(tx: Tx) returns (paths: seq<FileId>)
    modifies tx`deletions
    ensures tx.Files() == JournalRead(old(tx.Files()))
    ensures Elements(paths) == old(tx.deletions) - tx.files.Keys
  {
    tx.deletions := tx.deletions - tx.files.Keys;
    paths := Rows(tx.deletions);
  }

  function Forgotten(t: FileTables, paths: set<FileId>): FileTables {
    t.(deletions := t.deletions - paths)
  }

  method ForgetPaths(tx: Tx, removed: seq<FileId>)
    modifies tx`deletions
    ensures tx.Files() == Forgotten(old(tx.Files()), Elements(removed))
  {
    assert Elements(removed[..0]) == {};
    for i := 0 to |removed|
      invariant tx.deletions == old(tx.deletions) - Elements(removed[..i])
    {
      assert Elements(removed[..i + 1]) == Elements(removed[..i]) + {removed[i]};
      tx.deletions := tx.deletions - {removed[i]};
    }
    assert removed[..|removed|] == removed;
  }
}
