/** What the file cache's transactions do to its rows, listings and journal, entry by entry, and what an
    eviction counts. */
module FileLaws {
  import opened Tables
  import opened FileRows
  import opened ApplyLaws
  import opened FileCache

  /** `SUM(size)` as a running total over the rows, in any order. */
  function Sizes(files: map<FileId, FileRow>, ids: seq<FileId>): nat
    requires Elements(ids) <= files.Keys
  {
    if ids == [] then 0
    else
      var last := ids[|ids| - 1];
      assert last in Elements(ids) && Elements(ids[..|ids| - 1]) <= Elements(ids);
      Sizes(files, ids[..|ids| - 1]) + files[last].size
  }

  lemma {:induction false} WeightIsTheSum(files: map<FileId, FileRow>, ids: seq<FileId>)
    requires Elements(ids) <= files.Keys && forall i, j :: 0 <= i < j < |ids| ==> ids[i] != ids[j]
    ensures Weight(files, Elements(ids)) == Sizes(files, ids)
  {
    if ids == [] {
      assert Elements(ids) == {};
    } else {
      var rest, last := ids[..|ids| - 1], ids[|ids| - 1];
      assert Elements(ids) == Elements(rest) + {last};
      assert forall i :: 0 <= i < |rest| ==> rest[i] == ids[i] && ids[i] != last;
      WeightIsTheSum(files, rest);
      WeightWithout(files, Elements(ids), last);
      assert Elements(ids) - {last} == Elements(rest);
    }
  }

  /** Rows, listings and entries of other files stay. */
  ghost predicate OnlyThisFile(t: FileTables, after: FileTables, f: FileId) {
    && (forall g :: g != f ==> (g in after.files <==> g in t.files) && (g in t.files ==> after.files[g] == t.files[g]))
    && (forall g :: g != f ==>
          (g in after.listings <==> g in t.listings) && (g in t.listings ==> after.listings[g] == t.listings[g]))
    && (forall g :: g != f ==> (g in after.deletions <==> g in t.deletions))
  }

  lemma PinnedRow(t: FileTables, f: FileId, sha256: Json, size: nat)
    ensures
      var after := Pinned(t, f, sha256, size);
      && OnlyThisFile(t, after, f) && after.listings == t.listings && after.deletions == t.deletions
      && (f !in t.listings ==> after.files == t.files)
      && (f in t.listings ==> f in after.files && after.files[f].pinned)
      && (f in t.listings && f in t.files ==> after.files[f] == t.files[f].(pinned := true))
      && (f in t.listings && f !in t.files ==>
            && after.files[f].sha256 == sha256 && after.files[f].size == size
            && !after.files[f].complete && after.files[f].done == 0)
  {
  }

  lemma UnpinnedRow(t: FileTables, f: FileId)
    ensures
      var after := Unpin(t, f);
      && OnlyThisFile(t, after, f) && after.listings == t.listings && after.deletions == t.deletions
      && (f in after.files <==> f in t.files)
      && (f in t.files ==> after.files[f] == t.files[f].(pinned := false))
  {
  }

  /** A download that resumes nothing starts a listed file's row over, keeping its pin and last use. */
  lemma BegunRow(t: FileTables, f: FileId, sha256: Json, size: nat)
    ensures
      var after := Begun(t, f, sha256, size);
      && OnlyThisFile(t, after, f) && after.listings == t.listings && f !in after.deletions
      && (f !in t.listings ==> after.files == t.files)
      && (f in t.listings ==>
            && f in after.files
            && after.files[f].sha256 == sha256 && after.files[f].size == size
            && !after.files[f].complete && after.files[f].done == 0
            && after.files[f].pinned == (f in t.files && t.files[f].pinned)
            && after.files[f].lastUsed == (if f in t.files then t.files[f].lastUsed else 0))
  {
  }

  lemma GoneFile(t: FileTables, f: FileId)
    ensures
      var after := FileGone(t, f);
      && OnlyThisFile(t, after, f) && f !in after.listings && f !in after.files
      && (f in after.deletions <==> f in t.deletions || f in t.files)
  {
  }

  lemma JournalReads(t: FileTables)
    ensures
      var after := JournalRead(t);
      && after.files == t.files && after.listings == t.listings
      && (forall f :: f in after.deletions <==> f in t.deletions && f !in t.files)
  {
  }

  lemma JournalForgets(t: FileTables, paths: set<FileId>)
    ensures
      var after := Forgotten(t, paths);
      && after.files == t.files && after.listings == t.listings
      && (forall f :: f in after.deletions <==> f in t.deletions && f !in paths)
  {
  }

  lemma EvictedRows(t: FileTables, gone: set<FileId>)
    ensures DroppedFiles(t, gone).listings == t.listings
    ensures FilesDropped(t, DroppedFiles(t, gone), iset f | f in gone)
  {
  }

  /** A download resumes the row of the same bytes that isn't complete, and no other. */
  lemma ResumesIff(row: Option<FileRow>, sha256: Json, size: nat)
    ensures Resumes(row, sha256, size) <==>
      row.Some? && !row.value.complete && row.value.sha256 == sha256 && row.value.size == size
  {
  }
}
