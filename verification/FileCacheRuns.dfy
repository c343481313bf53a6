/** The cache over whole runs: its tables and the blobs of its files under every interleaving of
    batches, pages, completed syncs, resets, evictions, pins, downloads being opened and sweeps of the
    journal. Each action is one transaction, or one file operation; a sweep and an opening exclude each other by
    `blob_lock` (core/src/files.rs:943-993, 1243-1315). */
module FileCacheRuns {
  import opened Tables
  import opened FileRows
  import opened Apply
  import opened ApplyInvariants
  import opened Coverage
  import opened History
  import opened FileCache

  type Home = MessageId -> ChannelId

  /** Who holds `blob_lock`: an opening that has read the row, one whose row is ready, or a sweep of
      these paths. */
  datatype Holder = Free | RowRead(f: FileId, sha256: Json, size: nat, row: Option<FileRow>) | Ready(f: FileId) | Sweeping(paths: set<FileId>)

  /** `attached`: the files whose blob was opened under the row they have now. */
  datatype Cache = Cache(db: Db, blobs: set<FileId>, holder: Holder, attached: set<FileId>)

  datatype Action =
    | Merge(b: Batch)
    | Land(ask: Ask, rows: seq<MessageIn>)
    | Settle(cursor: nat)
    | Reset
    | EvictTo(cap: nat, keep: set<FileId>, gone: seq<FileId>)
    | Distrust(short: set<FileId>)
    | Deleted(f: FileId)
    | Pin(f: FileId, sha256: Json, size: nat)
    | UnpinIt(f: FileId)
    | Progress(f: FileId, row: FileRow)
    | ReadRow(f: FileId, sha256: Json, size: nat)
    | TakeRow
    | OpenBlob
    | OpenFails
    | StartSweep
    | Unlink(f: FileId)
    | EndSweep(removed: set<FileId>)
    | Restart

  ghost predicate Enabled(c: Cache, me: UserId, home: Home, a: Action) {
    match a
    case Merge(b) => GoodBatch(me, home, b)
    case Land(ask, rows) => GoodBatch(me, home, HistoryBatch(ask, rows))
    case EvictTo(cap, keep, gone) => Evicts(c.db.fileTables.files, cap, keep, gone)
    case Progress(f, _) => f in c.db.fileTables.files
    case ReadRow(_, _, _) => c.holder.Free?
    case TakeRow => c.holder.RowRead?
    case OpenBlob => c.holder.Ready?
    case OpenFails => c.holder.RowRead? || c.holder.Ready?
    case StartSweep => c.holder.Free?
    case Unlink(f) => c.holder.Sweeping? && f in c.holder.paths
    case EndSweep(removed) => c.holder.Sweeping? && removed <= c.holder.paths
    case _ => true
  }

  /** A row that goes takes what was opened under it. */
  function WithDb(c: Cache, db: Db): Cache {
    c.(db := db, attached := c.attached * db.fileTables.files.Keys)
  }

  function WithFiles(c: Cache, t: FileTables): Cache {
    WithDb(c, c.db.(fileTables := t))
  }

  /** The row is kept, made, or refused (`file.gone`). */
  function RowTaken(c: Cache, f: FileId, sha256: Json, size: nat, row: Option<FileRow>): Cache {
    if Resumes(row, sha256, size) then c.(holder := Ready(f))
    else
      WithFiles(c, Begun(c.db.fileTables, f, sha256, size)).(
        holder := if f in c.db.fileTables.listings then Ready(f) else Free)
  }

  ghost function Do(c: Cache, me: UserId, home: Home, a: Action): Cache
    requires Enabled(c, me, home, a)
  {
    var t := c.db.fileTables;
    match a
    case Merge(b) => WithDb(c, Applied(c.db, me, b))
    case Land(ask, rows) => WithDb(c, Landed(c.db, me, ask, rows))
    case Settle(cursor) => WithDb(c, SettledTops(c.db.(cursor := cursor), cursor))
    case Reset => WithDb(c, ResetDb(c.db))
    case EvictTo(_, _, gone) => WithFiles(c, DroppedFiles(t, Elements(gone)))
    case Distrust(short) => WithFiles(c, DroppedFiles(t, short))
    case Deleted(f) => WithFiles(c, FileGone(t, f))
    case Pin(f, sha256, size) => WithFiles(c, Pinned(t, f, sha256, size))
    case UnpinIt(f) => WithFiles(c, Unpin(t, f))
    case Progress(f, row) => WithFiles(c, t.(files := t.files[f := row]))
    case ReadRow(f, sha256, size) => c.(holder := RowRead(f, sha256, size, if f in t.files then Some(t.files[f]) else None))
    case TakeRow => RowTaken(c, c.holder.f, c.holder.sha256, c.holder.size, c.holder.row)
    case OpenBlob =>
      c.(blobs := c.blobs + {c.holder.f}, attached := c.attached + ({c.holder.f} * t.files.Keys), holder := Free)
    case OpenFails => c.(holder := Free)
    case StartSweep => WithFiles(c, JournalRead(t)).(holder := Sweeping(JournalRead(t).deletions))
    case Unlink(f) => c.(blobs := c.blobs - {f})
    case EndSweep(removed) => WithFiles(c, Forgotten(t, removed)).(holder := Free)
    case Restart => c.(blobs := c.blobs * t.files.Keys, holder := Free)
  }

  ghost predicate Runs(c: Cache, me: UserId, home: Home, acts: seq<Action>)
    decreases |acts|, 0
  {
    acts != [] ==>
      && Runs(c, me, home, acts[..|acts| - 1])
      && Enabled(After(c, me, home, acts[..|acts| - 1]), me, home, acts[|acts| - 1])
  }

  ghost function After(c: Cache, me: UserId, home: Home, acts: seq<Action>): Cache
    requires Runs(c, me, home, acts)
    decreases |acts|, 1
  {
    if acts == [] then c
    else Do(After(c, me, home, acts[..|acts| - 1]), me, home, acts[|acts| - 1])
  }

  // ---- What every action keeps ----

  predicate BlobsKept(c: Cache) {
    && c.attached <= c.db.fileTables.files.Keys && c.attached <= c.blobs
    && (c.holder.Sweeping? ==> c.holder.paths !! c.attached)
  }

  ghost predicate Kept(c: Cache, me: UserId, home: Home) {
    Healthy(c.db, me, home) && BlobsKept(c)
  }

  const NEW := Cache(EMPTY, {}, Free, {})

  lemma NewKept(me: UserId, home: Home)
    ensures Kept(NEW, me, home)
  {
    HealthyEmpty(me, home);
  }

  /** Coverage and cursor play no part. */
  lemma CoverageAside(db: Db, me: UserId, home: Home, coverage: map<ChannelId, Range>, cursor: nat)
    requires Healthy(db, me, home)
    ensures Healthy(db.(coverage := coverage, cursor := cursor), me, home)
  {
  }

  /** A landing leaves the tables, or applies its rows; besides it only writes coverage. */
  lemma LandedRows(db: Db, me: UserId, ask: Ask, rows: seq<MessageIn>)
    ensures
      var landed, applied := Landed(db, me, ask, rows), Applied(db, me, HistoryBatch(ask, rows));
      landed == db || landed == applied.(coverage := landed.coverage)
  {
  }

  lemma LandHealthy(db: Db, me: UserId, home: Home, ask: Ask, rows: seq<MessageIn>)
    requires Healthy(db, me, home) && GoodBatch(me, home, HistoryBatch(ask, rows))
    ensures Healthy(Landed(db, me, ask, rows), me, home)
  {
    var landed, applied := Landed(db, me, ask, rows), Applied(db, me, HistoryBatch(ask, rows));
    LandedRows(db, me, ask, rows);
    HealthyApplied(db, me, home, HistoryBatch(ask, rows));
    if landed != db {
      CoverageAside(applied, me, home, landed.coverage, applied.cursor);
      assert landed == applied.(coverage := landed.coverage, cursor := applied.cursor);
    }
  }

  lemma ResetHealthy(db: Db, me: UserId, home: Home)
    ensures Healthy(ResetDb(db), me, home)
  {
  }

  predicate OnRowsOnly(a: Action) {
    !a.Merge? && !a.Land? && !a.Settle? && !a.Reset?
  }

  /** The tables change in `files` and what is listed only: no listing is new, every row listed. */
  predicate StillListed(db: Db, after: Db) {
    var t, u := db.fileTables, after.fileTables;
    && after == db.(fileTables := u)
    && u.listings.Keys <= t.listings.Keys && u.files.Keys <= u.listings.Keys
    && forall f :: f in u.listings ==> u.listings[f] == t.listings[f]
  }

  lemma TakenListed(c: Cache, f: FileId, sha256: Json, size: nat, row: Option<FileRow>)
    requires FilesListed(c.db.messages, c.db.fileTables)
    ensures StillListed(c.db, RowTaken(c, f, sha256, size, row).db)
  {
  }

  lemma PinListed(db: Db, f: FileId, sha256: Json, size: nat)
    requires FilesListed(db.messages, db.fileTables)
    ensures StillListed(db, db.(fileTables := Pinned(db.fileTables, f, sha256, size)))
    ensures StillListed(db, db.(fileTables := Unpin(db.fileTables, f)))
  {
  }

  lemma RowsListed(c: Cache, me: UserId, home: Home, a: Action)
    requires FilesListed(c.db.messages, c.db.fileTables) && Enabled(c, me, home, a) && OnRowsOnly(a)
    ensures StillListed(c.db, Do(c, me, home, a).db)
  {
    if a.TakeRow? {
      TakenListed(c, c.holder.f, c.holder.sha256, c.holder.size, c.holder.row);
    } else if a.Pin? {
      PinListed(c.db, a.f, a.sha256, a.size);
    } else if a.UnpinIt? {
      PinListed(c.db, a.f, "", 0);
    }
  }

  lemma TablesHealthy(db: Db, after: Db, me: UserId, home: Home)
    requires Healthy(db, me, home) && StillListed(db, after)
    ensures Healthy(after, me, home)
  {
  }

  lemma ActionHealthy(c: Cache, me: UserId, home: Home, a: Action)
    requires Healthy(c.db, me, home) && Enabled(c, me, home, a)
    ensures Healthy(Do(c, me, home, a).db, me, home)
  {
    if a.Merge? {
      HealthyApplied(c.db, me, home, a.b);
    } else if a.Land? {
      LandHealthy(c.db, me, home, a.ask, a.rows);
    } else if a.Settle? {
      CoverageAside(c.db, me, home, SettledTops(c.db.(cursor := a.cursor), a.cursor).coverage, a.cursor);
    } else if a.Reset? {
      ResetHealthy(c.db, me, home);
    } else {
      RowsListed(c, me, home, a);
      TablesHealthy(c.db, Do(c, me, home, a).db, me, home);
    }
  }

  lemma ActionKeepsBlobs(c: Cache, me: UserId, home: Home, a: Action)
    requires BlobsKept(c) && Enabled(c, me, home, a)
    ensures BlobsKept(Do(c, me, home, a))
  {
  }

  lemma {:induction false} RunKeepsAll(c: Cache, me: UserId, home: Home, acts: seq<Action>)
    requires Kept(c, me, home) && Runs(c, me, home, acts)
    ensures Kept(After(c, me, home, acts), me, home)
  {
    if acts != [] {
      var rest := acts[..|acts| - 1];
      RunKeepsAll(c, me, home, rest);
      ActionHealthy(After(c, me, home, rest), me, home, acts[|acts| - 1]);
      ActionKeepsBlobs(After(c, me, home, rest), me, home, acts[|acts| - 1]);
    }
  }

  ghost predicate HealthMeans(db: Db, me: UserId) {
    FencesHold(db, me) && QuotesClean(db.messages) && FilesListed(db.messages, db.fileTables)
  }

  lemma HealthHas(db: Db, me: UserId, home: Home)
    requires Healthy(db, me, home)
    ensures HealthMeans(db, me)
  {
  }

  /** In every reachable state: removal fences hold, no quote keeps deleted words, each row of `files`
      is listed, and each listing names a stored message that lists the file. */
  lemma CacheStaysHealthy(me: UserId, home: Home, acts: seq<Action>)
    requires Runs(NEW, me, home, acts)
    ensures HealthMeans(After(NEW, me, home, acts).db, me)
  {
    NewKept(me, home);
    RunKeepsAll(NEW, me, home, acts);
    HealthHas(After(NEW, me, home, acts).db, me, home);
  }

  // ---- The journal ----

  lemma BatchJournals(db: Db, me: UserId, b: Batch)
    ensures Journals(db.fileTables, Applied(db, me, b).fileTables)
  {
    JournalsRun(db, me, Ops(me, b));
  }

  /** Every transaction that drops a row journals its blob. */
  lemma DroppedRowsAreJournalled(c: Cache, me: UserId, home: Home, a: Action)
    requires FilesListed(c.db.messages, c.db.fileTables) && Enabled(c, me, home, a)
    ensures
      var t, after := c.db.fileTables, Do(c, me, home, a).db.fileTables;
      t.files.Keys - after.files.Keys <= after.deletions
  {
    match a
    case Merge(b) => BatchJournals(c.db, me, b);
    case Land(ask, rows) => BatchJournals(c.db, me, HistoryBatch(ask, rows));
    case _ =>
  }

  lemma SweepGoesOn(c: Cache, me: UserId, home: Home, a: Action)
    requires Enabled(c, me, home, a) && Do(c, me, home, a).holder.Sweeping?
    ensures !a.OpenBlob? && !a.EndSweep?
    ensures !a.StartSweep? ==> c.holder == Do(c, me, home, a).holder
    ensures a.StartSweep? ==>
      Do(c, me, home, a).holder.paths == c.db.fileTables.deletions - c.db.fileTables.files.Keys
  {
  }

  /** While a sweep holds the lock, what it may unlink is what it read. */
  lemma {:induction false} SweepSince(c: Cache, me: UserId, home: Home, acts: seq<Action>) returns (k: nat)
    requires c.holder.Free? && Runs(c, me, home, acts) && After(c, me, home, acts).holder.Sweeping?
    ensures k < |acts| && acts[k].StartSweep? && Runs(c, me, home, acts[..k])
    ensures
      var read := After(c, me, home, acts[..k]).db.fileTables;
      After(c, me, home, acts).holder.paths == read.deletions - read.files.Keys
    ensures forall j :: k < j < |acts| ==> !acts[j].OpenBlob? && !acts[j].EndSweep?
  {
    var n := |acts| - 1;
    SweepGoesOn(After(c, me, home, acts[..n]), me, home, acts[n]);
    if acts[n].StartSweep? {
      k := n;
    } else {
      k := SweepSince(c, me, home, acts[..n]);
      assert acts[..n][..k] == acts[..k];
      assert forall j :: k < j < n ==> acts[..n][j] == acts[j];
    }
  }

  /** A sweep never unlinks a blob whose file had a row when the sweep read the journal, and no
      blob is opened in between. */
  lemma UnlinkedHadNoRow(c: Cache, me: UserId, home: Home, acts: seq<Action>, f: FileId) returns (k: nat)
    requires c.holder.Free? && Runs(c, me, home, acts + [Unlink(f)])
    ensures k < |acts| && acts[k].StartSweep? && Runs(c, me, home, acts[..k])
    ensures
      var read := After(c, me, home, acts[..k]).db.fileTables;
      f in read.deletions && f !in read.files
    ensures forall j :: k < j < |acts| ==> !acts[j].OpenBlob?
  {
    assert (acts + [Unlink(f)])[..|acts|] == acts;
    k := SweepSince(c, me, home, acts);
  }

  // ---- Blobs ----

  ghost predicate RowThroughout(c: Cache, me: UserId, home: Home, acts: seq<Action>, f: FileId)
    requires Runs(c, me, home, acts)
  {
    forall i | 0 <= i <= |acts| ::
      && Runs(c, me, home, acts[..i])
      && f in After(c, me, home, acts[..i]).db.fileTables.files
  }

  /** The blob a download opened is there as long as the row it was opened under. */
  lemma {:induction false} OpenedBlobsStay(c: Cache, me: UserId, home: Home, acts: seq<Action>, f: FileId)
    requires Kept(c, me, home) && f in c.attached
    requires Runs(c, me, home, acts) && RowThroughout(c, me, home, acts, f)
    ensures f in After(c, me, home, acts).attached && f in After(c, me, home, acts).blobs
  {
    RunKeepsAll(c, me, home, acts);
    if acts != [] {
      var rest := acts[..|acts| - 1];
      assert acts[..|acts|] == acts;
      forall i | 0 <= i <= |rest|
        ensures Runs(c, me, home, rest[..i]) && f in After(c, me, home, rest[..i]).db.fileTables.files
      {
        assert rest[..i] == acts[..i];
      }
      OpenedBlobsStay(c, me, home, rest, f);
    }
  }
}
