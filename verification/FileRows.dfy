/** core/src/file_rows.rs: which cached files belong to which cached message. A file some message
    stops listing loses its cache row in the same transaction, and its blob is journalled. */
module FileRows {
  import opened Tables

  /** The files indexed under a message. */
  function OfMessage(t: FileTables, message: MessageId): set<FileId> {
    set f | f in t.listings && t.listings[f].message == message
  }

  function OfChannel(t: FileTables, channel: ChannelId): set<FileId> {
    set f | f in t.listings && t.listings[f].channel == channel
  }

  function Elements(ids: seq<FileId>): set<FileId> {
    set f | f in ids
  }

  function DroppedFiles(t: FileTables, gone: set<FileId>): FileTables {
    t.(files := t.files - gone, deletions := t.deletions + t.files.Keys * gone)
  }

  function IndexedMessage(t: FileTables, message: MessageId, channel: ChannelId, now: seq<FileId>): FileTables {
    var before := OfMessage(t, message);
    DroppedFiles(
      t.(listings := (t.listings - before) + map f | f in now :: Listing(message, channel)),
      before - Elements(now))
  }

  function DroppedMessage(t: FileTables, message: MessageId): FileTables {
    var gone := OfMessage(t, message);
    DroppedFiles(t.(listings := t.listings - gone), gone)
  }

  function DroppedChannel(t: FileTables, channel: ChannelId): FileTables {
    var gone := OfChannel(t, channel);
    DroppedFiles(t.(listings := t.listings - gone), gone)
  }

  function DroppedAll(t: FileTables): FileTables {
    DroppedFiles(t.(listings := map[]), t.listings.Keys + t.files.Keys)
  }

  /** A query's rows, in whatever order the store returns them. */
  method Rows(ids: set<FileId>) returns (rows: seq<FileId>)
    ensures Elements(rows) == ids
  {
    rows := [];
    var rest := ids;
    while rest != {}
      invariant Elements(rows) + rest == ids
    {
      Inhabited(rest);
      var f :| f in rest;
      assert Elements(rows + [f]) == Elements(rows) + {f};
      rest, rows := rest - {f}, rows + [f];
    }
  }

  method DropFiles(tx: Tx, ids: seq<FileId>)
    modifies tx`files, tx`deletions
    ensures tx.Files() == DroppedFiles(old(tx.Files()), Elements(ids))
  {
    assert Elements(ids[..0]) == {};
    for i := 0 to |ids|
      invariant tx.Files() == DroppedFiles(old(tx.Files()), Elements(ids[..i]))
    {
      assert Elements(ids[..i + 1]) == Elements(ids[..i]) + {ids[i]};
      if ids[i] in tx.files {
        tx.files := tx.files - {ids[i]};
        tx.deletions := tx.deletions + {ids[i]};
      }
      assert tx.files == old(tx.files) - Elements(ids[..i + 1]);
    }
    assert ids[..|ids|] == ids;
  }

  method InsertListings(tx: Tx, message: MessageId, channel: ChannelId, now: seq<FileId>)
    modifies tx`listings
    ensures tx.listings == old(tx.listings) + map f | f in now :: Listing(message, channel)
  {
    for i := 0 to |now|
      invariant tx.listings == old(tx.listings) + map f | f in now[..i] :: Listing(message, channel)
    {
      assert forall f :: f in now[..i + 1] <==> f in now[..i] || f == now[i];
      tx.listings := tx.listings[now[i] := Listing(message, channel)];
    }
    assert now[..|now|] == now;
  }

  method IndexMessage(tx: Tx, message: MessageId, channel: ChannelId, now: seq<FileId>)
    modifies tx`listings, tx`files, tx`deletions
    ensures tx.Files() == IndexedMessage(old(tx.Files()), message, channel, now)
  {
    var before := set f | f in tx.listings && tx.listings[f].message == message;
    assert before == OfMessage(tx.Files(), message);
    var gone := Rows(set f | f in before && f !in now);
    assert Elements(gone) == before - Elements(now);
    tx.listings := tx.listings - before;
    InsertListings(tx, message, channel, now);
    DropFiles(tx, gone);
  }

  method DropMessage(tx: Tx, message: MessageId)
    modifies tx`listings, tx`files, tx`deletions
    ensures tx.Files() == DroppedMessage(old(tx.Files()), message)
  {
    var ids := set f | f in tx.listings && tx.listings[f].message == message;
    assert ids == OfMessage(tx.Files(), message);
    var gone := Rows(ids);
    tx.listings := tx.listings - ids;
    DropFiles(tx, gone);
  }

  method DropChannel(tx: Tx, channel: ChannelId)
    modifies tx`listings, tx`files, tx`deletions
    ensures tx.Files() == DroppedChannel(old(tx.Files()), channel)
  {
    var ids := set f | f in tx.listings && tx.listings[f].channel == channel;
    assert ids == OfChannel(tx.Files(), channel);
    var gone := Rows(ids);
    tx.listings := tx.listings - ids;
    DropFiles(tx, gone);
  }

  method DropAll(tx: Tx)
    modifies tx`listings, tx`files, tx`deletions
    ensures tx.Files() == DroppedAll(old(tx.Files()))
  {
    var gone := Rows(tx.listings.Keys + (set f | f in tx.files && f !in tx.listings));
    assert Elements(gone) == tx.listings.Keys + tx.files.Keys;
    tx.listings := map[];
    DropFiles(tx, gone);
  }
}
