/** core/src/cache.rs: history pages asked for and landed, reads of cached pages, the reset. */
module History {
  import opened Tables
  import opened FileRows
  import opened Apply
  import opened Coverage

  const HISTORY_MAX: nat := 100

  /** A history request in flight: what `load` read in its first transaction, and its one limit for
      the request and for coverage. */
  datatype Ask = Ask(channel: ChannelId, before: Option<MessageId>, floor: Option<Stamp>, generation: nat, limit: nat)

  function Clamped(limit: nat): nat {
    if limit < 1 then 1 else if limit > HISTORY_MAX then HISTORY_MAX else limit
  }

  function Asked(db: Db, c: ChannelId, before: Option<MessageId>, limit: nat): Ask {
    Ask(c, before, FloorOf(db, c), db.generation, Clamped(limit))
  }

  function HistoryBatch(ask: Ask, rows: seq<MessageIn>): Batch {
    Batch([], [], [], rows, [], [], true, map[ask.channel := ask.floor], [])
  }

  function PageIds(rows: seq<MessageIn>): seq<MessageId> {
    seq(|rows|, i requires 0 <= i < |rows| => rows[i].id)
  }

  /** The page could land: no removal since it was asked for, the channel is here, and no fence. */
  predicate Proves(db: Db, ask: Ask) {
    FloorOf(db, ask.channel) == ask.floor && ask.channel in db.channels && FenceOf(db, ask.channel) == None
  }

  function RecordedRange(held: Option<Range>, ask: Ask, ids: seq<MessageId>): Option<Range> {
    match ask.before
    case None => HeadRange(held, ids, ask.limit)
    case Some(b) => OlderRange(held, b, ids, ask.limit)
  }

  /** The second transaction of `load`. */
  function Landed(db: Db, me: UserId, ask: Ask, rows: seq<MessageIn>): Db {
    if db.generation != ask.generation then db
    else
      var after := Applied(db, me, HistoryBatch(ask, rows));
      if !Proves(db, ask) then after
      else
        after.(coverage := Stored(after.coverage, ask.channel,
                                  RecordedRange(Held(after.coverage, ask.channel), ask, PageIds(rows))))
  }

  method AskPage(tx: Tx, c: ChannelId, before: Option<MessageId>, limit: nat) returns (ask: Ask)
    ensures ask == Asked(tx.View(), c, before, limit)
  {
    var floor := if c in tx.removed then Some(tx.removed[c].stamp) else None;
    ask := Ask(c, before, floor, tx.generation, Clamped(limit));
  }

  /** `load_older`: below the range's bottom, or the head if there is none. */
  method AskOlder(tx: Tx, c: ChannelId, limit: nat) returns (ask: Ask)
    ensures ask.before == (if c in tx.coverage then tx.coverage[c].oldest else None)
    ensures ask == Asked(tx.View(), c, ask.before, limit)
  {
    ask := AskPage(tx, c, if c in tx.coverage then tx.coverage[c].oldest else None, limit);
  }

  method LandPage(tx: Tx, me: UserId, ask: Ask, rows: seq<MessageIn>)
    modifies tx
    ensures tx.View() == Landed(old(tx.View()), me, ask, rows)
  {
    if tx.generation != ask.generation {
      return;
    }
    var c := ask.channel;
    var floor := if c in tx.removed then Some(tx.removed[c].stamp) else None;
    var proves := floor == ask.floor && c in tx.channels && !(c in tx.removed && tx.removed[c].active);
    Apply.Apply(tx, me, HistoryBatch(ask, rows));
    if proves {
      match ask.before
      case None => RecordHead(tx, c, PageIds(rows), ask.limit);
      case Some(b) => RecordOlder(tx, c, b, PageIds(rows), ask.limit);
    }
  }

  // ---- Reads ----

  function Matching(messages: map<MessageId, Message>, c: ChannelId, before: Option<MessageId>): set<MessageId> {
    set id | id in messages && messages[id].channel == c && (before.Some? ==> id < before.value)
  }

  ghost predicate Descending(page: seq<MessageId>) {
    forall i, j :: 0 <= i < j < |page| ==> page[i] > page[j]
  }

  /** The newest `limit` of `ids`, newest first. */
  ghost predicate NewestOf(ids: set<MessageId>, limit: nat, page: seq<MessageId>) {
    && Descending(page) && IdSet(page) <= ids && |page| <= limit
    && (|page| < limit ==> IdSet(page) == ids)
    && (forall id :: id in ids && id !in page ==> forall i :: 0 <= i < |page| ==> id < page[i])
  }

  /** The query `ORDER BY id DESC LIMIT limit` over these rows. */
  method SelectNewest(ids: set<MessageId>, limit: nat) returns (page: seq<MessageId>)
    ensures NewestOf(ids, limit, page)
  {
    page := [];
    var rest := ids;
    while |page| < limit && rest != {}
      invariant Descending(page) && |page| <= limit
      invariant IdSet(page) + rest == ids && IdSet(page) !! rest
      invariant forall id, i :: id in rest && 0 <= i < |page| ==> id < page[i]
      decreases limit - |page|
    {
      var m := Max(rest);
      assert IdSet(page + [m]) == IdSet(page) + {m};
      page, rest := page + [m], rest - {m};
    }
  }

  predicate AllStored(messages: map<MessageId, Message>, page: seq<MessageId>) {
    forall i :: 0 <= i < |page| ==> page[i] in messages
  }

  /** The newest message of the page that isn't a tombstone. */
  function FirstLive(messages: map<MessageId, Message>, page: seq<MessageId>): Option<MessageId>
    requires AllStored(messages, page)
  {
    if page == [] then None
    else if !Gone(messages[page[0]].content) then Some(page[0])
    else FirstLive(messages, page[1..])
  }

  /** The cache can't answer this page by itself. */
  predicate NeedsNetwork(messages: map<MessageId, Message>, range: Option<Range>, before: Option<MessageId>, limit: nat, page: seq<MessageId>)
    requires AllStored(messages, page)
  {
    match range
    case None => true
    case Some(r) =>
      var edge := if before.Some? then before else FirstLive(messages, page);
      var topOk := edge.None? || (r.newest.Some? && edge.value <= r.newest.value);
      var bottomOk := r.complete || (|page| >= limit && page != [] && r.oldest.Some? && page[|page| - 1] >= r.oldest.value);
      !(topOk && bottomOk)
  }

  method CachedMessages(tx: Tx, c: ChannelId, before: Option<MessageId>, limit: nat) returns (page: seq<MessageId>, needsNetwork: bool)
    ensures NewestOf(Matching(tx.messages, c, before), limit, page)
    ensures AllStored(tx.messages, page)
      && needsNetwork == NeedsNetwork(tx.messages, Held(tx.coverage, c), before, limit, page)
  {
    page := SelectNewest(Matching(tx.messages, c, before), limit);
    assert forall i :: 0 <= i < |page| ==> page[i] in IdSet(page);
    if c !in tx.coverage {
      needsNetwork := true;
      return;
    }
    var r := tx.coverage[c];
    var edge := before;
    if before.None? {
      edge := FirstLive(tx.messages, page);
    }
    var topOk := edge.None? || (r.newest.Some? && edge.value <= r.newest.value);
    var bottomOk := r.complete;
    if !r.complete && |page| >= limit && page != [] && r.oldest.Some? {
      bottomOk := page[|page| - 1] >= r.oldest.value;
    }
    needsNetwork := !(topOk && bottomOk);
  }

  // ---- Reset ----

  /** The sync was reset: every synced row goes, the cursor starts over, the generation moves on. */
  function ResetDb(db: Db): Db {
    EMPTY.(fileTables := DroppedAll(db.fileTables), generation := db.generation + 1)
  }

  method ResetRows(tx: Tx) returns (was: nat)
    modifies tx
    ensures was == old(tx.cursor) && tx.View() == ResetDb(old(tx.View()))
  {
    was := tx.cursor;
    DropAll(tx);
    tx.channels, tx.removed, tx.members, tx.users, tx.messages, tx.coverage := map[], map[], map[], map[], map[], map[];
    tx.cursor, tx.generation := 0, tx.generation + 1;
  }
}
