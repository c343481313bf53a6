/** What a page makes of the covered range, said of its ids; when a page is answered from the cache; and
    that loading older pages reaches the start. */
module CoverageLaws {
  import opened Tables
  import opened Apply
  import opened ApplyInvariants
  import opened Coverage
  import opened History
  import opened CoverageRuns

  // ---- The newest page ----

  predicate AtLeastAll(m: MessageId, ids: seq<MessageId>) {
    forall id :: id in ids ==> id <= m
  }

  predicate AtMostAll(m: MessageId, ids: seq<MessageId>) {
    forall id :: id in ids ==> m <= id
  }

  /** All of the page lies below the held range. */
  predicate AllBelow(held: Option<Range>, ids: seq<MessageId>) {
    held.Some? && held.value.oldest.Some? && forall id :: id in ids ==> id < held.value.oldest.value
  }

  /** The page and the held range meet: one of its ids is not above the top, one not below the bottom. */
  predicate Meets(held: Option<Range>, ids: seq<MessageId>) {
    && held.Some? && held.value.newest.Some? && held.value.oldest.Some?
    && (exists id :: id in ids && id <= held.value.newest.value)
    && (exists id :: id in ids && id >= held.value.oldest.value)
  }

  lemma IdsAreTheSet(ids: seq<MessageId>)
    ensures forall id :: id in ids <==> id in IdSet(ids)
  {
  }

  /** An empty newest page: nothing is there, if nothing was held. */
  lemma EmptyHead(held: Option<Range>, limit: nat)
    requires limit > 0
    ensures HeadRange(held, [], limit) ==
      if held.None? || (held.value.newest.None? && held.value.oldest.None?) then Some(Range(None, None, true))
      else if held.value.newest.None? then Some(held.value.(complete := true))
      else held
  {
  }

  /** A newest page that isn't all below the range: the top covers both, the bottom too if they meet, and
      the start is reached if the page is short, or was reached by a range it meets. */
  lemma HeadCovers(held: Option<Range>, ids: seq<MessageId>, limit: nat)
    requires ids != [] && !AllBelow(held, ids)
    ensures
      var after := HeadRange(held, ids, limit);
      && after.Some? && after.value.newest.Some? && after.value.oldest.Some?
      && var top, bottom := after.value.newest.value, after.value.oldest.value;
      && AtLeastAll(top, ids) && (held.Some? && held.value.newest.Some? ==> held.value.newest.value <= top)
      && (top in ids || (held.Some? && held.value.newest == Some(top)))
      && AtMostAll(bottom, ids)
      && (if Meets(held, ids)
          then bottom <= held.value.oldest.value && (bottom in ids || held.value.oldest == Some(bottom))
          else bottom in ids)
      && after.value.complete == (|ids| < limit || (Meets(held, ids) && held.value.complete))
  {
    IdsAreTheSet(ids);
    assert ids[0] in IdSet(ids);
    var newest, oldest := Max(IdSet(ids)), Min(IdSet(ids));
    assert newest in ids && oldest in ids;
  }

  lemma HeadBelow(held: Option<Range>, ids: seq<MessageId>, limit: nat)
    requires ids != [] && AllBelow(held, ids)
    ensures HeadRange(held, ids, limit) == held
  {
    assert ids[0] in IdSet(ids);
    assert Max(IdSet(ids)) in ids;
  }

  // ---- Older pages ----

  /** The page below the range lowers the bottom to its lowest id; one asked for at any other id, or
      without a range, changes nothing. */
  lemma OlderExtends(held: Option<Range>, before: MessageId, ids: seq<MessageId>, limit: nat)
    ensures
      var after := OlderRange(held, before, ids, limit);
      if held.None? || held.value.oldest != Some(before) then after == held
      else
        && after.Some? && after.value.newest == held.value.newest
        && (after.value.complete <==> held.value.complete || |ids| < limit)
        && (ids == [] ==> after.value.oldest == Some(before))
        && (ids != [] ==> after.value.oldest.Some? && after.value.oldest.value in ids && AtMostAll(after.value.oldest.value, ids))
  {
    if ids != [] {
      IdsAreTheSet(ids);
      assert ids[0] in IdSet(ids);
    }
  }

  /** Each older page lowers the bottom or reaches the start. */
  lemma OlderProgresses(r: Range, ids: seq<MessageId>, limit: nat)
    requires r.oldest.Some? && limit > 0
    requires forall id :: id in ids ==> id < r.oldest.value
    ensures
      var after := OlderRange(Some(r), r.oldest.value, ids, limit).value;
      after.complete || (after.oldest.Some? && after.oldest.value < r.oldest.value)
  {
    OlderExtends(Some(r), r.oldest.value, ids, limit);
  }

  function Below(alive: set<MessageId>, bottom: Option<MessageId>): set<MessageId> {
    set y | y in alive && bottom.Some? && y < bottom.value
  }

  /** Older pages, one after the other: each is the newest survivors below the bottom; no message is
      made below it. */
  ghost predicate LoadsOlder(rs: seq<Range>, pages: seq<seq<MessageId>>, alives: seq<set<MessageId>>, limit: nat) {
    && |rs| == |pages| + 1 == |alives| + 1
    && (forall i :: 0 <= i < |rs| ==> rs[i].oldest.Some?)
    && (forall i :: 0 <= i < |pages| ==>
          && NewestOf(Below(alives[i], rs[i].oldest), limit, pages[i])
          && Some(rs[i + 1]) == OlderRange(Some(rs[i]), rs[i].oldest.value, pages[i], limit))
    && (forall i :: 0 <= i < |alives| - 1 ==> Below(alives[i + 1], rs[i].oldest) <= alives[i])
  }

  lemma SubsetIsSmaller(a: set<MessageId>, b: set<MessageId>)
    requires a <= b
    ensures |a| <= |b|
  {
    assert b == a + (b - a);
  }

  /** A page that doesn't reach the start leaves fewer survivors below the bottom. */
  lemma FewerBelow(r: Range, page: seq<MessageId>, alive: set<MessageId>, next: set<MessageId>, limit: nat)
    requires r.oldest.Some? && limit > 0 && NewestOf(Below(alive, r.oldest), limit, page)
    requires Below(next, r.oldest) <= alive
    ensures
      var after := OlderRange(Some(r), r.oldest.value, page, limit).value;
      after.complete || |Below(next, after.oldest)| < |Below(alive, r.oldest)|
  {
    OlderExtends(Some(r), r.oldest.value, page, limit);
    var after := OlderRange(Some(r), r.oldest.value, page, limit).value;
    if !after.complete {
      var bottom := after.oldest.value;
      assert bottom in IdSet(page);
      assert bottom in Below(alive, r.oldest) && bottom !in Below(next, after.oldest);
      SubsetIsSmaller(Below(next, after.oldest) + {bottom}, Below(alive, r.oldest));
    }
  }

  lemma PageIsCached(cached: set<MessageId>, limit: nat, page: seq<MessageId>)
    requires NewestOf(cached, limit, page)
    ensures page != [] ==> page[0] in cached
  {
    assert forall i :: 0 <= i < |page| ==> page[i] in IdSet(page);
  }

  lemma CompleteStays(r: Range, page: seq<MessageId>, limit: nat)
    requires r.oldest.Some? && r.complete
    ensures OlderRange(Some(r), r.oldest.value, page, limit).value.complete
  {
    OlderExtends(Some(r), r.oldest.value, page, limit);
  }

  /** A bounded number of older pages reaches the start: one more than the survivors below the range. */
  lemma {:induction false} LoadsReachTheStart(rs: seq<Range>, pages: seq<seq<MessageId>>, alives: seq<set<MessageId>>, limit: nat)
    requires LoadsOlder(rs, pages, alives, limit) && limit > 0 && pages != []
    requires |pages| > |Below(alives[0], rs[0].oldest)|
    ensures rs[|rs| - 1].complete
  {
    if |pages| == 1 {
      OlderExtends(Some(rs[0]), rs[0].oldest.value, pages[0], limit);
      PageIsCached(Below(alives[0], rs[0].oldest), limit, pages[0]);
    } else if rs[1].complete {
      StaysComplete(rs, pages, alives, limit, |pages|);
    } else {
      FewerBelow(rs[0], pages[0], alives[0], alives[1], limit);
      LoadsReachTheStart(rs[1..], pages[1..], alives[1..], limit);
    }
  }

  lemma {:induction false} StaysComplete(rs: seq<Range>, pages: seq<seq<MessageId>>, alives: seq<set<MessageId>>, limit: nat, n: nat)
    requires LoadsOlder(rs, pages, alives, limit) && 1 <= n < |rs| && rs[1].complete
    ensures rs[n].complete
  {
    if n > 1 {
      StaysComplete(rs, pages, alives, limit, n - 1);
      CompleteStays(rs[n - 1], pages[n - 1], limit);
    }
  }

  // ---- A completed sync ----

  predicate InSnapshot(db: Db, c: ChannelId, cursor: Stamp, id: MessageId) {
    id in db.messages && db.messages[id].channel == c && 0 < db.messages[id].stamp <= cursor
  }

  /** The top rises to the newest message the sync's snapshot accounts for, and never falls; a range
      without a bottom gets one; channels without coverage get none. */
  lemma SettlingRaisesTops(db: Db, cursor: Stamp, c: ChannelId)
    ensures SettledTops(db, cursor) == db.(coverage := SettledTops(db, cursor).coverage)
    ensures c in SettledTops(db, cursor).coverage <==> c in db.coverage
    ensures c in db.coverage ==>
      var r, after := db.coverage[c], SettledTops(db, cursor).coverage[c];
      && after.complete == r.complete
      && (forall id :: InSnapshot(db, c, cursor, id) ==> after.newest.Some? && id <= after.newest.value)
      && (r.newest.Some? ==> after.newest.Some? && r.newest.value <= after.newest.value)
      && (after.newest == r.newest || InSnapshot(db, c, cursor, after.newest.value))
      && (r.oldest.Some? || after.newest == r.newest ==> after.oldest == r.oldest)
      && (r.oldest.None? && after.newest != r.newest ==>
            && after.oldest.Some? && InSnapshot(db, c, cursor, after.oldest.value)
            && forall id :: InSnapshot(db, c, cursor, id) ==> after.oldest.value <= id)
  {
    var accounted := Accounted(db.messages, c, cursor);
    assert forall id :: id in accounted <==> InSnapshot(db, c, cursor, id);
  }

  // ---- A request and a landing ----

  /** A request keeps what it was made under, and a limit of 1 to 100, the given one if it is. */
  lemma AskReads(db: Db, c: ChannelId, before: Option<MessageId>, limit: nat)
    ensures
      var ask := Asked(db, c, before, limit);
      && ask.channel == c && ask.before == before && ask.generation == db.generation
      && (c in db.removed ==> ask.floor == Some(db.removed[c].stamp)) && (c !in db.removed ==> ask.floor == None)
      && 1 <= ask.limit <= 100
      && (limit == 0 ==> ask.limit == 1) && (limit > 100 ==> ask.limit == 100) && (1 <= limit <= 100 ==> ask.limit == limit)
  {
  }

  /** Only a page of this generation, asked for under the present floor, in a present and unfenced
      channel, records coverage; and of its channel only. */
  lemma LandingRecords(db: Db, me: UserId, ask: Ask, rows: seq<MessageIn>, c: ChannelId)
    ensures
      var after := Landed(db, me, ask, rows);
      var floor := if ask.channel in db.removed then Some(db.removed[ask.channel].stamp) else None;
      var records := db.generation == ask.generation && ask.floor == floor && ask.channel in db.channels
        && !(ask.channel in db.removed && db.removed[ask.channel].active);
      && (!records || c != ask.channel ==> Held(after.coverage, c) == Held(db.coverage, c))
      && (records && c == ask.channel ==>
            Held(after.coverage, c) ==
            if ask.before.Some? then OlderRange(Held(db.coverage, c), ask.before.value, PageIds(rows), ask.limit)
            else HeadRange(Held(db.coverage, c), PageIds(rows), ask.limit))
  {
    HistoryOps(me, ask, rows);
    DeliversKeepCoverage(db, me, rows, map[ask.channel := ask.floor]);
  }

  lemma {:induction false} DeliversKeepCoverage(db: Db, me: UserId, rows: seq<MessageIn>, floors: map<ChannelId, Option<Stamp>>)
    ensures OnlyMessages(db, Run(db, me, DeliverOps(rows, true, floors)))
  {
    if rows != [] {
      var rest, last := rows[..|rows| - 1], rows[|rows| - 1];
      DeliversKeepCoverage(db, me, rest, floors);
      assert DeliverOps(rows, true, floors)[..|rows| - 1] == DeliverOps(rest, true, floors);
      DeliverOnlyMessages(Run(db, me, DeliverOps(rest, true, floors)), last, true, AskedFloor(floors, last.channel));
    }
  }

  /** A reset leaves no synced row and starts a new generation from the beginning. */
  lemma ResetEmpties(db: Db)
    ensures
      var after := ResetDb(db);
      && after.channels == map[] && after.members == map[] && after.users == map[] && after.messages == map[]
      && after.removed == map[] && after.coverage == map[] && after.cursor == 0 && after.generation == db.generation + 1
      && after.fileTables.listings == map[] && after.fileTables.files == map[]
      && after.fileTables.deletions == db.fileTables.deletions + db.fileTables.files.Keys
  {
  }

  // ---- Answering from the cache ----

  predicate Shows(messages: map<MessageId, Message>, id: MessageId) {
    id in messages && !messages[id].content.deleted && !messages[id].content.deletedAt
  }

  predicate RowBelow(messages: map<MessageId, Message>, c: ChannelId, before: Option<MessageId>, id: MessageId) {
    id in messages && messages[id].channel == c && (before.Some? ==> id < before.value)
  }

  /** A page's rows are the channel's below `before`, newest first; one left out has a full page above it. */
  lemma PageSkipsNone(messages: map<MessageId, Message>, c: ChannelId, before: Option<MessageId>, limit: nat, page: seq<MessageId>)
    requires NewestOf(Matching(messages, c, before), limit, page)
    ensures forall i :: 0 <= i < |page| ==> RowBelow(messages, c, before, page[i])
    ensures forall i, j :: 0 <= i < j < |page| ==> page[j] < page[i]
    ensures forall id :: RowBelow(messages, c, before, id) && id !in page ==>
      |page| == limit && forall i :: 0 <= i < |page| ==> id < page[i]
  {
    assert forall i :: 0 <= i < |page| ==> page[i] in IdSet(page);
    assert forall id :: RowBelow(messages, c, before, id) <==> id in Matching(messages, c, before);
    assert forall id :: id in IdSet(page) <==> id in page;
  }

  /** The top: the page's upper edge, `before` or else all it shows, is covered. */
  predicate TopCovered(messages: map<MessageId, Message>, range: Range, before: Option<MessageId>, page: seq<MessageId>) {
    if before.Some? then range.newest.Some? && before.value <= range.newest.value
    else forall id :: id in page && Shows(messages, id) ==> range.newest.Some? && id <= range.newest.value
  }

  /** The bottom: down to the start, or a full page that ends in the range. */
  predicate BottomCovered(range: Range, limit: nat, page: seq<MessageId>) {
    || range.complete
    || (|page| >= limit && page != [] && range.oldest.Some? && range.oldest.value <= page[|page| - 1])
  }

  lemma {:induction false} FirstLiveIsTop(messages: map<MessageId, Message>, page: seq<MessageId>)
    requires AllStored(messages, page) && Descending(page)
    ensures FirstLive(messages, page).Some? ==> FirstLive(messages, page).value in page && Shows(messages, FirstLive(messages, page).value)
    ensures forall id :: id in page && Shows(messages, id) ==>
      FirstLive(messages, page).Some? && id <= FirstLive(messages, page).value
  {
    if page != [] {
      assert page == [page[0]] + page[1..];
      FirstLiveIsTop(messages, page[1..]);
      forall id | id in page
        ensures id <= page[0]
      {
        var i :| 0 <= i < |page| && page[i] == id;
      }
    }
  }

  /** The cache answers by itself exactly if the channel is covered and both edges of the page are. */
  lemma AnsweredFromCacheIff(messages: map<MessageId, Message>, range: Option<Range>, before: Option<MessageId>, limit: nat, page: seq<MessageId>)
    requires AllStored(messages, page) && Descending(page)
    ensures !NeedsNetwork(messages, range, before, limit, page) <==>
      range.Some? && TopCovered(messages, range.value, before, page) && BottomCovered(range.value, limit, page)
  {
    FirstLiveIsTop(messages, page);
  }

  lemma {:induction false} DistinctCount(page: seq<MessageId>)
    requires forall i, j :: 0 <= i < j < |page| ==> page[i] != page[j]
    ensures |IdSet(page)| == |page|
  {
    if page != [] {
      var rest, last := page[..|page| - 1], page[|page| - 1];
      DistinctCount(rest);
      assert IdSet(page) == IdSet(rest) + {last};
      assert forall i :: 0 <= i < |rest| ==> rest[i] == page[i] && page[i] != last;
    }
  }

  lemma AboveTheLastAreListed(cached: set<MessageId>, limit: nat, page: seq<MessageId>)
    requires NewestOf(cached, limit, page) && page != []
    ensures forall id :: id in cached && id > page[|page| - 1] ==> id in IdSet(page) - {page[|page| - 1]}
  {
    assert forall id :: id in cached && id !in page ==> id < page[|page| - 1];
  }

  /** With `limit` cached ids at or above some bottom, the newest `limit` cached rows end there too. */
  lemma FullPageEndsAbove(ids: seq<MessageId>, bottom: MessageId, cached: set<MessageId>, limit: nat, page: seq<MessageId>)
    requires forall i, j :: 0 <= i < j < |ids| ==> ids[i] != ids[j]
    requires AtMostAll(bottom, ids) && IdSet(ids) <= cached && |ids| >= limit > 0
    requires NewestOf(cached, limit, page)
    ensures |page| >= limit && page != [] && bottom <= page[|page| - 1]
  {
    DistinctCount(ids);
    DistinctCount(page);
    SubsetIsSmaller(IdSet(ids), cached);
    AboveTheLastAreListed(cached, limit, page);
    var last := page[|page| - 1];
    assert last in IdSet(page) && |IdSet(page) - {last}| == |page| - 1;
    if last < bottom {
      SubsetIsSmaller(IdSet(ids), IdSet(page) - {last});
    }
  }

  /** Right after a newest page landed and was merged, the cache answers the same request by itself, if
      nothing it shows lies above the covered top. */
  lemma LandedHeadIsAnswered(db: Db, me: UserId, ask: Ask, rows: seq<MessageIn>, page: seq<MessageId>)
    requires db.generation == ask.generation && Proves(db, ask) && ask.before.None? && ask.limit > 0
    requires forall d :: d in rows ==> d.channel == ask.channel
    requires forall i, j :: 0 <= i < j < |rows| ==> rows[i].id != rows[j].id
    requires forall d :: d in rows && d.id in db.messages ==> db.messages[d.id].channel == ask.channel
    requires
      var held := Held(db.coverage, ask.channel);
      held.Some? && (held.value.newest.Some? || held.value.oldest.Some?) ==> rows != [] && !AllBelow(held, PageIds(rows))
    requires
      var after := Landed(db, me, ask, rows);
      && NewestOf(Matching(after.messages, ask.channel, None), ask.limit, page) && AllStored(after.messages, page)
      && (forall id :: id in page && Shows(after.messages, id) ==>
            && ask.channel in after.coverage && after.coverage[ask.channel].newest.Some?
            && id <= after.coverage[ask.channel].newest.value)
    ensures
      var after := Landed(db, me, ask, rows);
      !NeedsNetwork(after.messages, Held(after.coverage, ask.channel), None, ask.limit, page)
  {
    var c, ids, after := ask.channel, PageIds(rows), Landed(db, me, ask, rows);
    LandingRecords(db, me, ask, rows, c);
    AnsweredFromCacheIff(after.messages, Held(after.coverage, c), None, ask.limit, page);
    EmptyHead(Held(db.coverage, c), ask.limit);
    if rows != [] && !AllBelow(Held(db.coverage, c), ids) {
      HeadCovers(Held(db.coverage, c), ids, ask.limit);
      if |ids| >= ask.limit {
        PageRowsMatch(db, me, ask, rows);
        FullPageEndsAbove(ids, after.coverage[c].oldest.value, Matching(after.messages, c, None), ask.limit, page);
      }
    }
  }

  /** Every id of a page that proves coverage is cached, in its channel. */
  lemma PageRowsMatch(db: Db, me: UserId, ask: Ask, rows: seq<MessageIn>)
    requires db.generation == ask.generation && Proves(db, ask)
    requires forall d :: d in rows ==> d.channel == ask.channel
    requires forall d :: d in rows && d.id in db.messages ==> db.messages[d.id].channel == ask.channel
    ensures IdSet(PageIds(rows)) <= Matching(Landed(db, me, ask, rows).messages, ask.channel, None)
  {
    ProvenPageIsCached(db, me, ask, rows);
    HistoryOps(me, ask, rows);
    DeliversKeepChannel(db, me, rows, map[ask.channel := ask.floor], ask.channel, IdSet(PageIds(rows)));
  }

  lemma {:induction false} DeliversKeepChannel(db: Db, me: UserId, rows: seq<MessageIn>, floors: map<ChannelId, Option<Stamp>>, c: ChannelId, ids: set<MessageId>)
    requires forall d :: d in rows ==> d.channel == c
    requires forall id :: id in ids && id in db.messages ==> db.messages[id].channel == c
    ensures
      var after := Run(db, me, DeliverOps(rows, true, floors));
      forall id :: id in ids && id in after.messages ==> after.messages[id].channel == c
  {
    if rows != [] {
      var rest, last := rows[..|rows| - 1], rows[|rows| - 1];
      DeliversKeepChannel(db, me, rest, floors, c, ids);
      assert DeliverOps(rows, true, floors)[..|rows| - 1] == DeliverOps(rest, true, floors);
      var before, asked := Run(db, me, DeliverOps(rest, true, floors)), AskedFloor(floors, last.channel);
      forall id | id in StepDeliver(before, last, true, asked).messages && id in ids
        ensures StepDeliver(before, last, true, asked).messages[id].channel == c
      {
        DeliveredChannel(before, last, asked, id);
      }
    }
  }

  lemma DeliveredChannel(db: Db, d: MessageIn, asked: Option<Stamp>, id: MessageId)
    requires id in StepDeliver(db, d, true, asked).messages
    ensures StepDeliver(db, d, true, asked).messages[id].channel == (if id in db.messages then db.messages[id].channel else d.channel)
  {
    if Lands(db, d, true, asked) && MessageWins(db.messages, d) {
      var stored := db.messages[d.id := StoredMessage(db.messages, d)];
      assert Unquoted(DeliveredMessages(db.messages, d, true)[id]) == Unquoted(stored[id]);
    }
  }
}
