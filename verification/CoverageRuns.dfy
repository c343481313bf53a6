/** Coverage over whole runs: the cache, the server it replicates, and the history requests in
    flight between them, with every interleaving of server changes, live events, acknowledgements,
    sync pages, completed syncs, requests, answers, landings, removals and resets.

    The server's side is its contract (docs/PROTOCOL.md, docs/superpowers/specs): message ids grow
    with creation; a deleted message stays deleted; a history page is the newest `limit` survivors
    below `before` at one instant; a completed sync at cursor C has cached every surviving message
    created after the channel's starting point and up to C (core/src/coverage.rs:118-128). */
module CoverageRuns {
  import opened Tables
  import opened Apply
  import opened ApplyInvariants
  import opened Coverage
  import opened History
  import opened RangeSoundness

  type Home = MessageId -> ChannelId

  /** `births`: the stamp each message was created with. `last`: the newest id made. */
  datatype Server = Server(births: map<MessageId, Stamp>, dead: set<MessageId>, last: MessageId, clock: Stamp)

  /** A history answer, and the server's newest id when it was read. */
  datatype Page = Page(rows: seq<MessageIn>, at: MessageId)
  datatype Request = Request(ask: Ask, page: Option<Page>)

  /** `start`: the id after which `/sync` delivers a channel's messages. `synced`: a sync run has
      completed since the store was made or reset. */
  datatype World = World(db: Db, server: Server, start: ChannelId -> MessageId, synced: bool, requests: map<nat, Request>)

  function Alive(s: Server, home: Home, c: ChannelId): set<MessageId> {
    set id | id in s.births && id !in s.dead && home(id) == c
  }

  ghost predicate ValidServer(s: Server) {
    && s.dead <= s.births.Keys
    && (forall id :: id in s.births ==> id <= s.last && s.births[id] <= s.clock)
    && (forall x, y :: x in s.births && y in s.births && x < y ==> s.births[x] < s.births[y])
  }

  /** The server goes on: old messages keep their ids, new ones get greater ids. */
  ghost predicate Later(s: Server, t: Server) {
    && ValidServer(t)
    && s.births.Keys <= t.births.Keys && s.dead <= t.dead && s.last <= t.last && s.clock <= t.clock
    && (forall id :: id in s.births ==> t.births[id] == s.births[id])
    && (forall id :: id in t.births && id !in s.births ==> id > s.last)
  }

  /** A row of a message the server has made, no newer than now. */
  predicate Made(s: Server, id: MessageId, stamp: Stamp) {
    id in s.births && s.births[id] <= stamp <= s.clock
  }

  predicate ConformsOp(s: Server, op: Op) {
    && (op.Deliver? ==> Made(s, op.d.id, op.d.stamp))
    && (op.Bury? ==> Made(s, op.t.id, op.t.stamp))
  }

  ghost predicate Conforms(s: Server, me: UserId, home: Home, b: Batch) {
    && GoodBatch(me, home, b)
    && (forall d :: d in b.messages ==> Made(s, d.id, d.stamp))
    && (forall t :: t in b.tombstones ==> Made(s, t.id, t.stamp))
  }

  // ---- Steps ----

  /** A channel's starting point moves only with a removal of it. */
  ghost predicate StartsKept(w: World, w': World) {
    forall c :: FloorOf(w.db, c) == FloorOf(w'.db, c) ==> w'.start(c) == w.start(c)
  }

  ghost predicate ServerStep(w: World, w': World) {
    Later(w.server, w'.server) && w' == w.(server := w'.server)
  }

  /** Live events, acknowledgements, and the pages of a sync run that isn't done. */
  ghost predicate ApplyStep(w: World, w': World, me: UserId, home: Home, b: Batch, cursor: nat) {
    && Conforms(w.server, me, home, b) && !b.history
    && w'.db == Applied(w.db, me, b).(cursor := cursor)
    && w'.server == w.server && w'.synced == w.synced && w'.requests == w.requests
    && StartsKept(w, w')
  }

  /** The last page of a sync run, with the server's contract for it. The first run since the store
      was made or reset is state only: it fixes the starting points. */
  ghost predicate SyncStep(w: World, w': World, me: UserId, home: Home, b: Batch, cursor: nat) {
    var applied := Applied(w.db, me, b);
    && Conforms(w.server, me, home, b) && !b.history && cursor <= w.server.clock
    && w'.db == SettledTops(applied.(cursor := cursor), cursor)
    && w'.server == w.server && w'.synced && w'.requests == w.requests
    && (w.synced ==> StartsKept(w, w'))
    && (forall c, y ::
          (c in applied.coverage && y in Alive(w.server, home, c) && w'.start(c) < y && w.server.births[y] <= cursor
           ==> y in applied.messages))
  }

  /** A history request is made; `before` is the bottom of a range read a transaction earlier, so an
      id the server has made. `early` allows asking for the newest page before a completed sync. */
  ghost predicate AskStep(w: World, w': World, n: nat, c: ChannelId, before: Option<MessageId>, limit: nat, early: bool) {
    && n !in w.requests && (early || w.synced || before.Some?)
    && (before.Some? ==> before.value <= w.server.last)
    && w' == w.(requests := w.requests[n := Request(Asked(w.db, c, before, limit), None)])
  }

  predicate HistoryRow(s: Server, home: Home, c: ChannelId, d: MessageIn) {
    && d.channel == c && home(d.id) == c && Made(s, d.id, d.stamp)
    && !d.content.deleted && !d.content.partial
  }

  /** The rows of a history page, as the server reads them at one instant. */
  ghost predicate IsPage(s: Server, home: Home, ask: Ask, rows: seq<MessageIn>) {
    && (forall d :: d in rows ==> HistoryRow(s, home, ask.channel, d) && d.id !in s.dead)
    && |rows| <= ask.limit
    && PageOf(PageIds(rows), ask.limit, ask.before, Alive(s, home, ask.channel), s.last)
  }

  /** The server answers members only: once a first sync has fixed the starting points, a page is
      read at or after its channel's. */
  ghost predicate AnswerStep(w: World, w': World, home: Home, n: nat, rows: seq<MessageIn>) {
    && n in w.requests && w.requests[n].page == None
    && IsPage(w.server, home, w.requests[n].ask, rows)
    && (w.synced ==> w.start(w.requests[n].ask.channel) <= w.server.last)
    && w' == w.(requests := w.requests[n := w.requests[n].(page := Some(Page(rows, w.server.last)))])
  }

  ghost predicate LandStep(w: World, w': World, me: UserId, n: nat) {
    && n in w.requests && w.requests[n].page.Some?
    && w' == w.(db := Landed(w.db, me, w.requests[n].ask, w.requests[n].page.value.rows), requests := w.requests - {n})
  }

  /** A request fails or is cancelled. */
  ghost predicate GiveUpStep(w: World, w': World, n: nat) {
    w' == w.(requests := w.requests - {n})
  }

  ghost predicate ResetStep(w: World, w': World) {
    w'.db == ResetDb(w.db) && w'.server == w.server && !w'.synced && w'.requests == w.requests
  }

  ghost predicate Next(w: World, w': World, me: UserId, home: Home, early: bool) {
    || ServerStep(w, w')
    || (exists b, cursor :: ApplyStep(w, w', me, home, b, cursor))
    || (exists b, cursor :: SyncStep(w, w', me, home, b, cursor))
    || (exists n, c, before, limit :: AskStep(w, w', n, c, before, limit, early))
    || (exists n, rows :: AnswerStep(w, w', home, n, rows))
    || (exists n :: LandStep(w, w', me, n))
    || (exists n :: GiveUpStep(w, w', n))
    || ResetStep(w, w')
  }

  ghost predicate Init(w: World) {
    w.db == EMPTY && ValidServer(w.server) && !w.synced && w.requests == map[]
  }

  ghost predicate IsRun(ws: seq<World>, me: UserId, home: Home, early: bool) {
    && ws != [] && Init(ws[0])
    && forall i :: 0 <= i < |ws| - 1 ==> Next(ws[i], ws[i + 1], me, home, early)
  }

  /** A newest page (no `before`) that records coverage does so after a completed sync, and was read at
      or after its channel's starting point. */
  predicate Timely(w: World, r: Request) {
    r.page.Some? && r.ask.before.None? && w.db.generation == r.ask.generation && Proves(w.db, r.ask) ==>
      w.synced && w.start(r.ask.channel) <= r.page.value.at
  }

  ghost predicate LandsTimely(w: World, w': World, me: UserId) {
    forall n :: LandStep(w, w', me, n) ==> Timely(w, w.requests[n])
  }

  ghost predicate RunsTimely(ws: seq<World>, me: UserId) {
    forall i :: 0 <= i < |ws| - 1 ==> LandsTimely(ws[i], ws[i + 1], me)
  }

  // ---- What every step keeps ----

  /** A covered channel is here and not fenced: removing its rows removes its coverage. */
  ghost predicate CoveredPresent(db: Db) {
    forall c :: c in db.coverage ==> c in db.channels && FenceOf(db, c) == None
  }

  ghost predicate RowsMade(db: Db, s: Server) {
    forall id :: id in db.messages ==> Made(s, id, db.messages[id].stamp)
  }

  function Cached(db: Db, home: Home, c: ChannelId): set<MessageId> {
    set id | id in db.messages && home(id) == c
  }

  ghost predicate Sound(db: Db, s: Server, start: ChannelId -> MessageId, home: Home) {
    forall c :: c in db.coverage ==>
      RangeOk(db.coverage[c], Cached(db, home, c), Alive(s, home, c), start(c), s.last)
  }

  /** The floor was read in this generation or an older one; floors only rise within one. */
  predicate AskedBefore(db: Db, ask: Ask) {
    && 1 <= ask.limit
    && ask.generation <= db.generation
    && (ask.generation == db.generation && ask.floor.Some? ==>
          FloorOf(db, ask.channel).Some? && ask.floor.value <= FloorOf(db, ask.channel).value)
  }

  predicate Current(db: Db, ask: Ask) {
    ask.generation == db.generation && ask.floor == FloorOf(db, ask.channel)
  }

  ghost predicate PageStands(w: World, home: Home, ask: Ask, page: Page) {
    && page.at <= w.server.last && (ask.before.Some? ==> ask.before.value <= page.at)
    && (forall d :: d in page.rows ==> HistoryRow(w.server, home, ask.channel, d))
    && PageOf(PageIds(page.rows), ask.limit, ask.before, Alive(w.server, home, ask.channel), page.at)
  }

  ghost predicate RequestsStand(w: World, home: Home) {
    forall n :: n in w.requests ==>
      && AskedBefore(w.db, w.requests[n].ask)
      && (w.requests[n].ask.before.Some? ==> w.requests[n].ask.before.value <= w.server.last)
      && (w.requests[n].page.Some? ==> PageStands(w, home, w.requests[n].ask, w.requests[n].page.value))
  }

  ghost predicate Inv(w: World, me: UserId, home: Home) {
    && ValidServer(w.server)
    && Homed(w.db, home) && RowsMade(w.db, w.server)
    && CoveredPresent(w.db)
    && (forall c :: c in w.db.coverage ==> w.synced)
    && Sound(w.db, w.server, w.start, home)
    && RequestsStand(w, home)
  }

  // ---- Row operations ----

  predicate FloorRises(db: Db, db': Db, c: ChannelId) {
    FloorOf(db, c).Some? ==> FloorOf(db', c).Some? && FloorOf(db, c).value <= FloorOf(db', c).value
  }

  /** What row operations do to coverage: a channel keeps its range, its floor and its messages, or
      loses its coverage. */
  ghost predicate CoverageFrame(db: Db, db': Db, home: Home) {
    && db'.generation == db.generation
    && (forall c :: FloorRises(db, db', c))
    && (forall c :: c in db'.coverage ==>
          c in db.coverage && db'.coverage[c] == db.coverage[c] && FloorOf(db', c) == FloorOf(db, c))
    && (forall id :: id in db.messages && home(id) in db'.coverage ==> id in db'.messages)
  }

  lemma FrameDeliver(db: Db, d: MessageIn, history: bool, asked: Option<Stamp>, home: Home)
    ensures CoverageFrame(db, StepDeliver(db, d, history, asked), home)
    ensures db.messages.Keys <= StepDeliver(db, d, history, asked).messages.Keys
  {
  }

  lemma FrameBury(db: Db, t: TombstoneIn, home: Home)
    ensures CoverageFrame(db, StepBury(db, t), home)
  {
  }

  lemma FrameRemove(db: Db, me: UserId, r: RemovedIn, home: Home)
    requires Homed(db, home)
    ensures CoverageFrame(db, StepRemove(db, me, r), home)
  {
  }

  lemma FrameOwnMember(db: Db, m: MemberIn, home: Home)
    ensures CoverageFrame(db, StepOwnMember(db, m), home)
  {
  }

  lemma FrameStep(db: Db, me: UserId, op: Op, home: Home)
    requires Homed(db, home)
    ensures CoverageFrame(db, Step(db, me, op), home)
  {
    match op
    case OwnMember(m) => FrameOwnMember(db, m, home);
    case Remove(r) => FrameRemove(db, me, r, home);
    case Deliver(d, history, asked) => FrameDeliver(db, d, history, asked, home);
    case Bury(t) => FrameBury(db, t, home);
    case _ =>
  }

  lemma PresentStep(db: Db, me: UserId, op: Op)
    requires CoveredPresent(db)
    ensures CoveredPresent(Step(db, me, op))
  {
    match op
    case Deliver(d, history, asked) => DeliverOnlyMessages(db, d, history, asked);
    case Bury(t) => BuryOnlyMessages(db, t);
    case _ =>
  }

  lemma SameButQuotesMade(a: map<MessageId, Message>, b: map<MessageId, Message>, s: Server)
    requires SameButQuotes(a, b) && forall id :: id in a ==> Made(s, id, a[id].stamp)
    ensures forall id :: id in b ==> Made(s, id, b[id].stamp)
  {
    forall id | id in b
      ensures Made(s, id, b[id].stamp)
    {
      assert Unquoted(a[id]) == Unquoted(b[id]);
    }
  }

  lemma RowsMadeDeliver(db: Db, d: MessageIn, history: bool, asked: Option<Stamp>, s: Server)
    requires RowsMade(db, s) && Made(s, d.id, d.stamp)
    ensures RowsMade(StepDeliver(db, d, history, asked), s)
  {
    SameButQuotesMade(db.messages[d.id := StoredMessage(db.messages, d)], DeliveredMessages(db.messages, d, history), s);
  }

  lemma RowsMadeBury(db: Db, t: TombstoneIn, s: Server)
    requires RowsMade(db, s) && Made(s, t.id, t.stamp)
    ensures RowsMade(StepBury(db, t), s)
  {
    SameButQuotesMade(Entombed(db.messages, t), BuriedMessages(db.messages, t), s);
  }

  lemma RowsMadeStep(db: Db, me: UserId, op: Op, s: Server)
    requires RowsMade(db, s) && ConformsOp(s, op)
    ensures RowsMade(Step(db, me, op), s)
  {
    match op
    case Deliver(d, history, asked) => RowsMadeDeliver(db, d, history, asked, s);
    case Bury(t) => RowsMadeBury(db, t, s);
    case _ =>
  }

  lemma {:induction false} OpsRun(db: Db, me: UserId, ops: seq<Op>, s: Server, home: Home)
    requires Homed(db, home) && CoveredPresent(db) && RowsMade(db, s)
    requires forall op :: op in ops ==> HomeOp(home, op) && ConformsOp(s, op)
    ensures
      var db' := Run(db, me, ops);
      CoverageFrame(db, db', home) && Homed(db', home) && CoveredPresent(db') && RowsMade(db', s)
  {
    if ops != [] {
      var rest, last := ops[..|ops| - 1], ops[|ops| - 1];
      var before := Run(db, me, rest);
      OpsRun(db, me, rest, s, home);
      FrameStep(before, me, last, home);
      HomedStep(before, me, home, last);
      PresentStep(before, me, last);
      RowsMadeStep(before, me, last, s);
      FramesChain(db, before, Run(db, me, ops), home);
    }
  }

  lemma FramesChain(a: Db, b: Db, c: Db, home: Home)
    requires CoverageFrame(a, b, home) && CoverageFrame(b, c, home)
    ensures CoverageFrame(a, c, home)
  {
    forall ch
      ensures FloorRises(a, c, ch)
    {
      assert FloorRises(a, b, ch) && FloorRises(b, c, ch);
    }
    forall id | id in a.messages && home(id) in c.coverage
      ensures id in c.messages
    {
      var ch := home(id);
      assert ch in c.coverage && ch in b.coverage;
    }
  }

  lemma OpsConform(s: Server, me: UserId, home: Home, b: Batch)
    requires Conforms(s, me, home, b)
    ensures forall op :: op in Ops(me, b) ==> HomeOp(home, op) && ConformsOp(s, op)
  {
    OpsGood(me, home, b);
    MemberOpsProper(b.memberships, me);
    forall op | op in Ops(me, b)
      ensures ConformsOp(s, op)
    {
      if op in DeliverOps(b.messages, b.history, b.floors) {
        assert op.d in b.messages;
      } else if op in BuryOps(b.tombstones) {
        assert op.t in b.tombstones;
      }
    }
  }

  // ---- Landing a page ----

  /** A history page asked for under the present floor puts every row of it in the table. */
  lemma {:induction false} PageLands(db: Db, me: UserId, ask: Ask, rows: seq<MessageIn>)
    requires Proves(db, ask)
    requires forall d :: d in rows ==> d.channel == ask.channel
    ensures
      var db' := Run(db, me, DeliverOps(rows, true, map[ask.channel := ask.floor]));
      && OnlyMessages(db, db')
      && db.messages.Keys <= db'.messages.Keys
      && forall d :: d in rows ==> d.id in db'.messages
  {
    if rows != [] {
      var floors := map[ask.channel := ask.floor];
      var rest, last := rows[..|rows| - 1], rows[|rows| - 1];
      PageLands(db, me, ask, rest);
      assert DeliverOps(rows, true, floors)[..|rows| - 1] == DeliverOps(rest, true, floors);
      var before := Run(db, me, DeliverOps(rest, true, floors));
      DeliverOnlyMessages(before, last, true, ask.floor);
      FrameDeliver(before, last, true, ask.floor, id => 0);
      assert last in rows;
      assert last.id in StepDeliver(before, last, true, ask.floor).messages;
      assert forall d :: d in rows ==> d in rest || d == last;
    }
  }

  lemma HistoryOps(me: UserId, ask: Ask, rows: seq<MessageIn>)
    ensures Ops(me, HistoryBatch(ask, rows)) == DeliverOps(rows, true, map[ask.channel := ask.floor])
  {
  }

  /** Whenever a page proves coverage, every id of it is in the messages table. */
  lemma ProvenPageIsCached(db: Db, me: UserId, ask: Ask, rows: seq<MessageIn>)
    requires db.generation == ask.generation && Proves(db, ask)
    requires forall d :: d in rows ==> d.channel == ask.channel
    ensures
      var applied := Applied(db, me, HistoryBatch(ask, rows));
      && OnlyMessages(db, applied)
      && IdSet(PageIds(rows)) <= applied.messages.Keys
      && Landed(db, me, ask, rows).messages == applied.messages
  {
    HistoryOps(me, ask, rows);
    PageLands(db, me, ask, rows);
    forall id | id in PageIds(rows)
      ensures id in Applied(db, me, HistoryBatch(ask, rows)).messages
    {
      var i :| 0 <= i < |rows| && PageIds(rows)[i] == id;
      assert rows[i] in rows;
    }
  }

  // ---- Each step keeps the invariant ----

  /** The server goes on, floors and generations only rise, and a channel's starting point moves only
      with its floor. */
  ghost predicate OnlyRises(w: World, w': World) {
    && (w'.server == w.server || Later(w.server, w'.server))
    && w.db.generation <= w'.db.generation
    && (w.db.generation == w'.db.generation ==> forall c :: FloorRises(w.db, w'.db, c))
    && (w.synced && w.db.generation == w'.db.generation ==> w'.synced && StartsKept(w, w'))
  }

  lemma RequestStands(w: World, w': World, home: Home, r: Request)
    requires OnlyRises(w, w') && ValidServer(w.server)
    requires AskedBefore(w.db, r.ask)
    requires r.page.Some? ==> PageStands(w, home, r.ask, r.page.value)
    ensures AskedBefore(w'.db, r.ask)
    ensures r.page.Some? ==> PageStands(w', home, r.ask, r.page.value)
  {
    assert w.db.generation == w'.db.generation ==> FloorRises(w.db, w'.db, r.ask.channel);
  }

  lemma RequestsStay(w: World, w': World, home: Home)
    requires OnlyRises(w, w') && ValidServer(w.server) && RequestsStand(w, home)
    requires forall n :: n in w'.requests ==> n in w.requests && w'.requests[n] == w.requests[n]
    ensures RequestsStand(w', home)
  {
    forall n | n in w'.requests
      ensures AskedBefore(w'.db, w'.requests[n].ask)
      ensures w'.requests[n].page.Some? ==> PageStands(w', home, w'.requests[n].ask, w'.requests[n].page.value)
    {
      RequestStands(w, w', home, w.requests[n]);
    }
  }

  /** Channels that keep their coverage stay sound. */
  lemma SoundStays(w: World, w': World, home: Home)
    requires Sound(w.db, w.server, w.start, home)
    requires w'.server == w.server || (Later(w.server, w'.server) && ValidServer(w.server))
    requires forall c :: c in w'.db.coverage ==>
      c in w.db.coverage && w'.db.coverage[c] == w.db.coverage[c] && w'.start(c) == w.start(c)
      && Cached(w.db, home, c) <= Cached(w'.db, home, c)
    ensures Sound(w'.db, w'.server, w'.start, home)
  {
    forall c | c in w'.db.coverage
      ensures RangeOk(w'.db.coverage[c], Cached(w'.db, home, c), Alive(w'.server, home, c), w'.start(c), w'.server.last)
    {
      RangeStaysOk(w.db.coverage[c], Cached(w.db, home, c), Alive(w.server, home, c), w.start(c), w.server.last,
                   Cached(w'.db, home, c), Alive(w'.server, home, c), w'.server.last);
    }
  }

  lemma FrameCached(db: Db, db': Db, home: Home, c: ChannelId)
    requires CoverageFrame(db, db', home) && c in db'.coverage
    ensures Cached(db, home, c) <= Cached(db', home, c)
  {
    forall id | id in Cached(db, home, c)
      ensures id in db'.messages
    {
      assert home(id) in db'.coverage;
    }
  }

  lemma ServerKeeps(w: World, w': World, me: UserId, home: Home)
    requires Inv(w, me, home) && ServerStep(w, w')
    ensures Inv(w', me, home)
  {
    RequestsStay(w, w', home);
    SoundStays(w, w', home);
  }

  /** Applying a batch: the frame of its operations, whatever the cursor becomes. */
  lemma AppliedFrame(db: Db, db': Db, s: Server, me: UserId, home: Home, b: Batch, cursor: nat)
    requires Conforms(s, me, home, b) && db' == Applied(db, me, b).(cursor := cursor)
    requires Homed(db, home) && CoveredPresent(db) && RowsMade(db, s)
    ensures CoverageFrame(db, db', home)
    ensures Homed(db', home) && CoveredPresent(db') && RowsMade(db', s)
    ensures forall c :: c in db'.coverage ==> Cached(db, home, c) <= Cached(db', home, c)
  {
    OpsConform(s, me, home, b);
    OpsRun(db, me, Ops(me, b), s, home);
    var run := Applied(db, me, b);
    assert forall c :: FloorOf(db', c) == FloorOf(run, c);
    forall c
      ensures FloorRises(db, db', c)
    {
      assert FloorRises(db, run, c);
    }
    forall c | c in db'.coverage
      ensures Cached(db, home, c) <= Cached(db', home, c)
    {
      FrameCached(db, run, home, c);
    }
  }

  lemma ApplyKeeps(w: World, w': World, me: UserId, home: Home, b: Batch, cursor: nat)
    requires Inv(w, me, home) && ApplyStep(w, w', me, home, b, cursor)
    ensures Inv(w', me, home)
  {
    AppliedFrame(w.db, w'.db, w.server, me, home, b, cursor);
    RequestsStay(w, w', home);
    SoundStays(w, w', home);
  }

  /** A completed sync settles the top of a covered channel. */
  lemma SettledOk(db: Db, s: Server, start: ChannelId -> MessageId, home: Home, c: ChannelId, cursor: Stamp)
    requires ValidServer(s) && Homed(db, home) && RowsMade(db, s)
    requires c in db.coverage && RangeOk(db.coverage[c], Cached(db, home, c), Alive(s, home, c), start(c), s.last)
    requires forall y :: y in Alive(s, home, c) && start(c) < y && s.births[y] <= cursor ==> y in db.messages
    ensures RangeOk(SettledRange(db.coverage[c], Accounted(db.messages, c, cursor)),
                    Cached(db, home, c), Alive(s, home, c), start(c), s.last)
  {
    var accounted := Accounted(db.messages, c, cursor);
    if accounted != {} {
      var top := Max(accounted);
      forall y | y in Alive(s, home, c) && start(c) < y <= top
        ensures y in Cached(db, home, c)
      {
        assert s.births[y] <= s.births[top] <= cursor;
      }
    }
    SettleKeepsOk(db.coverage[c], accounted, Cached(db, home, c), Alive(s, home, c), start(c), s.last);
  }

  lemma SyncKeeps(w: World, w': World, me: UserId, home: Home, b: Batch, cursor: nat)
    requires Inv(w, me, home) && SyncStep(w, w', me, home, b, cursor)
    ensures Inv(w', me, home)
  {
    var applied := Applied(w.db, me, b).(cursor := cursor);
    AppliedFrame(w.db, applied, w.server, me, home, b, cursor);
    RequestsStayOverSync(w, w', applied, home);
    SoundStays(w, w'.(db := applied), home);
    forall c | c in w'.db.coverage
      ensures RangeOk(w'.db.coverage[c], Cached(w'.db, home, c), Alive(w.server, home, c), w'.start(c), w.server.last)
    {
      SettledOk(applied, w.server, w'.start, home, c, cursor);
    }
  }

  lemma RequestsStayOverSync(w: World, w': World, applied: Db, home: Home)
    requires ValidServer(w.server) && RequestsStand(w, home) && w'.server == w.server
    requires CoverageFrame(w.db, applied, home)
    requires w'.db == applied.(coverage := w'.db.coverage)
    requires w'.synced && (w.synced ==> StartsKept(w, w')) && w'.requests == w.requests
    ensures RequestsStand(w', home)
  {
    assert forall c :: FloorOf(w'.db, c) == FloorOf(applied, c);
    forall c
      ensures FloorRises(w.db, w'.db, c)
    {
      assert FloorRises(w.db, applied, c);
    }
    RequestsStay(w, w', home);
  }

  // ---- Landing ----

  lemma LandingConforms(s: Server, me: UserId, home: Home, ask: Ask, rows: seq<MessageIn>)
    requires forall d :: d in rows ==> HistoryRow(s, home, ask.channel, d)
    ensures Conforms(s, me, home, HistoryBatch(ask, rows))
  {
  }

  lemma RowIdsCached(db: Db, home: Home, c: ChannelId, rows: seq<MessageIn>)
    requires forall d :: d in rows ==> home(d.id) == c
    requires IdSet(PageIds(rows)) <= db.messages.Keys
    ensures IdSet(PageIds(rows)) <= Cached(db, home, c)
  {
    forall id | id in PageIds(rows)
      ensures home(id) == c && id in db.messages
    {
      var i :| 0 <= i < |rows| && PageIds(rows)[i] == id;
      assert rows[i] in rows && id in IdSet(PageIds(rows));
    }
  }

  /** The range a landed page records is sound. */
  lemma RecordedOk(held: Option<Range>, ask: Ask, ids: seq<MessageId>, cached: set<MessageId>, alive: set<MessageId>,
                   start: MessageId, last: MessageId, at: MessageId)
    requires held.Some? ==> RangeOk(held.value, cached, alive, start, last)
    requires 1 <= ask.limit && IdSet(ids) <= cached && at <= last
    requires ask.before.None? ==> start <= at
    requires ask.before.Some? ==> ask.before.value <= at
    requires PageOf(ids, ask.limit, ask.before, alive, at)
    ensures
      var r := RecordedRange(held, ask, ids);
      r.Some? ==> RangeOk(r.value, cached, alive, start, last)
  {
    match ask.before
    case None => HeadKeepsOk(held, ids, ask.limit, cached, alive, start, last, at);
    case Some(b) =>
      if held.Some? {
        OlderKeepsOk(held.value, b, ids, ask.limit, cached, alive, start, last, at);
      }
  }

  /** The rows land and nothing is recorded: another generation, or the page proves nothing. */
  lemma LandUnrecorded(w: World, w': World, applied: Db, home: Home)
    requires ValidServer(w.server) && RequestsStand(w, home) && Sound(w.db, w.server, w.start, home)
    requires CoverageFrame(w.db, applied, home)
    requires forall c :: c in applied.coverage ==> Cached(w.db, home, c) <= Cached(applied, home, c)
    requires w'.db == applied && w'.server == w.server && w'.start == w.start && w'.synced == w.synced
    requires forall n :: n in w'.requests ==> n in w.requests && w'.requests[n] == w.requests[n]
    ensures RequestsStand(w', home) && Sound(w'.db, w'.server, w'.start, home)
  {
    RequestsStay(w, w', home);
    SoundStays(w, w', home);
  }

  /** A page that proves coverage: every other range stays, and its channel's is sound. */
  lemma LandRecorded(w: World, me: UserId, home: Home, n: nat, applied: Db)
    requires Inv(w, me, home) && n in w.requests && w.requests[n].page.Some? && Timely(w, w.requests[n])
    requires
      var ask, rows := w.requests[n].ask, w.requests[n].page.value.rows;
      && w.db.generation == ask.generation && Proves(w.db, ask)
      && applied == Applied(w.db, me, HistoryBatch(ask, rows))
      && CoverageFrame(w.db, applied, home)
    ensures
      var ask, page := w.requests[n].ask, w.requests[n].page.value;
      var r := RecordedRange(Held(applied.coverage, ask.channel), ask, PageIds(page.rows));
      && applied.coverage == w.db.coverage && applied.channels == w.db.channels && applied.removed == w.db.removed
      && (r.Some? ==>
            && w.synced
            && RangeOk(r.value, Cached(applied, home, ask.channel), Alive(w.server, home, ask.channel),
                       w.start(ask.channel), w.server.last))
  {
    var ask, page := w.requests[n].ask, w.requests[n].page.value;
    var c := ask.channel;
    assert PageStands(w, home, ask, page);
    ProvenPageIsCached(w.db, me, ask, page.rows);
    RowIdsCached(applied, home, c, page.rows);
    var held := Held(applied.coverage, c);
    if held.Some? {
      FrameCached(w.db, applied, home, c);
      RangeStaysOk(held.value, Cached(w.db, home, c), Alive(w.server, home, c), w.start(c), w.server.last,
                   Cached(applied, home, c), Alive(w.server, home, c), w.server.last);
    }
    RecordedOk(held, ask, PageIds(page.rows), Cached(applied, home, c), Alive(w.server, home, c),
               w.start(c), w.server.last, page.at);
  }

  lemma LandKeeps(w: World, w': World, me: UserId, home: Home, n: nat)
    requires Inv(w, me, home) && LandStep(w, w', me, n) && Timely(w, w.requests[n])
    ensures Inv(w', me, home)
  {
    var ask, page := w.requests[n].ask, w.requests[n].page.value;
    if w.db.generation != ask.generation {
      LandUnrecorded(w, w', w.db, home);
    } else {
      var applied := Applied(w.db, me, HistoryBatch(ask, page.rows));
      assert applied.(cursor := applied.cursor) == applied;
      LandingConforms(w.server, me, home, ask, page.rows);
      AppliedFrame(w.db, applied, w.server, me, home, HistoryBatch(ask, page.rows), applied.cursor);
      LandUnrecorded(w, w'.(db := applied), applied, home);
      if Proves(w.db, ask) {
        LandRecorded(w, me, home, n, applied);
        RecordingKeeps(w', applied, ask, PageIds(page.rows), me, home);
      }
    }
  }

  lemma RecordingKeeps(w': World, applied: Db, ask: Ask, ids: seq<MessageId>, me: UserId, home: Home)
    requires Inv(w'.(db := applied), me, home) && Proves(applied, ask)
    requires
      var r := RecordedRange(Held(applied.coverage, ask.channel), ask, ids);
      && w'.db == applied.(coverage := Stored(applied.coverage, ask.channel, r))
      && (r.Some? ==>
            && w'.synced
            && RangeOk(r.value, Cached(applied, home, ask.channel), Alive(w'.server, home, ask.channel),
                       w'.start(ask.channel), w'.server.last))
    ensures Inv(w', me, home)
  {
    var w := w'.(db := applied);
    assert forall c :: FloorOf(w'.db, c) == FloorOf(w.db, c);
    RequestsStay(w, w', home);
    forall c | c in w'.db.coverage
      ensures RangeOk(w'.db.coverage[c], Cached(w'.db, home, c), Alive(w'.server, home, c), w'.start(c), w'.server.last)
    {
      assert Cached(w'.db, home, c) == Cached(applied, home, c);
    }
  }

  lemma AskKeeps(w: World, w': World, me: UserId, home: Home, n: nat, c: ChannelId, before: Option<MessageId>, limit: nat)
    requires Inv(w, me, home) && AskStep(w, w', n, c, before, limit, true)
    ensures Inv(w', me, home)
  {
    forall m | m in w.requests
      ensures w.requests[m].page.Some? ==> PageStands(w', home, w.requests[m].ask, w.requests[m].page.value)
    {
      RequestStands(w, w', home, w.requests[m]);
    }
  }

  lemma AnswerKeeps(w: World, w': World, me: UserId, home: Home, n: nat, rows: seq<MessageIn>)
    requires Inv(w, me, home) && AnswerStep(w, w', home, n, rows)
    ensures Inv(w', me, home)
  {
    forall m | m in w.requests
      ensures w.requests[m].page.Some? ==> PageStands(w', home, w.requests[m].ask, w.requests[m].page.value)
    {
      RequestStands(w, w', home, w.requests[m]);
    }
    assert PageStands(w', home, w.requests[n].ask, Page(rows, w.server.last));
  }

  lemma ResetKeeps(w: World, w': World, me: UserId, home: Home)
    requires Inv(w, me, home) && ResetStep(w, w')
    ensures Inv(w', me, home)
  {
    RequestsStay(w, w', home);
  }

  // ---- Every run ----

  lemma NextKeeps(w: World, w': World, me: UserId, home: Home)
    requires Inv(w, me, home) && Next(w, w', me, home, true) && LandsTimely(w, w', me)
    ensures Inv(w', me, home)
  {
    if ServerStep(w, w') {
      ServerKeeps(w, w', me, home);
    } else if b, cursor :| ApplyStep(w, w', me, home, b, cursor) {
      ApplyKeeps(w, w', me, home, b, cursor);
    } else if b, cursor :| SyncStep(w, w', me, home, b, cursor) {
      SyncKeeps(w, w', me, home, b, cursor);
    } else if n, c, before, limit :| AskStep(w, w', n, c, before, limit, true) {
      AskKeeps(w, w', me, home, n, c, before, limit);
    } else if n, rows :| AnswerStep(w, w', home, n, rows) {
      AnswerKeeps(w, w', me, home, n, rows);
    } else if n :| LandStep(w, w', me, n) {
      LandKeeps(w, w', me, home, n);
    } else if n :| GiveUpStep(w, w', n) {
      RequestsStay(w, w', home);
    } else {
      ResetKeeps(w, w', me, home);
    }
  }

  lemma {:induction false} RunKeeps(ws: seq<World>, me: UserId, home: Home)
    requires IsRun(ws, me, home, true) && RunsTimely(ws, me)
    ensures Inv(ws[|ws| - 1], me, home)
  {
    if |ws| > 1 {
      var before := ws[..|ws| - 1];
      assert IsRun(before, me, home, true) && RunsTimely(before, me);
      RunKeeps(before, me, home);
      assert Next(ws[|ws| - 2], ws[|ws| - 1], me, home, true) && LandsTimely(ws[|ws| - 2], ws[|ws| - 1], me);
      NextKeeps(ws[|ws| - 2], ws[|ws| - 1], me, home);
    }
  }

  /** Every surviving message in a range is cached, and every one up to its top once it reaches the
      start. */
  ghost predicate AllClaimsHold(w: World, home: Home) {
    forall c :: c in w.db.coverage ==> Claims(w.db.coverage[c], Cached(w.db, home, c), Alive(w.server, home, c))
  }

  /** In every run whose newest pages land in time, coverage is sound. */
  lemma CoverageIsSound(ws: seq<World>, me: UserId, home: Home)
    requires IsRun(ws, me, home, true) && RunsTimely(ws, me)
    ensures AllClaimsHold(ws[|ws| - 1], home)
  {
    RunKeeps(ws, me, home);
  }
}
