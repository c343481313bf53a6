/** When a newest page may be asked for. Asked for once a sync has completed, it always lands in time,
    and coverage stays sound. Asked for before that, there is always a way for coverage to go wrong: the
    page is read while the channel is empty; a message follows; the first sync, which brings state
    only, sets the channel's starting point there; then the page lands as the whole channel. */
module EarlyHistory {
  import opened Tables
  import opened Apply
  import opened ApplyInvariants
  import opened Replay
  import opened Coverage
  import opened History
  import opened CoverageRuns
  import opened CoverageTheorems

  // ---- Asked for in time ----

  /** A newest page asked for under the present floor and generation: a sync has completed, and it is
      read at or after the channel's starting point. */
  predicate Ready(w: World, r: Request) {
    Current(w.db, r.ask) && r.ask.before.None? ==>
      w.synced && (r.page.Some? ==> w.start(r.ask.channel) <= r.page.value.at)
  }

  ghost predicate Guarded(w: World) {
    forall n :: n in w.requests ==> Ready(w, w.requests[n])
  }

  lemma ReadyStays(w: World, w': World, r: Request)
    requires OnlyRises(w, w') && AskedBefore(w.db, r.ask) && Ready(w, r)
    ensures Ready(w', r)
  {
    assert w.db.generation == w'.db.generation ==> FloorRises(w.db, w'.db, r.ask.channel);
  }

  lemma GuardsStay(w: World, w': World, home: Home)
    requires OnlyRises(w, w') && RequestsStand(w, home) && Guarded(w)
    requires forall n :: n in w'.requests ==> n in w.requests && w'.requests[n] == w.requests[n]
    ensures Guarded(w')
  {
    forall n | n in w'.requests
      ensures Ready(w', w'.requests[n])
    {
      ReadyStays(w, w', w.requests[n]);
    }
  }

  lemma NextOnlyRises(w: World, w': World, me: UserId, home: Home)
    requires Next(w, w', me, home, true)
    ensures OnlyRises(w, w')
  {
    NextRises(w, w', me, home);
  }

  /** Only asking adds a request, and only an answer changes one. */
  ghost predicate RequestsMove(w: World, w': World, home: Home) {
    || (forall n :: n in w'.requests ==> n in w.requests && w'.requests[n] == w.requests[n])
    || (exists n, c, before, limit :: AskStep(w, w', n, c, before, limit, false))
    || (exists n, rows :: AnswerStep(w, w', home, n, rows))
  }

  lemma NextMoves(w: World, w': World, me: UserId, home: Home)
    requires Next(w, w', me, home, false)
    ensures RequestsMove(w, w', home)
  {
  }

  lemma NextGuards(w: World, w': World, home: Home)
    requires RequestsStand(w, home) && Guarded(w) && RequestsMove(w, w', home) && OnlyRises(w, w')
    ensures Guarded(w')
  {
    if n, c, before, limit :| AskStep(w, w', n, c, before, limit, false) {
      GuardsStay(w, w'.(requests := w.requests), home);
    } else if n, rows :| AnswerStep(w, w', home, n, rows) {
      GuardsStay(w, w'.(requests := w.requests), home);
    } else {
      GuardsStay(w, w', home);
    }
  }

  lemma AlsoEarly(w: World, w': World, me: UserId, home: Home)
    requires Next(w, w', me, home, false)
    ensures Next(w, w', me, home, true)
  {
    if n, c, before, limit :| AskStep(w, w', n, c, before, limit, false) {
      assert AskStep(w, w', n, c, before, limit, true);
    }
  }

  lemma {:induction false} GuardedRun(ws: seq<World>, me: UserId, home: Home)
    requires IsRun(ws, me, home, false)
    ensures IsRun(ws, me, home, true) && RunsTimely(ws, me)
    ensures Inv(ws[|ws| - 1], me, home) && Guarded(ws[|ws| - 1])
  {
    if |ws| > 1 {
      var before := ws[..|ws| - 1];
      var w, w' := ws[|ws| - 2], ws[|ws| - 1];
      assert IsRun(before, me, home, false);
      GuardedRun(before, me, home);
      assert Next(w, w', me, home, false);
      AlsoEarly(w, w', me, home);
      NextOnlyRises(w, w', me, home);
      NextMoves(w, w', me, home);
      NextGuards(w, w', home);
      assert LandsTimely(w, w', me);
      NextKeeps(w, w', me, home);
      forall i | 0 <= i < |ws| - 1
        ensures Next(ws[i], ws[i + 1], me, home, true) && LandsTimely(ws[i], ws[i + 1], me)
      {
        if i < |ws| - 2 {
          assert before[i] == ws[i] && before[i + 1] == ws[i + 1];
          assert Next(before[i], before[i + 1], me, home, true) && LandsTimely(before[i], before[i + 1], me);
        }
      }
    }
  }

  /** In every run that asks for newest pages only once a sync has completed, coverage is sound. */
  lemma AskedInTimeIsSound(ws: seq<World>, me: UserId, home: Home)
    requires IsRun(ws, me, home, false)
    ensures AllClaimsHold(ws[|ws| - 1], home)
  {
    GuardedRun(ws, me, home);
    CoverageIsSound(ws, me, home);
  }

  // ---- What an ask leaves open ----

  /** The worlds from `v` on, where newest pages are asked for in time. */
  ghost predicate Continues(v: World, vs: seq<World>, me: UserId, home: Home) {
    && vs != [] && vs[0] == v
    && forall i :: 0 <= i < |vs| - 1 ==> Next(vs[i], vs[i + 1], me, home, false)
  }

  ghost predicate StaysSound(v: World, me: UserId, home: Home) {
    forall vs :: Continues(v, vs, me, home) ==> AllClaimsHold(vs[|vs| - 1], home)
  }

  function AskedIn(w: World, n: nat, c: ChannelId, before: Option<MessageId>, limit: nat): World {
    w.(requests := w.requests[n := Request(Asked(w.db, c, before, limit), None)])
  }

  lemma InTimeStaysSound(ws: seq<World>, me: UserId, home: Home, n: nat, c: ChannelId, before: Option<MessageId>, limit: nat)
    requires IsRun(ws, me, home, false) && n !in ws[|ws| - 1].requests
    requires before.Some? ==> before.value <= ws[|ws| - 1].server.last
    requires ws[|ws| - 1].synced || before.Some?
    ensures StaysSound(AskedIn(ws[|ws| - 1], n, c, before, limit), me, home)
  {
    var w := ws[|ws| - 1];
    var v := AskedIn(w, n, c, before, limit);
    assert AskStep(w, v, n, c, before, limit, false);
    forall vs | Continues(v, vs, me, home)
      ensures AllClaimsHold(vs[|vs| - 1], home)
    {
      var all := ws + vs;
      forall i | 0 <= i < |all| - 1
        ensures Next(all[i], all[i + 1], me, home, false)
      {
        if i >= |ws| {
          assert Next(vs[i - |ws|], vs[i - |ws| + 1], me, home, false);
        }
      }
      AskedInTimeIsSound(all, me, home);
    }
  }

  // ---- How an early ask goes wrong ----

  /** The channel's messages to come have no end of ids. */
  ghost predicate HasAbove(home: Home, c: ChannelId, k: MessageId) {
    exists id :: id > k && home(id) == c
  }

  ghost predicate Unbounded(home: Home, c: ChannelId) {
    forall k :: HasAbove(home, c, k)
  }

  const TEXT := Content("hello", false, false, false, None, None, [])

  /** Everything so far is deleted; later, a message is made. */
  function Emptied(s: Server): Server {
    s.(dead := s.dead + s.births.Keys)
  }

  function Born(s: Server, id: MessageId, stamp: Stamp): Server {
    s.(births := s.births[id := stamp], last := id, clock := stamp)
  }

  lemma BornLater(s: Server, id: MessageId, stamp: Stamp, home: Home, c: ChannelId)
    requires ValidServer(s) && id > s.last && stamp > s.clock && home(id) == c
    ensures Later(s, Born(s, id, stamp))
    ensures Alive(Born(s, id, stamp), home, c) == Alive(s, home, c) + {id}
  {
  }

  /** The caller's own row and the channel's, as the first sync brings them. */
  function Joining(me: UserId, c: ChannelId, stamp: Stamp): Batch {
    Batch([RowIn(c, stamp, "")], [MemberIn(c, me, stamp, "")], [], [], [], [], false, map[], [])
  }

  /** Newer than the channel's fence, its row and the caller's row. */
  predicate NewerThanHeld(db: Db, me: UserId, c: ChannelId, stamp: Stamp) {
    && (FloorOf(db, c).Some? ==> FloorOf(db, c).value < stamp)
    && (c in db.channels ==> db.channels[c].stamp < stamp)
    && (Seat(c, me) in db.members ==> db.members[Seat(c, me)].stamp < stamp)
  }

  function Max3(a: int, b: int, c: int): (m: int)
    ensures a <= m && b <= m && c <= m
  {
    var ab := if a < b then b else a;
    if ab < c then c else ab
  }

  function NewStamp(db: Db, me: UserId, c: ChannelId): (stamp: Stamp)
    ensures NewerThanHeld(db, me, c, stamp)
  {
    1 + Max3(
      if c in db.removed then db.removed[c].stamp else 0,
      if c in db.channels then db.channels[c].stamp else 0,
      if Seat(c, me) in db.members then db.members[Seat(c, me)].stamp else 0)
  }

  /** The channel is here, unfenced; nothing else of it moved. */
  predicate Opened(db: Db, after: Db, c: ChannelId) {
    && c in after.channels && FenceOf(after, c) == None && FloorOf(after, c) == FloorOf(db, c)
    && after.messages == db.messages && after.coverage == db.coverage && after.generation == db.generation
  }

  lemma JoiningOps(me: UserId, c: ChannelId, stamp: Stamp)
    ensures Ops(me, Joining(me, c, stamp)) == [OwnMember(MemberIn(c, me, stamp, "")), ChannelRow(RowIn(c, stamp, ""))]
  {
    var m := MemberIn(c, me, stamp, "");
    assert [m][..0] == [];
    assert OwnOps([m], me) == OwnOps([], me) + [OwnMember(m)];
    assert OtherOps([m], me) == OtherOps([], me);
    assert ChannelOps([RowIn(c, stamp, "")]) == [ChannelRow(RowIn(c, stamp, ""))];
  }

  lemma JoiningOpens(db: Db, me: UserId, c: ChannelId, stamp: Stamp)
    requires NewerThanHeld(db, me, c, stamp)
    ensures Opened(db, Applied(db, me, Joining(me, c, stamp)), c)
  {
    JoiningOps(me, c, stamp);
    var m, row := MemberIn(c, me, stamp, ""), RowIn(c, stamp, "");
    RunTwo(db, me, OwnMember(m), ChannelRow(row));
    OwnRowOpens(db, me, m);
    ChannelRowOpens(StepOwnMember(db, m), me, row);
  }

  lemma OwnRowOpens(db: Db, me: UserId, m: MemberIn)
    requires m.user == me && NewerThanHeld(db, me, m.channel, m.stamp)
    ensures
      var after := StepOwnMember(db, m);
      && FenceOf(after, m.channel) == None && FloorOf(after, m.channel) == FloorOf(db, m.channel)
      && after.channels == db.channels && after.messages == db.messages
      && after.coverage == db.coverage && after.generation == db.generation
  {
  }

  lemma ChannelRowOpens(db: Db, me: UserId, row: RowIn)
    requires FenceOf(db, row.id) == None && RowWins(db.channels, row)
    ensures Opened(db, Step(db, me, ChannelRow(row)), row.id)
  {
  }

  /** One live message. */
  function Bringing(id: MessageId, c: ChannelId, stamp: Stamp): Batch {
    Batch([], [], [], [MessageIn(id, c, stamp, TEXT)], [], [], false, map[], [])
  }

  lemma BringingLands(db: Db, me: UserId, id: MessageId, c: ChannelId, stamp: Stamp)
    requires c in db.channels && FenceOf(db, c) == None && id !in db.messages
    requires FloorOf(db, c).Some? ==> FloorOf(db, c).value < stamp
    ensures
      var after := Applied(db, me, Bringing(id, c, stamp));
      && OnlyMessages(db, after)
      && after.messages.Keys == db.messages.Keys + {id}
      && after.messages[id].channel == c && after.messages[id].stamp == stamp
  {
    var d := MessageIn(id, c, stamp, TEXT);
    assert DeliverOps([d], false, map[]) == [Deliver(d, false, None)];
    assert Ops(me, Bringing(id, c, stamp)) == [Deliver(d, false, None)];
    assert [Deliver(d, false, None)][..0] == [];
    assert Run(db, me, [Deliver(d, false, None)]) == Step(Run(db, me, []), me, Deliver(d, false, None));
    DeliverOnlyMessages(db, d, false, None);
    var stored := db.messages[id := StoredMessage(db.messages, d)];
    assert Unquoted(DeliveredMessages(db.messages, d, false)[id]) == Unquoted(stored[id]);
  }

  // ---- The continuation, step by step ----

  /** An early ask, answered while the channel is empty. */
  predicate ReadEmpty(v: World, n: nat, c: ChannelId, home: Home) {
    && !v.synced && v.db.coverage == map[]
    && n in v.requests && Current(v.db, v.requests[n].ask) && v.requests[n].ask.channel == c
    && v.requests[n].ask.before == None && 1 <= v.requests[n].ask.limit
    && v.requests[n].page == Some(Page([], v.server.last))
    && Alive(v.server, home, c) == {}
  }

  lemma ReadWhileEmpty(w: World, me: UserId, home: Home, n: nat, c: ChannelId, limit: nat) returns (vs: seq<World>)
    requires Inv(w, me, home) && !w.synced && n !in w.requests
    ensures Continues(AskedIn(w, n, c, None, limit), vs, me, home)
    ensures
      var v := vs[|vs| - 1];
      ReadEmpty(v, n, c, home) && ValidServer(v.server) && RowsMade(v.db, v.server)
  {
    var v0 := AskedIn(w, n, c, None, limit);
    var v1 := v0.(server := Emptied(v0.server));
    assert ServerStep(v0, v1);
    var v2 := v1.(requests := v1.requests[n := v1.requests[n].(page := Some(Page([], v1.server.last)))]);
    assert Alive(v1.server, home, c) == {};
    assert PageIds([]) == [];
    assert AnswerStep(v1, v2, home, n, []);
    vs := [v0, v1, v2];
    assert forall d :: d in w.db.coverage ==> w.synced;
    assert w.db.coverage == map[];
  }

  lemma Extend(v: World, vs: seq<World>, u: World, me: UserId, home: Home)
    requires Continues(v, vs, me, home) && Next(vs[|vs| - 1], u, me, home, false)
    ensures Continues(v, vs + [u], me, home)
  {
  }

  /** The page has landed as the whole channel; `x` survives above it and isn't cached. */
  predicate MissedOne(v: World, c: ChannelId, home: Home, x: MessageId) {
    && v.synced && v.start(c) == x && x == v.server.last
    && v.db.coverage == map[c := Range(None, None, true)]
    && c in v.db.channels && FenceOf(v.db, c) == None
    && x !in v.db.messages && Alive(v.server, home, c) == {x}
  }

  lemma SyncsState(v: World, u: World, me: UserId, home: Home, c: ChannelId, stamp: Stamp, cursor: nat)
    requires ValidServer(v.server) && !v.synced && v.db.coverage == map[] && cursor <= v.server.clock
    requires u.db == Applied(v.db, me, Joining(me, c, stamp)).(cursor := cursor) && u.db.coverage == map[]
    requires u.server == v.server && u.synced && u.requests == v.requests
    ensures Next(v, u, me, home, false)
  {
    var b := Joining(me, c, stamp);
    assert SettledTops(u.db, cursor) == u.db;
    assert SyncStep(v, u, me, home, b, cursor);
  }

  /** A message follows the answer, and the first completed sync starts the channel there. */
  lemma SyncedAbove(v: World, me: UserId, home: Home, n: nat, c: ChannelId, x: MessageId) returns (vs: seq<World>)
    requires ReadEmpty(v, n, c, home) && ValidServer(v.server) && RowsMade(v.db, v.server)
    requires x > v.server.last && home(x) == c
    ensures Continues(v, vs, me, home)
    ensures
      var u := vs[|vs| - 1];
      && u.synced && u.start(c) == x && u.requests == v.requests && ValidServer(u.server)
      && u.server.last == x && Alive(u.server, home, c) == {x}
      && Opened(v.db, u.db, c) && u.db.coverage == map[] && RowsMade(u.db, u.server) && x !in u.db.messages
  {
    var clock := if v.server.clock < 0 then 1 else v.server.clock + 1;
    var v1 := v.(server := Born(v.server, x, clock));
    BornLater(v.server, x, clock, home, c);
    assert ServerStep(v, v1);
    assert Alive(v1.server, home, c) == {x};
    var stamp := NewStamp(v.db, me, c);
    JoiningOpens(v.db, me, c, stamp);
    var cursor: nat := clock;
    var v2 := v1.(db := Applied(v.db, me, Joining(me, c, stamp)).(cursor := cursor), start := _ => x, synced := true);
    SyncsState(v1, v2, me, home, c, stamp, cursor);
    vs := [v, v1, v2];
  }

  /** The page lands, as the whole channel. */
  lemma LandsAsWhole(v: World, u: World, me: UserId, home: Home, n: nat, c: ChannelId)
    requires n in v.requests && v.requests[n].page.Some? && v.requests[n].page.value.rows == []
    requires v.requests[n].ask.channel == c && v.requests[n].ask.before == None && 1 <= v.requests[n].ask.limit
    requires Current(v.db, v.requests[n].ask) && c in v.db.channels && FenceOf(v.db, c) == None && v.db.coverage == map[]
    requires u == v.(db := v.db.(coverage := map[c := Range(None, None, true)]), requests := v.requests - {n})
    ensures Next(v, u, me, home, false)
  {
    var ask := v.requests[n].ask;
    HistoryOps(me, ask, []);
    assert DeliverOps([], true, map[ask.channel := ask.floor]) == [];
    assert Applied(v.db, me, HistoryBatch(ask, [])) == v.db;
    assert PageIds([]) == [];
    assert RecordedRange(None, ask, []) == Some(Range(None, None, true));
    assert LandStep(v, u, me, n);
  }

  lemma MissesOne(v: World, me: UserId, home: Home, n: nat, c: ChannelId, x: MessageId) returns (vs: seq<World>)
    requires ReadEmpty(v, n, c, home) && ValidServer(v.server) && RowsMade(v.db, v.server)
    requires x > v.server.last && home(x) == c
    ensures Continues(v, vs, me, home)
    ensures
      var u := vs[|vs| - 1];
      MissedOne(u, c, home, x) && ValidServer(u.server) && RowsMade(u.db, u.server)
  {
    vs := SyncedAbove(v, me, home, n, c, x);
    var s := vs[|vs| - 1];
    var u := s.(db := s.db.(coverage := map[c := Range(None, None, true)]), requests := s.requests - {n});
    LandsAsWhole(s, u, me, home, n, c);
    Extend(v, vs, u, me, home);
    vs := vs + [u];
  }

  /** The next message is brought by a sync, and raises the range's top over the one that is missing. */
  lemma SecondSyncRaisesTop(v: World, me: UserId, home: Home, c: ChannelId, x: MessageId, y: MessageId) returns (vs: seq<World>)
    requires MissedOne(v, c, home, x) && ValidServer(v.server) && RowsMade(v.db, v.server)
    requires y > x && home(y) == c
    ensures Continues(v, vs, me, home) && !AllClaimsHold(vs[|vs| - 1], home)
  {
    var stamp := 1 + Max3(v.server.clock, 0, if c in v.db.removed then v.db.removed[c].stamp else 0);
    var v1 := v.(server := Born(v.server, y, stamp));
    BornLater(v.server, y, stamp, home, c);
    assert ServerStep(v, v1);
    BringingLands(v.db, me, y, c, stamp);
    var applied := Applied(v.db, me, Bringing(y, c, stamp)).(cursor := stamp);
    TopIsAbove(applied, c, y, stamp);
    var v2 := v1.(db := SettledTops(applied, stamp));
    SyncBrings(v1, v2, me, home, c, x, y, stamp);
    vs := [v, v1, v2];
    ClaimsMissing(v2, home, c, x);
  }

  lemma ClaimsMissing(v: World, home: Home, c: ChannelId, x: MessageId)
    requires c in v.db.coverage && v.db.coverage[c].complete && v.db.coverage[c].newest.Some? && x <= v.db.coverage[c].newest.value
    requires x in Alive(v.server, home, c) && x !in v.db.messages
    ensures !AllClaimsHold(v, home)
  {
    assert x !in Cached(v.db, home, c);
  }

  lemma TopIsAbove(db: Db, c: ChannelId, y: MessageId, cursor: Stamp)
    requires db.coverage == map[c := Range(None, None, true)]
    requires y in db.messages && db.messages[y].channel == c && 0 < db.messages[y].stamp <= cursor
    ensures
      var settled := SettledTops(db, cursor);
      && settled.messages == db.messages && settled.coverage.Keys == {c}
      && settled.coverage[c].complete && settled.coverage[c].newest.Some? && y <= settled.coverage[c].newest.value
  {
    assert y in Accounted(db.messages, c, cursor);
  }

  lemma SyncBrings(v: World, u: World, me: UserId, home: Home, c: ChannelId, x: MessageId, y: MessageId, stamp: nat)
    requires ValidServer(v.server) && v.synced && v.start(c) == x && v.server.clock == stamp
    requires v.db.coverage == map[c := Range(None, None, true)] && y in v.server.births && v.server.births[y] == stamp && home(y) == c
    requires forall z :: z in Alive(v.server, home, c) ==> z == x || z == y
    requires OnlyMessages(v.db, Applied(v.db, me, Bringing(y, c, stamp))) && y in Applied(v.db, me, Bringing(y, c, stamp)).messages
    requires u == v.(db := SettledTops(Applied(v.db, me, Bringing(y, c, stamp)).(cursor := stamp), stamp))
    ensures Next(v, u, me, home, false)
  {
    assert StartsKept(v, u);
    assert SyncStep(v, u, me, home, Bringing(y, c, stamp), stamp);
  }

  lemma ContinuesOn(v: World, vs: seq<World>, us: seq<World>, me: UserId, home: Home)
    requires Continues(v, vs, me, home) && Continues(vs[|vs| - 1], us, me, home)
    ensures Continues(v, vs + us[1..], me, home) && (vs + us[1..])[|vs + us[1..]| - 1] == us[|us| - 1]
  {
    var all := vs + us[1..];
    forall i | 0 <= i < |all| - 1
      ensures Next(all[i], all[i + 1], me, home, false)
    {
      if i >= |vs| - 1 {
        assert Next(us[i - |vs| + 1], us[i - |vs| + 2], me, home, false);
      }
    }
  }

  /** Whatever the world, if no sync has completed: asking for the newest page leaves a way open for
      coverage to claim a message the cache lacks. */
  lemma EarlyAskGoesWrong(w: World, me: UserId, home: Home, n: nat, c: ChannelId, limit: nat)
    requires Inv(w, me, home) && !w.synced && n !in w.requests && Unbounded(home, c)
    ensures !StaysSound(AskedIn(w, n, c, None, limit), me, home)
  {
    var v0 := AskedIn(w, n, c, None, limit);
    var read := ReadWhileEmpty(w, me, home, n, c, limit);
    var v := read[|read| - 1];
    assert HasAbove(home, c, v.server.last);
    var x :| x > v.server.last && home(x) == c;
    var missed := MissesOne(v, me, home, n, c, x);
    assert HasAbove(home, c, x);
    var y :| y > x && home(y) == c;
    var risen := SecondSyncRaisesTop(missed[|missed| - 1], me, home, c, x, y);
    ContinuesOn(v0, read, missed, me, home);
    ContinuesOn(v0, read + missed[1..], risen, me, home);
  }

  /** Asking for a page keeps coverage sound, whatever happens afterwards, exactly if a sync has
      completed since the store was made or reset, or the page isn't the newest one. */
  lemma AskStaysSoundIff(ws: seq<World>, me: UserId, home: Home, n: nat, c: ChannelId, before: Option<MessageId>, limit: nat)
    requires IsRun(ws, me, home, false) && n !in ws[|ws| - 1].requests
    requires before.Some? ==> before.value <= ws[|ws| - 1].server.last
    requires Unbounded(home, c)
    ensures StaysSound(AskedIn(ws[|ws| - 1], n, c, before, limit), me, home) <==> ws[|ws| - 1].synced || before.Some?
  {
    if ws[|ws| - 1].synced || before.Some? {
      InTimeStaysSound(ws, me, home, n, c, before, limit);
    } else {
      GuardedRun(ws, me, home);
      EarlyAskGoesWrong(ws[|ws| - 1], me, home, n, c, limit);
    }
  }
}
