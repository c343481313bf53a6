/** What follows from sound coverage: pages the cache answers by itself have no gap, and a history
    page lands only if nothing it depends on was removed or reset since it was asked for. */
module CoverageTheorems {
  import opened Tables
  import opened Apply
  import opened ApplyInvariants
  import opened Coverage
  import opened History
  import opened CoverageRuns

  // ---- Pages without a gap ----

  lemma {:induction false} FirstLiveIsNewest(messages: map<MessageId, Message>, page: seq<MessageId>)
    requires AllStored(messages, page) && Descending(page)
    ensures forall i :: 0 <= i < |page| && !Gone(messages[page[i]].content) ==>
      FirstLive(messages, page).Some? && page[i] <= FirstLive(messages, page).value
  {
    if page != [] && Gone(messages[page[0]].content) {
      FirstLiveIsNewest(messages, page[1..]);
      forall i | 0 <= i < |page| && !Gone(messages[page[i]].content)
        ensures FirstLive(messages, page).Some? && page[i] <= FirstLive(messages, page).value
      {
        assert page[i] == page[1..][i - 1];
      }
    }
  }

  /** What a page answered from the cache promises: no surviving message is missing between its
      edges, and nothing live on it lies above what is covered. */
  ghost predicate GapFree(r: Range, alive: set<MessageId>, messages: map<MessageId, Message>,
                          before: Option<MessageId>, limit: nat, page: seq<MessageId>)
    requires AllStored(messages, page)
  {
    && (forall y ::
          ((y in alive && r.newest.Some? && y <= r.newest.value && (before.Some? ==> y < before.value)
            && (|page| < limit || (page != [] && page[|page| - 1] <= y)))
           ==> y in page))
    && (before.Some? ==> r.newest.Some? && before.value <= r.newest.value)
    && (before.None? ==> forall i ::
          (0 <= i < |page| && !Gone(messages[page[i]].content) ==> r.newest.Some? && page[i] <= r.newest.value))
  }

  /** When a page doesn't need the network, it has no gap. */
  lemma AnsweredPagesHaveNoGap(ws: seq<World>, me: UserId, home: Home, c: ChannelId, before: Option<MessageId>, limit: nat, page: seq<MessageId>)
    requires IsRun(ws, me, home, true) && RunsTimely(ws, me)
    requires
      var db := ws[|ws| - 1].db;
      && NewestOf(Matching(db.messages, c, before), limit, page) && AllStored(db.messages, page)
      && !NeedsNetwork(db.messages, Held(db.coverage, c), before, limit, page)
    ensures
      var w := ws[|ws| - 1];
      && c in w.db.coverage
      && GapFree(w.db.coverage[c], Alive(w.server, home, c), w.db.messages, before, limit, page)
  {
    var w := ws[|ws| - 1];
    var r := w.db.coverage[c];
    RunKeeps(ws, me, home);
    FirstLiveIsNewest(w.db.messages, page);
    forall y | y in Alive(w.server, home, c) && r.newest.Some? && y <= r.newest.value && (before.Some? ==> y < before.value)
        && (|page| < limit || (page != [] && page[|page| - 1] <= y))
      ensures y in page
    {
      assert r.complete || (r.oldest.Some? && r.oldest.value <= y);
      assert y in Cached(w.db, home, c);
      assert y in Matching(w.db.messages, c, before);
      if |page| < limit {
        assert y in IdSet(page);
      }
    }
  }

  // ---- A page lands only if nothing was removed or reset since ----

  /** A removal that takes effect raises the floor of its channel. */
  lemma RemovalRaises(db: Db, me: UserId, r: RemovedIn)
    requires !RemovalStale(db, me, r)
    ensures
      var after := StepRemove(db, me, r);
      && FloorOf(after, r.channel).Some?
      && (FloorOf(db, r.channel).Some? ==> FloorOf(db, r.channel).value < FloorOf(after, r.channel).value)
  {
  }

  ghost predicate Rises(db: Db, db': Db) {
    && db.generation <= db'.generation
    && (db.generation == db'.generation ==> forall c :: FloorRises(db, db', c))
  }

  lemma {:induction false} RunRises(db: Db, me: UserId, ops: seq<Op>)
    ensures Rises(db, Run(db, me, ops)) && Run(db, me, ops).generation == db.generation
  {
    if ops != [] {
      var rest, last := ops[..|ops| - 1], ops[|ops| - 1];
      var before := Run(db, me, rest);
      RunRises(db, me, rest);
      StepRises(before, me, last);
      forall c
        ensures FloorRises(db, Run(db, me, ops), c)
      {
        assert FloorRises(db, before, c) && FloorRises(before, Step(before, me, last), c);
      }
    }
  }

  lemma StepRises(db: Db, me: UserId, op: Op)
    ensures Step(db, me, op).generation == db.generation
    ensures forall c :: FloorRises(db, Step(db, me, op), c)
  {
    match op
    case Deliver(d, history, asked) => DeliverOnlyMessages(db, d, history, asked);
    case Bury(t) => BuryOnlyMessages(db, t);
    case _ =>
  }

  lemma BatchRises(db: Db, db': Db, me: UserId, b: Batch)
    requires db'.removed == Applied(db, me, b).removed && db'.generation == Applied(db, me, b).generation
    ensures Rises(db, db')
  {
    RunRises(db, me, Ops(me, b));
    forall c
      ensures FloorRises(db, db', c)
    {
      assert FloorRises(db, Applied(db, me, b), c);
    }
  }

  lemma NextRises(w: World, w': World, me: UserId, home: Home)
    requires Next(w, w', me, home, true)
    ensures Rises(w.db, w'.db)
  {
    if b, cursor :| ApplyStep(w, w', me, home, b, cursor) {
      BatchRises(w.db, w'.db, me, b);
    } else if b, cursor :| SyncStep(w, w', me, home, b, cursor) {
      BatchRises(w.db, w'.db, me, b);
    } else if n :| LandStep(w, w', me, n) {
      if w.db.generation == w.requests[n].ask.generation {
        BatchRises(w.db, w'.db, me, HistoryBatch(w.requests[n].ask, w.requests[n].page.value.rows));
      }
    }
  }

  /** Floors rise within a generation and generations rise: if a request is current again, it was
      current all along. */
  lemma CurrentThroughout(ws: seq<World>, me: UserId, home: Home, ask: Ask, i: nat, j: nat)
    requires IsRun(ws, me, home, true) && i <= j < |ws|
    requires Current(ws[i].db, ask) && Current(ws[j].db, ask)
    ensures forall k :: i <= k <= j ==> Current(ws[k].db, ask)
  {
    forall k | i <= k <= j
      ensures Current(ws[k].db, ask)
    {
      RisesBetween(ws, me, home, i, k, ask.channel);
      RisesBetween(ws, me, home, k, j, ask.channel);
      Squeezed(ws[i].db, ws[k].db, ws[j].db, ask);
    }
  }

  lemma Squeezed(a: Db, b: Db, c: Db, ask: Ask)
    requires Current(a, ask) && Current(c, ask)
    requires a.generation <= b.generation <= c.generation
    requires a.generation == b.generation ==> FloorRises(a, b, ask.channel)
    requires b.generation == c.generation ==> FloorRises(b, c, ask.channel)
    ensures Current(b, ask)
  {
  }

  lemma {:induction false} RisesBetween(ws: seq<World>, me: UserId, home: Home, i: nat, j: nat, c: ChannelId)
    requires IsRun(ws, me, home, true) && i <= j < |ws|
    ensures ws[i].db.generation <= ws[j].db.generation
    ensures ws[i].db.generation == ws[j].db.generation ==> FloorRises(ws[i].db, ws[j].db, c)
    decreases j - i
  {
    if i < j {
      assert Next(ws[i], ws[i + 1], me, home, true);
      NextRises(ws[i], ws[i + 1], me, home);
      RisesBetween(ws, me, home, i + 1, j, c);
      assert ws[i].db.generation == ws[i + 1].db.generation ==> FloorRises(ws[i].db, ws[i + 1].db, c);
    }
  }

  lemma {:induction false} SupersededChangesNothing(db: Db, me: UserId, ask: Ask, rows: seq<MessageIn>)
    requires FloorOf(db, ask.channel) != ask.floor
    requires forall d :: d in rows ==> d.channel == ask.channel
    ensures Run(db, me, DeliverOps(rows, true, map[ask.channel := ask.floor])) == db
  {
    if rows != [] {
      var floors := map[ask.channel := ask.floor];
      var rest := rows[..|rows| - 1];
      SupersededChangesNothing(db, me, ask, rest);
      assert DeliverOps(rows, true, floors)[..|rows| - 1] == DeliverOps(rest, true, floors);
      assert rows[|rows| - 1] in rows;
    }
  }

  /** A page that isn't current any more changes neither rows nor coverage. */
  lemma StalePageChangesNothing(db: Db, me: UserId, ask: Ask, rows: seq<MessageIn>)
    requires forall d :: d in rows ==> d.channel == ask.channel
    requires !Current(db, ask)
    ensures Landed(db, me, ask, rows) == db
  {
    if db.generation == ask.generation {
      HistoryOps(me, ask, rows);
      SupersededChangesNothing(db, me, ask, rows);
    }
  }

  /** A history page asked for in `ws[i]` changes anything when it lands in `ws[j]` only if, at every
      moment between, the generation and the channel's floor were those it was asked under: no reset
      and no removal of its channel took effect. */
  lemma PagesLandOnlyUntouched(ws: seq<World>, me: UserId, home: Home, c: ChannelId, before: Option<MessageId>, limit: nat, i: nat, j: nat, rows: seq<MessageIn>)
    requires IsRun(ws, me, home, true) && i <= j < |ws|
    requires forall d :: d in rows ==> d.channel == c
    requires Landed(ws[j].db, me, Asked(ws[i].db, c, before, limit), rows) != ws[j].db
    ensures forall k :: i <= k <= j ==>
      ws[k].db.generation == ws[i].db.generation && FloorOf(ws[k].db, c) == FloorOf(ws[i].db, c)
  {
    var ask := Asked(ws[i].db, c, before, limit);
    if !Current(ws[j].db, ask) {
      StalePageChangesNothing(ws[j].db, me, ask, rows);
    } else {
      CurrentThroughout(ws, me, home, ask, i, j);
      assert forall k :: i <= k <= j ==> Current(ws[k].db, ask);
    }
  }
}
