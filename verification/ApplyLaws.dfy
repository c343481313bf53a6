/** What each row operation does to the tables, row by row, and what a removal in a batch leaves. Said
    of the tables themselves: of none of the functions that compute it. */
module ApplyLaws {
  import opened Tables
  import opened FileRows
  import opened Apply
  import opened CoverageRuns
  import opened CoverageTheorems

  // ---- Removals ----

  /** No active row of the caller's in the channel is as new as the removal, and no earlier removal. */
  predicate Removes(db: Db, me: UserId, r: RemovedIn) {
    var k := Seat(r.channel, me);
    && (k in db.members && !db.members[k].left ==> db.members[k].stamp < r.stamp)
    && (r.channel in db.removed ==> db.removed[r.channel].stamp < r.stamp)
  }

  /** Nothing of the channel is left, and everything else stays. */
  ghost predicate ChannelGone(db: Db, after: Db, c: ChannelId) {
    && c !in after.channels && c !in after.coverage
    && (forall k :: k in after.members ==> k.channel != c)
    && (forall id :: id in after.messages ==> after.messages[id].channel != c)
    && (forall f :: f in after.fileTables.listings ==> after.fileTables.listings[f].channel != c)
    && (forall d :: d != c ==>
          && (d in after.channels <==> d in db.channels) && (d in db.channels ==> after.channels[d] == db.channels[d])
          && (d in after.coverage <==> d in db.coverage) && (d in db.coverage ==> after.coverage[d] == db.coverage[d])
          && (d in after.removed <==> d in db.removed) && (d in db.removed ==> after.removed[d] == db.removed[d]))
    && (forall k :: k in db.members && k.channel != c ==> k in after.members && after.members[k] == db.members[k])
    && (forall id :: id in db.messages && db.messages[id].channel != c ==>
          id in after.messages && after.messages[id] == db.messages[id])
    && after.users == db.users
  }

  lemma RemovalTakesEffect(db: Db, me: UserId, r: RemovedIn)
    ensures
      var after := Step(db, me, Remove(r));
      if Removes(db, me, r)
      then r.channel in after.removed && after.removed[r.channel] == Removal(r.stamp, true) && ChannelGone(db, after, r.channel)
      else after == db
  {
  }

  /** The caller's active row in the channel, wherever it came from, is below the removal. */
  predicate OwnBelow(db: Db, me: UserId, r: RemovedIn) {
    var k := Seat(r.channel, me);
    k in db.members && !db.members[k].left ==> db.members[k].stamp < r.stamp
  }

  lemma OwnRowsStayBelow(db: Db, me: UserId, op: Op, r: RemovedIn)
    requires OwnBelow(db, me, r) && (op.OwnMember? || op.Remove?)
    requires op.OwnMember? && op.m.user == me && op.m.channel == r.channel ==> op.m.stamp < r.stamp
    ensures OwnBelow(Step(db, me, op), me, r)
  {
    if op.Remove? {
      RemovalTakesEffect(db, me, op.r);
    }
  }

  lemma {:induction false} OwnPhasesStayBelow(db: Db, me: UserId, ops: seq<Op>, r: RemovedIn)
    requires OwnBelow(db, me, r)
    requires forall op :: op in ops ==>
      (op.OwnMember? || op.Remove?) && (op.OwnMember? && op.m.channel == r.channel ==> op.m.stamp < r.stamp)
    ensures OwnBelow(Run(db, me, ops), me, r)
  {
    if ops != [] {
      OwnPhasesStayBelow(db, me, ops[..|ops| - 1], r);
      OwnRowsStayBelow(Run(db, me, ops[..|ops| - 1]), me, ops[|ops| - 1], r);
    }
  }

  lemma {:induction false} OwnOpsAre(ms: seq<MemberIn>, me: UserId)
    ensures forall op :: op in OwnOps(ms, me) ==> op.OwnMember? && op.m in ms && op.m.user == me
  {
    if ms != [] {
      OwnOpsAre(ms[..|ms| - 1], me);
    }
  }

  /** A removal that isn't below the caller's rows leaves a floor of at least its stamp. */
  lemma RemovalRaisesFloor(db: Db, me: UserId, r: RemovedIn)
    requires OwnBelow(db, me, r)
    ensures
      var after := Step(db, me, Remove(r));
      r.channel in after.removed && r.stamp <= after.removed[r.channel].stamp
  {
    RemovalTakesEffect(db, me, r);
  }

  /** A removal in a batch, above the caller's stored row and the batch's own rows, holds: the floor is
      at least its stamp afterwards, whatever else the batch brings. */
  lemma RemovalInBatchHolds(db: Db, me: UserId, b: Batch, i: nat)
    requires i < |b.removed| && OwnBelow(db, me, b.removed[i])
    requires forall m :: m in b.memberships && m.user == me && m.channel == b.removed[i].channel ==>
      m.stamp < b.removed[i].stamp
    ensures
      var after, r := Applied(db, me, b), b.removed[i];
      r.channel in after.removed && r.stamp <= after.removed[r.channel].stamp
  {
    var r := b.removed[i];
    var own, removals := OwnOps(b.memberships, me), RemoveOps(b.removed);
    var before := own + removals[..i];
    var rest := removals[i + 1..] + ChannelOps(b.channels) + OtherOps(b.memberships, me) + DepartOps(b.left)
      + UserOps(b.users) + DeliverOps(b.messages, b.history, b.floors) + BuryOps(b.tombstones);
    assert Ops(me, b) == before + [Remove(r)] + rest by {
      assert removals == removals[..i] + [Remove(r)] + removals[i + 1..];
    }
    OwnOpsAre(b.memberships, me);
    OwnPhasesStayBelow(db, me, before, r);
    RunAppend(db, me, before, [Remove(r)]);
    RunAppend(db, me, before + [Remove(r)], rest);
    var removed := Run(db, me, before + [Remove(r)]);
    assert [Remove(r)][..0] == [];
    assert removed == Step(Run(db, me, before), me, Remove(r));
    RemovalRaisesFloor(Run(db, me, before), me, r);
    RunRises(removed, me, rest);
    assert FloorRises(removed, Run(removed, me, rest), r.channel);
  }

  // ---- Rows through the guards ----

  /** At or below an active removal. */
  predicate Behind(db: Db, c: ChannelId, stamp: Stamp) {
    c in db.removed && db.removed[c].active && stamp <= db.removed[c].stamp
  }

  /** A membership row that is new or newer, and not behind a removal, is stored as present; the
      caller's own lifts the removal, which stays as a floor. Nothing else changes. */
  lemma MembershipLands(db: Db, me: UserId, m: MemberIn)
    ensures
      var k, own := Seat(m.channel, m.user), Step(db, me, OwnMember(m));
      if Behind(db, m.channel, m.stamp) || (k in db.members && m.stamp <= db.members[k].stamp)
      then own == db && Step(db, me, OtherMember(m)) == db
      else
        && own.members == db.members[k := Member(m.stamp, false, m.json)]
        && own.removed.Keys == db.removed.Keys
        && (forall c :: c in db.removed ==>
              own.removed[c] == Removal(db.removed[c].stamp, db.removed[c].active && c != m.channel))
        && own == db.(members := own.members, removed := own.removed)
        && Step(db, me, OtherMember(m)) == db.(members := own.members)
  {
  }

  lemma ChannelRowLands(db: Db, me: UserId, r: RowIn)
    ensures Step(db, me, ChannelRow(r)) ==
      if Behind(db, r.id, r.stamp) || (r.id in db.channels && r.stamp <= db.channels[r.id].stamp) then db
      else db.(channels := db.channels[r.id := Row(r.stamp, r.json)])
  {
  }

  lemma UserRowLands(db: Db, me: UserId, r: RowIn)
    ensures Step(db, me, UserRow(r)) ==
      if r.id in db.users && r.stamp <= db.users[r.id].stamp then db
      else db.(users := db.users[r.id := Row(r.stamp, r.json)])
  {
  }

  /** A departure not older than the member's row is remembered with its stamp, also of a member never
      cached; an older one changes nothing. */
  lemma DepartureLands(db: Db, me: UserId, l: LeftIn)
    ensures
      var k, after := Seat(l.channel, l.user), Step(db, me, Depart(l));
      && after == db.(members := after.members) && after.members.Keys == db.members.Keys + {k}
      && (forall o :: o in db.members && o != k ==> after.members[o] == db.members[o])
      && (k !in db.members || db.members[k].stamp < l.stamp ==> after.members[k].left && after.members[k].stamp == l.stamp)
      && (k in db.members && l.stamp <= db.members[k].stamp ==> after.members[k] == db.members[k])
  {
  }

  // ---- Messages ----

  /** The tables take a row of this channel at this stamp. */
  predicate Takes(db: Db, c: ChannelId, stamp: Stamp, history: bool) {
    && c in db.channels && !Behind(db, c, stamp)
    && (history || c !in db.removed || stamp > db.removed[c].stamp)
  }

  predicate Newer(db: Db, d: MessageIn) {
    || d.id !in db.messages || d.stamp > db.messages[d.id].stamp
    || (d.stamp == db.messages[d.id].stamp && db.messages[d.id].content.partial)
  }

  predicate Delivers(db: Db, d: MessageIn, history: bool, asked: Option<Stamp>) {
    && (history ==> asked == if d.channel in db.removed then Some(db.removed[d.channel].stamp) else None)
    && Takes(db, d.channel, d.stamp, history) && Newer(db, d)
  }

  lemma DeliveredIn(messages: map<MessageId, Message>, d: MessageIn, history: bool)
    ensures
      var after := DeliveredMessages(messages, d, history);
      && after.Keys == messages.Keys + {d.id}
      && after[d.id].stamp == d.stamp
      && after[d.id].channel == (if d.id in messages then messages[d.id].channel else d.channel)
      && after[d.id].content.(quote := None) == d.content.(quote := None)
  {
    var stored := messages[d.id := StoredMessage(messages, d)];
    assert Unquoted(DeliveredMessages(messages, d, history)[d.id]) == Unquoted(stored[d.id]);
  }

  /** The message's own row: its content but for what it quotes, and a new one's channel. */
  lemma DeliveredRow(db: Db, me: UserId, d: MessageIn, history: bool, asked: Option<Stamp>)
    ensures
      var after := Step(db, me, Deliver(d, history, asked));
      if !Delivers(db, d, history, asked) then after == db
      else
        && after.messages.Keys == db.messages.Keys + {d.id}
        && after.messages[d.id].stamp == d.stamp
        && after.messages[d.id].channel == (if d.id in db.messages then db.messages[d.id].channel else d.channel)
        && after.messages[d.id].content.(quote := None) == d.content.(quote := None)
  {
    DeliveredIn(db.messages, d, history);
  }

  /** A reply that quotes this message. */
  predicate RepliesTo(m: Message, id: MessageId) {
    m.content.replyTo == Some(id) && m.content.quote.Some?
  }

  function FirstChars(body: string): (s: string)
    ensures |s| <= 140 && s <= body && (|body| <= 140 ==> s == body) && (|body| > 140 ==> |s| == 140)
  {
    if |body| <= 140 then body else body[..140]
  }

  /** Other rows stay, but for the quote of a reply: deleted with the target, its text with a live or
      synced edit, and untouched by a history row. */
  lemma DeliveredQuotes(db: Db, me: UserId, d: MessageIn, history: bool, asked: Option<Stamp>, id: MessageId)
    requires Delivers(db, d, history, asked) && id in db.messages && id != d.id
    ensures
      var was, now := db.messages[id], Step(db, me, Deliver(d, history, asked)).messages[id];
      if !RepliesTo(was, d.id) then now == was
      else if d.content.deletedAt then now == was.(content := was.content.(quote := Some(DELETED_QUOTE)))
      else if !history then
        now == was.(content := was.content.(quote := Some(was.content.quote.value.(body := FirstChars(d.content.body)))))
      else now == was
  {
  }

  /** Refreshing the replies to a row leaves the row alone. */
  lemma RefreshLeaves(stored: map<MessageId, Message>, id: MessageId, body: Option<string>, other: MessageId)
    requires id in stored && stored[id].content.replyTo != Some(id)
    ensures
      var after := RefreshedExcerpts(stored, id, body);
      && after[id] == stored[id] && after.Keys == stored.Keys
      && (other in stored ==> Gone(after[other].content) == Gone(stored[other].content))
  {
    assert other in stored ==> Unquoted(RefreshedExcerpts(stored, id, body)[other]) == Unquoted(stored[other]);
  }

  lemma OwnQuoteIn(messages: map<MessageId, Message>, d: MessageIn, history: bool)
    requires d.content.replyTo != Some(d.id)
    ensures
      var c, now := d.content, DeliveredMessages(messages, d, history)[d.id].content;
      if c.quote.Some? && c.replyTo.Some? && c.replyTo.value in messages
        && (messages[c.replyTo.value].content.deleted || messages[c.replyTo.value].content.deletedAt)
      then now.quote == Some(DELETED_QUOTE)
      else now.quote == c.quote
  {
    var stored := messages[d.id := StoredMessage(messages, d)];
    var target := if d.content.replyTo.Some? then d.content.replyTo.value else d.id;
    RefreshLeaves(stored, d.id, None, target);
    RefreshLeaves(stored, d.id, Some(d.content.body), target);
  }

  /** Its own quote: the deleted one if its target is stored and deleted, else as it came. */
  lemma DeliveredOwnQuote(db: Db, me: UserId, d: MessageIn, history: bool, asked: Option<Stamp>)
    requires Delivers(db, d, history, asked) && d.content.replyTo != Some(d.id)
    ensures
      var c, now := d.content, Step(db, me, Deliver(d, history, asked)).messages[d.id].content;
      if c.quote.Some? && c.replyTo.Some? && c.replyTo.value in db.messages
        && (db.messages[c.replyTo.value].content.deleted || db.messages[c.replyTo.value].content.deletedAt)
      then now.quote == Some(DELETED_QUOTE)
      else now.quote == c.quote
  {
    assert Step(db, me, Deliver(d, history, asked)).messages == DeliveredMessages(db.messages, d, history);
    OwnQuoteIn(db.messages, d, history);
  }

  /** A live delete: a newer one empties the stored row, keeping its channel and reply target; a message
      never seen leaves an empty deleted row. */
  lemma BuriedRow(db: Db, me: UserId, t: TombstoneIn)
    ensures
      var after := Step(db, me, Bury(t));
      if !Takes(db, t.channel, t.stamp, false) then after == db
      else
        && after.messages.Keys == db.messages.Keys + {t.id}
        && var m := after.messages[t.id];
        && (t.id !in db.messages ==>
              m == Message(t.channel, t.stamp, Content("", false, true, true, None, None, [])))
        && (t.id in db.messages && db.messages[t.id].stamp < t.stamp ==>
              && m.channel == db.messages[t.id].channel && m.stamp == t.stamp
              && m.content == db.messages[t.id].content.(body := "", deleted := true, partial := true, quote := None, files := []))
        && (t.id in db.messages && t.stamp <= db.messages[t.id].stamp ==>
              m.content.(quote := None) == db.messages[t.id].content.(quote := None) && m.stamp == db.messages[t.id].stamp)
  {
    if Takes(db, t.channel, t.stamp, false) {
      assert Unquoted(BuriedMessages(db.messages, t)[t.id]) == Unquoted(Entombed(db.messages, t)[t.id]);
    }
  }

  lemma BuriedQuotes(db: Db, me: UserId, t: TombstoneIn, id: MessageId)
    requires Takes(db, t.channel, t.stamp, false) && id in db.messages && id != t.id
    ensures
      var was, now := db.messages[id], Step(db, me, Bury(t)).messages[id];
      now == if RepliesTo(was, t.id) then was.(content := was.content.(quote := Some(DELETED_QUOTE))) else was
  {
  }

  // ---- The file index ----

  /** These files' rows go and are journalled; no other row or entry moves. */
  ghost predicate FilesDropped(t: FileTables, after: FileTables, gone: iset<FileId>) {
    && (forall f :: f in after.files <==> f in t.files && f !in gone)
    && (forall f :: f in after.files ==> after.files[f] == t.files[f])
    && (forall f :: f in after.deletions <==> f in t.deletions || (f in t.files && f in gone))
  }

  /** A message lists exactly these files: each is indexed under it, no other is; the files it stops
      listing are dropped, and no other message's entry moves. */
  lemma MessageIndexed(t: FileTables, message: MessageId, channel: ChannelId, now: seq<FileId>)
    ensures
      var after := IndexedMessage(t, message, channel, now);
      && (forall f :: f in now ==> f in after.listings && after.listings[f] == Listing(message, channel))
      && (forall f :: f in after.listings && after.listings[f].message == message ==> f in now)
      && (forall f :: f !in now ==>
            (f in after.listings <==> f in t.listings && t.listings[f].message != message))
      && (forall f :: f !in now && f in after.listings ==> after.listings[f] == t.listings[f])
      && FilesDropped(t, after, iset f | f in t.listings && t.listings[f].message == message && f !in now)
  {
  }

  lemma MessageUnindexed(t: FileTables, message: MessageId)
    ensures
      var after := DroppedMessage(t, message);
      && (forall f :: f in after.listings <==> f in t.listings && t.listings[f].message != message)
      && (forall f :: f in after.listings ==> after.listings[f] == t.listings[f])
      && FilesDropped(t, after, iset f | f in t.listings && t.listings[f].message == message)
  {
  }

  lemma ChannelUnindexed(t: FileTables, channel: ChannelId)
    ensures
      var after := DroppedChannel(t, channel);
      && (forall f :: f in after.listings <==> f in t.listings && t.listings[f].channel != channel)
      && (forall f :: f in after.listings ==> after.listings[f] == t.listings[f])
      && FilesDropped(t, after, iset f | f in t.listings && t.listings[f].channel == channel)
  {
  }

  lemma AllUnindexed(t: FileTables)
    ensures DroppedAll(t).listings == map[] && FilesDropped(t, DroppedAll(t), iset f | f in t.listings || f in t.files)
  {
  }

  lemma DeliveryMovesFiles(db: Db, me: UserId, d: MessageIn, history: bool, asked: Option<Stamp>)
    ensures Step(db, me, Deliver(d, history, asked)).fileTables ==
      if Delivers(db, d, history, asked) then IndexedMessage(db.fileTables, d.id, d.channel, d.content.files) else db.fileTables
  {
  }

  lemma RemovalMovesFiles(db: Db, me: UserId, r: RemovedIn)
    ensures Step(db, me, Remove(r)).fileTables ==
      if Removes(db, me, r) then DroppedChannel(db.fileTables, r.channel) else db.fileTables
  {
  }

  /** A message row that goes in is indexed; a live delete and a removal take the files along. */
  lemma RowsMoveFiles(db: Db, me: UserId, op: Op)
    ensures
      var t, after := db.fileTables, Step(db, me, op).fileTables;
      match op
      case Deliver(d, history, asked) =>
        after == if Delivers(db, d, history, asked) then IndexedMessage(t, d.id, d.channel, d.content.files) else t
      case Bury(b) => after == if Takes(db, b.channel, b.stamp, false) then DroppedMessage(t, b.id) else t
      case Remove(r) => after == if Removes(db, me, r) then DroppedChannel(t, r.channel) else t
      case _ => after == t
  {
    match op
    case Deliver(d, history, asked) => DeliveryMovesFiles(db, me, d, history, asked);
    case Remove(r) => RemovalMovesFiles(db, me, r);
    case _ =>
  }

  // ---- A batch's rows ----

  /** Every row of a batch is applied, each by its own kind of operation, and nothing else is. */
  lemma EveryRowIsApplied(me: UserId, b: Batch, op: Op)
    ensures op in Ops(me, b) <==>
      match op
      case OwnMember(m) => m in b.memberships && m.user == me
      case Remove(r) => r in b.removed
      case ChannelRow(row) => row in b.channels
      case OtherMember(o) => o in b.memberships && o.user != me
      case Depart(l) => l in b.left
      case UserRow(u) => u in b.users
      case Deliver(d, history, asked) =>
        d in b.messages && history == b.history && asked == (if d.channel in b.floors then b.floors[d.channel] else None)
      case Bury(t) => t in b.tombstones
  {
    MemberOpsAre(b.memberships, me, op);
    RowOpsAre(b, op);
  }

  lemma {:induction false} MemberOpsAre(ms: seq<MemberIn>, me: UserId, op: Op)
    ensures op in OwnOps(ms, me) <==> op.OwnMember? && op.m in ms && op.m.user == me
    ensures op in OtherOps(ms, me) <==> op.OtherMember? && op.o in ms && op.o.user != me
  {
    if ms != [] {
      MemberOpsAre(ms[..|ms| - 1], me, op);
      assert ms == ms[..|ms| - 1] + [ms[|ms| - 1]];
    }
  }

  lemma RowOpsAre(b: Batch, op: Op)
    ensures op in RemoveOps(b.removed) <==> op.Remove? && op.r in b.removed
    ensures op in ChannelOps(b.channels) <==> op.ChannelRow? && op.row in b.channels
    ensures op in DepartOps(b.left) <==> op.Depart? && op.l in b.left
    ensures op in UserOps(b.users) <==> op.UserRow? && op.u in b.users
    ensures op in BuryOps(b.tombstones) <==> op.Bury? && op.t in b.tombstones
    ensures op in DeliverOps(b.messages, b.history, b.floors) <==>
      op.Deliver? && op.d in b.messages && op.history == b.history && op.asked == AskedFloor(b.floors, op.d.channel)
  {
    assert forall i :: 0 <= i < |b.removed| ==> RemoveOps(b.removed)[i].r == b.removed[i];
    assert forall i :: 0 <= i < |b.channels| ==> ChannelOps(b.channels)[i].row == b.channels[i];
    assert forall i :: 0 <= i < |b.left| ==> DepartOps(b.left)[i].l == b.left[i];
    assert forall i :: 0 <= i < |b.users| ==> UserOps(b.users)[i].u == b.users[i];
    assert forall i :: 0 <= i < |b.tombstones| ==> BuryOps(b.tombstones)[i].t == b.tombstones[i];
    assert forall i :: 0 <= i < |b.messages| ==> DeliverOps(b.messages, b.history, b.floors)[i].d == b.messages[i];
  }
}
