/** core/src/apply.rs: the one way rows enter the cache. A batch is applied as a sequence of row
    operations in a fixed order: the caller's memberships, removals, everything else through the
    per-row guard, messages, live deletes. `Step` says what one operation does to the tables;
    `Apply` is the loops over the batch's vectors, proved to do exactly `Run(_, me, Ops(me, b))`. */
module Apply {
  import opened Tables
  import opened FileRows

  datatype RowIn = RowIn(id: int, stamp: Stamp, json: Json)
  datatype MemberIn = MemberIn(channel: ChannelId, user: UserId, stamp: Stamp, json: Json)
  datatype MessageIn = MessageIn(id: MessageId, channel: ChannelId, stamp: Stamp, content: Content)
  datatype RemovedIn = RemovedIn(channel: ChannelId, stamp: Stamp)
  datatype LeftIn = LeftIn(channel: ChannelId, user: UserId, stamp: Stamp)
  datatype TombstoneIn = TombstoneIn(id: MessageId, channel: ChannelId, stamp: Stamp)

  /** Rows from one source, applied together. `floors`: each channel's removal floor as read when
      a history page was asked for. */
  datatype Batch = Batch(
    channels: seq<RowIn>, memberships: seq<MemberIn>, users: seq<RowIn>, messages: seq<MessageIn>,
    removed: seq<RemovedIn>, left: seq<LeftIn>,
    history: bool, floors: map<ChannelId, Option<Stamp>>,
    tombstones: seq<TombstoneIn>)

  /** One row operation, with what it needs to know of its batch. `asked`: for a history row, the
      floor its page was asked under. */
  datatype Op =
    | OwnMember(m: MemberIn)
    | Remove(r: RemovedIn)
    | ChannelRow(row: RowIn)
    | OtherMember(o: MemberIn)
    | Depart(l: LeftIn)
    | UserRow(u: RowIn)
    | Deliver(d: MessageIn, history: bool, asked: Option<Stamp>)
    | Bury(t: TombstoneIn)

  // ---- What each operation does ----

  function FloorOf(db: Db, c: ChannelId): Option<Stamp> {
    if c in db.removed then Some(db.removed[c].stamp) else None
  }

  function FenceOf(db: Db, c: ChannelId): Option<Stamp> {
    if c in db.removed && db.removed[c].active then Some(db.removed[c].stamp) else None
  }

  predicate Fenced(db: Db, c: ChannelId, stamp: Stamp) {
    FenceOf(db, c).Some? && stamp <= FenceOf(db, c).value
  }

  /** Whether a message row may be stored for this channel. */
  predicate MayLand(db: Db, c: ChannelId, stamp: Stamp, history: bool) {
    && c in db.channels
    && !Fenced(db, c, stamp)
    && (history || !(FloorOf(db, c).Some? && stamp <= FloorOf(db, c).value))
  }

  /** The per-row guard on memberships: true if the row goes in. */
  predicate MemberWins(db: Db, m: MemberIn) {
    Seat(m.channel, m.user) !in db.members || m.stamp > db.members[Seat(m.channel, m.user)].stamp
  }

  function Joined(db: Db, m: MemberIn): Db {
    db.(members := db.members[Seat(m.channel, m.user) := Member(m.stamp, false, m.json)])
  }

  predicate RowWins(table: map<int, Row>, r: RowIn) {
    r.id !in table || r.stamp > table[r.id].stamp
  }

  function Upserted(table: map<int, Row>, r: RowIn): map<int, Row> {
    if RowWins(table, r) then table[r.id := Row(r.stamp, r.json)] else table
  }

  function OwnStamp(db: Db, me: UserId, c: ChannelId): Option<Stamp> {
    if Seat(c, me) in db.members && !db.members[Seat(c, me)].left then Some(db.members[Seat(c, me)].stamp) else None
  }

  function ClearedFence(db: Db, c: ChannelId): Db {
    if c in db.removed then db.(removed := db.removed[c := db.removed[c].(active := false)]) else db
  }

  function StepOwnMember(db: Db, m: MemberIn): Db {
    if Fenced(db, m.channel, m.stamp) || !MemberWins(db, m) then db
    else if FenceOf(db, m.channel).Some? then ClearedFence(Joined(db, m), m.channel)
    else Joined(db, m)
  }

  /** A removal is stale below the caller's own membership, or at or below the last removal. */
  predicate RemovalStale(db: Db, me: UserId, r: RemovedIn) {
    || (OwnStamp(db, me, r.channel).Some? && r.stamp <= OwnStamp(db, me, r.channel).value)
    || (FloorOf(db, r.channel).Some? && r.stamp <= FloorOf(db, r.channel).value)
  }

  function MessagesOutside(db: Db, c: ChannelId): map<MessageId, Message> {
    map id | id in db.messages && db.messages[id].channel != c :: db.messages[id]
  }

  function MembersOutside(db: Db, c: ChannelId): map<Seat, Member> {
    map k | k in db.members && k.channel != c :: db.members[k]
  }

  function ChannelRowsRemoved(db: Db, c: ChannelId): Db {
    db.(
      fileTables := DroppedChannel(db.fileTables, c),
      messages := MessagesOutside(db, c),
      members := MembersOutside(db, c),
      coverage := db.coverage - {c},
      channels := db.channels - {c})
  }

  function StepRemove(db: Db, me: UserId, r: RemovedIn): Db {
    if RemovalStale(db, me, r) then db
    else ChannelRowsRemoved(db.(removed := db.removed[r.channel := Removal(r.stamp, true)]), r.channel)
  }

  function StepDepart(db: Db, l: LeftIn): Db {
    var k := Seat(l.channel, l.user);
    if k !in db.members then db.(members := db.members[k := Member(l.stamp, true, "null")])
    else if db.members[k].stamp < l.stamp then
      db.(members := db.members[k := db.members[k].(stamp := l.stamp, left := true)])
    else db
  }

  predicate Quotes(m: Message, target: MessageId) {
    m.content.replyTo == Some(target) && m.content.quote.Some?
  }

  function Requoted(m: Message, q: Quote): Message {
    m.(content := m.content.(quote := Some(q)))
  }

  function Excerpt(body: string): string {
    if |body| <= 140 then body else body[..140]
  }

  /** Two tables of the same rows, but for what replies quote. */
  ghost predicate SameButQuotes(a: map<MessageId, Message>, b: map<MessageId, Message>) {
    && a.Keys == b.Keys
    && forall id :: id in a ==> Unquoted(a[id]) == Unquoted(b[id])
  }

  function Unquoted(m: Message): Message {
    m.(content := m.content.(quote := None))
  }

  /** Every reply quoting `target` follows it: its new text, or its deletion (`body` absent). */
  function RefreshedExcerpts(messages: map<MessageId, Message>, target: MessageId, body: Option<string>): (r: map<MessageId, Message>)
    ensures SameButQuotes(messages, r)
  {
    map id | id in messages ::
      if !Quotes(messages[id], target) then messages[id]
      else if body.Some? then Requoted(messages[id], messages[id].content.quote.value.(body := Excerpt(body.value)))
      else Requoted(messages[id], DELETED_QUOTE)
  }

  /** A reply that lands after its target was deleted takes the deleted quote. */
  function OwnQuoteSettled(messages: map<MessageId, Message>, id: MessageId): (r: map<MessageId, Message>)
    requires id in messages
    ensures SameButQuotes(messages, r)
  {
    var c := messages[id].content;
    if c.quote.Some? && c.replyTo.Some? && c.replyTo.value in messages && Gone(messages[c.replyTo.value].content)
    then messages[id := Requoted(messages[id], DELETED_QUOTE)]
    else messages
  }

  /** The row goes in: it is new, or newer, or the server's own version of a partial row. */
  predicate MessageWins(messages: map<MessageId, Message>, d: MessageIn) {
    || d.id !in messages
    || d.stamp > messages[d.id].stamp
    || (d.stamp == messages[d.id].stamp && messages[d.id].content.partial)
  }

  /** On a conflict the stored row keeps its channel. */
  function StoredMessage(messages: map<MessageId, Message>, d: MessageIn): Message {
    Message(if d.id in messages then messages[d.id].channel else d.channel, d.stamp, d.content)
  }

  /** The page of a history row was asked for under another removal floor. */
  predicate Superseded(db: Db, d: MessageIn, history: bool, asked: Option<Stamp>) {
    history && asked != FloorOf(db, d.channel)
  }

  predicate Lands(db: Db, d: MessageIn, history: bool, asked: Option<Stamp>) {
    !Superseded(db, d, history, asked) && MayLand(db, d.channel, d.stamp, history)
  }

  function DeliveredMessages(messages: map<MessageId, Message>, d: MessageIn, history: bool): (r: map<MessageId, Message>)
    ensures SameButQuotes(messages[d.id := StoredMessage(messages, d)], r)
  {
    var stored := messages[d.id := StoredMessage(messages, d)];
    var quoted :=
      if d.content.deletedAt then RefreshedExcerpts(stored, d.id, None)
      else if !history then RefreshedExcerpts(stored, d.id, Some(d.content.body))
      else stored;
    OwnQuoteSettled(quoted, d.id)
  }

  function StepDeliver(db: Db, d: MessageIn, history: bool, asked: Option<Stamp>): Db {
    if !Lands(db, d, history, asked) || !MessageWins(db.messages, d) then db
    else
      db.(messages := DeliveredMessages(db.messages, d, history),
          fileTables := IndexedMessage(db.fileTables, d.id, d.channel, d.content.files))
  }

  /** A cached row patched into a tombstone: its author, time and reply target stay. */
  function Patched(m: Message, stamp: Stamp): Message {
    m.(stamp := stamp,
       content := m.content.(body := "", deleted := true, partial := true, quote := None, files := []))
  }

  const PARTIAL := Content("", false, true, true, None, None, [])

  function Entombed(messages: map<MessageId, Message>, t: TombstoneIn): map<MessageId, Message> {
    if t.id !in messages then messages[t.id := Message(t.channel, t.stamp, PARTIAL)]
    else if messages[t.id].stamp < t.stamp then messages[t.id := Patched(messages[t.id], t.stamp)]
    else messages
  }

  function BuriedMessages(messages: map<MessageId, Message>, t: TombstoneIn): (r: map<MessageId, Message>)
    ensures SameButQuotes(Entombed(messages, t), r)
  {
    RefreshedExcerpts(Entombed(messages, t), t.id, None)
  }

  function StepBury(db: Db, t: TombstoneIn): Db {
    if !MayLand(db, t.channel, t.stamp, false) then db
    else db.(messages := BuriedMessages(db.messages, t), fileTables := DroppedMessage(db.fileTables, t.id))
  }

  function Step(db: Db, me: UserId, op: Op): Db {
    match op
    case OwnMember(m) => StepOwnMember(db, m)
    case Remove(r) => StepRemove(db, me, r)
    case ChannelRow(row) =>
      if Fenced(db, row.id, row.stamp) then db else db.(channels := Upserted(db.channels, row))
    case OtherMember(o) =>
      if Fenced(db, o.channel, o.stamp) || !MemberWins(db, o) then db else Joined(db, o)
    case Depart(l) => StepDepart(db, l)
    case UserRow(u) => db.(users := Upserted(db.users, u))
    case Deliver(d, history, asked) => StepDeliver(db, d, history, asked)
    case Bury(t) => StepBury(db, t)
  }

  function Run(db: Db, me: UserId, ops: seq<Op>): Db {
    if ops == [] then db else Step(Run(db, me, ops[..|ops| - 1]), me, ops[|ops| - 1])
  }

  lemma {:induction false} RunAppend(db: Db, me: UserId, xs: seq<Op>, ys: seq<Op>)
    ensures Run(db, me, xs + ys) == Run(Run(db, me, xs), me, ys)
  {
    if ys == [] {
      assert xs + ys == xs;
    } else {
      var rest, last := ys[..|ys| - 1], ys[|ys| - 1];
      RunAppend(db, me, xs, rest);
      assert (xs + ys)[..|xs + ys| - 1] == xs + rest;
    }
  }

  // ---- The operations of a batch, in order ----

  function OwnOps(ms: seq<MemberIn>, me: UserId): seq<Op> {
    if ms == [] then []
    else OwnOps(ms[..|ms| - 1], me) + if ms[|ms| - 1].user == me then [OwnMember(ms[|ms| - 1])] else []
  }

  function OtherOps(ms: seq<MemberIn>, me: UserId): seq<Op> {
    if ms == [] then []
    else OtherOps(ms[..|ms| - 1], me) + if ms[|ms| - 1].user != me then [OtherMember(ms[|ms| - 1])] else []
  }

  lemma OwnOpsNext(db: Db, me: UserId, ms: seq<MemberIn>, i: nat)
    requires i < |ms|
    ensures Run(db, me, OwnOps(ms[..i + 1], me)) ==
      (if ms[i].user == me then Step(Run(db, me, OwnOps(ms[..i], me)), me, OwnMember(ms[i]))
       else Run(db, me, OwnOps(ms[..i], me)))
  {
    assert ms[..i + 1][..i] == ms[..i];
    var ops := OwnOps(ms[..i], me);
    assert ops + [] == ops;
    if ms[i].user == me {
      assert OwnOps(ms[..i + 1], me) == ops + [OwnMember(ms[i])];
      assert (ops + [OwnMember(ms[i])])[..|ops|] == ops;
    }
  }

  lemma OtherOpsNext(db: Db, me: UserId, ms: seq<MemberIn>, i: nat)
    requires i < |ms|
    ensures Run(db, me, OtherOps(ms[..i + 1], me)) ==
      (if ms[i].user != me then Step(Run(db, me, OtherOps(ms[..i], me)), me, OtherMember(ms[i]))
       else Run(db, me, OtherOps(ms[..i], me)))
  {
    assert ms[..i + 1][..i] == ms[..i];
    var ops := OtherOps(ms[..i], me);
    assert ops + [] == ops;
    if ms[i].user != me {
      assert OtherOps(ms[..i + 1], me) == ops + [OtherMember(ms[i])];
      assert (ops + [OtherMember(ms[i])])[..|ops|] == ops;
    }
  }

  function RemoveOps(rs: seq<RemovedIn>): seq<Op> {
    seq(|rs|, i requires 0 <= i < |rs| => Remove(rs[i]))
  }

  function ChannelOps(rows: seq<RowIn>): seq<Op> {
    seq(|rows|, i requires 0 <= i < |rows| => ChannelRow(rows[i]))
  }

  function DepartOps(ls: seq<LeftIn>): seq<Op> {
    seq(|ls|, i requires 0 <= i < |ls| => Depart(ls[i]))
  }

  function UserOps(rows: seq<RowIn>): seq<Op> {
    seq(|rows|, i requires 0 <= i < |rows| => UserRow(rows[i]))
  }

  /** The floor a history page of this channel was asked under (`history_floors`, flattened). */
  function AskedFloor(floors: map<ChannelId, Option<Stamp>>, c: ChannelId): Option<Stamp> {
    if c in floors then floors[c] else None
  }

  function DeliverOps(ds: seq<MessageIn>, history: bool, floors: map<ChannelId, Option<Stamp>>): seq<Op> {
    seq(|ds|, i requires 0 <= i < |ds| => Deliver(ds[i], history, AskedFloor(floors, ds[i].channel)))
  }

  function BuryOps(ts: seq<TombstoneIn>): seq<Op> {
    seq(|ts|, i requires 0 <= i < |ts| => Bury(ts[i]))
  }

  function Ops(me: UserId, b: Batch): seq<Op> {
    OwnOps(b.memberships, me) + RemoveOps(b.removed) + ChannelOps(b.channels) +
    OtherOps(b.memberships, me) + DepartOps(b.left) + UserOps(b.users) +
    DeliverOps(b.messages, b.history, b.floors) + BuryOps(b.tombstones)
  }

  function Applied(db: Db, me: UserId, b: Batch): Db {
    Run(db, me, Ops(me, b))
  }

  // ---- The loops ----

  method UpsertMembership(tx: Tx, m: MemberIn) returns (changed: bool)
    modifies tx`members
    ensures changed == MemberWins(old(tx.View()), m)
    ensures tx.View() == if changed then Joined(old(tx.View()), m) else old(tx.View())
  {
    var k := Seat(m.channel, m.user);
    changed := k !in tx.members || m.stamp > tx.members[k].stamp;
    if changed {
      tx.members := tx.members[k := Member(m.stamp, false, m.json)];
    }
  }

  method RemoveChannelRows(tx: Tx, c: ChannelId)
    modifies tx
    ensures tx.View() == ChannelRowsRemoved(old(tx.View()), c)
  {
    DropChannel(tx, c);
    tx.messages := map id | id in tx.messages && tx.messages[id].channel != c :: tx.messages[id];
    tx.members := map k | k in tx.members && k.channel != c :: tx.members[k];
    tx.coverage := tx.coverage - {c};
    tx.channels := tx.channels - {c};
  }

  method RefreshExcerpts(tx: Tx, target: MessageId, body: Option<string>)
    modifies tx`messages
    ensures tx.messages == RefreshedExcerpts(old(tx.messages), target, body)
  {
    match body
    case Some(b) =>
      var excerpt := Excerpt(b);
      tx.messages := map id | id in tx.messages ::
        if Quotes(tx.messages[id], target)
        then Requoted(tx.messages[id], tx.messages[id].content.quote.value.(body := excerpt))
        else tx.messages[id];
    case None =>
      tx.messages := map id | id in tx.messages ::
        if Quotes(tx.messages[id], target) then Requoted(tx.messages[id], DELETED_QUOTE) else tx.messages[id];
  }

  method OwnMemberOne(tx: Tx, m: MemberIn)
    modifies tx`members, tx`removed
    ensures tx.View() == StepOwnMember(old(tx.View()), m)
  {
    var active := m.channel in tx.removed && tx.removed[m.channel].active;
    if active && m.stamp <= tx.removed[m.channel].stamp {
      return;
    }
    var changed := UpsertMembership(tx, m);
    if changed && active {
      tx.removed := tx.removed[m.channel := tx.removed[m.channel].(active := false)];
    }
  }

  method ApplyOwnMembers(tx: Tx, me: UserId, ms: seq<MemberIn>)
    modifies tx`members, tx`removed
    ensures tx.View() == Run(old(tx.View()), me, OwnOps(ms, me))
  {
    for i := 0 to |ms|
      invariant tx.View() == Run(old(tx.View()), me, OwnOps(ms[..i], me))
    {
      OwnOpsNext(old(tx.View()), me, ms, i);
      if ms[i].user == me {
        OwnMemberOne(tx, ms[i]);
      }
    }
    assert ms[..|ms|] == ms;
  }

  method ApplyRemovals(tx: Tx, me: UserId, rs: seq<RemovedIn>)
    modifies tx
    ensures tx.View() == Run(old(tx.View()), me, RemoveOps(rs))
  {
    for i := 0 to |rs|
      invariant tx.View() == Run(old(tx.View()), me, RemoveOps(rs[..i]))
    {
      assert RemoveOps(rs[..i + 1])[..i] == RemoveOps(rs[..i]);
      var r := rs[i];
      var k := Seat(r.channel, me);
      if k in tx.members && !tx.members[k].left && r.stamp <= tx.members[k].stamp {
        continue;
      }
      if r.channel in tx.removed && r.stamp <= tx.removed[r.channel].stamp {
        continue;
      }
      tx.removed := tx.removed[r.channel := Removal(r.stamp, true)];
      RemoveChannelRows(tx, r.channel);
    }
    assert rs[..|rs|] == rs;
  }

  method ApplyChannels(tx: Tx, me: UserId, rows: seq<RowIn>)
    modifies tx`channels
    ensures tx.View() == Run(old(tx.View()), me, ChannelOps(rows))
  {
    for i := 0 to |rows|
      invariant tx.View() == Run(old(tx.View()), me, ChannelOps(rows[..i]))
    {
      assert ChannelOps(rows[..i + 1])[..i] == ChannelOps(rows[..i]);
      var r := rows[i];
      if r.id in tx.removed && tx.removed[r.id].active && r.stamp <= tx.removed[r.id].stamp {
        continue;
      }
      if r.id !in tx.channels || r.stamp > tx.channels[r.id].stamp {
        tx.channels := tx.channels[r.id := Row(r.stamp, r.json)];
      }
    }
    assert rows[..|rows|] == rows;
  }

  method OtherMemberOne(tx: Tx, me: UserId, m: MemberIn)
    modifies tx`members
    ensures tx.View() == Step(old(tx.View()), me, OtherMember(m))
  {
    if m.channel in tx.removed && tx.removed[m.channel].active && m.stamp <= tx.removed[m.channel].stamp {
      return;
    }
    var _ := UpsertMembership(tx, m);
  }

  method ApplyOtherMembers(tx: Tx, me: UserId, ms: seq<MemberIn>)
    modifies tx`members
    ensures tx.View() == Run(old(tx.View()), me, OtherOps(ms, me))
  {
    for i := 0 to |ms|
      invariant tx.View() == Run(old(tx.View()), me, OtherOps(ms[..i], me))
    {
      OtherOpsNext(old(tx.View()), me, ms, i);
      if ms[i].user != me {
        OtherMemberOne(tx, me, ms[i]);
      }
    }
    assert ms[..|ms|] == ms;
  }

  method ApplyDepartures(tx: Tx, me: UserId, ls: seq<LeftIn>)
    modifies tx`members
    ensures tx.View() == Run(old(tx.View()), me, DepartOps(ls))
  {
    for i := 0 to |ls|
      invariant tx.View() == Run(old(tx.View()), me, DepartOps(ls[..i]))
    {
      assert DepartOps(ls[..i + 1])[..i] == DepartOps(ls[..i]);
      var k := Seat(ls[i].channel, ls[i].user);
      var changed := k in tx.members && tx.members[k].stamp < ls[i].stamp;
      if changed {
        tx.members := tx.members[k := tx.members[k].(stamp := ls[i].stamp, left := true)];
      } else if k !in tx.members {
        tx.members := tx.members[k := Member(ls[i].stamp, true, "null")];
      }
    }
    assert ls[..|ls|] == ls;
  }

  method ApplyUsers(tx: Tx, me: UserId, rows: seq<RowIn>)
    modifies tx`users
    ensures tx.View() == Run(old(tx.View()), me, UserOps(rows))
  {
    for i := 0 to |rows|
      invariant tx.View() == Run(old(tx.View()), me, UserOps(rows[..i]))
    {
      assert UserOps(rows[..i + 1])[..i] == UserOps(rows[..i]);
      var r := rows[i];
      if r.id !in tx.users || r.stamp > tx.users[r.id].stamp {
        tx.users := tx.users[r.id := Row(r.stamp, r.json)];
      }
    }
    assert rows[..|rows|] == rows;
  }

  method MayStore(tx: Tx, c: ChannelId, stamp: Stamp, history: bool) returns (may: bool)
    ensures may == MayLand(tx.View(), c, stamp, history)
  {
    var below := c in tx.removed && stamp <= tx.removed[c].stamp;
    may := c in tx.channels && !(below && tx.removed[c].active) && (history || !below);
  }

  method UpsertMessage(tx: Tx, d: MessageIn) returns (changed: bool)
    modifies tx`messages
    ensures changed == MessageWins(old(tx.messages), d)
    ensures tx.messages
      == if changed then old(tx.messages)[d.id := StoredMessage(old(tx.messages), d)] else old(tx.messages)
  {
    changed := true;
    if d.id !in tx.messages {
      tx.messages := tx.messages[d.id := Message(d.channel, d.stamp, d.content)];
    } else {
      var was := tx.messages[d.id];
      changed := d.stamp > was.stamp || (d.stamp == was.stamp && was.content.partial);
      if changed {
        tx.messages := tx.messages[d.id := was.(stamp := d.stamp, content := d.content)];
      }
    }
  }

  method SettleOwnQuote(tx: Tx, id: MessageId)
    requires id in tx.messages
    modifies tx`messages
    ensures tx.messages == OwnQuoteSettled(old(tx.messages), id)
  {
    var c := tx.messages[id].content;
    if c.quote.Some? && c.replyTo.Some? && c.replyTo.value in tx.messages {
      if Gone(tx.messages[c.replyTo.value].content) {
        tx.messages := tx.messages[id := Requoted(tx.messages[id], DELETED_QUOTE)];
      }
    }
  }

  method DeliverOne(tx: Tx, d: MessageIn, history: bool, asked: Option<Stamp>)
    modifies tx
    ensures tx.View() == StepDeliver(old(tx.View()), d, history, asked)
  {
    var floor := if d.channel in tx.removed then Some(tx.removed[d.channel].stamp) else None;
    if history && asked != floor {
      return;
    }
    var may := MayStore(tx, d.channel, d.stamp, history);
    if !may {
      return;
    }
    var changed := UpsertMessage(tx, d);
    if changed {
      IndexMessage(tx, d.id, d.channel, d.content.files);
      if d.content.deletedAt || !history {
        RefreshExcerpts(tx, d.id, if d.content.deletedAt then None else Some(d.content.body));
      }
      SettleOwnQuote(tx, d.id);
    }
  }

  method ApplyMessages(tx: Tx, me: UserId, ds: seq<MessageIn>, history: bool, floors: map<ChannelId, Option<Stamp>>)
    modifies tx
    ensures tx.View() == Run(old(tx.View()), me, DeliverOps(ds, history, floors))
  {
    for i := 0 to |ds|
      invariant tx.View() == Run(old(tx.View()), me, DeliverOps(ds[..i], history, floors))
    {
      assert DeliverOps(ds[..i + 1], history, floors)[..i] == DeliverOps(ds[..i], history, floors);
      DeliverOne(tx, ds[i], history, AskedFloor(floors, ds[i].channel));
    }
    assert ds[..|ds|] == ds;
  }

  method BuryOne(tx: Tx, t: TombstoneIn)
    modifies tx
    ensures tx.View() == StepBury(old(tx.View()), t)
  {
    var may := MayStore(tx, t.channel, t.stamp, false);
    if !may {
      return;
    }
    if t.id !in tx.messages {
      tx.messages := tx.messages[t.id := Message(t.channel, t.stamp, PARTIAL)];
    } else if tx.messages[t.id].stamp < t.stamp {
      tx.messages := tx.messages[t.id := Patched(tx.messages[t.id], t.stamp)];
    }
    RefreshExcerpts(tx, t.id, None);
    DropMessage(tx, t.id);
  }

  method ApplyTombstones(tx: Tx, me: UserId, ts: seq<TombstoneIn>)
    modifies tx
    ensures tx.View() == Run(old(tx.View()), me, BuryOps(ts))
  {
    for i := 0 to |ts|
      invariant tx.View() == Run(old(tx.View()), me, BuryOps(ts[..i]))
    {
      assert BuryOps(ts[..i + 1])[..i] == BuryOps(ts[..i]);
      BuryOne(tx, ts[i]);
    }
    assert ts[..|ts|] == ts;
  }

  method Apply(tx: Tx, me: UserId, b: Batch)
    modifies tx
    ensures tx.View() == Applied(old(tx.View()), me, b)
  {
    ghost var db := tx.View();
    ghost var own, removals, channels := OwnOps(b.memberships, me), RemoveOps(b.removed), ChannelOps(b.channels);
    ghost var others, departures, users := OtherOps(b.memberships, me), DepartOps(b.left), UserOps(b.users);
    ghost var messages, tombstones := DeliverOps(b.messages, b.history, b.floors), BuryOps(b.tombstones);
    ApplyOwnMembers(tx, me, b.memberships);
    ApplyRemovals(tx, me, b.removed);
    RunAppend(db, me, own, removals);
    ApplyChannels(tx, me, b.channels);
    RunAppend(db, me, own + removals, channels);
    ApplyOtherMembers(tx, me, b.memberships);
    RunAppend(db, me, own + removals + channels, others);
    ApplyDepartures(tx, me, b.left);
    RunAppend(db, me, own + removals + channels + others, departures);
    ApplyUsers(tx, me, b.users);
    RunAppend(db, me, own + removals + channels + others + departures, users);
    ApplyMessages(tx, me, b.messages, b.history, b.floors);
    RunAppend(db, me, own + removals + channels + others + departures + users, messages);
    ApplyTombstones(tx, me, b.tombstones);
    RunAppend(db, me, own + removals + channels + others + departures + users + messages, tombstones);
  }
}
