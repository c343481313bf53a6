/** What every run of row operations keeps, from any state that has it: removal fences, clean
    quotes, the file index, and where rows below a removal floor come from. */
module ApplyInvariants {
  import opened Tables
  import opened FileRows
  import opened Apply

  // ---- What the server promises about a row ----

  /** The caller's own rows and the others' come through their own operations, and `left` names
      other members (its documented meaning). */
  predicate ProperOp(me: UserId, op: Op) {
    match op
    case OwnMember(m) => m.user == me
    case OtherMember(o) => o.user != me
    case Depart(l) => l.user != me
    case _ => true
  }

  /** A server row marks a deletion by `deleted_at` only; the other two marks are made here. */
  predicate ServerOp(op: Op) {
    op.Deliver? ==> !op.d.content.deleted && !op.d.content.partial
  }

  /** A message belongs to one channel. */
  predicate HomeOp(home: MessageId -> ChannelId, op: Op) {
    && (op.Deliver? ==> op.d.channel == home(op.d.id))
    && (op.Bury? ==> op.t.channel == home(op.t.id))
  }

  predicate GoodOp(me: UserId, home: MessageId -> ChannelId, op: Op) {
    ProperOp(me, op) && ServerOp(op) && HomeOp(home, op)
  }

  /** What the documentation of a batch's fields promises: `left` names other members, and the rows
      are the server's. */
  ghost predicate ServerBatch(me: UserId, b: Batch) {
    && (forall l :: l in b.left ==> l.user != me)
    && (forall d :: d in b.messages ==> !d.content.deleted && !d.content.partial)
  }

  ghost predicate GoodBatch(me: UserId, home: MessageId -> ChannelId, b: Batch) {
    && ServerBatch(me, b)
    && (forall d :: d in b.messages ==> d.channel == home(d.id))
    && (forall t :: t in b.tombstones ==> t.channel == home(t.id))
  }

  lemma {:induction false} MemberOpsProper(ms: seq<MemberIn>, me: UserId)
    ensures forall op :: op in OwnOps(ms, me) ==> op.OwnMember? && op.m.user == me
    ensures forall op :: op in OtherOps(ms, me) ==> op.OtherMember? && op.o.user != me
  {
    if ms != [] {
      MemberOpsProper(ms[..|ms| - 1], me);
    }
  }

  lemma OpsServed(me: UserId, b: Batch)
    requires ServerBatch(me, b)
    ensures forall op :: op in Ops(me, b) ==> ProperOp(me, op) && ServerOp(op)
  {
    MemberOpsProper(b.memberships, me);
    forall op | op in Ops(me, b)
      ensures ProperOp(me, op) && ServerOp(op)
    {
      if op in DepartOps(b.left) {
        assert op.l in b.left;
      } else if op in DeliverOps(b.messages, b.history, b.floors) {
        assert op.d in b.messages;
      }
    }
  }

  lemma OpsGood(me: UserId, home: MessageId -> ChannelId, b: Batch)
    requires GoodBatch(me, home, b)
    ensures forall op :: op in Ops(me, b) ==> GoodOp(me, home, op)
  {
    OpsServed(me, b);
    MemberOpsProper(b.memberships, me);
    forall op | op in Ops(me, b)
      ensures HomeOp(home, op)
    {
      if op in DeliverOps(b.messages, b.history, b.floors) {
        assert op.d in b.messages;
      } else if op in BuryOps(b.tombstones) {
        assert op.t in b.tombstones;
      }
    }
  }

  // ---- What message rows leave alone ----

  predicate OnlyMessages(db: Db, after: Db) {
    && after.removed == db.removed && after.channels == db.channels
    && after.members == db.members && after.users == db.users && after.coverage == db.coverage
  }

  lemma DeliverOnlyMessages(db: Db, d: MessageIn, history: bool, asked: Option<Stamp>)
    ensures OnlyMessages(db, StepDeliver(db, d, history, asked))
  {
  }

  lemma BuryOnlyMessages(db: Db, t: TombstoneIn)
    ensures OnlyMessages(db, StepBury(db, t))
  {
  }

  // ---- Removal fences ----

  predicate Up(removed: map<ChannelId, Removal>, c: ChannelId) {
    c in removed && removed[c].active
  }

  /** While a fence is up, no active membership of the channel is the caller's, and each is newer
      than the removal. */
  ghost predicate MembersAbove(removed: map<ChannelId, Removal>, members: map<Seat, Member>, me: UserId) {
    forall k :: k in members && !members[k].left && Up(removed, k.channel) ==>
      k.user != me && members[k].stamp > removed[k.channel].stamp
  }

  ghost predicate ChannelsAbove(removed: map<ChannelId, Removal>, channels: map<ChannelId, Row>) {
    forall c :: c in channels && Up(removed, c) ==> channels[c].stamp > removed[c].stamp
  }

  ghost predicate MessagesAbove(removed: map<ChannelId, Removal>, messages: map<MessageId, Message>) {
    forall id :: id in messages && Up(removed, messages[id].channel) ==>
      messages[id].stamp > removed[messages[id].channel].stamp
  }

  /** While a fence is up: the caller isn't an active member, and every row of the channel that is
      shown (the channel, an active member, a message) is newer than the removal. */
  ghost predicate FencesHold(db: Db, me: UserId) {
    && MembersAbove(db.removed, db.members, me)
    && ChannelsAbove(db.removed, db.channels)
    && MessagesAbove(db.removed, db.messages)
  }

  /** A membership row goes in: the fence of its channel is down, or the row is another's, above. */
  lemma MembersAboveJoin(removed: map<ChannelId, Removal>, members: map<Seat, Member>, me: UserId, k: Seat, v: Member)
    requires MembersAbove(removed, members, me)
    requires v.left || !Up(removed, k.channel) || (k.user != me && v.stamp > removed[k.channel].stamp)
    ensures MembersAbove(removed, members[k := v], me)
  {
  }

  lemma FenceCleared(db: Db, me: UserId, c: ChannelId)
    requires FencesHold(db, me)
    ensures FencesHold(ClearedFence(db, c), me)
  {
  }

  lemma FencesOwnMember(db: Db, me: UserId, m: MemberIn)
    requires FencesHold(db, me) && m.user == me
    ensures FencesHold(StepOwnMember(db, m), me)
  {
    var k, v := Seat(m.channel, m.user), Member(m.stamp, false, m.json);
    if FenceOf(db, m.channel).Some? {
      FenceCleared(db, me, m.channel);
      MembersAboveJoin(ClearedFence(db, m.channel).removed, db.members, me, k, v);
    } else {
      MembersAboveJoin(db.removed, db.members, me, k, v);
    }
  }

  lemma FencesRemove(db: Db, me: UserId, r: RemovedIn)
    requires FencesHold(db, me)
    ensures FencesHold(StepRemove(db, me, r), me)
  {
    if !RemovalStale(db, me, r) {
      var after := StepRemove(db, me, r);
      assert after.messages == MessagesOutside(db, r.channel);
      assert after.members == MembersOutside(db, r.channel);
    }
  }

  lemma FencesMembers(db: Db, me: UserId, op: Op)
    requires FencesHold(db, me) && ProperOp(me, op) && (op.OtherMember? || op.Depart?)
    ensures FencesHold(Step(db, me, op), me)
  {
    match op
    case OtherMember(o) =>
      if !Fenced(db, o.channel, o.stamp) {
        MembersAboveJoin(db.removed, db.members, me, Seat(o.channel, o.user), Member(o.stamp, false, o.json));
      }
    case Depart(l) =>
      var k := Seat(l.channel, l.user);
      var v := if k in db.members then db.members[k].(stamp := l.stamp, left := true) else Member(l.stamp, true, "null");
      MembersAboveJoin(db.removed, db.members, me, k, v);
  }

  lemma SameButQuotesAbove(removed: map<ChannelId, Removal>, a: map<MessageId, Message>, b: map<MessageId, Message>)
    requires MessagesAbove(removed, a) && SameButQuotes(a, b)
    ensures MessagesAbove(removed, b)
  {
    forall id | id in b
      ensures b[id].channel == a[id].channel && b[id].stamp == a[id].stamp
    {
      assert Unquoted(a[id]) == Unquoted(b[id]);
    }
  }

  lemma FencesDeliver(db: Db, me: UserId, d: MessageIn, history: bool, asked: Option<Stamp>)
    requires FencesHold(db, me)
    ensures FencesHold(StepDeliver(db, d, history, asked), me)
  {
    if Lands(db, d, history, asked) && MessageWins(db.messages, d) {
      var stored := db.messages[d.id := StoredMessage(db.messages, d)];
      SameButQuotesAbove(db.removed, stored, DeliveredMessages(db.messages, d, history));
    }
  }

  lemma FencesBury(db: Db, me: UserId, t: TombstoneIn)
    requires FencesHold(db, me)
    ensures FencesHold(StepBury(db, t), me)
  {
    if MayLand(db, t.channel, t.stamp, false) {
      SameButQuotesAbove(db.removed, Entombed(db.messages, t), BuriedMessages(db.messages, t));
    }
  }

  lemma FencesStep(db: Db, me: UserId, op: Op)
    requires FencesHold(db, me) && ProperOp(me, op)
    ensures FencesHold(Step(db, me, op), me)
  {
    match op
    case OwnMember(m) => FencesOwnMember(db, me, m);
    case Remove(r) => FencesRemove(db, me, r);
    case ChannelRow(_) =>
    case OtherMember(_) => FencesMembers(db, me, op);
    case Depart(_) => FencesMembers(db, me, op);
    case UserRow(_) =>
    case Deliver(d, history, asked) => FencesDeliver(db, me, d, history, asked);
    case Bury(t) => FencesBury(db, me, t);
  }

  // ---- Quotes of deleted messages ----

  /** A stored reply whose target is stored and deleted shows none of its words. */
  ghost predicate QuotesClean(messages: map<MessageId, Message>) {
    forall id, target ::
      id in messages && target in messages && Quotes(messages[id], target) && Gone(messages[target].content)
      ==> messages[id].content.quote == Some(DELETED_QUOTE)
  }

  lemma QuotesDelivered(messages: map<MessageId, Message>, d: MessageIn, history: bool)
    requires QuotesClean(messages) && !d.content.deleted
    ensures QuotesClean(DeliveredMessages(messages, d, history))
  {
    var stored := messages[d.id := StoredMessage(messages, d)];
    var quoted :=
      if d.content.deletedAt then RefreshedExcerpts(stored, d.id, None)
      else if !history then RefreshedExcerpts(stored, d.id, Some(d.content.body))
      else stored;
    forall id, target | id in quoted && target in quoted && id != d.id
        && Quotes(quoted[id], target) && Gone(quoted[target].content)
      ensures quoted[id].content.quote == Some(DELETED_QUOTE)
    {
      assert Unquoted(stored[id]) == Unquoted(quoted[id]) && Unquoted(stored[target]) == Unquoted(quoted[target]);
    }
  }

  lemma QuotesBuried(messages: map<MessageId, Message>, t: TombstoneIn)
    requires QuotesClean(messages)
    ensures QuotesClean(BuriedMessages(messages, t))
  {
    var entombed := Entombed(messages, t);
    assert forall id, target ::
      (id in entombed && target in entombed && target != t.id && Quotes(entombed[id], target)
       ==> id in messages && target in messages && entombed[id] == messages[id] && entombed[target] == messages[target]);
  }

  lemma QuotesStep(db: Db, me: UserId, op: Op)
    requires QuotesClean(db.messages) && ServerOp(op)
    ensures QuotesClean(Step(db, me, op).messages)
  {
    match op
    case Deliver(d, history, _) => QuotesDelivered(db.messages, d, history);
    case Bury(t) => QuotesBuried(db.messages, t);
    case _ =>
  }

  // ---- The file index ----

  ghost predicate Homed(db: Db, home: MessageId -> ChannelId) {
    forall id :: id in db.messages ==> db.messages[id].channel == home(id)
  }

  /** Each cached file is listed, and each listing names a stored message that lists the file. */
  ghost predicate FilesListed(messages: map<MessageId, Message>, t: FileTables) {
    && t.files.Keys <= t.listings.Keys
    && forall f :: f in t.listings ==>
         && t.listings[f].message in messages
         && messages[t.listings[f].message].channel == t.listings[f].channel
         && f in messages[t.listings[f].message].content.files
  }

  lemma HomedStep(db: Db, me: UserId, home: MessageId -> ChannelId, op: Op)
    requires Homed(db, home) && HomeOp(home, op)
    ensures Homed(Step(db, me, op), home)
  {
  }

  lemma FilesListedDelivered(db: Db, home: MessageId -> ChannelId, d: MessageIn, history: bool)
    requires FilesListed(db.messages, db.fileTables) && Homed(db, home) && d.channel == home(d.id)
    ensures FilesListed(
      DeliveredMessages(db.messages, d, history), IndexedMessage(db.fileTables, d.id, d.channel, d.content.files))
  {
    var stored := db.messages[d.id := StoredMessage(db.messages, d)];
    var after := DeliveredMessages(db.messages, d, history);
    forall id | id in after
      ensures id in stored && after[id].channel == stored[id].channel && after[id].content.files == stored[id].content.files
    {
      assert Unquoted(after[id]) == Unquoted(stored[id]);
    }
  }

  lemma FilesListedBuried(db: Db, t: TombstoneIn)
    requires FilesListed(db.messages, db.fileTables)
    ensures FilesListed(BuriedMessages(db.messages, t), DroppedMessage(db.fileTables, t.id))
  {
    var entombed, after := Entombed(db.messages, t), BuriedMessages(db.messages, t);
    forall id | id in after
      ensures id in entombed && after[id].channel == entombed[id].channel
      ensures after[id].content.files == entombed[id].content.files
    {
      assert Unquoted(after[id]) == Unquoted(entombed[id]);
    }
  }

  lemma FilesListedRemove(db: Db, me: UserId, r: RemovedIn)
    requires FilesListed(db.messages, db.fileTables)
    ensures FilesListed(StepRemove(db, me, r).messages, StepRemove(db, me, r).fileTables)
  {
  }

  lemma FilesListedStep(db: Db, me: UserId, home: MessageId -> ChannelId, op: Op)
    requires FilesListed(db.messages, db.fileTables) && Homed(db, home) && HomeOp(home, op)
    ensures FilesListed(Step(db, me, op).messages, Step(db, me, op).fileTables)
  {
    match op
    case Remove(r) => FilesListedRemove(db, me, r);
    case Deliver(d, history, _) => FilesListedDelivered(db, home, d, history);
    case Bury(t) => FilesListedBuried(db, t);
    case _ =>
  }

  /** A row of `files` never goes without its blob being journalled. */
  predicate Journals(before: FileTables, after: FileTables) {
    && before.deletions <= after.deletions
    && before.files.Keys - after.files.Keys <= after.deletions
    && after.files.Keys <= before.files.Keys
  }

  lemma JournalsStep(db: Db, me: UserId, op: Op)
    ensures Journals(db.fileTables, Step(db, me, op).fileTables)
  {
  }

  // ---- The caller's own membership ----

  /** The caller's own rows are never departures. */
  ghost predicate NoOwnDeparture(db: Db, me: UserId) {
    forall k :: k in db.members && k.user == me ==> !db.members[k].left
  }

  lemma NoOwnDepartureRemove(db: Db, me: UserId, r: RemovedIn)
    requires NoOwnDeparture(db, me)
    ensures NoOwnDeparture(StepRemove(db, me, r), me)
  {
  }

  lemma NoOwnDepartureDepart(db: Db, me: UserId, l: LeftIn)
    requires NoOwnDeparture(db, me) && l.user != me
    ensures NoOwnDeparture(StepDepart(db, l), me)
  {
  }

  lemma NoOwnDepartureStep(db: Db, me: UserId, op: Op)
    requires NoOwnDeparture(db, me) && ProperOp(me, op)
    ensures NoOwnDeparture(Step(db, me, op), me)
  {
    match op
    case Remove(r) => NoOwnDepartureRemove(db, me, r);
    case Deliver(d, history, asked) => assert StepDeliver(db, d, history, asked).members == db.members;
    case Bury(t) => assert StepBury(db, t).members == db.members;
    case Depart(l) => NoOwnDepartureDepart(db, me, l);
    case _ =>
  }

  // ---- Whole runs ----

  /** Everything a run keeps. */
  ghost predicate Healthy(db: Db, me: UserId, home: MessageId -> ChannelId) {
    && FencesHold(db, me)
    && QuotesClean(db.messages)
    && Homed(db, home)
    && FilesListed(db.messages, db.fileTables)
    && NoOwnDeparture(db, me)
  }

  lemma HealthyEmpty(me: UserId, home: MessageId -> ChannelId)
    ensures Healthy(EMPTY, me, home)
  {
  }

  lemma HealthyStep(db: Db, me: UserId, home: MessageId -> ChannelId, op: Op)
    requires Healthy(db, me, home) && GoodOp(me, home, op)
    ensures Healthy(Step(db, me, op), me, home)
  {
    FencesStep(db, me, op);
    QuotesStep(db, me, op);
    HomedStep(db, me, home, op);
    FilesListedStep(db, me, home, op);
    NoOwnDepartureStep(db, me, op);
  }

  /** Fences, clean quotes, the file index: kept by every run of row operations. */
  lemma {:induction false} HealthyRun(db: Db, me: UserId, home: MessageId -> ChannelId, ops: seq<Op>)
    requires Healthy(db, me, home)
    requires forall op :: op in ops ==> GoodOp(me, home, op)
    ensures Healthy(Run(db, me, ops), me, home)
  {
    if ops != [] {
      var rest, last := ops[..|ops| - 1], ops[|ops| - 1];
      HealthyRun(db, me, home, rest);
      HealthyStep(Run(db, me, rest), me, home, last);
    }
  }

  lemma HealthyApplied(db: Db, me: UserId, home: MessageId -> ChannelId, b: Batch)
    requires Healthy(db, me, home) && GoodBatch(me, home, b)
    ensures Healthy(Applied(db, me, b), me, home)
  {
    OpsGood(me, home, b);
    HealthyRun(db, me, home, Ops(me, b));
  }

  /** Every run journals each file row it drops, or the row is there at the end. */
  lemma {:induction false} JournalsRun(db: Db, me: UserId, ops: seq<Op>)
    ensures Journals(db.fileTables, Run(db, me, ops).fileTables)
  {
    if ops != [] {
      var rest := Run(db, me, ops[..|ops| - 1]);
      JournalsRun(db, me, ops[..|ops| - 1]);
      JournalsStep(rest, me, ops[|ops| - 1]);
    }
  }

  // ---- Rows at or below the removal floor ----

  /** A history page asked for under the floor `floor` brought this version of the message. */
  predicate Fetched(op: Op, id: MessageId, stamp: Stamp, floor: Stamp) {
    op.Deliver? && op.history && op.asked == Some(floor) && op.d.id == id && op.d.stamp == stamp
  }

  predicate BelowFloor(db: Db, id: MessageId)
    requires id in db.messages
  {
    var floor := FloorOf(db, db.messages[id].channel);
    floor.Some? && db.messages[id].stamp <= floor.value
  }

  /** A message at or below the floor afterwards: there before under the same floor, with the same
      stamp. */
  predicate KeptBelow(db: Db, after: Db, id: MessageId)
    requires id in after.messages
  {
    && id in db.messages
    && db.messages[id].channel == after.messages[id].channel
    && db.messages[id].stamp == after.messages[id].stamp
    && FloorOf(db, db.messages[id].channel) == FloorOf(after, after.messages[id].channel)
  }

  lemma FloorDeliver(db: Db, home: MessageId -> ChannelId, d: MessageIn, history: bool, asked: Option<Stamp>, id: MessageId)
    requires Homed(db, home) && d.channel == home(d.id)
    requires id in StepDeliver(db, d, history, asked).messages
    requires BelowFloor(StepDeliver(db, d, history, asked), id)
    ensures
      var after := StepDeliver(db, d, history, asked);
      || KeptBelow(db, after, id)
      || Fetched(Deliver(d, history, asked), id, after.messages[id].stamp, FloorOf(after, after.messages[id].channel).value)
  {
    var after := StepDeliver(db, d, history, asked);
    if Lands(db, d, history, asked) && MessageWins(db.messages, d) {
      var stored := db.messages[d.id := StoredMessage(db.messages, d)];
      assert Unquoted(after.messages[id]) == Unquoted(stored[id]);
    }
  }

  lemma FloorBury(db: Db, home: MessageId -> ChannelId, t: TombstoneIn, id: MessageId)
    requires Homed(db, home) && t.channel == home(t.id)
    requires id in StepBury(db, t).messages && BelowFloor(StepBury(db, t), id)
    ensures KeptBelow(db, StepBury(db, t), id)
  {
    if MayLand(db, t.channel, t.stamp, false) {
      assert Unquoted(StepBury(db, t).messages[id]) == Unquoted(Entombed(db.messages, t)[id]);
    }
  }

  lemma FloorRemove(db: Db, me: UserId, r: RemovedIn, id: MessageId)
    requires id in StepRemove(db, me, r).messages && BelowFloor(StepRemove(db, me, r), id)
    ensures KeptBelow(db, StepRemove(db, me, r), id)
  {
  }

  lemma FloorOwnMember(db: Db, m: MemberIn)
    ensures StepOwnMember(db, m).messages == db.messages
    ensures forall c :: FloorOf(StepOwnMember(db, m), c) == FloorOf(db, c)
  {
  }

  lemma FloorOthers(db: Db, me: UserId, op: Op)
    requires !op.OwnMember? && !op.Remove? && !op.Deliver? && !op.Bury?
    ensures Step(db, me, op).messages == db.messages
    ensures Step(db, me, op).removed == db.removed
  {
  }

  /** One step: a message at or below the floor was there before, or was just fetched. */
  lemma FloorStep(db: Db, after: Db, me: UserId, home: MessageId -> ChannelId, op: Op, id: MessageId)
    requires Homed(db, home) && HomeOp(home, op) && after == Step(db, me, op)
    requires id in after.messages && BelowFloor(after, id)
    ensures
      || KeptBelow(db, after, id)
      || Fetched(op, id, after.messages[id].stamp, FloorOf(after, after.messages[id].channel).value)
  {
    match op
    case Remove(r) => FloorRemove(db, me, r, id);
    case Deliver(d, history, asked) => FloorDeliver(db, home, d, history, asked, id);
    case Bury(t) => FloorBury(db, home, t, id);
    case OwnMember(m) => FloorOwnMember(db, m);
    case _ => FloorOthers(db, me, op);
  }

  /** After the fence lifts, a stored message at or below the floor came from a history page asked
      for since that removal. */
  lemma {:induction false} FloorOrigin(db: Db, me: UserId, home: MessageId -> ChannelId, ops: seq<Op>, id: MessageId)
    requires db.messages == map[]
    requires forall op :: op in ops ==> HomeOp(home, op)
    requires id in Run(db, me, ops).messages && BelowFloor(Run(db, me, ops), id)
    ensures Homed(Run(db, me, ops), home)
    ensures exists i | 0 <= i < |ops| ::
      Fetched(ops[i], id, Run(db, me, ops).messages[id].stamp, FloorOf(Run(db, me, ops), home(id)).value)
  {
    var rest, last := ops[..|ops| - 1], ops[|ops| - 1];
    HomedRun(db, me, home, rest);
    HomedStep(Run(db, me, rest), me, home, last);
    FloorStep(Run(db, me, rest), Run(db, me, ops), me, home, last, id);
    var stamp, floor := Run(db, me, ops).messages[id].stamp, FloorOf(Run(db, me, ops), home(id)).value;
    if !Fetched(last, id, stamp, floor) {
      FloorOrigin(db, me, home, rest, id);
      var i :| 0 <= i < |rest| && Fetched(rest[i], id, stamp, floor);
      assert Fetched(ops[i], id, stamp, floor);
    } else {
      assert Fetched(ops[|ops| - 1], id, stamp, floor);
    }
  }

  lemma {:induction false} HomedRun(db: Db, me: UserId, home: MessageId -> ChannelId, ops: seq<Op>)
    requires Homed(db, home)
    requires forall op :: op in ops ==> HomeOp(home, op)
    ensures Homed(Run(db, me, ops), home)
  {
    if ops != [] {
      HomedRun(db, me, home, ops[..|ops| - 1]);
      HomedStep(Run(db, me, ops[..|ops| - 1]), me, home, ops[|ops| - 1]);
    }
  }
}
