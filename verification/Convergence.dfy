/** Whatever order and however often a channel's message rows arrive, each message ends as its
    highest-stamped version (core/src/apply.rs:190-269). */
module Convergence {
  import opened Tables
  import opened Apply
  import opened ApplyInvariants

  /** What a version of a message shows. */
  datatype Shown = Shown(body: string, gone: bool)
  datatype Version = Version(stamp: Stamp, shown: Shown)

  /** The server keeps one version of a message per stamp; a deleted message's body is empty. */
  type Truth = (MessageId, Stamp) -> Shown

  function ShownOf(c: Content): Shown {
    Shown(c.body, Gone(c))
  }

  function ViewOf(messages: map<MessageId, Message>, id: MessageId): Option<Version> {
    if id in messages then Some(Version(messages[id].stamp, ShownOf(messages[id].content))) else None
  }

  /** The operation carries a version of this message. */
  predicate Carries(op: Op, id: MessageId) {
    (op.Deliver? && op.d.id == id) || (op.Bury? && op.t.id == id)
  }

  function StampOf(op: Op): Stamp
    requires op.Deliver? || op.Bury?
  {
    if op.Deliver? then op.d.stamp else op.t.stamp
  }

  predicate Truthful(truth: Truth, op: Op) {
    && (op.Deliver? ==> truth(op.d.id, op.d.stamp) == ShownOf(op.d.content))
    && (op.Bury? ==> truth(op.t.id, op.t.stamp) == Shown("", true))
  }

  predicate Present(db: Db, c: ChannelId) {
    c in db.channels && FenceOf(db, c) == None
  }

  /** What a row must pass in a present channel whose removal floor is `floor`: a history page must
      have been asked under this floor; any other row must be above it. */
  predicate Passes(floor: Option<Stamp>, op: Op)
    requires op.Deliver? || op.Bury?
  {
    if op.Deliver? && op.history then op.asked == floor
    else floor.Some? ==> StampOf(op) > floor.value
  }

  predicate Counts(floor: Option<Stamp>, op: Op, id: MessageId) {
    Carries(op, id) && Passes(floor, op)
  }

  /** The highest stamp of a message, stored at first or arrived since. */
  function TopStamp(floor: Option<Stamp>, stored: Option<Stamp>, ops: seq<Op>, id: MessageId): Option<Stamp> {
    if ops == [] then stored
    else
      var top, last := TopStamp(floor, stored, ops[..|ops| - 1], id), ops[|ops| - 1];
      if Counts(floor, last, id) && (top == None || StampOf(last) > top.value) then Some(StampOf(last)) else top
  }

  function StampIn(db: Db, id: MessageId): Option<Stamp> {
    if id in db.messages then Some(db.messages[id].stamp) else None
  }

  function VersionAt(truth: Truth, id: MessageId, stamp: Option<Stamp>): Option<Version> {
    match stamp
    case None => None
    case Some(s) => Some(Version(s, truth(id, s)))
  }

  // ---- The channel stays present, under the same floor ----

  predicate SameChannelState(db: Db, after: Db, c: ChannelId) {
    Present(after, c) && FloorOf(after, c) == FloorOf(db, c)
  }

  lemma RemovalElsewhere(db: Db, me: UserId, r: RemovedIn, c: ChannelId)
    requires Present(db, c) && r.channel != c
    ensures SameChannelState(db, StepRemove(db, me, r), c)
  {
  }

  lemma OwnMemberKeeps(db: Db, m: MemberIn, c: ChannelId)
    requires Present(db, c)
    ensures SameChannelState(db, StepOwnMember(db, m), c)
  {
  }

  lemma StaysPresent(db: Db, me: UserId, op: Op, c: ChannelId)
    requires Present(db, c) && (op.Remove? ==> op.r.channel != c)
    ensures SameChannelState(db, Step(db, me, op), c)
  {
    match op
    case OwnMember(m) => OwnMemberKeeps(db, m, c);
    case Remove(r) => RemovalElsewhere(db, me, r, c);
    case Deliver(d, history, asked) => DeliverOnlyMessages(db, d, history, asked);
    case Bury(t) => BuryOnlyMessages(db, t);
    case _ =>
  }

  // ---- One row ----

  lemma DeliverShows(db: Db, d: MessageIn, history: bool, asked: Option<Stamp>, truth: Truth, id: MessageId)
    requires Present(db, d.channel) && Truthful(truth, Deliver(d, history, asked))
    requires ViewOf(db.messages, id) == VersionAt(truth, id, StampIn(db, id))
    ensures
      var op := Deliver(d, history, asked);
      var was := StampIn(db, id);
      ViewOf(StepDeliver(db, d, history, asked).messages, id)
      == if Counts(FloorOf(db, d.channel), op, id) && (was == None || d.stamp > was.value)
         then VersionAt(truth, id, Some(d.stamp)) else VersionAt(truth, id, was)
  {
    if Lands(db, d, history, asked) && MessageWins(db.messages, d) {
      var stored := db.messages[d.id := StoredMessage(db.messages, d)];
      var after := DeliveredMessages(db.messages, d, history);
      assert id in stored ==> Unquoted(after[id]) == Unquoted(stored[id]);
    }
  }

  lemma BuryShows(db: Db, t: TombstoneIn, truth: Truth, id: MessageId)
    requires Present(db, t.channel) && Truthful(truth, Bury(t))
    requires ViewOf(db.messages, id) == VersionAt(truth, id, StampIn(db, id))
    ensures
      var was := StampIn(db, id);
      ViewOf(StepBury(db, t).messages, id)
      == if Counts(FloorOf(db, t.channel), Bury(t), id) && (was == None || t.stamp > was.value)
         then VersionAt(truth, id, Some(t.stamp)) else VersionAt(truth, id, was)
  {
    if MayLand(db, t.channel, t.stamp, false) {
      var entombed, after := Entombed(db.messages, t), BuriedMessages(db.messages, t);
      assert id in entombed ==> Unquoted(after[id]) == Unquoted(entombed[id]);
    }
  }

  lemma RemovalKeepsMessage(db: Db, me: UserId, r: RemovedIn, c: ChannelId, id: MessageId)
    requires r.channel != c
    requires id in db.messages ==> db.messages[id].channel == c
    ensures ViewOf(StepRemove(db, me, r).messages, id) == ViewOf(db.messages, id)
  {
  }

  lemma OthersKeepMessage(db: Db, me: UserId, op: Op, c: ChannelId, id: MessageId)
    requires op.Remove? ==> op.r.channel != c
    requires !op.Deliver? && !op.Bury?
    requires id in db.messages ==> db.messages[id].channel == c
    ensures ViewOf(Step(db, me, op).messages, id) == ViewOf(db.messages, id)
  {
    if op.Remove? {
      RemovalKeepsMessage(db, me, op.r, c, id);
    }
  }

  lemma OtherDeliverKeeps(db: Db, d: MessageIn, history: bool, asked: Option<Stamp>, id: MessageId)
    requires d.id != id
    ensures ViewOf(StepDeliver(db, d, history, asked).messages, id) == ViewOf(db.messages, id)
  {
    if Lands(db, d, history, asked) && MessageWins(db.messages, d) {
      var stored := db.messages[d.id := StoredMessage(db.messages, d)];
      assert id in stored ==> Unquoted(DeliveredMessages(db.messages, d, history)[id]) == Unquoted(stored[id]);
    }
  }

  lemma OtherBuryKeeps(db: Db, t: TombstoneIn, id: MessageId)
    requires t.id != id
    ensures ViewOf(StepBury(db, t).messages, id) == ViewOf(db.messages, id)
  {
    if MayLand(db, t.channel, t.stamp, false) {
      var entombed := Entombed(db.messages, t);
      assert id in entombed ==> Unquoted(BuriedMessages(db.messages, t)[id]) == Unquoted(entombed[id]);
    }
  }

  lemma StepShows(db: Db, me: UserId, op: Op, truth: Truth, home: MessageId -> ChannelId, id: MessageId)
    requires Present(db, home(id)) && Homed(db, home) && HomeOp(home, op)
    requires Truthful(truth, op) && (op.Remove? ==> op.r.channel != home(id))
    requires ViewOf(db.messages, id) == VersionAt(truth, id, StampIn(db, id))
    ensures
      var was := StampIn(db, id);
      ViewOf(Step(db, me, op).messages, id)
      == if Counts(FloorOf(db, home(id)), op, id) && (was == None || StampOf(op) > was.value)
         then VersionAt(truth, id, Some(StampOf(op))) else VersionAt(truth, id, was)
  {
    if op.Deliver? && op.d.id == id {
      DeliverShows(db, op.d, op.history, op.asked, truth, id);
    } else if op.Bury? && op.t.id == id {
      BuryShows(db, op.t, truth, id);
    } else if op.Deliver? {
      OtherDeliverKeeps(db, op.d, op.history, op.asked, id);
    } else if op.Bury? {
      OtherBuryKeeps(db, op.t, id);
    } else {
      OthersKeepMessage(db, me, op, home(id), id);
    }
  }

  // ---- The whole run ----

  /** The runs the claims are about: a message's channel is present, is not removed, and its stored
      row, if any, is the server's version at that stamp; every row is the server's. */
  ghost predicate Steady(db: Db, ops: seq<Op>, truth: Truth, home: MessageId -> ChannelId, id: MessageId) {
    && Present(db, home(id)) && Homed(db, home)
    && ViewOf(db.messages, id) == VersionAt(truth, id, StampIn(db, id))
    && forall op :: op in ops ==>
         HomeOp(home, op) && Truthful(truth, op) && (op.Remove? ==> op.r.channel != home(id))
  }

  /** In a channel that stays present, with no removal of it, each message ends as the highest
      version that counted. */
  lemma {:induction false} EndsAsTop(db: Db, me: UserId, ops: seq<Op>, truth: Truth, home: MessageId -> ChannelId, id: MessageId)
    requires Steady(db, ops, truth, home, id)
    ensures
      var floor := FloorOf(db, home(id));
      var end := Run(db, me, ops);
      && Present(end, home(id)) && FloorOf(end, home(id)) == floor && Homed(end, home)
      && ViewOf(end.messages, id) == VersionAt(truth, id, TopStamp(floor, StampIn(db, id), ops, id))
  {
    if ops != [] {
      var rest, last := ops[..|ops| - 1], ops[|ops| - 1];
      var before := Run(db, me, rest);
      EndsAsTop(db, me, rest, truth, home, id);
      StaysPresent(before, me, last, home(id));
      HomedStep(before, me, home, last);
      StepShows(before, me, last, truth, home, id);
    }
  }

  /** The top stamp is one of those that counted, and no other is above it. */
  lemma {:induction false} TopIsHighest(floor: Option<Stamp>, stored: Option<Stamp>, ops: seq<Op>, id: MessageId)
    ensures
      var top := TopStamp(floor, stored, ops, id);
      && (stored.Some? ==> top.Some? && stored.value <= top.value)
      && (forall op :: op in ops && Counts(floor, op, id) ==> top.Some? && StampOf(op) <= top.value)
      && (top == stored || exists op :: op in ops && Counts(floor, op, id) && Some(StampOf(op)) == top)
  {
    if ops != [] {
      var rest, last := ops[..|ops| - 1], ops[|ops| - 1];
      TopIsHighest(floor, stored, rest, id);
      assert forall op :: op in ops <==> op in rest || op == last;
    }
  }

  lemma SameRowsSameTop(floor: Option<Stamp>, stored: Option<Stamp>, xs: seq<Op>, ys: seq<Op>, id: MessageId)
    requires forall op :: Counts(floor, op, id) ==> (op in xs <==> op in ys)
    ensures TopStamp(floor, stored, xs, id) == TopStamp(floor, stored, ys, id)
  {
    TopIsHighest(floor, stored, xs, id);
    TopIsHighest(floor, stored, ys, id);
  }

  /** Two runs that bring the same versions of a message, in any order, any number of times, end
      with the same version of it. */
  lemma OrderDoesNotMatter(db: Db, me: UserId, xs: seq<Op>, ys: seq<Op>, truth: Truth, home: MessageId -> ChannelId, id: MessageId)
    requires Steady(db, xs, truth, home, id) && Steady(db, ys, truth, home, id)
    requires forall op :: Counts(FloorOf(db, home(id)), op, id) ==> (op in xs <==> op in ys)
    ensures ViewOf(Run(db, me, xs).messages, id) == ViewOf(Run(db, me, ys).messages, id)
  {
    SameRowsSameTop(FloorOf(db, home(id)), StampIn(db, id), xs, ys, id);
    EndsAsTop(db, me, xs, truth, home, id);
    EndsAsTop(db, me, ys, truth, home, id);
  }

  /** Once the highest version of a message is its deletion, older rows bring nothing back. */
  lemma DeletionStays(db: Db, me: UserId, ops: seq<Op>, truth: Truth, home: MessageId -> ChannelId, id: MessageId)
    requires Steady(db, ops, truth, home, id)
    requires id in db.messages && Gone(db.messages[id].content)
    requires forall op :: op in ops && Carries(op, id) ==> StampOf(op) <= db.messages[id].stamp
    ensures ViewOf(Run(db, me, ops).messages, id) == ViewOf(db.messages, id)
  {
    var floor, stored := FloorOf(db, home(id)), StampIn(db, id);
    TopIsHighest(floor, stored, ops, id);
    assert TopStamp(floor, stored, ops, id) == stored;
    EndsAsTop(db, me, ops, truth, home, id);
  }
}
