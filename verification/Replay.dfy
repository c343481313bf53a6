/** Replaying a batch changes nothing: a crash between a page and its cursor replays the page, and
    the tables come out the same (core/src/apply.rs:99-271, core/src/sync.rs).

    Each row of a batch, once applied, is settled: applying it again would change nothing. A settled
    row stays settled under every row that the batch's order lets come after it. */
module Replay {
  import opened Tables
  import opened FileRows
  import opened Apply
  import opened ApplyInvariants

  /** The order `apply` takes a batch in. */
  function Phase(op: Op): nat {
    match op
    case OwnMember(_) => 1
    case Remove(_) => 2
    case Deliver(_, _, _) => 4
    case Bury(_) => 5
    case _ => 3
  }

  predicate InOrder(ops: seq<Op>) {
    forall i, j :: 0 <= i < j < |ops| ==> Phase(ops[i]) <= Phase(ops[j])
  }

  predicate AtLeast(table: map<int, Row>, r: RowIn) {
    r.id in table && r.stamp <= table[r.id].stamp
  }

  predicate MemberAtLeast(db: Db, k: Seat, stamp: Stamp) {
    k in db.members && stamp <= db.members[k].stamp
  }

  /** The stored version is newer, or the same and whole. */
  predicate MessageAtLeast(db: Db, d: MessageIn) {
    d.id in db.messages && !MessageWins(db.messages, d)
  }

  ghost predicate Buried(db: Db, t: TombstoneIn) {
    && t.id in db.messages && t.stamp <= db.messages[t.id].stamp
    && OfMessage(db.fileTables, t.id) == {}
    && forall id :: id in db.messages && Quotes(db.messages[id], t.id) ==>
         db.messages[id].content.quote == Some(DELETED_QUOTE)
  }

  ghost predicate Settled(db: Db, me: UserId, op: Op) {
    match op
    case OwnMember(m) => Fenced(db, m.channel, m.stamp) || MemberAtLeast(db, Seat(m.channel, m.user), m.stamp)
    case Remove(r) => RemovalStale(db, me, r)
    case ChannelRow(row) => Fenced(db, row.id, row.stamp) || AtLeast(db.channels, row)
    case OtherMember(o) => Fenced(db, o.channel, o.stamp) || MemberAtLeast(db, Seat(o.channel, o.user), o.stamp)
    case Depart(l) => MemberAtLeast(db, Seat(l.channel, l.user), l.stamp)
    case UserRow(u) => AtLeast(db.users, u)
    case Deliver(d, history, asked) => !Lands(db, d, history, asked) || MessageAtLeast(db, d)
    case Bury(t) => !MayLand(db, t.channel, t.stamp, false) || Buried(db, t)
  }

  // ---- A settled row changes nothing ----

  lemma BuriedAbsorbs(db: Db, t: TombstoneIn)
    requires Buried(db, t)
    ensures StepBury(db, t) == db
  {
    assert Entombed(db.messages, t) == db.messages;
    forall id | id in db.messages
      ensures BuriedMessages(db.messages, t)[id] == db.messages[id]
    {
    }
    assert BuriedMessages(db.messages, t) == db.messages;
    assert DroppedMessage(db.fileTables, t.id).listings == db.fileTables.listings;
    assert DroppedMessage(db.fileTables, t.id).files == db.fileTables.files;
  }

  lemma SettledAbsorbs(db: Db, me: UserId, op: Op)
    requires Settled(db, me, op)
    ensures Step(db, me, op) == db
  {
    match op
    case Bury(t) => if MayLand(db, t.channel, t.stamp, false) { BuriedAbsorbs(db, t); }
    case _ =>
  }

  lemma {:induction false} AllSettledAbsorb(db: Db, me: UserId, ops: seq<Op>)
    requires forall op :: op in ops ==> Settled(db, me, op)
    ensures Run(db, me, ops) == db
  {
    if ops != [] {
      AllSettledAbsorb(db, me, ops[..|ops| - 1]);
      SettledAbsorbs(db, me, ops[|ops| - 1]);
    }
  }

  // ---- A row just applied is settled ----

  lemma JustDelivered(db: Db, d: MessageIn, history: bool, asked: Option<Stamp>)
    requires !d.content.partial
    ensures
      var after := StepDeliver(db, d, history, asked);
      !Lands(after, d, history, asked) || MessageAtLeast(after, d)
  {
    if Lands(db, d, history, asked) && MessageWins(db.messages, d) {
      var stored := db.messages[d.id := StoredMessage(db.messages, d)];
      assert Unquoted(DeliveredMessages(db.messages, d, history)[d.id]) == Unquoted(stored[d.id]);
    }
  }

  lemma JustBuried(db: Db, t: TombstoneIn)
    requires MayLand(db, t.channel, t.stamp, false)
    ensures Buried(StepBury(db, t), t)
  {
    assert Unquoted(BuriedMessages(db.messages, t)[t.id]) == Unquoted(Entombed(db.messages, t)[t.id]);
  }

  lemma JustJoined(db: Db, m: MemberIn)
    ensures
      var after := StepOwnMember(db, m);
      Fenced(after, m.channel, m.stamp) || MemberAtLeast(after, Seat(m.channel, m.user), m.stamp)
  {
  }

  lemma JustSettled(db: Db, me: UserId, op: Op)
    requires op.Deliver? ==> !op.d.content.partial
    ensures Settled(Step(db, me, op), me, op)
  {
    match op
    case OwnMember(m) => JustJoined(db, m);
    case Deliver(d, history, asked) => JustDelivered(db, d, history, asked);
    case Bury(t) => if MayLand(db, t.channel, t.stamp, false) { JustBuried(db, t); }
    case _ =>
  }

  // ---- Settled rows stay settled ----

  /** The caller's row and removals, under more of the same. */
  lemma OwnStaysSettled(db: Db, me: UserId, op: Op, m: MemberIn)
    requires (op.OwnMember? || op.Remove?) && m.user == me && ProperOp(me, op)
    requires Settled(db, me, op)
    ensures Settled(StepOwnMember(db, m), me, op)
  {
  }

  /** A departure of the caller's own leaves no room for a removal above the floor and a row above
      that removal, but not above the departure. */
  ghost predicate DeparturesLow(db: Db, me: UserId) {
    forall k :: k in db.members && k.user == me && db.members[k].left ==>
      FloorOf(db, k.channel).Some? && db.members[k].stamp <= FloorOf(db, k.channel).value + 1
  }

  lemma DeparturesLowUnderRemove(db: Db, me: UserId, r: RemovedIn)
    requires DeparturesLow(db, me)
    ensures DeparturesLow(StepRemove(db, me, r), me)
  {
  }

  lemma DeparturesLowUnderOwn(db: Db, me: UserId, m: MemberIn)
    requires DeparturesLow(db, me)
    ensures DeparturesLow(StepOwnMember(db, m), me)
  {
  }

  lemma DeparturesStayLow(db: Db, me: UserId, op: Op)
    requires DeparturesLow(db, me) && ProperOp(me, op)
    ensures DeparturesLow(Step(db, me, op), me)
  {
    match op
    case OwnMember(m) => DeparturesLowUnderOwn(db, me, m);
    case Remove(r) => DeparturesLowUnderRemove(db, me, r);
    case Deliver(d, history, asked) => DeliverOnlyMessages(db, d, history, asked);
    case Bury(t) => BuryOnlyMessages(db, t);
    case _ => GuardedGrows(db, me, op);
  }

  lemma RemovedStaysSettled(db: Db, me: UserId, op: Op, r: RemovedIn)
    requires DeparturesLow(db, me) && ProperOp(me, op)
    requires op.OwnMember? || op.Remove?
    requires Settled(db, me, op)
    ensures Settled(StepRemove(db, me, r), me, op)
  {
  }

  /** From the third phase on, fences, floors and the caller's own row don't move. */
  predicate SameGates(db: Db, after: Db, me: UserId) {
    && after.removed == db.removed
    && forall k :: k in db.members && k.user == me ==> k in after.members && after.members[k] == db.members[k]
  }

  predicate RowsGrow(a: map<int, Row>, b: map<int, Row>) {
    forall id :: id in a ==> id in b && a[id].stamp <= b[id].stamp
  }

  predicate MembersGrow(a: map<Seat, Member>, b: map<Seat, Member>) {
    forall k :: k in a ==> k in b && a[k].stamp <= b[k].stamp
  }

  predicate TablesGrow(db: Db, after: Db) {
    RowsGrow(db.channels, after.channels) && MembersGrow(db.members, after.members) && RowsGrow(db.users, after.users)
  }

  lemma MemberGrows(members: map<Seat, Member>, k: Seat, v: Member)
    requires k in members ==> members[k].stamp <= v.stamp
    ensures MembersGrow(members, members[k := v])
  {
  }

  lemma OtherGrows(db: Db, me: UserId, o: MemberIn)
    requires o.user != me && MemberWins(db, o)
    ensures SameGates(db, Joined(db, o), me) && TablesGrow(db, Joined(db, o))
  {
    MemberGrows(db.members, Seat(o.channel, o.user), Member(o.stamp, false, o.json));
  }

  lemma DepartGrows(db: Db, me: UserId, l: LeftIn)
    requires l.user != me
    ensures SameGates(db, StepDepart(db, l), me) && TablesGrow(db, StepDepart(db, l))
  {
    var k := Seat(l.channel, l.user);
    if k !in db.members {
      MemberGrows(db.members, k, Member(l.stamp, true, "null"));
    } else if db.members[k].stamp < l.stamp {
      MemberGrows(db.members, k, db.members[k].(stamp := l.stamp, left := true));
    }
  }

  lemma GuardedGrows(db: Db, me: UserId, next: Op)
    requires Phase(next) == 3 && ProperOp(me, next)
    ensures SameGates(db, Step(db, me, next), me) && TablesGrow(db, Step(db, me, next))
  {
    match next
    case OtherMember(o) => if MemberWins(db, o) { OtherGrows(db, me, o); }
    case Depart(l) => DepartGrows(db, me, l);
    case _ =>
  }

  lemma DeliveredStaysUnderDeliver(db: Db, d: MessageIn, e: MessageIn, history: bool, asked: Option<Stamp>)
    requires MessageAtLeast(db, d) && !e.content.partial
    ensures MessageAtLeast(StepDeliver(db, e, history, asked), d)
  {
    if Lands(db, e, history, asked) && MessageWins(db.messages, e) {
      var stored := db.messages[e.id := StoredMessage(db.messages, e)];
      assert Unquoted(DeliveredMessages(db.messages, e, history)[d.id]) == Unquoted(stored[d.id]);
    }
  }

  lemma DeliveredStaysUnderBury(db: Db, d: MessageIn, t: TombstoneIn)
    requires MessageAtLeast(db, d)
    ensures MessageAtLeast(StepBury(db, t), d)
  {
    if MayLand(db, t.channel, t.stamp, false) {
      assert Unquoted(BuriedMessages(db.messages, t)[d.id]) == Unquoted(Entombed(db.messages, t)[d.id]);
    }
  }

  lemma BuriedStays(db: Db, t: TombstoneIn, u: TombstoneIn)
    requires Buried(db, t)
    ensures Buried(StepBury(db, u), t)
  {
    if MayLand(db, u.channel, u.stamp, false) {
      var entombed, after := Entombed(db.messages, u), BuriedMessages(db.messages, u);
      assert Unquoted(after[t.id]) == Unquoted(entombed[t.id]);
      forall id | id in after && Quotes(after[id], t.id)
        ensures after[id].content.quote == Some(DELETED_QUOTE)
      {
        assert Unquoted(after[id]) == Unquoted(entombed[id]);
      }
    }
  }

  lemma StaysSettled(db: Db, me: UserId, op: Op, next: Op)
    requires DeparturesLow(db, me) && ProperOp(me, op) && ProperOp(me, next) && Phase(op) <= Phase(next)
    requires next.Deliver? ==> !next.d.content.partial
    requires Settled(db, me, op)
    ensures Settled(Step(db, me, next), me, op)
  {
    if Phase(next) <= 2 {
      match next
      case OwnMember(m) => OwnStaysSettled(db, me, op, m);
      case Remove(r) => RemovedStaysSettled(db, me, op, r);
    } else if Phase(next) == 3 {
      GuardedGrows(db, me, next);
    } else {
      match next {
        case Deliver(e, history, asked) => DeliverOnlyMessages(db, e, history, asked);
        case Bury(t) => BuryOnlyMessages(db, t);
      }
      if op.Deliver? && MessageAtLeast(db, op.d) {
        match next
        case Deliver(e, history, asked) => DeliveredStaysUnderDeliver(db, op.d, e, history, asked);
        case Bury(t) => DeliveredStaysUnderBury(db, op.d, t);
      } else if op.Bury? && Buried(db, op.t) {
        BuriedStays(db, op.t, next.t);
      }
    }
  }

  // ---- The whole batch ----

  lemma {:induction false} RunSettles(db: Db, me: UserId, ops: seq<Op>)
    requires DeparturesLow(db, me) && InOrder(ops)
    requires forall op :: op in ops ==> ProperOp(me, op) && ServerOp(op)
    ensures DeparturesLow(Run(db, me, ops), me)
    ensures forall op :: op in ops ==> Settled(Run(db, me, ops), me, op)
  {
    if ops != [] {
      var rest, last := ops[..|ops| - 1], ops[|ops| - 1];
      var before := Run(db, me, rest);
      RunSettles(db, me, rest);
      DeparturesStayLow(before, me, last);
      JustSettled(before, me, last);
      forall op | op in rest
        ensures Settled(Step(before, me, last), me, op)
      {
        StaysSettled(before, me, op, last);
      }
    }
  }

  predicate Between(ops: seq<Op>, low: nat, high: nat) {
    forall i :: 0 <= i < |ops| ==> low <= Phase(ops[i]) <= high
  }

  /** Operations up to one phase, then operations of a phase that isn't earlier. */
  lemma PhasesJoin(xs: seq<Op>, ys: seq<Op>, phase: nat, next: nat)
    requires InOrder(xs) && Between(xs, 1, phase) && phase <= next
    requires InOrder(ys) && Between(ys, next, next)
    ensures InOrder(xs + ys) && Between(xs + ys, 1, next)
  {
  }

  lemma MemberPhases(ms: seq<MemberIn>, me: UserId)
    ensures Between(OwnOps(ms, me), 1, 1) && Between(OtherOps(ms, me), 3, 3)
  {
    MemberOpsProper(ms, me);
    var own, others := OwnOps(ms, me), OtherOps(ms, me);
    assert forall i :: 0 <= i < |own| ==> own[i] in own;
    assert forall i :: 0 <= i < |others| ==> others[i] in others;
  }

  lemma OpsInOrder(me: UserId, b: Batch)
    ensures InOrder(Ops(me, b))
  {
    MemberPhases(b.memberships, me);
    var ops := OwnOps(b.memberships, me);
    PhasesJoin(ops, RemoveOps(b.removed), 1, 2);
    ops := ops + RemoveOps(b.removed);
    PhasesJoin(ops, ChannelOps(b.channels), 2, 3);
    ops := ops + ChannelOps(b.channels);
    PhasesJoin(ops, OtherOps(b.memberships, me), 3, 3);
    ops := ops + OtherOps(b.memberships, me);
    PhasesJoin(ops, DepartOps(b.left), 3, 3);
    ops := ops + DepartOps(b.left);
    PhasesJoin(ops, UserOps(b.users), 3, 3);
    ops := ops + UserOps(b.users);
    PhasesJoin(ops, DeliverOps(b.messages, b.history, b.floors), 3, 4);
    ops := ops + DeliverOps(b.messages, b.history, b.floors);
    PhasesJoin(ops, BuryOps(b.tombstones), 4, 5);
  }

  /** Replaying a batch changes nothing, in every state whose own departures are low. */
  lemma ReplayChangesNothing(db: Db, me: UserId, b: Batch)
    requires DeparturesLow(db, me) && ServerBatch(me, b)
    ensures Applied(Applied(db, me, b), me, b) == Applied(db, me, b)
  {
    OpsServed(me, b);
    OpsInOrder(me, b);
    RunSettles(db, me, Ops(me, b));
    AllSettledAbsorb(Applied(db, me, b), me, Ops(me, b));
  }

  function AfterBatches(db: Db, me: UserId, past: seq<Batch>): Db {
    if past == [] then db else Applied(AfterBatches(db, me, past[..|past| - 1]), me, past[|past| - 1])
  }

  lemma {:induction false} NoOwnDepartureRun(db: Db, me: UserId, ops: seq<Op>)
    requires NoOwnDeparture(db, me) && forall op :: op in ops ==> ProperOp(me, op)
    ensures NoOwnDeparture(Run(db, me, ops), me)
  {
    if ops != [] {
      NoOwnDepartureRun(db, me, ops[..|ops| - 1]);
      NoOwnDepartureStep(Run(db, me, ops[..|ops| - 1]), me, ops[|ops| - 1]);
    }
  }

  lemma {:induction false} NoOwnDepartureAfter(me: UserId, past: seq<Batch>)
    requires forall b :: b in past ==> ServerBatch(me, b)
    ensures NoOwnDeparture(AfterBatches(EMPTY, me, past), me)
  {
    if past != [] {
      NoOwnDepartureAfter(me, past[..|past| - 1]);
      OpsServed(me, past[|past| - 1]);
      NoOwnDepartureRun(AfterBatches(EMPTY, me, past[..|past| - 1]), me, Ops(me, past[|past| - 1]));
    }
  }

  /** Whatever batches made the tables, replaying one more changes nothing. */
  lemma ReplayAfterAnyBatches(me: UserId, past: seq<Batch>, b: Batch)
    requires ServerBatch(me, b) && forall p :: p in past ==> ServerBatch(me, p)
    ensures
      var db := AfterBatches(EMPTY, me, past);
      Applied(Applied(db, me, b), me, b) == Applied(db, me, b)
  {
    NoOwnDepartureAfter(me, past);
    ReplayChangesNothing(AfterBatches(EMPTY, me, past), me, b);
  }

  lemma RunTwo(db: Db, me: UserId, a: Op, b: Op)
    ensures Run(db, me, [a, b]) == Step(Step(db, me, a), me, b)
  {
    assert [a, b][..1] == [a] && [a][..0] == [];
    assert Run(db, me, [a]) == Step(Run(db, me, []), me, a);
  }

  lemma OneMemberOneRemoval(me: UserId, m: MemberIn, r: RemovedIn)
    requires m.user == me
    ensures Ops(me, Batch([], [m], [], [], [r], [], false, map[], [])) == [OwnMember(m), Remove(r)]
  {
    assert [m][..0] == [];
    assert OwnOps([m], me) == OwnOps([], me) + [OwnMember(m)];
    assert OtherOps([m], me) == OtherOps([], me);
    assert RemoveOps([r]) == [Remove(r)];
    assert [OwnMember(m)] + [Remove(r)] == [OwnMember(m), Remove(r)];
  }

  /** What tells a replay apart: the departure's own stamp as a row, and a removal just below it. */
  function Telling(k: Seat, stamp: Stamp): Batch {
    Batch([], [MemberIn(k.channel, k.user, stamp, "")], [], [], [RemovedIn(k.channel, stamp - 1)], [], false, map[], [])
  }

  lemma TellingRuns(db: Db, me: UserId, k: Seat, stamp: Stamp)
    requires k.user == me
    ensures ServerBatch(me, Telling(k, stamp))
    ensures
      var m, r := MemberIn(k.channel, me, stamp, ""), RemovedIn(k.channel, stamp - 1);
      Applied(db, me, Telling(k, stamp)) == StepRemove(StepOwnMember(db, m), me, r)
  {
    var m, r := MemberIn(k.channel, me, stamp, ""), RemovedIn(k.channel, stamp - 1);
    OneMemberOneRemoval(me, m, r);
    RunTwo(db, me, OwnMember(m), Remove(r));
  }

  /** The first time the departure keeps the row out, and the removal deletes the departure. */
  lemma ToldOnce(db: Db, me: UserId, k: Seat)
    requires k in db.members && k.user == me && db.members[k].left
    requires FloorOf(db, k.channel).Some? ==> FloorOf(db, k.channel).value + 1 < db.members[k].stamp
    ensures
      var after := Applied(db, me, Telling(k, db.members[k].stamp));
      FenceOf(after, k.channel) == Some(db.members[k].stamp - 1) && k !in after.members
  {
    TellingRuns(db, me, k, db.members[k].stamp);
    assert k == Seat(k.channel, me);
    assert StepOwnMember(db, MemberIn(k.channel, me, db.members[k].stamp, "")) == db;
  }

  /** The second time the row goes in, and lifts the fence. */
  lemma ToldTwice(db: Db, me: UserId, k: Seat, stamp: Stamp)
    requires FenceOf(db, k.channel) == Some(stamp - 1) && k !in db.members && k.user == me
    ensures FenceOf(Applied(db, me, Telling(k, stamp)), k.channel) == None
  {
    TellingRuns(db, me, k, stamp);
    var joined := StepOwnMember(db, MemberIn(k.channel, me, stamp, ""));
    assert OwnStamp(joined, me, k.channel) == Some(stamp);
  }

  /** The removal deletes the departure; so the row it kept out goes in the second time, and lifts
      the fence. */
  lemma ReplayAfterOwnDeparture(db: Db, me: UserId, k: Seat)
    requires k in db.members && k.user == me && db.members[k].left
    requires FloorOf(db, k.channel).Some? ==> FloorOf(db, k.channel).value + 1 < db.members[k].stamp
    ensures
      var stamp := db.members[k].stamp;
      var b := Telling(k, stamp);
      && ServerBatch(me, b)
      && FenceOf(Applied(db, me, b), k.channel) == Some(stamp - 1)
      && FenceOf(Applied(Applied(db, me, b), me, b), k.channel) == None
  {
    var stamp := db.members[k].stamp;
    TellingRuns(db, me, k, stamp);
    ToldOnce(db, me, k);
    ToldTwice(Applied(db, me, Telling(k, stamp)), me, k, stamp);
  }

  ghost predicate ReplaysAlike(db: Db, me: UserId) {
    forall b :: ServerBatch(me, b) ==> Applied(Applied(db, me, b), me, b) == Applied(db, me, b)
  }

  /** Replaying is idempotent for every batch exactly in the states whose own departures are low. */
  lemma ReplaysAlikeIff(db: Db, me: UserId)
    ensures ReplaysAlike(db, me) <==> DeparturesLow(db, me)
  {
    if DeparturesLow(db, me) {
      forall b | ServerBatch(me, b)
        ensures Applied(Applied(db, me, b), me, b) == Applied(db, me, b)
      {
        ReplayChangesNothing(db, me, b);
      }
    } else {
      var k :| k in db.members && k.user == me && db.members[k].left
        && !(FloorOf(db, k.channel).Some? && db.members[k].stamp <= FloorOf(db, k.channel).value + 1);
      ReplayAfterOwnDeparture(db, me, k);
      var b := Telling(k, db.members[k].stamp);
      assert ServerBatch(me, b);
      assert Applied(Applied(db, me, b), me, b) != Applied(db, me, b);
    }
  }
}
