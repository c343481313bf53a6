/** What a call guarantees over every run of its task: any interleaving of frames, inputs, results and
    connection changes, where a result comes only for what is in flight. */
module CallTheorems {
  import opened Tables
  import opened Call
  import opened CallTask
  import opened CallInvariants
  import opened CallParts
  import opened CallVersions

  ghost predicate Runs(s: State, turns: seq<Turn>) {
    turns != [] ==>
      var before := RunAll(s, turns[..|turns| - 1]);
      && Runs(s, turns[..|turns| - 1])
      && (!before.ending.ended ==> InFlight(before, turns[|turns| - 1].m))
  }

  /** Offers come with versions that don't go down, and none again after its answer was refused. */
  ghost predicate Ordered(s: State, turns: seq<Turn>) {
    turns != [] ==>
      var before := RunAll(s, turns[..|turns| - 1]);
      && Ordered(s, turns[..|turns| - 1])
      && (!before.ending.ended ==> InOrderTurn(before, turns[|turns| - 1].m))
  }

  ghost predicate Inv(s: State) {
    PubOk(s) && FramesOk(s) && IceOk(s) && MediaOk(s)
  }

  lemma StartInv(generation: nat, publish: bool)
    ensures Inv(Start(generation, publish)) && SubOk(Start(generation, publish).sub, false, true)
  {
  }

  lemma StepInv(s: State, m: Incoming, env: Env)
    requires Inv(s) && !s.ending.ended && InFlight(s, m)
    ensures Inv(Handle(s, m, env))
  {
    PubStep(s, m, env);
    FramesStep(s, m, env);
    IceStep(s, m, env);
    MediaStep(s, m, env);
  }

  lemma {:induction false} RunKeeps(s: State, turns: seq<Turn>)
    requires Inv(s) && Runs(s, turns)
    ensures Inv(RunAll(s, turns))
  {
    if turns != [] {
      var before := RunAll(s, turns[..|turns| - 1]);
      RunKeeps(s, turns[..|turns| - 1]);
      if !before.ending.ended {
        StepInv(before, turns[|turns| - 1].m, turns[|turns| - 1].env);
      }
    }
  }

  lemma {:induction false} RunKeepsSub(s: State, turns: seq<Turn>, ordered: bool)
    requires SubOk(s.sub, s.ending.ended, ordered) && Runs(s, turns) && (ordered ==> Ordered(s, turns))
    ensures SubOk(RunAll(s, turns).sub, RunAll(s, turns).ending.ended, ordered)
  {
    if turns != [] {
      var before := RunAll(s, turns[..|turns| - 1]);
      RunKeepsSub(s, turns[..|turns| - 1], ordered);
      if !before.ending.ended {
        SubStep(before, turns[|turns| - 1].m, turns[|turns| - 1].env, ordered);
      }
    }
  }

  // ---- Publish negotiation ----

  /** At most one publish and at most one subscribe operation are ever in flight. */
  lemma OneOperationEach(generation: nat, publish: bool, turns: seq<Turn>)
    requires Runs(Start(generation, publish), turns)
    ensures |RunAll(Start(generation, publish), turns).pub.ops| <= 1
    ensures |RunAll(Start(generation, publish), turns).sub.ops| <= 1
  {
    StartInv(generation, publish);
    RunKeeps(Start(generation, publish), turns);
    RunKeepsSub(Start(generation, publish), turns, false);
  }

  /** Each offer is written as `call.publish` at most once, in the order they were made. */
  lemma OffersWrittenOnce(generation: nat, publish: bool, turns: seq<Turn>, i: nat, j: nat)
    requires Runs(Start(generation, publish), turns)
    requires
      var frames := RunAll(Start(generation, publish), turns).frames;
      i < j < |frames| && frames[i].Publish? && frames[j].Publish?
    ensures
      var frames := RunAll(Start(generation, publish), turns).frames;
      frames[i].offer < frames[j].offer
  {
    StartInv(generation, publish);
    RunKeeps(Start(generation, publish), turns);
  }

  /** A renegotiation asked for is pending until an offer starts after it; a stable, connected call
      has none pending. */
  lemma NoRenegotiationIsLost(generation: nat, publish: bool, turns: seq<Turn>, i: nat)
    requires Runs(Start(generation, publish), turns)
    requires
      var s := RunAll(Start(generation, publish), turns);
      !s.ending.ended && i < |s.pub.events| && s.pub.events[i].Wanted?
    ensures
      var s := RunAll(Start(generation, publish), turns);
      || (exists j :: i < j < |s.pub.events| && s.pub.events[j].Started?)
      || (s.pub.pending && !(s.pub.state.Stable? && s.link.connected))
  {
    StartInv(generation, publish);
    RunKeeps(Start(generation, publish), turns);
    var events := RunAll(Start(generation, publish), turns).pub.events;
    if forall j :: i < j < |events| ==> !events[j].Started? {
      assert Owed(events);
    }
  }

  // ---- Remote candidates ----

  /** Until the call ends, what came for a PeerConnection is what the engine was given, in order, and
      then what is held; each one given belonged to the description applied at the time, and the
      first held belongs to none yet. */
  lemma CandidatesAreConserved(generation: nat, publish: bool, turns: seq<Turn>, pc: PcKind)
    requires Runs(Start(generation, publish), turns)
    requires !RunAll(Start(generation, publish), turns).ending.ended
    ensures Conserved(LaneOf(RunAll(Start(generation, publish), turns).ice, pc))
    ensures Fitting(LaneOf(RunAll(Start(generation, publish), turns).ice, pc))
  {
    StartInv(generation, publish);
    RunKeeps(Start(generation, publish), turns);
  }

  // ---- Subscribe versions ----

  /** No turn handled before the end is late in the state it meets. */
  ghost predicate NeverLate(s: State, turns: seq<Turn>) {
    turns != [] ==>
      var before := RunAll(s, turns[..|turns| - 1]);
      && NeverLate(s, turns[..|turns| - 1])
      && (!before.ending.ended ==> !Late(before.sub, turns[|turns| - 1].m))
  }

  lemma {:induction false} RunOrders(s: State, turns: seq<Turn>)
    requires SubOk(s.sub, s.ending.ended, false) && Runs(s, turns)
    requires !s.ending.ended ==> Chained(s.sub)
    ensures !RunAll(s, turns).ending.ended ==> Chained(RunAll(s, turns).sub)
    ensures Increasing(RunAll(s, turns).sub.applied) <==> Increasing(s.sub.applied) && NeverLate(s, turns)
  {
    if turns != [] {
      var rest := turns[..|turns| - 1];
      var before := RunAll(s, rest);
      RunOrders(s, rest);
      RunKeepsSub(s, rest, false);
      if !before.ending.ended {
        OrderStep(before, turns[|turns| - 1].m, turns[|turns| - 1].env);
      }
    }
  }

  /** The engine applies strictly increasing versions, each at most once, exactly in the runs that
      never meet a late offer. */
  lemma VersionsIncreaseIff(generation: nat, publish: bool, turns: seq<Turn>)
    requires Runs(Start(generation, publish), turns)
    ensures Increasing(RunAll(Start(generation, publish), turns).sub.applied) <==> NeverLate(Start(generation, publish), turns)
  {
    StartInv(generation, publish);
    RunOrders(Start(generation, publish), turns);
  }

  lemma {:induction false} OrderedIsNeverLate(s: State, turns: seq<Turn>)
    requires SubOk(s.sub, s.ending.ended, true) && Runs(s, turns) && Ordered(s, turns)
    ensures NeverLate(s, turns)
  {
    if turns != [] {
      var rest := turns[..|turns| - 1];
      OrderedIsNeverLate(s, rest);
      RunKeepsSub(s, rest, true);
      if !RunAll(s, rest).ending.ended {
        InOrderIsNotLate(RunAll(s, rest), turns[|turns| - 1].m);
      }
    }
  }

  /** Offers that come in order are never late: the engine applies strictly increasing versions. And a
      kept answer is newer than everything acknowledged. */
  lemma VersionsApplyOnce(generation: nat, publish: bool, turns: seq<Turn>)
    requires Runs(Start(generation, publish), turns) && Ordered(Start(generation, publish), turns)
    ensures
      var s := RunAll(Start(generation, publish), turns);
      && Increasing(s.sub.applied)
      && (!s.ending.ended && s.sub.retained.Some? ==> s.sub.acked < s.sub.retained.value.version)
  {
    StartInv(generation, publish);
    OrderedIsNeverLate(Start(generation, publish), turns);
    VersionsIncreaseIff(generation, publish, turns);
    RunKeepsSub(Start(generation, publish), turns, true);
  }

  lemma {:induction false} AckedNeverDecreases(s: State, turns: seq<Turn>, n: nat)
    requires n <= |turns|
    ensures RunAll(s, turns[..n]).sub.acked <= RunAll(s, turns).sub.acked
  {
    if n == |turns| {
      assert turns[..n] == turns;
    } else {
      var rest := turns[..|turns| - 1];
      assert rest[..n] == turns[..n];
      AckedNeverDecreases(s, rest, n);
      AckedGrows(RunAll(s, rest), turns[|turns| - 1].m, turns[|turns| - 1].env);
    }
  }

  const FINE := Env(true, true, true, true, true, true, true, 1)

  lemma RunNext(s: State, turns: seq<Turn>, m: Incoming)
    requires !RunAll(s, turns).ending.ended
    ensures RunAll(s, turns + [Turn(m, FINE)]) == Handle(RunAll(s, turns), m, FINE)
    ensures Runs(s, turns) && InFlight(RunAll(s, turns), m) ==> Runs(s, turns + [Turn(m, FINE)])
  {
    assert (turns + [Turn(m, FINE)])[..|turns|] == turns;
  }

  /** Late offers do come about: after any version, any version up to it can be applied, an older one
      as a late offer, the same one again once its answer was refused. */
  lemma DisorderIsApplied(first: nat, second: nat)
    requires 0 < second <= first
    ensures exists turns ::
      && Runs(Start(1, false), turns) && !NeverLate(Start(1, false), turns)
      && RunAll(Start(1, false), turns).sub.applied == [first, second]
  {
    var turns := AppliedTwice(first, second, if second < first then AckUnknown else Stale);
    assert !Increasing([first, second]) by {
      assert [first, second][1] <= [first, second][0];
    }
    VersionsIncreaseIff(1, false, turns);
  }

  lemma AppliedTwice(first: nat, second: nat, ack: AckResult) returns (turns: seq<Turn>)
    requires first > 0 && second > 0 && !ack.Acked? && !ack.AckFailed?
    requires first != second || ack.Stale?
    ensures Runs(Start(1, false), turns) && RunAll(Start(1, false), turns).sub.applied == [first, second]
  {
    turns := AnsweredOnce(first);
    turns := OfferedAgain(Start(1, false), turns, first, second, ack);
  }

  lemma OfferedAgain(s: State, before: seq<Turn>, first: nat, second: nat, ack: AckResult) returns (turns: seq<Turn>)
    requires second > 0 && !ack.Acked? && !ack.AckFailed? && (first != second || ack.Stale?)
    requires Runs(s, before) && AnswerSent(RunAll(s, before), first)
    ensures Runs(s, turns) && RunAll(s, turns).sub.applied == [first, second]
  {
    AckedAndOffered(RunAll(s, before), first, second, ack);
    turns := RunTwo(s, before, SubscribeAckDone(first, ack), OfferFrame(second, []));
  }

  lemma RunTwo(s: State, before: seq<Turn>, m: Incoming, n: Incoming) returns (turns: seq<Turn>)
    requires Runs(s, before) && !RunAll(s, before).ending.ended && InFlight(RunAll(s, before), m)
    requires
      var t := Handle(RunAll(s, before), m, FINE);
      !t.ending.ended && InFlight(t, n)
    ensures Runs(s, turns) && RunAll(s, turns) == Handle(Handle(RunAll(s, before), m, FINE), n, FINE)
  {
    RunNext(s, before, m);
    turns := before + [Turn(m, FINE)];
    RunNext(s, turns, n);
    turns := turns + [Turn(n, FINE)];
  }

  /** The engine applied this offer, and its answer was sent. */
  predicate AnswerSent(s: State, version: nat) {
    && !s.ending.ended && version in s.sub.acks
    && s.sub.latest.None? && s.sub.applying.None? && s.sub.acked == 0 && s.sub.applied == [version]
    && s.sub.retained == Some(Retained(version, ""))
  }

  lemma AnsweredOnce(version: nat) returns (turns: seq<Turn>)
    requires version > 0
    ensures Runs(Start(1, false), turns) && AnswerSent(RunAll(Start(1, false), turns), version)
  {
    var s := Start(1, false);
    RunNext(s, [], OfferFrame(version, []));
    turns := [Turn(OfferFrame(version, []), FINE)];
    assert [] + turns == turns;
    var offered := OnOffer(s, FINE, version, []);
    assert RunAll(s, turns) == offered;
    assert offered.sub.ops == multiset{ApplyOffer(1, version, [])};
    AnsweredFirst(offered, version);
    RunNext(s, turns, SubscribeAppliedDone(1, version, [], Some("")));
    turns := turns + [Turn(SubscribeAppliedDone(1, version, [], Some("")), FINE)];
  }

  lemma AnsweredFirst(s: State, version: nat)
    requires !s.ending.ended && s.link.connected && s.ice.subscribe == NEW_LANE
    requires s.sub == Sub(1, None, Some(Applying(1, version)), None, 0, multiset{ApplyOffer(1, version, [])}, multiset{}, [version], version, {})
    ensures AnswerSent(OnSubscribeApplied(s, FINE, 1, version, [], Some("")), version)
  {
  }

  lemma AckedAndOffered(s: State, first: nat, second: nat, ack: AckResult)
    requires AnswerSent(s, first) && second > 0 && !ack.Acked? && !ack.AckFailed? && (first != second || ack.Stale?)
    ensures !s.ending.ended && InFlight(s, SubscribeAckDone(first, ack))
    ensures
      var t := Handle(s, SubscribeAckDone(first, ack), FINE);
      !t.ending.ended && Handle(t, OfferFrame(second, []), FINE).sub.applied == [first, second]
  {
  }

  // ---- The end ----

  /** The engine was closed exactly once if the call ended, never before; at most one `call.leave`
      is written, it is the last frame, and nothing else follows the end. */
  ghost predicate EndedProperly(frames: seq<Frame>, e: Ending) {
    && e.closes == (if e.ended then 1 else 0)
    && (forall i :: 0 <= i < |frames| && frames[i].LeaveFrame? ==> e.ended && i == |frames| - 1)
    && (e.ended ==> |frames| <= e.written + 1)
    && (forall i :: e.ended && e.written <= i < |frames| ==> frames[i].LeaveFrame?)
  }

  lemma EndIsProper(frames: seq<Frame>, e: Ending)
    requires EndOk(frames, e)
    ensures EndedProperly(frames, e)
  {
  }

  lemma EndsOnce(generation: nat, publish: bool, turns: seq<Turn>)
    requires Runs(Start(generation, publish), turns)
    ensures
      var s := RunAll(Start(generation, publish), turns);
      EndedProperly(s.frames, s.ending)
  {
    StartInv(generation, publish);
    RunKeeps(Start(generation, publish), turns);
    var s := RunAll(Start(generation, publish), turns);
    EndIsProper(s.frames, s.ending);
  }

  /** Whatever else ends the call within the same handler changes nothing. */
  lemma FirstFinishStands(s: State, first: EndReason, later: EndReason, tell: bool, again: bool)
    ensures Finish(Finish(s, first, tell), later, again) == Finish(s, first, tell)
  {
  }

  /** The first end reason stands for the rest of the run. */
  lemma FirstReasonStands(s: State, turns: seq<Turn>, n: nat)
    requires n <= |turns| && RunAll(s, turns[..n]).ending.ended
    ensures RunAll(s, turns).ending.reason == RunAll(s, turns[..n]).ending.reason
  {
    EndedStays(s, turns, n);
  }

  // ---- Replies ----

  /** Every SetMedia reply is answered exactly once or held in exactly one place, and while any is
      held a `call.media` is in flight; after the end all are answered. */
  lemma RepliesAnsweredOnce(generation: nat, publish: bool, turns: seq<Turn>)
    requires Runs(Start(generation, publish), turns)
    ensures
      var s := RunAll(Start(generation, publish), turns);
      && s.media.asked == Told(Told(s.media.answers, s.media.reply), QueuedReply(s.media.queued))
      && (s.media.reply.Some? || s.media.queued.Some? ==> |s.media.flight| == 1)
      && (s.ending.ended ==> s.media.asked == s.media.answers)
  {
    StartInv(generation, publish);
    RunKeeps(Start(generation, publish), turns);
  }
}
