/** What a call owes to what it was told: candidates, replies, renegotiations and offers counted from the
    messages themselves; and what each handler does with the wire, the engine and its callers. */
module CallLaws {
  import opened Tables
  import opened Call
  import opened CallInvariants
  import opened CallParts
  import opened CallVersions
  import opened CallTheorems

  // ---- Remote candidates ----

  /** The candidates for a PeerConnection among the messages met before the end, in order. */
  function Heard(s: State, turns: seq<Turn>, pc: PcKind): seq<Candidate> {
    if turns == [] then []
    else
      var before, m := Heard(s, turns[..|turns| - 1], pc), turns[|turns| - 1].m;
      if !RunAll(s, turns[..|turns| - 1]).ending.ended && m.RemoteCandidate? && m.pc == pc then before + [m.candidate] else before
  }

  function Arrived(m: Incoming, pc: PcKind): seq<Candidate> {
    if m.RemoteCandidate? && m.pc == pc then [m.candidate] else []
  }

  predicate SameReceived(s: State, t: State) {
    t.ice.publish.received == s.ice.publish.received && t.ice.subscribe.received == s.ice.subscribe.received
  }

  lemma FlushReceives(s: State, pc: PcKind, adds: nat)
    requires LaneOf(s.ice, pc).mids.Some?
    ensures SameReceived(s, FlushRemote(s, pc, adds))
  {
  }

  lemma AppliedReceives(s: State, env: Env, n: nat, mids: seq<Mid>, ok: bool)
    ensures SameReceived(s, OnPublishApplied(s, env, n, mids, ok))
  {
    var t := s.(pub := s.pub.(ops := s.pub.ops - multiset{ApplyAnswer(n, mids)}));
    if t.pub.state == ApplyingAnswer(n) && ok {
      var settled := WithLane(t.(pub := t.pub.(state := Stable)), PublishPc, t.ice.publish.(mids := Some(mids)));
      FlushReceives(settled, PublishPc, env.adds);
      var flushed := FlushRemote(settled, PublishPc, env.adds);
      assert SameReceived(flushed, Reannounce(flushed, env.media));
    }
  }

  lemma SubscribedReceives(s: State, env: Env, n: nat, version: nat, mids: seq<Mid>, sdp: Option<string>)
    ensures SameReceived(s, OnSubscribeApplied(s, env, n, version, mids, sdp))
  {
    var t := s.(sub := s.sub.(ops := s.sub.ops - multiset{ApplyOffer(n, version, mids)}));
    if t.sub.applying.Some? && t.sub.applying.value.n == n && sdp.Some? {
      var idle := t.(sub := t.sub.(applying := None));
      var described := WithLane(idle, SubscribePc, idle.ice.subscribe.(mids := Some(mids)));
      FlushReceives(described, SubscribePc, env.adds);
      var flushed := FlushRemote(described, SubscribePc, env.adds);
      assert SameReceived(flushed, OfferApplied(flushed, env, version, sdp.value));
    }
  }

  lemma HandlerReceives(s: State, m: Incoming, env: Env, pc: PcKind)
    ensures LaneOf(Handle(s, m, env).ice, pc).received == LaneOf(s.ice, pc).received + Arrived(m, pc)
  {
    if m.PublishAppliedDone? {
      AppliedReceives(s, env, m.n, m.mids, m.ok);
    } else if m.SubscribeAppliedDone? {
      SubscribedReceives(s, env, m.n, m.version, m.mids, m.sdp);
    } else if m.RemoteCandidate? {
      CandidateReceives(s, env, m.pc, m.candidate, pc);
    } else if IsResult(m) {
      SameIceResults(s, m, env);
    } else {
      SameIceInputs(s, m, env);
    }
  }

  lemma CandidateReceives(s: State, env: Env, pc: PcKind, c: Candidate, other: PcKind)
    ensures LaneOf(OnRemoteCandidate(s, env, pc, c).ice, other).received ==
      LaneOf(s.ice, other).received + (if pc == other then [c] else [])
  {
  }

  lemma {:induction false} HeardIsReceived(s: State, turns: seq<Turn>, pc: PcKind)
    ensures LaneOf(RunAll(s, turns).ice, pc).received == LaneOf(s.ice, pc).received + Heard(s, turns, pc)
  {
    if turns != [] {
      var rest, last := turns[..|turns| - 1], turns[|turns| - 1];
      HeardIsReceived(s, rest, pc);
      if !RunAll(s, rest).ending.ended {
        HandlerReceives(RunAll(s, rest), last.m, last.env, pc);
      }
    }
  }

  /** Until the call ends, every candidate that came was given to the engine, in order, or is held. */
  lemma {:induction false} EveryCandidateIsGivenOrHeld(generation: nat, publish: bool, turns: seq<Turn>, pc: PcKind)
    requires CallTheorems.Runs(Start(generation, publish), turns)
    requires !RunAll(Start(generation, publish), turns).ending.ended
    ensures
      var lane := LaneOf(RunAll(Start(generation, publish), turns).ice, pc);
      Candidates(lane.given) + lane.buffer == Heard(Start(generation, publish), turns, pc)
  {
    CandidatesAreConserved(generation, publish, turns, pc);
    HeardIsReceived(Start(generation, publish), turns, pc);
  }

  // ---- Replies of SetMedia ----

  /** The replies of the SetMedia messages met before the end. */
  function RepliesOwed(s: State, turns: seq<Turn>): multiset<Reply> {
    if turns == [] then multiset{}
    else
      var before, m := RepliesOwed(s, turns[..|turns| - 1]), turns[|turns| - 1].m;
      if !RunAll(s, turns[..|turns| - 1]).ending.ended && m.AskMedia? then before + multiset{m.reply} else before
  }

  lemma FinishAsks(s: State, reason: EndReason, tell: bool)
    ensures Finish(s, reason, tell).media.asked == s.media.asked
  {
  }

  lemma FlushAsks(s: State, pc: PcKind, adds: nat, ok: bool)
    requires LaneOf(s.ice, pc).mids.Some?
    ensures FlushRemote(s, pc, adds).media.asked == s.media.asked
    ensures Reannounce(s, ok).media.asked == s.media.asked
  {
  }

  lemma AppliedAsks(s: State, env: Env, n: nat, mids: seq<Mid>, ok: bool)
    ensures OnPublishApplied(s, env, n, mids, ok).media.asked == s.media.asked
  {
    var t := s.(pub := s.pub.(ops := s.pub.ops - multiset{ApplyAnswer(n, mids)}));
    if t.pub.state == ApplyingAnswer(n) && ok {
      var settled := WithLane(t.(pub := t.pub.(state := Stable)), PublishPc, t.ice.publish.(mids := Some(mids)));
      FlushAsks(settled, PublishPc, env.adds, env.media);
      FlushAsks(FlushRemote(settled, PublishPc, env.adds), PublishPc, 0, env.media);
    }
  }

  lemma SubscribedAsks(s: State, env: Env, n: nat, version: nat, mids: seq<Mid>, sdp: Option<string>)
    ensures OnSubscribeApplied(s, env, n, version, mids, sdp).media.asked == s.media.asked
  {
    var t := s.(sub := s.sub.(ops := s.sub.ops - multiset{ApplyOffer(n, version, mids)}));
    if t.sub.applying.Some? && t.sub.applying.value.n == n && sdp.Some? {
      var idle := t.(sub := t.sub.(applying := None));
      var described := WithLane(idle, SubscribePc, idle.ice.subscribe.(mids := Some(mids)));
      FlushAsks(described, SubscribePc, env.adds, true);
      SameMediaOffers(FlushRemote(described, SubscribePc, env.adds), env, version, mids, sdp.value);
    }
  }

  lemma ResumedAsks(s: State, env: Env)
    ensures AfterResume(s, env).media.asked == s.media.asked
  {
    var published := UnsentSent(s.(pub := PublishResumed(s.pub)), env.publish);
    SameMediaPublishes(s, env, 0);
    var retained := SendRetained(published, env.answer);
    SameMediaOffers(published, env, 0, [], "");
    assert DirtySent(retained, env.media).media.asked == retained.media.asked;
  }

  lemma HandlerAsks(s: State, m: Incoming, env: Env)
    ensures Handle(s, m, env).media.asked == s.media.asked + (if m.AskMedia? then multiset{m.reply} else multiset{})
  {
    if m.PublishAppliedDone? {
      AppliedAsks(s, env, m.n, m.mids, m.ok);
    } else if m.SubscribeAppliedDone? {
      SubscribedAsks(s, env, m.n, m.version, m.mids, m.sdp);
    } else if m.ResumedDone? && m.resumed.ResumeOk? {
      var t := s.(link := s.link.(resuming := false, resumes := s.link.resumes - multiset{m.generation}));
      ResumedAsks(t.(link := t.link.(generation := m.generation, connected := true)), env);
    } else if m.RemoteCandidate? {
      var heard := SameMediaCandidate(s, env, m.pc, m.candidate);
      FinishAsks(heard, REFUSED, true);
    } else if m.PublishOfferDone? || m.PublishAnswerDone? || m.SubscribeAckDone? {
      RepliesAsk(s, m, env);
    } else {
      OthersAsk(s, m, env);
    }
  }

  lemma RepliesAsk(s: State, m: Incoming, env: Env)
    requires m.PublishOfferDone? || m.PublishAnswerDone? || m.SubscribeAckDone?
    ensures Handle(s, m, env).media.asked == s.media.asked
  {
  }

  lemma SetMediaAsks(s: State, env: Env, intent: Intent, reply: Reply)
    ensures OnSetMedia(s, env, intent, reply).media.asked == s.media.asked + multiset{reply}
  {
  }

  lemma MediaAckAsks(s: State, env: Env, intent: Intent, prev: Intent, r: MediaResult)
    ensures OnMediaAck(s, env, intent, prev, r).media.asked == s.media.asked
  {
  }

  lemma OfferAsks(s: State, env: Env, version: nat, mids: seq<Mid>)
    ensures OnOffer(s, env, version, mids).media.asked == s.media.asked
  {
  }

  lemma LinkAsks(s: State, env: Env, generation: nat, r: ResumeResult, ready: bool, now: nat)
    requires !r.ResumeOk?
    ensures OnConn(s, env, ready, now).media.asked == s.media.asked
    ensures OnResumed(s, env, generation, r, ready, now).media.asked == s.media.asked
  {
  }

  lemma InputsAsk(s: State, m: Incoming, env: Env)
    requires m.JoinedFrame? || m.EndedFrame? || m.LocalCandidate? || m.EngineBroke? || m.Republish? || m.Leave?
      || m.HandleDropped? || m.NewSession?
    ensures Handle(s, m, env).media.asked == s.media.asked
  {
  }

  lemma OthersAsk(s: State, m: Incoming, env: Env)
    requires !m.PublishAppliedDone? && !m.SubscribeAppliedDone? && !m.RemoteCandidate?
    requires !m.PublishOfferDone? && !m.PublishAnswerDone? && !m.SubscribeAckDone?
    requires m.ResumedDone? ==> !m.resumed.ResumeOk?
    ensures Handle(s, m, env).media.asked == s.media.asked + (if m.AskMedia? then multiset{m.reply} else multiset{})
  {
    match m
    case AskMedia(intent, reply) => SetMediaAsks(s, env, intent, reply);
    case MediaAckDone(intent, prev, r) => MediaAckAsks(s, env, intent, prev, r);
    case OfferFrame(version, mids) => OfferAsks(s, env, version, mids);
    case NewConn(ready, generation) => LinkAsks(s, env, 0, ResumeLost, ready, generation);
    case ResumedDone(generation, r, ready, now) => LinkAsks(s, env, generation, r, ready, now);
    case _ => InputsAsk(s, m, env);
  }

  lemma {:induction false} OwedIsAsked(s: State, turns: seq<Turn>)
    ensures RunAll(s, turns).media.asked == s.media.asked + RepliesOwed(s, turns)
  {
    if turns != [] {
      var rest, last := turns[..|turns| - 1], turns[|turns| - 1];
      OwedIsAsked(s, rest);
      if !RunAll(s, rest).ending.ended {
        HandlerAsks(RunAll(s, rest), last.m, last.env);
      }
    }
  }

  /** Every SetMedia that was met is answered once, or its caller is the one held behind the `call.media`
      in flight or the one queued; after the end all are answered. */
  lemma {:induction false} EverySetMediaIsAnswered(generation: nat, publish: bool, turns: seq<Turn>)
    requires CallTheorems.Runs(Start(generation, publish), turns)
    ensures
      var s, owed := RunAll(Start(generation, publish), turns), RepliesOwed(Start(generation, publish), turns);
      && owed == Told(Told(s.media.answers, s.media.reply), QueuedReply(s.media.queued))
      && (s.media.reply.Some? || s.media.queued.Some? ==> |s.media.flight| == 1)
      && (s.ending.ended ==> owed == s.media.answers)
  {
    RepliesAnsweredOnce(generation, publish, turns);
    OwedIsAsked(Start(generation, publish), turns);
    assert multiset{} + RepliesOwed(Start(generation, publish), turns) == RepliesOwed(Start(generation, publish), turns);
  }

  // ---- Renegotiations ----

  /** A pending renegotiation stays pending until an offer starts. */
  predicate PendingKept(p: Pub, q: Pub) {
    q.wanted == p.wanted && p.count <= q.count && (p.pending ==> q.pending || p.count < q.count)
  }

  lemma PendingStep(s: State, m: Incoming, env: Env)
    ensures PendingKept(s.pub, Handle(s, m, env).pub)
  {
    if m.PublishAppliedDone? {
      PendingApplied(s, env, m.n, m.mids, m.ok);
    } else if m.ResumedDone? && m.resumed.ResumeOk? {
      var t := s.(link := s.link.(resuming := false, resumes := s.link.resumes - multiset{m.generation}));
      PendingResumed(t.(link := t.link.(generation := m.generation, connected := true)), env);
    } else if Publishes(m) {
      PendingPublishes(s, m, env);
    } else {
      CalmStep(s, m, env);
    }
  }

  lemma PendingResumed(s: State, env: Env)
    ensures PendingKept(s.pub, AfterResume(s, env).pub)
  {
    CalmAfterResume(s, env);
    assert PendingKept(s.pub, UnsentSent(s.(pub := PublishResumed(s.pub)), env.publish).pub);
  }

  lemma PendingPublishes(s: State, m: Incoming, env: Env)
    requires m.JoinedFrame? || m.Republish? || m.PublishOfferDone? || m.PublishAnswerDone?
    ensures PendingKept(s.pub, Handle(s, m, env).pub)
  {
  }

  lemma PendingApplied(s: State, env: Env, n: nat, mids: seq<Mid>, ok: bool)
    ensures PendingKept(s.pub, OnPublishApplied(s, env, n, mids, ok).pub)
  {
    var t := s.(pub := s.pub.(ops := s.pub.ops - multiset{ApplyAnswer(n, mids)}));
    if t.pub.state == ApplyingAnswer(n) && ok {
      var settled := WithLane(t.(pub := t.pub.(state := Stable)), PublishPc, t.ice.publish.(mids := Some(mids)));
      CalmSettle(settled, env, mids);
    }
  }

  lemma {:induction false} PendingRuns(s: State, turns: seq<Turn>, n: nat)
    requires n <= |turns|
    ensures PendingKept(RunAll(s, turns[..n]).pub, RunAll(s, turns).pub)
  {
    if n == |turns| {
      assert turns[..n] == turns;
    } else {
      var rest, last := turns[..|turns| - 1], turns[|turns| - 1];
      assert rest[..n] == turns[..n];
      PendingRuns(s, rest, n);
      PendingStep(RunAll(s, rest), last.m, last.env);
    }
  }

  /** A Republish of a publishing call starts an offer at once, exactly if it is stable and connected;
      else it is pending. */
  lemma RepublishAsks(s: State, env: Env)
    ensures
      var p, q := s.pub, Handle(s, Republish, env).pub;
      if !p.wanted then q == p
      else if p.state == Stable && s.link.connected then
        q.count == p.count + 1 && q.state == Offering(q.count) && q.ops == p.ops + multiset{CreateOffer(q.count)} && !q.pending
      else q.count == p.count && q.state == p.state && q.ops == p.ops && q.pending
  {
  }

  lemma {:induction false} GoingBefore(s: State, turns: seq<Turn>, n: nat)
    requires n <= |turns| && !RunAll(s, turns).ending.ended
    ensures !RunAll(s, turns[..n]).ending.ended
  {
    if RunAll(s, turns[..n]).ending.ended {
      CallTask.EndedStays(s, turns, n);
    }
  }

  lemma {:induction false} StillWanted(s: State, turns: seq<Turn>)
    ensures RunAll(s, turns).pub.wanted == s.pub.wanted
  {
    PendingRuns(s, turns, 0);
  }

  /** A stable, connected call has no renegotiation pending. */
  lemma {:induction false} NonePending(generation: nat, publish: bool, turns: seq<Turn>)
    requires CallTheorems.Runs(Start(generation, publish), turns)
    ensures
      var s := RunAll(Start(generation, publish), turns);
      !s.ending.ended && s.pub.state.Stable? && s.link.connected ==> !s.pub.pending
  {
    StartInv(generation, publish);
    CallTheorems.RunKeeps(Start(generation, publish), turns);
  }

  /** After every Republish met before the end of a publishing call, another offer starts, or one is still
      pending and the call isn't stable and connected. */
  lemma {:induction false} EveryRepublishIsServed(generation: nat, turns: seq<Turn>, n: nat)
    requires CallTheorems.Runs(Start(generation, true), turns) && n < |turns| && turns[n].m.Republish?
    requires !RunAll(Start(generation, true), turns).ending.ended
    ensures
      var asked, s := RunAll(Start(generation, true), turns[..n]), RunAll(Start(generation, true), turns);
      || asked.pub.count < s.pub.count
      || (s.pub.pending && !(s.pub.state.Stable? && s.link.connected))
  {
    var start := Start(generation, true);
    GoingBefore(start, turns, n);
    StillWanted(start, turns[..n]);
    NextTurn(start, turns, n);
    RepublishAsks(RunAll(start, turns[..n]), turns[n].env);
    PendingRuns(start, turns, n + 1);
    NonePending(generation, true, turns);
  }

  // ---- Subscribe offers ----

  /** An offer of this version, or a newer one, was given to the engine or waits; or it is acknowledged. */
  predicate Served(b: Sub, version: nat) {
    || version <= b.acked
    || (b.latest.Some? && version <= b.latest.value.version)
    || exists i :: 0 <= i < |b.applied| && version <= b.applied[i]
  }

  /** A kept answer answers an applied offer. */
  predicate KeptIsApplied(b: Sub) {
    && (b.retained.Some? ==> b.retained.value.version in b.applied)
    && (b.applying.Some? ==> b.applying.value.version in b.applied)
  }

  /** What is applied grows; what waits is applied, or gives way to a newer offer. */
  predicate SubGrows(b: Sub, c: Sub) {
    && b.applied <= c.applied && b.acked <= c.acked
    && (b.latest.Some? ==>
          || (c.latest.Some? && b.latest.value.version <= c.latest.value.version)
          || b.latest.value.version in c.applied)
  }

  lemma ServedGrows(b: Sub, c: Sub, version: nat)
    requires Served(b, version) && SubGrows(b, c)
    ensures Served(c, version)
  {
    if i :| 0 <= i < |b.applied| && version <= b.applied[i] {
      assert c.applied[i] == b.applied[i];
    } else if version > b.acked && b.latest.value.version in c.applied {
      var i :| 0 <= i < |c.applied| && c.applied[i] == b.latest.value.version;
    }
  }

  lemma OfferServes(s: State, env: Env, version: nat, mids: seq<Mid>)
    requires KeptIsApplied(s.sub) && SubMatch(s.sub)
    ensures
      var t := OnOffer(s, env, version, mids).sub;
      Served(t, version) && KeptIsApplied(t) && SubGrows(s.sub, t)
  {
    OfferTaken(s, env, version, mids);
    var t := OnOffer(s, env, version, mids).sub;
    assert t.retained == s.sub.retained && t.acked == s.sub.acked;
    if version > s.sub.acked {
      if IsNews(s.sub, version) && (s.sub.retained.Some? ==> s.sub.retained.value.version != version) {
        if s.sub.applying.None? {
          assert t.applied[|s.sub.applied|] == version;
        }
      } else if s.sub.latest.None? || s.sub.latest.value.version < version {
        var held := if s.sub.applying.Some? && s.sub.applying.value.version >= version then s.sub.applying.value.version else version;
        assert held in s.sub.applied;
        var i :| 0 <= i < |s.sub.applied| && s.sub.applied[i] == held;
      }
    }
  }

  lemma SubscribeServes(s: State, env: Env, n: nat, version: nat, mids: seq<Mid>, sdp: Option<string>)
    requires KeptIsApplied(s.sub) && SubMatch(s.sub) && ApplyOffer(n, version, mids) in s.sub.ops
    ensures
      var t := OnSubscribeApplied(s, env, n, version, mids, sdp).sub;
      KeptIsApplied(t) && SubGrows(s.sub, t)
  {
    assert s.sub.applying.Some? && s.sub.applying.value.n == n && s.sub.applying.value.version == version;
    if sdp.Some? {
      var idle := s.(sub := Idled(s.sub, n, version, mids));
      var described := WithLane(idle, SubscribePc, idle.ice.subscribe.(mids := Some(mids)));
      FlushSub(described, SubscribePc, env.adds, true);
      NextServes(FlushRemote(described, SubscribePc, env.adds), env, version, sdp.value);
    }
  }

  lemma NextServes(s: State, env: Env, version: nat, sdp: string)
    requires s.sub.applying.None? && version in s.sub.applied && KeptIsApplied(s.sub)
    ensures
      var t := OfferApplied(s, env, version, sdp).sub;
      KeptIsApplied(t) && SubGrows(s.sub, t)
  {
    var t := OfferApplied(s, env, version, sdp).sub;
    if !s.ending.ended && s.sub.latest.Some? {
      assert t.applied[|s.sub.applied|] == s.sub.latest.value.version;
    }
  }

  lemma AckServes(s: State, version: nat, r: AckResult)
    ensures
      var t := OnSubscribeAck(s, version, r).sub;
      SubGrows(s.sub, t) && (KeptIsApplied(s.sub) ==> KeptIsApplied(t))
  {
  }

  lemma ResumeServes(s: State, env: Env, generation: nat, r: ResumeResult, ready: bool, now: nat)
    ensures
      var t := OnResumed(s, env, generation, r, ready, now).sub;
      SubGrows(s.sub, t) && (KeptIsApplied(s.sub) ==> KeptIsApplied(t))
  {
    var t := s.(link := s.link.(resuming := false, resumes := s.link.resumes - multiset{generation}));
    if r.ResumeOk? {
      ResumedSub(t.(link := t.link.(generation := generation, connected := true)), env);
    }
  }

  lemma ServeStep(s: State, m: Incoming, env: Env)
    requires KeptIsApplied(s.sub) && SubMatch(s.sub) && InFlight(s, m)
    ensures KeptIsApplied(Handle(s, m, env).sub) && SubGrows(s.sub, Handle(s, m, env).sub)
    ensures m.OfferFrame? ==> Served(Handle(s, m, env).sub, m.version)
  {
    if m.OfferFrame? {
      OfferServes(s, env, m.version, m.mids);
    } else if m.SubscribeAppliedDone? {
      SubscribeServes(s, env, m.n, m.version, m.mids, m.sdp);
    } else if m.SubscribeAckDone? {
      AckServes(s, m.version, m.ack);
    } else if m.ResumedDone? {
      ResumeServes(s, env, m.generation, m.resumed, m.ready, m.now);
    } else if m.AskMedia? {
      SameSubMedia(s, env, m.intent, m.intent, m.reply, MediaTaken);
    } else if m.MediaAckDone? {
      SameSubMedia(s, env, m.intent, m.prev, 0, m.media);
    } else if m.PublishAppliedDone? {
      SameSubApplied(s, env, m.n, m.mids, m.ok);
    } else if m.PublishOfferDone? {
      SameSubPublish(s, env, m.n, m.ok, AnswerLost);
    } else if m.PublishAnswerDone? {
      SameSubPublish(s, env, m.n, true, m.answer);
    } else {
      SameSubInputs(s, m, env);
    }
  }

  lemma {:induction false} ServeRuns(generation: nat, publish: bool, turns: seq<Turn>)
    requires CallTheorems.Runs(Start(generation, publish), turns)
    ensures KeptIsApplied(RunAll(Start(generation, publish), turns).sub)
  {
    if turns != [] {
      var s, rest, last := Start(generation, publish), turns[..|turns| - 1], turns[|turns| - 1];
      ServeRuns(generation, publish, rest);
      StartInv(generation, publish);
      RunKeepsSub(s, rest, false);
      if !RunAll(s, rest).ending.ended {
        ServeStep(RunAll(s, rest), last.m, last.env);
      }
    }
  }

  lemma {:induction false} ServedStays(generation: nat, publish: bool, turns: seq<Turn>, n: nat, version: nat)
    requires CallTheorems.Runs(Start(generation, publish), turns) && n <= |turns|
    requires Served(RunAll(Start(generation, publish), turns[..n]).sub, version)
    ensures Served(RunAll(Start(generation, publish), turns).sub, version)
  {
    if n == |turns| {
      assert turns[..n] == turns;
    } else {
      var s, rest, last := Start(generation, publish), turns[..|turns| - 1], turns[|turns| - 1];
      assert rest[..n] == turns[..n];
      ServedStays(generation, publish, rest, n, version);
      ServeRuns(generation, publish, rest);
      StartInv(generation, publish);
      RunKeepsSub(s, rest, false);
      if !RunAll(s, rest).ending.ended {
        ServeStep(RunAll(s, rest), last.m, last.env);
        ServedGrows(RunAll(s, rest).sub, RunAll(s, turns).sub, version);
      }
    }
  }

  lemma {:induction false} NextTurn(s: State, turns: seq<Turn>, n: nat)
    requires CallTheorems.Runs(s, turns) && n < |turns| && !RunAll(s, turns[..n]).ending.ended
    ensures RunAll(s, turns[..n + 1]) == Handle(RunAll(s, turns[..n]), turns[n].m, turns[n].env)
    ensures InFlight(RunAll(s, turns[..n]), turns[n].m)
  {
    PrefixRuns(s, turns, n + 1);
    assert turns[..n + 1][..n] == turns[..n];
  }

  /** Every offer met before the end is acknowledged, or it or a newer one was given to the engine, or
      one waits to be. */
  lemma {:induction false} EveryOfferIsServed(generation: nat, publish: bool, turns: seq<Turn>, n: nat)
    requires CallTheorems.Runs(Start(generation, publish), turns) && n < |turns| && turns[n].m.OfferFrame?
    requires !RunAll(Start(generation, publish), turns[..n]).ending.ended
    ensures Served(RunAll(Start(generation, publish), turns).sub, turns[n].m.version)
  {
    var s := Start(generation, publish);
    PrefixRuns(s, turns, n);
    ServeRuns(generation, publish, turns[..n]);
    StartInv(generation, publish);
    RunKeepsSub(s, turns[..n], false);
    NextTurn(s, turns, n);
    ServeStep(RunAll(s, turns[..n]), turns[n].m, turns[n].env);
    ServedStays(generation, publish, turns, n + 1, turns[n].m.version);
  }

  lemma {:induction false} PrefixRuns(s: State, turns: seq<Turn>, n: nat)
    requires CallTheorems.Runs(s, turns) && n <= |turns|
    ensures CallTheorems.Runs(s, turns[..n])
  {
    if n < |turns| {
      PrefixRuns(s, turns[..|turns| - 1], n);
      assert turns[..|turns| - 1][..n] == turns[..n];
    } else {
      assert turns[..n] == turns;
    }
  }

  // ---- One handler ----

  /** The messages that end a call end it, for their own reason; `call.leave` is written only by the
      local ones, on a joined connection. */
  lemma EndingMessagesEnd(s: State, m: Incoming, env: Env)
    requires !s.ending.ended
    requires m.EndedFrame? || m.EngineBroke? || m.Leave? || m.HandleDropped? || m.NewSession?
    ensures
      var t := Handle(s, m, env);
      && t.ending.ended && t.ending.closes == s.ending.closes + 1
      && t.ending.reason == Some(
           if m.EndedFrame? then m.reason
           else if m.EngineBroke? then EngineFailed(m.message)
           else if m.NewSession? then SessionChanged
           else Left)
      && t.frames == s.frames + (if s.link.connected && !m.EndedFrame? && !m.NewSession? then [LeaveFrame] else [])
      && t.media.reply.None? && t.media.queued.None?
  {
  }

  /** A publishing call starts its first offer when it joins, and only then. */
  lemma JoiningPublishes(s: State, env: Env)
    ensures
      var p, q := s.pub, Handle(s, JoinedFrame(true), env).pub;
      && Handle(s, JoinedFrame(true), env).link.joined
      && (if p.wanted && !s.link.joined
          then q.count == p.count + 1 && q.state == Offering(q.count) && q.ops == p.ops + multiset{CreateOffer(q.count)}
          else q == p)
  {
  }

  /** Local candidates go out at once, but for those of an offer not yet written: they are held. */
  lemma LocalCandidatesGo(s: State, env: Env, pc: PcKind, c: Candidate)
    ensures
      var t := Handle(s, LocalCandidate(pc, c), env);
      if pc == PublishPc && s.pub.state.Offering? then t.pub.held == s.pub.held + [c] && t.frames == s.frames
      else t.pub.held == s.pub.held && t.frames == (if s.link.connected then s.frames + [IceFrame(pc, c)] else s.frames)
  {
  }

  /** The finished offer is written, and after it the candidates held for it, in order; without a
      connection that takes it, it is kept. */
  lemma OffersAreWritten(s: State, env: Env, n: nat)
    requires s.pub.state == Offering(n) && s.pub.count == n
    ensures
      var t, held := Handle(s, PublishOfferDone(n, true), env), s.pub.held;
      if s.link.connected && env.publish then
        && t.pub.state == AwaitingAnswer(n) && t.pub.held == [] && t.pub.replies == s.pub.replies + multiset{n}
        && |t.frames| == |s.frames| + 1 + |held| && s.frames <= t.frames && t.frames[|s.frames|] == Publish(n)
        && (forall i :: 0 <= i < |held| ==> t.frames[|s.frames| + 1 + i] == IceFrame(PublishPc, held[i]))
      else t.frames == s.frames && t.pub.unsent == Some(n) && t.pub.state == Offering(n) && t.pub.held == held
  {
  }

  /** An answer is applied; a lost one renegotiates after the resume; a refusal ends the call. */
  lemma AnswersAreApplied(s: State, env: Env, n: nat, r: AnswerResult)
    requires s.pub.state == AwaitingAnswer(n) && !s.ending.ended
    ensures
      var t := Handle(s, PublishAnswerDone(n, r), env);
      match r
      case Answered(mids) => t.pub.state == ApplyingAnswer(n) && t.pub.ops == s.pub.ops + multiset{ApplyAnswer(n, mids)}
      case AnswerLost => t.pub.state == NeedsRestart && !t.ending.ended
      case AnswerFailed(code) => t.ending.ended && t.ending.reason == Some(Server(code))
  {
  }

  /** The call once its publish answer was applied, before a pending renegotiation. */
  function PublishDone(s: State, env: Env, n: nat, mids: seq<Mid>): State {
    var u := s.(pub := s.pub.(ops := s.pub.ops - multiset{ApplyAnswer(n, mids)}, state := Stable));
    Reannounce(FlushRemote(WithLane(u, PublishPc, u.ice.publish.(mids := Some(mids))), PublishPc, env.adds), env.media)
  }

  lemma PublishIsDone(s: State, env: Env, n: nat, mids: seq<Mid>)
    requires s.pub.state == ApplyingAnswer(n)
    ensures Handle(s, PublishAppliedDone(n, mids, true), env) == Resettled(PublishDone(s, env, n, mids))
  {
  }

  lemma PublishDoneIs(s: State, env: Env, n: nat, mids: seq<Mid>)
    ensures
      var t := PublishDone(s, env, n, mids);
      && t.ice.publish.mids == Some(mids) && t.link == s.link
      && t.pub == s.pub.(ops := s.pub.ops - multiset{ApplyAnswer(n, mids)}, state := Stable)
  {
    var u := s.(pub := s.pub.(ops := s.pub.ops - multiset{ApplyAnswer(n, mids)}, state := Stable));
    var settled := WithLane(u, PublishPc, u.ice.publish.(mids := Some(mids)));
    SettledLane(settled, PublishPc, env, mids);
  }

  /** The applied answer's description is the one candidates are matched with, and the call is stable, or
      already renegotiates. */
  lemma PublishSettles(s: State, env: Env, n: nat, mids: seq<Mid>)
    requires s.pub.state == ApplyingAnswer(n) && !s.ending.ended
    ensures
      var t := Handle(s, PublishAppliedDone(n, mids, true), env);
      && t.ice.publish.mids == Some(mids)
      && (!t.ending.ended && s.pub.pending && s.link.connected ==> t.pub.state == Offering(s.pub.count + 1))
      && (!t.ending.ended && !(s.pub.pending && s.link.connected) ==> t.pub.state == Stable)
  {
    PublishIsDone(s, env, n, mids);
    PublishDoneIs(s, env, n, mids);
  }

  lemma SettledLane(s: State, pc: PcKind, env: Env, mids: seq<Mid>)
    requires LaneOf(s.ice, pc).mids == Some(mids)
    ensures LaneOf(FlushRemote(s, pc, env.adds).ice, pc).mids == Some(mids)
    ensures
      var t := Reannounce(FlushRemote(s, pc, env.adds), env.media);
      t.ice == FlushRemote(s, pc, env.adds).ice && t.link == s.link && t.pub == s.pub
  {
  }

  /** An applied offer's description is the one candidates are matched with; its answer is kept, and sent
      if it can be; or the offer that came meanwhile is applied instead. */
  lemma SubscribesAreAnswered(s: State, env: Env, n: nat, version: nat, mids: seq<Mid>, sdp: string)
    requires s.sub.applying == Some(Applying(n, version)) && !s.ending.ended
    ensures
      var t := Handle(s, SubscribeAppliedDone(n, version, mids, Some(sdp)), env);
      && t.ice.subscribe.mids == Some(mids)
      && (!t.ending.ended && s.sub.latest.None? ==>
            && t.sub.applying.None? && t.sub.retained == Some(Retained(version, sdp))
            && t.frames == (if s.link.connected && env.answer then s.frames + [SubAnswer(version, sdp)] else s.frames))
      && (!t.ending.ended && s.sub.latest.Some? ==>
            && t.sub.applying.Some? && t.sub.applying.value.version == s.sub.latest.value.version
            && t.sub.applied == s.sub.applied + [s.sub.latest.value.version] && t.frames == s.frames)
  {
    var idle := s.(sub := Idled(s.sub, n, version, mids));
    var described := WithLane(idle, SubscribePc, idle.ice.subscribe.(mids := Some(mids)));
    FlushedLane(described, env, mids);
  }

  lemma FlushedLane(s: State, env: Env, mids: seq<Mid>)
    requires s.ice.subscribe.mids == Some(mids)
    ensures
      var t := FlushRemote(s, SubscribePc, env.adds);
      && t.ice.subscribe.mids == Some(mids) && t.link == s.link && t.sub == s.sub
      && (!t.ending.ended ==> t.frames == s.frames)
  {
  }

  /** A rejected change is undone, unless another is applied or waits; an unknown one is sent again after
      a resume; the one that waited comes next. */
  lemma MediaAnswersCount(s: State, env: Env, intent: Intent, prev: Intent, r: MediaResult)
    requires s.media.queued.None?
    ensures
      var m, t := s.media, Handle(s, MediaAckDone(intent, prev, r), env);
      && (m.reply.Some? ==> m.reply.value in t.media.answers)
      && t.media.engine == (if r.MediaRejected? && m.engine == Some(intent) && env.rollback then Some(prev) else m.engine)
      && (r.MediaUnknown? ==> t.media.dirty)
  {
  }

  /** An acknowledgement raises what is acknowledged, and lets its own kept answer go. */
  lemma AcknowledgementsCount(s: State, env: Env, version: nat)
    ensures
      var b, c := s.sub, Handle(s, SubscribeAckDone(version, Acked), env).sub;
      && version <= c.acked && b.acked <= c.acked && (c.acked == version || c.acked == b.acked)
      && (b.retained.Some? && b.retained.value.version == version ==> c.retained.None?)
      && (b.retained.Some? && b.retained.value.version != version ==> c.retained == b.retained)
  {
  }

  /** A change of media reaches the engine and the server, or its caller learns that the engine refused;
      behind one in flight it waits, in place of the one that waited. */
  lemma SetMediaReaches(s: State, env: Env, intent: Intent, reply: Reply)
    ensures
      var m, t := s.media, Handle(s, AskMedia(intent, reply), env);
      if m.inFlight then t.media.queued == Some(Queued(intent, reply)) && t.frames == s.frames && t.media.engine == m.engine
      else if !env.setMedia then t.media.engine == m.engine && t.frames == s.frames && reply in t.media.answers
      else
        && t.media.engine == Some(intent)
        && (if s.link.connected && env.media
            then t.frames == s.frames + [MediaFrame(intent)] && t.media.inFlight && t.media.reply == Some(reply)
            else t.frames == s.frames && t.media.dirty && reply in t.media.answers)
  {
  }

  /** A lost or other socket disconnects; a newer ready one is resumed on, unless a resume is out. */
  lemma ConnectionsAreFollowed(s: State, env: Env, ready: bool, generation: nat)
    requires !s.ending.ended
    ensures
      var t := Handle(s, NewConn(ready, generation), env);
      && t.link.connected == (s.link.connected && ready && generation == s.link.generation)
      && t.link.generation == s.link.generation
      && (if ready && generation > s.link.generation && !s.link.resuming && env.resume
          then t.link.resuming && t.frames == s.frames + [ResumeFrame(generation)]
          else t.link.resuming == s.link.resuming && t.frames == s.frames)
  {
  }

  /** A resumed call is connected, on the resumed connection, and renegotiates what the drop cut short. */
  lemma ResumingRestarts(s: State, env: Env, generation: nat, ready: bool, now: nat)
    ensures
      var t := Handle(s, ResumedDone(generation, ResumeOk, ready, now), env);
      && t.link.connected && t.link.generation == generation && !t.link.resuming
      && (s.pub.unsent.None? && (s.pub.state.NeedsRestart? || s.pub.state.AwaitingAnswer? || (s.pub.state.Stable? && s.pub.pending)) ==>
            && t.pub.count == s.pub.count + 1 && t.pub.state == Offering(t.pub.count)
            && t.pub.ops == s.pub.ops + multiset{CreateOffer(t.pub.count)})
  {
    var u := s.(link := s.link.(resuming := false, resumes := s.link.resumes - multiset{generation}));
    var v := u.(link := u.link.(generation := generation, connected := true));
    CalmAfterResume(v, env);
    LinkResumed(v, env);
  }

  lemma LinkResumed(s: State, env: Env)
    ensures AfterResume(s, env).link == s.link
  {
    var published := UnsentSent(s.(pub := PublishResumed(s.pub)), env.publish);
    var retained := SendRetained(published, env.answer);
    assert retained.link == s.link;
    assert DirtySent(retained, env.media).link == s.link;
  }

  /** And it sends again what the server may lack: the offer that wasn't written, the kept answer, the
      engine's media. */
  lemma ResumingSends(s: State, env: Env)
    requires s.link.connected && !s.ending.ended
    ensures s.pub.unsent.Some? && s.pub.state == Offering(s.pub.unsent.value) && env.publish ==>
      Publish(s.pub.unsent.value) in AfterResume(s, env).frames
    ensures s.sub.retained.Some? && env.answer ==>
      SubAnswer(s.sub.retained.value.version, s.sub.retained.value.sdp) in AfterResume(s, env).frames
    ensures s.media.dirty && !s.media.inFlight && s.media.engine.Some? && env.media ==>
      MediaFrame(s.media.engine.value) in AfterResume(s, env).frames
  {
    var published := UnsentSent(s.(pub := PublishResumed(s.pub)), env.publish);
    ResumedPublishes(s, env.publish);
    var retained := SendRetained(published, env.answer);
    SameMediaPublishes(s, env, 0);
    SameMediaOffers(published, env, 0, [], "");
    FramesOnlyGrow(retained, env.media);
    FramesOnlyGrow(DirtySent(retained, env.media), env.media);
  }

  lemma ResumedPublishes(s: State, ok: bool)
    requires s.link.connected
    ensures
      var t := UnsentSent(s.(pub := PublishResumed(s.pub)), ok);
      && t.sub == s.sub && t.link == s.link && s.frames <= t.frames
      && (s.pub.unsent.Some? && s.pub.state == Offering(s.pub.unsent.value) && ok ==> Publish(s.pub.unsent.value) in t.frames)
  {
  }

  lemma FramesOnlyGrow(s: State, ok: bool)
    ensures s.frames <= DirtySent(s, ok).frames && s.frames <= FlushReannounce(s, ok).frames
    ensures s.link.connected && s.media.dirty && !s.media.inFlight && s.media.engine.Some? && ok ==>
      MediaFrame(s.media.engine.value) in DirtySent(s, ok).frames
  {
  }
}
