/** What every handler of the call task keeps, continued: the remote candidates of each
    PeerConnection and the replies of SetMedia. */
module CallParts {
  import opened Tables
  import opened Call
  import opened CallTask
  import opened CallInvariants

  // ---- Remote candidates ----

  function Candidates(given: seq<Given>): (cs: seq<Candidate>)
    ensures |cs| == |given|
  {
    seq(|given|, i requires 0 <= i < |given| => given[i].candidate)
  }

  /** Nothing is lost or reordered, and a buffered head waits for another description. */
  predicate Conserved(lane: Lane) {
    && lane.received == Candidates(lane.given) + lane.buffer
    && (lane.buffer != [] ==> !Applicable(lane.mids, lane.buffer[0]))
  }

  /** Each candidate was given under a description it belongs to. */
  predicate Fitting(lane: Lane) {
    forall i :: 0 <= i < |lane.given| ==> Applicable(Some(lane.given[i].mids), lane.given[i].candidate)
  }

  predicate LaneOk(s: State, pc: PcKind) {
    Fitting(LaneOf(s.ice, pc)) && (!s.ending.ended ==> Conserved(LaneOf(s.ice, pc)))
  }

  predicate IceOk(s: State) {
    LaneOk(s, PublishPc) && LaneOk(s, SubscribePc)
  }

  lemma GivenAll(mids: seq<Mid>, given: seq<Given>, cs: seq<Candidate>)
    ensures Candidates(given + GivenUnder(mids, cs)) == Candidates(given) + cs
  {
  }

  /** A new description: the front of the buffer goes to the engine, in order. */
  lemma FlushKeeps(lane: Lane)
    requires lane.mids.Some? && Fitting(lane) && lane.received == Candidates(lane.given) + lane.buffer
    ensures Fitting(Flushed(lane)) && Conserved(Flushed(lane))
  {
    GivenFits(lane, Front(lane.mids, lane.buffer));
    FlushConserves(lane);
  }

  lemma FlushConserves(lane: Lane)
    requires lane.mids.Some? && lane.received == Candidates(lane.given) + lane.buffer
    ensures Conserved(Flushed(lane))
  {
    var n := Front(lane.mids, lane.buffer);
    FrontIs(lane.mids, lane.buffer);
    GivenAll(lane.mids.value, lane.given, lane.buffer[..n]);
    assert lane.buffer == lane.buffer[..n] + lane.buffer[n..];
  }

  lemma GivenFits(lane: Lane, n: nat)
    requires lane.mids.Some? && Fitting(lane) && n <= Front(lane.mids, lane.buffer)
    ensures Fitting(lane.(given := lane.given + GivenUnder(lane.mids.value, lane.buffer[..n])))
  {
    FrontIs(lane.mids, lane.buffer);
  }

  lemma BrokenFits(lane: Lane, adds: nat)
    requires lane.mids.Some? && Fitting(lane) && adds < Front(lane.mids, lane.buffer)
    ensures Fitting(FlushBroken(lane, adds))
  {
    GivenFits(lane, adds);
  }

  /** `s`, but for the newly applied description of `pc`, was fine. */
  lemma FlushRemoteKeeps(s: State, pc: PcKind, adds: nat)
    requires LaneOf(s.ice, pc).mids.Some? && !s.ending.ended
    requires Fitting(LaneOf(s.ice, pc))
    requires LaneOf(s.ice, pc).received == Candidates(LaneOf(s.ice, pc).given) + LaneOf(s.ice, pc).buffer
    requires LaneOk(s, if pc.PublishPc? then SubscribePc else PublishPc)
    ensures IceOk(FlushRemote(s, pc, adds))
  {
    var lane := LaneOf(s.ice, pc);
    if adds < Front(lane.mids, lane.buffer) {
      BrokenFits(lane, adds);
    } else {
      FlushKeeps(lane);
    }
  }

  lemma CandidateKeeps(s: State, env: Env, pc: PcKind, c: Candidate)
    requires IceOk(s) && !s.ending.ended
    ensures IceOk(OnRemoteCandidate(s, env, pc, c))
  {
    var lane := LaneOf(s.ice, pc);
    if lane.mids.Some? {
      GivenAll(lane.mids.value, lane.given, [c]);
      assert GivenUnder(lane.mids.value, [c]) == [Given(c, lane.mids.value)];
    }
  }

  lemma PublishLaneKeeps(s: State, env: Env, n: nat, mids: seq<Mid>, ok: bool)
    requires IceOk(s) && !s.ending.ended
    ensures IceOk(OnPublishApplied(s, env, n, mids, ok))
  {
    var t := s.(pub := s.pub.(ops := s.pub.ops - multiset{ApplyAnswer(n, mids)}));
    if t.pub.state == ApplyingAnswer(n) && ok {
      var settled := WithLane(t.(pub := t.pub.(state := Stable)), PublishPc, t.ice.publish.(mids := Some(mids)));
      FlushRemoteKeeps(settled, PublishPc, env.adds);
      var flushed := FlushRemote(settled, PublishPc, env.adds);
      assert SameIce(flushed, Reannounce(flushed, env.media));
    }
  }

  lemma SubscribeLaneKeeps(s: State, env: Env, n: nat, version: nat, mids: seq<Mid>, sdp: Option<string>)
    requires IceOk(s) && !s.ending.ended
    ensures IceOk(OnSubscribeApplied(s, env, n, version, mids, sdp))
  {
    var t := s.(sub := s.sub.(ops := s.sub.ops - multiset{ApplyOffer(n, version, mids)}));
    if t.sub.applying.Some? && t.sub.applying.value.n == n && sdp.Some? {
      var idle := t.(sub := t.sub.(applying := None));
      var described := WithLane(idle, SubscribePc, idle.ice.subscribe.(mids := Some(mids)));
      FlushRemoteKeeps(described, SubscribePc, env.adds);
      var flushed := FlushRemote(described, SubscribePc, env.adds);
      assert SameIce(flushed, OfferApplied(flushed, env, version, sdp.value));
    }
  }

  predicate SameIce(s: State, t: State) {
    t.ice == s.ice && (s.ending.ended ==> t.ending.ended)
  }

  lemma SameIceResumed(s: State, env: Env, generation: nat, r: ResumeResult, ready: bool, now: nat)
    ensures SameIce(s, OnResumed(s, env, generation, r, ready, now))
  {
    var t := s.(link := s.link.(resuming := false, resumes := s.link.resumes - multiset{generation}));
    if r.ResumeOk? {
      var u := t.(link := t.link.(generation := generation, connected := true));
      var published := UnsentSent(u.(pub := PublishResumed(u.pub)), env.publish);
      assert SameIce(u, published);
      var retained := SendRetained(published, env.answer);
      assert SameIce(published, retained);
      var dirty := DirtySent(retained, env.media);
      assert SameIce(retained, dirty);
      assert SameIce(dirty, FlushReannounce(dirty, env.media));
    }
  }

  lemma SameIceMediaAck(s: State, env: Env, intent: Intent, prev: Intent, r: MediaResult)
    ensures SameIce(s, OnMediaAck(s, env, intent, prev, r))
  {
  }

  lemma SameIceSetMedia(s: State, env: Env, intent: Intent, reply: Reply)
    ensures SameIce(s, OnSetMedia(s, env, intent, reply))
  {
  }

  lemma SameIceResults(s: State, m: Incoming, env: Env)
    requires IsResult(m) && !m.PublishAppliedDone? && !m.SubscribeAppliedDone?
    ensures SameIce(s, Handle(s, m, env))
  {
    if m.ResumedDone? {
      SameIceResumed(s, env, m.generation, m.resumed, m.ready, m.now);
    } else if m.MediaAckDone? {
      SameIceMediaAck(s, env, m.intent, m.prev, m.media);
    }
  }

  lemma SameIceInputs(s: State, m: Incoming, env: Env)
    requires !IsResult(m) && !m.RemoteCandidate?
    ensures SameIce(s, Handle(s, m, env))
  {
    if m.AskMedia? {
      SameIceSetMedia(s, env, m.intent, m.reply);
    }
  }

  lemma IceStep(s: State, m: Incoming, env: Env)
    requires IceOk(s) && !s.ending.ended
    ensures IceOk(Handle(s, m, env))
  {
    if m.RemoteCandidate? {
      CandidateKeeps(s, env, m.pc, m.candidate);
    } else if m.PublishAppliedDone? {
      PublishLaneKeeps(s, env, m.n, m.mids, m.ok);
    } else if m.SubscribeAppliedDone? {
      SubscribeLaneKeeps(s, env, m.n, m.version, m.mids, m.sdp);
    } else if IsResult(m) {
      SameIceResults(s, m, env);
    } else {
      SameIceInputs(s, m, env);
    }
  }

  // ---- Replies of SetMedia ----

  /** Every reply asked for is answered once, or held in exactly one place behind the one
      `call.media` in flight. */
  ghost predicate MediaOk(s: State) {
    && s.media.asked == MediaEnded(s.media).answers
    && (s.ending.ended ==> s.media.reply.None? && s.media.queued.None?)
    && (!s.ending.ended ==>
          && (s.media.reply.Some? || s.media.queued.Some? ==> s.media.inFlight)
          && (if s.media.inFlight then exists op :: s.media.flight == multiset{op} else s.media.flight == multiset{}))
  }

  /** Nothing is in flight and nobody waits. */
  predicate MediaIdle(m: Media) {
    !m.inFlight && m.flight == multiset{} && m.reply.None? && m.queued.None?
  }

  lemma SendMediaKeeps(s: State, intent: Intent, prev: Intent, reply: Option<Reply>, ok: bool)
    requires !s.ending.ended && MediaIdle(s.media)
    requires s.media.asked == Told(s.media.answers, reply)
    ensures MediaOk(SendMedia(s, intent, prev, reply, ok))
    ensures !SendMedia(s, intent, prev, reply, ok).ending.ended
  {
    assert multiset{} + multiset{MediaOp(intent, prev)} == multiset{MediaOp(intent, prev)};
  }

  lemma SetMediaKeeps(s: State, env: Env, intent: Intent, reply: Reply)
    requires !s.ending.ended
    requires if s.media.inFlight then MediaOk(s.(media := s.media.(asked := s.media.asked - multiset{reply}))) && reply in s.media.asked
             else MediaIdle(s.media) && s.media.asked == s.media.answers + multiset{reply}
    ensures MediaOk(SetMedia(s, env, intent, reply))
  {
    var m := s.media;
    if m.inFlight {
      var held := MediaEnded(m).answers;
      assert m.asked == held + multiset{reply};
      assert Told(m.answers, QueuedReply(m.queued)) + multiset{reply} + multiset{} == Told(m.answers, QueuedReply(m.queued)) + multiset{reply};
    } else if env.setMedia {
      var prev := if m.engine.Some? then m.engine.value else Intent(true, true);
      SendMediaKeeps(s.(media := m.(engine := Some(intent))), intent, prev, Some(reply), env.media);
    }
  }

  lemma OnSetMediaKeeps(s: State, env: Env, intent: Intent, reply: Reply)
    requires MediaOk(s) && !s.ending.ended
    ensures MediaOk(OnSetMedia(s, env, intent, reply))
  {
    var t := s.(media := s.media.(asked := s.media.asked + multiset{reply}));
    assert t.media.asked - multiset{reply} == s.media.asked;
    assert t.media.(asked := t.media.asked - multiset{reply}) == s.media;
    SetMediaKeeps(t, env, intent, reply);
  }

  lemma FlushReannounceKeeps(s: State, ok: bool)
    requires MediaOk(s)
    ensures MediaOk(FlushReannounce(s, ok)) && MediaOk(Reannounce(s, ok))
  {
    if s.media.engine.Some? && !s.media.inFlight && !s.ending.ended {
      var e := s.media.engine.value;
      SendMediaKeeps(s, e, e, None, ok);
      SendMediaKeeps(s.(media := s.media.(reannounce := true)), e, e, None, ok);
    }
  }

  lemma DirtyKeeps(s: State, ok: bool)
    requires MediaOk(s) && !s.ending.ended
    ensures MediaOk(DirtySent(s, ok))
  {
    if s.media.dirty && !s.media.inFlight && s.media.engine.Some? {
      var e := s.media.engine.value;
      SendMediaKeeps(s.(media := s.media.(dirty := false)), e, e, None, ok);
    }
  }

  lemma MediaAckKeeps(s: State, env: Env, intent: Intent, prev: Intent, r: MediaResult)
    requires MediaOk(s) && !s.ending.ended && MediaOp(intent, prev) in s.media.flight
    ensures MediaOk(OnMediaAck(s, env, intent, prev, r))
  {
    var m := MediaSettled(s.media, env, intent, prev, r);
    assert m.flight == multiset{};
    var t := s.(media := m);
    if m.queued.Some? {
      var u := s.(media := m.(queued := None));
      SetMediaKeeps(u, env, m.queued.value.intent, m.queued.value.reply);
      t := SetMedia(u, env, m.queued.value.intent, m.queued.value.reply);
    }
    FlushReannounceKeeps(t, env.media);
  }

  lemma FinishMedia(s: State, reason: EndReason, tell: bool)
    requires MediaOk(s)
    ensures MediaOk(Finish(s, reason, tell))
  {
  }

  predicate SameMedia(s: State, t: State) {
    t.media == s.media && t.ending == s.ending
  }

  lemma SameMediaKeeps(s: State, t: State)
    requires MediaOk(s) && SameMedia(s, t)
    ensures MediaOk(t)
  {
  }

  lemma SameMediaOffers(s: State, env: Env, version: nat, mids: seq<Mid>, sdp: string)
    ensures SameMedia(s, OfferApplied(s, env, version, sdp)) && SameMedia(s, OnOffer(s, env, version, mids))
    ensures SameMedia(s, SendRetained(s, env.answer))
  {
  }

  lemma SameMediaPublishes(s: State, env: Env, n: nat)
    ensures SameMedia(s, UnsentSent(s.(pub := PublishResumed(s.pub)), env.publish)) && SameMedia(s, OnRepublish(s))
    ensures SameMedia(s, OnPublishOffer(s, env, n, true)) && SameMedia(s, OnJoined(s, true)) && SameMedia(s, Resettled(s))
  {
  }

  lemma SameMediaLink(s: State, env: Env, ready: bool, generation: nat, pc: PcKind, c: Candidate)
    ensures SameMedia(s, OnConn(s, env, ready, generation)) && SameMedia(s, OnLocalCandidate(s, pc, c))
  {
  }

  lemma SameMediaReplies(s: State, n: nat, r: AnswerResult, ack: AckResult)
    ensures !r.AnswerFailed? ==> SameMedia(s, OnPublishAnswer(s, n, r))
    ensures !ack.AckFailed? ==> SameMedia(s, OnSubscribeAck(s, n, ack))
  {
  }

  /** A remote candidate is held, given, or ends the call. */
  lemma SameMediaCandidate(s: State, env: Env, pc: PcKind, c: Candidate) returns (heard: State)
    ensures SameMedia(s, heard)
    ensures OnRemoteCandidate(s, env, pc, c) == heard || OnRemoteCandidate(s, env, pc, c) == Finish(heard, REFUSED, true)
  {
    var lane := LaneOf(s.ice, pc);
    heard := WithLane(s, pc, lane.(received := lane.received + [c]));
    if lane.buffer != [] || !Applicable(lane.mids, c) || env.adds > 0 {
      heard := OnRemoteCandidate(s, env, pc, c);
    }
  }

  lemma MediaApplied(s: State, env: Env, n: nat, mids: seq<Mid>, ok: bool)
    requires MediaOk(s) && !s.ending.ended
    ensures MediaOk(OnPublishApplied(s, env, n, mids, ok))
  {
    var t := s.(pub := s.pub.(ops := s.pub.ops - multiset{ApplyAnswer(n, mids)}));
    if t.pub.state == ApplyingAnswer(n) && ok {
      var settled := WithLane(t.(pub := t.pub.(state := Stable)), PublishPc, t.ice.publish.(mids := Some(mids)));
      FlushMedia(settled, PublishPc, env.adds);
      var flushed := FlushRemote(settled, PublishPc, env.adds);
      FlushReannounceKeeps(flushed, env.media);
      var told := Reannounce(flushed, env.media);
      SameMediaKeeps(told, Resettled(told));
    } else if !ok {
      FinishMedia(t, EngineFailed("answer"), true);
    }
  }

  lemma FlushMedia(s: State, pc: PcKind, adds: nat)
    requires MediaOk(s) && LaneOf(s.ice, pc).mids.Some?
    ensures MediaOk(FlushRemote(s, pc, adds))
  {
    var lane := LaneOf(s.ice, pc);
    if adds < Front(lane.mids, lane.buffer) {
      FinishMedia(WithLane(s, pc, FlushBroken(lane, adds)), REFUSED, true);
    } else {
      SameMediaKeeps(s, WithLane(s, pc, Flushed(lane)));
    }
  }

  lemma MediaSubscribed(s: State, env: Env, n: nat, version: nat, mids: seq<Mid>, sdp: Option<string>)
    requires MediaOk(s) && !s.ending.ended
    ensures MediaOk(OnSubscribeApplied(s, env, n, version, mids, sdp))
  {
    var t := s.(sub := s.sub.(ops := s.sub.ops - multiset{ApplyOffer(n, version, mids)}));
    if t.sub.applying.Some? && t.sub.applying.value.n == n {
      var idle := t.(sub := t.sub.(applying := None));
      if sdp.None? {
        FinishMedia(idle, EngineFailed("offer"), true);
      } else {
        var described := WithLane(idle, SubscribePc, idle.ice.subscribe.(mids := Some(mids)));
        FlushMedia(described, SubscribePc, env.adds);
        var flushed := FlushRemote(described, SubscribePc, env.adds);
        SameMediaOffers(flushed, env, version, mids, sdp.value);
        SameMediaKeeps(flushed, OfferApplied(flushed, env, version, sdp.value));
      }
    }
  }

  lemma MediaResumed(s: State, env: Env)
    requires MediaOk(s) && !s.ending.ended
    ensures MediaOk(AfterResume(s, env))
  {
    var published := UnsentSent(s.(pub := PublishResumed(s.pub)), env.publish);
    SameMediaPublishes(s, env, 0);
    SameMediaKeeps(s, published);
    var retained := SendRetained(published, env.answer);
    SameMediaOffers(published, env, 0, [], "");
    SameMediaKeeps(published, retained);
    DirtyKeeps(retained, env.media);
    FlushReannounceKeeps(DirtySent(retained, env.media), env.media);
  }

  lemma MediaReconnected(s: State, env: Env, generation: nat, r: ResumeResult, ready: bool, now: nat)
    requires MediaOk(s) && !s.ending.ended
    ensures MediaOk(OnResumed(s, env, generation, r, ready, now))
  {
    var t := s.(link := s.link.(resuming := false, resumes := s.link.resumes - multiset{generation}));
    SameMediaKeeps(s, t);
    match r
    case ResumeOk => MediaResumed(t.(link := t.link.(generation := generation, connected := true)), env);
    case NotInCall => FinishMedia(t, Expired, false);
    case ResumeRejected(code) => FinishMedia(t, Server(code), false);
    case ResumeLost =>
      SameMediaLink(t, env, ready, now, PublishPc, None);
      SameMediaKeeps(t, OnConn(t, env, ready, now));
  }

  lemma MediaCandidate(s: State, env: Env, pc: PcKind, c: Candidate)
    requires MediaOk(s) && !s.ending.ended
    ensures MediaOk(OnRemoteCandidate(s, env, pc, c))
  {
    var heard := SameMediaCandidate(s, env, pc, c);
    SameMediaKeeps(s, heard);
    FinishMedia(heard, REFUSED, true);
  }

  lemma MediaOthers(s: State, m: Incoming, env: Env)
    requires MediaOk(s) && !s.ending.ended
    requires m.JoinedFrame? || m.OfferFrame? || m.LocalCandidate? || m.Republish? || m.NewConn? || m.PublishOfferDone?
    ensures MediaOk(Handle(s, m, env))
  {
    if m.JoinedFrame? && !m.valid {
      FinishMedia(s, Server("unexpected_response"), true);
    } else if m.PublishOfferDone? && !m.ok {
      OfferBroken(s, env, m.n);
    } else {
      if m.OfferFrame? {
        SameMediaOffers(s, env, m.version, m.mids, "");
      } else if m.LocalCandidate? {
        SameMediaLink(s, env, true, 0, m.pc, m.candidate);
      } else if m.NewConn? {
        SameMediaLink(s, env, m.ready, m.generation, PublishPc, None);
      } else {
        SameMediaPublishes(s, env, if m.PublishOfferDone? then m.n else 0);
      }
      SameMediaKeeps(s, Handle(s, m, env));
    }
  }

  lemma OfferBroken(s: State, env: Env, n: nat)
    requires MediaOk(s) && !s.ending.ended
    ensures MediaOk(OnPublishOffer(s, env, n, false))
  {
    var t := s.(pub := s.pub.(ops := s.pub.ops - multiset{CreateOffer(n)}));
    SameMediaKeeps(s, t);
    FinishMedia(t, EngineFailed("offer"), true);
  }

  lemma MediaAnswered(s: State, n: nat, r: AnswerResult)
    requires MediaOk(s) && !s.ending.ended
    ensures MediaOk(OnPublishAnswer(s, n, r))
  {
    if r.AnswerFailed? {
      var t := s.(pub := s.pub.(replies := s.pub.replies - multiset{n}));
      SameMediaKeeps(s, t);
      FinishMedia(t, Server(r.code), true);
    } else {
      SameMediaReplies(s, n, r, AckUnknown);
      SameMediaKeeps(s, OnPublishAnswer(s, n, r));
    }
  }

  lemma MediaAcked(s: State, version: nat, r: AckResult)
    requires MediaOk(s) && !s.ending.ended
    ensures MediaOk(OnSubscribeAck(s, version, r))
  {
    if r.AckFailed? {
      var t := s.(sub := s.sub.(acks := s.sub.acks - multiset{version}));
      SameMediaKeeps(s, t);
      FinishMedia(t, Server(r.code), true);
    } else {
      SameMediaReplies(s, version, AnswerLost, r);
      SameMediaKeeps(s, OnSubscribeAck(s, version, r));
    }
  }

  lemma MediaEnds(s: State, m: Incoming, env: Env)
    requires MediaOk(s) && !s.ending.ended
    requires m.EndedFrame? || m.EngineBroke? || m.Leave? || m.HandleDropped? || m.NewSession?
    ensures MediaOk(Handle(s, m, env))
  {
    if m.Leave? {
      var t := s.(frames := s.frames + [LeaveFrame]);
      SameMediaKeeps(s, t);
      FinishMedia(t, Left, false);
      FinishMedia(s, Left, true);
    }
  }

  lemma MediaStep(s: State, m: Incoming, env: Env)
    requires MediaOk(s) && !s.ending.ended && InFlight(s, m)
    ensures MediaOk(Handle(s, m, env))
  {
    if m.RemoteCandidate? {
      MediaCandidate(s, env, m.pc, m.candidate);
    } else if m.AskMedia? {
      OnSetMediaKeeps(s, env, m.intent, m.reply);
    } else if m.MediaAckDone? {
      MediaAckKeeps(s, env, m.intent, m.prev, m.media);
    } else if m.PublishAppliedDone? {
      MediaApplied(s, env, m.n, m.mids, m.ok);
    } else if m.SubscribeAppliedDone? {
      MediaSubscribed(s, env, m.n, m.version, m.mids, m.sdp);
    } else if m.ResumedDone? {
      MediaReconnected(s, env, m.generation, m.resumed, m.ready, m.now);
    } else if m.PublishAnswerDone? {
      MediaAnswered(s, m.n, m.answer);
    } else if m.SubscribeAckDone? {
      MediaAcked(s, m.version, m.ack);
    } else if m.EndedFrame? || m.EngineBroke? || m.Leave? || m.HandleDropped? || m.NewSession? {
      MediaEnds(s, m, env);
    } else {
      MediaOthers(s, m, env);
    }
  }
}
