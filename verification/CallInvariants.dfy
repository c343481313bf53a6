/** What every handler of the call task keeps: the publish negotiation, and the frames up to the end. */
module CallInvariants {
  import opened Tables
  import opened Call

  /** A result is handled only while what it answers is in flight. */
  predicate InFlight(s: State, m: Incoming) {
    match m
    case PublishOfferDone(n, _) => CreateOffer(n) in s.pub.ops
    case PublishAnswerDone(n, _) => n in s.pub.replies
    case PublishAppliedDone(n, mids, _) => ApplyAnswer(n, mids) in s.pub.ops
    case SubscribeAppliedDone(n, version, mids, _) => ApplyOffer(n, version, mids) in s.sub.ops
    case SubscribeAckDone(version, _) => version in s.sub.acks
    case ResumedDone(generation, _, _, _) => generation in s.link.resumes
    case MediaAckDone(intent, prev, _) => MediaOp(intent, prev) in s.media.flight
    case _ => true
  }

  // ---- Publish negotiation ----

  /** A renegotiation was asked for and no offer started since. */
  ghost predicate Owed(events: seq<PubEvent>) {
    exists i :: 0 <= i < |events| && events[i].Wanted? && forall j :: i < j < |events| ==> !events[j].Started?
  }

  /** The publish operation in flight is the one the state says. */
  ghost predicate OpsMatch(p: Pub) {
    match p.state
    case Offering(n) =>
      && n == p.count
      && (p.unsent.Some? ==> p.unsent.value == n)
      && p.ops == (if p.unsent.Some? then multiset{} else multiset{CreateOffer(n)})
    case ApplyingAnswer(n) => p.unsent.None? && exists mids :: p.ops == multiset{ApplyAnswer(n, mids)}
    case AwaitingAnswer(n) => n == p.count && p.unsent.None? && p.ops == multiset{}
    case _ => p.unsent.None? && p.ops == multiset{}
  }

  /** An offer that can start: no publish operation is in flight. */
  predicate Startable(p: Pub) {
    p.ops == multiset{} && p.unsent.None?
  }

  ghost predicate PubLive(s: State) {
    && OpsMatch(s.pub)
    && (!s.link.joined ==> s.pub.state.Idle?)
    && (Owed(s.pub.events) ==> s.pub.pending)
    && !(s.pub.state.Stable? && s.link.connected && s.pub.pending)
  }

  ghost predicate PubOk(s: State) {
    && |s.pub.ops| <= 1
    && (!s.ending.ended ==> PubLive(s))
  }

  lemma NothingOwedAfterStart(events: seq<PubEvent>, n: nat)
    ensures !Owed(events + [Started(n)])
  {
    assert (events + [Started(n)])[|events|] == Started(n);
  }

  lemma StartKeeps(p: Pub)
    requires Startable(p)
    ensures OpsMatch(StartOffer(p)) && !Owed(StartOffer(p).events) && |StartOffer(p).ops| <= 1
  {
    NothingOwedAfterStart(p.events, p.count + 1);
  }

  lemma PubJoined(s: State, valid: bool)
    requires PubOk(s) && !s.ending.ended
    ensures PubOk(OnJoined(s, valid))
  {
    if valid && !s.link.joined && s.pub.wanted {
      StartKeeps(s.pub);
    }
  }

  lemma PubRepublish(s: State)
    requires PubOk(s) && !s.ending.ended
    ensures PubOk(OnRepublish(s))
  {
    if s.pub.wanted && s.pub.state.Stable? && s.link.connected {
      StartKeeps(s.pub.(events := s.pub.events + [Wanted]));
    }
  }

  lemma PubOffered(s: State, env: Env, n: nat, ok: bool)
    requires PubOk(s) && !s.ending.ended && CreateOffer(n) in s.pub.ops
    ensures PubOk(OnPublishOffer(s, env, n, ok))
  {
    assert s.pub.ops - multiset{CreateOffer(n)} == multiset{};
  }

  lemma PubAnswered(s: State, n: nat, r: AnswerResult)
    requires PubOk(s) && !s.ending.ended
    ensures PubOk(OnPublishAnswer(s, n, r))
  {
    match r
    case Answered(mids) => assert multiset{} + multiset{ApplyAnswer(n, mids)} == multiset{ApplyAnswer(n, mids)};
    case _ =>
  }

  /** What the other handlers do to the publish side: they may hold a candidate, or lose the
      connection. */
  predicate Calm(s: State, t: State) {
    && t.pub == s.pub.(held := t.pub.held)
    && t.link.joined == s.link.joined && (t.link.connected ==> s.link.connected)
    && (s.ending.ended ==> t.ending.ended)
  }

  lemma CalmKeeps(s: State, t: State)
    requires PubOk(s) && Calm(s, t)
    ensures PubOk(t)
  {
  }

  lemma CalmSubscribeApplied(s: State, env: Env, n: nat, version: nat, mids: seq<Mid>, sdp: Option<string>)
    ensures Calm(s, OnSubscribeApplied(s, env, n, version, mids, sdp))
  {
    var t := s.(sub := s.sub.(ops := s.sub.ops - multiset{ApplyOffer(n, version, mids)}));
    if t.sub.applying.Some? && t.sub.applying.value.n == n && sdp.Some? {
      var idle := t.(sub := t.sub.(applying := None));
      var described := WithLane(idle, SubscribePc, idle.ice.subscribe.(mids := Some(mids)));
      var flushed := FlushRemote(described, SubscribePc, env.adds);
      assert Calm(s, flushed);
      assert Calm(flushed, OfferApplied(flushed, env, version, sdp.value));
    }
  }

  lemma CalmMediaAck(s: State, env: Env, intent: Intent, prev: Intent, r: MediaResult)
    ensures Calm(s, OnMediaAck(s, env, intent, prev, r))
  {
  }

  lemma CalmFrames(s: State, env: Env, version: nat, mids: seq<Mid>, pc: PcKind, c: Candidate)
    ensures Calm(s, OnOffer(s, env, version, mids))
    ensures Calm(s, OnRemoteCandidate(s, env, pc, c))
    ensures Calm(s, OnLocalCandidate(s, pc, c))
  {
  }

  lemma CalmMedia(s: State, env: Env, intent: Intent, reply: Reply)
    ensures Calm(s, OnSetMedia(s, env, intent, reply))
  {
  }

  lemma CalmEnds(s: State, env: Env, reason: EndReason, tell: bool)
    ensures Calm(s, Finish(s, reason, tell)) && Calm(s, OnLeave(s, env))
  {
  }

  lemma CalmConn(s: State, env: Env, ready: bool, generation: nat)
    ensures Calm(s, OnConn(s, env, ready, generation))
  {
  }

  lemma CalmResumed(s: State, env: Env, generation: nat, r: ResumeResult, ready: bool, now: nat)
    requires !r.ResumeOk?
    ensures Calm(s, OnResumed(s, env, generation, r, ready, now))
  {
    var t := s.(link := s.link.(resuming := false, resumes := s.link.resumes - multiset{generation}));
    CalmConn(t, env, ready, now);
  }

  predicate Publishes(m: Incoming) {
    || m.JoinedFrame? || m.Republish? || m.PublishOfferDone? || m.PublishAnswerDone? || m.PublishAppliedDone?
    || (m.ResumedDone? && m.resumed.ResumeOk?)
  }

  lemma CalmStep(s: State, m: Incoming, env: Env)
    requires !Publishes(m)
    ensures Calm(s, Handle(s, m, env))
  {
    if m.OfferFrame? {
      CalmFrames(s, env, m.version, m.mids, PublishPc, None);
    } else if m.RemoteCandidate? || m.LocalCandidate? {
      CalmFrames(s, env, 0, [], m.pc, m.candidate);
    } else if m.AskMedia? {
      CalmMedia(s, env, m.intent, m.reply);
    } else if m.NewConn? {
      CalmConn(s, env, m.ready, m.generation);
    } else if m.ResumedDone? {
      CalmResumed(s, env, m.generation, m.resumed, m.ready, m.now);
    } else if m.SubscribeAppliedDone? {
      CalmSubscribeApplied(s, env, m.n, m.version, m.mids, m.sdp);
    } else if m.MediaAckDone? {
      CalmMediaAck(s, env, m.intent, m.prev, m.media);
    } else if m.SubscribeAckDone? {
      CalmAck(s, m.version, m.ack);
    } else {
      CalmEnd(s, m, env);
    }
  }

  lemma CalmAck(s: State, version: nat, r: AckResult)
    ensures Calm(s, OnSubscribeAck(s, version, r))
  {
  }

  lemma CalmEnd(s: State, m: Incoming, env: Env)
    requires m.EndedFrame? || m.EngineBroke? || m.Leave? || m.HandleDropped? || m.NewSession?
    ensures Calm(s, Handle(s, m, env))
  {
    match m
    case EndedFrame(reason) => CalmEnds(s, env, reason, false);
    case EngineBroke(message) => CalmEnds(s, env, EngineFailed(message), true);
    case _ => CalmEnds(s, env, Left, true);
  }

  lemma CalmSettle(s: State, env: Env, mids: seq<Mid>)
    requires s.ice.publish.mids == Some(mids)
    ensures Calm(s, Reannounce(FlushRemote(s, PublishPc, env.adds), env.media))
  {
    assert Calm(s, FlushRemote(s, PublishPc, env.adds));
  }

  lemma PubApplied(s: State, env: Env, n: nat, mids: seq<Mid>, ok: bool)
    requires PubOk(s) && !s.ending.ended && ApplyAnswer(n, mids) in s.pub.ops
    ensures PubOk(OnPublishApplied(s, env, n, mids, ok))
  {
    assert s.pub.ops - multiset{ApplyAnswer(n, mids)} == multiset{};
    var t := s.(pub := s.pub.(ops := multiset{}));
    if t.pub.state == ApplyingAnswer(n) && ok {
      var settled := WithLane(t.(pub := t.pub.(state := Stable)), PublishPc, t.ice.publish.(mids := Some(mids)));
      var after := Reannounce(FlushRemote(settled, PublishPc, env.adds), env.media);
      CalmSettle(settled, env, mids);
      StartKeeps(after.pub);
    }
  }

  lemma PubAgain(s: State, ok: bool)
    requires !s.ending.ended && s.link.connected && s.link.joined && |s.pub.ops| <= 1
    requires OpsMatch(s.pub) && (Owed(s.pub.events) ==> s.pub.pending)
    ensures PubOk(UnsentSent(s.(pub := PublishResumed(s.pub)), ok))
  {
    var p := s.pub;
    if p.state.NeedsRestart? || p.state.AwaitingAnswer? || (p.state.Stable? && p.pending) {
      StartKeeps(p);
    }
  }

  /** A resume before anything was published: nothing to do again. */
  lemma PubAgainIdle(s: State, ok: bool)
    requires s.pub.state.Idle? && s.pub.unsent.None?
    ensures UnsentSent(s.(pub := PublishResumed(s.pub)), ok).pub == s.pub
  {
  }

  lemma CalmAfterResume(s: State, env: Env)
    ensures Calm(UnsentSent(s.(pub := PublishResumed(s.pub)), env.publish), AfterResume(s, env))
  {
    var published := UnsentSent(s.(pub := PublishResumed(s.pub)), env.publish);
    var retained := SendRetained(published, env.answer);
    assert Calm(published, retained);
    var dirty := DirtySent(retained, env.media);
    assert Calm(retained, dirty);
    assert Calm(dirty, FlushReannounce(dirty, env.media));
  }

  lemma PubResumed(s: State, env: Env, generation: nat)
    requires PubOk(s) && !s.ending.ended
    ensures PubOk(AfterResume(s.(link := Link(s.link.joined, generation, true, false, s.link.resumes - multiset{generation})), env))
  {
    var t := s.(link := Link(s.link.joined, generation, true, false, s.link.resumes - multiset{generation}));
    if s.link.joined {
      PubAgain(t, env.publish);
    } else {
      PubAgainIdle(t, env.publish);
    }
    CalmAfterResume(t, env);
    CalmKeeps(UnsentSent(t.(pub := PublishResumed(t.pub)), env.publish), AfterResume(t, env));
  }

  lemma PubStep(s: State, m: Incoming, env: Env)
    requires PubOk(s) && !s.ending.ended && InFlight(s, m)
    ensures PubOk(Handle(s, m, env))
  {
    if m.JoinedFrame? {
      PubJoined(s, m.valid);
    } else if m.Republish? {
      PubRepublish(s);
    } else if m.PublishOfferDone? {
      PubOffered(s, env, m.n, m.ok);
    } else if m.PublishAnswerDone? {
      PubAnswered(s, m.n, m.answer);
    } else if m.PublishAppliedDone? {
      PubApplied(s, env, m.n, m.mids, m.ok);
    } else if m.ResumedDone? && m.resumed.ResumeOk? {
      PubResumed(s, env, m.generation);
    } else {
      CalmStep(s, m, env);
      CalmKeeps(s, Handle(s, m, env));
    }
  }

  // ---- Frames ----

  /** Each offer is written once, in order. */
  ghost predicate OffersOnce(frames: seq<Frame>, p: Pub) {
    && (forall i :: 0 <= i < |frames| && frames[i].Publish? ==>
          frames[i].offer <= p.count && (p.state == Offering(p.count) ==> frames[i].offer < p.count))
    && (forall i, j :: 0 <= i < j < |frames| && frames[i].Publish? && frames[j].Publish? ==>
          frames[i].offer < frames[j].offer)
  }

  /** The engine is closed once, at the end; `call.leave` is the last frame, and the only one after
      the end. */
  ghost predicate EndOk(frames: seq<Frame>, e: Ending) {
    && (forall i :: 0 <= i < |frames| && frames[i].LeaveFrame? ==> e.ended && i == |frames| - 1)
    && (e.ended <==> e.reason.Some?) && e.closes == (if e.ended then 1 else 0)
    && (e.ended ==> e.written <= |frames| <= e.written + 1)
    && (e.ended && |frames| > e.written ==> frames[e.written].LeaveFrame?)
  }

  ghost predicate FramesOk(s: State) {
    OffersOnce(s.frames, s.pub) && EndOk(s.frames, s.ending)
  }

  /** Frames of other kinds were written, or none; an offer may have been started. */
  ghost predicate Quiet(s: State, t: State) {
    && t.ending == s.ending
    && s.frames <= t.frames
    && (forall i :: |s.frames| <= i < |t.frames| ==> !t.frames[i].Publish? && !t.frames[i].LeaveFrame?)
    && s.pub.count <= t.pub.count
    && (t.pub.state == Offering(t.pub.count) ==>
          s.pub.count < t.pub.count || s.pub.state == Offering(s.pub.count))
  }

  lemma QuietKeeps(s: State, t: State)
    requires FramesOk(s) && Quiet(s, t) && (s.ending.ended ==> t.frames == s.frames)
    ensures FramesOk(t)
  {
    assert forall i :: 0 <= i < |s.frames| ==> t.frames[i] == s.frames[i];
  }

  lemma FinishFrames(s: State, reason: EndReason, tell: bool)
    requires FramesOk(s)
    ensures FramesOk(Finish(s, reason, tell))
  {
  }

  lemma LeaveFrames(s: State, env: Env)
    requires FramesOk(s) && !s.ending.ended
    ensures FramesOk(OnLeave(s, env))
  {
  }

  /** `call.publish` of the newest offer, not written before; then the candidates held for it. */
  lemma PublishFrames(s: State, n: nat, ok: bool)
    requires FramesOk(s) && !s.ending.ended && s.pub.state == Offering(n) && n == s.pub.count
    ensures FramesOk(SendPublish(s, n, ok))
  {
  }

  lemma QuietSends(s: State, pc: PcKind, c: Candidate, ok: bool)
    ensures Quiet(s, SendRetained(s, ok)) && Quiet(s, OnLocalCandidate(s, pc, c)) && Quiet(s, OnRepublish(s))
    ensures Quiet(s, s.(pub := StartOffer(s.pub)))
    ensures Quiet(s, s.(pub := PublishResumed(s.pub)))
  {
  }

  lemma QuietOffer(s: State, env: Env, version: nat, mids: seq<Mid>)
    ensures Quiet(s, OnOffer(s, env, version, mids))
  {
  }

  lemma QuietMedia(s: State, env: Env, intent: Intent, reply: Reply, ok: bool)
    ensures Quiet(s, OnSetMedia(s, env, intent, reply)) && Quiet(s, SetMedia(s, env, intent, reply))
    ensures Quiet(s, DirtySent(s, ok))
  {
  }

  lemma QuietReannounce(s: State, ok: bool)
    ensures Quiet(s, FlushReannounce(s, ok)) && Quiet(s, Reannounce(s, ok))
    ensures s.ending.ended ==> FlushReannounce(s, ok).frames == s.frames && Reannounce(s, ok).frames == s.frames
  {
  }

  lemma QuietConn(s: State, env: Env, ready: bool, generation: nat)
    ensures Quiet(s, OnConn(s, env, ready, generation))
    ensures s.ending.ended ==> OnConn(s, env, ready, generation).frames == s.frames
  {
  }

  lemma FramesFlush(s: State, pc: PcKind, adds: nat)
    requires FramesOk(s) && LaneOf(s.ice, pc).mids.Some?
    ensures FramesOk(FlushRemote(s, pc, adds))
    ensures FlushRemote(s, pc, adds).pub == s.pub
  {
    var lane := LaneOf(s.ice, pc);
    if adds < Front(lane.mids, lane.buffer) {
      FinishFrames(WithLane(s, pc, FlushBroken(lane, adds)), REFUSED, true);
    }
  }

  lemma FramesApplied(s: State, env: Env, n: nat, mids: seq<Mid>, ok: bool)
    requires FramesOk(s) && !s.ending.ended
    ensures FramesOk(OnPublishApplied(s, env, n, mids, ok))
  {
    var t := s.(pub := s.pub.(ops := s.pub.ops - multiset{ApplyAnswer(n, mids)}));
    if t.pub.state == ApplyingAnswer(n) {
      if !ok {
        FinishFrames(t, EngineFailed("answer"), true);
      } else {
        var settled := WithLane(t.(pub := t.pub.(state := Stable)), PublishPc, t.ice.publish.(mids := Some(mids)));
        FramesFlush(settled, PublishPc, env.adds);
        var flushed := FlushRemote(settled, PublishPc, env.adds);
        QuietReannounce(flushed, env.media);
        var told := Reannounce(flushed, env.media);
        QuietKeeps(flushed, told);
        QuietKeeps(told, Resettled(told));
      }
    }
  }

  lemma FramesOfferApplied(s: State, env: Env, version: nat, sdp: string)
    requires FramesOk(s)
    ensures FramesOk(OfferApplied(s, env, version, sdp))
  {
    var kept := s.(sub := s.sub.(retained := Some(Retained(version, sdp))));
    QuietSends(kept, SubscribePc, None, env.answer);
    QuietKeeps(s, OfferApplied(s, env, version, sdp));
  }

  lemma FramesSubscribed(s: State, env: Env, n: nat, version: nat, mids: seq<Mid>, sdp: Option<string>)
    requires FramesOk(s) && !s.ending.ended
    ensures FramesOk(OnSubscribeApplied(s, env, n, version, mids, sdp))
  {
    var t := s.(sub := s.sub.(ops := s.sub.ops - multiset{ApplyOffer(n, version, mids)}));
    if t.sub.applying.Some? && t.sub.applying.value.n == n {
      var idle := t.(sub := t.sub.(applying := None));
      if sdp.None? {
        FinishFrames(idle, EngineFailed("offer"), true);
      } else {
        var described := WithLane(idle, SubscribePc, idle.ice.subscribe.(mids := Some(mids)));
        FramesFlush(described, SubscribePc, env.adds);
        FramesOfferApplied(FlushRemote(described, SubscribePc, env.adds), env, version, sdp.value);
      }
    }
  }

  lemma FramesMediaAck(s: State, env: Env, intent: Intent, prev: Intent, r: MediaResult)
    requires FramesOk(s) && !s.ending.ended
    ensures FramesOk(OnMediaAck(s, env, intent, prev, r))
  {
    var m := MediaSettled(s.media, env, intent, prev, r);
    var t := s.(media := m);
    if m.queued.Some? {
      var u := s.(media := m.(queued := None));
      QuietMedia(u, env, m.queued.value.intent, m.queued.value.reply, true);
      t := SetMedia(u, env, m.queued.value.intent, m.queued.value.reply);
    }
    QuietKeeps(s, t);
    QuietReannounce(t, env.media);
    QuietKeeps(t, FlushReannounce(t, env.media));
  }

  lemma FramesAgain(s: State, ok: bool)
    requires FramesOk(s) && !s.ending.ended && OpsMatch(s.pub)
    ensures FramesOk(UnsentSent(s.(pub := PublishResumed(s.pub)), ok))
    ensures !UnsentSent(s.(pub := PublishResumed(s.pub)), ok).ending.ended
  {
    var again := s.(pub := PublishResumed(s.pub));
    QuietKeeps(s, again);
    if again.pub.unsent.Some? && again.pub.state == Offering(again.pub.unsent.value) {
      PublishFrames(again.(pub := again.pub.(unsent := None)), again.pub.unsent.value, ok);
    }
  }

  lemma FramesResumed(s: State, env: Env)
    requires FramesOk(s) && !s.ending.ended && OpsMatch(s.pub)
    ensures FramesOk(AfterResume(s, env))
  {
    FramesAgain(s, env.publish);
    var published := UnsentSent(s.(pub := PublishResumed(s.pub)), env.publish);
    var retained := SendRetained(published, env.answer);
    QuietSends(published, PublishPc, None, env.answer);
    QuietKeeps(published, retained);
    var dirty := DirtySent(retained, env.media);
    QuietMedia(retained, env, Intent(true, true), 0, env.media);
    QuietKeeps(retained, dirty);
    QuietReannounce(dirty, env.media);
    QuietKeeps(dirty, FlushReannounce(dirty, env.media));
  }

  lemma FramesReconnected(s: State, env: Env, generation: nat, r: ResumeResult, ready: bool, now: nat)
    requires FramesOk(s) && !s.ending.ended && PubOk(s)
    ensures FramesOk(OnResumed(s, env, generation, r, ready, now))
  {
    var t := s.(link := s.link.(resuming := false, resumes := s.link.resumes - multiset{generation}));
    if r.ResumeOk? {
      FramesResumed(t.(link := t.link.(generation := generation, connected := true)), env);
    } else if r.ResumeLost? {
      QuietConn(t, env, ready, now);
      QuietKeeps(t, OnConn(t, env, ready, now));
    } else if r.ResumeRejected? {
      FinishFrames(t, Server(r.code), false);
    } else {
      FinishFrames(t, Expired, false);
    }
  }

  lemma FramesAnswered(s: State, n: nat, r: AnswerResult)
    requires FramesOk(s) && !s.ending.ended
    ensures FramesOk(OnPublishAnswer(s, n, r))
  {
    if r.AnswerFailed? {
      FinishFrames(s.(pub := s.pub.(replies := s.pub.replies - multiset{n})), Server(r.code), true);
    }
  }

  lemma FramesAcked(s: State, version: nat, r: AckResult)
    requires FramesOk(s) && !s.ending.ended
    ensures FramesOk(OnSubscribeAck(s, version, r))
  {
    if r.AckFailed? {
      FinishFrames(s.(sub := s.sub.(acks := s.sub.acks - multiset{version})), Server(r.code), true);
    }
  }

  lemma FramesOffered(s: State, env: Env, n: nat, ok: bool)
    requires FramesOk(s) && !s.ending.ended
    ensures FramesOk(OnPublishOffer(s, env, n, ok))
  {
    var t := s.(pub := s.pub.(ops := s.pub.ops - multiset{CreateOffer(n)}));
    if n == t.pub.count && t.pub.state == Offering(n) {
      if ok {
        PublishFrames(t, n, env.publish);
      } else {
        FinishFrames(t, EngineFailed("offer"), true);
      }
    }
  }

  lemma FramesCandidate(s: State, env: Env, pc: PcKind, c: Candidate)
    requires FramesOk(s) && !s.ending.ended
    ensures FramesOk(OnRemoteCandidate(s, env, pc, c))
  {
    var lane := LaneOf(s.ice, pc);
    if lane.buffer == [] && Applicable(lane.mids, c) && env.adds == 0 {
      FinishFrames(WithLane(s, pc, lane.(received := lane.received + [c])), REFUSED, true);
    }
  }

  lemma FramesResult(s: State, m: Incoming, env: Env)
    requires FramesOk(s) && !s.ending.ended && PubOk(s) && IsResult(m)
    ensures FramesOk(Handle(s, m, env))
  {
    if m.PublishOfferDone? {
      FramesOffered(s, env, m.n, m.ok);
    } else if m.PublishAnswerDone? {
      FramesAnswered(s, m.n, m.answer);
    } else if m.PublishAppliedDone? {
      FramesApplied(s, env, m.n, m.mids, m.ok);
    } else if m.SubscribeAppliedDone? {
      FramesSubscribed(s, env, m.n, m.version, m.mids, m.sdp);
    } else if m.SubscribeAckDone? {
      FramesAcked(s, m.version, m.ack);
    } else if m.ResumedDone? {
      FramesReconnected(s, env, m.generation, m.resumed, m.ready, m.now);
    } else {
      FramesMediaAck(s, env, m.intent, m.prev, m.media);
    }
  }

  lemma FramesStep(s: State, m: Incoming, env: Env)
    requires FramesOk(s) && !s.ending.ended && PubOk(s)
    ensures FramesOk(Handle(s, m, env))
  {
    if IsResult(m) {
      FramesResult(s, m, env);
    } else if m.RemoteCandidate? {
      FramesCandidate(s, env, m.pc, m.candidate);
    } else if m.Leave? {
      LeaveFrames(s, env);
    } else if m.EndedFrame? || m.EngineBroke? || m.HandleDropped? || m.NewSession? || (m.JoinedFrame? && !m.valid) {
    } else {
      QuietStep(s, m, env);
      QuietKeeps(s, Handle(s, m, env));
    }
  }

  lemma QuietStep(s: State, m: Incoming, env: Env)
    requires m.OfferFrame? || m.LocalCandidate? || m.AskMedia? || m.Republish? || m.NewConn? || (m.JoinedFrame? && m.valid)
    ensures Quiet(s, Handle(s, m, env))
  {
    match m
    case OfferFrame(version, mids) => QuietOffer(s, env, version, mids);
    case LocalCandidate(pc, c) => QuietSends(s, pc, c, true);
    case AskMedia(intent, reply) => QuietMedia(s, env, intent, reply, true);
    case Republish => QuietSends(s, PublishPc, None, true);
    case NewConn(ready, generation) => QuietConn(s, env, ready, generation);
    case JoinedFrame(_) => QuietSends(s, PublishPc, None, true);
  }
}
