/** When a call ends and why, counted over the messages it meets; and what becomes of the candidates and
    the media that had to wait. */
module CallOutcomes {
  import opened Tables
  import opened Call
  import opened CallLaws

  // ---- Candidates that fit ----

  /** The description has the candidate's media section; the end of candidates needs only a description. */
  predicate Fits(mids: seq<Mid>, c: Candidate) {
    match c
    case None => true
    case Some(Cand(Some(mid), _)) => mid in mids
    case Some(Cand(None, Some(line))) => line < |mids|
    case Some(Cand(None, None)) => false
  }

  predicate FitsNow(lane: Lane, c: Candidate) {
    lane.mids.Some? && Fits(lane.mids.value, c)
  }

  lemma FitsIsApplicable(mids: Option<seq<Mid>>, c: Candidate)
    ensures Applicable(mids, c) <==> mids.Some? && Fits(mids.value, c)
  {
  }

  lemma {:induction false} FrontFits(mids: seq<Mid>, buffer: seq<Candidate>)
    ensures
      var n := Front(Some(mids), buffer);
      && (forall i :: 0 <= i < n ==> Fits(mids, buffer[i]))
      && (n < |buffer| ==> !Fits(mids, buffer[n]))
  {
    if buffer != [] {
      FitsIsApplicable(Some(mids), buffer[0]);
      if Fits(mids, buffer[0]) {
        FrontFits(mids, buffer[1..]);
        var n := Front(Some(mids), buffer);
        assert forall i :: 0 < i < n ==> buffer[i] == buffer[1..][i - 1];
      }
    }
  }

  /** The engine takes `adds` of the candidates, and one more in front fits. */
  ghost predicate Refuses(mids: seq<Mid>, buffer: seq<Candidate>, adds: nat) {
    adds < |buffer| && forall i :: 0 <= i <= adds ==> Fits(mids, buffer[i])
  }

  lemma RefusesIff(mids: seq<Mid>, buffer: seq<Candidate>, adds: nat)
    ensures Refuses(mids, buffer, adds) <==> adds < Front(Some(mids), buffer)
  {
    FrontFits(mids, buffer);
  }

  /** A candidate that fits goes to the engine at once, if none waits before it; any other waits. */
  lemma CandidateGoes(s: State, env: Env, pc: PcKind, c: Candidate)
    requires !s.ending.ended
    ensures
      var lane, t := LaneOf(s.ice, pc), Handle(s, RemoteCandidate(pc, c), env);
      var after := LaneOf(t.ice, pc);
      if lane.buffer != [] || !FitsNow(lane, c) then
        after.buffer == lane.buffer + [c] && after.given == lane.given && t.ending == s.ending
      else if env.adds > 0 then
        after.buffer == [] && after.given == lane.given + [Given(c, lane.mids.value)] && t.ending == s.ending
      else after.given == lane.given && t.ending.ended
  {
    FitsIsApplicable(LaneOf(s.ice, pc).mids, c);
  }

  /** With a description applied, the waiting candidates go to the engine, in order, up to the first that
      doesn't fit; those behind it keep waiting. */
  lemma WaitingCandidatesGo(s: State, pc: PcKind, mids: seq<Mid>, adds: nat)
    requires !s.ending.ended && LaneOf(s.ice, pc).mids == Some(mids)
    ensures
      var lane, t := LaneOf(s.ice, pc), FlushRemote(s, pc, adds);
      var after := LaneOf(t.ice, pc);
      && (t.ending.ended <==> Refuses(mids, lane.buffer, adds))
      && (!t.ending.ended ==>
            && |after.buffer| <= |lane.buffer|
            && var n := |lane.buffer| - |after.buffer|;
            && after.buffer == lane.buffer[n..]
            && |after.given| == |lane.given| + n && lane.given <= after.given
            && (forall i :: 0 <= i < n ==>
                  after.given[|lane.given| + i] == Given(lane.buffer[i], mids) && Fits(mids, lane.buffer[i]))
            && (after.buffer != [] ==> !Fits(mids, after.buffer[0])))
  {
    FrontFits(mids, LaneOf(s.ice, pc).buffer);
    RefusesIff(mids, LaneOf(s.ice, pc).buffer, adds);
  }

  // ---- The end ----

  /** Why this message ends the call, if it does. */
  ghost function WhyEnds(s: State, m: Incoming, env: Env): Option<EndReason> {
    match m
    case JoinedFrame(valid) => if valid then None else Some(Server("unexpected_response"))
    case EndedFrame(reason) => Some(reason)
    case EngineBroke(message) => Some(EngineFailed(message))
    case Leave => Some(Left)
    case HandleDropped => Some(Left)
    case NewSession => Some(SessionChanged)
    case RemoteCandidate(pc, c) =>
      var lane := LaneOf(s.ice, pc);
      if lane.buffer == [] && FitsNow(lane, c) && env.adds == 0 then Some(EngineFailed("candidate")) else None
    case PublishOfferDone(n, ok) =>
      if s.pub.state == Offering(n) && s.pub.count == n && !ok then Some(EngineFailed("offer")) else None
    case PublishAnswerDone(n, AnswerFailed(code)) => if s.pub.state == AwaitingAnswer(n) then Some(Server(code)) else None
    case PublishAppliedDone(n, mids, ok) =>
      if s.pub.state != ApplyingAnswer(n) then None
      else if !ok then Some(EngineFailed("answer"))
      else if Refuses(mids, s.ice.publish.buffer, env.adds) then Some(EngineFailed("candidate"))
      else None
    case SubscribeAppliedDone(n, _, mids, sdp) =>
      if s.sub.applying.None? || s.sub.applying.value.n != n then None
      else if sdp.None? then Some(EngineFailed("offer"))
      else if Refuses(mids, s.ice.subscribe.buffer, env.adds) then Some(EngineFailed("candidate"))
      else None
    case SubscribeAckDone(_, AckFailed(code)) => Some(Server(code))
    case ResumedDone(_, NotInCall, _, _) => Some(Expired)
    case ResumedDone(_, ResumeRejected(code), _, _) => Some(Server(code))
    case _ => None
  }

  /** The call goes on, or it ends for this reason. */
  predicate EndsFor(s: State, t: State, why: Option<EndReason>) {
    if why.None? then t.ending == s.ending
    else t.ending.ended && t.ending.reason == why && t.ending.closes == s.ending.closes + 1
  }

  lemma FlushEnds(s: State, pc: PcKind, mids: seq<Mid>, adds: nat)
    requires !s.ending.ended && LaneOf(s.ice, pc).mids == Some(mids)
    ensures EndsFor(s, FlushRemote(s, pc, adds),
                    if Refuses(mids, LaneOf(s.ice, pc).buffer, adds) then Some(EngineFailed("candidate")) else None)
  {
    RefusesIff(mids, LaneOf(s.ice, pc).buffer, adds);
  }

  lemma MediaGoesOn(s: State, env: Env, ok: bool)
    ensures Reannounce(s, ok).ending == s.ending && FlushReannounce(s, ok).ending == s.ending
    ensures Resettled(s).ending == s.ending && DirtySent(s, ok).ending == s.ending
    ensures SendRetained(s, ok).ending == s.ending && UnsentSent(s, ok).ending == s.ending
  {
  }

  lemma PublishAppliedEnds(s: State, env: Env, n: nat, mids: seq<Mid>, ok: bool)
    requires !s.ending.ended
    ensures EndsFor(s, OnPublishApplied(s, env, n, mids, ok), WhyEnds(s, PublishAppliedDone(n, mids, ok), env))
  {
    if s.pub.state == ApplyingAnswer(n) && ok {
      var t := s.(pub := s.pub.(ops := s.pub.ops - multiset{ApplyAnswer(n, mids)}));
      var settled := WithLane(t.(pub := t.pub.(state := Stable)), PublishPc, t.ice.publish.(mids := Some(mids)));
      FlushEnds(settled, PublishPc, mids, env.adds);
      var flushed := FlushRemote(settled, PublishPc, env.adds);
      MediaGoesOn(flushed, env, env.media);
      MediaGoesOn(Reannounce(flushed, env.media), env, env.media);
    }
  }

  lemma SubscribeAppliedEnds(s: State, env: Env, n: nat, version: nat, mids: seq<Mid>, sdp: Option<string>)
    requires !s.ending.ended
    ensures EndsFor(s, OnSubscribeApplied(s, env, n, version, mids, sdp),
                    WhyEnds(s, SubscribeAppliedDone(n, version, mids, sdp), env))
  {
    if s.sub.applying.Some? && s.sub.applying.value.n == n && sdp.Some? {
      var idle := s.(sub := s.sub.(ops := s.sub.ops - multiset{ApplyOffer(n, version, mids)}, applying := None));
      var described := WithLane(idle, SubscribePc, idle.ice.subscribe.(mids := Some(mids)));
      FlushEnds(described, SubscribePc, mids, env.adds);
      var flushed := FlushRemote(described, SubscribePc, env.adds);
      assert OfferApplied(flushed, env, version, sdp.value).ending == flushed.ending;
    }
  }

  lemma AfterResumeGoesOn(s: State, env: Env)
    ensures AfterResume(s, env).ending == s.ending
  {
    var resumed := s.(pub := PublishResumed(s.pub));
    MediaGoesOn(resumed, env, env.publish);
    var published := UnsentSent(resumed, env.publish);
    MediaGoesOn(published, env, env.answer);
    var retained := SendRetained(published, env.answer);
    MediaGoesOn(retained, env, env.media);
    MediaGoesOn(DirtySent(retained, env.media), env, env.media);
  }

  lemma ResumedEnds(s: State, env: Env, generation: nat, r: ResumeResult, ready: bool, now: nat)
    requires !s.ending.ended
    ensures EndsFor(s, OnResumed(s, env, generation, r, ready, now), WhyEnds(s, ResumedDone(generation, r, ready, now), env))
  {
    if r.ResumeOk? {
      var t := s.(link := s.link.(resuming := false, resumes := s.link.resumes - multiset{generation}));
      AfterResumeGoesOn(t.(link := t.link.(generation := generation, connected := true)), env);
    }
  }

  lemma RepliesEnd(s: State, m: Incoming, env: Env)
    requires !s.ending.ended && (m.PublishOfferDone? || m.PublishAnswerDone? || m.SubscribeAckDone?)
    ensures EndsFor(s, Handle(s, m, env), WhyEnds(s, m, env))
  {
  }

  lemma MediaEnds(s: State, env: Env, intent: Intent, prev: Intent, reply: Reply, r: MediaResult)
    ensures OnSetMedia(s, env, intent, reply).ending == s.ending && OnMediaAck(s, env, intent, prev, r).ending == s.ending
  {
  }

  lemma OfferGoesOn(s: State, env: Env, version: nat, mids: seq<Mid>)
    ensures OnOffer(s, env, version, mids).ending == s.ending
  {
  }

  lemma InputsEnd(s: State, m: Incoming, env: Env)
    requires !s.ending.ended && !IsResult(m) && !m.AskMedia? && !m.OfferFrame? && !m.RemoteCandidate?
    ensures EndsFor(s, Handle(s, m, env), WhyEnds(s, m, env))
  {
  }

  /** A message ends the call exactly for these reasons; any other leaves it going. */
  lemma EndsIff(s: State, m: Incoming, env: Env)
    requires !s.ending.ended
    ensures EndsFor(s, Handle(s, m, env), WhyEnds(s, m, env))
  {
    match m
    case PublishAppliedDone(n, mids, ok) => PublishAppliedEnds(s, env, n, mids, ok);
    case SubscribeAppliedDone(n, version, mids, sdp) => SubscribeAppliedEnds(s, env, n, version, mids, sdp);
    case ResumedDone(generation, r, ready, now) => ResumedEnds(s, env, generation, r, ready, now);
    case RemoteCandidate(pc, c) => FitsIsApplicable(LaneOf(s.ice, pc).mids, c);
    case AskMedia(intent, reply) => MediaEnds(s, env, intent, intent, reply, MediaTaken);
    case MediaAckDone(intent, prev, r) => MediaEnds(s, env, intent, prev, 0, r);
    case OfferFrame(version, mids) => OfferGoesOn(s, env, version, mids);
    case _ =>
      if IsResult(m) {
        RepliesEnd(s, m, env);
      } else {
        InputsEnd(s, m, env);
      }
  }

  /** The `n`th message ends the call. */
  ghost predicate EndsAt(s: State, turns: seq<Turn>, n: nat) {
    n < |turns| && WhyEnds(RunAll(s, turns[..n]), turns[n].m, turns[n].env).Some?
  }

  ghost predicate NoneEnds(s: State, turns: seq<Turn>) {
    forall n: nat | n < |turns| :: !EndsAt(s, turns, n)
  }

  lemma {:induction false} EndsAtEarlier(s: State, turns: seq<Turn>, n: nat, k: nat)
    requires k < n <= |turns|
    ensures EndsAt(s, turns[..n], k) <==> EndsAt(s, turns, k)
  {
    assert turns[..n][..k] == turns[..k];
  }

  lemma {:induction false} LastTurn(s: State, turns: seq<Turn>)
    requires turns != []
    ensures
      var before, t := RunAll(s, turns[..|turns| - 1]), RunAll(s, turns);
      if before.ending.ended then t == before
      else
        && (t.ending.ended <==> EndsAt(s, turns, |turns| - 1))
        && (t.ending.ended ==> t.ending.reason == WhyEnds(before, turns[|turns| - 1].m, turns[|turns| - 1].env))
  {
    var before := RunAll(s, turns[..|turns| - 1]);
    if !before.ending.ended {
      EndsIff(before, turns[|turns| - 1].m, turns[|turns| - 1].env);
    }
  }

  lemma {:induction false} NoneEndsLast(s: State, turns: seq<Turn>)
    requires turns != []
    ensures NoneEnds(s, turns) <==> NoneEnds(s, turns[..|turns| - 1]) && !EndsAt(s, turns, |turns| - 1)
  {
    var last := |turns| - 1;
    forall k: nat | k < last
      ensures EndsAt(s, turns[..last], k) <==> EndsAt(s, turns, k)
    {
      EndsAtEarlier(s, turns, last, k);
    }
  }

  /** A call goes on exactly if none of the messages it met ends it. */
  lemma {:induction false} GoesOnIff(s: State, turns: seq<Turn>)
    requires !s.ending.ended
    ensures !RunAll(s, turns).ending.ended <==> NoneEnds(s, turns)
  {
    if turns != [] {
      GoesOnIff(s, turns[..|turns| - 1]);
      NoneEndsLast(s, turns);
      LastTurn(s, turns);
    }
  }

  /** The reason of a call that has ended is the one of the first message that ends it. */
  lemma {:induction false} EndsForTheFirst(s: State, turns: seq<Turn>) returns (n: nat)
    requires !s.ending.ended && RunAll(s, turns).ending.ended
    ensures EndsAt(s, turns, n) && NoneEnds(s, turns[..n])
    ensures RunAll(s, turns).ending.reason == WhyEnds(RunAll(s, turns[..n]), turns[n].m, turns[n].env)
  {
    var last := |turns| - 1;
    LastTurn(s, turns);
    if RunAll(s, turns[..last]).ending.ended {
      n := EndsForTheFirst(s, turns[..last]);
      EndsAtEarlier(s, turns, last, n);
      assert turns[..last][..n] == turns[..n];
    } else {
      n := last;
      GoesOnIff(s, turns[..last]);
    }
  }

  // ---- Media that waited ----

  /** Once the change in flight is answered, the one that waited goes out, in the same way. */
  lemma QueuedMediaGoes(s: State, env: Env, intent: Intent, prev: Intent, r: MediaResult)
    requires s.media.queued.Some?
    ensures
      var q, t := s.media.queued.value, Handle(s, MediaAckDone(intent, prev, r), env);
      && t.media.queued.None?
      && (if !env.setMedia then t.media.engine == s.media.engine && q.reply in t.media.answers
          else
            && t.media.engine == Some(q.intent)
            && (if s.link.connected && env.media
                then t.frames == s.frames + [MediaFrame(q.intent)] && t.media.inFlight && t.media.reply == Some(q.reply)
                else t.frames == s.frames && t.media.dirty && q.reply in t.media.answers))
  {
  }

  lemma MediaAckAnnounces(s: State, env: Env, intent: Intent, prev: Intent, r: MediaResult)
    requires s.media.queued.None? && s.media.reannounce && s.media.engine.Some? && !s.ending.ended
    ensures
      var t := Handle(s, MediaAckDone(intent, prev, r), env);
      t.frames == if s.link.connected && env.media then s.frames + [MediaFrame(t.media.engine.value)] else s.frames
  {
  }

  lemma AnnouncedNow(s: State, ok: bool)
    requires s.media.engine.Some? && s.link.connected && !s.ending.ended
    ensures
      var t := Reannounce(s, ok);
      if s.media.inFlight then t.media.reannounce && t.frames == s.frames
      else if ok then t.frames == s.frames + [MediaFrame(s.media.engine.value)]
      else t.frames == s.frames && t.media.dirty
  {
  }

  /** After every publish that settles, the engine's media is announced again: now, once the change in
      flight is answered (`MediaAckAnnounces`), or after the next resume. */
  lemma PublishAnnounces(s: State, env: Env, n: nat, mids: seq<Mid>)
    requires s.pub.state == ApplyingAnswer(n) && s.media.engine.Some? && s.link.connected && !s.ending.ended
    ensures
      var t := Handle(s, PublishAppliedDone(n, mids, true), env);
      !t.ending.ended ==>
        if s.media.inFlight then t.media.reannounce && t.frames == s.frames
        else if env.media then t.frames == s.frames + [MediaFrame(s.media.engine.value)]
        else t.frames == s.frames && t.media.dirty
  {
    var u := s.(pub := s.pub.(ops := s.pub.ops - multiset{ApplyAnswer(n, mids)}, state := Stable));
    var settled := WithLane(u, PublishPc, u.ice.publish.(mids := Some(mids)));
    var flushed := FlushRemote(settled, PublishPc, env.adds);
    PublishIsDone(s, env, n, mids);
    assert flushed.media == s.media || flushed.ending.ended;
    if !flushed.ending.ended {
      AnnouncedNow(flushed, env.media);
    }
  }

  // ---- Answers refused, resumes lost ----

  /** A stale or unknown outcome acknowledges nothing; a stale one lets its own kept answer go. */
  lemma RefusedAnswersGo(s: State, env: Env, version: nat, r: AckResult)
    requires r.Stale? || r.AckUnknown?
    ensures
      var b, t := s.sub, Handle(s, SubscribeAckDone(version, r), env);
      && t.sub.acked == b.acked && t.ending == s.ending
      && (r.Stale? && b.retained.Some? && b.retained.value.version == version ==> t.sub.retained.None?)
      && (r.AckUnknown? || b.retained.None? || b.retained.value.version != version ==> t.sub.retained == b.retained)
  {
  }

  /** A replayed offer is answered again, with the kept answer. */
  lemma ReplaysAreAnswered(s: State, env: Env, version: nat, mids: seq<Mid>)
    requires s.sub.acked < version && s.sub.retained.Some? && s.sub.retained.value.version == version
    ensures
      var t := Handle(s, OfferFrame(version, mids), env);
      && t.sub.applied == s.sub.applied && t.sub.retained == s.sub.retained
      && t.frames == if s.link.connected && env.answer then s.frames + [SubAnswer(version, s.sub.retained.value.sdp)] else s.frames
  {
  }

  /** A lost resume is tried again on a newer connection, if there is one. */
  lemma LostResumesAreRetried(s: State, env: Env, generation: nat, ready: bool, now: nat)
    requires !s.ending.ended
    ensures
      var t := Handle(s, ResumedDone(generation, ResumeLost, ready, now), env);
      if ready && now > s.link.generation && env.resume
      then t.link.resuming && t.frames == s.frames + [ResumeFrame(now)]
      else !t.link.resuming && t.frames == s.frames
  {
  }
}
