/** The subscribe side of a call: one operation at a time, and what becomes of offers whose versions
    arrive in order. */
module CallVersions {
  import opened Tables
  import opened Call
  import opened CallInvariants

  // ---- One operation ----

  /** The subscribe operation in flight is the one being applied; only behind it does one wait. */
  ghost predicate SubMatch(b: Sub) {
    && (b.latest.Some? ==> b.applying.Some?)
    && (match b.applying
        case None => b.ops == multiset{}
        case Some(a) => a.n == b.count && exists mids :: b.ops == multiset{ApplyOffer(a.n, a.version, mids)})
  }

  // ---- Versions in order ----

  function Top(b: Sub): nat {
    if b.applied == [] then 0 else b.applied[|b.applied| - 1]
  }

  predicate Increasing(versions: seq<nat>) {
    forall i, j :: 0 <= i < j < |versions| ==> versions[i] < versions[j]
  }

  /** The answer of the newest applied offer is on its way, kept, acknowledged, or was refused. */
  predicate TopSettled(b: Sub) {
    || b.applied == [] || b.applying.Some?
    || (b.retained.Some? && b.retained.value.version == Top(b))
    || b.acked >= Top(b) || Top(b) in b.refused
  }

  ghost predicate InOrder(b: Sub) {
    && Top(b) <= b.arrived && b.acked <= Top(b) && TopSettled(b)
    && (forall v :: v in b.acks ==> v <= Top(b))
    && (b.latest.Some? ==> Top(b) < b.latest.value.version <= b.arrived)
    && (b.applying.Some? ==>
          && b.applying.value.version == Top(b) && b.applied != [] && b.acked < Top(b)
          && (forall v :: v in b.acks ==> v < Top(b))
          && (b.retained.Some? ==> b.retained.value.version < Top(b)))
    && (b.retained.Some? ==>
          && b.acked < b.retained.value.version <= Top(b)
          && (forall v :: v in b.acks ==> v <= b.retained.value.version)
          && (b.applying.None? ==> b.retained.value.version == Top(b)))
  }

  /** `ordered`: so far offers came in order, and none came again after its answer was refused. */
  ghost predicate SubOk(b: Sub, ended: bool, ordered: bool) {
    && |b.ops| <= 1
    && (!ended ==> SubMatch(b))
    && (ordered ==> Increasing(b.applied))
    && (ordered && !ended ==> InOrder(b))
  }

  predicate InOrderTurn(s: State, m: Incoming) {
    m.OfferFrame? ==> m.version >= s.sub.arrived && m.version !in s.sub.refused
  }

  /** The newest offer is given to the engine. */
  lemma ApplyNewest(b: Sub, ordered: bool)
    requires b.applying.None? && b.latest.Some? && b.ops == multiset{}
    requires ordered ==> Increasing(b.applied) && InOrder(b)
    ensures SubOk(MaybeApply(b), false, ordered)
  {
    var o := b.latest.value;
    assert b.ops + multiset{ApplyOffer(b.count + 1, o.version, o.mids)} == multiset{ApplyOffer(b.count + 1, o.version, o.mids)};
  }

  lemma RetainedSends(s: State, ok: bool, ordered: bool)
    requires SubOk(s.sub, false, ordered)
    ensures SubOk(SendRetained(s, ok).sub, false, ordered)
  {
  }

  /** An offer that counts as news is newer than everything applied. */
  lemma NewsIsNewer(b: Sub, version: nat)
    requires InOrder(b) && IsNews(b, version)
    requires version >= b.arrived && version !in b.refused && version > b.acked
    requires b.retained.Some? ==> b.retained.value.version != version
    ensures version > Top(b)
  {
  }

  lemma OfferKeeps(s: State, env: Env, version: nat, mids: seq<Mid>, ordered: bool)
    requires SubOk(s.sub, false, ordered)
    requires ordered ==> version >= s.sub.arrived && version !in s.sub.refused
    ensures SubOk(OnOffer(s, env, version, mids).sub, false, ordered)
  {
    var b := s.sub.(arrived := version);
    assert SubOk(b, false, ordered);
    if version > b.acked {
      if b.retained.Some? && b.retained.value.version == version {
        RetainedSends(s.(sub := b), env.answer, ordered);
      } else if IsNews(b, version) {
        if ordered {
          NewsIsNewer(b, version);
        }
        if b.applying.None? {
          ApplyNewest(b.(latest := Some(Offer(version, mids))), ordered);
        }
      }
    }
  }

  /** What is known of an answer that was sent. */
  predicate SentBefore(b: Sub, version: nat) {
    && version <= Top(b)
    && (b.applying.Some? ==> version < Top(b))
    && (b.retained.Some? ==> version <= b.retained.value.version)
  }

  lemma AckHandled(b: Sub, version: nat, ordered: bool)
    requires SubOk(b, false, ordered) && version in b.acks
    ensures SubOk(b.(acks := b.acks - multiset{version}), false, ordered)
    ensures ordered ==> SentBefore(b, version)
  {
    assert forall v :: v in b.acks - multiset{version} ==> v in b.acks;
  }

  lemma AckedKeeps(b: Sub, version: nat, ordered: bool)
    requires SubOk(b, false, ordered) && (ordered ==> SentBefore(b, version))
    ensures SubOk(Released(b.(acked := if b.acked < version then version else b.acked), version), false, ordered)
  {
  }

  lemma StaleKeeps(b: Sub, version: nat, ordered: bool)
    requires SubOk(b, false, ordered)
    ensures SubOk(Released(b.(refused := b.refused + {version}), version), false, ordered)
  {
  }

  /** The engine applied an offer. */
  lemma AppliedKeeps(s: State, env: Env, n: nat, version: nat, mids: seq<Mid>, sdp: string, ordered: bool)
    requires SubOk(s.sub, false, ordered) && !s.ending.ended
    requires ApplyOffer(n, version, mids) in s.sub.ops
    ensures SubOk(OfferApplied(s.(sub := Idled(s.sub, n, version, mids)), env, version, sdp).sub, false, ordered)
  {
    var b := Idled(s.sub, n, version, mids);
    assert b.ops == multiset{};
    assert s.sub.applying.Some? && s.sub.applying.value.version == version;
    if b.latest.Some? {
      var o := b.latest.value;
      assert b.ops + multiset{ApplyOffer(b.count + 1, o.version, o.mids)} == multiset{ApplyOffer(b.count + 1, o.version, o.mids)};
    } else {
      var kept := b.(retained := Some(Retained(version, sdp)));
      assert SubOk(kept, false, ordered);
      RetainedSends(s.(sub := kept), env.answer, ordered);
    }
  }

  function Idled(b: Sub, n: nat, version: nat, mids: seq<Mid>): Sub {
    b.(ops := b.ops - multiset{ApplyOffer(n, version, mids)}, applying := None)
  }

  // ---- Every handler ----

  predicate SameSub(s: State, t: State) {
    t.sub == s.sub && (s.ending.ended ==> t.ending.ended)
  }

  lemma FlushSub(s: State, pc: PcKind, adds: nat, ok: bool)
    requires LaneOf(s.ice, pc).mids.Some?
    ensures SameSub(s, FlushRemote(s, pc, adds))
    ensures SameSub(s, Reannounce(s, ok)) && SameSub(s, FlushReannounce(s, ok)) && SameSub(s, Resettled(s))
  {
  }

  lemma SubApplied(s: State, env: Env, n: nat, version: nat, mids: seq<Mid>, sdp: Option<string>, ordered: bool)
    requires SubOk(s.sub, false, ordered) && !s.ending.ended && ApplyOffer(n, version, mids) in s.sub.ops
    ensures
      var t := OnSubscribeApplied(s, env, n, version, mids, sdp);
      SubOk(t.sub, t.ending.ended, ordered)
  {
    assert s.sub.applying.Some? && s.sub.applying.value.n == n;
    var idle := s.(sub := Idled(s.sub, n, version, mids));
    assert |idle.sub.ops| <= 1;
    if sdp.Some? {
      var described := WithLane(idle, SubscribePc, idle.ice.subscribe.(mids := Some(mids)));
      FlushSub(described, SubscribePc, env.adds, true);
      var flushed := FlushRemote(described, SubscribePc, env.adds);
      if !flushed.ending.ended {
        AppliedKeeps(flushed.(sub := s.sub), env, n, version, mids, sdp.value, ordered);
        assert flushed.(sub := Idled(s.sub, n, version, mids)) == flushed;
      }
    }
  }

  /** Of what a resume does again, only the kept answer concerns the subscribe side. */
  lemma ResumedSub(s: State, env: Env)
    ensures AfterResume(s, env).sub == SendRetained(UnsentSent(s.(pub := PublishResumed(s.pub)), env.publish), env.answer).sub
    ensures UnsentSent(s.(pub := PublishResumed(s.pub)), env.publish).sub == s.sub
  {
    var retained := SendRetained(UnsentSent(s.(pub := PublishResumed(s.pub)), env.publish), env.answer);
    assert DirtySent(retained, env.media).sub == retained.sub;
  }

  lemma SubResumed(s: State, env: Env, ordered: bool)
    requires SubOk(s.sub, false, ordered)
    ensures SubOk(AfterResume(s, env).sub, false, ordered)
  {
    ResumedSub(s, env);
    RetainedSends(UnsentSent(s.(pub := PublishResumed(s.pub)), env.publish), env.answer, ordered);
  }

  lemma SameSubSettled(s: State, env: Env, mids: seq<Mid>)
    requires s.ice.publish.mids == Some(mids)
    ensures SameSub(s, Resettled(Reannounce(FlushRemote(s, PublishPc, env.adds), env.media)))
  {
    FlushSub(s, PublishPc, env.adds, env.media);
    var flushed := FlushRemote(s, PublishPc, env.adds);
    FlushSub(flushed, PublishPc, 0, env.media);
    FlushSub(Reannounce(flushed, env.media), PublishPc, 0, env.media);
  }

  lemma SameSubApplied(s: State, env: Env, n: nat, mids: seq<Mid>, ok: bool)
    ensures SameSub(s, OnPublishApplied(s, env, n, mids, ok))
  {
    var t := s.(pub := s.pub.(ops := s.pub.ops - multiset{ApplyAnswer(n, mids)}));
    if t.pub.state == ApplyingAnswer(n) && ok {
      SameSubSettled(WithLane(t.(pub := t.pub.(state := Stable)), PublishPc, t.ice.publish.(mids := Some(mids))), env, mids);
    }
  }

  lemma SameSubPublish(s: State, env: Env, n: nat, ok: bool, r: AnswerResult)
    ensures SameSub(s, OnPublishOffer(s, env, n, ok)) && SameSub(s, OnPublishAnswer(s, n, r))
  {
  }

  lemma SameSubMedia(s: State, env: Env, intent: Intent, prev: Intent, reply: Reply, r: MediaResult)
    ensures SameSub(s, OnMediaAck(s, env, intent, prev, r)) && SameSub(s, OnSetMedia(s, env, intent, reply))
  {
  }

  lemma SameSubInputs(s: State, m: Incoming, env: Env)
    requires !IsResult(m) && !m.OfferFrame? && !m.AskMedia?
    ensures SameSub(s, Handle(s, m, env))
  {
  }

  lemma SubReconnected(s: State, env: Env, generation: nat, r: ResumeResult, ready: bool, now: nat, ordered: bool)
    requires SubOk(s.sub, false, ordered) && !s.ending.ended
    ensures
      var t := OnResumed(s, env, generation, r, ready, now);
      SubOk(t.sub, t.ending.ended, ordered)
  {
    var t := s.(link := s.link.(resuming := false, resumes := s.link.resumes - multiset{generation}));
    if r.ResumeOk? {
      SubResumed(t.(link := t.link.(generation := generation, connected := true)), env, ordered);
    } else {
      assert SameSub(s, OnResumed(s, env, generation, r, ready, now));
    }
  }

  lemma SubAcked(s: State, version: nat, r: AckResult, ordered: bool)
    requires SubOk(s.sub, false, ordered) && !s.ending.ended && version in s.sub.acks
    ensures
      var t := OnSubscribeAck(s, version, r);
      SubOk(t.sub, t.ending.ended, ordered)
  {
    AckHandled(s.sub, version, ordered);
    var b := s.sub.(acks := s.sub.acks - multiset{version});
    match r
    case Acked => AckedKeeps(b, version, ordered);
    case Stale => StaleKeeps(b, version, ordered);
    case _ =>
  }

  lemma SubStep(s: State, m: Incoming, env: Env, ordered: bool)
    requires SubOk(s.sub, false, ordered) && !s.ending.ended && InFlight(s, m)
    requires ordered ==> InOrderTurn(s, m)
    ensures SubOk(Handle(s, m, env).sub, Handle(s, m, env).ending.ended, ordered)
  {
    if m.OfferFrame? {
      OfferKeeps(s, env, m.version, m.mids, ordered);
    } else if m.SubscribeAppliedDone? {
      SubApplied(s, env, m.n, m.version, m.mids, m.sdp, ordered);
    } else if m.SubscribeAckDone? {
      SubAcked(s, m.version, m.ack, ordered);
    } else if m.ResumedDone? {
      SubReconnected(s, env, m.generation, m.resumed, m.ready, m.now, ordered);
    } else if m.AskMedia? {
      SameSubMedia(s, env, m.intent, m.intent, m.reply, MediaTaken);
    } else if m.MediaAckDone? {
      SameSubMedia(s, env, m.intent, m.prev, 0, m.media);
    } else if m.PublishAppliedDone? {
      SameSubApplied(s, env, m.n, m.mids, m.ok);
    } else if m.PublishOfferDone? {
      SameSubPublish(s, env, m.n, m.ok, AnswerLost);
    } else if m.PublishAnswerDone? {
      SameSubPublish(s, env, m.n, true, m.answer);
    } else {
      SameSubInputs(s, m, env);
    }
  }

  // ---- Late offers ----

  /** Nothing is being applied, and the offer is no newer than the newest applied; but it is newer than
      what is acknowledged, and its answer isn't kept. */
  predicate Late(b: Sub, m: Incoming) {
    && m.OfferFrame? && b.applying.None? && b.applied != [] && b.acked < m.version <= Top(b)
    && (b.retained.Some? ==> b.retained.value.version != m.version)
  }

  /** The offer being applied is the newest applied; one that waits behind it is newer. */
  predicate Chained(b: Sub) {
    && (b.applying.Some? ==> b.applied != [] && b.applying.value.version == Top(b))
    && (b.latest.Some? ==> b.applying.Some? && b.latest.value.version > Top(b))
  }

  lemma OneMore(versions: seq<nat>, v: nat)
    ensures Increasing(versions + [v]) <==> Increasing(versions) && (versions == [] || versions[|versions| - 1] < v)
  {
    var more := versions + [v];
    assert forall i :: 0 <= i < |versions| ==> more[i] == versions[i];
    if Increasing(more) && versions != [] {
      assert more[|versions| - 1] < more[|versions|];
    }
  }

  /** An offer goes to the engine, now or next, if it is newer than what is acknowledged, waits or is
      being applied, and isn't the one whose answer is kept. */
  lemma OfferTaken(s: State, env: Env, version: nat, mids: seq<Mid>)
    ensures
      var b, t := s.sub, OnOffer(s, env, version, mids).sub;
      if version > b.acked && IsNews(b, version) && (b.retained.Some? ==> b.retained.value.version != version) then
        if b.applying.Some? then t.latest == Some(Offer(version, mids)) && t.applying == b.applying && t.applied == b.applied
        else t.latest.None? && t.applying.Some? && t.applying.value.version == version && t.applied == b.applied + [version]
      else t.latest == b.latest && t.applying == b.applying && t.applied == b.applied
  {
  }

  lemma OfferChains(s: State, env: Env, version: nat, mids: seq<Mid>)
    requires Chained(s.sub)
    ensures
      var t := OnOffer(s, env, version, mids).sub;
      && Chained(t)
      && (Increasing(t.applied) <==> Increasing(s.sub.applied) && !Late(s.sub, OfferFrame(version, mids)))
  {
    OfferTaken(s, env, version, mids);
    OneMore(s.sub.applied, version);
  }

  /** What the engine's success does to the chain: the offer that waited is next. */
  lemma NextChains(s: State, env: Env, version: nat, sdp: string, was: Sub)
    requires Chained(was) && was.applying.Some? && s.sub == was.(applying := None, ops := s.sub.ops)
    ensures
      var t := OfferApplied(s, env, version, sdp).sub;
      && (!s.ending.ended ==> Chained(t))
      && (Increasing(t.applied) <==> Increasing(was.applied))
  {
    if was.latest.Some? {
      OneMore(was.applied, was.latest.value.version);
    }
  }

  lemma SubscribeChains(s: State, env: Env, n: nat, version: nat, mids: seq<Mid>, sdp: Option<string>)
    requires Chained(s.sub) && SubMatch(s.sub) && ApplyOffer(n, version, mids) in s.sub.ops
    ensures
      var t := OnSubscribeApplied(s, env, n, version, mids, sdp);
      && (!t.ending.ended ==> Chained(t.sub))
      && (Increasing(t.sub.applied) <==> Increasing(s.sub.applied))
  {
    assert s.sub.applying.Some? && s.sub.applying.value.n == n;
    if sdp.Some? {
      var idle := s.(sub := Idled(s.sub, n, version, mids));
      var described := WithLane(idle, SubscribePc, idle.ice.subscribe.(mids := Some(mids)));
      FlushSub(described, SubscribePc, env.adds, true);
      NextChains(FlushRemote(described, SubscribePc, env.adds), env, version, sdp.value, s.sub);
    }
  }

  /** The other handlers leave what is applied, being applied and waiting alone. */
  predicate SameChain(b: Sub, c: Sub) {
    c.applied == b.applied && c.applying == b.applying && c.latest == b.latest
  }

  lemma ResumeChain(s: State, env: Env, generation: nat, r: ResumeResult, ready: bool, now: nat)
    ensures SameChain(s.sub, OnResumed(s, env, generation, r, ready, now).sub)
  {
    var t := s.(link := s.link.(resuming := false, resumes := s.link.resumes - multiset{generation}));
    if r.ResumeOk? {
      ResumedSub(t.(link := t.link.(generation := generation, connected := true)), env);
    }
  }

  lemma AckChain(s: State, version: nat, r: AckResult)
    ensures SameChain(s.sub, OnSubscribeAck(s, version, r).sub)
  {
  }

  lemma OthersChain(s: State, m: Incoming, env: Env)
    requires !m.OfferFrame? && !m.SubscribeAppliedDone?
    ensures SameChain(s.sub, Handle(s, m, env).sub)
  {
    if m.SubscribeAckDone? {
      AckChain(s, m.version, m.ack);
    } else if m.ResumedDone? {
      ResumeChain(s, env, m.generation, m.resumed, m.ready, m.now);
    } else if m.AskMedia? {
      SameSubMedia(s, env, m.intent, m.intent, m.reply, MediaTaken);
    } else if m.MediaAckDone? {
      SameSubMedia(s, env, m.intent, m.prev, 0, m.media);
    } else if m.PublishAppliedDone? {
      SameSubApplied(s, env, m.n, m.mids, m.ok);
    } else if m.PublishOfferDone? {
      SameSubPublish(s, env, m.n, m.ok, AnswerLost);
    } else if m.PublishAnswerDone? {
      SameSubPublish(s, env, m.n, true, m.answer);
    } else {
      SameSubInputs(s, m, env);
    }
  }

  /** A handler breaks the order of the applied versions exactly if it meets a late offer. */
  lemma OrderStep(s: State, m: Incoming, env: Env)
    requires Chained(s.sub) && SubMatch(s.sub) && !s.ending.ended && InFlight(s, m)
    ensures
      var t := Handle(s, m, env);
      && (!t.ending.ended ==> Chained(t.sub))
      && (Increasing(t.sub.applied) <==> Increasing(s.sub.applied) && !Late(s.sub, m))
  {
    if m.OfferFrame? {
      OfferChains(s, env, m.version, m.mids);
    } else if m.SubscribeAppliedDone? {
      SubscribeChains(s, env, m.n, m.version, m.mids, m.sdp);
    } else {
      OthersChain(s, m, env);
    }
  }

  /** Offers in order are never late. */
  lemma InOrderIsNotLate(s: State, m: Incoming)
    requires InOrder(s.sub) && InOrderTurn(s, m)
    ensures !Late(s.sub, m)
  {
    if m.OfferFrame? && IsNews(s.sub, m.version) && m.version > s.sub.acked
      && (s.sub.retained.Some? ==> s.sub.retained.value.version != m.version) {
      NewsIsNewer(s.sub, m.version);
    }
  }

  // ---- Replays ----

  /** The replay of an answered offer sends the same answer again, and applies nothing. */
  lemma ReplayIsAnsweredAgain(s: State, env: Env, version: nat, mids: seq<Mid>)
    requires SubOk(s.sub, false, true) && s.sub.retained.Some? && s.sub.retained.value.version == version
    ensures
      var t := OnOffer(s, env, version, mids);
      && t.sub.applied == s.sub.applied && t.sub.latest == s.sub.latest && t.sub.ops == s.sub.ops
      && t.frames == (if s.link.connected && env.answer then s.frames + [SubAnswer(version, s.sub.retained.value.sdp)] else s.frames)
  {
  }

  /** What the server acknowledged only grows, whatever order offers come in. */
  lemma AckedGrows(s: State, m: Incoming, env: Env)
    ensures s.sub.acked <= Handle(s, m, env).sub.acked
  {
    if m.SubscribeAppliedDone? {
      AckedApplied(s, env, m.n, m.version, m.mids, m.sdp);
    } else if m.ResumedDone? {
      AckedResumed(s, env, m.generation, m.resumed, m.ready, m.now);
    } else if m.AskMedia? {
      SameSubMedia(s, env, m.intent, m.intent, m.reply, MediaTaken);
    } else if m.MediaAckDone? {
      SameSubMedia(s, env, m.intent, m.prev, 0, m.media);
    } else if m.PublishAppliedDone? {
      SameSubApplied(s, env, m.n, m.mids, m.ok);
    } else if m.PublishOfferDone? {
      SameSubPublish(s, env, m.n, m.ok, AnswerLost);
    } else if m.PublishAnswerDone? {
      SameSubPublish(s, env, m.n, true, m.answer);
    } else if !m.SubscribeAckDone? && !m.OfferFrame? {
      SameSubInputs(s, m, env);
    }
  }

  lemma AckedApplied(s: State, env: Env, n: nat, version: nat, mids: seq<Mid>, sdp: Option<string>)
    ensures OnSubscribeApplied(s, env, n, version, mids, sdp).sub.acked == s.sub.acked
  {
    var t := s.(sub := s.sub.(ops := s.sub.ops - multiset{ApplyOffer(n, version, mids)}));
    if t.sub.applying.Some? && t.sub.applying.value.n == n && sdp.Some? {
      var idle := t.(sub := t.sub.(applying := None));
      var described := WithLane(idle, SubscribePc, idle.ice.subscribe.(mids := Some(mids)));
      FlushSub(described, SubscribePc, env.adds, true);
    }
  }

  lemma AckedResumed(s: State, env: Env, generation: nat, r: ResumeResult, ready: bool, now: nat)
    ensures OnResumed(s, env, generation, r, ready, now).sub.acked == s.sub.acked
  {
    var t := s.(link := s.link.(resuming := false, resumes := s.link.resumes - multiset{generation}));
    if r.ResumeOk? {
      ResumedSub(t.(link := t.link.(generation := generation, connected := true)), env);
    }
  }
}
