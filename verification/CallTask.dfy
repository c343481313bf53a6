/** core/src/call.rs `Task`: the one owner of a call's state. Each handler is a method that changes
    the fields step by step, proved to do what its function in `Call` says. */
module CallTask {
  import opened Tables
  import opened Call

  lemma {:induction false} FrontIs(mids: Option<seq<Mid>>, buffer: seq<Candidate>)
    ensures forall i :: 0 <= i < Front(mids, buffer) ==> Applicable(mids, buffer[i])
    ensures Front(mids, buffer) < |buffer| ==> !Applicable(mids, buffer[Front(mids, buffer)])
  {
    if buffer != [] && Applicable(mids, buffer[0]) {
      FrontIs(mids, buffer[1..]);
      forall i | 0 < i < Front(mids, buffer)
        ensures Applicable(mids, buffer[i])
      {
        assert buffer[i] == buffer[1..][i - 1];
      }
    }
  }

  /** Once the call has ended, nothing changes any more. */
  lemma {:induction false} EndedStays(s: State, turns: seq<Turn>, n: nat)
    requires n <= |turns| && RunAll(s, turns[..n]).ending.ended
    ensures RunAll(s, turns) == RunAll(s, turns[..n])
  {
    if n == |turns| {
      assert turns[..n] == turns;
    } else {
      assert turns[..|turns| - 1][..n] == turns[..n];
      EndedStays(s, turns[..|turns| - 1], n);
    }
  }

  class Task {
    var link: Link
    var pub: Pub
    var sub: Sub
    var ice: Ice
    var media: Media
    /** Handed to the transport. */
    var frames: seq<Frame>
    var ending: Ending

    ghost function View(): State
      reads this
    {
      State(link, pub, sub, ice, media, frames, ending)
    }

    constructor (generation: nat, publish: bool)
      ensures View() == Start(generation, publish)
    {
      link := Link(false, generation, true, false, multiset{});
      pub := Pub(publish, Idle, false, 0, None, [], multiset{}, multiset{}, []);
      sub := Sub(0, None, None, None, 0, multiset{}, multiset{}, [], 0, {});
      ice := Ice(NEW_LANE, NEW_LANE);
      media := Media(None, false, None, false, false, None, multiset{}, multiset{}, multiset{});
      frames, ending := [], Ending(false, None, 0, 0);
    }

    /** Answers a caller, if one waits. */
    method Tell(reply: Option<Reply>)
      modifies this`media
      ensures media == old(media).(answers := Told(old(media).answers, reply))
    {
      if reply.Some? {
        media := media.(answers := media.answers + multiset{reply.value});
      }
    }

    method EndMedia()
      modifies this`media
      ensures media == MediaEnded(old(media))
    {
      var waiting := media.reply;
      media := media.(reply := None);
      Tell(waiting);
      var queued := QueuedReply(media.queued);
      media := media.(queued := None);
      Tell(queued);
    }

    method Finish(reason: EndReason, tellServer: bool)
      modifies this
      ensures View() == Call.Finish(old(View()), reason, tellServer)
    {
      if ending.ended {
        return;
      }
      ending := Ending(true, Some(reason), |frames|, ending.closes + 1);
      if tellServer && link.connected {
        frames := frames + [LeaveFrame];
      }
      EndMedia();
    }

    // ---- Publish ----

    method StartPublishOffer()
      modifies this`pub
      ensures pub == StartOffer(old(pub))
    {
      pub := pub.(pending := false);
      pub := pub.(count := pub.count + 1);
      pub := pub.(state := Offering(pub.count), held := []);
      pub := pub.(ops := pub.ops + multiset{CreateOffer(pub.count)}, events := pub.events + [Started(pub.count)]);
    }

    method SendCandidate(pc: PcKind, c: Candidate)
      modifies this`frames
      ensures View() == Call.SendCandidate(old(View()), pc, c)
    {
      if link.connected {
        frames := frames + [IceFrame(pc, c)];
      }
    }

    method SendPublish(n: nat, ok: bool)
      modifies this`pub, this`frames
      ensures View() == Call.SendPublish(old(View()), n, ok)
    {
      if !link.connected || !ok {
        pub := pub.(unsent := Some(n));
        return;
      }
      frames := frames + [Publish(n)];
      var held := pub.held;
      pub := pub.(state := AwaitingAnswer(n), held := [], replies := pub.replies + multiset{n});
      ghost var sent := pub;
      for i := 0 to |held|
        invariant pub == sent && frames == old(frames) + [Publish(n)] + IceFrames(held[..i])
      {
        assert IceFrames(held[..i + 1]) == IceFrames(held[..i]) + [IceFrame(PublishPc, held[i])];
        SendCandidate(PublishPc, held[i]);
      }
      assert held[..|held|] == held;
    }

    // ---- Subscribe ----

    method MaybeApplyOffer()
      modifies this`sub
      ensures sub == MaybeApply(old(sub))
    {
      if sub.applying.Some? {
        return;
      }
      match sub.latest
      case None =>
      case Some(o) =>
        sub := sub.(latest := None, count := sub.count + 1);
        sub := sub.(applying := Some(Applying(sub.count, o.version)));
        sub := sub.(ops := sub.ops + multiset{ApplyOffer(sub.count, o.version, o.mids)}, applied := sub.applied + [o.version]);
    }

    method SendRetainedAnswer(ok: bool)
      modifies this`sub, this`frames
      ensures View() == SendRetained(old(View()), ok)
    {
      match sub.retained
      case None =>
      case Some(r) =>
        if link.connected && ok {
          frames := frames + [SubAnswer(r.version, r.sdp)];
          sub := sub.(acks := sub.acks + multiset{r.version});
        }
    }

    method OnOffer(env: Env, version: nat, mids: seq<Mid>)
      modifies this
      ensures View() == Call.OnOffer(old(View()), env, version, mids)
    {
      sub := sub.(arrived := version);
      if version <= sub.acked {
        return;
      }
      if sub.retained.Some? && sub.retained.value.version == version {
        SendRetainedAnswer(env.answer);
        return;
      }
      if (sub.latest.Some? && sub.latest.value.version >= version) || (sub.applying.Some? && sub.applying.value.version >= version) {
        return;
      }
      sub := sub.(latest := Some(Offer(version, mids)));
      MaybeApplyOffer();
    }

    // ---- ICE ----

    method SetLane(pc: PcKind, lane: Lane)
      modifies this`ice
      ensures View() == WithLane(old(View()), pc, lane)
    {
      if pc.PublishPc? {
        ice := ice.(publish := lane);
      } else {
        ice := ice.(subscribe := lane);
      }
    }

    method AddRemote(pc: PcKind, c: Candidate, taken: bool)
      requires LaneOf(ice, pc).mids.Some?
      modifies this
      ensures
        var lane := LaneOf(old(ice), pc);
        View() == if taken then WithLane(old(View()), pc, lane.(given := lane.given + [Given(c, lane.mids.value)]))
                  else Call.Finish(old(View()), REFUSED, true)
    {
      var lane := LaneOf(ice, pc);
      if taken {
        SetLane(pc, lane.(given := lane.given + [Given(c, lane.mids.value)]));
      } else {
        Finish(REFUSED, true);
      }
    }

    method OnRemoteCandidate(env: Env, pc: PcKind, c: Candidate)
      modifies this
      ensures View() == Call.OnRemoteCandidate(old(View()), env, pc, c)
    {
      var lane := LaneOf(ice, pc);
      lane := lane.(received := lane.received + [c]);
      if lane.buffer != [] || !Applicable(lane.mids, c) {
        SetLane(pc, lane.(buffer := lane.buffer + [c]));
        return;
      }
      SetLane(pc, lane);
      AddRemote(pc, c, env.adds > 0);
    }

    method FlushRemote(pc: PcKind, adds: nat)
      requires LaneOf(ice, pc).mids.Some? && !ending.ended
      modifies this
      ensures View() == Call.FlushRemote(old(View()), pc, adds)
    {
      var lane := LaneOf(ice, pc);
      var mids, buffered := lane.mids, lane.buffer;
      ghost var n := Front(mids, buffered);
      FrontIs(mids, buffered);
      SetLane(pc, lane.(buffer := []));
      var rest: seq<Candidate> := [];
      assert GivenUnder(mids.value, buffered[..0]) == [];
      for i := 0 to |buffered|
        invariant if i <= n then rest == [] && i <= adds else rest == buffered[n..i] && n <= adds
        invariant View() == WithLane(old(View()), pc, lane.(
          buffer := [], given := lane.given + GivenUnder(mids.value, buffered[..if i <= n then i else n])))
      {
        var c := buffered[i];
        if rest == [] && Applicable(mids, c) {
          assert GivenUnder(mids.value, buffered[..i + 1]) == GivenUnder(mids.value, buffered[..i]) + [Given(c, mids.value)];
          AddRemote(pc, c, i < adds);
          if ending.ended {
            return;
          }
        } else {
          rest := rest + [c];
        }
      }
      assert buffered[n..|buffered|] == buffered[n..];
      SetLane(pc, LaneOf(ice, pc).(buffer := rest));
    }

    method OnLocalCandidate(pc: PcKind, c: Candidate)
      modifies this
      ensures View() == Call.OnLocalCandidate(old(View()), pc, c)
    {
      if pc.PublishPc? && pub.state.Offering? {
        pub := pub.(held := pub.held + [c]);
        return;
      }
      SendCandidate(pc, c);
    }

    // ---- Media ----

    method SendMedia(intent: Intent, prev: Intent, reply: Option<Reply>, ok: bool)
      modifies this`media, this`frames
      ensures View() == Call.SendMedia(old(View()), intent, prev, reply, ok)
    {
      if link.connected && ok {
        frames := frames + [MediaFrame(intent)];
        media := media.(reannounce := false, inFlight := true, reply := reply);
        media := media.(flight := media.flight + multiset{MediaOp(intent, prev)});
      } else {
        media := media.(dirty := true, reannounce := false);
        Tell(reply);
      }
    }

    method SetMedia(env: Env, intent: Intent, reply: Reply)
      modifies this
      ensures View() == Call.SetMedia(old(View()), env, intent, reply)
    {
      if media.inFlight {
        var older := QueuedReply(media.queued);
        media := media.(queued := Some(Queued(intent, reply)));
        Tell(older);
        return;
      }
      var prev := if media.engine.Some? then media.engine.value else Intent(true, true);
      if !env.setMedia {
        Tell(Some(reply));
        return;
      }
      media := media.(engine := Some(intent));
      SendMedia(intent, prev, Some(reply), env.media);
    }

    method FlushReannounce(ok: bool)
      modifies this`media, this`frames
      ensures View() == Call.FlushReannounce(old(View()), ok)
    {
      if !media.reannounce || ending.ended || media.inFlight || !link.connected {
        return;
      }
      if media.engine.Some? {
        SendMedia(media.engine.value, media.engine.value, None, ok);
      }
    }

    method ReannounceMedia(ok: bool)
      modifies this`media, this`frames
      ensures View() == Reannounce(old(View()), ok)
    {
      if media.engine.Some? {
        media := media.(reannounce := true);
        FlushReannounce(ok);
      }
    }

    // ---- Inputs ----

    method OnJoined(valid: bool)
      modifies this
      ensures View() == Call.OnJoined(old(View()), valid)
    {
      if !valid {
        Finish(Server("unexpected_response"), true);
        return;
      }
      var first := !link.joined;
      link := link.(joined := true);
      if first && pub.wanted {
        StartPublishOffer();
      }
    }

    method OnRepublish()
      modifies this`pub
      ensures View() == Call.OnRepublish(old(View()))
    {
      if pub.wanted {
        pub := pub.(events := pub.events + [Wanted]);
        if pub.state == Stable && link.connected {
          StartPublishOffer();
        } else {
          pub := pub.(pending := true);
        }
      }
    }

    method OnLeave(env: Env)
      modifies this
      ensures View() == Call.OnLeave(old(View()), env)
    {
      var confirm := link.connected && !ending.ended && env.leave;
      if confirm {
        frames := frames + [LeaveFrame];
      }
      Finish(Left, !confirm);
    }

    method OnSetMedia(env: Env, intent: Intent, reply: Reply)
      modifies this
      ensures View() == Call.OnSetMedia(old(View()), env, intent, reply)
    {
      media := media.(asked := media.asked + multiset{reply});
      SetMedia(env, intent, reply);
    }

    // ---- Results ----

    method OnPublishOffer(env: Env, n: nat, ok: bool)
      modifies this
      ensures View() == Call.OnPublishOffer(old(View()), env, n, ok)
    {
      pub := pub.(ops := pub.ops - multiset{CreateOffer(n)});
      if n != pub.count || pub.state != Offering(n) {
        return;
      }
      if ok {
        SendPublish(n, env.publish);
      } else {
        Finish(EngineFailed("offer"), true);
      }
    }

    method OnPublishAnswer(n: nat, r: AnswerResult)
      modifies this
      ensures View() == Call.OnPublishAnswer(old(View()), n, r)
    {
      pub := pub.(replies := pub.replies - multiset{n});
      if pub.state != AwaitingAnswer(n) {
        return;
      }
      match r
      case Answered(mids) =>
        pub := pub.(state := ApplyingAnswer(n));
        pub := pub.(ops := pub.ops + multiset{ApplyAnswer(n, mids)});
      case AnswerLost => pub := pub.(state := NeedsRestart);
      case AnswerFailed(code) => Finish(Server(code), true);
    }

    method OnPublishApplied(env: Env, n: nat, mids: seq<Mid>, ok: bool)
      requires !ending.ended
      modifies this
      ensures View() == Call.OnPublishApplied(old(View()), env, n, mids, ok)
    {
      pub := pub.(ops := pub.ops - multiset{ApplyAnswer(n, mids)});
      if pub.state != ApplyingAnswer(n) {
        return;
      }
      if !ok {
        Finish(EngineFailed("answer"), true);
        return;
      }
      SetLane(PublishPc, ice.publish.(mids := Some(mids)));
      pub := pub.(state := Stable);
      FlushRemote(PublishPc, env.adds);
      ReannounceMedia(env.media);
      if pub.pending && link.connected && !ending.ended {
        StartPublishOffer();
      }
    }

    method OnSubscribeApplied(env: Env, n: nat, version: nat, mids: seq<Mid>, sdp: Option<string>)
      requires !ending.ended
      modifies this
      ensures View() == Call.OnSubscribeApplied(old(View()), env, n, version, mids, sdp)
    {
      sub := sub.(ops := sub.ops - multiset{ApplyOffer(n, version, mids)});
      if sub.applying.None? || sub.applying.value.n != n {
        return;
      }
      sub := sub.(applying := None);
      if sdp.None? {
        Finish(EngineFailed("offer"), true);
        return;
      }
      SetLane(SubscribePc, ice.subscribe.(mids := Some(mids)));
      FlushRemote(SubscribePc, env.adds);
      if ending.ended {
        return;
      }
      if sub.latest.Some? {
        MaybeApplyOffer();
      } else {
        sub := sub.(retained := Some(Retained(version, sdp.value)));
        SendRetainedAnswer(env.answer);
      }
    }

    method OnSubscribeAck(version: nat, r: AckResult)
      modifies this
      ensures View() == Call.OnSubscribeAck(old(View()), version, r)
    {
      sub := sub.(acks := sub.acks - multiset{version});
      var holds := sub.retained.Some? && sub.retained.value.version == version;
      match r
      case Acked =>
        sub := sub.(acked := if sub.acked < version then version else sub.acked);
        if holds {
          sub := sub.(retained := None);
        }
      case Stale =>
        sub := sub.(refused := sub.refused + {version});
        if holds {
          sub := sub.(retained := None);
        }
      case AckUnknown =>
      case AckFailed(code) => Finish(Server(code), true);
    }

    /** What the server said of the intent in flight. */
    method MediaAnswered(env: Env, intent: Intent, prev: Intent, r: MediaResult)
      modifies this`media
      ensures media == MediaSettled(old(media), env, intent, prev, r)
    {
      var reply := media.reply;
      media := media.(inFlight := false, reply := None, flight := media.flight - multiset{MediaOp(intent, prev)});
      match r {
        case MediaTaken =>
        case MediaRejected =>
          if media.engine == Some(intent) && media.queued.None? && env.rollback {
            media := media.(engine := Some(prev));
          }
        case MediaUnknown => media := media.(dirty := true);
      }
      Tell(reply);
    }

    method OnMediaAck(env: Env, intent: Intent, prev: Intent, r: MediaResult)
      modifies this
      ensures View() == Call.OnMediaAck(old(View()), env, intent, prev, r)
    {
      MediaAnswered(env, intent, prev, r);
      if media.queued.Some? {
        var q := media.queued.value;
        media := media.(queued := None);
        SetMedia(env, q.intent, q.reply);
      }
      FlushReannounce(env.media);
    }

    // ---- The connection ----

    method OnConn(env: Env, ready: bool, generation: nat)
      modifies this
      ensures View() == Call.OnConn(old(View()), env, ready, generation)
    {
      if ending.ended {
        return;
      }
      if (!ready || generation != link.generation) && link.connected {
        link := link.(connected := false);
      }
      if ready && generation > link.generation && !link.resuming && env.resume {
        frames := frames + [ResumeFrame(generation)];
        link := link.(resuming := true, resumes := link.resumes + multiset{generation});
      }
    }

    method PublishAgain(ok: bool)
      modifies this`pub, this`frames
      ensures View() == UnsentSent(old(View()).(pub := PublishResumed(old(pub))), ok)
    {
      if pub.state.NeedsRestart? || pub.state.AwaitingAnswer? || (pub.state.Stable? && pub.pending) {
        StartPublishOffer();
      }
      if pub.unsent.Some? {
        var n := pub.unsent.value;
        pub := pub.(unsent := None);
        if pub.state == Offering(n) {
          SendPublish(n, ok);
        }
      }
    }

    method SendDirty(ok: bool)
      modifies this`media, this`frames
      ensures View() == DirtySent(old(View()), ok)
    {
      if media.dirty && !media.inFlight {
        media := media.(dirty := false);
        if media.engine.Some? {
          SendMedia(media.engine.value, media.engine.value, None, ok);
        }
      }
    }

    method AfterResume(env: Env)
      modifies this
      ensures View() == Call.AfterResume(old(View()), env)
    {
      PublishAgain(env.publish);
      SendRetainedAnswer(env.answer);
      SendDirty(env.media);
      FlushReannounce(env.media);
    }

    method OnResumed(env: Env, generation: nat, r: ResumeResult, ready: bool, now: nat)
      modifies this
      ensures View() == Call.OnResumed(old(View()), env, generation, r, ready, now)
    {
      link := link.(resuming := false, resumes := link.resumes - multiset{generation});
      match r
      case ResumeOk =>
        link := link.(generation := generation, connected := true);
        AfterResume(env);
      case NotInCall => Finish(Expired, false);
      case ResumeRejected(code) => Finish(Server(code), false);
      case ResumeLost => OnConn(env, ready, now);
    }

    // ---- The loop ----

    method OnDone(m: Incoming, env: Env)
      requires IsResult(m) && !ending.ended
      modifies this
      ensures View() == Handle(old(View()), m, env)
    {
      match m
      case PublishOfferDone(n, ok) => OnPublishOffer(env, n, ok);
      case PublishAnswerDone(n, answer) => OnPublishAnswer(n, answer);
      case PublishAppliedDone(n, mids, ok) => OnPublishApplied(env, n, mids, ok);
      case SubscribeAppliedDone(n, version, mids, sdp) => OnSubscribeApplied(env, n, version, mids, sdp);
      case SubscribeAckDone(version, ack) => OnSubscribeAck(version, ack);
      case ResumedDone(generation, r, ready, now) => OnResumed(env, generation, r, ready, now);
      case MediaAckDone(intent, prev, r) => OnMediaAck(env, intent, prev, r);
    }

    method OnInput(m: Incoming, env: Env)
      requires !IsResult(m) && !ending.ended
      modifies this
      ensures View() == Handle(old(View()), m, env)
    {
      match m
      case JoinedFrame(valid) => OnJoined(valid);
      case OfferFrame(version, mids) => OnOffer(env, version, mids);
      case RemoteCandidate(pc, c) => OnRemoteCandidate(env, pc, c);
      case EndedFrame(reason) => Finish(reason, false);
      case LocalCandidate(pc, c) => OnLocalCandidate(pc, c);
      case EngineBroke(message) => Finish(EngineFailed(message), true);
      case AskMedia(intent, reply) => OnSetMedia(env, intent, reply);
      case Republish => OnRepublish();
      case Leave => OnLeave(env);
      case HandleDropped => Finish(Left, true);
      case NewSession => Finish(SessionChanged, false);
      case NewConn(ready, generation) => OnConn(env, ready, generation);
    }

    /** Messages are handled one at a time until the call has ended; the rest are never looked at. */
    method Run(turns: seq<Turn>)
      modifies this
      ensures View() == RunAll(old(View()), turns)
    {
      var i := 0;
      while i < |turns| && !ending.ended
        invariant 0 <= i <= |turns|
        invariant View() == RunAll(old(View()), turns[..i])
      {
        assert turns[..i + 1][..i] == turns[..i];
        if IsResult(turns[i].m) {
          OnDone(turns[i].m, turns[i].env);
        } else {
          OnInput(turns[i].m, turns[i].env);
        }
        i := i + 1;
      }
      if ending.ended {
        EndedStays(old(View()), turns, i);
      } else {
        assert turns[..i] == turns;
      }
    }
  }
}
