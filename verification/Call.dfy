/** core/src/call.rs: what each handler of the call task does, as functions on its state.

    Nothing is awaited inside a handler: engine operations and requests are started, and their
    results come back as messages. `ops`, `replies`, `acks`, `resumes` and `flight` are the ones
    started and not handled yet; they and the other fields marked as history are read by no handler.
    `Env` is how the calls a handler makes turn out. */
module Call {
  import opened Tables

  type Mid = string
  type Reply = int

  datatype PcKind = PublishPc | SubscribePc

  datatype EndReason =
    | Left | LeftChannel | SfuRestart | Removed | Replaced | Expired | SessionChanged
    | Server(code: string) | EngineFailed(message: string)

  /** A remote candidate; absent: end of candidates. */
  datatype Cand = Cand(mid: Option<Mid>, line: Option<nat>)
  type Candidate = Option<Cand>

  datatype Frame =
    | Publish(offer: nat)
    | SubAnswer(version: nat, sdp: string)
    | IceFrame(pc: PcKind, candidate: Candidate)
    | MediaFrame(intent: Intent)
    | ResumeFrame(generation: nat)
    | LeaveFrame

  datatype Intent = Intent(audio: bool, video: bool)

  // ---- The state, part by part ----

  datatype Link = Link(joined: bool, generation: nat, connected: bool, resuming: bool, resumes: multiset<nat>)

  datatype PublishState = Idle | Offering(n: nat) | AwaitingAnswer(n: nat) | ApplyingAnswer(n: nat) | Stable | NeedsRestart

  datatype PubOp = CreateOffer(n: nat) | ApplyAnswer(n: nat, mids: seq<Mid>)

  /** History: a renegotiation asked for, an offer started. */
  datatype PubEvent = Wanted | Started(n: nat)

  /** `held`: local candidates until `call.publish` is written. */
  datatype Pub = Pub(
    wanted: bool, state: PublishState, pending: bool, count: nat, unsent: Option<nat>, held: seq<Candidate>,
    ops: multiset<PubOp>, replies: multiset<nat>, events: seq<PubEvent>)

  datatype Offer = Offer(version: nat, mids: seq<Mid>)
  datatype Retained = Retained(version: nat, sdp: string)
  datatype Applying = Applying(n: nat, version: nat)
  datatype SubOp = ApplyOffer(n: nat, version: nat, mids: seq<Mid>)

  /** History: `applied`, the versions given to the engine; `arrived`, the newest offer's version;
      `refused`, the versions whose answer the server called stale. */
  datatype Sub = Sub(
    count: nat, latest: Option<Offer>, applying: Option<Applying>, retained: Option<Retained>, acked: nat,
    ops: multiset<SubOp>, acks: multiset<nat>, applied: seq<nat>, arrived: nat, refused: set<nat>)

  /** A candidate given to the engine, and the description it was given under. */
  datatype Given = Given(candidate: Candidate, mids: seq<Mid>)

  /** One PeerConnection's remote candidates. `mids`: of its applied description. History:
      `received` and `given`. */
  datatype Lane = Lane(mids: Option<seq<Mid>>, buffer: seq<Candidate>, received: seq<Candidate>, given: seq<Given>)
  datatype Ice = Ice(publish: Lane, subscribe: Lane)

  datatype Queued = Queued(intent: Intent, reply: Reply)
  datatype MediaOp = MediaOp(intent: Intent, prev: Intent)

  /** History: the replies `asked` for and the `answers` given. */
  datatype Media = Media(
    engine: Option<Intent>, inFlight: bool, queued: Option<Queued>, dirty: bool, reannounce: bool, reply: Option<Reply>,
    flight: multiset<MediaOp>, asked: multiset<Reply>, answers: multiset<Reply>)

  /** History: `written`, the frames before the end; `closes`, how often the engine was closed. */
  datatype Ending = Ending(ended: bool, reason: Option<EndReason>, written: nat, closes: nat)

  datatype State = State(link: Link, pub: Pub, sub: Sub, ice: Ice, media: Media, frames: seq<Frame>, ending: Ending)

  const NEW_LANE := Lane(None, [], [], [])

  /** A call as `join` starts it. */
  function Start(generation: nat, publish: bool): State {
    State(
      Link(false, generation, true, false, multiset{}),
      Pub(publish, Idle, false, 0, None, [], multiset{}, multiset{}, []),
      Sub(0, None, None, None, 0, multiset{}, multiset{}, [], 0, {}),
      Ice(NEW_LANE, NEW_LANE),
      Media(None, false, None, false, false, None, multiset{}, multiset{}, multiset{}),
      [],
      Ending(false, None, 0, 0))
  }

  /** Whether requests of each kind are taken by the transport, and how the engine's synchronous
      calls go: `adds` candidates are taken before one is refused. */
  datatype Env = Env(
    publish: bool, answer: bool, media: bool, resume: bool, leave: bool,
    setMedia: bool, rollback: bool, adds: nat)

  // ---- The end ----

  /** The replies answered, once this one (if any) is. */
  function Told(answers: multiset<Reply>, r: Option<Reply>): multiset<Reply> {
    if r.Some? then answers + multiset{r.value} else answers
  }

  function QueuedReply(q: Option<Queued>): Option<Reply> {
    if q.Some? then Some(q.value.reply) else None
  }

  function MediaEnded(m: Media): Media {
    m.(answers := Told(Told(m.answers, m.reply), QueuedReply(m.queued)), reply := None, queued := None)
  }

  function Finish(s: State, reason: EndReason, tell: bool): State {
    if s.ending.ended then s
    else
      s.(ending := Ending(true, Some(reason), |s.frames|, s.ending.closes + 1),
         frames := if tell && s.link.connected then s.frames + [LeaveFrame] else s.frames,
         media := MediaEnded(s.media))
  }

  // ---- Publish ----

  function StartOffer(p: Pub): Pub {
    var n := p.count + 1;
    p.(pending := false, count := n, state := Offering(n), held := [],
       ops := p.ops + multiset{CreateOffer(n)}, events := p.events + [Started(n)])
  }

  function IceFrames(cs: seq<Candidate>): seq<Frame> {
    seq(|cs|, i requires 0 <= i < |cs| => IceFrame(PublishPc, cs[i]))
  }

  function SendPublish(s: State, n: nat, ok: bool): State {
    if !s.link.connected || !ok then s.(pub := s.pub.(unsent := Some(n)))
    else
      s.(pub := s.pub.(state := AwaitingAnswer(n), held := [], replies := s.pub.replies + multiset{n}),
         frames := s.frames + [Publish(n)] + IceFrames(s.pub.held))
  }

  // ---- Subscribe ----

  function MaybeApply(b: Sub): Sub {
    if b.applying.Some? || b.latest.None? then b
    else
      var n, o := b.count + 1, b.latest.value;
      b.(count := n, latest := None, applying := Some(Applying(n, o.version)),
         ops := b.ops + multiset{ApplyOffer(n, o.version, o.mids)}, applied := b.applied + [o.version])
  }

  function SendRetained(s: State, ok: bool): State {
    if s.sub.retained.None? || !s.link.connected || !ok then s
    else
      var r := s.sub.retained.value;
      s.(frames := s.frames + [SubAnswer(r.version, r.sdp)], sub := s.sub.(acks := s.sub.acks + multiset{r.version}))
  }

  /** The offer is newer than everything acknowledged, queued or being applied. */
  predicate IsNews(b: Sub, version: nat) {
    && (b.latest.Some? ==> b.latest.value.version < version)
    && (b.applying.Some? ==> b.applying.value.version < version)
  }

  function OnOffer(s: State, env: Env, version: nat, mids: seq<Mid>): State {
    var t := s.(sub := s.sub.(arrived := version));
    if version <= t.sub.acked then t
    else if t.sub.retained.Some? && t.sub.retained.value.version == version then SendRetained(t, env.answer)
    else if !IsNews(t.sub, version) then t
    else t.(sub := MaybeApply(t.sub.(latest := Some(Offer(version, mids)))))
  }

  // ---- ICE ----

  /** The candidate belongs to a media section of the applied description. */
  predicate Applicable(mids: Option<seq<Mid>>, c: Candidate) {
    && mids.Some?
    && (c.Some? ==>
          if c.value.mid.Some? then c.value.mid.value in mids.value
          else c.value.line.Some? && c.value.line.value < |mids.value|)
  }

  function LaneOf(ice: Ice, pc: PcKind): Lane {
    if pc.PublishPc? then ice.publish else ice.subscribe
  }

  function WithLane(s: State, pc: PcKind, lane: Lane): State {
    s.(ice := if pc.PublishPc? then s.ice.(publish := lane) else s.ice.(subscribe := lane))
  }

  /** How many candidates at the front belong to the applied description. */
  function Front(mids: Option<seq<Mid>>, buffer: seq<Candidate>): (n: nat)
    ensures n <= |buffer|
  {
    if buffer == [] || !Applicable(mids, buffer[0]) then 0 else 1 + Front(mids, buffer[1..])
  }

  function GivenUnder(mids: seq<Mid>, cs: seq<Candidate>): seq<Given> {
    seq(|cs|, i requires 0 <= i < |cs| => Given(cs[i], mids))
  }

  /** The buffer after a flush: its front goes to the engine, the rest waits, in order. */
  function Flushed(lane: Lane): Lane
    requires lane.mids.Some?
  {
    var n := Front(lane.mids, lane.buffer);
    lane.(buffer := lane.buffer[n..], given := lane.given + GivenUnder(lane.mids.value, lane.buffer[..n]))
  }

  /** The engine refused a candidate: the call ends, and what was buffered goes with it. */
  function FlushBroken(lane: Lane, adds: nat): Lane
    requires lane.mids.Some? && adds < Front(lane.mids, lane.buffer)
  {
    lane.(buffer := [], given := lane.given + GivenUnder(lane.mids.value, lane.buffer[..adds]))
  }

  const REFUSED := EngineFailed("candidate")

  /** A description was applied. */
  function FlushRemote(s: State, pc: PcKind, adds: nat): State
    requires LaneOf(s.ice, pc).mids.Some?
  {
    var lane := LaneOf(s.ice, pc);
    if adds < Front(lane.mids, lane.buffer) then Finish(WithLane(s, pc, FlushBroken(lane, adds)), REFUSED, true)
    else WithLane(s, pc, Flushed(lane))
  }

  function OnRemoteCandidate(s: State, env: Env, pc: PcKind, c: Candidate): State {
    var lane := LaneOf(s.ice, pc);
    var heard := lane.(received := lane.received + [c]);
    if lane.buffer != [] || !Applicable(lane.mids, c) then WithLane(s, pc, heard.(buffer := lane.buffer + [c]))
    else if env.adds == 0 then Finish(WithLane(s, pc, heard), REFUSED, true)
    else WithLane(s, pc, heard.(given := lane.given + [Given(c, lane.mids.value)]))
  }

  function SendCandidate(s: State, pc: PcKind, c: Candidate): State {
    if s.link.connected then s.(frames := s.frames + [IceFrame(pc, c)]) else s
  }

  function OnLocalCandidate(s: State, pc: PcKind, c: Candidate): State {
    if pc.PublishPc? && s.pub.state.Offering? then s.(pub := s.pub.(held := s.pub.held + [c]))
    else SendCandidate(s, pc, c)
  }

  // ---- Media ----

  function SendMedia(s: State, intent: Intent, prev: Intent, reply: Option<Reply>, ok: bool): State {
    if s.link.connected && ok then
      s.(frames := s.frames + [MediaFrame(intent)],
         media := s.media.(reannounce := false, inFlight := true, reply := reply,
                           flight := s.media.flight + multiset{MediaOp(intent, prev)}))
    else s.(media := s.media.(dirty := true, reannounce := false, answers := Told(s.media.answers, reply)))
  }

  function SetMedia(s: State, env: Env, intent: Intent, reply: Reply): State {
    var m := s.media;
    if m.inFlight then
      s.(media := m.(queued := Some(Queued(intent, reply)), answers := Told(m.answers, QueuedReply(m.queued))))
    else if !env.setMedia then s.(media := m.(answers := m.answers + multiset{reply}))
    else
      var prev := if m.engine.Some? then m.engine.value else Intent(true, true);
      SendMedia(s.(media := m.(engine := Some(intent))), intent, prev, Some(reply), env.media)
  }

  function OnSetMedia(s: State, env: Env, intent: Intent, reply: Reply): State {
    SetMedia(s.(media := s.media.(asked := s.media.asked + multiset{reply})), env, intent, reply)
  }

  function FlushReannounce(s: State, ok: bool): State {
    var m := s.media;
    if !m.reannounce || s.ending.ended || m.inFlight || !s.link.connected || m.engine.None? then s
    else SendMedia(s, m.engine.value, m.engine.value, None, ok)
  }

  function Reannounce(s: State, ok: bool): State {
    if s.media.engine.Some? then FlushReannounce(s.(media := s.media.(reannounce := true)), ok) else s
  }

  // ---- Inputs ----

  function OnRepublish(s: State): State {
    if !s.pub.wanted then s
    else
      var asked := s.pub.(events := s.pub.events + [Wanted]);
      if s.pub.state.Stable? && s.link.connected then s.(pub := StartOffer(asked))
      else s.(pub := asked.(pending := true))
  }

  function OnLeave(s: State, env: Env): State {
    var confirm := s.link.connected && !s.ending.ended && env.leave;
    Finish(if confirm then s.(frames := s.frames + [LeaveFrame]) else s, Left, !confirm)
  }

  /** `call.joined`; `valid`: it could be read. */
  function OnJoined(s: State, valid: bool): State {
    if !valid then Finish(s, Server("unexpected_response"), true)
    else
      var t := s.(link := s.link.(joined := true));
      if !s.link.joined && s.pub.wanted then t.(pub := StartOffer(t.pub)) else t
  }

  // ---- Results ----

  datatype AnswerResult = Answered(mids: seq<Mid>) | AnswerLost | AnswerFailed(code: string)
  datatype AckResult = Acked | Stale | AckUnknown | AckFailed(code: string)
  datatype ResumeResult = ResumeOk | NotInCall | ResumeRejected(code: string) | ResumeLost
  datatype MediaResult = MediaTaken | MediaRejected | MediaUnknown

  function OnPublishOffer(s: State, env: Env, n: nat, ok: bool): State {
    var t := s.(pub := s.pub.(ops := s.pub.ops - multiset{CreateOffer(n)}));
    if n != t.pub.count || t.pub.state != Offering(n) then t
    else if ok then SendPublish(t, n, env.publish)
    else Finish(t, EngineFailed("offer"), true)
  }

  function OnPublishAnswer(s: State, n: nat, r: AnswerResult): State {
    var t := s.(pub := s.pub.(replies := s.pub.replies - multiset{n}));
    if t.pub.state != AwaitingAnswer(n) then t
    else
      match r
      case Answered(mids) =>
        t.(pub := t.pub.(state := ApplyingAnswer(n), ops := t.pub.ops + multiset{ApplyAnswer(n, mids)}))
      case AnswerLost => t.(pub := t.pub.(state := NeedsRestart))
      case AnswerFailed(code) => Finish(t, Server(code), true)
  }

  /** Once the publish settled: one more offer if one was asked for meanwhile. */
  function Resettled(s: State): State {
    if s.pub.pending && s.link.connected && !s.ending.ended then s.(pub := StartOffer(s.pub)) else s
  }

  function OnPublishApplied(s: State, env: Env, n: nat, mids: seq<Mid>, ok: bool): State {
    var t := s.(pub := s.pub.(ops := s.pub.ops - multiset{ApplyAnswer(n, mids)}));
    if t.pub.state != ApplyingAnswer(n) then t
    else if !ok then Finish(t, EngineFailed("answer"), true)
    else
      var settled := WithLane(t.(pub := t.pub.(state := Stable)), PublishPc, t.ice.publish.(mids := Some(mids)));
      Resettled(Reannounce(FlushRemote(settled, PublishPc, env.adds), env.media))
  }

  /** The engine applied an offer: a newer one is applied in turn, or the answer is kept and sent. */
  function OfferApplied(s: State, env: Env, version: nat, sdp: string): State {
    if s.ending.ended then s
    else if s.sub.latest.Some? then s.(sub := MaybeApply(s.sub))
    else SendRetained(s.(sub := s.sub.(retained := Some(Retained(version, sdp)))), env.answer)
  }

  /** `sdp`: the answer, if the engine made one. */
  function OnSubscribeApplied(s: State, env: Env, n: nat, version: nat, mids: seq<Mid>, sdp: Option<string>): State {
    var t := s.(sub := s.sub.(ops := s.sub.ops - multiset{ApplyOffer(n, version, mids)}));
    if t.sub.applying.None? || t.sub.applying.value.n != n then t
    else
      var idle := t.(sub := t.sub.(applying := None));
      if sdp.None? then Finish(idle, EngineFailed("offer"), true)
      else
        var described := WithLane(idle, SubscribePc, idle.ice.subscribe.(mids := Some(mids)));
        OfferApplied(FlushRemote(described, SubscribePc, env.adds), env, version, sdp.value)
  }

  function Released(b: Sub, version: nat): Sub {
    if b.retained.Some? && b.retained.value.version == version then b.(retained := None) else b
  }

  function OnSubscribeAck(s: State, version: nat, r: AckResult): State {
    var t := s.(sub := s.sub.(acks := s.sub.acks - multiset{version}));
    match r
    case Acked => t.(sub := Released(t.sub.(acked := if t.sub.acked < version then version else t.sub.acked), version))
    case Stale => t.(sub := Released(t.sub.(refused := t.sub.refused + {version}), version))
    case AckUnknown => t
    case AckFailed(code) => Finish(t, Server(code), true)
  }

  /** Rejected: rolled back, unless a newer intent is applied or waits. Unknown: sent again later. */
  function MediaSettled(m: Media, env: Env, intent: Intent, prev: Intent, r: MediaResult): Media {
    var rolls := r.MediaRejected? && m.engine == Some(intent) && m.queued.None? && env.rollback;
    m.(inFlight := false, reply := None, flight := m.flight - multiset{MediaOp(intent, prev)},
       answers := Told(m.answers, m.reply),
       engine := if rolls then Some(prev) else m.engine, dirty := m.dirty || r.MediaUnknown?)
  }

  function OnMediaAck(s: State, env: Env, intent: Intent, prev: Intent, r: MediaResult): State {
    var m := MediaSettled(s.media, env, intent, prev, r);
    var t :=
      if m.queued.Some? then SetMedia(s.(media := m.(queued := None)), env, m.queued.value.intent, m.queued.value.reply)
      else s.(media := m);
    FlushReannounce(t, env.media)
  }

  // ---- The connection ----

  function OnConn(s: State, env: Env, ready: bool, generation: nat): State {
    if s.ending.ended then s
    else
      var t := s.(link := s.link.(connected := s.link.connected && ready && generation == s.link.generation));
      if ready && generation > t.link.generation && !t.link.resuming && env.resume then
        t.(link := t.link.(resuming := true, resumes := t.link.resumes + multiset{generation}),
           frames := t.frames + [ResumeFrame(generation)])
      else t
  }

  function PublishResumed(p: Pub): Pub {
    if p.state.NeedsRestart? || p.state.AwaitingAnswer? || (p.state.Stable? && p.pending) then StartOffer(p) else p
  }

  function UnsentSent(s: State, ok: bool): State {
    if s.pub.unsent.None? then s
    else
      var n, t := s.pub.unsent.value, s.(pub := s.pub.(unsent := None));
      if t.pub.state == Offering(n) then SendPublish(t, n, ok) else t
  }

  function DirtySent(s: State, ok: bool): State {
    if !s.media.dirty || s.media.inFlight then s
    else
      var t := s.(media := s.media.(dirty := false));
      if t.media.engine.Some? then SendMedia(t, t.media.engine.value, t.media.engine.value, None, ok) else t
  }

  function AfterResume(s: State, env: Env): State {
    var published := UnsentSent(s.(pub := PublishResumed(s.pub)), env.publish);
    FlushReannounce(DirtySent(SendRetained(published, env.answer), env.media), env.media)
  }

  /** `ready` and `now`: the newest connection, read if the resume has to be tried again. */
  function OnResumed(s: State, env: Env, generation: nat, r: ResumeResult, ready: bool, now: nat): State {
    var t := s.(link := s.link.(resuming := false, resumes := s.link.resumes - multiset{generation}));
    match r
    case ResumeOk => AfterResume(t.(link := t.link.(generation := generation, connected := true)), env)
    case NotInCall => Finish(t, Expired, false)
    case ResumeRejected(code) => Finish(t, Server(code), false)
    case ResumeLost => OnConn(t, env, ready, now)
  }

  // ---- One message ----

  datatype Incoming =
    | JoinedFrame(valid: bool)
    | OfferFrame(version: nat, mids: seq<Mid>)
    | RemoteCandidate(pc: PcKind, candidate: Candidate)
    | EndedFrame(reason: EndReason)
    | LocalCandidate(pc: PcKind, candidate: Candidate)
    | EngineBroke(message: string)
    | AskMedia(intent: Intent, reply: Reply)
    | Republish
    | Leave
    | HandleDropped
    | NewSession
    | NewConn(ready: bool, generation: nat)
    | PublishOfferDone(n: nat, ok: bool)
    | PublishAnswerDone(n: nat, answer: AnswerResult)
    | PublishAppliedDone(n: nat, mids: seq<Mid>, ok: bool)
    | SubscribeAppliedDone(n: nat, version: nat, mids: seq<Mid>, sdp: Option<string>)
    | SubscribeAckDone(version: nat, ack: AckResult)
    | ResumedDone(generation: nat, resumed: ResumeResult, ready: bool, now: nat)
    | MediaAckDone(intent: Intent, prev: Intent, media: MediaResult)

  /** The result of an operation or a request. */
  predicate IsResult(m: Incoming) {
    || m.PublishOfferDone? || m.PublishAnswerDone? || m.PublishAppliedDone? || m.SubscribeAppliedDone?
    || m.SubscribeAckDone? || m.ResumedDone? || m.MediaAckDone?
  }

  function Handle(s: State, m: Incoming, env: Env): State {
    match m
    case JoinedFrame(valid) => OnJoined(s, valid)
    case OfferFrame(version, mids) => OnOffer(s, env, version, mids)
    case RemoteCandidate(pc, c) => OnRemoteCandidate(s, env, pc, c)
    case EndedFrame(reason) => Finish(s, reason, false)
    case LocalCandidate(pc, c) => OnLocalCandidate(s, pc, c)
    case EngineBroke(message) => Finish(s, EngineFailed(message), true)
    case AskMedia(intent, reply) => OnSetMedia(s, env, intent, reply)
    case Republish => OnRepublish(s)
    case Leave => OnLeave(s, env)
    case HandleDropped => Finish(s, Left, true)
    case NewSession => Finish(s, SessionChanged, false)
    case NewConn(ready, generation) => OnConn(s, env, ready, generation)
    case PublishOfferDone(n, ok) => OnPublishOffer(s, env, n, ok)
    case PublishAnswerDone(n, answer) => OnPublishAnswer(s, n, answer)
    case PublishAppliedDone(n, mids, ok) => OnPublishApplied(s, env, n, mids, ok)
    case SubscribeAppliedDone(n, version, mids, sdp) => OnSubscribeApplied(s, env, n, version, mids, sdp)
    case SubscribeAckDone(version, ack) => OnSubscribeAck(s, version, ack)
    case ResumedDone(generation, r, ready, now) => OnResumed(s, env, generation, r, ready, now)
    case MediaAckDone(intent, prev, r) => OnMediaAck(s, env, intent, prev, r)
  }

  datatype Turn = Turn(m: Incoming, env: Env)

  /** The loop: messages are handled in the order they come, until the call has ended. */
  function RunAll(s: State, turns: seq<Turn>): State {
    if turns == [] then s
    else
      var t := RunAll(s, turns[..|turns| - 1]);
      if t.ending.ended then t else Handle(t, turns[|turns| - 1].m, turns[|turns| - 1].env)
  }
}
