/** One channel's queue over whole runs: its sender, Retry, Delete and direct sends under the
    channel's lock, enqueues at any moment, sign-ins and sign-outs, restarts between any two
    transactions, writes that fail, and answers that get lost (core/src/outbox.rs).

    The server is idempotent: it stores the first message sent under a client id and answers later
    ones with it. A send takes effect there, if at all, before its attempt goes on. A client id is
    used in one channel only, so other channels leave this one's rows alone. */
module OutboxRuns {
  import opened Tables
  import opened Outbox

  /** A message the server stored: by the row with this ordinal, or directly, when this ordinal was
      the next. */
  datatype Entry = Entry(cid: ClientId, ordinal: nat, body: string, reply: Option<MessageId>, attachments: seq<ServerFile>, direct: bool)

  datatype Answer = Ok(echo: ClientId) | Refused(code: string) | Transient

  /** One attempt at a row, as `attempt` holds it in its arguments. */
  datatype Try = Try(cid: ClientId, body: string, reply: Option<MessageId>, accepted: bool, epoch: nat)

  /** Who holds the channel's lock, and how far it got. `again`: the files were detached once. */
  datatype Pc =
    | Free
    | Took(a: Try)
    | Ready(a: Try)
    | Uploading(a: Try, files: seq<File>, ids: seq<ServerFile>, again: bool)
    | Posting(a: Try, count: nat, ids: seq<ServerFile>, again: bool)
    | Answered(a: Try, count: nat, answer: Answer, again: bool)
    | Direct(entry: Entry)

  datatype World = World(table: Table, pc: Pc, session: Option<nat>, log: seq<Entry>)

  const START := World(EMPTY_OUTBOX, Free, None, [])

  datatype Action =
    | Elsewhere(t: Table)
    | Session(to: Option<nat>)
    | Enqueue(cid: ClientId, body: string, reply: Option<MessageId>, names: seq<FileName>)
    | Restart
    | Retry(cid: ClientId, dropReply: bool)
    | Delete(cid: ClientId)
    | Pick(cid: ClientId)
    | MarkSending(ok: bool)
    | BackOff(ok: bool)
    | ReadFiles
    | Upload(id: ServerFile, ok: bool)
    | UploadFails(code: string, ok: bool)
    | Attach(cancelled: bool, ok: bool)
    | Post(takes: bool, answer: Answer)
    | Settle(acked: bool, removed: bool, ok: bool)
    | StartDirect(cid: ClientId, body: string, reply: Option<MessageId>)
    | PostDirect(takes: bool)

  // ---- The server ----

  ghost predicate Stored(log: seq<Entry>, cid: ClientId) {
    exists i :: 0 <= i < |log| && log[i].cid == cid
  }

  ghost function Taken(log: seq<Entry>, e: Entry): seq<Entry> {
    if Stored(log, e.cid) then log else log + [e]
  }

  /** What the server may answer: an acknowledgement says it has the message; a message it has is
      never refused for what it replies to or what it carries. */
  ghost predicate MayAnswer(log: seq<Entry>, cid: ClientId, takes: bool, answer: Answer) {
    && (answer.Ok? ==> takes)
    && (answer.Refused? ==> !takes)
    && (answer.Refused? && Stored(log, cid) ==> answer.code != REPLY_TARGET_GONE && answer.code != NOT_ATTACHABLE)
  }

  // ---- Steps ----

  /** Other channels' rows come, change and go; ordinals go up. */
  ghost predicate OthersOnly(t: Table, t': Table, ch: ChannelId) {
    && t.next <= t'.next
    && Waiting(t, ch) == Waiting(t', ch)
    && forall c :: c in Waiting(t, ch) ==> t'.rows[c] == t.rows[c]
  }

  predicate InAttempt(pc: Pc) {
    pc.Took? || pc.Ready? || pc.Uploading? || pc.Posting? || pc.Answered?
  }

  /** What a retryable outcome leaves the row as. */
  function WaitingState(a: Try): State {
    if a.accepted then Accepted else Pending
  }

  function WrittenIf(ok: bool, t: Table, cid: ClientId, state: State, error: Option<string>): Table {
    if ok then WithState(t, cid, state, error) else t
  }

  function Ids(files: seq<File>): (ids: seq<ServerFile>)
    requires forall i :: 0 <= i < |files| ==> files[i].id.Some?
    ensures |ids| == |files|
  {
    seq(|files|, i requires 0 <= i < |files| => files[i].id.value)
  }

  predicate AllUploaded(files: seq<File>) {
    forall i :: 0 <= i < |files| ==> files[i].id.Some?
  }

  /** `filter_map` over the stored ids. */
  function KnownIds(files: seq<File>): seq<ServerFile> {
    if files == [] then []
    else KnownIds(files[..|files| - 1]) + (if files[|files| - 1].id.Some? then [files[|files| - 1].id.value] else [])
  }

  predicate Distinct(ids: seq<ServerFile>) {
    forall i, j :: 0 <= i < j < |ids| ==> ids[i] != ids[j]
  }

  ghost predicate Enabled(w: World, ch: ChannelId, act: Action) {
    match act
    case Elsewhere(t) => OthersOnly(w.table, t, ch)
    case Session(_) => true
    case Enqueue(_, _, _, _) => true
    case Restart => true
    case Retry(cid, _) => w.pc.Free? && cid in Waiting(w.table, ch)
    case Delete(cid) => w.pc.Free? && cid in Waiting(w.table, ch)
    case Pick(cid) => w.pc.Free? && w.session.Some? && IsHead(w.table, ch, cid) && w.table.rows[cid].state != Failed
    case MarkSending(_) => w.pc.Took?
    case BackOff(_) => w.pc.Ready? || w.pc.Uploading? || w.pc.Posting?
    case ReadFiles => w.pc.Ready? && w.session == Some(w.pc.a.epoch) && w.pc.a.cid in w.table.rows
    case Upload(_, _) => w.pc.Uploading? && |w.pc.ids| < |w.pc.files|
    case UploadFails(code, _) =>
      w.pc.Uploading? && (|w.pc.ids| < |w.pc.files| || code == CANCELLED) && code != REPLY_TARGET_GONE
    case Attach(_, _) => w.pc.Uploading? && |w.pc.ids| == |w.pc.files|
    case Post(takes, answer) =>
      && w.pc.Posting? && w.session == Some(w.pc.a.epoch) && w.pc.a.cid in w.table.rows
      && MayAnswer(w.log, w.pc.a.cid, takes, answer)
    case Settle(_, _, _) => w.pc.Answered?
    case StartDirect(_, _, _) => w.pc.Free? && w.session.Some? && Waiting(w.table, ch) == {}
    case PostDirect(_) => w.pc.Direct?
  }

  function PickedTry(w: World, cid: ClientId): Try
    requires cid in w.table.rows && w.session.Some?
  {
    var r := w.table.rows[cid];
    Try(cid, r.body, r.reply, r.state.Accepted?, w.session.value)
  }

  function FilesRead(w: World): World
    requires w.pc.Ready? && w.pc.a.cid in w.table.rows
  {
    var a, files := w.pc.a, w.table.rows[w.pc.a.cid].files;
    if a.accepted then w.(pc := Posting(a, |files|, KnownIds(files), false))
    else if files == [] then w.(pc := Posting(a, 0, [], false))
    else w.(pc := Uploading(a, files, [], false))
  }

  /** The next file: known already, or uploaded and its id committed. */
  function UploadedOne(w: World, id: ServerFile, ok: bool): World
    requires w.pc.Uploading? && |w.pc.ids| < |w.pc.files|
  {
    var a, i := w.pc.a, |w.pc.ids|;
    if w.pc.files[i].id.Some? then w.(pc := Uploading(a, w.pc.files, w.pc.ids + [w.pc.files[i].id.value], w.pc.again))
    else if ok then
      w.(table := WithFile(w.table, a.cid, i, Some(id), None), pc := Uploading(a, w.pc.files, w.pc.ids + [id], w.pc.again))
    else w.(table := WithState(w.table, a.cid, WaitingState(a), None), pc := Free)
  }

  function RowFails(w: World, cid: ClientId, code: string, ok: bool): World {
    w.(table := WrittenIf(ok, w.table, cid, Failed, Some(code)), pc := Free)
  }

  /** A cancel may come before the first byte; any other failure marks its file first. */
  function UploadFailed(w: World, code: string, ok: bool): World
    requires w.pc.Uploading?
  {
    var marked := if code == CANCELLED then w.table else WithFile(w.table, w.pc.a.cid, |w.pc.ids|, None, Some(code));
    RowFails(w.(table := marked), w.pc.a.cid, code, ok)
  }

  function Attached(w: World, cancelled: bool, ok: bool): World
    requires w.pc.Uploading?
  {
    if !Distinct(w.pc.ids) then RowFails(w, w.pc.a.cid, DUPLICATE_FILE, ok)
    else if cancelled then RowFails(w, w.pc.a.cid, CANCELLED, ok)
    else w.(pc := Posting(w.pc.a, |w.pc.files|, w.pc.ids, w.pc.again))
  }

  ghost function Posted(w: World, takes: bool, answer: Answer): World
    requires w.pc.Posting? && w.pc.a.cid in w.table.rows
  {
    var a := w.pc.a;
    w.(log := if takes then Taken(w.log, Entry(a.cid, w.table.rows[a.cid].ordinal, a.body, a.reply, w.pc.ids, false)) else w.log,
       pc := Answered(a, w.pc.count, answer, w.pc.again))
  }

  /** The message is on the server: its row goes; or the row remembers that it is sent. */
  function RowDropped(t: Table, a: Try, removed: bool, ok: bool): Table {
    if removed then Removed(t, a.cid)
    else if !a.accepted then WrittenIf(ok, t, a.cid, Accepted, None)
    else t
  }

  function Acknowledged(t: Table, a: Try, echo: ClientId, acked: bool, removed: bool, ok: bool): Table {
    if echo != a.cid then WrittenIf(ok, t, a.cid, Failed, Some(ECHO_MISMATCH))
    else if !acked && !a.accepted then WrittenIf(ok, t, a.cid, Accepted, None)
    else RowDropped(t, a, removed, ok)
  }

  /** The files are detached once per attempt, and uploaded again. */
  predicate Reattaches(w: World)
    requires w.pc.Answered?
  {
    && w.pc.answer == Refused(NOT_ATTACHABLE)
    && w.pc.count > 0 && !w.pc.a.accepted && !w.pc.again
  }

  function Reattached(w: World, ok: bool): World
    requires w.pc.Answered?
  {
    var a := w.pc.a;
    if !ok then w.(table := WithState(w.table, a.cid, WaitingState(a), None), pc := Free)
    else
      var t := Detached(w.table, a.cid);
      w.(table := t, pc := Uploading(a, if a.cid in t.rows then t.rows[a.cid].files else [], [], true))
  }

  function AnswerSettled(t: Table, a: Try, answer: Answer, acked: bool, removed: bool, ok: bool): Table {
    match answer
    case Ok(echo) => Acknowledged(t, a, echo, acked, removed, ok)
    case Refused(code) =>
      if a.accepted then RowDropped(t, a, removed, ok) else WrittenIf(ok, t, a.cid, Failed, Some(code))
    case Transient => WrittenIf(ok, t, a.cid, WaitingState(a), None)
  }

  /** Signed out while the answer was out: nothing of it is applied. */
  function Settled(w: World, acked: bool, removed: bool, ok: bool): World
    requires w.pc.Answered?
  {
    var a := w.pc.a;
    if w.session != Some(a.epoch) then w.(table := WrittenIf(ok, w.table, a.cid, WaitingState(a), None), pc := Free)
    else if Reattaches(w) then Reattached(w, ok)
    else w.(table := AnswerSettled(w.table, a, w.pc.answer, acked, removed, ok), pc := Free)
  }

  ghost function Do(w: World, ch: ChannelId, act: Action): World
    requires Enabled(w, ch, act)
  {
    match act
    case Elsewhere(t) => w.(table := t)
    case Session(to) => w.(session := to)
    case Enqueue(cid, body, reply, names) => w.(table := Enqueued(w.table, cid, ch, body, reply, names))
    case Restart => w.(table := Reopened(w.table), pc := Free)
    case Retry(cid, dropReply) => w.(table := Retried(w.table, cid, dropReply))
    case Delete(cid) => w.(table := Removed(w.table, cid))
    case Pick(cid) => w.(pc := Took(PickedTry(w, cid)))
    case MarkSending(ok) =>
      if w.pc.a.accepted then w.(pc := Ready(w.pc.a))
      else if ok then w.(table := WithState(w.table, w.pc.a.cid, Sending, None), pc := Ready(w.pc.a))
      else w.(pc := Free)
    case BackOff(ok) => w.(table := WrittenIf(ok, w.table, w.pc.a.cid, WaitingState(w.pc.a), None), pc := Free)
    case ReadFiles => FilesRead(w)
    case Upload(id, ok) => UploadedOne(w, id, ok)
    case UploadFails(code, ok) => UploadFailed(w, code, ok)
    case Attach(cancelled, ok) => Attached(w, cancelled, ok)
    case Post(takes, answer) => Posted(w, takes, answer)
    case Settle(acked, removed, ok) => Settled(w, acked, removed, ok)
    case StartDirect(cid, body, reply) => w.(pc := Direct(Entry(cid, w.table.next, body, reply, [], true)))
    case PostDirect(takes) => w.(log := if takes then Taken(w.log, w.pc.entry) else w.log, pc := Free)
  }

  // ---- Runs ----

  ghost predicate Runs(w: World, ch: ChannelId, acts: seq<Action>)
    decreases |acts|, 0
  {
    acts != [] ==>
      && Runs(w, ch, acts[..|acts| - 1])
      && Enabled(After(w, ch, acts[..|acts| - 1]), ch, acts[|acts| - 1])
  }

  ghost function After(w: World, ch: ChannelId, acts: seq<Action>): World
    requires Runs(w, ch, acts)
    decreases |acts|, 1
  {
    if acts == [] then w else Do(After(w, ch, acts[..|acts| - 1]), ch, acts[|acts| - 1])
  }

  lemma {:induction false} PrefixRuns(w: World, ch: ChannelId, acts: seq<Action>, n: nat)
    requires Runs(w, ch, acts) && n <= |acts|
    ensures Runs(w, ch, acts[..n])
  {
    if n < |acts| {
      PrefixRuns(w, ch, acts[..|acts| - 1], n);
      assert acts[..|acts| - 1][..n] == acts[..n];
    } else {
      assert acts[..n] == acts;
    }
  }
}
