/** What the queue's transactions do to its rows, field by field; what becomes of an enqueue over whole
    runs; and that a row whose turn it is can go out. */
module OutboxLaws {
  import opened Tables
  import opened Outbox
  import opened OutboxRuns
  import opened OutboxInvariants
  import opened OutboxTheorems

  // ---- One transaction ----

  /** Rows under other ids stay. */
  ghost predicate OnlyThisRow(t: Table, after: Table, cid: ClientId) {
    forall c :: c != cid ==> (c in after.rows <==> c in t.rows) && (c in t.rows ==> after.rows[c] == t.rows[c])
  }

  /** The files stay, but for their errors and ids. */
  predicate SameNames(files: seq<File>, after: seq<File>) {
    |after| == |files| && forall i :: 0 <= i < |files| ==> after[i].name == files[i].name
  }

  predicate SameIds(files: seq<File>, after: seq<File>) {
    |after| == |files| && forall i :: 0 <= i < |files| ==> after[i].id == files[i].id
  }

  /** A fresh id's row is pending, last in line, with exactly what was given; a taken id keeps its row. */
  lemma EnqueuedRow(t: Table, cid: ClientId, ch: ChannelId, body: string, reply: Option<MessageId>, names: seq<FileName>)
    ensures
      var after := Enqueued(t, cid, ch, body, reply, names);
      if cid in t.rows then after == t
      else
        && cid in after.rows && OnlyThisRow(t, after, cid) && after.deletions == t.deletions && after.next == t.next + 1
        && var r := after.rows[cid];
        && r.ordinal == t.next && r.channel == ch && r.body == body && r.reply == reply
        && r.state == Pending && r.error == None
        && |r.files| == |names|
        && (forall i :: 0 <= i < |names| ==> r.files[i].name == names[i] && r.files[i].id == None && r.files[i].error == None)
  {
  }

  /** Only a failed row is retried; it is pending again, unless it was to lose a quote that isn't why it
      failed. */
  lemma RetriedRow(t: Table, cid: ClientId, dropReply: bool)
    ensures
      var after := Retried(t, cid, dropReply);
      if cid !in t.rows || t.rows[cid].state != Failed then after == t
      else
        && cid in after.rows && OnlyThisRow(t, after, cid) && after.deletions == t.deletions && after.next == t.next
        && var was, r := t.rows[cid], after.rows[cid];
        && r.ordinal == was.ordinal && r.channel == was.channel && r.body == was.body
        && SameNames(was.files, r.files) && SameIds(was.files, r.files)
        && (forall i :: 0 <= i < |r.files| ==> r.files[i].error == None)
        && (if !dropReply || was.error == Some("message.reply_target_gone")
            then r.state == Pending && r.error == None && r.reply == (if dropReply then None else was.reply)
            else r.state == Failed && r.error == was.error && r.reply == was.reply)
  {
  }

  lemma RemovedRow(t: Table, cid: ClientId)
    ensures
      var after := Removed(t, cid);
      && cid !in after.rows && OnlyThisRow(t, after, cid) && after.next == t.next
      && (forall n :: n in after.deletions <==>
            n in t.deletions || (cid in t.rows && exists i :: 0 <= i < |t.rows[cid].files| && t.rows[cid].files[i].name == n))
  {
    if cid in t.rows {
      var files := t.rows[cid].files;
      forall n
        ensures n in Names(files) <==> exists i :: 0 <= i < |files| && files[i].name == n
      {
      }
    }
  }

  lemma ReopenedRows(t: Table)
    ensures
      var after := Reopened(t);
      && after.rows.Keys == t.rows.Keys && after.deletions == t.deletions && after.next == t.next
      && (forall c :: c in t.rows && t.rows[c].state != Sending ==> after.rows[c] == t.rows[c])
      && (forall c :: c in t.rows && t.rows[c].state == Sending ==> after.rows[c] == t.rows[c].(state := Pending))
  {
  }

  lemma StateWritten(t: Table, cid: ClientId, state: State, error: Option<string>)
    ensures
      var after := WithState(t, cid, state, error);
      && OnlyThisRow(t, after, cid) && after.next == t.next && after.deletions == t.deletions
      && (cid in after.rows <==> cid in t.rows)
      && (cid in t.rows ==>
            && after.rows[cid].state == state && after.rows[cid].error == error
            && after.rows[cid].files == t.rows[cid].files && after.rows[cid].ordinal == t.rows[cid].ordinal
            && after.rows[cid].body == t.rows[cid].body && after.rows[cid].reply == t.rows[cid].reply
            && after.rows[cid].channel == t.rows[cid].channel)
  {
  }

  /** One file's id and error; a missing id keeps the one known. */
  lemma FileWritten(t: Table, cid: ClientId, i: nat, id: Option<ServerFile>, error: Option<string>)
    requires cid in t.rows && i < |t.rows[cid].files|
    ensures
      var after := WithFile(t, cid, i, id, error);
      && cid in after.rows && OnlyThisRow(t, after, cid) && after.next == t.next && after.deletions == t.deletions
      && var was, now := t.rows[cid].files, after.rows[cid].files;
      && SameNames(was, now) && after.rows[cid] == t.rows[cid].(files := now)
      && (forall j :: 0 <= j < |was| && j != i ==> now[j] == was[j])
      && now[i].id == (if id.Some? then id else was[i].id) && now[i].error == error
  {
  }

  lemma FilesDetached(t: Table, cid: ClientId)
    requires cid in t.rows
    ensures
      var after := Detached(t, cid);
      && cid in after.rows && OnlyThisRow(t, after, cid) && after.next == t.next && after.deletions == t.deletions
      && after.rows[cid] == t.rows[cid].(files := after.rows[cid].files)
      && SameNames(t.rows[cid].files, after.rows[cid].files)
      && (forall i :: 0 <= i < |after.rows[cid].files| ==> after.rows[cid].files[i].id == None)
  {
  }

  // ---- What an attempt leaves ----

  predicate RowIs(t: Table, cid: ClientId, state: State, error: Option<string>) {
    cid in t.rows && t.rows[cid].state == state && t.rows[cid].error == error
  }

  /** The row stays what it was to the server: accepted, or in line. */
  predicate RowWaits(t: Table, a: Try) {
    RowIs(t, a.cid, if a.accepted then Accepted else Pending, None)
  }

  /** An attempt sends the row as it is stored: an accepted row with the ids of its files, in order; one
      without files at once; any other once its files are uploaded. */
  lemma AttemptsSendTheRow(w: World, ch: ChannelId, cid: ClientId)
    requires Enabled(w, ch, Pick(cid))
    ensures
      var r, p := w.table.rows[cid], Do(w, ch, Pick(cid));
      && p == w.(pc := Took(Try(cid, r.body, r.reply, r.state == Accepted, w.session.value)))
      && var m := Do(p, ch, MarkSending(true));
      && m == w.(pc := Ready(p.pc.a), table := m.table) && OnlyThisRow(w.table, m.table, cid)
      && cid in m.table.rows && m.table.rows[cid].files == r.files
      && (if r.state == Accepted then m.table == w.table else RowIs(m.table, cid, Sending, None))
      && Enabled(m, ch, ReadFiles)
      && var f := Do(m, ch, ReadFiles);
      && f == m.(pc := f.pc) && f.pc.a == p.pc.a
      && (if r.state == Accepted then
            && f.pc.Posting?
            && (AllUploaded(r.files) ==>
                  |f.pc.ids| == |r.files| && forall i :: 0 <= i < |r.files| ==> Some(f.pc.ids[i]) == r.files[i].id)
          else if r.files == [] then f.pc.Posting? && f.pc.ids == []
          else f.pc.Uploading? && f.pc.files == r.files && f.pc.ids == [])
  {
    var files := w.table.rows[cid].files;
    if AllUploaded(files) {
      KnownAreAll(files);
    }
  }

  /** What an answer does to its row, with a working store: sent, it goes, also if an accepted one is
      refused; echoed under another id or refused, it fails with that code; lost, it waits; after a
      sign-out nothing is applied; files the server swept are uploaded again, once. */
  lemma AnswersDecide(w: World, ch: ChannelId, acked: bool, removed: bool)
    requires w.pc.Answered? && w.pc.a.cid in w.table.rows && Enabled(w, ch, Settle(acked, removed, true))
    ensures
      var a, t := w.pc.a, Do(w, ch, Settle(acked, removed, true));
      var swept := w.pc.answer == Refused("file.not_attachable") && w.pc.count > 0 && !a.accepted && !w.pc.again;
      && OnlyThisRow(w.table, t.table, a.cid) && t.log == w.log && t.session == w.session
      && (t.pc.Free? <==> w.session != Some(a.epoch) || !swept)
      && (if w.session != Some(a.epoch) then RowWaits(t.table, a)
          else
            match w.pc.answer
            case Ok(echo) =>
              if echo != a.cid then RowIs(t.table, a.cid, Failed, Some("outbox.echo_mismatch"))
              else if removed && (acked || a.accepted) then a.cid !in t.table.rows
              else a.cid in t.table.rows && (a.accepted || RowIs(t.table, a.cid, Accepted, None))
            case Refused(code) =>
              if swept then
                && t.pc.Uploading? && t.pc.a == a && t.pc.again && t.pc.ids == []
                && a.cid in t.table.rows && t.pc.files == t.table.rows[a.cid].files
                && (forall i :: 0 <= i < |t.pc.files| ==> t.pc.files[i].id == None)
              else if !a.accepted then RowIs(t.table, a.cid, Failed, Some(code))
              else removed ==> a.cid !in t.table.rows
            case Transient => RowWaits(t.table, a))
  {
  }

  /** A file known to the server isn't uploaded again; the id of any other is stored before the next. */
  lemma UploadsAreKept(w: World, ch: ChannelId, id: ServerFile)
    requires w.pc.Uploading? && Enabled(w, ch, Upload(id, true))
    requires w.pc.a.cid in w.table.rows && |w.table.rows[w.pc.a.cid].files| == |w.pc.files|
    ensures
      var cid, i, t := w.pc.a.cid, |w.pc.ids|, Do(w, ch, Upload(id, true));
      && t.pc.Uploading? && t.pc.files == w.pc.files && t.pc.a == w.pc.a
      && (if w.pc.files[i].id.Some? then t.table == w.table && t.pc.ids == w.pc.ids + [w.pc.files[i].id.value]
          else
            && OnlyThisRow(w.table, t.table, cid) && t.pc.ids == w.pc.ids + [id]
            && t.table.rows[cid].files[i].id == Some(id)
            && (forall j :: 0 <= j < |w.pc.files| && j != i ==> t.table.rows[cid].files[j] == w.table.rows[cid].files[j]))
  {
  }

  /** A failed upload fails the row, and shows on its file unless it was cancelled. */
  lemma FailedUploadsShow(w: World, ch: ChannelId, code: string)
    requires w.pc.Uploading? && Enabled(w, ch, UploadFails(code, true))
    requires w.pc.a.cid in w.table.rows && |w.table.rows[w.pc.a.cid].files| == |w.pc.files|
    ensures
      var cid, i, t := w.pc.a.cid, |w.pc.ids|, Do(w, ch, UploadFails(code, true));
      && t.pc.Free? && RowIs(t.table, cid, Failed, Some(code)) && OnlyThisRow(w.table, t.table, cid)
      && var was, now := w.table.rows[cid].files, t.table.rows[cid].files;
      && SameNames(was, now) && SameIds(was, now)
      && (forall j :: 0 <= j < |was| && j != i ==> now[j] == was[j])
      && (i < |was| ==> now[i].error == if code == "transfer.cancelled" then was[i].error else Some(code))
  {
  }

  /** The attempt's messages are sent with every file's id; twice the same, or cancelled, it isn't. */
  lemma AttachedAreSent(w: World, ch: ChannelId, cancelled: bool)
    requires w.pc.Uploading? && Enabled(w, ch, Attach(cancelled, true)) && w.pc.a.cid in w.table.rows
    ensures
      var t, ids := Do(w, ch, Attach(cancelled, true)), w.pc.ids;
      if exists i, j :: 0 <= i < j < |ids| && ids[i] == ids[j] then
        t.pc.Free? && RowIs(t.table, w.pc.a.cid, Failed, Some("outbox.duplicate_file"))
      else if cancelled then t.pc.Free? && RowIs(t.table, w.pc.a.cid, Failed, Some("transfer.cancelled"))
      else t.pc.Posting? && t.pc.a == w.pc.a && t.pc.ids == ids && t.table == w.table
  {
  }

  // ---- From the enqueue on ----

  /** The `n`th action queues this message under an id that isn't taken. */
  ghost predicate Queues(ch: ChannelId, acts: seq<Action>, n: nat, cid: ClientId, body: string, reply: Option<MessageId>, names: seq<FileName>) {
    && n < |acts| && Runs(START, ch, acts[..n]) && acts[n] == Enqueue(cid, body, reply, names)
    && cid !in After(START, ch, acts[..n]).table.rows
  }

  lemma {:induction false} QueuedWaits(ch: ChannelId, acts: seq<Action>, n: nat, cid: ClientId, body: string, reply: Option<MessageId>, names: seq<FileName>)
    requires Runs(START, ch, acts) && Queues(ch, acts, n, cid, body, reply, names)
    ensures Runs(START, ch, acts[..n + 1])
    ensures
      var t := After(START, ch, acts[..n + 1]).table;
      && cid in Waiting(t, ch) && t.next == After(START, ch, acts[..n]).table.next + 1
      && var r := t.rows[cid];
      && r.ordinal == After(START, ch, acts[..n]).table.next
      && r.body == body && r.reply == reply && |r.files| == |names|
  {
    PrefixRuns(START, ch, acts, n + 1);
    assert acts[..n + 1][..n] == acts[..n];
    EnqueuedRow(After(START, ch, acts[..n]).table, cid, ch, body, reply, names);
  }

  /** Once queued, a message is waiting, stored, or deleted by the user since. */
  lemma {:induction false} EnqueuedIsNotLost(ch: ChannelId, acts: seq<Action>, n: nat, cid: ClientId, body: string, reply: Option<MessageId>, names: seq<FileName>)
    requires Runs(START, ch, acts) && Queues(ch, acts, n, cid, body, reply, names)
    ensures
      var w := After(START, ch, acts);
      cid in Waiting(w.table, ch) || Stored(w.log, cid) || Delete(cid) in acts[n + 1..]
  {
    QueuedWaits(ch, acts, n, cid, body, reply, names);
    NothingIsLost(ch, acts, n + 1, cid);
  }

  /** The message queued at a place. */
  datatype Placed = Placed(ordinal: nat, cid: ClientId, body: string, reply: Option<MessageId>, files: nat)

  predicate ReplyKept(p: Placed, reply: Option<MessageId>, dropped: bool) {
    reply == p.reply || (dropped && reply == None)
  }

  predicate RowAsQueued(p: Placed, cid: ClientId, r: OutboxRow, dropped: bool) {
    cid == p.cid && r.body == p.body && |r.files| == p.files && ReplyKept(p, r.reply, dropped)
  }

  predicate EntryAsQueued(p: Placed, e: Entry, dropped: bool) {
    e.cid == p.cid && e.body == p.body && |e.attachments| == p.files && ReplyKept(p, e.reply, dropped)
  }

  ghost predicate RowsAsQueued(t: Table, ch: ChannelId, p: Placed, dropped: bool) {
    && p.ordinal < t.next
    && forall c :: c in Waiting(t, ch) && t.rows[c].ordinal == p.ordinal ==> RowAsQueued(p, c, t.rows[c], dropped)
  }

  ghost predicate LogAsQueued(log: seq<Entry>, p: Placed, dropped: bool) {
    forall e :: e in log && !e.direct && e.ordinal == p.ordinal ==> EntryAsQueued(p, e, dropped)
  }

  /** What a row keeps through every step but a retry: place, text, reply and number of files. */
  predicate SameQueued(r: OutboxRow, after: OutboxRow) {
    after.ordinal == r.ordinal && after.body == r.body && after.reply == r.reply && |after.files| == |r.files|
  }

  /** Our rows stay as queued, or go, or are new and last in line. */
  ghost predicate QueueMoves(t: Table, after: Table, ch: ChannelId) {
    && t.next <= after.next
    && forall c :: c in Waiting(after, ch) ==>
         || (c in Waiting(t, ch) && SameQueued(t.rows[c], after.rows[c]))
         || t.next <= after.rows[c].ordinal
  }

  lemma ElsewhereMoves(t: Table, after: Table, ch: ChannelId)
    requires OthersOnly(t, after, ch)
    ensures QueueMoves(t, after, ch)
  {
  }

  lemma EnqueueMoves(t: Table, cid: ClientId, ch: ChannelId, body: string, reply: Option<MessageId>, names: seq<FileName>)
    ensures QueueMoves(t, Enqueued(t, cid, ch, body, reply, names), ch)
  {
    EnqueuedRow(t, cid, ch, body, reply, names);
  }

  lemma WritesMove(t: Table, ch: ChannelId, cid: ClientId, state: State, error: Option<string>)
    ensures QueueMoves(t, WithState(t, cid, state, error), ch) && QueueMoves(t, Removed(t, cid), ch)
    ensures QueueMoves(t, Reopened(t), ch) && QueueMoves(t, Detached(t, cid), ch)
  {
  }

  lemma FileMoves(t: Table, ch: ChannelId, cid: ClientId, i: nat, id: Option<ServerFile>, error: Option<string>)
    ensures QueueMoves(t, WithFile(t, cid, i, id, error), ch)
  {
  }

  lemma FailMoves(w: World, ch: ChannelId, code: string, ok: bool)
    requires w.pc.Uploading?
    ensures QueueMoves(w.table, UploadFailed(w, code, ok).table, ch)
  {
    var cid := w.pc.a.cid;
    var marked := WithFile(w.table, cid, |w.pc.ids|, None, Some(code));
    FileMoves(w.table, ch, cid, |w.pc.ids|, None, Some(code));
    WritesMove(w.table, ch, cid, Failed, Some(code));
    WritesMove(marked, ch, cid, Failed, Some(code));
  }

  lemma DropMoves(t: Table, ch: ChannelId, a: Try, removed: bool, ok: bool)
    ensures QueueMoves(t, RowDropped(t, a, removed, ok), ch)
  {
    WritesMove(t, ch, a.cid, Accepted, None);
  }

  lemma AnswerMoves(t: Table, ch: ChannelId, a: Try, answer: Answer, acked: bool, removed: bool, ok: bool)
    ensures QueueMoves(t, AnswerSettled(t, a, answer, acked, removed, ok), ch)
  {
    DropMoves(t, ch, a, removed, ok);
    match answer
    case Ok(_) =>
      WritesMove(t, ch, a.cid, Failed, Some(ECHO_MISMATCH));
      WritesMove(t, ch, a.cid, Accepted, None);
    case Refused(code) => WritesMove(t, ch, a.cid, Failed, Some(code));
    case Transient => WritesMove(t, ch, a.cid, WaitingState(a), None);
  }

  lemma SettleMoves(w: World, ch: ChannelId, acked: bool, removed: bool, ok: bool)
    requires w.pc.Answered?
    ensures QueueMoves(w.table, Settled(w, acked, removed, ok).table, ch)
  {
    WritesMove(w.table, ch, w.pc.a.cid, WaitingState(w.pc.a), None);
    AnswerMoves(w.table, ch, w.pc.a, w.pc.answer, acked, removed, ok);
  }

  lemma StepMoves(w: World, ch: ChannelId, act: Action)
    requires Enabled(w, ch, act) && !act.Retry?
    ensures QueueMoves(w.table, Do(w, ch, act).table, ch)
  {
    match act
    case Elsewhere(t) => ElsewhereMoves(w.table, t, ch);
    case Enqueue(cid, body, reply, names) => EnqueueMoves(w.table, cid, ch, body, reply, names);
    case Restart => WritesMove(w.table, ch, 0, Pending, None);
    case Delete(cid) => WritesMove(w.table, ch, cid, Pending, None);
    case MarkSending(_) => WritesMove(w.table, ch, w.pc.a.cid, Sending, None);
    case BackOff(_) => WritesMove(w.table, ch, w.pc.a.cid, WaitingState(w.pc.a), None);
    case Upload(id, _) =>
      FileMoves(w.table, ch, w.pc.a.cid, |w.pc.ids|, Some(id), None);
      WritesMove(w.table, ch, w.pc.a.cid, WaitingState(w.pc.a), None);
    case UploadFails(code, ok) => FailMoves(w, ch, code, ok);
    case Attach(_, _) =>
      WritesMove(w.table, ch, w.pc.a.cid, Failed, Some(DUPLICATE_FILE));
      WritesMove(w.table, ch, w.pc.a.cid, Failed, Some(CANCELLED));
    case Settle(acked, removed, ok) => SettleMoves(w, ch, acked, removed, ok);
    case _ =>
  }

  lemma MovesKeepQueued(t: Table, after: Table, ch: ChannelId, p: Placed, dropped: bool)
    requires QueueMoves(t, after, ch) && RowsAsQueued(t, ch, p, dropped)
    ensures RowsAsQueued(after, ch, p, dropped)
  {
  }

  lemma RetryKeepsQueued(t: Table, ch: ChannelId, cid: ClientId, dropReply: bool, p: Placed, dropped: bool)
    requires RowsAsQueued(t, ch, p, dropped)
    ensures RowsAsQueued(Retried(t, cid, dropReply), ch, p, dropped || (dropReply && cid == p.cid))
  {
    RetriedRow(t, cid, dropReply);
    var after := Retried(t, cid, dropReply);
    forall c | c in Waiting(after, ch) && after.rows[c].ordinal == p.ordinal
      ensures RowAsQueued(p, c, after.rows[c], dropped || (dropReply && cid == p.cid))
    {
      assert RowAsQueued(p, c, t.rows[c], dropped);
    }
  }

  /** What a step adds to the log: a direct send, or the message of the row being sent. */
  lemma LogStepAsQueued(w: World, ch: ChannelId, act: Action, p: Placed, dropped: bool)
    requires Inv(w, ch) && Enabled(w, ch, act)
    requires RowsAsQueued(w.table, ch, p, dropped) && LogAsQueued(w.log, p, dropped)
    ensures LogAsQueued(Do(w, ch, act).log, p, dropped)
  {
    if act.Post? {
      var a := w.pc.a;
      assert a.cid in Waiting(w.table, ch);
    }
  }

  lemma StepAsQueued(w: World, ch: ChannelId, act: Action, p: Placed, dropped: bool)
    requires Inv(w, ch) && Enabled(w, ch, act)
    requires RowsAsQueued(w.table, ch, p, dropped) && LogAsQueued(w.log, p, dropped)
    ensures
      var now := dropped || act == Retry(p.cid, true);
      RowsAsQueued(Do(w, ch, act).table, ch, p, now) && LogAsQueued(Do(w, ch, act).log, p, now)
  {
    LogStepAsQueued(w, ch, act, p, dropped);
    if act.Retry? {
      RetryKeepsQueued(w.table, ch, act.cid, act.dropReply, p, dropped);
    } else {
      StepMoves(w, ch, act);
      MovesKeepQueued(w.table, Do(w, ch, act).table, ch, p, dropped);
    }
  }

  lemma {:induction false} RunAsQueued(ch: ChannelId, acts: seq<Action>, n: nat, p: Placed)
    requires Runs(START, ch, acts) && n <= |acts| && Runs(START, ch, acts[..n])
    requires RowsAsQueued(After(START, ch, acts[..n]).table, ch, p, false) && LogAsQueued(After(START, ch, acts[..n]).log, p, false)
    ensures
      var w, dropped := After(START, ch, acts), Retry(p.cid, true) in acts[n..];
      RowsAsQueued(w.table, ch, p, dropped) && LogAsQueued(w.log, p, dropped)
  {
    if n == |acts| {
      assert acts[..n] == acts;
    } else {
      var rest, last := acts[..|acts| - 1], acts[|acts| - 1];
      assert rest[..n] == acts[..n];
      RunAsQueued(ch, rest, n, p);
      RunKeeps(ch, rest);
      assert acts[n..] == rest[n..] + [last];
      StepAsQueued(After(START, ch, rest), ch, last, p, Retry(p.cid, true) in rest[n..]);
    }
  }

  /** What the server stores for an enqueue is that enqueue's text and as many files, and its reply
      target, unless a Retry dropped it. */
  lemma {:induction false} StoredAsEnqueued(ch: ChannelId, acts: seq<Action>, n: nat, cid: ClientId, body: string, reply: Option<MessageId>, names: seq<FileName>, e: Entry)
    requires Runs(START, ch, acts) && Queues(ch, acts, n, cid, body, reply, names)
    requires e in After(START, ch, acts).log && !e.direct && e.ordinal == After(START, ch, acts[..n]).table.next
    ensures e.cid == cid && e.body == body && |e.attachments| == |names|
    ensures e.reply == reply || (e.reply == None && Retry(cid, true) in acts[n + 1..])
  {
    QueuedWaits(ch, acts, n, cid, body, reply, names);
    RunKeeps(ch, acts[..n]);
    RunKeeps(ch, acts[..n + 1]);
    assert acts[..n + 1][..n] == acts[..n];
    RunAsQueued(ch, acts, n + 1, Placed(e.ordinal, cid, body, reply, |names|));
  }

  // ---- A row whose turn it is goes out ----

  lemma {:induction false} Extend(w: World, ch: ChannelId, acts: seq<Action>, act: Action)
    requires Runs(w, ch, acts) && Enabled(After(w, ch, acts), ch, act)
    ensures Runs(w, ch, acts + [act]) && After(w, ch, acts + [act]) == Do(After(w, ch, acts), ch, act)
  {
    assert (acts + [act])[..|acts|] == acts;
  }

  /** The ids the row is sent with: those known, and those the server gives now. */
  function SentIds(files: seq<File>, given: seq<ServerFile>): (ids: seq<ServerFile>)
    requires |given| == |files|
    ensures |ids| == |files|
  {
    seq(|files|, i requires 0 <= i < |files| => if files[i].id.Some? then files[i].id.value else given[i])
  }

  /** An attempt that is uploading the rest of its files. */
  ghost predicate UploadingAs(w: World, ch: ChannelId, cid: ClientId, files: seq<File>, given: seq<ServerFile>, done: nat) {
    && Inv(w, ch) && w.pc.Uploading? && w.pc.a.cid == cid && w.session == Some(w.pc.a.epoch) && w.pc.files == files
    && |given| == |files| && done <= |files| && w.pc.ids == SentIds(files, given)[..done]
  }

  lemma UploadOneMore(w: World, ch: ChannelId, cid: ClientId, files: seq<File>, given: seq<ServerFile>, done: nat)
    requires UploadingAs(w, ch, cid, files, given, done) && done < |files|
    ensures Enabled(w, ch, Upload(given[done], true))
    ensures UploadingAs(Do(w, ch, Upload(given[done], true)), ch, cid, files, given, done + 1)
  {
    StepKeeps(w, ch, Upload(given[done], true));
  }

  lemma {:induction false} UploadsAll(w: World, ch: ChannelId, acts: seq<Action>, cid: ClientId, files: seq<File>, given: seq<ServerFile>, done: nat) returns (more: seq<Action>)
    requires Runs(w, ch, acts) && UploadingAs(After(w, ch, acts), ch, cid, files, given, done)
    ensures Runs(w, ch, more) && UploadingAs(After(w, ch, more), ch, cid, files, given, |files|)
    decreases |files| - done
  {
    if done == |files| {
      more := acts;
    } else {
      UploadOneMore(After(w, ch, acts), ch, cid, files, given, done);
      Extend(w, ch, acts, Upload(given[done], true));
      more := UploadsAll(w, ch, acts + [Upload(given[done], true)], cid, files, given, done + 1);
    }
  }

  /** An attempt about to send. */
  ghost predicate Sendable(w: World, ch: ChannelId, cid: ClientId) {
    Inv(w, ch) && w.pc.Posting? && w.pc.a.cid == cid && w.session == Some(w.pc.a.epoch)
  }

  lemma PickedReads(w: World, ch: ChannelId, cid: ClientId) returns (acts: seq<Action>)
    requires Inv(w, ch) && Enabled(w, ch, Pick(cid))
    ensures Runs(w, ch, acts) && Inv(After(w, ch, acts), ch)
    ensures
      var u, r := After(w, ch, acts), w.table.rows[cid];
      if r.state.Accepted? || r.files == [] then Sendable(u, ch, cid)
      else u.pc.Uploading? && u.pc.files == r.files && u.pc.ids == [] && u.pc.a.cid == cid && u.session == Some(u.pc.a.epoch)
  {
    assert Runs(w, ch, []) && After(w, ch, []) == w;
    Extend(w, ch, [], Pick(cid));
    var u := Do(w, ch, Pick(cid));
    StepKeeps(w, ch, Pick(cid));
    acts := [] + [Pick(cid)];
    Extend(w, ch, acts, MarkSending(true));
    StepKeeps(u, ch, MarkSending(true));
    acts := acts + [MarkSending(true)];
    u := Do(u, ch, MarkSending(true));
    Extend(w, ch, acts, ReadFiles);
    StepKeeps(u, ch, ReadFiles);
    acts := acts + [ReadFiles];
  }

  lemma SentAndSettled(u: World, ch: ChannelId, cid: ClientId)
    requires Sendable(u, ch, cid)
    ensures Enabled(u, ch, Post(true, Ok(cid)))
    ensures
      var v := Do(u, ch, Post(true, Ok(cid)));
      && Enabled(v, ch, Settle(true, true, true))
      && var x := Do(v, ch, Settle(true, true, true));
      cid !in x.table.rows && Stored(x.log, cid) && x.pc.Free?
  {
    StepKeeps(u, ch, Post(true, Ok(cid)));
  }

  lemma {:induction false} SendsAndGoes(w: World, ch: ChannelId, acts: seq<Action>, cid: ClientId) returns (more: seq<Action>)
    requires Runs(w, ch, acts) && Sendable(After(w, ch, acts), ch, cid)
    ensures Runs(w, ch, more)
    ensures
      var u := After(w, ch, more);
      cid !in u.table.rows && Stored(u.log, cid) && u.pc.Free?
  {
    SentAndSettled(After(w, ch, acts), ch, cid);
    Extend(w, ch, acts, Post(true, Ok(cid)));
    more := acts + [Post(true, Ok(cid))];
    Extend(w, ch, more, Settle(true, true, true));
    more := more + [Settle(true, true, true)];
  }

  /** From any state with the lock free, a session, and a row in turn that hasn't failed: a reachable
      server, a working store and distinct file ids get it stored and out of the queue. */
  lemma HeadGoesOut(w: World, ch: ChannelId, cid: ClientId, given: seq<ServerFile>) returns (acts: seq<Action>)
    requires Inv(w, ch) && w.pc.Free? && w.session.Some? && IsHead(w.table, ch, cid) && w.table.rows[cid].state != Failed
    requires |given| == |w.table.rows[cid].files| && Distinct(SentIds(w.table.rows[cid].files, given))
    ensures Runs(w, ch, acts)
    ensures
      var u := After(w, ch, acts);
      cid !in u.table.rows && Stored(u.log, cid) && u.pc.Free?
  {
    var r := w.table.rows[cid];
    acts := PickedReads(w, ch, cid);
    if !r.state.Accepted? && r.files != [] {
      acts := UploadsAll(w, ch, acts, cid, r.files, given, 0);
      var u, attach := After(w, ch, acts), Attach(false, true);
      assert u.pc.ids == SentIds(r.files, given);
      Extend(w, ch, acts, attach);
      StepKeeps(u, ch, attach);
      acts := acts + [attach];
    }
    acts := SendsAndGoes(w, ch, acts, cid);
  }
}
