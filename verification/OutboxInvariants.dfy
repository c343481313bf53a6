/** What every step of a channel's queue keeps: the server's log in line with the rows, what each
    state of a row means, and what an attempt knows of its row. */
module OutboxInvariants {
  import opened Tables
  import opened Outbox
  import opened OutboxRuns

  // ---- Invariants ----

  predicate Precedes(e: Entry, f: Entry) {
    e.ordinal < f.ordinal || (e.ordinal == f.ordinal && e.direct)
  }

  /** Stored in line, and each id once. */
  ghost predicate LogOk(log: seq<Entry>) {
    forall i, j :: 0 <= i < j < |log| ==> Precedes(log[i], log[j]) && log[i].cid != log[j].cid
  }

  ghost predicate OrdinalsOk(t: Table, ch: ChannelId) {
    && (forall c :: c in Waiting(t, ch) ==> t.rows[c].ordinal < t.next)
    && (forall c, d :: c in Waiting(t, ch) && d in Waiting(t, ch) && c != d ==> t.rows[c].ordinal != t.rows[d].ordinal)
  }

  /** Nothing stored came from a row behind one still waiting. */
  ghost predicate LogBelow(log: seq<Entry>, t: Table, ch: ChannelId) {
    && (forall e :: e in log ==> e.ordinal < t.next || (e.direct && e.ordinal == t.next))
    && (forall e, c :: e in log && c in Waiting(t, ch) ==>
          e.ordinal < t.rows[c].ordinal || (e.ordinal == t.rows[c].ordinal && (e.direct || e.cid == c)))
  }

  /** The stored message is the one its row holds. */
  predicate SameMessage(e: Entry, r: OutboxRow) {
    e.body == r.body && e.reply == r.reply && AllUploaded(r.files) && e.attachments == Ids(r.files)
  }

  ghost predicate SentAsQueued(log: seq<Entry>, t: Table, ch: ChannelId) {
    forall e :: e in log && !e.direct && e.cid in Waiting(t, ch) && e.ordinal == t.rows[e.cid].ordinal ==>
      SameMessage(e, t.rows[e.cid])
  }

  ghost predicate LineOk(log: seq<Entry>, t: Table, ch: ChannelId) {
    OrdinalsOk(t, ch) && LogBelow(log, t, ch) && SentAsQueued(log, t, ch)
  }

  /** `Accepted`: the server has it, and all its files. Refused for its quote: the server hasn't. */
  ghost predicate RowOk(log: seq<Entry>, cid: ClientId, r: OutboxRow) {
    && (r.state.Accepted? ==> Stored(log, cid) && AllUploaded(r.files))
    && (r.state.Failed? && r.error == Some(REPLY_TARGET_GONE) ==> !Stored(log, cid))
  }

  ghost predicate RowsOk(log: seq<Entry>, t: Table, ch: ChannelId) {
    forall c :: c in Waiting(t, ch) ==> RowOk(log, c, t.rows[c])
  }

  predicate Trying(r: OutboxRow, a: Try) {
    r.body == a.body && r.reply == a.reply && (a.accepted <==> r.state.Accepted?) && !r.state.Failed?
  }

  predicate UploadedSoFar(r: OutboxRow, files: seq<File>, ids: seq<ServerFile>) {
    && |ids| <= |files| == |r.files|
    && (forall k :: 0 <= k < |ids| ==> r.files[k].id == Some(ids[k]))
    && (forall k :: |ids| <= k < |files| ==> r.files[k].id == files[k].id)
  }

  ghost predicate AttemptOk(w: World, ch: ChannelId) {
    InAttempt(w.pc) ==>
      && IsHead(w.table, ch, w.pc.a.cid) && w.pc.a.cid in Waiting(w.table, ch)
      && var r := w.table.rows[w.pc.a.cid];
      && Trying(r, w.pc.a)
      && (w.pc.Uploading? ==> !w.pc.a.accepted && UploadedSoFar(r, w.pc.files, w.pc.ids))
      && (w.pc.Posting? ==> AllUploaded(r.files) && w.pc.ids == Ids(r.files) && w.pc.count == |r.files|)
      && (w.pc.Answered? ==>
            && AllUploaded(r.files) && w.pc.count == |r.files|
            && (w.pc.answer.Ok? ==> Stored(w.log, w.pc.a.cid))
            && (w.pc.answer == Refused(REPLY_TARGET_GONE) || w.pc.answer == Refused(NOT_ATTACHABLE) ==>
                  !Stored(w.log, w.pc.a.cid)))
  }

  ghost predicate DirectOk(w: World, ch: ChannelId) {
    w.pc.Direct? ==>
      && w.pc.entry.direct && w.pc.entry.ordinal <= w.table.next
      && (forall c :: c in Waiting(w.table, ch) ==> w.pc.entry.ordinal <= w.table.rows[c].ordinal && w.table.rows[c].state.Pending?)
      && (forall e :: e in w.log ==> Precedes(e, w.pc.entry))
  }

  ghost predicate Inv(w: World, ch: ChannelId) {
    && LogOk(w.log) && LineOk(w.log, w.table, ch)
    && RowsOk(w.log, w.table, ch)
    && AttemptOk(w, ch) && DirectOk(w, ch)
  }

  lemma StartInv(ch: ChannelId)
    ensures Inv(START, ch)
  {
  }

  // ---- Rows that keep their place and their message ----

  /** What no one may change of a row but a retry without its quote, or a detach. */
  predicate Keeps(r: OutboxRow, r': OutboxRow) {
    && r'.ordinal == r.ordinal && r'.body == r.body && r'.reply == r.reply && |r'.files| == |r.files|
    && forall i :: 0 <= i < |r.files| && r.files[i].id.Some? ==> r'.files[i].id == r.files[i].id
  }

  /** Our rows stay as they are in line, or go. */
  ghost predicate SameLine(t: Table, t': Table, ch: ChannelId) {
    && t.next <= t'.next
    && Waiting(t', ch) <= Waiting(t, ch)
    && forall c :: c in Waiting(t', ch) ==> Keeps(t.rows[c], t'.rows[c])
  }

  lemma LineStays(log: seq<Entry>, t: Table, t': Table, ch: ChannelId)
    requires LineOk(log, t, ch) && SameLine(t, t', ch)
    ensures LineOk(log, t', ch)
  {
    forall e | e in log && !e.direct && e.cid in Waiting(t', ch) && e.ordinal == t'.rows[e.cid].ordinal
      ensures SameMessage(e, t'.rows[e.cid])
    {
      assert Keeps(t.rows[e.cid], t'.rows[e.cid]) && SameMessage(e, t.rows[e.cid]);
    }
  }

  /** One of our rows changes, in place. */
  lemma OneRowChanges(log: seq<Entry>, t: Table, ch: ChannelId, cid: ClientId, r: OutboxRow)
    requires LineOk(log, t, ch) && RowsOk(log, t, ch)
    requires cid in Waiting(t, ch) && r.channel == ch && Keeps(t.rows[cid], r) && RowOk(log, cid, r)
    ensures
      var t' := Changed(t, cid, r);
      LineOk(log, t', ch) && RowsOk(log, t', ch) && Waiting(t', ch) == Waiting(t, ch)
  {
    var t' := Changed(t, cid, r);
    assert forall c :: c in Waiting(t', ch) <==> c in Waiting(t, ch);
    LineStays(log, t, t', ch);
  }

  lemma HeadStays(t: Table, ch: ChannelId, cid: ClientId, r: OutboxRow, head: ClientId)
    requires IsHead(t, ch, head) && cid in Waiting(t, ch) && r.channel == ch && r.ordinal == t.rows[cid].ordinal
    ensures IsHead(Changed(t, cid, r), ch, head)
  {
  }

  // ---- Steps outside attempts ----

  lemma ElsewhereKeeps(w: World, ch: ChannelId, t: Table)
    requires Inv(w, ch) && OthersOnly(w.table, t, ch)
    ensures Inv(w.(table := t), ch)
  {
    LineStays(w.log, w.table, t, ch);
    if InAttempt(w.pc) {
      assert w.pc.a.cid in Waiting(t, ch);
      assert forall c :: c in t.rows && t.rows[c].channel == ch ==> c in Waiting(t, ch);
    }
  }

  lemma EnqueueKeeps(w: World, ch: ChannelId, cid: ClientId, body: string, reply: Option<MessageId>, names: seq<FileName>)
    requires Inv(w, ch)
    ensures Inv(w.(table := Enqueued(w.table, cid, ch, body, reply, names)), ch)
  {
    if cid !in w.table.rows {
      var t' := Enqueued(w.table, cid, ch, body, reply, names);
      assert forall c :: c in Waiting(t', ch) <==> c in Waiting(w.table, ch) || c == cid;
    }
  }

  lemma RestartKeeps(w: World, ch: ChannelId)
    requires Inv(w, ch)
    ensures Inv(w.(table := Reopened(w.table), pc := Free), ch)
  {
    assert forall c :: c in Waiting(Reopened(w.table), ch) <==> c in Waiting(w.table, ch);
    LineStays(w.log, w.table, Reopened(w.table), ch);
  }

  /** Without its quote, a row is another message: the server hasn't stored the first one. */
  lemma RetryKeeps(w: World, ch: ChannelId, cid: ClientId, dropReply: bool)
    requires Inv(w, ch) && w.pc.Free? && cid in Waiting(w.table, ch)
    ensures Inv(w.(table := Retried(w.table, cid, dropReply)), ch)
  {
    var t, t' := w.table, Retried(w.table, cid, dropReply);
    if t.rows[cid].state.Failed? {
      assert forall c :: c in Waiting(t', ch) <==> c in Waiting(t, ch);
      if Keeps(t.rows[cid], t'.rows[cid]) {
        OneRowChanges(w.log, t, ch, cid, t'.rows[cid]);
      } else {
        assert !Stored(w.log, cid);
        assert forall e :: e in w.log ==> e.cid != cid;
      }
    }
  }

  lemma RemovalKeeps(log: seq<Entry>, t: Table, ch: ChannelId, cid: ClientId)
    requires LineOk(log, t, ch) && RowsOk(log, t, ch)
    ensures LineOk(log, Removed(t, cid), ch) && RowsOk(log, Removed(t, cid), ch)
  {
    LineStays(log, t, Removed(t, cid), ch);
  }

  // ---- Direct sends ----

  lemma StartDirectKeeps(w: World, ch: ChannelId, cid: ClientId, body: string, reply: Option<MessageId>)
    requires Inv(w, ch) && Waiting(w.table, ch) == {}
    ensures Inv(w.(pc := Direct(Entry(cid, w.table.next, body, reply, [], true))), ch)
  {
  }

  lemma StoredAfter(log: seq<Entry>, e: Entry, cid: ClientId)
    ensures Stored(log + [e], cid) <==> Stored(log, cid) || e.cid == cid
  {
    if Stored(log, cid) {
      var i :| 0 <= i < |log| && log[i].cid == cid;
      assert (log + [e])[i].cid == cid;
    }
    assert (log + [e])[|log|] == e;
  }

  /** A new entry behind everything stored and ahead of everything waiting. */
  lemma LogGrows(log: seq<Entry>, t: Table, ch: ChannelId, e: Entry)
    requires LogOk(log) && LineOk(log, t, ch) && !Stored(log, e.cid)
    requires forall f :: f in log ==> Precedes(f, e)
    requires e.ordinal < t.next || (e.direct && e.ordinal == t.next)
    requires forall c :: c in Waiting(t, ch) ==>
      e.ordinal < t.rows[c].ordinal || (e.ordinal == t.rows[c].ordinal && (e.direct || e.cid == c))
    requires !e.direct && e.cid in Waiting(t, ch) && e.ordinal == t.rows[e.cid].ordinal ==> SameMessage(e, t.rows[e.cid])
    ensures LogOk(log + [e]) && LineOk(log + [e], t, ch)
  {
    forall i | 0 <= i < |log|
      ensures Precedes(log[i], e) && log[i].cid != e.cid
    {
      assert log[i] in log;
    }
  }

  lemma PostDirectKeeps(w: World, ch: ChannelId, takes: bool)
    requires Inv(w, ch) && w.pc.Direct?
    ensures Inv(w.(log := if takes then Taken(w.log, w.pc.entry) else w.log, pc := Free), ch)
  {
    var e := w.pc.entry;
    if takes && !Stored(w.log, e.cid) {
      LogGrows(w.log, w.table, ch, e);
      forall c | c in Waiting(w.table, ch)
        ensures RowOk(w.log + [e], c, w.table.rows[c])
      {
        StoredAfter(w.log, e, c);
      }
    }
  }

  // ---- The attempt ----

  lemma PickKeeps(w: World, ch: ChannelId, cid: ClientId)
    requires Inv(w, ch) && Enabled(w, ch, Pick(cid))
    ensures Inv(w.(pc := Took(PickedTry(w, cid))), ch)
  {
  }

  /** Writing the row of an attempt that then lets go. */
  lemma WriteKeeps(w: World, ch: ChannelId, ok: bool, state: State, error: Option<string>)
    requires Inv(w, ch) && InAttempt(w.pc)
    requires ok ==> RowOk(w.log, w.pc.a.cid, w.table.rows[w.pc.a.cid].(state := state, error := error))
    ensures Inv(w.(table := WrittenIf(ok, w.table, w.pc.a.cid, state, error), pc := Free), ch)
  {
    if ok {
      var cid := w.pc.a.cid;
      OneRowChanges(w.log, w.table, ch, cid, w.table.rows[cid].(state := state, error := error));
    }
  }

  lemma BackOffKeeps(w: World, ch: ChannelId, ok: bool)
    requires Inv(w, ch) && InAttempt(w.pc)
    ensures Inv(w.(table := WrittenIf(ok, w.table, w.pc.a.cid, WaitingState(w.pc.a), None), pc := Free), ch)
  {
    WriteKeeps(w, ch, ok, WaitingState(w.pc.a), None);
  }

  lemma FailKeeps(w: World, ch: ChannelId, code: string, ok: bool)
    requires Inv(w, ch) && InAttempt(w.pc)
    requires code == REPLY_TARGET_GONE ==> !Stored(w.log, w.pc.a.cid)
    ensures Inv(RowFails(w, w.pc.a.cid, code, ok), ch)
  {
    WriteKeeps(w, ch, ok, Failed, Some(code));
  }

  lemma SendingKeeps(w: World, ch: ChannelId, ok: bool)
    requires Inv(w, ch) && w.pc.Took?
    ensures Inv(Do(w, ch, MarkSending(ok)), ch)
  {
    if !w.pc.a.accepted && ok {
      var cid := w.pc.a.cid;
      var r := w.table.rows[cid].(state := Sending, error := None);
      OneRowChanges(w.log, w.table, ch, cid, r);
      HeadStays(w.table, ch, cid, r, cid);
    }
  }

  lemma {:induction false} KnownAreAll(files: seq<File>)
    requires AllUploaded(files)
    ensures KnownIds(files) == Ids(files)
  {
    if files != [] {
      KnownAreAll(files[..|files| - 1]);
      assert Ids(files) == Ids(files[..|files| - 1]) + [files[|files| - 1].id.value];
    }
  }

  lemma ReadFilesKeeps(w: World, ch: ChannelId)
    requires Inv(w, ch) && w.pc.Ready?
    ensures Inv(FilesRead(w), ch)
  {
    var r := w.table.rows[w.pc.a.cid];
    if w.pc.a.accepted {
      KnownAreAll(r.files);
    }
  }

  lemma UploadKeeps(w: World, ch: ChannelId, id: ServerFile, ok: bool)
    requires Inv(w, ch) && w.pc.Uploading? && |w.pc.ids| < |w.pc.files|
    ensures Inv(UploadedOne(w, id, ok), ch)
  {
    var cid, i := w.pc.a.cid, |w.pc.ids|;
    if w.pc.files[i].id.Some? {
    } else if ok {
      var r := w.table.rows[cid];
      var r' := r.(files := r.files[i := r.files[i].(id := Some(id), error := None)]);
      OneRowChanges(w.log, w.table, ch, cid, r');
      HeadStays(w.table, ch, cid, r', cid);
    } else {
      BackOffKeeps(w, ch, true);
    }
  }

  lemma UploadFailsKeeps(w: World, ch: ChannelId, code: string, ok: bool)
    requires Inv(w, ch) && w.pc.Uploading? && code != REPLY_TARGET_GONE
    ensures Inv(UploadFailed(w, code, ok), ch)
  {
    var cid, i := w.pc.a.cid, |w.pc.ids|;
    var r := w.table.rows[cid];
    if code == CANCELLED || i >= |r.files| {
      FailKeeps(w, ch, code, ok);
    } else {
      var r' := r.(files := r.files[i := r.files[i].(error := Some(code))]);
      OneRowChanges(w.log, w.table, ch, cid, r');
      HeadStays(w.table, ch, cid, r', cid);
      FailKeeps(w.(table := Changed(w.table, cid, r')), ch, code, ok);
    }
  }

  lemma AttachKeeps(w: World, ch: ChannelId, cancelled: bool, ok: bool)
    requires Inv(w, ch) && w.pc.Uploading? && |w.pc.ids| == |w.pc.files|
    ensures Inv(Attached(w, cancelled, ok), ch)
  {
    if !Distinct(w.pc.ids) {
      FailKeeps(w, ch, DUPLICATE_FILE, ok);
    } else if cancelled {
      FailKeeps(w, ch, CANCELLED, ok);
    }
  }

  lemma PostKeeps(w: World, ch: ChannelId, takes: bool, answer: Answer)
    requires Inv(w, ch) && Enabled(w, ch, Post(takes, answer))
    ensures Inv(Posted(w, takes, answer), ch)
  {
    var cid := w.pc.a.cid;
    var r := w.table.rows[cid];
    var e := Entry(cid, r.ordinal, w.pc.a.body, w.pc.a.reply, w.pc.ids, false);
    if takes && !Stored(w.log, cid) {
      forall f | f in w.log
        ensures Precedes(f, e)
      {
        var i :| 0 <= i < |w.log| && w.log[i] == f;
        assert f.cid != cid;
      }
      LogGrows(w.log, w.table, ch, e);
      forall c | c in Waiting(w.table, ch)
        ensures RowOk(w.log + [e], c, w.table.rows[c])
      {
        StoredAfter(w.log, e, c);
      }
      StoredAfter(w.log, e, cid);
    }
  }

  lemma DropKeeps(w: World, ch: ChannelId, removed: bool, ok: bool)
    requires Inv(w, ch) && w.pc.Answered? && (w.pc.a.accepted || Stored(w.log, w.pc.a.cid))
    ensures Inv(w.(table := RowDropped(w.table, w.pc.a, removed, ok), pc := Free), ch)
  {
    if removed {
      RemovalKeeps(w.log, w.table, ch, w.pc.a.cid);
    } else if !w.pc.a.accepted {
      WriteKeeps(w, ch, ok, Accepted, None);
    }
  }

  lemma ReattachKeeps(w: World, ch: ChannelId, ok: bool)
    requires Inv(w, ch) && w.pc.Answered? && Reattaches(w)
    ensures Inv(Reattached(w, ok), ch)
  {
    var cid := w.pc.a.cid;
    if !ok {
      BackOffKeeps(w, ch, true);
    } else {
      var t, t' := w.table, Detached(w.table, cid);
      assert forall c :: c in Waiting(t', ch) <==> c in Waiting(t, ch);
      assert forall e :: e in w.log ==> e.cid != cid;
      HeadStays(t, ch, cid, t'.rows[cid], cid);
    }
  }

  lemma SettleKeeps(w: World, ch: ChannelId, acked: bool, removed: bool, ok: bool)
    requires Inv(w, ch) && w.pc.Answered?
    ensures Inv(Settled(w, acked, removed, ok), ch)
  {
    var a := w.pc.a;
    if w.session != Some(a.epoch) {
      BackOffKeeps(w, ch, ok);
    } else if Reattaches(w) {
      ReattachKeeps(w, ch, ok);
    } else {
      match w.pc.answer
      case Ok(echo) =>
        if echo != a.cid {
          FailKeeps(w, ch, ECHO_MISMATCH, ok);
        } else if !acked && !a.accepted {
          WriteKeeps(w, ch, ok, Accepted, None);
        } else {
          DropKeeps(w, ch, removed, ok);
        }
      case Refused(code) =>
        if a.accepted {
          DropKeeps(w, ch, removed, ok);
        } else {
          FailKeeps(w, ch, code, ok);
        }
      case Transient => BackOffKeeps(w, ch, ok);
    }
  }

  lemma StepKeeps(w: World, ch: ChannelId, act: Action)
    requires Inv(w, ch) && Enabled(w, ch, act)
    ensures Inv(Do(w, ch, act), ch)
  {
    match act
    case Elsewhere(t) => ElsewhereKeeps(w, ch, t);
    case Session(_) =>
    case Enqueue(cid, body, reply, names) => EnqueueKeeps(w, ch, cid, body, reply, names);
    case Restart => RestartKeeps(w, ch);
    case Retry(cid, dropReply) => RetryKeeps(w, ch, cid, dropReply);
    case Delete(cid) => RemovalKeeps(w.log, w.table, ch, cid);
    case Pick(cid) => PickKeeps(w, ch, cid);
    case MarkSending(ok) => SendingKeeps(w, ch, ok);
    case BackOff(ok) => BackOffKeeps(w, ch, ok);
    case ReadFiles => ReadFilesKeeps(w, ch);
    case Upload(id, ok) => UploadKeeps(w, ch, id, ok);
    case UploadFails(code, ok) => UploadFailsKeeps(w, ch, code, ok);
    case Attach(cancelled, ok) => AttachKeeps(w, ch, cancelled, ok);
    case Post(takes, answer) => PostKeeps(w, ch, takes, answer);
    case Settle(acked, removed, ok) => SettleKeeps(w, ch, acked, removed, ok);
    case StartDirect(cid, body, reply) => StartDirectKeeps(w, ch, cid, body, reply);
    case PostDirect(takes) => PostDirectKeeps(w, ch, takes);
  }
}
