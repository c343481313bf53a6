/** core/src/outbox.rs: the queue's table and its transactions. A row is a message waiting in its
    channel; `ordinal` (AUTOINCREMENT) is its place in line and is never used twice. */
module Outbox {
  import opened Tables

  type ClientId = int
  type FileName = int
  type ServerFile = int

  datatype State = Pending | Sending | Accepted | Failed

  /** `id`: the server's, once it is uploaded. */
  datatype File = File(name: FileName, id: Option<ServerFile>, error: Option<string>)

  datatype OutboxRow = OutboxRow(
    ordinal: nat, channel: ChannelId, body: string, reply: Option<MessageId>,
    state: State, error: Option<string>, files: seq<File>)

  /** `deletions`: the journal of snapshots to unlink. `next`: the next ordinal. */
  datatype Table = Table(rows: map<ClientId, OutboxRow>, deletions: set<FileName>, next: nat)

  const EMPTY_OUTBOX := Table(map[], {}, 1)

  const REPLY_TARGET_GONE := "message.reply_target_gone"
  const NOT_ATTACHABLE := "file.not_attachable"
  const ECHO_MISMATCH := "outbox.echo_mismatch"
  const DUPLICATE_FILE := "outbox.duplicate_file"
  const CANCELLED := "transfer.cancelled"

  // ---- What each transaction does ----

  function Changed(t: Table, cid: ClientId, r: OutboxRow): Table {
    t.(rows := t.rows[cid := r])
  }

  /** Rows a crash left `Sending` go back in line. */
  function Reopened(t: Table): Table {
    t.(rows := map c | c in t.rows :: if t.rows[c].state.Sending? then t.rows[c].(state := Pending) else t.rows[c])
  }

  function NewFiles(names: seq<FileName>): (files: seq<File>)
    ensures |files| == |names|
  {
    seq(|names|, i requires 0 <= i < |names| => File(names[i], None, None))
  }

  /** The first row with an id wins. */
  function Enqueued(t: Table, cid: ClientId, ch: ChannelId, body: string, reply: Option<MessageId>, names: seq<FileName>): Table {
    if cid in t.rows then t
    else Changed(t, cid, OutboxRow(t.next, ch, body, reply, Pending, None, NewFiles(names))).(next := t.next + 1)
  }

  function WithoutErrors(files: seq<File>): (r: seq<File>)
    ensures |r| == |files| && forall i :: 0 <= i < |r| ==> r[i].id == files[i].id && r[i].name == files[i].name
  {
    seq(|files|, i requires 0 <= i < |files| => files[i].(error := None))
  }

  /** A failed row goes back in line; without its quote only if it was refused because of it. */
  function Retried(t: Table, cid: ClientId, dropReply: bool): Table {
    if cid !in t.rows || t.rows[cid].state != Failed then t
    else
      var r := t.rows[cid].(files := WithoutErrors(t.rows[cid].files));
      if dropReply && r.error != Some(REPLY_TARGET_GONE) then Changed(t, cid, r)
      else Changed(t, cid, r.(state := Pending, error := None, reply := if dropReply then None else r.reply))
  }

  function Names(files: seq<File>): set<FileName> {
    set f | f in files :: f.name
  }

  function Removed(t: Table, cid: ClientId): Table {
    if cid in t.rows then t.(rows := t.rows - {cid}, deletions := t.deletions + Names(t.rows[cid].files)) else t
  }

  function WithState(t: Table, cid: ClientId, state: State, error: Option<string>): Table {
    if cid in t.rows then Changed(t, cid, t.rows[cid].(state := state, error := error)) else t
  }

  /** A file's `file_client_id` is unique: it names one place in one row. An id once known stays. */
  function WithFile(t: Table, cid: ClientId, i: nat, id: Option<ServerFile>, error: Option<string>): Table {
    if cid !in t.rows || i >= |t.rows[cid].files| then t
    else
      var f := t.rows[cid].files[i];
      Changed(t, cid, t.rows[cid].(files := t.rows[cid].files[i := f.(id := if id.Some? then id else f.id, error := error)]))
  }

  function WithoutIds(files: seq<File>): (r: seq<File>)
    ensures |r| == |files|
  {
    seq(|files|, i requires 0 <= i < |files| => files[i].(id := None))
  }

  /** The server swept the files: they are uploaded again. */
  function Detached(t: Table, cid: ClientId): Table {
    if cid in t.rows then Changed(t, cid, t.rows[cid].(files := WithoutIds(t.rows[cid].files))) else t
  }

  /** The channel's first row in line. */
  ghost predicate IsHead(t: Table, ch: ChannelId, cid: ClientId) {
    && cid in t.rows && t.rows[cid].channel == ch
    && forall c :: c in t.rows && t.rows[c].channel == ch ==> t.rows[cid].ordinal <= t.rows[c].ordinal
  }

  function Waiting(t: Table, ch: ChannelId): set<ClientId> {
    set c | c in t.rows && t.rows[c].channel == ch
  }

  lemma {:induction false} HasFirstInLine(rows: map<ClientId, OutboxRow>, ids: set<ClientId>)
    requires ids != {} && ids <= rows.Keys
    ensures exists c :: c in ids && forall d :: d in ids ==> rows[c].ordinal <= rows[d].ordinal
    decreases |ids|
  {
    Inhabited(ids);
    var x :| x in ids;
    if ids == {x} {
      assert x in ids && forall d :: d in ids ==> rows[x].ordinal <= rows[d].ordinal;
    } else {
      var rest := ids - {x};
      assert rest != {} by { assert ids == rest + {x}; }
      HasFirstInLine(rows, rest);
      var c :| c in rest && forall d :: d in rest ==> rows[c].ordinal <= rows[d].ordinal;
      var first := if rows[x].ordinal < rows[c].ordinal then x else c;
      assert first in ids && forall d :: d in ids ==> rows[first].ordinal <= rows[d].ordinal;
    }
  }

  // ---- The store ----

  datatype Receipt = Queued | AlreadyQueued | IdInUse

  class Store {
    var rows: map<ClientId, OutboxRow>
    var deletions: set<FileName>
    var next: nat

    ghost function View(): Table
      reads this
    {
      Table(rows, deletions, next)
    }

    constructor ()
      ensures View() == EMPTY_OUTBOX
    {
      rows, deletions, next := map[], {}, 1;
    }

    /** The rows a crash left behind; the snapshots still to unlink. */
    method Reopen() returns (journal: set<FileName>)
      modifies this`rows
      ensures View() == Reopened(old(View())) && journal == deletions
    {
      rows := map c | c in rows :: if rows[c].state.Sending? then rows[c].(state := Pending) else rows[c];
      journal := deletions;
    }

    method Enqueue(cid: ClientId, ch: ChannelId, body: string, reply: Option<MessageId>, names: seq<FileName>) returns (r: Receipt)
      modifies this`rows, this`next
      ensures View() == Enqueued(old(View()), cid, ch, body, reply, names)
      ensures r == if cid !in old(rows) then Queued else if rows[cid].channel == ch then AlreadyQueued else IdInUse
    {
      if cid in rows {
        return if rows[cid].channel == ch then AlreadyQueued else IdInUse;
      }
      rows := rows[cid := OutboxRow(next, ch, body, reply, Pending, None, NewFiles(names))];
      next := next + 1;
      return Queued;
    }

    method Retry(cid: ClientId, dropReply: bool)
      modifies this`rows
      ensures View() == Retried(old(View()), cid, dropReply)
    {
      if cid in rows && rows[cid].state == Failed {
        rows := rows[cid := rows[cid].(files := WithoutErrors(rows[cid].files))];
      }
      if cid in rows && rows[cid].state == Failed && (!dropReply || rows[cid].error == Some(REPLY_TARGET_GONE)) {
        var reply := if dropReply then None else rows[cid].reply;
        rows := rows[cid := rows[cid].(state := Pending, error := None, reply := reply)];
      }
    }

    method RemoveRow(cid: ClientId) returns (state: Option<State>)
      modifies this`rows, this`deletions
      ensures View() == Removed(old(View()), cid)
      ensures state == if cid in old(rows) then Some(old(rows)[cid].state) else None
    {
      state := None;
      if cid in rows {
        state := Some(rows[cid].state);
        var files := rows[cid].files;
        assert Names(files[..0]) == {};
        for i := 0 to |files|
          invariant rows == old(rows) && deletions == old(deletions) + Names(files[..i])
        {
          assert files[..i + 1] == files[..i] + [files[i]];
          assert Names(files[..i + 1]) == Names(files[..i]) + {files[i].name};
          deletions := deletions + {files[i].name};
        }
        assert files[..|files|] == files;
        rows := rows - {cid};
      }
    }

    method SetState(cid: ClientId, state: State, error: Option<string>)
      modifies this`rows
      ensures View() == WithState(old(View()), cid, state, error)
    {
      if cid in rows {
        rows := rows[cid := rows[cid].(state := state, error := error)];
      }
    }

    method SetFile(cid: ClientId, i: nat, id: Option<ServerFile>, error: Option<string>)
      modifies this`rows
      ensures View() == WithFile(old(View()), cid, i, id, error)
    {
      if cid in rows && i < |rows[cid].files| {
        var f := rows[cid].files[i];
        rows := rows[cid := rows[cid].(files := rows[cid].files[i := f.(id := if id.Some? then id else f.id, error := error)])];
      }
    }

    method DetachFiles(cid: ClientId)
      modifies this`rows
      ensures View() == Detached(old(View()), cid)
    {
      if cid in rows {
        rows := rows[cid := rows[cid].(files := WithoutIds(rows[cid].files))];
      }
    }

    method NextRow(ch: ChannelId) returns (head: Option<ClientId>)
      ensures head.None? <==> Waiting(View(), ch) == {}
      ensures head.Some? ==> IsHead(View(), ch, head.value)
    {
      var ids := set c | c in rows && rows[c].channel == ch;
      assert ids == Waiting(View(), ch);
      if ids == {} {
        return None;
      }
      HasFirstInLine(rows, ids);
      var c :| c in ids && forall d :: d in ids ==> rows[c].ordinal <= rows[d].ordinal;
      return Some(c);
    }
  }
}
