/** What the queue promises over whole runs: messages are first stored in the order they were queued,
    none is lost, and an accepted one is sent for good. */
module OutboxTheorems {
  import opened Tables
  import opened Outbox
  import opened OutboxRuns
  import opened OutboxInvariants

  lemma {:induction false} RunKeeps(ch: ChannelId, acts: seq<Action>)
    requires Runs(START, ch, acts)
    ensures Inv(After(START, ch, acts), ch)
  {
    if acts == [] {
      StartInv(ch);
    } else {
      RunKeeps(ch, acts[..|acts| - 1]);
      StepKeeps(After(START, ch, acts[..|acts| - 1]), ch, acts[|acts| - 1]);
    }
  }

  // ---- Order ----

  lemma StepCounts(w: World, ch: ChannelId, act: Action)
    requires Enabled(w, ch, act)
    ensures w.table.next <= Do(w, ch, act).table.next
  {
  }

  lemma {:induction false} OrdinalsGrow(ch: ChannelId, acts: seq<Action>, n: nat)
    requires Runs(START, ch, acts) && n <= |acts|
    ensures Runs(START, ch, acts[..n])
    ensures After(START, ch, acts[..n]).table.next <= After(START, ch, acts).table.next
  {
    if n < |acts| {
      OrdinalsGrow(ch, acts[..|acts| - 1], n);
      assert acts[..|acts| - 1][..n] == acts[..n];
      StepCounts(After(START, ch, acts[..|acts| - 1]), ch, acts[|acts| - 1]);
    } else {
      assert acts[..n] == acts;
    }
  }

  /** The `n`th action commits a new row; its place in line. */
  ghost predicate Commits(ch: ChannelId, acts: seq<Action>, n: nat, ordinal: nat) {
    && n < |acts| && Runs(START, ch, acts[..n]) && acts[n].Enqueue?
    && acts[n].cid !in After(START, ch, acts[..n]).table.rows
    && ordinal == After(START, ch, acts[..n]).table.next
  }

  /** The `n`th action starts a direct send, stamped with the next place in line. */
  ghost predicate StartsDirect(ch: ChannelId, acts: seq<Action>, n: nat, stamp: nat) {
    && n < |acts| && Runs(START, ch, acts[..n]) && acts[n].StartDirect?
    && stamp == After(START, ch, acts[..n]).table.next
  }

  /** A row committed earlier has a smaller place than what comes after. */
  lemma EarlierIsSmaller(ch: ChannelId, acts: seq<Action>, i: nat, j: nat, x: nat)
    requires Runs(START, ch, acts) && i < j <= |acts| && Commits(ch, acts, i, x)
    ensures Runs(START, ch, acts[..j]) && x < After(START, ch, acts[..j]).table.next
  {
    PrefixRuns(START, ch, acts, j);
    OrdinalsGrow(ch, acts[..j], i + 1);
    assert acts[..j][..i + 1] == acts[..i + 1] && acts[..i + 1][..i] == acts[..i];
  }

  /** Of two stored messages, the one stored first precedes the other. */
  lemma StoredInLine(log: seq<Entry>, p: nat, q: nat)
    requires LogOk(log) && p < |log| && q < |log|
    ensures p < q ==> Precedes(log[p], log[q])
    ensures q < p ==> Precedes(log[q], log[p])
  {
  }

  /** If one row was committed before another and the server stores both, the first is first stored
      before the second, whatever was lost, cut short, retried or deleted in between. */
  lemma FirstStoredInOrder(ch: ChannelId, acts: seq<Action>, i: nat, j: nat, x: nat, y: nat, p: nat, q: nat)
    requires Runs(START, ch, acts) && i < j && Commits(ch, acts, i, x) && Commits(ch, acts, j, y)
    requires
      var log := After(START, ch, acts).log;
      && p < |log| && !log[p].direct && log[p].ordinal == x
      && q < |log| && !log[q].direct && log[q].ordinal == y
    ensures p < q
  {
    RunKeeps(ch, acts);
    EarlierIsSmaller(ch, acts, i, j, x);
    StoredInLine(After(START, ch, acts).log, p, q);
  }

  /** A direct send overtakes no row committed before it, and no row committed after it overtakes it. */
  lemma DirectKeepsItsPlace(ch: ChannelId, acts: seq<Action>, i: nat, k: nat, x: nat, s: nat, p: nat, q: nat)
    requires Runs(START, ch, acts) && Commits(ch, acts, i, x) && StartsDirect(ch, acts, k, s)
    requires
      var log := After(START, ch, acts).log;
      && p < |log| && !log[p].direct && log[p].ordinal == x
      && q < |log| && log[q].direct && log[q].ordinal == s
    ensures p < q <==> i < k
  {
    RunKeeps(ch, acts);
    StoredInLine(After(START, ch, acts).log, p, q);
    if i < k {
      EarlierIsSmaller(ch, acts, i, k, x);
    } else {
      assert i != k;
      PrefixRuns(START, ch, acts, i);
      OrdinalsGrow(ch, acts[..i], k);
      assert acts[..i][..k] == acts[..k];
    }
  }

  /** The server stores a client id once. */
  lemma StoredOnce(ch: ChannelId, acts: seq<Action>, p: nat, q: nat)
    requires Runs(START, ch, acts) && p < q < |After(START, ch, acts).log|
    ensures After(START, ch, acts).log[p].cid != After(START, ch, acts).log[q].cid
  {
    RunKeeps(ch, acts);
  }

  // ---- No silent loss ----

  lemma LogStays(w: World, ch: ChannelId, act: Action, cid: ClientId)
    requires Enabled(w, ch, act) && Stored(w.log, cid)
    ensures Stored(Do(w, ch, act).log, cid)
  {
    var i :| 0 <= i < |w.log| && w.log[i].cid == cid;
    assert Do(w, ch, act).log[i].cid == cid;
  }

  /** A row leaves by the user's Delete, or once the server has its message. */
  lemma LeavesWhenSent(w: World, ch: ChannelId, act: Action, cid: ClientId)
    requires Inv(w, ch) && Enabled(w, ch, act) && cid in Waiting(w.table, ch)
    ensures cid in Waiting(Do(w, ch, act).table, ch) || act == Delete(cid) || Stored(Do(w, ch, act).log, cid)
  {
    if act.Elsewhere? {
      assert cid in Waiting(act.t, ch);
    }
  }

  /** Once queued, a message is waiting, stored, or deleted by the user. */
  lemma {:induction false} NothingIsLost(ch: ChannelId, acts: seq<Action>, n: nat, cid: ClientId)
    requires Runs(START, ch, acts) && n <= |acts| && Runs(START, ch, acts[..n])
    requires cid in Waiting(After(START, ch, acts[..n]).table, ch)
    ensures
      var w := After(START, ch, acts);
      cid in Waiting(w.table, ch) || Stored(w.log, cid) || Delete(cid) in acts[n..]
  {
    if n == |acts| {
      assert acts[..n] == acts;
    } else {
      var rest, last := acts[..|acts| - 1], acts[|acts| - 1];
      assert rest[..n] == acts[..n];
      NothingIsLost(ch, rest, n, cid);
      assert acts[n..] == rest[n..] + [last];
      RunKeeps(ch, rest);
      var w := After(START, ch, rest);
      if Stored(w.log, cid) {
        LogStays(w, ch, last, cid);
      } else if cid in Waiting(w.table, ch) {
        LeavesWhenSent(w, ch, last, cid);
      }
    }
  }

  // ---- Accepted ----

  /** The server answers an accepted row with another message's id. */
  predicate Mismatched(w: World, act: Action, cid: ClientId) {
    && act.Settle? && act.ok && w.pc.Answered? && w.pc.a.cid == cid
    && w.session == Some(w.pc.a.epoch) && w.pc.answer.Ok? && w.pc.answer.echo != cid
  }

  /** `Accepted`: the server has the message and every file of it. */
  lemma AcceptedIsSent(ch: ChannelId, acts: seq<Action>, cid: ClientId)
    requires Runs(START, ch, acts) && cid in Waiting(After(START, ch, acts).table, ch)
    requires After(START, ch, acts).table.rows[cid].state.Accepted?
    ensures Stored(After(START, ch, acts).log, cid)
    ensures AllUploaded(After(START, ch, acts).table.rows[cid].files)
  {
    RunKeeps(ch, acts);
  }

  lemma AcceptedSettles(w: World, ch: ChannelId, act: Action, cid: ClientId)
    requires Inv(w, ch) && Enabled(w, ch, act) && act.Settle?
    requires cid in Waiting(w.table, ch) && w.table.rows[cid].state.Accepted?
    ensures
      var t := Do(w, ch, act).table;
      cid in Waiting(t, ch) && !t.rows[cid].state.Accepted? <==> Mismatched(w, act, cid)
  {
  }

  /** An accepted row that stays is still accepted, except when the server's echo names another
      message: then it fails. */
  lemma AcceptedStays(w: World, ch: ChannelId, act: Action, cid: ClientId)
    requires Inv(w, ch) && Enabled(w, ch, act)
    requires cid in Waiting(w.table, ch) && w.table.rows[cid].state.Accepted?
    ensures
      var t := Do(w, ch, act).table;
      cid in Waiting(t, ch) && !t.rows[cid].state.Accepted? <==> Mismatched(w, act, cid)
  {
    if act.Settle? {
      AcceptedSettles(w, ch, act, cid);
    }
  }

  /** Every acknowledgement echoes the id it was sent. */
  predicate EchoesOwn(w: World, act: Action) {
    act.Post? && act.answer.Ok? && w.pc.Posting? ==> act.answer.echo == w.pc.a.cid
  }

  ghost predicate Faithful(ch: ChannelId, acts: seq<Action>)
    requires Runs(START, ch, acts)
  {
    acts != [] ==>
      && Faithful(ch, acts[..|acts| - 1])
      && EchoesOwn(After(START, ch, acts[..|acts| - 1]), acts[|acts| - 1])
  }

  predicate OwnEcho(w: World) {
    w.pc.Answered? && w.pc.answer.Ok? ==> w.pc.answer.echo == w.pc.a.cid
  }

  lemma EchoStep(w: World, ch: ChannelId, act: Action)
    requires Enabled(w, ch, act) && OwnEcho(w) && EchoesOwn(w, act)
    ensures OwnEcho(Do(w, ch, act))
  {
  }

  lemma {:induction false} EchoesMatch(ch: ChannelId, acts: seq<Action>)
    requires Runs(START, ch, acts) && Faithful(ch, acts)
    ensures OwnEcho(After(START, ch, acts))
  {
    if acts != [] {
      EchoesMatch(ch, acts[..|acts| - 1]);
      EchoStep(After(START, ch, acts[..|acts| - 1]), ch, acts[|acts| - 1]);
    }
  }

  /** Places are never reused: a row at an old place was there before. */
  lemma PlaceIsOld(w: World, ch: ChannelId, act: Action, cid: ClientId)
    requires Enabled(w, ch, act) && cid in Waiting(Do(w, ch, act).table, ch)
    requires Do(w, ch, act).table.rows[cid].ordinal < w.table.next
    ensures cid in Waiting(w.table, ch) && w.table.rows[cid].ordinal == Do(w, ch, act).table.rows[cid].ordinal
  {
    if act.Elsewhere? {
      assert cid in Waiting(act.t, ch);
    }
  }

  /** With a server that echoes the id it was sent, an accepted row never becomes pending, sending or
      failed: it is accepted until it goes. */
  lemma {:induction false} AcceptedForGood(ch: ChannelId, acts: seq<Action>, n: nat, cid: ClientId)
    requires Runs(START, ch, acts) && Faithful(ch, acts) && n <= |acts| && Runs(START, ch, acts[..n])
    requires
      var was := After(START, ch, acts[..n]).table;
      cid in Waiting(was, ch) && was.rows[cid].state.Accepted?
    ensures
      var was, now := After(START, ch, acts[..n]).table, After(START, ch, acts).table;
      cid in Waiting(now, ch) && now.rows[cid].ordinal == was.rows[cid].ordinal ==> now.rows[cid].state.Accepted?
  {
    if n == |acts| {
      assert acts[..n] == acts;
    } else {
      var rest, last := acts[..|acts| - 1], acts[|acts| - 1];
      assert rest[..n] == acts[..n];
      AcceptedForGood(ch, rest, n, cid);
      RunKeeps(ch, rest[..n]);
      OrdinalsGrow(ch, rest, n);
      RunKeeps(ch, rest);
      EchoesMatch(ch, rest);
      var w := After(START, ch, rest);
      if cid in Waiting(Do(w, ch, last).table, ch) && Do(w, ch, last).table.rows[cid].ordinal == After(START, ch, acts[..n]).table.rows[cid].ordinal {
        PlaceIsOld(w, ch, last, cid);
        AcceptedStays(w, ch, last, cid);
      }
    }
  }

  // ---- What was stored ----

  /** What the server stored for a row that still waits is the row's own text, its own reply target,
      and all its files, in order. */
  lemma StoredAsQueued(ch: ChannelId, acts: seq<Action>, cid: ClientId, e: Entry)
    requires Runs(START, ch, acts)
    requires
      var w := After(START, ch, acts);
      && e in w.log && cid in Waiting(w.table, ch) && !e.direct && e.ordinal == w.table.rows[cid].ordinal
    ensures e.cid == cid && SameMessage(e, After(START, ch, acts).table.rows[cid])
  {
    RunKeeps(ch, acts);
  }
}
