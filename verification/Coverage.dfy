/** core/src/coverage.rs: per channel, the contiguous range of messages the cache holds. */
module Coverage {
  import opened Tables

  lemma {:induction false} HasGreatest(ids: set<MessageId>)
    requires ids != {}
    ensures exists m :: m in ids && forall y :: y in ids ==> y <= m
    decreases |ids|
  {
    Inhabited(ids);
    var x :| x in ids;
    if ids == {x} {
      assert x in ids && forall y :: y in ids ==> y <= x;
    } else {
      var rest := ids - {x};
      assert rest != {} by { assert ids == rest + {x}; }
      HasGreatest(rest);
      var m :| m in rest && forall y :: y in rest ==> y <= m;
      var top := if x > m then x else m;
      assert top in ids && forall y :: y in ids ==> y <= top;
    }
  }

  function Max(ids: set<MessageId>): (m: MessageId)
    requires ids != {}
    ensures m in ids && forall y :: y in ids ==> y <= m
  {
    HasGreatest(ids);
    var m :| m in ids && forall y :: y in ids ==> y <= m; m
  }

  lemma {:induction false} HasLeast(ids: set<MessageId>)
    requires ids != {}
    ensures exists m :: m in ids && forall y :: y in ids ==> m <= y
    decreases |ids|
  {
    Inhabited(ids);
    var x :| x in ids;
    if ids == {x} {
      assert x in ids && forall y :: y in ids ==> x <= y;
    } else {
      var rest := ids - {x};
      assert rest != {} by { assert ids == rest + {x}; }
      HasLeast(rest);
      var m :| m in rest && forall y :: y in rest ==> m <= y;
      var least := if x < m then x else m;
      assert least in ids && forall y :: y in ids ==> least <= y;
    }
  }

  function Min(ids: set<MessageId>): (m: MessageId)
    requires ids != {}
    ensures m in ids && forall y :: y in ids ==> m <= y
  {
    HasLeast(ids);
    var m :| m in ids && forall y :: y in ids ==> m <= y; m
  }

  function IdSet(ids: seq<MessageId>): set<MessageId> {
    set id | id in ids
  }

  function Held(coverage: map<ChannelId, Range>, c: ChannelId): Option<Range> {
    if c in coverage then Some(coverage[c]) else None
  }

  function Stored(coverage: map<ChannelId, Range>, c: ChannelId, range: Option<Range>): map<ChannelId, Range> {
    match range
    case None => coverage
    case Some(r) => coverage[c := r]
  }

  /** The two ranges share an id or lie around each other: together they are one interval. */
  predicate Overlap(r: Range, oldest: MessageId, newest: MessageId) {
    r.newest.Some? && r.oldest.Some? && r.newest.value >= oldest && newest >= r.oldest.value
  }

  /** The newest page (no `before`) was merged: it defines the range, or joins the held one. */
  function HeadRange(held: Option<Range>, ids: seq<MessageId>, limit: nat): Option<Range> {
    var complete := |ids| < limit;
    if ids == [] then
      match held
      case None => Some(Range(None, None, true))
      case Some(r) => if r.newest.None? then Some(r.(complete := true)) else held
    else
      assert ids[0] in IdSet(ids);
      var newest, oldest := Max(IdSet(ids)), Min(IdSet(ids));
      match held
      case None => Some(Range(Some(newest), Some(oldest), complete))
      case Some(r) =>
        if r.oldest.Some? && newest < r.oldest.value then held
        else
          var top := if r.newest.Some? && r.newest.value > newest then r.newest.value else newest;
          if Overlap(r, oldest, newest) then
            Some(Range(Some(top), Some(if r.oldest.value < oldest then r.oldest.value else oldest), r.complete || complete))
          else Some(Range(Some(top), Some(oldest), complete))
  }

  /** The page below the range (`before` is its bottom) was merged: the range reaches down. */
  function OlderRange(held: Option<Range>, before: MessageId, ids: seq<MessageId>, limit: nat): Option<Range> {
    match held
    case None => None
    case Some(r) =>
      if r.oldest != Some(before) then held
      else if ids == [] then Some(r.(complete := r.complete || |ids| < limit))
      else
        assert ids[0] in IdSet(ids);
        Some(r.(oldest := Some(Min(IdSet(ids))), complete := r.complete || |ids| < limit))
  }

  /** The cached messages a completed sync's snapshot accounts for. */
  function Accounted(messages: map<MessageId, Message>, c: ChannelId, cursor: Stamp): set<MessageId> {
    set id | id in messages && messages[id].channel == c && 0 < messages[id].stamp <= cursor
  }

  function SettledRange(r: Range, accounted: set<MessageId>): Range {
    if accounted == {} || (r.newest.Some? && Max(accounted) <= r.newest.value) then r
    else r.(newest := Some(Max(accounted)), oldest := if r.oldest.Some? then r.oldest else Some(Min(accounted)))
  }

  function SettledTops(db: Db, cursor: Stamp): Db {
    db.(coverage := map c | c in db.coverage :: SettledRange(db.coverage[c], Accounted(db.messages, c, cursor)))
  }

  method RecordHead(tx: Tx, c: ChannelId, ids: seq<MessageId>, limit: nat)
    modifies tx`coverage
    ensures tx.coverage == Stored(old(tx.coverage), c, HeadRange(Held(old(tx.coverage), c), ids, limit))
  {
    var complete := |ids| < limit;
    if ids == [] {
      if c !in tx.coverage {
        tx.coverage := tx.coverage[c := Range(None, None, true)];
      } else if tx.coverage[c].newest.None? {
        tx.coverage := tx.coverage[c := tx.coverage[c].(complete := true)];
      }
      return;
    }
    assert ids[0] in IdSet(ids);
    var newest, oldest := Max(IdSet(ids)), Min(IdSet(ids));
    if c !in tx.coverage {
      tx.coverage := tx.coverage[c := Range(Some(newest), Some(oldest), complete)];
      return;
    }
    var held := tx.coverage[c];
    if held.oldest.Some? && newest < held.oldest.value {
      return;
    }
    if Overlap(held, oldest, newest) {
      oldest, complete := (if held.oldest.value < oldest then held.oldest.value else oldest), held.complete || complete;
    }
    if held.newest.Some? && held.newest.value > newest {
      newest := held.newest.value;
    }
    tx.coverage := tx.coverage[c := Range(Some(newest), Some(oldest), complete)];
  }

  method RecordOlder(tx: Tx, c: ChannelId, before: MessageId, ids: seq<MessageId>, limit: nat)
    modifies tx`coverage
    ensures tx.coverage == Stored(old(tx.coverage), c, OlderRange(Held(old(tx.coverage), c), before, ids, limit))
  {
    if c !in tx.coverage {
      return;
    }
    var r := tx.coverage[c];
    if r.oldest != Some(before) {
      return;
    }
    var oldest := r.oldest;
    if ids != [] {
      assert ids[0] in IdSet(ids);
      oldest := Some(Min(IdSet(ids)));
    }
    tx.coverage := tx.coverage[c := r.(oldest := oldest, complete := r.complete || |ids| < limit)];
  }

  method SettleTops(tx: Tx, cursor: Stamp)
    modifies tx`coverage
    ensures tx.View() == SettledTops(old(tx.View()), cursor)
  {
    tx.coverage := map c | c in tx.coverage :: SettledRange(tx.coverage[c], Accounted(tx.messages, c, cursor));
  }
}
