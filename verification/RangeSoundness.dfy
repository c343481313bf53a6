/** What a channel's covered range claims, and what each change of the range needs to keep the claim
    true. `cached` are the cached ids, `alive` the server's surviving messages of the channel, `last`
    the newest id it has made anywhere; `start` is the id the channel's live delivery starts after. */
module RangeSoundness {
  import opened Tables
  import opened Coverage

  /** Every surviving message in the range is cached; below it too, once it reaches the start. */
  predicate Claims(r: Range, cached: set<MessageId>, alive: set<MessageId>) {
    forall y :: y in alive && r.newest.Some? && y <= r.newest.value && (r.complete || (r.oldest.Some? && r.oldest.value <= y))
      ==> y in cached
  }

  /** The range holds what it claims, and what is above it came after the channel's start. */
  predicate RangeOk(r: Range, cached: set<MessageId>, alive: set<MessageId>, start: MessageId, last: MessageId) {
    && r.newest.Some? == r.oldest.Some?
    && (r.newest.None? ==> r.complete)
    && (r.newest.Some? ==> r.oldest.value <= r.newest.value <= last)
    && start <= last
    && Claims(r, cached, alive)
    && (forall y :: y in alive && (r.newest.None? || y > r.newest.value) ==> y > start)
  }

  /** The server goes on: messages die, new ones get new ids; the cache keeps what it has. */
  lemma RangeStaysOk(r: Range, cached: set<MessageId>, alive: set<MessageId>, start: MessageId, last: MessageId,
                     cached': set<MessageId>, alive': set<MessageId>, last': MessageId)
    requires RangeOk(r, cached, alive, start, last)
    requires cached <= cached' && last <= last'
    requires forall y :: y in alive' ==> y in alive || y > last
    ensures RangeOk(r, cached', alive', start, last')
  {
  }

  /** A page as the server answered it when its newest id was `at`: the newest `limit` survivors
      below `before`. Seen later, when fewer of them survive. */
  predicate PageOf(ids: seq<MessageId>, limit: nat, before: Option<MessageId>, alive: set<MessageId>, at: MessageId) {
    && (forall id :: id in ids ==> id <= at && (before.Some? ==> id < before.value))
    && (forall y :: y in alive && y <= at && (before.Some? ==> y < before.value) && y !in ids ==>
          |ids| >= limit && forall id :: id in ids ==> y < id)
  }

  lemma HeadKeepsOk(held: Option<Range>, ids: seq<MessageId>, limit: nat, cached: set<MessageId>, alive: set<MessageId>,
                    start: MessageId, last: MessageId, at: MessageId)
    requires held.Some? ==> RangeOk(held.value, cached, alive, start, last)
    requires 1 <= limit && IdSet(ids) <= cached && start <= at <= last
    requires PageOf(ids, limit, None, alive, at)
    ensures HeadRange(held, ids, limit).Some?
    ensures RangeOk(HeadRange(held, ids, limit).value, cached, alive, start, last)
  {
    if ids != [] {
      assert ids[0] in IdSet(ids);
      assert forall id :: id in ids <==> id in IdSet(ids);
    }
  }

  lemma OlderKeepsOk(held: Range, before: MessageId, ids: seq<MessageId>, limit: nat, cached: set<MessageId>, alive: set<MessageId>,
                     start: MessageId, last: MessageId, at: MessageId)
    requires RangeOk(held, cached, alive, start, last)
    requires 1 <= limit && IdSet(ids) <= cached
    requires PageOf(ids, limit, Some(before), alive, at)
    requires forall y :: y in alive && y < before ==> y <= at
    ensures RangeOk(OlderRange(Some(held), before, ids, limit).value, cached, alive, start, last)
  {
    if ids != [] {
      assert ids[0] in IdSet(ids);
      assert forall id :: id in ids <==> id in IdSet(ids);
    }
  }

  /** A completed sync: every survivor after the start, up to the newest accounted message, is
      cached. */
  lemma SettleKeepsOk(r: Range, accounted: set<MessageId>, cached: set<MessageId>, alive: set<MessageId>, start: MessageId, last: MessageId)
    requires RangeOk(r, cached, alive, start, last)
    requires accounted != {} ==> Max(accounted) <= last
    requires accounted != {} ==> forall y :: y in alive && start < y <= Max(accounted) ==> y in cached
    ensures RangeOk(SettledRange(r, accounted), cached, alive, start, last)
  {
  }
}
