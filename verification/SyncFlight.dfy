/** core/src/cache.rs `sync_now`: one sync run at a time, asked for by any number of callers at once.
    Each action is one atomic access to `again` or to the lock; callers interleave freely and each
    runs to its end. The log is history only: nothing reads it. */
module SyncFlight {
  import opened Tables
  import opened Coverage

  type Caller = int

  datatype Pc =
    | Trying      // about to try the lock
    | Looping     // owner, about to take `again`
    | Running     // owner, inside a run
    | Unlocking   // owner, about to let go
    | Checking    // let go, about to look at `again` once more
    | Done

  /** `Recorded`: a request was stored. */
  datatype Event = Recorded | Started(who: Caller) | Finished(who: Caller, ok: bool)

  datatype Flight = Flight(again: bool, owner: Option<Caller>, pcs: map<Caller, Pc>, log: seq<Event>)

  const IDLE := Flight(false, None, map[], [])

  datatype Action =
    | Call(k: Caller)
    | TryLock(k: Caller)
    | Swap(k: Caller)
    | ResetAsks(k: Caller)
    | RunEnds(k: Caller, ok: bool)
    | Unlock(k: Caller)
    | Check(k: Caller)

  predicate At(s: Flight, k: Caller, pc: Pc) {
    k in s.pcs && s.pcs[k] == pc
  }

  predicate Enabled(s: Flight, a: Action) {
    match a
    case Call(k) => k !in s.pcs
    case TryLock(k) => At(s, k, Trying)
    case Swap(k) => At(s, k, Looping)
    case ResetAsks(k) => At(s, k, Running)
    case RunEnds(k, _) => At(s, k, Running)
    case Unlock(k) => At(s, k, Unlocking)
    case Check(k) => At(s, k, Checking)
  }

  function Moved(s: Flight, k: Caller, pc: Pc): Flight {
    s.(pcs := s.pcs[k := pc])
  }

  function Logged(s: Flight, e: Event): Flight {
    s.(log := s.log + [e])
  }

  function Do(s: Flight, a: Action): Flight
    requires Enabled(s, a)
  {
    match a
    case Call(k) => Logged(Moved(s, k, Trying), Recorded).(again := true)
    case TryLock(k) => if s.owner.None? then Moved(s, k, Looping).(owner := Some(k)) else Moved(s, k, Done)
    case Swap(k) => if s.again then Logged(Moved(s, k, Running), Started(k)).(again := false) else Moved(s, k, Unlocking)
    case ResetAsks(k) => Logged(s, Recorded).(again := true)
    case RunEnds(k, ok) => Logged(Moved(s, k, if ok then Looping else Unlocking), Finished(k, ok))
    case Unlock(k) => Moved(s, k, Checking).(owner := None)
    case Check(k) => Moved(s, k, if s.again then Trying else Done)
  }

  predicate Runs(s: Flight, acts: seq<Action>)
    decreases |acts|, 0
  {
    acts != [] ==>
      Runs(s, acts[..|acts| - 1]) && Enabled(After(s, acts[..|acts| - 1]), acts[|acts| - 1])
  }

  function After(s: Flight, acts: seq<Action>): Flight
    requires Runs(s, acts)
    decreases |acts|, 1
  {
    if acts == [] then s else Do(After(s, acts[..|acts| - 1]), acts[|acts| - 1])
  }

  // ---- The log ----

  predicate InRun(log: seq<Event>) {
    log != [] && (log[|log| - 1].Started? || (log[|log| - 1].Recorded? && InRun(log[..|log| - 1])))
  }

  /** No run starts inside another, and only the run's owner ends it. */
  ghost predicate NoOverlap(log: seq<Event>) {
    forall i :: 0 <= i < |log| ==>
      && (log[i].Started? ==> !InRun(log[..i]))
      && (log[i].Finished? ==> InRun(log[..i]))
  }

  /** A request with no run started after it. */
  ghost predicate Unserved(log: seq<Event>, i: nat) {
    i < |log| && log[i].Recorded? && forall j :: i < j < |log| ==> !log[j].Started?
  }

  // ---- What every action keeps ----

  predicate Owning(pc: Pc) {
    pc.Looping? || pc.Running? || pc.Unlocking?
  }

  /** This caller will look at `again` before it returns. */
  predicate WillLook(s: Flight, k: Caller) {
    k in s.pcs && !s.pcs[k].Done?
  }

  /** The state behind the log: who owns the lock, and that `again` never stands unseen. */
  ghost predicate Seen(s: Flight) {
    && (forall k :: k in s.pcs && Owning(s.pcs[k]) <==> s.owner == Some(k))
    && (s.again ==> exists k :: WillLook(s, k))
  }

  lemma SeenStep(s: Flight, a: Action)
    requires Seen(s) && Enabled(s, a)
    ensures Seen(Do(s, a))
  {
    var after := Do(s, a);
    if s.again {
      var k :| WillLook(s, k);
      if a.TryLock? && s.owner.Some? {
        assert WillLook(after, s.owner.value);
      } else if a.Check? {
        assert WillLook(after, a.k);
      } else {
        assert after.again ==> WillLook(after, k);
      }
    } else if after.again {
      assert WillLook(after, a.k);
    }
  }

  lemma LogGrows(log: seq<Event>, e: Event)
    requires NoOverlap(log)
    requires e.Started? ==> !InRun(log)
    requires e.Finished? ==> InRun(log)
    ensures NoOverlap(log + [e])
    ensures InRun(log + [e]) == (e.Started? || (e.Recorded? && InRun(log)))
  {
    assert (log + [e])[..|log|] == log;
    forall i | 0 <= i < |log|
      ensures (log + [e])[..i] == log[..i] && (log + [e])[i] == log[i]
    {
    }
  }

  lemma UnservedGrows(log: seq<Event>, e: Event, i: nat)
    requires Unserved(log + [e], i)
    ensures !e.Started? && (i == |log| || Unserved(log, i))
  {
    assert (log + [e])[|log|] == e;
    if i < |log| {
      assert log[i] == (log + [e])[i];
      forall j | i < j < |log|
        ensures !log[j].Started?
      {
        assert log[j] == (log + [e])[j];
      }
    }
  }

  /** The owner is inside a run. */
  predicate Inside(s: Flight) {
    s.owner.Some? && At(s, s.owner.value, Running)
  }

  /** A run goes on exactly while its owner is inside it. */
  ghost predicate RunsApart(s: Flight) {
    NoOverlap(s.log) && (InRun(s.log) <==> Inside(s))
  }

  lemma InsideStep(s: Flight, a: Action)
    requires forall k :: k in s.pcs && Owning(s.pcs[k]) <==> s.owner == Some(k)
    requires Enabled(s, a)
    ensures Inside(Do(s, a)) == if a.Swap? then s.again else if a.RunEnds? then false else Inside(s)
    ensures a.Swap? ==> !Inside(s)
    ensures a.RunEnds? ==> Inside(s)
  {
  }

  lemma ApartStep(s: Flight, a: Action)
    requires Seen(s) && RunsApart(s) && Enabled(s, a)
    ensures RunsApart(Do(s, a))
  {
    InsideStep(s, a);
    match a
    case Call(_) => LogGrows(s.log, Recorded);
    case Swap(k) => if s.again { LogGrows(s.log, Started(k)); }
    case ResetAsks(_) => LogGrows(s.log, Recorded);
    case RunEnds(k, ok) => LogGrows(s.log, Finished(k, ok));
    case _ =>
  }

  ghost predicate Remembered(s: Flight) {
    (exists i :: Unserved(s.log, i)) ==> s.again
  }

  lemma RememberedStep(s: Flight, a: Action)
    requires Remembered(s) && Enabled(s, a)
    ensures Remembered(Do(s, a))
  {
    var after := Do(s, a);
    if after.log != s.log {
      if i :| Unserved(after.log, i) {
        UnservedGrows(s.log, after.log[|s.log|], i);
      }
    }
  }

  ghost predicate Inv(s: Flight) {
    Seen(s) && RunsApart(s) && Remembered(s)
  }

  lemma Step(s: Flight, a: Action)
    requires Inv(s) && Enabled(s, a)
    ensures Inv(Do(s, a))
  {
    SeenStep(s, a);
    ApartStep(s, a);
    RememberedStep(s, a);
  }

  lemma {:induction false} RunKeeps(acts: seq<Action>)
    requires Runs(IDLE, acts)
    ensures Inv(After(IDLE, acts))
  {
    if acts != [] {
      RunKeeps(acts[..|acts| - 1]);
      Step(After(IDLE, acts[..|acts| - 1]), acts[|acts| - 1]);
    }
  }

  /** Runs never overlap, whoever asks for them. */
  lemma {:induction false} RunsNeverOverlap(acts: seq<Action>)
    requires Runs(IDLE, acts)
    ensures NoOverlap(After(IDLE, acts).log)
    ensures forall j, k ::
      At(After(IDLE, acts), j, Running) && At(After(IDLE, acts), k, Running) ==> j == k
  {
    RunKeeps(acts);
    var s := After(IDLE, acts);
    assert forall k :: At(s, k, Running) ==> k in s.pcs && Owning(s.pcs[k]);
  }

  /** While a recorded request has no run after it, some caller will still look; once every caller
      has returned, a run was started after each request, also after runs that failed or reset. */
  lemma {:induction false} NoRequestIsLost(acts: seq<Action>, i: nat)
    requires Runs(IDLE, acts) && i < |After(IDLE, acts).log| && After(IDLE, acts).log[i].Recorded?
    ensures
      var s := After(IDLE, acts);
      || (exists j :: i < j < |s.log| && s.log[j].Started?)
      || (s.again && exists k :: WillLook(s, k))
  {
    RunKeeps(acts);
    var s := After(IDLE, acts);
    if forall j :: i < j < |s.log| ==> !s.log[j].Started? {
      assert Unserved(s.log, i);
    }
  }

  // ---- A request can always be served ----

  /** The caller whose turn it is: the owner, or else one that will look. */
  function NextMove(s: Flight, k: Caller): Action
    requires WillLook(s, k)
  {
    match s.pcs[k]
    case Trying => TryLock(k)
    case Looping => Swap(k)
    case Running => RunEnds(k, true)
    case Unlocking => Unlock(k)
    case _ => Check(k)
  }

  /** How many moves of this caller until it starts a run. */
  function MovesLeft(pc: Pc): nat {
    match pc
    case Looping => 1
    case Running => 2
    case Trying => 2
    case Checking => 3
    case _ => 4
  }

  lemma {:induction false} Extend(s: Flight, acts: seq<Action>, a: Action)
    requires Runs(s, acts) && Enabled(After(s, acts), a)
    ensures Runs(s, acts + [a]) && After(s, acts + [a]) == Do(After(s, acts), a)
  {
    assert (acts + [a])[..|acts|] == acts;
  }

  /** `k` can move: it owns the lock, or nobody does. */
  predicate MayMove(s: Flight, k: Caller) {
    && WillLook(s, k) && s.again && (s.owner.None? || s.owner == Some(k))
    && (Owning(s.pcs[k]) <==> s.owner == Some(k))
  }

  lemma MoveOn(s: Flight, k: Caller)
    requires MayMove(s, k) && !s.pcs[k].Looping?
    ensures Enabled(s, NextMove(s, k)) && MayMove(Do(s, NextMove(s, k)), k)
    ensures MovesLeft(Do(s, NextMove(s, k)).pcs[k]) < MovesLeft(s.pcs[k])
  {
  }

  lemma {:induction false} MovesToRun(past: seq<Action>, k: Caller) returns (acts: seq<Action>)
    requires Runs(IDLE, past) && MayMove(After(IDLE, past), k)
    ensures acts != [] && |acts| <= MovesLeft(After(IDLE, past).pcs[k]) && Runs(IDLE, past + acts)
    ensures forall a :: a in acts ==> !a.Call? && !a.ResetAsks?
    ensures var log := After(IDLE, past + acts).log; log != [] && log[|log| - 1].Started?
    decreases MovesLeft(After(IDLE, past).pcs[k])
  {
    var s := After(IDLE, past);
    var a := NextMove(s, k);
    Extend(IDLE, past, a);
    if s.pcs[k].Looping? {
      acts := [a];
    } else {
      MoveOn(s, k);
      var rest := MovesToRun(past + [a], k);
      acts := [a] + rest;
      assert past + acts == past + [a] + rest;
    }
  }

  /** Moves of the callers already there, at most four, that start a run. */
  predicate StartsRun(past: seq<Action>, acts: seq<Action>) {
    && acts != [] && |acts| <= 4 && Runs(IDLE, past + acts)
    && (forall a :: a in acts ==> !a.Call? && !a.ResetAsks?)
    && After(IDLE, past + acts).log != []
    && After(IDLE, past + acts).log[|After(IDLE, past + acts).log| - 1].Started?
  }

  /** From any reachable state with a request recorded, the callers already there can start a run in
      at most four moves, whatever they were doing. */
  lemma ServedSoon(past: seq<Action>)
    requires Runs(IDLE, past) && After(IDLE, past).again
    ensures exists acts :: StartsRun(past, acts)
  {
    RunKeeps(past);
    var s := After(IDLE, past);
    var k: Caller :| WillLook(s, k);
    var acts := MovesToRun(past, if s.owner.Some? then s.owner.value else k);
    assert StartsRun(past, acts);
  }

  // ---- Every schedule serves it ----

  /** More than the moves of this caller, as long as no run starts. */
  function Rank(pc: Pc): nat {
    match pc
    case Done => 0
    case Looping => 1
    case Trying => 2
    case Checking => 3
    case Unlocking => 4
    case Running => 5
  }

  function Total(pcs: map<Caller, Pc>, ks: set<Caller>): nat
    requires ks <= pcs.Keys
    decreases |ks|
  {
    if ks == {} then 0 else Rank(pcs[Min(ks)]) + Total(pcs, ks - {Min(ks)})
  }

  lemma {:induction false} OneMoveLowers(pcs: map<Caller, Pc>, ks: set<Caller>, k: Caller, pc: Pc)
    requires ks <= pcs.Keys && k in pcs && Rank(pc) < Rank(pcs[k])
    ensures
      if k in ks then Total(pcs[k := pc], ks) < Total(pcs, ks) else Total(pcs[k := pc], ks) == Total(pcs, ks)
    decreases |ks|
  {
    if ks != {} {
      OneMoveLowers(pcs, ks - {Min(ks)}, k, pc);
    }
  }

  /** A run was started since. */
  ghost predicate StartedSince(was: seq<Event>, now: seq<Event>) {
    exists i :: |was| <= i < |now| && now[i].Started?
  }

  /** A move of a caller already there starts a run, or leaves the request recorded and that caller
      nearer its end. */
  lemma MoveServes(s: Flight, a: Action)
    requires s.again && Enabled(s, a) && !a.Call? && !a.ResetAsks?
    ensures s.log <= Do(s, a).log
    ensures
      || StartedSince(s.log, Do(s, a).log)
      || (Do(s, a).again && Total(Do(s, a).pcs, Do(s, a).pcs.Keys) < Total(s.pcs, s.pcs.Keys))
  {
    if a.Swap? {
      assert Do(s, a).log[|s.log|].Started?;
    } else {
      assert Do(s, a).pcs.Keys == s.pcs.Keys;
      OneMoveLowers(s.pcs, s.pcs.Keys, a.k, Do(s, a).pcs[a.k]);
    }
  }

  lemma LogExtends(s: Flight, a: Action)
    requires Enabled(s, a)
    ensures s.log <= Do(s, a).log
  {
  }

  /** From any reachable state with a request recorded, every schedule of the callers already there
      starts a run, or some caller will still look and the schedule was short: each of its moves
      used up one of a bounded total. */
  lemma {:induction false} EveryScheduleServes(past: seq<Action>, acts: seq<Action>)
    requires Runs(IDLE, past) && After(IDLE, past).again && Runs(IDLE, past + acts)
    requires forall a :: a in acts ==> !a.Call? && !a.ResetAsks?
    ensures After(IDLE, past).log <= After(IDLE, past + acts).log
    ensures
      var s, t := After(IDLE, past), After(IDLE, past + acts);
      || StartedSince(s.log, t.log)
      || (t.again && (exists k :: WillLook(t, k)) && |acts| + Total(t.pcs, t.pcs.Keys) <= Total(s.pcs, s.pcs.Keys))
  {
    RunKeeps(past + acts);
    if acts == [] {
      assert past + acts == past;
    } else {
      var rest, last := acts[..|acts| - 1], acts[|acts| - 1];
      assert (past + acts)[..|past + acts| - 1] == past + rest;
      EveryScheduleServes(past, rest);
      var s, before := After(IDLE, past), After(IDLE, past + rest);
      LogExtends(before, last);
      if i :| |s.log| <= i < |before.log| && before.log[i].Started? {
        assert Do(before, last).log[i].Started?;
      } else {
        MoveServes(before, last);
      }
    }
  }

  /** A recorded request stays recorded until a run starts. */
  lemma KeptUntilStarted(s: Flight, a: Action)
    requires s.again && Enabled(s, a)
    ensures s.log <= Do(s, a).log && (Do(s, a).again || StartedSince(s.log, Do(s, a).log))
  {
    if a.Swap? {
      assert Do(s, a).log[|s.log|].Started?;
    }
  }

  lemma {:induction false} KeptUntilStartedAll(acts: seq<Action>, n: nat)
    requires Runs(IDLE, acts) && n <= |acts| && Runs(IDLE, acts[..n]) && After(IDLE, acts[..n]).again
    ensures After(IDLE, acts[..n]).log <= After(IDLE, acts).log
    ensures After(IDLE, acts).again || StartedSince(After(IDLE, acts[..n]).log, After(IDLE, acts).log)
  {
    if n == |acts| {
      assert acts[..n] == acts;
    } else {
      var rest, last := acts[..|acts| - 1], acts[|acts| - 1];
      assert rest[..n] == acts[..n];
      KeptUntilStartedAll(rest, n);
      var was, before := After(IDLE, acts[..n]), After(IDLE, rest);
      LogExtends(before, last);
      if i :| |was.log| <= i < |before.log| && before.log[i].Started? {
        assert Do(before, last).log[i].Started?;
      } else {
        KeptUntilStarted(before, last);
      }
    }
  }

  lemma {:induction false} PrefixRuns(acts: seq<Action>, n: nat)
    requires Runs(IDLE, acts) && n <= |acts|
    ensures Runs(IDLE, acts[..n])
  {
    if n < |acts| {
      PrefixRuns(acts[..|acts| - 1], n);
      assert acts[..|acts| - 1][..n] == acts[..n];
    } else {
      assert acts[..n] == acts;
    }
  }

  /** Every call, and every reset that asks again, is followed by a run started after it, or some caller
      will still look. */
  lemma {:induction false} EveryCallIsServed(acts: seq<Action>, n: nat)
    requires Runs(IDLE, acts) && n < |acts| && (acts[n].Call? || acts[n].ResetAsks?)
    ensures Runs(IDLE, acts[..n + 1])
    ensures
      var asked, s := After(IDLE, acts[..n + 1]), After(IDLE, acts);
      StartedSince(asked.log, s.log) || (s.again && exists k :: WillLook(s, k))
  {
    PrefixRuns(acts, n + 1);
    assert acts[..n + 1][..n] == acts[..n];
    KeptUntilStartedAll(acts, n + 1);
    RunKeeps(acts);
  }
}
