/** What the cache promises over whole runs: when a clear takes effect, and how far apart builds are. */
module ReadCacheRuns {
  import opened Values
  import opened ReadCache

  /******* A clear *******/

  /** Started, and not yet in the store. */
  predicate InFlight(c: Call, key: Key) {
    (c.Building? || c.Storing?) && c.key == key
  }

  predicate NoneInFlight(s: State, key: Key) {
    forall id :: id in s.calls ==> !InFlight(s.calls[id], key)
  }

  predicate AtLeast(value: Option<nat>, n: nat) {
    value.Some? ==> value.value >= n
  }

  /** What a call has in hand comes from build `n` or later; of older calls only what they will store. */
  predicate InHand(c: Call, key: Key, n: nat, older: bool) {
    match c
    case Building(k, _, build) => k == key ==> build >= n
    case Storing(k, _, entry) => k == key ==> entry.build >= n
    case Judging(k, _, _, hit) => k == key && !older && hit.Some? ==> hit.value.build >= n
    case Leaving(k, _, value) => k == key && !older ==> AtLeast(value, n)
    case Returned(k, value) => k == key && !older ==> AtLeast(value, n)
    case _ => true
  }

  ghost predicate Renewed(s: State, key: Key, n: nat, prior: set<CallId>) {
    && s.nextBuild >= n && (key in s.store ==> s.store[key].build >= n)
    && forall id :: id in s.calls ==> InHand(s.calls[id], key, n, id in prior)
  }

  lemma RenewedStep(s: State, a: Act, key: Key, n: nat, prior: set<CallId>)
    requires Renewed(s, key, n, prior) && Enabled(s, a)
    ensures Renewed(Next(s, a), key, n, prior)
  {
    CountersGrow(s, a);
    RenewedStore(s, a, key, n, prior);
    var s' := Next(s, a);
    forall id | id in s'.calls
      ensures InHand(s'.calls[id], key, n, id in prior)
    {
      if a.Tick? || id != a.id {
        OthersUnmoved(s, a, id);
        assert InHand(s.calls[id], key, n, id in prior);
      } else {
        RenewedSelf(s, a, key, n, prior);
      }
    }
  }

  lemma OthersUnmoved(s: State, a: Act, id: CallId)
    requires Enabled(s, a) && id in Next(s, a).calls && (a.Tick? || id != a.id)
    ensures id in s.calls && Next(s, a).calls[id] == s.calls[id]
  {
  }

  lemma RenewedStore(s: State, a: Act, key: Key, n: nat, prior: set<CallId>)
    requires Renewed(s, key, n, prior) && Enabled(s, a)
    ensures key in Next(s, a).store ==> Next(s, a).store[key].build >= n
  {
    if a.Put? {
      assert InHand(s.calls[a.id], key, n, a.id in prior);
    }
  }

  lemma RenewedSelf(s: State, a: Act, key: Key, n: nat, prior: set<CallId>)
    requires Renewed(s, key, n, prior) && Enabled(s, a) && !a.Tick?
    ensures a.id in Next(s, a).calls && InHand(Next(s, a).calls[a.id], key, n, a.id in prior)
  {
    if a.id in s.calls {
      assert InHand(s.calls[a.id], key, n, a.id in prior);
    }
  }

  lemma {:induction false} RenewedRun(s: State, acts: seq<Act>, s': State, key: Key, n: nat, prior: set<CallId>)
    requires Renewed(s, key, n, prior) && Reaches(s, acts, s')
    ensures Renewed(s', key, n, prior)
    decreases |acts|
  {
    if |acts| > 0 {
      RenewedStep(s, acts[0], key, n, prior);
      RenewedRun(Next(s, acts[0]), acts[1..], s', key, n, prior);
    }
  }

  /** A call made after the clear began has returned this build. */
  ghost predicate LaterReturn(s: State, clearer: CallId, acts: seq<Act>, s': State, id: CallId, key: Key, build: nat)
    requires Enabled(s, ClearStore(clearer))
  {
    && Reaches(Next(s, ClearStore(clearer)), acts, s')
    && id !in s.calls && id in s'.calls && s'.calls[id] == Returned(key, Some(build))
  }

  lemma ClearRenews(s: State, clearer: CallId, key: Key, acts: seq<Act>, s': State, id: CallId, build: nat)
    requires Enabled(s, ClearStore(clearer)) && NoneInFlight(s, key)
    requires LaterReturn(s, clearer, acts, s', id, key, build)
    ensures build >= s.nextBuild
  {
    var c := Next(s, ClearStore(clearer));
    forall x | x in c.calls
      ensures InHand(c.calls[x], key, s.nextBuild, x in s.calls.Keys)
    {
      if x in s.calls {
        assert !InFlight(s.calls[x], key);
      }
    }
    RenewedRun(c, acts, s', key, s.nextBuild, s.calls.Keys);
    assert InHand(s'.calls[id], key, s.nextBuild, id in s.calls.Keys);
  }

  lemma StepReaches(s: State, a: Act, mid: State, rest: seq<Act>, s': State)
    requires Enabled(s, a) && Next(s, a) == mid && Reaches(mid, rest, s')
    ensures Reaches(s, [a] + rest, s')
  {
    assert ([a] + rest)[1..] == rest;
  }

  lemma TwoStepsReach(s: State, a: Act, mid: State, a': Act, s': State)
    requires Enabled(s, a) && Next(s, a) == mid && Enabled(mid, a') && Next(mid, a') == s'
    ensures Reaches(s, [a] + [a'], s')
  {
    StepReaches(mid, a', s', [], s');
    StepReaches(s, a, mid, [a'], s');
  }

  /** A build that reaches the store is handed to the next caller, whenever it started. */
  lemma PutThenLook(s: State, id: CallId, later: CallId) returns (acts: seq<Act>, s': State)
    requires id in s.calls && s.calls[id].Storing? && later !in s.calls
    ensures Reaches(s, acts, s') && later in s'.calls
    ensures s'.calls[later] == Returned(s.calls[id].key, Some(s.calls[id].entry.build))
  {
    var key, entry := s.calls[id].key, s.calls[id].entry;
    var put := Next(s, Put(id));
    var begin := Begin(later, key, s.clock - entry.stamp + 1.0);
    var begun := Next(put, begin);
    s' := Next(begun, Look(later));
    StepReaches(begun, Look(later), s', [], s');
    StepReaches(put, begin, begun, [Look(later)], s');
    StepReaches(s, Put(id), put, [begin] + [Look(later)], s');
    acts := [Put(id)] + ([begin] + [Look(later)]);
  }

  lemma ClearOvertaken(s: State, clearer: CallId, key: Key, id: CallId)
      returns (acts: seq<Act>, s': State, later: CallId, build: nat)
    requires Inv(s) && Enabled(s, ClearStore(clearer)) && id in s.calls && InFlight(s.calls[id], key)
    ensures LaterReturn(s, clearer, acts, s', later, key, build) && build < s.nextBuild
  {
    assert CallOk(s, id);
    var c := Next(s, ClearStore(clearer));
    later := FreshId(c.calls.Keys);
    if s.calls[id].Storing? {
      build := s.calls[id].entry.build;
      acts, s' := PutThenLook(c, id, later);
    } else {
      build := s.calls[id].build;
      var built := Next(c, Built(id, true));
      acts, s' := PutThenLook(built, id, later);
      StepReaches(c, Built(id, true), built, acts, s');
      acts := [Built(id, true)] + acts;
    }
  }

  lemma {:induction false} UpperBound(ids: set<CallId>) returns (n: CallId)
    ensures forall id :: id in ids ==> id < n
    decreases |ids|
  {
    if ids == {} {
      n := 0;
    } else {
      var id :| id in ids;
      var m := UpperBound(ids - {id});
      n := if id < m then m else id + 1;
      assert forall x :: x in ids ==> x == id || x in ids - {id};
    }
  }

  lemma FreshId(ids: set<CallId>) returns (id: CallId)
    ensures id !in ids
  {
    id := UpperBound(ids);
  }

  /**
   `clear()` takes effect for a key, whatever happens next, exactly when no build of that key is
   in flight at the moment the store is emptied: then every later call's value comes from a build
   started after it, and otherwise some continuation hands a later call the build from before.
   */
  lemma ClearTakesEffectIff(s: State, clearer: CallId, key: Key)
    requires Inv(s) && Enabled(s, ClearStore(clearer))
    ensures NoneInFlight(s, key) <==>
            forall acts, s', id: CallId, build: nat :: LaterReturn(s, clearer, acts, s', id, key, build) ==> build >= s.nextBuild
  {
    if NoneInFlight(s, key) {
      forall acts, s', id: CallId, build: nat | LaterReturn(s, clearer, acts, s', id, key, build)
        ensures build >= s.nextBuild
      {
        ClearRenews(s, clearer, key, acts, s', id, build);
      }
    } else {
      var id :| id in s.calls && InFlight(s.calls[id], key);
      var acts, s', later, build := ClearOvertaken(s, clearer, key, id);
      assert LaterReturn(s, clearer, acts, s', later, key, build);
    }
  }

  /******* Builds are spaced *******/

  /** Every call on this key that has a lock has this one. */
  ghost predicate AllUse(s: State, key: Key, l: LockId) {
    && key in s.locks && s.locks[key] == l
    && forall id :: id in s.calls && HasLock(s.calls[id]) && s.calls[id].key == key ==> s.calls[id].lock == l
  }

  predicate SinceStamp(c: Call, key: Key, stamp: real) {
    && (c.Judging? && c.key == key ==> c.hit.Some? && c.hit.value.stamp >= stamp)
    && (c.Storing? && c.key == key ==> c.entry.stamp >= stamp)
  }

  /** The stored result, and every result about to replace it, is at least this recent. */
  ghost predicate Recent(s: State, key: Key, stamp: real) {
    && s.clock >= stamp && key in s.store && s.store[key].stamp >= stamp
    && forall id :: id in s.calls ==> SinceStamp(s.calls[id], key, stamp)
  }

  /** A step that drops neither table. */
  predicate Undisturbed(s: State, a: Act)
    requires Enabled(s, a)
  {
    !a.ClearStore? && !a.ClearLocks? && (a.LockFor? ==> !Resets(s, s.calls[a.id].key))
  }

  ghost predicate QuietRun(s: State, acts: seq<Act>, s': State)
    decreases |acts|
  {
    if |acts| == 0 then s == s'
    else Enabled(s, acts[0]) && Undisturbed(s, acts[0]) && QuietRun(Next(s, acts[0]), acts[1..], s')
  }

  lemma RecentStep(s: State, a: Act, key: Key, stamp: real)
    requires Recent(s, key, stamp) && Enabled(s, a) && Undisturbed(s, a)
    ensures Recent(Next(s, a), key, stamp)
  {
    var s' := Next(s, a);
    if a.Put? {
      assert SinceStamp(s.calls[a.id], key, stamp);
    }
    forall id | id in s'.calls
      ensures SinceStamp(s'.calls[id], key, stamp)
    {
      if id in s.calls {
        assert SinceStamp(s.calls[id], key, stamp);
      }
    }
  }

  lemma {:induction false} RecentRun(s: State, acts: seq<Act>, s': State, key: Key, stamp: real)
    requires Recent(s, key, stamp) && QuietRun(s, acts, s')
    ensures Recent(s', key, stamp)
    decreases |acts|
  {
    if |acts| > 0 {
      RecentStep(s, acts[0], key, stamp);
      RecentRun(Next(s, acts[0]), acts[1..], s', key, stamp);
    }
  }

  /** Under one lock, nobody else has looked at the store or built when a result goes in. */
  lemma PutIsRecent(s: State, id: CallId)
    requires Inv(s) && Enabled(s, Put(id)) && AllUse(s, s.calls[id].key, s.calls[id].lock)
    ensures Recent(Next(s, Put(id)), s.calls[id].key, s.calls[id].entry.stamp)
  {
    var s' := Next(s, Put(id));
    assert CallOk(s, id);
    forall x | x in s'.calls
      ensures SinceStamp(s'.calls[x], s.calls[id].key, s.calls[id].entry.stamp)
    {
      if x != id {
        assert CallOk(s, x);
      }
    }
  }

  /** Every call on this key that has a lock got it since the last reset. */
  ghost predicate OnlyCurrent(s: State, key: Key) {
    forall id :: id in s.calls && HasLock(s.calls[id]) && s.calls[id].key == key ==>
      s.calls[id].lock in s.born && s.born[s.calls[id].lock].1 == s.epoch
  }

  lemma EpochUndisturbed(s: State, a: Act)
    requires Enabled(s, a) && Undisturbed(s, a)
    ensures Next(s, a).epoch == s.epoch
  {
  }

  /** A call that gets its lock now gets it from the current table. */
  lemma LockedNow(s: State, id: CallId)
    requires Inv(s) && Enabled(s, LockFor(id)) && Undisturbed(s, LockFor(id))
    ensures var s' := Next(s, LockFor(id));
            id in s'.calls && s'.calls[id].Queued? && s'.calls[id].lock in s'.born && s'.born[s'.calls[id].lock].1 == s.epoch
  {
    WithLockKeeps(s, s.calls[id].key);
  }

  lemma SelfStaysCurrent(s: State, a: Act, key: Key)
    requires Inv(s) && OnlyCurrent(s, key) && Enabled(s, a) && Undisturbed(s, a) && !a.Tick?
    requires a.id in Next(s, a).calls && HasLock(Next(s, a).calls[a.id]) && Next(s, a).calls[a.id].key == key
    ensures var s' := Next(s, a); s'.calls[a.id].lock in s'.born && s'.born[s'.calls[a.id].lock].1 == s.epoch
  {
    if a.LockFor? {
      LockedNow(s, a.id);
    } else {
      TablesUntouched(s, a);
      assert a.id in s.calls && HasLock(s.calls[a.id]) && s.calls[a.id].key == key && Next(s, a).calls[a.id].lock == s.calls[a.id].lock;
    }
  }

  lemma StaysCurrent(s: State, a: Act, key: Key)
    requires Inv(s) && OnlyCurrent(s, key) && Enabled(s, a) && Undisturbed(s, a)
    ensures OnlyCurrent(Next(s, a), key)
  {
    var s' := Next(s, a);
    EpochUndisturbed(s, a);
    TablesKeep(s, a);
    forall id | id in s'.calls && HasLock(s'.calls[id]) && s'.calls[id].key == key
      ensures s'.calls[id].lock in s'.born && s'.born[s'.calls[id].lock].1 == s'.epoch
    {
      if a.Tick? || id != a.id {
        OthersUnmoved(s, a, id);
      } else {
        SelfStaysCurrent(s, a, key);
      }
    }
  }

  lemma {:induction false} QuietRunStaysCurrent(s: State, acts: seq<Act>, s': State, key: Key)
    requires Inv(s) && OnlyCurrent(s, key) && QuietRun(s, acts, s')
    ensures Inv(s') && OnlyCurrent(s', key)
    decreases |acts|
  {
    if |acts| > 0 {
      StaysCurrent(s, acts[0], key);
      NextKeeps(s, acts[0]);
      QuietRunStaysCurrent(Next(s, acts[0]), acts[1..], s', key);
    }
  }

  /** Within one epoch all calls on a key share its lock. */
  lemma CurrentAllUse(s: State, id: CallId)
    requires Inv(s) && id in s.calls && Inside(s.calls[id]) && OnlyCurrent(s, s.calls[id].key)
    ensures AllUse(s, s.calls[id].key, s.calls[id].lock)
  {
    assert CallOk(s, id);
    forall x | x in s.calls && HasLock(s.calls[x]) && s.calls[x].key == s.calls[id].key
      ensures s.calls[x].lock == s.calls[id].lock
    {
      assert CallOk(s, x);
    }
  }

  lemma ReuseUnderOneLock(s: State, id: CallId, acts: seq<Act>, s': State, other: CallId)
    requires Inv(s) && Enabled(s, Put(id)) && AllUse(s, s.calls[id].key, s.calls[id].lock)
    requires QuietRun(Next(s, Put(id)), acts, s') && Enabled(s', Judge(other)) && s'.calls[other].key == s.calls[id].key
    ensures Reuses(s', other, s.calls[id].entry.stamp)
  {
    PutIsRecent(s, id);
    RecentRun(Next(s, Put(id)), acts, s', s.calls[id].key, s.calls[id].entry.stamp);
    assert SinceStamp(s'.calls[other], s.calls[id].key, s.calls[id].entry.stamp);
  }

  /** About to decide, with a result stored at `stamp` behind it: build only when that is as old as the call allows. */
  predicate Reuses(s: State, id: CallId, stamp: real)
    requires Enabled(s, Judge(id))
  {
    var c, after := s.calls[id], Next(s, Judge(id)).calls[id];
    && (after.Building? ==> s.clock - stamp >= c.ttl)
    && (s.clock - stamp < c.ttl ==>
          c.hit.Some? && c.hit.value.stamp >= stamp && after == Leaving(c.key, c.lock, Some(c.hit.value.build)))
  }

  /**
   One computation, many readers, between two resets. Start from any reachable state in which no
   call on the key holds a lock of an earlier epoch (none does after a reset that found the key
   idle). As long as no table is dropped: once a call has stored its result, no call on that key
   starts a build before the result is as old as that call's own time to live, and until then
   whoever gets the lock leaves with a result at least that recent.
   */
  lemma WaitersReuse(before: seq<Act>, s0: State, acts0: seq<Act>, s: State, id: CallId, acts: seq<Act>, s': State, other: CallId)
    requires Reaches(START, before, s0) && QuietRun(s0, acts0, s)
    requires Enabled(s, Put(id)) && OnlyCurrent(s0, s.calls[id].key)
    requires QuietRun(Next(s, Put(id)), acts, s') && Enabled(s', Judge(other)) && s'.calls[other].key == s.calls[id].key
    ensures Reuses(s', other, s.calls[id].entry.stamp)
  {
    RunKeeps(START, before, s0);
    QuietRunStaysCurrent(s0, acts0, s, s.calls[id].key);
    CurrentAllUse(s, id);
    ReuseUnderOneLock(s, id, acts, s', other);
  }

  /******* A reset in the middle of a build *******/

  lemma LockThenBuild(s: State, id: CallId) returns (acts: seq<Act>, s': State)
    requires Inv(s) && id in s.calls && s.calls[id].Wanting? && s.calls[id].key !in s.locks && s.calls[id].key !in s.store
    ensures Reaches(s, acts, s') && id in s'.calls && InFlight(s'.calls[id], s.calls[id].key)
    ensures forall x :: x in s.calls && x != id ==> x in s'.calls && s'.calls[x] == s.calls[x]
  {
    var s1 := Next(s, LockFor(id));
    assert s1.calls[id].lock == s.nextLock && s.nextLock !in s.held;
    var s2 := Next(s1, Acquire(id));
    var s3 := Next(s2, Peek(id));
    s' := Next(s3, Judge(id));
    StepReaches(s3, Judge(id), s', [], s');
    StepReaches(s2, Peek(id), s3, [Judge(id)], s');
    StepReaches(s1, Acquire(id), s2, [Peek(id)] + [Judge(id)], s');
    acts := [Acquire(id)] + ([Peek(id)] + [Judge(id)]);
    StepReaches(s, LockFor(id), s1, acts, s');
    acts := [LockFor(id)] + acts;
  }

  /**
   The bound is per epoch for a reason: whenever a build is in flight, one `clear()` lets a second
   build of the same key start beside it.
   */
  lemma ClearAdmitsSecondBuild(s: State, id: CallId, key: Key) returns (acts: seq<Act>, s': State, second: CallId)
    requires Inv(s) && id in s.calls && InFlight(s.calls[id], key)
    ensures Reaches(s, acts, s') && second != id && id in s'.calls && second in s'.calls
    ensures InFlight(s'.calls[id], key) && InFlight(s'.calls[second], key)
  {
    var clearer := FreshId(s.calls.Keys);
    second := FreshId(s.calls.Keys + {clearer});
    var s2, cleared := WholeClear(s, clearer);
    var s4, looked := BeginAndMiss(s2, second, key);
    var built;
    built, s' := LockThenBuild(s4, second);
    ReachesOn(s2, looked, s4, built, s');
    ReachesOn(s, cleared, s2, looked + built, s');
    acts := cleared + (looked + built);
  }

  /** Both halves of a clear: afterwards both tables are empty and nobody else moved. */
  lemma WholeClear(s: State, clearer: CallId) returns (s': State, acts: seq<Act>)
    requires Inv(s) && clearer !in s.calls
    ensures Inv(s') && Reaches(s, acts, s') && s'.store == map[] && s'.locks == map[]
    ensures s'.calls.Keys == s.calls.Keys + {clearer} && forall x :: x in s.calls ==> s'.calls[x] == s.calls[x]
  {
    var s1 := HalfClear(s, clearer);
    s' := OtherHalf(s1, clearer);
    TwoStepsReach(s, ClearStore(clearer), s1, ClearLocks(clearer), s');
    acts := [ClearStore(clearer)] + [ClearLocks(clearer)];
    JoinedOnly(s.calls, s1.calls, s'.calls, clearer);
  }

  /** Two writes to one new entry leave the others as they were. */
  lemma JoinedOnly(calls: map<CallId, Call>, mid: map<CallId, Call>, calls': map<CallId, Call>, id: CallId)
    requires id !in calls && mid == calls[id := HalfCleared] && calls' == mid[id := Cleared]
    ensures calls'.Keys == calls.Keys + {id} && forall x :: x in calls ==> calls'[x] == calls[x]
  {
  }

  lemma HalfClear(s: State, clearer: CallId) returns (s': State)
    requires Inv(s) && clearer !in s.calls
    ensures Enabled(s, ClearStore(clearer)) && s' == Next(s, ClearStore(clearer)) && Inv(s') && s'.store == map[]
    ensures s'.calls == s.calls[clearer := HalfCleared]
  {
    s' := Next(s, ClearStore(clearer));
    NextKeeps(s, ClearStore(clearer));
  }

  lemma OtherHalf(s: State, clearer: CallId) returns (s': State)
    requires Inv(s) && clearer in s.calls && s.calls[clearer].HalfCleared?
    ensures Enabled(s, ClearLocks(clearer)) && s' == Next(s, ClearLocks(clearer)) && Inv(s')
    ensures s'.store == s.store && s'.locks == map[] && s'.calls == s.calls[clearer := Cleared]
  {
    s' := Next(s, ClearLocks(clearer));
    NextKeeps(s, ClearLocks(clearer));
  }

  lemma BeginAndMiss(s: State, id: CallId, key: Key) returns (s': State, acts: seq<Act>)
    requires Inv(s) && id !in s.calls && s.store == map[]
    ensures Inv(s') && Reaches(s, acts, s') && s'.store == s.store && s'.locks == s.locks
    ensures s'.calls == s.calls[id := Wanting(key, 1.0)]
  {
    var begin := Begin(id, key, 1.0);
    var s1 := Next(s, begin);
    s' := Next(s1, Look(id));
    NextKeeps(s, begin);
    NextKeeps(s1, Look(id));
    TwoStepsReach(s, begin, s1, Look(id), s');
    acts := [begin] + [Look(id)];
  }

  lemma {:induction false} ReachesOn(s: State, p: seq<Act>, mid: State, q: seq<Act>, s': State)
    requires Reaches(s, p, mid) && Reaches(mid, q, s')
    ensures Reaches(s, p + q, s')
    decreases |p|
  {
    if |p| == 0 {
      assert p + q == q;
    } else {
      ReachesOn(Next(s, p[0]), p[1..], mid, q, s');
      assert (p + q)[1..] == p[1..] + q;
    }
  }
}
