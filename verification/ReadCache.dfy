/**
 The single-flight read cache: a store of recent results, a table of per-key locks that is
 dropped when it grows too large, and any number of calls interleaved between every two
 touches of what they share.
 */
module ReadCache {
  import opened Values

  const MAX_KEYS := 512

  type Key = string
  type CallId = nat
  type LockId = nat

  /** A stored result: when it was stored, and the build it came from. Builds are numbered as they start. */
  datatype Entry = Entry(stamp: real, build: nat)

  datatype Call =
    | Looking(key: Key, ttl: real, now: real)
    | Wanting(key: Key, ttl: real)
    | Queued(key: Key, ttl: real, lock: LockId)
    | Entered(key: Key, ttl: real, lock: LockId)
    | Judging(key: Key, ttl: real, lock: LockId, hit: Option<Entry>)
    | Building(key: Key, lock: LockId, build: nat)
    | Storing(key: Key, lock: LockId, entry: Entry)
    | Leaving(key: Key, lock: LockId, value: Option<nat>)
    | Returned(key: Key, value: Option<nat>)
    | HalfCleared
    | Cleared

  /** `born` says for which key, and in which epoch of the lock table, each lock was made. */
  datatype State = State(
    store: map<Key, Entry>, locks: map<Key, LockId>, epoch: nat, born: map<LockId, (Key, nat)>, nextLock: LockId,
    held: map<LockId, CallId>, calls: map<CallId, Call>, nextBuild: nat, clock: real)

  const START := State(map[], map[], 0, map[], 0, map[], map[], 0, 0.0)

  predicate Fresh(hit: Option<Entry>, now: real, ttl: real) {
    hit.Some? && now - hit.value.stamp < ttl
  }

  datatype Act =
    | Tick(dt: real)
    | Begin(id: CallId, key: Key, ttl: real) | Look(id: CallId) | LockFor(id: CallId) | Acquire(id: CallId)
    | Peek(id: CallId) | Judge(id: CallId) | Built(id: CallId, ok: bool) | Put(id: CallId) | Release(id: CallId)
    | ClearStore(id: CallId) | ClearLocks(id: CallId)

  predicate Enabled(s: State, a: Act) {
    match a
    case Tick(dt) => dt >= 0.0
    case Begin(id, _, _) => id !in s.calls
    case ClearStore(id) => id !in s.calls
    case Look(id) => id in s.calls && s.calls[id].Looking?
    case LockFor(id) => id in s.calls && s.calls[id].Wanting?
    case Acquire(id) => id in s.calls && s.calls[id].Queued? && s.calls[id].lock !in s.held
    case Peek(id) => id in s.calls && s.calls[id].Entered?
    case Judge(id) => id in s.calls && s.calls[id].Judging?
    case Built(id, _) => id in s.calls && s.calls[id].Building?
    case Put(id) => id in s.calls && s.calls[id].Storing?
    case Release(id) => id in s.calls && s.calls[id].Leaving?
    case ClearLocks(id) => id in s.calls && s.calls[id].HalfCleared?
  }

  function Lookup(s: State, key: Key): Option<Entry> {
    if key in s.store then Some(s.store[key]) else None
  }

  /** A new key that finds the table full drops both tables first. */
  predicate Resets(s: State, key: Key) {
    key !in s.locks && |s.locks| >= MAX_KEYS
  }

  function Dropped(s: State): State {
    s.(locks := map[], epoch := s.epoch + 1)
  }

  function WithLock(s: State, key: Key): State {
    if key in s.locks then s else NewLock(if Resets(s, key) then Dropped(s).(store := map[]) else s, key)
  }

  function NewLock(s: State, key: Key): State {
    s.(locks := s.locks[key := s.nextLock], born := s.born[s.nextLock := (key, s.epoch)], nextLock := s.nextLock + 1)
  }

  function At(s: State, id: CallId, c: Call): State {
    s.(calls := s.calls[id := c])
  }

  function Next(s: State, a: Act): State
    requires Enabled(s, a)
  {
    match a
    case Tick(dt) => s.(clock := s.clock + dt)
    case Begin(id, key, ttl) => At(s, id, Looking(key, ttl, s.clock))
    case Look(id) =>
      var c := s.calls[id];
      var hit := Lookup(s, c.key);
      At(s, id, if Fresh(hit, c.now, c.ttl) then Returned(c.key, Some(hit.value.build)) else Wanting(c.key, c.ttl))
    case LockFor(id) =>
      var c := s.calls[id];
      var r := WithLock(s, c.key);
      At(r, id, Queued(c.key, c.ttl, r.locks[c.key]))
    case Acquire(id) =>
      var c := s.calls[id];
      At(s.(held := s.held[c.lock := id]), id, Entered(c.key, c.ttl, c.lock))
    case Peek(id) =>
      var c := s.calls[id];
      At(s, id, Judging(c.key, c.ttl, c.lock, Lookup(s, c.key)))
    case Judge(id) =>
      var c := s.calls[id];
      if Fresh(c.hit, s.clock, c.ttl) then At(s, id, Leaving(c.key, c.lock, Some(c.hit.value.build)))
      else At(s.(nextBuild := s.nextBuild + 1), id, Building(c.key, c.lock, s.nextBuild))
    case Built(id, ok) =>
      var c := s.calls[id];
      At(s, id, if ok then Storing(c.key, c.lock, Entry(s.clock, c.build)) else Leaving(c.key, c.lock, None))
    case Put(id) =>
      var c := s.calls[id];
      At(s.(store := s.store[c.key := c.entry]), id, Leaving(c.key, c.lock, Some(c.entry.build)))
    case Release(id) =>
      var c := s.calls[id];
      At(s.(held := s.held - {c.lock}), id, Returned(c.key, c.value))
    case ClearStore(id) => At(s.(store := map[]), id, HalfCleared)
    case ClearLocks(id) => At(Dropped(s), id, Cleared)
  }

  ghost predicate Reaches(s: State, acts: seq<Act>, s': State)
    decreases |acts|
  {
    if |acts| == 0 then s == s' else Enabled(s, acts[0]) && Reaches(Next(s, acts[0]), acts[1..], s')
  }

  /******* What every step keeps *******/

  predicate HasLock(c: Call) {
    c.Queued? || Inside(c)
  }

  /** Between acquiring the key's lock and giving it back. */
  predicate Inside(c: Call) {
    c.Entered? || c.Judging? || c.Building? || c.Storing? || c.Leaving?
  }

  /** The lock table holds this epoch's locks and no others. */
  ghost predicate TableOk(s: State) {
    && (forall k :: k in s.locks ==> s.locks[k] in s.born && s.born[s.locks[k]] == (k, s.epoch))
    && (forall l :: l in s.born && s.born[l].1 == s.epoch ==> s.born[l].0 in s.locks && s.locks[s.born[l].0] == l)
    && |s.locks| <= MAX_KEYS
  }

  /** One lock per key and epoch, over the whole history. */
  ghost predicate BornOk(s: State) {
    && (forall l :: l in s.born ==> l < s.nextLock && s.born[l].1 <= s.epoch)
    && (forall l, l' :: l in s.born && l' in s.born && s.born[l] == s.born[l'] ==> l == l')
  }

  ghost predicate CallOk(s: State, id: CallId)
    requires id in s.calls
  {
    var c := s.calls[id];
    && (HasLock(c) ==> c.lock in s.born && s.born[c.lock].0 == c.key)
    && (Inside(c) ==> c.lock in s.held && s.held[c.lock] == id)
    && (c.Building? ==> c.build < s.nextBuild)
    && (c.Storing? ==> c.entry.build < s.nextBuild && c.entry.stamp <= s.clock)
  }

  ghost predicate Inv(s: State) {
    && TableOk(s) && BornOk(s) && s.held.Keys <= s.born.Keys
    && forall id :: id in s.calls ==> CallOk(s, id)
  }

  lemma DroppedKeeps(s: State)
    requires TableOk(s) && BornOk(s)
    ensures TableOk(Dropped(s)) && BornOk(Dropped(s))
  {
  }

  lemma NewLockBorn(s: State, key: Key)
    requires TableOk(s) && BornOk(s) && key !in s.locks
    ensures BornOk(NewLock(s, key))
  {
    assert s.nextLock !in s.born;
    forall l | l in s.born
      ensures s.born[l] != (key, s.epoch)
    {
    }
  }

  lemma OneMore(m: map<Key, LockId>, key: Key, l: LockId)
    requires key !in m
    ensures |m[key := l]| == |m| + 1
  {
    assert m[key := l].Keys == m.Keys + {key};
    assert |m[key := l]| == |m[key := l].Keys| && |m| == |m.Keys|;
  }

  lemma NewLockTable(s: State, key: Key)
    requires TableOk(s) && BornOk(s) && key !in s.locks && |s.locks| < MAX_KEYS
    ensures TableOk(NewLock(s, key))
  {
    assert s.nextLock !in s.born;
    var r := NewLock(s, key);
    OneMore(s.locks, key, s.nextLock);
    forall k | k in r.locks
      ensures r.locks[k] in r.born && r.born[r.locks[k]] == (k, r.epoch)
    {
      if k != key {
        assert s.locks[k] in s.born;
      }
    }
    forall l | l in r.born && r.born[l].1 == r.epoch
      ensures r.born[l].0 in r.locks && r.locks[r.born[l].0] == l
    {
      if l != s.nextLock {
        assert s.born[l].0 in s.locks;
      }
    }
  }

  lemma WithLockFrame(s: State, key: Key)
    requires BornOk(s)
    ensures var r := WithLock(s, key);
            && key in r.locks && r.calls == s.calls && r.held == s.held
            && (forall l :: l in s.born ==> l in r.born && r.born[l] == s.born[l])
  {
    assert s.nextLock !in s.born;
  }

  lemma WithLockTables(s: State, key: Key)
    requires TableOk(s) && BornOk(s) && key !in s.locks
    ensures TableOk(WithLock(s, key)) && BornOk(WithLock(s, key))
  {
    var base := if Resets(s, key) then Dropped(s).(store := map[]) else s;
    ResetKeeps(s, key);
    NewLockBorn(base, key);
    NewLockTable(base, key);
  }

  lemma WithLockKeeps(s: State, key: Key)
    requires TableOk(s) && BornOk(s)
    ensures var r := WithLock(s, key);
            && TableOk(r) && BornOk(r) && key in r.locks && r.calls == s.calls && r.held == s.held
            && (forall l :: l in s.born ==> l in r.born && r.born[l] == s.born[l])
  {
    WithLockFrame(s, key);
    if key !in s.locks {
      WithLockTables(s, key);
    }
  }

  lemma ResetKeeps(s: State, key: Key)
    requires TableOk(s) && BornOk(s) && key !in s.locks
    ensures var base := if Resets(s, key) then Dropped(s).(store := map[]) else s;
            TableOk(base) && BornOk(base) && key !in base.locks && |base.locks| < MAX_KEYS
  {
    DroppedKeeps(s);
  }

  /** Most steps leave the lock table and its history alone. */
  lemma TablesUntouched(s: State, a: Act)
    requires Enabled(s, a) && !a.LockFor? && !a.ClearLocks?
    ensures var s' := Next(s, a);
            s'.locks == s.locks && s'.epoch == s.epoch && s'.born == s.born && s'.nextLock == s.nextLock
  {
  }

  lemma HeldStep(s: State, a: Act)
    requires Enabled(s, a) && !a.Acquire?
    ensures Next(s, a).held.Keys <= s.held.Keys
  {
  }

  lemma TablesKeep(s: State, a: Act)
    requires Inv(s) && Enabled(s, a)
    ensures TableOk(Next(s, a)) && BornOk(Next(s, a)) && Next(s, a).held.Keys <= Next(s, a).born.Keys
    ensures forall l :: l in s.born ==> l in Next(s, a).born && Next(s, a).born[l] == s.born[l]
  {
    if !a.LockFor? && !a.ClearLocks? {
      TablesUntouched(s, a);
    }
    if !a.Acquire? {
      HeldStep(s, a);
    }
    if a.LockFor? {
      WithLockKeeps(s, s.calls[a.id].key);
    } else if a.ClearLocks? {
      DroppedKeeps(s);
    } else if a.Acquire? {
      assert CallOk(s, a.id);
    }
  }

  lemma CountersGrow(s: State, a: Act)
    requires Enabled(s, a)
    ensures Next(s, a).nextBuild >= s.nextBuild && Next(s, a).clock >= s.clock
  {
  }

  lemma CallsFrame(s: State, a: Act, id: CallId)
    requires Enabled(s, a) && id in s.calls && (a.Tick? || a.id != id)
    ensures id in Next(s, a).calls && Next(s, a).calls[id] == s.calls[id]
  {
  }

  /** A held lock stays held until its holder gives it back. */
  lemma HeldFrame(s: State, a: Act, l: LockId)
    requires Enabled(s, a) && l in s.held && (a.Release? ==> s.calls[a.id].lock != l)
    ensures l in Next(s, a).held && Next(s, a).held[l] == s.held[l]
  {
  }

  /** Nobody but the holder gives a lock back. */
  lemma HeldByOthers(s: State, a: Act, id: CallId)
    requires Inv(s) && Enabled(s, a) && id in s.calls && (a.Tick? || a.id != id)
    ensures Inside(s.calls[id]) ==> s.calls[id].lock in Next(s, a).held && Next(s, a).held[s.calls[id].lock] == id
  {
    assert CallOk(s, id);
    if Inside(s.calls[id]) {
      if a.Release? {
        assert CallOk(s, a.id);
      }
      HeldFrame(s, a, s.calls[id].lock);
    }
  }

  /** A call keeps what it holds while other calls move. */
  lemma OthersKeep(s: State, a: Act, id: CallId)
    requires Inv(s) && Enabled(s, a) && id in s.calls && (a.Tick? || a.id != id)
    ensures id in Next(s, a).calls && CallOk(Next(s, a), id)
  {
    var s' := Next(s, a);
    TablesKeep(s, a);
    CountersGrow(s, a);
    CallsFrame(s, a, id);
    HeldByOthers(s, a, id);
    assert CallOk(s, id);
  }

  lemma LockForKeeps(s: State, id: CallId)
    requires Inv(s) && Enabled(s, LockFor(id))
    ensures CallOk(Next(s, LockFor(id)), id)
  {
    WithLockKeeps(s, s.calls[id].key);
  }

  /** Steps of a call that is past its lock. */
  lemma InsideKeeps(s: State, a: Act)
    requires Enabled(s, a) && (a.Peek? || a.Judge? || a.Built? || a.Put?) && CallOk(s, a.id)
    ensures CallOk(Next(s, a), a.id)
  {
  }

  lemma AcquireKeeps(s: State, id: CallId)
    requires Enabled(s, Acquire(id)) && CallOk(s, id)
    ensures CallOk(Next(s, Acquire(id)), id)
  {
  }

  /** Steps that leave a call without a lock. */
  lemma WithoutLock(s: State, a: Act)
    requires Enabled(s, a) && (a.Begin? || a.Look? || a.Release? || a.ClearStore? || a.ClearLocks?)
    ensures CallOk(Next(s, a), a.id)
  {
  }

  lemma SelfKeeps(s: State, a: Act)
    requires Inv(s) && Enabled(s, a) && !a.Tick?
    ensures CallOk(Next(s, a), a.id)
  {
    match a
    case LockFor(id) => LockForKeeps(s, id);
    case Acquire(id) => AcquireKeeps(s, id);
    case Peek(_) => InsideKeeps(s, a);
    case Judge(_) => InsideKeeps(s, a);
    case Built(_, _) => InsideKeeps(s, a);
    case Put(_) => InsideKeeps(s, a);
    case _ => WithoutLock(s, a);
  }

  lemma NextKeeps(s: State, a: Act)
    requires Inv(s) && Enabled(s, a)
    ensures Inv(Next(s, a))
  {
    TablesKeep(s, a);
    forall id | id in Next(s, a).calls
      ensures CallOk(Next(s, a), id)
    {
      if !a.Tick? && a.id == id {
        SelfKeeps(s, a);
      } else {
        OthersKeep(s, a, id);
      }
    }
  }

  lemma {:induction false} RunKeeps(s: State, acts: seq<Act>, s': State)
    requires Inv(s) && Reaches(s, acts, s')
    ensures Inv(s')
    decreases |acts|
  {
    if |acts| > 0 {
      NextKeeps(s, acts[0]);
      RunKeeps(Next(s, acts[0]), acts[1..], s');
    }
  }

  /** The epoch of the lock table in which a call got its lock. */
  function EpochOf(s: State, id: CallId): nat
    requires id in s.calls && HasLock(s.calls[id]) && s.calls[id].lock in s.born
  {
    s.born[s.calls[id].lock].1
  }

  /** Over every run the lock table never exceeds its cap. */
  lemma LockTableBounded(acts: seq<Act>, s: State)
    requires Reaches(START, acts, s)
    ensures |s.locks| <= MAX_KEYS
  {
    RunKeeps(START, acts, s);
  }

  /**
   Over every run, of all calls that got their lock between the same two resets at most one per
   key is past the lock, so at most one is building.
   */
  lemma OneBuildPerKey(acts: seq<Act>, s: State, a: CallId, b: CallId)
    requires Reaches(START, acts, s)
    requires a in s.calls && b in s.calls && Inside(s.calls[a]) && Inside(s.calls[b]) && s.calls[a].key == s.calls[b].key
    ensures s.calls[a].lock in s.born && s.calls[b].lock in s.born
    ensures EpochOf(s, a) == EpochOf(s, b) ==> a == b
  {
    RunKeeps(START, acts, s);
    assert CallOk(s, a) && CallOk(s, b);
  }
}
