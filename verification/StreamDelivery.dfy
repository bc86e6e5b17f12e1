/**
 Delivery over whole runs: every connection that stays registered gets its replay and then
 every later push, once and in order, and the ways to lose the registration are exactly two.
 */
module StreamDelivery {
  import opened StreamManager

  predicate On(s: State, c: Conn, ch: Channel) {
    c in s.gens && s.gens[c].channel == ch
  }

  /** Live, and in the set that is registered for its channel. */
  predicate Enrolled(s: State, c: Conn) {
    c in s.gens && c in Members(s, s.gens[c].channel)
  }

  lemma MembersAreLive(s: State, c: Conn, ch: Channel)
    requires WellFormed(s) && c in Members(s, ch)
    ensures On(s, c, ch) && s.gens[c].home == s.queues[ch]
  {
  }

  /******* How a connection loses its registration *******/

  /** The cleanup of `c` empties a set that is no longer its channel's, and pops the channel's entry all the same. */
  predicate Cuts(s: State, c: Conn, x: Conn) {
    && c in s.gens && x != c && x in Members(s, s.gens[c].channel)
    && s.queues[s.gens[c].channel] != s.gens[c].home
    && s.gens[c].home in s.sets && s.sets[s.gens[c].home] <= {c}
  }

  /** One cleanup: another watcher of the channel is cut off exactly under that guard. */
  lemma CleanupCutsIff(s: State, c: Conn, x: Conn)
    requires WellFormed(s) && c in s.gens && x != c && x in Members(s, s.gens[c].channel)
    ensures x !in Members(Left(s, c), s.gens[c].channel) <==>
            s.queues[s.gens[c].channel] != s.gens[c].home && s.sets[s.gens[c].home] <= {c}
  {
  }

  /** The two ways: a push finds the queue full, or somebody's cleanup cuts it off. */
  predicate Loses(s: State, a: Action, x: Conn)
    requires Enabled(s, a)
  {
    match a
    case Push(ch, _) => x in Full(s, Members(s, ch))
    case Leave(c) => Cuts(s, c, x)
    case Read(c) => Pending(s, c)[0] == End && Cuts(s, c, x)
    case Open(_, _) => false
  }

  lemma PushEnrolled(s: State, ch: Channel, m: Message, x: Conn)
    requires WellFormed(s) && x in s.gens
    ensures PushLog(s, ch, m).gens == s.gens
    ensures Enrolled(PushLog(s, ch, m), x) <==> Enrolled(s, x) && x !in Full(s, Members(s, ch))
  {
    if x in Members(s, ch) {
      MembersAreLive(s, x, ch);
    }
  }

  lemma LeftEnrolled(s: State, c: Conn, x: Conn)
    requires WellFormed(s) && c in s.gens && x in s.gens && x != c
    ensures x in Left(s, c).gens && Left(s, c).gens[x] == s.gens[x]
    ensures Enrolled(Left(s, c), x) <==> Enrolled(s, x) && !Cuts(s, c, x)
  {
    if Enrolled(s, x) && s.gens[x].channel == s.gens[c].channel {
      CleanupCutsIff(s, c, x);
    }
  }

  lemma PresenceEnrolled(s: State, x: Conn)
    ensures PushPresence(s).gens == s.gens && (Enrolled(PushPresence(s), x) <==> Enrolled(s, x))
  {
  }

  lemma CloseEnrolled(s: State, c: Conn, x: Conn)
    requires WellFormed(s) && c in s.gens && x in s.gens && x != c
    ensures x in Close(s, c).gens && Close(s, c).gens[x] == s.gens[x]
    ensures Enrolled(Close(s, c), x) <==> Enrolled(s, x) && !Cuts(s, c, x)
  {
    LeftEnrolled(s, c, x);
    PresenceEnrolled(Left(s, c), x);
  }

  lemma TakenEnrolled(s: State, c: Conn, x: Conn)
    requires Pending(s, c) != []
    ensures Taken(s, c).gens == s.gens && (Enrolled(Taken(s, c), x) <==> Enrolled(s, x))
    ensures Cuts(Taken(s, c), c, x) <==> Cuts(s, c, x)
  {
  }

  lemma OpenMembers(s: State, ch: Channel, who: bool, x: Channel)
    requires WellFormed(s) && !AtCapacity(s)
    ensures Members(Connect(s, ch, who), x) == Members(s, x) + if x == ch then {s.nextConn} else {}
  {
    JoinedMembers(s, ch, who, x);
  }

  lemma OpenFrame(s: State, ch: Channel, who: bool, x: Conn)
    requires WellFormed(s) && !AtCapacity(s) && x in Connect(s, ch, who).gens
    ensures s.nextConn !in s.gens
    ensures x != s.nextConn ==> x in s.gens && Connect(s, ch, who).gens[x] == s.gens[x]
    ensures x == s.nextConn ==> Connect(s, ch, who).gens[x].channel == ch
  {
  }

  lemma OpenEnrolled(s: State, ch: Channel, who: bool, x: Conn)
    requires WellFormed(s) && !AtCapacity(s) && x in Connect(s, ch, who).gens
    ensures Enrolled(Connect(s, ch, who), x) <==> x == s.nextConn || Enrolled(s, x)
  {
    OpenFrame(s, ch, who, x);
    OpenMembers(s, ch, who, Connect(s, ch, who).gens[x].channel);
  }

  /** One step: a connection that stays live stays registered exactly unless the step loses it. */
  lemma StepEnrolledIff(s: State, a: Action, x: Conn)
    requires WellFormed(s) && Bounded(s) && Enabled(s, a) && x in s.gens && x in Next(s, a).gens
    ensures Enrolled(Next(s, a), x) <==> Enrolled(s, x) && !Loses(s, a, x)
  {
    match a
    case Push(ch, m) => PushEnrolled(s, ch, m, x);
    case Open(ch, who) =>
      if !AtCapacity(s) {
        OpenFrame(s, ch, who, x);
        OpenEnrolled(s, ch, who, x);
      }
    case Leave(c) => LeavesOthers(s, c, x); CloseEnrolled(s, c, x);
    case Read(c) => ReadEnrolled(s, c, x);
  }

  lemma ReadEnrolled(s: State, c: Conn, x: Conn)
    requires WellFormed(s) && Bounded(s) && Enabled(s, Read(c)) && x in s.gens && x in Take(s, c).gens
    ensures Enrolled(Take(s, c), x) <==> Enrolled(s, x) && !Loses(s, Read(c), x)
  {
    TakenEnrolled(s, c, x);
    if Pending(s, c)[0] == End {
      TakenKeeps(s, c);
      LeavesOthers(Taken(s, c), c, x);
      CloseEnrolled(Taken(s, c), c, x);
    }
  }

  lemma LeavesOthers(s: State, c: Conn, x: Conn)
    requires c in s.gens && x in Close(s, c).gens
    ensures x != c
  {
  }

  /** A connection that a step brings to life is registered. */
  lemma StepEnrollsNew(s: State, a: Action, x: Conn)
    requires WellFormed(s) && Enabled(s, a) && x !in s.gens && x in Next(s, a).gens
    ensures Enrolled(Next(s, a), x)
  {
    match a
    case Push(ch, m) =>
    case Open(ch, who) =>
      if !AtCapacity(s) {
        OpenFrame(s, ch, who, x);
        OpenEnrolled(s, ch, who, x);
      }
    case Leave(c) =>
    case Read(c) =>
  }

  /** Connections do not come back: what is live now and later was live all the time. */
  lemma StaysDead(s: State, a: Action, x: Conn)
    requires WellFormed(s) && Enabled(s, a) && x < s.nextConn && x !in s.gens
    ensures x !in Next(s, a).gens && x < Next(s, a).nextConn
  {
  }

  /** Some step of the run loses the connection. */
  ghost predicate LostDuring(s: State, actions: seq<Action>, x: Conn)
    decreases |actions|
  {
    |actions| > 0 && Enabled(s, actions[0]) &&
    ((x in s.gens && Loses(s, actions[0], x)) || LostDuring(Next(s, actions[0]), actions[1..], x))
  }

  lemma {:induction false} DeadStaysDead(s: State, actions: seq<Action>, s': State, x: Conn)
    requires WellFormed(s) && Bounded(s) && Reaches(s, actions, s') && x < s.nextConn && x !in s.gens
    ensures x !in s'.gens
    decreases |actions|
  {
    if |actions| > 0 {
      StaysDead(s, actions[0], x);
      NextKeeps(s, actions[0]);
      DeadStaysDead(Next(s, actions[0]), actions[1..], s', x);
    }
  }

  /** From any state: registered at the end, exactly if registered or not yet there, and never lost. */
  lemma {:induction false} RunEnrolledIff(s: State, actions: seq<Action>, s': State, x: Conn)
    requires WellFormed(s) && Bounded(s) && Reaches(s, actions, s') && x in s'.gens
    ensures Enrolled(s', x) <==> (x in s.gens ==> Enrolled(s, x)) && !LostDuring(s, actions, x)
    decreases |actions|
  {
    if |actions| > 0 {
      var a, mid := actions[0], Next(s, actions[0]);
      NextKeeps(s, a);
      RunEnrolledIff(mid, actions[1..], s', x);
      if x in s.gens {
        if x !in mid.gens {
          StepIdBound(s, a, x);
          DeadStaysDead(mid, actions[1..], s', x);
        } else {
          StepEnrolledIff(s, a, x);
        }
      } else if x in mid.gens {
        StepEnrollsNew(s, a, x);
      }
    }
  }

  lemma StepIdBound(s: State, a: Action, x: Conn)
    requires WellFormed(s) && Enabled(s, a) && x in s.gens
    ensures x < Next(s, a).nextConn
  {
    assert x in s.pending;
  }

  /**
   Over every run, a live connection is registered if and only if no push found its queue full
   and no other connection's cleanup cut it off.
   */
  lemma RegisteredIff(actions: seq<Action>, s: State, x: Conn)
    requires Reaches(START, actions, s) && x in s.gens
    ensures x in Members(s, s.gens[x].channel) <==> !LostDuring(START, actions, x)
  {
    assert Registered(START) == {};
    RunEnrolledIff(START, actions, s, x);
  }

  /******* What registered connections get *******/

  /** A run with its bookkeeping: what each connection took, and what it was owed. */
  datatype Trace = Trace(s: State, taken: map<Conn, seq<Message>>, owed: map<Conn, seq<Message>>)

  const OPENING := Trace(START, map[], map[])

  function Then(t: Trace, a: Action): Trace
    requires Enabled(t.s, a)
  {
    var s' := Next(t.s, a);
    match a
    case Push(ch, m) =>
      Trace(s', t.taken, map c | c in t.owed :: if On(t.s, c, ch) then t.owed[c] + [m] else t.owed[c])
    case Open(ch, _) =>
      if AtCapacity(t.s) then t
      else Trace(s', t.taken[t.s.nextConn := []], t.owed[t.s.nextConn := ReplayOf(t.s, ch)])
    case Read(c) =>
      Trace(s', t.taken[c := (if c in t.taken then t.taken[c] else []) + [Pending(t.s, c)[0]]], t.owed)
    case Leave(c) => Trace(s', t.taken, t.owed)
  }

  ghost predicate TracedRun(t: Trace, actions: seq<Action>, t': Trace)
    decreases |actions|
  {
    if |actions| == 0 then t == t' else Enabled(t.s, actions[0]) && TracedRun(Then(t, actions[0]), actions[1..], t')
  }

  /** A registered connection on a task channel has taken, or has queued, all it is owed. */
  ghost predicate OwesNothing(t: Trace, c: Conn) {
    c in t.taken && c in t.owed &&
    (Enrolled(t.s, c) && t.s.gens[c].channel != Global ==> t.taken[c] + Pending(t.s, c) == t.owed[c])
  }

  ghost predicate Delivered(t: Trace) {
    WellFormed(t.s) && Bounded(t.s) && forall c :: c in t.s.gens ==> OwesNothing(t, c)
  }

  lemma PushPending(s: State, ch: Channel, m: Message, c: Conn)
    requires WellFormed(s) && Bounded(s) && c in s.gens && c !in Full(s, Members(s, ch))
    ensures Pending(PushLog(s, ch, m), c) == Pending(s, c) + if c in Members(s, ch) then [m] else []
  {
    if c in Members(s, ch) {
      EvictionLosesHead(s, ch, m, c);
    }
  }

  lemma PushDelivers(t: Trace, ch: Channel, m: Message)
    requires Delivered(t)
    ensures Delivered(Then(t, Push(ch, m)))
  {
    var t' := Then(t, Push(ch, m));
    PushKeeps(t.s, ch, m);
    forall c | c in t'.s.gens
      ensures OwesNothing(t', c)
    {
      PushEnrolled(t.s, ch, m, c);
      assert OwesNothing(t, c);
      if Enrolled(t'.s, c) && t'.s.gens[c].channel != Global {
        PushOwes(t, ch, m, c);
      }
    }
  }

  lemma PushOwes(t: Trace, ch: Channel, m: Message, c: Conn)
    requires WellFormed(t.s) && Bounded(t.s) && OwesNothing(t, c) && Enrolled(t.s, c) && t.s.gens[c].channel != Global
    requires c !in Full(t.s, Members(t.s, ch))
    ensures t.taken[c] + Pending(PushLog(t.s, ch, m), c) == Then(t, Push(ch, m)).owed[c]
  {
    PushPending(t.s, ch, m, c);
    if c in Members(t.s, ch) {
      MembersAreLive(t.s, c, ch);
    }
  }

  /** Presence goes to global watchers only. */
  lemma ClosePending(s: State, c: Conn, x: Conn)
    requires WellFormed(s) && c in s.gens && x in s.gens && x != c && s.gens[x].channel != Global
    ensures Pending(Close(s, c), x) == Pending(s, x)
  {
    var l := Left(s, c);
    LeftKeeps(s, c);
    PresenceFrame(l);
    if x in Members(l, Global) {
      MembersAreLive(l, x, Global);
    }
  }

  lemma LeaveDelivers(t: Trace, c: Conn)
    requires Delivered(t) && c in t.s.gens
    ensures Delivered(Trace(Close(t.s, c), t.taken, t.owed))
  {
    CloseKeeps(t.s, c);
    forall x | x in Close(t.s, c).gens
      ensures OwesNothing(Trace(Close(t.s, c), t.taken, t.owed), x)
    {
      LeavesOthers(t.s, c, x);
      assert OwesNothing(t, x);
      CloseEnrolled(t.s, c, x);
      if t.s.gens[x].channel != Global {
        ClosePending(t.s, c, x);
      }
    }
  }

  function TookHead(t: Trace, c: Conn): Trace
    requires c in t.s.gens && Pending(t.s, c) != []
  {
    Trace(Taken(t.s, c), t.taken[c := (if c in t.taken then t.taken[c] else []) + [Pending(t.s, c)[0]]], t.owed)
  }

  lemma TakeDelivers(t: Trace, c: Conn)
    requires Delivered(t) && c in t.s.gens && Pending(t.s, c) != []
    ensures Delivered(TookHead(t, c))
  {
    var t1 := TookHead(t, c);
    TakenKeeps(t.s, c);
    forall x | x in t1.s.gens
      ensures OwesNothing(t1, x)
    {
      assert OwesNothing(t, x);
      TakenEnrolled(t.s, c, x);
      if x == c {
        assert [Pending(t.s, c)[0]] + Pending(t.s, c)[1..] == Pending(t.s, c);
      }
    }
  }

  lemma ReadDelivers(t: Trace, c: Conn)
    requires Delivered(t) && Enabled(t.s, Read(c))
    ensures Delivered(Then(t, Read(c)))
  {
    TakeDelivers(t, c);
    if Pending(t.s, c)[0] == End {
      LeaveDelivers(TookHead(t, c), c);
    }
  }

  lemma OpenPending(s: State, ch: Channel, who: bool, x: Conn)
    requires WellFormed(s) && !AtCapacity(s)
    requires x in Connect(s, ch, who).gens && Connect(s, ch, who).gens[x].channel != Global
    ensures Pending(Connect(s, ch, who), x) == if x == s.nextConn then ReplayOf(s, ch) else Pending(s, x)
  {
    var j := Joined(s, ch, who);
    OpenFrame(s, ch, who, x);
    JoinedQuiet(s, ch, who, x);
    assert Pending(j, x) == if x == s.nextConn then [] else Pending(s, x);
    assert [] + ReplayOf(s, ch) == ReplayOf(s, ch);
  }

  /** The presence of a new connection does not reach a task channel. */
  lemma JoinedQuiet(s: State, ch: Channel, who: bool, x: Conn)
    requires WellFormed(s) && x in Joined(s, ch, who).gens && Joined(s, ch, who).gens[x].channel != Global
    ensures x in Joined(s, ch, who).pending && Pending(PushPresence(Joined(s, ch, who)), x) == Pending(Joined(s, ch, who), x)
  {
    var j := Joined(s, ch, who);
    JoinedWellFormed(s, ch, who);
    PresenceFrame(j);
    if x in Members(j, Global) {
      MembersAreLive(j, x, Global);
    }
  }

  lemma OpenDelivers(t: Trace, ch: Channel, who: bool)
    requires Delivered(t)
    ensures Delivered(Then(t, Open(ch, who)))
  {
    if !AtCapacity(t.s) {
      var t' := Then(t, Open(ch, who));
      ConnectKeeps(t.s, ch, who);
      forall x | x in t'.s.gens
        ensures OwesNothing(t', x)
      {
        OpenFrame(t.s, ch, who, x);
        OpenEnrolled(t.s, ch, who, x);
        if x != t.s.nextConn {
          assert OwesNothing(t, x);
        }
        if t'.s.gens[x].channel != Global {
          OpenPending(t.s, ch, who, x);
        }
      }
    }
  }

  lemma StepDelivers(t: Trace, a: Action)
    requires Delivered(t) && Enabled(t.s, a)
    ensures Delivered(Then(t, a))
  {
    match a
    case Push(ch, m) => PushDelivers(t, ch, m);
    case Open(ch, who) => OpenDelivers(t, ch, who);
    case Read(c) => ReadDelivers(t, c);
    case Leave(c) => LeaveDelivers(t, c);
  }

  lemma {:induction false} RunDelivers(t: Trace, actions: seq<Action>, t': Trace)
    requires Delivered(t) && TracedRun(t, actions, t')
    ensures Delivered(t')
    decreases |actions|
  {
    if |actions| > 0 {
      StepDelivers(t, actions[0]);
      RunDelivers(Then(t, actions[0]), actions[1..], t');
    }
  }

  /** The bookkeeping follows the run. */
  lemma {:induction false} TracedReaches(t: Trace, actions: seq<Action>, t': Trace)
    requires TracedRun(t, actions, t')
    ensures Reaches(t.s, actions, t'.s)
    decreases |actions|
  {
    if |actions| > 0 {
      ThenState(t, actions[0]);
      TracedReaches(Then(t, actions[0]), actions[1..], t');
    }
  }

  lemma ThenState(t: Trace, a: Action)
    requires Enabled(t.s, a)
    ensures Then(t, a).s == Next(t.s, a)
  {
  }

  /**
   On every run, with evictions or without: a live task-channel connection that no step lost is
   registered, and what it took followed by what it has queued is the buffer it found at connect
   followed by every later push, in order.
   */
  lemma NothingLostNothingTwice(actions: seq<Action>, t: Trace, c: Conn)
    requires TracedRun(OPENING, actions, t) && !LostDuring(START, actions, c)
    requires c in t.s.gens && t.s.gens[c].channel != Global
    ensures c in Members(t.s, t.s.gens[c].channel)
    ensures c in t.taken && c in t.owed && t.taken[c] + Pending(t.s, c) == t.owed[c]
  {
    TracedReaches(OPENING, actions, t);
    RegisteredIff(actions, t.s, c);
    AllDelivered(actions, t);
    assert OwesNothing(t, c);
  }

  lemma AllDelivered(actions: seq<Action>, t: Trace)
    requires TracedRun(OPENING, actions, t)
    ensures Delivered(t)
  {
    assert Registered(START) == {};
    RunDelivers(OPENING, actions, t);
  }

  /** A live connection that lost its registration hears no push any more. */
  lemma UnregisteredHearsNothing(s: State, ch: Channel, m: Message, c: Conn)
    requires WellFormed(s) && Bounded(s) && On(s, c, ch) && !Enrolled(s, c)
    ensures Pending(PushLog(s, ch, m), c) == Pending(s, c)
  {
    PushPending(s, ch, m, c);
  }

  /******* Without evictions nobody is lost *******/

  /** All live generators of a channel share the set that is registered for it. */
  ghost predicate Shared(s: State) {
    forall c :: c in s.gens ==> Enrolled(s, c)
  }

  /** A run in which no push finds a full queue. */
  ghost predicate NoEviction(s: State, actions: seq<Action>)
    decreases |actions|
  {
    |actions| > 0 && Enabled(s, actions[0]) ==>
      !Evicts(s, actions[0]) && NoEviction(Next(s, actions[0]), actions[1..])
  }

  lemma SharedLosesNobody(s: State, a: Action, x: Conn)
    requires WellFormed(s) && Shared(s) && Enabled(s, a) && !Evicts(s, a) && x in s.gens
    ensures !Loses(s, a, x)
  {
    match a
    case Push(ch, m) => assert Full(s, Members(s, ch)) == {};
    case Leave(c) => assert Enrolled(s, c); MembersAreLive(s, c, s.gens[c].channel);
    case Read(c) => assert Enrolled(s, c); MembersAreLive(s, c, s.gens[c].channel);
    case Open(_, _) =>
  }

  lemma SharedStep(s: State, a: Action)
    requires WellFormed(s) && Bounded(s) && Shared(s) && Enabled(s, a) && !Evicts(s, a)
    ensures Shared(Next(s, a))
  {
    forall x | x in Next(s, a).gens
      ensures Enrolled(Next(s, a), x)
    {
      if x in s.gens {
        SharedLosesNobody(s, a, x);
        StepEnrolledIff(s, a, x);
      } else {
        StepEnrollsNew(s, a, x);
      }
    }
  }

  /** On every run without eviction nobody is lost, so the delivery law holds of every connection. */
  lemma {:induction false} QuietRunLosesNobody(s: State, actions: seq<Action>, s': State, x: Conn)
    requires WellFormed(s) && Bounded(s) && Shared(s) && Reaches(s, actions, s') && NoEviction(s, actions)
    ensures !LostDuring(s, actions, x) && Shared(s')
    decreases |actions|
  {
    if |actions| > 0 {
      NextKeeps(s, actions[0]);
      SharedStep(s, actions[0]);
      if x in s.gens {
        SharedLosesNobody(s, actions[0], x);
      }
      QuietRunLosesNobody(Next(s, actions[0]), actions[1..], s', x);
    }
  }

  /******* One eviction is enough *******/

  const CH := Task("t")
  const M := Log("m")

  function Copies(n: nat): seq<Message> {
    seq(n, i => M)
  }

  /** One connection that reads nothing, after `n` pushes. */
  function Filled(n: nat): State {
    State(map[CH := 0], map[0 := {0}], map[0 := Copies(n)], map[], map[0 := Gen(CH, 0, false)], 1, 1)
  }

  lemma FirstOpen()
    ensures Connect(START, CH, false) == Filled(0)
  {
    assert Registered(START) == {};
    var j := Joined(START, CH, false);
    assert Members(j, Global) == {};
    assert PushPresence(j).pending == map[0 := []];
  }

  lemma PushFills(n: nat)
    requires n < QUEUE_MAX
    ensures PushLog(Filled(n), CH, M) == Filled(n + 1)
  {
    var s := Filled(n);
    assert Members(s, CH) == {0};
    assert Full(s, {0}) == {};
    assert {0} - Full(s, {0}) == {0};
    assert Copies(n) + [M] == Copies(n + 1);
    assert PushLog(s, CH, M).pending == Filled(n + 1).pending;
    assert PushLog(s, CH, M).sets == Filled(n + 1).sets;
  }

  function Repeat(a: Action, n: nat): seq<Action> {
    if n == 0 then [] else [a] + Repeat(a, n - 1)
  }

  lemma StepReaches(s: State, a: Action, mid: State, rest: seq<Action>, s': State)
    requires Enabled(s, a) && Next(s, a) == mid && Reaches(mid, rest, s')
    ensures Reaches(s, [a] + rest, s')
  {
    assert ([a] + rest)[1..] == rest;
  }

  lemma RepeatFirst(a: Action, n: nat, rest: seq<Action>)
    requires n > 0
    ensures [a] + (Repeat(a, n - 1) + rest) == Repeat(a, n) + rest
  {
  }

  lemma FilledStep(n: nat, rest: seq<Action>, s: State)
    requires n < QUEUE_MAX && Reaches(Filled(n + 1), rest, s)
    ensures Reaches(Filled(n), [Push(CH, M)] + rest, s)
  {
    PushFills(n);
    StepReaches(Filled(n), Push(CH, M), Filled(n + 1), rest, s);
  }

  /** The remaining pushes fill the queue of a connection that reads nothing. */
  lemma {:induction false} FillReaches(n: nat, rest: seq<Action>, s: State)
    requires n <= QUEUE_MAX && Reaches(Filled(QUEUE_MAX), rest, s)
    ensures Reaches(Filled(QUEUE_MAX - n), Repeat(Push(CH, M), n) + rest, s)
    decreases n
  {
    if n == 0 {
      assert Repeat(Push(CH, M), n) + rest == rest;
    } else {
      FillReaches(n - 1, rest, s);
      FilledStep(QUEUE_MAX - n, Repeat(Push(CH, M), n - 1) + rest, s);
      RepeatFirst(Push(CH, M), n, rest);
    }
  }

  /** After the eviction the set is empty but still registered. */
  function AfterEviction(): State {
    State(map[CH := 0], map[0 := {}], map[0 := Evicted(Copies(QUEUE_MAX))], map[], map[0 := Gen(CH, 0, false)], 1, 1)
  }

  lemma PushEvicts()
    ensures PushLog(Filled(QUEUE_MAX), CH, M) == AfterEviction()
  {
    var s := Filled(QUEUE_MAX);
    assert Members(s, CH) == {0} && Full(s, {0}) == {0} && {0} - {0} == {};
    assert PushLog(s, CH, M).pending == AfterEviction().pending;
    assert PushLog(s, CH, M).sets == AfterEviction().sets;
  }

  lemma OpenAt(s: State, home: SetId)
    requires !AtCapacity(s) && Members(s, Global) == {} && Global !in s.queues && s.buffers == map[]
    requires home == if CH in s.queues then s.queues[CH] else s.nextSet
    ensures Connect(s, CH, false) ==
            State(s.queues[CH := home], s.sets[home := Members(s, CH) + {s.nextConn}], s.pending[s.nextConn := []], map[],
                  s.gens[s.nextConn := Gen(CH, home, false)], s.nextConn + 1, s.nextSet + 1)
  {
    var j := Joined(s, CH, false);
    assert Members(j, Global) == {};
    assert PushPresence(j).pending == j.pending;
    var none: seq<Message> := [];
    assert j.pending[s.nextConn] == none && none + none == none;
    assert j.pending[s.nextConn := none] == j.pending;
    assert s.buffers - {CH} == map[];
  }

  lemma LeaveAt(s: State, c: Conn)
    requires c in s.gens && Global !in s.queues
    ensures Close(s, c) == Left(s, c)
  {
    var l := Left(s, c);
    assert Members(l, Global) == {};
    assert PushPresence(l).pending == l.pending;
  }

  function Orphaned(): State {
    State(map[], map[0 := {}, 2 := {2}], map[0 := Evicted(Copies(QUEUE_MAX)), 1 := [], 2 := []], map[],
          map[2 := Gen(CH, 2, false)], 3, 3)
  }

  const LOST := Evicted(Copies(QUEUE_MAX))

  /** A second connection joins the emptied set, ... */
  function SecondIn(): State {
    State(map[CH := 0], map[0 := {1}], map[0 := LOST, 1 := []], map[],
          map[0 := Gen(CH, 0, false), 1 := Gen(CH, 0, false)], 2, 2)
  }

  /** ... leaves and takes the channel's entry with it, ... */
  function SecondOut(): State {
    State(map[], map[0 := {}], map[0 := LOST, 1 := []], map[], map[0 := Gen(CH, 0, false)], 2, 2)
  }

  /** ... a third connection gets a new set, and then the first generator cleans up. */
  function ThirdIn(): State {
    State(map[CH := 2], map[0 := {}, 2 := {2}], map[0 := LOST, 1 := [], 2 := []], map[],
          map[0 := Gen(CH, 0, false), 2 := Gen(CH, 2, false)], 3, 3)
  }

  lemma SecondJoins()
    ensures Connect(AfterEviction(), CH, false) == SecondIn()
  {
    var s := AfterEviction();
    assert Registered(s) == {};
    OpenAt(s, 0);
    assert {} + {1} == {1};
    assert s.queues[CH := 0] == SecondIn().queues && s.sets[0 := {1}] == SecondIn().sets;
  }

  lemma SecondLeaves()
    ensures Close(SecondIn(), 1) == SecondOut()
  {
    LeaveAt(SecondIn(), 1);
    assert {1} - {1} == {};
    assert SecondIn().queues - {CH} == SecondOut().queues && SecondIn().gens - {1} == SecondOut().gens;
    assert SecondIn().sets[0 := {}] == SecondOut().sets;
  }

  lemma ThirdJoins()
    ensures Connect(SecondOut(), CH, false) == ThirdIn()
  {
    var s := SecondOut();
    assert Registered(s) == {};
    OpenAt(s, 2);
    assert {} + {2} == {2};
    assert s.sets[2 := {2}] == ThirdIn().sets;
  }

  lemma FirstCleansUp()
    ensures Close(ThirdIn(), 0) == Orphaned()
  {
    LeaveAt(ThirdIn(), 0);
    assert {} - {0} == {};
    assert ThirdIn().queues - {CH} == Orphaned().queues && ThirdIn().gens - {0} == Orphaned().gens;
    assert ThirdIn().sets[0 := {}] == Orphaned().sets;
  }

  /** Everything that follows the thousand unread pushes. */
  lemma AftermathReaches() returns (actions: seq<Action>)
    ensures Reaches(Filled(QUEUE_MAX), actions, Orphaned())
  {
    actions := [];
    FirstCleansUp();
    StepReaches(ThirdIn(), Leave(0), Orphaned(), actions, Orphaned());
    actions := [Leave(0)] + actions;
    ThirdJoins();
    StepReaches(SecondOut(), Open(CH, false), ThirdIn(), actions, Orphaned());
    actions := [Open(CH, false)] + actions;
    SecondLeaves();
    StepReaches(SecondIn(), Leave(1), SecondOut(), actions, Orphaned());
    actions := [Leave(1)] + actions;
    SecondJoins();
    StepReaches(AfterEviction(), Open(CH, false), SecondIn(), actions, Orphaned());
    actions := [Open(CH, false)] + actions;
    PushEvicts();
    StepReaches(Filled(QUEUE_MAX), Push(CH, M), AfterEviction(), actions, Orphaned());
    actions := [Push(CH, M)] + actions;
  }

  /**
   After an eviction, an old generator's cleanup can pop a newer set: the third connection is
   live, yet a push to its channel goes to the buffer and never reaches it.
   */
  lemma EvictionOrphansNewerConnection() returns (actions: seq<Action>, s: State, c: Conn)
    ensures Reaches(START, actions, s) && On(s, c, CH) && c !in Members(s, CH)
    ensures Pending(PushLog(s, CH, M), c) == Pending(s, c) && PushLog(s, CH, M).buffers == map[CH := [M]]
  {
    var rest := AftermathReaches();
    var pushes := Repeat(Push(CH, M), QUEUE_MAX);
    FillReaches(QUEUE_MAX, rest, Orphaned());
    FirstOpen();
    StepReaches(START, Open(CH, false), Filled(0), pushes + rest, Orphaned());
    actions, s, c := [Open(CH, false)] + (pushes + rest), Orphaned(), 2;
    OrphanMisses();
  }

  lemma OrphanMisses()
    ensures var s := Orphaned();
            && On(s, 2, CH) && 2 !in Members(s, CH)
            && Pending(PushLog(s, CH, M), 2) == Pending(s, 2) && PushLog(s, CH, M).buffers == map[CH := [M]]
  {
    assert Members(Orphaned(), CH) == {};
    var none: map<Channel, seq<Message>> := map[];
    assert |none| == 0 && [] + [M] == [M];
    assert Buffered(none, CH, M) == map[CH := [M]];
  }
}
