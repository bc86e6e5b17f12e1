/**
 The broadcast hub: bounded queues per connection, replay buffers for channels nobody
 watches, and sets of queues that are objects, shared by identity between generators.
 */
module StreamManager {
  const QUEUE_MAX := 1000
  const BUFFER_MAX := 500
  const CHANNEL_MAX := 64
  const CONNECTION_MAX := 512

  datatype Channel = Global | Task(id: string)
  datatype Message = End | Log(text: string) | Presence(total: nat, authenticated: nat)
  type Conn = nat
  type SetId = nat

  /** A running generator: its channel, and the set object it was given. */
  datatype Gen = Gen(channel: Channel, home: SetId, who: bool)

  /** `sets` holds every set object ever made; `queues` says which one a channel has registered. */
  datatype State = State(
    queues: map<Channel, SetId>, sets: map<SetId, set<Conn>>, pending: map<Conn, seq<Message>>,
    buffers: map<Channel, seq<Message>>, gens: map<Conn, Gen>, nextConn: Conn, nextSet: SetId)

  const START := State(map[], map[], map[], map[], map[], 0, 0)

  function Members(s: State, ch: Channel): set<Conn> {
    if ch in s.queues && s.queues[ch] in s.sets then s.sets[s.queues[ch]] else {}
  }

  function Pending(s: State, c: Conn): seq<Message> {
    if c in s.pending then s.pending[c] else []
  }

  /** Who is connected, channel by channel: the size of this set is the connection count. */
  function Registered(s: State): set<(Channel, Conn)> {
    set ch, c | ch in s.queues && c in Members(s, ch) :: (ch, c)
  }

  /******* Steps *******/

  /** Put a message on every queue that has room. */
  function Offered(s: State, conns: set<Conn>, m: Message): map<Conn, seq<Message>> {
    OfferedTo(s.pending, conns, m)
  }

  function OfferedTo(pending: map<Conn, seq<Message>>, conns: set<Conn>, m: Message): map<Conn, seq<Message>> {
    map c | c in pending :: if c in conns && |pending[c]| < QUEUE_MAX then pending[c] + [m] else pending[c]
  }

  function Viewers(s: State): set<Conn> {
    set c | c in s.gens && s.gens[c].channel == Global
  }

  function PresenceOf(s: State): Message {
    Presence(|Viewers(s)|, |set c | c in Viewers(s) && s.gens[c].who|)
  }

  /** Presence goes to the global watchers; a full queue just misses it. */
  function PushPresence(s: State): State {
    s.(pending := Offered(s, Members(s, Global), PresenceOf(s)))
  }

  /** Nobody watches: keep the newest messages, for a bounded number of channels. */
  function Buffered(buffers: map<Channel, seq<Message>>, ch: Channel, m: Message): map<Channel, seq<Message>> {
    if ch !in buffers && |buffers| >= CHANNEL_MAX then buffers
    else
      var buf := (if ch in buffers then buffers[ch] else []) + [m];
      buffers[ch := if |buf| > BUFFER_MAX then buf[|buf| - BUFFER_MAX..] else buf]
  }

  function Full(s: State, conns: set<Conn>): set<Conn> {
    set c | c in conns && |Pending(s, c)| >= QUEUE_MAX
  }

  /** A full queue loses its head for the end marker and leaves the set. */
  function Evicted(queue: seq<Message>): seq<Message> {
    (if queue == [] then [] else queue[1..]) + [End]
  }

  function PushLog(s: State, ch: Channel, m: Message): State {
    var watchers := Members(s, ch);
    if watchers == {} then s.(buffers := Buffered(s.buffers, ch, m))
    else
      var dead := Full(s, watchers);
      s.(pending := map c | c in s.pending :: if c in dead then Evicted(s.pending[c]) else Offered(s, watchers, m)[c],
         sets := s.sets[s.queues[ch] := watchers - dead])
  }

  predicate AtCapacity(s: State) {
    |Registered(s)| >= CONNECTION_MAX
  }

  function ReplayOf(s: State, ch: Channel): seq<Message> {
    if ch in s.buffers then s.buffers[ch] else []
  }

  /** The state once a connection has its queue in the channel's set, before presence and replay. */
  function Joined(s: State, ch: Channel, who: bool): State {
    var home := if ch in s.queues then s.queues[ch] else s.nextSet;
    State(s.queues[ch := home], s.sets[home := Members(s, ch) + {s.nextConn}], s.pending[s.nextConn := []],
          s.buffers, s.gens[s.nextConn := Gen(ch, home, who)], s.nextConn + 1, s.nextSet + 1)
  }

  /** Joined, announced, and given the buffer. */
  function Subscribed(s: State, ch: Channel, who: bool): State {
    var j := PushPresence(Joined(s, ch, who));
    j.(pending := j.pending[s.nextConn := Pending(j, s.nextConn) + ReplayOf(s, ch)], buffers := s.buffers - {ch})
  }

  /** A generator starts, unless it is refused at capacity. */
  function Connect(s: State, ch: Channel, who: bool): State {
    if AtCapacity(s) then s else Subscribed(s, ch, who)
  }

  /** A leaving generator empties its own set, and if that set is empty the channel's entry goes. */
  function Left(s: State, c: Conn): State
    requires c in s.gens
  {
    var g := s.gens[c];
    var rest := (if g.home in s.sets then s.sets[g.home] else {}) - {c};
    s.(sets := s.sets[g.home := rest], gens := s.gens - {c},
       queues := if rest == {} then s.queues - {g.channel} else s.queues)
  }

  /** A generator ends, and the others hear of it. */
  function Close(s: State, c: Conn): State
    requires c in s.gens
  {
    PushPresence(Left(s, c))
  }

  function Taken(s: State, c: Conn): State
    requires Pending(s, c) != []
  {
    s.(pending := s.pending[c := Pending(s, c)[1..]])
  }

  /** A generator takes the head of its queue; the end marker ends it. */
  function Take(s: State, c: Conn): State
    requires c in s.gens && Pending(s, c) != []
  {
    if Pending(s, c)[0] == End then Close(Taken(s, c), c) else Taken(s, c)
  }

  /******* Runs *******/

  datatype Action = Push(ch: Channel, m: Message) | Open(ch: Channel, who: bool) | Read(c: Conn) | Leave(c: Conn)

  predicate Enabled(s: State, a: Action) {
    match a
    case Read(c) => c in s.gens && Pending(s, c) != []
    case Leave(c) => c in s.gens
    case _ => true
  }

  function Next(s: State, a: Action): State
    requires Enabled(s, a)
  {
    match a
    case Push(ch, m) => PushLog(s, ch, m)
    case Open(ch, who) => Connect(s, ch, who)
    case Read(c) => Take(s, c)
    case Leave(c) => Close(s, c)
  }

  /** A push that finds a full queue. */
  predicate Evicts(s: State, a: Action) {
    a.Push? && Full(s, Members(s, a.ch)) != {}
  }

  /******* What every step keeps *******/

  /** Registered sets exist, and no two channels share one. */
  ghost predicate QueuesOk(s: State) {
    && (forall ch :: ch in s.queues ==> s.queues[ch] in s.sets)
    && (forall ch, ch' :: ch in s.queues && ch' in s.queues && s.queues[ch] == s.queues[ch'] ==> ch == ch')
  }

  /** A queue sits in no set but its own generator's. */
  ghost predicate SetsOk(s: State) {
    forall x, c :: x in s.sets && c in s.sets[x] ==> c in s.gens && s.gens[c].home == x
  }

  ghost predicate GensOk(s: State) {
    && (forall c :: c in s.gens ==> c in s.pending && s.gens[c].home in s.sets)
    && (forall ch, c :: ch in s.queues && c in s.gens && s.gens[c].home == s.queues[ch] ==> s.gens[c].channel == ch)
  }

  ghost predicate IdsOk(s: State) {
    && (forall x :: x in s.sets ==> x < s.nextSet)
    && (forall c :: c in s.pending ==> c < s.nextConn)
  }

  ghost predicate WellFormed(s: State) {
    QueuesOk(s) && SetsOk(s) && GensOk(s) && IdsOk(s)
  }

  ghost predicate Bounded(s: State) {
    && (forall c :: c in s.pending ==> |s.pending[c]| <= QUEUE_MAX)
    && (forall ch :: ch in s.buffers ==> |s.buffers[ch]| <= BUFFER_MAX)
    && |s.buffers| <= CHANNEL_MAX
    && |Registered(s)| <= CONNECTION_MAX
  }

  lemma PresenceFrame(s: State)
    ensures var p := PushPresence(s);
            && p == s.(pending := p.pending) && p.pending.Keys == s.pending.Keys
            && (forall c :: c in s.pending && c !in Members(s, Global) ==> p.pending[c] == s.pending[c])
            && (forall c :: c in s.pending ==> s.pending[c] <= p.pending[c] && |p.pending[c]| <= |s.pending[c]| + 1)
            && (forall c :: c in s.pending && |s.pending[c]| <= QUEUE_MAX ==> |p.pending[c]| <= QUEUE_MAX)
  {
  }

  lemma SubsetCard<T>(a: set<T>, b: set<T>)
    requires a <= b
    ensures |a| <= |b|
  {
    var rest := b - a;
    assert b == a + rest;
  }

  lemma BufferedBounds(buffers: map<Channel, seq<Message>>, ch: Channel, m: Message)
    requires (forall x :: x in buffers ==> |buffers[x]| <= BUFFER_MAX) && |buffers| <= CHANNEL_MAX
    ensures var b := Buffered(buffers, ch, m);
            (forall x :: x in b ==> |b[x]| <= BUFFER_MAX) && |b| <= CHANNEL_MAX
  {
    if ch in buffers || |buffers| < CHANNEL_MAX {
      var buf := (if ch in buffers then buffers[ch] else []) + [m];
      PutSize(buffers, ch, if |buf| > BUFFER_MAX then buf[|buf| - BUFFER_MAX..] else buf);
    }
  }

  lemma PutSize(buffers: map<Channel, seq<Message>>, ch: Channel, buf: seq<Message>)
    ensures |buffers[ch := buf]| == |buffers| + if ch in buffers then 0 else 1
  {
    var b := buffers[ch := buf];
    assert b.Keys == buffers.Keys + {ch};
    assert |b| == |b.Keys| && |buffers| == |buffers.Keys|;
  }

  /** What queues and buffers hold does not matter to the shape. */
  lemma ContentsDoNotMatter(s: State, s': State)
    requires WellFormed(s)
    requires s' == s.(pending := s'.pending, buffers := s'.buffers) && s'.pending.Keys == s.pending.Keys
    ensures WellFormed(s') && Registered(s') == Registered(s)
  {
    assert forall ch :: Members(s', ch) == Members(s, ch);
  }

  lemma ShrunkSetWellFormed(s: State, x: SetId, rest: set<Conn>)
    requires WellFormed(s) && x in s.sets && rest <= s.sets[x]
    ensures WellFormed(s.(sets := s.sets[x := rest]))
  {
  }

  lemma PushWellFormed(s: State, ch: Channel, m: Message)
    requires WellFormed(s)
    ensures WellFormed(PushLog(s, ch, m))
  {
    var watchers := Members(s, ch);
    var s' := PushLog(s, ch, m);
    if watchers == {} {
      ContentsDoNotMatter(s, s');
    } else {
      var mid := s.(sets := s.sets[s.queues[ch] := watchers - Full(s, watchers)]);
      ShrunkSetWellFormed(s, s.queues[ch], watchers - Full(s, watchers));
      ContentsDoNotMatter(mid, s');
    }
  }

  /** Removing members and entries only shrinks what is registered. */
  lemma RegisteredShrinks(s: State, s': State)
    requires s'.queues.Keys <= s.queues.Keys && forall ch :: ch in s'.queues ==> Members(s', ch) <= Members(s, ch)
    ensures |Registered(s')| <= |Registered(s)|
  {
    forall x | x in Registered(s')
      ensures x in Registered(s)
    {
      assert x.1 in Members(s', x.0);
    }
    SubsetCard(Registered(s'), Registered(s));
  }

  lemma PushKeeps(s: State, ch: Channel, m: Message)
    requires WellFormed(s) && Bounded(s)
    ensures WellFormed(PushLog(s, ch, m)) && Bounded(PushLog(s, ch, m))
  {
    PushWellFormed(s, ch, m);
    BufferedBounds(s.buffers, ch, m);
    PushShrinks(s, ch, m);
    PushFits(s, ch, m);
  }

  lemma PushShrinks(s: State, ch: Channel, m: Message)
    requires WellFormed(s)
    ensures |Registered(PushLog(s, ch, m))| <= |Registered(s)|
  {
    var s' := PushLog(s, ch, m);
    forall x | x in s'.queues
      ensures Members(s', x) <= Members(s, x)
    {
    }
    RegisteredShrinks(s, s');
  }

  lemma PushFits(s: State, ch: Channel, m: Message)
    requires Bounded(s)
    ensures forall c :: c in PushLog(s, ch, m).pending ==> |PushLog(s, ch, m).pending[c]| <= QUEUE_MAX
  {
  }

  lemma LeftKeeps(s: State, c: Conn)
    requires WellFormed(s) && c in s.gens
    ensures WellFormed(Left(s, c)) && |Registered(Left(s, c))| <= |Registered(s)|
  {
    var s' := Left(s, c);
    forall x | x in s'.queues
      ensures Members(s', x) <= Members(s, x)
    {
    }
    RegisteredShrinks(s, s');
  }

  lemma PresenceKeeps(s: State)
    requires WellFormed(s)
    ensures WellFormed(PushPresence(s)) && Registered(PushPresence(s)) == Registered(s)
  {
    PresenceFrame(s);
    var p := PushPresence(s);
    assert forall ch :: Members(p, ch) == Members(s, ch);
  }

  lemma CloseKeeps(s: State, c: Conn)
    requires WellFormed(s) && Bounded(s) && c in s.gens
    ensures WellFormed(Close(s, c)) && Bounded(Close(s, c))
  {
    LeftKeeps(s, c);
    PresenceFrame(Left(s, c));
    PresenceKeeps(Left(s, c));
  }

  /** A queue without its head is no less well-formed. */
  lemma TakenKeeps(s: State, c: Conn)
    requires WellFormed(s) && Bounded(s) && c in s.gens && Pending(s, c) != []
    ensures WellFormed(Taken(s, c)) && Bounded(Taken(s, c))
  {
    assert Taken(s, c).pending.Keys == s.pending.Keys;
    ContentsDoNotMatter(s, Taken(s, c));
  }

  lemma TakeKeeps(s: State, c: Conn)
    requires WellFormed(s) && Bounded(s) && c in s.gens && Pending(s, c) != []
    ensures WellFormed(Take(s, c)) && Bounded(Take(s, c))
  {
    TakenKeeps(s, c);
    if Pending(s, c)[0] == End {
      CloseKeeps(Taken(s, c), c);
    }
  }

  lemma JoinedMembers(s: State, ch: Channel, who: bool, x: Channel)
    requires WellFormed(s)
    ensures Members(Joined(s, ch, who), x) == Members(s, x) + if x == ch then {s.nextConn} else {}
  {
    if x in s.queues && ch in s.queues && s.queues[x] == s.queues[ch] {
      assert x == ch;
    }
  }

  lemma JoinedRegistered(s: State, ch: Channel, who: bool)
    requires WellFormed(s)
    ensures Registered(Joined(s, ch, who)) == Registered(s) + {(ch, s.nextConn)}
  {
    var j := Joined(s, ch, who);
    forall x
      ensures x in Registered(j) <==> x in Registered(s) + {(ch, s.nextConn)}
    {
      JoinedMembers(s, ch, who, x.0);
    }
  }

  lemma JoinedWellFormed(s: State, ch: Channel, who: bool)
    requires WellFormed(s)
    ensures WellFormed(Joined(s, ch, who))
  {
    JoinedQueuesOk(s, ch, who);
    JoinedSetsOk(s, ch, who);
    JoinedGensOk(s, ch, who);
  }

  lemma JoinedQueuesOk(s: State, ch: Channel, who: bool)
    requires WellFormed(s)
    ensures QueuesOk(Joined(s, ch, who))
  {
    assert s.nextSet !in s.sets;
  }

  lemma JoinedSetsOk(s: State, ch: Channel, who: bool)
    requires WellFormed(s)
    ensures SetsOk(Joined(s, ch, who))
  {
    var j := Joined(s, ch, who);
    assert s.nextConn !in s.gens && s.nextSet !in s.sets;
    forall x, c | x in j.sets && c in j.sets[x]
      ensures c in j.gens && j.gens[c].home == x
    {
      if c != s.nextConn {
        assert x in s.sets && c in s.sets[x];
      }
    }
  }

  lemma JoinedGensOk(s: State, ch: Channel, who: bool)
    requires WellFormed(s)
    ensures GensOk(Joined(s, ch, who)) && IdsOk(Joined(s, ch, who))
  {
    assert s.nextConn !in s.gens && s.nextSet !in s.sets;
  }

  /** The replay at connect never overflows: at most one presence and one bounded buffer. */
  lemma ReplayFits(s: State, ch: Channel, who: bool)
    requires WellFormed(s) && Bounded(s) && !AtCapacity(s)
    ensures |Pending(Connect(s, ch, who), s.nextConn)| <= 1 + BUFFER_MAX <= QUEUE_MAX
  {
    PresenceFrame(Joined(s, ch, who));
  }

  lemma ConnectWellFormed(s: State, ch: Channel, who: bool)
    requires WellFormed(s) && !AtCapacity(s)
    ensures var s' := Connect(s, ch, who);
            WellFormed(s') && Registered(s') == Registered(s) + {(ch, s.nextConn)}
  {
    AnnouncedWellFormed(s, ch, who);
    var p, s' := PushPresence(Joined(s, ch, who)), Connect(s, ch, who);
    ReplayedFrame(s, ch, who);
    ContentsDoNotMatter(p, s');
  }

  /** The replay changes what one queue holds, and nothing else. */
  lemma ReplayedFrame(s: State, ch: Channel, who: bool)
    requires !AtCapacity(s) && s.nextConn in PushPresence(Joined(s, ch, who)).pending
    ensures var p, s' := PushPresence(Joined(s, ch, who)), Connect(s, ch, who);
            s' == p.(pending := s'.pending, buffers := s'.buffers) && s'.pending.Keys == p.pending.Keys
  {
    assert Connect(s, ch, who).pending.Keys == PushPresence(Joined(s, ch, who)).pending.Keys;
  }

  lemma AnnouncedWellFormed(s: State, ch: Channel, who: bool)
    requires WellFormed(s)
    ensures var p := PushPresence(Joined(s, ch, who));
            WellFormed(p) && Registered(p) == Registered(s) + {(ch, s.nextConn)} && s.nextConn in p.pending
  {
    var j := Joined(s, ch, who);
    JoinedWellFormed(s, ch, who);
    JoinedRegistered(s, ch, who);
    PresenceKeeps(j);
    PresenceFrame(j);
  }

  lemma ConnectPending(s: State, ch: Channel, who: bool, c: Conn)
    requires WellFormed(s) && Bounded(s) && !AtCapacity(s) && c in Connect(s, ch, who).pending
    ensures |Connect(s, ch, who).pending[c]| <= QUEUE_MAX
  {
    PresenceFrame(Joined(s, ch, who));
    if c == s.nextConn {
      ReplayFits(s, ch, who);
    }
  }

  lemma ConnectKeeps(s: State, ch: Channel, who: bool)
    requires WellFormed(s) && Bounded(s)
    ensures WellFormed(Connect(s, ch, who)) && Bounded(Connect(s, ch, who))
  {
    if !AtCapacity(s) {
      var s' := Connect(s, ch, who);
      ConnectWellFormed(s, ch, who);
      forall c | c in s'.pending
        ensures |s'.pending[c]| <= QUEUE_MAX
      {
        ConnectPending(s, ch, who, c);
      }
      assert s'.buffers == s.buffers - {ch};
      SubsetCard(s'.buffers.Keys, s.buffers.Keys);
      assert |s'.buffers| == |s'.buffers.Keys| && |s.buffers| == |s.buffers.Keys|;
    }
  }

  ghost predicate Reaches(s: State, actions: seq<Action>, s': State)
    decreases |actions|
  {
    if |actions| == 0 then s == s'
    else Enabled(s, actions[0]) && Reaches(Next(s, actions[0]), actions[1..], s')
  }

  lemma NextKeeps(s: State, a: Action)
    requires WellFormed(s) && Bounded(s) && Enabled(s, a)
    ensures WellFormed(Next(s, a)) && Bounded(Next(s, a))
  {
    match a
    case Push(ch, m) => PushKeeps(s, ch, m);
    case Open(ch, who) => ConnectKeeps(s, ch, who);
    case Read(c) => TakeKeeps(s, c);
    case Leave(c) => CloseKeeps(s, c);
  }

  lemma {:induction false} RunKeeps(s: State, actions: seq<Action>, s': State)
    requires WellFormed(s) && Bounded(s) && Reaches(s, actions, s')
    ensures WellFormed(s') && Bounded(s')
    decreases |actions|
  {
    if |actions| > 0 {
      NextKeeps(s, actions[0]);
      RunKeeps(Next(s, actions[0]), actions[1..], s');
    }
  }

  /** Over every run: queues, buffers, buffered channels and connections stay within their caps. */
  lemma AlwaysBounded(actions: seq<Action>, s: State)
    requires Reaches(START, actions, s)
    ensures WellFormed(s) && Bounded(s)
  {
    assert Registered(START) == {};
    RunKeeps(START, actions, s);
  }

  /**
   What an eviction costs: a full queue keeps everything but its head, misses the new message,
   ends with the marker, and leaves the channel's set; every other watcher gets the message.
   */
  lemma EvictionLosesHead(s: State, ch: Channel, m: Message, c: Conn)
    requires WellFormed(s) && Bounded(s) && c in Members(s, ch)
    ensures var s' := PushLog(s, ch, m);
            if |Pending(s, c)| == QUEUE_MAX
            then Pending(s', c) == Pending(s, c)[1..] + [End] && c !in Members(s', ch)
            else Pending(s', c) == Pending(s, c) + [m] && c in Members(s', ch)
  {
    assert c in s.gens;
  }
}
