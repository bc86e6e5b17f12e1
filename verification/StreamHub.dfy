/**
 The hub itself, as the object whose fields the event loop updates. Every method is one
 uninterrupted turn of the loop and lands exactly where the step function says.
 */
module StreamHub {
  import opened Values
  import opened StreamManager

  /******* Counting *******/

  /** These are the connections registered under some of the channels. */
  ghost predicate Covers(seen: set<(Channel, Conn)>, s: State, chs: set<Channel>) {
    forall p :: p in seen <==> p.0 in chs && p.1 in Members(s, p.0)
  }

  function Tagged(ch: Channel, conns: set<Conn>): set<(Channel, Conn)> {
    set c | c in conns :: (ch, c)
  }

  lemma {:induction false} TaggedSize(ch: Channel, conns: set<Conn>)
    ensures |Tagged(ch, conns)| == |conns|
  {
    if conns == {} {
      assert Tagged(ch, conns) == {};
    } else {
      var c :| c in conns;
      TaggedSize(ch, conns - {c});
      assert Tagged(ch, conns) == Tagged(ch, conns - {c}) + {(ch, c)};
    }
  }

  lemma OneMoreChannel(seen: set<(Channel, Conn)>, s: State, chs: set<Channel>, ch: Channel)
    requires ch !in chs && Covers(seen, s, chs)
    ensures Covers(seen + Tagged(ch, Members(s, ch)), s, chs + {ch})
    ensures |seen + Tagged(ch, Members(s, ch))| == |seen| + |Members(s, ch)|
  {
    assert seen !! Tagged(ch, Members(s, ch));
    TaggedSize(ch, Members(s, ch));
  }

  lemma AllCovered(seen: set<(Channel, Conn)>, s: State)
    requires Covers(seen, s, s.queues.Keys)
    ensures seen == Registered(s)
  {
    forall p: (Channel, Conn)
      ensures p in seen <==> p in Registered(s)
    {
    }
  }

  /******* Partial effects, for the loops *******/

  /** Of some queues, the full ones. */
  function FullIn(pending: map<Conn, seq<Message>>, conns: set<Conn>): set<Conn> {
    set c | c in conns && c in pending && |pending[c]| >= QUEUE_MAX
  }

  lemma PutOnOne(pending: map<Conn, seq<Message>>, done: set<Conn>, c: Conn, m: Message)
    requires c in pending && c !in done
    ensures OfferedTo(pending, done, m)[c] == pending[c]
    ensures OfferedTo(pending, done + {c}, m) ==
            if |pending[c]| < QUEUE_MAX then OfferedTo(pending, done, m)[c := pending[c] + [m]] else OfferedTo(pending, done, m)
    ensures FullIn(pending, done + {c}) == FullIn(pending, done) + if |pending[c]| < QUEUE_MAX then {} else {c}
  {
  }

  lemma NoneOffered(pending: map<Conn, seq<Message>>, m: Message)
    ensures OfferedTo(pending, {}, m) == pending && FullIn(pending, {}) == {}
  {
  }

  /** One element moves from what is to do to what is done. */
  lemma OneDone(all: set<Conn>, todo: set<Conn>, c: Conn)
    requires c in todo && todo <= all
    ensures all - (todo - {c}) == (all - todo) + {c} && c !in all - todo
  {
  }

  function EvictedAll(pending: map<Conn, seq<Message>>, dead: set<Conn>): map<Conn, seq<Message>> {
    map c | c in pending :: if c in dead then Evicted(pending[c]) else pending[c]
  }

  lemma NothingEvicted(pending: map<Conn, seq<Message>>)
    ensures EvictedAll(pending, {}) == pending
  {
  }

  lemma EvictedOne(pending: map<Conn, seq<Message>>, done: set<Conn>, c: Conn)
    requires c in pending && c !in done
    ensures EvictedAll(pending, done)[c] == pending[c]
    ensures EvictedAll(pending, done + {c}) == EvictedAll(pending, done)[c := Evicted(pending[c])]
  {
  }

  /** Full queues were not offered the message, so evicting after the offer is evicting before it. */
  lemma EvictedAfterOffer(s: State, watchers: set<Conn>, m: Message)
    ensures EvictedAll(Offered(s, watchers, m), Full(s, watchers)) ==
            map c | c in s.pending :: if c in Full(s, watchers) then Evicted(s.pending[c]) else Offered(s, watchers, m)[c]
  {
  }

  lemma WatchersHaveQueues(s: State, ch: Channel)
    requires WellFormed(s)
    ensures Members(s, ch) <= s.pending.Keys
  {
  }

  /** Every watcher of the global channel has a queue. */
  predicate HasGlobalQueues(s: State) {
    Global in s.queues ==> s.queues[Global] in s.sets && s.sets[s.queues[Global]] <= s.pending.Keys
  }

  lemma GlobalQueues(s: State)
    requires WellFormed(s)
    ensures HasGlobalQueues(s)
  {
    if Global in s.queues {
      WatchersHaveQueues(s, Global);
    }
  }

  /** What the replay finds: the joined state's presence, the old buffers, and room for one of them. */
  lemma SubscribedQueue(s: State, ch: Channel, who: bool)
    ensures var p := PushPresence(Joined(s, ch, who));
            && p.buffers == s.buffers && s.nextConn in p.pending && p.nextConn == s.nextConn + 1
            && Pending(Subscribed(s, ch, who), s.nextConn) == p.pending[s.nextConn] + ReplayOf(s, ch)
  {
  }

  lemma JoinedSets(sets: map<SetId, set<Conn>>, home: SetId, members: set<Conn>, c: Conn)
    ensures sets[home := members][home := members + {c}] == sets[home := members + {c}]
  {
  }

  /** Channel by channel, how many queues are registered. */
  method CountRegistered(queues: map<Channel, SetId>, sets: map<SetId, set<Conn>>, ghost s: State) returns (n: nat)
    requires s.queues == queues && s.sets == sets && forall ch :: ch in queues ==> queues[ch] in sets
    ensures n == |Registered(s)|
  {
    var todo := queues.Keys;
    ghost var done: set<Channel>, seen: set<(Channel, Conn)> := {}, {};
    n := 0;
    while todo != {}
      invariant todo !! done && todo + done == queues.Keys
      invariant Covers(seen, s, done) && n == |seen|
      decreases |todo|
    {
      var ch :| ch in todo;
      OneMoreChannel(seen, s, done, ch);
      n, seen := n + |sets[queues[ch]]|, seen + Tagged(ch, Members(s, ch));
      todo, done := todo - {ch}, done + {ch};
    }
    assert done == queues.Keys;
    AllCovered(seen, s);
  }

  /** Queue by queue: put the message, or note that the queue is full. */
  method PutNoWait(queues: map<Conn, seq<Message>>, conns: set<Conn>, m: Message)
    returns (pending: map<Conn, seq<Message>>, dead: set<Conn>)
    requires conns <= queues.Keys
    ensures pending == OfferedTo(queues, conns, m) && dead == FullIn(queues, conns)
  {
    var todo := conns;
    pending, dead := queues, {};
    NoneOffered(queues, m);
    assert conns - todo == {};
    while todo != {}
      invariant todo <= conns
      invariant pending == OfferedTo(queues, conns - todo, m) && dead == FullIn(queues, conns - todo)
      decreases |todo|
    {
      var c :| c in todo;
      OneDone(conns, todo, c);
      PutOnOne(queues, conns - todo, c, m);
      if |pending[c]| < QUEUE_MAX {
        pending := pending[c := pending[c] + [m]];
      } else {
        dead := dead + {c};
      }
      todo := todo - {c};
    }
    assert conns - todo == conns;
  }

  method EvictQueues(queues: map<Conn, seq<Message>>, conns: set<Conn>, dead: set<Conn>)
    returns (pending: map<Conn, seq<Message>>, live: set<Conn>)
    requires dead <= queues.Keys
    ensures pending == EvictedAll(queues, dead) && live == conns - dead
  {
    var todo := dead;
    pending, live := queues, conns;
    NothingEvicted(queues);
    assert dead - todo == {};
    while todo != {}
      invariant todo <= dead
      invariant pending == EvictedAll(queues, dead - todo) && live == conns - (dead - todo)
      decreases |todo|
    {
      var c :| c in todo;
      OneDone(dead, todo, c);
      EvictedOne(queues, dead - todo, c);
      live := live - {c};
      pending := pending[c := Evicted(pending[c])];
      todo := todo - {c};
    }
    assert dead - todo == dead;
  }

  class Hub {
    var queues: map<Channel, SetId>
    var sets: map<SetId, set<Conn>>
    var pending: map<Conn, seq<Message>>
    var buffers: map<Channel, seq<Message>>
    var gens: map<Conn, Gen>
    var nextConn: Conn
    var nextSet: SetId

    ghost function Contents(): State
      reads this
    {
      State(queues, sets, pending, buffers, gens, nextConn, nextSet)
    }

    ghost predicate Valid()
      reads this
    {
      WellFormed(Contents()) && Bounded(Contents())
    }

    constructor ()
      ensures Valid() && Contents() == START
    {
      queues, sets, pending, buffers, gens := map[], map[], map[], map[], map[];
      nextConn, nextSet := 0, 0;
      new;
      assert Registered(START) == {};
    }

    method ConnectionCount() returns (n: nat)
      requires forall ch :: ch in queues ==> queues[ch] in sets
      ensures n == |Registered(Contents())|
    {
      n := CountRegistered(queues, sets, Contents());
    }

    method PresenceCounts() returns (total: nat, authenticated: nat)
      ensures Presence(total, authenticated) == PresenceOf(Contents())
    {
      ghost var s := Contents();
      total, authenticated := 0, 0;
      var todo := gens.Keys;
      ghost var viewers: set<Conn>, known: set<Conn> := {}, {};
      while todo != {}
        invariant todo <= gens.Keys && viewers !! todo && known <= viewers
        invariant viewers == set c | c in Viewers(s) && c !in todo
        invariant known == set c | c in viewers && s.gens[c].who
        invariant total == |viewers| && authenticated == |known|
        decreases |todo|
      {
        var c :| c in todo;
        todo := todo - {c};
        if gens[c].channel == Global {
          total, viewers := total + 1, viewers + {c};
          if gens[c].who {
            authenticated, known := authenticated + 1, known + {c};
          }
        }
      }
      assert viewers == Viewers(s);
      assert known == set c | c in Viewers(s) && s.gens[c].who;
    }

    /** Put a message on every queue of a set that has room, and report the full ones. */
    method Offer(conns: set<Conn>, m: Message) returns (dead: set<Conn>)
      requires conns <= pending.Keys
      modifies this`pending
      ensures Contents() == old(Contents()).(pending := Offered(old(Contents()), conns, m))
      ensures dead == Full(old(Contents()), conns)
    {
      pending, dead := PutNoWait(pending, conns, m);
    }

    method PushPresence()
      requires HasGlobalQueues(Contents())
      modifies this`pending
      ensures Contents() == StreamManager.PushPresence(old(Contents()))
    {
      var total, authenticated := PresenceCounts();
      if Global in queues {
        var dead := Offer(sets[queues[Global]], Presence(total, authenticated));
      } else {
        NoneOffered(pending, Presence(total, authenticated));
      }
    }

    method AtCapacity() returns (full: bool)
      requires forall ch :: ch in queues ==> queues[ch] in sets
      ensures full == StreamManager.AtCapacity(Contents())
    {
      var n := ConnectionCount();
      full := n >= CONNECTION_MAX;
    }

    /** Take the head off every full queue, end it, and drop it from its set. */
    method Evict(home: SetId, dead: set<Conn>)
      requires home in sets && dead <= pending.Keys
      modifies this`pending, this`sets
      ensures pending == EvictedAll(old(pending), dead)
      ensures sets == old(sets)[home := old(sets)[home] - dead]
    {
      var live;
      pending, live := EvictQueues(pending, sets[home], dead);
      sets := sets[home := live];
    }

    /** Nobody watches: keep the newest messages, for a bounded number of channels. */
    method Keep(ch: Channel, m: Message)
      modifies this`buffers
      ensures buffers == Buffered(old(buffers), ch, m)
    {
      if ch in buffers || |buffers| < CHANNEL_MAX {
        var buf := (if ch in buffers then buffers[ch] else []) + [m];
        if |buf| > BUFFER_MAX {
          buf := buf[|buf| - BUFFER_MAX..];
        }
        buffers := buffers[ch := buf];
      }
    }

    method Broadcast(ch: Channel, m: Message)
      requires ch in queues && queues[ch] in sets && {} < sets[queues[ch]] <= pending.Keys
      modifies this`pending, this`sets
      ensures Contents() == StreamManager.PushLog(old(Contents()), ch, m)
    {
      ghost var s := Contents();
      var watchers := sets[queues[ch]];
      var dead := Offer(watchers, m);
      Evict(queues[ch], dead);
      EvictedAfterOffer(s, watchers, m);
    }

    method PushLog(ch: Channel, m: Message)
      requires Valid()
      modifies this`pending, this`sets, this`buffers
      ensures Valid() && Contents() == StreamManager.PushLog(old(Contents()), ch, m)
    {
      PushKeeps(Contents(), ch, m);
      WatchersHaveQueues(Contents(), ch);
      if ch in queues && sets[queues[ch]] != {} {
        Broadcast(ch, m);
      } else {
        Keep(ch, m);
      }
    }

    /** A generator starts. At capacity nothing changes. */
    method Connect(ch: Channel, who: bool) returns (c: Option<Conn>)
      requires Valid()
      modifies this
      ensures Valid() && Contents() == StreamManager.Connect(old(Contents()), ch, who)
      ensures c == if StreamManager.AtCapacity(old(Contents())) then None else Some(old(nextConn))
    {
      ConnectKeeps(Contents(), ch, who);
      var full := AtCapacity();
      if full {
        c := None;
      } else {
        c := Some(nextConn);
        ReplayFits(Contents(), ch, who);
        JoinedWellFormed(Contents(), ch, who);
        GlobalQueues(Joined(Contents(), ch, who));
        Subscribe(ch, who);
      }
    }

    method Subscribe(ch: Channel, who: bool)
      requires (ch in queues ==> queues[ch] in sets) && HasGlobalQueues(Joined(Contents(), ch, who))
      requires |Pending(Subscribed(Contents(), ch, who), nextConn)| <= QUEUE_MAX
      modifies this
      ensures Contents() == Subscribed(old(Contents()), ch, who)
    {
      SubscribedQueue(Contents(), ch, who);
      Announce(ch, who);
      var buf := if ch in buffers then buffers[ch] else [];
      buffers := buffers - {ch};
      Replay(buf, nextConn - 1);
    }

    method Announce(ch: Channel, who: bool)
      requires (ch in queues ==> queues[ch] in sets) && HasGlobalQueues(Joined(Contents(), ch, who))
      modifies this
      ensures Contents() == StreamManager.PushPresence(Joined(old(Contents()), ch, who))
    {
      Join(ch, who);
      PushPresence();
    }

    /** The channel's set, made if there is none. */
    method GetQueues(ch: Channel) returns (home: SetId)
      requires ch in queues ==> queues[ch] in sets
      modifies this`queues, this`sets
      ensures home == (if ch in old(queues) then old(queues)[ch] else nextSet)
      ensures queues == old(queues)[ch := home]
      ensures sets == old(sets)[home := Members(old(Contents()), ch)]
    {
      if ch !in queues {
        queues, sets := queues[ch := nextSet], sets[nextSet := {}];
      }
      home := queues[ch];
    }

    method Join(ch: Channel, who: bool)
      requires ch in queues ==> queues[ch] in sets
      modifies this
      ensures Contents() == Joined(old(Contents()), ch, who)
    {
      ghost var s := Contents();
      var home := GetQueues(ch);
      sets := sets[home := sets[home] + {nextConn}];
      JoinedSets(s.sets, home, Members(s, ch), nextConn);
      pending, gens := pending[nextConn := []], gens[nextConn := Gen(ch, home, who)];
      nextConn, nextSet := nextConn + 1, nextSet + 1;
    }

    /** Hand a buffer over; there is always room for it. */
    method Replay(buf: seq<Message>, c: Conn)
      requires c in pending && |pending[c]| + |buf| <= QUEUE_MAX
      modifies this`pending
      ensures pending == old(pending)[c := old(pending)[c] + buf]
    {
      assert pending[c] + buf[..0] == pending[c];
      for i := 0 to |buf|
        invariant c in pending && pending == old(pending)[c := old(pending)[c] + buf[..i]]
      {
        assert |pending[c]| < QUEUE_MAX;
        assert old(pending)[c] + buf[..i] + [buf[i]] == old(pending)[c] + buf[..i + 1];
        pending := pending[c := pending[c] + [buf[i]]];
      }
      assert buf[..|buf|] == buf;
    }

    /** A generator's cleanup, which looks only at the set object it was given. */
    method Close(c: Conn)
      requires Valid() && c in gens
      modifies this`sets, this`gens, this`queues, this`pending
      ensures Valid() && Contents() == StreamManager.Close(old(Contents()), c)
    {
      CloseKeeps(Contents(), c);
      LeftKeeps(Contents(), c);
      GlobalQueues(Left(Contents(), c));
      Drop(c);
      PushPresence();
    }

    method Drop(c: Conn)
      requires c in gens && gens[c].home in sets
      modifies this`sets, this`gens, this`queues
      ensures Contents() == Left(old(Contents()), c)
    {
      var g := gens[c];
      sets := sets[g.home := sets[g.home] - {c}];
      gens := gens - {c};
      if sets[g.home] == {} {
        queues := queues - {g.channel};
      }
    }

    /** A generator takes one message; `None` is the end marker, after which it is gone. */
    method Take(c: Conn) returns (m: Option<Message>)
      requires Valid() && c in gens && pending[c] != []
      modifies this`sets, this`gens, this`queues, this`pending
      ensures Valid() && Contents() == StreamManager.Take(old(Contents()), c)
      ensures m == if old(pending)[c][0] == End then None else Some(old(pending)[c][0])
    {
      ghost var s := Contents();
      TakeKeeps(s, c);
      var head := pending[c][0];
      pending := pending[c := pending[c][1..]];
      if head == End {
        TakenKeeps(s, c);
        Close(c);
        m := None;
      } else {
        m := Some(head);
      }
    }
  }
}
