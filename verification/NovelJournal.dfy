/**
 The migration derives a book's ledger from its journals alone. For accepted journals over
 a bible with one lead and no node done, the derived rows are the rows booking appends.
 */
module NovelJournal {
  import opened Values
  import opened NovelState
  import opened NovelPosting

  /******* Deriving rows *******/

  /** What the derivation keeps track of; no card, thread or node is ever written. */
  datatype Sheet = Sheet(known: set<string>, threads: set<string>, done: map<string, set<string>>,
                         rows: seq<Posting>)

  type NodeIds = map<string, set<string>>

  function ArcNames(arcs: seq<Arc>): set<string> {
    set a | a in arcs :: a.name
  }

  function IdsOf(nodes: seq<Node>): set<string> {
    set nd | nd in nodes :: nd.id
  }

  function NodeIdsOf(arcs: seq<Arc>): NodeIds {
    map name | name in ArcNames(arcs) && LastArc(arcs, name) >= 0 :: IdsOf(arcs[LastArc(arcs, name)].nodes)
  }

  function Noted(s: Sheet, kind: Kind, entity: string, row: Row): Sheet {
    s.(rows := s.rows + [Posting(Account(kind, entity), row)])
  }

  function DeriveEvent(s: Sheet, lead: Option<string>, ev: Event, n: int): Sheet {
    if OnCards(ev) then
      var name := Resolve(ev.entityType, ev.name, s.known, lead);
      Noted(s.(known := s.known + {name}), Characters, name, CardRow(n, name !in s.known, ev.changes, ev.reason))
    else if ev.entityType == Faction then Noted(s, Factions, ev.name, ChangeRow(n, ev.changes, ev.reason))
    else if ev.entityType == WorldSetting then Noted(s, Settings, ev.name, ChangeRow(n, ev.changes, ev.reason))
    else s
  }

  function DeriveEvents(s: Sheet, lead: Option<string>, evs: seq<Event>, n: int): Sheet {
    if |evs| == 0 then s
    else DeriveEvent(DeriveEvents(s, lead, evs[..|evs| - 1], n), lead, evs[|evs| - 1], n)
  }

  function DeriveAppearance(s: Sheet, ap: Appearance, n: int): Sheet {
    if ap.name in s.known then Noted(s, Characters, ap.name, AppearanceRow(n, ap.importance)) else s
  }

  function DeriveAppearances(s: Sheet, aps: seq<Appearance>, n: int): Sheet {
    if |aps| == 0 then s else DeriveAppearance(DeriveAppearances(s, aps[..|aps| - 1], n), aps[|aps| - 1], n)
  }

  function DeriveThread(s: Sheet, up: ThreadUpdate, n: int): Sheet {
    if up.name !in s.threads then
      if up.action == ToRegister then
        Noted(s.(threads := s.threads + {up.name}), Threads, up.name, ThreadRow(n, ToRegister, up.detail))
      else s
    else if IsBookedAction(up.action) then Noted(s, Threads, up.name, ThreadRow(n, up.action, up.detail))
    else s
  }

  function DeriveThreads(s: Sheet, ups: seq<ThreadUpdate>, n: int): Sheet {
    if |ups| == 0 then s else DeriveThread(DeriveThreads(s, ups[..|ups| - 1], n), ups[|ups| - 1], n)
  }

  function DoneAt(done: map<string, set<string>>, arc: string): set<string> {
    if arc in done then done[arc] else {}
  }

  function DeriveNode(s: Sheet, ids: NodeIds, arc: string, id: string, n: int): Sheet {
    if arc in ids && id in ids[arc] && id !in DoneAt(s.done, arc) then
      Noted(s.(done := s.done[arc := DoneAt(s.done, arc) + {id}]), Arcs, arc, NodeRow(n, id))
    else s
  }

  function DeriveNodes(s: Sheet, ids: NodeIds, arc: string, listed: seq<string>, n: int): Sheet {
    if |listed| == 0 then s
    else DeriveNode(DeriveNodes(s, ids, arc, listed[..|listed| - 1], n), ids, arc, listed[|listed| - 1], n)
  }

  function DeriveArc(s: Sheet, ids: NodeIds, up: ArcUpdate, n: int): Sheet {
    if up.name !in ids then s
    else
      var s' := DeriveNodes(s, ids, up.name, up.nodesCompleted, n);
      if up.notes != "" then Noted(s', Arcs, up.name, NoteRow(n, up.notes)) else s'
  }

  function DeriveArcs(s: Sheet, ids: NodeIds, ups: seq<ArcUpdate>, n: int): Sheet {
    if |ups| == 0 then s else DeriveArc(DeriveArcs(s, ids, ups[..|ups| - 1], n), ids, ups[|ups| - 1], n)
  }

  function DeriveChapter(s: Sheet, lead: Option<string>, ids: NodeIds, c: Chapter): Sheet {
    DeriveArcs(DeriveThreads(DeriveAppearances(DeriveEvents(s, lead, c.events, c.n), c.appearances, c.n),
                             c.threadUpdates, c.n), ids, c.arcUpdates, c.n)
  }

  function Derive(s: Sheet, lead: Option<string>, ids: NodeIds, cs: seq<Chapter>): Sheet {
    if |cs| == 0 then s else DeriveChapter(Derive(s, lead, ids, cs[..|cs| - 1]), lead, ids, cs[|cs| - 1])
  }

  function BlankSheet(cast: set<string>, threads: set<string>, ids: NodeIds): Sheet {
    Sheet(cast, threads, map k | k in ids :: {}, [])
  }

  /******* The derivation as it runs *******/

  /** The entries of one journal: names become known as they are met. */
  method ReadEvents(events: seq<Event>, n: int, protagonist: Option<string>, known0: set<string>, out0: seq<Posting>, ghost s: Sheet)
    returns (known: set<string>, out: seq<Posting>)
    requires s.known == known0 && s.rows == out0
    ensures s.(known := known, rows := out) == DeriveEvents(s, protagonist, events, n)
  {
    known, out := known0, out0;
    for i := 0 to |events|
      invariant s.(known := known, rows := out) == DeriveEvents(s, protagonist, events[..i], n)
    {
      assert events[..i + 1][..i] == events[..i];
      var ev := events[i];
      var name := ev.name;
      if OnCards(ev) {
        if ev.entityType == Protagonist && name !in known && protagonist.Some? && protagonist.value != "" {
          name := protagonist.value;
        }
        var created := name !in known;
        known := known + {name};
        out := out + [Posting(Account(Characters, name), CardRow(n, created, ev.changes, ev.reason))];
      } else if ev.entityType == Faction {
        out := out + [Posting(Account(Factions, name), ChangeRow(n, ev.changes, ev.reason))];
      } else if ev.entityType == WorldSetting {
        out := out + [Posting(Account(Settings, name), ChangeRow(n, ev.changes, ev.reason))];
      }
    }
    assert events[..|events|] == events;
  }

  method ReadAppearances(appearances: seq<Appearance>, n: int, known: set<string>, out0: seq<Posting>, ghost s: Sheet)
    returns (out: seq<Posting>)
    requires s.known == known && s.rows == out0
    ensures s.(rows := out) == DeriveAppearances(s, appearances, n)
  {
    out := out0;
    for i := 0 to |appearances|
      invariant s.(rows := out) == DeriveAppearances(s, appearances[..i], n)
    {
      assert appearances[..i + 1][..i] == appearances[..i];
      var ap := appearances[i];
      if ap.name in known {
        out := out + [Posting(Account(Characters, ap.name), AppearanceRow(n, ap.importance))];
      }
    }
    assert appearances[..|appearances|] == appearances;
  }

  /** A thread is known from its registration on. */
  method ReadThreads(updates: seq<ThreadUpdate>, n: int, known0: set<string>, out0: seq<Posting>, ghost s: Sheet)
    returns (known: set<string>, out: seq<Posting>)
    requires s.threads == known0 && s.rows == out0
    ensures s.(threads := known, rows := out) == DeriveThreads(s, updates, n)
  {
    known, out := known0, out0;
    for i := 0 to |updates|
      invariant s.(threads := known, rows := out) == DeriveThreads(s, updates[..i], n)
    {
      assert updates[..i + 1][..i] == updates[..i];
      var up := updates[i];
      if up.name !in known {
        if up.action == ToRegister {
          known := known + {up.name};
          out := out + [Posting(Account(Threads, up.name), ThreadRow(n, ToRegister, up.detail))];
        }
      } else if up.action == ToHint || up.action == ToResolve || up.action == ToAbandon {
        out := out + [Posting(Account(Threads, up.name), ThreadRow(n, up.action, up.detail))];
      }
    }
    assert updates[..|updates|] == updates;
  }

  method ReadNodes(listed: seq<string>, n: int, arc: string, arcs: NodeIds, done0: map<string, set<string>>, out0: seq<Posting>,
                   ghost s: Sheet)
    returns (done: map<string, set<string>>, out: seq<Posting>)
    requires s.done == done0 && s.rows == out0 && arc in arcs && arcs.Keys <= done0.Keys
    ensures s.(done := done, rows := out) == DeriveNodes(s, arcs, arc, listed, n) && done.Keys == done0.Keys
  {
    done, out := done0, out0;
    for i := 0 to |listed|
      invariant s.(done := done, rows := out) == DeriveNodes(s, arcs, arc, listed[..i], n) && done.Keys == done0.Keys
    {
      assert listed[..i + 1][..i] == listed[..i];
      var id := listed[i];
      if id in arcs[arc] && id !in done[arc] {
        done := done[arc := done[arc] + {id}];
        out := out + [Posting(Account(Arcs, arc), NodeRow(n, id))];
      }
    }
    assert listed[..|listed|] == listed;
  }

  method ReadArcs(updates: seq<ArcUpdate>, n: int, arcs: NodeIds, done0: map<string, set<string>>, out0: seq<Posting>, ghost s: Sheet)
    returns (done: map<string, set<string>>, out: seq<Posting>)
    requires s.done == done0 && s.rows == out0 && arcs.Keys <= done0.Keys
    ensures s.(done := done, rows := out) == DeriveArcs(s, arcs, updates, n) && done.Keys == done0.Keys
  {
    done, out := done0, out0;
    for i := 0 to |updates|
      invariant s.(done := done, rows := out) == DeriveArcs(s, arcs, updates[..i], n) && done.Keys == done0.Keys
    {
      assert updates[..i + 1][..i] == updates[..i];
      var up := updates[i];
      if up.name in arcs {
        done, out := ReadNodes(up.nodesCompleted, n, up.name, arcs, done, out, s.(done := done, rows := out));
        if up.notes != "" {
          out := out + [Posting(Account(Arcs, up.name), NoteRow(n, up.notes))];
        }
      }
    }
    assert updates[..|updates|] == updates;
  }

  /** All journals in order; what is known and done carries over from chapter to chapter. */
  method JournalLedgerRows(live: Chars, arcs: seq<Arc>, cast: set<string>, threads: set<string>, cs: seq<Chapter>)
    returns (out: seq<Posting>)
    ensures out == Derive(BlankSheet(cast, threads, NodeIdsOf(arcs)), FindProtagonist(live), NodeIdsOf(arcs), cs).rows
  {
    var protagonist, nodes := FindProtagonist(live), NodeIdsOf(arcs);
    var known, threadsKnown := cast, threads;
    var done: map<string, set<string>> := map k | k in nodes :: {};
    out := [];
    ghost var start := BlankSheet(cast, threads, nodes);
    for i := 0 to |cs|
      invariant Sheet(known, threadsKnown, done, out) == Derive(start, protagonist, nodes, cs[..i]) && nodes.Keys <= done.Keys
    {
      assert cs[..i + 1][..i] == cs[..i];
      var c := cs[i];
      known, out := ReadEvents(c.events, c.n, protagonist, known, out, Sheet(known, threadsKnown, done, out));
      out := ReadAppearances(c.appearances, c.n, known, out, Sheet(known, threadsKnown, done, out));
      threadsKnown, out := ReadThreads(c.threadUpdates, c.n, threadsKnown, out, Sheet(known, threadsKnown, done, out));
      done, out := ReadArcs(c.arcUpdates, c.n, nodes, done, out, Sheet(known, threadsKnown, done, out));
    }
    assert cs[..|cs|] == cs;
  }

  /******* Leads *******/

  ghost function Leads(files: map<string, Card>): set<string> {
    set n | n in files && IsProtagonist(files[n])
  }

  ghost predicate OneLead(files: map<string, Card>) {
    forall m, n :: m in Leads(files) && n in Leads(files) ==> m == n
  }

  /** Under one lead, every loading order finds the same protagonist. */
  ghost predicate IsLead(lead: Option<string>, files: map<string, Card>) {
    match lead
    case Some(n) => Leads(files) == {n}
    case None => Leads(files) == {}
  }

  lemma FoundIsLead(c: Chars, files: map<string, Card>)
    requires Synced(c, files) && OneLead(files)
    ensures IsLead(FindProtagonist(c), files)
  {
    FirstProtagonistFound(c.order, c.at);
    assert forall n :: n in files ==> (IsProtagonist(c.at[n]) <==> IsProtagonist(files[n]));
    match FindProtagonist(c)
    case Some(p) => assert p in Leads(files);
    case None =>
  }

  lemma PostEventKeepsLeads(d: Desk, ev: Event, ch: int)
    requires Synced(d.mem, d.books.files) && KeepsRole(ev)
    ensures Leads(PostEvent(d, ev, ch).books.files) == Leads(d.books.files)
  {
    if OnCards(ev) && d.error.None? {
      var name := Resolve(ev.entityType, ev.name, d.mem.at.Keys, FindProtagonist(d.mem));
      WrittenCardKeepsRole(d.mem, name, ev.changes);
      SyncedRoles(d.mem, d.books.files, name);
      PutKeepsLeads(d.books.files, name, WrittenCard(d.mem, name, ev.changes));
    } else {
      WorldKeepsFiles(d, ev, ch);
    }
  }

  /** Filling a name in does not make a lead. */
  lemma SyncedRoles(mem: Chars, files: map<string, Card>, name: string)
    requires Synced(mem, files)
    ensures name in files ==> name in mem.at && (IsProtagonist(mem.at[name]) <==> IsProtagonist(files[name]))
  {
    if name in files {
      NamedRole(name, files[name]);
    }
  }

  lemma NamedRole(name: string, card: Card)
    ensures IsProtagonist(Named(name, card)) <==> IsProtagonist(card)
  {
  }

  lemma PutKeepsLeads(files: map<string, Card>, name: string, card: Card)
    requires if name in files then IsProtagonist(card) <==> IsProtagonist(files[name]) else !IsProtagonist(card)
    ensures Leads(files[name := card]) == Leads(files)
  {
  }

  lemma WorldKeepsFiles(d: Desk, ev: Event, ch: int)
    requires !OnCards(ev) || d.error.Some?
    ensures PostEvent(d, ev, ch).books.files == d.books.files
  {
  }

  lemma FollowsSelf(b: Books)
    ensures FollowsLedger(b, b)
  {
    assert b.postings[|b.postings|..] == [];
    assert forall n :: FollowsAt(b, b, n);
  }

  lemma {:induction false} PostEventsKeepLeads(d: Desk, evs: seq<Event>, ch: int)
    requires WellNamed(d.books.files) && Synced(d.mem, d.books.files) && KeepRoles(evs) && KeepNames(evs)
    ensures var d' := PostEvents(d, evs, ch);
            && Leads(d'.books.files) == Leads(d.books.files)
            && WellNamed(d'.books.files) && Synced(d'.mem, d'.books.files)
  {
    FollowsSelf(d.books);
    PostEventsFollow(d.books, d, evs, ch);
    if |evs| > 0 {
      PostEventsKeepLeads(d, evs[..|evs| - 1], ch);
      PostEventKeepsLeads(PostEvents(d, evs[..|evs| - 1], ch), evs[|evs| - 1], ch);
    }
  }

  lemma AppearanceKeepsLeads(d: Desk, ap: Appearance, ch: int)
    requires Synced(d.mem, d.books.files)
    ensures var d' := LogAppearance(d, ap, ch);
            Leads(d'.books.files) == Leads(d.books.files) && d'.books.files.Keys == d.books.files.Keys
  {
    if ap.name in d.mem.at {
      AppearedRole(d.mem.at[ap.name], ch);
      SyncedRoles(d.mem, d.books.files, ap.name);
      PutKeepsLeads(d.books.files, ap.name, AppearedCard(d.mem.at[ap.name], ch));
    }
  }

  lemma AppearedRole(card: Card, ch: int)
    ensures IsProtagonist(AppearedCard(card, ch)) <==> IsProtagonist(card)
  {
  }

  lemma {:induction false} AppearancesKeepLeads(d: Desk, aps: seq<Appearance>, ch: int)
    requires WellNamed(d.books.files) && Synced(d.mem, d.books.files)
    ensures var d' := NovelState.LogAppearances(d, aps, ch);
            && Leads(d'.books.files) == Leads(d.books.files) && d'.books.files.Keys == d.books.files.Keys
            && WellNamed(d'.books.files) && Synced(d'.mem, d'.books.files)
  {
    FollowsSelf(d.books);
    AppearancesFollow(d.books, d, aps, ch);
    if |aps| > 0 {
      AppearancesKeepLeads(d, aps[..|aps| - 1], ch);
      AppearanceKeepsLeads(NovelState.LogAppearances(d, aps[..|aps| - 1], ch), aps[|aps| - 1], ch);
    }
  }

  /******* Matching the derivation with the books *******/

  lemma {:induction false} EventsDerive(base: seq<Posting>, s: Sheet, c: Chars, k: Known, d: Desk,
                                        evs: seq<Event>, ch: int)
    requires d.mem == c && k.chars == c.at.Keys == s.known && d.books.postings == base + s.rows
    requires Simulate(c, k, evs).Ok? && KeepRoles(evs) && PostEvents(d, evs, ch).error.None?
    ensures var s', d' := DeriveEvents(s, FindProtagonist(c), evs, ch), PostEvents(d, evs, ch);
            && d'.books.postings == base + s'.rows && s'.known == d'.mem.at.Keys
            && s' == s.(known := s'.known, rows := s'.rows)
            && d'.books == d.books.(files := d'.books.files, world := d'.books.world, postings := d'.books.postings)
  {
    if |evs| > 0 {
      var front, ev := evs[..|evs| - 1], evs[|evs| - 1];
      EventsDerive(base, s, c, k, d, front, ch);
      PostingAgrees(c, k, d, front, ch);
      EventDerives(base, DeriveEvents(s, FindProtagonist(c), front, ch), PostEvents(d, front, ch), ev, ch);
    }
  }

  /** One entry, from matching sheets and the same lead. */
  lemma EventDerives(base: seq<Posting>, s: Sheet, d: Desk, ev: Event, ch: int)
    requires d.books.postings == base + s.rows && s.known == d.mem.at.Keys && !ev.entityType.OtherType?
    requires d.error.None? && PostEvent(d, ev, ch).error.None?
    ensures var s', d' := DeriveEvent(s, FindProtagonist(d.mem), ev, ch), PostEvent(d, ev, ch);
            && d'.books.postings == base + s'.rows && s'.known == d'.mem.at.Keys
            && s' == s.(known := s'.known, rows := s'.rows)
            && d'.books == d.books.(files := d'.books.files, world := d'.books.world, postings := d'.books.postings)
  {
    if OnCards(ev) {
      CardDerives(base, s, d, ev, ch);
    }
  }

  lemma CardDerives(base: seq<Posting>, s: Sheet, d: Desk, ev: Event, ch: int)
    requires d.books.postings == base + s.rows && s.known == d.mem.at.Keys && OnCards(ev)
    ensures var s', d' := DeriveEvent(s, FindProtagonist(d.mem), ev, ch), PostCard(d, ev, ch);
            && d'.books.postings == base + s'.rows && s'.known == d'.mem.at.Keys
            && s' == s.(known := s'.known, rows := s'.rows)
            && d'.books == d.books.(files := d'.books.files, postings := d'.books.postings)
  {
  }

  lemma {:induction false} AppearancesDerive(base: seq<Posting>, s: Sheet, d: Desk, aps: seq<Appearance>, ch: int)
    requires s.known == d.mem.at.Keys && d.books.postings == base + s.rows
    ensures var s', d' := DeriveAppearances(s, aps, ch), NovelState.LogAppearances(d, aps, ch);
            && d'.books.postings == base + s'.rows && d'.mem.at.Keys == d.mem.at.Keys
            && s' == s.(rows := s'.rows)
            && d'.books == d.books.(files := d'.books.files, postings := d'.books.postings)
  {
    if |aps| > 0 {
      AppearancesDerive(base, s, d, aps[..|aps| - 1], ch);
      var d0, ap := NovelState.LogAppearances(d, aps[..|aps| - 1], ch), aps[|aps| - 1];
      assert ap.name in d0.mem.at ==> Put(d0.mem, ap.name, AppearedCard(d0.mem.at[ap.name], ch)).at.Keys == d0.mem.at.Keys;
    }
  }

  function ThreadNames(threads: seq<Thread>): set<string> {
    set t | t in threads :: t.name
  }

  lemma ThreadNamesIndexed(threads: seq<Thread>, name: string)
    ensures name in ThreadNames(threads) <==> LastThread(threads, name) >= 0
  {
    if name in ThreadNames(threads) {
      var t :| t in threads && t.name == name;
      var i :| 0 <= i < |threads| && threads[i] == t;
    }
  }

  lemma ActedThreadNames(threads: seq<Thread>, i: nat, t: Thread)
    requires i < |threads| && t.name == threads[i].name
    ensures ThreadNames(threads[i := t]) == ThreadNames(threads)
  {
    var threads' := threads[i := t];
    forall n
      ensures n in ThreadNames(threads') <==> n in ThreadNames(threads)
    {
      if j :| 0 <= j < |threads| && threads[j].name == n {
        assert threads'[j].name == n && threads'[j] in threads';
      }
      if j :| 0 <= j < |threads| && threads'[j].name == n {
        assert threads[j].name == n && threads[j] in threads;
      }
    }
  }

  lemma ThreadNamesAppended(threads: seq<Thread>, t: Thread)
    ensures ThreadNames(threads + [t]) == ThreadNames(threads) + {t.name}
  {
    assert forall x :: x in threads + [t] <==> x in threads || x == t;
  }

  lemma ThreadDerives(base: seq<Posting>, s: Sheet, d: ThreadDesk, arcs: seq<Arc>, up: ThreadUpdate, ch: int)
    requires s.threads == ThreadNames(d.threads) && d.postings == base + s.rows
    ensures var s', d' := DeriveThread(s, up, ch), UpdateThread(d, arcs, up, ch);
            d'.postings == base + s'.rows && s'.threads == ThreadNames(d'.threads)
  {
    ThreadNamesIndexed(d.threads, up.name);
    var i := LastThread(d.threads, up.name);
    if i >= 0 {
      ActedThreadNames(d.threads, i, ActedThread(d.threads[i], up, ch));
    } else {
      ThreadNamesAppended(d.threads, NewThread(up, ch));
    }
  }

  lemma {:induction false} ThreadsDerive(base: seq<Posting>, s: Sheet, d: ThreadDesk, arcs: seq<Arc>,
                                         ups: seq<ThreadUpdate>, ch: int)
    requires s.threads == ThreadNames(d.threads) && d.postings == base + s.rows
    ensures var s', d' := DeriveThreads(s, ups, ch), UpdateThreads(d, arcs, ups, ch);
            && d'.postings == base + s'.rows && s'.threads == ThreadNames(d'.threads)
            && s'.known == s.known && s'.done == s.done
  {
    if |ups| > 0 {
      var front := ups[..|ups| - 1];
      ThreadsDerive(base, s, d, arcs, front, ch);
      ThreadDerives(base, DeriveThreads(s, front, ch), UpdateThreads(d, arcs, front, ch), arcs, ups[|ups| - 1], ch);
    }
  }

  /******* Arcs *******/

  ghost predicate SameNodes(nodes: seq<Node>, nodes': seq<Node>) {
    |nodes'| == |nodes| && forall j :: 0 <= j < |nodes| ==> nodes'[j].id == nodes[j].id
  }

  /** Booking never renames, adds or removes an arc or a node. */
  ghost predicate SameShape(arcs: seq<Arc>, arcs': seq<Arc>) {
    && |arcs'| == |arcs|
    && forall i :: 0 <= i < |arcs| ==> arcs'[i].name == arcs[i].name && SameNodes(arcs[i].nodes, arcs'[i].nodes)
  }

  lemma SameNodesIds(nodes: seq<Node>, nodes': seq<Node>)
    requires SameNodes(nodes, nodes')
    ensures IdsOf(nodes') == IdsOf(nodes)
  {
    forall id
      ensures id in IdsOf(nodes') <==> id in IdsOf(nodes)
    {
      if j :| 0 <= j < |nodes| && nodes[j].id == id {
        assert nodes'[j].id == id && nodes'[j] in nodes';
      }
      if j :| 0 <= j < |nodes| && nodes'[j].id == id {
        assert nodes[j].id == id && nodes[j] in nodes;
      }
    }
  }

  lemma IdsIndexed(nodes: seq<Node>, id: string)
    ensures id in IdsOf(nodes) <==> LastNode(nodes, id) >= 0
  {
    if id in IdsOf(nodes) {
      var nd :| nd in nodes && nd.id == id;
      var j :| 0 <= j < |nodes| && nodes[j] == nd;
    }
  }

  lemma ArcsIndexed(arcs: seq<Arc>, name: string)
    ensures name in ArcNames(arcs) <==> LastArc(arcs, name) >= 0
    ensures name in NodeIdsOf(arcs) <==> LastArc(arcs, name) >= 0
  {
    if name in ArcNames(arcs) {
      var a :| a in arcs && a.name == name;
      var i :| 0 <= i < |arcs| && arcs[i] == a;
    }
  }

  lemma LastArcSame(arcs: seq<Arc>, arcs': seq<Arc>, name: string)
    requires SameShape(arcs, arcs')
    ensures LastArc(arcs', name) == LastArc(arcs, name)
  {
    var i, i' := LastArc(arcs, name), LastArc(arcs', name);
    assert i' >= 0 ==> arcs[i'].name == name;
    assert i >= 0 ==> arcs'[i].name == name;
  }

  lemma SameShapeLookup(arcs: seq<Arc>, arcs': seq<Arc>, name: string)
    requires SameShape(arcs, arcs')
    ensures LastArc(arcs', name) == LastArc(arcs, name)
    ensures name in NodeIdsOf(arcs) <==> name in NodeIdsOf(arcs')
    ensures name in NodeIdsOf(arcs) ==> NodeIdsOf(arcs')[name] == NodeIdsOf(arcs)[name]
  {
    ArcsIndexed(arcs, name);
    ArcsIndexed(arcs', name);
    var i, i' := LastArc(arcs, name), LastArc(arcs', name);
    assert i == i' by {
      assert i' >= 0 ==> arcs[i'].name == name;
      assert i >= 0 ==> arcs'[i].name == name;
    }
    if i >= 0 {
      SameNodesIds(arcs[i].nodes, arcs'[i].nodes);
    }
  }

  /** The node an id names is done, in the arc its name names. */
  predicate IsDone(arcs: seq<Arc>, name: string, id: string) {
    var a := LastArc(arcs, name);
    a >= 0 && var j := LastNode(arcs[a].nodes, id); j >= 0 && arcs[a].nodes[j].status == Done
  }

  ghost predicate DoneMatches(done: map<string, set<string>>, arcs: seq<Arc>) {
    forall name, id :: id in DoneAt(done, name) <==> IsDone(arcs, name, id)
  }

  ghost predicate MatchArcs(base: seq<Posting>, ids: NodeIds, s: Sheet, d: ArcDesk) {
    d.postings == base + s.rows && NodeIdsOf(d.arcs) == ids && DoneMatches(s.done, d.arcs)
  }

  lemma CompletedShape(d: ArcDesk, a: nat, id: string, ch: int)
    requires a < |d.arcs|
    ensures SameShape(d.arcs, CompleteNode(d, a, id, ch).arcs)
  {
  }

  lemma ShapeKeepsIds(arcs: seq<Arc>, arcs': seq<Arc>)
    requires SameShape(arcs, arcs')
    ensures NodeIdsOf(arcs') == NodeIdsOf(arcs)
  {
    forall name
      ensures name in NodeIdsOf(arcs) <==> name in NodeIdsOf(arcs')
      ensures name in NodeIdsOf(arcs) ==> NodeIdsOf(arcs')[name] == NodeIdsOf(arcs)[name]
    {
      SameShapeLookup(arcs, arcs', name);
    }
  }

  lemma SameLastNode(nodes: seq<Node>, nodes': seq<Node>, id: string)
    requires SameNodes(nodes, nodes')
    ensures LastNode(nodes', id) == LastNode(nodes, id)
  {
    var j, j' := LastNode(nodes, id), LastNode(nodes', id);
    assert j' >= 0 ==> nodes[j'].id == id;
    assert j >= 0 ==> nodes'[j].id == id;
  }

  /** A completion makes its own node done and no other. */
  lemma CompletedIsDone(d: ArcDesk, a: nat, id: string, ch: int, name': string, id': string)
    requires a < |d.arcs| && a == LastArc(d.arcs, d.arcs[a].name)
    ensures IsDone(CompleteNode(d, a, id, ch).arcs, name', id') <==>
            IsDone(d.arcs, name', id') || (name' == d.arcs[a].name && id' == id && LastNode(d.arcs[a].nodes, id) >= 0)
  {
    var d' := CompleteNode(d, a, id, ch);
    CompletedShape(d, a, id, ch);
    LastArcSame(d.arcs, d'.arcs, name');
    var i := LastArc(d.arcs, name');
    if i >= 0 {
      SameLastNode(d.arcs[i].nodes, d'.arcs[i].nodes, id');
      if i == a {
        CompletedNodes(d, a, id, ch, id');
      }
    }
  }

  lemma CompletedNodes(d: ArcDesk, a: nat, id: string, ch: int, id': string)
    requires a < |d.arcs|
    ensures var nodes := d.arcs[a].nodes;
            var nodes' := CompleteNode(d, a, id, ch).arcs[a].nodes;
            var j := LastNode(nodes, id');
            j >= 0 ==> j < |nodes'| && (nodes'[j].status == Done <==> nodes[j].status == Done || id' == id)
  {
  }

  lemma NodeMarks(ids: NodeIds, s: Sheet, d: ArcDesk, a: nat, id: string, ch: int)
    requires NodeIdsOf(d.arcs) == ids && DoneMatches(s.done, d.arcs)
    requires a < |d.arcs| && a == LastArc(d.arcs, d.arcs[a].name)
    ensures DoneMatches(DeriveNode(s, ids, d.arcs[a].name, id, ch).done, CompleteNode(d, a, id, ch).arcs)
    ensures d.arcs[a].name in ids && (id in ids[d.arcs[a].name] <==> LastNode(d.arcs[a].nodes, id) >= 0)
  {
    var name := d.arcs[a].name;
    var done', arcs' := DeriveNode(s, ids, name, id, ch).done, CompleteNode(d, a, id, ch).arcs;
    ArcsIndexed(d.arcs, name);
    IdsIndexed(d.arcs[a].nodes, id);
    forall name', id'
      ensures id' in DoneAt(done', name') <==> IsDone(arcs', name', id')
    {
      CompletedIsDone(d, a, id, ch, name', id');
      assert id' in DoneAt(s.done, name') <==> IsDone(d.arcs, name', id');
    }
  }

  lemma NodeDerives(base: seq<Posting>, ids: NodeIds, s: Sheet, d: ArcDesk, a: nat, id: string, ch: int)
    requires MatchArcs(base, ids, s, d) && a < |d.arcs| && a == LastArc(d.arcs, d.arcs[a].name)
    ensures MatchArcs(base, ids, DeriveNode(s, ids, d.arcs[a].name, id, ch), CompleteNode(d, a, id, ch))
  {
    NodeMarks(ids, s, d, a, id, ch);
    CompletedShape(d, a, id, ch);
    ShapeKeepsIds(d.arcs, CompleteNode(d, a, id, ch).arcs);
    assert id in DoneAt(s.done, d.arcs[a].name) <==> IsDone(d.arcs, d.arcs[a].name, id);
    NodePosts(base, ids, s, d, a, id, ch);
  }

  /** The derivation notes a completion exactly when the booking posts one. */
  lemma NodePosts(base: seq<Posting>, ids: NodeIds, s: Sheet, d: ArcDesk, a: nat, id: string, ch: int)
    requires d.postings == base + s.rows && a < |d.arcs| && a == LastArc(d.arcs, d.arcs[a].name)
    requires d.arcs[a].name in ids && (id in ids[d.arcs[a].name] <==> LastNode(d.arcs[a].nodes, id) >= 0)
    requires id in DoneAt(s.done, d.arcs[a].name) <==> IsDone(d.arcs, d.arcs[a].name, id)
    ensures CompleteNode(d, a, id, ch).postings == base + DeriveNode(s, ids, d.arcs[a].name, id, ch).rows
  {
  }

  lemma {:induction false} NodesDerive(base: seq<Posting>, ids: NodeIds, s: Sheet, d: ArcDesk, a: nat,
                                       listed: seq<string>, ch: int)
    requires MatchArcs(base, ids, s, d) && a < |d.arcs| && a == LastArc(d.arcs, d.arcs[a].name)
    ensures var d' := CompleteNodes(d, a, listed, ch);
            && MatchArcs(base, ids, DeriveNodes(s, ids, d.arcs[a].name, listed, ch), d')
            && SameShape(d.arcs, d'.arcs)
  {
    if |listed| > 0 {
      NodesDerive(base, ids, s, d, a, listed[..|listed| - 1], ch);
      var s0 := DeriveNodes(s, ids, d.arcs[a].name, listed[..|listed| - 1], ch);
      var d0, id := CompleteNodes(d, a, listed[..|listed| - 1], ch), listed[|listed| - 1];
      SameShapeLookup(d.arcs, d0.arcs, d.arcs[a].name);
      NodeDerives(base, ids, s0, d0, a, id, ch);
      CompletedShape(d0, a, id, ch);
    }
  }

  /** Rewriting anything but names and nodes of an arc keeps the match. */
  lemma RelabelledMatch(base: seq<Posting>, ids: NodeIds, s: Sheet, d: ArcDesk, a: nat, arc: Arc)
    requires MatchArcs(base, ids, s, d) && a < |d.arcs|
    requires arc.name == d.arcs[a].name && arc.nodes == d.arcs[a].nodes
    ensures MatchArcs(base, ids, s, d.(arcs := d.arcs[a := arc]))
  {
    var arcs' := d.arcs[a := arc];
    assert SameShape(d.arcs, arcs');
    ShapeKeepsIds(d.arcs, arcs');
    forall name, id
      ensures id in DoneAt(s.done, name) <==> IsDone(arcs', name, id)
    {
      SameShapeLookup(d.arcs, arcs', name);
      assert id in DoneAt(s.done, name) <==> IsDone(d.arcs, name, id);
    }
  }

  lemma NoteDerives(base: seq<Posting>, ids: NodeIds, s: Sheet, d: ArcDesk, a: nat, notes: string, ch: int)
    requires MatchArcs(base, ids, s, d) && a < |d.arcs|
    ensures MatchArcs(base, ids, if notes != "" then Noted(s, Arcs, d.arcs[a].name, NoteRow(ch, notes)) else s,
                      AddNote(d, a, notes, ch))
  {
    if notes != "" {
      RelabelledMatch(base, ids, s, d, a, d.arcs[a].(latestNote := Some(Note(ch, notes))));
    }
  }

  lemma ArcDerives(base: seq<Posting>, ids: NodeIds, s: Sheet, d: ArcDesk, up: ArcUpdate, ch: int)
    requires MatchArcs(base, ids, s, d)
    ensures MatchArcs(base, ids, DeriveArc(s, ids, up, ch), UpdateArc(d, up, ch))
  {
    ArcsIndexed(d.arcs, up.name);
    var a := LastArc(d.arcs, up.name);
    if a >= 0 {
      NodesDerive(base, ids, s, d, a, up.nodesCompleted, ch);
      var s1, d1 := DeriveNodes(s, ids, up.name, up.nodesCompleted, ch), CompleteNodes(d, a, up.nodesCompleted, ch);
      assert d1.arcs[a].name == up.name;
      CloseDerives(base, ids, s1, d1, a, up.notes, ch);
    }
  }

  /** The end of an update: its note, and closing the arc when nothing is left. */
  lemma CloseDerives(base: seq<Posting>, ids: NodeIds, s: Sheet, d: ArcDesk, a: nat, notes: string, ch: int)
    requires MatchArcs(base, ids, s, d) && a < |d.arcs|
    ensures var d2 := AddNote(d, a, notes, ch);
            MatchArcs(base, ids, if notes != "" then Noted(s, Arcs, d.arcs[a].name, NoteRow(ch, notes)) else s,
                      d2.(arcs := d2.arcs[a := Closed(d2.arcs[a], ch)]))
  {
    NoteDerives(base, ids, s, d, a, notes, ch);
    var d2 := AddNote(d, a, notes, ch);
    RelabelledMatch(base, ids, if notes != "" then Noted(s, Arcs, d.arcs[a].name, NoteRow(ch, notes)) else s,
                    d2, a, Closed(d2.arcs[a], ch));
  }

  lemma {:induction false} ArcsDerive(base: seq<Posting>, ids: NodeIds, s: Sheet, d: ArcDesk,
                                      ups: seq<ArcUpdate>, ch: int)
    requires MatchArcs(base, ids, s, d)
    ensures var s' := DeriveArcs(s, ids, ups, ch);
            && MatchArcs(base, ids, s', UpdateArcs(d, ups, ch))
            && s'.known == s.known && s'.threads == s.threads
  {
    if |ups| > 0 {
      ArcsDerive(base, ids, s, d, ups[..|ups| - 1], ch);
      var s0, up := DeriveArcs(s, ids, ups[..|ups| - 1], ch), ups[|ups| - 1];
      ArcDerives(base, ids, s0, UpdateArcs(d, ups[..|ups| - 1], ch), up, ch);
      NodesKeepNames(s0, ids, up.name, up.nodesCompleted, ch);
    }
  }

  lemma {:induction false} NodesKeepNames(s: Sheet, ids: NodeIds, arc: string, listed: seq<string>, n: int)
    ensures var s' := DeriveNodes(s, ids, arc, listed, n); s'.known == s.known && s'.threads == s.threads
  {
    if |listed| > 0 {
      NodesKeepNames(s, ids, arc, listed[..|listed| - 1], n);
    }
  }

  /******* The whole book *******/

  ghost predicate Matches(base: seq<Posting>, ids: NodeIds, s: Sheet, b: Books) {
    && s.known == b.files.Keys && s.threads == ThreadNames(b.threads)
    && MatchArcs(base, ids, s, ArcDesk(b.arcs, b.postings, []))
  }

  ghost predicate Steady(files: map<string, Card>, lead: Option<string>) {
    WellNamed(files) && IsLead(lead, files)
  }

  lemma ChapterEventsDerive(base: seq<Posting>, ids: NodeIds, s: Sheet, b: Books, ls: Listing, c: Chapter,
                            lead: Option<string>)
    requires Matches(base, ids, s, b) && Steady(b.files, lead) && IsListing(ls)
    requires KeepRoles(c.events) && KeepNames(c.events) && BookEvents(b, ls, c.events, c.n).error.None?
    ensures var b' := BookEvents(b, ls, c.events, c.n).books;
            Matches(base, ids, DeriveEvents(s, lead, c.events, c.n), b') && Steady(b'.files, lead)
  {
    LoadWellNamed(b.files, ls);
    var mem := Load(b.files, ls);
    FoundIsLead(mem, b.files);
    assert FindProtagonist(mem) == lead;
    var s', d' := DeriveEvents(s, lead, c.events, c.n), PostEvents(OpenDesk(b, ls), c.events, c.n);
    EventsDerive(base, s, mem, Known(mem.at.Keys, FactionNames(b.world)), OpenDesk(b, ls), c.events, c.n);
    PostEventsKeepLeads(OpenDesk(b, ls), c.events, c.n);
  }

  lemma ChapterAppearancesDerive(base: seq<Posting>, ids: NodeIds, s: Sheet, b: Books, ls: Listing, c: Chapter,
                                 lead: Option<string>)
    requires Matches(base, ids, s, b) && Steady(b.files, lead) && IsListing(ls)
    ensures var b' := BookAppearances(b, ls, c.appearances, c.n).books;
            Matches(base, ids, DeriveAppearances(s, c.appearances, c.n), b') && Steady(b'.files, lead)
  {
    LoadWellNamed(b.files, ls);
    AppearancesDerive(base, s, OpenDesk(b, ls), c.appearances, c.n);
    AppearancesKeepLeads(OpenDesk(b, ls), c.appearances, c.n);
    var s' := DeriveAppearances(s, c.appearances, c.n);
  }

  lemma ChapterPlotDerives(base: seq<Posting>, ids: NodeIds, s: Sheet, b: Books, c: Chapter)
    requires Matches(base, ids, s, b)
    ensures Matches(base, ids, DeriveArcs(DeriveThreads(s, c.threadUpdates, c.n), ids, c.arcUpdates, c.n),
                    BookArcs(BookThreads(b, c.threadUpdates, c.n).books, c.arcUpdates, c.n).books)
  {
    ThreadsDerive(base, s, ThreadDesk(b.threads, b.postings, []), b.arcs, c.threadUpdates, c.n);
    var s1, b1 := DeriveThreads(s, c.threadUpdates, c.n), BookThreads(b, c.threadUpdates, c.n).books;
    ArcsDerive(base, ids, s1, ArcDesk(b1.arcs, b1.postings, []), c.arcUpdates, c.n);
  }

  lemma ChapterDerives(base: seq<Posting>, ids: NodeIds, s: Sheet, b: Books, ls: Listing, c: Chapter,
                       lead: Option<string>)
    requires Matches(base, ids, s, b) && Steady(b.files, lead) && IsListing(ls)
    requires KeepRoles(c.events) && KeepNames(c.events) && BookChapter(b, ls, c).error.None?
    ensures var b' := BookChapter(b, ls, c).books;
            Matches(base, ids, DeriveChapter(s, lead, ids, c), b') && Steady(b'.files, lead)
  {
    ChapterEventsDerive(base, ids, s, b, ls, c, lead);
    var s1, b1 := DeriveEvents(s, lead, c.events, c.n), BookEvents(b, ls, c.events, c.n).books;
    ChapterAppearancesDerive(base, ids, s1, b1, ls, c, lead);
    var s2, b2 := DeriveAppearances(s1, c.appearances, c.n), BookAppearances(b1, ls, c.appearances, c.n).books;
    ChapterPlotDerives(base, ids, s2, b2, c);
  }

  ghost predicate SteadyJournals(cs: seq<Chapter>) {
    forall i :: 0 <= i < |cs| ==> KeepRoles(cs[i].events) && KeepNames(cs[i].events)
  }

  lemma {:induction false} BookDerives(base: seq<Posting>, ids: NodeIds, s: Sheet, b: Books, ls: Listing,
                                       cs: seq<Chapter>, lead: Option<string>)
    requires Matches(base, ids, s, b) && Steady(b.files, lead) && IsListing(ls)
    requires SteadyJournals(cs) && BookAll(b, ls, cs).error.None?
    ensures var b' := BookAll(b, ls, cs).books;
            Matches(base, ids, Derive(s, lead, ids, cs), b') && Steady(b'.files, lead)
  {
    if |cs| > 0 {
      var front := cs[..|cs| - 1];
      BookDerives(base, ids, s, b, ls, front, lead);
      ChapterDerives(base, ids, Derive(s, lead, ids, front), BookAll(b, ls, front).books, ls, cs[|cs| - 1], lead);
    }
  }

  /** No node of the bible is done yet. */
  ghost predicate NothingDone(arcs: seq<Arc>) {
    forall i, j :: 0 <= i < |arcs| && 0 <= j < |arcs[i].nodes| ==> arcs[i].nodes[j].status != Done
  }

  /** A derivation whose sheet matches the start of the book ends with the rows that booking appends. */
  lemma BookedFrom(genesis: Books, ls: Listing, live: Chars, cs: seq<Chapter>, ids: NodeIds, s: Sheet) returns (lead: Option<string>)
    requires WellNamed(genesis.files) && OneLead(genesis.files) && Matches(genesis.postings, ids, s, genesis)
    requires IsListing(ls) && SteadyJournals(cs) && BookAll(genesis, ls, cs).error.None?
    requires Synced(live, BookAll(genesis, ls, cs).books.files)
    ensures lead == FindProtagonist(live) && Matches(genesis.postings, ids, Derive(s, lead, ids, cs), BookAll(genesis, ls, cs).books)
  {
    LoadWellNamed(genesis.files, ls);
    var mem := Load(genesis.files, ls);
    FoundIsLead(mem, genesis.files);
    lead := FindProtagonist(mem);
    BookDerives(genesis.postings, ids, s, genesis, ls, cs, lead);
    FoundIsLead(live, BookAll(genesis, ls, cs).books.files);
    assert FindProtagonist(live) == lead;
  }

  /**
   The migration's derived rows are exactly, in order, the rows that booking the same
   journals appends, whatever order either side lists the cards in.
   */
  lemma DerivedRowsAreBookedRows(genesis: Books, ls: Listing, live: Chars, cs: seq<Chapter>)
    requires WellNamed(genesis.files) && OneLead(genesis.files) && NothingDone(genesis.arcs)
    requires IsListing(ls) && SteadyJournals(cs) && BookAll(genesis, ls, cs).error.None?
    requires Synced(live, BookAll(genesis, ls, cs).books.files)
    ensures var after := BookAll(genesis, ls, cs).books;
            var ids := NodeIdsOf(after.arcs);
            after.postings == genesis.postings +
              Derive(BlankSheet(genesis.files.Keys, ThreadNames(genesis.threads), ids),
                     FindProtagonist(live), ids, cs).rows
  {
    var ids := NodeIdsOf(genesis.arcs);
    var s := BlankSheet(genesis.files.Keys, ThreadNames(genesis.threads), ids);
    assert genesis.postings + s.rows == genesis.postings;
    var lead := BookedFrom(genesis, ls, live, cs, ids, s);
  }

  /******* The cast the migration reconstructs *******/

  /** The names any entry declares with `create`, whatever its entity type. */
  function CreatedNames(cs: seq<Chapter>): set<string> {
    set i, j | 0 <= i < |cs| && 0 <= j < |cs[i].events| && cs[i].events[j].create :: cs[i].events[j].name
  }

  /** The names any thread update registers. */
  function RegisteredNames(cs: seq<Chapter>): set<string> {
    set i, j | 0 <= i < |cs| && 0 <= j < |cs[i].threadUpdates| && cs[i].threadUpdates[j].action == ToRegister
      :: cs[i].threadUpdates[j].name
  }

  lemma {:induction false} LiveNames(genesis: Books, ls: Listing, cs: seq<Chapter>)
    requires WellNamed(genesis.files) && IsListing(ls) && SteadyJournals(cs)
    requires BookAll(genesis, ls, cs).error.None?
    ensures WellNamed(BookAll(genesis, ls, cs).books.files)
    ensures genesis.files.Keys <= BookAll(genesis, ls, cs).books.files.Keys <= genesis.files.Keys + CreatedNames(cs)
  {
    if |cs| > 0 {
      var front, c := cs[..|cs| - 1], cs[|cs| - 1];
      LiveNames(genesis, ls, front);
      CreatedGrow(cs);
      ChapterNames(BookAll(genesis, ls, front).books, ls, c);
    }
  }

  function CreatedIn(c: Chapter): set<string> {
    set j | 0 <= j < |c.events| && c.events[j].create :: c.events[j].name
  }

  lemma CreatedGrow(cs: seq<Chapter>)
    requires |cs| > 0
    ensures CreatedNames(cs[..|cs| - 1]) <= CreatedNames(cs) && CreatedIn(cs[|cs| - 1]) <= CreatedNames(cs)
  {
    var front := cs[..|cs| - 1];
    forall x | x in CreatedNames(front)
      ensures x in CreatedNames(cs)
    {
      var i, j :| 0 <= i < |front| && 0 <= j < |front[i].events| && front[i].events[j].create && front[i].events[j].name == x;
      assert cs[i] == front[i];
    }
    forall x | x in CreatedIn(cs[|cs| - 1])
      ensures x in CreatedNames(cs)
    {
      var j :| 0 <= j < |cs[|cs| - 1].events| && cs[|cs| - 1].events[j].create && cs[|cs| - 1].events[j].name == x;
    }
  }

  /** One chapter adds at most the names it creates. */
  lemma ChapterNames(b: Books, ls: Listing, c: Chapter)
    requires WellNamed(b.files) && IsListing(ls) && KeepRoles(c.events) && KeepNames(c.events)
    requires BookChapter(b, ls, c).error.None?
    ensures WellNamed(BookChapter(b, ls, c).books.files)
    ensures b.files.Keys <= BookChapter(b, ls, c).books.files.Keys <= b.files.Keys + CreatedIn(c)
  {
    EventNames(b, ls, c);
    var b1 := BookEvents(b, ls, c.events, c.n).books;
    LoadWellNamed(b1.files, ls);
    AppearancesKeepLeads(OpenDesk(b1, ls), c.appearances, c.n);
  }

  lemma EventNames(b: Books, ls: Listing, c: Chapter)
    requires WellNamed(b.files) && IsListing(ls) && KeepRoles(c.events) && KeepNames(c.events)
    requires BookEvents(b, ls, c.events, c.n).error.None?
    ensures WellNamed(BookEvents(b, ls, c.events, c.n).books.files)
    ensures b.files.Keys <= BookEvents(b, ls, c.events, c.n).books.files.Keys <= b.files.Keys + CreatedIn(c)
  {
    LoadWellNamed(b.files, ls);
    var cards := Load(b.files, ls);
    PostingAgrees(cards, Known(cards.at.Keys, FactionNames(b.world)), OpenDesk(b, ls), c.events, c.n);
    PostEventsKeepLeads(OpenDesk(b, ls), c.events, c.n);
    forall n | n in PostEvents(OpenDesk(b, ls), c.events, c.n).mem.at && n !in b.files
      ensures n in CreatedIn(c)
    {
      assert Declared(cards, c.events, n);
    }
  }

  /**
   Without a genesis tag the migration guesses the opening cast: the live names minus every
   name some entry declares with `create`. The guess is right exactly when no entry declares
   a name that already had a card.
   */
  lemma GuessedCastIff(genesis: Books, ls: Listing, cs: seq<Chapter>)
    requires WellNamed(genesis.files) && IsListing(ls) && SteadyJournals(cs)
    requires BookAll(genesis, ls, cs).error.None?
    ensures BookAll(genesis, ls, cs).books.files.Keys - CreatedNames(cs) == genesis.files.Keys
            <==> genesis.files.Keys !! CreatedNames(cs)
  {
    LiveNames(genesis, ls, cs);
    var live := BookAll(genesis, ls, cs).books.files.Keys;
    if live - CreatedNames(cs) == genesis.files.Keys {
      assert genesis.files.Keys !! CreatedNames(cs);
    }
  }
}
