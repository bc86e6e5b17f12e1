/**
 What booking keeps: while roles are left alone the up-front validator and the posting loop
 agree, and every card and every faction is the fold of its own ledger rows.
 */
module NovelPosting {
  import opened Values
  import opened NovelState

  /******* Hypotheses *******/

  /** A directory listing names exactly the files that are there. */
  ghost predicate IsListing(ls: Listing) {
    forall s: set<string> :: Lists(ls(s), s)
  }

  ghost predicate Lists(names: seq<string>, s: set<string>) {
    forall x :: x in names <==> x in s
  }

  /** Every card is stored under its own name. */
  ghost predicate WellNamed(files: map<string, Card>) {
    forall n :: n in files ==> NameOf(n, files[n]) == n
  }

  predicate KeepsRole(ev: Event) {
    OnCards(ev) ==> "role" !in ev.changes && "is_protagonist" !in ev.changes
  }

  predicate KeepsName(ev: Event) {
    OnCards(ev) ==> "name" !in ev.changes
  }

  ghost predicate KeepRoles(evs: seq<Event>) {
    forall i :: 0 <= i < |evs| ==> KeepsRole(evs[i])
  }

  ghost predicate KeepNames(evs: seq<Event>) {
    forall i :: 0 <= i < |evs| ==> KeepsName(evs[i])
  }

  /******* Loading *******/

  ghost predicate Covers(c: Chars) {
    forall n :: n in c.at <==> n in c.order
  }

  ghost predicate Synced(c: Chars, files: map<string, Card>) {
    && Covers(c)
    && c.at.Keys == files.Keys
    && forall n :: n in files ==> c.at[n] == Named(n, files[n])
  }

  lemma {:induction false} LoadFromWellNamed(files: map<string, Card>, stems: seq<string>)
    requires WellNamed(files)
    ensures var c := LoadFrom(files, stems);
            && Covers(c)
            && (forall n :: n in c.at <==> n in files && n in stems)
            && (forall n :: n in c.at ==> c.at[n] == Named(n, files[n]))
  {
    if |stems| > 0 {
      LoadFromWellNamed(files, stems[..|stems| - 1]);
      assert stems == stems[..|stems| - 1] + [stems[|stems| - 1]];
    }
  }

  lemma LoadWellNamed(files: map<string, Card>, ls: Listing)
    requires WellNamed(files) && IsListing(ls)
    ensures Synced(Load(files, ls), files)
  {
    LoadFromWellNamed(files, ls(files.Keys));
  }

  /******* The protagonist *******/

  lemma {:induction false} FirstProtagonistSame(order: seq<string>, at: map<string, Card>, at': map<string, Card>)
    requires forall n :: n in order ==> (n in at && IsProtagonist(at[n]) <==> n in at' && IsProtagonist(at'[n]))
    ensures FirstProtagonist(order, at) == FirstProtagonist(order, at')
  {
    if order != [] {
      FirstProtagonistSame(order[1..], at, at');
    }
  }

  lemma {:induction false} FirstProtagonistAppend(order: seq<string>, at: map<string, Card>, name: string)
    requires name in at ==> !IsProtagonist(at[name])
    ensures FirstProtagonist(order + [name], at) == FirstProtagonist(order, at)
  {
    if order == [] {
      assert (order + [name])[1..] == [];
    } else {
      assert (order + [name])[1..] == order[1..] + [name];
      FirstProtagonistAppend(order[1..], at, name);
    }
  }

  /** Writing a card that leaves its role alone does not move the protagonist. */
  lemma PutKeepsProtagonist(c: Chars, name: string, card: Card)
    requires name in c.at ==> (IsProtagonist(card) <==> IsProtagonist(c.at[name]))
    requires name !in c.at ==> !IsProtagonist(card)
    ensures FindProtagonist(Put(c, name, card)) == FindProtagonist(c)
  {
    var c' := Put(c, name, card);
    FirstProtagonistSame(c.order, c.at, c'.at);
    if name !in c.at {
      FirstProtagonistAppend(c.order, c'.at, name);
    }
  }

  lemma {:induction false} FirstProtagonistFound(order: seq<string>, at: map<string, Card>)
    ensures var p := FirstProtagonist(order, at);
            match p
            case Some(n) => n in order && n in at && IsProtagonist(at[n])
            case None => forall n :: n in order && n in at ==> !IsProtagonist(at[n])
  {
    if order != [] {
      FirstProtagonistFound(order[1..], at);
    }
  }

  lemma TransientFacts()
    ensures !IsTransient("name") && !IsTransient("role") && !IsTransient("is_protagonist")
    ensures !IsTransient("status") && !IsTransient("power_level") && !IsTransient("tier")
    ensures !IsTransient("initial") && !IsTransient("progression")
    ensures !IsTransient("first_appearance") && !IsTransient("last_appearance")
  {
    assert TRANSIENT_PREFIX[0] != 'n' && TRANSIENT_PREFIX[0] != 'r' && TRANSIENT_PREFIX[0] != 'i';
    assert TRANSIENT_PREFIX[0] != 's' && TRANSIENT_PREFIX[0] != 'p' && TRANSIENT_PREFIX[0] != 't';
    assert "this_chapter"[0] == 't' && "this_chapter"[1] == 'h' && "tier"[1] == 'i';
    assert TRANSIENT_PREFIX[0] != 'f' && TRANSIENT_PREFIX[0] != 'l';
  }

  /** The card an entry writes, created or changed. */
  function WrittenCard(mem: Chars, name: string, changes: map<string, Value>): Card {
    if name in mem.at then ChangedCard(mem.at[name], changes) else CreatedCard(name, changes)
  }

  lemma WrittenCardKeepsRole(mem: Chars, name: string, changes: map<string, Value>)
    requires "role" !in changes && "is_protagonist" !in changes
    ensures name in mem.at ==> (IsProtagonist(WrittenCard(mem, name, changes)) <==> IsProtagonist(mem.at[name]))
    ensures name !in mem.at ==> !IsProtagonist(WrittenCard(mem, name, changes))
  {
    TransientFacts();
  }

  lemma PostEventKeepsProtagonist(d: Desk, ev: Event, ch: int)
    requires KeepsRole(ev)
    ensures FindProtagonist(PostEvent(d, ev, ch).mem) == FindProtagonist(d.mem)
  {
    if OnCards(ev) && d.error.None? {
      var name := Resolve(ev.entityType, ev.name, d.mem.at.Keys, FindProtagonist(d.mem));
      WrittenCardKeepsRole(d.mem, name, ev.changes);
      PutKeepsProtagonist(d.mem, name, WrittenCard(d.mem, name, ev.changes));
    }
  }

  /******* The validator and the posting loop *******/

  /** The names an accepted list may bring to life: declared, and nobody's alias. */
  ghost predicate Declared(c: Chars, evs: seq<Event>, name: string) {
    exists i :: 0 <= i < |evs| && OnCards(evs[i]) && evs[i].create && evs[i].name == name && name !in AliasNames(c)
  }

  /** The loop's names are the validator's, or part of them if a malformed world stopped it. */
  ghost predicate Agrees(c: Chars, evs: seq<Event>, known: Known, d: Desk) {
    && d.mem.at.Keys <= known.chars && (d.error.None? ==> d.mem.at.Keys == known.chars)
    && FindProtagonist(d.mem) == FindProtagonist(c)
    && (forall n :: n in d.mem.at && n !in c.at ==> Declared(c, evs, n))
    && c.at.Keys <= d.mem.at.Keys
  }

  lemma DeclaredLater(c: Chars, evs: seq<Event>, ev: Event, n: string)
    requires Declared(c, evs, n)
    ensures Declared(c, evs + [ev], n)
  {
    var i :| 0 <= i < |evs| && OnCards(evs[i]) && evs[i].create && evs[i].name == n && n !in AliasNames(c);
    assert (evs + [ev])[i] == evs[i];
  }

  lemma DeclaredNow(c: Chars, evs: seq<Event>, ev: Event)
    requires OnCards(ev) && ev.create && ev.name !in AliasNames(c)
    ensures Declared(c, evs + [ev], ev.name)
  {
    assert (evs + [ev])[|evs|] == ev;
  }

  /** With the same lead, the two loops add the same name, and only a declared one. */
  lemma EntryAgrees(c: Chars, known: Known, d: Desk, ev: Event, index: nat, ch: int)
    requires d.error.None? && OnCards(ev) && ValidateEvent(c, known, ev, index).Ok?
    requires d.mem.at.Keys == known.chars && FindProtagonist(d.mem) == FindProtagonist(c) && c.at.Keys <= known.chars
    ensures PostEvent(d, ev, ch).mem.at.Keys == ValidateEvent(c, known, ev, index).value.chars
    ensures forall n :: n in PostEvent(d, ev, ch).mem.at && n !in d.mem.at ==>
              n == ev.name && ev.create && n !in AliasNames(c)
  {
    ProtagonistIsKnown(c);
  }

  lemma OtherEntry(c: Chars, known: Known, d: Desk, ev: Event, index: nat, ch: int)
    requires !OnCards(ev)
    ensures PostEvent(d, ev, ch).mem == d.mem
    ensures ValidateEvent(c, known, ev, index).Ok? ==> ValidateEvent(c, known, ev, index).value.chars == known.chars
  {
  }

  /** Names are only ever added to what is known. */
  lemma EntryGrows(c: Chars, known: Known, ev: Event, index: nat)
    requires ValidateEvent(c, known, ev, index).Ok?
    ensures known.chars <= ValidateEvent(c, known, ev, index).value.chars
  {
  }

  lemma {:induction false} PostingAgrees(c: Chars, k: Known, d: Desk, evs: seq<Event>, ch: int)
    requires d.mem == c && k.chars == c.at.Keys
    requires Simulate(c, k, evs).Ok? && KeepRoles(evs)
    ensures Agrees(c, evs, Simulate(c, k, evs).value, PostEvents(d, evs, ch))
  {
    if |evs| > 0 {
      var front, ev := evs[..|evs| - 1], evs[|evs| - 1];
      PostingAgrees(c, k, d, front, ch);
      AgreesOn(c, front, Simulate(c, k, front).value, PostEvents(d, front, ch), ev, ch);
      assert front + [ev] == evs;
    }
  }

  lemma AgreesOn(c: Chars, evs: seq<Event>, known: Known, d: Desk, ev: Event, ch: int)
    requires Agrees(c, evs, known, d) && KeepsRole(ev) && ValidateEvent(c, known, ev, |evs|).Ok?
    ensures Agrees(c, evs + [ev], ValidateEvent(c, known, ev, |evs|).value, PostEvent(d, ev, ch))
  {
    EntryGrows(c, known, ev, |evs|);
    PostEventKeepsProtagonist(d, ev, ch);
    if !OnCards(ev) {
      OtherEntry(c, known, d, ev, |evs|, ch);
    } else if d.error.None? {
      EntryAgrees(c, known, d, ev, |evs|, ch);
    }
    forall n | n in PostEvent(d, ev, ch).mem.at && n !in c.at
      ensures Declared(c, evs + [ev], n)
    {
      if n in d.mem.at {
        DeclaredLater(c, evs, ev, n);
      } else {
        DeclaredNow(c, evs, ev);
      }
    }
  }

  lemma ProtagonistIsKnown(c: Chars)
    ensures FindProtagonist(c).Some? ==> FindProtagonist(c).value in c.at
  {
    FirstProtagonistFound(c.order, c.at);
  }

  /******* Cards are folds of their ledgers *******/

  /** What one ledger row does to its entity's card. */
  function AfterRow(name: string, card: Option<Card>, row: Row): Option<Card> {
    match row
    case CardRow(_, created, changes, _) =>
      if created then Some(CreatedCard(name, changes))
      else if card.Some? then Some(ChangedCard(Named(name, card.value), changes)) else None
    case AppearanceRow(ch, _) =>
      if card.Some? then Some(AppearedCard(Named(name, card.value), ch)) else None
    case _ => card
  }

  /** The card rebuilt from its opening state and its ledger alone. */
  function FoldRows(name: string, opening: Option<Card>, rows: seq<Row>): Option<Card> {
    if |rows| == 0 then opening
    else AfterRow(name, FoldRows(name, opening, rows[..|rows| - 1]), rows[|rows| - 1])
  }

  function CardAt(files: map<string, Card>, name: string): Option<Card> {
    if name in files then Some(files[name]) else None
  }

  /** One entity's rows among the postings that came after `before`. */
  function NewRows(before: seq<Posting>, after: seq<Posting>, account: Account): seq<Row> {
    if |before| <= |after| then LedgerOf(after[|before|..], account) else []
  }

  ghost predicate FollowsAt(b0: Books, b: Books, n: string) {
    CardAt(b.files, n) ==
    FoldRows(n, CardAt(b0.files, n), NewRows(b0.postings, b.postings, Account(Characters, n)))
  }

  ghost predicate FollowsLedger(b0: Books, b: Books) {
    b0.postings <= b.postings && forall n :: FollowsAt(b0, b, n)
  }

  lemma NewRowsAppend(before: seq<Posting>, after: seq<Posting>, p: Posting, account: Account)
    requires before <= after
    ensures NewRows(before, after + [p], account) ==
            NewRows(before, after, account) + if p.account == account then [p.row] else []
  {
    var new' := (after + [p])[|before|..];
    assert new' == after[|before|..] + [p];
    assert new'[..|new'| - 1] == after[|before|..];
  }

  lemma RowFollowsAt(b0: Books, b: Books, b': Books, p: Posting, n: string)
    requires b0.postings <= b.postings && b'.postings == b.postings + [p] && FollowsAt(b0, b, n)
    requires CardAt(b'.files, n) ==
             if p.account == Account(Characters, n) then AfterRow(n, CardAt(b.files, n), p.row) else CardAt(b.files, n)
    ensures FollowsAt(b0, b', n)
  {
    NewRowsAppend(b0.postings, b.postings, p, Account(Characters, n));
    var rows := NewRows(b0.postings, b.postings, Account(Characters, n));
    assert rows + [] == rows;
    assert (rows + [p.row])[..|rows|] == rows;
  }

  /** A card written together with its own row. */
  lemma WriteFollows(b0: Books, b: Books, b': Books, name: string, card: Card, row: Row)
    requires FollowsLedger(b0, b)
    requires Some(card) == AfterRow(name, CardAt(b.files, name), row)
    requires b'.files == b.files[name := card]
    requires b'.postings == b.postings + [Posting(Account(Characters, name), row)]
    ensures FollowsLedger(b0, b')
  {
    forall n
      ensures FollowsAt(b0, b', n)
    {
      assert FollowsAt(b0, b, n);
      RowFollowsAt(b0, b, b', Posting(Account(Characters, name), row), n);
    }
  }

  /** A posting to any other kind of account leaves every card's fold alone. */
  lemma OtherFollows(b0: Books, b: Books, b': Books, p: Posting)
    requires FollowsLedger(b0, b) && p.account.kind != Characters
    requires b'.files == b.files && b'.postings == b.postings + [p]
    ensures FollowsLedger(b0, b')
  {
    forall n
      ensures FollowsAt(b0, b', n)
    {
      assert FollowsAt(b0, b, n);
      RowFollowsAt(b0, b, b', p, n);
    }
  }

  ghost predicate Following(b0: Books, d: Desk) {
    WellNamed(d.books.files) && Synced(d.mem, d.books.files) && FollowsLedger(b0, d.books)
  }

  lemma SyncedPut(c: Chars, files: map<string, Card>, name: string, card: Card)
    requires Synced(c, files) && "name" in card
    ensures Synced(Put(c, name, card), files[name := card])
  {
  }

  lemma WrittenCardNamed(mem: Chars, name: string, changes: map<string, Value>)
    requires "name" !in changes && (name in mem.at ==> "name" in mem.at[name] && NameOf(name, mem.at[name]) == name)
    ensures var card := WrittenCard(mem, name, changes); "name" in card && NameOf(name, card) == name
  {
    TransientFacts();
  }

  lemma PostEventFollows(b0: Books, d: Desk, ev: Event, ch: int)
    requires Following(b0, d) && KeepsName(ev)
    ensures Following(b0, PostEvent(d, ev, ch))
  {
    var d' := PostEvent(d, ev, ch);
    if d.error.None? {
      if OnCards(ev) {
        PostCardFollows(b0, d, ev, ch);
      } else {
        WorldFrame(d, ev, ch);
        if d'.error.None? {
          OtherFollows(b0, d.books, d'.books, d'.books.postings[|d.books.postings|]);
        }
      }
    }
  }

  lemma PostCardFollows(b0: Books, d: Desk, ev: Event, ch: int)
    requires Following(b0, d) && KeepsName(ev) && OnCards(ev)
    ensures Following(b0, PostCard(d, ev, ch))
  {
    var name := Resolve(ev.entityType, ev.name, d.mem.at.Keys, FindProtagonist(d.mem));
    CardWriteFollows(b0, d, PostCard(d, ev, ch), name, ev.changes, ch, ev.reason);
  }

  lemma CardWriteFollows(b0: Books, d: Desk, d': Desk, name: string, changes: map<string, Value>, ch: int, reason: string)
    requires Following(b0, d) && "name" !in changes
    requires var card := WrittenCard(d.mem, name, changes);
             && d'.mem == Put(d.mem, name, card)
             && d'.books == d.books.(files := d.books.files[name := card],
                  postings := d.books.postings + [Posting(Account(Characters, name), CardRow(ch, name !in d.mem.at, changes, reason))])
    ensures Following(b0, d')
  {
    var card := WrittenCard(d.mem, name, changes);
    WrittenCardNamed(d.mem, name, changes);
    SyncedPut(d.mem, d.books.files, name, card);
    WriteFollows(b0, d.books, d'.books, name, card, CardRow(ch, name !in d.mem.at, changes, reason));
  }

  /** Entries for the world write no card. */
  lemma WorldFrame(d: Desk, ev: Event, ch: int)
    requires d.error.None? && !OnCards(ev)
    ensures var d' := PostEvent(d, ev, ch);
            && d'.mem == d.mem && d'.books.files == d.books.files
            && (d'.error.Some? ==> d'.books == d.books)
            && (d'.error.None? ==>
                  && |d'.books.postings| == |d.books.postings| + 1
                  && d'.books.postings == d.books.postings + [d'.books.postings[|d.books.postings|]]
                  && d'.books.postings[|d.books.postings|].account.kind != Characters)
  {
  }

  lemma {:induction false} PostEventsFollow(b0: Books, d: Desk, evs: seq<Event>, ch: int)
    requires Following(b0, d) && KeepNames(evs)
    ensures Following(b0, PostEvents(d, evs, ch))
  {
    if |evs| > 0 {
      PostEventsFollow(b0, d, evs[..|evs| - 1], ch);
      PostEventFollows(b0, PostEvents(d, evs[..|evs| - 1], ch), evs[|evs| - 1], ch);
    }
  }

  lemma AppearanceFollows(b0: Books, d: Desk, ap: Appearance, ch: int)
    requires Following(b0, d)
    ensures Following(b0, LogAppearance(d, ap, ch))
  {
    if ap.name in d.mem.at {
      var card := AppearedCard(d.mem.at[ap.name], ch);
      assert "name" in card && NameOf(ap.name, card) == ap.name;
      SyncedPut(d.mem, d.books.files, ap.name, card);
      WriteFollows(b0, d.books, LogAppearance(d, ap, ch).books, ap.name, card, AppearanceRow(ch, ap.importance));
    }
  }

  lemma {:induction false} AppearancesFollow(b0: Books, d: Desk, aps: seq<Appearance>, ch: int)
    requires Following(b0, d)
    ensures Following(b0, NovelState.LogAppearances(d, aps, ch))
  {
    if |aps| > 0 {
      AppearancesFollow(b0, d, aps[..|aps| - 1], ch);
      AppearanceFollows(b0, NovelState.LogAppearances(d, aps[..|aps| - 1], ch), aps[|aps| - 1], ch);
    }
  }

  lemma {:induction false} PlotPostings(b: Books, threadUps: seq<ThreadUpdate>, arcUps: seq<ArcUpdate>, ch: int)
    ensures var b' := BookArcs(BookThreads(b, threadUps, ch).books, arcUps, ch).books;
            && b'.files == b.files && b'.world == b.world && b.postings <= b'.postings
            && forall i :: |b.postings| <= i < |b'.postings| ==> b'.postings[i].account.kind != Characters
  {
    ThreadPostings(ThreadDesk(b.threads, b.postings, []), b.arcs, threadUps, ch);
    var t := BookThreads(b, threadUps, ch).books;
    ArcPostings(ArcDesk(t.arcs, t.postings, []), arcUps, ch);
  }

  ghost predicate PlotOnly(p: seq<Posting>, q: seq<Posting>, kind: Kind) {
    p <= q && forall i :: |p| <= i < |q| ==> q[i].account.kind == kind
  }

  lemma {:induction false} ThreadPostings(d: ThreadDesk, arcs: seq<Arc>, ups: seq<ThreadUpdate>, ch: int)
    ensures PlotOnly(d.postings, UpdateThreads(d, arcs, ups, ch).postings, Threads)
  {
    if |ups| > 0 {
      ThreadPostings(d, arcs, ups[..|ups| - 1], ch);
    }
  }

  lemma {:induction false} NodePostings(d: ArcDesk, a: nat, ids: seq<string>, ch: int)
    requires a < |d.arcs|
    ensures PlotOnly(d.postings, CompleteNodes(d, a, ids, ch).postings, Arcs)
  {
    if |ids| > 0 {
      NodePostings(d, a, ids[..|ids| - 1], ch);
    }
  }

  lemma {:induction false} ArcPostings(d: ArcDesk, ups: seq<ArcUpdate>, ch: int)
    ensures PlotOnly(d.postings, UpdateArcs(d, ups, ch).postings, Arcs)
  {
    if |ups| > 0 {
      ArcPostings(d, ups[..|ups| - 1], ch);
      var d0, up := UpdateArcs(d, ups[..|ups| - 1], ch), ups[|ups| - 1];
      var a := LastArc(d0.arcs, up.name);
      if a >= 0 {
        NodePostings(d0, a, up.nodesCompleted, ch);
      }
    }
  }

  /** Postings of other kinds, however many, leave the folds alone. */
  lemma {:induction false} OthersFollow(b0: Books, b: Books, b': Books)
    requires FollowsLedger(b0, b) && b'.files == b.files && b.postings <= b'.postings
    requires forall i :: |b.postings| <= i < |b'.postings| ==> b'.postings[i].account.kind != Characters
    ensures FollowsLedger(b0, b')
    decreases |b'.postings|
  {
    if |b'.postings| > |b.postings| {
      var mid := b'.(postings := b'.postings[..|b'.postings| - 1]);
      OthersFollow(b0, b, mid);
      OtherFollows(b0, mid, b', b'.postings[|b'.postings| - 1]);
    } else {
      assert b'.postings == b.postings;
      assert forall n :: FollowsAt(b0, b, n) ==> FollowsAt(b0, b', n);
    }
  }

  ghost predicate Kept(b0: Books, b: Books) {
    WellNamed(b.files) && FollowsLedger(b0, b)
  }

  lemma EventsFollow(b0: Books, b: Books, ls: Listing, c: Chapter)
    requires Kept(b0, b) && IsListing(ls) && KeepNames(c.events)
    ensures Kept(b0, BookEvents(b, ls, c.events, c.n).books)
  {
    LoadWellNamed(b.files, ls);
    PostEventsFollow(b0, OpenDesk(b, ls), c.events, c.n);
  }

  lemma ChapterFollows(b0: Books, b: Books, ls: Listing, c: Chapter)
    requires Kept(b0, b) && IsListing(ls) && KeepNames(c.events)
    ensures Kept(b0, BookChapter(b, ls, c).books)
  {
    EventsFollow(b0, b, ls, c);
    var ev := BookEvents(b, ls, c.events, c.n);
    if ev.error.None? {
      LoadWellNamed(ev.books.files, ls);
      AppearancesFollow(b0, OpenDesk(ev.books, ls), c.appearances, c.n);
      var ap := BookAppearances(ev.books, ls, c.appearances, c.n);
      PlotPostings(ap.books, c.threadUpdates, c.arcUpdates, c.n);
      OthersFollow(b0, ap.books, BookChapter(b, ls, c).books);
    }
  }

  ghost predicate KeepAllNames(cs: seq<Chapter>) {
    forall i :: 0 <= i < |cs| ==> KeepNames(cs[i].events)
  }

  /**
   After any number of booked chapters, refused ones included, every card on disk is the
   fold of that entity's own ledger rows over its opening card.
   */
  lemma {:induction false} CardsAreLedgerFolds(b: Books, ls: Listing, cs: seq<Chapter>)
    requires WellNamed(b.files) && IsListing(ls) && KeepAllNames(cs)
    ensures Kept(b, BookAll(b, ls, cs).books)
  {
    if |cs| == 0 {
      assert b.postings[|b.postings|..] == [];
    } else {
      CardsAreLedgerFolds(b, ls, cs[..|cs| - 1]);
      var prev := BookAll(b, ls, cs[..|cs| - 1]);
      if prev.error.None? {
        ChapterFollows(b, prev.books, ls, cs[|cs| - 1]);
      }
    }
  }

  /** The keys that only journal entries write. */
  predicate IsBalance(key: string) {
    !IsTransient(key) &&
    key !in ["name", "progression", "initial", "first_appearance", "last_appearance"]
  }

  /** Read a key off the ledger: the last entry that mentions it, else its opening value. */
  function LastWrite(name: string, opening: Option<Card>, rows: seq<Row>, key: string): Value {
    if |rows| == 0 then if opening.Some? then Get(opening.value, key) else Null
    else
      var row, front := rows[|rows| - 1], rows[..|rows| - 1];
      if row.CardRow? && key in row.changes then row.changes[key]
      else if row.CardRow? && row.created then Get(OpeningCard(name), key)
      else LastWrite(name, opening, front, key)
  }

  lemma {:induction false} FoldReadsLastWrite(name: string, opening: Option<Card>, rows: seq<Row>, key: string)
    requires IsBalance(key) && FoldRows(name, opening, rows).Some?
    ensures Get(FoldRows(name, opening, rows).value, key) == LastWrite(name, opening, rows, key)
  {
    if |rows| > 0 {
      var front, row := rows[..|rows| - 1], rows[|rows| - 1];
      if FoldRows(name, opening, front).Some? {
        FoldReadsLastWrite(name, opening, front, key);
      }
      RowReads(name, FoldRows(name, opening, front), row, key);
    }
  }

  lemma RowReads(name: string, card: Option<Card>, row: Row, key: string)
    requires IsBalance(key) && AfterRow(name, card, row).Some?
    ensures Get(AfterRow(name, card, row).value, key) ==
            if row.CardRow? && key in row.changes then row.changes[key]
            else if row.CardRow? && row.created then Get(OpeningCard(name), key)
            else if card.Some? then Get(card.value, key) else Null
  {
  }

  lemma {:induction false} FoldStoresNoTransient(name: string, opening: Option<Card>, rows: seq<Row>, key: string)
    requires IsTransient(key) && FoldRows(name, opening, rows).Some?
    ensures key in FoldRows(name, opening, rows).value ==> opening.Some? && key in opening.value
  {
    TransientFacts();
    if |rows| > 0 {
      var front := rows[..|rows| - 1];
      if FoldRows(name, opening, front).Some? {
        FoldStoresNoTransient(name, opening, front, key);
      }
    }
  }

  /**
   What a reader of the ledger learns about the bible, after any run: each balance on a card
   is the last value its ledger mentions, and a one-chapter key was there from the start.
   */
  lemma CardsReadOffTheLedger(b: Books, ls: Listing, cs: seq<Chapter>, name: string, key: string)
    requires WellNamed(b.files) && IsListing(ls) && KeepAllNames(cs)
    requires name in BookAll(b, ls, cs).books.files
    ensures var after := BookAll(b, ls, cs).books;
            var rows := NewRows(b.postings, after.postings, Account(Characters, name));
            && (IsBalance(key) ==> Get(after.files[name], key) == LastWrite(name, CardAt(b.files, name), rows, key))
            && (IsTransient(key) && key in after.files[name] ==> name in b.files && key in b.files[name])
  {
    CardsAreLedgerFolds(b, ls, cs);
    var after := BookAll(b, ls, cs).books;
    var rows := NewRows(b.postings, after.postings, Account(Characters, name));
    assert FollowsAt(b, after, name);
    if IsBalance(key) {
      FoldReadsLastWrite(name, CardAt(b.files, name), rows, key);
    } else if IsTransient(key) {
      FoldStoresNoTransient(name, CardAt(b.files, name), rows, key);
    }
  }

  /** The opening balance of a created card holds no one-chapter key either. */
  lemma OpeningBalanceIsClean(name: string, changes: map<string, Value>)
    ensures var card := CreatedCard(name, changes);
            && card["initial"].Dict?
            && (forall k :: k in card["initial"].fields <==> k in card && k != "initial" && k != "progression")
            && (forall k :: k in card["initial"].fields ==> !IsTransient(k) && card[k] == card["initial"].fields[k])
  {
    TransientFacts();
  }

  /**
   World settings are different: where the stored value is not a mapping, the raw changes
   replace it, and a one-chapter key is stored. It happens exactly then.
   */
  lemma SettingStoresTransientIff(settings: map<string, Value>, ev: Event, key: string)
    requires IsTransient(key) && key in ev.changes
    requires ev.name in settings && settings[ev.name].Dict? ==> key !in settings[ev.name].fields
    ensures SettingEntry(settings, ev).Dict?
    ensures key in SettingEntry(settings, ev).fields <==> ev.name in settings && !settings[ev.name].Dict?
  {
    TransientFacts();
  }

  /** A setting stored as plain text: any entry for it with a one-chapter key stores that key. */
  lemma TextSettingStoresTransient(name: string, text: string) returns (settings: map<string, Value>, ev: Event, key: string)
    ensures IsTransient(key) && ev.entityType == WorldSetting && ev.name == name && settings == map[name := Str(text)]
    ensures SettingEntry(settings, ev).Dict? && key in SettingEntry(settings, ev).fields
  {
    settings, key := map[name := Str(text)], TRANSIENT_PREFIX;
    ev := Event(WorldSetting, name, map[key := Str(text)], "", false);
  }
}
