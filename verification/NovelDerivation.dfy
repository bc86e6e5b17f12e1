/**
 What the derivation assumes of the start of the book, and exactly when that is right: no plot
 node done at genesis is completed again, and no genesis name is created or registered again.
 */
module NovelDerivation {
  import opened Values
  import opened NovelState
  import opened NovelPosting
  import opened NovelJournal
  import opened NovelRenames
  import NovelPlot

  /******* Nodes that were done at genesis *******/

  /** The sheet of a derivation that knows which nodes were done at the start. */
  function InformedSheet(cast: set<string>, threads: set<string>, arcs: seq<Arc>): Sheet {
    var ids := NodeIdsOf(arcs);
    Sheet(cast, threads, map name | name in ids :: set id | id in ids[name] && IsDone(arcs, name, id), [])
  }

  lemma DoneIsListed(arcs: seq<Arc>, name: string, id: string)
    requires IsDone(arcs, name, id)
    ensures name in NodeIdsOf(arcs) && id in NodeIdsOf(arcs)[name]
  {
    ArcsIndexed(arcs, name);
    IdsIndexed(arcs[LastArc(arcs, name)].nodes, id);
  }

  lemma InformedMatches(cast: set<string>, threads: set<string>, arcs: seq<Arc>)
    ensures DoneMatches(InformedSheet(cast, threads, arcs).done, arcs)
  {
    var done := InformedSheet(cast, threads, arcs).done;
    forall name, id
      ensures id in DoneAt(done, name) <==> IsDone(arcs, name, id)
    {
      if IsDone(arcs, name, id) {
        DoneIsListed(arcs, name, id);
      }
    }
  }

  /** No listed node was done at the start. */
  predicate CleanNodes(opening: seq<Arc>, arc: string, listed: seq<string>) {
    forall k :: 0 <= k < |listed| ==> !IsDone(opening, arc, listed[k])
  }

  predicate CleanArcs(opening: seq<Arc>, ups: seq<ArcUpdate>) {
    forall j :: 0 <= j < |ups| ==> CleanNodes(opening, ups[j].name, ups[j].nodesCompleted)
  }

  /** No journal completes a node that was done at the start. */
  predicate NothingRedone(opening: seq<Arc>, cs: seq<Chapter>) {
    forall i :: 0 <= i < |cs| ==> CleanArcs(opening, cs[i].arcUpdates)
  }

  /** `t` has done what `s` has, and what was done at the start. */
  ghost predicate DoneTwins(opening: seq<Arc>, s: map<string, set<string>>, t: map<string, set<string>>) {
    forall name, id :: id in DoneAt(t, name) <==> id in DoneAt(s, name) || IsDone(opening, name, id)
  }

  ghost predicate Apart(opening: seq<Arc>, s: map<string, set<string>>) {
    forall name, id :: id in DoneAt(s, name) ==> !IsDone(opening, name, id)
  }

  /** The blank sheet `s` and the informed one `t`, after the same journals. */
  ghost predicate Twins(opening: seq<Arc>, s: Sheet, t: Sheet, clean: bool) {
    && t.known == s.known && t.threads == s.threads && DoneTwins(opening, s.done, t.done)
    && if clean then t.rows == s.rows && Apart(opening, s.done) else |t.rows| < |s.rows|
  }

  lemma EventTwins(opening: seq<Arc>, s: Sheet, t: Sheet, clean: bool, lead: Option<string>, ev: Event, n: int)
    requires Twins(opening, s, t, clean)
    ensures Twins(opening, DeriveEvent(s, lead, ev, n), DeriveEvent(t, lead, ev, n), clean)
  {
  }

  lemma {:induction false} EventsTwins(opening: seq<Arc>, s: Sheet, t: Sheet, clean: bool, lead: Option<string>, evs: seq<Event>, n: int)
    requires Twins(opening, s, t, clean)
    ensures Twins(opening, DeriveEvents(s, lead, evs, n), DeriveEvents(t, lead, evs, n), clean)
  {
    if |evs| > 0 {
      var front := evs[..|evs| - 1];
      EventsTwins(opening, s, t, clean, lead, front, n);
      EventTwins(opening, DeriveEvents(s, lead, front, n), DeriveEvents(t, lead, front, n), clean, lead, evs[|evs| - 1], n);
    }
  }

  lemma {:induction false} AppearancesTwins(opening: seq<Arc>, s: Sheet, t: Sheet, clean: bool, aps: seq<Appearance>, n: int)
    requires Twins(opening, s, t, clean)
    ensures Twins(opening, DeriveAppearances(s, aps, n), DeriveAppearances(t, aps, n), clean)
  {
    if |aps| > 0 {
      AppearancesTwins(opening, s, t, clean, aps[..|aps| - 1], n);
    }
  }

  lemma {:induction false} ThreadsTwins(opening: seq<Arc>, s: Sheet, t: Sheet, clean: bool, ups: seq<ThreadUpdate>, n: int)
    requires Twins(opening, s, t, clean)
    ensures Twins(opening, DeriveThreads(s, ups, n), DeriveThreads(t, ups, n), clean)
  {
    if |ups| > 0 {
      ThreadsTwins(opening, s, t, clean, ups[..|ups| - 1], n);
    }
  }

  function WithDone(done: map<string, set<string>>, arc: string, id: string): map<string, set<string>> {
    done[arc := DoneAt(done, arc) + {id}]
  }

  lemma WithDoneAt(done: map<string, set<string>>, arc: string, id: string, name: string, id': string)
    ensures id' in DoneAt(WithDone(done, arc, id), name) <==> id' in DoneAt(done, name) || (name == arc && id' == id)
  {
  }

  /** Both sheets mark a node that was open at the start. */
  lemma OpenNodeMarked(opening: seq<Arc>, s: map<string, set<string>>, t: map<string, set<string>>, arc: string, id: string)
    requires DoneTwins(opening, s, t) && !IsDone(opening, arc, id)
    ensures DoneTwins(opening, WithDone(s, arc, id), WithDone(t, arc, id))
    ensures Apart(opening, s) ==> Apart(opening, WithDone(s, arc, id))
  {
    forall name, id'
      ensures id' in DoneAt(WithDone(t, arc, id), name) <==> id' in DoneAt(WithDone(s, arc, id), name) || IsDone(opening, name, id')
      ensures id' in DoneAt(WithDone(s, arc, id), name) ==> id' in DoneAt(s, name) || !IsDone(opening, name, id')
    {
      WithDoneAt(s, arc, id, name, id');
      WithDoneAt(t, arc, id, name, id');
    }
  }

  /** Only the blank sheet marks a node that was done at the start. */
  lemma DoneNodeMarked(opening: seq<Arc>, s: map<string, set<string>>, t: map<string, set<string>>, arc: string, id: string)
    requires DoneTwins(opening, s, t) && IsDone(opening, arc, id)
    ensures DoneTwins(opening, WithDone(s, arc, id), t)
  {
    forall name, id'
      ensures id' in DoneAt(t, name) <==> id' in DoneAt(WithDone(s, arc, id), name) || IsDone(opening, name, id')
    {
      WithDoneAt(s, arc, id, name, id');
    }
  }

  /** One listed node: the blank sheet notes it whenever the informed one does, and once more if it was done. */
  lemma NodeTwins(opening: seq<Arc>, s: Sheet, t: Sheet, clean: bool, arc: string, id: string, n: int)
    requires Twins(opening, s, t, clean)
    ensures var ids := NodeIdsOf(opening);
            Twins(opening, DeriveNode(s, ids, arc, id, n), DeriveNode(t, ids, arc, id, n), clean && !IsDone(opening, arc, id))
  {
    if IsDone(opening, arc, id) {
      DoneIsListed(opening, arc, id);
      assert id in DoneAt(t.done, arc);
      DoneNodeMarked(opening, s.done, t.done, arc, id);
    } else {
      assert id in DoneAt(t.done, arc) <==> id in DoneAt(s.done, arc);
      OpenNodeMarked(opening, s.done, t.done, arc, id);
    }
  }

  lemma {:induction false} NodesTwins(opening: seq<Arc>, s: Sheet, t: Sheet, clean: bool, arc: string, listed: seq<string>, n: int)
    requires Twins(opening, s, t, clean)
    ensures var ids := NodeIdsOf(opening);
            Twins(opening, DeriveNodes(s, ids, arc, listed, n), DeriveNodes(t, ids, arc, listed, n),
                  clean && CleanNodes(opening, arc, listed))
  {
    if |listed| > 0 {
      var ids, front := NodeIdsOf(opening), listed[..|listed| - 1];
      NodesTwins(opening, s, t, clean, arc, front, n);
      NodeTwins(opening, DeriveNodes(s, ids, arc, front, n), DeriveNodes(t, ids, arc, front, n),
                clean && CleanNodes(opening, arc, front), arc, listed[|listed| - 1], n);
      CleanNodesLast(opening, arc, listed);
    }
  }

  lemma CleanNodesLast(opening: seq<Arc>, arc: string, listed: seq<string>)
    requires |listed| > 0
    ensures CleanNodes(opening, arc, listed) <==>
            CleanNodes(opening, arc, listed[..|listed| - 1]) && !IsDone(opening, arc, listed[|listed| - 1])
  {
  }

  lemma ArcTwins(opening: seq<Arc>, s: Sheet, t: Sheet, clean: bool, up: ArcUpdate, n: int)
    requires Twins(opening, s, t, clean)
    ensures var ids := NodeIdsOf(opening);
            Twins(opening, DeriveArc(s, ids, up, n), DeriveArc(t, ids, up, n), clean && CleanNodes(opening, up.name, up.nodesCompleted))
  {
    NodesTwins(opening, s, t, clean, up.name, up.nodesCompleted, n);
    if up.name !in NodeIdsOf(opening) {
      UnknownIsClean(opening, up.name, up.nodesCompleted);
    }
  }

  lemma UnknownIsClean(opening: seq<Arc>, arc: string, listed: seq<string>)
    requires arc !in NodeIdsOf(opening)
    ensures CleanNodes(opening, arc, listed)
  {
    ArcsIndexed(opening, arc);
  }

  lemma {:induction false} ArcsTwins(opening: seq<Arc>, s: Sheet, t: Sheet, clean: bool, ups: seq<ArcUpdate>, n: int)
    requires Twins(opening, s, t, clean)
    ensures var ids := NodeIdsOf(opening);
            Twins(opening, DeriveArcs(s, ids, ups, n), DeriveArcs(t, ids, ups, n), clean && CleanArcs(opening, ups))
  {
    if |ups| > 0 {
      var ids, front, up := NodeIdsOf(opening), ups[..|ups| - 1], ups[|ups| - 1];
      ArcsTwins(opening, s, t, clean, front, n);
      ArcTwins(opening, DeriveArcs(s, ids, front, n), DeriveArcs(t, ids, front, n), clean && CleanArcs(opening, front), up, n);
      CleanArcsLast(opening, ups);
    }
  }

  lemma CleanArcsLast(opening: seq<Arc>, ups: seq<ArcUpdate>)
    requires |ups| > 0
    ensures var up := ups[|ups| - 1];
            CleanArcs(opening, ups) <==> CleanArcs(opening, ups[..|ups| - 1]) && CleanNodes(opening, up.name, up.nodesCompleted)
  {
  }

  lemma ChapterTwins(opening: seq<Arc>, s: Sheet, t: Sheet, clean: bool, lead: Option<string>, c: Chapter)
    requires Twins(opening, s, t, clean)
    ensures var ids := NodeIdsOf(opening);
            Twins(opening, DeriveChapter(s, lead, ids, c), DeriveChapter(t, lead, ids, c), clean && CleanArcs(opening, c.arcUpdates))
  {
    EventsTwins(opening, s, t, clean, lead, c.events, c.n);
    var s1, t1 := DeriveEvents(s, lead, c.events, c.n), DeriveEvents(t, lead, c.events, c.n);
    AppearancesTwins(opening, s1, t1, clean, c.appearances, c.n);
    var s2, t2 := DeriveAppearances(s1, c.appearances, c.n), DeriveAppearances(t1, c.appearances, c.n);
    ThreadsTwins(opening, s2, t2, clean, c.threadUpdates, c.n);
    ArcsTwins(opening, DeriveThreads(s2, c.threadUpdates, c.n), DeriveThreads(t2, c.threadUpdates, c.n), clean, c.arcUpdates, c.n);
  }

  lemma {:induction false} JournalsTwins(opening: seq<Arc>, s: Sheet, t: Sheet, lead: Option<string>, cs: seq<Chapter>)
    requires Twins(opening, s, t, true)
    ensures var ids := NodeIdsOf(opening);
            Twins(opening, Derive(s, lead, ids, cs), Derive(t, lead, ids, cs), NothingRedone(opening, cs))
  {
    if |cs| > 0 {
      var ids, front := NodeIdsOf(opening), cs[..|cs| - 1];
      JournalsTwins(opening, s, t, lead, front);
      ChapterTwins(opening, Derive(s, lead, ids, front), Derive(t, lead, ids, front), NothingRedone(opening, front), lead, cs[|cs| - 1]);
      NothingRedoneLast(opening, cs);
    }
  }

  lemma NothingRedoneLast(opening: seq<Arc>, cs: seq<Chapter>)
    requires |cs| > 0
    ensures NothingRedone(opening, cs) <==>
            NothingRedone(opening, cs[..|cs| - 1]) && CleanArcs(opening, cs[|cs| - 1].arcUpdates)
  {
  }

  lemma BlankAndInformed(cast: set<string>, threads: set<string>, arcs: seq<Arc>)
    ensures Twins(arcs, BlankSheet(cast, threads, NodeIdsOf(arcs)), InformedSheet(cast, threads, arcs), true)
  {
    InformedMatches(cast, threads, arcs);
  }

  /**
   For every book of accepted journals with one steady lead, whatever was done at genesis: the rows
   the migration derives are exactly, in order, the rows that booking appends, if and only if no
   journal completes a node that was done at genesis.
   */
  lemma DerivedRowsAreBookedIff(genesis: Books, ls: Listing, live: Chars, cs: seq<Chapter>)
    requires WellNamed(genesis.files) && OneLead(genesis.files)
    requires IsListing(ls) && SteadyJournals(cs) && BookAll(genesis, ls, cs).error.None?
    requires Synced(live, BookAll(genesis, ls, cs).books.files)
    ensures var after := BookAll(genesis, ls, cs).books;
            var ids := NodeIdsOf(after.arcs);
            after.postings == genesis.postings +
              Derive(BlankSheet(genesis.files.Keys, ThreadNames(genesis.threads), ids), FindProtagonist(live), ids, cs).rows
            <==> NothingRedone(genesis.arcs, cs)
  {
    var lead := BookedRowsAreInformed(genesis, ls, live, cs);
    var cast, threads, ids := genesis.files.Keys, ThreadNames(genesis.threads), NodeIdsOf(genesis.arcs);
    BlankAndInformed(cast, threads, genesis.arcs);
    JournalsTwins(genesis.arcs, BlankSheet(cast, threads, ids), InformedSheet(cast, threads, genesis.arcs), lead, cs);
  }

  /** Booking always appends the rows of the informed derivation. */
  lemma BookedRowsAreInformed(genesis: Books, ls: Listing, live: Chars, cs: seq<Chapter>) returns (lead: Option<string>)
    requires WellNamed(genesis.files) && OneLead(genesis.files)
    requires IsListing(ls) && SteadyJournals(cs) && BookAll(genesis, ls, cs).error.None?
    requires Synced(live, BookAll(genesis, ls, cs).books.files)
    ensures lead == FindProtagonist(live) && NodeIdsOf(BookAll(genesis, ls, cs).books.arcs) == NodeIdsOf(genesis.arcs)
    ensures BookAll(genesis, ls, cs).books.postings == genesis.postings +
              Derive(InformedSheet(genesis.files.Keys, ThreadNames(genesis.threads), genesis.arcs), lead,
                     NodeIdsOf(genesis.arcs), cs).rows
  {
    var ids := NodeIdsOf(genesis.arcs);
    var t := InformedSheet(genesis.files.Keys, ThreadNames(genesis.threads), genesis.arcs);
    InformedMatches(genesis.files.Keys, ThreadNames(genesis.threads), genesis.arcs);
    assert genesis.postings + t.rows == genesis.postings;
    lead := BookedFrom(genesis, ls, live, cs, ids, t);
  }

  function Recompletes(name: string, id: string, n: int): Chapter {
    Chapter(n, n, [], [], [], [ArcUpdate(name, [id], "")])
  }

  /** A chapter of arc updates is accepted by every readable book and leaves its cards alone. */
  lemma ArcsOnlyBooks(b: Books, ls: Listing, name: string, id: string, n: int)
    requires ReadableStore(Load(b.files, ls), b.world)
    ensures BookAll(b, ls, [Recompletes(name, id, n)]).error.None?
    ensures BookAll(b, ls, [Recompletes(name, id, n)]).books.files == b.files
  {
    OneChapterBook(b, ls, Recompletes(name, id, n));
  }

  /** Completing a node that was done: the chapter is accepted, and the derivation has a row that booking has not. */
  lemma RecompletedNodeDerivesARow(genesis: Books, ls: Listing, live: Chars, name: string, id: string, n: int)
    requires WellNamed(genesis.files) && OneLead(genesis.files) && IsListing(ls)
    requires ReadableStore(Load(genesis.files, ls), genesis.world) && IsDone(genesis.arcs, name, id)
    requires Synced(live, genesis.files)
    ensures var cs := [Recompletes(name, id, n)];
            var after := BookAll(genesis, ls, cs);
            var ids := NodeIdsOf(after.books.arcs);
            && after.error.None?
            && after.books.postings != genesis.postings +
                 Derive(BlankSheet(genesis.files.Keys, ThreadNames(genesis.threads), ids), FindProtagonist(live), ids, cs).rows
  {
    var cs := [Recompletes(name, id, n)];
    ArcsOnlyBooks(genesis, ls, name, id, n);
    assert !CleanNodes(genesis.arcs, name, [id]) by {
      assert [id][0] == id;
    }
    assert !NothingRedone(genesis.arcs, cs) by {
      assert cs[0].arcUpdates[0].nodesCompleted == [id];
    }
    DerivedRowsAreBookedIff(genesis, ls, live, cs);
  }

  /******* The opening cast and threads, guessed from the journals *******/

  /** A name created again: the entry is accepted, and the guess takes its card for a later one. */
  lemma RecreatedNameIsGuessedAway(ls: Listing, name: string) returns (genesis: Books, cs: seq<Chapter>)
    requires IsListing(ls) && name != ""
    ensures genesis == Books(map[name := NamedCard(name)], map[], [], [], [])
    ensures BookAll(genesis, ls, cs).error.None?
    ensures name in genesis.files && name !in BookAll(genesis, ls, cs).books.files.Keys - CreatedNames(cs)
  {
    genesis := Books(map[name := NamedCard(name)], map[], [], [], []);
    NamedCardReads(name, name, name);
    OneFileLoaded(genesis.files, name, ls);
    OneCardReadable(Load(genesis.files, ls), genesis.world, name, NamedCard(name));
    var c := OneEntry(Event(Character, name, map[], "", true), 1);
    KnownEntryBooks(genesis, ls, c.events[0], 1);
    OneChapterBook(genesis, ls, c);
    cs := [c];
    assert cs[0].events[0].create;
  }

  function RegisteredIn(c: Chapter): set<string> {
    set j | 0 <= j < |c.threadUpdates| && c.threadUpdates[j].action == ToRegister :: c.threadUpdates[j].name
  }

  lemma RegisteredGrow(cs: seq<Chapter>)
    requires |cs| > 0
    ensures RegisteredNames(cs[..|cs| - 1]) <= RegisteredNames(cs) && RegisteredIn(cs[|cs| - 1]) <= RegisteredNames(cs)
  {
    var front := cs[..|cs| - 1];
    forall x | x in RegisteredNames(front)
      ensures x in RegisteredNames(cs)
    {
      var i, j :| 0 <= i < |front| && 0 <= j < |front[i].threadUpdates| && front[i].threadUpdates[j].action == ToRegister &&
                  front[i].threadUpdates[j].name == x;
      assert cs[i] == front[i];
    }
  }

  /** One update keeps every thread and adds at most the one it registers. */
  lemma ThreadUpdateNames(d: ThreadDesk, arcs: seq<Arc>, up: ThreadUpdate, ch: int)
    ensures var names := ThreadNames(UpdateThread(d, arcs, up, ch).threads);
            && ThreadNames(d.threads) <= names
            && names <= ThreadNames(d.threads) + (if up.action == ToRegister then {up.name} else {})
  {
    var i := LastThread(d.threads, up.name);
    if i >= 0 {
      ThreadNamesIndexed(d.threads, up.name);
      ActedThreadNames(d.threads, i, ActedThread(d.threads[i], up, ch));
    } else if up.action == ToRegister {
      ThreadNamesAppended(d.threads, NewThread(up, ch));
    }
  }

  lemma {:induction false} ThreadUpdatesNames(d: ThreadDesk, arcs: seq<Arc>, ups: seq<ThreadUpdate>, ch: int, registered: set<string>)
    requires forall j :: 0 <= j < |ups| && ups[j].action == ToRegister ==> ups[j].name in registered
    ensures ThreadNames(d.threads) <= ThreadNames(UpdateThreads(d, arcs, ups, ch).threads) <= ThreadNames(d.threads) + registered
  {
    if |ups| > 0 {
      var front := ups[..|ups| - 1];
      ThreadUpdatesNames(d, arcs, front, ch, registered);
      ThreadUpdateNames(UpdateThreads(d, arcs, front, ch), arcs, ups[|ups| - 1], ch);
    }
  }

  lemma EntriesKeepThreads(b: Books, ls: Listing, c: Chapter)
    ensures BookEvents(b, ls, c.events, c.n).books.threads == b.threads
    ensures BookAppearances(BookEvents(b, ls, c.events, c.n).books, ls, c.appearances, c.n).books.threads == b.threads
  {
    NovelPlot.EventsNoArcRows(OpenDesk(b, ls), c.events, c.n);
    NovelPlot.AppearancesNoArcRows(OpenDesk(BookEvents(b, ls, c.events, c.n).books, ls), c.appearances, c.n);
  }

  lemma ChapterThreadNames(b: Books, ls: Listing, c: Chapter)
    ensures ThreadNames(b.threads) <= ThreadNames(BookChapter(b, ls, c).books.threads) <= ThreadNames(b.threads) + RegisteredIn(c)
  {
    EntriesKeepThreads(b, ls, c);
    var b2 := BookAppearances(BookEvents(b, ls, c.events, c.n).books, ls, c.appearances, c.n).books;
    ThreadUpdatesNames(ThreadDesk(b2.threads, b2.postings, []), b2.arcs, c.threadUpdates, c.n, RegisteredIn(c));
  }

  /** Genesis threads stay, and every other live thread was registered by a journal. */
  lemma {:induction false} LiveThreads(genesis: Books, ls: Listing, cs: seq<Chapter>)
    ensures ThreadNames(genesis.threads) <= ThreadNames(BookAll(genesis, ls, cs).books.threads)
    ensures ThreadNames(BookAll(genesis, ls, cs).books.threads) <= ThreadNames(genesis.threads) + RegisteredNames(cs)
  {
    if |cs| > 0 {
      var front := cs[..|cs| - 1];
      LiveThreads(genesis, ls, front);
      RegisteredGrow(cs);
      ChapterThreadNames(BookAll(genesis, ls, front).books, ls, cs[|cs| - 1]);
    }
  }

  /**
   The same guess for threads, of every book and every run: the live threads minus the registered
   names are the genesis threads if and only if no journal registers a genesis thread.
   */
  lemma GuessedThreadsIff(genesis: Books, ls: Listing, cs: seq<Chapter>)
    ensures ThreadNames(BookAll(genesis, ls, cs).books.threads) - RegisteredNames(cs) == ThreadNames(genesis.threads)
            <==> ThreadNames(genesis.threads) !! RegisteredNames(cs)
  {
    LiveThreads(genesis, ls, cs);
    var live, opening, registered := ThreadNames(BookAll(genesis, ls, cs).books.threads), ThreadNames(genesis.threads), RegisteredNames(cs);
    assert live - registered == opening ==> opening !! registered;
  }

  /** In every readable book: registering a thread it has is accepted, and the guess loses that thread. */
  lemma ReregisteredThreadIsGuessedAway(genesis: Books, ls: Listing, t: Thread, n: int) returns (cs: seq<Chapter>)
    requires t in genesis.threads && ReadableStore(Load(genesis.files, ls), genesis.world)
    ensures BookAll(genesis, ls, cs).error.None?
    ensures t.name in ThreadNames(genesis.threads)
    ensures t.name !in ThreadNames(BookAll(genesis, ls, cs).books.threads) - RegisteredNames(cs)
  {
    var c := Chapter(n, n, [], [], [ThreadUpdate(t.name, ToRegister, "", None, map[])], []);
    OneChapterBook(genesis, ls, c);
    cs := [c];
    assert cs[0].threadUpdates[0].action == ToRegister;
  }
}
