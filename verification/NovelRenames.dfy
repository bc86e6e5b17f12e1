/**
 Cards are folds of their ledgers as long as every card is loaded from the file of its own name.
 A journal may change a card's name; then the next booking under the new name starts a file that no
 ledger row accounts for.
 */
module NovelRenames {
  import opened Values
  import opened NovelState
  import opened NovelPosting

  /******* Exactly when one booking keeps the folds *******/

  /** Every loaded card is, up to its old in-card history, the card in the file of its own name. */
  ghost predicate AtHome(c: Chars, files: map<string, Card>) {
    forall n :: n in c.at ==> n in files && c.at[n] - {"progression"} == Named(n, files[n]) - {"progression"}
  }

  /** A name may be changed but not cleared. */
  predicate LeavesAName(ev: Event) {
    OnCards(ev) && "name" in ev.changes ==> ev.changes["name"] != Null
  }

  ghost predicate LeaveNames(evs: seq<Event>) {
    forall i :: 0 <= i < |evs| ==> LeavesAName(evs[i])
  }

  ghost predicate AllNamed(c: Chars) {
    forall n :: n in c.at ==> "name" in c.at[n]
  }

  lemma {:induction false} LoadFromNames(files: map<string, Card>, stems: seq<string>)
    ensures AllNamed(LoadFrom(files, stems))
  {
    if |stems| > 0 {
      LoadFromNames(files, stems[..|stems| - 1]);
    }
  }

  ghost predicate HomeFollows(b0: Books, d: Desk) {
    FollowsLedger(b0, d.books) && AtHome(d.mem, d.books.files) && AllNamed(d.mem)
  }

  lemma WrittenHasName(mem: Chars, name: string, changes: map<string, Value>)
    requires ("name" in changes ==> changes["name"] != Null) && (name in mem.at ==> "name" in mem.at[name])
    ensures "name" in WrittenCard(mem, name, changes)
  {
    TransientFacts();
  }

  /** A card at home is written as its row says. */
  lemma WrittenAsBooked(mem: Chars, files: map<string, Card>, name: string, ch: int, changes: map<string, Value>, reason: string)
    requires AtHome(mem, files)
    ensures Some(WrittenCard(mem, name, changes)) ==
            AfterRow(name, CardAt(files, name), CardRow(ch, name !in mem.at, changes, reason))
  {
  }

  lemma HomePut(mem: Chars, files: map<string, Card>, name: string, card: Card)
    requires AtHome(mem, files) && AllNamed(mem) && "name" in card
    ensures AtHome(Put(mem, name, card), files[name := card]) && AllNamed(Put(mem, name, card))
  {
  }

  lemma CardHomeFollows(b0: Books, d: Desk, ev: Event, ch: int)
    requires HomeFollows(b0, d) && LeavesAName(ev) && OnCards(ev)
    ensures HomeFollows(b0, PostCard(d, ev, ch))
  {
    var name := Resolve(ev.entityType, ev.name, d.mem.at.Keys, FindProtagonist(d.mem));
    var card := WrittenCard(d.mem, name, ev.changes);
    WrittenHasName(d.mem, name, ev.changes);
    WrittenAsBooked(d.mem, d.books.files, name, ch, ev.changes, ev.reason);
    HomePut(d.mem, d.books.files, name, card);
    WriteFollows(b0, d.books, PostCard(d, ev, ch).books, name, card, CardRow(ch, name !in d.mem.at, ev.changes, ev.reason));
  }

  lemma EventHomeFollows(b0: Books, d: Desk, ev: Event, ch: int)
    requires HomeFollows(b0, d) && LeavesAName(ev)
    ensures HomeFollows(b0, PostEvent(d, ev, ch))
  {
    var d' := PostEvent(d, ev, ch);
    if d.error.None? {
      if OnCards(ev) {
        CardHomeFollows(b0, d, ev, ch);
      } else {
        WorldFrame(d, ev, ch);
        if d'.error.None? {
          OtherFollows(b0, d.books, d'.books, d'.books.postings[|d.books.postings|]);
        }
      }
    }
  }

  lemma {:induction false} EventsHomeFollow(b0: Books, d: Desk, evs: seq<Event>, ch: int)
    requires HomeFollows(b0, d) && LeaveNames(evs)
    ensures HomeFollows(b0, PostEvents(d, evs, ch))
  {
    if |evs| > 0 {
      EventsHomeFollow(b0, d, evs[..|evs| - 1], ch);
      EventHomeFollows(b0, PostEvents(d, evs[..|evs| - 1], ch), evs[|evs| - 1], ch);
    }
  }

  /** An entry that changes nothing, for one name. */
  function Touch(n: string): Event {
    Event(Character, n, map[], "", false)
  }

  /** Such an entry shows whether its card is at home. */
  lemma TouchTells(b: Books, mem: Chars, n: string, ch: int)
    requires n in mem.at && FollowsLedger(b, PostEvents(Desk(mem, b, [], None), [Touch(n)], ch).books)
    ensures n in b.files && mem.at[n] - {"progression"} == Named(n, b.files[n]) - {"progression"}
  {
    var d := Desk(mem, b, [], None);
    var d' := PostCard(d, Touch(n), ch);
    assert [Touch(n)][..0] == [];
    assert PostEvents(d, [Touch(n)], ch) == d';
    assert FollowsAt(b, d'.books, n);
    TouchedCard(mem.at[n]);
    TouchedLedger(b, d', n, ch);
  }

  lemma TouchedCard(card: Card)
    ensures ChangedCard(card, map[]) == card - {"progression"}
  {
  }

  lemma TouchedLedger(b: Books, d': Desk, n: string, ch: int)
    requires d'.books.postings == b.postings + [Posting(Account(Characters, n), CardRow(ch, false, map[], ""))]
    ensures FoldRows(n, CardAt(b.files, n), NewRows(b.postings, d'.books.postings, Account(Characters, n))) ==
            if n in b.files then Some(Named(n, b.files[n]) - {"progression"}) else None
  {
    var row := CardRow(ch, false, map[], "");
    assert b.postings[|b.postings|..] == [];
    NewRowsAppend(b.postings, b.postings, Posting(Account(Characters, n), row), Account(Characters, n));
    assert [row][..0] == [];
    if n in b.files {
      TouchedCard(Named(n, b.files[n]));
    }
  }

  /**
   Every list that clears no name leaves every card the fold of its ledger over this store, if and
   only if every loaded card is at home in it.
   */
  lemma FoldKeptIff(b: Books, ls: Listing, ch: int)
    ensures (forall evs :: LeaveNames(evs) ==> FollowsLedger(b, PostEvents(OpenDesk(b, ls), evs, ch).books)) <==>
            AtHome(Load(b.files, ls), b.files)
  {
    var d := OpenDesk(b, ls);
    if AtHome(d.mem, b.files) {
      LoadFromNames(b.files, ls(b.files.Keys));
      assert b.postings[|b.postings|..] == [];
      forall evs | LeaveNames(evs)
        ensures FollowsLedger(b, PostEvents(d, evs, ch).books)
      {
        EventsHomeFollow(b, d, evs, ch);
      }
    }
    if forall evs :: LeaveNames(evs) ==> FollowsLedger(b, PostEvents(d, evs, ch).books) {
      forall n | n in d.mem.at
        ensures n in b.files && d.mem.at[n] - {"progression"} == Named(n, b.files[n]) - {"progression"}
      {
        assert LeaveNames([Touch(n)]);
        TouchTells(b, d.mem, n, ch);
      }
    }
  }

  /******* Booking one entry *******/

  function OneEntry(ev: Event, n: int): Chapter {
    Chapter(n, n, [ev], [], [], [])
  }

  /** A chapter with one entry for a known card is accepted and writes that card. */
  lemma KnownEntryBooks(b: Books, ls: Listing, ev: Event, n: int)
    requires var c := Load(b.files, ls); ReadableStore(c, b.world) && ev.name in c.at
    requires ev.entityType == Character && ev.name != ""
    ensures BookChapter(b, ls, OneEntry(ev, n)).error.None?
    ensures BookChapter(b, ls, OneEntry(ev, n)).books ==
            b.(files := b.files[ev.name := ChangedCard(Load(b.files, ls).at[ev.name], ev.changes)],
               postings := b.postings + [Posting(Account(Characters, ev.name), CardRow(n, false, ev.changes, ev.reason))])
  {
    KnownEntryPosts(b, ls, ev, n);
    var b1 := BookEvents(b, ls, [ev], n).books;
    QuietRest(b1, ls, n);
  }

  lemma KnownEntryPosts(b: Books, ls: Listing, ev: Event, n: int)
    requires var c := Load(b.files, ls); ReadableStore(c, b.world) && ev.name in c.at
    requires ev.entityType == Character && ev.name != ""
    ensures BookEvents(b, ls, [ev], n).error.None?
    ensures BookEvents(b, ls, [ev], n).books == PostCard(OpenDesk(b, ls), ev, n).books
  {
    var c := Load(b.files, ls);
    var k := Known(c.at.Keys, FactionNames(b.world));
    assert [ev][..0] == [];
    assert Simulate(c, k, [ev]) == ValidateEvent(c, k, ev, 0);
    assert PostEvents(OpenDesk(b, ls), [ev], n) == PostCard(OpenDesk(b, ls), ev, n);
  }

  /** Nothing else in the chapter, nothing else booked. */
  lemma QuietRest(b: Books, ls: Listing, n: int)
    ensures BookAppearances(b, ls, [], n).books == b && BookThreads(b, [], n).books == b && BookArcs(b, [], n).books == b
  {
  }

  lemma OneChapterBook(b: Books, ls: Listing, c: Chapter)
    ensures BookAll(b, ls, [c]).books == BookChapter(b, ls, c).books && BookAll(b, ls, [c]).error == BookChapter(b, ls, c).error
  {
    assert [c][..0] == [];
  }

  lemma TwoChapterBook(b: Books, ls: Listing, c: Chapter, c': Chapter)
    requires BookChapter(b, ls, c).error.None?
    ensures var last := BookChapter(BookChapter(b, ls, c).books, ls, c');
            BookAll(b, ls, [c, c']).books == last.books && BookAll(b, ls, [c, c']).error == last.error
  {
    assert [c, c'][..1] == [c];
    OneChapterBook(b, ls, c);
  }

  /******* The promise broken *******/

  /** A store with one file loads one card, under the name the card bears. */
  lemma {:induction false} OneFileLoads(files: map<string, Card>, stem: string, stems: seq<string>)
    requires files.Keys == {stem} && (forall x :: x in stems ==> x == stem)
    ensures var c := LoadFrom(files, stems);
            if |stems| == 0 then c.at == map[]
            else var name := NameOf(stem, files[stem]); c.at == map[name := Named(name, files[stem])]
  {
    if |stems| > 0 {
      var front := stems[..|stems| - 1];
      assert stems == front + [stems[|stems| - 1]];
      forall x | x in front
        ensures x == stem
      {
        assert x in stems;
      }
      OneFileLoads(files, stem, front);
      assert stems[|stems| - 1] in stems;
    }
  }

  lemma OneFileLoaded(files: map<string, Card>, stem: string, ls: Listing)
    requires IsListing(ls) && files.Keys == {stem}
    ensures var name := NameOf(stem, files[stem]); Load(files, ls).at == map[name := Named(name, files[stem])]
  {
    var stems := ls(files.Keys);
    assert Lists(stems, files.Keys);
    assert stem in stems;
    forall x | x in stems
      ensures x == stem
    {
      assert x in files.Keys;
    }
    OneFileLoads(files, stem, stems);
  }

  /** A named card without aliases, in a world without factions, can be read. */
  lemma OneCardReadable(c: Chars, world: World, name: string, card: Card)
    requires c.at == map[name := card] && Get(card, "aliases") == Null && world == map[]
    ensures ReadableStore(c, world)
  {
  }

  function NamedCard(name: string): Card {
    map["name" := Str(name)]
  }

  lemma NamedCardReads(stem: string, name: string, other: string)
    requires name != ""
    ensures NameOf(stem, NamedCard(name)) == name && Named(stem, NamedCard(name)) == NamedCard(name)
    ensures Get(NamedCard(name), "aliases") == Null
    ensures ChangedCard(NamedCard(name), map["name" := Str(other)]) == NamedCard(other)
  {
    TransientFacts();
  }

  /** Booking on a store with one card, whatever file it sits in. */
  lemma OneCardBooks(b: Books, ls: Listing, stem: string, name: string, changes: map<string, Value>, n: int, card: Card)
    requires IsListing(ls) && b.files == map[stem := NamedCard(name)] && b.world == map[] && name != ""
    requires card == ChangedCard(NamedCard(name), changes)
    ensures var ev := Event(Character, name, changes, "", false);
            var out := BookChapter(b, ls, OneEntry(ev, n));
            && out.error.None?
            && out.books == b.(files := b.files[name := card],
                               postings := b.postings + [Posting(Account(Characters, name), CardRow(n, false, changes, ""))])
  {
    NamedCardReads(stem, name, name);
    OneFileLoaded(b.files, stem, ls);
    NamedCardReads(name, name, name);
    OneCardReadable(Load(b.files, ls), b.world, name, NamedCard(name));
    KnownEntryBooks(b, ls, Event(Character, name, changes, "", false), n);
  }

  function Rename(was: string, now: string): Event {
    Event(Character, was, map["name" := Str(now)], "", false)
  }

  /** The first chapter: the card bears the new name and stays in its file. */
  lemma RenamedInPlace(b: Books, ls: Listing, was: string, now: string)
    requires IsListing(ls) && b.files == map[was := NamedCard(was)] && b.world == map[] && was != ""
    ensures var out := BookChapter(b, ls, OneEntry(Rename(was, now), 1));
            && out.error.None?
            && out.books == b.(files := map[was := NamedCard(now)],
                               postings := b.postings + [Posting(Account(Characters, was), CardRow(1, false, Rename(was, now).changes, ""))])
  {
    NamedCardReads(was, was, now);
    OneCardBooks(b, ls, was, was, Rename(was, now).changes, 1, NamedCard(now));
    Replaced(was, NamedCard(was), NamedCard(now));
  }

  lemma Replaced(key: string, card: Card, card': Card)
    ensures map[key := card][key := card'] == map[key := card']
  {
  }

  /** Both chapters: the second writes a file under the new name. */
  lemma RenamedRun(b: Books, ls: Listing, was: string, now: string, mid: Books) returns (after: Books)
    requires IsListing(ls) && was != "" && now != ""
    requires var out := BookChapter(b, ls, OneEntry(Rename(was, now), 1)); out.error.None? && out.books == mid
    requires mid.files == map[was := NamedCard(now)] && mid.world == map[]
    ensures var cs := [OneEntry(Rename(was, now), 1), OneEntry(Touch(now), 2)];
            BookAll(b, ls, cs).error.None? && after == BookAll(b, ls, cs).books
    ensures now in after.files
    ensures after.postings == mid.postings + [Posting(Account(Characters, now), CardRow(2, false, map[], ""))]
  {
    OneCardBooks(mid, ls, was, now, map[], 2, ChangedCard(NamedCard(now), map[]));
    TwoChapterBook(b, ls, OneEntry(Rename(was, now), 1), OneEntry(Touch(now), 2));
    after := BookChapter(mid, ls, OneEntry(Touch(now), 2)).books;
  }

  /**
   The input: one chapter renames a card, the next books an entry under the new name. Both are
   accepted, and the file under the new name is accounted for by no ledger row.
   */
  lemma RenamedCardLeavesItsLedger(ls: Listing, was: string, now: string) returns (b: Books, after: Books)
    requires IsListing(ls) && was != "" && now != "" && was != now
    ensures b == Books(map[was := NamedCard(was)], map[], [], [], [])
    ensures var out := BookAll(b, ls, [OneEntry(Rename(was, now), 1), OneEntry(Touch(now), 2)]);
            out.error.None? && after == out.books
    ensures now in after.files && !FollowsAt(b, after, now)
  {
    b := Books(map[was := NamedCard(was)], map[], [], [], []);
    RenamedInPlace(b, ls, was, now);
    var mid := BookChapter(b, ls, OneEntry(Rename(was, now), 1)).books;
    after := RenamedRun(b, ls, was, now, mid);
    NoRowAccounts(b, mid, after, was, now);
  }

  lemma NoRowAccounts(b: Books, mid: Books, after: Books, was: string, now: string)
    requires was != now && now !in b.files && now in after.files
    requires mid.postings == b.postings + [Posting(Account(Characters, was), CardRow(1, false, Rename(was, now).changes, ""))]
    requires after.postings == mid.postings + [Posting(Account(Characters, now), CardRow(2, false, map[], ""))]
    ensures !FollowsAt(b, after, now)
  {
    var account, row := Account(Characters, now), CardRow(2, false, map[], "");
    assert b.postings[|b.postings|..] == [];
    assert NewRows(b.postings, b.postings, account) == [];
    NewRowsAppend(b.postings, b.postings, Posting(Account(Characters, was), CardRow(1, false, Rename(was, now).changes, "")), account);
    assert NewRows(b.postings, mid.postings, account) == [];
    NewRowsAppend(b.postings, mid.postings, Posting(account, row), account);
    assert NewRows(b.postings, after.postings, account) == [row];
    assert [row][..0] == [];
    assert FoldRows(now, None, [row]) == AfterRow(now, FoldRows(now, None, []), row);
  }
}
