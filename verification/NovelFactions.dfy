/** Factions are ledgers too: every entry of the world's `factions` is the fold of its own rows. */
module NovelFactions {
  import opened Values
  import opened NovelState
  import opened NovelPosting

  /** The stored entry of a faction, of whatever shape. */
  function FactionAt(world: World, n: string): Option<Value> {
    if "factions" in world && world["factions"].Dict? && n in world["factions"].fields
    then Some(world["factions"].fields[n]) else None
  }

  function FieldsOf(entry: Option<Value>): map<string, Value> {
    if entry.Some? && entry.value.Dict? then entry.value.fields else map[]
  }

  /** What one ledger row does to its faction's entry. */
  function AfterChange(entry: Option<Value>, row: Row): Option<Value> {
    match row
    case ChangeRow(_, changes, _) => Some(Dict(Overwritten(FieldsOf(entry) - {"progression"}, changes)))
    case _ => entry
  }

  function FoldChanges(opening: Option<Value>, rows: seq<Row>): Option<Value> {
    if |rows| == 0 then opening else AfterChange(FoldChanges(opening, rows[..|rows| - 1]), rows[|rows| - 1])
  }

  ghost predicate FactionFollows(b0: Books, b: Books, n: string) {
    FactionAt(b.world, n) == FoldChanges(FactionAt(b0.world, n), NewRows(b0.postings, b.postings, Account(Factions, n)))
  }

  ghost predicate FactionsFollow(b0: Books, b: Books) {
    b0.postings <= b.postings && forall n :: FactionFollows(b0, b, n)
  }

  /** One more posting: its own faction moves by the row, every other stays. */
  lemma OneMoreRow(b0: Books, b: Books, b': Books, p: Posting, n: string)
    requires b0.postings <= b.postings && b'.postings == b.postings + [p] && FactionFollows(b0, b, n)
    requires FactionAt(b'.world, n) ==
             if p.account == Account(Factions, n) then AfterChange(FactionAt(b.world, n), p.row) else FactionAt(b.world, n)
    ensures FactionFollows(b0, b', n)
  {
    NewRowsAppend(b0.postings, b.postings, p, Account(Factions, n));
    var rows := NewRows(b0.postings, b.postings, Account(Factions, n));
    assert rows + [] == rows && (rows + [p.row])[..|rows|] == rows;
  }

  lemma PostFactionAt(d: Desk, ev: Event, ch: int, n: string)
    requires d.error.None? && PostFaction(d, ev, ch).error.None?
    ensures var row := ChangeRow(ch, ev.changes, ev.reason);
            && PostFaction(d, ev, ch).books.postings == d.books.postings + [Posting(Account(Factions, ev.name), row)]
            && FactionAt(PostFaction(d, ev, ch).books.world, n) ==
               if n == ev.name then AfterChange(FactionAt(d.books.world, n), row) else FactionAt(d.books.world, n)
  {
  }

  lemma PostFactionFollows(b0: Books, d: Desk, ev: Event, ch: int)
    requires FactionsFollow(b0, d.books) && d.error.None?
    ensures FactionsFollow(b0, PostFaction(d, ev, ch).books)
  {
    var d' := PostFaction(d, ev, ch);
    if d'.error.None? {
      forall n
        ensures FactionFollows(b0, d'.books, n)
      {
        assert FactionFollows(b0, d.books, n);
        PostFactionAt(d, ev, ch, n);
        OneMoreRow(b0, d.books, d'.books, Posting(Account(Factions, ev.name), ChangeRow(ch, ev.changes, ev.reason)), n);
      }
    }
  }

  /** Postings to other accounts that leave the factions alone. */
  lemma {:induction false} OthersFollow(b0: Books, b: Books, b': Books)
    requires FactionsFollow(b0, b) && b.postings <= b'.postings
    requires forall n :: FactionAt(b'.world, n) == FactionAt(b.world, n)
    requires forall i :: |b.postings| <= i < |b'.postings| ==> b'.postings[i].account.kind != Factions
    ensures FactionsFollow(b0, b')
    decreases |b'.postings|
  {
    if |b'.postings| > |b.postings| {
      var mid := b'.(postings := b'.postings[..|b'.postings| - 1]);
      OthersFollow(b0, b, mid);
      forall n
        ensures FactionFollows(b0, b', n)
      {
        assert FactionFollows(b0, mid, n);
        OneMoreRow(b0, mid, b', b'.postings[|b'.postings| - 1], n);
      }
    } else {
      assert b'.postings == b.postings;
      assert forall n :: FactionFollows(b0, b, n) ==> FactionFollows(b0, b', n);
    }
  }

  lemma PostCardFrame(d: Desk, ev: Event, ch: int)
    ensures var b, b' := d.books, PostCard(d, ev, ch).books;
            b'.world == b.world && |b'.postings| == |b.postings| + 1 && b.postings <= b'.postings
            && b'.postings[|b.postings|].account.kind == Characters
  {
  }

  lemma PostSettingFrame(d: Desk, ev: Event, ch: int)
    ensures var b, b' := d.books, PostSetting(d, ev, ch).books;
            && (forall n :: FactionAt(b'.world, n) == FactionAt(b.world, n)) && b.postings <= b'.postings
            && (forall i :: |b.postings| <= i < |b'.postings| ==> b'.postings[i].account.kind == Settings)
  {
  }

  lemma PostEventFollows(b0: Books, d: Desk, ev: Event, ch: int)
    requires FactionsFollow(b0, d.books)
    ensures FactionsFollow(b0, PostEvent(d, ev, ch).books)
  {
    if d.error.None? {
      if OnCards(ev) {
        PostCardFrame(d, ev, ch);
        OthersFollow(b0, d.books, PostCard(d, ev, ch).books);
      } else if ev.entityType == Faction {
        PostFactionFollows(b0, d, ev, ch);
      } else {
        PostSettingFrame(d, ev, ch);
        OthersFollow(b0, d.books, PostSetting(d, ev, ch).books);
      }
    }
  }

  lemma {:induction false} PostEventsFollow(b0: Books, d: Desk, evs: seq<Event>, ch: int)
    requires FactionsFollow(b0, d.books)
    ensures FactionsFollow(b0, PostEvents(d, evs, ch).books)
  {
    if |evs| > 0 {
      PostEventsFollow(b0, d, evs[..|evs| - 1], ch);
      PostEventFollows(b0, PostEvents(d, evs[..|evs| - 1], ch), evs[|evs| - 1], ch);
    }
  }

  lemma {:induction false} AppearancesFrame(d: Desk, aps: seq<Appearance>, ch: int)
    ensures var b' := NovelState.LogAppearances(d, aps, ch).books;
            b'.world == d.books.world && PlotOnly(d.books.postings, b'.postings, Characters)
  {
    if |aps| > 0 {
      AppearancesFrame(d, aps[..|aps| - 1], ch);
    }
  }

  lemma PlotFollows(b0: Books, b: Books, ups: seq<ThreadUpdate>, arcUps: seq<ArcUpdate>, ch: int)
    requires FactionsFollow(b0, b)
    ensures FactionsFollow(b0, BookArcs(BookThreads(b, ups, ch).books, arcUps, ch).books)
  {
    ThreadPostings(ThreadDesk(b.threads, b.postings, []), b.arcs, ups, ch);
    var t := BookThreads(b, ups, ch).books;
    OthersFollow(b0, b, t);
    ArcPostings(ArcDesk(t.arcs, t.postings, []), arcUps, ch);
    OthersFollow(b0, t, BookArcs(t, arcUps, ch).books);
  }

  lemma ChapterFollows(b0: Books, b: Books, ls: Listing, c: Chapter)
    requires FactionsFollow(b0, b)
    ensures FactionsFollow(b0, BookChapter(b, ls, c).books)
  {
    PostEventsFollow(b0, OpenDesk(b, ls), c.events, c.n);
    var ev := BookEvents(b, ls, c.events, c.n);
    if ev.error.None? {
      AppearancesFrame(OpenDesk(ev.books, ls), c.appearances, c.n);
      var ap := BookAppearances(ev.books, ls, c.appearances, c.n);
      OthersFollow(b0, ev.books, ap.books);
      PlotFollows(b0, ap.books, c.threadUpdates, c.arcUpdates, c.n);
    }
  }

  /**
   After any chapters at all, refused ones included, every faction's entry is the fold of that
   faction's own ledger rows over the entry it opened with.
   */
  lemma {:induction false} FactionsAreLedgerFolds(b: Books, ls: Listing, cs: seq<Chapter>)
    ensures FactionsFollow(b, BookAll(b, ls, cs).books)
  {
    if |cs| == 0 {
      assert b.postings[|b.postings|..] == [];
    } else {
      FactionsAreLedgerFolds(b, ls, cs[..|cs| - 1]);
      var prev := BookAll(b, ls, cs[..|cs| - 1]);
      if prev.error.None? {
        ChapterFollows(b, prev.books, ls, cs[|cs| - 1]);
      }
    }
  }

  /** The last row that mentions a key, else its opening value. */
  function LastMention(opening: Option<Value>, rows: seq<Row>, key: string): Value {
    if |rows| == 0 then Get(FieldsOf(opening), key)
    else
      var row := rows[|rows| - 1];
      if row.ChangeRow? && key in row.changes then row.changes[key]
      else LastMention(opening, rows[..|rows| - 1], key)
  }

  lemma {:induction false} FoldReadsLastMention(opening: Option<Value>, rows: seq<Row>, key: string)
    requires !IsTransient(key) && key != "progression"
    ensures Get(FieldsOf(FoldChanges(opening, rows)), key) == LastMention(opening, rows, key)
  {
    if |rows| > 0 {
      FoldReadsLastMention(opening, rows[..|rows| - 1], key);
    }
  }

  lemma {:induction false} FoldKeepsTransientOut(opening: Option<Value>, rows: seq<Row>, key: string)
    requires IsTransient(key) && key in FieldsOf(FoldChanges(opening, rows))
    ensures key in FieldsOf(opening)
  {
    if |rows| > 0 {
      FoldKeepsTransientOut(opening, rows[..|rows| - 1], key);
    }
  }

  /** After any chapters: a faction's field is the last value its ledger mentions, and no one-chapter key was added. */
  lemma FactionsReadOffTheLedger(b: Books, ls: Listing, cs: seq<Chapter>, name: string, key: string)
    ensures var after := BookAll(b, ls, cs).books;
            var opening, entry := FactionAt(b.world, name), FactionAt(after.world, name);
            && (!IsTransient(key) && key != "progression" ==>
                  Get(FieldsOf(entry), key) == LastMention(opening, NewRows(b.postings, after.postings, Account(Factions, name)), key))
            && (IsTransient(key) && key in FieldsOf(entry) ==> key in FieldsOf(opening))
  {
    FactionsAreLedgerFolds(b, ls, cs);
    var after := BookAll(b, ls, cs).books;
    assert FactionFollows(b, after, name);
    var opening, rows := FactionAt(b.world, name), NewRows(b.postings, after.postings, Account(Factions, name));
    if IsTransient(key) {
      if key in FieldsOf(FoldChanges(opening, rows)) {
        FoldKeepsTransientOut(opening, rows, key);
      }
    } else if key != "progression" {
      FoldReadsLastMention(opening, rows, key);
    }
  }
}
