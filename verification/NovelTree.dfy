/**
 The booking code as it runs: loops that update cards, lists and ledger files in place.
 Each method is proved against the fold of the same name in `NovelState`.
 */
module NovelTree {
  import opened Values
  import opened NovelState

  /** The changes written so far, while the rest of the keys is still to come. */
  function Written(changes: map<string, Value>, left: set<string>): map<string, Value> {
    map k | k in changes && k !in left :: changes[k]
  }

  lemma OverwriteStep(entry: Card, changes: map<string, Value>, left: set<string>, k: string)
    requires k in left && k in changes
    ensures Overwritten(entry, Written(changes, left - {k})) ==
            var r := Overwritten(entry, Written(changes, left));
            if IsTransient(k) then r else if changes[k] == Null then r - {k} else r[k := changes[k]]
  {
    var before, after := Written(changes, left), Written(changes, left - {k});
    assert after == before[k := changes[k]] && k !in before;
    OverwriteOne(entry, before, k, changes[k]);
  }

  /** One more change, of a key not changed so far. */
  lemma OverwriteOne(entry: Card, changes: map<string, Value>, k: string, v: Value)
    requires k !in changes
    ensures Overwritten(entry, changes[k := v]) ==
            var r := Overwritten(entry, changes);
            if IsTransient(k) then r else if v == Null then r - {k} else r[k := v]
  {
    var r, r' := Overwritten(entry, changes), Overwritten(entry, changes[k := v]);
    forall j | j != k
      ensures (j in r' <==> j in r) && (j in r' ==> r'[j] == r[j])
    {
    }
  }

  method Overwrite(entry: Card, changes: map<string, Value>) returns (r: Card)
    ensures r == Overwritten(entry, changes)
  {
    r := entry;
    var left := changes.Keys;
    assert Overwritten(entry, Written(changes, left)) == entry;
    while left != {}
      invariant left <= changes.Keys
      invariant r == Overwritten(entry, Written(changes, left))
      decreases left
    {
      var k :| k in left;
      OverwriteStep(entry, changes, left, k);
      if !IsTransient(k) {
        if changes[k] == Null {
          r := r - {k};
        } else {
          r := r[k := changes[k]];
        }
      }
      left := left - {k};
    }
    assert changes == Written(changes, left);
  }

  /** A file that is there and whose card goes by this name. */
  predicate Bears(files: map<string, Card>, stem: string, name: string) {
    stem in files && NameOf(stem, files[stem]) == name
  }

  /** The last of the listed files that bears the name. */
  predicate IsLastBearer(files: map<string, Card>, stems: seq<string>, name: string, i: int) {
    0 <= i < |stems| && Bears(files, stems[i], name) && forall j :: i < j < |stems| ==> !Bears(files, stems[j], name)
  }

  /** Every card is the last bearer's, completed with its name; and every bearer's name has a card. */
  ghost predicate LastBearersWin(files: map<string, Card>, stems: seq<string>, at: map<string, Card>) {
    && (forall n :: n in at ==> exists i :: IsLastBearer(files, stems, n, i) && at[n] == Named(n, files[stems[i]]))
    && (forall i :: 0 <= i < |stems| && stems[i] in files ==> NameOf(stems[i], files[stems[i]]) in at)
  }

  lemma LastBearerStays(files: map<string, Card>, stems: seq<string>, stem: string, name: string, i: int)
    requires IsLastBearer(files, stems, name, i) && !Bears(files, stem, name)
    ensures IsLastBearer(files, stems + [stem], name, i) && (stems + [stem])[i] == stems[i]
  {
  }

  lemma OneMoreFile(files: map<string, Card>, stems: seq<string>, at: map<string, Card>, stem: string, at': map<string, Card>)
    requires LastBearersWin(files, stems, at)
    requires at' == if stem in files then at[NameOf(stem, files[stem]) := Named(NameOf(stem, files[stem]), files[stem])] else at
    ensures LastBearersWin(files, stems + [stem], at')
  {
    var stems' := stems + [stem];
    forall n | n in at'
      ensures exists i :: IsLastBearer(files, stems', n, i) && at'[n] == Named(n, files[stems'[i]])
    {
      if Bears(files, stem, n) {
        assert IsLastBearer(files, stems', n, |stems|);
      } else {
        var i :| IsLastBearer(files, stems, n, i) && at[n] == Named(n, files[stems[i]]);
        LastBearerStays(files, stems, stem, n, i);
      }
    }
  }

  method LoadCharacters(files: map<string, Card>, stems: seq<string>) returns (c: Chars)
    ensures c == LoadFrom(files, stems) && LastBearersWin(files, stems, c.at)
  {
    var order: seq<string>, at: map<string, Card> := [], map[];
    for i := 0 to |stems|
      invariant Chars(order, at) == LoadFrom(files, stems[..i]) && LastBearersWin(files, stems[..i], at)
    {
      assert stems[..i + 1][..i] == stems[..i] && stems[..i + 1] == stems[..i] + [stems[i]];
      ghost var before := at;
      if stems[i] in files {
        var card := files[stems[i]];
        var name := NameOf(stems[i], card);
        if "name" !in card {
          card := card["name" := Str(name)];
        }
        if name !in at {
          order := order + [name];
        }
        at := at[name := card];
      }
      OneMoreFile(files, stems[..i], before, stems[i], at);
    }
    assert stems[..|stems|] == stems;
    c := Chars(order, at);
  }

  method ValidateEvents(c: Chars, world: World, events: seq<Event>) returns (r: Result<Known, Refusal>)
    ensures r == Validate(c, world, events)
  {
    if !ReadableStore(c, world) {
      return Err(BadShape);
    }
    var aliases := AliasNames(c);
    var protagonist := FindProtagonist(c);
    var known, factions := c.at.Keys, FactionNames(world);
    ghost var start := Known(known, factions);
    for i := 0 to |events|
      invariant Simulate(c, start, events[..i]) == Ok(Known(known, factions))
    {
      assert events[..i + 1][..i] == events[..i];
      var ev := events[i];
      ghost var outcome := Simulate(c, start, events[..i + 1]);
      if ev.entityType.OtherType? {
        SimulateStops(c, start, events, i + 1);
        return Err(UnknownType(i));
      }
      if ev.name == "" {
        SimulateStops(c, start, events, i + 1);
        return Err(MissingName(i));
      }
      if OnCards(ev) {
        var name := Resolve(ev.entityType, ev.name, known, protagonist);
        if name !in known {
          if name in aliases {
            SimulateStops(c, start, events, i + 1);
            return Err(IsAlias(i));
          }
          if !ev.create {
            SimulateStops(c, start, events, i + 1);
            return Err(NoCard(i));
          }
          known := known + {name};
        }
      } else if ev.entityType == Faction && ev.name !in factions {
        if !ev.create {
          SimulateStops(c, start, events, i + 1);
          return Err(NoFaction(i));
        }
        factions := factions + {ev.name};
      }
    }
    assert events[..|events|] == events;
    r := Ok(Known(known, factions));
  }

  /** A refused prefix decides the whole list. */
  lemma {:induction false} SimulateStops(c: Chars, k: Known, evs: seq<Event>, n: nat)
    requires n <= |evs| && Simulate(c, k, evs[..n]).Err?
    ensures Simulate(c, k, evs) == Simulate(c, k, evs[..n])
  {
    if n == |evs| {
      assert evs[..n] == evs;
    } else {
      var front := evs[..|evs| - 1];
      assert front[..n] == evs[..n];
      SimulateStops(c, k, front, n);
    }
  }

  /** An error stops the posting loop: the books stay as the failing entry left them. */
  lemma {:induction false} PostingStops(d: Desk, evs: seq<Event>, ch: int, n: nat)
    requires n <= |evs| && PostEvents(d, evs[..n], ch).error.Some?
    ensures PostEvents(d, evs, ch) == PostEvents(d, evs[..n], ch)
  {
    if n == |evs| {
      assert evs[..n] == evs;
    } else {
      var front := evs[..|evs| - 1];
      assert front[..n] == evs[..n];
      PostingStops(d, front, ch, n);
    }
  }

  function RowsAt(ledger: map<Account, seq<Row>>, account: Account): seq<Row> {
    if account in ledger then ledger[account] else []
  }

  class NovelTree {
    var files: map<string, Card>
    var world: World
    var threads: seq<Thread>
    var arcs: seq<Arc>
    var ledger: map<Account, seq<Row>>
    ghost var postings: seq<Posting>

    /** Every ledger file holds its own entity's postings, in order. */
    ghost predicate Valid()
      reads this
    {
      forall a :: RowsAt(ledger, a) == LedgerOf(postings, a)
    }

    ghost function Contents(): Books
      reads this
    {
      Books(files, world, threads, arcs, postings)
    }

    constructor (files: map<string, Card>, world: World, threads: seq<Thread>, arcs: seq<Arc>)
      ensures Valid() && Contents() == Books(files, world, threads, arcs, [])
    {
      this.files, this.world, this.threads, this.arcs := files, world, threads, arcs;
      ledger, postings := map[], [];
    }

    method LedgerAppend(kind: Kind, entity: string, row: Row)
      requires Valid()
      modifies this`ledger, this`postings
      ensures Valid()
      ensures postings == old(postings) + [Posting(Account(kind, entity), row)]
    {
      var account := Account(kind, entity);
      ledger := ledger[account := RowsAt(ledger, account) + [row]];
      postings := postings + [Posting(account, row)];
      assert postings[..|postings| - 1] == old(postings);
    }

    method ApplyEvents(ls: Listing, events: seq<Event>, ch: int)
      returns (warnings: seq<Warning>, error: Option<Refusal>)
      requires Valid()
      modifies this
      ensures Valid()
      ensures Outcome(Contents(), warnings, error) == BookEvents(old(Contents()), ls, events, ch)
    {
      warnings, error := [], None;
      var chars := LoadCharacters(files, ls(files.Keys));
      var checked := ValidateEvents(chars, world, events);
      if checked.Err? {
        return [], Some(checked.error);
      }
      ghost var desk := OpenDesk(Contents(), ls);
      for i := 0 to |events|
        invariant Valid() && error == None
        invariant Desk(chars, Contents(), warnings, None) == PostEvents(desk, events[..i], ch)
      {
        assert events[..i + 1][..i] == events[..i];
        var ev := events[i];
        if OnCards(ev) {
          chars, warnings := PostCardEntry(ev, ch, chars, warnings);
        } else {
          error := PostWorld(ev, ch);
          assert Desk(chars, Contents(), warnings, error) == PostEvents(desk, events[..i + 1], ch);
          if error.Some? {
            PostingStops(desk, events, ch, i + 1);
            return;
          }
        }
      }
      assert events[..|events|] == events;
    }

    /** A character entry: warn, drop the old in-card history, overwrite, keep an opening balance. */
    method PostCardEntry(ev: Event, ch: int, chars: Chars, warned: seq<Warning>)
      returns (chars': Chars, warnings: seq<Warning>)
      requires Valid()
      modifies this`files, this`ledger, this`postings
      ensures Valid()
      ensures Desk(chars', Contents(), warnings, None) == PostCard(Desk(chars, old(Contents()), warned, None), ev, ch)
    {
      var name := Resolve(ev.entityType, ev.name, chars.at.Keys, FindProtagonist(chars));
      var created := name !in chars.at;
      var card := if created then OpeningCard(name) else chars.at[name];
      warnings := warned + EventWarnings(name, card, ev.changes);
      assert created ==> card - {"progression"} == card;
      card := card - {"progression"};
      card := Overwrite(card, ev.changes);
      if created {
        card := card["initial" := Dict(card - {"initial", "progression"})];
      }
      chars' := Put(chars, name, card);
      LedgerAppend(Characters, name, CardRow(ch, created, ev.changes, ev.reason));
      files := files[name := card];
    }

    /** A faction or a setting entry; the store is left alone when its shape is wrong. */
    method PostWorld(ev: Event, ch: int) returns (error: Option<Refusal>)
      requires Valid()
      modifies this`world, this`ledger, this`postings
      ensures Valid()
      ensures forall mem, warnings {:trigger Desk(mem, Contents(), warnings, error)} ::
                Desk(mem, Contents(), warnings, error) ==
                (if ev.entityType == Faction then PostFaction(Desk(mem, old(Contents()), warnings, None), ev, ch)
                 else PostSetting(Desk(mem, old(Contents()), warnings, None), ev, ch))
    {
      error := None;
      if ev.entityType == Faction {
        var factions := if "factions" in world then world["factions"] else Dict(map[]);
        if !factions.Dict? {
          return Some(BadShape);
        }
        var entry := if ev.name in factions.fields then factions.fields[ev.name] else Dict(map[]);
        if !entry.Dict? {
          return Some(BadShape);
        }
        var fields := Overwrite(entry.fields - {"progression"}, ev.changes);
        LedgerAppend(Factions, ev.name, ChangeRow(ch, ev.changes, ev.reason));
        world := world["factions" := Dict(factions.fields[ev.name := Dict(fields)])];
      } else {
        var settings := if "settings" in world then world["settings"] else Dict(map[]);
        if !settings.Dict? {
          return Some(BadShape);
        }
        LedgerAppend(Settings, ev.name, ChangeRow(ch, ev.changes, ev.reason));
        world := world["settings" := Dict(settings.fields[ev.name := SettingEntry(settings.fields, ev)])];
      }
    }

    method LogAppearances(ls: Listing, appearances: seq<Appearance>, ch: int) returns (warnings: seq<Warning>)
      requires Valid()
      modifies this
      ensures Valid()
      ensures Outcome(Contents(), warnings, None) == BookAppearances(old(Contents()), ls, appearances, ch)
    {
      warnings := [];
      var chars := LoadCharacters(files, ls(files.Keys));
      ghost var desk := OpenDesk(Contents(), ls);
      for i := 0 to |appearances|
        invariant Valid()
        invariant Desk(chars, Contents(), warnings, None) == NovelState.LogAppearances(desk, appearances[..i], ch)
      {
        assert appearances[..i + 1][..i] == appearances[..i];
        var name := appearances[i].name;
        if name !in chars.at {
          warnings := warnings + [UnknownAppearance(name)];
        } else {
          var card := (chars.at[name] - {"progression"})["last_appearance" := Int(ch)];
          if !Truthy(Get(card, "first_appearance")) {
            card := card["first_appearance" := Int(ch)];
          }
          chars := Put(chars, name, card);
          LedgerAppend(Characters, name, AppearanceRow(ch, appearances[i].importance));
          files := files[name := card];
        }
      }
      assert appearances[..|appearances|] == appearances;
    }

    method ApplyThreadUpdates(updates: seq<ThreadUpdate>, ch: int) returns (warnings: seq<Warning>)
      requires Valid()
      modifies this`threads, this`ledger, this`postings
      ensures Valid()
      ensures Outcome(Contents(), warnings, None) == BookThreads(old(Contents()), updates, ch)
    {
      warnings := [];
      ghost var desk := ThreadDesk(threads, postings, []);
      for k := 0 to |updates|
        invariant Valid()
        invariant ThreadDesk(threads, postings, warnings) == UpdateThreads(desk, arcs, updates[..k], ch)
      {
        assert updates[..k + 1][..k] == updates[..k];
        var up := updates[k];
        var i := LastThread(threads, up.name);
        if i < 0 {
          if up.action == ToRegister {
            threads := threads + [NewThread(up, ch)];
            LedgerAppend(Threads, up.name, ThreadRow(ch, ToRegister, up.detail));
          } else {
            warnings := warnings + [UnknownThread(up.name)];
          }
        } else {
          var t := threads[i];
          threads := threads[i := ActedThread(t, up, ch)];
          if IsBookedAction(up.action) {
            LedgerAppend(Threads, up.name, ThreadRow(ch, up.action, up.detail));
          } else {
            warnings := warnings + [UnknownAction(up.name)];
          }
          if up.action == ToResolve && !Revealable(t, arcs) {
            warnings := warnings + [ResolvedEarly(up.name)];
          }
        }
      }
      assert updates[..|updates|] == updates;
    }

    method ApplyArcUpdates(updates: seq<ArcUpdate>, ch: int) returns (warnings: seq<Warning>)
      requires Valid()
      modifies this`arcs, this`ledger, this`postings
      ensures Valid()
      ensures Outcome(Contents(), warnings, None) == BookArcs(old(Contents()), updates, ch)
    {
      warnings := [];
      ghost var desk := ArcDesk(arcs, postings, []);
      for k := 0 to |updates|
        invariant Valid()
        invariant ArcDesk(arcs, postings, warnings) == UpdateArcs(desk, updates[..k], ch)
      {
        assert updates[..k + 1][..k] == updates[..k];
        var up := updates[k];
        var a := LastArc(arcs, up.name);
        if a < 0 {
          warnings := warnings + [UnknownArc(up.name)];
        } else {
          var w := CompleteListed(a, up.nodesCompleted, ch, warnings);
          warnings := w;
          if up.notes != "" {
            LedgerAppend(Arcs, arcs[a].name, NoteRow(ch, up.notes));
            arcs := arcs[a := arcs[a].(latestNote := Some(Note(ch, up.notes)))];
          }
          arcs := arcs[a := Closed(arcs[a], ch)];
        }
      }
      assert updates[..|updates|] == updates;
    }

    /** The inner loop of an arc update: the declared completions of one arc. */
    method CompleteListed(a: nat, ids: seq<string>, ch: int, warned: seq<Warning>) returns (warnings: seq<Warning>)
      requires Valid() && a < |arcs|
      modifies this`arcs, this`ledger, this`postings
      ensures Valid() && |arcs| == |old(arcs)|
      ensures ArcDesk(arcs, postings, warnings) == CompleteNodes(ArcDesk(old(arcs), old(postings), warned), a, ids, ch)
    {
      warnings := warned;
      ghost var desk := ArcDesk(arcs, postings, warned);
      for k := 0 to |ids|
        invariant Valid() && |arcs| == |desk.arcs|
        invariant ArcDesk(arcs, postings, warnings) == CompleteNodes(desk, a, ids[..k], ch)
      {
        assert ids[..k + 1][..k] == ids[..k];
        var arc, id := arcs[a], ids[k];
        var j := LastNode(arc.nodes, id);
        if j < 0 {
          warnings := warnings + [UnknownNode(arc.name, id)];
        } else if arc.nodes[j].status == Done {
          warnings := warnings + [AlreadyDone(arc.name, id)];
        } else {
          var f := Frontier(arc.nodes);
          if f < |arc.nodes| && arc.nodes[f].id != id {
            warnings := warnings + [OutOfOrder(arc.name, id)];
          }
          arcs := arcs[a := arc.(nodes := arc.nodes[j := arc.nodes[j].(status := Done, completed := Some(ch))])];
          LedgerAppend(Arcs, arc.name, NodeRow(ch, id));
        }
      }
      assert ids[..|ids|] == ids;
    }

    /** Book one journal; a refused journal leaves what its failing step left. */
    method ReplayChapter(ls: Listing, c: Chapter) returns (warnings: seq<Warning>, error: Option<Refusal>)
      requires Valid()
      modifies this
      ensures Valid()
      ensures Outcome(Contents(), warnings, error) == BookChapter(old(Contents()), ls, c)
    {
      warnings, error := ApplyEvents(ls, c.events, c.n);
      if error.Some? {
        return;
      }
      var w1 := LogAppearances(ls, c.appearances, c.n);
      var w2 := ApplyThreadUpdates(c.threadUpdates, c.n);
      var w3 := ApplyArcUpdates(c.arcUpdates, c.n);
      warnings := warnings + w1 + w2 + w3;
    }

    method ReplayAll(ls: Listing, chapters: seq<Chapter>) returns (warnings: seq<Warning>, error: Option<Refusal>)
      requires Valid()
      modifies this
      ensures Valid()
      ensures Outcome(Contents(), warnings, error) == BookAll(old(Contents()), ls, chapters)
    {
      warnings, error := [], None;
      ghost var start := Contents();
      for i := 0 to |chapters|
        invariant Valid() && error == None
        invariant Outcome(Contents(), warnings, None) == BookAll(start, ls, chapters[..i])
      {
        assert chapters[..i + 1][..i] == chapters[..i];
        var w, e := ReplayChapter(ls, chapters[i]);
        warnings := warnings + w;
        if e.Some? {
          BookingStops(start, ls, chapters, i + 1);
          return warnings, e;
        }
      }
      assert chapters[..|chapters|] == chapters;
    }
  }

  lemma {:induction false} BookingStops(b: Books, ls: Listing, cs: seq<Chapter>, n: nat)
    requires n <= |cs| && BookAll(b, ls, cs[..n]).error.Some?
    ensures BookAll(b, ls, cs) == BookAll(b, ls, cs[..n])
  {
    if n == |cs| {
      assert cs[..n] == cs;
    } else {
      var front := cs[..|cs| - 1];
      assert front[..n] == cs[..n];
      BookingStops(b, ls, front, n);
    }
  }
}
