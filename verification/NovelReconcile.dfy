/**
 The double-entry audit: replay the journals over the genesis cards with separate, simpler
 code, and compare the tracked balances with the live bible.
 */
module NovelReconcile {
  import opened Values
  import opened NovelState
  import opened NovelPosting
  import opened NovelJournal

  datatype Drift =
    | Skipped                                // no genesis baseline to compare with
    | MissingCard(name: string)              // in the journal, not in the bible
    | Differs(name: string, field: string)   // a tracked field disagrees
    | Unbooked(name: string)                 // in the bible, not in the journal

  const TRACKED := ["status", "power_level", "tier"]

  /** The genesis cards as the tag holds them: no name is filled in. */
  function Baseline(files: map<string, Card>, stems: seq<string>): Chars {
    if |stems| == 0 then Chars([], map[])
    else
      var rest := Baseline(files, stems[..|stems| - 1]);
      var stem := stems[|stems| - 1];
      if stem !in files then rest else Put(rest, NameOf(stem, files[stem]), files[stem])
  }

  /** The audit's own overwrite: one-chapter keys are not skipped. */
  function RawOverwritten(entry: Card, changes: map<string, Value>): Card {
    map k | k in entry.Keys + changes.Keys && (if k in changes then changes[k] != Null else k in entry) ::
      if k in changes then changes[k] else entry[k]
  }

  function ReplayEvent(r: Chars, ev: Event): Chars {
    if !OnCards(ev) then r
    else
      var name := Resolve(ev.entityType, ev.name, r.at.Keys, FindProtagonist(r));
      if name !in r.at && !ev.create then r
      else
        var card := if name in r.at then r.at[name] else OpeningCard(name);
        Put(r, name, RawOverwritten(card, ev.changes))
  }

  function ReplayEvents(r: Chars, evs: seq<Event>): Chars {
    if |evs| == 0 then r else ReplayEvent(ReplayEvents(r, evs[..|evs| - 1]), evs[|evs| - 1])
  }

  function ReplayJournals(r: Chars, cs: seq<Chapter>): Chars {
    if |cs| == 0 then r else ReplayEvents(ReplayJournals(r, cs[..|cs| - 1]), cs[|cs| - 1].events)
  }

  function FieldDrift(name: string, booked: Card, actual: Card, fields: seq<string>): seq<Drift> {
    if |fields| == 0 then []
    else
      var f := fields[|fields| - 1];
      FieldDrift(name, booked, actual, fields[..|fields| - 1]) +
      if f in booked && !SameValue(booked[f], Get(actual, f)) then [Differs(name, f)] else []
  }

  function ExpectedDrift(names: seq<string>, booked: map<string, Card>, live: map<string, Card>): seq<Drift> {
    if |names| == 0 then []
    else
      var n := names[|names| - 1];
      ExpectedDrift(names[..|names| - 1], booked, live) +
      if n !in booked then []
      else if n !in live then [MissingCard(n)]
      else FieldDrift(n, booked[n], live[n], TRACKED)
  }

  function ExtraDrift(names: seq<string>, booked: map<string, Card>): seq<Drift> {
    if |names| == 0 then []
    else
      var n := names[|names| - 1];
      ExtraDrift(names[..|names| - 1], booked) + if n !in booked then [Unbooked(n)] else []
  }

  function DriftOf(replayed: Chars, live: Chars): seq<Drift> {
    ExpectedDrift(replayed.order, replayed.at, live.at) + ExtraDrift(live.order, replayed.at)
  }

  /** The audit's own replay of the entries of one journal. */
  method ReplayInto(start: Chars, evs: seq<Event>) returns (replayed: Chars)
    ensures replayed == ReplayEvents(start, evs)
  {
    replayed := start;
    for j := 0 to |evs|
      invariant replayed == ReplayEvents(start, evs[..j])
    {
      assert evs[..j + 1][..j] == evs[..j];
      var ev := evs[j];
      if OnCards(ev) {
        var name := Resolve(ev.entityType, ev.name, replayed.at.Keys, FindProtagonist(replayed));
        if name in replayed.at || ev.create {
          var card := if name in replayed.at then replayed.at[name] else OpeningCard(name);
          replayed := Put(replayed, name, RawOverwritten(card, ev.changes));
        }
      }
    }
    assert evs[..|evs|] == evs;
  }

  method CompareFields(name: string, booked: Card, actual: Card) returns (drift: seq<Drift>)
    ensures drift == FieldDrift(name, booked, actual, TRACKED)
  {
    drift := [];
    for j := 0 to |TRACKED|
      invariant drift == FieldDrift(name, booked, actual, TRACKED[..j])
    {
      assert TRACKED[..j + 1][..j] == TRACKED[..j];
      var f := TRACKED[j];
      if f in booked && !SameValue(booked[f], Get(actual, f)) {
        drift := drift + [Differs(name, f)];
      }
    }
    assert TRACKED[..|TRACKED|] == TRACKED;
  }

  method CompareExpected(replayed: Chars, live: Chars) returns (drift: seq<Drift>)
    ensures drift == ExpectedDrift(replayed.order, replayed.at, live.at)
  {
    drift := [];
    for i := 0 to |replayed.order|
      invariant drift == ExpectedDrift(replayed.order[..i], replayed.at, live.at)
    {
      assert replayed.order[..i + 1][..i] == replayed.order[..i];
      var name := replayed.order[i];
      if name in replayed.at {
        if name !in live.at {
          drift := drift + [MissingCard(name)];
        } else {
          var fields := CompareFields(name, replayed.at[name], live.at[name]);
          drift := drift + fields;
        }
      }
    }
    assert replayed.order[..|replayed.order|] == replayed.order;
  }

  method Reconcile(baseline: Option<Chars>, cs: seq<Chapter>, live: Chars) returns (drift: seq<Drift>)
    ensures drift == if baseline.None? then [Skipped] else DriftOf(ReplayJournals(baseline.value, cs), live)
  {
    if baseline.None? {
      return [Skipped];
    }
    var replayed := baseline.value;
    for i := 0 to |cs|
      invariant replayed == ReplayJournals(baseline.value, cs[..i])
    {
      assert cs[..i + 1][..i] == cs[..i];
      replayed := ReplayInto(replayed, cs[i].events);
    }
    assert cs[..|cs|] == cs;
    drift := CompareExpected(replayed, live);
    ghost var expected := drift;
    for i := 0 to |live.order|
      invariant drift == expected + ExtraDrift(live.order[..i], replayed.at)
    {
      assert live.order[..i + 1][..i] == live.order[..i];
      if live.order[i] !in replayed.at {
        drift := drift + [Unbooked(live.order[i])];
      }
    }
    assert live.order[..|live.order|] == live.order;
  }

  /******* What an empty drift means *******/

  predicate FieldAgrees(booked: Card, actual: Card, field: string) {
    field in booked ==> SameValue(booked[field], Get(actual, field))
  }

  lemma {:induction false} FieldDriftEmpty(name: string, booked: Card, actual: Card, fields: seq<string>)
    ensures FieldDrift(name, booked, actual, fields) == [] <==>
            forall f :: f in fields ==> FieldAgrees(booked, actual, f)
  {
    if |fields| > 0 {
      FieldDriftEmpty(name, booked, actual, fields[..|fields| - 1]);
      assert |FieldDrift(name, booked, actual, fields)| ==
             |FieldDrift(name, booked, actual, fields[..|fields| - 1])| +
             if FieldAgrees(booked, actual, fields[|fields| - 1]) then 0 else 1;
      assert fields == fields[..|fields| - 1] + [fields[|fields| - 1]];
    }
  }

  predicate CardAgrees(booked: map<string, Card>, live: map<string, Card>, n: string) {
    n in booked ==> n in live && forall f :: f in TRACKED ==> FieldAgrees(booked[n], live[n], f)
  }

  lemma {:induction false} ExpectedDriftEmpty(names: seq<string>, booked: map<string, Card>, live: map<string, Card>)
    ensures ExpectedDrift(names, booked, live) == [] <==> forall n :: n in names ==> CardAgrees(booked, live, n)
  {
    if |names| > 0 {
      var n := names[|names| - 1];
      ExpectedDriftEmpty(names[..|names| - 1], booked, live);
      if n in booked && n in live {
        FieldDriftEmpty(n, booked[n], live[n], TRACKED);
      }
      assert |ExpectedDrift(names, booked, live)| == 0 <==>
             |ExpectedDrift(names[..|names| - 1], booked, live)| == 0 && CardAgrees(booked, live, n);
      assert names == names[..|names| - 1] + [n];
    }
  }

  lemma {:induction false} ExtraDriftEmpty(names: seq<string>, booked: map<string, Card>)
    ensures ExtraDrift(names, booked) == [] <==> forall n :: n in names ==> n in booked
  {
    if |names| > 0 {
      var init, last := names[..|names| - 1], names[|names| - 1];
      ExtraDriftEmpty(init, booked);
      assert |ExtraDrift(names, booked)| == |ExtraDrift(init, booked)| + if last in booked then 0 else 1;
      assert forall n :: n in names <==> n in init || n == last;
    }
  }

  /**
   The audit is silent exactly when the bible has the journal's cards, no more and no fewer,
   and every tracked field the journal knows holds the journal's value.
   */
  lemma SilentIff(replayed: Chars, live: Chars)
    requires Covers(replayed) && Covers(live)
    ensures DriftOf(replayed, live) == [] <==>
            replayed.at.Keys == live.at.Keys && forall n :: n in replayed.at ==> CardAgrees(replayed.at, live.at, n)
  {
    ExpectedDriftEmpty(replayed.order, replayed.at, live.at);
    ExtraDriftEmpty(live.order, replayed.at);
    if DriftOf(replayed, live) == [] {
      assert forall n :: n in replayed.at ==> CardAgrees(replayed.at, live.at, n);
      assert forall n :: n in replayed.at <==> n in live.at;
    }
  }

  /******* Booked bibles are silent *******/

  lemma {:induction false} SameValueReflexive(v: Value)
    ensures SameValue(v, v)
  {
    match v
    case List(l) =>
      forall i | 0 <= i < |l| ensures SameValue(l[i], l[i]) { SameValueReflexive(l[i]); }
    case Dict(m) =>
      forall k | k in m ensures SameValue(m[k], m[k]) { SameValueReflexive(m[k]); }
    case _ =>
  }

  ghost predicate SameBalances(a: Card, b: Card) {
    forall k :: IsBalance(k) ==> (k in a <==> k in b) && Get(a, k) == Get(b, k)
  }

  /** The audit's cards and the booked cards agree on every balance. */
  ghost predicate Tracks(r: Chars, files: map<string, Card>) {
    Covers(r) && r.at.Keys == files.Keys && forall n :: n in files ==> SameBalances(r.at[n], files[n])
  }

  lemma BalanceFacts()
    ensures IsBalance("role") && IsBalance("is_protagonist")
    ensures forall f :: f in TRACKED ==> IsBalance(f)
  {
    TransientFacts();
  }

  lemma TracksLead(r: Chars, files: map<string, Card>, lead: Option<string>)
    requires Tracks(r, files) && IsLead(lead, files)
    ensures FindProtagonist(r) == lead
  {
    BalanceFacts();
    FirstProtagonistFound(r.order, r.at);
    assert forall n :: n in files ==> SameBalances(r.at[n], files[n]);
    assert forall n :: n in files ==> (IsProtagonist(r.at[n]) <==> n in Leads(files));
  }

  lemma OverwritesAgree(a: Card, b: Card, changes: map<string, Value>)
    requires SameBalances(a, b)
    ensures SameBalances(RawOverwritten(a, changes), Overwritten(b, changes))
  {
  }

  lemma WrittenAgrees(r: Chars, mem: Chars, files: map<string, Card>, name: string, changes: map<string, Value>)
    requires Tracks(r, files) && Synced(mem, files)
    ensures SameBalances(RawOverwritten(if name in r.at then r.at[name] else OpeningCard(name), changes),
                         WrittenCard(mem, name, changes))
  {
    if name in r.at {
      assert SameBalances(r.at[name], files[name]);
      OverwritesAgree(r.at[name], mem.at[name] - {"progression"}, changes);
    } else {
      OverwritesAgree(OpeningCard(name), OpeningCard(name), changes);
    }
  }

  lemma TracksPut(r: Chars, files: map<string, Card>, name: string, a: Card, b: Card)
    requires Tracks(r, files) && SameBalances(a, b)
    ensures Tracks(Put(r, name, a), files[name := b])
  {
  }

  lemma EventTracks(r: Chars, d: Desk, ev: Event, ch: int, lead: Option<string>)
    requires Tracks(r, d.books.files) && Synced(d.mem, d.books.files) && IsLead(lead, d.books.files)
    requires d.error.None? && FindProtagonist(d.mem) == lead
    requires OnCards(ev) ==>
               var name := Resolve(ev.entityType, ev.name, d.mem.at.Keys, lead); name in d.mem.at || ev.create
    ensures Tracks(ReplayEvent(r, ev), PostEvent(d, ev, ch).books.files)
  {
    if OnCards(ev) {
      TracksLead(r, d.books.files, lead);
      var name := Resolve(ev.entityType, ev.name, d.mem.at.Keys, lead);
      WrittenAgrees(r, d.mem, d.books.files, name, ev.changes);
      var card := if name in r.at then r.at[name] else OpeningCard(name);
      TracksPut(r, d.books.files, name, RawOverwritten(card, ev.changes), WrittenCard(d.mem, name, ev.changes));
    }
  }

  lemma AcceptedEntry(c: Chars, k: Known, ev: Event, index: nat)
    requires ValidateEvent(c, k, ev, index).Ok? && OnCards(ev)
    ensures Resolve(ev.entityType, ev.name, k.chars, FindProtagonist(c)) in k.chars || ev.create
  {
  }

  /** What posting has at hand when it gets to the last entry of an accepted list. */
  lemma FrontPosted(c: Chars, k: Known, d: Desk, evs: seq<Event>, ch: int, lead: Option<string>)
    requires |evs| > 0 && d.mem == c && k.chars == c.at.Keys && d.error.None?
    requires Synced(c, d.books.files) && Steady(d.books.files, lead)
    requires FindProtagonist(c) == lead && KeepRoles(evs) && KeepNames(evs)
    requires Simulate(c, k, evs).Ok? && PostEvents(d, evs, ch).error.None?
    ensures var d0, ev := PostEvents(d, evs[..|evs| - 1], ch), evs[|evs| - 1];
            && Synced(d0.mem, d0.books.files) && IsLead(lead, d0.books.files)
            && d0.error.None? && FindProtagonist(d0.mem) == lead
            && (OnCards(ev) ==> var name := Resolve(ev.entityType, ev.name, d0.mem.at.Keys, lead); name in d0.mem.at || ev.create)
  {
    var front, ev := evs[..|evs| - 1], evs[|evs| - 1];
    PostingAgrees(c, k, d, front, ch);
    PostEventsKeepLeads(d, front, ch);
    if OnCards(ev) {
      AcceptedEntry(c, Simulate(c, k, front).value, ev, |front|);
    }
  }

  lemma {:induction false} EventsTrack(r: Chars, c: Chars, k: Known, d: Desk, evs: seq<Event>, ch: int, lead: Option<string>)
    requires d.mem == c && k.chars == c.at.Keys && d.error.None?
    requires Tracks(r, d.books.files) && Synced(c, d.books.files) && Steady(d.books.files, lead)
    requires FindProtagonist(c) == lead && KeepRoles(evs) && KeepNames(evs)
    requires Simulate(c, k, evs).Ok? && PostEvents(d, evs, ch).error.None?
    ensures Tracks(ReplayEvents(r, evs), PostEvents(d, evs, ch).books.files)
  {
    if |evs| > 0 {
      var front, ev := evs[..|evs| - 1], evs[|evs| - 1];
      EventsTrack(r, c, k, d, front, ch, lead);
      FrontPosted(c, k, d, evs, ch, lead);
      EventTracks(ReplayEvents(r, front), PostEvents(d, front, ch), ev, ch, lead);
    }
  }

  lemma NamedBalances(a: Card, name: string, card: Card)
    requires SameBalances(a, card)
    ensures SameBalances(a, Named(name, card))
  {
    BalanceFacts();
  }

  /** An appearance touches no balance. */
  lemma AppearedBalances(a: Card, card: Card, ch: int)
    requires SameBalances(a, card)
    ensures SameBalances(a, AppearedCard(card, ch))
  {
  }

  lemma PutBack(r: Chars, name: string)
    requires name in r.at
    ensures Put(r, name, r.at[name]) == r
  {
    assert r.at[name := r.at[name]] == r.at;
  }

  lemma TracksOne(r: Chars, files: map<string, Card>, name: string, card: Card)
    requires Tracks(r, files) && name in r.at && SameBalances(r.at[name], card)
    ensures Tracks(r, files[name := card])
  {
    TracksPut(r, files, name, r.at[name], card);
    PutBack(r, name);
  }

  lemma AppearanceTracks(r: Chars, d: Desk, name: string, ch: int)
    requires Tracks(r, d.books.files) && Synced(d.mem, d.books.files) && name in d.mem.at
    ensures Tracks(r, d.books.files[name := AppearedCard(d.mem.at[name], ch)])
  {
    NamedBalances(r.at[name], name, d.books.files[name]);
    AppearedBalances(r.at[name], d.mem.at[name], ch);
    TracksOne(r, d.books.files, name, AppearedCard(d.mem.at[name], ch));
  }

  lemma {:induction false} AppearancesTrack(r: Chars, d: Desk, aps: seq<Appearance>, ch: int)
    requires Tracks(r, d.books.files) && Synced(d.mem, d.books.files) && WellNamed(d.books.files)
    ensures Tracks(r, NovelState.LogAppearances(d, aps, ch).books.files)
  {
    if |aps| > 0 {
      var front, ap := aps[..|aps| - 1], aps[|aps| - 1];
      AppearancesTrack(r, d, front, ch);
      AppearancesKeepLeads(d, front, ch);
      var d0 := NovelState.LogAppearances(d, front, ch);
      if ap.name in d0.mem.at {
        AppearanceTracks(r, d0, ap.name, ch);
      }
    }
  }

  lemma ChapterTracks(r: Chars, b: Books, ls: Listing, c: Chapter, lead: Option<string>)
    requires Tracks(r, b.files) && Steady(b.files, lead) && IsListing(ls)
    requires KeepRoles(c.events) && KeepNames(c.events) && BookChapter(b, ls, c).error.None?
    ensures Tracks(ReplayEvents(r, c.events), BookChapter(b, ls, c).books.files)
  {
    ChapterEventsTrack(r, b, ls, c, lead);
    var b1 := BookEvents(b, ls, c.events, c.n).books;
    LoadWellNamed(b1.files, ls);
    AppearancesTrack(ReplayEvents(r, c.events), OpenDesk(b1, ls), c.appearances, c.n);
  }

  lemma ChapterEventsTrack(r: Chars, b: Books, ls: Listing, c: Chapter, lead: Option<string>)
    requires Tracks(r, b.files) && Steady(b.files, lead) && IsListing(ls)
    requires KeepRoles(c.events) && KeepNames(c.events) && BookEvents(b, ls, c.events, c.n).error.None?
    ensures Tracks(ReplayEvents(r, c.events), BookEvents(b, ls, c.events, c.n).books.files)
    ensures WellNamed(BookEvents(b, ls, c.events, c.n).books.files)
  {
    LoadWellNamed(b.files, ls);
    var mem := Load(b.files, ls);
    FoundIsLead(mem, b.files);
    EventsTrack(r, mem, Known(mem.at.Keys, FactionNames(b.world)), OpenDesk(b, ls), c.events, c.n, lead);
    PostEventsKeepLeads(OpenDesk(b, ls), c.events, c.n);
  }

  lemma {:induction false} JournalsTrack(r: Chars, b: Books, ls: Listing, cs: seq<Chapter>, lead: Option<string>)
    requires Tracks(r, b.files) && Steady(b.files, lead) && IsListing(ls)
    requires SteadyJournals(cs) && BookAll(b, ls, cs).error.None?
    ensures Tracks(ReplayJournals(r, cs), BookAll(b, ls, cs).books.files)
    ensures Steady(BookAll(b, ls, cs).books.files, lead)
  {
    if |cs| > 0 {
      var front, c := cs[..|cs| - 1], cs[|cs| - 1];
      JournalsTrack(r, b, ls, front, lead);
      var b0 := BookAll(b, ls, front).books;
      ChapterTracks(ReplayJournals(r, front), b0, ls, c, lead);
      PostEventsSteady(b0, ls, c, lead);
    }
  }

  lemma PostEventsSteady(b: Books, ls: Listing, c: Chapter, lead: Option<string>)
    requires Steady(b.files, lead) && IsListing(ls)
    requires KeepRoles(c.events) && KeepNames(c.events) && BookChapter(b, ls, c).error.None?
    ensures Steady(BookChapter(b, ls, c).books.files, lead)
  {
    LoadWellNamed(b.files, ls);
    PostEventsKeepLeads(OpenDesk(b, ls), c.events, c.n);
    var b1 := BookEvents(b, ls, c.events, c.n).books;
    LoadWellNamed(b1.files, ls);
    AppearancesKeepLeads(OpenDesk(b1, ls), c.appearances, c.n);
  }

  lemma {:induction false} BaselineTracks(files: map<string, Card>, stems: seq<string>)
    requires WellNamed(files)
    ensures var r := Baseline(files, stems);
            && Covers(r) && (forall n :: n in r.at <==> n in files && n in stems)
            && (forall n :: n in r.at ==> r.at[n] == files[n])
  {
    if |stems| > 0 {
      BaselineTracks(files, stems[..|stems| - 1]);
      assert stems == stems[..|stems| - 1] + [stems[|stems| - 1]];
    }
  }

  /** The audit's replay over the tagged cards tracks the booked cards, whatever the listing orders. */
  lemma BookedTracks(genesis: Books, ls: Listing, tagOrder: Listing, cs: seq<Chapter>)
    requires WellNamed(genesis.files) && OneLead(genesis.files) && IsListing(ls) && IsListing(tagOrder)
    requires SteadyJournals(cs) && BookAll(genesis, ls, cs).error.None?
    ensures Tracks(ReplayJournals(Baseline(genesis.files, tagOrder(genesis.files.Keys)), cs), BookAll(genesis, ls, cs).books.files)
    ensures WellNamed(BookAll(genesis, ls, cs).books.files)
  {
    var r := Baseline(genesis.files, tagOrder(genesis.files.Keys));
    BaselineTracks(genesis.files, tagOrder(genesis.files.Keys));
    assert r.at == genesis.files;
    LoadWellNamed(genesis.files, ls);
    FoundIsLead(Load(genesis.files, ls), genesis.files);
    JournalsTrack(r, genesis, ls, cs, FindProtagonist(Load(genesis.files, ls)));
  }

  /** The same cards, and every tracked field the journals know still has its booked value. */
  ghost predicate Unedited(booked: map<string, Card>, edited: map<string, Card>) {
    && edited.Keys == booked.Keys
    && forall n, f :: n in booked && f in TRACKED ==> FieldAgrees(booked[n], edited[n], f)
  }

  /** What agrees with the replayed card agrees with the booked one. */
  lemma AgreesAlike(r: Card, booked: Card, live: Card, f: string)
    requires SameBalances(r, booked) && f in TRACKED
    ensures FieldAgrees(r, live, f) <==> FieldAgrees(booked, live, f)
  {
    BalanceFacts();
    assert IsBalance(f);
  }

  lemma TrackedDriftIff(r: Chars, booked: map<string, Card>, live: Chars)
    requires Tracks(r, booked) && Covers(live)
    ensures DriftOf(r, live) == [] <==> Unedited(booked, live.at)
  {
    SilentIff(r, live);
    if live.at.Keys == booked.Keys {
      forall n, f | n in booked && f in TRACKED
        ensures FieldAgrees(r.at[n], live.at[n], f) <==> FieldAgrees(booked[n], live.at[n], f)
      {
        assert SameBalances(r.at[n], booked[n]);
        AgreesAlike(r.at[n], booked[n], live.at[n], f);
      }
      assert (forall n :: n in r.at ==> CardAgrees(r.at, live.at, n)) <==> Unedited(booked, live.at);
    }
  }

  /** Whatever the files hold and in whatever order they are read, the store covers its cards. */
  lemma {:induction false} LoadCovers(files: map<string, Card>, stems: seq<string>)
    ensures Covers(LoadFrom(files, stems))
  {
    if |stems| > 0 {
      LoadCovers(files, stems[..|stems| - 1]);
    }
  }

  /**
   The audit end to end: book accepted journals over genesis, then edit the card files in any way:
   fields, names, stems, files added or removed. The audit is silent if and only if the edited
   files still load as the booked cards and every tracked field that a booked card has kept its
   value.
   */
  lemma EditedBibleDriftsIff(genesis: Books, ls: Listing, tagOrder: Listing, liveOrder: Listing, cs: seq<Chapter>,
                             edited: map<string, Card>)
    requires WellNamed(genesis.files) && OneLead(genesis.files) && IsListing(ls) && IsListing(tagOrder)
    requires SteadyJournals(cs) && BookAll(genesis, ls, cs).error.None?
    ensures DriftOf(ReplayJournals(Baseline(genesis.files, tagOrder(genesis.files.Keys)), cs), Load(edited, liveOrder)) == [] <==>
            Unedited(BookAll(genesis, ls, cs).books.files, Load(edited, liveOrder).at)
  {
    BookedTracks(genesis, ls, tagOrder, cs);
    LoadCovers(edited, liveOrder(edited.Keys));
    TrackedDriftIff(ReplayJournals(Baseline(genesis.files, tagOrder(genesis.files.Keys)), cs),
                    BookAll(genesis, ls, cs).books.files, Load(edited, liveOrder));
  }

  /** Loading a store kept under its own names edits nothing: only `name` may be filled in. */
  lemma UneditedByLoading(files: map<string, Card>, ls: Listing)
    requires WellNamed(files) && IsListing(ls)
    ensures Unedited(files, Load(files, ls).at)
  {
    LoadWellNamed(files, ls);
    forall n, f | n in files && f in TRACKED
      ensures FieldAgrees(files[n], Load(files, ls).at[n], f)
    {
      NamedAgrees(n, files[n], f);
    }
  }

  lemma NamedAgrees(n: string, card: Card, f: string)
    requires f in TRACKED
    ensures FieldAgrees(card, Named(n, card), f)
  {
    BalanceFacts();
    assert IsBalance(f);
    assert Get(Named(n, card), f) == Get(card, f);
    if f in card {
      SameValueReflexive(card[f]);
    }
  }

  /**
   A bible reached only by booking accepted journals over genesis never drifts: the audit's
   separate replay, in any listing order, ends on the same cards and tracked balances.
   */
  lemma BookedBibleNeverDrifts(genesis: Books, ls: Listing, tagOrder: Listing, liveOrder: Listing, cs: seq<Chapter>)
    requires WellNamed(genesis.files) && OneLead(genesis.files)
    requires IsListing(ls) && IsListing(tagOrder) && IsListing(liveOrder)
    requires SteadyJournals(cs) && BookAll(genesis, ls, cs).error.None?
    ensures DriftOf(ReplayJournals(Baseline(genesis.files, tagOrder(genesis.files.Keys)), cs),
                    Load(BookAll(genesis, ls, cs).books.files, liveOrder)) == []
  {
    BookedTracks(genesis, ls, tagOrder, cs);
    var files := BookAll(genesis, ls, cs).books.files;
    UneditedByLoading(files, liveOrder);
    EditedBibleDriftsIff(genesis, ls, tagOrder, liveOrder, cs, files);
  }
}
