/**
 The up-front validator against the posting loop. Both resolve an unknown protagonist entry to
 the lead, but the validator looks the lead up once and the loop before every entry; this
 module says exactly when that makes a difference.
 */
module NovelValidator {
  import opened Values
  import opened NovelState
  import opened NovelPosting

  /******* Who leads, entry by entry *******/

  /** What a card says about leading. */
  datatype Part = Part(role: Value, flag: Value)

  /** The parts of all cards and their order: all that finding a lead looks at. */
  datatype Roles = Roles(order: seq<string>, at: map<string, Part>)

  function PartOf(card: Card): Part {
    Part(Get(card, "role"), Get(card, "is_protagonist"))
  }

  function RolesOf(c: Chars): Roles {
    Roles(c.order, map n | n in c.at :: PartOf(c.at[n]))
  }

  predicate IsLeading(p: Part) {
    Truthy(p.flag) || p.role == Str("protagonist")
  }

  function FirstLead(order: seq<string>, at: map<string, Part>): Option<string> {
    if order == [] then None
    else if order[0] in at && IsLeading(at[order[0]]) then Some(order[0])
    else FirstLead(order[1..], at)
  }

  function LeadOf(r: Roles): Option<string> {
    FirstLead(r.order, r.at)
  }

  /** There is a lead that an entry could be booked to. */
  predicate HasLead(r: Roles) {
    LeadOf(r).Some? && LeadOf(r).value != ""
  }

  /** The part after an entry's changes; a null change clears it. */
  function Recast(p: Part, changes: map<string, Value>): Part {
    Part(if "role" in changes then changes["role"] else p.role,
         if "is_protagonist" in changes then changes["is_protagonist"] else p.flag)
  }

  function AfterEntry(r: Roles, ev: Event): Roles {
    if !OnCards(ev) then r
    else
      var name := Resolve(ev.entityType, ev.name, r.at.Keys, LeadOf(r));
      var part := if name in r.at then r.at[name] else Part(Null, Null);
      Roles(if name in r.at then r.order else r.order + [name], r.at[name := Recast(part, ev.changes)])
  }

  /** Who plays what after some entries, from the opening parts and the entries alone. */
  function RolesAfter(r: Roles, evs: seq<Event>): Roles {
    if |evs| == 0 then r else AfterEntry(RolesAfter(r, evs[..|evs| - 1]), evs[|evs| - 1])
  }

  lemma {:induction false} SameLead(order: seq<string>, at: map<string, Card>)
    ensures FirstLead(order, map n | n in at :: PartOf(at[n])) == FirstProtagonist(order, at)
  {
    if order != [] {
      SameLead(order[1..], at);
    }
  }

  lemma WrittenPart(mem: Chars, name: string, changes: map<string, Value>)
    ensures PartOf(WrittenCard(mem, name, changes)) ==
            Recast(if name in mem.at then PartOf(mem.at[name]) else Part(Null, Null), changes)
  {
    TransientFacts();
  }

  lemma PutRoles(c: Chars, name: string, card: Card)
    ensures RolesOf(Put(c, name, card)) ==
            Roles(if name in c.at then c.order else c.order + [name], RolesOf(c).at[name := PartOf(card)])
  {
  }

  lemma EntryRoles(d: Desk, ev: Event, ch: int)
    requires d.error.None?
    ensures RolesOf(PostEvent(d, ev, ch).mem) == AfterEntry(RolesOf(d.mem), ev)
  {
    SameLead(d.mem.order, d.mem.at);
    assert RolesOf(d.mem).at.Keys == d.mem.at.Keys;
    if OnCards(ev) {
      var name := Resolve(ev.entityType, ev.name, d.mem.at.Keys, FindProtagonist(d.mem));
      WrittenPart(d.mem, name, ev.changes);
      PutRoles(d.mem, name, WrittenCard(d.mem, name, ev.changes));
      assert PostEvent(d, ev, ch).mem == Put(d.mem, name, WrittenCard(d.mem, name, ev.changes));
    } else {
      OtherEntry(d.mem, Known({}, {}), d, ev, 0, ch);
    }
  }

  /** The fold tells the roles the posting loop will have. */
  lemma {:induction false} PostedRoles(d: Desk, evs: seq<Event>, ch: int)
    requires d.error.None? && PostEvents(d, evs, ch).error.None?
    ensures RolesOf(PostEvents(d, evs, ch).mem) == RolesAfter(RolesOf(d.mem), evs)
  {
    if |evs| > 0 {
      PostedRoles(d, evs[..|evs| - 1], ch);
      EntryRoles(PostEvents(d, evs[..|evs| - 1], ch), evs[|evs| - 1], ch);
    }
  }

  /******* Failures the validator does not foresee *******/

  /** What the posting loop demands of `world` for one entry. */
  predicate Fits(world: World, ev: Event) {
    if OnCards(ev) then true
    else if ev.entityType == Faction then
      "factions" in world ==>
        world["factions"].Dict? && (ev.name in world["factions"].fields ==> world["factions"].fields[ev.name].Dict?)
    else "settings" in world ==> world["settings"].Dict?
  }

  /** The loop gets through the first `i` entries: the world has mappings where they write. */
  ghost predicate GetsThrough(world: World, evs: seq<Event>, i: nat)
    requires i <= |evs|
  {
    forall j :: 0 <= j < i ==> Fits(world, evs[j])
  }

  ghost predicate SameFits(w: World, w': World) {
    forall ev :: Fits(w', ev) <==> Fits(w, ev)
  }

  lemma EntryFits(d: Desk, ev: Event, ch: int)
    requires d.error.None?
    ensures PostEvent(d, ev, ch).error.None? <==> Fits(d.books.world, ev)
  {
  }

  lemma PostFactionFits(d: Desk, ev: Event, ch: int, other: Event)
    requires d.error.None? && ev.entityType == Faction && Fits(d.books.world, ev)
    ensures Fits(PostFaction(d, ev, ch).books.world, other) <==> Fits(d.books.world, other)
  {
  }

  lemma PostSettingFits(d: Desk, ev: Event, ch: int, other: Event)
    requires d.error.None? && !OnCards(ev) && ev.entityType != Faction && Fits(d.books.world, ev)
    ensures Fits(PostSetting(d, ev, ch).books.world, other) <==> Fits(d.books.world, other)
  {
  }

  lemma EntryKeepsFits(d: Desk, ev: Event, ch: int)
    requires d.error.None? && Fits(d.books.world, ev)
    ensures SameFits(d.books.world, PostEvent(d, ev, ch).books.world)
  {
    forall other
      ensures Fits(PostEvent(d, ev, ch).books.world, other) <==> Fits(d.books.world, other)
    {
      if ev.entityType == Faction {
        PostFactionFits(d, ev, ch, other);
      } else if !OnCards(ev) {
        PostSettingFits(d, ev, ch, other);
      }
    }
  }

  lemma {:induction false} PostingFits(d: Desk, evs: seq<Event>, i: nat, ch: int)
    requires d.error.None? && i <= |evs|
    ensures PostEvents(d, evs[..i], ch).error.None? <==> GetsThrough(d.books.world, evs, i)
    ensures PostEvents(d, evs[..i], ch).error.None? ==> SameFits(d.books.world, PostEvents(d, evs[..i], ch).books.world)
    decreases i
  {
    if i > 0 {
      PostingFits(d, evs, i - 1, ch);
      assert evs[..i][..i - 1] == evs[..i - 1];
      NextFits(d.books.world, PostEvents(d, evs[..i - 1], ch), evs[i - 1], ch);
      GetsFurther(d.books.world, evs, i - 1);
    }
  }

  lemma GetsFurther(world: World, evs: seq<Event>, i: nat)
    requires i < |evs|
    ensures GetsThrough(world, evs, i + 1) <==> GetsThrough(world, evs, i) && Fits(world, evs[i])
  {
  }

  lemma NextFits(world: World, d: Desk, ev: Event, ch: int)
    requires d.error.None? ==> SameFits(world, d.books.world)
    ensures PostEvent(d, ev, ch).error.None? <==> d.error.None? && Fits(world, ev)
    ensures PostEvent(d, ev, ch).error.None? ==> SameFits(world, PostEvent(d, ev, ch).books.world)
  {
    if d.error.None? {
      EntryFits(d, ev, ch);
      assert Fits(d.books.world, ev) <==> Fits(world, ev);
      if Fits(world, ev) {
        EntryKeepsFits(d, ev, ch);
      }
    }
  }

  /**
   The validator promises that the posting loop cannot fail after it. That holds exactly
   when the world already has mappings where the entries will write.
   */
  lemma AcceptedPostsIff(b: Books, ls: Listing, evs: seq<Event>, ch: int)
    requires Validate(Load(b.files, ls), b.world, evs).Ok?
    ensures BookEvents(b, ls, evs, ch).error.None? <==> forall i :: 0 <= i < |evs| ==> Fits(b.world, evs[i])
  {
    PostingFits(OpenDesk(b, ls), evs, |evs|, ch);
    assert evs[..|evs|] == evs;
  }

  lemma PostTwo(d: Desk, e0: Event, e1: Event, ch: int)
    ensures PostEvents(d, [e0, e1], ch) == PostEvent(PostEvent(d, e0, ch), e1, ch)
  {
    assert [e0, e1][..1] == [e0] && [e0][..0] == [];
    assert PostEvents(d, [e0], ch) == PostEvent(d, e0, ch);
  }

  lemma SimulateTwo(c: Chars, k: Known, e0: Event, e1: Event)
    ensures Simulate(c, k, [e0, e1]) ==
            match ValidateEvent(c, k, e0, 0) case Err(e) => Err(e) case Ok(k') => ValidateEvent(c, k', e1, 1)
  {
    assert [e0, e1][..1] == [e0] && [e0][..0] == [];
    assert Simulate(c, k, [e0]) == ValidateEvent(c, k, e0, 0);
  }

  /** A null `factions` passes validation and then fails, after an earlier card was written. */
  lemma NullFactionsFailLate(ls: Listing, person: string, faction: string) returns (b: Books, evs: seq<Event>)
    requires person != "" && faction != ""
    ensures Validate(Load(b.files, ls), b.world, evs).Ok?
    ensures BookEvents(b, ls, evs, 1).error == Some(BadShape)
    ensures person !in b.files && person in BookEvents(b, ls, evs, 1).books.files
  {
    b := Books(map[], map["factions" := Null], [], [], []);
    var create, found := Event(Character, person, map[], "", true), Event(Faction, faction, map[], "", true);
    evs := [create, found];
    LoadFromWellNamed(b.files, ls(b.files.Keys));
    NullFactionsPass(Load(b.files, ls), b.world, create, found);
    NullFactionsStop(OpenDesk(b, ls), create, found);
  }

  lemma NullFactionsPass(c: Chars, world: World, create: Event, found: Event)
    requires c.at == map[] && Get(world, "factions") == Null
    requires create.entityType == Character && create.name != "" && create.create
    requires found.entityType == Faction && found.name != "" && found.create
    ensures Validate(c, world, [create, found]).Ok?
  {
    assert AliasNames(c) == {};
    SimulateTwo(c, Known(c.at.Keys, FactionNames(world)), create, found);
  }

  lemma NullFactionsStop(d: Desk, create: Event, found: Event)
    requires d.error.None? && "factions" in d.books.world && d.books.world["factions"] == Null
    requires create.entityType == Character && found.entityType == Faction
    ensures var d' := PostEvents(d, [create, found], 1);
            d'.error == Some(BadShape) && create.name in d'.books.files
  {
    PostTwo(d, create, found, 1);
    var d1 := PostEvent(d, create, 1);
    assert d1.error.None? && d1.books.world == d.books.world && create.name in d1.books.files;
    assert PostEvent(d1, found, 1) == d1.(error := Some(BadShape));
  }

  /******* Exactly when they agree *******/

  /** The names the validator has simulated, and the names the loop has, after the first `i` entries. */
  ghost predicate NamesAgree(c: Chars, k: Known, d: Desk, evs: seq<Event>, i: nat, ch: int)
    requires i <= |evs|
  {
    Simulate(c, k, evs[..i]).Ok? && PostEvents(d, evs[..i], ch).mem.at.Keys == Simulate(c, k, evs[..i]).value.chars
  }

  /** An entry that names an unknown protagonist finds a lead exactly if the store opened with one. */
  predicate LeadSteady(c: Chars, k: Known, evs: seq<Event>, i: nat)
    requires i < |evs| && Simulate(c, k, evs[..i]).Ok?
  {
    evs[i].entityType == Protagonist && evs[i].name !in Simulate(c, k, evs[..i]).value.chars ==>
      (HasLead(RolesAfter(RolesOf(c), evs[..i])) <==> HasLead(RolesOf(c)))
  }

  lemma {:induction false} SimulatePrefix(c: Chars, k: Known, evs: seq<Event>, i: nat)
    requires i <= |evs| && Simulate(c, k, evs).Ok?
    ensures Simulate(c, k, evs[..i]).Ok? && k.chars <= Simulate(c, k, evs[..i]).value.chars
    decreases |evs|
  {
    if i < |evs| {
      assert evs[..|evs| - 1][..i] == evs[..i];
      SimulatePrefix(c, k, evs[..|evs| - 1], i);
    } else {
      assert evs[..i] == evs;
      if |evs| > 0 {
        assert evs[..|evs| - 1][..|evs| - 1] == evs[..|evs| - 1];
        SimulatePrefix(c, k, evs[..|evs| - 1], |evs| - 1);
        EntryGrows(c, Simulate(c, k, evs[..|evs| - 1]).value, evs[|evs| - 1], |evs| - 1);
      }
    }
  }

  lemma {:induction false} PostedPrefix(d: Desk, evs: seq<Event>, i: nat, ch: int)
    requires i <= |evs| && PostEvents(d, evs, ch).error.None?
    ensures PostEvents(d, evs[..i], ch).error.None?
    decreases |evs|
  {
    if i < |evs| {
      assert evs[..|evs| - 1][..i] == evs[..i];
      PostedPrefix(d, evs[..|evs| - 1], i, ch);
    } else {
      assert evs[..i] == evs;
    }
  }

  /** One accepted card entry, from agreeing names: they still agree exactly if the lead is steady for it. */
  lemma EntryAgreesIff(c: Chars, known: Known, d: Desk, ev: Event, index: nat, ch: int)
    requires d.error.None? && OnCards(ev) && ValidateEvent(c, known, ev, index).Ok?
    requires d.mem.at.Keys == known.chars && c.at.Keys <= known.chars
    ensures PostEvent(d, ev, ch).mem.at.Keys == ValidateEvent(c, known, ev, index).value.chars <==>
            (ev.entityType == Protagonist && ev.name !in known.chars ==>
               (HasLead(RolesOf(d.mem)) <==> HasLead(RolesOf(c))))
  {
    SameLead(d.mem.order, d.mem.at);
    SameLead(c.order, c.at);
    ProtagonistIsKnown(c);
    ProtagonistIsKnown(d.mem);
    PostedName(d, ev, ch);
    AcceptedName(c, known, ev, index);
  }

  /** A card entry adds the name it is booked under. */
  lemma PostedName(d: Desk, ev: Event, ch: int)
    requires d.error.None? && OnCards(ev)
    ensures PostEvent(d, ev, ch).mem.at.Keys ==
            d.mem.at.Keys + {Resolve(ev.entityType, ev.name, d.mem.at.Keys, FindProtagonist(d.mem))}
  {
  }

  lemma AcceptedName(c: Chars, known: Known, ev: Event, index: nat)
    requires OnCards(ev) && ValidateEvent(c, known, ev, index).Ok?
    ensures ValidateEvent(c, known, ev, index).value.chars ==
            known.chars + {Resolve(ev.entityType, ev.name, known.chars, FindProtagonist(c))}
  {
  }

  lemma StepAgreesIff(c: Chars, k: Known, d: Desk, evs: seq<Event>, i: nat, ch: int)
    requires d.mem == c && k.chars == c.at.Keys && d.error.None?
    requires i < |evs| && Simulate(c, k, evs).Ok? && PostEvents(d, evs[..i], ch).error.None?
    requires NamesAgree(c, k, d, evs, i, ch)
    ensures NamesAgree(c, k, d, evs, i + 1, ch) <==> LeadSteady(c, k, evs, i)
  {
    SimulatePrefix(c, k, evs, i);
    SimulatePrefix(c, k, evs, i + 1);
    assert evs[..i + 1][..i] == evs[..i];
    PostedRoles(d, evs[..i], ch);
    var known, d0 := Simulate(c, k, evs[..i]).value, PostEvents(d, evs[..i], ch);
    if OnCards(evs[i]) {
      EntryAgreesIff(c, known, d0, evs[i], i, ch);
    } else {
      OtherEntry(c, known, d0, evs[i], i, ch);
    }
  }

  lemma {:induction false} SteadyAgrees(c: Chars, k: Known, d: Desk, evs: seq<Event>, i: nat, ch: int)
    requires d.mem == c && k.chars == c.at.Keys && d.error.None?
    requires i <= |evs| && Simulate(c, k, evs).Ok? && PostEvents(d, evs[..i], ch).error.None?
    requires forall j :: 0 <= j < i ==> Simulate(c, k, evs[..j]).Ok? && LeadSteady(c, k, evs, j)
    ensures NamesAgree(c, k, d, evs, i, ch)
    decreases i
  {
    if i > 0 {
      assert evs[..i][..i - 1] == evs[..i - 1];
      PostedPrefix(d, evs[..i], i - 1, ch);
      SteadyAgrees(c, k, d, evs, i - 1, ch);
      StepAgreesIff(c, k, d, evs, i - 1, ch);
    }
  }

  /**
   For every accepted list: the loop's names are the validator's after every entry it gets to if
   and only if each entry that names an unknown protagonist finds a lead exactly when the store
   opened with one. The lead is told from the opening cards and the entries before it.
   */
  lemma AgreementIff(b: Books, ls: Listing, evs: seq<Event>, ch: int)
    requires Validate(Load(b.files, ls), b.world, evs).Ok?
    ensures var c, k := Load(b.files, ls), Known(Load(b.files, ls).at.Keys, FactionNames(b.world));
            && (forall i :: 0 <= i <= |evs| ==> Simulate(c, k, evs[..i]).Ok?)
            && ((forall i :: 0 <= i <= |evs| && GetsThrough(b.world, evs, i) ==> NamesAgree(c, k, OpenDesk(b, ls), evs, i, ch)) <==>
                (forall i :: 0 <= i < |evs| && GetsThrough(b.world, evs, i) ==> LeadSteady(c, k, evs, i)))
  {
    var c, d := Load(b.files, ls), OpenDesk(b, ls);
    var k := Known(c.at.Keys, FactionNames(b.world));
    forall i | 0 <= i <= |evs|
      ensures Simulate(c, k, evs[..i]).Ok? && (PostEvents(d, evs[..i], ch).error.None? <==> GetsThrough(b.world, evs, i))
    {
      SimulatePrefix(c, k, evs, i);
      PostingFits(d, evs, i, ch);
    }
    if forall i :: 0 <= i <= |evs| && GetsThrough(b.world, evs, i) ==> NamesAgree(c, k, d, evs, i, ch) {
      forall i | 0 <= i < |evs| && GetsThrough(b.world, evs, i)
        ensures LeadSteady(c, k, evs, i)
      {
        if OnCards(evs[i]) {
          assert Fits(b.world, evs[i]) && GetsThrough(b.world, evs, i + 1);
          StepAgreesIff(c, k, d, evs, i, ch);
        }
      }
    }
    if forall i :: 0 <= i < |evs| && GetsThrough(b.world, evs, i) ==> LeadSteady(c, k, evs, i) {
      forall i | 0 <= i <= |evs| && GetsThrough(b.world, evs, i)
        ensures NamesAgree(c, k, d, evs, i, ch)
      {
        forall j | 0 <= j < i
          ensures LeadSteady(c, k, evs, j)
        {
          assert GetsThrough(b.world, evs, j);
        }
        SteadyAgrees(c, k, d, evs, i, ch);
      }
    }
  }

  /**
   A sufficient condition that needs no fold: entries that leave roles alone. Then the loop ends
   with exactly the names the validator simulated, or part of them if a malformed world stops it;
   and in either case every card it created was declared by an entry with `create` under a name
   that is nobody's alias.
   */
  lemma ValidatorAgreesWithPosting(b: Books, ls: Listing, evs: seq<Event>, ch: int)
    requires Validate(Load(b.files, ls), b.world, evs).Ok? && KeepRoles(evs)
    ensures Agrees(Load(b.files, ls), evs, Validate(Load(b.files, ls), b.world, evs).value,
                   PostEvents(OpenDesk(b, ls), evs, ch))
  {
    var c := Load(b.files, ls);
    PostingAgrees(c, Known(c.at.Keys, FactionNames(b.world)), OpenDesk(b, ls), evs, ch);
  }

  /******* The promise broken *******/

  function LeadCard(name: string): Card {
    map["name" := Str(name), "role" := Str("protagonist")]
  }

  lemma LeadCardReads(name: string)
    requires name != ""
    ensures NameOf(name, LeadCard(name)) == name && Named(name, LeadCard(name)) == LeadCard(name)
    ensures PartOf(LeadCard(name)) == Part(Str("protagonist"), Null) && Get(LeadCard(name), "aliases") == Null
  {
  }

  lemma {:induction false} FirstLeadFound(order: seq<string>, at: map<string, Part>)
    ensures match FirstLead(order, at)
            case Some(n) => n in order && n in at && IsLeading(at[n])
            case None => forall n :: n in order && n in at ==> !IsLeading(at[n])
  {
    if order != [] {
      FirstLeadFound(order[1..], at);
    }
  }

  /** One lead, whose role an entry then clears: afterwards there is none. */
  lemma ClearedRole(r: Roles, hero: string, clear: Event)
    requires hero != "" && r.at.Keys == {hero} && hero in r.order && r.at[hero] == Part(Str("protagonist"), Null)
    requires clear.entityType == Character && clear.name == hero && clear.changes == map["role" := Null]
    ensures LeadOf(r) == Some(hero) && HasLead(r) && !HasLead(AfterEntry(r, clear))
  {
    FirstLeadFound(r.order, r.at);
    var r' := AfterEntry(r, clear);
    assert r'.at == map[hero := Part(Null, Null)];
    FirstLeadFound(r'.order, r'.at);
  }

  /** The store with that one lead. */
  ghost predicate OnlyLead(c: Chars, hero: string) {
    && hero != "" && Covers(c) && c.at.Keys == {hero}
    && PartOf(c.at[hero]) == Part(Str("protagonist"), Null) && Get(c.at[hero], "aliases") == Null
  }

  lemma OneLeadLoads(ls: Listing, hero: string)
    requires IsListing(ls) && hero != ""
    ensures OnlyLead(Load(map[hero := LeadCard(hero)], ls), hero)
  {
    LeadCardReads(hero);
    LoadWellNamed(map[hero := LeadCard(hero)], ls);
  }

  lemma OneLeadAccepts(c: Chars, k: Known, hero: string, clear: Event, unknown: Event)
    requires OnlyLead(c, hero) && k.chars == c.at.Keys
    requires clear.entityType == Character && clear.name == hero
    requires unknown.entityType == Protagonist && unknown.name != ""
    ensures Simulate(c, k, [clear, unknown]) == Ok(k)
  {
    SameLead(c.order, c.at);
    FirstProtagonistFound(c.order, c.at);
    assert hero in c.order;
    SimulateTwo(c, k, clear, unknown);
  }

  lemma NotSteady(c: Chars, k: Known, hero: string, clear: Event, unknown: Event)
    requires OnlyLead(c, hero) && k.chars == c.at.Keys
    requires clear.entityType == Character && clear.name == hero && clear.changes == map["role" := Null]
    requires unknown.entityType == Protagonist && unknown.name != hero
    ensures var evs := [clear, unknown]; Simulate(c, k, evs[..1]).Ok? && !LeadSteady(c, k, evs, 1)
  {
    var evs := [clear, unknown];
    assert evs[..1] == [clear] && [clear][..0] == [];
    assert Simulate(c, k, evs[..1]) == Ok(k);
    ClearedRole(RolesOf(c), hero, clear);
    assert RolesAfter(RolesOf(c), [clear]) == AfterEntry(RolesOf(c), clear);
  }

  /**
   The input that breaks the promise: clear the protagonist's role, then name somebody unknown as
   protagonist. The list is accepted, holds no `create`, and the loop ends up with other names.
   */
  lemma RoleChangeBreaksAgreement(ls: Listing, hero: string, other: string, ch: int) returns (b: Books, evs: seq<Event>)
    requires IsListing(ls) && hero != "" && other != "" && hero != other
    ensures b.files == map[hero := LeadCard(hero)] && b.world == map[]
    ensures evs == [Event(Character, hero, map["role" := Null], "", false), Event(Protagonist, other, map[], "", false)]
    ensures Validate(Load(b.files, ls), b.world, evs).Ok? && (forall i :: 0 <= i < |evs| ==> Fits(b.world, evs[i]))
    ensures exists i :: 0 <= i <= |evs| &&
              !NamesAgree(Load(b.files, ls), Known({hero}, {}), OpenDesk(b, ls), evs, i, ch)
  {
    b := Books(map[hero := LeadCard(hero)], map[], [], [], []);
    var clear, unknown := Event(Character, hero, map["role" := Null], "", false), Event(Protagonist, other, map[], "", false);
    evs := [clear, unknown];
    OneLeadLoads(ls, hero);
    LeadLost(b, ls, hero, clear, unknown, ch);
  }

  lemma LeadLost(b: Books, ls: Listing, hero: string, clear: Event, unknown: Event, ch: int)
    requires OnlyLead(Load(b.files, ls), hero) && b.world == map[]
    requires clear.entityType == Character && clear.name == hero && clear.changes == map["role" := Null]
    requires unknown.entityType == Protagonist && unknown.name != hero && unknown.name != ""
    ensures Validate(Load(b.files, ls), b.world, [clear, unknown]).Ok?
    ensures exists i :: 0 <= i <= 2 &&
              !NamesAgree(Load(b.files, ls), Known({hero}, {}), OpenDesk(b, ls), [clear, unknown], i, ch)
  {
    var c, k := Load(b.files, ls), Known({hero}, {});
    assert FactionNames(b.world) == {};
    OneLeadAccepts(c, k, hero, clear, unknown);
    NotSteady(c, k, hero, clear, unknown);
    AgreementIff(b, ls, [clear, unknown], ch);
  }
}
