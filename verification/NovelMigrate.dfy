/**
 The one-shot ledger migration: compare nested state as data, strip the old in-bible
 history, and replay a whole book inside an all-or-nothing transaction.
 */
module NovelMigrate {
  import opened Values
  import opened NovelState
  import opened NovelPosting
  import opened NovelJournal
  import NovelTree

  /******* Comparing nested state *******/

  /** Null values and one-chapter keys are dropped at every depth. */
  function Norm(v: Value): Value {
    match v
    case Dict(m) => Dict(map k | k in m && m[k] != Null && !IsTransient(k) :: Norm(m[k]))
    case List(l) => List(seq(|l|, i requires 0 <= i < |l| => Norm(l[i])))
    case _ => v
  }

  lemma {:induction false} NormIdempotent(v: Value)
    ensures Norm(Norm(v)) == Norm(v)
  {
    match v
    case Dict(m) =>
      var n := Norm(v).fields;
      forall k | k in n
        ensures Norm(n[k]) == n[k] && n[k] != Null
      {
        NormIdempotent(m[k]);
      }
      assert Norm(Norm(v)).fields == n;
    case List(l) =>
      forall i | 0 <= i < |l|
        ensures Norm(Norm(l[i])) == Norm(l[i])
      {
        NormIdempotent(l[i]);
      }
    case _ =>
  }

  datatype Step = Key(key: string) | Item(index: nat)
  datatype Difference =
    | OnlyOld(path: seq<Step>) | OnlyReplayed(path: seq<Step>) | Changed(path: seq<Step>)

  predicate AllDicts(l: seq<Value>) {
    forall i :: 0 <= i < |l| ==> l[i].Dict?
  }

  /** Where two values differ: mappings by key, equally long lists of mappings by position, else whole. */
  function Diff(a: Value, b: Value, path: seq<Step>): set<Difference> {
    if a.Dict? && b.Dict? then
      (set k | k in a.fields.Keys - b.fields.Keys :: OnlyOld(path + [Key(k)])) +
      (set k | k in b.fields.Keys - a.fields.Keys :: OnlyReplayed(path + [Key(k)])) +
      (set k, d | k in a.fields.Keys * b.fields.Keys && d in Diff(a.fields[k], b.fields[k], path + [Key(k)]) :: d)
    else if a.List? && b.List? && |a.items| == |b.items| && AllDicts(a.items) && AllDicts(b.items) then
      set i, d | 0 <= i < |a.items| && d in Diff(a.items[i], b.items[i], path + [Item(i)]) :: d
    else if SameValue(a, b) then {} else {Changed(path)}
  }

  lemma NonEmpty<T>(s: set<T>, x: T)
    requires x in s
    ensures s != {}
  {
  }

  /** The comparison reports nothing exactly when the two values are equal. */
  lemma {:induction false} DiffEmptyIff(a: Value, b: Value, path: seq<Step>)
    ensures Diff(a, b, path) == {} <==> SameValue(a, b)
  {
    var diff := Diff(a, b, path);
    if a.Dict? && b.Dict? {
      var m, n := a.fields, b.fields;
      forall k | k in m && k in n
        ensures Diff(m[k], n[k], path + [Key(k)]) == {} <==> SameValue(m[k], n[k])
      {
        DiffEmptyIff(m[k], n[k], path + [Key(k)]);
      }
      if SameValue(a, b) {
        assert diff == {};
      } else if k :| k in m && k !in n {
        NonEmpty(diff, OnlyOld(path + [Key(k)]));
      } else if k :| k in n && k !in m {
        NonEmpty(diff, OnlyReplayed(path + [Key(k)]));
      } else {
        assert m.Keys == n.Keys;
        var k :| k in m && !SameValue(m[k], n[k]);
        var d :| d in Diff(m[k], n[k], path + [Key(k)]);
        NonEmpty(diff, d);
      }
    } else if a.List? && b.List? && |a.items| == |b.items| && AllDicts(a.items) && AllDicts(b.items) {
      forall i | 0 <= i < |a.items|
        ensures Diff(a.items[i], b.items[i], path + [Item(i)]) == {} <==> SameValue(a.items[i], b.items[i])
      {
        DiffEmptyIff(a.items[i], b.items[i], path + [Item(i)]);
      }
      if !SameValue(a, b) {
        var i :| 0 <= i < |a.items| && !SameValue(a.items[i], b.items[i]);
        var d :| d in Diff(a.items[i], b.items[i], path + [Item(i)]);
        NonEmpty(diff, d);
      }
    }
  }

  /******* The bible as data *******/

  datatype Bible = Bible(files: map<string, Card>, world: World, threads: seq<Thread>, arcs: seq<Arc>)

  function BibleOf(b: Books): Bible {
    Bible(b.files, b.world, b.threads, b.arcs)
  }

  function IfSome<T>(key: string, o: Option<T>, f: T -> Value): map<string, Value> {
    if o.Some? then map[key := f(o.value)] else map[]
  }

  function HintValue(h: Hint): Value {
    Dict(map["chapter" := Int(h.chapter), "hint" := Str(h.text)])
  }

  function NoteValue(n: Note): Value {
    Dict(map["chapter" := Int(n.chapter), "note" := Str(n.text)])
  }

  function ThreadValue(t: Thread): Value {
    Dict(t.other + map["name" := Str(t.name)] +
         IfSome("status", t.status, s => Str(s)) +
         IfSome("earliest_reveal", t.gate, (g: Gate) => Dict(map["arc" := Str(g.arc), "node" := Str(g.node)])) +
         IfSome("hint_count", t.hintCount, n => Int(n)) +
         IfSome("last_hint_chapter", t.lastHint, (h: Hint) => Int(h.chapter)) +
         IfSome("last_hint", t.lastHint, (h: Hint) => Str(h.text)) +
         IfSome("hints", t.hints, hs => List(seq(|hs|, i requires 0 <= i < |hs| => HintValue(hs[i])))) +
         IfSome("introduced_chapter", t.introduced, n => Int(n)) +
         IfSome("resolution_chapter", t.resolution, (n: Note) => Int(n.chapter)) +
         IfSome("resolution", t.resolution, (n: Note) => Str(n.text)) +
         IfSome("abandon_reason", t.abandonReason, s => Str(s)))
  }

  function NodeText(s: NodeStatus): string {
    match s case Done => "done" case Undone(text) => text
  }

  function ArcText(s: ArcStatus): string {
    match s case Completed => "completed" case OtherStatus(text) => text
  }

  function NodeValue(nd: Node): Value {
    Dict(map["id" := Str(nd.id), "status" := Str(NodeText(nd.status))] + IfSome("completed_chapter", nd.completed, n => Int(n)))
  }

  function ArcValue(a: Arc): Value {
    Dict(a.other + map["name" := Str(a.name),
                       "nodes" := List(seq(|a.nodes|, i requires 0 <= i < |a.nodes| => NodeValue(a.nodes[i])))] +
         IfSome("status", a.status, s => Str(ArcText(s))) +
         IfSome("end_chapter", a.endChapter, n => Int(n)) +
         IfSome("latest_note", a.latestNote, n => NoteValue(n)) +
         IfSome("progress_notes", a.progressNotes,
                ns => List(seq(|ns|, i requires 0 <= i < |ns| => NoteValue(ns[i])))))
  }

  /** The current state of the bible's replayed files, normalised. */
  function Snapshot(b: Bible, ls: Listing): Value {
    var cards := Load(b.files, ls).at;
    Norm(Dict(map["characters" := Dict(map n | n in cards :: Dict(cards[n])),
                  "world" := Dict(b.world),
                  "threads" := List(seq(|b.threads|, i requires 0 <= i < |b.threads| => ThreadValue(b.threads[i]))),
                  "arcs" := List(seq(|b.arcs|, i requires 0 <= i < |b.arcs| => ArcValue(b.arcs[i])))]))
  }

  /******* Stripping the old history *******/

  predicate HasTransient(card: Card) {
    exists k :: k in card && IsTransient(k)
  }

  function StripCard(stem: string, card: Card, touched: set<Account>): Card {
    if Account(Characters, NameOf(stem, card)) !in touched && !Truthy(Get(card, "progression")) && !HasTransient(card)
    then card
    else map k | k in card && k != "progression" && !IsTransient(k) :: card[k]
  }

  function FactionsOf(world: World): map<string, Value> {
    match Get(world, "factions") case Dict(m) => m case _ => map[]
  }

  predicate FactionHit(name: string, f: Value, touched: set<Account>) {
    f.Dict? && "progression" in f.fields &&
    (Account(Factions, name) in touched || Truthy(f.fields["progression"]))
  }

  predicate AnyFactionHit(world: World, touched: set<Account>) {
    exists n :: n in FactionsOf(world) && FactionHit(n, FactionsOf(world)[n], touched)
  }

  function StripFactions(factions: map<string, Value>, touched: set<Account>): map<string, Value> {
    map n | n in factions ::
      if FactionHit(n, factions[n], touched) then Dict(factions[n].fields - {"progression"}) else factions[n]
  }

  /** The world is written back only if the log was there and not null, or a faction changed. */
  function StripWorld(world: World, touched: set<Account>): World {
    var logged := "setting_log" in world && world["setting_log"] != Null;
    var cleared := world - {"setting_log"};
    if !logged && !AnyFactionHit(world, touched) then world
    else if AnyFactionHit(world, touched) then cleared["factions" := Dict(StripFactions(FactionsOf(world), touched))]
    else cleared
  }

  function StripThread(t: Thread, touched: set<Account>): Thread {
    if t.hints.Some? && (Account(Threads, t.name) in touched || t.hints.value != []) then Absorbed(t) else t
  }

  function StripArc(a: Arc): Arc {
    match a.progressNotes
    case None => a
    case Some(ns) =>
      a.(progressNotes := None, latestNote := if ns != [] then Some(ns[|ns| - 1]) else a.latestNote)
  }

  function StripBible(b: Bible, touched: set<Account>): Bible {
    Bible(map n | n in b.files :: StripCard(n, b.files[n], touched),
          StripWorld(b.world, touched),
          seq(|b.threads|, i requires 0 <= i < |b.threads| => StripThread(b.threads[i], touched)),
          seq(|b.arcs|, i requires 0 <= i < |b.arcs| => StripArc(b.arcs[i])))
  }

  method StripEachFaction(was: map<string, Value>, touched: set<Account>) returns (factions: map<string, Value>, hit: bool)
    ensures factions == StripFactions(was, touched)
    ensures hit <==> exists n :: n in was && FactionHit(n, was[n], touched)
  {
    factions, hit := was, false;
    var left := was.Keys;
    while left != {}
      invariant left <= was.Keys == factions.Keys
      invariant forall n :: n in factions ==> factions[n] == if n in left then was[n] else StripFactions(was, touched)[n]
      invariant hit <==> exists n :: n in was && n !in left && FactionHit(n, was[n], touched)
      decreases left
    {
      var n :| n in left;
      if FactionHit(n, was[n], touched) {
        factions := factions[n := Dict(was[n].fields - {"progression"})];
        hit := true;
      }
      left := left - {n};
    }
  }

  /** A bible whose history blocks are removed in place. */
  class LegacyBible {
    var files: map<string, Card>
    var world: World
    var threads: seq<Thread>
    var arcs: seq<Arc>

    ghost function Contents(): Bible
      reads this
    {
      Bible(files, world, threads, arcs)
    }

    constructor (b: Bible)
      ensures Contents() == b
    {
      files, world, threads, arcs := b.files, b.world, b.threads, b.arcs;
    }

    method StripLegacyHistory(touched: set<Account>)
      modifies this
      ensures Contents() == StripBible(old(Contents()), touched)
    {
      StripCards(touched);
      StripWorldInPlace(touched);
      for i := 0 to |threads|
        invariant |threads| == |old(threads)| && files == (map n | n in old(files) :: StripCard(n, old(files)[n], touched))
        invariant world == StripWorld(old(world), touched) && arcs == old(arcs)
        invariant forall j :: 0 <= j < |threads| ==>
                    threads[j] == if j < i then StripThread(old(threads)[j], touched) else old(threads)[j]
      {
        var t := threads[i];
        if t.hints.Some? && (Account(Threads, t.name) in touched || t.hints.value != []) {
          threads := threads[i := Absorbed(t)];
        }
      }
      for i := 0 to |arcs|
        invariant |arcs| == |old(arcs)| && files == (map n | n in old(files) :: StripCard(n, old(files)[n], touched))
        invariant world == StripWorld(old(world), touched) && threads == StripBible(old(Contents()), touched).threads
        invariant forall j :: 0 <= j < |arcs| ==> arcs[j] == if j < i then StripArc(old(arcs)[j]) else old(arcs)[j]
      {
        var a := arcs[i];
        if a.progressNotes.Some? {
          var notes := a.progressNotes.value;
          a := a.(progressNotes := None);
          if notes != [] {
            a := a.(latestNote := Some(notes[|notes| - 1]));
          }
          arcs := arcs[i := a];
        }
      }
    }

    method StripCards(touched: set<Account>)
      modifies this`files
      ensures files == map n | n in old(files) :: StripCard(n, old(files)[n], touched)
    {
      var left := files.Keys;
      while left != {}
        invariant left <= old(files).Keys == files.Keys
        invariant forall n :: n in files ==>
                    files[n] == if n in left then old(files)[n] else StripCard(n, old(files)[n], touched)
        decreases left
      {
        var n :| n in left;
        files := files[n := StripCard(n, files[n], touched)];
        left := left - {n};
      }
    }

    method StripWorldInPlace(touched: set<Account>)
      modifies this`world
      ensures world == StripWorld(old(world), touched)
    {
      var changed := "setting_log" in world && world["setting_log"] != Null;
      var factions, hit := StripEachFaction(FactionsOf(world), touched);
      if changed || hit {
        world := world - {"setting_log"};
        if hit {
          world := world["factions" := Dict(factions)];
        }
      }
    }
  }

  predicate CardLegacy(card: Card) {
    Truthy(Get(card, "progression")) || HasTransient(card)
  }

  predicate WorldLegacy(world: World) {
    "setting_log" in world ||
    exists n :: n in FactionsOf(world) && FactionsOf(world)[n].Dict? && Truthy(Get(FactionsOf(world)[n].fields, "progression"))
  }

  predicate ThreadLegacy(t: Thread) {
    t.hints.Some? && t.hints.value != []
  }

  /** Some entity still carries history in the bible. */
  predicate HasLegacyHistory(b: Bible) {
    || (exists n :: n in b.files && CardLegacy(b.files[n]))
    || WorldLegacy(b.world)
    || (exists i :: 0 <= i < |b.threads| && ThreadLegacy(b.threads[i]))
    || (exists i :: 0 <= i < |b.arcs| && b.arcs[i].progressNotes.Some?)
  }

  /** A log key that is present but null, in a world the strip has no other reason to write. */
  predicate NullLogStays(world: World, touched: set<Account>) {
    "setting_log" in world && world["setting_log"] == Null && !AnyFactionHit(world, touched)
  }

  lemma StripCardClears(stem: string, card: Card, touched: set<Account>)
    ensures !CardLegacy(StripCard(stem, card, touched))
  {
    TransientFacts();
  }

  lemma StripWorldClearsIff(world: World, touched: set<Account>)
    ensures WorldLegacy(StripWorld(world, touched)) <==> NullLogStays(world, touched)
  {
    var w := StripWorld(world, touched);
    var fs := FactionsOf(world);
    assert "setting_log" in w <==> NullLogStays(world, touched);
    if AnyFactionHit(world, touched) {
      assert FactionsOf(w) == StripFactions(fs, touched);
      forall n | n in FactionsOf(w) && FactionsOf(w)[n].Dict?
        ensures !Truthy(Get(FactionsOf(w)[n].fields, "progression"))
      {
        assert FactionHit(n, fs[n], touched) || FactionsOf(w)[n] == fs[n];
      }
    } else {
      assert FactionsOf(w) == fs;
      forall n | n in fs && fs[n].Dict?
        ensures !Truthy(Get(fs[n].fields, "progression"))
      {
        assert !FactionHit(n, fs[n], touched);
      }
    }
  }

  /** Stripping removes all old history except where a null log key keeps the bible "not migrated". */
  lemma StripClearsHistoryIff(b: Bible, touched: set<Account>)
    ensures HasLegacyHistory(StripBible(b, touched)) <==> NullLogStays(b.world, touched)
  {
    var s := StripBible(b, touched);
    StripWorldClearsIff(b.world, touched);
    forall n | n in s.files
      ensures !CardLegacy(s.files[n])
    {
      StripCardClears(n, b.files[n], touched);
    }
    assert forall i :: 0 <= i < |s.threads| ==> !ThreadLegacy(s.threads[i]);
    assert forall i :: 0 <= i < |s.arcs| ==> !s.arcs[i].progressNotes.Some?;
  }

  lemma NullLogExample() returns (b: Bible)
    ensures HasLegacyHistory(b) && HasLegacyHistory(StripBible(b, {}))
  {
    b := Bible(map[], map["setting_log" := Null], [], []);
    assert FactionsOf(b.world) == map[];
    StripClearsHistoryIff(b, {});
  }

  /** Stripping is idempotent: a second pass finds nothing of its own to do. */
  lemma StripTwice(b: Bible, touched: set<Account>)
    ensures StripBible(StripBible(b, touched), touched) == StripBible(b, touched)
  {
    var s := StripBible(b, touched);
    forall n | n in b.files
      ensures StripCard(n, s.files[n], touched) == s.files[n]
    {
      StripCardTwice(n, b.files[n], touched);
    }
    StripWorldTwice(b.world, touched);
    assert StripBible(s, touched).threads == s.threads;
    assert StripBible(s, touched).arcs == s.arcs;
    assert StripBible(s, touched).files == s.files;
  }

  lemma StripCardTwice(stem: string, card: Card, touched: set<Account>)
    ensures var c := StripCard(stem, card, touched); StripCard(stem, c, touched) == c
  {
    TransientFacts();
    StripCardClears(stem, card, touched);
    var c := StripCard(stem, card, touched);
    if Account(Characters, NameOf(stem, c)) in touched {
      assert Get(c, "name") == Get(card, "name");
      assert (map k | k in c && k != "progression" && !IsTransient(k) :: c[k]) == c;
    }
  }

  lemma StripWorldTwice(world: World, touched: set<Account>)
    ensures StripWorld(StripWorld(world, touched), touched) == StripWorld(world, touched)
  {
    var w := StripWorld(world, touched);
    assert !AnyFactionHit(w, touched) by {
      if AnyFactionHit(world, touched) {
        assert FactionsOf(w) == StripFactions(FactionsOf(world), touched);
      } else {
        assert FactionsOf(w) == FactionsOf(world);
      }
    }
  }

  /******* The transaction *******/

  datatype Dir =
    | BibleDir(bible: Bible, other: map<string, string>)   // `other`: files no replay manages
    | LedgerDir(ledger: map<Account, seq<Row>>)
    | StateDir(index: map<string, Value>)

  /** The subtrees of `novel/` by name. */
  datatype Subtree = BibleTree | StateTree | LedgerTree | OtherTree(name: string)

  const MUTABLE := [BibleTree, StateTree, LedgerTree]

  /** The tree under `novel/`: directories by name, and the append-only chapters. */
  datatype Tree = Tree(dirs: map<Subtree, Dir>, chapters: Option<map<string, Chapter>>)

  /** What a rollback makes of the tree `now`, given the tree at the start. */
  function RolledBack(start: Tree, now: Tree): Tree {
    Tree(map n | n in start.dirs.Keys + now.dirs.Keys && (if n in MUTABLE then n in start.dirs else n in now.dirs) ::
           if n in MUTABLE then start.dirs[n] else now.dirs[n],
         match now.chapters
         case None => None
         case Some(m) =>
           Some(map c | c in m && start.chapters.Some? && c in start.chapters.value :: m[c]))
  }

  /** The failed body left every directory outside the saved three, and every old chapter, alone. */
  predicate OnlyTouchedSaved(start: Tree, now: Tree) {
    && (forall n :: n in start.dirs.Keys + now.dirs.Keys && n !in MUTABLE ==>
          n in start.dirs && n in now.dirs && now.dirs[n] == start.dirs[n])
    && (start.chapters.Some? <==> now.chapters.Some?)
    && (start.chapters.Some? ==> forall c :: c in start.chapters.value ==>
          c in now.chapters.value && now.chapters.value[c] == start.chapters.value[c])
  }

  /** The rollback restores the tree exactly when the failed body kept to that. */
  lemma RollbackRestoresIff(start: Tree, now: Tree)
    ensures RolledBack(start, now) == start <==> OnlyTouchedSaved(start, now)
  {
    var r := RolledBack(start, now);
    if r == start {
      forall n | n in start.dirs.Keys + now.dirs.Keys && n !in MUTABLE
        ensures n in start.dirs && n in now.dirs && now.dirs[n] == start.dirs[n]
      {
        assert n in r.dirs <==> n in start.dirs;
      }
      if start.chapters.Some? {
        forall c | c in start.chapters.value
          ensures c in now.chapters.value && now.chapters.value[c] == start.chapters.value[c]
        {
          assert c in r.chapters.value;
        }
      }
    }
    if OnlyTouchedSaved(start, now) {
      assert r.dirs == start.dirs;
      assert r.chapters == start.chapters by {
        if start.chapters.Some? {
          assert r.chapters.value == start.chapters.value;
        }
      }
    }
  }

  /**
   The first apply on a checkout without `chapters/`: the failed body has made the directory and
   its first record. The record is removed again and the empty directory stays.
   */
  lemma FailedFirstApplyLeavesDirectory(start: Tree, now: Tree, c: Chapter)
    requires start.chapters.None? && now == Tree(start.dirs, Some(map["ch0001" := c]))
    ensures RolledBack(start, now) == Tree(start.dirs, Some(map[])) && RolledBack(start, now) != start
  {
    var r := RolledBack(start, now);
    assert r.dirs == start.dirs;
    assert r.chapters.value == map[];
  }

  datatype Ending =
    | Committed
    | WrongChapter(index: nat)
    | Refused(refusal: Refusal)
    | Drifted(drift: set<Difference>)
    | DryRun(drift: set<Difference>)

  /** Each mutable directory is removed, and copied back if the snapshot has it. */
  method RestoreDirs(now: map<Subtree, Dir>, backup: map<Subtree, Dir>) returns (r: map<Subtree, Dir>)
    ensures forall n :: n in r <==> if n in MUTABLE then n in backup else n in now
    ensures forall n :: n in r ==> r[n] == if n in MUTABLE then backup[n] else now[n]
  {
    r := now;
    for i := 0 to |MUTABLE|
      invariant forall n :: n in r <==> if n in MUTABLE[..i] then n in backup else n in now
      invariant forall n :: n in r ==> r[n] == if n in MUTABLE[..i] then backup[n] else now[n]
    {
      r := r - {MUTABLE[i]};
      if MUTABLE[i] in backup {
        r := r[MUTABLE[i] := backup[MUTABLE[i]]];
      }
      assert MUTABLE[..i + 1] == MUTABLE[..i] + [MUTABLE[i]];
    }
    assert MUTABLE[..|MUTABLE|] == MUTABLE;
  }

  /** Chapters the failed run added are removed; the others stay as they are now. */
  method KeepChapters(now: map<string, Chapter>, before: set<string>) returns (kept: map<string, Chapter>)
    ensures kept == map c | c in now && c in before :: now[c]
  {
    kept := now;
    var left := now.Keys;
    while left != {}
      invariant left <= now.Keys
      invariant kept == map c | c in now && (c in left || c in before) :: now[c]
      decreases left
    {
      var c :| c in left;
      if c !in before {
        kept := kept - {c};
      }
      left := left - {c};
    }
  }

  class Workspace {
    var dirs: map<Subtree, Dir>
    var chapters: Option<map<string, Chapter>>

    ghost function Contents(): Tree
      reads this
    {
      Tree(dirs, chapters)
    }

    constructor (dirs: map<Subtree, Dir>, chapters: Option<map<string, Chapter>>)
      ensures Contents() == Tree(dirs, chapters)
    {
      this.dirs, this.chapters := dirs, chapters;
    }

    /** The snapshot a transaction takes: the mutable directories, and the chapter names. */
    method Begin() returns (backup: map<Subtree, Dir>, before: set<string>)
      ensures IsBackup(Contents(), backup, before)
    {
      backup := map[];
      for i := 0 to |MUTABLE|
        invariant backup == map n | n in dirs && n in MUTABLE[..i] :: dirs[n]
      {
        if MUTABLE[i] in dirs {
          backup := backup[MUTABLE[i] := dirs[MUTABLE[i]]];
        }
      }
      before := if chapters.Some? then chapters.value.Keys else {};
    }

    method Rollback(backup: map<Subtree, Dir>, before: set<string>, ghost start: Tree)
      requires IsBackup(start, backup, before)
      modifies this
      ensures Contents() == RolledBack(start, old(Contents()))
    {
      ghost var spec := RolledBack(start, Contents());
      var restored := RestoreDirs(dirs, backup);
      assert restored == spec.dirs;
      dirs := restored;
      if chapters.Some? {
        var kept := KeepChapters(chapters.value, before);
        assert kept == spec.chapters.value;
        chapters := Some(kept);
      }
    }

    /** The records on disk, in the order of their numbers. */
    method WrittenChapters() returns (cs: seq<Chapter>)
      ensures IsWritten(chapters, cs)
    {
      cs := [];
      if chapters.Some? {
        var names;
        names, cs := InNumberOrder(chapters.value);
        assert NamesThem(chapters.value, names, cs);
      }
    }

    /** Replay the whole book over genesis, compare, and commit or put everything back. */
    method ReplayInto(ls: Listing, genesis: Bible, cs: seq<Chapter>, compare: Bible -> set<Difference>,
                      index: (Bible, seq<Chapter>) -> map<string, Value>, dryRun: bool, force: bool)
      returns (ending: Ending, warnings: seq<Warning>)
      modifies this
      ensures chapters == old(chapters)
      ensures !ending.Committed? ==> Contents() == old(Contents())
      ensures ending == EndingOf(ls, genesis, cs, compare, dryRun, force)
      ensures ending.Committed? ==> HoldsBook(old(dirs), dirs, BookAll(BooksOf(genesis), ls, cs).books, index, cs)
    {
      ghost var was, run := dirs, BookAll(BooksOf(genesis), ls, cs[..FirstMisdeclared(cs)]);
      var replayed, ledger, e;
      replayed, ledger, warnings, e := Replay(ls, genesis, cs);
      ending := Transact(replayed, ledger, index(replayed, cs), e, cs, compare(replayed), dryRun, force);
      if ending.Committed? {
        assert cs[..FirstMisdeclared(cs)] == cs;
        OverwrittenHolds(was, run.books, ledger, index, cs);
      }
    }

    /** Write the replayed book, judge it, and keep it or put everything back. */
    method Transact(replayed: Bible, ledger: map<Account, seq<Row>>, index: map<string, Value>, error: Option<Refusal>,
                    cs: seq<Chapter>, drift: set<Difference>, dryRun: bool, force: bool)
      returns (ending: Ending)
      modifies this
      ensures ending == Judge(error, FirstMisdeclared(cs), |cs|, drift, dryRun, force) && chapters == old(chapters)
      ensures dirs == if ending.Committed? then OverwrittenBy(old(dirs), replayed, ledger, index) else old(dirs)
    {
      ghost var start := Contents();
      var backup, before := WriteBook(replayed, ledger, index);
      ending := Judge(error, FirstMisdeclared(cs), |cs|, drift, dryRun, force);
      Finish(ending, backup, before, start);
    }

    /** Take the snapshot, then write over the mutable subtrees. */
    method WriteBook(replayed: Bible, ledger: map<Account, seq<Row>>, index: map<string, Value>)
      returns (backup: map<Subtree, Dir>, before: set<string>)
      modifies this`dirs
      ensures dirs == OverwrittenBy(old(dirs), replayed, ledger, index)
      ensures IsBackup(old(Contents()), backup, before) && OnlyTouchedSaved(old(Contents()), Contents())
    {
      backup, before := Begin();
      OverwriteTouchesSaved(Contents(), replayed, ledger, index);
      dirs := OverwrittenBy(dirs, replayed, ledger, index);
    }

    /** The end of the transaction: keep what was written, or put everything back. */
    method Finish(ending: Ending, backup: map<Subtree, Dir>, before: set<string>, ghost start: Tree)
      requires IsBackup(start, backup, before) && OnlyTouchedSaved(start, Contents())
      modifies this
      ensures Contents() == if ending.Committed? then old(Contents()) else start
    {
      if !ending.Committed? {
        RollbackRestoresIff(start, Contents());
        Rollback(backup, before, start);
      }
    }
  }

  /** What a transaction remembers of the tree it started from. */
  ghost predicate IsBackup(start: Tree, backup: map<Subtree, Dir>, before: set<string>) {
    && backup == (map n | n in start.dirs && n in MUTABLE :: start.dirs[n])
    && before == if start.chapters.Some? then start.chapters.value.Keys else {}
  }

  /** The replayed book written over the three mutable subtrees. */
  function OverwrittenBy(dirs: map<Subtree, Dir>, replayed: Bible, ledger: map<Account, seq<Row>>, index: map<string, Value>)
    : map<Subtree, Dir>
  {
    dirs[BibleTree := BibleDir(replayed, OtherFiles(dirs))][LedgerTree := LedgerDir(ledger)][StateTree := StateDir(index)]
  }

  lemma OverwriteTouchesSaved(start: Tree, replayed: Bible, ledger: map<Account, seq<Row>>, index: map<string, Value>)
    ensures OnlyTouchedSaved(start, start.(dirs := OverwrittenBy(start.dirs, replayed, ledger, index)))
  {
  }

  /** The tree after a commit: the booked bible beside its unmanaged files, its ledger, its index, and nothing else changed. */
  ghost predicate HoldsBook(was: map<Subtree, Dir>, now: map<Subtree, Dir>, after: Books,
                            index: (Bible, seq<Chapter>) -> map<string, Value>, cs: seq<Chapter>)
  {
    && (forall n :: n !in MUTABLE ==> (n in now <==> n in was))
    && (forall n :: n in now && n !in MUTABLE ==> now[n] == was[n])
    && BibleTree in now && now[BibleTree] == BibleDir(BibleOf(after), OtherFiles(was))
    && StateTree in now && now[StateTree] == StateDir(index(BibleOf(after), cs))
    && LedgerTree in now && now[LedgerTree].LedgerDir? && LedgerHolds(now[LedgerTree].ledger, after.postings)
  }

  lemma OverwrittenHolds(was: map<Subtree, Dir>, after: Books, ledger: map<Account, seq<Row>>,
                         index: (Bible, seq<Chapter>) -> map<string, Value>, cs: seq<Chapter>)
    requires LedgerHolds(ledger, after.postings)
    ensures HoldsBook(was, OverwrittenBy(was, BibleOf(after), ledger, index(BibleOf(after), cs)), after, index, cs)
  {
  }

  /** The book over genesis, up to the first record that declares another chapter. */
  method Replay(ls: Listing, genesis: Bible, cs: seq<Chapter>)
    returns (replayed: Bible, ledger: map<Account, seq<Row>>, warnings: seq<Warning>, error: Option<Refusal>)
    ensures var run := BookAll(BooksOf(genesis), ls, cs[..FirstMisdeclared(cs)]);
            replayed == BibleOf(run.books) && error == run.error && LedgerHolds(ledger, run.books.postings)
  {
    var tree := new NovelTree.NovelTree(genesis.files, genesis.world, genesis.threads, genesis.arcs);
    warnings, error := tree.ReplayAll(ls, cs[..FirstMisdeclared(cs)]);
    replayed, ledger := Bible(tree.files, tree.world, tree.threads, tree.arcs), tree.ledger;
  }

  /** Every account's file holds its rows, in order. */
  ghost predicate LedgerHolds(ledger: map<Account, seq<Row>>, postings: seq<Posting>) {
    forall a :: NovelTree.RowsAt(ledger, a) == LedgerOf(postings, a)
  }

  function Judge(error: Option<Refusal>, stopped: nat, count: nat, drift: set<Difference>, dryRun: bool, force: bool): Ending {
    if error.Some? then Refused(error.value)
    else if stopped < count then WrongChapter(stopped)
    else if dryRun then DryRun(drift)
    else if drift != {} && !force then Drifted(drift)
    else Committed
  }

  /******* The records on disk *******/

  ghost predicate NamesThem(records: map<string, Chapter>, names: seq<string>, cs: seq<Chapter>) {
    && |names| == |cs| && (forall x :: x in names <==> x in records)
    && (forall i, j :: 0 <= i < j < |names| ==> names[i] != names[j])
    && forall i :: 0 <= i < |names| ==> cs[i] == records[names[i]]
  }

  /** All records, each once, by ascending number. */
  ghost predicate IsWritten(chapters: Option<map<string, Chapter>>, cs: seq<Chapter>) {
    && (forall i, j :: 0 <= i < j < |cs| ==> cs[i].n <= cs[j].n)
    && match chapters
       case None => cs == []
       case Some(records) => exists names :: NamesThem(records, names, cs)
  }

  /** Some name with the least number. */
  method LeastOf(records: map<string, Chapter>, left: set<string>) returns (least: string)
    requires left != {} && left <= records.Keys
    ensures least in left && forall x :: x in left ==> records[least].n <= records[x].n
  {
    least :| least in left;
    var todo := left - {least};
    while todo != {}
      invariant todo <= left && least in left
      invariant forall x :: x in left && x !in todo ==> records[least].n <= records[x].n
      decreases |todo|
    {
      var x :| x in todo;
      if records[x].n < records[least].n {
        least := x;
      }
      todo := todo - {x};
    }
  }

  /** Listed so far: the least numbers, in order, and none of what is left. */
  ghost predicate ListedSoFar(records: map<string, Chapter>, names: seq<string>, cs: seq<Chapter>, left: set<string>) {
    && left <= records.Keys && |names| == |cs|
    && (forall x :: x in names <==> x in records && x !in left)
    && (forall i, j :: 0 <= i < j < |names| ==> names[i] != names[j])
    && (forall i :: 0 <= i < |names| ==> names[i] in records && cs[i] == records[names[i]])
    && (forall i, j :: 0 <= i < j < |cs| ==> cs[i].n <= cs[j].n)
    && (forall i, x :: 0 <= i < |cs| && x in left ==> cs[i].n <= records[x].n)
  }

  lemma ListNext(records: map<string, Chapter>, names: seq<string>, cs: seq<Chapter>, left: set<string>, least: string)
    requires ListedSoFar(records, names, cs, left) && least in left
    requires forall x :: x in left ==> records[least].n <= records[x].n
    ensures ListedSoFar(records, names + [least], cs + [records[least]], left - {least})
  {
    assert least !in names;
  }

  method InNumberOrder(records: map<string, Chapter>) returns (names: seq<string>, cs: seq<Chapter>)
    ensures NamesThem(records, names, cs) && forall i, j :: 0 <= i < j < |cs| ==> cs[i].n <= cs[j].n
  {
    names, cs := [], [];
    var left := records.Keys;
    while left != {}
      invariant ListedSoFar(records, names, cs, left)
      decreases |left|
    {
      var least := LeastOf(records, left);
      ListNext(records, names, cs, left, least);
      names, cs, left := names + [least], cs + [records[least]], left - {least};
    }
  }

  function BooksOf(b: Bible): Books {
    Books(b.files, b.world, b.threads, b.arcs, [])
  }

  function OtherFiles(dirs: map<Subtree, Dir>): map<string, string> {
    if BibleTree in dirs && dirs[BibleTree].BibleDir? then dirs[BibleTree].other else map[]
  }

  /** The first record that declares another chapter than its directory. */
  function FirstMisdeclared(cs: seq<Chapter>): (i: nat)
    ensures i <= |cs|
    ensures forall j :: 0 <= j < i ==> cs[j].declared == cs[j].n
    ensures i < |cs| ==> cs[i].declared != cs[i].n
  {
    if cs == [] || cs[0].declared != cs[0].n then 0 else 1 + FirstMisdeclared(cs[1..])
  }

  /** How a replay migration ends, decided by the records and the comparison alone. */
  function EndingOf(ls: Listing, genesis: Bible, cs: seq<Chapter>, compare: Bible -> set<Difference>, dryRun: bool, force: bool): Ending {
    var i := FirstMisdeclared(cs);
    var run := BookAll(BooksOf(genesis), ls, cs[..i]);
    Judge(run.error, i, |cs|, compare(BibleOf(run.books)), dryRun, force)
  }

  /**
   A replay migration commits exactly when it is no dry run, every record declares its own
   chapter and is accepted, and the replayed bible compares without difference or is forced.
   */
  lemma CommitsIff(ls: Listing, genesis: Bible, cs: seq<Chapter>, compare: Bible -> set<Difference>, dryRun: bool, force: bool)
    ensures EndingOf(ls, genesis, cs, compare, dryRun, force).Committed? <==>
            && !dryRun
            && (forall i :: 0 <= i < |cs| ==> cs[i].declared == cs[i].n)
            && BookAll(BooksOf(genesis), ls, cs).error.None?
            && (force || compare(BibleOf(BookAll(BooksOf(genesis), ls, cs).books)) == {})
  {
    var i := FirstMisdeclared(cs);
    if i == |cs| {
      assert cs[..i] == cs;
      var run := BookAll(BooksOf(genesis), ls, cs);
      JudgedCommitted(run.error, i, |cs|, compare(BibleOf(run.books)), dryRun, force);
    } else {
      assert cs[i].declared != cs[i].n;
      var run := BookAll(BooksOf(genesis), ls, cs[..i]);
      JudgedCommitted(run.error, i, |cs|, compare(BibleOf(run.books)), dryRun, force);
    }
  }

  lemma JudgedCommitted(error: Option<Refusal>, i: nat, n: nat, drift: set<Difference>, dryRun: bool, force: bool)
    requires i <= n
    ensures Judge(error, i, n, drift, dryRun, force).Committed? <==>
            !dryRun && i == n && error.None? && (force || drift == {})
  {
  }

  /******* The whole migration *******/

  function BibleIn(dirs: map<Subtree, Dir>): Bible {
    if BibleTree in dirs && dirs[BibleTree].BibleDir? then dirs[BibleTree].bible else Bible(map[], map[], [], [])
  }

  function LedgerIn(dirs: map<Subtree, Dir>): map<Account, seq<Row>> {
    if LedgerTree in dirs && dirs[LedgerTree].LedgerDir? then dirs[LedgerTree].ledger else map[]
  }

  /** The entities the strip rewrites: those with a derived row, and those with a ledger file. */
  function Touched(legacy: Bible, ledger: map<Account, seq<Row>>, ls: Listing, cs: seq<Chapter>): set<Account> {
    var cards, ids := Load(legacy.files, ls), NodeIdsOf(legacy.arcs);
    var sheet := BlankSheet(cards.at.Keys - CreatedNames(cs), ThreadNames(legacy.threads) - RegisteredNames(cs), ids);
    (set p | p in Derive(sheet, FindProtagonist(cards), ids, cs).rows :: p.account) +
    (set a | a in ledger && ledger[a] != [])
  }

  /** The state a replay has to reproduce: the legacy bible without its history. */
  function ExpectedState(dirs: map<Subtree, Dir>, ls: Listing, cs: seq<Chapter>): Value {
    var legacy := BibleIn(dirs);
    Snapshot(StripBible(legacy, Touched(legacy, LedgerIn(dirs), ls, cs)), ls)
  }

  /** The entities the strip rewrites, from the derived rows and the ledger files. */
  method FindTouched(legacy: Bible, ledger: map<Account, seq<Row>>, ls: Listing, cs: seq<Chapter>) returns (touched: set<Account>)
    ensures touched == Touched(legacy, ledger, ls, cs)
  {
    var cards := Load(legacy.files, ls);
    var rows := JournalLedgerRows(cards, legacy.arcs, cards.at.Keys - CreatedNames(cs),
                                  ThreadNames(legacy.threads) - RegisteredNames(cs), cs);
    touched := (set p | p in rows :: p.account) + (set a | a in ledger && ledger[a] != []);
  }

  /** Strip a copy and take its snapshot. */
  method ExpectedOf(dirs: map<Subtree, Dir>, ls: Listing, cs: seq<Chapter>) returns (expected: Value)
    ensures expected == ExpectedState(dirs, ls, cs)
  {
    var legacy := BibleIn(dirs);
    var touched := FindTouched(legacy, LedgerIn(dirs), ls, cs);
    var copy := new LegacyBible(legacy);
    copy.StripLegacyHistory(touched);
    expected := Snapshot(Bible(copy.files, copy.world, copy.threads, copy.arcs), ls);
  }

  /**
   The migration as a caller sees it: it replays the records on disk, anything but a commit leaves
   the tree as it was, and an unforced commit leaves the normalised state equal to the stripped
   legacy bible.
   */
  method MigrateReplay(ws: Workspace, ls: Listing, genesis: Bible,
                       index: (Bible, seq<Chapter>) -> map<string, Value>, dryRun: bool, force: bool)
    returns (ending: Ending, cs: seq<Chapter>)
    modifies ws
    ensures IsWritten(old(ws.chapters), cs)
    ensures !ending.Committed? ==> ws.Contents() == old(ws.Contents())
    ensures ending.Committed? ==> !dryRun && ws.chapters == old(ws.chapters)
    ensures ending.Committed? && !force ==>
              SameValue(old(ExpectedState(ws.dirs, ls, cs)), Snapshot(BibleIn(ws.dirs), ls))
    ensures ending.Committed? ==> BibleIn(ws.dirs) == BibleOf(BookAll(BooksOf(genesis), ls, cs).books)
  {
    cs := ws.WrittenChapters();
    var expected := ExpectedOf(ws.dirs, ls, cs);
    var warnings;
    ending, warnings := ws.ReplayInto(ls, genesis, cs, Comparison(expected, ls), index, dryRun, force);
    CommitsIff(ls, genesis, cs, Comparison(expected, ls), dryRun, force);
    ComparesEqualIff(expected, ls, BibleIn(ws.dirs));
  }

  /** A replayed bible against the expected state. */
  function Comparison(expected: Value, ls: Listing): Bible -> set<Difference> {
    b => Diff(expected, Snapshot(b, ls), [])
  }

  lemma ComparesEqualIff(expected: Value, ls: Listing, b: Bible)
    ensures Comparison(expected, ls)(b) == {} <==> SameValue(expected, Snapshot(b, ls))
  {
    DiffEmptyIff(expected, Snapshot(b, ls), []);
  }
}
