/**
 The novel's durable state: current-state cards (the bible) beside an append-only ledger.
 Every function folds over its input from the left, so that `F(xs)` is a step after
 `F(xs[..|xs| - 1])`; the loops of class `NovelTree` keep exactly these prefixes.
 */
module NovelState {
  import opened Values

  /******* Entities *******/

  type Card = map<string, Value>
  type World = map<string, Value>

  /** The order in which a directory with the given file names is listed. */
  type Listing = set<string> -> seq<string>

  datatype Gate = Gate(arc: string, node: string)
  datatype Hint = Hint(chapter: int, text: string)
  datatype Note = Note(chapter: int, text: string)

  datatype Thread = Thread(
    name: string, status: Option<string>, gate: Option<Gate>,
    hintCount: Option<int>, lastHint: Option<Hint>, hints: Option<seq<Hint>>,
    introduced: Option<int>, resolution: Option<Note>, abandonReason: Option<string>,
    other: map<string, Value>)

  datatype NodeStatus = Done | Undone(text: string)
  datatype ArcStatus = Completed | OtherStatus(text: string)

  datatype Node = Node(id: string, status: NodeStatus, completed: Option<int>)

  datatype Arc = Arc(
    name: string, nodes: seq<Node>, status: Option<ArcStatus>, endChapter: Option<int>,
    latestNote: Option<Note>, progressNotes: Option<seq<Note>>, other: map<string, Value>)

  /******* Journals *******/

  /** The four known entity types, and any other text. */
  datatype EntityType = Character | Protagonist | Faction | WorldSetting | OtherType(text: string)
  datatype ThreadAction = ToRegister | ToHint | ToResolve | ToAbandon | OtherAction(text: string)

  datatype Event = Event(entityType: EntityType, name: string, changes: map<string, Value>,
                         reason: string, create: bool)
  datatype Appearance = Appearance(name: string, importance: Option<Value>)
  datatype ThreadUpdate = ThreadUpdate(name: string, action: ThreadAction, detail: string,
                                       gate: Option<Gate>, other: map<string, Value>)
  datatype ArcUpdate = ArcUpdate(name: string, nodesCompleted: seq<string>, notes: string)
  datatype Chapter = Chapter(n: int, declared: int, events: seq<Event>, appearances: seq<Appearance>,
                             threadUpdates: seq<ThreadUpdate>, arcUpdates: seq<ArcUpdate>)

  /******* Ledger *******/

  datatype Kind = Characters | Factions | Settings | Threads | Arcs
  datatype Account = Account(kind: Kind, entity: string)
  datatype Row =
    | CardRow(chapter: int, created: bool, changes: map<string, Value>, reason: string)
    | ChangeRow(chapter: int, changes: map<string, Value>, reason: string)
    | AppearanceRow(chapter: int, importance: Option<Value>)
    | ThreadRow(chapter: int, action: ThreadAction, detail: string)
    | NodeRow(chapter: int, node: string)
    | NoteRow(chapter: int, note: string)
  datatype Posting = Posting(account: Account, row: Row)

  /** One entity's ledger file: its rows, in the order they were appended. */
  function LedgerOf(postings: seq<Posting>, account: Account): seq<Row> {
    if |postings| == 0 then []
    else
      var p := postings[|postings| - 1];
      LedgerOf(postings[..|postings| - 1], account) + if p.account == account then [p.row] else []
  }

  lemma {:induction false} LedgerOfConcat(p: seq<Posting>, q: seq<Posting>, account: Account)
    ensures LedgerOf(p + q, account) == LedgerOf(p, account) + LedgerOf(q, account)
  {
    if |q| == 0 {
      assert p + q == p;
    } else {
      LedgerOfConcat(p, q[..|q| - 1], account);
      assert (p + q)[..|p + q| - 1] == p + q[..|q| - 1];
    }
  }

  lemma LedgerOfLast(p: seq<Posting>, last: Posting, account: Account)
    ensures LedgerOf(p + [last], account) == LedgerOf(p, account) + if last.account == account then [last.row] else []
  {
    assert (p + [last])[..|p|] == p;
  }

  /** Everything a booked chapter changes; `postings` is the whole ledger in write order. */
  datatype Books = Books(files: map<string, Card>, world: World, threads: seq<Thread>,
                         arcs: seq<Arc>, postings: seq<Posting>)

  datatype Warning =
    | DeadChanged(name: string) | PowerRegressed(name: string) | UnknownAppearance(name: string)
    | UnknownThread(name: string) | ResolvedEarly(name: string) | UnknownAction(name: string)
    | UnknownArc(name: string) | UnknownNode(name: string, node: string)
    | AlreadyDone(name: string, node: string) | OutOfOrder(name: string, node: string)

  datatype Refusal =
    | UnknownType(index: nat) | MissingName(index: nat) | IsAlias(index: nat)
    | NoCard(index: nat) | NoFaction(index: nat)
    | BadShape  // the source raises a type or attribute error on a malformed store

  /******* Cards *******/

  const TRANSIENT_PREFIX := "\U{672C}\U{7AE0}"

  /** A key that describes one chapter only: journal material, never a balance. */
  predicate IsTransient(key: string) {
    TRANSIENT_PREFIX <= key || "this_chapter" <= key
  }

  /** Current-state write: last value wins, null clears, transient keys are skipped. */
  function Overwritten(entry: Card, changes: map<string, Value>): Card {
    map k | k in entry.Keys + changes.Keys &&
            (if k in changes && !IsTransient(k) then changes[k] != Null else k in entry) ::
      if k in changes && !IsTransient(k) then changes[k] else entry[k]
  }

  /** The characters in memory: a dictionary and its iteration order. */
  datatype Chars = Chars(order: seq<string>, at: map<string, Card>)

  function Put(c: Chars, name: string, card: Card): Chars {
    Chars(if name in c.at then c.order else c.order + [name], c.at[name := card])
  }

  function NameOf(stem: string, card: Card): string {
    match Get(card, "name")
    case Str(s) => if s != "" then s else stem
    case _ => stem
  }

  function Named(name: string, card: Card): Card {
    if "name" in card then card else card["name" := Str(name)]
  }

  /** Canonical name to card; the key is the card's own name, else its file stem. */
  function LoadFrom(files: map<string, Card>, stems: seq<string>): Chars {
    if |stems| == 0 then Chars([], map[])
    else
      var rest := LoadFrom(files, stems[..|stems| - 1]);
      var stem := stems[|stems| - 1];
      if stem !in files then rest
      else
        var name := NameOf(stem, files[stem]);
        Put(rest, name, Named(name, files[stem]))
  }

  function Load(files: map<string, Card>, ls: Listing): Chars {
    LoadFrom(files, ls(files.Keys))
  }

  predicate IsProtagonist(card: Card) {
    Truthy(Get(card, "is_protagonist")) || Get(card, "role") == Str("protagonist")
  }

  function FirstProtagonist(order: seq<string>, at: map<string, Card>): Option<string> {
    if order == [] then None
    else if order[0] in at && IsProtagonist(at[order[0]]) then Some(order[0])
    else FirstProtagonist(order[1..], at)
  }

  function FindProtagonist(c: Chars): Option<string> {
    FirstProtagonist(c.order, c.at)
  }

  /** The name an entry is booked under: an unknown protagonist entry means the protagonist. */
  function Resolve(entityType: EntityType, name: string, known: set<string>, protagonist: Option<string>): string {
    if entityType == Protagonist && name !in known && protagonist.Some? && protagonist.value != ""
    then protagonist.value else name
  }

  /******* Validation *******/

  predicate AliasesIterable(v: Value) {
    !Truthy(v) || v.List? || v.Str? || v.Dict?
  }

  function AliasTexts(v: Value): set<string> {
    match v
    case List(l) => set x | x in l && x.Str? :: Strip(x.s)
    case Str(s) => set c | c in s :: Strip([c])
    case Dict(m) => set k | k in m :: Strip(k)
    case _ => {}
  }

  function AliasNames(c: Chars): set<string> {
    set n, a | n in c.at && a in AliasTexts(Get(c.at[n], "aliases")) && a != "" && a !in c.at :: a
  }

  /** The names go into a set, so a list must not hold lists or mappings. */
  predicate FactionsIterable(v: Value) {
    match v
    case List(l) => forall x :: x in l ==> !x.List? && !x.Dict?
    case Str(_) => true
    case Dict(_) => true
    case _ => !Truthy(v)
  }

  function FactionNames(world: World): set<string> {
    match Get(world, "factions")
    case List(l) => set x | x in l && x.Str? :: x.s
    case Str(s) => set c | c in s :: [c]
    case Dict(m) => m.Keys
    case _ => {}
  }

  datatype Known = Known(chars: set<string>, factions: set<string>)

  predicate OnCards(ev: Event) {
    ev.entityType == Character || ev.entityType == Protagonist
  }

  function ValidateEvent(c: Chars, k: Known, ev: Event, index: nat): Result<Known, Refusal> {
    if ev.entityType.OtherType? then Err(UnknownType(index))
    else if ev.name == "" then Err(MissingName(index))
    else if OnCards(ev) then
      var name := Resolve(ev.entityType, ev.name, k.chars, FindProtagonist(c));
      if name in k.chars then Ok(k)
      else if name in AliasNames(c) then Err(IsAlias(index))
      else if !ev.create then Err(NoCard(index))
      else Ok(k.(chars := k.chars + {name}))
    else if ev.entityType == Faction && ev.name !in k.factions then
      if !ev.create then Err(NoFaction(index)) else Ok(k.(factions := k.factions + {ev.name}))
    else Ok(k)
  }

  /** The validator's simulation of the name sets, over a list of entries. */
  function Simulate(c: Chars, k: Known, evs: seq<Event>): Result<Known, Refusal> {
    if |evs| == 0 then Ok(k)
    else
      match Simulate(c, k, evs[..|evs| - 1])
      case Err(e) => Err(e)
      case Ok(k') => ValidateEvent(c, k', evs[|evs| - 1], |evs| - 1)
  }

  predicate ReadableStore(c: Chars, world: World) {
    && (forall n :: n in c.at ==> AliasesIterable(Get(c.at[n], "aliases")))
    && FactionsIterable(Get(world, "factions"))
  }

  function Validate(c: Chars, world: World, evs: seq<Event>): Result<Known, Refusal> {
    if !ReadableStore(c, world) then Err(BadShape)
    else Simulate(c, Known(c.at.Keys, FactionNames(world)), evs)
  }

  /******* Posting events *******/

  /** The state of the posting loop: cards in memory, books on disk, the error that stopped it. */
  datatype Desk = Desk(mem: Chars, books: Books, warnings: seq<Warning>, error: Option<Refusal>)

  function EventWarnings(name: string, card: Card, changes: map<string, Value>): seq<Warning> {
    var old_p, new_p := Numeric(Get(card, "power_level")), Numeric(Get(changes, "power_level"));
    (if Get(card, "status") == Str("dead") && Get(changes, "status") != Str("alive")
     then [DeadChanged(name)] else []) +
    (if old_p.Some? && new_p.Some? && new_p.value < old_p.value then [PowerRegressed(name)] else [])
  }

  function OpeningCard(name: string): Card {
    map["name" := Str(name), "status" := Str("alive")]
  }

  /** The card after a first entry: the entering state is kept as its opening balance. */
  function CreatedCard(name: string, changes: map<string, Value>): Card {
    var card := Overwritten(OpeningCard(name), changes);
    card["initial" := Dict(card - {"initial", "progression"})]
  }

  function ChangedCard(card: Card, changes: map<string, Value>): Card {
    Overwritten(card - {"progression"}, changes)
  }

  function PostCard(d: Desk, ev: Event, ch: int): Desk {
    var name := Resolve(ev.entityType, ev.name, d.mem.at.Keys, FindProtagonist(d.mem));
    var created := name !in d.mem.at;
    var before := if created then OpeningCard(name) else d.mem.at[name];
    var card := if created then CreatedCard(name, ev.changes) else ChangedCard(before, ev.changes);
    Desk(Put(d.mem, name, card),
         d.books.(files := d.books.files[name := card],
                  postings := d.books.postings +
                    [Posting(Account(Characters, name), CardRow(ch, created, ev.changes, ev.reason))]),
         d.warnings + EventWarnings(name, before, ev.changes), d.error)
  }

  function PostFaction(d: Desk, ev: Event, ch: int): Desk {
    var factions := if "factions" in d.books.world then d.books.world["factions"] else Dict(map[]);
    if !factions.Dict? then d.(error := Some(BadShape))
    else
      var entry := if ev.name in factions.fields then factions.fields[ev.name] else Dict(map[]);
      if !entry.Dict? then d.(error := Some(BadShape))
      else
        var entry' := Dict(Overwritten(entry.fields - {"progression"}, ev.changes));
        d.(books := d.books.(
             world := d.books.world["factions" := Dict(factions.fields[ev.name := entry'])],
             postings := d.books.postings +
               [Posting(Account(Factions, ev.name), ChangeRow(ch, ev.changes, ev.reason))]))
  }

  function SettingEntry(settings: map<string, Value>, ev: Event): Value {
    var entry := if ev.name in settings then settings[ev.name] else Dict(map[]);
    if !entry.Dict? then Dict(ev.changes)
    else
      var fields := Overwritten(entry.fields, ev.changes);
      Dict(if ev.name in settings then fields
           else fields["initial" := Dict(map k | k in ev.changes && ev.changes[k] != Null && !IsTransient(k)
                                         :: ev.changes[k])])
  }

  function PostSetting(d: Desk, ev: Event, ch: int): Desk {
    var settings := if "settings" in d.books.world then d.books.world["settings"] else Dict(map[]);
    if !settings.Dict? then d.(error := Some(BadShape))
    else
      d.(books := d.books.(
           world := d.books.world["settings" :=
             Dict(settings.fields[ev.name := SettingEntry(settings.fields, ev)])],
           postings := d.books.postings +
             [Posting(Account(Settings, ev.name), ChangeRow(ch, ev.changes, ev.reason))]))
  }

  function PostEvent(d: Desk, ev: Event, ch: int): Desk {
    if d.error.Some? then d
    else if OnCards(ev) then PostCard(d, ev, ch)
    else if ev.entityType == Faction then PostFaction(d, ev, ch)
    else PostSetting(d, ev, ch)
  }

  function PostEvents(d: Desk, evs: seq<Event>, ch: int): Desk {
    if |evs| == 0 then d
    else PostEvent(PostEvents(d, evs[..|evs| - 1], ch), evs[|evs| - 1], ch)
  }

  datatype Outcome = Outcome(books: Books, warnings: seq<Warning>, error: Option<Refusal>)

  function OpenDesk(b: Books, ls: Listing): Desk {
    Desk(Load(b.files, ls), b, [], None)
  }

  function BookEvents(b: Books, ls: Listing, evs: seq<Event>, ch: int): Outcome {
    match Validate(Load(b.files, ls), b.world, evs)
    case Err(e) => Outcome(b, [], Some(e))
    case Ok(_) =>
      var d := PostEvents(OpenDesk(b, ls), evs, ch);
      Outcome(d.books, d.warnings, d.error)
  }

  /******* Appearances *******/

  function AppearedCard(card: Card, ch: int): Card {
    var c := (card - {"progression"})["last_appearance" := Int(ch)];
    if Truthy(Get(c, "first_appearance")) then c else c["first_appearance" := Int(ch)]
  }

  function LogAppearance(d: Desk, ap: Appearance, ch: int): Desk {
    if ap.name !in d.mem.at then d.(warnings := d.warnings + [UnknownAppearance(ap.name)])
    else
      var card := AppearedCard(d.mem.at[ap.name], ch);
      Desk(Put(d.mem, ap.name, card),
           d.books.(files := d.books.files[ap.name := card],
                    postings := d.books.postings +
                      [Posting(Account(Characters, ap.name), AppearanceRow(ch, ap.importance))]),
           d.warnings, d.error)
  }

  function LogAppearances(d: Desk, aps: seq<Appearance>, ch: int): Desk {
    if |aps| == 0 then d
    else LogAppearance(LogAppearances(d, aps[..|aps| - 1], ch), aps[|aps| - 1], ch)
  }

  /******* Plot nodes and threads *******/

  /** The last arc of that name: a dictionary built from the list keeps the last one. */
  function LastArc(arcs: seq<Arc>, name: string): (i: int)
    ensures -1 <= i < |arcs|
    ensures i >= 0 ==> arcs[i].name == name
    ensures forall j :: i < j < |arcs| ==> arcs[j].name != name
  {
    if |arcs| == 0 then -1
    else if arcs[|arcs| - 1].name == name then |arcs| - 1
    else LastArc(arcs[..|arcs| - 1], name)
  }

  function LastNode(nodes: seq<Node>, id: string): (i: int)
    ensures -1 <= i < |nodes|
    ensures i >= 0 ==> nodes[i].id == id
    ensures forall j :: i < j < |nodes| ==> nodes[j].id != id
  {
    if |nodes| == 0 then -1
    else if nodes[|nodes| - 1].id == id then |nodes| - 1
    else LastNode(nodes[..|nodes| - 1], id)
  }

  function LastThread(threads: seq<Thread>, name: string): (i: int)
    ensures -1 <= i < |threads|
    ensures i >= 0 ==> threads[i].name == name
    ensures forall j :: i < j < |threads| ==> threads[j].name != name
  {
    if |threads| == 0 then -1
    else if threads[|threads| - 1].name == name then |threads| - 1
    else LastThread(threads[..|threads| - 1], name)
  }

  /** The first node that is not done, or the number of nodes: derived, never stored. */
  function Frontier(nodes: seq<Node>): (i: nat)
    ensures i <= |nodes|
    ensures forall j :: 0 <= j < i ==> nodes[j].status == Done
    ensures i < |nodes| ==> nodes[i].status != Done
  {
    if nodes == [] || nodes[0].status != Done then 0 else 1 + Frontier(nodes[1..])
  }

  /** The answer of the first node with that id in an arc of that name. */
  function NodeDoneIn(nodes: seq<Node>, id: string): Option<bool> {
    if nodes == [] then None
    else if nodes[0].id == id then Some(nodes[0].status == Done)
    else NodeDoneIn(nodes[1..], id)
  }

  predicate NodeDone(arcs: seq<Arc>, arc: string, id: string) {
    if arcs == [] then false
    else if arcs[0].name == arc && NodeDoneIn(arcs[0].nodes, id).Some? then NodeDoneIn(arcs[0].nodes, id).value
    else NodeDone(arcs[1..], arc, id)
  }

  predicate Revealable(t: Thread, arcs: seq<Arc>) {
    t.gate.Some? ==> NodeDone(arcs, t.gate.value.arc, t.gate.value.node)
  }

  /** Old threads carried their hints in the bible; fold them into the summary. */
  function Absorbed(t: Thread): Thread {
    match t.hints
    case None => t
    case Some(h) =>
      if h == [] then t.(hints := None)
      else t.(hints := None, hintCount := Some(|h|), lastHint := Some(h[|h| - 1]))
  }

  datatype ThreadDesk = ThreadDesk(threads: seq<Thread>, postings: seq<Posting>, warnings: seq<Warning>)

  function NewThread(up: ThreadUpdate, ch: int): Thread {
    Thread(up.name, Some("open"), up.gate, None, None, None, Some(ch), None, None, up.other)
  }

  function ActedThread(t: Thread, up: ThreadUpdate, ch: int): Thread {
    var t := Absorbed(t);
    if up.action == ToHint then
      t.(hintCount := Some((if t.hintCount.Some? then t.hintCount.value else 0) + 1),
         lastHint := Some(Hint(ch, up.detail)))
    else if up.action == ToResolve then
      t.(status := Some("resolved"), resolution := Some(Note(ch, up.detail)))
    else if up.action == ToAbandon then
      t.(status := Some("abandoned"), abandonReason := Some(up.detail))
    else t
  }

  predicate IsBookedAction(action: ThreadAction) {
    action == ToHint || action == ToResolve || action == ToAbandon
  }

  function UpdateThread(d: ThreadDesk, arcs: seq<Arc>, up: ThreadUpdate, ch: int): ThreadDesk {
    var i := LastThread(d.threads, up.name);
    if i < 0 then
      if up.action == ToRegister then
        ThreadDesk(d.threads + [NewThread(up, ch)],
                   d.postings + [Posting(Account(Threads, up.name), ThreadRow(ch, ToRegister, up.detail))],
                   d.warnings)
      else d.(warnings := d.warnings + [UnknownThread(up.name)])
    else
      var early := up.action == ToResolve && !Revealable(d.threads[i], arcs);
      ThreadDesk(d.threads[i := ActedThread(d.threads[i], up, ch)],
                 if IsBookedAction(up.action)
                 then d.postings + [Posting(Account(Threads, up.name), ThreadRow(ch, up.action, up.detail))]
                 else d.postings,
                 d.warnings + (if early then [ResolvedEarly(up.name)]
                               else if IsBookedAction(up.action) then [] else [UnknownAction(up.name)]))
  }

  function UpdateThreads(d: ThreadDesk, arcs: seq<Arc>, ups: seq<ThreadUpdate>, ch: int): ThreadDesk {
    if |ups| == 0 then d
    else UpdateThread(UpdateThreads(d, arcs, ups[..|ups| - 1], ch), arcs, ups[|ups| - 1], ch)
  }

  datatype ArcDesk = ArcDesk(arcs: seq<Arc>, postings: seq<Posting>, warnings: seq<Warning>)

  /** One declared completion, booked to the arc at index `a`. */
  function CompleteNode(d: ArcDesk, a: nat, id: string, ch: int): (r: ArcDesk)
    requires a < |d.arcs|
    ensures |r.arcs| == |d.arcs|
  {
    var arc := d.arcs[a];
    var j := LastNode(arc.nodes, id);
    if j < 0 then d.(warnings := d.warnings + [UnknownNode(arc.name, id)])
    else if arc.nodes[j].status == Done then d.(warnings := d.warnings + [AlreadyDone(arc.name, id)])
    else
      var f := Frontier(arc.nodes);
      var warned := if f < |arc.nodes| && arc.nodes[f].id != id then [OutOfOrder(arc.name, id)] else [];
      ArcDesk(d.arcs[a := arc.(nodes := arc.nodes[j := arc.nodes[j].(status := Done, completed := Some(ch))])],
              d.postings + [Posting(Account(Arcs, arc.name), NodeRow(ch, id))],
              d.warnings + warned)
  }

  function CompleteNodes(d: ArcDesk, a: nat, ids: seq<string>, ch: int): (r: ArcDesk)
    requires a < |d.arcs|
    ensures |r.arcs| == |d.arcs|
  {
    if |ids| == 0 then d
    else CompleteNode(CompleteNodes(d, a, ids[..|ids| - 1], ch), a, ids[|ids| - 1], ch)
  }

  function AddNote(d: ArcDesk, a: nat, notes: string, ch: int): (r: ArcDesk)
    requires a < |d.arcs|
    ensures |r.arcs| == |d.arcs|
  {
    if notes == "" then d
    else
      d.(arcs := d.arcs[a := d.arcs[a].(latestNote := Some(Note(ch, notes)))],
         postings := d.postings + [Posting(Account(Arcs, d.arcs[a].name), NoteRow(ch, notes))])
  }

  function Closed(arc: Arc, ch: int): Arc {
    if arc.nodes != [] && Frontier(arc.nodes) == |arc.nodes| && arc.status != Some(Completed)
    then arc.(status := Some(Completed), endChapter := Some(ch)) else arc
  }

  function UpdateArc(d: ArcDesk, up: ArcUpdate, ch: int): ArcDesk {
    var a := LastArc(d.arcs, up.name);
    if a < 0 then d.(warnings := d.warnings + [UnknownArc(up.name)])
    else
      var d' := AddNote(CompleteNodes(d, a, up.nodesCompleted, ch), a, up.notes, ch);
      d'.(arcs := d'.arcs[a := Closed(d'.arcs[a], ch)])
  }

  function UpdateArcs(d: ArcDesk, ups: seq<ArcUpdate>, ch: int): ArcDesk {
    if |ups| == 0 then d
    else UpdateArc(UpdateArcs(d, ups[..|ups| - 1], ch), ups[|ups| - 1], ch)
  }

  /******* A chapter, a book *******/

  function BookAppearances(b: Books, ls: Listing, aps: seq<Appearance>, ch: int): Outcome {
    var d := LogAppearances(OpenDesk(b, ls), aps, ch);
    Outcome(d.books, d.warnings, d.error)
  }

  function BookThreads(b: Books, ups: seq<ThreadUpdate>, ch: int): Outcome {
    var d := UpdateThreads(ThreadDesk(b.threads, b.postings, []), b.arcs, ups, ch);
    Outcome(b.(threads := d.threads, postings := d.postings), d.warnings, None)
  }

  function BookArcs(b: Books, ups: seq<ArcUpdate>, ch: int): Outcome {
    var d := UpdateArcs(ArcDesk(b.arcs, b.postings, []), ups, ch);
    Outcome(b.(arcs := d.arcs, postings := d.postings), d.warnings, None)
  }

  /** Events, appearances, threads and arcs, in this order; a refusal stops the chapter. */
  function BookChapter(b: Books, ls: Listing, c: Chapter): Outcome {
    var ev := BookEvents(b, ls, c.events, c.n);
    if ev.error.Some? then ev
    else
      var ap := BookAppearances(ev.books, ls, c.appearances, c.n);
      var th := BookThreads(ap.books, c.threadUpdates, c.n);
      var ar := BookArcs(th.books, c.arcUpdates, c.n);
      Outcome(ar.books, ev.warnings + ap.warnings + th.warnings + ar.warnings, None)
  }

  function BookAll(b: Books, ls: Listing, cs: seq<Chapter>): Outcome {
    if |cs| == 0 then Outcome(b, [], None)
    else
      var prev := BookAll(b, ls, cs[..|cs| - 1]);
      if prev.error.Some? then prev
      else
        var next := BookChapter(prev.books, ls, cs[|cs| - 1]);
        next.(warnings := prev.warnings + next.warnings)
  }
}
