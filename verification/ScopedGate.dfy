/**
 Scope selection: which authored scenarios a diff can reach. A worklist closure over the
 union of the two endpoint graphs decides what may be left out; every doubt selects all.
 */
module ScopedGate {
  import opened Values
  import opened GateCoverage

  /******* The closure *******/

  type Edges = map<string, set<string>>

  function Targets(edges: Edges, node: string): set<string> {
    if node in edges then edges[node] else {}
  }

  /** A walk along the edges. */
  ghost predicate IsWalk(edges: Edges, p: seq<string>) {
    p != [] && (|p| > 1 ==> p[1] in Targets(edges, p[0]) && IsWalk(edges, p[1..]))
  }

  ghost predicate Reaches(edges: Edges, roots: set<string>, x: string) {
    exists p :: IsWalk(edges, p) && p[0] in roots && p[|p| - 1] == x
  }

  function Universe(edges: Edges, roots: set<string>): set<string> {
    roots + edges.Keys + set k, x | k in edges && x in edges[k] :: x
  }

  /** The files reachable from the roots; all of them are mentioned somewhere. */
  ghost function ReachSet(edges: Edges, roots: set<string>): set<string> {
    set x | x in Universe(edges, roots) && Reaches(edges, roots, x)
  }

  lemma RootReaches(edges: Edges, roots: set<string>, x: string)
    requires x in roots
    ensures Reaches(edges, roots, x)
  {
    assert IsWalk(edges, [x]);
  }

  lemma {:induction false} WalkOn(edges: Edges, p: seq<string>, y: string)
    requires IsWalk(edges, p) && y in Targets(edges, p[|p| - 1])
    ensures IsWalk(edges, p + [y])
  {
    if |p| > 1 {
      WalkOn(edges, p[1..], y);
      assert (p + [y])[1..] == p[1..] + [y];
    } else {
      assert (p + [y])[1..] == [y];
    }
  }

  lemma StepReaches(edges: Edges, roots: set<string>, x: string, y: string)
    requires Reaches(edges, roots, x) && y in Targets(edges, x)
    ensures Reaches(edges, roots, y)
  {
    var p :| IsWalk(edges, p) && p[0] in roots && p[|p| - 1] == x;
    WalkOn(edges, p, y);
    assert (p + [y])[0] in roots && (p + [y])[|p + [y]| - 1] == y;
  }

  /** A set that holds the roots and is closed under the edges holds everything reachable. */
  lemma {:induction false} ClosedHoldsWalk(edges: Edges, closed: set<string>, p: seq<string>)
    requires IsWalk(edges, p) && p[0] in closed
    requires forall v :: v in closed ==> Targets(edges, v) <= closed
    ensures p[|p| - 1] in closed
  {
    if |p| > 1 {
      ClosedHoldsWalk(edges, closed, p[1..]);
    }
  }

  lemma ReachesInUniverse(edges: Edges, roots: set<string>, x: string)
    requires Reaches(edges, roots, x)
    ensures x in Universe(edges, roots)
  {
    ClosedHoldsReachable(edges, roots, Universe(edges, roots), x);
  }

  lemma ClosedHoldsReachable(edges: Edges, roots: set<string>, closed: set<string>, x: string)
    requires roots <= closed && Reaches(edges, roots, x)
    requires forall v :: v in closed ==> Targets(edges, v) <= closed
    ensures x in closed
  {
    var p :| IsWalk(edges, p) && p[0] in roots && p[|p| - 1] == x;
    ClosedHoldsWalk(edges, closed, p);
  }

  /** Push a set onto the worklist, in whatever order it is iterated. */
  method Extend(pending: seq<string>, more: set<string>) returns (r: seq<string>)
    ensures forall x :: x in r <==> x in pending || x in more
  {
    r := pending;
    var left := more;
    while left != {}
      invariant left <= more
      invariant forall x :: x in r <==> x in pending || x in more - left
      decreases left
    {
      var x :| x in left;
      r := r + [x];
      left := left - {x};
    }
  }

  /** What the worklist keeps: only reachable files, and no edge out of a visited file forgotten. */
  ghost predicate Searching(edges: Edges, roots: set<string>, visited: set<string>, pending: seq<string>) {
    && (forall x :: x in visited || x in pending ==> Reaches(edges, roots, x))
    && (forall x :: x in roots ==> x in visited || x in pending)
    && (forall v, y :: v in visited && y in Targets(edges, v) ==> y in visited || y in pending)
  }

  lemma VisitReaches(edges: Edges, roots: set<string>, visited: set<string>, pending: seq<string>, node: string)
    requires forall x :: x in visited || x in pending + [node] ==> Reaches(edges, roots, x)
    ensures forall x :: x in visited + {node} || x in pending || x in Targets(edges, node) ==> Reaches(edges, roots, x)
    ensures node in Universe(edges, roots)
  {
    assert node in pending + [node] && forall x :: x in pending ==> x in pending + [node];
    ReachesInUniverse(edges, roots, node);
    forall x | x in Targets(edges, node)
      ensures Reaches(edges, roots, x)
    {
      StepReaches(edges, roots, node, x);
    }
  }

  lemma VisitKeeps(edges: Edges, roots: set<string>, visited: set<string>, pending: seq<string>, node: string, pending': seq<string>)
    requires Searching(edges, roots, visited, pending + [node])
    requires forall x :: x in pending' <==> x in pending || x in Targets(edges, node)
    ensures Searching(edges, roots, visited + {node}, pending')
    ensures node in Universe(edges, roots)
  {
    VisitReaches(edges, roots, visited, pending, node);
    assert forall x :: x in pending + [node] <==> x in pending || x == node;
    var visited' := visited + {node};
    assert forall x :: x in visited' || x in pending' ==> Reaches(edges, roots, x);
    forall v, y | v in visited' && y in Targets(edges, v)
      ensures y in visited' || y in pending'
    {
      if v in visited {
        assert y in visited || y in pending + [node];
      }
    }
  }

  lemma StartSearch(edges: Edges, roots: set<string>, pending: seq<string>)
    requires forall x :: x in pending <==> x in roots
    ensures Searching(edges, roots, {}, pending)
  {
    forall x | x in pending
      ensures Reaches(edges, roots, x)
    {
      RootReaches(edges, roots, x);
    }
  }

  lemma SkipKeeps(edges: Edges, roots: set<string>, visited: set<string>, rest: seq<string>, node: string)
    requires Searching(edges, roots, visited, rest + [node]) && node in visited
    ensures Searching(edges, roots, visited, rest)
  {
    assert forall x :: x in rest + [node] <==> x in rest || x == node;
  }

  lemma SearchedAll(edges: Edges, roots: set<string>, visited: set<string>)
    requires Searching(edges, roots, visited, [])
    ensures forall x :: x in visited <==> Reaches(edges, roots, x)
    ensures visited == ReachSet(edges, roots)
  {
    forall x
      ensures Reaches(edges, roots, x) ==> x in visited && x in Universe(edges, roots)
    {
      if Reaches(edges, roots, x) {
        ClosedHoldsReachable(edges, roots, visited, x);
        ReachesInUniverse(edges, roots, x);
      }
    }
  }

  /** The worklist terminates with exactly the reachable files. */
  method Closure(edges: Edges, roots: set<string>) returns (visited: set<string>)
    ensures visited == ReachSet(edges, roots)
    ensures forall x :: x in visited <==> Reaches(edges, roots, x)
  {
    ghost var all := Universe(edges, roots);
    visited := {};
    var pending := Extend([], roots);
    StartSearch(edges, roots, pending);
    while pending != []
      invariant visited <= all && Searching(edges, roots, visited, pending)
      decreases all - visited, |pending|
    {
      var node := pending[|pending| - 1];
      var rest := pending[..|pending| - 1];
      assert pending == rest + [node];
      if node !in visited {
        pending := Extend(rest, Targets(edges, node));
        VisitKeeps(edges, roots, visited, rest, node, pending);
        visited := visited + {node};
      } else {
        SkipKeeps(edges, roots, visited, rest, node);
        pending := rest;
      }
    }
    SearchedAll(edges, roots, visited);
  }

  /******* Inputs *******/

  datatype RawScenario = NotAMapping | Raw(name: Value, scene: Option<string>, repeats: bool, shape: string)
  datatype Scenario = Scenario(name: string, scene: Option<string>, repeats: bool, shape: string)

  /** What one endpoint's files say: references, autoloads, and files whose references are uncertain. */
  datatype Endpoint = Endpoint(edges: Edges, autoload: set<string>, uncertain: set<string>)

  /** What the repository answers about a diff; `sealed` files cannot be looked into. */
  datatype Diff = Diff(changed: set<string>, headFiles: set<string>, sealed: set<string>, base: Endpoint, head: Endpoint)

  function Named(raw: RawScenario): Option<Scenario> {
    if raw.Raw? && raw.name.Str? && raw.name.s != ""
    then Some(Scenario(raw.name.s, raw.scene, raw.repeats, raw.shape)) else None
  }

  /** The authored inventory, if every scenario has its own name. */
  function Inventory(raws: seq<RawScenario>): Option<seq<Scenario>> {
    if raws == [] || exists i :: 0 <= i < |raws| && Named(raws[i]).None? then None
    else
      var scs := seq(|raws|, i requires 0 <= i < |raws| => Named(raws[i]).value);
      if Distinct(NamesOf(scs)) then Some(scs) else None
  }

  function NamesOf(scs: seq<Scenario>): seq<string> {
    seq(|scs|, i requires 0 <= i < |scs| => scs[i].name)
  }

  ghost predicate GoodInventory(scs: seq<Scenario>) {
    scs != [] && GateCoverage.Named(NamesOf(scs))
  }

  lemma InventoryIsGood(raws: seq<RawScenario>)
    ensures Inventory(raws).Some? ==> GoodInventory(Inventory(raws).value)
  {
    if Inventory(raws).Some? {
      var scs := Inventory(raws).value;
      forall i | 0 <= i < |scs|
        ensures NamesOf(scs)[i] != ""
      {
        assert Named(raws[i]).Some?;
      }
    }
  }

  /** Repeatable scenarios of a shape that must always run are repetitions of it, and run too. */
  function WithReplays(scs: seq<Scenario>, measured: set<string>): set<string> {
    var shapes := set s | s in scs && s.name in measured && s.repeats :: s.shape;
    measured + set s | s in scs && s.repeats && s.shape in shapes :: s.name
  }

  /******* The selection *******/

  function Merged(d: Diff): Edges {
    map k | k in d.base.edges.Keys + d.head.edges.Keys :: Targets(d.base.edges, k) + Targets(d.head.edges, k)
  }

  function RootsOf(d: Diff, scene: string): set<string> {
    d.base.autoload + d.head.autoload + {scene}
  }

  /** The files a scenario depends on at either endpoint, autoloads included. */
  ghost function DepsOf(d: Diff, s: Scenario): set<string> {
    if s.scene.Some? then ReachSet(Merged(d), RootsOf(d, s.scene.value)) else {}
  }

  ghost function AllDeps(d: Diff, scs: seq<Scenario>): seq<set<string>> {
    seq(|scs|, i requires 0 <= i < |scs| => DepsOf(d, scs[i]))
  }

  /** The graph below a scenario is fully understood. */
  predicate Clear(d: Diff, s: Scenario, deps: set<string>) {
    && s.scene.Some? && s.scene.value in d.headFiles
    && deps * d.sealed == {} && deps * (d.base.uncertain + d.head.uncertain) == {}
  }

  /** The scenarios whose files include a changed one. */
  function Impacted(scs: seq<Scenario>, deps: seq<set<string>>, changed: set<string>): set<string>
    requires |deps| == |scs|
  {
    if |scs| == 0 then {}
    else
      var n := |scs| - 1;
      Impacted(scs[..n], deps[..n], changed) + if deps[n] * changed != {} then {scs[n].name} else {}
  }

  function Accounted(deps: seq<set<string>>, changed: set<string>): set<string> {
    if |deps| == 0 then {} else Accounted(deps[..|deps| - 1], changed) + deps[|deps| - 1] * changed
  }

  predicate AllClear(d: Diff, scs: seq<Scenario>, deps: seq<set<string>>)
    requires |deps| == |scs|
  {
    forall i :: 0 <= i < |scs| ==> Clear(d, scs[i], deps[i])
  }

  /** Nothing is in doubt: the selection may be narrowed. */
  predicate CertainWith(d: Diff, scs: seq<Scenario>, deps: seq<set<string>>, measured: set<string>)
    requires |deps| == |scs|
  {
    && AllClear(d, scs, deps) && d.changed <= Accounted(deps, d.changed)
    && Impacted(scs, deps, d.changed) + WithReplays(scs, measured) != {}
  }

  ghost predicate Certain(d: Option<Diff>, scs: seq<Scenario>, measured: Option<set<string>>) {
    d.Some? && measured.Some? && CertainWith(d.value, scs, AllDeps(d.value, scs), measured.value)
  }

  datatype Plan = Plan(all: seq<string>, chosen: set<string>, fallback: bool, base: string, head: string, digest: string)

  ghost function ChosenNames(d: Option<Diff>, scs: seq<Scenario>, measured: Option<set<string>>): set<string> {
    if Certain(d, scs, measured)
    then Impacted(scs, AllDeps(d.value, scs), d.value.changed) + WithReplays(scs, measured.value)
    else Elements(NamesOf(scs))
  }

  /**
   The selection as it runs. `resolved` holds the two commits if both names resolve, `d` is
   absent when any repository question fails, `measured` when the clock measurement does.
   */
  method SelectScope(raws: seq<RawScenario>, base: string, head: string, digest: string,
                     resolved: Option<(string, string)>, d: Option<Diff>, measured: Option<set<string>>)
    returns (plan: Option<Plan>)
    requires resolved.None? ==> d.None?
    ensures plan.None? <==> Inventory(raws).None?
    ensures plan.Some? ==>
              var scs := Inventory(raws).value;
              && plan.value.all == NamesOf(scs)
              && plan.value.chosen == ChosenNames(d, scs, measured)
              && (plan.value.fallback <==> !Certain(d, scs, measured))
              && plan.value.digest == digest
              && plan.value.head == (if resolved.Some? then resolved.value.1 else head)
              && plan.value.base == (if resolved.Some? then resolved.value.0 else base)
  {
    var inventory := Inventory(raws);
    if inventory.None? {
      return None;
    }
    var scs := inventory.value;
    var names := NamesOf(scs);
    var full := Plan(names, Elements(names), true, if resolved.Some? then resolved.value.0 else base,
                     if resolved.Some? then resolved.value.1 else head, digest);
    if d.None? {
      return Some(full);
    }
    var deps := Dependencies(d.value, scs);
    if deps.None? {
      return Some(full);
    }
    var impacted, accounted := Intersect(scs, deps.value, d.value.changed);
    if !(d.value.changed <= accounted) || measured.None? {
      return Some(full);
    }
    var selected := impacted + WithReplays(scs, measured.value);
    if selected == {} {
      return Some(full);
    }
    return Some(full.(chosen := selected, fallback := false));
  }

  /** One scenario's files, unless something below it is in doubt. */
  method DependenciesOf(d: Diff, edges: Edges, s: Scenario) returns (deps: Option<set<string>>)
    requires edges == Merged(d)
    ensures deps.Some? <==> Clear(d, s, DepsOf(d, s))
    ensures deps.Some? ==> deps.value == DepsOf(d, s)
  {
    if s.scene.None? || s.scene.value !in d.headFiles {
      return None;
    }
    var visited := Closure(edges, RootsOf(d, s.scene.value));
    if !Clear(d, s, visited) {
      return None;
    }
    return Some(visited);
  }

  /** Every scenario's files, unless something below one of them is in doubt. */
  method Dependencies(d: Diff, scs: seq<Scenario>) returns (deps: Option<seq<set<string>>>)
    ensures deps.Some? <==> AllClear(d, scs, AllDeps(d, scs))
    ensures deps.Some? ==> deps.value == AllDeps(d, scs)
  {
    var edges := Merged(d);
    var found: seq<set<string>> := [];
    for i := 0 to |scs|
      invariant FoundSoFar(d, scs, found) && |found| == i
    {
      var one := DependenciesOf(d, edges, scs[i]);
      if one.None? {
        DoubtfulOne(d, scs, i);
        return None;
      }
      found := found + [one.value];
    }
    FoundAll(d, scs, found);
    return Some(found);
  }

  /** The files of the first scenarios, each fully understood. */
  ghost predicate FoundSoFar(d: Diff, scs: seq<Scenario>, found: seq<set<string>>) {
    |found| <= |scs| && forall j :: 0 <= j < |found| ==> found[j] == DepsOf(d, scs[j]) && Clear(d, scs[j], found[j])
  }

  lemma FoundAll(d: Diff, scs: seq<Scenario>, found: seq<set<string>>)
    requires FoundSoFar(d, scs, found) && |found| == |scs|
    ensures found == AllDeps(d, scs) && AllClear(d, scs, AllDeps(d, scs))
  {
  }

  lemma DoubtfulOne(d: Diff, scs: seq<Scenario>, i: nat)
    requires i < |scs| && !Clear(d, scs[i], DepsOf(d, scs[i]))
    ensures !AllClear(d, scs, AllDeps(d, scs))
  {
    assert AllDeps(d, scs)[i] == DepsOf(d, scs[i]);
  }

  /** Which scenarios the diff touches, and which changes some scenario accounts for. */
  method Intersect(scs: seq<Scenario>, deps: seq<set<string>>, changed: set<string>)
    returns (impacted: set<string>, accounted: set<string>)
    requires |deps| == |scs|
    ensures impacted == Impacted(scs, deps, changed) && accounted == Accounted(deps, changed)
  {
    impacted, accounted := {}, {};
    for i := 0 to |scs|
      invariant impacted == Impacted(scs[..i], deps[..i], changed) && accounted == Accounted(deps[..i], changed)
    {
      assert scs[..i + 1][..i] == scs[..i] && deps[..i + 1][..i] == deps[..i];
      if deps[i] * changed != {} {
        impacted := impacted + {scs[i].name};
      }
      accounted := accounted + deps[i] * changed;
    }
    assert scs[..|scs|] == scs && deps[..|deps|] == deps;
  }

  lemma {:induction false} ImpactedMembers(scs: seq<Scenario>, deps: seq<set<string>>, changed: set<string>, n: string)
    requires |deps| == |scs|
    ensures n in Impacted(scs, deps, changed) <==>
            exists i :: 0 <= i < |scs| && scs[i].name == n && deps[i] * changed != {}
  {
    if |scs| > 0 {
      var m := |scs| - 1;
      ImpactedMembers(scs[..m], deps[..m], changed, n);
      if i :| 0 <= i < |scs| && scs[i].name == n && deps[i] * changed != {} {
        if i < m {
          assert scs[..m][i].name == n && deps[..m][i] * changed != {};
        }
      }
    }
  }

  lemma {:induction false} AccountedMembers(deps: seq<set<string>>, changed: set<string>, f: string)
    ensures f in Accounted(deps, changed) <==> f in changed && exists i :: 0 <= i < |deps| && f in deps[i]
  {
    if |deps| > 0 {
      var m := |deps| - 1;
      AccountedMembers(deps[..m], changed, f);
      if i :| 0 <= i < |deps| && f in deps[i] {
        if i < m {
          assert f in deps[..m][i];
        }
      }
    }
  }

  /******* What a plan guarantees *******/

  lemma {:induction false} WalkLifts(small: Edges, big: Edges, p: seq<string>)
    requires IsWalk(small, p) && forall k :: Targets(small, k) <= Targets(big, k)
    ensures IsWalk(big, p)
  {
    if |p| > 1 {
      assert Targets(small, p[0]) <= Targets(big, p[0]);
      WalkLifts(small, big, p[1..]);
    }
  }

  lemma ReachesLifts(small: Edges, big: Edges, roots: set<string>, roots': set<string>, x: string)
    requires Reaches(small, roots, x) && roots <= roots' && forall k :: Targets(small, k) <= Targets(big, k)
    ensures Reaches(big, roots', x)
  {
    var p :| IsWalk(small, p) && p[0] in roots && p[|p| - 1] == x;
    WalkLifts(small, big, p);
    assert p[0] in roots';
  }

  /** Whatever an endpoint's own graph reaches from a scene, the merged closure holds. */
  lemma EndpointInDeps(d: Diff, s: Scenario, e: Endpoint, f: string)
    requires s.scene.Some? && (e == d.base || e == d.head)
    requires Reaches(e.edges, e.autoload + {s.scene.value}, f)
    ensures f in DepsOf(d, s)
  {
    var big, roots := Merged(d), RootsOf(d, s.scene.value);
    forall k
      ensures Targets(e.edges, k) <= Targets(big, k)
    {
    }
    ReachesLifts(e.edges, big, e.autoload + {s.scene.value}, roots, f);
    ReachesInUniverse(big, roots, f);
  }

  /**
   A narrowed plan omits only scenarios that no changed file can reach: not through the base
   graph, not through the head graph, and not by switching between them.
   */
  lemma OmittedAreUntouched(d: Diff, scs: seq<Scenario>, measured: set<string>, i: nat, f: string, e: Endpoint)
    requires Certain(Some(d), scs, Some(measured)) && i < |scs| && f in d.changed
    requires scs[i].name !in ChosenNames(Some(d), scs, Some(measured))
    requires e == d.base || e == d.head
    ensures scs[i].scene.Some? && f !in DepsOf(d, scs[i])
    ensures !Reaches(e.edges, e.autoload + {scs[i].scene.value}, f)
  {
    var deps := AllDeps(d, scs);
    assert Clear(d, scs[i], deps[i]);
    ImpactedMembers(scs, deps, d.changed, scs[i].name);
    assert deps[i] * d.changed == {};
    if Reaches(e.edges, e.autoload + {scs[i].scene.value}, f) {
      EndpointInDeps(d, scs[i], e, f);
    }
  }

  /** Every changed file is reached by a selected scenario. */
  lemma ChangesAreCovered(d: Diff, scs: seq<Scenario>, measured: set<string>, f: string)
    requires Certain(Some(d), scs, Some(measured)) && f in d.changed
    ensures exists i :: 0 <= i < |scs| && scs[i].name in ChosenNames(Some(d), scs, Some(measured)) &&
                        f in DepsOf(d, scs[i])
  {
    var deps := AllDeps(d, scs);
    AccountedMembers(deps, d.changed, f);
    var i :| 0 <= i < |deps| && f in deps[i];
    assert f in deps[i] * d.changed;
    ImpactedMembers(scs, deps, d.changed, scs[i].name);
    assert f in DepsOf(d, scs[i]);
  }

  /** The plan as the coverage payload the gates carry. */
  function PlanValue(p: Plan): Value {
    var basis := map["base_sha" := Str(p.base), "head_sha" := Str(p.head), "spec_sha256" := Str(p.digest)];
    Dict(map["coverage" := Str(if p.chosen == Elements(p.all) then "full" else "subset"),
             "all_scenarios" := Texts(p.all),
             "selected_scenarios" := Texts(Keep(p.all, p.chosen)),
             "unselected_scenarios" := Texts(Keep(p.all, Elements(p.all) - p.chosen)),
             "fallback_full" := Bool(p.fallback),
             "selection_basis" := Dict(if p.fallback then basis["fallback_reason" := Str("Error")] else basis)])
  }

  lemma ChosenAreAuthored(d: Option<Diff>, scs: seq<Scenario>, measured: Option<set<string>>)
    requires GoodInventory(scs) && (measured.Some? ==> measured.value <= Elements(NamesOf(scs)))
    ensures var chosen := ChosenNames(d, scs, measured); chosen <= Elements(NamesOf(scs)) && chosen != {}
    ensures !Certain(d, scs, measured) ==> ChosenNames(d, scs, measured) == Elements(NamesOf(scs))
  {
    var names := NamesOf(scs);
    forall i | 0 <= i < |scs|
      ensures scs[i].name in Elements(names)
    {
      assert names[i] == scs[i].name;
    }
    assert names[0] in Elements(names);
    if Certain(d, scs, measured) {
      forall n | n in Impacted(scs, AllDeps(d.value, scs), d.value.changed)
        ensures n in Elements(names)
      {
        ImpactedMembers(scs, AllDeps(d.value, scs), d.value.changed, n);
      }
      forall n | n in WithReplays(scs, measured.value)
        ensures n in Elements(names)
      {
        if n !in measured.value {
          var s :| s in scs && s.name == n;
          var i :| 0 <= i < |scs| && scs[i] == s;
          assert names[i] == n;
        }
      }
    }
  }

  /**
   The plan passes the coverage validator exactly when its head is 40 hexadecimal digits;
   nothing about the diff, the graphs or the failures can make it malformed.
   */
  lemma PlanIsValidIff(d: Option<Diff>, scs: seq<Scenario>, measured: Option<set<string>>, p: Plan)
    requires GoodInventory(scs) && (measured.Some? ==> measured.value <= Elements(NamesOf(scs)))
    requires p.all == NamesOf(scs) && p.chosen == ChosenNames(d, scs, measured)
    requires p.fallback == !Certain(d, scs, measured) && HexDigits(Str(p.digest), 64)
    ensures ValidateCoverage(PlanValue(p)) == None <==> HexDigits(Str(p.head), 40)
  {
    ChosenAreAuthored(d, scs, measured);
    PlanFields(p);
  }

  lemma PlanFields(p: Plan)
    requires GateCoverage.Named(p.all) && p.chosen <= Elements(p.all) && p.chosen != {}
    requires p.fallback ==> p.chosen == Elements(p.all)
    requires HexDigits(Str(p.digest), 64)
    ensures ValidateCoverage(PlanValue(p)) == None <==> HexDigits(Str(p.head), 40)
  {
    var f := PlanValue(p).fields;
    PlanReads(p);
    PlanBasis(p);
    if HexDigits(Str(p.head), 40) {
      DescribedIsValid(f, p.all, p.chosen);
    }
    if ValidateCoverage(Dict(f)) == None {
      GateCoverage.ValidNeeds(f);
    }
  }

  lemma PlanReads(p: Plan)
    ensures var f := PlanValue(p).fields;
            && Get(f, "all_scenarios") == Texts(p.all) && Get(f, "selected_scenarios") == Texts(Keep(p.all, p.chosen))
            && Get(f, "unselected_scenarios") == Texts(Keep(p.all, Elements(p.all) - p.chosen))
            && Get(f, "coverage") == Str(if p.chosen == Elements(p.all) then "full" else "subset")
            && "fallback_full" in f && f["fallback_full"] == Bool(p.fallback) && Get(f, "selection_basis").Dict?
  {
  }

  lemma PlanBasis(p: Plan)
    ensures var basis := Get(PlanValue(p).fields, "selection_basis");
            && basis.Dict? && Get(basis.fields, "head_sha") == Str(p.head) && Get(basis.fields, "spec_sha256") == Str(p.digest)
            && (p.fallback ==> Truthy(Get(basis.fields, "fallback_reason")))
  {
  }
}
