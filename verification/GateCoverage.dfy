/** Coverage scopes: which authored scenarios a gate run selected, and whether that may publish. */
module GateCoverage {
  import opened Values

  const PROVISIONAL_PURPOSE := "provisional_round_feedback"

  datatype ScopeError =
    | BadMarker | BadNames(key: string) | NotAPartition | Reordered(key: string) | MarkerDisagrees
    | BadFallbackFlag | FallbackSubset | BadBasis | BadDigest(field: string) | NoFallbackReason
    | ProvisionalScope | SubsetScope | WrongHead | WrongContract | WrongInventory

  predicate IsHex(c: char) {
    '0' <= c <= '9' || 'a' <= c <= 'f'
  }

  predicate HexDigits(v: Value, length: nat) {
    v.Str? && |v.s| == length && forall i :: 0 <= i < |v.s| ==> IsHex(v.s[i])
  }

  predicate Distinct(names: seq<string>) {
    forall i, j :: 0 <= i < j < |names| ==> names[i] != names[j]
  }

  /** A list of distinct non-empty names, if the value is one. */
  function Names(v: Value): Option<seq<string>> {
    if !v.List? || exists i :: 0 <= i < |v.items| && (!v.items[i].Str? || v.items[i].s == "") then None
    else
      var names := seq(|v.items|, i requires 0 <= i < |v.items| => v.items[i].s);
      if Distinct(names) then Some(names) else None
  }

  function Keep(names: seq<string>, part: set<string>): seq<string> {
    if names == [] then []
    else (if names[0] in part then [names[0]] else []) + Keep(names[1..], part)
  }

  function Elements(names: seq<string>): set<string> {
    set n | n in names
  }

  /** The first thing wrong with a scope, in the order it is looked for. */
  function ValidateCoverage(scope: Value): Option<ScopeError> {
    if !scope.Dict? || Get(scope.fields, "coverage") !in [Str("full"), Str("subset")] then Some(BadMarker)
    else
      var f := scope.fields;
      var all, selected, unselected := Names(Get(f, "all_scenarios")), Names(Get(f, "selected_scenarios")),
                                       Names(Get(f, "unselected_scenarios"));
      if all.None? then Some(BadNames("all_scenarios"))
      else if selected.None? then Some(BadNames("selected_scenarios"))
      else if unselected.None? then Some(BadNames("unselected_scenarios"))
      else
        var a, s, u := all.value, selected.value, unselected.value;
        if a == [] || s == [] || Elements(s) * Elements(u) != {} || Elements(s) + Elements(u) != Elements(a)
        then Some(NotAPartition)
        else if s != Keep(a, Elements(s)) then Some(Reordered("selected_scenarios"))
        else if u != Keep(a, Elements(u)) then Some(Reordered("unselected_scenarios"))
        else if (f["coverage"] == Str("full")) != (u == []) then Some(MarkerDisagrees)
        else if !Get(f, "fallback_full").Bool? then Some(BadFallbackFlag)
        else if f["fallback_full"].b && f["coverage"] != Str("full") then Some(FallbackSubset)
        else if !Get(f, "selection_basis").Dict? then Some(BadBasis)
        else
          var basis := f["selection_basis"].fields;
          if !HexDigits(Get(basis, "head_sha"), 40) then Some(BadDigest("head_sha"))
          else if !HexDigits(Get(basis, "spec_sha256"), 64) then Some(BadDigest("spec_sha256"))
          else if f["fallback_full"].b && !Truthy(Get(basis, "fallback_reason")) then Some(NoFallbackReason)
          else None
  }

  function PublicationRefusal(scope: Value): Option<ScopeError> {
    if scope.Dict? && Get(scope.fields, "purpose") == Str(PROVISIONAL_PURPOSE) then Some(ProvisionalScope)
    else
      var error := ValidateCoverage(scope);
      if error.Some? then error
      else if Get(scope.fields, "coverage") == Str("subset") then Some(SubsetScope)
      else None
  }

  /******* What a valid scope is *******/

  lemma {:induction false} KeepMembers(names: seq<string>, part: set<string>)
    ensures forall n :: n in Keep(names, part) <==> n in names && n in part
  {
    if names != [] {
      KeepMembers(names[1..], part);
    }
  }

  lemma {:induction false} KeepDistinct(names: seq<string>, part: set<string>)
    requires Distinct(names)
    ensures Distinct(Keep(names, part))
  {
    if names != [] {
      assert forall i, j :: 0 <= i < j < |names[1..]| ==> names[1..][i] == names[i + 1] && names[1..][j] == names[j + 1];
      KeepDistinct(names[1..], part);
      KeepMembers(names[1..], part);
      var rest := Keep(names[1..], part);
      forall i | 0 <= i < |rest|
        ensures rest[i] != names[0]
      {
        assert rest[i] in names[1..];
        var k :| 0 <= k < |names[1..]| && names[1..][k] == rest[i];
        assert names[k + 1] == rest[i];
      }
    }
  }

  lemma {:induction false} KeepAll(names: seq<string>, part: set<string>)
    requires forall n :: n in names ==> n in part
    ensures Keep(names, part) == names
  {
    if names != [] {
      KeepAll(names[1..], part);
    }
  }

  function Texts(names: seq<string>): Value {
    List(seq(|names|, i requires 0 <= i < |names| => Str(names[i])))
  }

  predicate Named(names: seq<string>) {
    Distinct(names) && forall i :: 0 <= i < |names| ==> names[i] != ""
  }

  lemma NamesOfTexts(names: seq<string>)
    requires Named(names)
    ensures Names(Texts(names)) == Some(names)
  {
    var v := Texts(names);
    assert seq(|v.items|, i requires 0 <= i < |v.items| => v.items[i].s) == names;
  }

  lemma NamesInverse(v: Value)
    requires Names(v).Some?
    ensures v == Texts(Names(v).value) && Named(Names(v).value)
  {
    assert v.items == Texts(Names(v).value).items;
  }

  /** What the fields of a valid scope say, in one place. */
  ghost predicate Describes(f: map<string, Value>, all: seq<string>, chosen: set<string>) {
    && Named(all) && chosen <= Elements(all) && chosen != {}
    && Get(f, "all_scenarios") == Texts(all)
    && Get(f, "selected_scenarios") == Texts(Keep(all, chosen))
    && Get(f, "unselected_scenarios") == Texts(Keep(all, Elements(all) - chosen))
    && Get(f, "coverage") == Str(if chosen == Elements(all) then "full" else "subset")
    && Get(f, "fallback_full").Bool?
    && Get(f, "selection_basis").Dict?
    && HexDigits(Get(Get(f, "selection_basis").fields, "head_sha"), 40)
    && HexDigits(Get(Get(f, "selection_basis").fields, "spec_sha256"), 64)
    && (f["fallback_full"].b ==> chosen == Elements(all) &&
                                 Truthy(Get(Get(f, "selection_basis").fields, "fallback_reason")))
  }

  lemma KeptNamed(all: seq<string>, part: set<string>)
    requires Named(all) && part <= Elements(all)
    ensures var k := Keep(all, part); Named(k) && Elements(k) == part && (k == [] <==> part == {})
  {
    KeepMembers(all, part);
    KeepDistinct(all, part);
    var k := Keep(all, part);
    forall i | 0 <= i < |k|
      ensures k[i] != ""
    {
      assert k[i] in all;
    }
    assert Elements(k) == part;
    if k != [] {
      assert k[0] in part;
    } else {
      assert Elements(k) == {};
    }
  }

  lemma KeptPartition(all: seq<string>, chosen: set<string>)
    requires Named(all) && chosen <= Elements(all) && chosen != {}
    ensures var s, u := Keep(all, chosen), Keep(all, Elements(all) - chosen);
            && Named(s) && Named(u) && s != [] && all != []
            && Elements(s) == chosen && Elements(u) == Elements(all) - chosen
            && (u == [] <==> chosen == Elements(all))
  {
    var rest := Elements(all) - chosen;
    RestEmpty(Elements(all), chosen);
    KeptNamed(all, chosen);
    KeptNamed(all, rest);
  }

  lemma RestEmpty(all: set<string>, chosen: set<string>)
    requires chosen <= all
    ensures all - chosen == {} <==> chosen == all
  {
    if all - chosen == {} {
      forall x | x in all ensures x in chosen { assert x !in all - chosen; }
    }
  }

  lemma DescribedIsValid(f: map<string, Value>, all: seq<string>, chosen: set<string>)
    requires Describes(f, all, chosen)
    ensures ValidateCoverage(Dict(f)) == None
  {
    KeptPartition(all, chosen);
    NamesOfTexts(all);
    NamesOfTexts(Keep(all, chosen));
    NamesOfTexts(Keep(all, Elements(all) - chosen));
    assert chosen + (Elements(all) - chosen) == Elements(all);
    assert chosen * (Elements(all) - chosen) == {};
  }

  lemma ValidIsDescribed(f: map<string, Value>)
    requires ValidateCoverage(Dict(f)) == None
    ensures exists all, chosen :: Describes(f, all, chosen)
  {
    NamesInverse(Get(f, "all_scenarios"));
    NamesInverse(Get(f, "selected_scenarios"));
    NamesInverse(Get(f, "unselected_scenarios"));
    var all, s, u := Names(f["all_scenarios"]).value, Names(f["selected_scenarios"]).value,
                     Names(f["unselected_scenarios"]).value;
    var chosen := Elements(s);
    forall n
      ensures n in Elements(u) <==> n in Elements(all) - chosen
    {
      assert n in Elements(s) + Elements(u) <==> n in Elements(all);
      assert n !in Elements(s) * Elements(u);
    }
    assert Elements(u) == Elements(all) - chosen;
    assert s[0] in chosen;
    KeptPartition(all, chosen);
    assert Describes(f, all, chosen);
  }

  /**
   The validator accepts exactly the scopes that describe a choice: a non-empty set of names
   of the inventory, with both lists in authored order and the marker telling full from subset.
   */
  lemma ValidScopeIff(scope: Value)
    ensures ValidateCoverage(scope) == None <==>
            scope.Dict? && exists all, chosen :: Describes(scope.fields, all, chosen)
  {
    if scope.Dict? && (exists all, chosen :: Describes(scope.fields, all, chosen)) {
      var all, chosen :| Describes(scope.fields, all, chosen);
      DescribedIsValid(scope.fields, all, chosen);
    }
    if ValidateCoverage(scope) == None {
      ValidIsDescribed(scope.fields);
    }
  }

  /** A scope may publish exactly when it is valid, not provisional, and selects everything. */
  lemma PublishesIff(scope: Value)
    ensures PublicationRefusal(scope) == None <==>
            && scope.Dict? && Get(scope.fields, "purpose") != Str(PROVISIONAL_PURPOSE)
            && exists all :: Describes(scope.fields, all, Elements(all))
  {
    ValidScopeIff(scope);
    if PublicationRefusal(scope) == None {
      var all, chosen :| Describes(scope.fields, all, chosen);
      assert Describes(scope.fields, all, Elements(all));
    }
  }

  /******* Producers and the source check *******/

  /** The default scope of a full run. */
  function FullScope(head: string, digest: string, names: seq<string>): Value {
    Dict(map["coverage" := Str("full"), "all_scenarios" := Texts(names), "selected_scenarios" := Texts(names),
             "unselected_scenarios" := List([]), "fallback_full" := Bool(false),
             "selection_basis" := Dict(map["head_sha" := Str(head), "spec_sha256" := Str(digest),
                                           "method" := Str("full_default")])])
  }

  lemma FullFields(head: string, digest: string, names: seq<string>)
    ensures var f := FullScope(head, digest, names).fields;
            && Get(f, "all_scenarios") == Texts(names) && Get(f, "selected_scenarios") == Texts(names)
            && Get(f, "unselected_scenarios") == List([]) && Get(f, "coverage") == Str("full")
            && "fallback_full" in f && f["fallback_full"] == Bool(false) && Get(f, "fallback_full") == Bool(false)
            && Get(f, "selection_basis").Dict?
  {
  }

  lemma FullBasis(head: string, digest: string, names: seq<string>)
    ensures var basis := Get(FullScope(head, digest, names).fields, "selection_basis");
            basis.Dict? && Get(basis.fields, "head_sha") == Str(head) && Get(basis.fields, "spec_sha256") == Str(digest)
  {
  }

  lemma AllKept(names: seq<string>)
    requires Named(names) && names != []
    ensures Keep(names, Elements(names)) == names && Keep(names, Elements(names) - Elements(names)) == [] && Elements(names) != {}
  {
    KeepAll(names, Elements(names));
    assert names[0] in Elements(names);
    KeptPartition(names, Elements(names));
  }

  lemma FullScopeDescribed(head: string, digest: string, names: seq<string>)
    requires Named(names) && names != [] && HexDigits(Str(head), 40) && HexDigits(Str(digest), 64)
    ensures Describes(FullScope(head, digest, names).fields, names, Elements(names))
  {
    FullFields(head, digest, names);
    FullBasis(head, digest, names);
    AllKept(names);
    assert Texts([]) == List([]);
  }

  /** The producer's own check: what it needs of its inventory and its two digests. */
  lemma FullScopeValidIff(head: string, digest: string, names: seq<string>)
    ensures ValidateCoverage(FullScope(head, digest, names)) == None <==>
            Named(names) && names != [] && HexDigits(Str(head), 40) && HexDigits(Str(digest), 64)
  {
    if Named(names) && names != [] && HexDigits(Str(head), 40) && HexDigits(Str(digest), 64) {
      FullScopeDescribed(head, digest, names);
      DescribedIsValid(FullScope(head, digest, names).fields, names, Elements(names));
    }
    if ValidateCoverage(FullScope(head, digest, names)) == None {
      FullScopeNeeds(head, digest, names);
    }
  }

  lemma FullScopeNeeds(head: string, digest: string, names: seq<string>)
    requires ValidateCoverage(FullScope(head, digest, names)) == None
    ensures Named(names) && names != [] && HexDigits(Str(head), 40) && HexDigits(Str(digest), 64)
  {
    var f := FullScope(head, digest, names).fields;
    ValidNeeds(f);
    FullFields(head, digest, names);
    FullBasis(head, digest, names);
    NamesInverse(Get(f, "all_scenarios"));
    TextsInjective(names, Names(Get(f, "all_scenarios")).value);
  }

  lemma ValidNeeds(f: map<string, Value>)
    requires ValidateCoverage(Dict(f)) == None
    ensures Names(Get(f, "all_scenarios")).Some? && Names(Get(f, "all_scenarios")).value != []
    ensures Get(f, "selection_basis").Dict?
    ensures HexDigits(Get(Get(f, "selection_basis").fields, "head_sha"), 40)
    ensures HexDigits(Get(Get(f, "selection_basis").fields, "spec_sha256"), 64)
  {
  }

  lemma TextsInjective(names: seq<string>, names': seq<string>)
    requires Texts(names) == Texts(names')
    ensures names == names'
  {
    assert |names| == |Texts(names).items| == |names'|;
    assert forall i :: 0 <= i < |names| ==> Texts(names).items[i] == Str(names[i]) && Texts(names').items[i] == Str(names'[i]);
  }

  /** The publication check bound to an independently read source. */
  function SourceRefusal(scope: Value, head: string, digest: string, names: seq<string>): Option<ScopeError> {
    var error := PublicationRefusal(scope);
    if error.Some? then error
    else
      var basis := Get(scope.fields, "selection_basis").fields;
      if Get(basis, "head_sha") != Str(head) then Some(WrongHead)
      else if Get(basis, "spec_sha256") != Str(digest) then Some(WrongContract)
      else if Get(scope.fields, "all_scenarios") != Texts(names) then Some(WrongInventory)
      else None
  }

  lemma FullPublishes(head: string, digest: string, names: seq<string>)
    requires ValidateCoverage(FullScope(head, digest, names)) == None
    ensures PublicationRefusal(FullScope(head, digest, names)) == None
  {
  }

  /** The default producer's scope passes its own source check, and no other head, contract or inventory. */
  lemma FullScopePassesSourceIff(head: string, digest: string, names: seq<string>, head': string, digest': string, names': seq<string>)
    requires ValidateCoverage(FullScope(head, digest, names)) == None
    ensures SourceRefusal(FullScope(head, digest, names), head', digest', names') == None <==>
            head' == head && digest' == digest && names' == names
  {
    FullPublishes(head, digest, names);
    FullFields(head, digest, names);
    FullBasis(head, digest, names);
    if Texts(names') == Texts(names) {
      TextsInjective(names', names);
    }
  }
}
