/** The one reading of a gate run's records: whom it queued behind, and the fate of its last request. */
module AdmissionSummary {
  import opened Values
  import opened AdmissionRelay
  import opened AdmissionRecords

  /** A record as the summary reads it. Without a number it sorts as number 0; a wait that is no number is `None`. */
  datatype Entry = Entry(seqNo: Option<int>, outcome: Option<Outcome>, delivered: Option<bool>, waitedFor: seq<string>, wait: Option<real>)

  datatype Fate = NoEngineRequest | Undelivered | Ended(outcome: Outcome)
  datatype Summary = Summary(requests: seq<Entry>, queuedBehind: seq<string>, waited: real, state: Fate)

  function Key(e: Entry): int {
    if e.seqNo.Some? then e.seqNo.value else 0
  }

  /******* Ordering *******/

  /** Behind everything that is not after it, so that equal keys keep their order. */
  function Inserted(sorted: seq<Entry>, e: Entry): (r: seq<Entry>)
    ensures multiset(r) == multiset(sorted) + multiset{e}
    decreases |sorted|
  {
    if sorted == [] || Key(sorted[|sorted| - 1]) <= Key(e) then sorted + [e]
    else
      var init, last := sorted[..|sorted| - 1], sorted[|sorted| - 1];
      assert sorted == init + [last];
      Inserted(init, e) + [last]
  }

  function Ordered(entries: seq<Entry>): (r: seq<Entry>)
    ensures multiset(r) == multiset(entries)
  {
    if entries == [] then []
    else
      assert entries == entries[..|entries| - 1] + [entries[|entries| - 1]];
      Inserted(Ordered(entries[..|entries| - 1]), entries[|entries| - 1])
  }

  predicate Ascending(entries: seq<Entry>) {
    forall i, j :: 0 <= i < j < |entries| ==> Key(entries[i]) <= Key(entries[j])
  }

  lemma {:induction false} InsertedAscending(sorted: seq<Entry>, e: Entry)
    requires Ascending(sorted)
    ensures Ascending(Inserted(sorted, e))
    decreases |sorted|
  {
    if sorted != [] && Key(sorted[|sorted| - 1]) > Key(e) {
      var init, last := sorted[..|sorted| - 1], sorted[|sorted| - 1];
      InsertedAscending(init, e);
      var r := Inserted(init, e);
      forall i | 0 <= i < |r|
        ensures Key(r[i]) <= Key(last)
      {
        assert r[i] in multiset(r);
        assert r[i] in multiset(init) + multiset{e};
      }
    }
  }

  lemma {:induction false} OrderedAscending(entries: seq<Entry>)
    ensures Ascending(Ordered(entries))
  {
    if entries != [] {
      OrderedAscending(entries[..|entries| - 1]);
      InsertedAscending(Ordered(entries[..|entries| - 1]), entries[|entries| - 1]);
    }
  }

  /** Different records have different numbers. */
  predicate DistinctKeys(entries: seq<Entry>) {
    forall e, f :: e in entries && f in entries && Key(e) == Key(f) ==> e == f
  }

  /** Two ascending lists of the same records with distinct numbers end in the same record. */
  lemma SameLast(a: seq<Entry>, b: seq<Entry>)
    requires Ascending(a) && Ascending(b) && DistinctKeys(a) && multiset(a) == multiset(b) && a != []
    ensures b != [] && a[|a| - 1] == b[|b| - 1]
  {
    assert a[|a| - 1] in multiset(b);
    var j :| 0 <= j < |b| && b[j] == a[|a| - 1];
    assert b[|b| - 1] in multiset(a);
    var i :| 0 <= i < |a| && a[i] == b[|b| - 1];
    assert Key(a[i]) <= Key(a[|a| - 1]) <= Key(b[|b| - 1]);
  }

  lemma AllButLast(a: seq<Entry>)
    requires a != []
    ensures multiset(a[..|a| - 1]) == multiset(a) - multiset{a[|a| - 1]}
  {
    assert a == a[..|a| - 1] + [a[|a| - 1]];
  }

  lemma {:induction false} AscendingUnique(a: seq<Entry>, b: seq<Entry>)
    requires Ascending(a) && Ascending(b) && DistinctKeys(a) && multiset(a) == multiset(b)
    ensures a == b
    decreases |a|
  {
    if a == [] {
      assert |multiset(b)| == 0;
    } else {
      SameLast(a, b);
      AllButLast(a);
      AllButLast(b);
      AscendingUnique(a[..|a| - 1], b[..|b| - 1]);
      assert a == a[..|a| - 1] + [a[|a| - 1]] && b == b[..|b| - 1] + [b[|b| - 1]];
    }
  }

  /******* Whom the run waited for *******/

  /** Every owner once, in the order of first mention. */
  function FirstMentions(owners: seq<string>): seq<string> {
    if owners == [] then []
    else
      var before := FirstMentions(owners[..|owners| - 1]);
      if owners[|owners| - 1] in before then before else before + [owners[|owners| - 1]]
  }

  function AllWaitedFor(entries: seq<Entry>): seq<string> {
    if entries == [] then [] else AllWaitedFor(entries[..|entries| - 1]) + entries[|entries| - 1].waitedFor
  }

  function WaitOf(e: Entry): real {
    if e.wait.Some? then e.wait.value else 0.0
  }

  function AllWaits(entries: seq<Entry>): real {
    if entries == [] then 0.0 else AllWaits(entries[..|entries| - 1]) + WaitOf(entries[|entries| - 1])
  }

  /** An owner's place in the list is decided by where it was first mentioned. */
  ghost predicate InFirstOrder(owners: seq<string>, firsts: seq<string>) {
    forall i, j :: 0 <= i < j < |firsts| ==> firsts[i] != firsts[j] && MentionedBefore(owners, firsts[i], firsts[j])
  }

  ghost predicate MentionedBefore(owners: seq<string>, a: string, b: string) {
    exists i :: 0 <= i < |owners| && owners[i] == a && b !in owners[..i + 1]
  }

  lemma {:induction false} FirstMentionsExact(owners: seq<string>)
    ensures forall o :: o in FirstMentions(owners) <==> o in owners
    ensures InFirstOrder(owners, FirstMentions(owners))
  {
    if owners != [] {
      var init, last := owners[..|owners| - 1], owners[|owners| - 1];
      FirstMentionsExact(init);
      var before, r := FirstMentions(init), FirstMentions(owners);
      assert owners == init + [last];
      forall i, j | 0 <= i < j < |r|
        ensures r[i] != r[j] && MentionedBefore(owners, r[i], r[j])
      {
        if j < |before| {
          assert MentionedBefore(init, before[i], before[j]);
          var k :| 0 <= k < |init| && init[k] == before[i] && before[j] !in init[..k + 1];
          assert owners[..k + 1] == init[..k + 1];
        } else {
          assert r[i] in init;
          var k :| 0 <= k < |init| && init[k] == r[i];
          assert last !in init;
          assert owners[..k + 1] == init[..k + 1];
          assert forall x :: x in owners[..k + 1] ==> x in init;
        }
      }
    }
  }

  /******* The summary *******/

  function FateOf(entries: seq<Entry>): Fate {
    if entries == [] then NoEngineRequest
    else
      var last := entries[|entries| - 1];
      match last.outcome
      case None => Ended(Abandoned)
      case Some(outcome) =>
        if outcome == Answered || outcome == EngineError
        then if last.delivered == Some(false) then Undelivered else Ended(outcome)
        else Ended(outcome)
  }

  lemma FirstMentionsMore(owners: seq<string>, more: seq<string>, i: nat)
    requires i < |more|
    ensures var before := FirstMentions(owners + more[..i]);
            FirstMentions(owners + more[..i + 1]) == if more[i] in before then before else before + [more[i]]
  {
    var all := owners + more[..i + 1];
    assert all[..|all| - 1] == owners + more[..i] && all[|all| - 1] == more[i];
  }

  method Mention(queuedBehind: seq<string>, owners: seq<string>, ghost soFar: seq<string>) returns (r: seq<string>)
    requires queuedBehind == FirstMentions(soFar)
    ensures r == FirstMentions(soFar + owners)
  {
    r := queuedBehind;
    assert soFar + owners[..0] == soFar;
    for j := 0 to |owners|
      invariant r == FirstMentions(soFar + owners[..j])
    {
      FirstMentionsMore(soFar, owners, j);
      if owners[j] !in r {
        r := r + [owners[j]];
      }
    }
    assert owners[..|owners|] == owners;
  }

  lemma OneMoreEntry(entries: seq<Entry>, i: nat)
    requires i < |entries|
    ensures AllWaitedFor(entries[..i + 1]) == AllWaitedFor(entries[..i]) + entries[i].waitedFor
    ensures AllWaits(entries[..i + 1]) == AllWaits(entries[..i]) + WaitOf(entries[i])
  {
    assert entries[..i + 1][..i] == entries[..i];
  }

  method Summarise(entries: seq<Entry>) returns (r: Summary)
    ensures r.requests == Ordered(entries)
    ensures r.queuedBehind == FirstMentions(AllWaitedFor(r.requests))
    ensures r.waited == AllWaits(r.requests)
    ensures r.state == FateOf(r.requests)
  {
    var ordered := Ordered(entries);
    var queuedBehind, waited := [], 0.0;
    for i := 0 to |ordered|
      invariant queuedBehind == FirstMentions(AllWaitedFor(ordered[..i])) && waited == AllWaits(ordered[..i])
    {
      OneMoreEntry(ordered, i);
      queuedBehind := Mention(queuedBehind, ordered[i].waitedFor, AllWaitedFor(ordered[..i]));
      if ordered[i].wait.Some? {
        waited := waited + ordered[i].wait.value;
      }
    }
    assert ordered[..|ordered|] == ordered;
    r := Summary(ordered, queuedBehind, waited, FateOf(ordered));
  }

  /** The order in which numbered records are handed over does not matter to any part of the summary. */
  lemma SummaryIgnoresOrder(a: seq<Entry>, b: seq<Entry>)
    requires multiset(a) == multiset(b) && DistinctKeys(a)
    ensures Ordered(a) == Ordered(b)
  {
    OrderedAscending(a);
    OrderedAscending(b);
    SameElements(a, Ordered(a));
    AscendingUnique(Ordered(a), Ordered(b));
  }

  lemma SameElements(a: seq<Entry>, b: seq<Entry>)
    requires multiset(a) == multiset(b)
    ensures forall e :: e in b <==> e in a
  {
    assert forall e :: e in b <==> e in multiset(b);
    assert forall e :: e in a <==> e in multiset(a);
  }

  /******* A summary of the relay's own records *******/

  function EntryOf(row: Row): Entry {
    Entry(Some(row.seqNo),
          if row.done.Some? then Some(row.done.value.answer.outcome) else None,
          if row.done.Some? then Some(row.done.value.delivered) else None, [], None)
  }

  function EntriesOf(rows: seq<Row>): seq<Entry> {
    seq(|rows|, i requires 0 <= i < |rows| => EntryOf(rows[i]))
  }

  lemma RelayRowsAreOrdered(rows: seq<Row>)
    requires forall k :: 0 <= k < |rows| ==> rows[k].seqNo == k
    ensures Ordered(EntriesOf(rows)) == EntriesOf(rows)
  {
    var entries := EntriesOf(rows);
    assert forall k :: 0 <= k < |rows| ==> Key(entries[k]) == rows[k].seqNo;
    OrderedAscending(entries);
    AscendingUnique(entries, Ordered(entries));
  }

  /**
   Whatever the interleaving, the summary of the relay's records is about the request that
   arrived last: it says `answered` exactly when that request is through, the engine answered it
   with a 2xx and the gate read the whole final response.
   */
  lemma AnsweredIff(events: seq<Event>, s: Relay) returns (id: Id)
    requires Runs(EMPTY, events, s) && s.rows != []
    ensures id in s.reqs && id in s.place && s.place[id] == |s.rows| - 1
    ensures FateOf(Ordered(EntriesOf(s.rows))) == Ended(Answered) <==>
            && s.reqs[id].h.Finished? && s.reqs[id].h.answer.outcome == Answered
            && ReadAll(s.reqs[id].wire).Final? && ReadAll(s.reqs[id].wire).complete
  {
    RunsSound(EMPTY, events, s);
    id := EveryRecordIsTrue(events, s, |s.rows| - 1);
    assert Truthful(s, id);
    RelayFate(s.rows);
  }

  /** The fate of the relay's own records is that of the last one. */
  lemma RelayFate(rows: seq<Row>)
    requires rows != [] && forall k :: 0 <= k < |rows| ==> rows[k].seqNo == k
    ensures var last := rows[|rows| - 1];
            FateOf(Ordered(EntriesOf(rows))) == Ended(Answered) <==>
            last.done.Some? && last.done.value.answer.outcome == Answered && last.done.value.delivered
  {
    RelayRowsAreOrdered(rows);
    var entries := EntriesOf(rows);
    assert entries[|entries| - 1] == EntryOf(rows[|rows| - 1]);
  }
}
