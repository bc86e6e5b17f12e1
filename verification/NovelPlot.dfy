/**
 Plot progress over whole runs. Whatever the plot and the journals, nodes and frontiers never go
 back; over a fresh plot, progress is a function of the ledger.
 */
module NovelPlot {
  import opened Values
  import opened NovelState
  import opened NovelPosting
  import opened NovelJournal

  ghost predicate UniqueNodes(nodes: seq<Node>) {
    forall i, j :: 0 <= i < j < |nodes| ==> nodes[i].id != nodes[j].id
  }

  ghost predicate UniqueIds(arcs: seq<Arc>) {
    && (forall i, j :: 0 <= i < j < |arcs| ==> arcs[i].name != arcs[j].name)
    && forall i :: 0 <= i < |arcs| ==> UniqueNodes(arcs[i].nodes)
  }

  /******* One arc at a time *******/

  /** An arc and the ledger rows it has earned. */
  datatype Earned = Earned(arc: Arc, rows: seq<Row>)

  function CompleteIn(e: Earned, id: string, ch: int): Earned {
    var j := LastNode(e.arc.nodes, id);
    if j < 0 || e.arc.nodes[j].status == Done then e
    else Earned(e.arc.(nodes := e.arc.nodes[j := e.arc.nodes[j].(status := Done, completed := Some(ch))]),
                e.rows + [NodeRow(ch, id)])
  }

  function CompleteAllIn(e: Earned, ids: seq<string>, ch: int): Earned {
    if |ids| == 0 then e else CompleteIn(CompleteAllIn(e, ids[..|ids| - 1], ch), ids[|ids| - 1], ch)
  }

  function NoteIn(e: Earned, notes: string, ch: int): Earned {
    if notes == "" then e
    else Earned(e.arc.(latestNote := Some(Note(ch, notes))), e.rows + [NoteRow(ch, notes)])
  }

  function UpdateIn(e: Earned, up: ArcUpdate, ch: int): Earned {
    var e' := NoteIn(CompleteAllIn(e, up.nodesCompleted, ch), up.notes, ch);
    e'.(arc := Closed(e'.arc, ch))
  }

  function Posted(name: string, rows: seq<Row>): seq<Posting> {
    seq(|rows|, i requires 0 <= i < |rows| => Posting(Account(Arcs, name), rows[i]))
  }

  lemma {:induction false} CompleteNodesLocal(d: ArcDesk, a: nat, ids: seq<string>, ch: int)
    requires a < |d.arcs|
    ensures var e, d' := CompleteAllIn(Earned(d.arcs[a], []), ids, ch), CompleteNodes(d, a, ids, ch);
            && d'.arcs == d.arcs[a := e.arc] && d'.postings == d.postings + Posted(d.arcs[a].name, e.rows)
            && e.arc.name == d.arcs[a].name
  {
    if |ids| > 0 {
      CompleteNodesLocal(d, a, ids[..|ids| - 1], ch);
    }
  }

  lemma UpdateArcLocal(d: ArcDesk, up: ArcUpdate, ch: int)
    requires LastArc(d.arcs, up.name) >= 0
    ensures var a := LastArc(d.arcs, up.name);
            var e, d' := UpdateIn(Earned(d.arcs[a], []), up, ch), UpdateArc(d, up, ch);
            && d'.arcs == d.arcs[a := e.arc] && d'.postings == d.postings + Posted(up.name, e.rows)
  {
    CompleteNodesLocal(d, LastArc(d.arcs, up.name), up.nodesCompleted, ch);
  }

  lemma PostedLast(name: string, front: seq<Row>, last: Row)
    ensures Posted(name, front + [last]) == Posted(name, front) + [Posting(Account(Arcs, name), last)]
  {
  }

  lemma {:induction false} PostedLedger(name: string, rows: seq<Row>, account: Account)
    ensures LedgerOf(Posted(name, rows), account) == if account == Account(Arcs, name) then rows else []
  {
    if |rows| > 0 {
      var front, last := rows[..|rows| - 1], rows[|rows| - 1];
      PostedLedger(name, front, account);
      PostedLast(name, front, last);
      LedgerOfLast(Posted(name, front), Posting(Account(Arcs, name), last), account);
      assert rows == front + [last];
    }
  }

  /******* What an arc and its ledger keep *******/

  /** The chapters in which the ledger records a node as completed. */
  function Completions(rows: seq<Row>, id: string): seq<int> {
    if |rows| == 0 then []
    else
      var r := rows[|rows| - 1];
      Completions(rows[..|rows| - 1], id) + if r.NodeRow? && r.node == id then [r.chapter] else []
  }

  /** A node is done exactly when the ledger has one completion of it, in its own chapter. */
  ghost predicate NodeBooked(nd: Node, rows: seq<Row>, ch: int) {
    if nd.status == Done
    then nd.completed.Some? && nd.completed.value <= ch && Completions(rows, nd.id) == [nd.completed.value]
    else Completions(rows, nd.id) == []
  }

  predicate AllDone(nodes: seq<Node>) {
    forall j :: 0 <= j < |nodes| ==> nodes[j].status == Done
  }

  /** The end of a completed arc is the last of its nodes' chapters. */
  ghost predicate EndsWithLast(arc: Arc) {
    && arc.endChapter.Some?
    && (forall j :: 0 <= j < |arc.nodes| ==>
          arc.nodes[j].completed.Some? && arc.nodes[j].completed.value <= arc.endChapter.value)
    && exists j :: 0 <= j < |arc.nodes| && arc.nodes[j].completed == arc.endChapter
  }

  ghost predicate NodesBooked(arc: Arc, rows: seq<Row>, ch: int) {
    forall j :: 0 <= j < |arc.nodes| ==> NodeBooked(arc.nodes[j], rows, ch)
  }

  /** The state of an arc between updates. */
  ghost predicate ArcBooked(arc: Arc, rows: seq<Row>, ch: int) {
    && UniqueNodes(arc.nodes)
    && NodesBooked(arc, rows, ch)
    && (arc.nodes != [] ==> (arc.status == Some(Completed) <==> AllDone(arc.nodes)))
    && (arc.nodes != [] && arc.status == Some(Completed) ==> EndsWithLast(arc))
  }

  /** What a later state of an arc keeps of an earlier one. */
  ghost predicate Later(arc: Arc, arc': Arc) {
    && arc'.name == arc.name && SameNodes(arc.nodes, arc'.nodes)
    && forall j :: 0 <= j < |arc.nodes| && arc.nodes[j].status == Done ==> arc'.nodes[j] == arc.nodes[j]
  }

  lemma LaterFrontier(arc: Arc, arc': Arc)
    requires Later(arc, arc')
    ensures Frontier(arc.nodes) <= Frontier(arc'.nodes)
  {
    var f, f' := Frontier(arc.nodes), Frontier(arc'.nodes);
    assert f' < |arc'.nodes| ==> arc'.nodes[f'].status != Done;
  }

  lemma CompleteInKeeps(e: Earned, id: string, ch: int, ch0: int)
    requires UniqueNodes(e.arc.nodes) && NodesBooked(e.arc, e.rows, ch0) && ch0 <= ch
    ensures var e' := CompleteIn(e, id, ch);
            && NodesBooked(e'.arc, e'.rows, ch) && UniqueNodes(e'.arc.nodes)
            && e'.arc == e.arc.(nodes := e'.arc.nodes)
            && (e' == e || exists j :: 0 <= j < |e'.arc.nodes| && e'.arc.nodes[j].completed == Some(ch))
  {
    var e' := CompleteIn(e, id, ch);
    var j := LastNode(e.arc.nodes, id);
    if j >= 0 && e.arc.nodes[j].status != Done {
      assert e'.arc.nodes[j].completed == Some(ch);
      forall i | 0 <= i < |e'.arc.nodes|
        ensures NodeBooked(e'.arc.nodes[i], e'.rows, ch)
      {
        assert NodeBooked(e.arc.nodes[i], e.rows, ch0);
        assert e'.rows[..|e'.rows| - 1] == e.rows;
      }
    } else {
      forall i | 0 <= i < |e.arc.nodes|
        ensures NodeBooked(e.arc.nodes[i], e.rows, ch)
      {
        assert NodeBooked(e.arc.nodes[i], e.rows, ch0);
      }
    }
  }

  lemma {:induction false} CompleteAllInKeeps(e: Earned, ids: seq<string>, ch: int, ch0: int)
    requires UniqueNodes(e.arc.nodes) && NodesBooked(e.arc, e.rows, ch0) && ch0 <= ch
    ensures var e' := CompleteAllIn(e, ids, ch);
            && NodesBooked(e'.arc, e'.rows, ch) && UniqueNodes(e'.arc.nodes)
            && e'.arc == e.arc.(nodes := e'.arc.nodes)
            && (e' == e || exists j :: 0 <= j < |e'.arc.nodes| && e'.arc.nodes[j].completed == Some(ch))
  {
    if |ids| == 0 {
      assert forall i :: 0 <= i < |e.arc.nodes| ==> NodeBooked(e.arc.nodes[i], e.rows, ch0) ==> NodeBooked(e.arc.nodes[i], e.rows, ch);
    } else {
      CompleteAllInKeeps(e, ids[..|ids| - 1], ch, ch0);
      CompleteInKeeps(CompleteAllIn(e, ids[..|ids| - 1], ch), ids[|ids| - 1], ch, ch);
    }
  }

  lemma FrontierAllDone(nodes: seq<Node>)
    ensures Frontier(nodes) == |nodes| <==> AllDone(nodes)
  {
  }

  /** A note's row completes nothing. */
  lemma NoteInKeeps(e: Earned, notes: string, ch: int)
    requires NodesBooked(e.arc, e.rows, ch)
    ensures var e' := NoteIn(e, notes, ch); NodesBooked(e'.arc, e'.rows, ch) && e'.arc.nodes == e.arc.nodes
  {
    var e' := NoteIn(e, notes, ch);
    forall j | 0 <= j < |e'.arc.nodes|
      ensures NodeBooked(e'.arc.nodes[j], e'.rows, ch)
    {
      assert NodeBooked(e.arc.nodes[j], e.rows, ch);
      if notes != "" {
        assert e'.rows[..|e'.rows| - 1] == e.rows;
      }
    }
  }

  lemma UpdateInKeeps(e: Earned, up: ArcUpdate, ch: int, ch0: int)
    requires ArcBooked(e.arc, e.rows, ch0) && ch0 <= ch
    ensures ArcBooked(UpdateIn(e, up, ch).arc, UpdateIn(e, up, ch).rows, ch)
  {
    CompleteAllInKeeps(e, up.nodesCompleted, ch, ch0);
    CompleteAllInGains(e, up.nodesCompleted, ch);
    var e1 := CompleteAllIn(e, up.nodesCompleted, ch);
    var e2 := NoteIn(e1, up.notes, ch);
    var e' := UpdateIn(e, up, ch);
    NoteInKeeps(e1, up.notes, ch);
    FrontierAllDone(e1.arc.nodes);
    if e1.arc.nodes != [] && e.arc.status == Some(Completed) {
      assert e1.arc.nodes == e.arc.nodes;
    } else if e1.arc.nodes != [] && AllDone(e1.arc.nodes) {
      assert e1 != e;
      assert forall j :: 0 <= j < |e1.arc.nodes| ==> NodeBooked(e1.arc.nodes[j], e1.rows, ch);
    }
  }

  /******* Progress, whatever the plot *******/

  /** The place a completion of that node is booked to: the last arc of the name, the last node of the id. */
  predicate IsTarget(arcs: seq<Arc>, i: nat, j: nat)
    requires i < |arcs| && j < |arcs[i].nodes|
  {
    LastArc(arcs, arcs[i].name) == i && LastNode(arcs[i].nodes, arcs[i].nodes[j].id) == j
  }

  ghost predicate AllLater(arcs: seq<Arc>, arcs': seq<Arc>) {
    |arcs'| == |arcs| && forall i :: 0 <= i < |arcs| ==> Later(arcs[i], arcs'[i])
  }

  /** Done nodes stay as they were, and only a completion's own place becomes done. */
  ghost predicate Advanced(arcs: seq<Arc>, arcs': seq<Arc>) {
    && AllLater(arcs, arcs')
    && forall i, j :: 0 <= i < |arcs| && 0 <= j < |arcs[i].nodes| ==> NewlyDone(arcs, arcs', i, j) ==> IsTarget(arcs, i, j)
  }

  ghost predicate NewlyDone(arcs: seq<Arc>, arcs': seq<Arc>, i: nat, j: nat)
    requires i < |arcs| && j < |arcs[i].nodes| && AllLater(arcs, arcs')
  {
    arcs[i].nodes[j].status != Done && arcs'[i].nodes[j].status == Done
  }

  lemma LaterShape(arcs: seq<Arc>, arcs': seq<Arc>)
    requires AllLater(arcs, arcs')
    ensures SameShape(arcs, arcs')
  {
    forall i | 0 <= i < |arcs|
      ensures arcs'[i].name == arcs[i].name && SameNodes(arcs[i].nodes, arcs'[i].nodes)
    {
      assert Later(arcs[i], arcs'[i]);
    }
  }

  lemma SameTarget(arcs: seq<Arc>, arcs': seq<Arc>, i: nat, j: nat)
    requires AllLater(arcs, arcs') && i < |arcs| && j < |arcs[i].nodes|
    ensures j < |arcs'[i].nodes| && (IsTarget(arcs', i, j) <==> IsTarget(arcs, i, j))
  {
    LaterShape(arcs, arcs');
    assert Later(arcs[i], arcs'[i]);
    LastArcSame(arcs, arcs', arcs[i].name);
    SameLastNode(arcs[i].nodes, arcs'[i].nodes, arcs[i].nodes[j].id);
  }

  lemma AllLaterTransitive(a: seq<Arc>, b: seq<Arc>, c: seq<Arc>)
    requires AllLater(a, b) && AllLater(b, c)
    ensures AllLater(a, c)
  {
    forall i | 0 <= i < |a|
      ensures Later(a[i], c[i])
    {
      assert Later(a[i], b[i]) && Later(b[i], c[i]);
    }
  }

  lemma AdvancedTransitive(a: seq<Arc>, b: seq<Arc>, c: seq<Arc>)
    requires Advanced(a, b) && Advanced(b, c)
    ensures Advanced(a, c)
  {
    AllLaterTransitive(a, b, c);
    forall i, j | 0 <= i < |a| && 0 <= j < |a[i].nodes| && NewlyDone(a, c, i, j)
      ensures IsTarget(a, i, j)
    {
      SameTarget(a, b, i, j);
      assert NewlyDone(a, b, i, j) || NewlyDone(b, c, i, j);
    }
  }

  /** One arc replaced by a later one that gained nodes only at their targets. */
  lemma OneArcAdvanced(arcs: seq<Arc>, a: nat, arc: Arc)
    requires a < |arcs| && LastArc(arcs, arcs[a].name) == a && Later(arcs[a], arc)
    requires forall j :: 0 <= j < |arc.nodes| && arc.nodes[j].status == Done && arcs[a].nodes[j].status != Done ==>
               LastNode(arcs[a].nodes, arcs[a].nodes[j].id) == j
    ensures Advanced(arcs, arcs[a := arc])
  {
  }

  /** What completing by id gains within one arc. */
  ghost predicate GainedAtLast(arc: Arc, arc': Arc) {
    && Later(arc, arc')
    && forall j :: 0 <= j < |arc.nodes| && arc'.nodes[j].status == Done && arc.nodes[j].status != Done ==>
         LastNode(arc.nodes, arc.nodes[j].id) == j
  }

  lemma CompleteInGains(e: Earned, id: string, ch: int)
    ensures GainedAtLast(e.arc, CompleteIn(e, id, ch).arc)
  {
  }

  lemma GainsTransitive(a: Arc, b: Arc, c: Arc)
    requires GainedAtLast(a, b) && GainedAtLast(b, c)
    ensures GainedAtLast(a, c)
  {
    forall j | 0 <= j < |a.nodes| && c.nodes[j].status == Done && a.nodes[j].status != Done
      ensures LastNode(a.nodes, a.nodes[j].id) == j
    {
      SameLastNode(a.nodes, b.nodes, a.nodes[j].id);
    }
  }

  lemma {:induction false} CompleteAllInGains(e: Earned, ids: seq<string>, ch: int)
    ensures GainedAtLast(e.arc, CompleteAllIn(e, ids, ch).arc)
  {
    if |ids| > 0 {
      var e0 := CompleteAllIn(e, ids[..|ids| - 1], ch);
      CompleteAllInGains(e, ids[..|ids| - 1], ch);
      CompleteInGains(e0, ids[|ids| - 1], ch);
      GainsTransitive(e.arc, e0.arc, CompleteIn(e0, ids[|ids| - 1], ch).arc);
    }
  }

  lemma UpdateInGains(e: Earned, up: ArcUpdate, ch: int)
    ensures GainedAtLast(e.arc, UpdateIn(e, up, ch).arc)
  {
    CompleteAllInGains(e, up.nodesCompleted, ch);
  }

  lemma UpdateArcAdvances(d: ArcDesk, up: ArcUpdate, ch: int)
    ensures Advanced(d.arcs, UpdateArc(d, up, ch).arcs)
  {
    var a := LastArc(d.arcs, up.name);
    if a >= 0 {
      UpdateArcLocal(d, up, ch);
      UpdateInGains(Earned(d.arcs[a], []), up, ch);
      OneArcAdvanced(d.arcs, a, UpdateIn(Earned(d.arcs[a], []), up, ch).arc);
    }
  }

  lemma {:induction false} UpdateArcsAdvance(d: ArcDesk, ups: seq<ArcUpdate>, ch: int)
    ensures Advanced(d.arcs, UpdateArcs(d, ups, ch).arcs)
  {
    if |ups| > 0 {
      var d0 := UpdateArcs(d, ups[..|ups| - 1], ch);
      UpdateArcsAdvance(d, ups[..|ups| - 1], ch);
      UpdateArcAdvances(d0, ups[|ups| - 1], ch);
      AdvancedTransitive(d.arcs, d0.arcs, UpdateArc(d0, ups[|ups| - 1], ch).arcs);
    }
  }

  lemma ChapterAdvances(b: Books, ls: Listing, c: Chapter)
    ensures Advanced(b.arcs, BookChapter(b, ls, c).books.arcs)
  {
    BeforeArcsFrame(b, ls, c);
    var mid := BeforeArcs(b, ls, c);
    UpdateArcsAdvance(ArcDesk(mid.arcs, mid.postings, []), c.arcUpdates, c.n);
  }

  /** Every run advances every plot. */
  lemma {:induction false} RunAdvances(b: Books, ls: Listing, cs: seq<Chapter>)
    ensures Advanced(b.arcs, BookAll(b, ls, cs).books.arcs)
  {
    if |cs| > 0 {
      var mid := BookAll(b, ls, cs[..|cs| - 1]).books;
      RunAdvances(b, ls, cs[..|cs| - 1]);
      ChapterAdvances(mid, ls, cs[|cs| - 1]);
      AdvancedTransitive(b.arcs, mid.arcs, BookChapter(mid, ls, cs[|cs| - 1]).books.arcs);
    }
  }

  lemma {:induction false} RestAdvances(b: Books, ls: Listing, cs: seq<Chapter>, k: nat)
    requires k <= |cs|
    ensures Advanced(BookAll(b, ls, cs[..k]).books.arcs, BookAll(b, ls, cs).books.arcs)
    decreases |cs|
  {
    if k == |cs| {
      assert cs[..k] == cs;
    } else {
      var front, c := cs[..|cs| - 1], cs[|cs| - 1];
      assert front[..k] == cs[..k];
      RestAdvances(b, ls, front, k);
      var mid := BookAll(b, ls, front).books;
      ChapterAdvances(mid, ls, c);
      AdvancedTransitive(BookAll(b, ls, cs[..k]).books.arcs, mid.arcs, BookChapter(mid, ls, c).books.arcs);
    }
  }

  /** For every plot and every run: a done node stays as it was, and the frontier never retreats. */
  lemma ProgressNeverGoesBack(b: Books, ls: Listing, cs: seq<Chapter>, k: nat, i: nat)
    requires k <= |cs| && i < |b.arcs|
    ensures var early, late := BookAll(b, ls, cs[..k]).books.arcs, BookAll(b, ls, cs).books.arcs;
            && |early| == |late| == |b.arcs| && Later(early[i], late[i])
            && Frontier(early[i].nodes) <= Frontier(late[i].nodes)
  {
    RunAdvances(b, ls, cs[..k]);
    RestAdvances(b, ls, cs, k);
    var early, late := BookAll(b, ls, cs[..k]).books.arcs, BookAll(b, ls, cs).books.arcs;
    assert Later(early[i], late[i]);
    LaterFrontier(early[i], late[i]);
  }

  /******* All arcs, over a run *******/

  ghost predicate PlotBooked(base: seq<Posting>, arcs: seq<Arc>, postings: seq<Posting>, ch: int) {
    && base <= postings && UniqueIds(arcs)
    && forall i :: 0 <= i < |arcs| ==> ArcBooked(arcs[i], NewRows(base, postings, Account(Arcs, arcs[i].name)), ch)
  }

  lemma NewRowsConcat(base: seq<Posting>, p: seq<Posting>, q: seq<Posting>, account: Account)
    requires base <= p
    ensures NewRows(base, p + q, account) == NewRows(base, p, account) + LedgerOf(q, account)
  {
    assert (p + q)[|base|..] == p[|base|..] + q;
    LedgerOfConcat(p[|base|..], q, account);
  }

  lemma {:induction false} EarnedShift(arc: Arc, before: seq<Row>, ids: seq<string>, ch: int)
    ensures var e := CompleteAllIn(Earned(arc, []), ids, ch);
            CompleteAllIn(Earned(arc, before), ids, ch) == Earned(e.arc, before + e.rows)
  {
    if |ids| > 0 {
      EarnedShift(arc, before, ids[..|ids| - 1], ch);
    }
  }

  lemma UpdateShift(arc: Arc, before: seq<Row>, up: ArcUpdate, ch: int)
    ensures var e := UpdateIn(Earned(arc, []), up, ch);
            UpdateIn(Earned(arc, before), up, ch) == Earned(e.arc, before + e.rows)
  {
    EarnedShift(arc, before, up.nodesCompleted, ch);
    var e1 := CompleteAllIn(Earned(arc, []), up.nodesCompleted, ch);
    assert (before + e1.rows) + [NoteRow(ch, up.notes)] == before + (e1.rows + [NoteRow(ch, up.notes)]);
  }

  lemma ArcBookedLonger(arc: Arc, rows: seq<Row>, ch: int, ch': int)
    requires ArcBooked(arc, rows, ch) && ch <= ch'
    ensures ArcBooked(arc, rows, ch')
  {
    assert forall j :: 0 <= j < |arc.nodes| ==> NodeBooked(arc.nodes[j], rows, ch) ==> NodeBooked(arc.nodes[j], rows, ch');
  }

  lemma UpdateArcKeeps(base: seq<Posting>, d: ArcDesk, up: ArcUpdate, ch: int, ch0: int)
    requires PlotBooked(base, d.arcs, d.postings, ch0) && ch0 <= ch
    ensures var d' := UpdateArc(d, up, ch);
            PlotBooked(base, d'.arcs, d'.postings, ch)
  {
    var a := LastArc(d.arcs, up.name);
    if a < 0 {
      PlotBookedLonger(base, d.arcs, d.postings, ch0, ch);
    } else {
      UpdateArcLocal(d, up, ch);
      var before := NewRows(base, d.postings, Account(Arcs, up.name));
      var e := UpdateIn(Earned(d.arcs[a], []), up, ch);
      UpdateShift(d.arcs[a], before, up, ch);
      UpdateInKeeps(Earned(d.arcs[a], before), up, ch, ch0);
      UpdateInGains(Earned(d.arcs[a], []), up, ch);
      OneArcBooked(base, d.arcs, d.postings, a, e, ch0, ch);
    }
  }

  lemma PlotBookedLonger(base: seq<Posting>, arcs: seq<Arc>, postings: seq<Posting>, ch0: int, ch: int)
    requires PlotBooked(base, arcs, postings, ch0) && ch0 <= ch
    ensures PlotBooked(base, arcs, postings, ch)
  {
    forall i | 0 <= i < |arcs|
      ensures ArcBooked(arcs[i], NewRows(base, postings, Account(Arcs, arcs[i].name)), ch)
    {
      ArcBookedLonger(arcs[i], NewRows(base, postings, Account(Arcs, arcs[i].name)), ch0, ch);
    }
  }

  /** One arc and its rows moved on; the others have no part in it. */
  lemma OneArcBooked(base: seq<Posting>, arcs: seq<Arc>, postings: seq<Posting>, a: nat, e: Earned, ch0: int, ch: int)
    requires PlotBooked(base, arcs, postings, ch0) && ch0 <= ch && a < |arcs| && e.arc.name == arcs[a].name
    requires ArcBooked(e.arc, NewRows(base, postings, Account(Arcs, arcs[a].name)) + e.rows, ch)
    ensures var arcs', postings' := arcs[a := e.arc], postings + Posted(arcs[a].name, e.rows);
            PlotBooked(base, arcs', postings', ch)
  {
    var arcs', postings' := arcs[a := e.arc], postings + Posted(arcs[a].name, e.rows);
    forall i | 0 <= i < |arcs|
      ensures ArcBooked(arcs'[i], NewRows(base, postings', Account(Arcs, arcs'[i].name)), ch)
    {
      var account := Account(Arcs, arcs[i].name);
      NewRowsConcat(base, postings, Posted(arcs[a].name, e.rows), account);
      PostedLedger(arcs[a].name, e.rows, account);
      if i != a {
        assert arcs[i].name != arcs[a].name;
        ArcBookedLonger(arcs[i], NewRows(base, postings, account), ch0, ch);
        assert NewRows(base, postings, account) + [] == NewRows(base, postings, account);
      }
    }
  }

  lemma {:induction false} UpdateArcsKeep(base: seq<Posting>, d: ArcDesk, ups: seq<ArcUpdate>, ch: int, ch0: int)
    requires PlotBooked(base, d.arcs, d.postings, ch0) && ch0 <= ch
    ensures var d' := UpdateArcs(d, ups, ch);
            PlotBooked(base, d'.arcs, d'.postings, ch)
  {
    if |ups| == 0 {
      PlotBookedLonger(base, d.arcs, d.postings, ch0, ch);
    } else {
      var d0 := UpdateArcs(d, ups[..|ups| - 1], ch);
      UpdateArcsKeep(base, d, ups[..|ups| - 1], ch, ch0);
      UpdateArcKeeps(base, d0, ups[|ups| - 1], ch, ch);
    }
  }

  ghost predicate NoArcRows(p: seq<Posting>, q: seq<Posting>) {
    p <= q && forall i :: |p| <= i < |q| ==> q[i].account.kind != Arcs
  }

  lemma {:induction false} NoArcLedger(p: seq<Posting>, account: Account)
    requires account.kind == Arcs && forall i :: 0 <= i < |p| ==> p[i].account.kind != Arcs
    ensures LedgerOf(p, account) == []
  {
    if |p| > 0 {
      NoArcLedger(p[..|p| - 1], account);
    }
  }

  lemma OtherRowsKeepPlot(base: seq<Posting>, arcs: seq<Arc>, p: seq<Posting>, q: seq<Posting>, ch: int)
    requires PlotBooked(base, arcs, p, ch) && NoArcRows(p, q)
    ensures PlotBooked(base, arcs, q, ch)
  {
    var more := q[|p|..];
    assert q == p + more;
    forall i | 0 <= i < |arcs|
      ensures ArcBooked(arcs[i], NewRows(base, q, Account(Arcs, arcs[i].name)), ch)
    {
      var account := Account(Arcs, arcs[i].name);
      NewRowsConcat(base, p, more, account);
      NoArcLedger(more, account);
      assert NewRows(base, p, account) + [] == NewRows(base, p, account);
    }
  }

  /** Everything a chapter books before its arc updates. */
  function BeforeArcs(b: Books, ls: Listing, c: Chapter): Books {
    var ev := BookEvents(b, ls, c.events, c.n);
    if ev.error.Some? then ev.books
    else BookThreads(BookAppearances(ev.books, ls, c.appearances, c.n).books, c.threadUpdates, c.n).books
  }

  lemma {:induction false} EventsNoArcRows(d: Desk, evs: seq<Event>, ch: int)
    ensures var d' := PostEvents(d, evs, ch);
            && NoArcRows(d.books.postings, d'.books.postings) && d'.books.arcs == d.books.arcs
            && d'.books.threads == d.books.threads
  {
    if |evs| > 0 {
      EventsNoArcRows(d, evs[..|evs| - 1], ch);
      EventNoArcRow(PostEvents(d, evs[..|evs| - 1], ch), evs[|evs| - 1], ch);
    }
  }

  lemma EventNoArcRow(d: Desk, ev: Event, ch: int)
    ensures var d' := PostEvent(d, ev, ch);
            && NoArcRows(d.books.postings, d'.books.postings) && d'.books.arcs == d.books.arcs
            && d'.books.threads == d.books.threads
  {
  }

  lemma {:induction false} AppearancesNoArcRows(d: Desk, aps: seq<Appearance>, ch: int)
    ensures var d' := NovelState.LogAppearances(d, aps, ch);
            && NoArcRows(d.books.postings, d'.books.postings) && d'.books.arcs == d.books.arcs
            && d'.books.threads == d.books.threads
  {
    if |aps| > 0 {
      AppearancesNoArcRows(d, aps[..|aps| - 1], ch);
    }
  }

  lemma BeforeArcsFrame(b: Books, ls: Listing, c: Chapter)
    ensures NoArcRows(b.postings, BeforeArcs(b, ls, c).postings) && BeforeArcs(b, ls, c).arcs == b.arcs
  {
    EventsNoArcRows(OpenDesk(b, ls), c.events, c.n);
    var ev := BookEvents(b, ls, c.events, c.n).books;
    AppearancesNoArcRows(OpenDesk(ev, ls), c.appearances, c.n);
    var ap := BookAppearances(ev, ls, c.appearances, c.n).books;
    ThreadPostings(ThreadDesk(ap.threads, ap.postings, []), ap.arcs, c.threadUpdates, c.n);
  }

  lemma ChapterKeepsPlot(base: seq<Posting>, b: Books, ls: Listing, c: Chapter, ch0: int)
    requires PlotBooked(base, b.arcs, b.postings, ch0) && ch0 <= c.n
    ensures var b' := BookChapter(b, ls, c).books;
            PlotBooked(base, b'.arcs, b'.postings, c.n)
  {
    BeforeArcsFrame(b, ls, c);
    var mid := BeforeArcs(b, ls, c);
    OtherRowsKeepPlot(base, b.arcs, b.postings, mid.postings, ch0);
    UpdateArcsKeep(base, ArcDesk(mid.arcs, mid.postings, []), [], c.n, ch0);
    UpdateArcsKeep(base, ArcDesk(mid.arcs, mid.postings, []), c.arcUpdates, c.n, ch0);
  }

  ghost predicate InOrder(cs: seq<Chapter>) {
    forall i, j :: 0 <= i < j < |cs| ==> cs[i].n < cs[j].n
  }

  lemma {:induction false} RunKeepsPlot(b: Books, ls: Listing, cs: seq<Chapter>, ch0: int)
    requires PlotBooked(b.postings, b.arcs, b.postings, ch0)
    requires InOrder(cs) && (forall i :: 0 <= i < |cs| ==> ch0 <= cs[i].n)
    ensures var b' := BookAll(b, ls, cs).books;
            PlotBooked(b.postings, b'.arcs, b'.postings, if |cs| == 0 then ch0 else cs[|cs| - 1].n)
  {
    if |cs| > 0 {
      var front, c := cs[..|cs| - 1], cs[|cs| - 1];
      RunKeepsPlot(b, ls, front, ch0);
      var mid := BookAll(b, ls, front).books;
      var ch1 := if |front| == 0 then ch0 else front[|front| - 1].n;
      assert ch1 <= c.n;
      ChapterKeepsPlot(b.postings, mid, ls, c, ch1);
      PlotBookedLonger(b.postings, mid.arcs, mid.postings, ch1, c.n);
    }
  }

  /** The opening plot: unique names and ids, no node done, no arc marked completed. */
  ghost predicate FreshPlot(arcs: seq<Arc>) {
    UniqueIds(arcs) && NothingDone(arcs) &&
    forall i :: 0 <= i < |arcs| && arcs[i].nodes != [] ==> arcs[i].status != Some(Completed)
  }

  lemma FreshIsBooked(b: Books, ch: int)
    requires FreshPlot(b.arcs)
    ensures PlotBooked(b.postings, b.arcs, b.postings, ch)
  {
    assert b.postings[|b.postings|..] == [];
    forall i | 0 <= i < |b.arcs|
      ensures ArcBooked(b.arcs[i], NewRows(b.postings, b.postings, Account(Arcs, b.arcs[i].name)), ch)
    {
      var arc := b.arcs[i];
      assert forall j :: 0 <= j < |arc.nodes| ==> NodeBooked(arc.nodes[j], [], ch);
      assert arc.nodes != [] ==> arc.nodes[0].status != Done;
    }
  }

  /**
   After any chapter-ordered run: every node is done exactly when its ledger holds one
   completion, of its own chapter; an arc with nodes is completed exactly when all of them
   are done, and it ends in the last of their chapters.
   */
  lemma ProgressIsTheLedger(b: Books, ls: Listing, cs: seq<Chapter>, i: nat)
    requires FreshPlot(b.arcs) && InOrder(cs) && i < |b.arcs|
    ensures var b' := BookAll(b, ls, cs).books;
            && |b'.arcs| == |b.arcs| && b'.arcs[i].name == b.arcs[i].name
            && exists ch :: ArcBooked(b'.arcs[i], NewRows(b.postings, b'.postings, Account(Arcs, b.arcs[i].name)), ch)
  {
    var ch0 := if |cs| == 0 then 0 else cs[0].n;
    FreshIsBooked(b, ch0);
    RunKeepsPlot(b, ls, cs, ch0);
    var b' := BookAll(b, ls, cs).books;
    RunAdvances(b, ls, cs);
    assert Later(b.arcs[i], b'.arcs[i]);
    var ch := if |cs| == 0 then ch0 else cs[|cs| - 1].n;
    assert ArcBooked(b'.arcs[i], NewRows(b.postings, b'.postings, Account(Arcs, b.arcs[i].name)), ch);
  }
}
