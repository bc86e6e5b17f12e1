/**
 Threads over whole runs: a gate node is looked up first-come, completions are booked
 last-come, and the two agree exactly where names and ids are unambiguous.
 */
module NovelThreads {
  import opened Values
  import opened NovelState
  import opened NovelPosting
  import opened NovelJournal
  import opened NovelPlot

  /******* Where a gate looks *******/

  function FirstNode(nodes: seq<Node>, id: string): (j: int)
    ensures -1 <= j < |nodes|
    ensures j >= 0 ==> nodes[j].id == id
    ensures forall i :: 0 <= i < |nodes| && (j < 0 || i < j) ==> nodes[i].id != id
  {
    if nodes == [] then -1
    else if nodes[0].id == id then 0
    else var j := FirstNode(nodes[1..], id); if j < 0 then -1 else j + 1
  }

  lemma {:induction false} NodeDoneInFirst(nodes: seq<Node>, id: string)
    ensures NodeDoneIn(nodes, id) ==
            var j := FirstNode(nodes, id); if j < 0 then None else Some(nodes[j].status == Done)
  {
    if nodes != [] && nodes[0].id != id {
      NodeDoneInFirst(nodes[1..], id);
    }
  }

  /** The first arc of that name which has such a node. */
  function FirstArc(arcs: seq<Arc>, name: string, id: string): (i: int)
    ensures -1 <= i < |arcs|
    ensures i >= 0 ==> arcs[i].name == name && FirstNode(arcs[i].nodes, id) >= 0
    ensures forall k :: 0 <= k < |arcs| && (i < 0 || k < i) ==> !(arcs[k].name == name && FirstNode(arcs[k].nodes, id) >= 0)
  {
    if arcs == [] then -1
    else if arcs[0].name == name && FirstNode(arcs[0].nodes, id) >= 0 then 0
    else var i := FirstArc(arcs[1..], name, id); if i < 0 then -1 else i + 1
  }

  lemma {:induction false} NodeDoneFirst(arcs: seq<Arc>, name: string, id: string)
    ensures NodeDone(arcs, name, id) <==>
            var i := FirstArc(arcs, name, id); i >= 0 && arcs[i].nodes[FirstNode(arcs[i].nodes, id)].status == Done
  {
    if arcs != [] {
      NodeDoneInFirst(arcs[0].nodes, id);
      NodeDoneFirst(arcs[1..], name, id);
    }
  }

  lemma SameFirstNode(nodes: seq<Node>, nodes': seq<Node>, id: string)
    requires SameNodes(nodes, nodes')
    ensures FirstNode(nodes', id) == FirstNode(nodes, id)
  {
    var j, j' := FirstNode(nodes, id), FirstNode(nodes', id);
    assert j' >= 0 ==> nodes[j'].id == id;
    assert j >= 0 ==> nodes'[j].id == id;
  }

  lemma SameFirstArc(arcs: seq<Arc>, arcs': seq<Arc>, name: string, id: string)
    requires SameShape(arcs, arcs')
    ensures FirstArc(arcs', name, id) == FirstArc(arcs, name, id)
  {
    forall k | 0 <= k < |arcs|
      ensures FirstNode(arcs'[k].nodes, id) == FirstNode(arcs[k].nodes, id)
    {
      SameFirstNode(arcs[k].nodes, arcs'[k].nodes, id);
    }
    var i, i' := FirstArc(arcs, name, id), FirstArc(arcs', name, id);
    assert i' >= 0 ==> arcs[i'].name == name && FirstNode(arcs[i'].nodes, id) >= 0;
    assert i >= 0 ==> arcs'[i].name == name && FirstNode(arcs'[i].nodes, id) >= 0;
  }

  /**
   Booking a completion opens the gate on that node exactly when the gate was open already
   or the place the gate looks at is the place the completion is booked to.
   */
  lemma CompletionOpensGateIff(d: ArcDesk, name: string, id: string, ch: int)
    requires var a := LastArc(d.arcs, name); a >= 0 && LastNode(d.arcs[a].nodes, id) >= 0
    ensures var a := LastArc(d.arcs, name);
            NodeDone(CompleteNode(d, a, id, ch).arcs, name, id) <==>
            NodeDone(d.arcs, name, id) ||
            (FirstArc(d.arcs, name, id) == a && FirstNode(d.arcs[a].nodes, id) == LastNode(d.arcs[a].nodes, id))
  {
    var a := LastArc(d.arcs, name);
    var arcs' := CompleteNode(d, a, id, ch).arcs;
    CompletedShape(d, a, id, ch);
    NodeDoneFirst(d.arcs, name, id);
    NodeDoneFirst(arcs', name, id);
    SameFirstArc(d.arcs, arcs', name, id);
    var i := FirstArc(d.arcs, name, id);
    SameFirstNode(d.arcs[i].nodes, arcs'[i].nodes, id);
  }

  /** Two arcs of one name: the completion lands in the last, the gate asks the first. */
  lemma DuplicateArcKeepsGateShut() returns (arcs: seq<Arc>)
    ensures var d := UpdateArc(ArcDesk(arcs, [], []), ArcUpdate("A", ["n"], ""), 1);
            IsDone(d.arcs, "A", "n") && !NodeDone(d.arcs, "A", "n")
  {
    var arc := Arc("A", [Node("n", Undone("pending"), None)], None, None, None, None, map[]);
    arcs := [arc, arc];
    var d := ArcDesk(arcs, [], []);
    var up := ArcUpdate("A", ["n"], "");
    assert LastArc(arcs, "A") == 1;
    assert ["n"][..0] == [];
    assert CompleteNodes(d, 1, [], 1) == d;
    var d1 := CompleteNodes(d, 1, ["n"], 1);
    assert d1 == CompleteNode(d, 1, "n", 1);
    var d2 := UpdateArc(d, up, 1);
    assert d2.arcs[0] == arc && d2.arcs[1].name == "A" && d2.arcs[1].nodes[0].status == Done;
    assert LastArc(d2.arcs, "A") == 1 && LastNode(d2.arcs[1].nodes, "n") == 0;
    assert NodeDoneIn(d2.arcs[0].nodes, "n") == Some(false);
  }

  /** The place the gate looks at is the place a completion is booked to. */
  predicate Unambiguous(arcs: seq<Arc>, name: string, id: string) {
    var i := FirstArc(arcs, name, id);
    i >= 0 && i == LastArc(arcs, name) && FirstNode(arcs[i].nodes, id) == LastNode(arcs[i].nodes, id)
  }

  lemma UnambiguousLooksAgree(arcs: seq<Arc>, name: string, id: string)
    requires Unambiguous(arcs, name, id)
    ensures NodeDone(arcs, name, id) <==> IsDone(arcs, name, id)
  {
    NodeDoneFirst(arcs, name, id);
  }

  lemma SameAmbiguity(arcs: seq<Arc>, arcs': seq<Arc>, name: string, id: string)
    requires SameShape(arcs, arcs')
    ensures Unambiguous(arcs', name, id) <==> Unambiguous(arcs, name, id)
  {
    SameFirstArc(arcs, arcs', name, id);
    LastArcSame(arcs, arcs', name);
    var i := FirstArc(arcs, name, id);
    if i >= 0 {
      SameFirstNode(arcs[i].nodes, arcs'[i].nodes, id);
      SameLastNode(arcs[i].nodes, arcs'[i].nodes, id);
    }
  }

  /** An open gate stays open, and an ambiguous one keeps its answer either way. */
  lemma AdvancedGate(arcs: seq<Arc>, arcs': seq<Arc>, name: string, id: string)
    requires Advanced(arcs, arcs')
    ensures NodeDone(arcs, name, id) ==> NodeDone(arcs', name, id)
    ensures !Unambiguous(arcs, name, id) ==> (NodeDone(arcs', name, id) <==> NodeDone(arcs, name, id))
  {
    LaterShape(arcs, arcs');
    NodeDoneFirst(arcs, name, id);
    NodeDoneFirst(arcs', name, id);
    SameFirstArc(arcs, arcs', name, id);
    var i := FirstArc(arcs, name, id);
    if i >= 0 {
      SameFirstNode(arcs[i].nodes, arcs'[i].nodes, id);
      assert Later(arcs[i], arcs'[i]);
      var j := FirstNode(arcs[i].nodes, id);
      assert NewlyDone(arcs, arcs', i, j) ==> IsTarget(arcs, i, j);
    }
  }

  /** Over every run a gate that names two places keeps the answer it had at genesis. */
  lemma AmbiguousGateNeverMoves(b: Books, ls: Listing, cs: seq<Chapter>, name: string, id: string)
    requires !Unambiguous(b.arcs, name, id)
    ensures NodeDone(BookAll(b, ls, cs).books.arcs, name, id) <==> NodeDone(b.arcs, name, id)
  {
    RunAdvances(b, ls, cs);
    AdvancedGate(b.arcs, BookAll(b, ls, cs).books.arcs, name, id);
  }

  /******* Done, by genesis or by the ledger *******/

  /** The postings that came after the first `|before|`. */
  function Since(before: seq<Posting>, after: seq<Posting>): seq<Posting> {
    if |before| <= |after| then after[|before|..] else []
  }

  /** The ledger records a completion of the node. */
  ghost predicate Completed(p: seq<Posting>, name: string, id: string) {
    exists i :: 0 <= i < |p| && p[i].account == Account(Arcs, name) && p[i].row.NodeRow? && p[i].row.node == id
  }

  ghost predicate CompletedBefore(p: seq<Posting>, name: string, id: string, n: int) {
    exists i :: 0 <= i < |p| && p[i].account == Account(Arcs, name) && p[i].row.NodeRow? && p[i].row.node == id &&
                p[i].row.chapter < n
  }

  lemma CompletedConcat(p: seq<Posting>, q: seq<Posting>, name: string, id: string)
    ensures Completed(p + q, name, id) <==> Completed(p, name, id) || Completed(q, name, id)
  {
    if i :| 0 <= i < |p| && p[i].account == Account(Arcs, name) && p[i].row.NodeRow? && p[i].row.node == id {
      assert (p + q)[i] == p[i];
    }
    if i :| 0 <= i < |q| && q[i].account == Account(Arcs, name) && q[i].row.NodeRow? && q[i].row.node == id {
      assert (p + q)[|p| + i] == q[i];
    }
  }

  /** What an arc step adds: the same shape, more postings, and done exactly where it says so. */
  ghost predicate DoneByRows(arcs: seq<Arc>, arcs': seq<Arc>, more: seq<Posting>) {
    && SameShape(arcs, arcs')
    && forall name, id :: IsDone(arcs', name, id) <==> IsDone(arcs, name, id) || Completed(more, name, id)
  }

  lemma DoneByRowsTransitive(a: seq<Arc>, b: seq<Arc>, c: seq<Arc>, p: seq<Posting>, q: seq<Posting>)
    requires DoneByRows(a, b, p) && DoneByRows(b, c, q)
    ensures DoneByRows(a, c, p + q)
  {
    forall name, id
      ensures IsDone(c, name, id) <==> IsDone(a, name, id) || Completed(p + q, name, id)
    {
      CompletedConcat(p, q, name, id);
      assert IsDone(b, name, id) <==> IsDone(a, name, id) || Completed(p, name, id);
      assert IsDone(c, name, id) <==> IsDone(b, name, id) || Completed(q, name, id);
    }
    forall i | 0 <= i < |a|
      ensures c[i].name == a[i].name && SameNodes(a[i].nodes, c[i].nodes)
    {
      assert SameNodes(a[i].nodes, b[i].nodes) && SameNodes(b[i].nodes, c[i].nodes);
    }
  }

  lemma CompleteNodeDone(d: ArcDesk, a: nat, id: string, ch: int)
    requires a < |d.arcs| && a == LastArc(d.arcs, d.arcs[a].name)
    ensures var d' := CompleteNode(d, a, id, ch);
            d.postings <= d'.postings && DoneByRows(d.arcs, d'.arcs, d'.postings[|d.postings|..])
  {
    var d' := CompleteNode(d, a, id, ch);
    var more := d'.postings[|d.postings|..];
    CompletedShape(d, a, id, ch);
    forall name', id'
      ensures IsDone(d'.arcs, name', id') <==> IsDone(d.arcs, name', id') || Completed(more, name', id')
    {
      CompletedIsDone(d, a, id, ch, name', id');
      if |more| == 1 {
        assert more[0] == Posting(Account(Arcs, d.arcs[a].name), NodeRow(ch, id));
      }
    }
  }

  lemma {:induction false} CompleteNodesDone(d: ArcDesk, a: nat, ids: seq<string>, ch: int)
    requires a < |d.arcs| && a == LastArc(d.arcs, d.arcs[a].name)
    ensures var d' := CompleteNodes(d, a, ids, ch);
            d.postings <= d'.postings && DoneByRows(d.arcs, d'.arcs, d'.postings[|d.postings|..])
  {
    if |ids| > 0 {
      CompleteNodesDone(d, a, ids[..|ids| - 1], ch);
      var d0, d' := CompleteNodes(d, a, ids[..|ids| - 1], ch), CompleteNodes(d, a, ids, ch);
      SameShapeLookup(d.arcs, d0.arcs, d.arcs[a].name);
      CompleteNodeDone(d0, a, ids[|ids| - 1], ch);
      JoinDone(d.postings, d0.postings, d'.postings, d.arcs, d0.arcs, d'.arcs);
    }
  }

  /** Relabelling an arc and posting other rows completes nothing. */
  lemma RelabelDone(arcs: seq<Arc>, a: nat, arc: Arc, more: seq<Posting>)
    requires a < |arcs| && arc.name == arcs[a].name && arc.nodes == arcs[a].nodes
    requires forall i :: 0 <= i < |more| ==> !more[i].row.NodeRow?
    ensures DoneByRows(arcs, arcs[a := arc], more)
  {
    forall name, id
      ensures IsDone(arcs[a := arc], name, id) <==> IsDone(arcs, name, id) || Completed(more, name, id)
    {
      assert SameShape(arcs, arcs[a := arc]);
      LastArcSame(arcs, arcs[a := arc], name);
      assert !Completed(more, name, id);
    }
  }

  lemma UpdateArcDone(d: ArcDesk, up: ArcUpdate, ch: int)
    ensures var d' := UpdateArc(d, up, ch);
            d.postings <= d'.postings && DoneByRows(d.arcs, d'.arcs, d'.postings[|d.postings|..])
  {
    var a := LastArc(d.arcs, up.name);
    var d' := UpdateArc(d, up, ch);
    if a >= 0 {
      CompleteNodesDone(d, a, up.nodesCompleted, ch);
      var d1 := CompleteNodes(d, a, up.nodesCompleted, ch);
      var more := d'.postings[|d1.postings|..];
      assert d'.arcs == d1.arcs[a := d'.arcs[a]];
      RelabelDone(d1.arcs, a, d'.arcs[a], more);
      DoneByRowsTransitive(d.arcs, d1.arcs, d'.arcs, d1.postings[|d.postings|..], more);
      assert d'.postings[|d.postings|..] == d1.postings[|d.postings|..] + more;
    }
  }

  lemma {:induction false} UpdateArcsDone(d: ArcDesk, ups: seq<ArcUpdate>, ch: int)
    ensures var d' := UpdateArcs(d, ups, ch);
            d.postings <= d'.postings && DoneByRows(d.arcs, d'.arcs, d'.postings[|d.postings|..])
  {
    if |ups| > 0 {
      UpdateArcsDone(d, ups[..|ups| - 1], ch);
      var d0, d' := UpdateArcs(d, ups[..|ups| - 1], ch), UpdateArcs(d, ups, ch);
      UpdateArcDone(d0, ups[|ups| - 1], ch);
      JoinDone(d.postings, d0.postings, d'.postings, d.arcs, d0.arcs, d'.arcs);
    }
  }

  /** Two stretches of the ledger, one after the other. */
  lemma JoinDone(p: seq<Posting>, q: seq<Posting>, r: seq<Posting>, a: seq<Arc>, m: seq<Arc>, z: seq<Arc>)
    requires p <= q <= r && DoneByRows(a, m, q[|p|..]) && DoneByRows(m, z, r[|q|..])
    ensures p <= r && DoneByRows(a, z, r[|p|..])
  {
    DoneByRowsTransitive(a, m, z, q[|p|..], r[|q|..]);
    assert r[|p|..] == q[|p|..] + r[|q|..];
  }

  lemma SameArcsDone(arcs: seq<Arc>, more: seq<Posting>)
    requires forall i :: 0 <= i < |more| ==> more[i].account.kind != Arcs
    ensures DoneByRows(arcs, arcs, more)
  {
  }

  lemma ChapterDone(b: Books, ls: Listing, c: Chapter)
    ensures var b' := BookChapter(b, ls, c).books;
            b.postings <= b'.postings && DoneByRows(b.arcs, b'.arcs, b'.postings[|b.postings|..])
  {
    BeforeArcsFrame(b, ls, c);
    var mid, b' := BeforeArcs(b, ls, c), BookChapter(b, ls, c).books;
    SameArcsDone(b.arcs, mid.postings[|b.postings|..]);
    if BookEvents(b, ls, c.events, c.n).error.None? {
      UpdateArcsDone(ArcDesk(mid.arcs, mid.postings, []), c.arcUpdates, c.n);
      assert b' == BookArcs(mid, c.arcUpdates, c.n).books;
      JoinDone(b.postings, mid.postings, b'.postings, b.arcs, mid.arcs, b'.arcs);
    }
  }

  lemma {:induction false} RunDone(b: Books, ls: Listing, cs: seq<Chapter>)
    ensures var b' := BookAll(b, ls, cs).books;
            b.postings <= b'.postings && DoneByRows(b.arcs, b'.arcs, b'.postings[|b.postings|..])
  {
    if |cs| > 0 {
      RunDone(b, ls, cs[..|cs| - 1]);
      var mid := BookAll(b, ls, cs[..|cs| - 1]).books;
      var b' := BookChapter(mid, ls, cs[|cs| - 1]).books;
      ChapterDone(mid, ls, cs[|cs| - 1]);
      JoinDone(b.postings, mid.postings, b'.postings, b.arcs, mid.arcs, b'.arcs);
    }
  }

  /******* Rows carry their chapter *******/

  ghost predicate RowsOf(p: seq<Posting>, q: seq<Posting>, n: int) {
    p <= q && forall i :: |p| <= i < |q| ==> q[i].row.chapter == n
  }

  lemma {:induction false} EventRows(d: Desk, evs: seq<Event>, ch: int)
    ensures RowsOf(d.books.postings, PostEvents(d, evs, ch).books.postings, ch)
  {
    if |evs| > 0 {
      EventRows(d, evs[..|evs| - 1], ch);
    }
  }

  lemma {:induction false} AppearanceRows(d: Desk, aps: seq<Appearance>, ch: int)
    ensures RowsOf(d.books.postings, NovelState.LogAppearances(d, aps, ch).books.postings, ch)
  {
    if |aps| > 0 {
      AppearanceRows(d, aps[..|aps| - 1], ch);
    }
  }

  lemma {:induction false} ThreadRows(d: ThreadDesk, arcs: seq<Arc>, ups: seq<ThreadUpdate>, ch: int)
    ensures RowsOf(d.postings, UpdateThreads(d, arcs, ups, ch).postings, ch)
  {
    if |ups| > 0 {
      ThreadRows(d, arcs, ups[..|ups| - 1], ch);
    }
  }

  lemma {:induction false} NodeRows(d: ArcDesk, a: nat, ids: seq<string>, ch: int)
    requires a < |d.arcs|
    ensures RowsOf(d.postings, CompleteNodes(d, a, ids, ch).postings, ch)
  {
    if |ids| > 0 {
      NodeRows(d, a, ids[..|ids| - 1], ch);
    }
  }

  lemma {:induction false} ArcRows(d: ArcDesk, ups: seq<ArcUpdate>, ch: int)
    ensures RowsOf(d.postings, UpdateArcs(d, ups, ch).postings, ch)
  {
    if |ups| > 0 {
      ArcRows(d, ups[..|ups| - 1], ch);
      var d0, up := UpdateArcs(d, ups[..|ups| - 1], ch), ups[|ups| - 1];
      var a := LastArc(d0.arcs, up.name);
      if a >= 0 {
        NodeRows(d0, a, up.nodesCompleted, ch);
      }
    }
  }

  lemma ChapterRows(b: Books, ls: Listing, c: Chapter)
    ensures RowsOf(b.postings, BookChapter(b, ls, c).books.postings, c.n)
  {
    EventRows(OpenDesk(b, ls), c.events, c.n);
    var ev := BookEvents(b, ls, c.events, c.n).books;
    AppearanceRows(OpenDesk(ev, ls), c.appearances, c.n);
    var ap := BookAppearances(ev, ls, c.appearances, c.n).books;
    ThreadRows(ThreadDesk(ap.threads, ap.postings, []), ap.arcs, c.threadUpdates, c.n);
    var th := BookThreads(ap, c.threadUpdates, c.n).books;
    ArcRows(ArcDesk(th.arcs, th.postings, []), c.arcUpdates, c.n);
  }

  /** The rows so far are of earlier chapters, and the rest of this one or later. */
  ghost predicate Parted(base: seq<Posting>, early: seq<Posting>, late: seq<Posting>, n: int) {
    && base <= early <= late
    && (forall i :: |base| <= i < |early| ==> early[i].row.chapter < n)
    && (forall i :: |early| <= i < |late| ==> late[i].row.chapter >= n)
  }

  /** The rows booked up to chapter `k` carry earlier chapters than the rows booked from it on. */
  lemma {:induction false} RunRows(b: Books, ls: Listing, cs: seq<Chapter>, k: nat)
    requires InOrder(cs) && k < |cs|
    ensures Parted(b.postings, BookAll(b, ls, cs[..k]).books.postings, BookAll(b, ls, cs).books.postings, cs[k].n)
  {
    var front, c := cs[..|cs| - 1], cs[|cs| - 1];
    var mid, late := BookAll(b, ls, front).books.postings, BookAll(b, ls, cs).books.postings;
    LastChapterRows(b, ls, cs);
    if k < |front| {
      RunRows(b, ls, front, k);
      assert front[..k] == cs[..k] && front[k] == cs[k];
      PartedLonger(b.postings, BookAll(b, ls, cs[..k]).books.postings, mid, late, cs[k].n, c.n);
    } else {
      RunPrefixRows(b, ls, front, c.n);
      assert cs[..k] == front;
    }
  }

  /** The last chapter appends rows of its own number, or none. */
  lemma LastChapterRows(b: Books, ls: Listing, cs: seq<Chapter>)
    requires |cs| > 0
    ensures RowsOf(BookAll(b, ls, cs[..|cs| - 1]).books.postings, BookAll(b, ls, cs).books.postings, cs[|cs| - 1].n)
  {
    ChapterRows(BookAll(b, ls, cs[..|cs| - 1]).books, ls, cs[|cs| - 1]);
  }

  lemma PartedLonger(base: seq<Posting>, early: seq<Posting>, mid: seq<Posting>, late: seq<Posting>, n: int, m: int)
    requires Parted(base, early, mid, n) && RowsOf(mid, late, m) && n <= m
    ensures Parted(base, early, late, n)
  {
    forall i | |early| <= i < |late|
      ensures late[i].row.chapter >= n
    {
      if i < |mid| {
        assert late[i] == mid[i];
      }
    }
  }

  lemma {:induction false} RunPrefixRows(b: Books, ls: Listing, cs: seq<Chapter>, n: int)
    requires forall i :: 0 <= i < |cs| ==> cs[i].n < n
    ensures var p := BookAll(b, ls, cs).books.postings;
            b.postings <= p && forall i :: |b.postings| <= i < |p| ==> p[i].row.chapter < n
  {
    if |cs| > 0 {
      RunPrefixRows(b, ls, cs[..|cs| - 1], n);
      ChapterRows(BookAll(b, ls, cs[..|cs| - 1]).books, ls, cs[|cs| - 1]);
    }
  }

  /** Among all rows of a run, those of chapters before `n` are the first ones. */
  lemma CompletedBeforeIsEarly(base: seq<Posting>, early: seq<Posting>, late: seq<Posting>, name: string, id: string, n: int)
    requires base <= early <= late
    requires forall i :: |base| <= i < |early| ==> early[i].row.chapter < n
    requires forall i :: |early| <= i < |late| ==> late[i].row.chapter >= n
    ensures Completed(early[|base|..], name, id) <==> CompletedBefore(Since(base, late), name, id, n)
  {
    var pe, pl := early[|base|..], Since(base, late);
    assert forall i :: 0 <= i < |pe| ==> pe[i] == early[|base| + i] && pl[i] == pe[i];
    assert forall i :: 0 <= i < |pl| ==> pl[i] == late[|base| + i];
    if CompletedBefore(pl, name, id, n) {
      var i :| 0 <= i < |pl| && pl[i].account == Account(Arcs, name) && pl[i].row.NodeRow? && pl[i].row.node == id &&
               pl[i].row.chapter < n;
      assert pe[i] == pl[i];
    }
  }

  /**
   Over every chapter-ordered run and any plot: a gate is open in chapter `k` if and only if it was
   open at genesis, or it is unambiguous and a strictly earlier chapter completed its node.
   */
  lemma GateOpenIff(b: Books, ls: Listing, cs: seq<Chapter>, k: nat, name: string, id: string)
    requires InOrder(cs) && k < |cs|
    ensures NodeDone(BookAll(b, ls, cs[..k]).books.arcs, name, id) <==>
            NodeDone(b.arcs, name, id) ||
            (Unambiguous(b.arcs, name, id) &&
             CompletedBefore(Since(b.postings, BookAll(b, ls, cs).books.postings), name, id, cs[k].n))
  {
    if Unambiguous(b.arcs, name, id) {
      UnambiguousGateOpenIff(b, ls, cs[..k], name, id);
      RunRows(b, ls, cs, k);
      CompletedBeforeIsEarly(b.postings, BookAll(b, ls, cs[..k]).books.postings, BookAll(b, ls, cs).books.postings,
                             name, id, cs[k].n);
    } else {
      AmbiguousGateNeverMoves(b, ls, cs[..k], name, id);
    }
  }

  lemma UnambiguousGateOpenIff(b: Books, ls: Listing, cs: seq<Chapter>, name: string, id: string)
    requires Unambiguous(b.arcs, name, id)
    ensures var b' := BookAll(b, ls, cs).books;
            && b.postings <= b'.postings
            && (NodeDone(b'.arcs, name, id) <==> NodeDone(b.arcs, name, id) || Completed(b'.postings[|b.postings|..], name, id))
  {
    var b' := BookAll(b, ls, cs).books;
    RunDone(b, ls, cs);
    SameAmbiguity(b.arcs, b'.arcs, name, id);
    UnambiguousLooksAgree(b.arcs, name, id);
    UnambiguousLooksAgree(b'.arcs, name, id);
  }

  /** The thread's gate was shut at genesis, and nothing before chapter `n` could have opened it. */
  ghost predicate StillShut(b: Books, after: seq<Posting>, gate: Gate, n: int) {
    && !NodeDone(b.arcs, gate.arc, gate.node)
    && !(Unambiguous(b.arcs, gate.arc, gate.node) && CompletedBefore(Since(b.postings, after), gate.arc, gate.node, n))
  }

  /**
   Resolving a gated thread in chapter `k` warns exactly when its gate node was not done at the
   start and no strictly earlier chapter completed it where the gate looks; the same chapter is
   too late, and a gate that names two places never opens.
   */
  lemma ResolveWarnsIffEarly(b: Books, ls: Listing, cs: seq<Chapter>, k: nat, d: ThreadDesk, up: ThreadUpdate)
    requires InOrder(cs) && k < |cs|
    requires up.action == ToResolve && LastThread(d.threads, up.name) >= 0
    requires d.threads[LastThread(d.threads, up.name)].gate.Some?
    ensures var gate := d.threads[LastThread(d.threads, up.name)].gate.value;
            UpdateThread(d, BeforeArcs(BookAll(b, ls, cs[..k]).books, ls, cs[k]).arcs, up, cs[k].n).warnings ==
            d.warnings + if StillShut(b, BookAll(b, ls, cs).books.postings, gate, cs[k].n) then [ResolvedEarly(up.name)] else []
  {
    var gate := d.threads[LastThread(d.threads, up.name)].gate.value;
    BeforeArcsFrame(BookAll(b, ls, cs[..k]).books, ls, cs[k]);
    GateOpenIff(b, ls, cs, k, gate.arc, gate.node);
  }

  /******* Threads keep their gates and count their hints *******/

  /** Hints so far, whether in the summary or still in the old in-thread list. */
  function HintTotal(t: Thread): int {
    if t.hints.Some? && t.hints.value != [] then |t.hints.value|
    else if t.hintCount.Some? then t.hintCount.value else 0
  }

  function HintRows(rows: seq<Row>): nat {
    if |rows| == 0 then 0
    else
      var r := rows[|rows| - 1];
      HintRows(rows[..|rows| - 1]) + if r.ThreadRow? && r.action == ToHint then 1 else 0
  }

  function OpeningTotal(threads: seq<Thread>, name: string): int {
    var i := LastThread(threads, name);
    if i >= 0 then HintTotal(threads[i]) else 0
  }

  /** Each thread's hint total is its opening total plus the hints in its ledger. */
  ghost predicate CountsAt(opening: seq<Thread>, base: seq<Posting>, threads: seq<Thread>, postings: seq<Posting>, name: string) {
    OpeningTotal(threads, name) ==
    OpeningTotal(opening, name) + HintRows(NewRows(base, postings, Account(Threads, name)))
  }

  ghost predicate Counts(opening: seq<Thread>, base: seq<Posting>, threads: seq<Thread>, postings: seq<Posting>) {
    base <= postings && forall name :: CountsAt(opening, base, threads, postings, name)
  }

  ghost predicate GatesKept(threads: seq<Thread>, threads': seq<Thread>) {
    |threads| <= |threads'| &&
    forall i :: 0 <= i < |threads| ==> threads'[i].name == threads[i].name && threads'[i].gate == threads[i].gate
  }

  lemma LastThreadAfter(threads: seq<Thread>, i: nat, t: Thread, name: string)
    requires i < |threads| && t.name == threads[i].name
    ensures LastThread(threads[i := t], name) == LastThread(threads, name)
  {
    var threads' := threads[i := t];
    var j, j' := LastThread(threads, name), LastThread(threads', name);
    assert j' >= 0 ==> threads[j'].name == name;
    assert j >= 0 ==> threads'[j].name == name;
  }

  lemma ActedTotal(t: Thread, up: ThreadUpdate, ch: int)
    ensures HintTotal(ActedThread(t, up, ch)) == HintTotal(t) + if up.action == ToHint then 1 else 0
    ensures ActedThread(t, up, ch).name == t.name && ActedThread(t, up, ch).gate == t.gate
  {
  }

  lemma OneRow(p: Posting, account: Account)
    ensures LedgerOf([p], account) == if p.account == account then [p.row] else []
    ensures HintRows([p.row]) == if p.row.ThreadRow? && p.row.action == ToHint then 1 else 0
  {
    assert [p][..0] == [] && [p.row][..0] == [];
  }

  lemma NewThreadLast(threads: seq<Thread>, t: Thread, name: string)
    requires LastThread(threads, t.name) < 0
    ensures LastThread(threads + [t], name) == if t.name == name then |threads| else LastThread(threads, name)
  {
    assert (threads + [t])[..|threads|] == threads;
  }

  lemma ActedCounts(threads: seq<Thread>, i: nat, up: ThreadUpdate, ch: int, name: string)
    requires i < |threads| && i == LastThread(threads, up.name)
    ensures var threads' := threads[i := ActedThread(threads[i], up, ch)];
            && GatesKept(threads, threads')
            && OpeningTotal(threads', name) ==
               OpeningTotal(threads, name) + if name == up.name && up.action == ToHint then 1 else 0
  {
    ActedTotal(threads[i], up, ch);
    LastThreadAfter(threads, i, ActedThread(threads[i], up, ch), name);
  }

  lemma UpdateThreadTotal(d: ThreadDesk, arcs: seq<Arc>, up: ThreadUpdate, ch: int, name: string)
    ensures var d' := UpdateThread(d, arcs, up, ch);
            && d.postings <= d'.postings && GatesKept(d.threads, d'.threads)
            && OpeningTotal(d'.threads, name) ==
               OpeningTotal(d.threads, name) + HintRows(LedgerOf(d'.postings[|d.postings|..], Account(Threads, name)))
  {
    if LastThread(d.threads, up.name) >= 0 {
      ActedTotals(d, arcs, up, ch, name);
    } else if up.action == ToRegister {
      RegisteredTotals(d, arcs, up, ch, name);
    } else {
      assert d.postings[|d.postings|..] == [];
    }
  }

  lemma RegisteredTotals(d: ThreadDesk, arcs: seq<Arc>, up: ThreadUpdate, ch: int, name: string)
    requires LastThread(d.threads, up.name) < 0 && up.action == ToRegister
    ensures var d' := UpdateThread(d, arcs, up, ch);
            && d.postings <= d'.postings && GatesKept(d.threads, d'.threads)
            && OpeningTotal(d'.threads, name) ==
               OpeningTotal(d.threads, name) + HintRows(LedgerOf(d'.postings[|d.postings|..], Account(Threads, name)))
  {
    var p := Posting(Account(Threads, up.name), ThreadRow(ch, ToRegister, up.detail));
    assert (d.postings + [p])[|d.postings|..] == [p];
    OneRow(p, Account(Threads, name));
    NewThreadLast(d.threads, NewThread(up, ch), name);
  }

  lemma ActedTotals(d: ThreadDesk, arcs: seq<Arc>, up: ThreadUpdate, ch: int, name: string)
    requires LastThread(d.threads, up.name) >= 0
    ensures var d' := UpdateThread(d, arcs, up, ch);
            && d.postings <= d'.postings && GatesKept(d.threads, d'.threads)
            && OpeningTotal(d'.threads, name) ==
               OpeningTotal(d.threads, name) + HintRows(LedgerOf(d'.postings[|d.postings|..], Account(Threads, name)))
  {
    ActedCounts(d.threads, LastThread(d.threads, up.name), up, ch, name);
    var p := Posting(Account(Threads, up.name), ThreadRow(ch, up.action, up.detail));
    if IsBookedAction(up.action) {
      assert (d.postings + [p])[|d.postings|..] == [p];
      OneRow(p, Account(Threads, name));
    } else {
      assert d.postings[|d.postings|..] == [];
    }
  }

  lemma HintRowsConcat(p: seq<Row>, q: seq<Row>)
    ensures HintRows(p + q) == HintRows(p) + HintRows(q)
  {
    if |q| == 0 {
      assert p + q == p;
    } else {
      HintRowsConcat(p, q[..|q| - 1]);
      assert (p + q)[..|p + q| - 1] == p + q[..|q| - 1];
    }
  }

  lemma {:induction false} UpdateThreadsCount(opening: seq<Thread>, base: seq<Posting>, d: ThreadDesk, arcs: seq<Arc>,
                                              ups: seq<ThreadUpdate>, ch: int)
    requires Counts(opening, base, d.threads, d.postings)
    ensures var d' := UpdateThreads(d, arcs, ups, ch);
            Counts(opening, base, d'.threads, d'.postings) && GatesKept(d.threads, d'.threads)
  {
    if |ups| > 0 {
      var d0, up := UpdateThreads(d, arcs, ups[..|ups| - 1], ch), ups[|ups| - 1];
      UpdateThreadsCount(opening, base, d, arcs, ups[..|ups| - 1], ch);
      var d' := UpdateThread(d0, arcs, up, ch);
      UpdateThreadTotal(d0, arcs, up, ch, "");
      forall name
        ensures CountsAt(opening, base, d'.threads, d'.postings, name)
      {
        UpdateThreadTotal(d0, arcs, up, ch, name);
        var more := d'.postings[|d0.postings|..];
        assert d'.postings == d0.postings + more;
        NewRowsConcat(base, d0.postings, more, Account(Threads, name));
        HintRowsConcat(NewRows(base, d0.postings, Account(Threads, name)), LedgerOf(more, Account(Threads, name)));
        assert CountsAt(opening, base, d0.threads, d0.postings, name);
      }
    }
  }

  lemma {:induction false} NoThreadLedger(p: seq<Posting>, account: Account)
    requires account.kind == Threads && forall i :: 0 <= i < |p| ==> p[i].account.kind != Threads
    ensures LedgerOf(p, account) == []
  {
    if |p| > 0 {
      NoThreadLedger(p[..|p| - 1], account);
    }
  }

  ghost predicate NoThreadRows(p: seq<Posting>, q: seq<Posting>) {
    p <= q && forall i :: |p| <= i < |q| ==> q[i].account.kind != Threads
  }

  lemma OtherRowsKeepCounts(opening: seq<Thread>, base: seq<Posting>, threads: seq<Thread>, p: seq<Posting>, q: seq<Posting>)
    requires Counts(opening, base, threads, p) && NoThreadRows(p, q)
    ensures Counts(opening, base, threads, q)
  {
    forall name
      ensures CountsAt(opening, base, threads, q, name)
    {
      assert q == p + q[|p|..];
      NewRowsConcat(base, p, q[|p|..], Account(Threads, name));
      NoThreadLedger(q[|p|..], Account(Threads, name));
      assert NewRows(base, p, Account(Threads, name)) + [] == NewRows(base, p, Account(Threads, name));
      assert CountsAt(opening, base, threads, p, name);
    }
  }

  lemma {:induction false} EventsNoThreadRows(d: Desk, evs: seq<Event>, ch: int)
    ensures NoThreadRows(d.books.postings, PostEvents(d, evs, ch).books.postings)
  {
    if |evs| > 0 {
      EventsNoThreadRows(d, evs[..|evs| - 1], ch);
    }
  }

  lemma {:induction false} AppearancesNoThreadRows(d: Desk, aps: seq<Appearance>, ch: int)
    ensures NoThreadRows(d.books.postings, NovelState.LogAppearances(d, aps, ch).books.postings)
  {
    if |aps| > 0 {
      AppearancesNoThreadRows(d, aps[..|aps| - 1], ch);
    }
  }

  lemma ChapterCounts(opening: seq<Thread>, base: seq<Posting>, b: Books, ls: Listing, c: Chapter)
    requires Counts(opening, base, b.threads, b.postings)
    ensures var b' := BookChapter(b, ls, c).books;
            Counts(opening, base, b'.threads, b'.postings) && GatesKept(b.threads, b'.threads)
  {
    EventsNoArcRows(OpenDesk(b, ls), c.events, c.n);
    EventsNoThreadRows(OpenDesk(b, ls), c.events, c.n);
    var ev := BookEvents(b, ls, c.events, c.n).books;
    OtherRowsKeepCounts(opening, base, b.threads, b.postings, ev.postings);
    AppearancesNoArcRows(OpenDesk(ev, ls), c.appearances, c.n);
    AppearancesNoThreadRows(OpenDesk(ev, ls), c.appearances, c.n);
    var ap := BookAppearances(ev, ls, c.appearances, c.n).books;
    OtherRowsKeepCounts(opening, base, b.threads, ev.postings, ap.postings);
    UpdateThreadsCount(opening, base, ThreadDesk(ap.threads, ap.postings, []), ap.arcs, c.threadUpdates, c.n);
    var th := BookThreads(ap, c.threadUpdates, c.n).books;
    ArcPostings(ArcDesk(th.arcs, th.postings, []), c.arcUpdates, c.n);
    OtherRowsKeepCounts(opening, base, th.threads, th.postings, BookArcs(th, c.arcUpdates, c.n).books.postings);
  }

  /** After any run, every thread has as many hints as it opened with plus its ledger's hint rows. */
  lemma {:induction false} HintsAreTheLedger(b: Books, ls: Listing, cs: seq<Chapter>)
    ensures var b' := BookAll(b, ls, cs).books;
            Counts(b.threads, b.postings, b'.threads, b'.postings) && GatesKept(b.threads, b'.threads)
  {
    if |cs| == 0 {
      assert b.postings[|b.postings|..] == [];
      assert forall name :: CountsAt(b.threads, b.postings, b.threads, b.postings, name);
    } else {
      HintsAreTheLedger(b, ls, cs[..|cs| - 1]);
      ChapterCounts(b.threads, b.postings, BookAll(b, ls, cs[..|cs| - 1]).books, ls, cs[|cs| - 1]);
    }
  }

  /** From any books: a thread that can be revealed can be revealed after every run. */
  lemma RevealableStays(b: Books, ls: Listing, cs: seq<Chapter>, i: nat)
    requires i < |b.threads| && Revealable(b.threads[i], b.arcs)
    ensures var late := BookAll(b, ls, cs).books;
            i < |late.threads| && Revealable(late.threads[i], late.arcs)
  {
    var late := BookAll(b, ls, cs).books;
    HintsAreTheLedger(b, ls, cs);
    RunAdvances(b, ls, cs);
    var t := b.threads[i];
    assert late.threads[i].gate == t.gate;
    if t.gate.Some? {
      AdvancedGate(b.arcs, late.arcs, t.gate.value.arc, t.gate.value.node);
    }
  }
}
