/**
 Freshness over whole runs: cycles start, reports are stamped, and stamped reports reach
 their files at any later time and in any order.
 */
module GateCycles {
  import opened Values
  import opened GateEvidence
  import opened GateAudit

  /** A stamped report and when it was stamped. */
  datatype Stamp = Stamp(report: Report, time: nat)

  /** `starts` records when each cycle began; `now` counts the steps. */
  datatype History = History(graph: Graph, stamps: seq<Stamp>, starts: map<string, nat>, now: nat)

  datatype Action =
    | StartCycle(report: Report, run: string, at: string, cycle: string)
    | StampReport(report: Report, run: string, at: string)
    | WriteFile(gate: Gate, stamp: nat)
    | LoseFile(gate: Gate)
    | SpoilFile(gate: Gate)

  /** Cycle ids are fresh; only stamped reports are written. */
  predicate Enabled(h: History, a: Action) {
    match a
    case StartCycle(_, _, _, cycle) => cycle != "" && cycle !in h.starts
    case WriteFile(_, i) => i < |h.stamps|
    case _ => true
  }

  function Next(h: History, a: Action): History
    requires Enabled(h, a)
  {
    match a
    case StartCycle(r, run, at, cycle) =>
      History(h.graph.(manifest := Some(Manifest(run, cycle))),
              h.stamps + [Stamp(Stamped(r, run, at, Some(cycle)), h.now)],
              h.starts[cycle := h.now], h.now + 1)
    case StampReport(r, run, at) =>
      h.(stamps := h.stamps + [Stamp(Stamped(r, run, at, CurrentCycle(h.graph, run)), h.now)], now := h.now + 1)
    case WriteFile(gate, i) => h.(graph := h.graph.(files := h.graph.files[gate := Json(h.stamps[i].report)]), now := h.now + 1)
    case LoseFile(gate) => h.(graph := h.graph.(files := h.graph.files - {gate}), now := h.now + 1)
    case SpoilFile(gate) => h.(graph := h.graph.(files := h.graph.files[gate := NotJson]), now := h.now + 1)
  }

  ghost predicate Reaches(h: History, actions: seq<Action>, h': History)
    decreases |actions|
  {
    if |actions| == 0 then h == h'
    else Enabled(h, actions[0]) && Reaches(Next(h, actions[0]), actions[1..], h')
  }

  const START := History(Graph(None, map[]), [], map[], 0)

  /** A stamp carries no cycle, or one that had begun by the time of the stamp. */
  ghost predicate StampOk(h: History, s: Stamp) {
    s.time < h.now &&
    (s.report.cycle == Id("") ||
     exists c :: c != "" && c in h.starts && s.report.cycle == Id(c) && h.starts[c] <= s.time)
  }

  ghost predicate Inv(h: History) {
    && (forall i :: 0 <= i < |h.stamps| ==> StampOk(h, h.stamps[i]))
    && (forall c :: c in h.starts ==> c != "" && h.starts[c] < h.now)
    && (h.graph.manifest.Some? ==>
          && h.graph.manifest.value.cycle in h.starts
          && forall c :: c in h.starts ==> h.starts[c] <= h.starts[h.graph.manifest.value.cycle])
    && (forall g :: g in h.graph.files && h.graph.files[g].Json? ==>
          exists i :: 0 <= i < |h.stamps| && h.stamps[i].report == h.graph.files[g].report)
  }

  lemma StampOkLater(h: History, h': History, s: Stamp)
    requires StampOk(h, s) && h.now <= h'.now
    requires forall c :: c in h.starts ==> c in h'.starts && h'.starts[c] == h.starts[c]
    ensures StampOk(h', s)
  {
    if s.report.cycle != Id("") {
      var c :| c != "" && c in h.starts && s.report.cycle == Id(c) && h.starts[c] <= s.time;
      assert c in h'.starts;
    }
  }

  /** Nothing recorded is forgotten. */
  lemma StartsKept(h: History, a: Action)
    requires Enabled(h, a)
    ensures var h' := Next(h, a);
            && h'.now == h.now + 1 && h.stamps <= h'.stamps
            && forall c :: c in h.starts ==> c in h'.starts && h'.starts[c] == h.starts[c]
  {
  }

  lemma StampsKept(h: History, a: Action)
    requires Inv(h) && Enabled(h, a)
    ensures var h' := Next(h, a); forall i :: 0 <= i < |h'.stamps| ==> StampOk(h', h'.stamps[i])
  {
    var h' := Next(h, a);
    StartsKept(h, a);
    forall i | 0 <= i < |h'.stamps|
      ensures StampOk(h', h'.stamps[i])
    {
      if i < |h.stamps| {
        StampOkLater(h, h', h.stamps[i]);
      } else if a.StartCycle? {
        NewStampOk(h', a.report, a.run, a.at, Some(a.cycle), h.now);
      } else {
        NewStampOk(h', a.report, a.run, a.at, CurrentCycle(h.graph, a.run), h.now);
      }
    }
  }

  /** A stamp made now names no cycle, or one that has begun. */
  lemma NewStampOk(h: History, r: Report, run: string, at: string, cycle: Option<string>, time: nat)
    requires time < h.now && (cycle.Some? ==> cycle.value != "" && cycle.value in h.starts && h.starts[cycle.value] <= time)
    ensures StampOk(h, Stamp(Stamped(r, run, at, cycle), time))
  {
    StampedIdentity(r, run, at, cycle);
  }

  lemma OtherFile(h: History, a: Action, g: Gate)
    requires Enabled(h, a) && !(a.WriteFile? && g == a.gate) && g in Next(h, a).graph.files && Next(h, a).graph.files[g].Json?
    ensures g in h.graph.files && h.graph.files[g] == Next(h, a).graph.files[g]
  {
  }

  lemma FilesKept(h: History, a: Action)
    requires Inv(h) && Enabled(h, a)
    ensures var h' := Next(h, a);
            forall g :: g in h'.graph.files && h'.graph.files[g].Json? ==>
              exists i :: 0 <= i < |h'.stamps| && h'.stamps[i].report == h'.graph.files[g].report
  {
    var h' := Next(h, a);
    forall g | g in h'.graph.files && h'.graph.files[g].Json?
      ensures exists i :: 0 <= i < |h'.stamps| && h'.stamps[i].report == h'.graph.files[g].report
    {
      StartsKept(h, a);
      if a.WriteFile? && g == a.gate {
        assert h'.stamps[a.stamp].report == h'.graph.files[g].report;
      } else {
        OtherFile(h, a, g);
        var i :| 0 <= i < |h.stamps| && h.stamps[i].report == h.graph.files[g].report;
        assert h'.stamps[i] == h.stamps[i];
      }
    }
  }

  lemma NextKeepsInv(h: History, a: Action)
    requires Inv(h) && Enabled(h, a)
    ensures Inv(Next(h, a))
  {
    StampsKept(h, a);
    FilesKept(h, a);
  }

  lemma {:induction false} ReachableInv(h: History, actions: seq<Action>, h': History)
    requires Inv(h) && Reaches(h, actions, h')
    ensures Inv(h')
    decreases |actions|
  {
    if |actions| > 0 {
      NextKeepsInv(h, actions[0]);
      ReachableInv(Next(h, actions[0]), actions[1..], h');
    }
  }

  /** The latest start of any cycle so far. */
  ghost predicate IsLatestStart(h: History, t: nat) {
    (exists c :: c in h.starts && h.starts[c] == t) && forall c :: c in h.starts ==> h.starts[c] <= t
  }

  /** The gate's file holds a stamped report, and every stamp of that report is at or after `latest`. */
  ghost predicate StampedSince(h: History, gate: Gate, latest: nat) {
    && gate in h.graph.files && h.graph.files[gate].Json?
    && (exists i :: 0 <= i < |h.stamps| && h.stamps[i].report == h.graph.files[gate].report)
    && forall i :: 0 <= i < |h.stamps| && h.stamps[i].report == h.graph.files[gate].report ==> latest <= h.stamps[i].time
  }

  /** A stamp that names a cycle is no older than that cycle's start. */
  lemma StampAfterStart(h: History, s: Stamp, cycle: string)
    requires StampOk(h, s) && cycle != "" && cycle in h.starts && s.report.cycle == Id(cycle)
    ensures h.starts[cycle] <= s.time
  {
    var c :| c != "" && c in h.starts && s.report.cycle == Id(c) && h.starts[c] <= s.time;
    assert c == cycle;
  }

  lemma PassedReportIsFresh(h: History, run: string, gate: Gate, cycle: string)
    requires Inv(h) && CurrentCycle(h.graph, run) == Some(cycle)
    requires AuditOne(h.graph, gate, run, cycle).passed
    ensures cycle in h.starts && StampedSince(h, gate, h.starts[cycle])
  {
    assert h.graph.manifest.value.cycle == cycle && cycle in h.starts;
    assert gate in h.graph.files && h.graph.files[gate].Json?;
    var r := h.graph.files[gate].report;
    assert r.cycle == Id(cycle);
    forall i | 0 <= i < |h.stamps| && h.stamps[i].report == r
      ensures h.starts[cycle] <= h.stamps[i].time
    {
      assert StampOk(h, h.stamps[i]);
      StampAfterStart(h, h.stamps[i], cycle);
    }
  }

  lemma CurrentIsLatest(h: History, run: string, cycle: string)
    requires Inv(h) && CurrentCycle(h.graph, run) == Some(cycle)
    ensures cycle in h.starts && IsLatestStart(h, h.starts[cycle]) && h.graph.manifest.Some? && h.graph.manifest.value.run == run
  {
    assert h.graph.manifest.value.cycle == cycle;
    assert cycle in h.starts && h.starts[cycle] == h.starts[cycle];
  }

  /** A passing audit established its cycle, and passed every declared gate in it. */
  lemma PassingAuditNamesItsCycle(g: Graph, run: string, gates: seq<Declared>) returns (cycle: string)
    requires AuditOf(g, run, gates).passed
    ensures CurrentCycle(g, run) == Some(cycle)
    ensures forall k :: 0 <= k < |gates| ==> gates[k].Pair? && AuditOne(g, gates[k].gate, run, cycle).passed
  {
    cycle := CurrentCycle(g, run).value;
    var entries := Entries(g, run, cycle, gates);
    forall k | 0 <= k < |gates|
      ensures gates[k].Pair? && AuditOne(g, gates[k].gate, run, cycle).passed
    {
      assert entries[k].passed;
    }
  }

  /**
   In every reachable history, when the audit passes for a run, the latest cycle start of all
   belongs to that run, and every declared report was stamped at or after it.
   */
  lemma PassingAuditIsFresh(actions: seq<Action>, h: History, run: string, gates: seq<Declared>) returns (latest: nat)
    requires Reaches(START, actions, h) && AuditOf(h.graph, run, gates).passed
    ensures IsLatestStart(h, latest) && h.graph.manifest.Some? && h.graph.manifest.value.run == run
    ensures forall k :: 0 <= k < |gates| ==> gates[k].Pair? && StampedSince(h, gates[k].gate, latest)
  {
    ReachableInv(START, actions, h);
    var cycle := PassingAuditNamesItsCycle(h.graph, run, gates);
    CurrentIsLatest(h, run, cycle);
    latest := h.starts[cycle];
    forall k | 0 <= k < |gates|
      ensures gates[k].Pair? && StampedSince(h, gates[k].gate, latest)
    {
      PassedReportIsFresh(h, run, gates[k].gate, cycle);
    }
  }
}
