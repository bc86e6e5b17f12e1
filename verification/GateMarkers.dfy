/**
 A gate that is not run leaves a marker naming its upstream blocker. Markers pass the
 blocker's answer on unchanged; the first one keeps it exactly for the roots described here.
 */
module GateMarkers {
  import opened Values
  import opened GateEvidence
  import opened GateAudit

  /** The state word a marker passes on: the blocker's own upstream state, else its state. */
  function RootWord(e: Entry): Term {
    if IsTrue(e.upstream) then TextOf(e.upstream) else e.state
  }

  /** A skipped gate that names no upstream state: the shape of older markers. */
  predicate IsLegacy(e: Entry) {
    !IsTrue(e.upstream) && e.state == SkippedT && e.because == Text(UpstreamFailedT)
  }

  /** The report a skipped gate writes; it classifies itself from two fields only. */
  function UpstreamFailedReport(e: Entry): Report {
    var state := RootWord(e);
    var disposition := if IsLegacy(e) then Repair
                       else ReleaseDisposition(EMPTY.(passed := Flag(false), upstream := Text(state)));
    EMPTY.(passed := Flag(false), gateSkipped := Flag(true),
           because := Text(if disposition == Repair then UpstreamFailedT else UpstreamUnresolvedT),
           upstream := Text(state), upstreamGate := Id(e.step + "/" + e.file),
           release := Text(DispositionWord(disposition)))
  }

  /** The marker as it reaches the graph, stamped with the current cycle. */
  function Marker(e: Entry, run: string, at: string, cycle: string): Report {
    Stamped(UpstreamFailedReport(e), run, at, Some(cycle))
  }

  lemma UnstampedReads(e: Entry)
    requires RootWord(e) != Blank
    ensures var u := UpstreamFailedReport(e);
            ReportState(u) == Skipped && ReleaseDisposition(u) == ByWord(RootWord(e), false)
  {
    MarkedReads(UpstreamFailedReport(e));
  }

  /** The fields of a marker that decide its reading. */
  predicate IsMarked(u: Report) {
    && u.passed == Flag(false) && u.gateSkipped == Flag(true) && u.purpose == Absent && u.state == Absent && u.status == Absent
    && u.pending == Absent && u.infra == Absent && u.blind == Absent && u.blindBuilder == Absent
    && u.repoGate == Absent && u.coverage == NoCoverage && IsTrue(u.upstream)
  }

  lemma MarkedReads(u: Report)
    requires IsMarked(u)
    ensures ReportState(u) == Skipped && ReleaseDisposition(u) == ByWord(TextOf(u.upstream), false)
  {
    assert StatusOf(u) == Blank && HasMarker(u) && !IsProvisional(u) && !CoverageRefused(u);
  }

  lemma StampedKeepsUpstream(r: Report, run: string, at: string, cycle: string)
    ensures var s := Stamped(r, run, at, Some(cycle));
            s.upstream == r.upstream && s.release == Text(DispositionWord(ReleaseDisposition(s)))
  {
    var i := Identified(r, run, at, Some(cycle));
    RestatePreserves(i, true);
  }

  /** Everything a reader can tell about a marker of this word. */
  predicate Speaks(m: Report, word: Term, run: string, cycle: string) {
    && ReportState(m) == Skipped && m.upstream == Text(word) && ReleaseDisposition(m) == ByWord(word, false)
    && m.release == Text(DispositionWord(ReleaseDisposition(m))) && m.run == Id(run) && m.cycle == Id(cycle)
  }

  lemma MarkerReads(e: Entry, run: string, at: string, cycle: string)
    requires RootWord(e) != Blank
    ensures Speaks(Marker(e, run, at, cycle), RootWord(e), run, cycle)
  {
    var u := UpstreamFailedReport(e);
    StampPreservesAnswers(u, run, at, cycle);
    StampedIdentity(u, run, at, Some(cycle));
    StampedKeepsUpstream(u, run, at, cycle);
    UnstampedReads(e);
  }

  /** The entry a downstream gate sees for a report in its graph. */
  function Blocked(gate: Gate, r: Report, run: string, cycle: string): Entry {
    AuditReport(gate, r, run, cycle).(upstream := if IsTrue(r.upstream) then r.upstream else Absent)
  }

  /** It is the entry the fail-fast reader returns when the report is the first that does not pass. */
  lemma BlockedIsBlocker(g: Graph, gate: Gate, run: string, gates: seq<Declared>)
    requires gate in g.files && g.files[gate].Json? && CurrentCycle(g, run).Some?
    requires !AuditReport(gate, g.files[gate].report, run, CurrentCycle(g, run).value).passed
    ensures FirstBlocker(g, run, [Pair(gate)] + gates) ==
            Some(Blocked(gate, g.files[gate].report, run, CurrentCycle(g, run).value))
  {
    assert ([Pair(gate)] + gates)[0] == Pair(gate);
  }

  datatype Hop = Hop(gate: Gate, at: string)

  /** A chain of skipped gates, each blocked by the marker before it. */
  function Chain(m: Report, hops: seq<Hop>, run: string, cycle: string): Report {
    if |hops| == 0 then m
    else
      var hop := hops[|hops| - 1];
      Marker(Blocked(hop.gate, Chain(m, hops[..|hops| - 1], run, cycle), run, cycle), run, hop.at, cycle)
  }

  /** A marker blocks, and passes its own word on. */
  lemma MarkerBlocks(gate: Gate, m: Report, word: Term, run: string, cycle: string)
    requires Speaks(m, word, run, cycle) && word != Blank && cycle != ""
    ensures !AuditReport(gate, m, run, cycle).passed && RootWord(Blocked(gate, m, run, cycle)) == word
  {
  }

  /**
   Down any chain of skipped gates of the current cycle the upstream state and the disposition
   stay those of the first marker, and every marker blocks.
   */
  lemma {:induction false} ChainKeepsRoot(e: Entry, at: string, hops: seq<Hop>, run: string, cycle: string, gate: Gate)
    requires RootWord(e) != Blank && cycle != ""
    ensures Speaks(Chain(Marker(e, run, at, cycle), hops, run, cycle), RootWord(e), run, cycle)
    ensures !AuditReport(gate, Chain(Marker(e, run, at, cycle), hops, run, cycle), run, cycle).passed
  {
    if |hops| == 0 {
      MarkerReads(e, run, at, cycle);
    } else {
      var hop, last := hops[|hops| - 1], Chain(Marker(e, run, at, cycle), hops[..|hops| - 1], run, cycle);
      ChainKeepsRoot(e, at, hops[..|hops| - 1], run, cycle, hop.gate);
      MarkerBlocks(hop.gate, last, RootWord(e), run, cycle);
      MarkerReads(Blocked(hop.gate, last, run, cycle), run, hop.at, cycle);
    }
    MarkerBlocks(gate, Chain(Marker(e, run, at, cycle), hops, run, cycle), RootWord(e), run, cycle);
  }

  /** A feedback round that measured no red parks, whatever its upstream state says. */
  predicate Rounds(r: Report) {
    IsProvisional(r) && !MeasuredRed(r)
  }

  /**
   The roots whose disposition the first marker keeps. Three families are shut out: a feedback
   round and a refused coverage whose upstream word decides otherwise, and the legacy shape.
   */
  predicate KeepsDisposition(r: Report) {
    if IsTrue(r.upstream) then
      var word := TextOf(r.upstream);
      && (Rounds(r) ==> word != PassedT && word != FailedT && word != KnownFailureT)
      && (CoverageRefused(r) ==> word != PassedT)
    else
      r.because == Text(UpstreamFailedT) && !Rounds(r) ==> ReportState(r) == Failed || ReportState(r) == KnownFailure
  }

  /** The first marker answers like its current-cycle root exactly for those roots. */
  lemma KeepsByWord(r: Report, word: Term)
    requires word == if IsTrue(r.upstream) then TextOf(r.upstream)
                     else if CoverageRefused(r) && ReportState(r) == Clean then CoverageIncompleteT else Word(ReportState(r))
    requires !IsTrue(r.upstream) && ReportState(r) == Clean ==> CoverageRefused(r)
    ensures ByWord(word, false) == ReleaseDisposition(r) <==> KeepsDisposition(r)
  {
    if Rounds(r) {
      assert ReleaseDisposition(r) == Park && ReportState(r) == Provisional;
    } else if !IsTrue(r.upstream) && r.because == Text(UpstreamFailedT) {
      assert ReleaseDisposition(r) == Repair;
    }
  }

  lemma FirstMarkerKeepsIff(gate: Gate, r: Report, run: string, at: string, cycle: string)
    requires IsFresh(r, run, cycle) && !AuditReport(gate, r, run, cycle).passed
    ensures ReleaseDisposition(Marker(Blocked(gate, r, run, cycle), run, at, cycle)) == ReleaseDisposition(r)
            <==> KeepsDisposition(r)
  {
    var e := Blocked(gate, r, run, cycle);
    BlockedWord(gate, r, run, cycle);
    MarkerReads(e, run, at, cycle);
    KeepsByWord(r, RootWord(e));
  }

  lemma BlockedWord(gate: Gate, r: Report, run: string, cycle: string)
    requires IsFresh(r, run, cycle) && !AuditReport(gate, r, run, cycle).passed
    ensures RootWord(Blocked(gate, r, run, cycle)) != Blank
    ensures RootWord(Blocked(gate, r, run, cycle)) ==
            if IsTrue(r.upstream) then TextOf(r.upstream)
            else if CoverageRefused(r) && ReportState(r) == Clean then CoverageIncompleteT else Word(ReportState(r))
    ensures ReportState(r) == Clean ==> CoverageRefused(r)
  {
  }

  function LegacyRoot(run: Datum, cycle: Datum): Report {
    EMPTY.(run := run, cycle := cycle, passed := Flag(false), because := Text(UpstreamFailedT))
  }

  lemma LegacyReads(run: Datum, cycle: Datum)
    ensures ReportState(LegacyRoot(run, cycle)) == Skipped && ReleaseDisposition(LegacyRoot(run, cycle)) == Repair
  {
  }

  lemma SkippedBlocks(gate: Gate, r: Report, run: string, cycle: string)
    requires IsFresh(r, run, cycle) && ReportState(r) == Skipped && !IsTrue(r.upstream)
    ensures RootWord(Blocked(gate, r, run, cycle)) == SkippedT
  {
  }

  /** The legacy shape: a release reader repairs the root and parks on its marker. */
  lemma LegacyRootIsSoftened(gate: Gate, run: string, at: string, cycle: string) returns (r: Report)
    requires cycle != ""
    ensures IsFresh(r, run, cycle) && ReleaseDisposition(r) == Repair
    ensures ReleaseDisposition(Marker(Blocked(gate, r, run, cycle), run, at, cycle)) == Park
  {
    r := LegacyRoot(Id(run), Id(cycle));
    LegacyReads(Id(run), Id(cycle));
    SkippedParks(gate, r, run, at, cycle);
  }

  lemma SkippedParks(gate: Gate, r: Report, run: string, at: string, cycle: string)
    requires IsFresh(r, run, cycle) && ReportState(r) == Skipped && !IsTrue(r.upstream)
    ensures ReleaseDisposition(Marker(Blocked(gate, r, run, cycle), run, at, cycle)) == Park
  {
    SkippedBlocks(gate, r, run, cycle);
    MarkerReads(Blocked(gate, r, run, cycle), run, at, cycle);
  }

  /** A stale blocker still donates its upstream state. */
  lemma StaleStillDonates(gate: Gate, r: Report, run: string, cycle: string)
    requires !IsFresh(r, run, cycle) && IsTrue(r.upstream)
    ensures Blocked(gate, r, run, cycle).state == StaleT
    ensures RootWord(Blocked(gate, r, run, cycle)) == TextOf(r.upstream)
  {
  }
}
