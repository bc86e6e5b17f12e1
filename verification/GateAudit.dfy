/**
 Reading a cycle of gate reports: the audit, the fail-fast blocker and the release
 disposition agree; markers carry a blocker's answer down a chain of skipped gates; and a
 passing audit means fresh evidence.
 */
module GateAudit {
  import opened Values
  import opened GateEvidence

  datatype Gate = Gate(step: string, file: string)
  datatype Declared = Pair(gate: Gate) | Malformed(text: string)
  datatype Content = NotJson | Json(report: Report)
  datatype Manifest = Manifest(run: string, cycle: string)

  /** One graph directory: its cycle manifest and its report files. */
  datatype Graph = Graph(manifest: Option<Manifest>, files: map<Gate, Content>)

  datatype Entry = Entry(step: string, file: string, state: Term, passed: bool, because: Datum, upstream: Datum)

  /** The cycle the manifest establishes for a run, if any. */
  function CurrentCycle(g: Graph, run: string): Option<string> {
    if run != "" && g.manifest.Some? && g.manifest.value.run == run && g.manifest.value.cycle != ""
    then Some(g.manifest.value.cycle) else None
  }

  /******* One report *******/

  predicate IsFresh(r: Report, run: string, cycle: string) {
    cycle != "" && r.run == Id(run) && r.cycle == Id(cycle)
  }

  function SkipReason(r: Report): Datum {
    if IsTrue(r.because) then r.because
    else if UnrunFlag(r) || IsUnrunWord(Normal(r.status)) then Text(GateUnrun)
    else Text(GateSkippedT)
  }

  function AuditReport(gate: Gate, r: Report, run: string, cycle: string): Entry {
    var state := ReportState(r);
    if !IsFresh(r, run, cycle) then Entry(gate.step, gate.file, StaleT, false, Nil, Absent)
    else if CoverageRefused(r) && state == Clean then
      Entry(gate.step, gate.file, CoverageIncompleteT, false, Text(CoverageIncompleteT), Absent)
    else if state == Unreadable then Entry(gate.step, gate.file, UnreadableT, false, Text(InvalidPassed), Absent)
    else Entry(gate.step, gate.file, Word(state), state == Clean,
               if state == Skipped then SkipReason(r) else r.because, Absent)
  }

  function AuditOne(g: Graph, gate: Gate, run: string, cycle: string): Entry {
    if gate !in g.files then Entry(gate.step, gate.file, MissingT, false, Text(ReportMissing), Absent)
    else
      match g.files[gate]
      case NotJson => Entry(gate.step, gate.file, UnreadableT, false, Text(ReportUnreadable), Absent)
      case Json(r) => AuditReport(gate, r, run, cycle)
  }

  function AuditGate(g: Graph, d: Declared, run: string, cycle: string): Entry {
    match d
    case Malformed(text) => Entry(text, "", UnreadableT, false, Text(InvalidGate), Absent)
    case Pair(gate) => AuditOne(g, gate, run, cycle)
  }

  /** A current report passes the audit exactly when the release reader releases it. */
  lemma AuditAgreesWithRelease(gate: Gate, r: Report, run: string, cycle: string)
    requires IsFresh(r, run, cycle) && !IsTrue(r.upstream)
    ensures AuditReport(gate, r, run, cycle).passed <==> ReleaseDisposition(r) == Release
  {
    if ReportState(r) == Clean {
      CleanIsUnmarked(r);
    }
    assert AuditReport(gate, r, run, cycle).passed <==> ReportState(r) == Clean && !CoverageRefused(r);
  }

  /** A clean report is no unmeasured round, and carries no reason for having been skipped. */
  lemma CleanIsUnmarked(r: Report)
    requires ReportState(r) == Clean
    ensures !IsProvisional(r) || MeasuredRed(r)
    ensures r.because != Text(UpstreamFailedT)
  {
  }

  /** With an upstream state the release reader answers for the upstream gate instead. */
  lemma UpstreamOverridesRelease(gate: Gate, r: Report, run: string, cycle: string)
    requires IsFresh(r, run, cycle) && IsTrue(r.upstream)
    ensures ReleaseDisposition(r) == Release <==>
            (IsProvisional(r) ==> MeasuredRed(r)) && TextOf(r.upstream) == PassedT && !CoverageRefused(r)
  {
  }

  /******* The audit *******/

  datatype Bucket = StaleB | MissingB | SkippedB | FailedB | KnownB | PendingB | BlindB | InfraB | IncompleteB

  /** The default charges the code: an unlisted word lands among the failed gates. */
  function BucketOf(t: Term): Bucket {
    match t
    case StaleT => StaleB
    case UnreadableT => StaleB
    case MissingT => MissingB
    case SkippedT => SkippedB
    case KnownFailureT => KnownB
    case PendingT => PendingB
    case BlindT => BlindB
    case InfraT => InfraB
    case CoverageIncompleteT => IncompleteB
    case PartialT => IncompleteB
    case ProvisionalT => IncompleteB
    case _ => FailedB
  }

  datatype Verdict = Verdict(cycle: string, state: Term, passed: bool, buckets: map<Bucket, seq<Entry>>, audited: seq<Entry>)

  function Entries(g: Graph, run: string, cycle: string, gates: seq<Declared>): seq<Entry> {
    seq(|gates|, i requires 0 <= i < |gates| => AuditGate(g, gates[i], run, cycle))
  }

  /** The entries of one bucket, in order. */
  function InBucket(entries: seq<Entry>, b: Bucket): seq<Entry> {
    if |entries| == 0 then []
    else
      var e := entries[|entries| - 1];
      InBucket(entries[..|entries| - 1], b) + if !e.passed && BucketOf(e.state) == b then [e] else []
  }

  const PRIORITY := [(StaleT, StaleB), (MissingT, MissingB), (InfraT, InfraB), (BlindT, BlindB), (PendingT, PendingB),
                     (KnownFailureT, KnownB), (FailedT, FailedB), (CoverageIncompleteT, IncompleteB), (SkippedT, SkippedB)]

  function WorstState(entries: seq<Entry>, order: seq<(Term, Bucket)>, otherwise: Term): Term {
    if order == [] then otherwise
    else if InBucket(entries, order[0].1) != [] then order[0].0
    else WorstState(entries, order[1..], otherwise)
  }

  const BUCKETS := {StaleB, MissingB, SkippedB, FailedB, KnownB, PendingB, BlindB, InfraB, IncompleteB}

  function BucketsOf(entries: seq<Entry>): map<Bucket, seq<Entry>> {
    map b | b in BUCKETS :: InBucket(entries, b)
  }

  lemma IsBucket(b: Bucket)
    ensures b in BUCKETS
  {
    match b case _ =>
  }

  predicate AllPassed(entries: seq<Entry>) {
    forall i :: 0 <= i < |entries| ==> entries[i].passed
  }

  function AuditOf(g: Graph, run: string, gates: seq<Declared>): Verdict {
    if gates == [] then Verdict("", AuditError, false, BucketsOf([]), [])
    else
      var expected := CurrentCycle(g, run);
      var cycle := if expected.Some? then expected.value else "";
      var entries := Entries(g, run, cycle, gates);
      var passed := expected.Some? && AllPassed(entries);
      Verdict(cycle, if passed then FreshT else WorstState(entries, PRIORITY, if expected.Some? then FreshT else StaleT),
              passed, BucketsOf(entries), entries)
  }

  method AuditEvidence(g: Graph, run: string, gates: seq<Declared>) returns (v: Verdict)
    ensures v == AuditOf(g, run, gates)
  {
    var buckets := BucketsOf([]);
    if gates == [] {
      return Verdict("", AuditError, false, buckets, []);
    }
    var expected := CurrentCycle(g, run);
    var cycle := if expected.Some? then expected.value else "";
    var passed, audited := expected.Some?, [];
    for i := 0 to |gates|
      invariant audited == Entries(g, run, cycle, gates[..i])
      invariant passed <==> expected.Some? && AllPassed(audited)
      invariant buckets == BucketsOf(audited)
    {
      var entry := AuditGate(g, gates[i], run, cycle);
      BucketsStep(audited, entry);
      PassedStep(audited, entry);
      EntriesStep(g, run, cycle, gates, i);
      audited := audited + [entry];
      if !entry.passed {
        passed := false;
        var b := BucketOf(entry.state);
        buckets := buckets[b := buckets[b] + [entry]];
      }
    }
    assert gates[..|gates|] == gates;
    var state := if passed then FreshT else WorstState(audited, PRIORITY, if expected.Some? then FreshT else StaleT);
    v := Verdict(cycle, state, passed, buckets, audited);
  }

  lemma EntriesStep(g: Graph, run: string, cycle: string, gates: seq<Declared>, i: nat)
    requires i < |gates|
    ensures Entries(g, run, cycle, gates[..i + 1]) == Entries(g, run, cycle, gates[..i]) + [AuditGate(g, gates[i], run, cycle)]
  {
  }

  lemma PassedStep(entries: seq<Entry>, e: Entry)
    ensures AllPassed(entries + [e]) <==> AllPassed(entries) && e.passed
  {
    if AllPassed(entries + [e]) {
      assert (entries + [e])[|entries|] == e;
      assert forall k :: 0 <= k < |entries| ==> (entries + [e])[k] == entries[k];
    }
  }

  lemma BucketsStep(entries: seq<Entry>, e: Entry)
    ensures BucketOf(e.state) in BucketsOf(entries)
    ensures BucketsOf(entries + [e]) ==
            if e.passed then BucketsOf(entries)
            else BucketsOf(entries)[BucketOf(e.state) := BucketsOf(entries)[BucketOf(e.state)] + [e]]
  {
    assert (entries + [e])[..|entries + [e]| - 1] == entries;
    IsBucket(BucketOf(e.state));
    assert forall b :: InBucket(entries, b) + [] == InBucket(entries, b);
  }

  lemma {:induction false} InBucketMembers(entries: seq<Entry>, b: Bucket)
    ensures forall e :: e in InBucket(entries, b) <==> e in entries && !e.passed && BucketOf(e.state) == b
  {
    if |entries| > 0 {
      InBucketMembers(entries[..|entries| - 1], b);
      assert entries == entries[..|entries| - 1] + [entries[|entries| - 1]];
    }
  }

  /** How often an entry occurs. */
  function Times(entries: seq<Entry>, e: Entry): nat {
    if |entries| == 0 then 0
    else Times(entries[..|entries| - 1], e) + if entries[|entries| - 1] == e then 1 else 0
  }

  lemma TimesLast(init: seq<Entry>, last: Entry, e: Entry)
    ensures Times(init + [last], e) == Times(init, e) + if last == e then 1 else 0
  {
    assert (init + [last])[..|init|] == init;
  }

  lemma InBucketLast(init: seq<Entry>, last: Entry, b: Bucket)
    ensures InBucket(init + [last], b) ==
            if !last.passed && BucketOf(last.state) == b then InBucket(init, b) + [last] else InBucket(init, b)
  {
    assert (init + [last])[..|init|] == init;
  }

  lemma {:induction false} InBucketCount(entries: seq<Entry>, e: Entry, b: Bucket)
    ensures Times(InBucket(entries, b), e) == if !e.passed && BucketOf(e.state) == b then Times(entries, e) else 0
  {
    if |entries| > 0 {
      var init, last := entries[..|entries| - 1], entries[|entries| - 1];
      InBucketCount(init, e, b);
      TimesLast(InBucket(init, b), last, e);
      InBucketLast(init, last, b);
      assert entries == init + [last];
    }
  }

  /** Every entry that does not pass lands in one bucket, as often as it was audited, and in no other. */
  lemma EachFailureInOneBucket(g: Graph, run: string, gates: seq<Declared>, e: Entry, b: Bucket)
    ensures var v := AuditOf(g, run, gates);
            && b in v.buckets
            && Times(v.buckets[b], e) == if !e.passed && BucketOf(e.state) == b then Times(v.audited, e) else 0
  {
    InBucketCount(AuditOf(g, run, gates).audited, e, b);
    IsBucket(b);
  }

  lemma {:induction false} WorstStateFresh(entries: seq<Entry>, order: seq<(Term, Bucket)>, otherwise: Term, k: nat)
    requires k < |order| && InBucket(entries, order[k].1) != []
    requires forall i :: 0 <= i < |order| ==> order[i].0 != FreshT
    ensures WorstState(entries, order, otherwise) != FreshT
  {
    if InBucket(entries, order[0].1) == [] {
      WorstStateFresh(entries, order[1..], otherwise, k - 1);
    }
  }

  function PriorityOf(b: Bucket): (k: nat)
    ensures k < |PRIORITY| && PRIORITY[k].1 == b
  {
    match b
    case StaleB => 0 case MissingB => 1 case InfraB => 2 case BlindB => 3 case PendingB => 4
    case KnownB => 5 case FailedB => 6 case IncompleteB => 7 case SkippedB => 8
  }

  lemma FailureIsNotFresh(entries: seq<Entry>, otherwise: Term, i: nat)
    requires i < |entries| && !entries[i].passed
    ensures WorstState(entries, PRIORITY, otherwise) != FreshT
  {
    var b := BucketOf(entries[i].state);
    InBucketMembers(entries, b);
    assert entries[i] in InBucket(entries, b);
    WorstStateFresh(entries, PRIORITY, otherwise, PriorityOf(b));
  }

  /** The verdict reads `fresh` exactly when it passes. */
  lemma FreshIffPassed(g: Graph, run: string, gates: seq<Declared>)
    ensures AuditOf(g, run, gates).state == FreshT <==> AuditOf(g, run, gates).passed
  {
    if gates != [] && !AuditOf(g, run, gates).passed {
      var expected := CurrentCycle(g, run);
      var entries := Entries(g, run, if expected.Some? then expected.value else "", gates);
      if expected.None? {
        NoCycleNothingPasses(g, run, gates[0]);
        FailureIsNotFresh(entries, StaleT, 0);
      } else {
        var i :| 0 <= i < |entries| && !entries[i].passed;
        FailureIsNotFresh(entries, FreshT, i);
      }
    }
  }

  /** Without a cycle no declared gate can pass. */
  lemma NoCycleNothingPasses(g: Graph, run: string, d: Declared)
    ensures !AuditGate(g, d, run, "").passed
  {
  }

  /******* The fail-fast blocker *******/

  function UpstreamIn(g: Graph, gate: Gate): Datum {
    if gate in g.files && g.files[gate].Json? && IsTrue(g.files[gate].report.upstream)
    then g.files[gate].report.upstream else Absent
  }

  /** The first gate that is not a clean pass, with the upstream state its file donates. */
  function BlockerFrom(g: Graph, run: string, cycle: string, gates: seq<Declared>): Option<Entry> {
    if gates == [] then None
    else
      var e := AuditGate(g, gates[0], run, cycle);
      if e.passed then BlockerFrom(g, run, cycle, gates[1..])
      else Some(if gates[0].Pair? then e.(upstream := UpstreamIn(g, gates[0].gate)) else e)
  }

  function FirstBlocker(g: Graph, run: string, gates: seq<Declared>): Option<Entry> {
    if gates == [] then None
    else
      match CurrentCycle(g, run)
      case None => Some(Entry("", ".evidence_cycle.json", StaleT, false, Text(CycleMissingT), Absent))
      case Some(cycle) => BlockerFrom(g, run, cycle, gates)
  }

  /** The gate list as it is handed over: `None` is a text that does not decode. */
  function DeclaredBlocker(g: Graph, run: string, declared: Option<seq<Declared>>): Option<Entry> {
    match declared
    case None => Some(Entry("", "", UnreadableT, false, Text(InvalidGate), Absent))
    case Some(gates) => FirstBlocker(g, run, gates)
  }

  method FirstUpstreamBlocker(g: Graph, run: string, declared: Option<seq<Declared>>) returns (blocker: Option<Entry>)
    ensures blocker == DeclaredBlocker(g, run, declared)
  {
    if declared.None? {
      return Some(Entry("", "", UnreadableT, false, Text(InvalidGate), Absent));
    }
    var gates := declared.value;
    if gates == [] {
      return None;
    }
    var expected := CurrentCycle(g, run);
    if expected.None? {
      return Some(Entry("", ".evidence_cycle.json", StaleT, false, Text(CycleMissingT), Absent));
    }
    for i := 0 to |gates|
      invariant BlockerFrom(g, run, expected.value, gates) == BlockerFrom(g, run, expected.value, gates[i..])
    {
      assert gates[i..][1..] == gates[i + 1..];
      var entry := AuditGate(g, gates[i], run, expected.value);
      if !entry.passed {
        if gates[i].Pair? {
          entry := entry.(upstream := UpstreamIn(g, gates[i].gate));
        }
        return Some(entry);
      }
    }
    return None;
  }

  /** Where the blocker stops: everything before it passed. */
  lemma {:induction false} BlockerIsFirst(g: Graph, run: string, cycle: string, gates: seq<Declared>) returns (k: nat)
    ensures k <= |gates|
    ensures forall i :: 0 <= i < k ==> AuditGate(g, gates[i], run, cycle).passed
    ensures k == |gates| <==> BlockerFrom(g, run, cycle, gates).None?
    ensures k < |gates| ==>
              var e := AuditGate(g, gates[k], run, cycle);
              !e.passed && BlockerFrom(g, run, cycle, gates).value == e.(upstream := BlockerFrom(g, run, cycle, gates).value.upstream)
  {
    if gates == [] {
      k := 0;
    } else if !AuditGate(g, gates[0], run, cycle).passed {
      k := 0;
    } else {
      var j := BlockerIsFirst(g, run, cycle, gates[1..]);
      k := j + 1;
      forall i | 0 <= i < k
        ensures AuditGate(g, gates[i], run, cycle).passed
      {
        if i > 0 {
          assert gates[i] == gates[1..][i - 1];
        }
      }
    }
  }

  /**
   For any declared gates the blocker is absent exactly when the audit passes; and where the
   cycle is established it is the audit's first entry that does not pass, up to the donated
   upstream state.
   */
  lemma BlockerAgreesWithAudit(g: Graph, run: string, gates: seq<Declared>) returns (k: nat)
    requires gates != []
    ensures FirstBlocker(g, run, gates).None? <==> AuditOf(g, run, gates).passed
    ensures CurrentCycle(g, run).Some? && FirstBlocker(g, run, gates).Some? ==>
              var v, b := AuditOf(g, run, gates), FirstBlocker(g, run, gates).value;
              && k < |v.audited| && !v.audited[k].passed && b == v.audited[k].(upstream := b.upstream)
              && forall i :: 0 <= i < k ==> v.audited[i].passed
  {
    k := 0;
    match CurrentCycle(g, run)
    case None =>
    case Some(cycle) =>
      k := BlockerIsFirst(g, run, cycle, gates);
      var entries := Entries(g, run, cycle, gates);
      if k < |gates| {
        assert !entries[k].passed;
      } else {
        assert AllPassed(entries);
      }
  }
}
