/**
 Release evidence: classify a gate report and write the classification back without
 changing it. Reports are read through their vocabulary: a text field holds a `Term`, and a
 coverage field holds the refusal it draws.
 */
module GateEvidence {
  import opened Values
  import GateCoverage

  /** The words the readers know. `Loose(t)` is a text that becomes `t` once stripped and lower-cased. */
  datatype Term =
    | Blank | Loose(of: Term) | Free(text: string)
    // states, as the classifier writes them
    | PassedT | FailedT | KnownFailureT | UnattributedT | UnreadableT | ProvisionalT | PendingT | InfraT
    | BlindT | UnattributableT | PartialT | SkippedT | StaleT | MissingT | CoverageIncompleteT
    // other status words of producers
    | Queued | Running | InProgress | InProgressDash | InfraDash | InfraShort | RunnerUnavailable
    | NotRun | NotRunDash | NotRunSpace | UnrunT | Unexecuted
    // purposes, producers, baselines, reasons, dispositions
    | RoundPurpose | RunTests | RoundFeedback | Seeded | Compared
    | UpstreamFailedT | UpstreamUnresolvedT | CycleMissingT | UnresolvedT
    | ReportMissing | ReportUnreadable | InvalidGate | InvalidPassed | GateUnrun | GateSkippedT
    | FreshT | AuditError

  /** A field's value; a field may be absent, or present and null. */
  datatype Datum =
    | Absent
    | Nil
    | Flag(b: bool)
    | Count(n: int)
    | Text(t: Term)
    | Structure(v: Value)

  predicate IsTrue(d: Datum) {
    match d
    case Flag(b) => b
    case Count(n) => n != 0
    case Text(t) => t != Blank
    case Structure(v) => Truthy(v)
    case _ => false
  }

  /** The coverage field: absent, or present with the refusal the publication check gives it. */
  datatype CoverageDatum = NoCoverage | Coverage(refusal: Option<GateCoverage.ScopeError>)

  /** The fields of a report that some reader consults, and all the others. */
  datatype Report = Report(
    run: Datum, cycle: Datum, at: Datum, state: Datum, release: Datum, status: Datum,
    passed: Datum, allPassed: Datum, purpose: Datum, producer: Datum,
    returncode: Datum, notTaken: Datum, storageUnmeasured: Datum,
    pending: Datum, infra: Datum, blind: Datum, blindBuilder: Datum, nodeUnmeasured: Datum,
    gateSkipped: Datum, skipped: Datum, because: Datum, noTests: Datum,
    unrun: Datum, ran: Datum, executed: Datum, relative: Datum, baseline: Datum,
    repoGate: Datum, coverage: CoverageDatum, upstream: Datum, upstreamGate: Datum, stampError: Datum,
    other: map<string, Value>)

  /******* The classifier *******/

  datatype State =
    | Clean | Failed | KnownFailure | Unattributed | Unreadable | Provisional
    | Pending | Infrastructure | Blind | Unattributable | Partial | Skipped

  function Word(s: State): Term {
    match s
    case Clean => PassedT
    case Failed => FailedT
    case KnownFailure => KnownFailureT
    case Unattributed => UnattributedT
    case Unreadable => UnreadableT
    case Provisional => ProvisionalT
    case Pending => PendingT
    case Infrastructure => InfraT
    case Blind => BlindT
    case Unattributable => UnattributableT
    case Partial => PartialT
    case Skipped => SkippedT
  }

  /** The producer's own word, normalised: the label if it has one, else the status. */
  function StatusOf(r: Report): Term {
    Normal(if IsTrue(r.state) then r.state else r.status)
  }

  /** A value that is not text reads as none of the known words. */
  function Normal(d: Datum): Term {
    match d
    case Text(Loose(t)) => t
    case Text(t) => t
    case _ => Blank
  }

  predicate IsPendingWord(t: Term) {
    t == PendingT || t == Queued || t == Running || t == InProgress || t == InProgressDash
  }

  predicate IsInfraWord(t: Term) {
    t == InfraT || t == InfraDash || t == InfraShort || t == RunnerUnavailable
  }

  predicate IsUnrunWord(t: Term) {
    t == NotRun || t == NotRunDash || t == NotRunSpace || t == UnrunT || t == Unexecuted
  }

  function RawPassed(r: Report): Datum {
    if r.passed != Absent then r.passed else r.allPassed
  }

  predicate HasMarker(r: Report) {
    IsTrue(r.gateSkipped) || IsTrue(r.skipped) || IsTrue(r.because) || IsTrue(r.blind) || IsTrue(r.noTests)
  }

  predicate UnrunFlag(r: Report) {
    r.unrun == Flag(true) || r.ran == Flag(false) || r.executed == Flag(false)
  }

  predicate IsProvisional(r: Report) {
    r.purpose == Text(RoundPurpose)
  }

  /** Who stamped a provisional marker; an unmarked or unlabelled report names nobody. */
  function ProvisionalProducer(r: Report): Term {
    if IsProvisional(r) && r.producer.Text? then r.producer.t else Blank
  }

  /** A provisional report whose own test session ran to its end and failed. */
  predicate MeasuredRed(r: Report) {
    && RawPassed(r) == Flag(false) && ProvisionalProducer(r) == RunTests
    && r.notTaken != Flag(true) && r.storageUnmeasured != Flag(true)
    && r.returncode == Count(1)
  }

  /** The state of a report that measured nothing, if it is one; the order matters. */
  function AbsenceState(r: Report, status: Term): Option<State> {
    if r.pending == Flag(true) || IsPendingWord(status) then Some(Pending)
    else if r.infra == Flag(true) || IsInfraWord(status) then Some(Infrastructure)
    else if r.blind == Flag(true) || r.blindBuilder == Flag(true) then Some(Blind)
    else if status == UnattributableT then Some(Unattributable)
    else if IsTrue(r.nodeUnmeasured) && RawPassed(r) == Flag(true) then Some(Partial)
    else if HasMarker(r) || UnrunFlag(r) || IsUnrunWord(status) then Some(Skipped)
    else None
  }

  predicate BaselineMeasured(r: Report) {
    r.baseline == Text(Seeded) || r.baseline == Text(Compared)
  }

  function ReportState(r: Report): State {
    StateBy(r, StatusOf(r))
  }

  /** The state, given the producer's own word. */
  function StateBy(r: Report, status: Term): State {
    var raw, red := RawPassed(r), MeasuredRed(r);
    if IsProvisional(r) && !red then Provisional
    else if !raw.Flag? then Unreadable
    else if !red && AbsenceState(r, status).Some? then AbsenceState(r, status).value
    else if raw.b then Clean
    else if r.relative == Flag(true) then if BaselineMeasured(r) then KnownFailure else Unattributed
    else Failed
  }

  /** A coverage the publication check refuses; a repository gate without coverage is refused too. */
  predicate CoverageRefused(r: Report) {
    (r.repoGate != Absent || r.coverage != NoCoverage) && r.coverage != Coverage(None)
  }

  datatype Disposition = Release | Repair | Park

  function DispositionWord(d: Disposition): Term {
    match d case Release => PassedT case Repair => KnownFailureT case Park => UnresolvedT
  }

  function ByWord(word: Term, refused: bool): Disposition {
    if word == PassedT then if refused then Park else Release
    else if word == FailedT || word == KnownFailureT then Repair
    else Park
  }

  /** The text of a field as it stands; a value that is not text is no state word. */
  function TextOf(d: Datum): Term {
    match d case Text(t) => t case _ => Free("")
  }

  function ReleaseDisposition(r: Report): Disposition {
    if IsProvisional(r) && !MeasuredRed(r) then Park
    else
      ByWord(if IsTrue(r.upstream) then TextOf(r.upstream)
             else if r.because == Text(UpstreamFailedT) then FailedT
             else Word(ReportState(r)),
             CoverageRefused(r))
  }

  /******* Writing the classification back *******/

  /** Write the label only if the report still reads as that label. */
  function WrittenState(r: Report, state: State): Report {
    var labelled := r.(state := Text(Word(state)));
    if ReportState(labelled) == state then labelled else r
  }

  function Restated(r: Report, create: bool): Report {
    var w := if create || r.state != Absent then WrittenState(r, ReportState(r)) else r;
    if create || r.release != Absent then w.(release := Text(DispositionWord(ReleaseDisposition(r)))) else w
  }

  /**
   The derived label is withheld exactly when the report is skipped and nothing but the
   producer's own status word says so: no marker, no flag.
   */
  lemma LabelWithheldIff(r: Report)
    ensures var state := ReportState(r);
            ReportState(r.(state := Text(Word(state)))) != state <==>
            state == Skipped && !HasMarker(r) && !UnrunFlag(r)
  {
    var state := ReportState(r);
    LabelReads(r, state);
    AnnotatedAlike(r, r.(state := Text(Word(state))));
    SameReading(r, r.(state := Text(Word(state))), Word(state));
    LabelAnswers(r, StatusOf(r));
  }

  lemma LabelReads(r: Report, state: State)
    ensures StatusOf(r.(state := Text(Word(state)))) == Word(state)
  {
  }

  /** Classify again with the classification as the word. */
  lemma LabelAnswers(r: Report, status: Term)
    ensures var state := StateBy(r, status);
            StateBy(r, Word(state)) != state <==> state == Skipped && !HasMarker(r) && !UnrunFlag(r)
  {
    var state := StateBy(r, status);
    if !(IsProvisional(r) && !MeasuredRed(r)) && RawPassed(r).Flag? && !MeasuredRed(r) {
      AbsenceAnswers(r, status, state);
    }
  }

  predicate IsMeasured(state: State) {
    state == Clean || state == KnownFailure || state == Unattributed || state == Failed
  }

  /** Of the classifier's own words only three are status words, each for its own state. */
  lemma OwnWords(state: State)
    ensures IsPendingWord(Word(state)) <==> state == Pending
    ensures IsInfraWord(Word(state)) <==> state == Infrastructure
    ensures Word(state) == UnattributableT <==> state == Unattributable
    ensures !IsUnrunWord(Word(state))
  {
  }

  /** The order of the tests, with the word already read. */
  function ByFlags(r: Report, pending: bool, infra: bool, unattributable: bool, unrun: bool): Option<State> {
    if r.pending == Flag(true) || pending then Some(Pending)
    else if r.infra == Flag(true) || infra then Some(Infrastructure)
    else if r.blind == Flag(true) || r.blindBuilder == Flag(true) then Some(Blind)
    else if unattributable then Some(Unattributable)
    else if IsTrue(r.nodeUnmeasured) && RawPassed(r) == Flag(true) then Some(Partial)
    else if HasMarker(r) || UnrunFlag(r) || unrun then Some(Skipped)
    else None
  }

  lemma AbsenceByFlags(r: Report, status: Term)
    ensures AbsenceState(r, status) ==
            ByFlags(r, IsPendingWord(status), IsInfraWord(status), status == UnattributableT, IsUnrunWord(status))
  {
  }

  lemma AbsenceAnswers(r: Report, status: Term, state: State)
    requires if AbsenceState(r, status).Some? then state == AbsenceState(r, status).value else IsMeasured(state)
    ensures AbsenceState(r, Word(state)) == AbsenceState(r, status) <==>
            !(state == Skipped && !HasMarker(r) && !UnrunFlag(r))
    ensures state == Skipped && !HasMarker(r) && !UnrunFlag(r) ==> AbsenceState(r, Word(state)).None?
  {
    OwnWords(state);
    AbsenceByFlags(r, status);
    AbsenceByFlags(r, Word(state));
    FlagsAnswer(r, IsPendingWord(status), IsInfraWord(status), status == UnattributableT, IsUnrunWord(status), state);
  }

  lemma FlagsAnswer(r: Report, pending: bool, infra: bool, unattributable: bool, unrun: bool, state: State)
    requires var before := ByFlags(r, pending, infra, unattributable, unrun);
             if before.Some? then state == before.value else IsMeasured(state)
    ensures var before := ByFlags(r, pending, infra, unattributable, unrun);
            var after := ByFlags(r, state == Pending, state == Infrastructure, state == Unattributable, false);
            && (after == before <==> !(state == Skipped && !HasMarker(r) && !UnrunFlag(r)))
            && (state == Skipped && !HasMarker(r) && !UnrunFlag(r) ==> after.None?)
  {
  }

  /** Alike in everything the classifier looks at besides the producer's word. */
  predicate Alike(r: Report, r': Report) {
    && r'.passed == r.passed && r'.allPassed == r.allPassed && r'.purpose == r.purpose && r'.producer == r.producer
    && r'.returncode == r.returncode && r'.notTaken == r.notTaken && r'.storageUnmeasured == r.storageUnmeasured
    && r'.pending == r.pending && r'.infra == r.infra && r'.blind == r.blind && r'.blindBuilder == r.blindBuilder
    && r'.nodeUnmeasured == r.nodeUnmeasured && r'.gateSkipped == r.gateSkipped && r'.skipped == r.skipped
    && r'.because == r.because && r'.noTests == r.noTests && r'.unrun == r.unrun && r'.ran == r.ran
    && r'.executed == r.executed && r'.relative == r.relative && r'.baseline == r.baseline
  }

  lemma AlikeParts(r: Report, r': Report)
    requires Alike(r, r')
    ensures RawPassed(r') == RawPassed(r) && MeasuredRed(r') == MeasuredRed(r) && IsProvisional(r') == IsProvisional(r)
    ensures HasMarker(r') == HasMarker(r) && UnrunFlag(r') == UnrunFlag(r) && BaselineMeasured(r') == BaselineMeasured(r)
  {
  }

  lemma SameReading(r: Report, r': Report, status: Term)
    requires Alike(r, r')
    ensures StateBy(r', status) == StateBy(r, status)
  {
    AlikeParts(r, r');
    SameAbsence(r, r', status);
  }

  lemma SameAbsence(r: Report, r': Report, status: Term)
    requires Alike(r, r')
    ensures AbsenceState(r', status) == AbsenceState(r, status)
  {
    AlikeParts(r, r');
    AbsenceByFlags(r, status);
    AbsenceByFlags(r', status);
  }

  lemma AnnotatedAlike(r: Report, r': Report)
    requires r' == r.(state := r'.state, release := r'.release, run := r'.run, cycle := r'.cycle, at := r'.at)
    ensures Alike(r, r') && CoverageRefused(r') == CoverageRefused(r) && r'.upstream == r.upstream && r'.because == r.because
  {
  }

  /** The disposition looks at the state and at fields no annotation touches. */
  lemma SameRelease(r: Report, r': Report)
    requires Alike(r, r') && CoverageRefused(r') == CoverageRefused(r) && r'.upstream == r.upstream
    requires ReportState(r') == ReportState(r)
    ensures ReleaseDisposition(r') == ReleaseDisposition(r)
  {
    AlikeParts(r, r');
  }

  /** No reader consults the written disposition or the identity fields. */
  lemma AnnotationsUnread(r: Report, r': Report)
    requires r' == r.(release := r'.release, run := r'.run, cycle := r'.cycle, at := r'.at)
    ensures ReportState(r') == ReportState(r) && ReleaseDisposition(r') == ReleaseDisposition(r)
  {
    AnnotatedAlike(r, r');
    assert StatusOf(r') == StatusOf(r);
    SameReading(r, r', StatusOf(r));
    SameRelease(r, r');
  }

  /** The label reaches the disposition only through the state. */
  lemma DispositionByState(r: Report, label': Datum)
    requires ReportState(r.(state := label')) == ReportState(r)
    ensures ReleaseDisposition(r.(state := label')) == ReleaseDisposition(r)
  {
    AnnotatedAlike(r, r.(state := label'));
    SameRelease(r, r.(state := label'));
  }

  lemma WriteStatePreserves(r: Report)
    ensures var w := WrittenState(r, ReportState(r));
            ReportState(w) == ReportState(r) && ReleaseDisposition(w) == ReleaseDisposition(r)
  {
    if ReportState(r.(state := Text(Word(ReportState(r))))) == ReportState(r) {
      DispositionByState(r, Text(Word(ReportState(r))));
    }
  }

  /** Writing the answers back changes neither answer. */
  lemma RestatePreserves(r: Report, create: bool)
    ensures ReportState(Restated(r, create)) == ReportState(r)
    ensures ReleaseDisposition(Restated(r, create)) == ReleaseDisposition(r)
  {
    var w := if create || r.state != Absent then WrittenState(r, ReportState(r)) else r;
    WriteStatePreserves(r);
    AnnotationsUnread(w, Restated(r, create));
  }

  /** A second restatement finds nothing to change. */
  lemma RestateIdempotent(r: Report, create: bool)
    ensures Restated(Restated(r, create), create) == Restated(r, create)
  {
    RestatePreserves(r, create);
    var state, s := ReportState(r), Restated(r, create);
    var label' := Text(Word(state));
    if create || r.state != Absent {
      AnnotationsUnread(r.(state := label'), s.(state := label'));
      assert WrittenState(s, state) == s;
    }
  }

  /** A report with no fields. */
  const EMPTY := Report(Absent, Absent, Absent, Absent, Absent, Absent, Absent, Absent, Absent, Absent,
                        Absent, Absent, Absent, Absent, Absent, Absent, Absent, Absent, Absent, Absent,
                        Absent, Absent, Absent, Absent, Absent, Absent, Absent, Absent, NoCoverage, Absent,
                        Absent, Absent, map[])

  /** A red report with nothing to say but its producer's word. */
  function Red(word: Term): Report {
    EMPTY.(passed := Flag(false), state := Text(word))
  }

  /** The report is red and says nothing else that the answers depend on. */
  predicate PlainRed(r: Report, word: Term) {
    && StatusOf(r) == word && RawPassed(r) == Flag(false) && !IsProvisional(r) && !MeasuredRed(r)
    && !HasMarker(r) && !UnrunFlag(r) && r.pending == Absent && r.infra == Absent && r.blind == Absent
    && r.blindBuilder == Absent && r.relative == Absent && r.because == Absent && r.upstream == Absent
  }

  lemma RedIsPlain(word: Term)
    requires !word.Loose? && word != Blank
    ensures PlainRed(Red(word), word)
  {
  }

  /** A plain red: the word alone decides between an absence and a failure. */
  lemma PlainRedReads(r: Report, word: Term)
    requires (word == NotRun || word == SkippedT) && PlainRed(r, word)
    ensures ReportState(r) == if word == NotRun then Skipped else Failed
  {
    AbsenceByFlags(r, word);
  }

  lemma PlainRedDisposition(r: Report, word: Term)
    requires (word == NotRun || word == SkippedT) && PlainRed(r, word)
    ensures ReleaseDisposition(r) == if word == NotRun then Park else Repair
  {
    PlainRedReads(r, word);
  }

  lemma RenamedRed(word: Term, word': Term)
    ensures Red(word).(state := Text(word')) == Red(word')
  {
  }

  /** Why the fixpoint rule is there: the bare rename turns an absence into a confirmed failure. */
  lemma BareRenameLosesAbsence() returns (r: Report, word: Term)
    ensures word == Word(ReportState(r)) && ReleaseDisposition(r) == Park
    ensures ReleaseDisposition(r.(state := Text(word))) == Repair
  {
    r := RedBefore();
    word := SkippedT;
    PlainRedReads(r, NotRun);
    PlainRedDisposition(r, NotRun);
    PlainRedDisposition(r.(state := Text(word)), SkippedT);
  }

  lemma RedBefore() returns (r: Report)
    ensures PlainRed(r, NotRun) && PlainRed(r.(state := Text(SkippedT)), SkippedT)
  {
    r := Red(NotRun);
    RedIsPlain(NotRun);
    RenamedRed(NotRun, SkippedT);
    RedIsPlain(SkippedT);
  }

  /******* Stamping *******/

  function Id(s: string): Datum {
    Text(if s == "" then Blank else Free(s))
  }

  /** The fields a stamp writes before it classifies; without a cycle the report becomes a skip. */
  function Identified(r: Report, run: string, at: string, cycle: Option<string>): Report {
    var i := r.(run := Id(run), at := Id(at));
    if cycle.Some? then i.(cycle := Id(cycle.value))
    else i.(cycle := Id(""), passed := Flag(false), because := Text(CycleMissingT), stampError := Text(Free("no cycle")))
  }

  function Stamped(r: Report, run: string, at: string, cycle: Option<string>): Report {
    Restated(Identified(r, run, at, cycle), true)
  }

  lemma StampedIdentity(r: Report, run: string, at: string, cycle: Option<string>)
    ensures var s := Stamped(r, run, at, cycle);
            s.run == Id(run) && s.cycle == Id(if cycle.Some? then cycle.value else "")
  {
  }

  /** A stamp that has a cycle answers as its producer did. */
  lemma StampPreservesAnswers(r: Report, run: string, at: string, cycle: string)
    ensures var s := Stamped(r, run, at, Some(cycle));
            ReportState(s) == ReportState(r) && ReleaseDisposition(s) == ReleaseDisposition(r)
  {
    AnnotationsUnread(r, Identified(r, run, at, Some(cycle)));
    RestatePreserves(Identified(r, run, at, Some(cycle)), true);
  }

  /** A report held by its producer and annotated in place. */
  class ReportFile {
    var fields: Report

    constructor (fields: Report)
      ensures this.fields == fields
    {
      this.fields := fields;
    }

    method WriteState(state: State)
      modifies this
      ensures fields == WrittenState(old(fields), state)
    {
      var prior := fields.state;
      fields := fields.(state := Text(Word(state)));
      if ReportState(fields) == state {
        return;
      }
      fields := fields.(state := prior);
    }

    method RestateClassification(create: bool)
      modifies this
      ensures fields == Restated(old(fields), create)
    {
      var state, disposition := ReportState(fields), ReleaseDisposition(fields);
      if create || fields.state != Absent {
        WriteState(state);
      }
      if create || fields.release != Absent {
        fields := fields.(release := Text(DispositionWord(disposition)));
      }
    }

    /** `cycle` is the new cycle of a starting gate, or the current one read from the manifest. */
    method StampReport(run: string, at: string, cycle: Option<string>)
      modifies this
      ensures fields == Stamped(old(fields), run, at, cycle)
    {
      fields := fields.(run := Id(run));
      fields := fields.(at := Id(at));
      if cycle.Some? {
        fields := fields.(cycle := Id(cycle.value));
      } else {
        fields := fields.(cycle := Id(""));
        fields := fields.(passed := Flag(false));
        fields := fields.(because := Text(CycleMissingT));
        fields := fields.(stampError := Text(Free("no cycle")));
      }
      RestateClassification(true);
    }
  }
}
