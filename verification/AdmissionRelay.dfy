/**
 One relayed request: the handler thread that forwards it and the watch thread that keeps the
 gate's socket alive, interleaved at every point where the other thread can run.
 */
module AdmissionRelay {
  import opened Values

  /** What reaches the gate. A write can stop half way, so every response is two chunks. */
  datatype Chunk = InterimHead | InterimTail | FinalHead | FinalTail

  datatype Outcome = Answered | NotAdmitted | Unreachable | Abandoned | EngineError

  /** What the handler learned: its outcome and the status it will pass on. */
  datatype Answer = Answer(outcome: Outcome, status: nat)

  datatype Holder = Nobody | ByHandler | ByWatch

  datatype HandlerAt =
    | Preparing | Prepared | InFlight | Awaiting
    | Closing(answer: Answer)
    | BeforeStop(answer: Answer) | StopHeld(answer: Answer) | StopSet(answer: Answer) | AfterStop(answer: Answer)
    | BeforeFinal(answer: Answer, keepalives: Option<nat>)
    | HeadSent(answer: Answer, keepalives: Option<nat>)
    | Recording(answer: Answer, keepalives: Option<nat>, delivered: bool)
    | Finished(answer: Answer, keepalives: Option<nat>, delivered: bool)

  /** `last` marks the interim response that goes out at admission. */
  datatype WatchAt =
    | Idle | Waiting | Polling | Blind | Admitted
    | WantSend(last: bool) | Checking(last: bool) | Writing(last: bool) | HalfWritten(last: bool) | Counting(last: bool)
    | Releasing(last: bool, ok: bool)
    | Gone

  datatype Req = Req(h: HandlerAt, w: WatchAt, watched: bool, lock: Holder, stopped: bool, sent: nat, wire: seq<Chunk>)

  const NEW := Req(Preparing, Idle, false, Nobody, false, 0, [])

  datatype Act =
    // the handler
    | Prepare(readable: Option<bool>) | Register | Request(ok: bool, stopping: bool) | Respond(status: Option<nat>, stopping: bool)
    | Unregister | AcquireStop | SetStop | ReleaseStop | ReadSent | WriteFinalHead(ok: bool) | WriteFinalTail(ok: bool) | Record
    // the watch
    | Wake | Poll(owners: Option<bool>, due: bool) | GiveUp | NoteAdmission
    | AcquireSend | CheckSend | WriteHead(ok: bool) | WriteTail(ok: bool) | CountSent | ReleaseSend

  function OutcomeOf(status: nat): Outcome {
    if 200 <= status < 300 then Answered else if status == 409 then NotAdmitted else EngineError
  }

  function Failure(stopping: bool): Answer {
    Answer(if stopping then Abandoned else Unreachable, 502)
  }

  predicate HandlerMay(r: Req, a: Act) {
    match a
    case Prepare(_) => r.h.Preparing?
    case Register => r.h.Prepared?
    case Request(_, _) => r.h.InFlight?
    case Respond(_, _) => r.h.Awaiting?
    case Unregister => r.h.Closing?
    case AcquireStop => r.h.BeforeStop? && r.watched && r.lock == Nobody
    case SetStop => r.h.StopHeld?
    case ReleaseStop => r.h.StopSet?
    case ReadSent => r.h.AfterStop? || (r.h.BeforeStop? && !r.watched)
    case WriteFinalHead(_) => r.h.BeforeFinal?
    case WriteFinalTail(_) => r.h.HeadSent?
    case Record => r.h.Recording?
    case _ => false
  }

  function HandlerStep(r: Req, a: Act): Req
    requires HandlerMay(r, a)
  {
    match a
    case Prepare(readable) => r.(h := Prepared, watched := readable == Some(true))
    case Register => r.(h := InFlight)
    case Request(ok, stopping) =>
      if ok then r.(h := Awaiting, w := if r.watched then Waiting else Idle) else r.(h := Closing(Failure(stopping)))
    case Respond(status, stopping) =>
      r.(h := Closing(if status.Some? then Answer(OutcomeOf(status.value), status.value) else Failure(stopping)))
    case Unregister => r.(h := BeforeStop(r.h.answer))
    case AcquireStop => r.(h := StopHeld(r.h.answer), lock := ByHandler)
    case SetStop => r.(h := StopSet(r.h.answer), stopped := true)
    case ReleaseStop => r.(h := AfterStop(r.h.answer), lock := Nobody)
    case ReadSent => r.(h := BeforeFinal(r.h.answer, if r.watched then Some(r.sent) else None))
    case WriteFinalHead(ok) =>
      if ok then r.(h := HeadSent(r.h.answer, r.h.keepalives), wire := r.wire + [FinalHead])
      else r.(h := Recording(r.h.answer, r.h.keepalives, false))
    case WriteFinalTail(ok) =>
      r.(h := Recording(r.h.answer, r.h.keepalives, ok), wire := if ok then r.wire + [FinalTail] else r.wire)
    case Record => r.(h := Finished(r.h.answer, r.h.keepalives, r.h.delivered))
  }

  predicate WatchMay(r: Req, a: Act) {
    match a
    case Wake => r.w.Waiting?
    case Poll(_, _) => r.w.Polling?
    case GiveUp => r.w.Blind?
    case NoteAdmission => r.w.Admitted?
    case AcquireSend => r.w.WantSend? && r.lock == Nobody
    case CheckSend => r.w.Checking?
    case WriteHead(_) => r.w.Writing?
    case WriteTail(_) => r.w.HalfWritten?
    case CountSent => r.w.Counting?
    case ReleaseSend => r.w.Releasing?
    case _ => false
  }

  function WatchStep(r: Req, a: Act): Req
    requires WatchMay(r, a)
  {
    match a
    case Wake => r.(w := if r.stopped then Gone else Polling)
    case Poll(owners, due) =>
      r.(w := match owners
              case None => Blind
              case Some(admitted) => if admitted then Admitted else if due then WantSend(false) else Waiting)
    case GiveUp => r.(w := Gone)
    case NoteAdmission => r.(w := WantSend(true))
    case AcquireSend => r.(w := Checking(r.w.last), lock := ByWatch)
    case CheckSend => r.(w := if r.stopped then Releasing(r.w.last, false) else Writing(r.w.last))
    case WriteHead(ok) =>
      if ok then r.(w := HalfWritten(r.w.last), wire := r.wire + [InterimHead])
      else r.(w := Releasing(r.w.last, false), stopped := true)
    case WriteTail(ok) =>
      if ok then r.(w := Counting(r.w.last), wire := r.wire + [InterimTail])
      else r.(w := Releasing(r.w.last, false), stopped := true)
    case CountSent => r.(w := Releasing(r.w.last, true), sent := r.sent + 1)
    case ReleaseSend => r.(w := if r.w.last || !r.w.ok then Gone else Waiting, lock := Nobody)
  }

  predicate May(r: Req, a: Act) {
    HandlerMay(r, a) || WatchMay(r, a)
  }

  function Step(r: Req, a: Act): Req
    requires May(r, a)
  {
    if HandlerMay(r, a) then HandlerStep(r, a) else WatchStep(r, a)
  }

  /******* What the gate has read *******/

  /**
   `n` complete interim responses, then possibly the head of one more (`torn`), then possibly
   the final response. Anything else is garbled.
   */
  datatype Reading = Interims(n: nat, torn: bool) | Final(n: nat, torn: bool, complete: bool) | Garbled

  function Read(reading: Reading, c: Chunk): Reading {
    match reading
    case Interims(n, torn) =>
      (match c
       case InterimHead => if torn then Garbled else Interims(n, true)
       case InterimTail => if torn then Interims(n + 1, false) else Garbled
       case FinalHead => Final(n, torn, false)
       case FinalTail => Garbled)
    case Final(n, torn, complete) => if c == FinalTail && !complete then Final(n, torn, true) else Garbled
    case Garbled => Garbled
  }

  function ReadAll(wire: seq<Chunk>): Reading {
    if wire == [] then Interims(0, false) else Read(ReadAll(wire[..|wire| - 1]), wire[|wire| - 1])
  }

  lemma ReadMore(wire: seq<Chunk>, c: Chunk)
    ensures ReadAll(wire + [c]) == Read(ReadAll(wire), c)
  {
    assert (wire + [c])[..|wire|] == wire;
  }

  /******* What every interleaving keeps *******/

  /** The final response has begun, or can no longer. */
  predicate FinalBegun(h: HandlerAt) {
    h.HeadSent? || h.Recording? || h.Finished?
  }

  predicate HoldsStop(h: HandlerAt) {
    h.StopHeld? || h.StopSet?
  }

  predicate PastStop(h: HandlerAt) {
    h.StopSet? || h.AfterStop? || h.BeforeFinal? || FinalBegun(h)
  }

  predicate HoldsSend(w: WatchAt) {
    w.Checking? || w.Writing? || w.HalfWritten? || w.Counting? || w.Releasing?
  }

  /** The watch is in the middle of a response to the gate. */
  predicate MidWrite(w: WatchAt) {
    w.Writing? || w.HalfWritten? || w.Counting?
  }

  predicate Locked(r: Req) {
    && (r.lock == ByHandler <==> HoldsStop(r.h))
    && (r.lock == ByWatch <==> HoldsSend(r.w))
  }

  predicate Gated(r: Req) {
    && (r.w != Idle ==> r.watched)
    && (r.h.Preparing? || r.h.Prepared? || r.h.InFlight? ==> r.w == Idle)
    && (r.h.Preparing? ==> !r.watched)
    && (HoldsStop(r.h) || r.h.AfterStop? ==> r.watched)
    && (r.watched && PastStop(r.h) ==> r.stopped)
    && (r.stopped ==> !MidWrite(r.w))
  }

  predicate Counted(r: Req) {
    && (r.w.Idle? ==> r.sent == 0)
    && (r.h.BeforeFinal? || FinalBegun(r.h) ==> r.h.keepalives == if r.watched then Some(r.sent) else None)
  }

  /** What the gate has read so far, given where the two threads are. */
  predicate Legible(r: Req) {
    var reading := ReadAll(r.wire);
    if FinalBegun(r.h) then
      match reading
      case Final(n, torn, complete) => n == r.sent && complete == (!r.h.HeadSent? && r.h.delivered)
      case Interims(n, torn) => n == r.sent && !r.h.HeadSent? && !r.h.delivered
      case Garbled => false
    else
      reading == if r.w.HalfWritten? then Interims(r.sent, true)
                 else if r.w.Counting? then Interims(r.sent + 1, false)
                 else if r.stopped && reading.Interims? then Interims(r.sent, reading.torn)
                 else Interims(r.sent, false)
  }

  predicate Inv(r: Req) {
    Locked(r) && Gated(r) && Counted(r) && Legible(r)
  }

  lemma FinalHeadKeeps(r: Req, ok: bool)
    requires Inv(r) && r.h.BeforeFinal?
    ensures Inv(HandlerStep(r, WriteFinalHead(ok)))
  {
    ReadMore(r.wire, FinalHead);
  }

  lemma FinalTailKeeps(r: Req, ok: bool)
    requires Inv(r) && r.h.HeadSent?
    ensures Inv(HandlerStep(r, WriteFinalTail(ok)))
  {
    ReadMore(r.wire, FinalTail);
  }

  /** The handler's other steps write nothing to the gate. */
  lemma SilentStepKeeps(r: Req, a: Act)
    requires Inv(r) && HandlerMay(r, a) && !a.WriteFinalHead? && !a.WriteFinalTail?
    ensures Inv(HandlerStep(r, a))
  {
    assert HandlerStep(r, a).wire == r.wire;
  }

  lemma HandlerKeeps(r: Req, a: Act)
    requires Inv(r) && HandlerMay(r, a)
    ensures Inv(HandlerStep(r, a))
  {
    match a
    case WriteFinalHead(ok) => FinalHeadKeeps(r, ok);
    case WriteFinalTail(ok) => FinalTailKeeps(r, ok);
    case _ => SilentStepKeeps(r, a);
  }

  lemma WatchKeeps(r: Req, a: Act)
    requires Inv(r) && WatchMay(r, a)
    ensures Inv(WatchStep(r, a))
  {
    if a.WriteHead? {
      ReadMore(r.wire, InterimHead);
    } else if a.WriteTail? {
      ReadMore(r.wire, InterimTail);
    }
  }

  lemma StepKeeps(r: Req, a: Act)
    requires Inv(r) && May(r, a)
    ensures Inv(Step(r, a))
  {
    if HandlerMay(r, a) {
      HandlerKeeps(r, a);
    } else {
      WatchKeeps(r, a);
    }
  }

  ghost predicate Reaches(r: Req, acts: seq<Act>, r': Req)
    decreases |acts|
  {
    if |acts| == 0 then r == r' else May(r, acts[0]) && Reaches(Step(r, acts[0]), acts[1..], r')
  }

  lemma {:induction false} RunKeeps(r: Req, acts: seq<Act>, r': Req)
    requires Inv(r) && Reaches(r, acts, r')
    ensures Inv(r')
    decreases |acts|
  {
    if |acts| > 0 {
      StepKeeps(r, acts[0]);
      RunKeeps(Step(r, acts[0]), acts[1..], r');
    }
  }

  /******* Whole runs of one request *******/

  function Pairs(n: nat): seq<Chunk> {
    if n == 0 then [] else Pairs(n - 1) + [InterimHead, InterimTail]
  }

  /** The bytes a reading stands for. */
  function Spelled(reading: Reading): seq<Chunk>
    requires !reading.Garbled?
  {
    Pairs(reading.n) + (if reading.torn then [InterimHead] else [])
    + match reading
      case Interims(_, _) => []
      case Final(_, _, complete) => if complete then [FinalHead, FinalTail] else [FinalHead]
  }

  lemma SpelledMore(reading: Reading, c: Chunk)
    requires !Read(reading, c).Garbled?
    ensures Spelled(reading) + [c] == Spelled(Read(reading, c))
  {
    if c == InterimTail {
      assert Pairs(reading.n + 1) == Pairs(reading.n) + [InterimHead, InterimTail];
    }
  }

  /** A legible wire is exactly what its reading spells. */
  lemma {:induction false} LegibleIsSpelled(wire: seq<Chunk>)
    requires !ReadAll(wire).Garbled?
    ensures wire == Spelled(ReadAll(wire))
    decreases |wire|
  {
    if wire != [] {
      var init := wire[..|wire| - 1];
      LegibleIsSpelled(init);
      SpelledMore(ReadAll(init), wire[|wire| - 1]);
      assert wire == init + [wire[|wire| - 1]];
    }
  }

  /**
   In every interleaving the gate reads whole interim responses, then at most one final response.
   The final one is complete exactly when the handler records it as delivered, and the recorded
   `keepalives` is the number of interim responses.
   */
  lemma InterimsThenOneFinal(acts: seq<Act>, r: Req)
    requires Reaches(NEW, acts, r)
    ensures var reading := ReadAll(r.wire);
            && !reading.Garbled? && r.wire == Spelled(reading)
            && (reading.Final? ==> FinalBegun(r.h))
            && (r.h.Finished? ==>
                  && (r.h.delivered <==> reading.Final? && reading.complete)
                  && r.h.keepalives == if r.watched then Some(reading.n) else None)
  {
    RunKeeps(NEW, acts, r);
    LegibleIsSpelled(r.wire);
  }

  predicate FailsMidWrite(a: Act) {
    a == WriteTail(false)
  }

  predicate Untorn(r: Req) {
    !ReadAll(r.wire).Garbled? && (ReadAll(r.wire).torn ==> r.w.HalfWritten?)
  }

  lemma HandlerTearsNothing(r: Req, a: Act)
    requires Inv(r) && Untorn(r) && HandlerMay(r, a)
    ensures Untorn(HandlerStep(r, a))
  {
    if a.WriteFinalHead? || a.WriteFinalTail? {
      FinalTearsNothing(r, a);
    } else {
      SilentTearsNothing(r, a);
    }
  }

  lemma FinalTearsNothing(r: Req, a: Act)
    requires Legible(r) && Untorn(r) && HandlerMay(r, a) && (a.WriteFinalHead? || a.WriteFinalTail?)
    ensures Untorn(HandlerStep(r, a))
  {
    ReadMore(r.wire, if a.WriteFinalHead? then FinalHead else FinalTail);
  }

  lemma SilentTearsNothing(r: Req, a: Act)
    requires Gated(r) && Untorn(r) && HandlerMay(r, a) && !a.WriteFinalHead? && !a.WriteFinalTail?
    ensures Untorn(HandlerStep(r, a))
  {
    assert HandlerStep(r, a).wire == r.wire;
  }

  lemma WatchTearsNothing(r: Req, a: Act)
    requires Inv(r) && Untorn(r) && WatchMay(r, a) && !FailsMidWrite(a)
    ensures Untorn(WatchStep(r, a))
  {
    if a.WriteHead? {
      ReadMore(r.wire, InterimHead);
    } else if a.WriteTail? {
      ReadMore(r.wire, InterimTail);
    }
  }

  /** Only a write that breaks half way leaves a torn interim response behind. */
  lemma {:induction false} OnlyFailuresTear(r: Req, acts: seq<Act>, r': Req)
    requires Inv(r) && Untorn(r) && Reaches(r, acts, r')
    requires forall i :: 0 <= i < |acts| ==> !FailsMidWrite(acts[i])
    ensures Untorn(r')
    decreases |acts|
  {
    if |acts| > 0 {
      StepKeeps(r, acts[0]);
      assert !FailsMidWrite(acts[0]);
      if HandlerMay(r, acts[0]) {
        HandlerTearsNothing(r, acts[0]);
      } else {
        WatchTearsNothing(r, acts[0]);
      }
      OnlyFailuresTear(Step(r, acts[0]), acts[1..], r');
    }
  }

  predicate OnlyFinal(chunks: seq<Chunk>) {
    forall i :: 0 <= i < |chunks| ==> chunks[i] == FinalHead || chunks[i] == FinalTail
  }

  lemma StopHolds(r: Req, a: Act)
    requires Inv(r) && r.watched && PastStop(r.h) && May(r, a)
    ensures var r' := Step(r, a);
            r'.watched && PastStop(r'.h) && r.wire <= r'.wire && OnlyFinal(r'.wire[|r.wire|..])
  {
  }

  /** Once `stop()` has set the flag, only the final answer is ever written to the gate. */
  lemma {:induction false} NothingAfterStop(r: Req, acts: seq<Act>, r': Req)
    requires Inv(r) && r.watched && PastStop(r.h) && Reaches(r, acts, r')
    ensures r.wire <= r'.wire && OnlyFinal(r'.wire[|r.wire|..])
    decreases |acts|
  {
    if |acts| > 0 {
      var mid := Step(r, acts[0]);
      StepKeeps(r, acts[0]);
      StopHolds(r, acts[0]);
      NothingAfterStop(mid, acts[1..], r');
      assert r'.wire[|r.wire|..] == mid.wire[|r.wire|..] + r'.wire[|mid.wire|..];
    }
  }

  function Heads(wire: seq<Chunk>): nat {
    if wire == [] then 0
    else Heads(wire[..|wire| - 1]) + if wire[|wire| - 1] == InterimHead then 1 else 0
  }

  /** The watch has seen the admission. */
  predicate SawAdmission(w: WatchAt) {
    || w.Admitted? || w.Gone?
    || ((w.WantSend? || w.Checking? || w.Writing? || w.HalfWritten? || w.Counting? || w.Releasing?) && w.last)
  }

  /** How many interim responses the watch may still begin. */
  function Allowance(w: WatchAt): nat
    requires SawAdmission(w)
  {
    if w.Admitted? || w.WantSend? || w.Checking? || w.Writing? then 1 else 0
  }

  lemma HeadsMore(wire: seq<Chunk>, c: Chunk)
    ensures Heads(wire + [c]) == Heads(wire) + if c == InterimHead then 1 else 0
  {
    assert (wire + [c])[..|wire|] == wire;
  }

  /** The handler leaves the watch where it is and begins no interim response. */
  lemma HandlerAdmission(r: Req, a: Act)
    requires Inv(r) && SawAdmission(r.w) && HandlerMay(r, a)
    ensures var r' := HandlerStep(r, a); r'.w == r.w && Heads(r'.wire) == Heads(r.wire)
  {
    HeadsMore(r.wire, FinalHead);
    HeadsMore(r.wire, FinalTail);
  }

  lemma WatchAdmission(r: Req, a: Act)
    requires SawAdmission(r.w) && WatchMay(r, a)
    ensures var r' := WatchStep(r, a);
            SawAdmission(r'.w) && Heads(r'.wire) + Allowance(r'.w) <= Heads(r.wire) + Allowance(r.w)
  {
    if a.WriteHead? || a.WriteTail? {
      WriteAdmission(r, a);
    }
  }

  lemma WriteAdmission(r: Req, a: Act)
    requires SawAdmission(r.w) && WatchMay(r, a) && (a.WriteHead? || a.WriteTail?)
    ensures var r' := WatchStep(r, a);
            SawAdmission(r'.w) && Heads(r'.wire) + Allowance(r'.w) <= Heads(r.wire) + Allowance(r.w)
  {
    HeadsMore(r.wire, if a.WriteHead? then InterimHead else InterimTail);
  }

  lemma AdmissionHolds(r: Req, a: Act)
    requires Inv(r) && SawAdmission(r.w) && May(r, a)
    ensures var r' := Step(r, a);
            SawAdmission(r'.w) && Heads(r'.wire) + Allowance(r'.w) <= Heads(r.wire) + Allowance(r.w)
  {
    if HandlerMay(r, a) {
      HandlerAdmission(r, a);
    } else {
      WatchAdmission(r, a);
    }
  }

  /** However the run goes on after admission was seen, at most one more interim response begins. */
  lemma {:induction false} OneInterimAfterAdmission(r: Req, acts: seq<Act>, r': Req)
    requires Inv(r) && SawAdmission(r.w) && Reaches(r, acts, r')
    ensures SawAdmission(r'.w) && Heads(r'.wire) + Allowance(r'.w) <= Heads(r.wire) + Allowance(r.w) <= Heads(r.wire) + 1
    decreases |acts|
  {
    if |acts| > 0 {
      StepKeeps(r, acts[0]);
      AdmissionHolds(r, acts[0]);
      OneInterimAfterAdmission(Step(r, acts[0]), acts[1..], r');
    }
  }
}
