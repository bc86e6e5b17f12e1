/**
 The run watcher: a transducer from whatever the transport delivers (stream lines, closed
 streams, failed connections, status answers) to what it prints, what it reads and how it exits.
 */
module RunWatcher {
  import opened Values

  const ATTEMPT_MAX := 60
  const SLEEP_MAX := 30

  datatype Args = Args(project: string, run: string, follow: bool)

  /** `Unhashable` is a list or an object where a word was expected. */
  datatype Status = Completed | Failed | Paused | OtherStatus | UnhashableStatus
  datatype Kind = CheckpointPaused | RunCompleted | RunFailed | PipelineFailed | OtherKind | UnhashableKind

  datatype StepRow = StepRow(id: Value, step: Value, completed: bool)

  /** A decoded run. An absent field is null; rows that are not objects are left out. */
  datatype Run = Run(
    id: Value, project: Value, status: Status, reason: Value, cancelled: bool, node: Value, steps: Option<seq<StepRow>>)

  datatype RunAnswer = NotFound | Unreadable | Found(run: Run)

  /** The pending checkpoint, as its own endpoint answers it. */
  datatype Pending = Pending(project: Value, checkpoint: Value, step: Value, instance: Value)

  datatype Snapshot = Snapshot(run: RunAnswer, pending: Option<Pending>)

  datatype StreamEvent = StreamEvent(project: Value, run: Value, kind: Kind, step: Value, instance: Value)
  datatype Body = NotData | Undecodable | Decoded(ev: StreamEvent)

  /** One thing the transport does. The snapshots are what a status read would answer, if one is made. */
  datatype Input =
    | Attempt(inTime: bool, ok: bool, extra: Snapshot)
    | Line(connect: Snapshot, late: bool, body: Body, extra: Snapshot)
    | Closed(late: bool, extra: Snapshot)

  datatype LastRead = Never | Unknown | Ignored | ReadAs(status: Status)

  datatype Ending = EndCompleted | EndFailed | EndCancelled

  /** What the watcher does, in order: reads and events it acted on, lines it printed. */
  datatype Deed =
    | Opened | ReadRun(answer: RunAnswer) | ReadCheckpoint | Saw(ev: StreamEvent) | Slept(seconds: nat)
    | Checkpoint(step: Value, instance: Value)
    | Reported(ending: Ending)
    | RunNotFound | StatusUnknown | StatusIgnored | Unattributed | StreamClosed | Reconnected | ReconnectFailed(times: nat)
    | TimedOut(lastRead: LastRead) | StreamUnreachable | StreamLost | Crashed

  datatype Phase = Opening(first: bool) | Streaming(subscribed: bool, checked: bool) | Exited(code: nat)

  /** A step as a dictionary key: numbers of every type compare by magnitude. */
  datatype StepKey = NoStep | NumberStep(r: real) | TextStep(s: string)

  datatype Watcher = Watcher(
    phase: Phase, fails: nat, backoff: nat, warned: bool, seen: set<(StepKey, int)>, lastRead: LastRead, trace: seq<Deed>)

  const START := Watcher(Opening(true), 0, 1, false, {}, Never, [])

  function Do(w: Watcher, d: Deed): Watcher {
    w.(trace := w.trace + [d])
  }

  function Exit(w: Watcher, d: Deed, code: nat): Watcher {
    w.(trace := w.trace + [d], phase := Exited(code))
  }

  /** An unexpected shape ends the interpreter with a traceback. */
  function Crash(w: Watcher): Watcher {
    Exit(w, Crashed, 1)
  }

  function KeyOf(step: Value): Option<StepKey> {
    match step
    case Null => Some(NoStep)
    case Str(s) => Some(TextStep(s))
    case List(_) => None
    case Dict(_) => None
    case _ => if Numeric(step).Some? then Some(NumberStep(Numeric(step).value)) else None
  }

  predicate Identified(instance: Value) {
    instance.Int? && instance.i > 0
  }

  function SayCheckpoint(args: Args, w: Watcher, step: Value, instance: Value): Watcher {
    if args.follow then Do(w, Checkpoint(step, instance)) else Exit(w, Checkpoint(step, instance), 0)
  }

  function OnCheckpoint(args: Args, w: Watcher, step: Value, instance: Value): Watcher {
    if !Identified(instance) then SayCheckpoint(args, w, step, instance)
    else if KeyOf(step).None? then Crash(w)
    else
      var key := (KeyOf(step).value, instance.i);
      if key in w.seen then w else SayCheckpoint(args, w.(seen := w.seen + {key}), step, instance)
  }

  /******* Reconciling *******/

  datatype Verdict = NotEnded | Ended(ending: Ending) | Malformed

  /** What a decoded answer proves about this run; the project counts only when one is given. */
  function TerminalVerdict(run: Run, id: string, project: string): Verdict {
    if id == "" || run.id != Str(id) then NotEnded
    else if project != "" && run.project != Str(project) then NotEnded
    else
      match run.status
      case UnhashableStatus => Malformed
      case Completed => Ended(EndCompleted)
      case Failed =>
        if Truthy(run.reason) && !run.reason.Str? then Malformed
        else Ended(if run.cancelled then EndCancelled else EndFailed)
      case _ => NotEnded
  }

  /** A pending checkpoint speaks for this run only through a completed step instance of the same snapshot. */
  predicate Bound(args: Args, run: Run, pending: Option<Pending>) {
    && pending.Some?
    && var p := pending.value;
       && p.project == Str(args.project)
       && p.checkpoint.Str? && p.checkpoint.s != "" && p.step == p.checkpoint
       && Identified(p.instance)
       && run.steps.Some?
       && exists i :: 0 <= i < |run.steps.value| && RowOf(run.steps.value[i], p)
  }

  predicate RowOf(row: StepRow, p: Pending) {
    SameValue(row.id, p.instance) && row.step == p.checkpoint && row.completed
  }

  function CodeOfEnding(e: Ending): nat {
    if e.EndCompleted? then 0 else 1
  }

  function Settle(args: Args, w: Watcher, run: Run, pending: Option<Pending>): Watcher {
    match TerminalVerdict(run, args.run, args.project)
    case Malformed => Crash(w)
    case Ended(e) => Exit(w, Reported(e), CodeOfEnding(e))
    case NotEnded =>
      if run.status != Paused then w
      else if Bound(args, run, pending) then
        OnCheckpoint(args, Do(w, ReadCheckpoint), pending.value.checkpoint, pending.value.instance)
      else Do(Do(w, ReadCheckpoint), StatusUnknown)
  }

  predicate Names(args: Args, run: Run) {
    run.id == Str(args.run) && run.project == Str(args.project)
  }

  /** One bounded status read, only for an exact run. */
  function Reconcile(args: Args, w: Watcher, snap: Snapshot): Watcher {
    if args.run == "" then w
    else
      var r := Do(w, ReadRun(snap.run));
      match snap.run
      case NotFound => Exit(r, RunNotFound, 3)
      case Unreadable => Do(r.(lastRead := Unknown), StatusUnknown)
      case Found(run) =>
        if Names(args, run) then Settle(args, r.(lastRead := ReadAs(run.status)), run, snap.pending)
        else if w.warned then r.(lastRead := Ignored)
        else Do(r.(lastRead := Ignored, warned := true), StatusIgnored)
  }

  /** Give up at the deadline, after one last read. */
  function TimeOut(args: Args, w: Watcher, snap: Snapshot): Watcher {
    var r := Reconcile(args, w, snap);
    if r.phase.Exited? then r else Exit(r, TimedOut(r.lastRead), 2)
  }

  /******* The stream *******/

  function OnEvent(args: Args, w: Watcher, ev: StreamEvent, extra: Snapshot): Watcher {
    if ev.project != Str(args.project) then w
    else
      var s := Do(w, Saw(ev));
      if ev.kind == UnhashableKind then Crash(s)
      else if ev.kind == OtherKind then s
      else if args.run != "" && ev.run != Str(args.run) then OnForeign(args, s, ev, extra)
      else if ev.kind == CheckpointPaused then OnCheckpoint(args, s, ev.step, ev.instance)
      else if ev.kind == RunCompleted then Exit(s, Reported(EndCompleted), 0)
      else Exit(s, Reported(EndFailed), 1)
  }

  /** Someone else's event is skipped; nobody's is a reason to look, once per connection. */
  function OnForeign(args: Args, w: Watcher, ev: StreamEvent, extra: Snapshot): Watcher {
    if Truthy(ev.run) || !w.phase.Streaming? then w
    else
      var u := Do(w, Unattributed);
      if w.phase.checked then u else Reconcile(args, u.(phase := w.phase.(checked := true)), extra)
  }

  function OnLine(args: Args, w: Watcher, line: Input): Watcher
    requires w.phase.Streaming? && line.Line?
  {
    var s := if w.phase.subscribed then w else Reconcile(args, w.(phase := w.phase.(subscribed := true)), line.connect);
    if s.phase.Exited? then s
    else if line.late then TimeOut(args, s, line.extra)
    else if line.body.Decoded? then OnEvent(args, s, line.body.ev, line.extra)
    else s
  }

  function OnClosed(args: Args, w: Watcher, closed: Input): Watcher
    requires closed.Closed?
  {
    if closed.late then TimeOut(args, w, closed.extra) else Do(w, StreamClosed).(phase := Opening(false))
  }

  function GiveUp(args: Args, w: Watcher, extra: Snapshot): Watcher
    requires w.phase.Opening?
  {
    if w.phase.first then Exit(w, StreamUnreachable, 4)
    else
      var r := Reconcile(args, w, extra);
      if r.phase.Exited? then r else Exit(r, StreamLost, 4)
  }

  predicate Announced(fails: nat) {
    fails == 1 || fails % 10 == 0
  }

  function AfterFailure(w: Watcher): Watcher {
    var f := w.(fails := w.fails + 1);
    if Announced(f.fails) then Do(f, ReconnectFailed(f.fails)) else f
  }

  function OnAttempt(args: Args, w: Watcher, attempt: Input): Watcher
    requires w.phase.Opening? && attempt.Attempt?
  {
    if !attempt.inTime then GiveUp(args, w, attempt.extra)
    else if attempt.ok then
      Do(if w.fails > 0 then Do(w, Reconnected) else w, Opened).(fails := 0, backoff := 1, phase := Streaming(false, false))
    else
      var f := AfterFailure(w);
      if f.fails >= ATTEMPT_MAX then GiveUp(args, f, attempt.extra)
      else Do(f, Slept(if f.backoff < SLEEP_MAX then f.backoff else SLEEP_MAX)).(backoff := 2 * f.backoff)
  }

  /** What does not fit the phase is not something the transport can do there. */
  predicate Fits(w: Watcher, i: Input) {
    match w.phase
    case Opening(_) => i.Attempt?
    case Streaming(_, _) => i.Line? || i.Closed?
    case Exited(_) => false
  }

  function Step(args: Args, w: Watcher, i: Input): Watcher
    requires Fits(w, i)
  {
    match i
    case Attempt(_, _, _) => OnAttempt(args, w, i)
    case Line(_, _, _, _) => OnLine(args, w, i)
    case Closed(_, _) => OnClosed(args, w, i)
  }

  ghost predicate Runs(args: Args, w: Watcher, inputs: seq<Input>, w': Watcher)
    decreases |inputs|
  {
    if |inputs| == 0 then w == w' else Fits(w, inputs[0]) && Runs(args, Step(args, w, inputs[0]), inputs[1..], w')
  }

  lemma {:induction false} RunsOneMore(args: Args, w: Watcher, inputs: seq<Input>, mid: Watcher, i: Input)
    requires Runs(args, w, inputs, mid) && Fits(mid, i)
    ensures Runs(args, w, inputs + [i], Step(args, mid, i))
    decreases |inputs|
  {
    if |inputs| == 0 {
      assert (inputs + [i])[1..] == [];
    } else {
      RunsOneMore(args, Step(args, w, inputs[0]), inputs[1..], mid, i);
      assert (inputs + [i])[1..] == inputs[1..] + [i];
    }
  }
}
