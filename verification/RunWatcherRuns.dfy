/** What the watcher's whole history shows, over every stream of inputs. */
module RunWatcherRuns {
  import opened Values
  import opened RunWatcher

  /******* Reading a history *******/

  /** The deed an ending rests on: a terminal answer, or a terminal event, about this run of this project. */
  predicate Authorises(args: Args, d: Deed, e: Ending) {
    match d
    case ReadRun(Found(run)) =>
      && args.run != "" && Names(args, run)
      && (match e
          case EndCompleted => run.status == Completed
          case EndFailed => run.status == Failed && !run.cancelled
          case EndCancelled => run.status == Failed && run.cancelled)
    case Saw(ev) =>
      && ev.project == Str(args.project) && (args.run != "" ==> ev.run == Str(args.run))
      && (match e
          case EndCompleted => ev.kind == RunCompleted
          case EndFailed => ev.kind == RunFailed || ev.kind == PipelineFailed
          case EndCancelled => false)
    case _ => false
  }

  /** Every ending comes right after what authorises it. */
  predicate Founded(args: Args, trace: seq<Deed>) {
    trace == [] ||
    var n := |trace| - 1;
    Founded(args, trace[..n]) && (trace[n].Reported? ==> n > 0 && Authorises(args, trace[n - 1], trace[n].ending))
  }

  function Reads(trace: seq<Deed>): nat {
    if trace == [] then 0 else Reads(trace[..|trace| - 1]) + if trace[|trace| - 1].ReadRun? then 1 else 0
  }

  function Connections(trace: seq<Deed>): nat {
    if trace == [] then 0 else Connections(trace[..|trace| - 1]) + if trace[|trace| - 1].Opened? then 1 else 0
  }

  /** The identity of a printed checkpoint, when it has one. */
  function MarkOf(d: Deed): Option<(StepKey, int)> {
    if d.Checkpoint? && Identified(d.instance) && KeyOf(d.step).Some? then Some((KeyOf(d.step).value, d.instance.i)) else None
  }

  function Marks(trace: seq<Deed>): set<(StepKey, int)> {
    if trace == [] then {}
    else
      var m := MarkOf(trace[|trace| - 1]);
      Marks(trace[..|trace| - 1]) + if m.Some? then {m.value} else {}
  }

  predicate MarkedOnce(trace: seq<Deed>) {
    trace == [] ||
    var m := MarkOf(trace[|trace| - 1]);
    MarkedOnce(trace[..|trace| - 1]) && (m.Some? ==> m.value !in Marks(trace[..|trace| - 1]))
  }

  /** The deeds that end the watch, each with its code. */
  function CodeOf(args: Args, d: Deed): Option<nat> {
    match d
    case Reported(e) => Some(if e.EndCompleted? then 0 else 1)
    case Checkpoint(_, _) => if args.follow then None else Some(0)
    case Crashed => Some(1)
    case TimedOut(_) => Some(2)
    case RunNotFound => Some(3)
    case StreamUnreachable => Some(4)
    case StreamLost => Some(4)
    case _ => None
  }

  predicate Unfinished(args: Args, trace: seq<Deed>) {
    forall i :: 0 <= i < |trace| ==> CodeOf(args, trace[i]).None?
  }

  /** The last deed, and no other, decides whether and how the watch has ended. */
  predicate EndsWell(args: Args, w: Watcher) {
    if w.phase.Exited? then
      && w.trace != [] && CodeOf(args, w.trace[|w.trace| - 1]) == Some(w.phase.code)
      && Unfinished(args, w.trace[..|w.trace| - 1])
    else Unfinished(args, w.trace)
  }

  predicate Sane(args: Args, w: Watcher) {
    Founded(args, w.trace) && MarkedOnce(w.trace) && Marks(w.trace) == w.seen && EndsWell(args, w)
  }

  /** How a history grows by one deed. */
  lemma OneMore(args: Args, trace: seq<Deed>, d: Deed)
    ensures var t := trace + [d];
            && Reads(t) == Reads(trace) + (if d.ReadRun? then 1 else 0)
            && Connections(t) == Connections(trace) + (if d.Opened? then 1 else 0)
            && Marks(t) == Marks(trace) + (if MarkOf(d).Some? then {MarkOf(d).value} else {})
            && (MarkedOnce(t) <==> MarkedOnce(trace) && (MarkOf(d).Some? ==> MarkOf(d).value !in Marks(trace)))
            && (Founded(args, t) <==>
                Founded(args, trace) && (d.Reported? ==> trace != [] && Authorises(args, trace[|trace| - 1], d.ending)))
            && (Unfinished(args, t) <==> Unfinished(args, trace) && CodeOf(args, d).None?)
  {
    var t := trace + [d];
    assert t[..|t| - 1] == trace;
    assert forall i :: 0 <= i < |trace| ==> t[i] == trace[i];
    if Unfinished(args, t) {
      assert CodeOf(args, t[|trace|]).None?;
      assert forall i :: 0 <= i < |trace| ==> CodeOf(args, t[i]) == CodeOf(args, trace[i]);
    }
  }

  /** A plain deed: neither an ending nor a checkpoint. */
  predicate Plain(args: Args, d: Deed) {
    !d.Reported? && !d.Checkpoint? && CodeOf(args, d).None?
  }

  lemma DoKeeps(args: Args, w: Watcher, d: Deed)
    requires Sane(args, w) && !w.phase.Exited? && Plain(args, d)
    ensures Sane(args, Do(w, d)) && Do(w, d).trace[|w.trace|] == d
  {
    OneMore(args, w.trace, d);
  }

  lemma ExitKeeps(args: Args, w: Watcher, d: Deed, code: nat)
    requires Sane(args, w) && !w.phase.Exited? && MarkOf(d).None? && CodeOf(args, d) == Some(code)
    requires d.Reported? ==> w.trace != [] && Authorises(args, w.trace[|w.trace| - 1], d.ending)
    ensures Sane(args, Exit(w, d, code))
  {
    OneMore(args, w.trace, d);
    assert (w.trace + [d])[..|w.trace|] == w.trace;
  }

  lemma CheckpointKeeps(args: Args, w: Watcher, step: Value, instance: Value)
    requires Sane(args, w) && !w.phase.Exited?
    ensures Sane(args, OnCheckpoint(args, w, step, instance))
  {
    var d := Checkpoint(step, instance);
    OneMore(args, w.trace, d);
    assert (w.trace + [d])[..|w.trace|] == w.trace;
    if Identified(instance) && KeyOf(step).None? {
      ExitKeeps(args, w, Crashed, 1);
    }
  }

  lemma SettleKeeps(args: Args, w: Watcher, run: Run, pending: Option<Pending>)
    requires Sane(args, w) && !w.phase.Exited? && args.run != "" && Names(args, run)
    requires w.trace != [] && w.trace[|w.trace| - 1] == ReadRun(Found(run))
    ensures Sane(args, Settle(args, w, run, pending))
  {
    match TerminalVerdict(run, args.run, args.project)
    case Malformed => ExitKeeps(args, w, Crashed, 1);
    case Ended(e) => ExitKeeps(args, w, Reported(e), CodeOfEnding(e));
    case NotEnded =>
      if run.status == Paused {
        DoKeeps(args, w, ReadCheckpoint);
        if Bound(args, run, pending) {
          CheckpointKeeps(args, Do(w, ReadCheckpoint), pending.value.checkpoint, pending.value.instance);
        } else {
          DoKeeps(args, Do(w, ReadCheckpoint), StatusUnknown);
        }
      }
  }

  lemma ReconcileKeeps(args: Args, w: Watcher, snap: Snapshot)
    requires Sane(args, w) && !w.phase.Exited?
    ensures Sane(args, Reconcile(args, w, snap))
  {
    if args.run != "" {
      var r := Do(w, ReadRun(snap.run));
      DoKeeps(args, w, ReadRun(snap.run));
      match snap.run
      case NotFound => ExitKeeps(args, r, RunNotFound, 3);
      case Unreadable => DoKeeps(args, r.(lastRead := Unknown), StatusUnknown);
      case Found(run) => AnsweredKeeps(args, w, run, snap.pending);
    }
  }

  lemma AnsweredKeeps(args: Args, w: Watcher, run: Run, pending: Option<Pending>)
    requires Sane(args, w) && !w.phase.Exited? && args.run != ""
    ensures Sane(args, Reconcile(args, w, Snapshot(Found(run), pending)))
  {
    var r := Do(w, ReadRun(Found(run)));
    DoKeeps(args, w, ReadRun(Found(run)));
    if Names(args, run) {
      SettleKeeps(args, r.(lastRead := ReadAs(run.status)), run, pending);
    } else if !w.warned {
      DoKeeps(args, r.(lastRead := Ignored, warned := true), StatusIgnored);
    }
  }

  lemma TimeOutKeeps(args: Args, w: Watcher, snap: Snapshot)
    requires Sane(args, w) && !w.phase.Exited?
    ensures Sane(args, TimeOut(args, w, snap)) && TimeOut(args, w, snap).phase.Exited?
  {
    ReconcileKeeps(args, w, snap);
    var r := Reconcile(args, w, snap);
    if !r.phase.Exited? {
      ExitKeeps(args, r, TimedOut(r.lastRead), 2);
    }
  }

  lemma EventKeeps(args: Args, w: Watcher, ev: StreamEvent, extra: Snapshot)
    requires Sane(args, w) && w.phase.Streaming?
    ensures Sane(args, OnEvent(args, w, ev, extra))
  {
    if ev.project == Str(args.project) {
      var s := Do(w, Saw(ev));
      DoKeeps(args, w, Saw(ev));
      if ev.kind == UnhashableKind {
        ExitKeeps(args, s, Crashed, 1);
      } else if ev.kind == OtherKind {
      } else if args.run != "" && ev.run != Str(args.run) {
        ForeignKeeps(args, s, ev, extra);
      } else if ev.kind == CheckpointPaused {
        CheckpointKeeps(args, s, ev.step, ev.instance);
      } else if ev.kind == RunCompleted {
        ExitKeeps(args, s, Reported(EndCompleted), 0);
      } else {
        ExitKeeps(args, s, Reported(EndFailed), 1);
      }
    }
  }

  lemma ForeignKeeps(args: Args, w: Watcher, ev: StreamEvent, extra: Snapshot)
    requires Sane(args, w) && w.phase.Streaming?
    ensures Sane(args, OnForeign(args, w, ev, extra))
  {
    if !Truthy(ev.run) {
      DoKeeps(args, w, Unattributed);
      if !w.phase.checked {
        ReconcileKeeps(args, Do(w, Unattributed).(phase := w.phase.(checked := true)), extra);
      }
    }
  }

  lemma LineKeeps(args: Args, w: Watcher, line: Input)
    requires Sane(args, w) && w.phase.Streaming? && line.Line?
    ensures Sane(args, OnLine(args, w, line))
  {
    var w1 := w.(phase := w.phase.(subscribed := true));
    if !w.phase.subscribed {
      ReconcileKeeps(args, w1, line.connect);
      PhaseAfterReconcile(args, w1, line.connect);
    }
    var s := if w.phase.subscribed then w else Reconcile(args, w1, line.connect);
    if !s.phase.Exited? {
      if line.late {
        TimeOutKeeps(args, s, line.extra);
      } else if line.body.Decoded? {
        EventKeeps(args, s, line.body.ev, line.extra);
      }
    }
  }

  lemma GiveUpKeeps(args: Args, w: Watcher, extra: Snapshot)
    requires Sane(args, w) && w.phase.Opening?
    ensures Sane(args, GiveUp(args, w, extra))
  {
    if w.phase.first {
      ExitKeeps(args, w, StreamUnreachable, 4);
    } else {
      ReconcileKeeps(args, w, extra);
      var r := Reconcile(args, w, extra);
      if !r.phase.Exited? {
        ExitKeeps(args, r, StreamLost, 4);
      }
    }
  }

  lemma AttemptKeeps(args: Args, w: Watcher, attempt: Input)
    requires Sane(args, w) && w.phase.Opening? && attempt.Attempt?
    ensures Sane(args, OnAttempt(args, w, attempt))
  {
    if !attempt.inTime {
      GiveUpKeeps(args, w, attempt.extra);
    } else if attempt.ok {
      OpenedKeeps(args, w);
    } else {
      FailureKeeps(args, w);
      if AfterFailure(w).fails >= ATTEMPT_MAX {
        GiveUpKeeps(args, AfterFailure(w), attempt.extra);
      } else {
        SleepKeeps(args, AfterFailure(w));
      }
    }
  }

  lemma OpenedKeeps(args: Args, w: Watcher)
    requires Sane(args, w) && w.phase.Opening?
    ensures Sane(args, Do(if w.fails > 0 then Do(w, Reconnected) else w, Opened)
                         .(fails := 0, backoff := 1, phase := Streaming(false, false)))
  {
    DoKeeps(args, w, Reconnected);
    DoKeeps(args, if w.fails > 0 then Do(w, Reconnected) else w, Opened);
  }

  lemma SleepKeeps(args: Args, w: Watcher)
    requires Sane(args, w) && w.phase.Opening?
    ensures Sane(args, Do(w, Slept(if w.backoff < SLEEP_MAX then w.backoff else SLEEP_MAX)).(backoff := 2 * w.backoff))
  {
    DoKeeps(args, w, Slept(if w.backoff < SLEEP_MAX then w.backoff else SLEEP_MAX));
  }

  lemma FailureKeeps(args: Args, w: Watcher)
    requires Sane(args, w) && w.phase.Opening?
    ensures Sane(args, AfterFailure(w)) && AfterFailure(w).phase == w.phase
  {
    var f := w.(fails := w.fails + 1);
    assert Sane(args, f);
    if Announced(f.fails) {
      DoKeeps(args, f, ReconnectFailed(f.fails));
    }
  }

  lemma StepKeeps(args: Args, w: Watcher, i: Input)
    requires Sane(args, w) && Fits(w, i)
    ensures Sane(args, Step(args, w, i))
  {
    match i
    case Attempt(_, _, _) => AttemptKeeps(args, w, i);
    case Line(_, _, _, _) => LineKeeps(args, w, i);
    case Closed(late, extra) =>
      if late {
        TimeOutKeeps(args, w, extra);
      } else {
        DoKeeps(args, w, StreamClosed);
      }
  }

  lemma {:induction false} RunKeeps(args: Args, w: Watcher, inputs: seq<Input>, w': Watcher)
    requires Sane(args, w) && Runs(args, w, inputs, w')
    ensures Sane(args, w')
    decreases |inputs|
  {
    if |inputs| > 0 {
      StepKeeps(args, w, inputs[0]);
      RunKeeps(args, Step(args, w, inputs[0]), inputs[1..], w');
    }
  }

  lemma StartSane(args: Args)
    ensures Sane(args, START)
  {
  }

  /******* What holds of every watch *******/

  lemma {:induction false} FoundedAt(args: Args, trace: seq<Deed>, p: nat)
    requires Founded(args, trace) && p < |trace| && trace[p].Reported?
    ensures p > 0 && Authorises(args, trace[p - 1], trace[p].ending)
    decreases |trace|
  {
    if p < |trace| - 1 {
      FoundedAt(args, trace[..|trace| - 1], p);
    }
  }

  /** The watch is over exactly when its last deed is one that ends it, and the code is that deed's. */
  lemma ExitCodes(args: Args, inputs: seq<Input>, w: Watcher)
    requires Runs(args, START, inputs, w)
    ensures w.phase.Exited? <==> w.trace != [] && CodeOf(args, w.trace[|w.trace| - 1]).Some?
    ensures w.phase.Exited? ==> CodeOf(args, w.trace[|w.trace| - 1]) == Some(w.phase.code)
    ensures forall p :: 0 <= p < |w.trace| - 1 ==> CodeOf(args, w.trace[p]).None?
  {
    StartSane(args);
    RunKeeps(args, START, inputs, w);
    forall p | 0 <= p < |w.trace| - 1
      ensures CodeOf(args, w.trace[p]).None?
    {
      assert w.trace[..|w.trace| - 1][p] == w.trace[p];
    }
  }

  /**
   Whatever the stream, the status reads and the transport do: completed, failed or cancelled is
   reported at most once, as the last thing the watcher does, directly after a status answer or an
   event that is terminal and names this project and, when one was given, exactly this run.
   */
  lemma EndingsAreAuthorised(args: Args, inputs: seq<Input>, w: Watcher, p: nat)
    requires Runs(args, START, inputs, w) && p < |w.trace| && w.trace[p].Reported?
    ensures p > 0 && Authorises(args, w.trace[p - 1], w.trace[p].ending)
    ensures p == |w.trace| - 1 && w.phase == Exited(if w.trace[p].ending.EndCompleted? then 0 else 1)
  {
    StartSane(args);
    RunKeeps(args, START, inputs, w);
    FoundedAt(args, w.trace, p);
    ExitCodes(args, inputs, w);
    assert CodeOf(args, w.trace[p]).Some?;
  }

  lemma {:induction false} MarksHold(trace: seq<Deed>, p: nat)
    requires p < |trace| && MarkOf(trace[p]).Some?
    ensures MarkOf(trace[p]).value in Marks(trace)
    decreases |trace|
  {
    if p < |trace| - 1 {
      MarksHold(trace[..|trace| - 1], p);
    }
  }

  lemma {:induction false} MarkedOnceAt(trace: seq<Deed>, p: nat, q: nat)
    requires MarkedOnce(trace) && p < q < |trace| && MarkOf(trace[p]).Some? && MarkOf(trace[q]).Some?
    ensures MarkOf(trace[p]) != MarkOf(trace[q])
    decreases |trace|
  {
    if q < |trace| - 1 {
      MarkedOnceAt(trace[..|trace| - 1], p, q);
    } else {
      MarksHold(trace[..|trace| - 1], p);
    }
  }

  /** No checkpoint instance is printed twice, whether it was pushed, replayed or read. */
  lemma CheckpointsOnce(args: Args, inputs: seq<Input>, w: Watcher, p: nat, q: nat)
    requires Runs(args, START, inputs, w) && p < q < |w.trace|
    requires MarkOf(w.trace[p]).Some? && MarkOf(w.trace[q]).Some?
    ensures MarkOf(w.trace[p]) != MarkOf(w.trace[q])
  {
    StartSane(args);
    RunKeeps(args, START, inputs, w);
    MarkedOnceAt(w.trace, p, q);
  }

  /******* Bounded reads *******/

  /** The reads that the connections so far have paid for. */
  predicate Paid(w: Watcher) {
    var r, k := Reads(w.trace), Connections(w.trace);
    match w.phase
    case Opening(_) => r <= 2 * k
    case Streaming(subscribed, checked) => k > 0 && r <= 2 * (k - 1) + (if subscribed then 1 else 0) + if checked then 1 else 0
    case Exited(_) => r <= 2 * k + 1
  }

  /** A stretch of history: at most this many reads, and no new connection. */
  predicate Costs(w: Watcher, w': Watcher, n: nat) {
    Reads(w'.trace) <= Reads(w.trace) + n && Connections(w'.trace) == Connections(w.trace)
  }

  lemma DoCosts(args: Args, w: Watcher, d: Deed)
    requires !d.Opened?
    ensures Costs(w, Do(w, d), if d.ReadRun? then 1 else 0)
  {
    OneMore(args, w.trace, d);
  }

  lemma CheckpointCosts(args: Args, w: Watcher, step: Value, instance: Value)
    ensures Costs(w, OnCheckpoint(args, w, step, instance), 0)
  {
    DoCosts(args, w, Checkpoint(step, instance));
    DoCosts(args, w, Crashed);
  }

  lemma SettleCosts(args: Args, w: Watcher, run: Run, pending: Option<Pending>)
    ensures Costs(w, Settle(args, w, run, pending), 0)
  {
    var r := Do(w, ReadCheckpoint);
    DoCosts(args, w, ReadCheckpoint);
    DoCosts(args, r, StatusUnknown);
    DoCosts(args, w, Crashed);
    match TerminalVerdict(run, args.run, args.project)
    case Malformed =>
    case Ended(e) => DoCosts(args, w, Reported(e));
    case NotEnded =>
      if run.status == Paused && Bound(args, run, pending) {
        CheckpointCosts(args, r, pending.value.checkpoint, pending.value.instance);
      }
  }

  lemma ReconcileCosts(args: Args, w: Watcher, snap: Snapshot)
    ensures Costs(w, Reconcile(args, w, snap), if args.run == "" then 0 else 1)
  {
    if args.run != "" {
      var r := Do(w, ReadRun(snap.run));
      DoCosts(args, w, ReadRun(snap.run));
      DoCosts(args, r, RunNotFound);
      DoCosts(args, r, StatusUnknown);
      DoCosts(args, r, StatusIgnored);
      if snap.run.Found? {
        SettleCosts(args, r.(lastRead := ReadAs(snap.run.run.status)), snap.run.run, snap.pending);
      }
    }
  }

  lemma TimeOutCosts(args: Args, w: Watcher, snap: Snapshot)
    ensures Costs(w, TimeOut(args, w, snap), 1) && TimeOut(args, w, snap).phase.Exited?
  {
    ReconcileCosts(args, w, snap);
    DoCosts(args, Reconcile(args, w, snap), TimedOut(Reconcile(args, w, snap).lastRead));
  }

  lemma PhaseAfterReconcile(args: Args, w: Watcher, snap: Snapshot)
    ensures Reconcile(args, w, snap).phase == w.phase || Reconcile(args, w, snap).phase.Exited?
  {
  }

  lemma CheckpointPhase(args: Args, w: Watcher, step: Value, instance: Value)
    ensures OnCheckpoint(args, w, step, instance).phase == w.phase || OnCheckpoint(args, w, step, instance).phase.Exited?
  {
  }

  lemma ForeignPaid(args: Args, w: Watcher, ev: StreamEvent, extra: Snapshot)
    requires Paid(w) && w.phase.Streaming?
    ensures Paid(OnForeign(args, w, ev, extra))
  {
    DoCosts(args, w, Unattributed);
    var u := Do(w, Unattributed).(phase := w.phase.(checked := true));
    ReconcileCosts(args, u, extra);
    PhaseAfterReconcile(args, u, extra);
  }

  lemma EventPaid(args: Args, w: Watcher, ev: StreamEvent, extra: Snapshot)
    requires Paid(w) && w.phase.Streaming?
    ensures Paid(OnEvent(args, w, ev, extra))
  {
    if ev.project == Str(args.project) {
      var s := Do(w, Saw(ev));
      DoCosts(args, w, Saw(ev));
      if ev.kind == UnhashableKind {
        DoCosts(args, s, Crashed);
      } else if ev.kind == OtherKind {
      } else if args.run != "" && ev.run != Str(args.run) {
        ForeignPaid(args, s, ev, extra);
      } else if ev.kind == CheckpointPaused {
        CheckpointCosts(args, s, ev.step, ev.instance);
        CheckpointPhase(args, s, ev.step, ev.instance);
      } else {
        DoCosts(args, s, Reported(EndCompleted));
        DoCosts(args, s, Reported(EndFailed));
      }
    }
  }

  lemma LinePaid(args: Args, w: Watcher, line: Input)
    requires Paid(w) && w.phase.Streaming? && line.Line?
    ensures Paid(OnLine(args, w, line))
  {
    var w1 := w.(phase := w.phase.(subscribed := true));
    ReconcileCosts(args, w1, line.connect);
    PhaseAfterReconcile(args, w1, line.connect);
    var s := if w.phase.subscribed then w else Reconcile(args, w1, line.connect);
    assert Paid(s);
    if !s.phase.Exited? {
      TimeOutCosts(args, s, line.extra);
      if line.body.Decoded? {
        EventPaid(args, s, line.body.ev, line.extra);
      }
    }
  }

  lemma GiveUpPaid(args: Args, w: Watcher, extra: Snapshot)
    requires Paid(w) && w.phase.Opening?
    ensures Paid(GiveUp(args, w, extra))
  {
    DoCosts(args, w, StreamUnreachable);
    ReconcileCosts(args, w, extra);
    DoCosts(args, Reconcile(args, w, extra), StreamLost);
  }

  lemma AttemptPaid(args: Args, w: Watcher, attempt: Input)
    requires Paid(w) && w.phase.Opening? && attempt.Attempt?
    ensures Paid(OnAttempt(args, w, attempt))
  {
    if !attempt.inTime {
      GiveUpPaid(args, w, attempt.extra);
    } else if attempt.ok {
      DoCosts(args, w, Reconnected);
      OneMore(args, (if w.fails > 0 then Do(w, Reconnected) else w).trace, Opened);
    } else {
      var f := AfterFailure(w);
      FailurePaid(args, w);
      if f.fails >= ATTEMPT_MAX {
        GiveUpPaid(args, f, attempt.extra);
      } else {
        DoCosts(args, f, Slept(if f.backoff < SLEEP_MAX then f.backoff else SLEEP_MAX));
      }
    }
  }

  lemma FailurePaid(args: Args, w: Watcher)
    requires Paid(w) && w.phase.Opening?
    ensures Paid(AfterFailure(w)) && AfterFailure(w).phase == w.phase
  {
    DoCosts(args, w, ReconnectFailed(w.fails + 1));
  }

  lemma StepPaid(args: Args, w: Watcher, i: Input)
    requires Paid(w) && Fits(w, i)
    ensures Paid(Step(args, w, i))
  {
    match i
    case Attempt(_, _, _) => AttemptPaid(args, w, i);
    case Line(_, _, _, _) => LinePaid(args, w, i);
    case Closed(_, extra) =>
      TimeOutCosts(args, w, extra);
      DoCosts(args, w, StreamClosed);
  }

  lemma {:induction false} RunPaid(args: Args, w: Watcher, inputs: seq<Input>, w': Watcher)
    requires Paid(w) && Runs(args, w, inputs, w')
    ensures Paid(w')
    decreases |inputs|
  {
    if |inputs| > 0 {
      StepPaid(args, w, inputs[0]);
      RunPaid(args, Step(args, w, inputs[0]), inputs[1..], w');
    }
  }

  /** However chatty the stream: at most two status reads per live connection, and one more to give up. */
  lemma ReadsAreBounded(args: Args, inputs: seq<Input>, w: Watcher)
    requires Runs(args, START, inputs, w)
    ensures Reads(w.trace) <= 2 * Connections(w.trace) + 1
    ensures !w.phase.Exited? ==> Reads(w.trace) <= 2 * Connections(w.trace)
  {
    RunPaid(args, START, inputs, w);
  }

  /******* Exit code 2 *******/

  /** What the last read before giving up established. */
  function Established(args: Args, answer: RunAnswer): LastRead {
    match answer
    case Found(run) => if Names(args, run) then ReadAs(run.status) else Ignored
    case _ => Unknown
  }

  lemma ReconcileEstablishes(args: Args, w: Watcher, snap: Snapshot)
    requires args.run != "" && !w.phase.Exited? && !Reconcile(args, w, snap).phase.Exited?
    ensures Reconcile(args, w, snap).lastRead == Established(args, snap.run) && !snap.run.NotFound?
    ensures Established(args, snap.run).ReadAs? ==> Established(args, snap.run).status in {Paused, OtherStatus}
  {
  }

  lemma NotYetEnded(args: Args, w: Watcher)
    requires Sane(args, w) && !w.phase.Exited?
    ensures w.trace != [] ==> CodeOf(args, w.trace[|w.trace| - 1]).None?
  {
  }

  predicate EndsIn(w: Watcher, d: Deed) {
    w.trace != [] && w.trace[|w.trace| - 1] == d
  }

  predicate EndsInTimeout(w: Watcher) {
    w.trace != [] && w.trace[|w.trace| - 1].TimedOut?
  }

  /** Nothing but giving up prints a timeout. */
  lemma SettleTimesNothingOut(args: Args, w: Watcher, run: Run, pending: Option<Pending>)
    requires !EndsInTimeout(w)
    ensures !EndsInTimeout(Settle(args, w, run, pending))
  {
  }

  lemma OnlyTimeOutTimesOut(args: Args, w: Watcher, snap: Snapshot)
    requires !EndsInTimeout(w)
    ensures !EndsInTimeout(Reconcile(args, w, snap))
  {
    if snap.run.Found? {
      var r := Do(w, ReadRun(snap.run)).(lastRead := ReadAs(snap.run.run.status));
      SettleTimesNothingOut(args, r, snap.run.run, snap.pending);
    }
  }

  lemma EventTimesNothingOut(args: Args, w: Watcher, ev: StreamEvent, extra: Snapshot)
    requires !EndsInTimeout(w)
    ensures !EndsInTimeout(OnEvent(args, w, ev, extra))
  {
    if w.phase.Streaming? {
      OnlyTimeOutTimesOut(args, Do(Do(w, Saw(ev)), Unattributed).(phase := w.phase.(checked := true)), extra);
    }
  }

  lemma LineTimesOut(args: Args, w: Watcher, line: Input)
    requires args.run != "" && w.phase.Streaming? && line.Line? && !EndsInTimeout(w) && EndsInTimeout(OnLine(args, w, line))
    ensures EndsIn(OnLine(args, w, line), TimedOut(Established(args, line.extra.run)))
    ensures Established(args, line.extra.run).ReadAs? ==> Established(args, line.extra.run).status in {Paused, OtherStatus}
  {
    var w1 := w.(phase := w.phase.(subscribed := true));
    OnlyTimeOutTimesOut(args, w1, line.connect);
    var s := if w.phase.subscribed then w else Reconcile(args, w1, line.connect);
    OnlyTimeOutTimesOut(args, s, line.extra);
    if !s.phase.Exited? {
      if line.late {
        ReconcileEstablishes(args, s, line.extra);
      } else if line.body.Decoded? {
        EventTimesNothingOut(args, s, line.body.ev, line.extra);
      }
    }
  }

  lemma AttemptTimesNothingOut(args: Args, w: Watcher, attempt: Input)
    requires w.phase.Opening? && attempt.Attempt? && !EndsInTimeout(w)
    ensures !EndsInTimeout(OnAttempt(args, w, attempt))
  {
    OnlyTimeOutTimesOut(args, w, attempt.extra);
    OnlyTimeOutTimesOut(args, AfterFailure(w), attempt.extra);
  }

  lemma ClosedTimesOut(args: Args, w: Watcher, closed: Input)
    requires args.run != "" && w.phase.Streaming? && closed.Closed? && !EndsInTimeout(w)
    requires EndsInTimeout(OnClosed(args, w, closed))
    ensures EndsIn(OnClosed(args, w, closed), TimedOut(Established(args, closed.extra.run)))
    ensures Established(args, closed.extra.run).ReadAs? ==> Established(args, closed.extra.run).status in {Paused, OtherStatus}
  {
    OnlyTimeOutTimesOut(args, w, closed.extra);
    ReconcileEstablishes(args, w, closed.extra);
  }

  lemma StepTimesOut(args: Args, w: Watcher, i: Input)
    requires args.run != "" && Fits(w, i) && !EndsInTimeout(w) && EndsInTimeout(Step(args, w, i))
    ensures EndsIn(Step(args, w, i), TimedOut(Established(args, i.extra.run)))
    ensures Established(args, i.extra.run).ReadAs? ==> Established(args, i.extra.run).status in {Paused, OtherStatus}
  {
    match i
    case Attempt(_, _, _) => AttemptTimesNothingOut(args, w, i);
    case Line(_, _, _, _) => LineTimesOut(args, w, i);
    case Closed(_, _) => ClosedTimesOut(args, w, i);
  }

  lemma NotTimedOutYet(args: Args, inputs: seq<Input>, w: Watcher)
    requires Runs(args, START, inputs, w) && !w.phase.Exited?
    ensures !EndsInTimeout(w)
  {
    ExitCodes(args, inputs, w);
  }

  /**
   A timeout under an exact run says what the read made at that moment established, and when it
   quotes a status, that status is one of a run that has not ended.
   */
  lemma TimeoutTellsTheTruth(args: Args, inputs: seq<Input>, w: Watcher, i: Input)
    requires args.run != "" && Runs(args, START, inputs, w) && Fits(w, i) && EndsInTimeout(Step(args, w, i))
    ensures EndsIn(Step(args, w, i), TimedOut(Established(args, i.extra.run)))
    ensures Established(args, i.extra.run).ReadAs? ==> Established(args, i.extra.run).status in {Paused, OtherStatus}
  {
    NotTimedOutYet(args, inputs, w);
    StepTimesOut(args, w, i);
  }

  /******* Exit code 1 *******/

  /** A status answer about this run that the verdict cannot be read from. */
  predicate AnswerCrashes(args: Args, snap: Snapshot) {
    && args.run != "" && snap.run.Found? && Names(args, snap.run.run)
    && TerminalVerdict(snap.run.run, args.run, args.project).Malformed?
  }

  /** An event of this project whose type, or whose checkpoint step, is a list or an object. */
  predicate EventCrashes(args: Args, checked: bool, ev: StreamEvent, extra: Snapshot) {
    && ev.project == Str(args.project)
    && if args.run != "" && ev.run != Str(args.run) && ev.kind != OtherKind && ev.kind != UnhashableKind
       then !Truthy(ev.run) && !checked && AnswerCrashes(args, extra)
       else ev.kind == UnhashableKind || (ev.kind == CheckpointPaused && Identified(ev.instance) && KeyOf(ev.step).None?)
  }

  predicate EndsInCrash(w: Watcher) {
    w.trace != [] && w.trace[|w.trace| - 1] == Crashed
  }

  lemma ReconcileCrashesIff(args: Args, w: Watcher, snap: Snapshot)
    requires !EndsInCrash(w)
    ensures EndsInCrash(Reconcile(args, w, snap)) <==> AnswerCrashes(args, snap)
  {
    if args.run != "" && snap.run.Found? && Names(args, snap.run.run) {
      var r := Do(w, ReadRun(snap.run)).(lastRead := ReadAs(snap.run.run.status));
      SettleCrashesIff(args, r, snap.run.run, snap.pending);
    }
  }

  lemma SettleCrashesIff(args: Args, w: Watcher, run: Run, pending: Option<Pending>)
    requires !EndsInCrash(w)
    ensures EndsInCrash(Settle(args, w, run, pending)) <==> TerminalVerdict(run, args.run, args.project).Malformed?
  {
    if TerminalVerdict(run, args.run, args.project).NotEnded? && run.status == Paused && Bound(args, run, pending) {
      TextStepsDoNotCrash(args, Do(w, ReadCheckpoint), pending.value.checkpoint, pending.value.instance);
    }
  }

  lemma TextStepsDoNotCrash(args: Args, w: Watcher, step: Value, instance: Value)
    requires !EndsInCrash(w) && step.Str?
    ensures !EndsInCrash(OnCheckpoint(args, w, step, instance))
  {
  }

  lemma EventCrashesIff(args: Args, w: Watcher, ev: StreamEvent, extra: Snapshot)
    requires !EndsInCrash(w) && w.phase.Streaming?
    ensures EndsInCrash(OnEvent(args, w, ev, extra)) <==> EventCrashes(args, w.phase.checked, ev, extra)
  {
    var u := Do(Do(w, Saw(ev)), Unattributed).(phase := w.phase.(checked := true));
    ReconcileCrashesIff(args, u, extra);
  }

  /** An input on which the watcher breaks: seen from the input and the phase alone, up to what the first read decides. */
  predicate InputCrashes(args: Args, w: Watcher, i: Input)
    requires Fits(w, i)
  {
    match i
    case Attempt(inTime, ok, extra) =>
      !w.phase.first && (!inTime || (!ok && w.fails + 1 >= ATTEMPT_MAX)) && AnswerCrashes(args, extra)
    case Closed(late, extra) => late && AnswerCrashes(args, extra)
    case Line(connect, late, body, extra) =>
      || (!w.phase.subscribed && AnswerCrashes(args, connect))
      || ((w.phase.subscribed || !AnswerEnds(args, w, connect))
          && if late then AnswerCrashes(args, extra)
             else body.Decoded? && EventCrashes(args, w.phase.checked, body.ev, extra))
  }

  /** The read at connect already ends the watch. */
  predicate AnswerEnds(args: Args, w: Watcher, snap: Snapshot) {
    && args.run != ""
    && match snap.run
       case NotFound => true
       case Unreadable => false
       case Found(run) =>
         && Names(args, run)
         && (|| !TerminalVerdict(run, args.run, args.project).NotEnded?
             || (run.status == Paused && Bound(args, run, snap.pending) && !args.follow
                 && (TextStep(snap.pending.value.checkpoint.s), snap.pending.value.instance.i) !in w.seen))
  }

  lemma ReconcileEndsIff(args: Args, w: Watcher, snap: Snapshot)
    requires !w.phase.Exited?
    ensures Reconcile(args, w, snap).phase.Exited? <==> AnswerEnds(args, w, snap)
  {
  }

  lemma TimeOutCrashesIff(args: Args, w: Watcher, snap: Snapshot)
    requires !EndsInCrash(w)
    ensures EndsInCrash(TimeOut(args, w, snap)) <==> AnswerCrashes(args, snap)
  {
    ReconcileCrashesIff(args, w, snap);
  }

  lemma LineCrashesIff(args: Args, w: Watcher, line: Input)
    requires !EndsInCrash(w) && w.phase.Streaming? && line.Line?
    ensures EndsInCrash(OnLine(args, w, line)) <==> InputCrashes(args, w, line)
  {
    var w1 := w.(phase := w.phase.(subscribed := true));
    ReconcileCrashesIff(args, w1, line.connect);
    ReconcileEndsIff(args, w1, line.connect);
    PhaseAfterReconcile(args, w1, line.connect);
    assert AnswerEnds(args, w1, line.connect) <==> AnswerEnds(args, w, line.connect);
    var s := if w.phase.subscribed then w else Reconcile(args, w1, line.connect);
    if !s.phase.Exited? {
      assert AnswerCrashes(args, line.connect) ==> AnswerEnds(args, w, line.connect);
      if line.late {
        TimeOutCrashesIff(args, s, line.extra);
      } else if line.body.Decoded? {
        EventCrashesIff(args, s, line.body.ev, line.extra);
      }
    } else {
      assert AnswerEnds(args, w, line.connect);
    }
  }

  lemma AttemptCrashesIff(args: Args, w: Watcher, attempt: Input)
    requires !EndsInCrash(w) && w.phase.Opening? && attempt.Attempt?
    ensures EndsInCrash(OnAttempt(args, w, attempt)) <==> InputCrashes(args, w, attempt)
  {
    if !attempt.inTime {
      GiveUpCrashesIff(args, w, attempt.extra);
    } else if !attempt.ok {
      GiveUpCrashesIff(args, AfterFailure(w), attempt.extra);
    }
  }

  lemma GiveUpCrashesIff(args: Args, w: Watcher, extra: Snapshot)
    requires !EndsInCrash(w) && w.phase.Opening?
    ensures EndsInCrash(GiveUp(args, w, extra)) <==> !w.phase.first && AnswerCrashes(args, extra)
  {
    ReconcileCrashesIff(args, w, extra);
  }

  /** Each step breaks the watcher exactly on the inputs named above, so on all others exit code 1 is a failed run. */
  lemma CrashesIff(args: Args, w: Watcher, i: Input)
    requires Sane(args, w) && Fits(w, i)
    ensures EndsInCrash(Step(args, w, i)) <==> InputCrashes(args, w, i)
  {
    NotYetEnded(args, w);
    match i
    case Attempt(_, _, _) => AttemptCrashesIff(args, w, i);
    case Line(_, _, _, _) => LineCrashesIff(args, w, i);
    case Closed(_, extra) => TimeOutCrashesIff(args, w, extra);
  }

  /** Exit code 1 means the run failed or was cancelled, unless the watcher itself broke on a malformed answer. */
  lemma ExitOneIff(args: Args, inputs: seq<Input>, w: Watcher)
    requires Runs(args, START, inputs, w)
    ensures w.phase == Exited(1) <==>
            w.trace != [] && (EndsInCrash(w) || w.trace[|w.trace| - 1] == Reported(EndFailed)
                              || w.trace[|w.trace| - 1] == Reported(EndCancelled))
  {
    ExitCodes(args, inputs, w);
  }

  /** One event whose type is a list is enough to exit with the code that means the run failed. */
  lemma MalformedEventLooksLikeFailure(args: Args, snap: Snapshot) returns (inputs: seq<Input>, w: Watcher)
    requires args.run == ""
    ensures Runs(args, START, inputs, w) && w.phase == Exited(1) && EndsInCrash(w)
    ensures forall p :: 0 <= p < |w.trace| ==> !w.trace[p].Reported?
  {
    var open := Attempt(true, true, snap);
    var line := Line(snap, false, Decoded(StreamEvent(Str(args.project), Null, UnhashableKind, Null, Null)), snap);
    var w1 := Step(args, START, open);
    assert w1.trace == [Opened];
    w := Step(args, w1, line);
    inputs := [open, line];
    assert inputs[1..] == [line] && [line][1..] == [];
    assert Runs(args, w, [], w);
    assert Runs(args, w1, [line], w);
  }
}
