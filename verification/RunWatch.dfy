/**
 The watch as it runs: the command's own variables, its nested helpers and its loops over
 connections, lines and attempts. `None` as an exit means that the command is still running.
 */
module RunWatch {
  import opened Values
  import opened RunWatcher
  import opened RunWatcherRuns

  function PhaseAt(exit: Option<nat>, running: Phase): Phase {
    if exit.Some? then Exited(exit.value) else running
  }

  class Watch {
    const args: Args
    var mismatchWarned: bool
    var seenCheckpoints: set<(StepKey, int)>
    var lastRead: LastRead
    var fails: nat
    var backoff: nat
    var trace: seq<Deed>

    constructor (args: Args)
      ensures this.args == args && View(Opening(true)) == START
    {
      this.args := args;
      mismatchWarned, seenCheckpoints, lastRead := false, {}, Never;
      fails, backoff, trace := 0, 1, [];
    }

    ghost function View(phase: Phase): Watcher
      reads this
    {
      Watcher(phase, fails, backoff, mismatchWarned, seenCheckpoints, lastRead, trace)
    }

    method Note(d: Deed)
      modifies this`trace
      ensures trace == old(trace) + [d]
    {
      trace := trace + [d];
    }

    /** Print a checkpoint unless this instance was printed before. */
    method Checkpoint(step: Value, instance: Value, ghost at: Phase) returns (exit: Option<nat>)
      modifies this`seenCheckpoints, this`trace
      ensures View(PhaseAt(exit, at)) == OnCheckpoint(args, old(View(at)), step, instance)
    {
      if instance.Int? && instance.i > 0 {
        if KeyOf(step).None? {
          Note(Crashed);
          return Some(1);
        }
        var key := (KeyOf(step).value, instance.i);
        if key in seenCheckpoints {
          return None;
        }
        seenCheckpoints := seenCheckpoints + {key};
      }
      Note(RunWatcher.Checkpoint(step, instance));
      exit := if args.follow then None else Some(0);
    }

    /** Decide on a snapshot that names this run. */
    method Settle(run: Run, pending: Option<Pending>, ghost at: Phase) returns (exit: Option<nat>)
      modifies this`seenCheckpoints, this`trace
      ensures View(PhaseAt(exit, at)) == RunWatcher.Settle(args, old(View(at)), run, pending)
    {
      var verdict := TerminalVerdict(run, args.run, args.project);
      match verdict
      case Malformed =>
        Note(Crashed);
        exit := Some(1);
      case Ended(ending) =>
        Note(Reported(ending));
        exit := Some(CodeOfEnding(ending));
      case NotEnded =>
        exit := None;
        if run.status == Paused {
          Note(ReadCheckpoint);
          if Bound(args, run, pending) {
            exit := Checkpoint(pending.value.checkpoint, pending.value.instance, at);
          } else {
            Note(StatusUnknown);
          }
        }
    }

    /** One bounded status read, and only for an exact run. */
    method Reconcile(snap: Snapshot, ghost at: Phase) returns (exit: Option<nat>)
      modifies this`seenCheckpoints, this`trace, this`lastRead, this`mismatchWarned
      ensures View(PhaseAt(exit, at)) == RunWatcher.Reconcile(args, old(View(at)), snap)
    {
      exit := None;
      if args.run == "" {
        return;
      }
      Note(ReadRun(snap.run));
      match snap.run
      case NotFound =>
        Note(RunNotFound);
        exit := Some(3);
      case Unreadable =>
        lastRead := Unknown;
        Note(StatusUnknown);
      case Found(run) =>
        if run.id != Str(args.run) || run.project != Str(args.project) {
          lastRead := Ignored;
          if !mismatchWarned {
            mismatchWarned := true;
            Note(StatusIgnored);
          }
        } else {
          lastRead := ReadAs(run.status);
          exit := Settle(run, snap.pending, at);
        }
    }

    /** Give up at the deadline, after one last read. */
    method TimeOut(snap: Snapshot, ghost at: Phase) returns (code: nat)
      requires !at.Exited?
      modifies this`seenCheckpoints, this`trace, this`lastRead, this`mismatchWarned
      ensures View(Exited(code)) == RunWatcher.TimeOut(args, old(View(at)), snap)
    {
      var exit := Reconcile(snap, at);
      if exit.Some? {
        return exit.value;
      }
      Note(TimedOut(lastRead));
      code := 2;
    }

    method GiveUp(first: bool, extra: Snapshot) returns (code: nat)
      modifies this`seenCheckpoints, this`trace, this`lastRead, this`mismatchWarned
      ensures View(Exited(code)) == RunWatcher.GiveUp(args, old(View(Opening(first))), extra)
    {
      if first {
        Note(StreamUnreachable);
        return 4;
      }
      var exit := Reconcile(extra, Opening(first));
      if exit.Some? {
        return exit.value;
      }
      Note(StreamLost);
      code := 4;
    }

    method Attempt(first: bool, attempt: Input) returns (exit: Option<nat>, live: bool)
      requires attempt.Attempt?
      modifies this
      ensures View(PhaseAt(exit, if live then Streaming(false, false) else Opening(first))) ==
              OnAttempt(args, old(View(Opening(first))), attempt)
    {
      exit, live := None, false;
      if !attempt.inTime {
        var code := GiveUp(first, attempt.extra);
        return Some(code), false;
      }
      if attempt.ok {
        if fails > 0 {
          Note(Reconnected);
        }
        Note(Opened);
        backoff, fails := 1, 0;
        return None, true;
      }
      CountFailure(Opening(first));
      if fails >= ATTEMPT_MAX {
        var code := GiveUp(first, attempt.extra);
        return Some(code), false;
      }
      Sleep();
    }

    method CountFailure(ghost at: Phase)
      modifies this`fails, this`trace
      ensures View(at) == AfterFailure(old(View(at)))
    {
      fails := fails + 1;
      if Announced(fails) {
        Note(ReconnectFailed(fails));
      }
    }

    method Sleep()
      modifies this`backoff, this`trace
      ensures trace == old(trace) + [Slept(if old(backoff) < SLEEP_MAX then old(backoff) else SLEEP_MAX)]
      ensures backoff == 2 * old(backoff)
    {
      Note(Slept(if backoff < SLEEP_MAX then backoff else SLEEP_MAX));
      backoff := 2 * backoff;
    }

    method Event(ev: StreamEvent, extra: Snapshot, wasChecked: bool) returns (exit: Option<nat>, checked: bool)
      modifies this`seenCheckpoints, this`trace, this`lastRead, this`mismatchWarned
      ensures View(PhaseAt(exit, Streaming(true, checked))) == OnEvent(args, old(View(Streaming(true, wasChecked))), ev, extra)
    {
      exit, checked := None, wasChecked;
      if ev.project != Str(args.project) {
        return;
      }
      Note(Saw(ev));
      if ev.kind == UnhashableKind {
        Note(Crashed);
        exit := Some(1);
      } else if ev.kind == OtherKind {
      } else if args.run != "" && ev.run != Str(args.run) {
        exit, checked := Foreign(ev, extra, checked);
      } else if ev.kind == CheckpointPaused {
        exit := Checkpoint(ev.step, ev.instance, Streaming(true, checked));
      } else if ev.kind == RunCompleted {
        Note(Reported(EndCompleted));
        exit := Some(0);
      } else {
        Note(Reported(EndFailed));
        exit := Some(1);
      }
    }

    /** Nobody's event is a reason to look, once per connection. */
    method Foreign(ev: StreamEvent, extra: Snapshot, wasChecked: bool) returns (exit: Option<nat>, checked: bool)
      modifies this`seenCheckpoints, this`trace, this`lastRead, this`mismatchWarned
      ensures View(PhaseAt(exit, Streaming(true, checked))) == OnForeign(args, old(View(Streaming(true, wasChecked))), ev, extra)
    {
      exit, checked := None, wasChecked;
      if !Truthy(ev.run) {
        Note(Unattributed);
        if !checked {
          checked := true;
          exit := Reconcile(extra, Streaming(true, true));
        }
      }
    }

    method Line(line: Input, subscribed: bool, wasChecked: bool) returns (exit: Option<nat>, checked: bool)
      requires line.Line?
      modifies this`seenCheckpoints, this`trace, this`lastRead, this`mismatchWarned
      ensures View(PhaseAt(exit, Streaming(true, checked))) == OnLine(args, old(View(Streaming(subscribed, wasChecked))), line)
    {
      exit, checked := None, wasChecked;
      if !subscribed {
        exit := Reconcile(line.connect, Streaming(true, checked));
        if exit.Some? {
          return;
        }
      }
      if line.late {
        var code := TimeOut(line.extra, Streaming(true, checked));
        exit := Some(code);
      } else if line.body.Decoded? {
        exit, checked := Event(line.body.ev, line.extra, checked);
      }
    }

    /** Open the stream: attempts until one succeeds or there is nothing left to try. */
    method Reopen(first: bool, inputs: seq<Input>, from: nat) returns (exit: Option<nat>, live: bool, used: nat)
      requires from <= |inputs| && Runs(args, START, inputs[..from], View(Opening(first)))
      modifies this
      ensures from <= used <= |inputs|
      ensures Runs(args, START, inputs[..used], View(PhaseAt(exit, if live then Streaming(false, false) else Opening(first))))
      ensures exit.Some? || live || used == |inputs| || !inputs[used].Attempt?
      ensures live ==> used > from
    {
      exit, live, used := None, false, from;
      while used < |inputs| && inputs[used].Attempt?
        invariant exit.None? && !live && from <= used <= |inputs|
        invariant Runs(args, START, inputs[..used], View(Opening(first)))
        decreases |inputs| - used
      {
        ghost var w := View(Opening(first));
        exit, live := Attempt(first, inputs[used]);
        OneMoreInput(args, inputs, used, w);
        used := used + 1;
        if exit.Some? || live {
          return;
        }
      }
    }

    /** One thing the open stream does: a line, or its end. */
    method StreamInput(i: Input, subscribed0: bool, checked0: bool)
      returns (exit: Option<nat>, closed: bool, subscribed: bool, checked: bool)
      requires !i.Attempt?
      modifies this
      ensures View(PhaseAt(exit, if closed then Opening(false) else Streaming(subscribed, checked))) ==
              Step(args, old(View(Streaming(subscribed0, checked0))), i)
    {
      exit, closed, subscribed, checked := None, false, subscribed0, checked0;
      if i.Line? {
        exit, checked := Line(i, subscribed, checked);
        subscribed := true;
      } else if i.late {
        var code := TimeOut(i.extra, Streaming(subscribed, checked));
        exit := Some(code);
      } else {
        Note(StreamClosed);
        closed := true;
      }
    }

    /** Read one connection to its end. */
    method ReadStream(inputs: seq<Input>, from: nat) returns (exit: Option<nat>, closed: bool, used: nat, ghost at: Phase)
      requires from <= |inputs| && Runs(args, START, inputs[..from], View(Streaming(false, false)))
      modifies this
      ensures from <= used <= |inputs| && Runs(args, START, inputs[..used], View(PhaseAt(exit, at)))
      ensures if closed then at == Opening(false) else at.Streaming?
      ensures exit.Some? || closed || used == |inputs| || inputs[used].Attempt?
    {
      exit, closed, used, at := None, false, from, Streaming(false, false);
      var subscribed, checked := false, false;
      while used < |inputs| && !inputs[used].Attempt?
        invariant exit.None? && !closed && from <= used <= |inputs|
        invariant at == Streaming(subscribed, checked) && Runs(args, START, inputs[..used], View(at))
        decreases |inputs| - used
      {
        OneMoreInput(args, inputs, used, View(at));
        exit, closed, subscribed, checked := StreamInput(inputs[used], subscribed, checked);
        at := if closed then Opening(false) else Streaming(subscribed, checked);
        used := used + 1;
        if exit.Some? || closed {
          return;
        }
      }
    }

    /**
     The whole command. Whatever the transport does: the status reads are bounded by the live
     connections, an ending is reported last and right after what authorises it, and the exit
     code is that of the last thing done.
     */
    method Await(inputs: seq<Input>) returns (exit: Option<nat>, used: nat, ghost at: Phase)
      requires View(Opening(true)) == START
      modifies this
      ensures used <= |inputs| && Runs(args, START, inputs[..used], View(PhaseAt(exit, at)))
      ensures exit.Some? || used == |inputs| || !Fits(View(at), inputs[used])
      ensures Reads(trace) <= 2 * Connections(trace) + 1
      ensures forall p :: 0 <= p < |trace| && trace[p].Reported? ==>
                p == |trace| - 1 && p > 0 && Authorises(args, trace[p - 1], trace[p].ending)
      ensures exit.Some? ==> trace != [] && CodeOf(args, trace[|trace| - 1]) == exit
    {
      exit, used := None, 0;
      var first, live := true, false;
      at := Opening(first);
      while used < |inputs|
        invariant exit.None? && used <= |inputs| && at == Opening(first)
        invariant Runs(args, START, inputs[..used], View(at))
        decreases |inputs| - used
      {
        exit, live, used := Reopen(first, inputs, used);
        at := if live then Streaming(false, false) else Opening(first);
        if exit.Some? || !live {
          break;
        }
        var closed;
        exit, closed, used, at := ReadStream(inputs, used);
        if exit.Some? || !closed {
          break;
        }
        first := false;
      }
      ReadsAreBounded(args, inputs[..used], View(PhaseAt(exit, at)));
      HistoryIsSound(args, inputs[..used], View(PhaseAt(exit, at)));
    }
  }

  /** The next input, performed. */
  lemma OneMoreInput(args: Args, inputs: seq<Input>, used: nat, w: Watcher)
    requires used < |inputs| && Runs(args, START, inputs[..used], w) && Fits(w, inputs[used])
    ensures Runs(args, START, inputs[..used + 1], Step(args, w, inputs[used]))
  {
    RunsOneMore(args, START, inputs[..used], w, inputs[used]);
    assert inputs[..used] + [inputs[used]] == inputs[..used + 1];
  }

  lemma HistoryIsSound(args: Args, inputs: seq<Input>, w: Watcher)
    requires Runs(args, START, inputs, w)
    ensures forall p :: 0 <= p < |w.trace| && w.trace[p].Reported? ==>
              p == |w.trace| - 1 && p > 0 && Authorises(args, w.trace[p - 1], w.trace[p].ending)
    ensures w.phase.Exited? ==> w.trace != [] && CodeOf(args, w.trace[|w.trace| - 1]) == Some(w.phase.code)
  {
    ExitCodes(args, inputs, w);
    forall p | 0 <= p < |w.trace| && w.trace[p].Reported?
      ensures p == |w.trace| - 1 && p > 0 && Authorises(args, w.trace[p - 1], w.trace[p].ending)
    {
      EndingsAreAuthorised(args, inputs, w, p);
    }
  }
}
