/** The result cell: settlement, completion, and the callbacks waiting for either.

    Callbacks are conserved: each one handed to onReady is always in exactly one place, namely the call
    that is registering it, one of the two lists, the call that took it off a list, or the log of
    callbacks that have run. */
module TaskResults {
  import opened TaskCore
  import opened TaskMachine
  import opened TaskExecution

  // ---------------------------------------------------------------- flags and timing

  predicate AllHappened(r: ResultCell, callbacks: seq<Callback>) {
    forall i :: 0 <= i < |callbacks| ==> Happened(r, callbacks[i])
  }

  /** A callback that runs, or is about to, does so after its event. */
  ghost predicate Timely(s: State) {
    && AllHappened(s.result, s.ran)
    && (forall c :: 0 <= c < |s.calls| && s.calls[c].Notifying? ==> AllHappened(s.result, s.calls[c].callbacks))
  }

  ghost predicate Sorted(r: ResultCell) {
    && (forall i :: 0 <= i < |r.resultCallbacks| ==> !r.resultCallbacks[i].execution)
    && (forall i :: 0 <= i < |r.completionCallbacks| ==> r.completionCallbacks[i].execution)
    && (r.settled.Some? ==> r.resultCallbacks == [])
    && (r.completed ==> r.completionCallbacks == [])
  }

  ghost predicate ResultInv(s: State) {
    && (s.result.cancellationRequested || s.body.Done? ==> s.result.settled.Some?)
    && (s.result.completed ==> s.body.Done?)
    && Sorted(s.result)
    && Timely(s)
  }

  /** Nothing that has happened is undone. */
  predicate Later(r: ResultCell, r': ResultCell) {
    && (r.settled.Some? ==> r'.settled == r.settled)
    && (r.completed ==> r'.completed)
    && (r.cancellationRequested ==> r'.cancellationRequested)
  }

  lemma ResultStep(s: State, t: State, c: nat, k: Call, spawned: seq<Call>)
    requires ResultInv(s) && Goes(s, t, c, k, spawned)
    requires Later(s.result, t.result) && Sorted(t.result)
    requires t.result.cancellationRequested || t.body.Done? ==> t.result.settled.Some?
    requires t.result.completed ==> t.body.Done?
    requires AllHappened(t.result, t.ran)
    requires k.Notifying? ==> AllHappened(t.result, k.callbacks)
    requires forall j :: 0 <= j < |spawned| && spawned[j].Notifying? ==> AllHappened(t.result, spawned[j].callbacks)
    ensures ResultInv(t)
  {
  }

  lemma SettleStep(s: State, c: nat)
    requires ResultInv(s) && FrameEnabled(s, SettleBody(c))
    ensures ResultInv(DoSettleBody(s, c))
  {
    var (r, callbacks) := Settle(s.result, s.calls[c].outcome);
    ResultStep(s, DoSettleBody(s, c), c, Leaving(true), [Notifying(callbacks)]);
  }

  lemma StopStep(s: State, c: nat)
    requires ResultInv(s) && RequestEnabled(s, StopState(c))
    ensures ResultInv(DoStopState(s, c))
  {
    var (r, callbacks) := StopResult(s.result);
    ResultStep(s, DoStopState(s, c), c, Flagging, [Notifying(callbacks)]);
  }

  lemma CompleteStep(s: State, c: nat)
    requires ResultInv(s) && FrameEnabled(s, CompleteExecution(c)) && Fits(s, s.calls[c])
    ensures ResultInv(DoCompleteExecution(s, c))
  {
    ResultStep(s, DoCompleteExecution(s, c), c, Notifying(s.result.completionCallbacks), []);
  }

  lemma RegisterStep(s: State, c: nat)
    requires ResultInv(s) && RequestEnabled(s, RegisterCallback(c))
    ensures ResultInv(DoRegisterCallback(s, c))
  {
    ResultStep(s, DoRegisterCallback(s, c), c, Notifying(Register(s.result, s.calls[c].callback).1), []);
  }

  lemma RunStep(s: State, c: nat)
    requires ResultInv(s) && RequestEnabled(s, RunCallback(c))
    ensures ResultInv(DoRunCallback(s, c))
  {
    ResultStep(s, DoRunCallback(s, c), c, Notifying(s.calls[c].callbacks[1..]), []);
  }

  // ---------------------------------------------------------------- conservation

  function Occurs(callbacks: seq<Callback>, x: Callback): nat {
    if callbacks == [] then 0
    else Occurs(callbacks[..|callbacks| - 1], x) + if callbacks[|callbacks| - 1] == x then 1 else 0
  }

  function Held(k: Call, x: Callback): nat {
    match k
    case Registering(callback) => if callback == x then 1 else 0
    case Notifying(callbacks) => Occurs(callbacks, x)
    case _ => 0
  }

  function InFlight(calls: seq<Call>, x: Callback): nat {
    if calls == [] then 0 else InFlight(calls[..|calls| - 1], x) + Held(calls[|calls| - 1], x)
  }

  /** In how many places callback x is. */
  function Places(s: State, x: Callback): nat {
    Occurs(s.result.resultCallbacks, x) + Occurs(s.result.completionCallbacks, x) + Occurs(s.ran, x)
    + InFlight(s.calls, x)
  }

  predicate Conserved(s: State, x: Callback) {
    Places(s, x) == Occurs(s.issued, x)
  }

  lemma {:induction false} OccursAppend(a: seq<Callback>, b: seq<Callback>, x: Callback)
    ensures Occurs(a + b, x) == Occurs(a, x) + Occurs(b, x)
  {
    if b == [] {
      assert a + b == a;
    } else {
      OccursAppend(a, b[..|b| - 1], x);
      assert (a + b)[..|a + b| - 1] == a + b[..|b| - 1];
    }
  }

  lemma {:induction false} InFlightAppend(a: seq<Call>, b: seq<Call>, x: Callback)
    ensures InFlight(a + b, x) == InFlight(a, x) + InFlight(b, x)
  {
    if b == [] {
      assert a + b == a;
    } else {
      InFlightAppend(a, b[..|b| - 1], x);
      assert (a + b)[..|a + b| - 1] == a + b[..|b| - 1];
    }
  }

  lemma {:induction false} InFlightUpdate(calls: seq<Call>, c: nat, k: Call, x: Callback)
    requires c < |calls|
    ensures InFlight(calls[c := k], x) + Held(calls[c], x) == InFlight(calls, x) + Held(k, x)
  {
    var last := |calls| - 1;
    if c == last {
      assert calls[c := k][..last] == calls[..last];
    } else {
      InFlightUpdate(calls[..last], c, k, x);
      assert calls[c := k][..last] == calls[..last][c := k];
    }
  }

  /** What call `c` gives up is what it keeps as `k`, what its spawned calls get, and the rest. */
  lemma InFlightGoes(s: State, t: State, c: nat, k: Call, spawned: seq<Call>, x: Callback)
    requires Goes(s, t, c, k, spawned)
    ensures InFlight(t.calls, x) + (if c < |s.calls| then Held(s.calls[c], x) else 0)
         == InFlight(s.calls, x) + (if c < |s.calls| then Held(k, x) else 0) + InFlight(spawned, x)
  {
    if c < |s.calls| {
      InFlightUpdate(s.calls, c, k, x);
      InFlightAppend(s.calls[c := k], spawned, x);
    } else {
      InFlightAppend(s.calls, spawned, x);
    }
  }

  lemma {:induction false} NoneHeld(calls: seq<Call>, x: Callback)
    requires forall j :: 0 <= j < |calls| ==> !calls[j].Registering? && !calls[j].Notifying?
    ensures InFlight(calls, x) == 0
  {
    if calls != [] {
      NoneHeld(calls[..|calls| - 1], x);
    }
  }

  lemma OneHeld(k: Call, x: Callback)
    ensures InFlight([k], x) == Held(k, x)
  {
    assert [k][..0] == [];
  }

  /** Steps that move no callback. */
  lemma NoCallbacks(s: State, t: State, c: nat, k: Call, spawned: seq<Call>, x: Callback)
    requires Conserved(s, x) && Goes(s, t, c, k, spawned)
    requires t.result.resultCallbacks == s.result.resultCallbacks
    requires t.result.completionCallbacks == s.result.completionCallbacks
    requires t.ran == s.ran && t.issued == s.issued
    requires c < |s.calls| ==> !s.calls[c].Registering? && !s.calls[c].Notifying?
    requires !k.Registering? && !k.Notifying?
    requires forall j :: 0 <= j < |spawned| ==> !spawned[j].Registering? && !spawned[j].Notifying?
    ensures Conserved(t, x)
  {
    InFlightGoes(s, t, c, k, spawned, x);
    NoneHeld(spawned, x);
  }

  lemma SettleMoves(s: State, c: nat, x: Callback)
    requires Conserved(s, x) && FrameEnabled(s, SettleBody(c))
    ensures Conserved(DoSettleBody(s, c), x)
  {
    var (r, callbacks) := Settle(s.result, s.calls[c].outcome);
    InFlightGoes(s, DoSettleBody(s, c), c, Leaving(true), [Notifying(callbacks)], x);
    OneHeld(Notifying(callbacks), x);
  }

  lemma StopMoves(s: State, c: nat, x: Callback)
    requires Conserved(s, x) && RequestEnabled(s, StopState(c))
    ensures Conserved(DoStopState(s, c), x)
  {
    var (r, callbacks) := StopResult(s.result);
    InFlightGoes(s, DoStopState(s, c), c, Flagging, [Notifying(callbacks)], x);
    OneHeld(Notifying(callbacks), x);
  }

  lemma CompleteMoves(s: State, c: nat, x: Callback)
    requires Conserved(s, x) && FrameEnabled(s, CompleteExecution(c))
    ensures Conserved(DoCompleteExecution(s, c), x)
  {
    InFlightGoes(s, DoCompleteExecution(s, c), c, Notifying(s.result.completionCallbacks), [], x);
  }

  lemma AskMoves(s: State, execution: bool, x: Callback)
    requires Conserved(s, x)
    ensures Conserved(DoAskCallback(s, execution), x)
  {
    var callback := Callback(|s.issued|, execution);
    InFlightGoes(s, DoAskCallback(s, execution), |s.calls|, Gone, [Registering(callback)], x);
    OneHeld(Registering(callback), x);
    OccursAppend(s.issued, [callback], x);
    assert [callback][..0] == [];
  }

  /** onReady puts the callback on one list or hands it back, never both. */
  lemma RegisterConserves(r: ResultCell, callback: Callback, x: Callback)
    ensures
      var (r', runNow) := Register(r, callback);
      Occurs(r'.resultCallbacks, x) + Occurs(r'.completionCallbacks, x) + Occurs(runNow, x)
      == Occurs(r.resultCallbacks, x) + Occurs(r.completionCallbacks, x) + if callback == x then 1 else 0
  {
    assert [callback][..0] == [];
    if callback.execution {
      OccursAppend(r.completionCallbacks, [callback], x);
    } else {
      OccursAppend(r.resultCallbacks, [callback], x);
    }
  }

  lemma RegisterMoves(s: State, c: nat, x: Callback)
    requires Conserved(s, x) && RequestEnabled(s, RegisterCallback(c))
    ensures Conserved(DoRegisterCallback(s, c), x)
  {
    var callback := s.calls[c].callback;
    InFlightGoes(s, DoRegisterCallback(s, c), c, Notifying(Register(s.result, callback).1), [], x);
    RegisterConserves(s.result, callback, x);
  }

  lemma RunMoves(s: State, c: nat, x: Callback)
    requires Conserved(s, x) && RequestEnabled(s, RunCallback(c))
    ensures Conserved(DoRunCallback(s, c), x)
  {
    var callbacks := s.calls[c].callbacks;
    InFlightGoes(s, DoRunCallback(s, c), c, Notifying(callbacks[1..]), [], x);
    assert callbacks == [callbacks[0]] + callbacks[1..];
    OccursAppend([callbacks[0]], callbacks[1..], x);
    OccursAppend(s.ran, [callbacks[0]], x);
    assert [callbacks[0]][..0] == [];
  }

  // ---------------------------------------------------------------- every step

  ghost predicate Keeps(s: State, x: Callback) {
    ResultInv(s) && Conserved(s, x)
  }

  /** Steps that leave the result cell alone. */
  lemma PlainStep(s: State, t: State, c: nat, k: Call, spawned: seq<Call>, x: Callback)
    requires Keeps(s, x) && Goes(s, t, c, k, spawned)
    requires t.result == s.result && t.ran == s.ran && t.issued == s.issued
    requires t.body.Done? ==> s.body.Done? || s.result.cancellationRequested
    requires s.body.Done? ==> t.body.Done?
    requires c < |s.calls| ==> !s.calls[c].Registering? && !s.calls[c].Notifying?
    requires !k.Registering? && !k.Notifying?
    requires forall j :: 0 <= j < |spawned| ==> !spawned[j].Registering? && !spawned[j].Notifying?
    ensures Keeps(t, x)
  {
    ResultStep(s, t, c, k, spawned);
    NoCallbacks(s, t, c, k, spawned, x);
  }

  lemma BodySteps(s: State, step: FrameStep, x: Callback)
    requires AllFit(s) && Keeps(s, x) && FrameEnabled(s, step)
    requires step.EnterResume? || step.Continue? || step.Suspend? || step.Return?
    ensures Keeps(FrameApply(s, step), x)
  {
    match step {
      case EnterResume(c) =>
        var t := DoEnterResume(s, c);
        PlainStep(s, t, c, t.calls[c], [], x);
      case Continue(c) =>
        var t := DoContinue(s, c);
        PlainStep(s, t, c, t.calls[c], [], x);
      case Suspend(c, kind) =>
        var t := DoSuspend(s, c, kind);
        PlainStep(s, t, c, Arming(|s.ops|), [], x);
      case Return(c, outcome) =>
        var t := DoReturn(s, c, outcome);
        PlainStep(s, t, c, Settling(outcome), [], x);
    }
  }

  lemma ExitSteps(s: State, step: FrameStep, x: Callback)
    requires AllFit(s) && Keeps(s, x) && FrameEnabled(s, step)
    requires !step.EnterResume? && !step.Continue? && !step.Suspend? && !step.Return?
    ensures Keeps(FrameApply(s, step), x)
  {
    match step {
      case SettleBody(c) => SettleStep(s, c); SettleMoves(s, c, x);
      case Leave(c) =>
        var t := DoLeave(s, c);
        PlainStep(s, t, c, t.calls[c], [], x);
      case DestroyFrame(c) =>
        var t := DoDestroyFrame(s, c);
        PlainStep(s, t, c, Finishing, [], x);
      case Finish(c) =>
        var t := DoFinish(s, c);
        PlainStep(s, t, c, Completing, [], x);
      case CompleteExecution(c) => CompleteStep(s, c); CompleteMoves(s, c, x);
    }
  }

  lemma FrameSteps(s: State, step: FrameStep, x: Callback)
    requires AllFit(s) && Keeps(s, x) && FrameEnabled(s, step)
    ensures Keeps(FrameApply(s, step), x)
  {
    if step.EnterResume? || step.Continue? || step.Suspend? || step.Return? {
      BodySteps(s, step, x);
    } else {
      ExitSteps(s, step, x);
    }
  }

  lemma SetUpSteps(s: State, step: WaitStep, x: Callback)
    requires AllFit(s) && Keeps(s, x) && WaitEnabled(s, step)
    requires step.Arm? || step.Wire?
    ensures Keeps(WaitApply(s, step), x)
  {
    match step {
      case Arm(c) =>
        var t := DoArm(s, c);
        PlainStep(s, t, c, Wiring(s.calls[c].op),
                  if s.stopFlag && Cancellable(s.ops[s.calls[c].op].kind) then [Cancelling(s.calls[c].op)] else [], x);
      case Wire(c, accepted) =>
        var t := DoWire(s, c, accepted);
        PlainStep(s, t, c, Leaving(false), Sources(s.ops[s.calls[c].op].kind, s.calls[c].op, accepted), x);
    }
  }

  lemma WaitSteps(s: State, step: WaitStep, x: Callback)
    requires AllFit(s) && Keeps(s, x) && WaitEnabled(s, step)
    ensures Keeps(WaitApply(s, step), x)
  {
    if step.Arm? || step.Wire? {
      SetUpSteps(s, step, x);
    } else {
      match step {
        case Cancel(c) =>
          var t := DoCancel(s, c);
          PlainStep(s, t, c, t.calls[c], [], x);
        case SignalEvent(i) =>
          var t := DoSignalEvent(s, i);
          PlainStep(s, t, |s.calls|, Gone, [CompletingOp(i, None)], x);
        case CompleteOperation(c) =>
          var t := DoCompleteOperation(s, c);
          PlainStep(s, t, c, t.calls[c], [], x);
        case CompleteInProbe(c) =>
          var t := DoCompleteInProbe(s, c);
          var i := s.calls[c].op;
          PlainStep(s, t, c, t.calls[c], if s.ops[i].core.claimed then [] else [Ticket(i)], x);
        case RunTicket(c) =>
          var t := DoRunTicket(s, c);
          PlainStep(s, t, c, Entering, [], x);
        case DropTicket(c) =>
          var t := DoDropTicket(s, c);
          PlainStep(s, t, c, Entering, [], x);
      }
    }
  }

  lemma ProbeSteps(s: State, step: WorkStep, x: Callback)
    requires AllFit(s) && Keeps(s, x) && WorkEnabled(s, step)
    requires step.BeginProbe? || step.EndProbe? || step.ProbeThrows?
    ensures Keeps(WorkApply(s, step), x)
  {
    match step {
      case BeginProbe(c) =>
        var t := DoBeginProbe(s, c);
        PlainStep(s, t, c, t.calls[c], [], x);
      case EndProbe(c, ready) =>
        var t := DoEndProbe(s, c, ready);
        PlainStep(s, t, c, t.calls[c], [], x);
      case ProbeThrows(c, thrown) =>
        var t := DoProbeThrows(s, c, thrown);
        PlainStep(s, t, c, t.calls[c], [], x);
    }
  }

  lemma WorkerSteps(s: State, step: WorkStep, x: Callback)
    requires AllFit(s) && Keeps(s, x) && WorkEnabled(s, step)
    requires !step.BeginProbe? && !step.EndProbe? && !step.ProbeThrows?
    ensures Keeps(WorkApply(s, step), x)
  {
    match step {
      case BeginWork(c) =>
        var t := DoBeginWork(s, c);
        PlainStep(s, t, c, t.calls[c], [], x);
      case DropWork(c) =>
        var t := DoDropWork(s, c);
        PlainStep(s, t, c, t.calls[c], [], x);
      case EndWork(c, error) =>
        var t := DoEndWork(s, c, error);
        PlainStep(s, t, c, t.calls[c], [], x);
    }
  }

  lemma WorkSteps(s: State, step: WorkStep, x: Callback)
    requires AllFit(s) && Keeps(s, x) && WorkEnabled(s, step)
    ensures Keeps(WorkApply(s, step), x)
  {
    if step.BeginProbe? || step.EndProbe? || step.ProbeThrows? {
      ProbeSteps(s, step, x);
    } else {
      WorkerSteps(s, step, x);
    }
  }

  lemma RequestSteps(s: State, step: RequestStep, x: Callback)
    requires AllFit(s) && Keeps(s, x) && RequestEnabled(s, step)
    ensures Keeps(RequestApply(s, step), x)
  {
    match step {
      case AskStop =>
        var t := DoAskStop(s);
        PlainStep(s, t, |s.calls|, Gone, [Stopping], x);
      case StopState(c) => StopStep(s, c); StopMoves(s, c, x);
      case FireStop(c) =>
        var t := DoFireStop(s, c);
        PlainStep(s, t, c, Gone,
                  if !s.stopFlag && s.body.Parked? &&
                    s.ops[s.body.op].hook.Listening? then [Cancelling(s.body.op)] else [], x);
      case AskCallback(execution) =>
        ResultStep(s, DoAskCallback(s, execution), |s.calls|, Gone, [Registering(Callback(|s.issued|, execution))]);
        AskMoves(s, execution, x);
      case RegisterCallback(c) => RegisterStep(s, c); RegisterMoves(s, c, x);
      case RunCallback(c) => RunStep(s, c); RunMoves(s, c, x);
    }
  }

  /** Every step keeps the result cell's invariant and conserves every callback. */
  lemma StepKeepsResults(s: State, step: Step, x: Callback)
    requires AllFit(s) && Keeps(s, x) && Enabled(s, step)
    ensures Keeps(Apply(s, step), x)
  {
    match step {
      case OfFrame(f) => FrameSteps(s, f, x);
      case OfWait(o) => WaitSteps(s, o, x);
      case OfWork(w) => WorkSteps(s, w, x);
      case OfRequest(q) => RequestSteps(s, q, x);
    }
  }
}
