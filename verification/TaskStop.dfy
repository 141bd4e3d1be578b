/** A suspended operation always has someone who will claim it, and a stop request is never lost.

    The invariant names, for the operation the body waits on, the call that is responsible for it.  In
    particular a stop that meets an executing worker or probe, which makes cancel() step aside, leaves
    the claim to that worker or probe. */
module TaskStop {
  import opened TaskCore
  import opened TaskMachine
  import opened TaskExecution

  /** Positions of the responsible calls. */
  datatype Helpers = Helpers(armer: nat, worker: nat, canceller: nat, stopper: nat)

  predicate Busy(k: Call, i: nat) {
    k == WorkRunning(i) || k == Probing(i) || ((k.CompletingOp? || k.CompletingThen?) && k.op == i)
  }

  predicate BusyAt(s: State, c: nat, i: nat) {
    c < |s.calls| && Busy(s.calls[c], i)
  }

  predicate Holds(s: State, c: nat, k: Call) {
    c < |s.calls| && s.calls[c] == k
  }

  /** Operation i, unclaimed, in the hands of `h`. */
  predicate InHands(s: State, i: nat, h: Helpers)
    requires i < |s.ops|
  {
    var o := s.ops[i];
    && (!Cancellable(o.kind) ==> o.hook.Unset?)
    && (o.hook.Listening? ==> !s.stopFlag)
    && (o.hook.Fired? ==> s.stopFlag && (BusyAt(s, h.worker, i) || Holds(s, h.canceller, Cancelling(i))))
    && (o.hook.Unset? && Cancellable(o.kind) ==> Holds(s, h.armer, Arming(i)))
    && (!o.wired ==> Holds(s, h.armer, Arming(i)) || Holds(s, h.armer, Wiring(i)))
    && (o.core.executing ==> BusyAt(s, h.worker, i))
    && (o.kind.Work? && o.wired ==>
          s.result.cancellationRequested || BusyAt(s, h.worker, i) || Holds(s, h.worker, WorkQueued(i)))
    && (o.kind.Probe? && o.wired ==> BusyAt(s, h.worker, i) || Holds(s, h.worker, Watching(i)))
  }

  predicate StopInv(s: State, h: Helpers) {
    && (s.stopFlag ==> s.result.cancellationRequested)
    && (s.result.cancellationRequested && !s.stopFlag ==> Holds(s, h.stopper, Flagging))
    && (Waiting(s) ==> InHands(s, s.body.op, h))
  }

  /** Calls that StopInv may rely on. */
  predicate Helps(s: State, k: Call) {
    k.Flagging? || (!k.Ticket? && Target(k).Some? && s.body == Parked(Target(k).value))
  }

  /** Nothing changes for the operation the body waits on, or there is no longer one. */
  lemma Undisturbed(s: State, t: State, c: nat, k: Call, spawned: seq<Call>, h: Helpers)
    requires StopInv(s, h)
    requires t.stopFlag == s.stopFlag && t.result.cancellationRequested == s.result.cancellationRequested
    requires Waiting(t) ==> Waiting(s) && t.body == s.body && t.ops[t.body.op] == s.ops[t.body.op]
    requires Goes(s, t, c, k, spawned)
    requires c < |s.calls| ==> !Helps(s, s.calls[c])
    ensures StopInv(t, h)
  {
  }

  lemma SuspendStep(s: State, c: nat, kind: Kind, h: Helpers)
    requires StopInv(s, h) && FrameEnabled(s, Suspend(c, kind)) && Fits(s, s.calls[c])
    ensures StopInv(DoSuspend(s, c, kind), h.(armer := c))
  {
  }

  lemma ArmStep(s: State, c: nat, h: Helpers) returns (h': Helpers)
    requires StopInv(s, h) && WaitEnabled(s, Arm(c)) && Fits(s, s.calls[c])
    ensures StopInv(DoArm(s, c), h')
  {
    h' := if s.stopFlag then h.(armer := c, canceller := |s.calls|) else h.(armer := c);
  }

  lemma WireStep(s: State, c: nat, accepted: bool, h: Helpers) returns (h': Helpers)
    requires StopInv(s, h) && WaitEnabled(s, Wire(c, accepted)) && Fits(s, s.calls[c])
    ensures StopInv(DoWire(s, c, accepted), h')
  {
    h' := if BusyAt(s, h.worker, s.calls[c].op) then h else h.(worker := |s.calls|);
    if s.ops[s.calls[c].op].core.claimed {
      assert !Waiting(DoWire(s, c, accepted));
    }
  }

  lemma StopStateStep(s: State, c: nat, h: Helpers)
    requires StopInv(s, h) && RequestEnabled(s, StopState(c))
    ensures StopInv(DoStopState(s, c), h.(stopper := c))
  {
  }

  lemma FireStopStep(s: State, c: nat, h: Helpers) returns (h': Helpers)
    requires StopInv(s, h) && RequestEnabled(s, FireStop(c)) && s.result.cancellationRequested
    ensures StopInv(DoFireStop(s, c), h')
  {
    h' := if s.stopFlag then h else h.(canceller := |s.calls|);
  }

  lemma CancelStep(s: State, c: nat, h: Helpers)
    requires StopInv(s, h) && WaitEnabled(s, Cancel(c))
    ensures StopInv(DoCancel(s, c), h)
  {
  }

  lemma CompleteStep(s: State, c: nat, h: Helpers)
    requires StopInv(s, h) && WaitEnabled(s, CompleteOperation(c))
    ensures StopInv(DoCompleteOperation(s, c), h)
  {
  }

  lemma CompleteInProbeStep(s: State, c: nat, h: Helpers)
    requires StopInv(s, h) && WaitEnabled(s, CompleteInProbe(c))
    ensures StopInv(DoCompleteInProbe(s, c), h)
  {
  }

  lemma BeginWorkStep(s: State, c: nat, h: Helpers) returns (h': Helpers)
    requires StopInv(s, h) && WorkEnabled(s, BeginWork(c)) && Fits(s, s.calls[c])
    ensures StopInv(DoBeginWork(s, c), h')
  {
    var i := s.calls[c].op;
    h' := if BusyAt(s, h.worker, i) || s.body != Parked(i) then h else h.(worker := c);
  }

  lemma PassWorkStep(s: State, c: nat, h: Helpers, error: Option<Failure>)
    requires StopInv(s, h)
    requires c < |s.calls| && (s.calls[c].WorkQueued? || s.calls[c].WorkRunning?)
    ensures StopInv(Become(s, c, CompletingOp(s.calls[c].op, error), []), h)
  {
  }

  lemma BeginProbeStep(s: State, c: nat, h: Helpers) returns (h': Helpers)
    requires StopInv(s, h) && WorkEnabled(s, BeginProbe(c)) && Fits(s, s.calls[c])
    ensures StopInv(DoBeginProbe(s, c), h')
  {
    var i := s.calls[c].op;
    h' := if BusyAt(s, h.worker, i) || s.body != Parked(i) then h else h.(worker := c);
  }

  lemma EndProbeStep(s: State, c: nat, ready: bool, h: Helpers)
    returns (h': Helpers)
    requires StopInv(s, h) && WorkEnabled(s, EndProbe(c, ready)) && Fits(s, s.calls[c])
    ensures StopInv(DoEndProbe(s, c, ready), h')
  {
    if s.body != Parked(s.calls[c].op) {
      h' := h;
      var t := DoEndProbe(s, c, ready);
      Undisturbed(s, t, c, t.calls[c], [], h);
    } else {
      h' := h.(worker := c);
    }
  }

  lemma ProbeThrowsStep(s: State, c: nat, thrown: Failure, h: Helpers)
    returns (h': Helpers)
    requires StopInv(s, h) && WorkEnabled(s, ProbeThrows(c, thrown)) && Fits(s, s.calls[c])
    ensures StopInv(DoProbeThrows(s, c, thrown), h')
  {
    h' := if s.body == Parked(s.calls[c].op) then h.(worker := c) else h;
  }

  lemma FrameSteps(s: State, step: FrameStep, owner: Option<nat>, token: Token, h: Helpers) returns (h': Helpers)
    requires ExecInv(s, owner, token) && StopInv(s, h) && FrameEnabled(s, step)
    ensures StopInv(FrameApply(s, step), h')
  {
    h' := h;
    match step {
      case EnterResume(c) =>
        var t := DoEnterResume(s, c);
        Undisturbed(s, t, c, t.calls[c],
                  [], h);
      case Continue(c) =>
        var t := DoContinue(s, c);
        Undisturbed(s, t, c, t.calls[c],
                  [], h);
      case Suspend(c, kind) => SuspendStep(s, c, kind, h); h' := h.(armer := c);
      case Return(c, outcome) =>
        var t := DoReturn(s, c, outcome);
        Undisturbed(s, t, c, Settling(outcome),
                  [], h);
      case SettleBody(c) =>
        var t := DoSettleBody(s, c);
        Undisturbed(s, t, c, Leaving(true),
                  [Notifying(Settle(s.result, s.calls[c].outcome).1)], h);
      case Leave(c) =>
        var t := DoLeave(s, c);
        Undisturbed(s, t, c, t.calls[c],
                  [], h);
      case DestroyFrame(c) =>
        var t := DoDestroyFrame(s, c);
        Undisturbed(s, t, c, Finishing,
                  [], h);
      case Finish(c) =>
        var t := DoFinish(s, c);
        Undisturbed(s, t, c, Completing,
                  [], h);
      case CompleteExecution(c) =>
        var t := DoCompleteExecution(s, c);
        Undisturbed(s, t, c, t.calls[c],
                  [], h);
    }
  }

  lemma WaitSteps(s: State, step: WaitStep, owner: Option<nat>, token: Token, h: Helpers) returns (h': Helpers)
    requires ExecInv(s, owner, token) && StopInv(s, h) && WaitEnabled(s, step)
    ensures StopInv(WaitApply(s, step), h')
  {
    h' := h;
    match step {
      case Arm(c) => h' := ArmStep(s, c, h);
      case Wire(c, accepted) => h' := WireStep(s, c, accepted, h);
      case Cancel(c) => CancelStep(s, c, h);
      case SignalEvent(i) => Undisturbed(s, DoSignalEvent(s, i), |s.calls|, Gone, [CompletingOp(i, None)], h);
      case CompleteOperation(c) => CompleteStep(s, c, h);
      case CompleteInProbe(c) => CompleteInProbeStep(s, c, h);
      case RunTicket(c) =>
        var t := DoRunTicket(s, c);
        Undisturbed(s, t, c, Entering,
                  [], h);
      case DropTicket(c) =>
        var t := DoDropTicket(s, c);
        Undisturbed(s, t, c, Entering,
                  [], h);
    }
  }

  lemma WorkSteps(s: State, step: WorkStep, owner: Option<nat>, token: Token, h: Helpers) returns (h': Helpers)
    requires ExecInv(s, owner, token) && StopInv(s, h) && WorkEnabled(s, step)
    ensures StopInv(WorkApply(s, step), h')
  {
    h' := h;
    match step {
      case BeginWork(c) => h' := BeginWorkStep(s, c, h);
      case DropWork(c) => PassWorkStep(s, c, h, Some(SchedulerRejected));
      case EndWork(c, error) => PassWorkStep(s, c, h, error);
      case BeginProbe(c) => h' := BeginProbeStep(s, c, h);
      case EndProbe(c, ready) => h' := EndProbeStep(s, c, ready, h);
      case ProbeThrows(c, thrown) => h' := ProbeThrowsStep(s, c, thrown, h);
    }
  }

  lemma RequestSteps(s: State, step: RequestStep, owner: Option<nat>, token: Token, h: Helpers) returns (h': Helpers)
    requires ExecInv(s, owner, token) && StopInv(s, h) && RequestEnabled(s, step)
    ensures StopInv(RequestApply(s, step), h')
  {
    h' := h;
    match step {
      case AskStop => Undisturbed(s, DoAskStop(s), |s.calls|, Gone, [Stopping], h);
      case StopState(c) => StopStateStep(s, c, h); h' := h.(stopper := c);
      case FireStop(c) => h' := FireStopStep(s, c, h);
      case AskCallback(execution) => Undisturbed(s, DoAskCallback(s, execution), |s.calls|, Gone,
        [Registering(Callback(|s.issued|, execution))], h);
      case RegisterCallback(c) =>
        var t := DoRegisterCallback(s, c);
        Undisturbed(s, t, c, t.calls[c],
                  [], h);
      case RunCallback(c) =>
        var t := DoRunCallback(s, c);
        Undisturbed(s, t, c, t.calls[c],
                  [], h);
    }
  }

  /** Every step keeps the invariant. */
  lemma StepKeepsStop(s: State, step: Step, owner: Option<nat>, token: Token, h: Helpers) returns (h': Helpers)
    requires ExecInv(s, owner, token) && StopInv(s, h) && Enabled(s, step)
    ensures StopInv(Apply(s, step), h')
  {
    match step {
      case OfFrame(f) => h' := FrameSteps(s, f, owner, token, h);
      case OfWait(o) => h' := WaitSteps(s, o, owner, token, h);
      case OfWork(w) => h' := WorkSteps(s, w, owner, token, h);
      case OfRequest(q) => h' := RequestSteps(s, q, owner, token, h);
    }
  }
}
