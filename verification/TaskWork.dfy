/** While a worker function or a polled condition runs for a suspended body, nothing else happens to it.

    The function may refer to locals of the coroutine, which live in its frame.  The proof follows the
    call that serves an operation, from the pool's queue or the loop's list of conditions to the call
    that completes the operation, and shows that it is the only one and that its claim cannot be taken
    from it in between. */
module TaskWork {
  import opened TaskCore
  import opened TaskMachine
  import opened TaskExecution
  import opened TaskRuntime

  /** The user's function or predicate is running. */
  predicate Working(k: Call) {
    k.WorkRunning? || k.Probing?
  }

  /** The call has the function or predicate of an operation in its keeping. */
  predicate Serving(k: Call) {
    k.WorkQueued? || k.WorkRunning? || k.Watching? || k.Probing? || k.CompletingThen?
  }

  /** What a call implies about its operation. */
  predicate Sound(ops: seq<Op>, k: Call) {
    && (Target(k).Some? ==> Target(k).value < |ops|)
    && (Working(k) ==> ops[Target(k).value].core.executing && !ops[Target(k).value].core.claimed)
    && (k.Arming? || k.Wiring? ==> !ops[k.op].wired)
    && (k.CompletingOp? ==> ops[k.op].wired)
  }

  /** An operation is served once, and nobody completes it beside its server. */
  predicate Apart(k: Call, l: Call) {
    Serving(k) && Target(k) == Target(l) ==> !Serving(l) && !l.CompletingOp?
  }

  predicate Compatible(k: Call, l: Call) {
    Apart(k, l) && Apart(l, k)
  }

  ghost predicate AllSound(ops: seq<Op>, calls: seq<Call>) {
    forall c :: 0 <= c < |calls| ==> Sound(ops, calls[c])
  }

  ghost predicate AllApart(calls: seq<Call>) {
    forall c, d :: 0 <= c < d < |calls| ==> Compatible(calls[c], calls[d])
  }

  ghost predicate WorkInv(s: State) {
    AllSound(s.ops, s.calls) && AllApart(s.calls)
  }

  /** Call `k` at `c` gets along with all the others. */
  ghost predicate Welcome(calls: seq<Call>, c: nat, k: Call) {
    forall d :: 0 <= d < |calls| && d != c ==> Compatible(calls[d], k)
  }

  /** The other calls stay sound. */
  ghost predicate OthersSound(ops: seq<Op>, calls: seq<Call>, c: nat) {
    forall d :: 0 <= d < |calls| && d != c ==> Sound(ops, calls[d])
  }

  predicate OpKept(o: Op, o': Op) {
    o'.core.executing == o.core.executing && o'.core.claimed == o.core.claimed && o'.wired == o.wired
  }

  predicate OpsKept(ops: seq<Op>, ops': seq<Op>) {
    |ops| <= |ops'| && forall i :: 0 <= i < |ops| ==> OpKept(ops[i], ops'[i])
  }

  lemma KeptSound(ops: seq<Op>, ops': seq<Op>, calls: seq<Call>, c: nat)
    requires AllSound(ops, calls) && OpsKept(ops, ops')
    ensures OthersSound(ops', calls, c)
  {
  }

  /** A call without a part in this is welcome everywhere. */
  predicate Plain(k: Call) {
    !Serving(k) && !k.CompletingOp?
  }

  lemma MoveApart(calls: seq<Call>, c: nat, k: Call)
    requires AllApart(calls) && c < |calls| && Welcome(calls, c, k)
    ensures AllApart(calls[c := k])
  {
  }

  lemma AddApart(calls: seq<Call>, k: Call)
    requires AllApart(calls) && Welcome(calls, |calls|, k)
    ensures AllApart(calls + [k])
  {
  }

  lemma MoveSound(ops: seq<Op>, calls: seq<Call>, c: nat, k: Call)
    requires OthersSound(ops, calls, c) && Sound(ops, k)
    ensures c < |calls| ==> AllSound(ops, calls[c := k])
  {
  }

  lemma AddSound(ops: seq<Op>, calls: seq<Call>, k: Call)
    requires AllSound(ops, calls) && Sound(ops, k)
    ensures AllSound(ops, calls + [k])
  {
  }

  /** A step in which call `c` goes on as `k`. */
  lemma Moves(s: State, t: State, c: nat, k: Call)
    requires WorkInv(s) && c < |s.calls| && t.calls == s.calls[c := k]
    requires OthersSound(t.ops, s.calls, c) && Sound(t.ops, k) && Welcome(s.calls, c, k)
    ensures WorkInv(t)
  {
    MoveApart(s.calls, c, k);
    MoveSound(t.ops, s.calls, c, k);
  }

  /** One more call. */
  lemma Joins(s: State, k: Call)
    requires WorkInv(s) && Sound(s.ops, k) && Welcome(s.calls, |s.calls|, k)
    ensures WorkInv(s.(calls := s.calls + [k]))
  {
    AddApart(s.calls, k);
    AddSound(s.ops, s.calls, k);
  }

  /** Steps without a part in this. */
  lemma PlainStep(s: State, t: State, c: nat, k: Call)
    requires WorkInv(s) && c < |s.calls| && t.calls == s.calls[c := k]
    requires OpsKept(s.ops, t.ops) && Plain(k) && Sound(t.ops, k)
    ensures WorkInv(t)
  {
    KeptSound(s.ops, t.ops, s.calls, c);
    Moves(s, t, c, k);
  }

  lemma PlainSteps(s: State, t: State, c: nat, k: Call, l: Call)
    requires WorkInv(s) && c < |s.calls| && t.calls == s.calls[c := k] + [l]
    requires OpsKept(s.ops, t.ops) && Plain(k) && Sound(t.ops, k) && Plain(l) && Sound(t.ops, l)
    ensures WorkInv(t)
  {
    var m := t.(calls := s.calls[c := k]);
    PlainStep(s, m, c, k);
    Joins(m, l);
    assert t == m.(calls := m.calls + [l]);
  }

  // ---------------------------------------------------------------- the steps that matter

  /** Nobody serves or completes an operation that has not been handed over. */
  lemma UnwiredIsUnserved(s: State, i: nat, d: nat)
    requires AllFit(s) && AllSound(s.ops, s.calls) && i < |s.ops| && d < |s.calls|
    requires !s.ops[i].wired
    ensures Target(s.calls[d]) == Some(i) ==> Plain(s.calls[d])
  {
    assert Fits(s, s.calls[d]) && Sound(s.ops, s.calls[d]);
  }

  lemma WireStep(s: State, c: nat, accepted: bool, owner: Option<nat>)
    requires WorkInv(s) && OneRunner(s, owner) && AllFit(s) && WaitEnabled(s, Wire(c, accepted))
    ensures WorkInv(DoWire(s, c, accepted))
  {
    var i := s.calls[c].op;
    var t := DoWire(s, c, accepted);
    var m := t.(calls := s.calls[c := Leaving(false)]);
    forall d | 0 <= d < |s.calls| && d != c
      ensures Sound(m.ops, s.calls[d])
    {
      assert Sound(s.ops, s.calls[d]) && !Runs(s.calls[d]);
    }
    assert Sound(s.ops, s.calls[c]);
    Moves(s, m, c, Leaving(false));
    forall k: Call | Target(k) == Some(i)
      ensures Welcome(m.calls, |m.calls|, k)
    {
      forall d | 0 <= d < |m.calls|
        ensures Compatible(m.calls[d], k)
      {
        UnwiredIsUnserved(s, i, d);
      }
    }
    Handed(m, i, s.ops[i].kind, accepted);
  }

  lemma Handed(m: State, i: nat, kind: Kind, accepted: bool)
    requires WorkInv(m) && i < |m.ops| && m.ops[i].wired
    requires forall k: Call :: Target(k) == Some(i) ==> Welcome(m.calls, |m.calls|, k)
    ensures WorkInv(m.(calls := m.calls + Sources(kind, i, accepted)))
  {
    match kind {
      case Work =>
        if accepted {
          Joins(m, WorkQueued(i));
        } else {
          var k := CompletingOp(i, Some(SchedulerRejected));
          Joins(m, k);
          var n := m.(calls := m.calls + [k]);
          Joins(n, k);
          assert n.calls + [k] == m.calls + [k, k];
        }
      case Probe => Joins(m, Watching(i));
      case Event => assert m.calls + [] == m.calls;
      case Child => assert m.calls + [] == m.calls;
      case Join => assert m.calls + [] == m.calls;
    }
  }

  /** While it executes, cancel() steps aside. */
  lemma CancelStep(s: State, c: nat)
    requires WorkInv(s) && WaitEnabled(s, Cancel(c))
    ensures WorkInv(DoCancel(s, c))
  {
    var t := DoCancel(s, c);
    forall d | 0 <= d < |s.calls| && d != c
      ensures Sound(t.ops, s.calls[d])
    {
      assert Sound(s.ops, s.calls[d]);
    }
    Moves(s, t, c, t.calls[c]);
  }

  /** While it executes, nobody completes the operation. */
  lemma CompleteStep(s: State, c: nat)
    requires WorkInv(s) && WaitEnabled(s, CompleteOperation(c))
    ensures WorkInv(DoCompleteOperation(s, c))
  {
    var t := DoCompleteOperation(s, c);
    forall d | 0 <= d < |s.calls| && d != c
      ensures Sound(t.ops, s.calls[d])
    {
      assert Sound(s.ops, s.calls[d]) && Compatible(s.calls[d], s.calls[c]);
    }
    Moves(s, t, c, t.calls[c]);
  }

  lemma SignalStep(s: State, i: nat)
    requires WorkInv(s) && AllFit(s) && WaitEnabled(s, SignalEvent(i))
    ensures WorkInv(DoSignalEvent(s, i))
  {
    forall d | 0 <= d < |s.calls|
      ensures Compatible(s.calls[d], CompletingOp(i, None))
    {
      assert Fits(s, s.calls[d]);
    }
    Joins(s, CompletingOp(i, None));
  }

  /** The server of an operation may go on serving it, or complete it. */
  lemma ServerGoesOn(s: State, c: nat, k: Call)
    requires AllApart(s.calls) && c < |s.calls| && Serving(s.calls[c]) && Target(k) == Target(s.calls[c])
    ensures Welcome(s.calls, c, k)
  {
    forall d | 0 <= d < |s.calls| && d != c
      ensures Compatible(s.calls[d], k)
    {
      assert Compatible(s.calls[d], s.calls[c]);
    }
  }

  /** No other call works on the operation that call `c` serves. */
  lemma OthersDoNotWork(s: State, c: nat, d: nat)
    requires AllApart(s.calls) && c < |s.calls| && d < |s.calls| && c != d && Serving(s.calls[c])
    ensures Target(s.calls[d]) == Target(s.calls[c]) ==> !Serving(s.calls[d])
  {
    assert Compatible(s.calls[d], s.calls[c]);
  }

  lemma BeginWorkStep(s: State, c: nat)
    requires WorkInv(s) && AllFit(s) && WorkEnabled(s, BeginWork(c))
    ensures WorkInv(DoBeginWork(s, c))
  {
    var t := DoBeginWork(s, c);
    assert Fits(s, s.calls[c]);
    BeginsSound(s, t.ops, c, s.calls[c].op);
    if t.calls[c] != Gone {
      ServerGoesOn(s, c, t.calls[c]);
    }
    Moves(s, t, c, t.calls[c]);
  }

  lemma BeginProbeStep(s: State, c: nat)
    requires WorkInv(s) && AllFit(s) && WorkEnabled(s, BeginProbe(c))
    ensures WorkInv(DoBeginProbe(s, c))
  {
    var t := DoBeginProbe(s, c);
    assert Fits(s, s.calls[c]);
    BeginsSound(s, t.ops, c, s.calls[c].op);
    ServerGoesOn(s, c, t.calls[c]);
    Moves(s, t, c, t.calls[c]);
  }

  lemma BeginsSound(s: State, ops: seq<Op>, c: nat, i: nat)
    requires AllSound(s.ops, s.calls) && i < |s.ops|
    requires ops == s.ops[i := s.ops[i].(core := BeginWorkOp(s.ops[i].core, Stopped(s)).0)]
    ensures OthersSound(ops, s.calls, c)
  {
  }

  /** The end of a probe clears the flag that guards it, which no other call relies on. */
  lemma EndProbeStep(s: State, c: nat, ready: bool)
    requires WorkInv(s) && AllFit(s) && WorkEnabled(s, EndProbe(c, ready))
    ensures WorkInv(DoEndProbe(s, c, ready))
  {
    var t := DoEndProbe(s, c, ready);
    ServersRivalsAreSound(s, t.ops, c, s.calls[c].op);
    assert Fits(s, s.calls[c]);
    ServerGoesOn(s, c, t.calls[c]);
    Moves(s, t, c, t.calls[c]);
  }

  /** Whatever happens to the operation that call `c` serves, no other call relies on it. */
  lemma ServersRivalsAreSound(s: State, ops: seq<Op>, c: nat, i: nat)
    requires WorkInv(s) && c < |s.calls| && Serving(s.calls[c]) && Target(s.calls[c]) == Some(i) && i < |s.ops|
    requires |ops| == |s.ops| && ops[i].wired == s.ops[i].wired && ops == s.ops[i := ops[i]]
    ensures OthersSound(ops, s.calls, c)
  {
    forall d | 0 <= d < |s.calls| && d != c
      ensures Sound(ops, s.calls[d])
    {
      assert Sound(s.ops, s.calls[d]);
      OthersDoNotWork(s, c, d);
    }
  }

  lemma ProbeThrowsStep(s: State, c: nat, thrown: Failure)
    requires WorkInv(s) && AllFit(s) && WorkEnabled(s, ProbeThrows(c, thrown))
    ensures WorkInv(DoProbeThrows(s, c, thrown))
  {
    var k := CompletingThen(s.calls[c].op, thrown, true);
    ServerGoesOn(s, c, k);
    Moves(s, DoProbeThrows(s, c, thrown), c, k);
  }

  lemma CompleteInProbeStep(s: State, c: nat)
    requires WorkInv(s) && AllFit(s) && WaitEnabled(s, CompleteInProbe(c))
    ensures WorkInv(DoCompleteInProbe(s, c))
  {
    var t := DoCompleteInProbe(s, c);
    var i, k := s.calls[c].op, t.calls[c];
    var m := t.(calls := s.calls[c := k]);
    assert Fits(s, s.calls[c]);
    ServersRivalsAreSound(s, t.ops, c, i);
    ServerGoesOn(s, c, k);
    Moves(s, m, c, k);
    if s.ops[i].core.claimed {
      assert t.calls == m.calls;
    } else {
      Joins(m, Ticket(i));
      assert t == m.(calls := m.calls + [Ticket(i)]);
    }
  }

  /** A function that has run, or never will, hands over to the call that completes the operation. */
  lemma PassWorkStep(s: State, c: nat, error: Option<Failure>)
    requires WorkInv(s) && AllFit(s) && c < |s.calls| && (s.calls[c].WorkQueued? || s.calls[c].WorkRunning?)
    ensures WorkInv(Become(s, c, CompletingOp(s.calls[c].op, error), []))
  {
    var k := CompletingOp(s.calls[c].op, error);
    assert Fits(s, s.calls[c]);
    ServerGoesOn(s, c, k);
    Moves(s, Become(s, c, k, []), c, k);
  }

  // ---------------------------------------------------------------- every step

  lemma SuspendStep(s: State, c: nat, kind: Kind)
    requires WorkInv(s) && FrameEnabled(s, Suspend(c, kind))
    ensures WorkInv(DoSuspend(s, c, kind))
  {
    var t := DoSuspend(s, c, kind);
    PlainStep(s, t, c, Arming(|s.ops|));
  }

  lemma EnterStep(s: State, c: nat)
    requires WorkInv(s) && FrameEnabled(s, EnterResume(c))
    ensures WorkInv(DoEnterResume(s, c))
  {
    var t := DoEnterResume(s, c);
    PlainStep(s, t, c, t.calls[c]);
  }

  lemma ContinueStep(s: State, c: nat)
    requires WorkInv(s) && FrameEnabled(s, Continue(c))
    ensures WorkInv(DoContinue(s, c))
  {
    var t := DoContinue(s, c);
    PlainStep(s, t, c, t.calls[c]);
  }

  lemma SettleStep(s: State, c: nat)
    requires WorkInv(s) && FrameEnabled(s, SettleBody(c))
    ensures WorkInv(DoSettleBody(s, c))
  {
    PlainSteps(s, DoSettleBody(s, c), c, Leaving(true), Notifying(Settle(s.result, s.calls[c].outcome).1));
  }

  lemma LeaveStep(s: State, c: nat)
    requires WorkInv(s) && FrameEnabled(s, Leave(c))
    ensures WorkInv(DoLeave(s, c))
  {
    var t := DoLeave(s, c);
    PlainStep(s, t, c, t.calls[c]);
  }

  lemma FrameSteps(s: State, step: FrameStep)
    requires WorkInv(s) && FrameEnabled(s, step)
    ensures WorkInv(FrameApply(s, step))
  {
    match step {
      case EnterResume(c) => EnterStep(s, c);
      case Continue(c) => ContinueStep(s, c);
      case Suspend(c, kind) => SuspendStep(s, c, kind);
      case Return(c, outcome) => PlainStep(s, DoReturn(s, c, outcome), c, Settling(outcome));
      case SettleBody(c) => SettleStep(s, c);
      case Leave(c) => LeaveStep(s, c);
      case DestroyFrame(c) => PlainStep(s, DoDestroyFrame(s, c), c, Finishing);
      case Finish(c) => PlainStep(s, DoFinish(s, c), c, Completing);
      case CompleteExecution(c) => PlainStep(s, DoCompleteExecution(s, c), c, DoCompleteExecution(s, c).calls[c]);
    }
  }

  lemma ArmStep(s: State, c: nat)
    requires WorkInv(s) && WaitEnabled(s, Arm(c))
    ensures WorkInv(DoArm(s, c))
  {
    var t := DoArm(s, c);
    var i := s.calls[c].op;
    assert Sound(s.ops, s.calls[c]);
    if Cancellable(s.ops[i].kind) && s.stopFlag {
      PlainSteps(s, t, c, Wiring(i), Cancelling(i));
    } else {
      PlainStep(s, t, c, Wiring(i));
    }
  }

  lemma DropTicketStep(s: State, c: nat)
    requires WorkInv(s) && WaitEnabled(s, DropTicket(c))
    ensures WorkInv(DoDropTicket(s, c))
  {
    PlainStep(s, DoDropTicket(s, c), c, Entering);
  }

  lemma WaitSteps(s: State, step: WaitStep, owner: Option<nat>)
    requires WorkInv(s) && OneRunner(s, owner) && AllFit(s) && WaitEnabled(s, step)
    ensures WorkInv(WaitApply(s, step))
  {
    match step {
      case Arm(c) => ArmStep(s, c);
      case Wire(c, accepted) => WireStep(s, c, accepted, owner);
      case Cancel(c) => CancelStep(s, c);
      case SignalEvent(i) => SignalStep(s, i);
      case CompleteOperation(c) => CompleteStep(s, c);
      case CompleteInProbe(c) => CompleteInProbeStep(s, c);
      case RunTicket(c) => PlainStep(s, DoRunTicket(s, c), c, Entering);
      case DropTicket(c) => DropTicketStep(s, c);
    }
  }

  lemma WorkSteps(s: State, step: WorkStep)
    requires WorkInv(s) && AllFit(s) && WorkEnabled(s, step)
    ensures WorkInv(WorkApply(s, step))
  {
    match step {
      case BeginWork(c) => BeginWorkStep(s, c);
      case DropWork(c) => PassWorkStep(s, c, Some(SchedulerRejected));
      case EndWork(c, error) => PassWorkStep(s, c, error);
      case BeginProbe(c) => BeginProbeStep(s, c);
      case EndProbe(c, ready) => EndProbeStep(s, c, ready);
      case ProbeThrows(c, thrown) => ProbeThrowsStep(s, c, thrown);
    }
  }

  lemma FireStopStep(s: State, c: nat)
    requires WorkInv(s) && RequestEnabled(s, FireStop(c))
    ensures WorkInv(DoFireStop(s, c))
  {
    var t := DoFireStop(s, c);
    if !s.stopFlag && s.body.Parked? && s.ops[s.body.op].hook.Listening? {
      PlainSteps(s, t, c, Gone, Cancelling(s.body.op));
    } else {
      PlainStep(s, t, c, Gone);
    }
  }

  lemma RequestSteps(s: State, step: RequestStep)
    requires WorkInv(s) && RequestEnabled(s, step)
    ensures WorkInv(RequestApply(s, step))
  {
    match step {
      case AskStop => Joins(s, Stopping);
      case StopState(c) => PlainSteps(s, DoStopState(s, c), c, Flagging, Notifying(StopResult(s.result).1));
      case FireStop(c) => FireStopStep(s, c);
      case AskCallback(execution) =>
        var k := Registering(Callback(|s.issued|, execution));
        Joins(s, k);
      case RegisterCallback(c) => PlainStep(s, DoRegisterCallback(s, c), c, DoRegisterCallback(s, c).calls[c]);
      case RunCallback(c) => PlainStep(s, DoRunCallback(s, c), c, DoRunCallback(s, c).calls[c]);
    }
  }

  /** Every step keeps each operation served once, and its server undisturbed while it executes. */
  lemma StepKeepsWork(s: State, step: Step, owner: Option<nat>)
    requires WorkInv(s) && OneRunner(s, owner) && AllFit(s) && Enabled(s, step)
    ensures WorkInv(Apply(s, step))
  {
    match step {
      case OfFrame(f) => FrameSteps(s, f);
      case OfWait(o) => WaitSteps(s, o, owner);
      case OfWork(w) => WorkSteps(s, w);
      case OfRequest(q) => RequestSteps(s, q);
    }
  }

  lemma {:induction false} RunKeepsWork(steps: seq<Step>)
    requires Run(steps).Some?
    ensures WorkInv(Run(steps).value)
  {
    if steps != [] {
      var before := steps[..|steps| - 1];
      RunKeepsWork(before);
      var w := RunKeepsInv(before, Callback(0, false));
      StepKeepsWork(Run(before).value, steps[|steps| - 1], w.owner);
    }
  }

  // ---------------------------------------------------------------- the theorems

  lemma WorkedOnIsParked(s: State, c: nat, owner: Option<nat>, token: Token)
    requires ExecInv(s, owner, token) && WorkInv(s) && c < |s.calls| && Working(s.calls[c])
    ensures token.AtOperation? && s.body == Parked(|s.ops| - 1) && Target(s.calls[c]) == Some(|s.ops| - 1)
  {
    assert Sound(s.ops, s.calls[c]);
    assert PastClaimed(s);
  }

  lemma ParkedHasFrame(s: State, owner: Option<nat>, token: Token, d: nat)
    requires ExecInv(s, owner, token) && token.AtOperation? && s.body.Parked?
    ensures s.frame.Live? && !s.exec.resumePending && !s.exec.executionFinished
    ensures d < |s.calls| ==> !Carries(s.calls[d])
  {
    if owner.Some? {
      assert Fits(s, s.calls[owner.value]);
    }
  }

  /** While a worker function or a predicate runs, the body is suspended on the very operation it runs
      for, its frame is alive, no resumption is on its way or noted, nobody is inside the body, and no
      other function or predicate of this task runs: what the function uses of the frame stays put. */
  lemma WorkerHasFrameToItself(steps: seq<Step>, c: nat, d: nat)
    requires Run(steps).Some?
    requires c < |Run(steps).value.calls| && Working(Run(steps).value.calls[c])
    ensures
      var s := Run(steps).value;
      && Target(s.calls[c]) == Some(|s.ops| - 1) && s.body == Parked(|s.ops| - 1)
      && s.frame.Live? && !s.exec.resumePending && !s.exec.executionFinished
      && (d < |s.calls| ==> !Carries(s.calls[d]))
      && (d < |s.calls| && Working(s.calls[d]) ==> d == c)
  {
    var s := Run(steps).value;
    var w := RunKeepsInv(steps, Callback(0, false));
    RunKeepsWork(steps);
    WorkedOnIsParked(s, c, w.owner, w.token);
    ParkedHasFrame(s, w.owner, w.token, d);
    if d < |s.calls| && d != c && Working(s.calls[d]) {
      WorkedOnIsParked(s, d, w.owner, w.token);
      OthersDoNotWork(s, c, d);
    }
  }

  /** While it runs, its operation is unclaimed, cancel() steps aside, and no call is about to complete
      it: the claim is left to what ends the run. */
  lemma NobodyElseClaims(steps: seq<Step>, c: nat)
    requires Run(steps).Some?
    requires c < |Run(steps).value.calls| && Working(Run(steps).value.calls[c])
    ensures
      var s := Run(steps).value;
      var i := Target(s.calls[c]).value;
      && i < |s.ops| && !s.ops[i].core.claimed && !CancelOp(s.ops[i].core).1
      && (forall d :: 0 <= d < |s.calls| && s.calls[d].CompletingOp? ==> s.calls[d].op != i)
  {
    var s := Run(steps).value;
    RunKeepsWork(steps);
    assert Sound(s.ops, s.calls[c]);
    forall d | 0 <= d < |s.calls| && s.calls[d].CompletingOp?
      ensures s.calls[d].op != Target(s.calls[c]).value
    {
      assert Compatible(s.calls[c], s.calls[d]);
    }
  }
}
