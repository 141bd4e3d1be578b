/** One task of vtask.h under every interleaving.

    A state holds the task's state_base, its coroutine frame, the operations its body has suspended on,
    and every call in progress on any thread.  A step is one critical section (or one atomic access) of
    one call.  A call made from inside another one becomes a call of its own, so that the interleavings
    here include every real one, in which the caller waits for it.  What the coroutine body, the
    schedulers, worker pools and other threads do is left open: any enabled step may come next. */
module TaskMachine {
  import opened TaskCore

  /** What a suspended body waits for: an event source (post, delay, frame, the result behind a handle), a
      worker function, a polled condition, the end of a child that it awaits itself, or the end of another task
      (waitFinished). */
  datatype Kind = Event | Work | Probe | Child | Join

  /** The stop callback cancels the operation.  An awaited child is stopped instead (ChildAwait), and a wait for
      the end of another task has no stop callback. */
  predicate Cancellable(kind: Kind) {
    !kind.Child? && !kind.Join?
  }

  /** The stop callback of a suspension. */
  datatype Hook = Unset | Listening | Fired

  datatype Op = Op(core: OpCore, kind: Kind, hook: Hook, wired: bool)

  /** Where the coroutine is. */
  datatype Body = Initial | Active | Parked(op: nat) | Done

  /** Detached: the handle has been moved out of the state and is about to be destroyed. */
  datatype Frame = Live | Detached | Destroyed

  datatype Call =
    | Gone
      // inside resume(), from its first lock to completeExecution
    | Entering
    | LoopHead
    | InBody
    | Arming(op: nat)
    | Wiring(op: nat)
    | Settling(outcome: Outcome)
    | Leaving(finished: bool)
    | TearingDown
    | Finishing
    | Completing
      // inside requestStop(), before and after its lock
    | Stopping
    | Flagging
      // on operations
    | Cancelling(op: nat)
    | CompletingOp(op: nat, error: Option<Failure>)
      // complete() from within a probe, which then reports `ready` to its loop
    | CompletingThen(op: nat, thrown: Failure, ready: bool)
    | Ticket(op: nat)
    | WorkQueued(op: nat)
    | WorkRunning(op: nat)
    | Watching(op: nat)
    | Probing(op: nat)
      // callbacks
    | Registering(callback: Callback)
    | Notifying(callbacks: seq<Callback>)

  datatype State = State(exec: Execution, body: Body, frame: Frame, result: ResultCell, stopFlag: bool,
                         ops: seq<Op>, calls: seq<Call>,
                         resumed: seq<Option<nat>>,  // every frame.resume(): None for the start, else the operation answered
                         ran: seq<Callback>,         // every callback run so far
                         issued: seq<Callback>)      // every callback handed to onReady so far

  /** Steps of resume() and the body. */
  datatype FrameStep =
    | EnterResume(c: nat)
    | Continue(c: nat)
    | Suspend(c: nat, kind: Kind)
    | Return(c: nat, outcome: Outcome)
    | SettleBody(c: nat)
    | Leave(c: nat)
    | DestroyFrame(c: nat)
    | Finish(c: nat)
    | CompleteExecution(c: nat)

  /** Steps around an operation. */
  datatype WaitStep =
    | Arm(c: nat)
    | Wire(c: nat, accepted: bool)
    | Cancel(c: nat)
    | SignalEvent(op: nat)
    | CompleteOperation(c: nat)
    | CompleteInProbe(c: nat)
    | RunTicket(c: nat)
    | DropTicket(c: nat)

  /** Steps of a worker or a probe. */
  datatype WorkStep =
    | BeginWork(c: nat)
    | DropWork(c: nat)
    | EndWork(c: nat, error: Option<Failure>)
    | BeginProbe(c: nat)
    | EndProbe(c: nat, ready: bool)
    | ProbeThrows(c: nat, thrown: Failure)

  /** Steps of requestStop() and onReady(). */
  datatype RequestStep =
    | AskStop
    | StopState(c: nat)
    | FireStop(c: nat)
    | AskCallback(execution: bool)
    | RegisterCallback(c: nat)
    | RunCallback(c: nat)

  datatype Step = OfFrame(f: FrameStep) | OfWait(o: WaitStep) | OfWork(w: WorkStep) | OfRequest(q: RequestStep)

  /** A task at its first resume(), which spawning or awaiting it makes. */
  function Init(): State {
    State(Execution(false, false, false, false), Initial, Live, ResultCell(None, false, false, [], []), false,
          [], [Entering], [], [], [])
  }

  predicate Stopped(s: State) {
    s.stopFlag || s.result.cancellationRequested
  }

  function Target(k: Call): Option<nat> {
    match k
    case Arming(i) => Some(i)
    case Wiring(i) => Some(i)
    case Cancelling(i) => Some(i)
    case CompletingOp(i, _) => Some(i)
    case CompletingThen(i, _, _) => Some(i)
    case Ticket(i) => Some(i)
    case WorkQueued(i) => Some(i)
    case WorkRunning(i) => Some(i)
    case Watching(i) => Some(i)
    case Probing(i) => Some(i)
    case _ => None
  }

  predicate Knows(s: State, k: Call) {
    Target(k).Some? ==> Target(k).value < |s.ops|
  }

  /** The place of `step` in the source is where call `c` now is, and it names an operation that exists
      (TaskRuntime.IndicesAreValid: this last part never holds a call back). */
  predicate FrameEnabled(s: State, step: FrameStep) {
    match step
    case EnterResume(c) => c < |s.calls| && s.calls[c].Entering?
    case Continue(c) => c < |s.calls| && s.calls[c].LoopHead?
    case Suspend(c, _) => c < |s.calls| && s.calls[c].InBody?
    case Return(c, _) => c < |s.calls| && s.calls[c].InBody?
    case SettleBody(c) => c < |s.calls| && s.calls[c].Settling?
    case Leave(c) => c < |s.calls| && s.calls[c].Leaving?
    case DestroyFrame(c) => c < |s.calls| && s.calls[c].TearingDown?
    case Finish(c) => c < |s.calls| && s.calls[c].Finishing?
    case CompleteExecution(c) => c < |s.calls| && s.calls[c].Completing?
  }

  predicate WaitEnabled(s: State, step: WaitStep) {
    match step
    case Arm(c) => c < |s.calls| && s.calls[c].Arming? && Knows(s, s.calls[c])
    case Wire(c, _) => c < |s.calls| && s.calls[c].Wiring? && Knows(s, s.calls[c])
    case Cancel(c) => c < |s.calls| && s.calls[c].Cancelling? && Knows(s, s.calls[c])
    case SignalEvent(i) => i < |s.ops| && s.ops[i].wired && (s.ops[i].kind.Event? || !Cancellable(s.ops[i].kind))
    case CompleteOperation(c) => c < |s.calls| && s.calls[c].CompletingOp? && Knows(s, s.calls[c])
    case CompleteInProbe(c) => c < |s.calls| && s.calls[c].CompletingThen? && Knows(s, s.calls[c])
    case RunTicket(c) => c < |s.calls| && s.calls[c].Ticket? && Knows(s, s.calls[c])
    case DropTicket(c) => c < |s.calls| && s.calls[c].Ticket? && Knows(s, s.calls[c])
  }

  predicate WorkEnabled(s: State, step: WorkStep) {
    match step
    case BeginWork(c) => c < |s.calls| && s.calls[c].WorkQueued? && Knows(s, s.calls[c])
    case DropWork(c) => c < |s.calls| && s.calls[c].WorkQueued? && Knows(s, s.calls[c])
    case EndWork(c, _) => c < |s.calls| && s.calls[c].WorkRunning? && Knows(s, s.calls[c])
    case BeginProbe(c) => c < |s.calls| && s.calls[c].Watching? && Knows(s, s.calls[c])
    case EndProbe(c, _) => c < |s.calls| && s.calls[c].Probing? && Knows(s, s.calls[c])
    case ProbeThrows(c, _) => c < |s.calls| && s.calls[c].Probing? && Knows(s, s.calls[c])
  }

  predicate RequestEnabled(s: State, step: RequestStep) {
    match step
    case AskStop => true
    case StopState(c) => c < |s.calls| && s.calls[c].Stopping?
    case FireStop(c) => c < |s.calls| && s.calls[c].Flagging? && (s.body.Parked? ==> s.body.op < |s.ops|)
    case AskCallback(_) => true
    case RegisterCallback(c) => c < |s.calls| && s.calls[c].Registering?
    case RunCallback(c) => c < |s.calls| && s.calls[c].Notifying? && s.calls[c].callbacks != []
  }

  predicate Enabled(s: State, step: Step) {
    match step
    case OfFrame(f) => FrameEnabled(s, f)
    case OfWait(o) => WaitEnabled(s, o)
    case OfWork(w) => WorkEnabled(s, w)
    case OfRequest(q) => RequestEnabled(s, q)
  }

  /** Call `c` goes on as `k`, and `spawned` are the calls it makes. */
  function Become(s: State, c: nat, k: Call, spawned: seq<Call>): State
    requires c < |s.calls|
  {
    s.(calls := s.calls[c := k] + spawned)
  }

  /** Only call `c` (if there is one) moves, to `k`, and `spawned` join. */
  predicate Goes(s: State, t: State, c: nat, k: Call, spawned: seq<Call>) {
    t.calls == (if c < |s.calls| then s.calls[c := k] else s.calls) + spawned
  }

  function SetCore(s: State, i: nat, o: OpCore): State
    requires i < |s.ops|
  {
    s.(ops := s.ops[i := s.ops[i].(core := o)])
  }

  // ---------------------------------------------------------------- resume()

  function DoEnterResume(s: State, c: nat): State
    requires FrameEnabled(s, EnterResume(c))
  {
    var (e, entry) := TaskCore.EnterResume(s.exec);
    Become(s.(exec := e), c, if entry.Acquired? then LoopHead else Gone, [])
  }

  /** The frame is entered, unless a stop arrived before the body ever ran. */
  function DoContinue(s: State, c: nat): State
    requires FrameEnabled(s, Continue(c))
  {
    var (e, skip) := Start(s.exec, s.result.cancellationRequested);
    if skip then Become(s.(exec := e, body := Done), c, Leaving(true), [])
    else
      var answered := if s.body.Parked? then Some(s.body.op) else None;
      Become(s.(exec := e, body := Active, resumed := s.resumed + [answered]), c, InBody, [])
  }

  /** The body reaches a co_await that does not complete at once: a new operation. */
  function DoSuspend(s: State, c: nat, kind: Kind): State
    requires FrameEnabled(s, Suspend(c, kind))
  {
    var op := Op(OpCore(false, false, None), kind, Unset, false);
    Become(s.(ops := s.ops + [op], body := Parked(|s.ops|)), c, Arming(|s.ops|), [])
  }

  /** Construction of the stop callback, which fires at once when the stop came first. */
  function DoArm(s: State, c: nat): State
    requires WaitEnabled(s, Arm(c))
  {
    var i := s.calls[c].op;
    if !Cancellable(s.ops[i].kind) then Become(s, c, Wiring(i), [])
    else if s.stopFlag then Become(s.(ops := s.ops[i := s.ops[i].(hook := Fired)]), c, Wiring(i), [Cancelling(i)])
    else Become(s.(ops := s.ops[i := s.ops[i].(hook := Listening)]), c, Wiring(i), [])
  }

  /** Hand-over to what will complete the operation.  A pool that refuses the work destroys the work
      ticket, which completes the operation, and the awaiter then completes it once more. */
  function Sources(kind: Kind, i: nat, accepted: bool): seq<Call> {
    match kind
    case Work =>
      if accepted then [WorkQueued(i)]
      else [CompletingOp(i, Some(SchedulerRejected)), CompletingOp(i, Some(SchedulerRejected))]
    case Probe => [Watching(i)]
    case _ => []
  }

  function DoWire(s: State, c: nat, accepted: bool): State
    requires WaitEnabled(s, Wire(c, accepted))
  {
    var i := s.calls[c].op;
    Become(s.(ops := s.ops[i := s.ops[i].(wired := true)]), c, Leaving(false), Sources(s.ops[i].kind, i, accepted))
  }

  function DoReturn(s: State, c: nat, outcome: Outcome): State
    requires FrameEnabled(s, Return(c, outcome))
  {
    Become(s, c, Settling(outcome), [])
  }

  function DoSettleBody(s: State, c: nat): State
    requires FrameEnabled(s, SettleBody(c))
  {
    var (r, callbacks) := Settle(s.result, s.calls[c].outcome);
    Become(s.(result := r, body := Done), c, Leaving(true), [Notifying(callbacks)])
  }

  function DoLeave(s: State, c: nat): State
    requires FrameEnabled(s, Leave(c))
  {
    var (e, departure) := LeaveFrame(s.exec, s.calls[c].finished);
    match departure
    case Teardown => Become(s.(exec := e, frame := Detached), c, TearingDown, [])
    case Again => Become(s.(exec := e), c, LoopHead, [])
    case Released => Become(s.(exec := e), c, Gone, [])
  }

  function DoDestroyFrame(s: State, c: nat): State
    requires FrameEnabled(s, DestroyFrame(c))
  {
    Become(s.(frame := Destroyed), c, Finishing, [])
  }

  function DoFinish(s: State, c: nat): State
    requires FrameEnabled(s, Finish(c))
  {
    Become(s.(exec := FinishExecution(s.exec)), c, Completing, [])
  }

  function DoCompleteExecution(s: State, c: nat): State
    requires FrameEnabled(s, CompleteExecution(c))
  {
    var (r, callbacks) := Complete(s.result);
    Become(s.(result := r), c, Notifying(callbacks), [])
  }

  // ---------------------------------------------------------------- requestStop()

  function DoAskStop(s: State): State
    requires RequestEnabled(s, AskStop)
  {
    s.(calls := s.calls + [Stopping])
  }

  function DoStopState(s: State, c: nat): State
    requires RequestEnabled(s, StopState(c))
  {
    var (r, callbacks) := StopResult(s.result);
    Become(s.(result := r), c, Flagging, [Notifying(callbacks)])
  }

  /** stopSource.request_stop(): the first caller runs the stop callback of the current suspension. */
  function DoFireStop(s: State, c: nat): State
    requires RequestEnabled(s, FireStop(c))
  {
    if s.stopFlag then Become(s, c, Gone, [])
    else if s.body.Parked? && s.ops[s.body.op].hook.Listening? then
      var i := s.body.op;
      Become(s.(stopFlag := true, ops := s.ops[i := s.ops[i].(hook := Fired)]), c, Gone, [Cancelling(i)])
    else Become(s.(stopFlag := true), c, Gone, [])
  }

  // ---------------------------------------------------------------- operations

  function DoCancel(s: State, c: nat): State
    requires WaitEnabled(s, Cancel(c))
  {
    var i := s.calls[c].op;
    var (o, took) := CancelOp(s.ops[i].core);
    Become(SetCore(s, i, o), c, if took then Ticket(i) else Gone, [])
  }

  function DoSignalEvent(s: State, i: nat): State
    requires WaitEnabled(s, SignalEvent(i))
  {
    s.(calls := s.calls + [CompletingOp(i, None)])
  }

  function DoCompleteOperation(s: State, c: nat): State
    requires WaitEnabled(s, CompleteOperation(c))
  {
    var i := s.calls[c].op;
    var (o, took) := CompleteOp(s.ops[i].core, s.calls[c].error);
    Become(SetCore(s, i, o), c, if took then Ticket(i) else Gone, [])
  }

  /** What a probe that has returned to its loop goes on as: a ready condition is dropped and completes the
      operation, any other is watched on. */
  function Reported(i: nat, ready: bool): Call {
    if ready then CompletingOp(i, None) else Watching(i)
  }

  function DoCompleteInProbe(s: State, c: nat): State
    requires WaitEnabled(s, CompleteInProbe(c))
  {
    var i := s.calls[c].op;
    var (o, took) := CompleteOp(s.ops[i].core, Some(s.calls[c].thrown));
    Become(SetCore(s, i, o), c, Reported(i, s.calls[c].ready), if took then [Ticket(i)] else [])
  }

  function DoRunTicket(s: State, c: nat): State
    requires WaitEnabled(s, RunTicket(c))
  {
    Become(s, c, Entering, [])
  }

  /** A resume ticket that is dropped leaves scheduler_rejected behind and resumes all the same. */
  function DoDropTicket(s: State, c: nat): State
    requires WaitEnabled(s, DropTicket(c))
  {
    var i := s.calls[c].op;
    Become(SetCore(s, i, RejectOp(s.ops[i].core)), c, Entering, [])
  }

  function DoBeginWork(s: State, c: nat): State
    requires WorkEnabled(s, BeginWork(c))
  {
    var i := s.calls[c].op;
    var (o, ok) := BeginWorkOp(s.ops[i].core, Stopped(s));
    Become(SetCore(s, i, o), c, if ok then WorkRunning(i) else Gone, [])
  }

  /** A pool that destroys accepted work unrun completes the operation as rejected. */
  function DoDropWork(s: State, c: nat): State
    requires WorkEnabled(s, DropWork(c))
  {
    Become(s, c, CompletingOp(s.calls[c].op, Some(SchedulerRejected)), [])
  }

  function DoEndWork(s: State, c: nat, error: Option<Failure>): State
    requires WorkEnabled(s, EndWork(c, error))
  {
    Become(s, c, CompletingOp(s.calls[c].op, error), [])
  }

  /** A refused probe reports true, upon which the loop drops the condition and completes the operation. */
  function DoBeginProbe(s: State, c: nat): State
    requires WorkEnabled(s, BeginProbe(c))
  {
    var i := s.calls[c].op;
    var (o, ok) := BeginWorkOp(s.ops[i].core, Stopped(s));
    Become(SetCore(s, i, o), c, if ok then Probing(i) else CompletingOp(i, None), [])
  }

  /** endProbe() completes the operation as cancelled if a stop has come meanwhile. */
  function DoEndProbe(s: State, c: nat, ready: bool): State
    requires WorkEnabled(s, EndProbe(c, ready))
  {
    var i := s.calls[c].op;
    Become(SetCore(s, i, EndProbeOp(s.ops[i].core)), c,
           if Stopped(s) then CompletingThen(i, TaskCancelled, ready) else Reported(i, ready), [])
  }

  function DoProbeThrows(s: State, c: nat, thrown: Failure): State
    requires WorkEnabled(s, ProbeThrows(c, thrown))
  {
    Become(s, c, CompletingThen(s.calls[c].op, thrown, true), [])
  }

  // ---------------------------------------------------------------- callbacks

  function DoAskCallback(s: State, execution: bool): State
    requires RequestEnabled(s, AskCallback(execution))
  {
    var callback := Callback(|s.issued|, execution);
    s.(calls := s.calls + [Registering(callback)], issued := s.issued + [callback])
  }

  function DoRegisterCallback(s: State, c: nat): State
    requires RequestEnabled(s, RegisterCallback(c))
  {
    var (r, runNow) := Register(s.result, s.calls[c].callback);
    Become(s.(result := r), c, Notifying(runNow), [])
  }

  function DoRunCallback(s: State, c: nat): State
    requires RequestEnabled(s, RunCallback(c))
  {
    var callbacks := s.calls[c].callbacks;
    Become(s.(ran := s.ran + [callbacks[0]]), c, Notifying(callbacks[1..]), [])
  }

  function FrameApply(s: State, step: FrameStep): State
    requires FrameEnabled(s, step)
  {
    match step
    case EnterResume(c) => DoEnterResume(s, c)
    case Continue(c) => DoContinue(s, c)
    case Suspend(c, kind) => DoSuspend(s, c, kind)
    case Return(c, outcome) => DoReturn(s, c, outcome)
    case SettleBody(c) => DoSettleBody(s, c)
    case Leave(c) => DoLeave(s, c)
    case DestroyFrame(c) => DoDestroyFrame(s, c)
    case Finish(c) => DoFinish(s, c)
    case CompleteExecution(c) => DoCompleteExecution(s, c)
  }

  function WaitApply(s: State, step: WaitStep): State
    requires WaitEnabled(s, step)
  {
    match step
    case Arm(c) => DoArm(s, c)
    case Wire(c, accepted) => DoWire(s, c, accepted)
    case Cancel(c) => DoCancel(s, c)
    case SignalEvent(i) => DoSignalEvent(s, i)
    case CompleteOperation(c) => DoCompleteOperation(s, c)
    case CompleteInProbe(c) => DoCompleteInProbe(s, c)
    case RunTicket(c) => DoRunTicket(s, c)
    case DropTicket(c) => DoDropTicket(s, c)
  }

  function WorkApply(s: State, step: WorkStep): State
    requires WorkEnabled(s, step)
  {
    match step
    case BeginWork(c) => DoBeginWork(s, c)
    case DropWork(c) => DoDropWork(s, c)
    case EndWork(c, error) => DoEndWork(s, c, error)
    case BeginProbe(c) => DoBeginProbe(s, c)
    case EndProbe(c, ready) => DoEndProbe(s, c, ready)
    case ProbeThrows(c, thrown) => DoProbeThrows(s, c, thrown)
  }

  function RequestApply(s: State, step: RequestStep): State
    requires RequestEnabled(s, step)
  {
    match step
    case AskStop => DoAskStop(s)
    case StopState(c) => DoStopState(s, c)
    case FireStop(c) => DoFireStop(s, c)
    case AskCallback(execution) => DoAskCallback(s, execution)
    case RegisterCallback(c) => DoRegisterCallback(s, c)
    case RunCallback(c) => DoRunCallback(s, c)
  }

  function Apply(s: State, step: Step): State
    requires Enabled(s, step)
  {
    match step
    case OfFrame(f) => FrameApply(s, f)
    case OfWait(o) => WaitApply(s, o)
    case OfWork(w) => WorkApply(s, w)
    case OfRequest(q) => RequestApply(s, q)
  }
}
