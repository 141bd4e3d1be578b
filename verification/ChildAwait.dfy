/** A body that awaits a child task of its own: co_await on a task.

    The child has been given away to the await, so nobody else starts or stops it.  await_suspend registers
    for the end of the child's execution, constructs the parent's stop callback, which stops the child, and
    starts the child.  Requests to stop the parent, the child, the callbacks and the scheduler are
    interleaved with it, one lock section at a time; they may have come before the await began.  No guard
    of the parent's asks whether the child has completed. */
module ChildAwait {
  import opened TaskCore

  /** The completion callback that await_suspend hands to the child. */
  const NOTICE: Callback := Callback(0, true)

  /** What the await does in the end: throw by itself, give the child's value, throw the child's error, or wait
      in get() for a child that has not settled. */
  datatype Ending = Threw(failure: Failure) | Gave(value: int) | Rethrew(failure: Failure) | Stuck

  /** Where the parent is: in await_suspend, in its own stop callback, suspended, or past await_resume. */
  datatype Parent = Registering | Constructing | InCallback | Starting | Suspended | Ended(ending: Ending)

  datatype Hook = Unset | Listening | Fired

  datatype Ticket = NotIssued | Issued | Used

  /** The child's execution; what its body suspends on is of no concern here. */
  datatype Phase = Unstarted | AtHead | Running | TearingDown | Finished

  /** `stopping` and `flag` are the two parts of a stop of the parent; `flagging` counts the requestStop calls
      between them.  `childStops` counts the stop callbacks about to stop the child, and `notices` the
      completion callbacks taken out to be run. */
  datatype State = State(parent: Parent, stopping: bool, flag: bool, flagging: nat, hook: Hook, childStops: nat,
                         exec: Execution, phase: Phase, entered: bool, result: ResultCell,
                         notices: nat, op: OpCore, ticket: Ticket)

  datatype Step =
    | Register
    | Construct
    | StopInline
    | StartChild
    | Resume
    | StopParent
    | FireStop
    | StopChild
    | EnterChild
    | SettleChild(outcome: Outcome)
    | FinishChild
    | RunNotice
    | RunTicket
    | DropTicket

  /** An await may begin at any moment of any number of requests to stop the parent. */
  predicate Plausible(stopping: bool, flag: bool, flagging: nat) {
    (flag || flagging > 0 ==> stopping) && (stopping ==> flag || flagging > 0)
  }

  function Init(stopping: bool, flag: bool, flagging: nat): State {
    State(Registering, stopping, flag, flagging, Unset, 0,
          Execution(false, false, false, false), Unstarted, false, ResultCell(None, false, false, [], []),
          0, OpCore(false, false, None), NotIssued)
  }

  predicate Enabled(s: State, step: Step) {
    match step
    case Register => s.parent.Registering?
    case Construct => s.parent.Constructing?
    case StopInline => s.parent.InCallback?
    case StartChild => s.parent.Starting?
    case Resume => s.parent.Suspended? && s.ticket.Used?
    case StopParent => true
    case FireStop => s.flagging > 0
    case StopChild => s.childStops > 0
    case EnterChild => s.phase.AtHead?
    case SettleChild(_) => s.phase.Running?
    case FinishChild => s.phase.TearingDown?
    case RunNotice => s.notices > 0
    case RunTicket => s.ticket.Issued?
    case DropTicket => s.ticket.Issued?
  }

  /** check(), and if it passes get() on the child */
  function AwaitResult(s: State): Ending {
    match Check(s.op, s.stopping)
    case Some(failure) => Threw(failure)
    case None =>
      match s.result.settled
      case Some(Value(value)) => Gave(value)
      case Some(Error(failure)) => Rethrew(failure)
      case None => Stuck
  }

  function Notices(callbacks: seq<Callback>): nat {
    if NOTICE in callbacks then 1 else 0
  }

  /** stopSource.request_stop(): the first caller runs the stop callback, if the await still has it. */
  function DoFireStop(s: State): State
    requires Enabled(s, FireStop)
  {
    var t := s.(flagging := s.flagging - 1, flag := true);
    if !s.flag && s.hook.Listening? && !s.parent.Ended? then t.(hook := Fired, childStops := s.childStops + 1) else t
  }

  function DoEnterChild(s: State): State
    requires Enabled(s, EnterChild)
  {
    var (e, skip) := Start(s.exec, s.result.cancellationRequested);
    s.(exec := e, phase := if skip then TearingDown else Running, entered := !skip)
  }

  function DoFinishChild(s: State): State
    requires Enabled(s, FinishChild)
  {
    var (r, callbacks) := Complete(s.result);
    s.(exec := FinishExecution(s.exec), phase := Finished, result := r, notices := s.notices + Notices(callbacks))
  }

  function DoRunNotice(s: State): State
    requires Enabled(s, RunNotice)
  {
    var (o, took) := CompleteOp(s.op, None);
    s.(notices := s.notices - 1, op := o, ticket := if took then Issued else s.ticket)
  }

  function DoRegister(s: State): State
    requires Enabled(s, Register)
  {
    var (r, now) := TaskCore.Register(s.result, NOTICE);
    s.(result := r, notices := s.notices + Notices(now), parent := Constructing)
  }

  function Apply(s: State, step: Step): State
    requires Enabled(s, step)
  {
    match step
    case Register => DoRegister(s)
    case Construct =>
      if s.flag then s.(hook := Fired, parent := InCallback) else s.(hook := Listening, parent := Starting)
    case StopInline => s.(result := StopResult(s.result).0, parent := Starting)
    case StartChild => s.(exec := EnterResume(s.exec).0, phase := AtHead, parent := Suspended)
    case Resume => s.(parent := Ended(AwaitResult(s)))
    case StopParent => s.(stopping := true, flagging := s.flagging + 1)
    case FireStop => DoFireStop(s)
    case StopChild => s.(result := StopResult(s.result).0, childStops := s.childStops - 1)
    case EnterChild => DoEnterChild(s)
    case SettleChild(outcome) => s.(result := Settle(s.result, outcome).0, phase := TearingDown)
    case FinishChild => DoFinishChild(s)
    case RunNotice => DoRunNotice(s)
    case RunTicket => s.(ticket := Used)
    case DropTicket => s.(ticket := Used, op := RejectOp(s.op))
  }

  /** The state after `steps` from s, if each of them was enabled in turn. */
  function Run(s: State, steps: seq<Step>): Option<State>
  {
    if steps == [] then Some(s)
    else
      match Run(s, steps[..|steps| - 1])
      case None => None
      case Some(t) =>
        var step := steps[|steps| - 1];
        if Enabled(t, step) then Some(Apply(t, step)) else None
  }

  // ---------------------------------------------------------------- what always holds

  predicate Suspending(s: State) {
    s.parent.Registering? || s.parent.Constructing? || s.parent.InCallback? || s.parent.Starting?
  }

  /** The child runs only after await_suspend has started it, and has settled before it is torn down. */
  predicate ChildOk(s: State) {
    && (Suspending(s) <==> s.phase.Unstarted?)
    && (s.phase.Unstarted? ==> s.exec == Execution(false, false, false, false))
    && (s.phase.AtHead? ==> !s.exec.started)
    && (s.phase.Unstarted? || s.phase.AtHead? ==> !s.entered)
    && (s.phase.Running? ==> s.entered)
    && (s.result.completed <==> s.phase.Finished?)
    && (s.phase.TearingDown? || s.phase.Finished? || s.result.cancellationRequested ==> s.result.settled.Some?)
    && (s.phase.Finished? <==> s.exec.executionFinished)
  }

  /** The end of the child's execution is noticed once: the callback is listed until then, then due, and its run
      is the claim. */
  predicate NoticeOk(s: State) {
    && s.result.completionCallbacks == (if s.parent.Registering? || s.result.completed then [] else [NOTICE])
    && s.notices + (if s.op.claimed then 1 else 0) == (if s.result.completed then 1 else 0)
    && (s.ticket.NotIssued? <==> !s.op.claimed)
    && (s.op.failure.Some? ==> s.op.failure.value == SchedulerRejected && s.ticket.Used?)
    && (s.parent.Ended? ==> s.ticket.Used?)
  }

  /** A stop of the parent has reached the child, or is on its way to it, and nothing else stops the child. */
  predicate StopOk(s: State) {
    && Plausible(s.stopping, s.flag, s.flagging)
    && (s.hook.Unset? <==> s.parent.Registering? || s.parent.Constructing?)
    && (s.hook.Listening? ==> !s.flag || s.parent.Ended?)
    && (s.hook.Fired? ==> s.flag && (s.parent.InCallback? || s.childStops > 0 || s.result.cancellationRequested))
    && (s.parent.InCallback? ==> s.hook.Fired?)
    && (s.childStops > 0 || s.result.cancellationRequested ==> s.stopping)
  }

  /** What the await gave is what it had to give. */
  predicate EndingOk(s: State) {
    s.parent.Ended? ==>
      match s.parent.ending
      case Threw(failure) =>
        if s.op.failure.Some? then failure == SchedulerRejected else failure == TaskCancelled && s.stopping
      case Gave(value) => s.op.failure.None? && s.result.settled == Some(Value(value))
      case Rethrew(failure) => s.op.failure.None? && s.result.settled == Some(Error(failure))
      case Stuck => false
  }

  predicate Inv(s: State) {
    ChildOk(s) && NoticeOk(s) && StopOk(s) && EndingOk(s)
  }

  lemma StepKeepsChild(s: State, step: Step)
    requires ChildOk(s) && NoticeOk(s) && Enabled(s, step)
    ensures ChildOk(Apply(s, step))
  {
  }

  lemma StepKeepsNotice(s: State, step: Step)
    requires ChildOk(s) && NoticeOk(s) && Enabled(s, step)
    ensures NoticeOk(Apply(s, step))
  {
  }

  lemma StepKeepsStop(s: State, step: Step)
    requires ChildOk(s) && StopOk(s) && Enabled(s, step)
    ensures StopOk(Apply(s, step))
  {
  }

  lemma StepKeepsEnding(s: State, step: Step)
    requires Inv(s) && Enabled(s, step)
    ensures EndingOk(Apply(s, step))
  {
  }

  lemma StepKeepsInv(s: State, step: Step)
    requires Inv(s) && Enabled(s, step)
    ensures Inv(Apply(s, step))
  {
    StepKeepsChild(s, step);
    StepKeepsNotice(s, step);
    StepKeepsStop(s, step);
    StepKeepsEnding(s, step);
  }

  /** s is reachable from an await that began with the parent in this state. */
  predicate Reaches(stopping: bool, flag: bool, flagging: nat, steps: seq<Step>, s: State) {
    Plausible(stopping, flag, flagging) && Run(Init(stopping, flag, flagging), steps) == Some(s)
  }

  lemma {:induction false} RunKeepsInv(stopping: bool, flag: bool, flagging: nat, steps: seq<Step>, s: State)
    requires Reaches(stopping, flag, flagging, steps, s)
    ensures Inv(s)
  {
    if steps != [] {
      var before := Run(Init(stopping, flag, flagging), steps[..|steps| - 1]).value;
      RunKeepsInv(stopping, flag, flagging, steps[..|steps| - 1], before);
      StepKeepsInv(before, steps[|steps| - 1]);
    }
  }

  // ---------------------------------------------------------------- theorems

  /** The parent goes on only after the child has finished executing; until then its operation is unclaimed, and
      afterwards it is claimed once. */
  lemma AwaitEndsByCompletion(stopping: bool, flag: bool, flagging: nat, steps: seq<Step>, s: State)
    requires Reaches(stopping, flag, flagging, steps, s)
    ensures s.parent.Ended? || s.ticket.Used? ==> s.result.completed && s.exec.executionFinished
    ensures !s.result.completed ==> !s.op.claimed && s.notices == 0 && s.ticket.NotIssued?
    ensures s.result.completed ==> s.op.claimed || s.notices == 1
  {
    RunKeepsInv(stopping, flag, flagging, steps, s);
  }

  /** Who will see to it that a stop of the parent reaches the child. */
  predicate StopIsComing(s: State) {
    || s.parent.Registering? || s.parent.Constructing?  // the stop callback is yet to be constructed
    || s.parent.InCallback?                             // and runs at once
    || (!s.flag && s.flagging > 0)                      // a requester has yet to run it
    || s.childStops > 0                                 // it has begun to run
  }

  /** A stop of the parent always reaches the child it awaits, whether it came before, during or after the
      construction of the stop callback: in every state it has done so, or somebody is about to see to it. */
  lemma StopReachesChild(stopping: bool, flag: bool, flagging: nat, steps: seq<Step>, s: State)
    requires Reaches(stopping, flag, flagging, steps, s) && s.stopping && !s.parent.Ended?
    ensures s.result.cancellationRequested || StopIsComing(s)
  {
    RunKeepsInv(stopping, flag, flagging, steps, s);
  }

  /** So once no request is under way, a stopped parent that is suspended has a stopped child. */
  lemma StopHasReachedChild(stopping: bool, flag: bool, flagging: nat, steps: seq<Step>, s: State)
    requires Reaches(stopping, flag, flagging, steps, s) && s.stopping && s.parent.Suspended?
    requires s.flagging == 0 && s.childStops == 0
    ensures s.result.cancellationRequested && s.result.settled.Some?
  {
    StopReachesChild(stopping, flag, flagging, steps, s);
    RunKeepsInv(stopping, flag, flagging, steps, s);
  }

  /** Only a stop of the parent stops the child. */
  lemma ChildIsStoppedByParent(stopping: bool, flag: bool, flagging: nat, steps: seq<Step>, s: State)
    requires Reaches(stopping, flag, flagging, steps, s) && s.result.cancellationRequested
    ensures s.stopping
  {
    RunKeepsInv(stopping, flag, flagging, steps, s);
  }

  /** If the parent had been stopped before, the child is stopped before it is started, and its body never runs. */
  predicate NeverEntered(s: State) {
    s.flag && !s.entered && !s.hook.Listening? && !s.phase.Running?
    && (s.parent.Starting? || !Suspending(s) ==> s.result.cancellationRequested)
  }

  lemma StepKeepsNeverEntered(s: State, step: Step)
    requires ChildOk(s) && NeverEntered(s) && Enabled(s, step)
    ensures NeverEntered(Apply(s, step))
  {
  }

  lemma {:induction false} StoppedParentStartsNoBody(stopping: bool, flagging: nat, steps: seq<Step>, s: State)
    requires Reaches(stopping, true, flagging, steps, s)
    ensures NeverEntered(s)
    ensures s.parent.Ended? ==> s.parent.ending.Threw?
  {
    if steps != [] {
      var before := Run(Init(stopping, true, flagging), steps[..|steps| - 1]).value;
      StoppedParentStartsNoBody(stopping, flagging, steps[..|steps| - 1], before);
      RunKeepsInv(stopping, true, flagging, steps[..|steps| - 1], before);
      StepKeepsNeverEntered(before, steps[|steps| - 1]);
    }
  }

  /** What the await does.  If the scheduler dropped the ticket, it throws scheduler_rejected.  Otherwise it throws
      task_cancelled if the parent had been stopped by then, even though the child has a value.  Otherwise the child
      had not been stopped, and it gives the child's value or throws the child's error; it never blocks. */
  lemma WhatTheAwaitDoes(stopping: bool, flag: bool, flagging: nat, steps: seq<Step>, s: State, step: Step)
    requires Reaches(stopping, flag, flagging, steps, s)
    requires Enabled(s, step) && Apply(s, step).parent.Ended? && !s.parent.Ended?
    ensures
      var ending := Apply(s, step).parent.ending;
      if s.op.failure.Some? then ending == Threw(SchedulerRejected)
      else if s.stopping then ending == Threw(TaskCancelled)
      else
        && s.result.completed && s.entered && !s.result.cancellationRequested
        && match s.result.settled
           case Some(Value(value)) => ending == Gave(value)
           case Some(Error(failure)) => ending == Rethrew(failure)
           case None => false
  {
    RunKeepsInv(stopping, flag, flagging, steps, s);
    RunKeepsEntered(stopping, flag, flagging, steps, s);
  }

  /** A child that settles without a stop has run its body. */
  predicate OwnResult(s: State) {
    s.result.settled.Some? && !s.result.cancellationRequested ==> s.entered
  }

  lemma {:induction false} RunKeepsEntered(stopping: bool, flag: bool, flagging: nat, steps: seq<Step>, s: State)
    requires Reaches(stopping, flag, flagging, steps, s)
    ensures OwnResult(s)
  {
    if steps != [] {
      var before := Run(Init(stopping, flag, flagging), steps[..|steps| - 1]).value;
      RunKeepsEntered(stopping, flag, flagging, steps[..|steps| - 1], before);
      RunKeepsInv(stopping, flag, flagging, steps[..|steps| - 1], before);
    }
  }

  /** Once the child has finished, the await can always go on. */
  lemma NothingIsStuck(stopping: bool, flag: bool, flagging: nat, steps: seq<Step>, s: State) returns (step: Step)
    requires Reaches(stopping, flag, flagging, steps, s) && !s.parent.Ended?
    requires !s.phase.Running?
    ensures Enabled(s, step) && !step.StopParent?
  {
    RunKeepsInv(stopping, flag, flagging, steps, s);
    step := match s.parent
      case Registering => Register
      case Constructing => Construct
      case InCallback => StopInline
      case Starting => StartChild
      case _ =>
        if s.phase.AtHead? then EnterChild
        else if s.phase.TearingDown? then FinishChild
        else if s.notices > 0 then RunNotice
        else if s.ticket.Issued? then RunTicket
        else Resume;
  }

  // ---------------------------------------------------------------- origins

  lemma StepStops(s: State, step: Step)
    requires Enabled(s, step)
    ensures Apply(s, step).stopping == (s.stopping || step.StopParent?)
  {
  }

  /** The parent has been stopped exactly if it had been before the await, or has been asked to since. */
  lemma {:induction false} StoppingIsAsked(stopping: bool, flag: bool, flagging: nat, steps: seq<Step>, s: State)
    requires Reaches(stopping, flag, flagging, steps, s)
    ensures s.stopping <==> stopping || exists n :: 0 <= n < |steps| && steps[n].StopParent?
  {
    if steps != [] {
      var last := |steps| - 1;
      var before := Run(Init(stopping, flag, flagging), steps[..last]).value;
      StoppingIsAsked(stopping, flag, flagging, steps[..last], before);
      StepStops(before, steps[last]);
      if n :| 0 <= n < last && steps[..last][n].StopParent? {
        assert steps[n].StopParent?;
      }
      if n :| 0 <= n < |steps| && steps[n].StopParent? {
        assert n < last ==> steps[..last][n].StopParent?;
      }
    }
  }

  /** The n-th step is the child's body settling so. */
  predicate SettlesSo(steps: seq<Step>, n: nat, o: Outcome) {
    n < |steps| && steps[n] == SettleChild(o)
  }

  lemma SettledAfter(s: State, step: Step)
    requires Enabled(s, step) && s.result.settled.None? && Apply(s, step).result.settled.Some?
    ensures step == SettleChild(Apply(s, step).result.settled.value)
         || (Apply(s, step).result.cancellationRequested && Apply(s, step).result.settled == Some(Error(TaskCancelled)))
  {
  }

  lemma SettledStays(s: State, step: Step)
    requires Enabled(s, step) && s.result.settled.Some?
    ensures Apply(s, step).result.settled == s.result.settled
    ensures s.result.cancellationRequested ==> Apply(s, step).result.cancellationRequested
  {
  }

  /** The child's result is what its body settled with, or the cancellation by a stop. */
  lemma {:induction false} ChildResultHasOrigin(stopping: bool, flag: bool, flagging: nat, steps: seq<Step>, s: State,
                                                o: Outcome)
    requires Reaches(stopping, flag, flagging, steps, s) && s.result.settled == Some(o)
    ensures (exists n: nat :: SettlesSo(steps, n, o)) || (o == Error(TaskCancelled) && s.result.cancellationRequested)
  {
    if steps != [] {
      var last := |steps| - 1;
      var before := Run(Init(stopping, flag, flagging), steps[..last]).value;
      if before.result.settled.Some? {
        SettledStays(before, steps[last]);
        ChildResultHasOrigin(stopping, flag, flagging, steps[..last], before, o);
        if n: nat :| SettlesSo(steps[..last], n, o) {
          assert SettlesSo(steps, n, o);
        }
      } else {
        SettledAfter(before, steps[last]);
        assert steps[last] == SettleChild(o) ==> SettlesSo(steps, last, o);
      }
    }
  }
}
