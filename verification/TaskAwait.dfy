/** What a suspended body is told when it goes on: await_resume throws the recorded failure, or returns. */
module TaskAwait {
  import opened TaskCore
  import opened TaskMachine
  import opened TaskExecution
  import opened TaskRuntime

  /** What await_resume throws for operation i before it looks at the awaited result, if anything.  waitFinished
      looks at the failure alone, all others, an awaited child included, at a stop request as well. */
  function Received(s: State, i: nat): Option<Failure>
    requires i < |s.ops|
  {
    if s.ops[i].kind.Join? then s.ops[i].core.failure else Check(s.ops[i].core, Stopped(s))
  }

  /** The step claims operation i, with this failure. */
  predicate Claims(s: State, step: Step, i: nat, failure: Option<Failure>) {
    && Enabled(s, step) && step.OfWait? && i < |s.ops| && !s.ops[i].core.claimed
    && match step.o
       case Cancel(c) => s.calls[c] == Cancelling(i) && failure == Some(TaskCancelled) && !s.ops[i].core.executing
       case CompleteOperation(c) => s.calls[c] == CompletingOp(i, failure)
       case CompleteInProbe(c) => s.calls[c].CompletingThen? && s.calls[c].op == i && failure == Some(s.calls[c].thrown)
       case _ => false
  }

  /** The step drops the resume ticket of operation i. */
  predicate Drops(s: State, step: Step, i: nat) {
    step.OfWait? && step.o.DropTicket? && Enabled(s, step) && s.calls[step.o.c] == Ticket(i)
  }

  predicate ClaimedAt(steps: seq<Step>, n: nat, i: nat, failure: Option<Failure>) {
    n < |steps| && Run(steps[..n]).Some? && Claims(Run(steps[..n]).value, steps[n], i, failure)
  }

  predicate DroppedAt(steps: seq<Step>, n: nat, i: nat) {
    n < |steps| && Run(steps[..n]).Some? && Drops(Run(steps[..n]).value, steps[n], i)
  }

  predicate IsClaimed(s: State, i: nat) {
    i < |s.ops| && s.ops[i].core.claimed
  }

  lemma FrameClaimsNothing(s: State, f: FrameStep, i: nat)
    requires FrameEnabled(s, f) && IsClaimed(FrameApply(s, f), i)
    ensures IsClaimed(s, i)
  {
  }

  lemma WorkClaimsNothing(s: State, w: WorkStep, i: nat)
    requires WorkEnabled(s, w) && IsClaimed(WorkApply(s, w), i)
    ensures IsClaimed(s, i)
  {
  }

  lemma RequestClaimsNothing(s: State, q: RequestStep, i: nat)
    requires RequestEnabled(s, q) && IsClaimed(RequestApply(s, q), i)
    ensures IsClaimed(s, i)
  {
  }

  lemma WaitClaims(s: State, o: WaitStep, i: nat)
    requires WaitEnabled(s, o) && IsClaimed(WaitApply(s, o), i) && !IsClaimed(s, i)
    ensures Claims(s, OfWait(o), i, WaitApply(s, o).ops[i].core.failure)
  {
  }

  /** Only complete() and cancel() claim. */
  lemma NewClaim(s: State, step: Step, i: nat)
    requires Enabled(s, step) && IsClaimed(Apply(s, step), i) && !IsClaimed(s, i)
    ensures Claims(s, step, i, Apply(s, step).ops[i].core.failure)
  {
    match step {
      case OfFrame(f) => FrameClaimsNothing(s, f, i);
      case OfWait(o) => WaitClaims(s, o, i);
      case OfWork(w) => WorkClaimsNothing(s, w, i);
      case OfRequest(q) => RequestClaimsNothing(s, q, i);
    }
  }

  lemma EarlierStays(steps: seq<Step>, n: nat, i: nat, failure: Option<Failure>)
    requires steps != []
    ensures ClaimedAt(steps[..|steps| - 1], n, i, failure) ==> ClaimedAt(steps, n, i, failure)
    ensures DroppedAt(steps[..|steps| - 1], n, i) ==> DroppedAt(steps, n, i)
  {
    if n < |steps| - 1 {
      assert steps[..|steps| - 1][..n] == steps[..n];
    }
  }

  lemma ClaimStays(s: State, step: Step, i: nat)
    requires Enabled(s, step) && IsClaimed(s, i)
    ensures IsClaimed(Apply(s, step), i)
    ensures Drops(s, step, i) ==> Apply(s, step).ops[i].core.failure == Some(SchedulerRejected)
    ensures !Drops(s, step, i) ==> Apply(s, step).ops[i].core.failure == s.ops[i].core.failure
  {
    ClaimIsFinal(s, step, i);
  }

  /** A claimed operation was claimed by one call, of complete() or cancel(); the failure it holds is that call's,
      unless its resume ticket has been dropped since. */
  lemma {:induction false} ClaimHasOrigin(steps: seq<Step>, i: nat)
    returns (n: nat, failure: Option<Failure>, drop: Option<nat>)
    requires Run(steps).Some? && IsClaimed(Run(steps).value, i)
    ensures ClaimedAt(steps, n, i, failure)
    ensures drop.Some? ==> n < drop.value && DroppedAt(steps, drop.value, i)
    ensures Run(steps).value.ops[i].core.failure == if drop.Some? then Some(SchedulerRejected) else failure
  {
    var last := |steps| - 1;
    var before, step := steps[..last], steps[last];
    var s := Run(before).value;
    if IsClaimed(s, i) {
      n, failure, drop := ClaimHasOrigin(before, i);
      EarlierStays(steps, n, i, failure);
      ClaimStays(s, step, i);
      if Drops(s, step, i) {
        drop := Some(last);
      } else if drop.Some? {
        EarlierStays(steps, drop.value, i, failure);
      }
    } else {
      NewClaim(s, step, i);
      n, failure, drop := last, Run(steps).value.ops[i].core.failure, None;
    }
  }

  /** What the body is told.  Its operation was claimed once.  If the scheduler dropped the resume ticket it is told
      scheduler_rejected; otherwise what complete() or cancel() recorded, and if that is nothing, task_cancelled in
      case a stop has been requested, except by waitFinished.  If it is told nothing, what it waited for completed
      the operation and the scheduler ran the ticket; an await of a task then goes on to give the task's value or
      to throw its error (ChildAwait). */
  lemma WhatTheBodyIsTold(steps: seq<Step>, i: nat)
    returns (n: nat, failure: Option<Failure>, drop: Option<nat>)
    requires Run(steps).Some? && IsClaimed(Run(steps).value, i)
    ensures ClaimedAt(steps, n, i, failure)
    ensures drop.Some? ==> n < drop.value && DroppedAt(steps, drop.value, i)
    ensures
      var s := Run(steps).value;
      Received(s, i) == if drop.Some? then Some(SchedulerRejected)
                        else if failure.Some? then failure
                        else if s.result.cancellationRequested && !s.ops[i].kind.Join? then Some(TaskCancelled)
                        else None
  {
    n, failure, drop := ClaimHasOrigin(steps, i);
    StoppingIsRequested(steps);
  }

  /** Once the frame has been resumed for an operation, what the operation recorded does not change any more. */
  lemma AnsweredIsFinal(steps: seq<Step>, step: Step, i: nat)
    requires Run(steps).Some? && Enabled(Run(steps).value, step)
    requires i + 1 < |Run(steps).value.resumed|
    ensures
      var s := Run(steps).value;
      i < |s.ops| && IsClaimed(s, i) && IsClaimed(Apply(s, step), i)
      && Apply(s, step).ops[i].core.failure == s.ops[i].core.failure
  {
    var s := Run(steps).value;
    var w := RunKeepsInv(steps, Callback(0, false));
    AnsweredIsPast(s, i);
    ClaimStays(s, step, i);
    DropsOnlyWhileWaiting(s, step, i);
  }

  lemma DropsOnlyWhileWaiting(s: State, step: Step, i: nat)
    requires AllFit(s)
    ensures Drops(s, step, i) ==> s.body == Parked(i)
  {
    if Drops(s, step, i) {
      assert Fits(s, s.calls[step.o.c]);
    }
  }

  lemma AnsweredIsPast(s: State, i: nat)
    requires Answered(s) && PastClaimed(s) && i + 1 < |s.resumed|
    ensures IsClaimed(s, i) && s.body != Parked(i)
  {
  }
}
