/** What every run of a task guarantees, whatever order its steps come in. */
module TaskRuntime {
  import opened TaskCore
  import opened TaskMachine
  import opened TaskExecution
  import opened TaskStop
  import opened TaskResults

  /** The state after `steps`, if each of them was enabled in turn. */
  function Run(steps: seq<Step>): Option<State>
  {
    if steps == [] then Some(Init())
    else
      match Run(steps[..|steps| - 1])
      case None => None
      case Some(s) =>
        var step := steps[|steps| - 1];
        if Enabled(s, step) then Some(Apply(s, step)) else None
  }

  // ---------------------------------------------------------------- two more facts about every step

  /** Once execution has finished, completeExecution has run or a call is about to run it. */
  predicate Concluding(s: State, completer: nat) {
    s.exec.executionFinished ==> s.result.completed || Holds(s, completer, Completing)
  }

  lemma FrameKeepsConcluding(s: State, f: FrameStep, completer: nat)
    requires Concluding(s, completer) && FrameEnabled(s, f)
    ensures Concluding(FrameApply(s, f), if f.Finish? then f.c else completer)
  {
  }

  lemma WaitKeepsConcluding(s: State, o: WaitStep, completer: nat)
    requires Concluding(s, completer) && WaitEnabled(s, o)
    ensures Concluding(WaitApply(s, o), completer)
  {
  }

  lemma WorkKeepsConcluding(s: State, w: WorkStep, completer: nat)
    requires Concluding(s, completer) && WorkEnabled(s, w)
    ensures Concluding(WorkApply(s, w), completer)
  {
  }

  lemma RequestKeepsConcluding(s: State, q: RequestStep, completer: nat)
    requires Concluding(s, completer) && RequestEnabled(s, q)
    ensures Concluding(RequestApply(s, q), completer)
  {
  }

  lemma StepKeepsConcluding(s: State, step: Step, completer: nat) returns (completer': nat)
    requires Concluding(s, completer) && Enabled(s, step)
    ensures Concluding(Apply(s, step), completer')
  {
    completer' := completer;
    match step {
      case OfFrame(f) =>
        FrameKeepsConcluding(s, f, completer);
        completer' := if f.Finish? then f.c else completer;
      case OfWait(o) => WaitKeepsConcluding(s, o, completer);
      case OfWork(w) => WorkKeepsConcluding(s, w, completer);
      case OfRequest(q) => RequestKeepsConcluding(s, q, completer);
    }
  }

  predicate Numbered(s: State) {
    forall i :: 0 <= i < |s.issued| ==> s.issued[i].id == i
  }

  lemma StepKeepsNumbers(s: State, step: Step)
    requires Numbered(s) && Enabled(s, step)
    ensures Numbered(Apply(s, step))
  {
  }

  /** A result, once settled, never changes; stop requests and completion are never taken back; and
      callbacks that have run stay run. */
  lemma NothingIsUndone(s: State, step: Step)
    requires Enabled(s, step)
    ensures Later(s.result, Apply(s, step).result)
    ensures s.ran <= Apply(s, step).ran
  {
    match step {
      case OfFrame(f) =>
      case OfWait(o) => WaitLeavesResult(s, o);
      case OfWork(w) => WorkLeavesResult(s, w);
      case OfRequest(q) =>
    }
  }

  lemma WaitLeavesResult(s: State, o: WaitStep)
    requires WaitEnabled(s, o)
    ensures WaitApply(s, o).result == s.result && WaitApply(s, o).ran == s.ran
  {
  }

  lemma WorkLeavesResult(s: State, w: WorkStep)
    requires WorkEnabled(s, w)
    ensures WorkApply(s, w).result == s.result && WorkApply(s, w).ran == s.ran
  {
  }

  predicate ClaimKept(before: OpCore, t: State, i: nat, dropped: bool) {
    && i < |t.ops| && t.ops[i].core.claimed
    && (t.ops[i].core.failure == before.failure || (dropped && t.ops[i].core.failure == Some(SchedulerRejected)))
  }

  lemma FrameKeepsClaim(s: State, f: FrameStep, i: nat)
    requires FrameEnabled(s, f) && i < |s.ops| && s.ops[i].core.claimed
    ensures ClaimKept(s.ops[i].core, FrameApply(s, f), i, false)
  {
  }

  lemma WaitKeepsClaim(s: State, o: WaitStep, i: nat)
    requires WaitEnabled(s, o) && i < |s.ops| && s.ops[i].core.claimed
    ensures ClaimKept(s.ops[i].core, WaitApply(s, o), i, o.DropTicket? && s.calls[o.c] == Ticket(i))
  {
  }

  lemma WorkKeepsClaim(s: State, w: WorkStep, i: nat)
    requires WorkEnabled(s, w) && i < |s.ops| && s.ops[i].core.claimed
    ensures ClaimKept(s.ops[i].core, WorkApply(s, w), i, false)
  {
  }

  lemma RequestKeepsClaim(s: State, q: RequestStep, i: nat)
    requires RequestEnabled(s, q) && i < |s.ops| && s.ops[i].core.claimed
    ensures ClaimKept(s.ops[i].core, RequestApply(s, q), i, false)
  {
  }

  /** A claim is final, and what await_resume will report changes after it only if the resume ticket is
      dropped, in which case it becomes scheduler_rejected. */
  lemma ClaimIsFinal(s: State, step: Step, i: nat)
    requires Enabled(s, step) && i < |s.ops| && s.ops[i].core.claimed
    ensures ClaimKept(s.ops[i].core, Apply(s, step), i,
                      step.OfWait? && step.o.DropTicket? && s.calls[step.o.c] == Ticket(i))
  {
    match step {
      case OfFrame(f) => FrameKeepsClaim(s, f, i);
      case OfWait(o) => WaitKeepsClaim(s, o, i);
      case OfWork(w) => WorkKeepsClaim(s, w, i);
      case OfRequest(q) => RequestKeepsClaim(s, q, i);
    }
  }

  // ---------------------------------------------------------------- the invariant of all runs

  datatype Witness = Witness(owner: Option<nat>, token: Token, helpers: Helpers, completer: nat)

  ghost predicate Inv(s: State, w: Witness, x: Callback) {
    && ExecInv(s, w.owner, w.token)
    && StopInv(s, w.helpers)
    && Keeps(s, x)
    && Concluding(s, w.completer)
    && Numbered(s)
  }

  lemma InitInv(x: Callback) returns (w: Witness)
    ensures Inv(Init(), w, x)
  {
    w := Witness(None, AtCall(0), Helpers(0, 0, 0, 0), 0);
    OneHeld(Entering, x);
  }

  lemma StepKeepsInv(s: State, step: Step, w: Witness, x: Callback) returns (w': Witness)
    requires Inv(s, w, x) && Enabled(s, step)
    ensures Inv(Apply(s, step), w', x)
  {
    var owner', token' := StepKeepsExec(s, step, w.owner, w.token);
    var helpers' := StepKeepsStop(s, step, w.owner, w.token, w.helpers);
    StepKeepsResults(s, step, x);
    var completer' := StepKeepsConcluding(s, step, w.completer);
    StepKeepsNumbers(s, step);
    w' := Witness(owner', token', helpers', completer');
  }

  lemma {:induction false} RunKeepsInv(steps: seq<Step>, x: Callback) returns (w: Witness)
    requires Run(steps).Some?
    ensures Inv(Run(steps).value, w, x)
  {
    if steps == [] {
      w := InitInv(x);
    } else {
      w := RunKeepsInv(steps[..|steps| - 1], x);
      w := StepKeepsInv(Run(steps[..|steps| - 1]).value, steps[|steps| - 1], w, x);
    }
  }

  /** Every call names an operation that exists, so the guards of Enabled never hold one back. */
  lemma IndicesAreValid(steps: seq<Step>, c: nat)
    requires Run(steps).Some?
    ensures
      var s := Run(steps).value;
      && (c < |s.calls| ==> Knows(s, s.calls[c]))
      && (s.body.Parked? ==> s.body.op < |s.ops|)
  {
    var w := RunKeepsInv(steps, Callback(0, false));
  }

  // ---------------------------------------------------------------- the coroutine frame

  /** At most one call, on any thread, is anywhere between taking and giving back the runner's role, and
      `running` says whether there is one.  So no two threads are ever inside the frame together. */
  lemma OneThreadInFrame(steps: seq<Step>, a: nat, b: nat)
    requires Run(steps).Some?
    ensures
      var s := Run(steps).value;
      && (a < |s.calls| && Runs(s.calls[a]) ==> s.exec.running)
      && (a < |s.calls| && b < |s.calls| && Runs(s.calls[a]) && Runs(s.calls[b]) ==> a == b)
  {
    var w := RunKeepsInv(steps, Callback(0, false));
  }

  /** A resume() that arrives is never ignored and never meets an earlier note: the note it may have to
      leave for the runner is the only one, so no two resumptions coalesce into one. */
  lemma ResumeIsNeverLost(steps: seq<Step>, c: nat, d: nat)
    requires Run(steps).Some?
    requires c < |Run(steps).value.calls| && Run(steps).value.calls[c].Entering?
    ensures
      var s := Run(steps).value;
      && !s.exec.executionFinished && !s.exec.resumePending
      && (d < |s.calls| && d != c ==> !Carries(s.calls[d]))
  {
    var w := RunKeepsInv(steps, Callback(0, false));
  }

  /** The frame is entered only while it is alive and unfinished, and destroyed only by the call that
      took it out of the state: once destroyed it stays so and nothing enters or destroys it again. */
  lemma FrameIsSafe(steps: seq<Step>, step: Step)
    requires Run(steps).Some? && Enabled(Run(steps).value, step)
    ensures
      var s := Run(steps).value;
      && (step.OfFrame? && step.f.Continue? ==> s.frame.Live? && !s.body.Done?)
      && (step.OfFrame? && step.f.DestroyFrame? ==> s.frame.Detached?)
      && (s.frame.Destroyed? ==> Apply(s, step).frame.Destroyed?)
  {
    var s := Run(steps).value;
    var w := RunKeepsInv(steps, Callback(0, false));
    var w' := StepKeepsInv(s, step, w, Callback(0, false));
  }

  /** The frame is entered to start and then once for every suspension, in order.  An operation that has
      been claimed has either been answered by the frame, or the one resumption it is due is on its way
      and nowhere else is there another. */
  lemma EverySuspensionIsAnsweredOnce(steps: seq<Step>, i: nat) returns (token: Token)
    requires Run(steps).Some? && i < |Run(steps).value.ops|
    ensures
      var s := Run(steps).value;
      && (forall n :: 0 <= n < |s.resumed| ==> s.resumed[n] == if n == 0 then None else Some(n - 1))
      && (i + 1 < |s.resumed| ==> s.ops[i].core.claimed && s.body != Parked(i))
      && (i + 1 >= |s.resumed| ==> s.body == Parked(i) && OneToken(s, token) && !token.Spent?)
      && (i + 1 >= |s.resumed| && s.ops[i].core.claimed ==> token.AtFlag? || token.AtCall?)
  {
    var w := RunKeepsInv(steps, Callback(0, false));
    token := w.token;
  }

  // ---------------------------------------------------------------- stop requests

  /** stopping(), which looks at the stop token and at the task, is true exactly if the task has been asked to stop. */
  lemma StoppingIsRequested(steps: seq<Step>)
    requires Run(steps).Some?
    ensures Stopped(Run(steps).value) <==> Run(steps).value.result.cancellationRequested
  {
    var w := RunKeepsInv(steps, Callback(0, false));
  }

  /** A stop request is never lost.  In every reachable state in which a stop has been requested and the
      body waits on an operation with a stop callback that nobody has claimed, some call will claim it:
      the requester that has yet to fire the callback, the callback's cancel(), or the worker or probe
      that made cancel() step aside. */
  lemma StopIsNeverLost(steps: seq<Step>) returns (c: nat)
    requires Run(steps).Some?
    requires
      var s := Run(steps).value;
      Waiting(s) && s.result.cancellationRequested && !s.ops[s.body.op].kind.Child? && !s.ops[s.body.op].kind.Join?
    ensures
      var s := Run(steps).value;
      var i := s.body.op;
      && c < |s.calls|
      && (s.calls[c] == Arming(i) || s.calls[c] == Flagging || s.calls[c] == Cancelling(i) || Busy(s.calls[c], i))
      && (s.calls[c] == Flagging ==> s.ops[i].hook.Listening? && !s.stopFlag)
  {
    var s := Run(steps).value;
    var w := RunKeepsInv(steps, Callback(0, false));
    var o := s.ops[s.body.op];
    c := if o.hook.Unset? then w.helpers.armer
    else if o.hook.Listening? then w.helpers.stopper
    else if BusyAt(s, w.helpers.worker, s.body.op) then w.helpers.worker
    else w.helpers.canceller;
  }

  // ---------------------------------------------------------------- nothing gets stuck

  /** Every call has returned; at most, conditions are still being watched. */
  predicate Quiet(s: State) {
    forall c :: 0 <= c < |s.calls| ==>
      s.calls[c].Gone? || s.calls[c].Watching? || (s.calls[c].Notifying? && s.calls[c].callbacks == [])
  }

  /** With all calls returned, either the task has finished for good, its frame destroyed, its result
      settled and every callback run; or its body waits on an operation that only the outside can
      complete: an event nobody has signalled, a condition still being watched, or the end of another
      task.  Cancellable waits never outlive a stop request. */
  lemma NothingIsStuck(steps: seq<Step>)
    requires Run(steps).Some? && Quiet(Run(steps).value)
    ensures
      var s := Run(steps).value;
      if s.exec.executionFinished then
        s.body.Done? && s.frame.Destroyed? && s.result.completed && s.result.settled.Some?
      else
        && Waiting(s)
        && !s.ops[s.body.op].kind.Work?
        && (s.result.cancellationRequested ==> s.ops[s.body.op].kind.Child? || s.ops[s.body.op].kind.Join?)
        && (s.ops[s.body.op].kind.Probe? ==> exists c :: 0 <= c < |s.calls| && s.calls[c] == Watching(s.body.op))
  {
    var s := Run(steps).value;
    var w := RunKeepsInv(steps, Callback(0, false));
    if s.exec.executionFinished {
      assert !Holds(s, w.completer, Completing);
    } else {
      QuietMeansWaiting(s, w.owner, w.token);
      QuietWait(s, s.body.op, w.helpers);
    }
  }

  lemma QuietMeansWaiting(s: State, owner: Option<nat>, token: Token)
    requires Quiet(s) && OneRunner(s, owner) && OneToken(s, token) && !s.exec.executionFinished
    ensures owner.None? && Waiting(s)
  {
  }

  lemma QuietWait(s: State, i: nat, h: Helpers)
    requires Quiet(s) && i < |s.ops| && s.body == Parked(i) && Waiting(s) && StopInv(s, h)
    ensures !s.ops[i].kind.Work?
    ensures Cancellable(s.ops[i].kind) ==> !s.result.cancellationRequested
    ensures s.ops[i].kind.Probe? ==> exists c :: 0 <= c < |s.calls| && s.calls[c] == Watching(i)
  {
    assert !BusyAt(s, h.worker, i) && !Holds(s, h.canceller, Cancelling(i)) && !Holds(s, h.stopper, Flagging);
    assert !Holds(s, h.armer, Arming(i)) && !Holds(s, h.armer, Wiring(i)) && !Holds(s, h.worker, WorkQueued(i));
  }

  // ---------------------------------------------------------------- results

  /** Completion and cancellation each imply settlement, and a body that never ran was cancelled. */
  lemma SettledFirst(steps: seq<Step>)
    requires Run(steps).Some?
    ensures
      var s := Run(steps).value;
      && (s.result.completed ==> s.result.settled.Some?)
      && (s.result.cancellationRequested ==> s.result.settled.Some?)
      && (s.exec.executionFinished && s.resumed == [] ==> s.result.cancellationRequested)
  {
    var w := RunKeepsInv(steps, Callback(0, false));
  }

  /** A settled result is never replaced, whatever happens later. */
  lemma {:induction false} SettledForever(steps: seq<Step>, more: seq<Step>)
    requires Run(steps + more).Some?
    ensures Run(steps).Some?
    ensures Later(Run(steps).value.result, Run(steps + more).value.result)
    ensures Run(steps).value.ran <= Run(steps + more).value.ran
  {
    if more == [] {
      assert steps + more == steps;
    } else {
      var all := steps + more;
      assert all[..|all| - 1] == steps + more[..|more| - 1];
      SettledForever(steps, more[..|more| - 1]);
      NothingIsUndone(Run(all[..|all| - 1]).value, all[|all| - 1]);
    }
  }

  // ---------------------------------------------------------------- callbacks

  lemma {:induction false} OccursOnce(callbacks: seq<Callback>, i: nat)
    requires forall j :: 0 <= j < |callbacks| ==> callbacks[j].id == j
    ensures i < |callbacks| ==> Occurs(callbacks, callbacks[i]) == 1
    ensures forall x: Callback :: x.id >= |callbacks| ==> Occurs(callbacks, x) == 0
  {
    if callbacks != [] {
      OccursOnce(callbacks[..|callbacks| - 1], i);
    }
  }

  lemma {:induction false} NoneInFlight(calls: seq<Call>, x: Callback)
    requires forall c :: 0 <= c < |calls| ==>
      calls[c].Gone? || calls[c].Watching? || (calls[c].Notifying? && calls[c].callbacks == [])
    ensures InFlight(calls, x) == 0
  {
    if calls != [] {
      NoneInFlight(calls[..|calls| - 1], x);
    }
  }

  /** No callback runs twice or before its event, whatever the race between onReady, settlement, a stop
      and completion. */
  lemma CallbacksRunAtMostOnce(steps: seq<Step>, i: nat)
    requires Run(steps).Some? && i < |Run(steps).value.issued|
    ensures
      var s := Run(steps).value;
      && Occurs(s.ran, s.issued[i]) <= 1
      && (forall j :: 0 <= j < |s.ran| ==> Happened(s.result, s.ran[j]))
  {
    var s := Run(steps).value;
    var w := RunKeepsInv(steps, s.issued[i]);
    OccursOnce(s.issued, i);
  }

  /** With all calls returned, a callback has run, exactly once, if and only if its event has happened. */
  lemma CallbacksRunExactlyOnce(steps: seq<Step>, i: nat)
    requires Run(steps).Some? && Quiet(Run(steps).value) && i < |Run(steps).value.issued|
    ensures
      var s := Run(steps).value;
      Occurs(s.ran, s.issued[i]) == if Happened(s.result, s.issued[i]) then 1 else 0
  {
    var s := Run(steps).value;
    var x := s.issued[i];
    var w := RunKeepsInv(steps, x);
    OccursOnce(s.issued, i);
    NoneInFlight(s.calls, x);
    if Occurs(s.ran, x) > 0 {
      OccursIsMember(s.ran, x);
    }
    if Occurs(s.result.resultCallbacks, x) > 0 {
      OccursIsMember(s.result.resultCallbacks, x);
    }
    if Occurs(s.result.completionCallbacks, x) > 0 {
      OccursIsMember(s.result.completionCallbacks, x);
    }
  }

  lemma {:induction false} OccursIsMember(callbacks: seq<Callback>, x: Callback)
    requires Occurs(callbacks, x) > 0
    ensures exists i :: 0 <= i < |callbacks| && callbacks[i] == x
  {
    if callbacks[|callbacks| - 1] != x {
      OccursIsMember(callbacks[..|callbacks| - 1], x);
    }
  }
}
