/** The guarantees of whenAll over whole runs. */
module WhenAllRuns {
  import opened TaskCore
  import opened JoinMachine
  import opened WhenAll

  /** What a caller hands to whenAll: handles, some of which may be empty, and the tasks behind them. */
  datatype Input = Input(isVoid: bool, handles: seq<Option<nat>>, children: seq<Child>)

  predicate Wellformed(x: Input) {
    && (forall i :: 0 <= i < |x.handles| && x.handles[i].Some? ==> x.handles[i].value < |x.children|)
    && (forall c :: 0 <= c < |x.children| ==> Plausible(x.children[c]))
  }

  function Begin(x: Input): State
    requires Wellformed(x)
  {
    JoinMachine.Start(x.isVoid, x.handles, x.children)
  }

  /** s is reachable from x. */
  predicate Reaches(x: Input, steps: seq<Step>, s: State)
    requires Wellformed(x)
  {
    Run(Begin(x), steps) == Some(s)
  }

  lemma BeginInv(x: Input)
    requires Wellformed(x)
    ensures Inv(Begin(x), None)
  {
    var s := Begin(x);
    forall i: nat | i < |s.handles|
      ensures HandleFact(s, i)
    {
    }
  }

  lemma {:induction false} RunKeepsInv(x: Input, steps: seq<Step>, s: State) returns (caster: Option<nat>)
    requires Wellformed(x) && Reaches(x, steps, s)
    ensures Inv(s, caster) && SameJoin(Begin(x), s)
  {
    if steps == [] {
      BeginInv(x);
      caster := None;
    } else {
      var before := Run(Begin(x), steps[..|steps| - 1]).value;
      caster := RunKeepsInv(x, steps[..|steps| - 1], before);
      StepKeepsJoin(before, steps[|steps| - 1]);
      caster := StepKeepsInv(before, steps[|steps| - 1], caster);
    }
  }

  lemma StepIsForward(s: State, step: Step, caster: Option<nat>)
    requires Inv(s, caster) && Enabled(s, step)
    ensures Forward(s, Apply(s, step))
  {
    match step {
      case OfChild(e) => ChildIsForward(s, e);
      case OfBody(b) => BodySameCasts(s, b);
      case OfCall(k) => CallIsForward(s, k);
      case OfWait(w) => WaitIsForward(s, w);
      case StopJoin =>
    }
  }

  // ---------------------------------------------------------------- draining

  /** An empty handle ends the join at once; otherwise the join ends only when every child has completed,
      whatever fails, is stopped or is rejected meanwhile. */
  lemma JoinDrains(x: Input, steps: seq<Step>, s: State, i: nat)
    requires Wellformed(x) && Reaches(x, steps, s) && s.body.Finished? && i < |x.handles|
    ensures None in x.handles || (x.handles[i].value < |s.children| && s.children[x.handles[i].value].completed)
  {
    var caster := RunKeepsInv(x, steps, s);
    if None !in x.handles {
      assert x.handles[i] in x.handles;
      assert ChildOf(s, i).completed;
    }
  }

  /** An empty handle ends the join before it has called anybody, for good, and nothing else ends it so:
      callbacks are registered, failures recorded and children stopped only without one. */
  lemma {:induction false} EmptyHandleEndsJoin(x: Input, steps: seq<Step>, s: State)
    requires Wellformed(x) && Reaches(x, steps, s)
    ensures s.body == Finished(EmptyHandle) <==> None in x.handles
    ensures None in x.handles ==> s.error.None? && s.calls == [Idle, Idle] && s.wait == NewWait(0)
  {
    if steps != [] {
      var step, before := steps[|steps| - 1], Run(Begin(x), steps[..|steps| - 1]).value;
      EmptyHandleEndsJoin(x, steps[..|steps| - 1], before);
      if before.body == Finished(EmptyHandle) {
        EndedStaysEnded(before, step);
      } else if step != OfBody(Conclude) {
        OtherStepsLeaveEnding(before, step);
      }
    }
  }

  lemma EndedStaysEnded(s: State, step: Step)
    requires Enabled(s, step) && s.body.Finished? && s.calls == [Idle, Idle] && s.wait == NewWait(0)
    ensures Apply(s, step).body == s.body && Apply(s, step).error == s.error
    ensures Apply(s, step).calls == s.calls && Apply(s, step).wait == s.wait
  {
    assert step.OfChild? || step.StopJoin?;
  }

  /** A wait ends in one way only: the child completes, the callback it was given claims the operation, and
      the ticket of that claim is run or dropped.  Afterwards nothing of it is left over. */
  lemma WaitEndsByCompletion(x: Input, steps: seq<Step>, s: State)
    requires Wellformed(x) && Reaches(x, steps, s)
    ensures Typed(s)
    ensures s.body.Suspended? && s.wait.ticket.Used? ==>
      s.body.at < |s.handles| && ChildOf(s, s.body.at).completed
    ensures s.wait.ticket.Issued? || s.wait.notice.Due? || s.wait.notice.OnList? ==> s.body.Suspended?
    ensures s.body.Suspended? && s.wait.notice.OnList? ==>
      s.body.at < |s.handles| && !ChildOf(s, s.body.at).completed
  {
    var caster := RunKeepsInv(x, steps, s);
  }

  // ---------------------------------------------------------------- stopping the others

  predicate OneCaster(s: State) {
    forall a: nat, b: nat :: a < |s.calls| && b < |s.calls| && IsCasting(s.calls[a]) && IsCasting(s.calls[b]) ==> a == b
  }

  predicate NoCaster(s: State) {
    forall a: nat :: a < |s.calls| ==> !IsCasting(s.calls[a])
  }

  /** The first failure is final, one call at most stops the children, and once it is done every child has
      completed or been asked to stop. */
  lemma FailureStopsEveryChild(x: Input, steps: seq<Step>, s: State)
    requires Wellformed(x) && Reaches(x, steps, s)
    ensures Typed(s) && OneCaster(s) && (s.error.None? ==> NoCaster(s))
    ensures s.error.Some? && NoCaster(s) ==> CoveredTo(s, |s.handles|)
  {
    var caster := RunKeepsInv(x, steps, s);
  }

  lemma FirstFailureIsFinal(x: Input, steps: seq<Step>, s: State, step: Step)
    requires Wellformed(x) && Reaches(x, steps, s) && Enabled(s, step) && s.error.Some?
    ensures Apply(s, step).error == s.error
    ensures forall a: nat :: a < |s.calls| && IsCasting(Apply(s, step).calls[a]) ==> IsCasting(s.calls[a])
  {
    var caster := RunKeepsInv(x, steps, s);
    StepIsForward(s, step, caster);
    StepKeepsJoin(s, step);
    NoNewCast(s, step, caster);
  }

  lemma NoNewCast(s: State, step: Step, caster: Option<nat>)
    requires Inv(s, caster) && Enabled(s, step) && s.error.Some? && |Apply(s, step).calls| == |s.calls|
    ensures forall a: nat :: a < |s.calls| && IsCasting(Apply(s, step).calls[a]) ==> IsCasting(s.calls[a])
  {
    match step {
      case OfChild(e) => ChildSameCasts(s, e);
      case OfBody(b) => BodySameCasts(s, b);
      case OfCall(k) =>
        if k.StopChild? { StoppedIsCovered(s, k.a); }
      case OfWait(w) =>
      case StopJoin =>
    }
  }

  // ---------------------------------------------------------------- the result

  /** The child of each handle has the value at its place. */
  predicate HoldsValues(s: State, values: seq<int>)
    requires Typed(s)
  {
    && |values| == |s.handles|
    && forall i: nat :: i < |s.handles| ==> ChildOf(s, i).settled == Some(Value(values[i]))
  }

  predicate HasValue(c: Child) {
    c.settled.Some? && c.settled.value.Value?
  }

  predicate AllValues(s: State)
    requires Typed(s)
  {
    forall i: nat :: i < |s.handles| ==> HasValue(ChildOf(s, i))
  }

  predicate StoppedByOthers(c: Child) {
    c.settled == Some(Error(TaskCancelled)) && c.stoppedOutside
  }

  /** Without a value, a child of a void join that returned has been stopped by somebody else. */
  predicate ValueOrStopped(s: State)
    requires Typed(s)
  {
    forall i: nat :: i < |s.handles| ==> HasValue(ChildOf(s, i)) || StoppedByOthers(ChildOf(s, i))
  }

  predicate Ended(s: State)
    requires Typed(s)
  {
    match s.body
    case Finished(Returned(values)) => if s.isVoid then ValueOrStopped(s) else HoldsValues(s, values)
    case Finished(Failed(failure)) => Cause(s, failure)
    case other => true
  }

  lemma {:induction false} Collected(s: State, k: nat)
    requires Typed(s) && AllSettled(s) && k <= |s.handles|
    ensures
      match Collect(s, k)
      case Returned(values) =>
        |values| == |s.handles| - k
        && forall i: nat :: k <= i < |s.handles| ==> ChildOf(s, i).settled == Some(Value(values[i - k]))
      case Failed(failure) => exists i: nat :: i < |s.handles| && ChildOf(s, i).settled == Some(Error(failure))
      case EmptyHandle => false
    decreases |s.handles| - k
  {
    if k < |s.handles| {
      Collected(s, k + 1);
      assert ChildOf(s, k).settled.Some?;
    }
  }

  lemma ErrorIsHeard(s: State, i: nat, caster: Option<nat>)
    requires Inv(s, caster) && s.body == Waiting(|s.handles|) && s.error.None? && i < |s.handles|
    ensures HasValue(ChildOf(s, i)) || StoppedByOthers(ChildOf(s, i))
  {
    var c := ChildOf(s, i);
    assert HandleFact(s, i) && c.completed;
    assert Sane(s.children[s.handles[i]], false);
  }

  lemma Concluding(s: State, caster: Option<nat>)
    requires Inv(s, caster) && BodyEnabled(s, Conclude)
    ensures Typed(BodyApply(s, Conclude)) && Ended(BodyApply(s, Conclude))
  {
    var t := BodyApply(s, Conclude);
    BodySameCasts(s, Conclude);
    if s.error.Some? {
      CauseStays(s, t, s.error.value);
    } else if s.isVoid {
      forall i: nat | i < |t.handles|
        ensures HasValue(ChildOf(t, i)) || StoppedByOthers(ChildOf(t, i))
      {
        ErrorIsHeard(s, i, caster);
      }
    } else {
      Collected(s, 0);
      match Conclusion(s) {
        case Returned(values) =>
          forall i: nat | i < |t.handles|
            ensures ChildOf(t, i).settled == Some(Value(values[i]))
          {
            assert ChildOf(s, i).settled == Some(Value(values[i - 0]));
          }
        case Failed(failure) => CauseStays(s, t, failure);
        case EmptyHandle => assert false;
      }
    }
  }

  lemma EndedStays(s: State, t: State)
    requires Typed(s) && Typed(t) && Forward(s, t) && t.body == s.body && Ended(s)
    ensures Ended(t)
  {
    forall i: nat | i < |s.handles|
      ensures ChildOf(s, i).settled.Some? ==> ChildOf(t, i).settled == ChildOf(s, i).settled
      ensures ChildOf(s, i).stoppedOutside ==> ChildOf(t, i).stoppedOutside
    {
      assert ChildOf(s, i) == s.children[s.handles[i]];
    }
    if s.body.Finished? && s.body.ending.Failed? {
      CauseStays(s, t, s.body.ending.failure);
    }
  }

  lemma OtherStepsLeaveEnding(s: State, step: Step)
    requires Enabled(s, step) && step != OfBody(Conclude)
    ensures s.body.Finished? ==> Apply(s, step).body == s.body
    ensures !s.body.Finished? ==> !Apply(s, step).body.Finished?
  {
    match step {
      case OfChild(e) => ChildSameCasts(s, e);
      case OfBody(b) =>
      case OfCall(k) => CallIsForward(s, k);
      case OfWait(w) =>
      case StopJoin =>
    }
  }

  lemma {:induction false} RunEnds(x: Input, steps: seq<Step>, s: State)
    requires Wellformed(x) && Reaches(x, steps, s)
    ensures Typed(s) && Ended(s)
  {
    if steps == [] {
    } else {
      var step, before := steps[|steps| - 1], Run(Begin(x), steps[..|steps| - 1]).value;
      RunEnds(x, steps[..|steps| - 1], before);
      var caster := RunKeepsInv(x, steps[..|steps| - 1], before);
      StepKeepsJoin(before, step);
      if step == OfBody(Conclude) {
        Concluding(before, caster);
      } else {
        StepIsForward(before, step, caster);
        OtherStepsLeaveEnding(before, step);
        if before.body.Finished? {
          EndedStays(before, s);
        }
      }
    }
  }

  /** A join with values returns them in the order of the handles, and only if every child has one. */
  lemma ReturnsValuesInOrder(x: Input, steps: seq<Step>, s: State, values: seq<int>)
    requires Wellformed(x) && !x.isVoid && Reaches(x, steps, s) && s.body == Finished(Returned(values))
    ensures Typed(s) && HoldsValues(s, values)
  {
    var caster := RunKeepsInv(x, steps, s);
    RunEnds(x, steps, s);
  }

  lemma NoCauseWithValues(s: State, failure: Failure)
    requires Typed(s) && AllValues(s) && !s.stopped && !s.rejected
    ensures !Cause(s, failure)
  {
  }

  /** Unless the join itself was stopped or a continuation of it rejected, a join with values returns
      exactly when every child has a value. */
  lemma ReturnsExactlyWithValues(x: Input, steps: seq<Step>, s: State)
    requires Wellformed(x) && !x.isVoid && None !in x.handles && Reaches(x, steps, s)
    requires s.body.Finished? && !s.stopped && !s.rejected
    ensures Typed(s) && (s.body.ending.Returned? <==> AllValues(s))
  {
    var caster := RunKeepsInv(x, steps, s);
    RunEnds(x, steps, s);
    EmptyHandleEndsJoin(x, steps, s);
    if s.body.ending.Failed? && AllValues(s) {
      NoCauseWithValues(s, s.body.ending.failure);
    }
  }

  // ---------------------------------------------------------------- which failure it throws

  predicate IsRecord(step: Step) {
    step.OfCall? && step.k.Record?
  }

  /** The n-th step is the first call of fail that finds nothing recorded, and this is the failure it was given. */
  predicate FirstRecordIs(x: Input, steps: seq<Step>, n: nat, failure: Failure)
    requires Wellformed(x)
  {
    && n < |steps| && IsRecord(steps[n]) && (forall m :: 0 <= m < n ==> !IsRecord(steps[m]))
    && Run(Begin(x), steps[..n]).Some? && Holds(Run(Begin(x), steps[..n]).value, steps[n].k.a, failure)
  }

  predicate Holds(s: State, a: nat, failure: Failure) {
    a < |s.calls| && s.calls[a].Failing? && s.calls[a].failure == failure
  }

  lemma ErrorAfter(s: State, step: Step)
    requires Enabled(s, step)
    ensures s.error.Some? ==> Apply(s, step).error == s.error
    ensures s.error.None? && IsRecord(step) ==>
      Apply(s, step).error.Some? && Holds(s, step.k.a, Apply(s, step).error.value)
    ensures s.error.None? && !IsRecord(step) ==> Apply(s, step).error.None?
  {
    if !IsRecord(step) {
      OnlyRecordsRecord(s, step);
    }
  }

  lemma OnlyRecordsRecord(s: State, step: Step)
    requires Enabled(s, step) && !IsRecord(step)
    ensures Apply(s, step).error == s.error
  {
    match step {
      case OfChild(e) => ChildSameErrors(s, e);
      case OfBody(b) =>
      case OfCall(k) => if k.StopChild? { StopSameErrors(s, k.a); }
      case OfWait(w) =>
      case StopJoin =>
    }
  }

  lemma ChildSameErrors(s: State, e: ChildStep)
    requires Typed(s) && ChildEnabled(s, e)
    ensures ChildApply(s, e).error == s.error
  {
  }

  lemma StopSameErrors(s: State, a: nat)
    requires Typed(s) && CallEnabled(s, StopChild(a))
    ensures CallApply(s, StopChild(a)).error == s.error
  {
  }

  predicate NoRecord(steps: seq<Step>) {
    forall m :: 0 <= m < |steps| ==> !IsRecord(steps[m])
  }

  /** What is recorded is what the first such call was given. */
  lemma {:induction false} RecordedIsFirst(x: Input, steps: seq<Step>, s: State) returns (n: nat)
    requires Wellformed(x) && Reaches(x, steps, s)
    ensures s.error.None? ==> NoRecord(steps)
    ensures s.error.Some? ==> FirstRecordIs(x, steps, n, s.error.value)
  {
    n := 0;
    if steps != [] {
      var last := |steps| - 1;
      var before := Run(Begin(x), steps[..last]).value;
      n := RecordedIsFirst(x, steps[..last], before);
      ErrorAfter(before, steps[last]);
      if before.error.Some? {
        FirstStays(x, steps, n, before.error.value);
      } else {
        n := last;
        FirstNow(x, steps, before, s);
      }
    }
  }

  lemma FirstNow(x: Input, steps: seq<Step>, before: State, s: State)
    requires Wellformed(x) && steps != [] && NoRecord(steps[..|steps| - 1])
    requires Reaches(x, steps[..|steps| - 1], before)
    requires IsRecord(steps[|steps| - 1]) ==> s.error.Some? && Holds(before, steps[|steps| - 1].k.a, s.error.value)
    requires !IsRecord(steps[|steps| - 1]) ==> s.error.None?
    ensures s.error.None? ==> NoRecord(steps)
    ensures s.error.Some? ==> FirstRecordIs(x, steps, |steps| - 1, s.error.value)
  {
    forall m | 0 <= m < |steps| - 1
      ensures !IsRecord(steps[m])
    {
      assert steps[..|steps| - 1][m] == steps[m];
    }
  }

  lemma FirstStays(x: Input, steps: seq<Step>, n: nat, failure: Failure)
    requires Wellformed(x) && steps != [] && FirstRecordIs(x, steps[..|steps| - 1], n, failure)
    ensures FirstRecordIs(x, steps, n, failure)
  {
    assert steps[..|steps| - 1][..n] == steps[..n];
    forall m | 0 <= m < n
      ensures !IsRecord(steps[m])
    {
      assert steps[..|steps| - 1][m] == steps[m];
    }
  }

  lemma FirstIsUnique(x: Input, steps: seq<Step>, n: nat, f: Failure, m: nat, g: Failure)
    requires Wellformed(x) && FirstRecordIs(x, steps, n, f) && FirstRecordIs(x, steps, m, g)
    ensures n == m && f == g
  {
  }

  /** A call of fail holds the error of its child, task_cancelled after a stop of the join, or scheduler_rejected
      after a rejected continuation. */
  lemma FailuresHaveCauses(x: Input, steps: seq<Step>, s: State, a: nat)
    requires Wellformed(x) && Reaches(x, steps, s) && a < |s.calls| && s.calls[a].Failing?
    ensures Typed(s)
    ensures a < |s.handles| ==> ChildOf(s, a).settled == Some(Error(s.calls[a].failure))
    ensures a == StopCall(s) ==> s.stopped && s.calls[a].failure == TaskCancelled
    ensures a == CatchCall(s) ==> s.rejected && s.calls[a].failure == SchedulerRejected
  {
    var caster := RunKeepsInv(x, steps, s);
    if a < |s.handles| {
      assert HandleFact(s, a);
    }
  }

  /** Handle i is the first one without a value, and this is its error. */
  predicate FirstWithoutValue(s: State, i: nat, failure: Failure)
    requires Typed(s)
  {
    && i < |s.handles| && ChildOf(s, i).settled == Some(Error(failure))
    && forall j: nat :: j < i ==> HasValue(ChildOf(s, j))
  }

  lemma {:induction false} CollectStopsAtFirst(s: State, k: nat)
    requires Typed(s) && AllSettled(s) && k <= |s.handles| && forall j: nat :: j < k ==> HasValue(ChildOf(s, j))
    ensures Collect(s, k).Failed? ==> exists i: nat :: FirstWithoutValue(s, i, Collect(s, k).failure)
    decreases |s.handles| - k
  {
    if k < |s.handles| {
      assert ChildOf(s, k).settled.Some?;
      if ChildOf(s, k).settled.value.Value? {
        CollectStopsAtFirst(s, k + 1);
      } else {
        assert FirstWithoutValue(s, k, ChildOf(s, k).settled.value.failure);
      }
    }
  }

  /** What a join gives that concludes without anything recorded. */
  ghost predicate Undisturbed(s: State, ending: Ending)
    requires Typed(s)
  {
    match ending
    case Returned(values) => if s.isVoid then values == [] else HoldsValues(s, values)
    case Failed(failure) => !s.isVoid && exists i: nat :: FirstWithoutValue(s, i, failure)
    case EmptyHandle => false
  }

  lemma NothingRecorded(s: State, caster: Option<nat>)
    requires Inv(s, caster) && BodyEnabled(s, Conclude) && s.error.None?
    ensures BodyApply(s, Conclude).body.Finished? && Undisturbed(s, BodyApply(s, Conclude).body.ending)
  {
    if !s.isVoid {
      Collected(s, 0);
      CollectStopsAtFirst(s, 0);
      if Collect(s, 0).Returned? {
        var values := Collect(s, 0).values;
        forall i: nat | i < |s.handles|
          ensures ChildOf(s, i).settled == Some(Value(values[i]))
        {
          assert ChildOf(s, i).settled == Some(Value(values[i - 0]));
        }
      }
    }
  }

  /** What a join throws.  If a failure was recorded before it concluded, it throws the first one recorded, the one
      that the first call of fail was given.  If none was, a void join returns, and one with values returns them, or
      throws the error of the first handle that has none. */
  lemma JoinThrowsFirstFailure(x: Input, steps: seq<Step>, s: State) returns (n: nat)
    requires Wellformed(x) && Reaches(x, steps + [OfBody(Conclude)], s)
    ensures Typed(s) && s.body.Finished?
    ensures (exists m :: 0 <= m < |steps| && IsRecord(steps[m])) ==>
      s.body.ending.Failed? && FirstRecordIs(x, steps, n, s.body.ending.failure)
    ensures NoRecord(steps) ==> Undisturbed(s, s.body.ending)
  {
    var all := steps + [OfBody(Conclude)];
    assert all[..|all| - 1] == steps;
    var before := Run(Begin(x), steps).value;
    var caster := RunKeepsInv(x, steps, before);
    StepKeepsJoin(before, OfBody(Conclude));
    n := RecordedIsFirst(x, steps, before);
    if before.error.None? {
      NothingRecorded(before, caster);
      SameUndisturbed(before, s, s.body.ending);
    } else {
      assert IsRecord(steps[n]);
    }
  }

  lemma SameUndisturbed(s: State, t: State, ending: Ending)
    requires Typed(s) && Typed(t) && SameJoin(s, t) && t.children == s.children && Undisturbed(s, ending)
    ensures Undisturbed(t, ending)
  {
    if ending.Failed? {
      var i: nat :| FirstWithoutValue(s, i, ending.failure);
      forall j: nat | j < i
        ensures HasValue(ChildOf(t, j))
      {
        assert HasValue(ChildOf(s, j));
      }
      assert FirstWithoutValue(t, i, ending.failure);
    } else if ending.Returned? && !s.isVoid {
      forall i: nat | i < |t.handles|
        ensures ChildOf(t, i).settled == Some(Value(ending.values[i]))
      {
        assert ChildOf(s, i).settled == Some(Value(ending.values[i]));
      }
    }
  }

  /** And that is final. */
  lemma EndingIsFinal(x: Input, steps: seq<Step>, s: State, step: Step)
    requires Wellformed(x) && Reaches(x, steps, s) && Enabled(s, step) && s.body.Finished?
    ensures Apply(s, step).body == s.body
  {
    if step != OfBody(Conclude) {
      OtherStepsLeaveEnding(s, step);
    }
  }

  // ---------------------------------------------------------------- what happens to the children

  /** The step asks child c to stop. */
  predicate StopsChild(s: State, step: Step, c: nat)
    requires Enabled(s, step)
  {
    match step
    case OfChild(StopOutside(d)) => d == c
    case OfCall(StopChild(a)) => s.handles[s.calls[a].next] == c
    case _ => false
  }

  /** A child settles by itself, or as cancelled when it is asked to stop; it completes by itself; and it is asked to
      stop by others or by the join's broadcast. */
  lemma ChildChanges(s: State, step: Step, c: nat)
    requires Enabled(s, step) && c < |s.children|
    ensures |Apply(s, step).children| == |s.children|
    ensures
      var child, after := s.children[c], Apply(s, step).children[c];
      && after.completed == (child.completed || step == OfChild(Completes(c)))
      && after.stopRequested == (child.stopRequested || StopsChild(s, step, c))
      && after.stoppedOutside == (child.stoppedOutside || step == OfChild(StopOutside(c)))
      && after.settled == (if child.settled.Some? then child.settled
                           else if step.OfChild? && step.e.Settles? && step.e.c == c then Some(step.e.outcome)
                           else if StopsChild(s, step, c) then Some(Error(TaskCancelled))
                           else None)
  {
    match step {
      case OfChild(e) => OwnChanges(s, e, c);
      case OfBody(b) =>
      case OfCall(k) => if k.StopChild? { StopChildChanges(s, k.a, c); }
      case OfWait(w) =>
      case StopJoin =>
    }
  }

  lemma OwnChanges(s: State, e: ChildStep, c: nat)
    requires Typed(s) && ChildEnabled(s, e) && c < |s.children|
    ensures
      var child, t := s.children[c], ChildApply(s, e);
      |t.children| == |s.children|
      && t.children[c] == if e.c != c then child else
           match e
           case Settles(_, outcome) => child.(settled := Some(outcome), own := true)
           case Completes(_) => child.(completed := true)
           case StopOutside(_) =>
             child.(stopRequested := true, stoppedOutside := true,
                    settled := if child.settled.Some? then child.settled else Some(Error(TaskCancelled)),
                    own := child.own && child.settled.Some?)
  {
  }

  /** The join is stopped by a request, and counts as rejected by a dropped ticket, and by nothing else. */
  lemma FlagsFollowSteps(s: State, step: Step)
    requires Enabled(s, step)
    ensures Apply(s, step).stopped == (s.stopped || step.StopJoin?)
    ensures Apply(s, step).rejected == (s.rejected || step == OfWait(DropTicket))
  {
    match step {
      case OfChild(e) => ChildKeepsFlags(s, e);
      case OfBody(b) =>
      case OfCall(k) => if k.StopChild? { StopChildKeepsFlags(s, k.a); }
      case OfWait(w) =>
      case StopJoin =>
    }
  }

  lemma ChildKeepsFlags(s: State, e: ChildStep)
    requires Typed(s) && ChildEnabled(s, e)
    ensures ChildApply(s, e).stopped == s.stopped && ChildApply(s, e).rejected == s.rejected
  {
  }

  lemma StopChildKeepsFlags(s: State, a: nat)
    requires Typed(s) && CallEnabled(s, StopChild(a))
    ensures CallApply(s, StopChild(a)).stopped == s.stopped && CallApply(s, StopChild(a)).rejected == s.rejected
  {
  }

  lemma StopChildChanges(s: State, a: nat, c: nat)
    requires Typed(s) && CallEnabled(s, StopChild(a)) && c < |s.children|
    ensures
      var t, d := CallApply(s, StopChild(a)), s.handles[s.calls[a].next];
      |t.children| == |s.children|
      && t.children[c] == if d != c then s.children[c]
                          else s.children[c].(stopRequested := true,
                                              settled := if s.children[c].settled.Some? then s.children[c].settled
                                                         else Some(Error(TaskCancelled)),
                                              own := s.children[c].own && s.children[c].settled.Some?)
  {
  }

  // ---------------------------------------------------------------- stops and rejections are heard

  /** A stop callback that has run has recorded a failure; a stop that came while it was registered has started it;
      a rejected continuation leads to the catch clause, which records a failure. */
  predicate Attended(s: State)
    requires Typed(s)
  {
    && (s.calls[StopCall(s)].Over? || IsCasting(s.calls[StopCall(s)]) ==> s.error.Some?)
    && (IsCasting(s.calls[CatchCall(s)]) || s.calls[CatchCall(s)].Over? ==> s.error.Some?)
    && (s.rejected ==> s.error.Some? || s.body.Catching? || (s.body.Suspended? && s.wait.op.failure.Some?))
    && (s.wait.op.failure.Some? ==> s.wait.ticket.Used?)
  }

  lemma AttendedAfterCall(s: State, k: CallStep)
    requires Typed(s) && Attended(s) && SpecialsFit(s) && CallEnabled(s, k)
    requires IsCasting(s.calls[k.a]) ==> s.error.Some?
    ensures Typed(CallApply(s, k)) && Attended(CallApply(s, k))
  {
    match k {
      case ReadError(a) =>
      case Record(a) =>
      case Look(a) =>
      case StopChild(a) => AttendedAfterStopChild(s, a);
    }
  }

  lemma AttendedAfterStopChild(s: State, a: nat)
    requires Typed(s) && Attended(s) && SpecialsFit(s) && CallEnabled(s, StopChild(a)) && s.error.Some?
    ensures Typed(CallApply(s, StopChild(a))) && Attended(CallApply(s, StopChild(a)))
  {
  }

  lemma AttendedAfterChild(s: State, e: ChildStep)
    requires Typed(s) && Attended(s) && ChildEnabled(s, e)
    ensures Typed(ChildApply(s, e)) && Attended(ChildApply(s, e))
  {
  }

  lemma AttendedAfterBody(s: State, b: BodyStep)
    requires Typed(s) && Attended(s) && SpecialsFit(s) && WaitFits(s) && BodyEnabled(s, b)
    requires s.body.Registering? && s.body.at < |s.handles| ==> HandleFact(s, s.body.at)
    ensures Typed(BodyApply(s, b)) && Attended(BodyApply(s, b))
  {
  }

  lemma AttendedAfterWait(s: State, w: WaitStep)
    requires Typed(s) && Attended(s) && WaitFits(s) && WaitMatches(s) && WaitEnabled(s, w)
    ensures Typed(WaitApply(s, w)) && Attended(WaitApply(s, w))
  {
  }

  lemma AttendedAfterStep(s: State, step: Step, caster: Option<nat>)
    requires Inv(s, caster) && Attended(s) && Enabled(s, step)
    ensures Typed(Apply(s, step)) && Attended(Apply(s, step))
  {
    match step {
      case OfChild(e) => AttendedAfterChild(s, e);
      case OfBody(b) => AttendedAfterBody(s, b);
      case OfCall(k) => AttendedAfterCall(s, k);
      case OfWait(w) => AttendedAfterWait(s, w);
      case StopJoin =>
    }
  }

  lemma {:induction false} RunAttends(x: Input, steps: seq<Step>, s: State)
    requires Wellformed(x) && Reaches(x, steps, s)
    ensures Typed(s) && Attended(s)
  {
    if steps != [] {
      var before := Run(Begin(x), steps[..|steps| - 1]).value;
      RunAttends(x, steps[..|steps| - 1], before);
      var caster := RunKeepsInv(x, steps[..|steps| - 1], before);
      AttendedAfterStep(before, steps[|steps| - 1], caster);
    }
  }

  /** A rejected continuation makes the join fail: the failure is recorded before it goes on to the next child. */
  lemma RejectionFailsJoin(x: Input, steps: seq<Step>, s: State)
    requires Wellformed(x) && Reaches(x, steps, s) && s.rejected
    ensures s.error.Some? || s.body.Catching? || s.body.Suspended?
    ensures s.body.Waiting? && Typed(s) && BodyEnabled(s, Conclude) ==> s.error.Some?
  {
    RunAttends(x, steps, s);
  }

  /** A stop of the join that comes before it has finished makes fail run, in the stop callback or, if it came before
      that was constructed, inside its construction; the body goes on from there only with a failure recorded. */
  lemma StopIsHeard(x: Input, steps: seq<Step>, s: State)
    requires Wellformed(x) && Reaches(x, steps, s) && s.stopped && !s.body.Finished?
    ensures Typed(s)
    ensures
      || s.body.Registering? || s.body.Announcing?   // the stop callback has yet to be constructed
      || s.calls[StopCall(s)].Failing?               // it is about to record the failure
      || s.error.Some?
  {
    RunAttends(x, steps, s);
    var caster := RunKeepsInv(x, steps, s);
  }

  /** A stop before the stop callback is constructed is in time: the join then waits for its failure to be recorded. */
  lemma EarlyStopFailsJoin(x: Input, steps: seq<Step>, s: State)
    requires Wellformed(x) && Reaches(x, steps, s) && Enabled(s, OfBody(AfterSubscribe))
    ensures s.stopped && s.error.Some?
  {
    RunAttends(x, steps, s);
    var caster := RunKeepsInv(x, steps, s);
  }

  lemma SubscribeMeetsStop(s: State)
    requires Typed(s) && BodyEnabled(s, Subscribe)
    ensures BodyApply(s, Subscribe).body == if s.stopped then Subscribed else Waiting(0)
  {
  }

  // ---------------------------------------------------------------- the void join

  /** A void join that returns knows of every child that it has a value or was stopped by somebody else. */
  lemma VoidJoinReturns(x: Input, steps: seq<Step>, s: State, values: seq<int>)
    requires Wellformed(x) && x.isVoid && Reaches(x, steps, s) && s.body == Finished(Returned(values))
    ensures Typed(s) && ValueOrStopped(s)
  {
    var caster := RunKeepsInv(x, steps, s);
    RunEnds(x, steps, s);
  }

  /** A child that had settled before the join began is heard by the body itself. */
  predicate EarlyFact(s0: State, s: State, i: nat)
    requires Typed(s0) && Typed(s) && SameJoin(s0, s) && i < |s.handles|
  {
    ChildOf(s0, i).settled.Some? ==>
      && ChildOf(s, i).settled == ChildOf(s0, i).settled
      && !s.calls[i].Listed? && (Coming(s.calls[i]) ==> s.calls[i].runner.JoinBody?)
  }

  lemma EarlyAfterChild(s0: State, s: State, e: ChildStep, i: nat)
    requires Typed(s0) && Typed(s) && SameJoin(s0, s) && i < |s.handles| && ChildEnabled(s, e) && EarlyFact(s0, s, i)
    requires SameJoin(s, ChildApply(s, e))
    ensures EarlyFact(s0, ChildApply(s, e), i)
  {
  }

  lemma EarlyAfterBody(s0: State, s: State, b: BodyStep, i: nat)
    requires Typed(s0) && Typed(s) && SameJoin(s0, s) && i < |s.handles| && BodyEnabled(s, b) && EarlyFact(s0, s, i)
    requires SameJoin(s, BodyApply(s, b))
    ensures EarlyFact(s0, BodyApply(s, b), i)
  {
  }

  lemma EarlyAfterStop(s0: State, s: State, c: nat, i: nat)
    requires Typed(s0) && Typed(s) && SameJoin(s0, s) && i < |s.handles| && c < |s.children| && EarlyFact(s0, s, i)
    requires SameJoin(s, StopOne(s, c, false))
    ensures EarlyFact(s0, StopOne(s, c, false), i)
  {
  }

  lemma EarlyAfterCall(s0: State, s: State, k: CallStep, i: nat)
    requires Typed(s0) && Typed(s) && SameJoin(s0, s) && i < |s.handles| && CallEnabled(s, k) && EarlyFact(s0, s, i)
    requires SameJoin(s, CallApply(s, k))
    ensures EarlyFact(s0, CallApply(s, k), i)
  {
    if k.StopChild? {
      assert EarlyFact(s0, PassOne(s, k.a), i);
      EarlyAfterStop(s0, PassOne(s, k.a), s.handles[s.calls[k.a].next], i);
    }
  }

  lemma EarlyAfterStep(s0: State, s: State, step: Step, i: nat)
    requires Typed(s0) && Typed(s) && SameJoin(s0, s) && i < |s.handles| && Enabled(s, step) && EarlyFact(s0, s, i)
    requires SameJoin(s, Apply(s, step)) && Typed(Apply(s, step))
    ensures EarlyFact(s0, Apply(s, step), i)
  {
    match step {
      case OfChild(e) => EarlyAfterChild(s0, s, e, i);
      case OfBody(b) => EarlyAfterBody(s0, s, b, i);
      case OfCall(k) => EarlyAfterCall(s0, s, k, i);
      case OfWait(w) =>
      case StopJoin =>
    }
  }

  lemma {:induction false} RunKeepsEarly(x: Input, steps: seq<Step>, s: State, i: nat)
    requires Wellformed(x) && Reaches(x, steps, s) && i < |s.handles|
    ensures Typed(Begin(x)) && Typed(s) && SameJoin(Begin(x), s) && EarlyFact(Begin(x), s, i)
  {
    BeginInv(x);
    if steps != [] {
      var step, before := steps[|steps| - 1], Run(Begin(x), steps[..|steps| - 1]).value;
      StepKeepsJoin(before, step);
      RunKeepsEarly(x, steps[..|steps| - 1], before, i);
      EarlyAfterStep(Begin(x), before, step, i);
    }
  }

  predicate HasFailed(c: Child) {
    c.settled.Some? && c.settled.value.Error?
  }

  predicate AllReady(x: Input)
    requires Wellformed(x)
  {
    forall i: nat :: i < |x.handles| && x.handles[i].Some? ==> x.children[x.handles[i].value].settled.Some?
  }

  predicate SomeFailed(x: Input)
    requires Wellformed(x)
  {
    exists i: nat :: i < |x.handles| && x.handles[i].Some? && HasFailed(x.children[x.handles[i].value])
  }

  lemma HandleOf(x: Input, i: nat)
    requires Wellformed(x) && None !in x.handles && i < |x.handles|
    ensures x.handles[i].Some? && Typed(Begin(x)) && |Begin(x).handles| == |x.handles|
    ensures ChildOf(Begin(x), i) == x.children[x.handles[i].value]
  {
    assert x.handles[i] in x.handles;
  }

  lemma EarlyFailureIsHeard(x: Input, steps: seq<Step>, s: State, i: nat)
    requires Wellformed(x) && None !in x.handles && Reaches(x, steps, s) && i < |x.handles|
    requires x.handles[i].Some? && HasFailed(x.children[x.handles[i].value])
    requires s.body == Waiting(|s.handles|)
    ensures s.error.Some?
  {
    var caster := RunKeepsInv(x, steps, s);
    HandleOf(x, i);
    RunKeepsEarly(x, steps, s, i);
    assert HandleFact(s, i);
  }

  lemma {:induction false} EarlyFailureFails(x: Input, steps: seq<Step>, s: State, i: nat)
    requires Wellformed(x) && None !in x.handles && Reaches(x, steps, s) && i < |x.handles|
    requires x.handles[i].Some? && HasFailed(x.children[x.handles[i].value])
    ensures s.body.Finished? ==> !s.body.ending.Returned?
  {
    if steps != [] {
      var step, before := steps[|steps| - 1], Run(Begin(x), steps[..|steps| - 1]).value;
      EarlyFailureFails(x, steps[..|steps| - 1], before, i);
      if step == OfBody(Conclude) {
        EarlyFailureIsHeard(x, steps[..|steps| - 1], before, i);
      } else {
        OtherStepsLeaveEnding(before, step);
      }
    }
  }

  lemma EarlyValues(x: Input, steps: seq<Step>, s: State, i: nat)
    requires Wellformed(x) && None !in x.handles && Reaches(x, steps, s) && i < |x.handles|
    requires AllReady(x) && !SomeFailed(x)
    ensures Typed(s) && i < |s.handles| && HasValue(ChildOf(s, i))
  {
    var caster := RunKeepsInv(x, steps, s);
    HandleOf(x, i);
    RunKeepsEarly(x, steps, s, i);
    assert !HasFailed(x.children[x.handles[i].value]);
  }

  /** Whenever this join returns, every child has a value. */
  ghost predicate ReturnsOnlyWithValues(x: Input)
    requires Wellformed(x)
  {
    forall steps: seq<Step>, s: State :: Reaches(x, steps, s) && Typed(s) ==>
      s.body == Finished(Returned([])) ==> AllValues(s)
  }

  lemma TakeStep(x: Input, steps: seq<Step>, s: State, step: Step) returns (steps': seq<Step>, s': State)
    requires Wellformed(x) && Reaches(x, steps, s) && Enabled(s, step)
    ensures Reaches(x, steps', s') && s' == Apply(s, step)
  {
    steps', s' := steps + [step], Apply(s, step);
    assert steps'[..|steps'| - 1] == steps;
  }

  /** Nothing has been recorded, and no call that a completing child would have to wait for is running. */
  predicate Calm(s: State) {
    && s.error.None? && !s.stopped && s.isVoid && s.wait == NewWait(0)
    && forall a: nat :: a < |s.calls| ==>
         s.calls[a].Idle? || s.calls[a].Listed? || s.calls[a].Over? || s.calls[a] == Reading(Stopper)
  }

  lemma {:induction false} RegisterAll(x: Input, i: nat) returns (steps: seq<Step>, s: State)
    requires Wellformed(x) && x.isVoid && None !in x.handles && !SomeFailed(x) && i <= |x.handles|
    ensures Reaches(x, steps, s) && Typed(s) && SameJoin(Begin(x), s)
    ensures Calm(s) && s.body == Registering(i) && s.children == x.children
  {
    BeginInv(x);
    if i == 0 {
      steps, s := [], Begin(x);
    } else {
      steps, s := RegisterAll(x, i - 1);
      HandleOf(x, i - 1);
      assert !HasFailed(x.children[x.handles[i - 1].value]);
      steps, s := TakeStep(x, steps, s, OfBody(RegisterCallback));
      if s.body.Announcing? {
        steps, s := HearValue(x, steps, s, i - 1);
      }
    }
  }

  lemma ReadingValue(s: State, i: nat)
    requires Typed(s) && i < |s.handles| && s.calls[i].Reading? && HasValue(ChildOf(s, i))
    ensures Enabled(s, OfCall(ReadError(i))) && Apply(s, OfCall(ReadError(i))) == s.(calls := s.calls[i := Over])
  {
  }

  lemma AfterAnnouncing(s: State, i: nat)
    requires Typed(s) && i < |s.handles| && s.body == Announcing(i) && s.calls[i].Over?
    ensures Enabled(s, OfBody(AfterCallback)) && Apply(s, OfBody(AfterCallback)) == s.(body := Registering(i + 1))
  {
  }

  lemma HearValue(x: Input, steps: seq<Step>, s: State, i: nat) returns (steps': seq<Step>, s': State)
    requires Wellformed(x) && Reaches(x, steps, s) && Typed(s) && i < |s.handles|
    requires s.body == Announcing(i) && s.calls[i] == Reading(JoinBody) && HasValue(ChildOf(s, i))
    ensures Reaches(x, steps', s') && s' == s.(calls := s.calls[i := Over], body := Registering(i + 1))
  {
    ReadingValue(s, i);
    steps', s' := TakeStep(x, steps, s, OfCall(ReadError(i)));
    AfterAnnouncing(s', i);
    steps', s' := TakeStep(x, steps', s', OfBody(AfterCallback));
  }

  /** The first n children have completed; those that had not settled were stopped first. */
  predicate Cleared(x: Input, s: State, n: nat)
    requires Wellformed(x)
  {
    && |s.children| == |x.children|
    && (forall c: nat :: c < n && c < |s.children| ==>
          && s.children[c].completed
          && (x.children[c].settled.None? ==> s.children[c].settled == Some(Error(TaskCancelled))))
    && (forall c: nat :: n <= c < |s.children| ==> s.children[c] == x.children[c])
  }

  lemma StopIsCalm(s: State, c: nat)
    requires Typed(s) && Calm(s) && c < |s.children|
    ensures Calm(StopOne(s, c, true))
  {
  }

  lemma ClearOne(x: Input, steps: seq<Step>, s: State, c: nat) returns (steps': seq<Step>, s': State)
    requires Wellformed(x) && Reaches(x, steps, s) && Typed(s) && Calm(s) && s.body == Waiting(0)
    requires Cleared(x, s, c) && c < |s.children|
    ensures Reaches(x, steps', s') && Typed(s') && SameJoin(s, s') && Calm(s') && s'.body == Waiting(0)
    ensures Cleared(x, s', c + 1)
  {
    steps', s' := steps, s;
    if s.children[c].settled.None? {
      StepKeepsJoin(s, OfChild(StopOutside(c)));
      StopIsCalm(s, c);
      steps', s' := TakeStep(x, steps, s, OfChild(StopOutside(c)));
    }
    if !s'.children[c].completed {
      StepKeepsJoin(s', OfChild(Completes(c)));
      steps', s' := TakeStep(x, steps', s', OfChild(Completes(c)));
    }
  }

  lemma {:induction false} ClearAll(x: Input, n: nat) returns (steps: seq<Step>, s: State)
    requires Wellformed(x) && x.isVoid && None !in x.handles && !SomeFailed(x) && n <= |x.children|
    ensures Reaches(x, steps, s) && Typed(s) && SameJoin(Begin(x), s) && Calm(s) && s.body == Waiting(0)
    ensures Cleared(x, s, n)
  {
    if n == 0 {
      steps, s := RegisterAll(x, |x.handles|);
      BeginInv(x);
      StepKeepsJoin(s, OfBody(Subscribe));
      steps, s := TakeStep(x, steps, s, OfBody(Subscribe));
    } else {
      steps, s := ClearAll(x, n - 1);
      steps, s := ClearOne(x, steps, s, n - 1);
    }
  }

  lemma {:induction false} WaitAll(x: Input, i: nat) returns (steps: seq<Step>, s: State)
    requires Wellformed(x) && x.isVoid && None !in x.handles && !SomeFailed(x) && i <= |x.handles|
    ensures Reaches(x, steps, s) && Typed(s) && SameJoin(Begin(x), s) && Calm(s) && s.body == Waiting(i)
    ensures Cleared(x, s, |x.children|)
  {
    if i == 0 {
      steps, s := ClearAll(x, |x.children|);
    } else {
      steps, s := WaitAll(x, i - 1);
      HandleOf(x, i - 1);
      assert ChildOf(s, i - 1).completed;
      StepKeepsJoin(s, OfBody(AskFinished));
      steps, s := TakeStep(x, steps, s, OfBody(AskFinished));
    }
  }

  lemma MissedCancellation(x: Input, i: nat) returns (steps: seq<Step>, s: State)
    requires Wellformed(x) && x.isVoid && None !in x.handles && !SomeFailed(x)
    requires i < |x.handles| && x.handles[i].Some? && x.children[x.handles[i].value].settled.None?
    ensures Reaches(x, steps, s) && Typed(s) && s.body == Finished(Returned([]))
    ensures !AllValues(s)
  {
    var caster;
    steps, s := WaitAll(x, |x.handles|);
    caster := RunKeepsInv(x, steps, s);
    HandleOf(x, i);
    assert !HasValue(ChildOf(s, i));
    forall j: nat | j < |s.handles|
      ensures ChildOf(s, j).settled.Some?
    {
      assert ChildOf(s, j).completed && Sane(s.children[s.handles[j]], false);
    }
    StepKeepsJoin(s, OfBody(Conclude));
    ghost var before := s;
    steps, s := TakeStep(x, steps, s, OfBody(Conclude));
    assert ChildOf(s, i) == ChildOf(before, i);
  }

  /** A void join can return although a child was cancelled: a child that somebody stops may complete before
      its settlement callback has run.  It cannot exactly if all children had settled before the join began,
      or one of them had failed by then. */
  lemma VoidJoinIsRightExactlyWhen(x: Input)
    requires Wellformed(x) && x.isVoid && None !in x.handles
    ensures ReturnsOnlyWithValues(x) <==> AllReady(x) || SomeFailed(x)
  {
    if SomeFailed(x) {
      var i: nat :| i < |x.handles| && x.handles[i].Some? && HasFailed(x.children[x.handles[i].value]);
      forall steps: seq<Step>, s: State | Reaches(x, steps, s) && Typed(s)
        ensures s.body == Finished(Returned([])) ==> AllValues(s)
      {
        EarlyFailureFails(x, steps, s, i);
      }
    } else if AllReady(x) {
      forall steps: seq<Step>, s: State | Reaches(x, steps, s) && Typed(s)
        ensures s.body == Finished(Returned([])) ==> AllValues(s)
      {
        ReadyHaveValues(x, steps, s);
      }
    } else {
      var i: nat :| i < |x.handles| && x.handles[i].Some? && x.children[x.handles[i].value].settled.None?;
      var steps, s := MissedCancellation(x, i);
    }
  }

  lemma ReadyHaveValues(x: Input, steps: seq<Step>, s: State)
    requires Wellformed(x) && None !in x.handles && Reaches(x, steps, s) && AllReady(x) && !SomeFailed(x)
    ensures Typed(s) && AllValues(s)
  {
    var caster := RunKeepsInv(x, steps, s);
    forall i: nat | i < |s.handles|
      ensures HasValue(ChildOf(s, i))
    {
      EarlyValues(x, steps, s, i);
    }
  }

  // ---------------------------------------------------------------- progress

  lemma CallCanMove(s: State, a: nat, caster: Option<nat>) returns (k: CallStep)
    requires Inv(s, caster) && a < |s.calls| && Alive(s.calls[a])
    ensures CallEnabled(s, k)
  {
    k := if s.calls[a].Reading? then ReadError(a)
         else if s.calls[a].Failing? then Record(a)
         else if s.calls[a].Casting? then Look(a)
         else StopChild(a);
  }

  /** The join's own steps, and those of a scheduler that runs or drops what it was given. */
  predicate Own(step: Step) {
    step.OfBody? || step.OfCall? || step.OfWait?
  }

  /** Once every child has completed, the join can always go on by itself until it has finished. */
  lemma NothingIsStuck(x: Input, steps: seq<Step>, s: State) returns (step: Step)
    requires Wellformed(x) && Reaches(x, steps, s) && !s.body.Finished?
    requires Typed(s) && CompletedTo(s, |s.handles|)
    ensures Own(step) && Enabled(s, step)
  {
    var caster := RunKeepsInv(x, steps, s);
    match s.body {
      case Registering(i) => step := OfBody(if i < |s.handles| then RegisterCallback else Subscribe);
      case Waiting(i) =>
        step := OfBody(if i < |s.handles| then AskFinished else Conclude);
        AllAreSettled(s, caster);
      case Suspending(i) => step := OfBody(Register);
      case Suspended(i) =>
        assert ChildOf(s, i).completed;
        step := if s.wait.notice.Due? then OfWait(RunNotice)
                else if s.wait.ticket.Issued? then OfWait(RunTicket)
                else OfBody(Resume);
      case Announcing(i) =>
        assert HandleFact(s, i) && ChildOf(s, i).completed && Sane(s.children[s.handles[i]], s.error.Some?);
        step := MoveOr(s, i, caster, AfterCallback);
      case Subscribed => step := MoveOr(s, StopCall(s), caster, AfterSubscribe);
      case Catching(i) => step := MoveOr(s, CatchCall(s), caster, AfterCatch);
    }
  }

  lemma MoveOr(s: State, a: nat, caster: Option<nat>, b: BodyStep) returns (step: Step)
    requires Inv(s, caster) && a < |s.calls| && (Alive(s.calls[a]) || s.calls[a].Over?)
    requires s.calls[a].Over? ==> BodyEnabled(s, b)
    ensures Own(step) && Enabled(s, step)
  {
    if s.calls[a].Over? {
      step := OfBody(b);
    } else {
      var k := CallCanMove(s, a, caster);
      step := OfCall(k);
    }
  }

  lemma AllAreSettled(s: State, caster: Option<nat>)
    requires Inv(s, caster) && CompletedTo(s, |s.handles|)
    ensures AllSettled(s)
  {
    forall j: nat | j < |s.handles|
      ensures ChildOf(s, j).settled.Some?
    {
      assert ChildOf(s, j).completed && Sane(s.children[s.handles[j]], s.error.Some?);
    }
  }

  /** How far the body is from its end. */
  function BodyRank(s: State): int {
    var n := |s.handles|;
    match s.body
    case Registering(i) => 2 * (n - i) + 6 * n + 5
    case Announcing(i) => 2 * (n - i) + 6 * n + 4
    case Subscribed => 6 * n + 4
    case Waiting(i) => 6 * (n - i) + 1
    case Suspending(i) => 6 * (n - i)
    case Suspended(i) => 6 * (n - i) - (if !s.wait.notice.Ran? then 1 else if s.wait.ticket.Issued? then 2 else 3)
    case Catching(i) => 6 * (n - i) - 4
    case Finished(ending) => 0
  }

  /** How many steps a call has left, at most. */
  function CallRank(k: Call, n: nat): nat {
    match k
    case Idle => 0
    case Listed => 2 * n + 6
    case Reading(runner) => 2 * n + 5
    case Failing(failure, runner) => 2 * n + 4
    case Casting(next, runner) => if next <= n then 2 * (n - next) + 2 else 2
    case Stopping(next, runner) => if next < n then 2 * (n - next) + 1 else 1
    case Over => 0
  }

  function Work(calls: seq<Call>, n: nat): nat {
    if calls == [] then 0 else Work(calls[..|calls| - 1], n) + CallRank(calls[|calls| - 1], n)
  }

  lemma {:induction false} WorkFalls(before: seq<Call>, after: seq<Call>, n: nat)
    requires |before| == |after| && forall a :: 0 <= a < |before| ==> CallRank(after[a], n) <= CallRank(before[a], n)
    ensures Work(after, n) <= Work(before, n)
    ensures (exists a :: 0 <= a < |before| && CallRank(after[a], n) < CallRank(before[a], n)) ==>
      Work(after, n) < Work(before, n)
  {
    if before != [] {
      var last := |before| - 1;
      WorkFalls(before[..last], after[..last], n);
      if a :| 0 <= a < |before| && CallRank(after[a], n) < CallRank(before[a], n) {
        assert a < last ==> CallRank(after[..last][a], n) < CallRank(before[..last][a], n);
      }
    }
  }

  predicate NoHigher(s: State, t: State) {
    |t.calls| == |s.calls| && t.handles == s.handles
    && forall a :: 0 <= a < |s.calls| ==> CallRank(t.calls[a], |s.handles|) <= CallRank(s.calls[a], |s.handles|)
  }

  lemma StopRanks(s: State, c: nat, outside: bool)
    requires Typed(s) && c < |s.children|
    ensures NoHigher(s, StopOne(s, c, outside))
  {
  }

  lemma PassRanks(s: State, a: nat)
    requires Typed(s) && CallEnabled(s, StopChild(a))
    ensures Typed(PassOne(s, a)) && NoHigher(s, PassOne(s, a))
    ensures CallRank(PassOne(s, a).calls[a], |s.handles|) < CallRank(s.calls[a], |s.handles|)
  {
  }

  lemma StopChildRanks(s: State, a: nat)
    requires Typed(s) && CallEnabled(s, StopChild(a))
    ensures NoHigher(s, CallApply(s, StopChild(a)))
    ensures CallRank(CallApply(s, StopChild(a)).calls[a], |s.handles|) < CallRank(s.calls[a], |s.handles|)
  {
    PassRanks(s, a);
    StopRanks(PassOne(s, a), s.handles[s.calls[a].next], false);
  }

  lemma LookRanks(s: State, a: nat)
    requires Typed(s) && CallEnabled(s, Look(a))
    ensures NoHigher(s, CallApply(s, Look(a)))
    ensures CallRank(CallApply(s, Look(a)).calls[a], |s.handles|) < CallRank(s.calls[a], |s.handles|)
  {
  }

  lemma ReadRanks(s: State, a: nat)
    requires Typed(s) && CallEnabled(s, ReadError(a))
    ensures NoHigher(s, CallApply(s, ReadError(a)))
    ensures CallRank(CallApply(s, ReadError(a)).calls[a], |s.handles|) < CallRank(s.calls[a], |s.handles|)
  {
  }

  lemma RecordRanks(s: State, a: nat)
    requires Typed(s) && CallEnabled(s, Record(a))
    ensures NoHigher(s, CallApply(s, Record(a)))
    ensures CallRank(CallApply(s, Record(a)).calls[a], |s.handles|) < CallRank(s.calls[a], |s.handles|)
  {
  }

  lemma CallRanks(s: State, k: CallStep)
    requires Typed(s) && CallEnabled(s, k)
    ensures NoHigher(s, CallApply(s, k))
    ensures CallRank(CallApply(s, k).calls[k.a], |s.handles|) < CallRank(s.calls[k.a], |s.handles|)
  {
    match k {
      case ReadError(a) => ReadRanks(s, a);
      case Record(a) => RecordRanks(s, a);
      case Look(a) => LookRanks(s, a);
      case StopChild(a) => StopChildRanks(s, a);
    }
  }

  lemma ChildRanks(s: State, e: ChildStep)
    requires Typed(s) && ChildEnabled(s, e)
    ensures NoHigher(s, ChildApply(s, e))
  {
  }

  lemma BodyRanks(s: State, b: BodyStep)
    requires Typed(s) && BodyEnabled(s, b) && Past(s) && WaitFits(s) && WaitMatches(s)
    ensures 0 <= BodyRank(BodyApply(s, b)) < BodyRank(s)
  {
  }

  lemma WaitRanks(s: State, w: WaitStep)
    requires Typed(s) && WaitEnabled(s, w) && Past(s) && WaitFits(s) && WaitMatches(s)
    ensures 0 <= BodyRank(WaitApply(s, w)) < BodyRank(s)
  {
  }

  lemma ChildKeepsRank(s: State, e: ChildStep)
    requires Typed(s) && ChildEnabled(s, e)
    ensures BodyRank(ChildApply(s, e)) == BodyRank(s)
  {
  }

  lemma CallKeepsRank(s: State, k: CallStep)
    requires Typed(s) && CallEnabled(s, k)
    ensures BodyRank(CallApply(s, k)) == BodyRank(s)
  {
  }

  /** The join's own steps run out: each of them lowers the body's distance from its end, or leaves it alone
      and lowers the work left in its calls; no other step raises either. */
  lemma OwnStepsRunOut(x: Input, steps: seq<Step>, s: State, step: Step)
    requires Wellformed(x) && Reaches(x, steps, s) && Enabled(s, step)
    ensures
      var t, n := Apply(s, step), |s.handles|;
      match step
      case OfBody(b) => 0 <= BodyRank(t) < BodyRank(s)
      case OfWait(w) => 0 <= BodyRank(t) < BodyRank(s) && t.calls == s.calls
      case OfCall(k) => BodyRank(t) == BodyRank(s) && Work(t.calls, n) < Work(s.calls, n)
      case other => BodyRank(t) == BodyRank(s) && Work(t.calls, n) <= Work(s.calls, n)
  {
    var caster := RunKeepsInv(x, steps, s);
    StepKeepsJoin(s, step);
    var t, n := Apply(s, step), |s.handles|;
    match step {
      case OfBody(b) => BodyRanks(s, b);
      case OfWait(w) => WaitRanks(s, w);
      case OfCall(k) =>
        CallIsForward(s, k);
        CallKeepsRank(s, k);
        CallRanks(s, k);
        WorkFalls(s.calls, t.calls, n);
      case OfChild(e) =>
        ChildSameCasts(s, e);
        ChildKeepsRank(s, e);
        ChildRanks(s, e);
        WorkFalls(s.calls, t.calls, n);
      case StopJoin => WorkFalls(s.calls, t.calls, n);
    }
  }
}
