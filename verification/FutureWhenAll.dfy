/** when_all of vfuture.h: the counter protocol that its callbacks follow, in every interleaving of the
    registering loop, the settling inputs, the callbacks and a cancellation of the result. */
module FutureWhenAll {
  import opened FutureCell

  /** The state of the resulting future. */
  datatype Completion = Open | Values(values: seq<int>) | Failed(error: Failure)

  datatype Failure = NullFuture | ResultCancelled | Input(error: Error)

  /** The callback pair registered with one input, from its registration on. */
  datatype Hook = Unset | Waiting | Ready(d: Delivery) | Delivering(outcome: Completion) | Over

  datatype Loop = At(index: nat) | Inside(index: nat) | Done

  /** `inputs` are the futures' cells; `futures[i]` is the cell of the i-th argument, or None for a null
      pointer.  `settled`, `remaining` and `values` are the shared state; `firstFailure` is the error of the
      first failing callback that found it unsettled. */
  datatype Join = Join(inputs: seq<State>, futures: seq<Option<nat>>, hooks: seq<Hook>, loop: Loop, settled: bool,
                       remaining: int, values: seq<Option<int>>, completion: Completion, cancelled: bool,
                       firstFailure: Option<Error>)

  predicate ArgumentsOk(inputs: seq<State>, futures: seq<Option<nat>>) {
    forall i :: 0 <= i < |futures| && futures[i].Some? ==> futures[i].value < |inputs|
  }

  function Init(inputs: seq<State>, futures: seq<Option<nat>>): Join {
    var n := |futures|;
    if n == 0 then Join(inputs, [], [], Done, false, 0, [], Values([]), false, None)
    else Join(inputs, futures, seq(n, _ => Unset), At(0), false, n, seq(n, _ => None), Open, false, None)
  }

  predicate Typed(s: Join) {
    && |s.hooks| == |s.values| == |s.futures| && ArgumentsOk(s.inputs, s.futures)
    && (s.loop.At? ==> s.loop.index <= |s.futures|)
    && (s.loop.Inside? ==> s.loop.index < |s.futures| && s.futures[s.loop.index].Some?)
  }

  datatype Step =
    | SettleInput(c: nat, target: State)
    | RegisterNext
    | LoopOn
    | RunHook(i: nat)
    | Deliver(i: nat)
    | CancelResult

  predicate Enabled(s: Join, step: Step) {
    && Typed(s)
    && match step
       case SettleInput(c, target) => c < |s.inputs| && s.inputs[c].Pending? && !target.Pending?
       case RegisterNext => s.loop.At?
       case LoopOn => s.loop.Inside? && s.hooks[s.loop.index].Over?
       case RunHook(i) => i < |s.hooks| && s.hooks[i].Ready?
       case Deliver(i) => i < |s.hooks| && s.hooks[i].Delivering?
       case CancelResult => true
  }

  function Complete(s: Join, outcome: Completion): Join {
    if s.completion.Open? then s.(completion := outcome) else s
  }

  function DoSettle(s: Join, c: nat, target: State): Join
    requires Enabled(s, SettleInput(c, target))
  {
    s.(inputs := s.inputs[c := target],
       hooks := seq(|s.hooks|, i requires 0 <= i < |s.hooks| =>
         if s.hooks[i].Waiting? && s.futures[i] == Some(c) then Ready(Outcome(target)) else s.hooks[i]))
  }

  function DoRegister(s: Join): Join
    requires Enabled(s, RegisterNext)
  {
    var i := s.loop.index;
    if i == |s.futures| then s.(loop := Done)
    else
      match s.futures[i]
      case None => Complete(s, Failed(NullFuture)).(loop := Done)
      case Some(c) =>
        if s.inputs[c].Pending? then s.(hooks := s.hooks[i := Waiting], loop := At(i + 1))
        else s.(hooks := s.hooks[i := Ready(Outcome(s.inputs[c]))], loop := Inside(i))
  }

  function Unwrap(values: seq<Option<int>>): seq<int> {
    seq(|values|, i requires 0 <= i < |values| => if values[i].Some? then values[i].value else 0)
  }

  /** The section under the shared mutex. */
  function DoRun(s: Join, i: nat): Join
    requires Enabled(s, RunHook(i))
  {
    if s.settled then s.(hooks := s.hooks[i := Over])
    else
      match s.hooks[i].d
      case Failure(error) =>
        s.(hooks := s.hooks[i := Delivering(Failed(Input(error)))], settled := true, firstFailure := Some(error))
      case Success(value) =>
        var values := s.values[i := Some(value)];
        if s.remaining == 1 then
          s.(hooks := s.hooks[i := Delivering(Values(Unwrap(values)))], settled := true, values := values,
            remaining := 0)
        else s.(hooks := s.hooks[i := Over], values := values, remaining := s.remaining - 1)
  }

  function DoDeliver(s: Join, i: nat): Join
    requires Enabled(s, Deliver(i))
  {
    Complete(s, s.hooks[i].outcome).(hooks := s.hooks[i := Over])
  }

  function Apply(s: Join, step: Step): Join
    requires Enabled(s, step)
  {
    match step
    case SettleInput(c, target) => DoSettle(s, c, target)
    case RegisterNext => DoRegister(s)
    case LoopOn => s.(loop := At(s.loop.index + 1))
    case RunHook(i) => DoRun(s, i)
    case Deliver(i) => DoDeliver(s, i)
    case CancelResult => Complete(s, Failed(ResultCancelled)).(cancelled := true)
  }

  function Run(start: Join, steps: seq<Step>): Option<Join>
  {
    if steps == [] then Some(start)
    else
      match Run(start, steps[..|steps| - 1])
      case None => None
      case Some(s) =>
        var step := steps[|steps| - 1];
        if Enabled(s, step) then Some(Apply(s, step)) else None
  }

  // ---------------------------------------------------------------- what always holds

  function Missing(values: seq<Option<int>>): nat {
    if values == [] then 0
    else Missing(values[..|values| - 1]) + if values[|values| - 1].None? then 1 else 0
  }

  lemma {:induction false} MissingFalls(values: seq<Option<int>>, i: nat, v: int)
    requires i < |values| && values[i].None?
    ensures Missing(values[i := Some(v)]) == Missing(values) - 1
  {
    var last := |values| - 1;
    if i < last {
      MissingFalls(values[..last], i, v);
      assert values[i := Some(v)][..last] == values[..last][i := Some(v)];
    } else {
      assert values[i := Some(v)][..last] == values[..last];
    }
  }

  lemma {:induction false} NothingMissing(values: seq<Option<int>>)
    ensures Missing(values) == 0 <==> forall i :: 0 <= i < |values| ==> values[i].Some?
  {
    if values != [] {
      NothingMissing(values[..|values| - 1]);
      assert forall i :: 0 <= i < |values| - 1 ==> values[i] == values[..|values| - 1][i];
    }
  }

  lemma {:induction false} AllMissing(n: nat)
    ensures Missing(seq<Option<int>>(n, _ => None)) == n
  {
    if n > 0 {
      AllMissing(n - 1);
      assert seq<Option<int>>(n, _ => None)[..n - 1] == seq<Option<int>>(n - 1, _ => None);
    }
  }

  function Registered(s: Join): nat {
    match s.loop
    case At(i) => i
    case Inside(i) => i + 1
    case Done => |s.futures|
  }

  function InputOf(s: Join, i: nat): State
    requires Typed(s) && i < |s.futures| && s.futures[i].Some?
  {
    s.inputs[s.futures[i].value]
  }

  /** The values that the inputs of all arguments have. */
  predicate AreValues(s: Join, values: seq<int>)
    requires Typed(s)
  {
    && |values| == |s.futures|
    && forall i: nat :: i < |s.futures| ==> s.futures[i].Some? && InputOf(s, i) == HasValue(values[i])
  }

  predicate HookOk(s: Join, i: nat)
    requires Typed(s) && i < |s.futures|
  {
    && (i >= Registered(s) ==> s.hooks[i].Unset?)
    && (s.hooks[i].Unset? ==> i >= Registered(s) || (s.loop.Done? && None in s.futures))
    && (!s.hooks[i].Unset? ==> s.futures[i].Some?)
    && (s.hooks[i].Waiting? ==> InputOf(s, i).Pending? && s.loop != Inside(i))
    && (s.hooks[i].Ready? ==> !InputOf(s, i).Pending? && s.hooks[i].d == Outcome(InputOf(s, i)))
    && (s.values[i].Some? ==> s.futures[i].Some? && InputOf(s, i) == HasValue(s.values[i].value)
                              && (s.hooks[i].Over? || s.hooks[i].Delivering?))
    && (!s.settled && s.hooks[i].Over? ==> s.values[i].Some?)
    && (s.hooks[i].Delivering? ==> s.settled && OutcomeOk(s, s.hooks[i].outcome))
  }

  /** Some argument's input has failed with this error. */
  predicate HasFailed(s: Join, error: Error)
    requires Typed(s)
  {
    exists i: nat :: i < |s.futures| && s.futures[i].Some? && !InputOf(s, i).Pending? &&
      Outcome(InputOf(s, i)) == Failure(error)
  }

  predicate OutcomeOk(s: Join, outcome: Completion)
    requires Typed(s)
  {
    match outcome
    case Open => false
    case Values(values) => AreValues(s, values)
    case Failed(Input(error)) => s.firstFailure == Some(error)
    case Failed(ResultCancelled) => s.cancelled
    case Failed(NullFuture) => None in s.futures
  }

  predicate NullsOk(s: Join) {
    s.loop.Done? && None in s.futures ==> !s.completion.Open?
  }

  ghost predicate Inv(s: Join) {
    && Typed(s)
    && (forall i: nat :: i < |s.futures| ==> HookOk(s, i))
    && s.remaining == Missing(s.values)
    && (!s.settled && s.futures != [] ==> s.remaining > 0)
    && (s.firstFailure.Some? ==> s.settled && HasFailed(s, s.firstFailure.value))
    && (!s.completion.Open? ==> OutcomeOk(s, s.completion))
    && (s.futures == [] ==> !s.completion.Open?)
    && NullsOk(s)
    && (s.settled && s.completion.Open? ==> exists i: nat :: i < |s.hooks| && s.hooks[i].Delivering?)
  }

  lemma InitInv(inputs: seq<State>, futures: seq<Option<nat>>)
    requires ArgumentsOk(inputs, futures)
    ensures Inv(Init(inputs, futures))
  {
    var s := Init(inputs, futures);
    AllMissing(|futures|);
    forall i: nat | i < |s.futures|
      ensures HookOk(s, i)
    {
    }
  }

  /** Inputs only settle, and what has been recorded stays. */
  predicate Forward(s: Join, t: Join) {
    && Typed(s) && Typed(t) && t.futures == s.futures && |t.inputs| == |s.inputs|
    && (forall c :: 0 <= c < |s.inputs| && !s.inputs[c].Pending? ==> t.inputs[c] == s.inputs[c])
    && (s.firstFailure.Some? ==> t.firstFailure == s.firstFailure)
    && (s.cancelled ==> t.cancelled) && (s.settled ==> t.settled)
  }

  lemma OutcomeStays(s: Join, t: Join, outcome: Completion)
    requires Forward(s, t) && OutcomeOk(s, outcome)
    ensures OutcomeOk(t, outcome)
  {
    if outcome.Values? {
      forall i: nat | i < |t.futures|
        ensures t.futures[i].Some? && InputOf(t, i) == HasValue(outcome.values[i])
      {
        assert InputOf(s, i) == HasValue(outcome.values[i]);
      }
    }
  }

  lemma FailureStays(s: Join, t: Join, error: Error)
    requires Forward(s, t) && HasFailed(s, error)
    ensures HasFailed(t, error)
  {
    var i: nat :| i < |s.futures| && s.futures[i].Some? && !InputOf(s, i).Pending? &&
      Outcome(InputOf(s, i)) == Failure(error);
    assert InputOf(t, i) == InputOf(s, i);
  }

  /** The parts of the invariant that follow once the hooks are right. */
  lemma Recorded(s: Join, t: Join)
    requires Inv(s) && Forward(s, t)
    requires t.firstFailure == s.firstFailure && t.completion == s.completion
    ensures t.firstFailure.Some? ==> t.settled && HasFailed(t, t.firstFailure.value)
    ensures !t.completion.Open? ==> OutcomeOk(t, t.completion)
  {
    if s.firstFailure.Some? {
      FailureStays(s, t, s.firstFailure.value);
    }
    if !s.completion.Open? {
      OutcomeStays(s, t, s.completion);
    }
  }

  lemma DeliveringStays(s: Join, t: Join)
    requires |t.hooks| == |s.hooks| && forall i :: 0 <= i < |s.hooks| && s.hooks[i].Delivering? ==>
      t.hooks[i] == s.hooks[i]
    requires exists i: nat :: i < |s.hooks| && s.hooks[i].Delivering?
    ensures exists i: nat :: i < |t.hooks| && t.hooks[i].Delivering?
  {
    var i: nat :| i < |s.hooks| && s.hooks[i].Delivering?;
    assert t.hooks[i].Delivering?;
  }

  lemma HookAfterSettle(s: Join, c: nat, target: State, i: nat)
    requires Typed(s) && i < |s.futures| && HookOk(s, i) && Enabled(s, SettleInput(c, target))
    ensures HookOk(DoSettle(s, c, target), i)
  {
    var t := DoSettle(s, c, target);
    if s.hooks[i].Delivering? {
      OutcomeStays(s, t, s.hooks[i].outcome);
    }
  }

  lemma SettleKeeps(s: Join, c: nat, target: State)
    requires Inv(s) && Enabled(s, SettleInput(c, target))
    ensures Inv(DoSettle(s, c, target))
  {
    var t := DoSettle(s, c, target);
    Recorded(s, t);
    if s.settled && s.completion.Open? {
      DeliveringStays(s, t);
    }
    forall i: nat | i < |t.futures|
      ensures HookOk(t, i)
    {
      HookAfterSettle(s, c, target, i);
    }
  }

  lemma HookAfterRegister(s: Join, i: nat)
    requires Typed(s) && i < |s.futures| && HookOk(s, i) && Enabled(s, RegisterNext)
    requires s.loop.index < |s.futures| ==> HookOk(s, s.loop.index)
    ensures HookOk(DoRegister(s), i)
  {
    var t := DoRegister(s);
    if s.hooks[i].Delivering? {
      OutcomeStays(s, t, s.hooks[i].outcome);
    }
    if s.loop.index < |s.futures| && s.futures[s.loop.index].None? {
      assert s.futures[s.loop.index] in s.futures;
    }
  }

  lemma RegisterKeeps(s: Join)
    requires Inv(s) && Enabled(s, RegisterNext)
    ensures Inv(DoRegister(s))
  {
    var t, k := DoRegister(s), s.loop.index;
    assert k < |s.futures| ==> HookOk(s, k);
    forall i: nat | i < |t.futures|
      ensures HookOk(t, i)
    {
      HookAfterRegister(s, i);
    }
    if s.settled && s.completion.Open? {
      DeliveringStays(s, t);
    }
    if k < |s.futures| && s.futures[k].None? && s.completion.Open? {
      assert s.futures[k] in s.futures;
      if s.firstFailure.Some? {
        FailureStays(s, t, s.firstFailure.value);
      }
    } else {
      Recorded(s, t);
      if k == |s.futures| {
        NoNullsPassed(s);
      }
    }
  }

  /** Having come to its end, the loop has met no null pointer. */
  lemma NoNullsPassed(s: Join)
    requires Inv(s) && s.loop == At(|s.futures|)
    ensures None !in s.futures
  {
    forall i: nat | i < |s.futures|
      ensures s.futures[i].Some?
    {
      assert HookOk(s, i);
    }
  }

  lemma LoopOnKeeps(s: Join)
    requires Inv(s) && Enabled(s, LoopOn)
    ensures Inv(Apply(s, LoopOn))
  {
    var t := Apply(s, LoopOn);
    Recorded(s, t);
    forall i: nat | i < |t.futures|
      ensures HookOk(t, i)
    {
      assert HookOk(s, i);
      if s.hooks[i].Delivering? {
        OutcomeStays(s, t, s.hooks[i].outcome);
      }
    }
    if s.settled && s.completion.Open? {
      DeliveringStays(s, t);
    }
  }

  lemma OtherHook(s: Join, t: Join, i: nat)
    requires Forward(s, t) && i < |s.futures| && HookOk(s, i) && t.loop == s.loop && t.inputs == s.inputs
    requires t.hooks[i] == s.hooks[i] && t.values[i] == s.values[i]
    ensures HookOk(t, i)
  {
    if s.hooks[i].Delivering? {
      OutcomeStays(s, t, s.hooks[i].outcome);
    }
  }

  lemma RunSettledKeeps(s: Join, i: nat)
    requires Inv(s) && Enabled(s, RunHook(i)) && s.settled
    ensures Inv(DoRun(s, i))
  {
    var t := DoRun(s, i);
    Recorded(s, t);
    assert HookOk(s, i);
    forall j: nat | j < |t.futures|
      ensures HookOk(t, j)
    {
      if j != i {
        assert HookOk(s, j);
        OtherHook(s, t, j);
      }
    }
    if s.completion.Open? {
      DeliveringStays(s, t);
    }
  }

  lemma RunFailureKeeps(s: Join, i: nat)
    requires Inv(s) && Enabled(s, RunHook(i)) && !s.settled && s.hooks[i].d.Failure?
    ensures Inv(DoRun(s, i))
  {
    var t := DoRun(s, i);
    assert HookOk(s, i) && Outcome(InputOf(t, i)) == s.hooks[i].d;
    if !s.completion.Open? {
      OutcomeStays(s, t, s.completion);
    }
    forall j: nat | j < |t.futures|
      ensures HookOk(t, j)
    {
      if j != i {
        assert HookOk(s, j);
        OtherHook(s, t, j);
      }
    }
    assert t.hooks[i].Delivering?;
  }

  lemma RunValueHooks(s: Join, i: nat)
    requires Inv(s) && Enabled(s, RunHook(i)) && !s.settled && s.hooks[i].d.Success?
    ensures
      var t := DoRun(s, i);
      && Forward(s, t) && t.values == s.values[i := Some(s.hooks[i].d.value)] && s.values[i].None?
      && (forall j: nat :: j < |t.futures| && j != i ==> HookOk(t, j))
      && s.futures[i].Some? && InputOf(t, i) == HasValue(s.hooks[i].d.value)
  {
    var t := DoRun(s, i);
    assert HookOk(s, i);
    forall j: nat | j < |t.futures| && j != i
      ensures HookOk(t, j)
    {
      assert HookOk(s, j);
      OtherHook(s, t, j);
    }
  }

  lemma RunValueKeeps(s: Join, i: nat)
    requires Inv(s) && Enabled(s, RunHook(i)) && !s.settled && s.hooks[i].d.Success? && s.remaining > 1
    ensures Inv(DoRun(s, i))
  {
    var t := DoRun(s, i);
    RunValueHooks(s, i);
    MissingFalls(s.values, i, s.hooks[i].d.value);
    Recorded(s, t);
    assert HookOk(s, i) && HookOk(t, i);
  }

  /** The last value completes the list. */
  lemma LastValue(s: Join, i: nat)
    requires Inv(s) && Enabled(s, RunHook(i)) && !s.settled && s.hooks[i].d.Success? && s.remaining == 1
    ensures AreValues(DoRun(s, i), Unwrap(DoRun(s, i).values)) && Missing(DoRun(s, i).values) == 0
  {
    var t := DoRun(s, i);
    RunValueHooks(s, i);
    MissingFalls(s.values, i, s.hooks[i].d.value);
    NothingMissing(t.values);
    forall j: nat | j < |t.futures|
      ensures t.futures[j].Some? && InputOf(t, j) == HasValue(Unwrap(t.values)[j])
    {
      assert t.values[j].Some?;
      if j != i {
        assert HookOk(t, j);
      }
    }
  }

  lemma RunLastKeeps(s: Join, i: nat)
    requires Inv(s) && Enabled(s, RunHook(i)) && !s.settled && s.hooks[i].d.Success? && s.remaining == 1
    ensures Inv(DoRun(s, i))
  {
    var t := DoRun(s, i);
    RunValueHooks(s, i);
    LastValue(s, i);
    Recorded(s, t);
    assert HookOk(s, i) && HookOk(t, i);
    assert t.hooks[i].Delivering?;
  }

  lemma RunKeeps(s: Join, i: nat)
    requires Inv(s) && Enabled(s, RunHook(i))
    ensures Inv(DoRun(s, i))
  {
    assert HookOk(s, i);
    if s.settled {
      RunSettledKeeps(s, i);
    } else if s.hooks[i].d.Failure? {
      RunFailureKeeps(s, i);
    } else if s.remaining == 1 {
      RunLastKeeps(s, i);
    } else {
      RunValueKeeps(s, i);
    }
  }

  lemma DeliverKeeps(s: Join, i: nat)
    requires Inv(s) && Enabled(s, Deliver(i))
    ensures Inv(DoDeliver(s, i))
  {
    var t := DoDeliver(s, i);
    assert HookOk(s, i);
    OutcomeStays(s, t, s.hooks[i].outcome);
    if !s.completion.Open? {
      OutcomeStays(s, t, s.completion);
    }
    if s.firstFailure.Some? {
      FailureStays(s, t, s.firstFailure.value);
    }
    forall j: nat | j < |t.futures|
      ensures HookOk(t, j)
    {
      assert HookOk(s, j);
      if j != i {
        OtherHook(s, t, j);
      }
    }
  }

  lemma CancelKeeps(s: Join)
    requires Inv(s)
    ensures Inv(Apply(s, CancelResult))
  {
    var t := Apply(s, CancelResult);
    if !s.completion.Open? {
      OutcomeStays(s, t, s.completion);
    }
    if s.firstFailure.Some? {
      FailureStays(s, t, s.firstFailure.value);
    }
    forall j: nat | j < |t.futures|
      ensures HookOk(t, j)
    {
      assert HookOk(s, j);
      OtherHook(s, t, j);
    }
  }

  lemma StepKeepsInv(s: Join, step: Step)
    requires Inv(s) && Enabled(s, step)
    ensures Inv(Apply(s, step))
  {
    match step {
      case SettleInput(c, target) => SettleKeeps(s, c, target);
      case RegisterNext => RegisterKeeps(s);
      case LoopOn => LoopOnKeeps(s);
      case RunHook(i) => RunKeeps(s, i);
      case Deliver(i) => DeliverKeeps(s, i);
      case CancelResult => CancelKeeps(s);
    }
  }

  lemma {:induction false} RunKeepsInv(inputs: seq<State>, futures: seq<Option<nat>>, steps: seq<Step>, s: Join)
    requires ArgumentsOk(inputs, futures) && Run(Init(inputs, futures), steps) == Some(s)
    ensures Inv(s) && s.futures == futures
  {
    if steps == [] {
      InitInv(inputs, futures);
    } else {
      var before := Run(Init(inputs, futures), steps[..|steps| - 1]).value;
      RunKeepsInv(inputs, futures, steps[..|steps| - 1], before);
      StepKeepsInv(before, steps[|steps| - 1]);
      StepIsForward(before, steps[|steps| - 1]);
    }
  }

  // ---------------------------------------------------------------- theorems

  lemma StepIsForward(s: Join, step: Step)
    requires Inv(s) && Enabled(s, step)
    ensures Forward(s, Apply(s, step))
    ensures !s.completion.Open? ==> Apply(s, step).completion == s.completion
  {
    StepKeepsInv(s, step);
    if step.RunHook? {
      assert HookOk(s, step.i);
    }
  }

  /** The result settles at most once, and the first failing callback stays the first. */
  lemma ResultSettlesOnce(inputs: seq<State>, futures: seq<Option<nat>>, steps: seq<Step>, s: Join, step: Step)
    requires ArgumentsOk(inputs, futures) && Run(Init(inputs, futures), steps) == Some(s) && Enabled(s, step)
    ensures !s.completion.Open? ==> Apply(s, step).completion == s.completion
    ensures s.firstFailure.Some? ==> Apply(s, step).firstFailure == s.firstFailure
  {
    RunKeepsInv(inputs, futures, steps, s);
    StepIsForward(s, step);
  }

  /** Nothing is left to do: the loop has ended, and every callback of a settled input has run. */
  predicate Quiet(s: Join) {
    s.loop.Done? && forall i :: 0 <= i < |s.hooks| ==> !s.hooks[i].Ready? && !s.hooks[i].Delivering?
  }

  predicate AllSettled(s: Join)
    requires Typed(s)
  {
    forall i: nat :: i < |s.futures| ==> s.futures[i].Some? && !InputOf(s, i).Pending?
  }

  predicate AllSucceeded(s: Join)
    requires Typed(s)
  {
    forall i: nat :: i < |s.futures| ==> s.futures[i].Some? && InputOf(s, i).HasValue?
  }

  /** With non-null inputs that have all settled, the result has settled once all callbacks have run.  Unless
      it was cancelled from outside, it has the values in the order of the arguments exactly if every input
      succeeded, and otherwise the error of the first failing callback to take the lock. */
  lemma ResultIsRight(inputs: seq<State>, futures: seq<Option<nat>>, steps: seq<Step>, s: Join)
    requires ArgumentsOk(inputs, futures) && Run(Init(inputs, futures), steps) == Some(s)
    requires None !in futures && Typed(s) && AllSettled(s) && Quiet(s) && !s.cancelled
    ensures !s.completion.Open?
    ensures AllSucceeded(s) <==> s.completion.Values?
    ensures s.completion.Values? ==> AreValues(s, s.completion.values)
    ensures s.completion.Failed? ==>
      s.firstFailure.Some? && s.completion == Failed(Input(s.firstFailure.value)) && HasFailed(s, s.firstFailure.value)
  {
    RunKeepsInv(inputs, futures, steps, s);
    QuietIsSettled(s);
    if s.completion.Values? {
      ValuesMeanSuccess(s, s.completion.values);
    } else {
      FailureMeansNone(s, s.firstFailure.value);
    }
  }

  lemma ValuesMeanSuccess(s: Join, values: seq<int>)
    requires Typed(s) && AreValues(s, values)
    ensures AllSucceeded(s)
  {
    forall i: nat | i < |s.futures|
      ensures s.futures[i].Some? && InputOf(s, i).HasValue?
    {
      assert InputOf(s, i) == HasValue(values[i]);
    }
  }

  lemma FailureMeansNone(s: Join, error: Error)
    requires Typed(s) && HasFailed(s, error)
    ensures !AllSucceeded(s)
  {
    var i: nat :| i < |s.futures| && s.futures[i].Some? && !InputOf(s, i).Pending? &&
      Outcome(InputOf(s, i)) == Failure(error);
    assert !InputOf(s, i).HasValue?;
  }

  lemma QuietIsSettled(s: Join)
    requires Inv(s) && None !in s.futures && AllSettled(s) && Quiet(s)
    ensures !s.completion.Open?
  {
    if !s.settled && s.futures != [] {
      forall i: nat | i < |s.futures|
        ensures s.values[i].Some?
      {
        assert HookOk(s, i) && !InputOf(s, i).Pending?;
      }
      NothingMissing(s.values);
      assert false;
    }
  }

  lemma LoopCanGoOn(s: Join) returns (step: Step)
    requires Inv(s) && !s.loop.Done? && forall i :: 0 <= i < |s.hooks| ==> !s.hooks[i].Ready? && !s.hooks[i].Delivering?
    ensures Enabled(s, step) && (step.RegisterNext? || step.LoopOn?)
  {
    if s.loop.At? {
      step := RegisterNext;
    } else {
      assert HookOk(s, s.loop.index);
      step := LoopOn;
    }
  }

  /** As long as something is left to do, a step of the loop or of a callback can do it. */
  lemma NothingIsStuck(inputs: seq<State>, futures: seq<Option<nat>>, steps: seq<Step>, s: Join) returns (step: Step)
    requires ArgumentsOk(inputs, futures) && Run(Init(inputs, futures), steps) == Some(s) && !Quiet(s)
    ensures Enabled(s, step) && !step.CancelResult? && !step.SettleInput?
  {
    RunKeepsInv(inputs, futures, steps, s);
    if i :| 0 <= i < |s.hooks| && s.hooks[i].Ready? {
      step := RunHook(i);
    } else if i :| 0 <= i < |s.hooks| && s.hooks[i].Delivering? {
      step := Deliver(i);
    } else {
      step := LoopCanGoOn(s);
    }
  }

  // ---------------------------------------------------------------- which failure it is

  /** The step runs a callback that has been given this error. */
  predicate RunsFailing(s: Join, step: Step, error: Error) {
    step.RunHook? && step.i < |s.hooks| && s.hooks[step.i] == Ready(FutureCell.Failure(error))
  }

  predicate IsFailing(s: Join, step: Step) {
    step.RunHook? && step.i < |s.hooks| && s.hooks[step.i].Ready? && s.hooks[step.i].d.Failure?
  }

  /** The n-th step is the first one to run a failing callback, and this is its error. */
  predicate FirstFails(start: Join, steps: seq<Step>, n: nat, error: Error) {
    && n < |steps| && Run(start, steps[..n]).Some? && RunsFailing(Run(start, steps[..n]).value, steps[n], error)
    && forall m: nat :: m < n && Run(start, steps[..m]).Some? ==> !IsFailing(Run(start, steps[..m]).value, steps[m])
  }

  lemma FailureAfter(s: Join, step: Step)
    requires Inv(s) && Enabled(s, step)
    ensures s.firstFailure.Some? ==> Apply(s, step).firstFailure == s.firstFailure
    ensures s.firstFailure.None? && IsFailing(s, step) && !s.settled ==>
      Apply(s, step).firstFailure.Some? && RunsFailing(s, step, Apply(s, step).firstFailure.value)
    ensures s.firstFailure.None? && !IsFailing(s, step) ==> Apply(s, step).firstFailure.None?
  {
  }

  /** The callbacks stop counting when one has failed or none is missing. */
  predicate WhySettled(s: Join) {
    s.settled ==> s.firstFailure.Some? || s.remaining == 0
  }

  lemma StepKeepsWhy(s: Join, step: Step)
    requires Inv(s) && WhySettled(s) && Enabled(s, step)
    ensures WhySettled(Apply(s, step))
  {
  }

  lemma {:induction false} RunKeepsWhy(inputs: seq<State>, futures: seq<Option<nat>>, steps: seq<Step>, s: Join)
    requires ArgumentsOk(inputs, futures) && Run(Init(inputs, futures), steps) == Some(s)
    ensures WhySettled(s)
  {
    if steps != [] {
      var before := Run(Init(inputs, futures), steps[..|steps| - 1]).value;
      RunKeepsWhy(inputs, futures, steps[..|steps| - 1], before);
      RunKeepsInv(inputs, futures, steps[..|steps| - 1], before);
      StepKeepsWhy(before, steps[|steps| - 1]);
    }
  }

  /** If all inputs have values, no callback fails. */
  lemma SettledWithoutFailure(s: Join, step: Step)
    requires Inv(s) && WhySettled(s) && Enabled(s, step) && s.settled && s.firstFailure.None?
    ensures !IsFailing(s, step)
  {
    NothingMissing(s.values);
    if step.RunHook? {
      assert HookOk(s, step.i);
    }
  }

  lemma FirstStays(start: Join, steps: seq<Step>, n: nat, error: Error)
    requires steps != [] && FirstFails(start, steps[..|steps| - 1], n, error)
    ensures FirstFails(start, steps, n, error)
  {
    var before := steps[..|steps| - 1];
    assert before[..n] == steps[..n];
    forall m: nat | m < n && Run(start, steps[..m]).Some?
      ensures !IsFailing(Run(start, steps[..m]).value, steps[m])
    {
      assert before[..m] == steps[..m] && before[m] == steps[m];
    }
  }

  ghost predicate NoneFailed(start: Join, steps: seq<Step>) {
    forall m: nat :: m < |steps| && Run(start, steps[..m]).Some? ==> !IsFailing(Run(start, steps[..m]).value, steps[m])
  }

  lemma NoneStays(start: Join, steps: seq<Step>)
    requires steps != [] && NoneFailed(start, steps[..|steps| - 1])
    ensures forall m: nat :: m < |steps| - 1 && Run(start, steps[..m]).Some? ==>
              !IsFailing(Run(start, steps[..m]).value, steps[m])
  {
    forall m: nat | m < |steps| - 1 && Run(start, steps[..m]).Some?
      ensures !IsFailing(Run(start, steps[..m]).value, steps[m])
    {
      assert steps[..|steps| - 1][..m] == steps[..m] && steps[..|steps| - 1][m] == steps[m];
    }
  }

  /** The failure that the result reports is that of the first callback that ran with one, and none is recorded as long
      as no callback has run with one. */
  lemma {:induction false} FirstFailureRanFirst(inputs: seq<State>, futures: seq<Option<nat>>, steps: seq<Step>,
                                                s: Join)
    returns (n: nat)
    requires ArgumentsOk(inputs, futures) && Run(Init(inputs, futures), steps) == Some(s)
    ensures s.firstFailure.None? ==> NoneFailed(Init(inputs, futures), steps)
    ensures s.firstFailure.Some? ==> FirstFails(Init(inputs, futures), steps, n, s.firstFailure.value)
  {
    n := 0;
    if steps != [] {
      var last, start := |steps| - 1, Init(inputs, futures);
      var before := Run(start, steps[..last]).value;
      n := FirstFailureRanFirst(inputs, futures, steps[..last], before);
      RunKeepsInv(inputs, futures, steps[..last], before);
      RunKeepsWhy(inputs, futures, steps[..last], before);
      FailureAfter(before, steps[last]);
      if before.firstFailure.Some? {
        FirstStays(start, steps, n, before.firstFailure.value);
      } else {
        n := last;
        NoneStays(start, steps);
        if before.settled {
          SettledWithoutFailure(before, steps[last]);
        }
      }
    }
  }

  /** What comes from outside is heard: an input settles with what it is given, a cancellation completes an open result
      as cancelled, and a null argument completes it as such. */
  lemma OutsideIsHeard(s: Join, step: Step)
    requires Enabled(s, step)
    ensures
      var t := Apply(s, step);
      match step
      case SettleInput(c, target) => |t.inputs| == |s.inputs| && t.inputs[c] == target
      case CancelResult => t.cancelled && (s.completion.Open? ==> t.completion == Failed(ResultCancelled))
      case RegisterNext =>
        s.loop.index < |s.futures| && s.futures[s.loop.index].None? && s.completion.Open? ==>
          t.completion == Failed(NullFuture)
      case _ => true
  {
  }
}
