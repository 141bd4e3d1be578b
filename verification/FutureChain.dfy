/** Chains of futures (chainCall in vfuture.h): what comes out at the end is the composition of the targets,
    in whatever order the links run and whichever futures are cancelled meanwhile. */
module FutureChain {
  import opened FutureCell

  /** What running a target on an argument does: it returns a value or throws. */
  type Target = int -> State

  datatype Link = Waiting | Ready(d: Delivery) | Over

  /** cells[i + 1] is chained to cells[i]; its target is targets[i], `arguments` holds what setArgument gave
      it, and running says that the target is at work. */
  datatype Chain = Chain(cells: seq<Cell>, links: seq<Link>, arguments: seq<Option<int>>, running: seq<bool>,
                         runs: seq<nat>)

  function Init(n: nat): Chain {
    Chain(seq(n + 1, _ => Cell(Pending, false, [])), seq(n, _ => Waiting), seq(n, _ => None), seq(n, _ => false),
          seq(n, _ => 0))
  }

  predicate Typed(s: Chain) {
    |s.cells| == |s.links| + 1 == |s.arguments| + 1 == |s.running| + 1 == |s.runs| + 1
  }

  datatype Step =
    | SettleFirst(target: State)
    | Cancel(i: nat)
    | FireLink(i: nat)       // cell i has settled: the continuation that links it to cell i + 1 is due
    | RunLink(i: nat)
    | Return(i: nat)

  predicate Enabled(s: Chain, step: Step) {
    && Typed(s)
    && match step
       case SettleFirst(target) => !target.Pending? && !target.WasCancelled?
       case Cancel(i) => i < |s.cells|
       case FireLink(i) => i < |s.links| && s.links[i].Waiting? && !s.cells[i].state.Pending?
       case RunLink(i) => i < |s.links| && s.links[i].Ready?
       case Return(i) => i < |s.running| && s.running[i] && s.arguments[i].Some?
  }

  function SettleAt(s: Chain, i: nat, target: State): Chain
    requires i < |s.cells|
  {
    s.(cells := s.cells[i := Settle(s.cells[i], target).0])
  }

  function DoRun(s: Chain, i: nat): Chain
    requires Enabled(s, RunLink(i))
  {
    var t := s.(links := s.links[i := Over]);
    match s.links[i].d
    case Failure(error) => SettleAt(t, i + 1, ExceptionState(Some(error)))
    case Success(value) =>
      var (c, run) := BeginCall(s.cells[i + 1]);
      t.(arguments := s.arguments[i := Some(value)], cells := s.cells[i + 1 := c],
         running := if run then s.running[i := true] else s.running,
         runs := if run then s.runs[i := s.runs[i] + 1] else s.runs)
  }

  function Apply(targets: seq<Target>, s: Chain, step: Step): Chain
    requires Enabled(s, step) && |targets| == |s.links|
  {
    match step
    case SettleFirst(target) => SettleAt(s, 0, target)
    case Cancel(i) => SettleAt(s, i, WasCancelled)
    case FireLink(i) => s.(links := s.links[i := Ready(Outcome(s.cells[i].state))])
    case RunLink(i) => DoRun(s, i)
    case Return(i) => SettleAt(s, i + 1, targets[i](s.arguments[i].value)).(running := s.running[i := false])
  }

  /** The state after `steps`, if each of them was enabled in turn. */
  function Run(targets: seq<Target>, steps: seq<Step>): (r: Option<Chain>)
    ensures r.Some? ==> Typed(r.value) && |r.value.links| == |targets|
  {
    if steps == [] then Some(Init(|targets|))
    else
      match Run(targets, steps[..|steps| - 1])
      case None => None
      case Some(s) =>
        var step := steps[|steps| - 1];
        if Enabled(s, step) then
          ApplyTyped(targets, s, step);
          Some(Apply(targets, s, step))
        else None
  }

  lemma ApplyTyped(targets: seq<Target>, s: Chain, step: Step)
    requires Enabled(s, step) && |targets| == |s.links|
    ensures Typed(Apply(targets, s, step)) && |Apply(targets, s, step).links| == |s.links|
  {
  }

  // ---------------------------------------------------------------- what a chain means

  /** One link: a value goes through the target, anything else is passed on as an exception. */
  function Through(s: State, target: Target): State {
    match s
    case Pending => Pending
    case HasValue(value) => target(value)
    case HasException(error) => HasException(error)
    case WasCancelled => HasException(Cancelled)
  }

  function Composed(first: State, targets: seq<Target>, n: nat): State
    requires n <= |targets|
  {
    if n == 0 then first else Through(Composed(first, targets, n - 1), targets[n - 1])
  }

  predicate LinkOk(targets: seq<Target>, s: Chain, i: nat)
    requires Typed(s) && |targets| == |s.links| && i < |s.links|
  {
    var here, next := s.cells[i].state, s.cells[i + 1];
    && (s.links[i].Waiting? || !here.Pending?)
    && (s.links[i].Ready? ==> s.links[i].d == Outcome(here))
    && (s.arguments[i].Some? ==> here == HasValue(s.arguments[i].value))
    && (s.running[i] ==> s.arguments[i].Some?)
    && s.runs[i] == (if next.started then 1 else 0)
    && (next.started ==> s.arguments[i].Some?)
    && (next.state.Pending? || next.state.WasCancelled? || (!here.Pending? && next.state == Through(here, targets[i])))
  }

  predicate Inv(targets: seq<Target>, s: Chain) {
    && Typed(s) && |targets| == |s.links|
    && forall i: nat :: i < |s.links| ==> LinkOk(targets, s, i)
  }

  lemma SettleKeepsLink(targets: seq<Target>, s: Chain, k: nat, target: State, i: nat)
    requires Typed(s) && |targets| == |s.links| && i < |s.links| && LinkOk(targets, s, i) && k < |s.cells|
    requires k == i + 1 ==>
      target.WasCancelled? || (!s.cells[i].state.Pending? && target == Through(s.cells[i].state, targets[i]))
    ensures LinkOk(targets, SettleAt(s, k, target), i)
  {
  }

  lemma FireKeepsLink(targets: seq<Target>, s: Chain, k: nat, i: nat)
    requires Typed(s) && |targets| == |s.links| && i < |s.links| && LinkOk(targets, s, i) && Enabled(s, FireLink(k))
    ensures LinkOk(targets, Apply(targets, s, FireLink(k)), i)
  {
  }

  lemma RunKeepsLink(targets: seq<Target>, s: Chain, k: nat, i: nat)
    requires Inv(targets, s) && i < |s.links| && Enabled(s, RunLink(k))
    ensures LinkOk(targets, DoRun(s, k), i)
  {
    assert LinkOk(targets, s, i) && LinkOk(targets, s, k);
  }

  lemma EndKeepsLink(targets: seq<Target>, s: Chain, k: nat, i: nat)
    requires Inv(targets, s) && i < |s.links| && Enabled(s, Return(k))
    ensures LinkOk(targets, Apply(targets, s, Return(k)), i)
  {
    assert LinkOk(targets, s, i) && LinkOk(targets, s, k);
  }

  lemma StepKeepsInv(targets: seq<Target>, s: Chain, step: Step)
    requires Inv(targets, s) && Enabled(s, step)
    ensures Inv(targets, Apply(targets, s, step))
  {
    ApplyTyped(targets, s, step);
    forall i: nat | i < |s.links|
      ensures LinkOk(targets, Apply(targets, s, step), i)
    {
      match step {
        case SettleFirst(target) => SettleKeepsLink(targets, s, 0, target, i);
        case Cancel(k) => SettleKeepsLink(targets, s, k, WasCancelled, i);
        case FireLink(k) => FireKeepsLink(targets, s, k, i);
        case RunLink(k) => RunKeepsLink(targets, s, k, i);
        case Return(k) => EndKeepsLink(targets, s, k, i);
      }
    }
  }

  lemma {:induction false} RunKeepsInv(targets: seq<Target>, steps: seq<Step>, s: Chain)
    requires Run(targets, steps) == Some(s)
    ensures Inv(targets, s)
  {
    if steps != [] {
      var before := Run(targets, steps[..|steps| - 1]).value;
      RunKeepsInv(targets, steps[..|steps| - 1], before);
      StepKeepsInv(targets, before, steps[|steps| - 1]);
    }
  }

  /** Where nobody cancelled, a settled future of the chain holds exactly what its predecessors' outcome
      becomes by going through the targets one after the other. */
  lemma {:induction false} ChainIsComposition(targets: seq<Target>, steps: seq<Step>, s: Chain, n: nat)
    requires Run(targets, steps) == Some(s) && n <= |targets| && !s.cells[n].state.Pending?
    requires forall i :: 1 <= i <= n ==> !s.cells[i].state.WasCancelled?
    ensures s.cells[n].state == Composed(s.cells[0].state, targets, n)
  {
    if n > 0 {
      RunKeepsInv(targets, steps, s);
      assert LinkOk(targets, s, n - 1);
      ChainIsComposition(targets, steps, s, n - 1);
    }
  }

  /** A target runs at most once, only after its predecessor has a value, and on that value. */
  lemma TargetNeedsValue(targets: seq<Target>, steps: seq<Step>, s: Chain, i: nat)
    requires Run(targets, steps) == Some(s) && i < |targets|
    ensures s.runs[i] <= 1
    ensures s.runs[i] == 1 ==> s.arguments[i].Some? && s.cells[i].state == HasValue(s.arguments[i].value)
  {
    RunKeepsInv(targets, steps, s);
    assert LinkOk(targets, s, i);
  }

  /** A link that is over has started its target or settled the next future. */
  predicate NotLost(s: Chain, i: nat)
    requires Typed(s) && i < |s.links|
  {
    && (s.links[i].Over? ==> s.running[i] || !s.cells[i + 1].state.Pending?)
    && (s.cells[i + 1].started ==> s.running[i] || !s.cells[i + 1].state.Pending?)
  }

  ghost predicate NoneLost(s: Chain) {
    Typed(s) && forall i: nat :: i < |s.links| ==> NotLost(s, i)
  }

  lemma StepLosesNone(targets: seq<Target>, s: Chain, step: Step)
    requires Inv(targets, s) && NoneLost(s) && Enabled(s, step)
    requires forall x :: 0 <= x < |targets| ==> forall v :: !targets[x](v).Pending?
    ensures NoneLost(Apply(targets, s, step))
  {
    ApplyTyped(targets, s, step);
    var t := Apply(targets, s, step);
    forall i: nat | i < |t.links|
      ensures NotLost(t, i)
    {
      assert NotLost(s, i) && LinkOk(targets, s, i);
    }
  }

  lemma {:induction false} RunLosesNone(targets: seq<Target>, steps: seq<Step>, s: Chain)
    requires Run(targets, steps) == Some(s)
    requires forall x :: 0 <= x < |targets| ==> forall v :: !targets[x](v).Pending?
    ensures NoneLost(s)
  {
    if steps != [] {
      var before := Run(targets, steps[..|steps| - 1]).value;
      RunLosesNone(targets, steps[..|steps| - 1], before);
      RunKeepsInv(targets, steps[..|steps| - 1], before);
      StepLosesNone(targets, before, steps[|steps| - 1]);
    }
  }

  /** No link has anything left to do. */
  predicate Quiet(s: Chain)
    requires Typed(s)
  {
    forall i: nat :: i < |s.links| ==> !Enabled(s, FireLink(i)) && !Enabled(s, RunLink(i)) && !Enabled(s, Return(i))
  }

  /** Once the first future has settled and nothing is left to do, the whole chain has settled. */
  lemma {:induction false} ChainReachesEnd(targets: seq<Target>, steps: seq<Step>, s: Chain, n: nat)
    requires Run(targets, steps) == Some(s) && n <= |targets| && Quiet(s) && !s.cells[0].state.Pending?
    requires forall x :: 0 <= x < |targets| ==> forall v :: !targets[x](v).Pending?
    ensures !s.cells[n].state.Pending?
  {
    if n > 0 {
      ChainReachesEnd(targets, steps, s, n - 1);
      RunLosesNone(targets, steps, s);
      RunKeepsInv(targets, steps, s);
      assert NotLost(s, n - 1) && LinkOk(targets, s, n - 1);
      assert !Enabled(s, FireLink(n - 1)) && !Enabled(s, RunLink(n - 1)) && !Enabled(s, Return(n - 1));
    }
  }

  /** The first future settles with what it is given first, and a cancelled one that was pending is cancelled. */
  lemma OutsideIsHeard(targets: seq<Target>, s: Chain, step: Step)
    requires Enabled(s, step) && |targets| == |s.links|
    ensures
      var t := Apply(targets, s, step);
      |t.cells| == |s.cells| &&
      match step
      case SettleFirst(target) => t.cells[0].state == if s.cells[0].state.Pending? then target else s.cells[0].state
      case Cancel(i) => t.cells[i].state == if s.cells[i].state.Pending? then WasCancelled else s.cells[i].state
      case _ => true
  {
  }
}
