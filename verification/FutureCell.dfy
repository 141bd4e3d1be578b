/** The legacy future's cell (ccall in vfuture.h): its lock sections on the fields of a class, and every
    interleaving of settling, cancelling, calling and registering continuations. */
module FutureCell {

  datatype Option<+T> = None | Some(value: T)

  datatype Error = Cancelled | Unspecified | Thrown(code: int)

  /** future_state together with the value or the exception */
  datatype State = Pending | HasValue(value: int) | HasException(error: Error) | WasCancelled

  /** What a continuation is given. */
  datatype Delivery = Success(value: int) | Failure(error: Error)

  datatype Cell = Cell(state: State, started: bool, continuations: seq<nat>)

  // ---------------------------------------------------------------- the sections

  /** What a settled cell hands to its continuations. */
  function Outcome(s: State): Delivery {
    match s
    case HasValue(value) => Success(value)
    case HasException(error) => Failure(error)
    case WasCancelled => Failure(Cancelled)
    case Pending => Failure(Unspecified)
  }

  /** The common part of setResult, setException and cancel: settle a pending cell and take its continuations. */
  function Settle(c: Cell, s: State): (Cell, seq<nat>) {
    if c.state.Pending? then (c.(state := s, continuations := []), c.continuations) else (c, [])
  }

  /** The state that setResult aims at: copying the value for the continuations may throw. */
  function ResultState(value: int, copyFails: Option<Error>): State {
    match copyFails
    case None => HasValue(value)
    case Some(error) => HasException(error)
  }

  /** The state that setException aims at: a null pointer is replaced. */
  function ExceptionState(error: Option<Error>): State {
    HasException(if error.Some? then error.value else Unspecified)
  }

  /** onSettled: register, or learn what to run at once.  Copying a stored value may throw. */
  function Register(c: Cell, id: nat, copyFails: Option<Error>): (Cell, Option<Delivery>) {
    match c.state
    case Pending => (c.(continuations := c.continuations + [id]), None)
    case HasValue(value) => (c, Some(if copyFails.Some? then Failure(copyFails.value) else Success(value)))
    case other => (c, Some(Outcome(c.state)))
  }

  /** call: whether the target is to be run */
  function BeginCall(c: Cell): (Cell, bool) {
    if c.started || !c.state.Pending? then (c, false) else (c.(started := true), true)
  }

  /** A call that settles a pending cell takes all continuations out, and no other takes any. */
  predicate Delivered(before: State, listed: seq<nat>, taken: seq<nat>, left: seq<nat>) {
    if before.Pending? then taken == listed && left == [] else taken == [] && left == listed
  }

  class CCall {
    var state: State
    var started: bool
    var continuations: seq<nat>

    ghost function Contents(): Cell
      reads this
    {
      Cell(state, started, continuations)
    }

    constructor ()
      ensures Contents() == Cell(Pending, false, [])
    {
      state, started, continuations := Pending, false, [];
    }

    method SetResult(value: int, copyFails: Option<Error>) returns (callbacks: seq<nat>)
      modifies this
      ensures (Contents(), callbacks) == Settle(old(Contents()), ResultState(value, copyFails))
      ensures state == if !old(state).Pending? then old(state)
                       else if copyFails.Some? then HasException(copyFails.value) else HasValue(value)
      ensures Delivered(old(state), old(continuations), callbacks, continuations) && started == old(started)
    {
      if !state.Pending? {
        return [];
      }
      if copyFails.None? {
        state := HasValue(value);
      } else {
        state := HasException(copyFails.value);
      }
      callbacks := continuations;
      continuations := [];
    }

    method SetException(error: Option<Error>) returns (callbacks: seq<nat>)
      modifies this
      ensures (Contents(), callbacks) == Settle(old(Contents()), ExceptionState(error))
      ensures state == if !old(state).Pending? then old(state)
                       else if error.Some? then HasException(error.value) else HasException(Unspecified)
      ensures Delivered(old(state), old(continuations), callbacks, continuations) && started == old(started)
    {
      var exception := Unspecified;
      if error.Some? {
        exception := error.value;
      }
      if !state.Pending? {
        return [];
      }
      state := HasException(exception);
      callbacks := continuations;
      continuations := [];
    }

    method Cancel() returns (callbacks: seq<nat>)
      modifies this
      ensures (Contents(), callbacks) == Settle(old(Contents()), WasCancelled)
      ensures state == if old(state).Pending? then WasCancelled else old(state)
      ensures Delivered(old(state), old(continuations), callbacks, continuations) && started == old(started)
    {
      if !state.Pending? {
        return [];
      }
      state := WasCancelled;
      callbacks := continuations;
      continuations := [];
    }

    method OnSettled(id: nat, copyFails: Option<Error>) returns (runNow: Option<Delivery>)
      modifies this
      ensures (Contents(), runNow) == Register(old(Contents()), id, copyFails)
      ensures state == old(state) && started == old(started)
      ensures continuations == if state.Pending? then old(continuations) + [id] else old(continuations)
      ensures runNow == match state
                        case Pending => None
                        case HasValue(value) => Some(if copyFails.Some? then Failure(copyFails.value) else Success(value))
                        case HasException(error) => Some(Failure(error))
                        case WasCancelled => Some(Failure(Cancelled))
    {
      if state.Pending? {
        continuations := continuations + [id];
        return None;
      }
      if state.HasValue? {
        if copyFails.Some? {
          return Some(Failure(copyFails.value));
        }
        return Some(Success(state.value));
      }
      return Some(Failure(if state.HasException? then state.error else Cancelled));
    }

    method Call() returns (run: bool)
      modifies this
      ensures (Contents(), run) == BeginCall(old(Contents()))
      ensures run <==> !old(started) && old(state).Pending?
      ensures started == (old(started) || run) && state == old(state) && continuations == old(continuations)
    {
      if started || !state.Pending? {
        return false;
      }
      started := true;
      return true;
    }
  }

  // ---------------------------------------------------------------- all interleavings

  /** A continuation, from the call of onSettled on. */
  datatype Stage = Registering | Listed | Due(d: Delivery) | Consumed(d: Delivery)

  /** `stages[id]` belongs to the id-th continuation; `notifying` holds those that the settling thread has
      still to run, in order; `runs` counts the runs of the target; `faults[id]` is what copying the value for
      that continuation threw. */
  datatype Machine = Machine(cell: Cell, stages: seq<Stage>, notifying: seq<nat>, running: nat, runs: nat,
                             faults: seq<Option<Error>>)

  function Init(): Machine {
    Machine(Cell(Pending, false, []), [], [], 0, 0, [])
  }

  datatype Step =
    | SettleCell(target: State)
    | Call
    | EndTarget(target: State)      // the target returned or threw, or the dispatcher threw
    | AskContinuation
    | RegisterOne(id: nat, copyFails: Option<Error>)
    | NotifyNext
    | RunOne(id: nat)

  predicate Enabled(s: Machine, step: Step) {
    match step
    case SettleCell(target) => !target.Pending?
    case Call => true
    case EndTarget(target) => !target.Pending? && s.running > 0
    case AskContinuation => true
    case RegisterOne(id, copyFails) => id < |s.stages| && s.stages[id].Registering?
    case NotifyNext => s.notifying != [] && s.notifying[0] < |s.stages| && s.stages[s.notifying[0]].Due?
    case RunOne(id) => id < |s.stages| && s.stages[id].Due? && id !in s.notifying
  }

  function Deliver(stages: seq<Stage>, ids: seq<nat>, d: Delivery): (r: seq<Stage>)
    ensures |r| == |stages|
    ensures forall i :: 0 <= i < |stages| ==> r[i] == if i in ids then Due(d) else stages[i]
  {
    seq(|stages|, i requires 0 <= i < |stages| => if i in ids then Due(d) else stages[i])
  }

  function DoSettle(s: Machine, target: State): Machine {
    var (c, taken) := Settle(s.cell, target);
    if s.cell.state.Pending? then s.(cell := c, stages := Deliver(s.stages, taken, Outcome(target)), notifying := taken)
    else s
  }

  function DoCall(s: Machine): Machine {
    var (c, run) := BeginCall(s.cell);
    s.(cell := c, running := if run then s.running + 1 else s.running, runs := if run then s.runs + 1 else s.runs)
  }

  function DoEndTarget(s: Machine, target: State): Machine
    requires s.running > 0
  {
    DoSettle(s, target).(running := s.running - 1)
  }

  function DoRegister(s: Machine, id: nat, copyFails: Option<Error>): Machine
    requires id < |s.stages|
  {
    var (c, now) := Register(s.cell, id, copyFails);
    s.(cell := c, stages := s.stages[id := if now.Some? then Due(now.value) else Listed],
       faults := if s.cell.state.HasValue? && id < |s.faults| then s.faults[id := copyFails] else s.faults)
  }

  function Consume(s: Machine, id: nat): Machine
    requires id < |s.stages| && s.stages[id].Due?
  {
    s.(stages := s.stages[id := Consumed(s.stages[id].d)])
  }

  function Apply(s: Machine, step: Step): Machine
    requires Enabled(s, step)
  {
    match step
    case SettleCell(target) => DoSettle(s, target)
    case Call => DoCall(s)
    case EndTarget(target) => DoEndTarget(s, target)
    case AskContinuation => s.(stages := s.stages + [Registering], faults := s.faults + [None])
    case RegisterOne(id, copyFails) => DoRegister(s, id, copyFails)
    case NotifyNext => Consume(s, s.notifying[0]).(notifying := s.notifying[1..])
    case RunOne(id) => Consume(s, id)
  }

  function Run(steps: seq<Step>): Option<Machine>
  {
    if steps == [] then Some(Init())
    else
      match Run(steps[..|steps| - 1])
      case None => None
      case Some(s) =>
        var step := steps[|steps| - 1];
        if Enabled(s, step) then Some(Apply(s, step)) else None
  }

  predicate Distinct(q: seq<nat>) {
    forall i, j :: 0 <= i < j < |q| ==> q[i] != q[j]
  }

  /** A continuation is given the cell's outcome, or the error that copying the value for it threw. */
  predicate Right(s: State, d: Delivery, fault: Option<Error>) {
    && !s.Pending? && (fault.Some? ==> s.HasValue?)
    && d == if fault.Some? then Failure(fault.value) else Outcome(s)
  }

  predicate StageOk(s: Machine, id: nat)
    requires id < |s.stages| == |s.faults|
  {
    && (s.stages[id].Registering? || s.stages[id].Listed? || id in s.notifying ==> s.faults[id].None?)
    && (s.stages[id].Listed? <==> id in s.cell.continuations)
    && (id in s.notifying ==> s.stages[id] == Due(Outcome(s.cell.state)))
    && (s.stages[id].Due? || s.stages[id].Consumed? ==> Right(s.cell.state, s.stages[id].d, s.faults[id]))
  }

  ghost predicate Inv(s: Machine) {
    && Distinct(s.cell.continuations) && Distinct(s.notifying) && |s.faults| == |s.stages|
    && (forall id :: id in s.cell.continuations || id in s.notifying ==> id < |s.stages|)
    && (forall id: nat :: id < |s.stages| ==> StageOk(s, id))
    && (!s.cell.state.Pending? ==> s.cell.continuations == [])
    && (s.cell.state.Pending? ==> s.notifying == [])
    && s.running <= s.runs <= 1 && (s.cell.started <==> s.runs == 1)
  }

  lemma DistinctGrows(q: seq<nat>, id: nat)
    requires Distinct(q) && id !in q
    ensures Distinct(q + [id])
  {
  }

  lemma SettleKeeps(s: Machine, target: State)
    requires Inv(s) && !target.Pending?
    ensures Inv(DoSettle(s, target))
  {
    var t := DoSettle(s, target);
    forall id: nat | id < |t.stages|
      ensures StageOk(t, id)
    {
      assert StageOk(s, id);
    }
  }

  lemma RegisterKeeps(s: Machine, id: nat, copyFails: Option<Error>)
    requires Inv(s) && Enabled(s, RegisterOne(id, copyFails))
    ensures Inv(DoRegister(s, id, copyFails))
  {
    var t := DoRegister(s, id, copyFails);
    assert StageOk(s, id);
    if s.cell.state.Pending? {
      DistinctGrows(s.cell.continuations, id);
    }
    forall k: nat | k < |t.stages|
      ensures StageOk(t, k)
    {
      assert StageOk(s, k);
    }
  }

  lemma ConsumeKeeps(s: Machine, id: nat)
    requires Inv(s) && id < |s.stages| && s.stages[id].Due? && id !in s.notifying
    ensures Inv(Consume(s, id))
  {
    forall k: nat | k < |s.stages|
      ensures StageOk(Consume(s, id), k)
    {
      assert StageOk(s, k);
    }
  }

  lemma NotifyKeeps(s: Machine)
    requires Inv(s) && Enabled(s, NotifyNext)
    ensures Inv(Apply(s, NotifyNext))
  {
    var t := Apply(s, NotifyNext);
    assert forall id :: id in s.notifying[1..] ==> id in s.notifying && id != s.notifying[0];
    forall k: nat | k < |s.stages|
      ensures StageOk(t, k)
    {
      assert StageOk(s, k);
    }
  }

  lemma AskKeeps(s: Machine)
    requires Inv(s)
    ensures Inv(Apply(s, AskContinuation))
  {
    forall k: nat | k <= |s.stages|
      ensures StageOk(Apply(s, AskContinuation), k)
    {
      assert k < |s.stages| ==> StageOk(s, k);
    }
  }

  lemma CallKeeps(s: Machine)
    requires Inv(s)
    ensures Inv(DoCall(s))
  {
    forall k: nat | k < |s.stages|
      ensures StageOk(DoCall(s), k)
    {
      assert StageOk(s, k);
    }
  }

  lemma StepKeepsInv(s: Machine, step: Step)
    requires Inv(s) && Enabled(s, step)
    ensures Inv(Apply(s, step))
  {
    match step {
      case SettleCell(target) => SettleKeeps(s, target);
      case Call => CallKeeps(s);
      case EndTarget(target) =>
        SettleKeeps(s, target);
        EndKeeps(DoSettle(s, target), s.running - 1);
      case AskContinuation => AskKeeps(s);
      case RegisterOne(id, copyFails) => RegisterKeeps(s, id, copyFails);
      case NotifyNext => NotifyKeeps(s);
      case RunOne(id) => ConsumeKeeps(s, id);
    }
  }

  lemma EndKeeps(s: Machine, running: nat)
    requires Inv(s) && running <= s.runs
    ensures Inv(s.(running := running))
  {
    forall k: nat | k < |s.stages|
      ensures StageOk(s.(running := running), k)
    {
      assert StageOk(s, k);
    }
  }

  lemma {:induction false} RunKeepsInv(steps: seq<Step>, s: Machine)
    requires Run(steps) == Some(s)
    ensures Inv(s)
  {
    if steps != [] {
      var before := Run(steps[..|steps| - 1]).value;
      RunKeepsInv(steps[..|steps| - 1], before);
      StepKeepsInv(before, steps[|steps| - 1]);
    }
  }

  // ---------------------------------------------------------------- theorems

  /** How far a continuation has come. */
  function Rank(k: Stage): nat {
    match k
    case Registering => 0
    case Listed => 1
    case Due(d) => 2
    case Consumed(d) => 3
  }

  /** The first settlement is final, and a continuation only moves forwards: it is consumed at most once, and
      keeps what it was given. */
  lemma NothingIsUndone(steps: seq<Step>, s: Machine, step: Step, id: nat)
    requires Run(steps) == Some(s) && Enabled(s, step) && id < |s.stages|
    ensures !s.cell.state.Pending? ==> Apply(s, step).cell.state == s.cell.state
    ensures id < |Apply(s, step).stages| && Rank(s.stages[id]) <= Rank(Apply(s, step).stages[id])
    ensures s.stages[id].Due? ==> Apply(s, step).stages[id] in {s.stages[id], Consumed(s.stages[id].d)}
    ensures s.stages[id].Consumed? ==> Apply(s, step).stages[id] == s.stages[id]
  {
    RunKeepsInv(steps, s);
    assert StageOk(s, id);
    if step.SettleCell? || step.EndTarget? {
      assert forall k :: k in s.cell.continuations ==> k < |s.stages| && StageOk(s, k);
    }
  }

  lemma NotifierCanGoOn(s: Machine)
    requires Inv(s)
    ensures s.notifying != [] ==> Enabled(s, NotifyNext)
  {
    if s.notifying != [] {
      assert s.notifying[0] in s.notifying && StageOk(s, s.notifying[0]);
    }
  }

  /** The n-th step registers continuation id, finds a value, and copying it throws `error`. */
  predicate CopyThrows(steps: seq<Step>, n: nat, id: nat, error: Error) {
    && n < |steps| && steps[n] == RegisterOne(id, Some(error)) && Run(steps[..n]).Some?
    && Run(steps[..n]).value.cell.state.HasValue?
  }

  /** Faults are those of registrations that found a value and could not copy it. */
  lemma {:induction false} FaultHasOrigin(steps: seq<Step>, s: Machine, id: nat) returns (n: nat)
    requires Run(steps) == Some(s) && id < |s.faults| && s.faults[id].Some?
    ensures CopyThrows(steps, n, id, s.faults[id].value)
  {
    var last := |steps| - 1;
    var before := Run(steps[..last]).value;
    if id < |before.faults| && before.faults[id] == s.faults[id] {
      n := FaultHasOrigin(steps[..last], before, id);
      assert steps[..last][..n] == steps[..n];
    } else {
      n := last;
    }
  }

  /** Once the cell has settled and nothing is left to do, every continuation has been consumed, with the
      cell's outcome or, if it registered after the cell had its value and copying that for it threw, with the
      error thrown. */
  lemma EveryContinuationIsConsumed(steps: seq<Step>, s: Machine, id: nat)
    requires Run(steps) == Some(s) && !s.cell.state.Pending? && id < |s.stages|
    requires !Enabled(s, NotifyNext) && forall k: nat :: !Enabled(s, RunOne(k)) && !Enabled(s, RegisterOne(k, None))
    ensures |s.faults| == |s.stages| && s.stages[id].Consumed?
    ensures Right(s.cell.state, s.stages[id].d, s.faults[id])
    ensures s.faults[id].Some? ==> exists n: nat :: CopyThrows(steps, n, id, s.faults[id].value)
  {
    RunKeepsInv(steps, s);
    if s.faults[id].Some? {
      var n := FaultHasOrigin(steps, s, id);
    }
    NotifierCanGoOn(s);
    assert StageOk(s, id) && !Enabled(s, RunOne(id)) && !Enabled(s, RegisterOne(id, None));
  }

  /** The target runs at most once, and not at all once the cell has settled before. */
  lemma TargetRunsAtMostOnce(steps: seq<Step>, s: Machine, step: Step)
    requires Run(steps) == Some(s) && Enabled(s, step)
    ensures s.runs <= 1
    ensures Apply(s, step).runs != s.runs ==> s.runs == 0 && s.cell.state.Pending?
  {
    RunKeepsInv(steps, s);
  }

  predicate Settles(step: Step, target: State) {
    (step.SettleCell? || step.EndTarget?) && step.target == target
  }

  predicate IsSettling(step: Step) {
    step.SettleCell? || step.EndTarget?
  }

  /** The n-th step is the first one to settle, and settles with this state. */
  predicate FirstSettles(steps: seq<Step>, n: nat, target: State) {
    n < |steps| && Settles(steps[n], target) && forall m :: 0 <= m < n ==> !IsSettling(steps[m])
  }

  lemma StateAfter(s: Machine, step: Step)
    requires Enabled(s, step)
    ensures Apply(s, step).cell.state ==
            if s.cell.state.Pending? && IsSettling(step) then step.target else s.cell.state
  {
  }

  /** The cell holds what the first call to settle it brought: a value, an exception or a cancellation. */
  lemma {:induction false} FirstSettlementWins(steps: seq<Step>, s: Machine) returns (n: nat)
    requires Run(steps) == Some(s)
    ensures s.cell.state.Pending? ==> forall m :: 0 <= m < |steps| ==> !IsSettling(steps[m])
    ensures !s.cell.state.Pending? ==> FirstSettles(steps, n, s.cell.state)
  {
    n := 0;
    if steps != [] {
      var last := |steps| - 1;
      var before := Run(steps[..last]).value;
      n := FirstSettlementWins(steps[..last], before);
      StateAfter(before, steps[last]);
      assert forall m :: 0 <= m < last ==> steps[..last][m] == steps[m];
      if before.cell.state.Pending? {
        n := last;
      }
    }
  }

  /** The target of a cell that is pending and has not been called yet is run by the next call, and by no other. */
  lemma CallRunsTarget(s: Machine)
    requires Inv(s)
    ensures Apply(s, Call).runs == if s.cell.state.Pending? && s.runs == 0 then s.runs + 1 else s.runs
    ensures Apply(s, Call).running == if s.cell.state.Pending? && s.runs == 0 then s.running + 1 else s.running
  {
  }
}
