/** whenAll as a state machine.

    The joined children run elsewhere: they settle, are stopped by others and complete at any time.  The
    callbacks that whenAll registers, its stop callback, its waits for the children and its own body are
    interleaved in every order, one lock section at a time.  No guard of the body's asks for a child's
    completion: that a wait ends only after it is a theorem. */
module JoinMachine {
  import opened TaskCore

  /** Who runs a settlement callback: the child's own body, the join's body, or whoever stopped the child. */
  datatype Runner = OwnBody | JoinBody | Stopper

  /** One call of join_state::fail, from its registration on. */
  datatype Call =
    | Idle
    | Listed
    | Reading(runner: Runner)                    // about to read child->error()
    | Failing(failure: Failure, runner: Runner)  // in fail, before its lock
    | Casting(next: nat, runner: Runner)         // in fail's loop, about to look at children[next]
    | Stopping(next: nat, runner: Runner)        // about to stop children[next]
    | Over

  /** A child's state: `own` says that its own body settled it, `stoppedOutside` that somebody other than
      this join asked it to stop. */
  datatype Child = Child(settled: Option<Outcome>, own: bool, stopRequested: bool, stoppedOutside: bool,
    completed: bool)

  datatype Ending = EmptyHandle | Failed(failure: Failure) | Returned(values: seq<int>)

  /** Where the join's body is. */
  datatype Body =
    | Registering(at: nat)
    | Announcing(at: nat)   // running the callback of a handle that had settled already
    | Subscribed            // running the stop callback, because a stop had been requested already
    | Waiting(at: nat)      // about to ask whether the child has finished
    | Suspending(at: nat)   // it had not: about to register for its completion
    | Suspended(at: nat)
    | Catching(at: nat)     // recording that the scheduler rejected the continuation
    | Finished(ending: Ending)

  /** The completion callback of a wait: whether it is registered, and whether it has been taken out to be run. */
  datatype Notice = Unlisted | OnList | Due | Ran

  /** The right to resume the body: inside the operation, in a scheduler's hands, or used. */
  datatype Ticket = NotIssued | Issued | Used

  /** waitFinished on child `target`.  Its operation has no stop callback. */
  datatype Wait = Wait(target: nat, op: OpCore, notice: Notice, ticket: Ticket)

  /** calls[i] belongs to handle i; the last two are the stop callback's and the catch clause's. */
  datatype State = State(isVoid: bool, handles: seq<nat>, children: seq<Child>, calls: seq<Call>,
                         error: Option<Failure>, body: Body, stopped: bool, rejected: bool, wait: Wait)

  datatype ChildStep = Settles(c: nat, outcome: Outcome) | StopOutside(c: nat) | Completes(c: nat)

  datatype BodyStep = RegisterCallback | AfterCallback | Subscribe | AfterSubscribe
                    | AskFinished | Register | Resume | AfterCatch | Conclude

  datatype WaitStep = RunNotice | RunTicket | DropTicket

  datatype CallStep = ReadError(a: nat) | Record(a: nat) | Look(a: nat) | StopChild(a: nat)

  datatype Step = OfChild(e: ChildStep) | OfBody(b: BodyStep) | OfCall(k: CallStep) | OfWait(w: WaitStep) | StopJoin

  function StopCall(s: State): nat {
    |s.handles|
  }

  function CatchCall(s: State): nat {
    |s.handles| + 1
  }

  predicate Typed(s: State) {
    && |s.calls| == |s.handles| + 2
    && (forall i :: 0 <= i < |s.handles| ==> s.handles[i] < |s.children|)
  }

  /** A child that its creator may hand to whenAll. */
  predicate Plausible(c: Child) {
    && (c.completed || c.stopRequested ==> c.settled.Some?)
    && (c.settled.Some? && !c.own ==> c.stopRequested && c.settled == Some(Error(TaskCancelled)))
    && (c.stopRequested ==> c.stoppedOutside)
  }

  function NewWait(target: nat): Wait {
    Wait(target, OpCore(false, false, None), Unlisted, NotIssued)
  }

  /** The body's first loop: an empty handle ends the join before anything is registered. */
  function Start(isVoid: bool, handles: seq<Option<nat>>, children: seq<Child>): (s: State)
    requires forall i :: 0 <= i < |handles| && handles[i].Some? ==> handles[i].value < |children|
  {
    if None in handles then
      State(isVoid, [], children, [Idle, Idle], None, Finished(EmptyHandle), false, false, NewWait(0))
    else
      State(isVoid, seq(|handles|, i requires 0 <= i < |handles| => assert handles[i] in handles; handles[i].value),
            children, seq(|handles| + 2, _ => Idle), None, Registering(0), false, false,
            NewWait(0))
  }

  function ChildOf(s: State, i: nat): Child
    requires Typed(s) && i < |s.handles|
  {
    s.children[s.handles[i]]
  }

  // ---------------------------------------------------------------- the children

  /** The callbacks that settling child c takes out of its list. */
  function Fire(s: State, c: nat, runner: Runner): seq<Call>
    requires Typed(s)
  {
    seq(|s.calls|, i requires 0 <= i < |s.calls| =>
      if i < |s.handles| && s.handles[i] == c && s.calls[i].Listed? then Reading(runner) else s.calls[i])
  }

  predicate Alive(k: Call) {
    k.Reading? || k.Failing? || k.Casting? || k.Stopping?
  }

  /** A child's body returns only after the callbacks it runs itself. */
  predicate RunsOwnCallback(s: State, c: nat)
    requires Typed(s)
  {
    exists i :: 0 <= i < |s.handles| && s.handles[i] == c && Alive(s.calls[i]) && s.calls[i].runner.OwnBody?
  }

  predicate ChildEnabled(s: State, e: ChildStep)
    requires Typed(s)
  {
    && e.c < |s.children|
    && match e
       case Settles(c, outcome) => s.children[c].settled.None?
       case StopOutside(c) => true
       case Completes(c) => s.children[c].settled.Some? && !s.children[c].completed && !RunsOwnCallback(s, c)
  }

  /** requestStop on a child */
  function StopOne(s: State, c: nat, outside: bool): State
    requires Typed(s) && c < |s.children|
  {
    var child := s.children[c];
    var stopped := child.(stopRequested := true, stoppedOutside := child.stoppedOutside || outside);
    if child.settled.Some? then s.(children := s.children[c := stopped])
    else s.(children := s.children[c := stopped.(settled := Some(Error(TaskCancelled)), own := false)],
            calls := Fire(s, c, Stopper))
  }

  function SettleOne(s: State, c: nat, outcome: Outcome): State
    requires Typed(s) && c < |s.children|
  {
    s.(children := s.children[c := s.children[c].(settled := Some(outcome), own := true)], calls := Fire(s, c, OwnBody))
  }

  /** completeExecution: the completion callbacks leave the list. */
  function CompleteOne(s: State, c: nat): State
    requires Typed(s) && c < |s.children|
  {
    s.(children := s.children[c := s.children[c].(completed := true)],
       wait := if s.wait.target == c && s.wait.notice.OnList? then s.wait.(notice := Due) else s.wait)
  }

  function ChildApply(s: State, e: ChildStep): State
    requires Typed(s) && ChildEnabled(s, e)
  {
    match e
    case Settles(c, outcome) => SettleOne(s, c, outcome)
    case StopOutside(c) => StopOne(s, c, true)
    case Completes(c) => CompleteOne(s, c)
  }

  // ---------------------------------------------------------------- the join's body

  predicate AllSettled(s: State)
    requires Typed(s)
  {
    forall i :: 0 <= i < |s.handles| ==> ChildOf(s, i).settled.Some?
  }

  predicate BodyEnabled(s: State, b: BodyStep)
    requires Typed(s)
  {
    match b
    case RegisterCallback => s.body.Registering? && s.body.at < |s.handles|
    case AfterCallback => s.body.Announcing? && s.body.at < |s.handles| && s.calls[s.body.at].Over?
    case Subscribe => s.body == Registering(|s.handles|)
    case AfterSubscribe => s.body.Subscribed? && s.calls[StopCall(s)].Over?
    case AskFinished => s.body.Waiting? && s.body.at < |s.handles|
    case Register => s.body.Suspending? && s.body.at < |s.handles|
    case Resume => s.body.Suspended? && s.wait.ticket.Used?
    case AfterCatch => s.body.Catching? && s.calls[CatchCall(s)].Over?
    case Conclude => s.body == Waiting(|s.handles|) && AllSettled(s)
  }

  /** handle.get() for handles k and later: the first error, or the values */
  function Collect(s: State, k: nat): (ending: Ending)
    requires Typed(s) && AllSettled(s) && k <= |s.handles|
    ensures !ending.EmptyHandle?
    decreases |s.handles| - k
  {
    if k == |s.handles| then Returned([])
    else
      match ChildOf(s, k).settled.value
      case Error(failure) => Failed(failure)
      case Value(value) =>
        match Collect(s, k + 1)
        case Returned(values) => Returned([value] + values)
        case other => other
  }

  function Conclusion(s: State): Ending
    requires Typed(s) && AllSettled(s)
  {
    match s.error
    case Some(failure) => Failed(failure)
    case None => if s.isVoid then Returned([]) else Collect(s, 0)
  }

  function BodyApply(s: State, b: BodyStep): State
    requires Typed(s) && BodyEnabled(s, b)
  {
    match b
    case RegisterCallback =>
      var i := s.body.at;
      if ChildOf(s, i).settled.Some? then s.(calls := s.calls[i := Reading(JoinBody)], body := Announcing(i))
      else s.(calls := s.calls[i := Listed], body := Registering(i + 1))
    case AfterCallback => s.(body := Registering(s.body.at + 1))
    case Subscribe =>
      if s.stopped then s.(calls := s.calls[StopCall(s) := Failing(TaskCancelled, JoinBody)], body := Subscribed)
      else s.(calls := s.calls[StopCall(s) := Listed], body := Waiting(0))
    case AfterSubscribe => s.(body := Waiting(0))
    case AskFinished =>
      if ChildOf(s, s.body.at).completed then s.(body := Waiting(s.body.at + 1))
      else s.(body := Suspending(s.body.at), wait := NewWait(s.handles[s.body.at]))
    case Register =>
      var notice := if ChildOf(s, s.body.at).completed then Due else OnList;
      s.(body := Suspended(s.body.at), wait := s.wait.(notice := notice))
    case Resume =>
      (match s.wait.op.failure
       case Some(failure) =>
         s.(calls := s.calls[CatchCall(s) := Failing(failure, JoinBody)], body := Catching(s.body.at))
       case None => s.(body := Waiting(s.body.at + 1)))
    case AfterCatch => s.(calls := s.calls[CatchCall(s) := Idle], body := Waiting(s.body.at + 1))
    case Conclude => s.(body := Finished(Conclusion(s)))
  }

  // ---------------------------------------------------------------- the wait for a child

  predicate WaitEnabled(s: State, w: WaitStep) {
    match w
    case RunNotice => s.wait.notice.Due?
    case RunTicket => s.wait.ticket.Issued?
    case DropTicket => s.wait.ticket.Issued?
  }

  /** The completion callback completes the operation, whose claim issues the ticket. */
  function TakeNotice(wait: Wait): Wait {
    var (op, took) := CompleteOp(wait.op, None);
    wait.(op := op, notice := Ran, ticket := if took then Issued else wait.ticket)
  }

  /** A ticket resumes the body whether it is run or dropped. */
  function WaitApply(s: State, w: WaitStep): State
    requires WaitEnabled(s, w)
  {
    match w
    case RunNotice => s.(wait := TakeNotice(s.wait))
    case RunTicket => s.(wait := s.wait.(ticket := Used))
    case DropTicket => s.(wait := s.wait.(ticket := Used, op := RejectOp(s.wait.op)), rejected := true)
  }

  // ---------------------------------------------------------------- fail

  predicate CallEnabled(s: State, k: CallStep)
    requires Typed(s)
  {
    && k.a < |s.calls|
    && match k
       case ReadError(a) => s.calls[a].Reading? && a < |s.handles|
       case Record(a) => s.calls[a].Failing?
       case Look(a) => s.calls[a].Casting?
       case StopChild(a) => s.calls[a].Stopping? && s.calls[a].next < |s.handles|
  }

  /** The broadcast of call a goes on to the next child. */
  function PassOne(s: State, a: nat): State
    requires Typed(s) && a < |s.calls| && s.calls[a].Stopping?
  {
    s.(calls := s.calls[a := Casting(s.calls[a].next + 1, s.calls[a].runner)])
  }

  function CallApply(s: State, k: CallStep): State
    requires Typed(s) && CallEnabled(s, k)
  {
    var call := s.calls[k.a];
    match k
    case ReadError(a) =>
      (match ChildOf(s, a).settled
       case Some(Error(failure)) => s.(calls := s.calls[a := Failing(failure, call.runner)])
       case other => s.(calls := s.calls[a := Over]))
    case Record(a) =>
      if s.error.Some? then s.(calls := s.calls[a := Over])
      else s.(calls := s.calls[a := Casting(0, call.runner)], error := Some(call.failure))
    case Look(a) =>
      if call.next >= |s.handles| then s.(calls := s.calls[a := Over])
      else if ChildOf(s, call.next).completed then s.(calls := s.calls[a := Casting(call.next + 1, call.runner)])
      else s.(calls := s.calls[a := Stopping(call.next, call.runner)])
    case StopChild(a) =>
      StopOne(PassOne(s, a), s.handles[call.next], false)
  }

  // ---------------------------------------------------------------- stopping the join

  function DoStopJoin(s: State): State
    requires Typed(s)
  {
    var t := s.(stopped := true);
    if s.calls[StopCall(s)].Listed? && !s.body.Finished?
    then t.(calls := s.calls[StopCall(s) := Failing(TaskCancelled, Stopper)])
    else t
  }

  predicate Enabled(s: State, step: Step) {
    && Typed(s)
    && match step
       case OfChild(e) => ChildEnabled(s, e)
       case OfBody(b) => BodyEnabled(s, b)
       case OfCall(k) => CallEnabled(s, k)
       case OfWait(w) => WaitEnabled(s, w)
       case StopJoin => true
  }

  function Apply(s: State, step: Step): State
    requires Enabled(s, step)
  {
    match step
    case OfChild(e) => ChildApply(s, e)
    case OfBody(b) => BodyApply(s, b)
    case OfCall(k) => CallApply(s, k)
    case OfWait(w) => WaitApply(s, w)
    case StopJoin => DoStopJoin(s)
  }

  /** The state after `steps`, if each of them was enabled in turn. */
  function Run(start: State, steps: seq<Step>): Option<State>
  {
    if steps == [] then Some(start)
    else
      match Run(start, steps[..|steps| - 1])
      case None => None
      case Some(s) =>
        var step := steps[|steps| - 1];
        if Enabled(s, step) then Some(Apply(s, step)) else None
  }

  /** What no step changes. */
  predicate SameJoin(s: State, t: State) {
    t.handles == s.handles && t.isVoid == s.isVoid && |t.children| == |s.children| && |t.calls| == |s.calls|
  }

  lemma ChildKeepsJoin(s: State, e: ChildStep)
    requires Typed(s) && ChildEnabled(s, e)
    ensures SameJoin(s, ChildApply(s, e))
  {
  }

  lemma BodyKeepsJoin(s: State, b: BodyStep)
    requires Typed(s) && BodyEnabled(s, b)
    ensures SameJoin(s, BodyApply(s, b))
  {
  }

  lemma CallKeepsJoin(s: State, k: CallStep)
    requires Typed(s) && CallEnabled(s, k)
    ensures SameJoin(s, CallApply(s, k))
  {
  }

  lemma StepKeepsJoin(s: State, step: Step)
    requires Enabled(s, step)
    ensures SameJoin(s, Apply(s, step)) && Typed(Apply(s, step))
  {
    match step {
      case OfChild(e) => ChildKeepsJoin(s, e);
      case OfBody(b) => BodyKeepsJoin(s, b);
      case OfCall(k) => CallKeepsJoin(s, k);
      case OfWait(w) =>
      case StopJoin =>
    }
  }

  /** join_state: the part of fail under its mutex, on its field. */
  class JoinState {
    var error: Option<Failure>

    constructor ()
      ensures error.None?
    {
      error := None;
    }

    /** Returns whether this failure is the first one, which obliges the caller to stop the children. */
    method Fail(failure: Option<Failure>) returns (first: bool)
      modifies this
      ensures first <==> failure.Some? && old(error).None?
      ensures error == if old(error).Some? then old(error) else failure
    {
      if failure.None? {
        return false;
      }
      if error.Some? {
        return false;
      }
      error := failure;
      return true;
    }
  }
}
