/** What whenAll guarantees, whatever order its steps come in. */
module WhenAll {
  import opened TaskCore
  import opened JoinMachine

  // ---------------------------------------------------------------- what every state of a run satisfies

  /** A child of a running join; `failed` says that the join has recorded a failure. */
  predicate Sane(c: Child, failed: bool) {
    && (c.completed || c.stopRequested ==> c.settled.Some?)
    && (c.settled.Some? && !c.own ==> c.stopRequested && c.settled == Some(Error(TaskCancelled)))
    && (c.stopRequested ==> c.stoppedOutside || failed)
  }

  predicate Coming(k: Call) {
    k.Reading? || k.Failing?
  }

  /** Who is about to run the callback of a settled child. */
  predicate RightRunner(c: Child, runner: Runner, announcing: bool) {
    match runner
    case OwnBody => c.own && !c.completed
    case Stopper => !c.own
    case JoinBody => announcing
  }

  /** The callback of a handle, next to its child: a child's error is on its way or has been recorded. */
  predicate Heard(c: Child, k: Call, failed: bool, announcing: bool) {
    && (k.Listed? ==> c.settled.None?)
    && (c.settled.None? ==> k.Idle? || k.Listed?)
    && (c.settled.Some? && c.settled.value.Error? && !k.Idle? ==> Coming(k) || failed)
    && (Coming(k) ==> RightRunner(c, k.runner, announcing))
    && (k.Failing? ==> c.settled == Some(Error(k.failure)))
  }

  function Registered(s: State): nat {
    match s.body
    case Registering(i) => i
    case Announcing(i) => i + 1
    case other => |s.handles|
  }

  predicate HandleFact(s: State, i: nat)
    requires Typed(s) && i < |s.handles|
  {
    && Heard(ChildOf(s, i), s.calls[i], s.error.Some?, s.body == Announcing(i))
    && (s.calls[i].Idle? <==> i >= Registered(s))
  }

  predicate IsCasting(k: Call) {
    k.Casting? || k.Stopping?
  }

  predicate StopCallFits(s: State, k: Call) {
    && !k.Reading?
    && (k.Idle? <==> s.body.Registering? || s.body.Announcing? || s.body == Finished(EmptyHandle))
    && (k.Failing? ==> k.failure == TaskCancelled && s.stopped)
    && (k.Listed? ==> !s.stopped || s.body.Finished?)
    && (s.body.Subscribed? ==> s.stopped)
  }

  predicate CatchCallFits(s: State, k: Call) {
    && (k.Idle? <==> !s.body.Catching?)
    && !k.Listed? && !k.Reading?
    && (k.Failing? ==> k.failure == SchedulerRejected && s.rejected)
  }

  /** The body has come this far only past completed children. */
  predicate Past(s: State): (r: bool)
    requires Typed(s)
  {
    match s.body
    case Registering(i) => i <= |s.handles|
    case Announcing(i) => i < |s.handles|
    case Subscribed => true
    case Waiting(i) => i <= |s.handles| && CompletedTo(s, i)
    case Suspending(i) => i < |s.handles| && CompletedTo(s, i)
    case Suspended(i) => i < |s.handles| && CompletedTo(s, i)
    case Catching(i) => i < |s.handles| && CompletedTo(s, i + 1)
    case Finished(ending) => CompletedTo(s, |s.handles|)
  }

  /** The child whose completion the wait is for has completed. */
  predicate TargetDone(s: State) {
    s.wait.target < |s.children| && s.children[s.wait.target].completed
  }

  /** The wait of the body: its notice is listed only as long as the child has not completed, due or run only
      afterwards; it alone claims the operation, and the claim alone issues the ticket. */
  predicate WaitFits(s: State) {
    && (s.wait.notice.OnList? ==> !TargetDone(s))
    && (s.wait.notice.Due? || s.wait.notice.Ran? ==> TargetDone(s))
    && (s.wait.op.claimed <==> s.wait.notice.Ran?)
    && (s.wait.ticket.NotIssued? <==> !s.wait.op.claimed)
    && (s.wait.op.failure.Some? ==> s.wait.op.failure.value == SchedulerRejected && s.rejected)
  }

  /** The wait is for the child at hand, and is over when the body is not suspended. */
  predicate WaitMatches(s: State)
    requires Typed(s)
  {
    match s.body
    case Suspending(i) => i < |s.handles| && s.wait.target == s.handles[i] && s.wait.notice.Unlisted?
    case Suspended(i) => i < |s.handles| && s.wait.target == s.handles[i] && !s.wait.notice.Unlisted?
    case other => s.wait.notice.Unlisted? || s.wait.ticket.Used?
  }

  predicate Covered(c: Child) {
    c.completed || c.stopRequested
  }

  /** At most one call is stopping the children; the ones it has passed are stopped or complete. */
  predicate Cast(s: State, caster: Option<nat>)
    requires Typed(s)
  {
    && (forall a: nat :: a < |s.calls| && IsCasting(s.calls[a]) ==> caster == Some(a))
    && (s.error.None? ==> caster.None?)
    && (caster.Some? ==>
          && caster.value < |s.calls| && IsCasting(s.calls[caster.value])
          && s.calls[caster.value].next <= |s.handles|
          && (s.calls[caster.value].Stopping? ==> s.calls[caster.value].next < |s.handles|))
    && (s.error.Some? ==> CoveredTo(s, if caster.Some? then s.calls[caster.value].next else |s.handles|))
  }

  predicate CoveredTo(s: State, n: nat)
    requires Typed(s)
  {
    forall j: nat :: j < n && j < |s.handles| ==> Covered(ChildOf(s, j))
  }

  predicate CompletedTo(s: State, n: nat)
    requires Typed(s)
  {
    forall j: nat :: j < n && j < |s.handles| ==> ChildOf(s, j).completed
  }

  /** Why a failure may have been recorded. */
  predicate Cause(s: State, failure: Failure)
    requires Typed(s)
  {
    || (failure == TaskCancelled && s.stopped)
    || (failure == SchedulerRejected && s.rejected)
    || exists i: nat :: i < |s.handles| && ChildOf(s, i).settled == Some(Error(failure))
  }

  predicate Sources(s: State)
    requires Typed(s)
  {
    s.error.Some? ==> Cause(s, s.error.value)
  }

  predicate AllSane(s: State) {
    forall c: nat :: c < |s.children| ==> Sane(s.children[c], s.error.Some?)
  }

  predicate AllHeard(s: State)
    requires Typed(s)
  {
    forall i: nat :: i < |s.handles| ==> HandleFact(s, i)
  }

  predicate Inv(s: State, caster: Option<nat>) {
    && Typed(s) && AllSane(s) && AllHeard(s) && Past(s) && Cast(s, caster) && Sources(s)
    && StopCallFits(s, s.calls[StopCall(s)]) && CatchCallFits(s, s.calls[CatchCall(s)])
    && WaitFits(s) && WaitMatches(s)
  }

  /** Steps that complete nobody leave the wait alone. */
  lemma WaitStays(s: State, t: State)
    requires Typed(s) && Typed(t) && WaitFits(s) && WaitMatches(s) && |t.children| == |s.children|
    requires t.wait == s.wait && t.body == s.body && t.rejected == s.rejected && t.handles == s.handles
    requires forall c: nat :: c < |s.children| ==> t.children[c].completed == s.children[c].completed
    ensures WaitFits(t) && WaitMatches(t)
  {
  }

  // ---------------------------------------------------------------- the children's steps

  lemma WaitAfterChild(s: State, e: ChildStep)
    requires Typed(s) && WaitFits(s) && WaitMatches(s) && ChildEnabled(s, e)
    ensures Typed(ChildApply(s, e)) && WaitFits(ChildApply(s, e)) && WaitMatches(ChildApply(s, e))
  {
  }

  lemma HandleAfterSettle(s: State, c: nat, outcome: Outcome, i: nat)
    requires Typed(s) && AllSane(s) && i < |s.handles| && HandleFact(s, i) && ChildEnabled(s, Settles(c, outcome))
    ensures HandleFact(SettleOne(s, c, outcome), i)
  {
  }

  lemma HandleAfterStop(s: State, c: nat, outside: bool, i: nat)
    requires Typed(s) && i < |s.handles| && HandleFact(s, i) && c < |s.children|
    ensures HandleFact(StopOne(s, c, outside), i)
  {
  }

  lemma HandleAfterCompletion(s: State, c: nat, i: nat)
    requires Typed(s) && i < |s.handles| && HandleFact(s, i) && ChildEnabled(s, Completes(c))
    ensures HandleFact(CompleteOne(s, c), i)
  {
  }

  lemma HandleAfterChild(s: State, e: ChildStep, i: nat)
    requires Typed(s) && AllSane(s) && i < |s.handles| && HandleFact(s, i) && ChildEnabled(s, e)
    ensures HandleFact(ChildApply(s, e), i)
  {
    match e {
      case Settles(c, outcome) => HandleAfterSettle(s, c, outcome, i);
      case StopOutside(c) => HandleAfterStop(s, c, true, i);
      case Completes(c) => HandleAfterCompletion(s, c, i);
    }
  }

  /** Children only move forwards. */
  predicate Forward(s: State, t: State) {
    && SameJoin(s, t)
    && (forall c: nat :: c < |s.children| ==>
          && (s.children[c].completed ==> t.children[c].completed)
          && (s.children[c].stopRequested ==> t.children[c].stopRequested)
          && (s.children[c].stoppedOutside ==> t.children[c].stoppedOutside)
          && (s.children[c].settled.Some? ==> t.children[c].settled == s.children[c].settled))
    && (s.error.Some? ==> t.error == s.error)
    && (s.stopped ==> t.stopped) && (s.rejected ==> t.rejected)
  }

  lemma CauseStays(s: State, t: State, failure: Failure)
    requires Typed(s) && Typed(t) && Forward(s, t) && Cause(s, failure)
    ensures Cause(t, failure)
  {
    if i: nat :| i < |s.handles| && ChildOf(s, i).settled == Some(Error(failure)) {
      assert ChildOf(t, i).settled == Some(Error(failure));
    }
  }

  lemma ChildIsForward(s: State, e: ChildStep)
    requires Typed(s) && ChildEnabled(s, e)
    ensures Forward(s, ChildApply(s, e))
  {
  }

  lemma SaneAfterChild(s: State, e: ChildStep)
    requires Typed(s) && AllSane(s) && ChildEnabled(s, e)
    ensures AllSane(ChildApply(s, e))
  {
  }

  /** No call starts, ends or moves its broadcast. */
  predicate SameCasts(s: State, t: State) {
    && |t.calls| == |s.calls| && t.error.Some? == s.error.Some?
    && (forall a: nat :: a < |s.calls| && (IsCasting(s.calls[a]) || IsCasting(t.calls[a])) ==> t.calls[a] == s.calls[a])
  }

  lemma ProgressStays(s: State, t: State, n: nat)
    requires Typed(s) && Typed(t) && Forward(s, t)
    ensures CoveredTo(s, n) ==> CoveredTo(t, n)
    ensures CompletedTo(s, n) ==> CompletedTo(t, n)
  {
    forall j: nat | j < n && j < |s.handles|
      ensures Covered(ChildOf(s, j)) ==> Covered(ChildOf(t, j))
      ensures ChildOf(s, j).completed ==> ChildOf(t, j).completed
    {
      assert ChildOf(s, j) == s.children[s.handles[j]];
    }
  }

  lemma CastStays(s: State, t: State, caster: Option<nat>)
    requires Typed(s) && Typed(t) && Forward(s, t) && SameCasts(s, t) && Cast(s, caster)
    ensures Cast(t, caster)
  {
    ProgressStays(s, t, if caster.Some? then s.calls[caster.value].next else |s.handles|);
  }

  lemma PastStays(s: State, t: State)
    requires Typed(s) && Typed(t) && Forward(s, t) && t.body == s.body && Past(s)
    ensures Past(t)
  {
    match s.body {
      case Waiting(i) => ProgressStays(s, t, i);
      case Suspending(i) => ProgressStays(s, t, i);
      case Suspended(i) => ProgressStays(s, t, i);
      case Catching(i) => ProgressStays(s, t, i + 1);
      case other => ProgressStays(s, t, |s.handles|);
    }
  }

  lemma ChildSameCasts(s: State, e: ChildStep)
    requires Typed(s) && ChildEnabled(s, e)
    ensures SameCasts(s, ChildApply(s, e)) && ChildApply(s, e).body == s.body
  {
  }

  lemma ChildKeepsInv(s: State, e: ChildStep, caster: Option<nat>)
    requires Inv(s, caster) && ChildEnabled(s, e)
    ensures Inv(ChildApply(s, e), caster)
  {
    var t := ChildApply(s, e);
    ChildIsForward(s, e);
    SaneAfterChild(s, e);
    ChildSameCasts(s, e);
    WaitAfterChild(s, e);
    CastStays(s, t, caster);
    PastStays(s, t);
    if s.error.Some? {
      CauseStays(s, t, s.error.value);
    }
    forall i: nat | i < |s.handles|
      ensures HandleFact(t, i)
    {
      HandleAfterChild(s, e, i);
    }
  }

  // ---------------------------------------------------------------- the body's steps

  lemma HandleAfterRegister(s: State, i: nat)
    requires Typed(s) && i < |s.handles| && HandleFact(s, i) && BodyEnabled(s, RegisterCallback)
    ensures HandleFact(BodyApply(s, RegisterCallback), i)
  {
  }

  lemma HandleAfterBody(s: State, b: BodyStep, i: nat)
    requires Typed(s) && i < |s.handles| && HandleFact(s, i) && BodyEnabled(s, b) && !b.RegisterCallback?
    ensures HandleFact(BodyApply(s, b), i)
  {
  }

  lemma WaitAfterBody(s: State, b: BodyStep)
    requires Typed(s) && WaitFits(s) && WaitMatches(s) && BodyEnabled(s, b)
    ensures Typed(BodyApply(s, b)) && WaitFits(BodyApply(s, b)) && WaitMatches(BodyApply(s, b))
  {
  }

  lemma BodySameCasts(s: State, b: BodyStep)
    requires Typed(s) && BodyEnabled(s, b)
    requires CatchCallFits(s, s.calls[CatchCall(s)]) && StopCallFits(s, s.calls[StopCall(s)])
    requires s.body.Registering? && s.body.at < |s.handles| ==> HandleFact(s, s.body.at)
    ensures SameCasts(s, BodyApply(s, b)) && Forward(s, BodyApply(s, b)) && BodyApply(s, b).children == s.children
  {
  }

  lemma PastAfterBody(s: State, b: BodyStep)
    requires Typed(s) && BodyEnabled(s, b) && Past(s) && SameJoin(s, BodyApply(s, b))
    requires WaitFits(s) && WaitMatches(s)
    ensures Past(BodyApply(s, b))
  {
    var t := BodyApply(s, b);
    match b {
      case AskFinished =>
        if ChildOf(s, s.body.at).completed { OneFurther(s, t, s.body.at); } else { SameProgress(s, t, s.body.at); }
      case Register => SameProgress(s, t, s.body.at);
      case Resume => OneFurther(s, t, s.body.at);
      case AfterCatch => SameProgress(s, t, s.body.at + 1);
      case Conclude => SameProgress(s, t, |s.handles|);
      case other =>
    }
  }

  lemma SameProgress(s: State, t: State, n: nat)
    requires Typed(s) && Typed(t) && SameJoin(s, t) && t.children == s.children && CompletedTo(s, n)
    ensures CompletedTo(t, n)
  {
    forall j: nat | j < n && j < |t.handles|
      ensures ChildOf(t, j).completed
    {
      assert ChildOf(s, j).completed;
    }
  }

  lemma OneFurther(s: State, t: State, n: nat)
    requires Typed(s) && Typed(t) && SameJoin(s, t) && t.children == s.children && CompletedTo(s, n)
    requires n < |s.handles| && ChildOf(s, n).completed
    ensures CompletedTo(t, n + 1)
  {
    forall j: nat | j < n + 1 && j < |t.handles|
      ensures ChildOf(t, j).completed
    {
      assert ChildOf(s, j).completed;
    }
  }

  lemma SpecialsAfterBody(s: State, b: BodyStep)
    requires Typed(s) && BodyEnabled(s, b)
    requires CatchCallFits(s, s.calls[CatchCall(s)]) && StopCallFits(s, s.calls[StopCall(s)]) && WaitFits(s)
    ensures
      var t := BodyApply(s, b);
      |t.calls| == |s.calls| && t.handles == s.handles
      && CatchCallFits(t, t.calls[CatchCall(t)]) && StopCallFits(t, t.calls[StopCall(t)])
  {
  }

  lemma BodyKeepsInv(s: State, b: BodyStep, caster: Option<nat>)
    requires Inv(s, caster) && BodyEnabled(s, b)
    ensures Inv(BodyApply(s, b), caster)
  {
    var t := BodyApply(s, b);
    BodyKeepsJoin(s, b);
    BodySameCasts(s, b);
    CastStays(s, t, caster);
    PastAfterBody(s, b);
    SpecialsAfterBody(s, b);
    WaitAfterBody(s, b);
    if s.error.Some? {
      CauseStays(s, t, s.error.value);
    }
    forall i: nat | i < |s.handles|
      ensures HandleFact(t, i)
    {
      if b.RegisterCallback? { HandleAfterRegister(s, i); } else { HandleAfterBody(s, b, i); }
    }
  }

  // ---------------------------------------------------------------- fail's steps

  lemma HandleAfterRead(s: State, a: nat, i: nat)
    requires Typed(s) && i < |s.handles| && HandleFact(s, i) && CallEnabled(s, ReadError(a))
    ensures HandleFact(CallApply(s, ReadError(a)), i)
  {
  }

  lemma HandleAfterRecord(s: State, a: nat, i: nat)
    requires Typed(s) && i < |s.handles| && HandleFact(s, i) && CallEnabled(s, Record(a))
    ensures HandleFact(CallApply(s, Record(a)), i)
  {
  }

  lemma HandleAfterLook(s: State, a: nat, i: nat)
    requires Typed(s) && i < |s.handles| && HandleFact(s, i) && CallEnabled(s, Look(a)) && s.error.Some?
    ensures HandleFact(CallApply(s, Look(a)), i)
  {
  }

  lemma HandleAfterPass(s: State, a: nat, i: nat)
    requires Typed(s) && i < |s.handles| && HandleFact(s, i) && CallEnabled(s, StopChild(a)) && s.error.Some?
    ensures Typed(PassOne(s, a)) && HandleFact(PassOne(s, a), i) && PassOne(s, a).handles == s.handles
  {
  }

  lemma HandleAfterStopChild(s: State, a: nat, i: nat)
    requires Typed(s) && i < |s.handles| && HandleFact(s, i) && CallEnabled(s, StopChild(a)) && s.error.Some?
    ensures HandleFact(CallApply(s, StopChild(a)), i)
  {
    HandleAfterPass(s, a, i);
    HandleAfterStop(PassOne(s, a), s.handles[s.calls[a].next], false, i);
  }

  lemma HandleAfterCall(s: State, k: CallStep, i: nat)
    requires Typed(s) && i < |s.handles| && HandleFact(s, i) && CallEnabled(s, k)
    requires IsCasting(s.calls[k.a]) ==> s.error.Some?
    ensures HandleFact(CallApply(s, k), i)
  {
    match k {
      case ReadError(a) => HandleAfterRead(s, a, i);
      case Record(a) => HandleAfterRecord(s, a, i);
      case Look(a) => HandleAfterLook(s, a, i);
      case StopChild(a) => HandleAfterStopChild(s, a, i);
    }
  }

  lemma CallIsForward(s: State, k: CallStep)
    requires Typed(s) && CallEnabled(s, k)
    ensures Forward(s, CallApply(s, k)) && CallApply(s, k).body == s.body
  {
  }

  lemma SaneAfterCall(s: State, k: CallStep)
    requires Typed(s) && AllSane(s) && CallEnabled(s, k) && (IsCasting(s.calls[k.a]) ==> s.error.Some?)
    ensures AllSane(CallApply(s, k))
  {
  }

  lemma CastAfterRead(s: State, a: nat, caster: Option<nat>)
    requires Typed(s) && Cast(s, caster) && CallEnabled(s, ReadError(a))
    ensures Cast(CallApply(s, ReadError(a)), caster)
  {
    var t := CallApply(s, ReadError(a));
    CallIsForward(s, ReadError(a));
    CastStays(s, t, caster);
  }

  lemma CastAfterRecord(s: State, a: nat, caster: Option<nat>) returns (caster': Option<nat>)
    requires Typed(s) && Cast(s, caster) && CallEnabled(s, Record(a))
    ensures Cast(CallApply(s, Record(a)), caster')
  {
    var t := CallApply(s, Record(a));
    if s.error.Some? {
      CallIsForward(s, Record(a));
      CastStays(s, t, caster);
      caster' := caster;
    } else {
      caster' := Some(a);
    }
  }

  lemma CoveredStep(s: State, t: State, n: nat)
    requires Typed(s) && Typed(t) && Forward(s, t) && CoveredTo(s, n)
    requires n < |s.handles| ==> Covered(ChildOf(t, n))
    ensures CoveredTo(t, n + 1)
  {
    ProgressStays(s, t, n);
    forall j: nat | j < n + 1 && j < |t.handles|
      ensures Covered(ChildOf(t, j))
    {
      assert j < n ==> Covered(ChildOf(t, j));
    }
  }

  lemma CastAfterLook(s: State, a: nat, caster: Option<nat>) returns (caster': Option<nat>)
    requires Typed(s) && Cast(s, caster) && CallEnabled(s, Look(a))
    ensures Cast(CallApply(s, Look(a)), caster')
  {
    var t, n := CallApply(s, Look(a)), s.calls[a].next;
    CallIsForward(s, Look(a));
    if n >= |s.handles| {
      caster' := None;
      ProgressStays(s, t, n);
    } else if ChildOf(s, n).completed {
      caster' := caster;
      assert ChildOf(t, n) == ChildOf(s, n);
      CoveredStep(s, t, n);
    } else {
      caster' := caster;
      ProgressStays(s, t, n);
    }
  }

  lemma StoppedIsCovered(s: State, a: nat)
    requires Typed(s) && CallEnabled(s, StopChild(a))
    ensures Covered(ChildOf(CallApply(s, StopChild(a)), s.calls[a].next))
    ensures CallApply(s, StopChild(a)).calls[a] == Casting(s.calls[a].next + 1, s.calls[a].runner)
    ensures forall b: nat :: b < |s.calls| && IsCasting(CallApply(s, StopChild(a)).calls[b]) ==> IsCasting(s.calls[b])
  {
  }

  lemma CastAfterStopChild(s: State, a: nat, caster: Option<nat>)
    requires Typed(s) && Cast(s, caster) && CallEnabled(s, StopChild(a))
    ensures Cast(CallApply(s, StopChild(a)), caster)
  {
    var t, n := CallApply(s, StopChild(a)), s.calls[a].next;
    CallIsForward(s, StopChild(a));
    StoppedIsCovered(s, a);
    CoveredStep(s, t, n);
  }

  lemma CastAfterCall(s: State, k: CallStep, caster: Option<nat>) returns (caster': Option<nat>)
    requires Typed(s) && Cast(s, caster) && CallEnabled(s, k)
    ensures Cast(CallApply(s, k), caster')
  {
    caster' := caster;
    match k {
      case ReadError(a) => CastAfterRead(s, a, caster);
      case Record(a) => caster' := CastAfterRecord(s, a, caster);
      case Look(a) => caster' := CastAfterLook(s, a, caster);
      case StopChild(a) => CastAfterStopChild(s, a, caster);
    }
  }

  lemma FailingHasCause(s: State, a: nat)
    requires Typed(s) && a < |s.calls| && s.calls[a].Failing?
    requires StopCallFits(s, s.calls[StopCall(s)]) && CatchCallFits(s, s.calls[CatchCall(s)]) && AllHeard(s)
    ensures Cause(s, s.calls[a].failure)
  {
    if a < |s.handles| {
      assert HandleFact(s, a);
      assert ChildOf(s, a).settled == Some(Error(s.calls[a].failure));
    }
  }

  lemma SourcesAfterCall(s: State, k: CallStep, caster: Option<nat>)
    requires Inv(s, caster) && CallEnabled(s, k)
    ensures Sources(CallApply(s, k))
  {
    var t := CallApply(s, k);
    CallIsForward(s, k);
    if s.error.Some? {
      CauseStays(s, t, s.error.value);
    } else if k.Record? {
      FailingHasCause(s, k.a);
      CauseStays(s, t, s.calls[k.a].failure);
    }
  }

  predicate SpecialsFit(s: State)
    requires Typed(s)
  {
    CatchCallFits(s, s.calls[CatchCall(s)]) && StopCallFits(s, s.calls[StopCall(s)])
  }

  lemma SpecialsAfterRead(s: State, a: nat)
    requires Typed(s) && CallEnabled(s, ReadError(a)) && SpecialsFit(s)
    ensures Typed(CallApply(s, ReadError(a))) && SpecialsFit(CallApply(s, ReadError(a)))
  {
  }

  lemma SpecialsAfterRecord(s: State, a: nat)
    requires Typed(s) && CallEnabled(s, Record(a)) && SpecialsFit(s)
    ensures Typed(CallApply(s, Record(a))) && SpecialsFit(CallApply(s, Record(a)))
  {
  }

  lemma SpecialsAfterLook(s: State, a: nat)
    requires Typed(s) && CallEnabled(s, Look(a)) && SpecialsFit(s)
    ensures Typed(CallApply(s, Look(a))) && SpecialsFit(CallApply(s, Look(a)))
  {
  }

  lemma SpecialsAfterStopChild(s: State, a: nat)
    requires Typed(s) && CallEnabled(s, StopChild(a)) && SpecialsFit(s)
    ensures Typed(CallApply(s, StopChild(a))) && SpecialsFit(CallApply(s, StopChild(a)))
  {
  }

  lemma SpecialsAfterCall(s: State, k: CallStep)
    requires Typed(s) && CallEnabled(s, k) && SpecialsFit(s)
    ensures Typed(CallApply(s, k)) && SpecialsFit(CallApply(s, k))
  {
    match k {
      case ReadError(a) => SpecialsAfterRead(s, a);
      case Record(a) => SpecialsAfterRecord(s, a);
      case Look(a) => SpecialsAfterLook(s, a);
      case StopChild(a) => SpecialsAfterStopChild(s, a);
    }
  }

  lemma CallCompletesNobody(s: State, k: CallStep)
    requires Typed(s) && CallEnabled(s, k)
    ensures
      var t := CallApply(s, k);
      t.wait == s.wait && t.rejected == s.rejected && |t.children| == |s.children|
      && forall c: nat :: c < |s.children| ==> t.children[c].completed == s.children[c].completed
  {
  }

  lemma CallKeepsInv(s: State, k: CallStep, caster: Option<nat>) returns (caster': Option<nat>)
    requires Inv(s, caster) && CallEnabled(s, k)
    ensures Inv(CallApply(s, k), caster')
  {
    var t := CallApply(s, k);
    CallIsForward(s, k);
    SaneAfterCall(s, k);
    PastStays(s, t);
    SourcesAfterCall(s, k, caster);
    SpecialsAfterCall(s, k);
    CallCompletesNobody(s, k);
    WaitStays(s, t);
    caster' := CastAfterCall(s, k, caster);
    forall i: nat | i < |s.handles|
      ensures HandleFact(t, i)
    {
      HandleAfterCall(s, k, i);
    }
  }

  lemma HandleAfterStopJoin(s: State, i: nat)
    requires Typed(s) && i < |s.handles| && HandleFact(s, i)
    ensures Typed(DoStopJoin(s)) && HandleFact(DoStopJoin(s), i)
  {
  }

  lemma StopJoinIsForward(s: State)
    requires Typed(s) && StopCallFits(s, s.calls[StopCall(s)]) && CatchCallFits(s, s.calls[CatchCall(s)])
    ensures
      var t := DoStopJoin(s);
      Forward(s, t) && SameCasts(s, t) && t.body == s.body && t.children == s.children
      && StopCallFits(t, t.calls[StopCall(t)]) && CatchCallFits(t, t.calls[CatchCall(t)])
  {
  }

  lemma StopJoinKeepsInv(s: State, caster: Option<nat>)
    requires Inv(s, caster)
    ensures Inv(DoStopJoin(s), caster)
  {
    var t := DoStopJoin(s);
    StopJoinIsForward(s);
    WaitStays(s, t);
    CastStays(s, t, caster);
    PastStays(s, t);
    if s.error.Some? {
      CauseStays(s, t, s.error.value);
    }
    forall i: nat | i < |s.handles|
      ensures HandleFact(t, i)
    {
      HandleAfterStopJoin(s, i);
    }
  }

  // ---------------------------------------------------------------- the steps of the wait

  lemma WaitIsForward(s: State, w: WaitStep)
    requires Typed(s) && WaitEnabled(s, w)
    ensures
      var t := WaitApply(s, w);
      Typed(t) && Forward(s, t) && SameCasts(s, t) && t.body == s.body && t.children == s.children
      && t.calls == s.calls && t.stopped == s.stopped
  {
  }

  lemma WaitAfterWait(s: State, w: WaitStep)
    requires Typed(s) && WaitFits(s) && WaitMatches(s) && WaitEnabled(s, w)
    ensures Typed(WaitApply(s, w)) && WaitFits(WaitApply(s, w)) && WaitMatches(WaitApply(s, w))
  {
  }

  lemma WaitKeepsInv(s: State, w: WaitStep, caster: Option<nat>)
    requires Inv(s, caster) && WaitEnabled(s, w)
    ensures Inv(WaitApply(s, w), caster)
  {
    var t := WaitApply(s, w);
    WaitIsForward(s, w);
    WaitAfterWait(s, w);
    CastStays(s, t, caster);
    PastStays(s, t);
    if s.error.Some? {
      CauseStays(s, t, s.error.value);
    }
    forall i: nat | i < |s.handles|
      ensures HandleFact(t, i)
    {
      assert HandleFact(s, i);
    }
  }

  lemma StepKeepsInv(s: State, step: Step, caster: Option<nat>) returns (caster': Option<nat>)
    requires Inv(s, caster) && Enabled(s, step)
    ensures Inv(Apply(s, step), caster')
  {
    caster' := caster;
    match step {
      case OfChild(e) => ChildKeepsInv(s, e, caster);
      case OfBody(b) => BodyKeepsInv(s, b, caster);
      case OfCall(k) => caster' := CallKeepsInv(s, k, caster);
      case OfWait(w) => WaitKeepsInv(s, w, caster);
      case StopJoin => StopJoinKeepsInv(s, caster);
    }
  }
}