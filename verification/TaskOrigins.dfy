/** Where results and failures come from: which earlier steps of a run account for what a task has settled
    with, and for what completed the operations its body waited on. */
module TaskOrigins {
  import opened TaskCore
  import opened TaskMachine
  import opened TaskExecution
  import opened TaskStop
  import opened TaskResults
  import opened TaskRuntime
  import opened TaskAwait
  import TaskWork

  // ---------------------------------------------------------------- what has happened so far

  /** Facts about the steps taken so far.  `outcomes` are those with which the body has ended, and
      `firstSettler` says what first reached the result: None for a stop, Some(o) for a body's outcome o.  The
      others name operations: whose function ended with which failure, whose function was never run, whose
      predicate said yes or threw, and what was signalled. */
  datatype History = History(outcomes: seq<Outcome>, firstSettler: Option<Option<Outcome>>,
                             ended: set<(nat, Option<Failure>)>, unrun: set<nat>, readied: set<nat>,
                             threw: set<(nat, Failure)>, signalled: set<nat>)

  const NOTHING_YET: History := History([], None, {}, {}, {}, {}, {})

  function AddSettler(h: History, settler: Option<Outcome>): History {
    if h.firstSettler.None? then h.(firstSettler := Some(settler)) else h
  }

  function NoteFrame(h: History, s: State, step: FrameStep): History {
    match step
    case Return(c, outcome) => h.(outcomes := h.outcomes + [outcome])
    case SettleBody(c) => if h.outcomes == [] then h else AddSettler(h, Some(h.outcomes[|h.outcomes| - 1]))
    case _ => h
  }

  function NoteWait(h: History, s: State, step: WaitStep): History
    requires WaitEnabled(s, step)
  {
    match step
    case Wire(c, accepted) => if accepted then h else h.(unrun := h.unrun + {s.calls[c].op})
    case SignalEvent(i) => h.(signalled := h.signalled + {i})
    case _ => h
  }

  function NoteWork(h: History, s: State, step: WorkStep): History
    requires WorkEnabled(s, step)
  {
    match step
    case DropWork(c) => h.(unrun := h.unrun + {s.calls[c].op})
    case EndWork(c, error) => h.(ended := h.ended + {(s.calls[c].op, error)})
    case EndProbe(c, ready) => if ready then h.(readied := h.readied + {s.calls[c].op}) else h
    case ProbeThrows(c, thrown) => h.(threw := h.threw + {(s.calls[c].op, thrown)})
    case _ => h
  }

  function NoteRequest(h: History, step: RequestStep): History {
    match step
    case StopState(c) => AddSettler(h, None)
    case _ => h
  }

  function Note(h: History, s: State, step: Step): History
    requires Enabled(s, step)
  {
    match step
    case OfFrame(f) => NoteFrame(h, s, f)
    case OfWait(o) => NoteWait(h, s, o)
    case OfWork(w) => NoteWork(h, s, w)
    case OfRequest(q) => NoteRequest(h, q)
  }

  function HistoryOf(steps: seq<Step>): History
    requires Run(steps).Some?
  {
    if steps == [] then NOTHING_YET
    else Note(HistoryOf(steps[..|steps| - 1]), Run(steps[..|steps| - 1]).value, steps[|steps| - 1])
  }

  // ---------------------------------------------------------------- the result

  predicate IsSettling(s: State, c: nat) {
    c < |s.calls| && s.calls[c].Settling?
  }

  /** The body ends once; until it has settled, one call carries its outcome. */
  ghost predicate ResultExplained(s: State, h: History) {
    && |h.outcomes| <= 1
    && (h.outcomes == [] ==> forall c :: 0 <= c < |s.calls| ==> !s.calls[c].Settling?)
    && (h.outcomes != [] ==> s.body.Done? || exists c: nat :: IsSettling(s, c))
    && (forall c :: 0 <= c < |s.calls| && s.calls[c].Settling? ==> h.outcomes == [s.calls[c].outcome])
    && s.result.settled == (match h.firstSettler
                            case None => None
                            case Some(None) => Some(Error(TaskCancelled))
                            case Some(Some(o)) => Some(o))
    && (forall o :: h.firstSettler == Some(Some(o)) ==> h.outcomes == [o])
    && (s.result.cancellationRequested ==> h.firstSettler.Some?)
  }

  lemma SettlingGoesOn(s: State, t: State, c: nat, d: nat)
    requires IsSettling(s, d) && c != d && |t.calls| >= |s.calls| && t.calls[d] == s.calls[d]
    ensures IsSettling(t, d)
  {
  }

  /** Steps that leave body, result and history alone, and settle nothing. */
  lemma QuietStep(s: State, t: State, h: History, c: nat, k: Call, spawned: seq<Call>)
    requires ResultExplained(s, h) && Goes(s, t, c, k, spawned)
    requires t.result.settled == s.result.settled && (s.body.Done? ==> t.body.Done?)
    requires t.result.cancellationRequested == s.result.cancellationRequested
    requires !k.Settling? && forall j :: 0 <= j < |spawned| ==> !spawned[j].Settling?
    requires c < |s.calls| ==> !s.calls[c].Settling?
    ensures ResultExplained(t, h)
  {
    if h.outcomes != [] && !s.body.Done? {
      var d: nat :| IsSettling(s, d);
      assert IsSettling(t, d);
    }
  }

  lemma NobodyElseSettles(s: State, c: nat, token: Token)
    requires OneToken(s, token) && c < |s.calls| && Carries(s.calls[c])
    ensures forall d :: 0 <= d < |s.calls| && d != c ==> !s.calls[d].Settling?
    ensures forall d: nat :: d != c ==> !IsSettling(s, d)
  {
    forall d | 0 <= d < |s.calls| && d != c
      ensures !s.calls[d].Settling?
    {
      assert Carries(s.calls[d]) <==> token == AtCall(d);
    }
  }

  lemma ReturnExplained(s: State, h: History, c: nat, outcome: Outcome, owner: Option<nat>, token: Token)
    requires ExecInv(s, owner, token) && ResultExplained(s, h) && FrameEnabled(s, Return(c, outcome))
    ensures ResultExplained(DoReturn(s, c, outcome), NoteFrame(h, s, Return(c, outcome)))
  {
    var t := DoReturn(s, c, outcome);
    assert Fits(s, s.calls[c]);
    NobodyElseSettles(s, c, token);
    assert IsSettling(t, c);
  }

  lemma SettleExplained(s: State, h: History, c: nat, owner: Option<nat>, token: Token)
    requires ExecInv(s, owner, token) && ResultExplained(s, h) && FrameEnabled(s, SettleBody(c))
    ensures ResultExplained(DoSettleBody(s, c), NoteFrame(h, s, SettleBody(c)))
  {
    var t := DoSettleBody(s, c);
    NobodyElseSettles(s, c, token);
  }

  lemma StopExplained(s: State, h: History, c: nat)
    requires ResultExplained(s, h) && RequestEnabled(s, StopState(c))
    ensures ResultExplained(DoStopState(s, c), NoteRequest(h, StopState(c)))
  {
    var t := DoStopState(s, c);
    if h.outcomes != [] && !s.body.Done? {
      var d: nat :| IsSettling(s, d);
      assert IsSettling(t, d);
    }
  }

  lemma ContinueExplained(s: State, h: History, c: nat)
    requires ResultExplained(s, h) && FrameEnabled(s, Continue(c)) && !s.body.Done?
    ensures ResultExplained(DoContinue(s, c), h)
  {
    var t := DoContinue(s, c);
    QuietStep(s, t, h, c, t.calls[c], []);
  }

  lemma SuspendExplained(s: State, h: History, c: nat, kind: Kind)
    requires ResultExplained(s, h) && FrameEnabled(s, Suspend(c, kind)) && s.body.Active?
    ensures ResultExplained(DoSuspend(s, c, kind), h)
  {
    var t := DoSuspend(s, c, kind);
    QuietStep(s, t, h, c, t.calls[c], []);
  }

  lemma FrameExplained(s: State, h: History, step: FrameStep, owner: Option<nat>, token: Token)
    requires ExecInv(s, owner, token) && ResultExplained(s, h) && FrameEnabled(s, step)
    ensures ResultExplained(FrameApply(s, step), NoteFrame(h, s, step))
  {
    match step {
      case EnterResume(c) => var t := DoEnterResume(s, c); QuietStep(s, t, h, c, t.calls[c], []);
      case Continue(c) =>
        assert Fits(s, s.calls[c]);
        ContinueExplained(s, h, c);
      case Suspend(c, kind) =>
        assert Fits(s, s.calls[c]);
        SuspendExplained(s, h, c, kind);
      case Return(c, outcome) => ReturnExplained(s, h, c, outcome, owner, token);
      case SettleBody(c) => SettleExplained(s, h, c, owner, token);
      case Leave(c) => var t := DoLeave(s, c); QuietStep(s, t, h, c, t.calls[c], []);
      case DestroyFrame(c) => QuietStep(s, DoDestroyFrame(s, c), h, c, Finishing, []);
      case Finish(c) => QuietStep(s, DoFinish(s, c), h, c, Completing, []);
      case CompleteExecution(c) => var t := DoCompleteExecution(s, c); QuietStep(s, t, h, c, t.calls[c], []);
    }
  }

  lemma WaitExplained(s: State, h: History, step: WaitStep)
    requires ResultExplained(s, h) && WaitEnabled(s, step)
    ensures ResultExplained(WaitApply(s, step), h)
  {
    var t := WaitApply(s, step);
    match step {
      case SignalEvent(i) => QuietStep(s, t, h, |s.calls|, Gone, [CompletingOp(i, None)]);
      case Arm(c) => QuietStep(s, t, h, c, t.calls[c], t.calls[|s.calls|..]);
      case Wire(c, accepted) => QuietStep(s, t, h, c, t.calls[c], t.calls[|s.calls|..]);
      case Cancel(c) => QuietStep(s, t, h, c, t.calls[c], []);
      case CompleteOperation(c) => QuietStep(s, t, h, c, t.calls[c], []);
      case CompleteInProbe(c) => QuietStep(s, t, h, c, t.calls[c], t.calls[|s.calls|..]);
      case RunTicket(c) => QuietStep(s, t, h, c, Entering, []);
      case DropTicket(c) => QuietStep(s, t, h, c, Entering, []);
    }
  }

  lemma WorkExplained(s: State, h: History, step: WorkStep)
    requires ResultExplained(s, h) && WorkEnabled(s, step)
    ensures ResultExplained(WorkApply(s, step), h)
  {
    var t := WorkApply(s, step);
    match step {
      case BeginWork(c) => QuietStep(s, t, h, c, t.calls[c], []);
      case DropWork(c) => QuietStep(s, t, h, c, t.calls[c], []);
      case EndWork(c, error) => QuietStep(s, t, h, c, t.calls[c], []);
      case BeginProbe(c) => QuietStep(s, t, h, c, t.calls[c], []);
      case EndProbe(c, ready) => QuietStep(s, t, h, c, t.calls[c], []);
      case ProbeThrows(c, thrown) => QuietStep(s, t, h, c, t.calls[c], []);
    }
  }

  lemma RequestExplained(s: State, h: History, step: RequestStep)
    requires ResultExplained(s, h) && RequestEnabled(s, step)
    ensures ResultExplained(RequestApply(s, step), NoteRequest(h, step))
  {
    var t := RequestApply(s, step);
    match step {
      case AskStop => QuietStep(s, t, h, |s.calls|, Gone, [Stopping]);
      case StopState(c) => StopExplained(s, h, c);
      case FireStop(c) => QuietStep(s, t, h, c, Gone, t.calls[|s.calls|..]);
      case AskCallback(execution) => QuietStep(s, t, h, |s.calls|, Gone, t.calls[|s.calls|..]);
      case RegisterCallback(c) => QuietStep(s, t, h, c, t.calls[c], []);
      case RunCallback(c) => QuietStep(s, t, h, c, t.calls[c], []);
    }
  }

  /** The history of what may complete operations plays no part in the result. */
  lemma SameReturns(s: State, h: History, h': History)
    requires ResultExplained(s, h) && h'.outcomes == h.outcomes && h'.firstSettler == h.firstSettler
    ensures ResultExplained(s, h')
  {
  }

  lemma StepKeepsResult(s: State, h: History, step: Step, owner: Option<nat>, token: Token)
    requires ExecInv(s, owner, token) && ResultExplained(s, h) && Enabled(s, step)
    ensures ResultExplained(Apply(s, step), Note(h, s, step))
  {
    match step {
      case OfFrame(f) => FrameExplained(s, h, f, owner, token);
      case OfWait(o) =>
        WaitExplained(s, h, o);
        SameReturns(Apply(s, step), h, NoteWait(h, s, o));
      case OfWork(w) =>
        WorkExplained(s, h, w);
        SameReturns(Apply(s, step), h, NoteWork(h, s, w));
      case OfRequest(q) => RequestExplained(s, h, q);
    }
  }

  lemma {:induction false} RunExplainsResult(steps: seq<Step>)
    requires Run(steps).Some?
    ensures ResultExplained(Run(steps).value, HistoryOf(steps))
  {
    if steps != [] {
      var before := steps[..|steps| - 1];
      RunExplainsResult(before);
      var w := RunKeepsInv(before, Callback(0, false));
      StepKeepsResult(Run(before).value, HistoryOf(before), steps[|steps| - 1], w.owner, w.token);
    }
  }

  // ---------------------------------------------------------------- theorems about the result

  predicate Returns(step: Step, outcome: Outcome) {
    step.OfFrame? && step.f.Return? && step.f.outcome == outcome
  }

  predicate IsReturn(step: Step) {
    step.OfFrame? && step.f.Return?
  }

  predicate IsStop(step: Step) {
    step.OfRequest? && step.q.StopState?
  }

  lemma {:induction false} ReturnsAreSteps(steps: seq<Step>)
    requires Run(steps).Some?
    ensures forall o :: o in HistoryOf(steps).outcomes ==> exists n: nat :: n < |steps| && Returns(steps[n], o)
    ensures HistoryOf(steps).outcomes == [] ==> forall n :: 0 <= n < |steps| ==> !IsReturn(steps[n])
  {
    if steps != [] {
      var before, step := steps[..|steps| - 1], steps[|steps| - 1];
      ReturnsAreSteps(before);
      forall o | o in HistoryOf(steps).outcomes
        ensures exists n: nat :: n < |steps| && Returns(steps[n], o)
      {
        if o in HistoryOf(before).outcomes {
          var n: nat :| n < |before| && Returns(before[n], o);
          assert Returns(steps[n], o);
        } else {
          assert Returns(steps[|steps| - 1], o);
        }
      }
      forall n | 0 <= n < |steps| && HistoryOf(steps).outcomes == []
        ensures !IsReturn(steps[n])
      {
        assert n < |before| ==> steps[n] == before[n];
      }
    }
  }

  lemma {:induction false} StopsAreSteps(steps: seq<Step>)
    requires Run(steps).Some?
    ensures HistoryOf(steps).firstSettler == Some(None) ==> exists n: nat :: n < |steps| && IsStop(steps[n])
    ensures Run(steps).value.result.cancellationRequested <==> exists n: nat :: n < |steps| && IsStop(steps[n])
  {
    if steps != [] {
      var before, step := steps[..|steps| - 1], steps[|steps| - 1];
      StopsAreSteps(before);
      OnlyStopsCancel(Run(before).value, step);
      if n: nat :| n < |before| && IsStop(before[n]) {
        assert IsStop(steps[n]);
      }
      if IsStop(step) {
        assert IsStop(steps[|steps| - 1]);
      }
      if n: nat :| n < |steps| && IsStop(steps[n]) {
        assert n < |before| ==> IsStop(before[n]);
      }
    }
  }

  lemma OnlyStopsCancel(s: State, step: Step)
    requires Enabled(s, step)
    ensures Apply(s, step).result.cancellationRequested <==> s.result.cancellationRequested || IsStop(step)
  {
    match step {
      case OfFrame(f) =>
      case OfWait(o) => WaitLeavesResult(s, o);
      case OfWork(w) => WorkLeavesResult(s, w);
      case OfRequest(q) =>
    }
  }

  /** The body ends at most once in a run. */
  lemma BodyEndsOnce(steps: seq<Step>, a: nat, b: nat)
    requires Run(steps).Some? && a < b < |steps| && IsReturn(steps[a])
    ensures !IsReturn(steps[b])
  {
    PrefixRuns(steps, b);
    PrefixRuns(steps, b + 1);
    var before := steps[..b];
    assert before[a] == steps[a];
    ReturnsAreSteps(before);
    assert steps[..b + 1][..b] == before;
    RunExplainsResult(before);
    RunExplainsResult(steps[..b + 1]);
  }

  lemma {:induction false} PrefixRuns(steps: seq<Step>, n: nat)
    requires Run(steps).Some? && n <= |steps|
    ensures Run(steps[..n]).Some?
    decreases |steps|
  {
    if n < |steps| {
      assert steps[..|steps| - 1][..n] == steps[..n];
      PrefixRuns(steps[..|steps| - 1], n);
    } else {
      assert steps[..n] == steps;
    }
  }

  /** A task settles with the outcome its body ended with, or as cancelled by a request to stop it, and with
      nothing else. */
  lemma ResultHasOrigin(steps: seq<Step>, o: Outcome)
    requires Run(steps).Some? && Run(steps).value.result.settled == Some(o)
    ensures (exists n: nat :: n < |steps| && Returns(steps[n], o))
         || (o == Error(TaskCancelled) && exists n: nat :: n < |steps| && IsStop(steps[n]))
  {
    RunExplainsResult(steps);
    SettledFrom(Run(steps).value, HistoryOf(steps), o);
    ReturnsAreSteps(steps);
    StopsAreSteps(steps);
  }

  lemma SettledFrom(s: State, h: History, o: Outcome)
    requires ResultExplained(s, h) && s.result.settled == Some(o)
    ensures o in h.outcomes || (o == Error(TaskCancelled) && h.firstSettler == Some(None))
  {
  }

  lemma FinishedHasSettled(steps: seq<Step>)
    requires Run(steps).Some? && Run(steps).value.exec.executionFinished
    ensures Run(steps).value.result.settled.Some?
  {
    var w := RunKeepsInv(steps, Callback(0, false));
  }

  /** If nobody has asked a task to stop, it settles with exactly what its body ends with: a body that has settled
      has ended once, and a body that has finished executing has settled. */
  lemma UnstoppedResultIsReturned(steps: seq<Step>) returns (n: nat)
    requires Run(steps).Some? && (forall m :: 0 <= m < |steps| ==> !IsStop(steps[m]))
    requires Run(steps).value.exec.executionFinished || Run(steps).value.result.settled.Some?
    ensures n < |steps| && IsReturn(steps[n])
    ensures Run(steps).value.result.settled == Some(steps[n].f.outcome)
    ensures forall m :: 0 <= m < |steps| && m != n ==> !IsReturn(steps[m])
  {
    if Run(steps).value.exec.executionFinished {
      FinishedHasSettled(steps);
    }
    var o := Run(steps).value.result.settled.value;
    ResultHasOrigin(steps, o);
    n :| n < |steps| && Returns(steps[n], o);
    forall m | 0 <= m < |steps| && m != n
      ensures !IsReturn(steps[m])
    {
      if IsReturn(steps[m]) {
        if m < n { BodyEndsOnce(steps, m, n); } else { BodyEndsOnce(steps, n, m); }
      }
    }
  }

  // ---------------------------------------------------------------- what completes an operation

  /** A call that is about to complete operation i, and why. */
  predicate CallExplained(s: State, h: History, k: Call) {
    match k
    case CompletingOp(i, error) => i < |s.ops| && CompletionExplained(s, h, i, error)
    case CompletingThen(i, thrown, ready) =>
      i < |s.ops| && s.ops[i].kind.Probe? && ((i, thrown) in h.threw || (thrown == TaskCancelled && Stopped(s)))
      && (ready ==> (i, thrown) in h.threw || i in h.readied)
    case _ => true
  }

  predicate CompletionExplained(s: State, h: History, i: nat, error: Option<Failure>)
    requires i < |s.ops|
  {
    match s.ops[i].kind
    case Work => (i, error) in h.ended || (error == Some(SchedulerRejected) && i in h.unrun)
    case Probe => error.None? && (i in h.readied || Stopped(s) || s.ops[i].core.claimed)
    case _ => error.None? && i in h.signalled
  }

  ghost predicate AllExplained(s: State, h: History) {
    forall c :: 0 <= c < |s.calls| ==> CallExplained(s, h, s.calls[c])
  }

  predicate HistoryLater(h: History, h': History) {
    h.ended <= h'.ended && h.unrun <= h'.unrun && h.readied <= h'.readied && h.threw <= h'.threw
    && h.signalled <= h'.signalled
  }

  predicate OpsLater(s: State, t: State) {
    && |s.ops| <= |t.ops| && (Stopped(s) ==> Stopped(t))
    && forall i :: 0 <= i < |s.ops| ==>
         t.ops[i].kind == s.ops[i].kind && (s.ops[i].core.claimed ==> t.ops[i].core.claimed)
  }

  lemma CallStays(s: State, t: State, h: History, h': History, k: Call)
    requires CallExplained(s, h, k) && OpsLater(s, t) && HistoryLater(h, h')
    ensures CallExplained(t, h', k)
  {
  }

  lemma NoteIsLater(h: History, s: State, step: Step)
    requires Enabled(s, step)
    ensures HistoryLater(h, Note(h, s, step))
  {
  }

  lemma FrameOpsLater(s: State, f: FrameStep)
    requires FrameEnabled(s, f)
    ensures OpsLater(s, FrameApply(s, f))
  {
  }

  lemma WaitOpsLater(s: State, o: WaitStep)
    requires WaitEnabled(s, o)
    ensures OpsLater(s, WaitApply(s, o))
  {
  }

  lemma WorkOpsLater(s: State, w: WorkStep)
    requires WorkEnabled(s, w)
    ensures OpsLater(s, WorkApply(s, w))
  {
  }

  lemma RequestOpsLater(s: State, q: RequestStep)
    requires RequestEnabled(s, q)
    ensures OpsLater(s, RequestApply(s, q))
  {
  }

  lemma StepOpsLater(s: State, step: Step)
    requires Enabled(s, step)
    ensures OpsLater(s, Apply(s, step))
  {
    match step {
      case OfFrame(f) => FrameOpsLater(s, f);
      case OfWait(o) => WaitOpsLater(s, o);
      case OfWork(w) => WorkOpsLater(s, w);
      case OfRequest(q) => RequestOpsLater(s, q);
    }
  }

  predicate Completes(k: Call) {
    k.CompletingOp? || k.CompletingThen?
  }

  /** Call d of t has been there before, or has nothing to complete. */
  predicate NothingNew(s: State, t: State, d: nat)
    requires d < |t.calls|
  {
    !Completes(t.calls[d]) || (d < |s.calls| && t.calls[d] == s.calls[d])
  }

  lemma FrameCompletesNothing(s: State, f: FrameStep, d: nat)
    requires FrameEnabled(s, f) && d < |FrameApply(s, f).calls|
    ensures NothingNew(s, FrameApply(s, f), d)
  {
  }

  lemma RequestCompletesNothing(s: State, q: RequestStep, d: nat)
    requires RequestEnabled(s, q) && d < |RequestApply(s, q).calls|
    ensures NothingNew(s, RequestApply(s, q), d)
  {
  }

  lemma WorkIsExplained(s: State, h: History, w: WorkStep, d: nat)
    requires WorkEnabled(s, w) && d < |WorkApply(s, w).calls|
    requires w.EndWork? || w.DropWork? || w.BeginWork? || w.BeginProbe? ==> Fits(s, s.calls[w.c])
    requires w.EndProbe? || w.ProbeThrows? ==> Fits(s, s.calls[w.c])
    ensures NothingNew(s, WorkApply(s, w), d)
         || CallExplained(WorkApply(s, w), NoteWork(h, s, w), WorkApply(s, w).calls[d])
  {
  }

  lemma WireIsExplained(s: State, h: History, c: nat, accepted: bool, d: nat)
    requires WaitEnabled(s, Wire(c, accepted)) && d < |DoWire(s, c, accepted).calls|
    ensures NothingNew(s, DoWire(s, c, accepted), d)
         || CallExplained(DoWire(s, c, accepted), NoteWait(h, s, Wire(c, accepted)), DoWire(s, c, accepted).calls[d])
  {
  }

  lemma WaitIsExplained(s: State, h: History, o: WaitStep, d: nat)
    requires WaitEnabled(s, o) && d < |WaitApply(s, o).calls| && AllExplained(s, h)
    ensures NothingNew(s, WaitApply(s, o), d)
         || CallExplained(WaitApply(s, o), NoteWait(h, s, o), WaitApply(s, o).calls[d])
  {
    match o {
      case Wire(c, accepted) => WireIsExplained(s, h, c, accepted, d);
      case CompleteInProbe(c) => assert CallExplained(s, h, s.calls[c]);
      case _ =>
    }
  }

  lemma StepKeepsExplained(s: State, h: History, step: Step)
    requires AllFit(s) && AllExplained(s, h) && Enabled(s, step)
    ensures AllExplained(Apply(s, step), Note(h, s, step))
  {
    var t, h' := Apply(s, step), Note(h, s, step);
    StepOpsLater(s, step);
    NoteIsLater(h, s, step);
    forall d | 0 <= d < |t.calls|
      ensures CallExplained(t, h', t.calls[d])
    {
      match step {
        case OfFrame(f) => FrameCompletesNothing(s, f, d);
        case OfWait(o) => WaitIsExplained(s, h, o, d);
        case OfWork(w) => WorkIsExplained(s, h, w, d);
        case OfRequest(q) => RequestCompletesNothing(s, q, d);
      }
      if d < |s.calls| && t.calls[d] == s.calls[d] {
        CallStays(s, t, h, h', s.calls[d]);
      }
    }
  }

  lemma {:induction false} RunExplainsCalls(steps: seq<Step>)
    requires Run(steps).Some?
    ensures AllExplained(Run(steps).value, HistoryOf(steps))
  {
    if steps != [] {
      var before := steps[..|steps| - 1];
      RunExplainsCalls(before);
      var w := RunKeepsInv(before, Callback(0, false));
      StepKeepsExplained(Run(before).value, HistoryOf(before), steps[|steps| - 1]);
    }
  }

  // ---------------------------------------------------------------- the steps behind the history

  /** The function of operation i has run and ended so. */
  predicate EndsWork(s: State, step: Step, i: nat, error: Option<Failure>) {
    step.OfWork? && step.w.EndWork? && Enabled(s, step) && s.calls[step.w.c] == WorkRunning(i) && step.w.error == error
  }

  /** The pool has refused the function of operation i, or destroyed it unrun. */
  predicate LeavesUnrun(s: State, step: Step, i: nat) {
    Enabled(s, step) &&
    match step
    case OfWork(DropWork(c)) => s.calls[c] == WorkQueued(i)
    case OfWait(Wire(c, accepted)) => s.calls[c] == Wiring(i) && !accepted
    case _ => false
  }

  /** The predicate of operation i has been called and has said yes, or thrown. */
  predicate SaysYes(s: State, step: Step, i: nat) {
    step.OfWork? && step.w.EndProbe? && Enabled(s, step) && s.calls[step.w.c] == Probing(i) && step.w.ready
  }

  predicate Throws(s: State, step: Step, i: nat, thrown: Failure) {
    && step.OfWork? && step.w.ProbeThrows? && Enabled(s, step)
    && s.calls[step.w.c] == Probing(i) && step.w.thrown == thrown
  }

  predicate EndedAt(steps: seq<Step>, n: nat, i: nat, error: Option<Failure>) {
    n < |steps| && Run(steps[..n]).Some? && EndsWork(Run(steps[..n]).value, steps[n], i, error)
  }

  predicate UnrunAt(steps: seq<Step>, n: nat, i: nat) {
    n < |steps| && Run(steps[..n]).Some? && LeavesUnrun(Run(steps[..n]).value, steps[n], i)
  }

  predicate YesAt(steps: seq<Step>, n: nat, i: nat) {
    n < |steps| && Run(steps[..n]).Some? && SaysYes(Run(steps[..n]).value, steps[n], i)
  }

  predicate ThrowsAt(steps: seq<Step>, n: nat, i: nat, thrown: Failure) {
    n < |steps| && Run(steps[..n]).Some? && Throws(Run(steps[..n]).value, steps[n], i, thrown)
  }

  predicate SignalsAt(steps: seq<Step>, n: nat, i: nat) {
    n < |steps| && steps[n] == OfWait(SignalEvent(i))
  }

  lemma Shorter(steps: seq<Step>, n: nat)
    requires n + 1 < |steps|
    ensures steps[..|steps| - 1][..n] == steps[..n] && steps[..|steps| - 1][n] == steps[n]
  {
  }

  lemma {:induction false} EndedIsStep(steps: seq<Step>, i: nat, error: Option<Failure>) returns (n: nat)
    requires Run(steps).Some? && (i, error) in HistoryOf(steps).ended
    ensures EndedAt(steps, n, i, error)
  {
    var before := steps[..|steps| - 1];
    n := |steps| - 1;
    if (i, error) in HistoryOf(before).ended {
      n := EndedIsStep(before, i, error);
      Shorter(steps, n);
    }
  }

  lemma {:induction false} UnrunIsStep(steps: seq<Step>, i: nat) returns (n: nat)
    requires Run(steps).Some? && i in HistoryOf(steps).unrun
    ensures UnrunAt(steps, n, i)
  {
    var before := steps[..|steps| - 1];
    n := |steps| - 1;
    if i in HistoryOf(before).unrun {
      n := UnrunIsStep(before, i);
      Shorter(steps, n);
    }
  }

  lemma {:induction false} YesIsStep(steps: seq<Step>, i: nat) returns (n: nat)
    requires Run(steps).Some? && i in HistoryOf(steps).readied
    ensures YesAt(steps, n, i)
  {
    var before := steps[..|steps| - 1];
    n := |steps| - 1;
    if i in HistoryOf(before).readied {
      n := YesIsStep(before, i);
      Shorter(steps, n);
    }
  }

  lemma {:induction false} ThrowIsStep(steps: seq<Step>, i: nat, thrown: Failure) returns (n: nat)
    requires Run(steps).Some? && (i, thrown) in HistoryOf(steps).threw
    ensures ThrowsAt(steps, n, i, thrown)
  {
    var before := steps[..|steps| - 1];
    n := |steps| - 1;
    if (i, thrown) in HistoryOf(before).threw {
      n := ThrowIsStep(before, i, thrown);
      Shorter(steps, n);
    }
  }

  lemma {:induction false} SignalIsStep(steps: seq<Step>, i: nat) returns (n: nat)
    requires Run(steps).Some? && i in HistoryOf(steps).signalled
    ensures SignalsAt(steps, n, i)
  {
    var before := steps[..|steps| - 1];
    n := |steps| - 1;
    if i in HistoryOf(before).signalled {
      n := SignalIsStep(before, i);
      Shorter(steps, n);
    }
  }

  // ---------------------------------------------------------------- theorems about completions

  /** The n-th step claims operation i, not by a stop, and leaves this failure. */
  predicate CompletedAt(steps: seq<Step>, n: nat, i: nat, failure: Option<Failure>) {
    ClaimedAt(steps, n, i, failure) && !steps[n].o.Cancel?
  }

  lemma Enough(steps: seq<Step>, n: nat, m: nat)
    requires n < m <= |steps|
    ensures steps[..m][..n] == steps[..n] && steps[..m][n] == steps[n]
  {
  }

  lemma ClaimExplained(steps: seq<Step>, n: nat, i: nat, failure: Option<Failure>)
    requires CompletedAt(steps, n, i, failure)
    ensures
      var s := Run(steps[..n]).value;
      i < |s.ops| && !s.ops[i].core.claimed
      && CallExplained(s, HistoryOf(steps[..n]),
                       if steps[n].o.CompleteOperation? then CompletingOp(i, failure) else s.calls[steps[n].o.c])
      && (!steps[n].o.CompleteOperation? ==>
            s.calls[steps[n].o.c].CompletingThen? && s.calls[steps[n].o.c].op == i
            && failure == Some(s.calls[steps[n].o.c].thrown))
  {
    RunExplainsCalls(steps[..n]);
  }

  /** The failure with which an awaited function completes its operation is the one the function ended with (none,
      if it returned), unless it never ran. */
  lemma WorkCompletesWithItsEnd(steps: seq<Step>, n: nat, i: nat, failure: Option<Failure>) returns (m: nat)
    requires CompletedAt(steps, n, i, failure) && Run(steps[..n]).value.ops[i].kind.Work?
    ensures m < n && (EndedAt(steps, m, i, failure) || (failure == Some(SchedulerRejected) && UnrunAt(steps, m, i)))
  {
    ClaimExplained(steps, n, i, failure);
    if (i, failure) in HistoryOf(steps[..n]).ended {
      m := EndedIsStep(steps[..n], i, failure);
    } else {
      m := UnrunIsStep(steps[..n], i);
    }
    Enough(steps, m, n);
  }

  /** An awaited condition completes its operation without a failure only after its predicate has said yes, or when a
      stop has been requested; with a failure only after the predicate has thrown that, or as cancelled when a stop
      has been requested. */
  lemma ConditionCompletesWhenTrue(steps: seq<Step>, n: nat, i: nat, failure: Option<Failure>) returns (m: nat)
    requires CompletedAt(steps, n, i, failure) && Run(steps[..n]).value.ops[i].kind.Probe?
    ensures
      || (m < n && failure.None? && YesAt(steps, m, i))
      || (m < n && failure.Some? && ThrowsAt(steps, m, i, failure.value))
      || (Stopped(Run(steps[..n]).value) && (failure.None? || failure == Some(TaskCancelled)))
  {
    ClaimExplained(steps, n, i, failure);
    m := n;
    var h := HistoryOf(steps[..n]);
    if failure.None? && i in h.readied {
      m := YesIsStep(steps[..n], i);
      Enough(steps, m, n);
    } else if failure.Some? && (i, failure.value) in h.threw {
      m := ThrowIsStep(steps[..n], i, failure.value);
      Enough(steps, m, n);
    }
  }

  /** An awaited event, child or task completes its operation without a failure, and only once it has been
      signalled. */
  lemma EventCompletesWhenSignalled(steps: seq<Step>, n: nat, i: nat, failure: Option<Failure>) returns (m: nat)
    requires CompletedAt(steps, n, i, failure)
    requires !Run(steps[..n]).value.ops[i].kind.Work? && !Run(steps[..n]).value.ops[i].kind.Probe?
    ensures m < n && failure.None? && SignalsAt(steps, m, i)
  {
    ClaimExplained(steps, n, i, failure);
    m := SignalIsStep(steps[..n], i);
    Enough(steps, m, n);
  }

  /** Operation i is unclaimed in t, call c stands at k, and nobody else is about to complete it or works on it. */
  ghost predicate Alone(t: State, i: nat, c: nat, k: Call) {
    && i < |t.ops| && !t.ops[i].core.claimed && c < |t.calls| && t.calls[c] == k
    && forall d :: 0 <= d < |t.calls| && d != c && Target(t.calls[d]) == Some(i) ==>
         !Completes(t.calls[d]) && !TaskWork.Serving(t.calls[d])
  }

  lemma ServerIsAlone(s: State, c: nat, i: nat)
    requires TaskWork.WorkInv(s) && c < |s.calls| && TaskWork.Working(s.calls[c]) && Target(s.calls[c]) == Some(i)
    ensures Alone(s, i, c, s.calls[c])
  {
    assert TaskWork.Sound(s.ops, s.calls[c]);
    forall d | 0 <= d < |s.calls| && d != c && Target(s.calls[d]) == Some(i)
      ensures !Completes(s.calls[d]) && !TaskWork.Serving(s.calls[d])
    {
      assert TaskWork.Compatible(s.calls[c], s.calls[d]) || TaskWork.Compatible(s.calls[d], s.calls[c]);
    }
  }

  /** A function or predicate is called exactly if its operation is unclaimed and no stop has been requested. */
  lemma BeginsUnlessStopped(s: State, step: Step, i: nat)
    requires Enabled(s, step)
    ensures
      var t := Apply(s, step);
      match step
      case OfWork(BeginWork(c)) =>
        s.calls[c] == WorkQueued(i) ==>
          t.calls[c] == if s.ops[i].core.claimed || Stopped(s) then Gone else WorkRunning(i)
      case OfWork(BeginProbe(c)) =>
        s.calls[c] == Watching(i) ==>
          t.calls[c] == if s.ops[i].core.claimed || Stopped(s) then CompletingOp(i, None) else Probing(i)
      case OfWork(DropWork(c)) =>
        s.calls[c] == WorkQueued(i) ==> t.calls[c] == CompletingOp(i, Some(SchedulerRejected))
      case _ => true
  {
  }

  /** A predicate that says no leaves its condition watched, and one that says yes has its operation completed; a
      stop that came meanwhile completes it as cancelled first; a function that ends completes its operation with what
      it ended with.  Nobody else is about to complete the operation then. */
  lemma EndsAsTheySay(steps: seq<Step>, step: Step, i: nat)
    requires Run(steps).Some? && Enabled(Run(steps).value, step)
    ensures
      var s, t := Run(steps).value, Apply(Run(steps).value, step);
      match step
      case OfWork(EndProbe(c, ready)) =>
        s.calls[c] == Probing(i) ==>
          if Stopped(s) then Alone(t, i, c, CompletingThen(i, TaskCancelled, ready))
          else if ready then Alone(t, i, c, CompletingOp(i, None))
          else Alone(t, i, c, Watching(i))
      case OfWork(ProbeThrows(c, thrown)) =>
        s.calls[c] == Probing(i) ==> Alone(t, i, c, CompletingThen(i, thrown, true))
      case OfWork(EndWork(c, error)) =>
        s.calls[c] == WorkRunning(i) ==> Alone(t, i, c, CompletingOp(i, error)) && t.ops[i].core.executing
      case _ => true
  {
    var s := Run(steps).value;
    TaskWork.RunKeepsWork(steps);
    if step.OfWork? && (step.w.EndProbe? || step.w.ProbeThrows? || step.w.EndWork?) {
      var c := step.w.c;
      if s.calls[c] == Probing(i) || s.calls[c] == WorkRunning(i) {
        ServerIsAlone(s, c, i);
        assert TaskWork.Sound(s.ops, s.calls[c]);
      }
    }
  }

  // ---------------------------------------------------------------- nothing is ignored

  predicate Suspends(step: Step) {
    step.OfFrame? && step.f.Suspend?
  }

  /** The kinds of the suspensions of a run, in order. */
  function SuspensionsOf(steps: seq<Step>): seq<Kind> {
    if steps == [] then []
    else
      var step, before := steps[|steps| - 1], SuspensionsOf(steps[..|steps| - 1]);
      if Suspends(step) then before + [step.f.kind] else before
  }

  predicate KindsAre(ops: seq<Op>, kinds: seq<Kind>) {
    |ops| == |kinds| && forall i :: 0 <= i < |ops| ==> ops[i].kind == kinds[i]
  }

  lemma KindsAfter(s: State, step: Step)
    requires Enabled(s, step)
    ensures |Apply(s, step).ops| == |s.ops| + if Suspends(step) then 1 else 0
    ensures Suspends(step) ==> Apply(s, step).ops[|s.ops|].kind == step.f.kind
  {
  }

  /** There is one operation for each suspension of the body, in order and of its kind. */
  lemma {:induction false} OperationsAreSuspensions(steps: seq<Step>)
    requires Run(steps).Some?
    ensures KindsAre(Run(steps).value.ops, SuspensionsOf(steps))
  {
    if steps != [] {
      var before := steps[..|steps| - 1];
      OperationsAreSuspensions(before);
      KindsAfter(Run(before).value, steps[|steps| - 1]);
      StepOpsLater(Run(before).value, steps[|steps| - 1]);
    }
  }

  /** A stop cancels only the operations of events, functions and conditions. */
  lemma CancelledKinds(steps: seq<Step>, n: nat, i: nat)
    requires ClaimedAt(steps, n, i, Some(TaskCancelled)) && steps[n].o.Cancel?
    ensures
      var kind := Run(steps[..n]).value.ops[i].kind;
      kind.Event? || kind.Work? || kind.Probe?
  {
    RunCancelsOnly(steps[..n]);
  }

  ghost predicate CancelsOnly(s: State) {
    && (forall c :: 0 <= c < |s.calls| && s.calls[c].Cancelling? ==>
          s.calls[c].op < |s.ops| && MayCancel(s.ops[s.calls[c].op].kind))
    && (forall i :: 0 <= i < |s.ops| && s.ops[i].hook.Listening? ==> MayCancel(s.ops[i].kind))
  }

  predicate MayCancel(kind: Kind) {
    kind.Event? || kind.Work? || kind.Probe?
  }

  lemma FrameCancelsOnly(s: State, f: FrameStep)
    requires CancelsOnly(s) && FrameEnabled(s, f)
    ensures CancelsOnly(FrameApply(s, f))
  {
  }

  lemma WaitCancelsOnly(s: State, o: WaitStep)
    requires CancelsOnly(s) && WaitEnabled(s, o)
    ensures CancelsOnly(WaitApply(s, o))
  {
    if o.Arm? {
      ArmCancelsOnly(s, o.c);
    } else if o.Wire? {
      WireCancelsOnly(s, o.c, o.accepted);
    }
  }

  lemma ArmCancelsOnly(s: State, c: nat)
    requires CancelsOnly(s) && WaitEnabled(s, Arm(c))
    ensures CancelsOnly(DoArm(s, c))
  {
  }

  lemma WireCancelsOnly(s: State, c: nat, accepted: bool)
    requires CancelsOnly(s) && WaitEnabled(s, Wire(c, accepted))
    ensures CancelsOnly(DoWire(s, c, accepted))
  {
  }

  lemma WorkCancelsOnly(s: State, w: WorkStep)
    requires CancelsOnly(s) && WorkEnabled(s, w)
    ensures CancelsOnly(WorkApply(s, w))
  {
  }

  lemma RequestCancelsOnly(s: State, q: RequestStep)
    requires CancelsOnly(s) && RequestEnabled(s, q)
    ensures CancelsOnly(RequestApply(s, q))
  {
  }

  lemma {:induction false} RunCancelsOnly(steps: seq<Step>)
    requires Run(steps).Some?
    ensures CancelsOnly(Run(steps).value)
  {
    if steps != [] {
      var s, step := Run(steps[..|steps| - 1]).value, steps[|steps| - 1];
      RunCancelsOnly(steps[..|steps| - 1]);
      match step {
        case OfFrame(f) => FrameCancelsOnly(s, f);
        case OfWait(o) => WaitCancelsOnly(s, o);
        case OfWork(w) => WorkCancelsOnly(s, w);
        case OfRequest(q) => RequestCancelsOnly(s, q);
      }
    }
  }

  predicate Appears(s: State, t: State, k: Call) {
    t.calls == s.calls + [k]
  }

  /** Nothing that comes from outside is ignored: a request to stop, a callback and a signal each become a call, and
      so does what the body has taken up; complete() on an unclaimed operation claims it with its failure, and
      cancel() does unless a function or predicate is running. */
  lemma RequestsAreTaken(s: State, step: Step)
    requires Enabled(s, step)
    ensures
      var t := Apply(s, step);
      match step
      case OfRequest(AskStop) => Appears(s, t, Stopping)
      case OfRequest(StopState(c)) => t.result.cancellationRequested && t.calls[c] == Flagging
      case OfRequest(FireStop(c)) => t.stopFlag
      case OfRequest(AskCallback(execution)) =>
        t.issued == s.issued + [Callback(|s.issued|, execution)] && Appears(s, t, Registering(t.issued[|s.issued|]))
      case OfRequest(RunCallback(c)) => t.ran == s.ran + [s.calls[c].callbacks[0]]
      case OfWait(SignalEvent(i)) => Appears(s, t, CompletingOp(i, None))
      case OfWait(CompleteOperation(c)) =>
        var i := s.calls[c].op;
        t.ops[i].core.claimed
        && (!s.ops[i].core.claimed ==> t.ops[i].core.failure == s.calls[c].error && t.calls[c] == Ticket(i))
      case OfWait(Cancel(c)) =>
        var i := s.calls[c].op;
        !s.ops[i].core.claimed && !s.ops[i].core.executing ==>
          t.ops[i].core.claimed && t.ops[i].core.failure == Some(TaskCancelled) && t.calls[c] == Ticket(i)
      case OfWait(RunTicket(c)) => t.calls[c] == Entering && t.ops == s.ops
      case OfWait(DropTicket(c)) => t.calls[c] == Entering
      case OfFrame(Suspend(c, kind)) => t.body == Parked(|s.ops|) && t.calls[c] == Arming(|s.ops|)
      case OfFrame(Return(c, outcome)) => t.calls[c] == Settling(outcome)
      case _ => true
  {
  }
}
