/** Who may touch the coroutine frame, and where its next resumption is.

    At every moment the right to resume the frame next is in exactly one place: an operation nobody has
    claimed, a ticket or a call of resume(), the resumePending flag, the call that owns the frame, or
    nowhere once execution has finished. */
module TaskExecution {
  import opened TaskCore
  import opened TaskMachine

  /** The call holds the runner's role (`running` is set on its behalf). */
  predicate Runs(k: Call) {
    k.LoopHead? || k.InBody? || k.Arming? || k.Wiring? || k.Settling? || k.Leaving? || k.TearingDown? || k.Finishing?
  }

  /** The call carries the right to resume the frame next. */
  predicate Carries(k: Call) {
    || k.Entering? || k.LoopHead? || k.InBody? || k.Settling? || k.TearingDown? || k.Finishing? || k.Ticket?
    || (k.Leaving? && k.finished)
  }

  /** The body is suspended on an operation that nobody has claimed. */
  predicate Waiting(s: State) {
    s.body.Parked? && s.body.op < |s.ops| && !s.ops[s.body.op].core.claimed
  }

  datatype Token = AtOperation | AtFlag | AtCall(c: nat) | Spent

  ghost predicate OneRunner(s: State, owner: Option<nat>) {
    && (s.exec.running <==> owner.Some?)
    && (s.exec.resumePending ==> owner.Some?)
    && (owner.Some? ==> owner.value < |s.calls|)
    && (forall c :: 0 <= c < |s.calls| ==> (Runs(s.calls[c]) <==> owner == Some(c)))
  }

  ghost predicate OneToken(s: State, token: Token) {
    && (Waiting(s) <==> token.AtOperation?)
    && (s.exec.resumePending <==> token.AtFlag?)
    && (s.exec.executionFinished <==> token.Spent?)
    && (token.AtCall? ==> token.c < |s.calls|)
    && (forall c :: 0 <= c < |s.calls| ==> (Carries(s.calls[c]) <==> token == AtCall(c)))
  }

  predicate Sourced(s: State, i: nat, kind: Kind) {
    i < |s.ops| && s.ops[i].wired && s.ops[i].kind == kind
  }

  /** What a call in progress implies about the body and the operations. */
  predicate Fits(s: State, k: Call) {
    && Knows(s, k)
    && (k.Entering? || k.LoopHead? ==> s.body.Initial? || s.body.Parked?)
    && (k.InBody? || k.Settling? ==> s.body.Active?)
    && (k.Arming? || k.Wiring? || k.Ticket? ==> s.body == Parked(k.op))
    && (k.Leaving? ==> if k.finished then s.body.Done? else s.body.Parked?)
    && (k.TearingDown? || k.Finishing? || k.Completing? ==> s.body.Done?)
    && (k.Flagging? ==> s.result.cancellationRequested)
    && (k.WorkQueued? || k.WorkRunning? ==> Sourced(s, k.op, Work))
    && (k.Watching? || k.Probing? || k.CompletingThen? ==> Sourced(s, k.op, Probe))
  }

  ghost predicate AllFit(s: State) {
    forall c :: 0 <= c < |s.calls| ==> Fits(s, s.calls[c])
  }

  /** Only the operation the body is suspended on, the latest one, can still be unclaimed. */
  ghost predicate PastClaimed(s: State) {
    && (s.body.Parked? ==> s.body.op == |s.ops| - 1)
    && (forall i :: 0 <= i < |s.ops| && s.body != Parked(i) ==> s.ops[i].core.claimed)
  }

  /** The frame was entered once to start and once for each operation, in order, and the operation the
      body is suspended on, if any, has not been answered. */
  ghost predicate Answered(s: State) {
    && (forall n :: 0 <= n < |s.resumed| ==> s.resumed[n] == if n == 0 then None else Some(n - 1))
    && match s.body
       case Initial => s.resumed == [] && s.ops == []
       case Active => |s.resumed| == |s.ops| + 1
       case Parked(_) => |s.resumed| == |s.ops|
       case Done => |s.resumed| == |s.ops| + 1 || (s.resumed == [] && s.ops == [] && s.result.cancellationRequested)
  }

  predicate FrameFits(s: State, owner: Option<nat>)
    requires owner.Some? ==> owner.value < |s.calls|
  {
    && s.exec.started == !s.body.Initial?
    && (s.exec.executionFinished ==> s.body.Done?)
    && s.frame == if owner.Some? && s.calls[owner.value].TearingDown? then Detached
                  else if (owner.Some? && s.calls[owner.value].Finishing?) || s.exec.executionFinished then Destroyed
                  else Live
  }

  ghost predicate ExecInv(s: State, owner: Option<nat>, token: Token) {
    && OneRunner(s, owner)
    && OneToken(s, token)
    && AllFit(s)
    && PastClaimed(s)
    && Answered(s)
    && FrameFits(s, owner)
  }

  lemma Enter(s: State, c: nat, owner: Option<nat>, token: Token) returns (owner': Option<nat>, token': Token)
    requires ExecInv(s, owner, token) && FrameEnabled(s, EnterResume(c))
    ensures ExecInv(DoEnterResume(s, c), owner', token')
    ensures !s.exec.executionFinished && !s.exec.resumePending
  {
    if s.exec.running {
      owner', token' := owner, AtFlag;
    } else {
      owner', token' := Some(c), token;
    }
  }

  lemma GoFits(s: State, c: nat, owner: Option<nat>, token: Token)
    requires ExecInv(s, owner, token) && FrameEnabled(s, Continue(c))
    ensures AllFit(DoContinue(s, c))
  {
    var t := DoContinue(s, c);
    forall d | 0 <= d < |t.calls|
      ensures Fits(t, t.calls[d])
    {
      assert Fits(s, s.calls[d]);
    }
  }

  lemma GoRoles(s: State, c: nat, owner: Option<nat>, token: Token)
    requires ExecInv(s, owner, token) && FrameEnabled(s, Continue(c))
    ensures OneRunner(DoContinue(s, c), owner) && OneToken(DoContinue(s, c), token)
    ensures s.frame.Live? && !s.body.Done?
  {
    assert Fits(s, s.calls[c]);
  }

  lemma Go(s: State, c: nat, owner: Option<nat>, token: Token)
    requires ExecInv(s, owner, token) && FrameEnabled(s, Continue(c))
    ensures ExecInv(DoContinue(s, c), owner, token)
    ensures s.frame.Live? && !s.body.Done?
  {
    GoRoles(s, c, owner, token);
    GoFits(s, c, owner, token);
  }

  lemma Park(s: State, c: nat, kind: Kind, owner: Option<nat>, token: Token)
    requires ExecInv(s, owner, token) && FrameEnabled(s, Suspend(c, kind))
    ensures ExecInv(DoSuspend(s, c, kind), owner, AtOperation)
  {
  }

  lemma SettleStep(s: State, c: nat, owner: Option<nat>, token: Token)
    requires ExecInv(s, owner, token) && FrameEnabled(s, SettleBody(c))
    ensures ExecInv(DoSettleBody(s, c), owner, token)
  {
  }

  lemma TeardownStep(s: State, c: nat, owner: Option<nat>, token: Token)
    requires ExecInv(s, owner, token) && FrameEnabled(s, Leave(c)) && s.calls[c].finished
    ensures ExecInv(DoLeave(s, c), owner, token)
  {
  }

  /** A resumption that came while the frame was still on its way out makes the runner go round again. */
  lemma AgainStep(s: State, c: nat, owner: Option<nat>, token: Token)
    requires ExecInv(s, owner, token) && FrameEnabled(s, Leave(c)) && !s.calls[c].finished && s.exec.resumePending
    ensures ExecInv(DoLeave(s, c), owner, AtCall(c))
  {
  }

  lemma ReleaseStep(s: State, c: nat, owner: Option<nat>, token: Token)
    requires ExecInv(s, owner, token) && FrameEnabled(s, Leave(c)) && !s.calls[c].finished && !s.exec.resumePending
    ensures ExecInv(DoLeave(s, c), None, token)
  {
  }

  lemma LeaveStep(s: State, c: nat, owner: Option<nat>, token: Token) returns (owner': Option<nat>, token': Token)
    requires ExecInv(s, owner, token) && FrameEnabled(s, Leave(c))
    ensures ExecInv(DoLeave(s, c), owner', token')
  {
    owner', token' := owner, token;
    if s.calls[c].finished {
      TeardownStep(s, c, owner, token);
    } else if s.exec.resumePending {
      AgainStep(s, c, owner, token);
      token' := AtCall(c);
    } else {
      ReleaseStep(s, c, owner, token);
      owner' := None;
    }
  }

  lemma DestroyStep(s: State, c: nat, owner: Option<nat>, token: Token)
    requires ExecInv(s, owner, token) && FrameEnabled(s, DestroyFrame(c))
    ensures s.frame.Detached? && ExecInv(DoDestroyFrame(s, c), owner, token)
  {
  }

  lemma FinishStep(s: State, c: nat, owner: Option<nat>, token: Token)
    requires ExecInv(s, owner, token) && FrameEnabled(s, Finish(c))
    ensures ExecInv(DoFinish(s, c), None, Spent)
  {
  }

  /** A claim moves the token from the operation into the ticket. */
  lemma ClaimStep(s: State, c: nat, i: nat, o: OpCore, owner: Option<nat>, token: Token)
    requires ExecInv(s, owner, token) && c < |s.calls| && !Runs(s.calls[c]) && !Carries(s.calls[c])
    requires i < |s.ops| && o.claimed && !s.ops[i].core.claimed
    ensures token.AtOperation? && ExecInv(Become(SetCore(s, i, o), c, Ticket(i), []), owner, AtCall(c))
  {
    ClaimRoles(s, c, i, o, owner, token);
    ClaimFits(s, c, i, o, owner, token);
  }

  lemma ClaimFits(s: State, c: nat, i: nat, o: OpCore, owner: Option<nat>, token: Token)
    requires ExecInv(s, owner, token) && c < |s.calls| && i < |s.ops| && !s.ops[i].core.claimed
    ensures AllFit(Become(SetCore(s, i, o), c, Ticket(i), []))
  {
    var t := Become(SetCore(s, i, o), c, Ticket(i), []);
    assert PastClaimed(s);
    forall d | 0 <= d < |t.calls|
      ensures Fits(t, t.calls[d])
    {
      assert Fits(s, s.calls[d]);
    }
  }

  lemma ClaimRoles(s: State, c: nat, i: nat, o: OpCore, owner: Option<nat>, token: Token)
    requires ExecInv(s, owner, token) && c < |s.calls| && !Runs(s.calls[c]) && !Carries(s.calls[c])
    requires i < |s.ops| && o.claimed && !s.ops[i].core.claimed
    ensures token.AtOperation?
    ensures OneRunner(Become(SetCore(s, i, o), c, Ticket(i), []), owner)
    ensures OneToken(Become(SetCore(s, i, o), c, Ticket(i), []), AtCall(c))
  {
    assert PastClaimed(s);
  }

  /** A call may go on as another one with the same role, as long as neither destroys the frame. */
  predicate Alike(t: State, k: Call, k': Call) {
    && Runs(k) == Runs(k') && Carries(k) == Carries(k') && Fits(t, k')
    && !k.TearingDown? && !k.Finishing? && !k'.TearingDown? && !k'.Finishing?
  }

  predicate SameClaim(o: Op, o': Op) {
    o'.core.claimed == o.core.claimed && o'.kind == o.kind && (o.wired ==> o'.wired)
  }

  lemma AlikeRoles(s: State, t: State, c: nat, k: Call, spawned: seq<Call>, owner: Option<nat>, token: Token)
    requires OneRunner(s, owner) && OneToken(s, token) && Goes(s, t, c, k, spawned)
    requires t.exec == s.exec && (Waiting(t) <==> Waiting(s))
    requires c < |s.calls| ==> Runs(s.calls[c]) == Runs(k) && Carries(s.calls[c]) == Carries(k)
    requires forall j :: 0 <= j < |spawned| ==> !Runs(spawned[j]) && !Carries(spawned[j])
    ensures OneRunner(t, owner) && OneToken(t, token)
  {
  }

  lemma AlikeFits(s: State, t: State, c: nat, k: Call, spawned: seq<Call>)
    requires AllFit(s) && Goes(s, t, c, k, spawned)
    requires t.body == s.body && (s.result.cancellationRequested ==> t.result.cancellationRequested)
    requires |t.ops| == |s.ops| && forall i :: 0 <= i < |s.ops| ==> SameClaim(s.ops[i], t.ops[i])
    requires c < |s.calls| ==> Fits(t, k)
    requires forall j :: 0 <= j < |spawned| ==> Fits(t, spawned[j])
    ensures AllFit(t)
  {
  }

  /** Steps that leave the frame and all claims alone, and make only calls without a role. */
  lemma AlikeStep(s: State, t: State, c: nat, k: Call, spawned: seq<Call>, owner: Option<nat>, token: Token)
    requires ExecInv(s, owner, token)
    requires t.exec == s.exec && t.body == s.body && t.frame == s.frame && t.resumed == s.resumed
    requires s.result.cancellationRequested ==> t.result.cancellationRequested
    requires |t.ops| == |s.ops| && forall i :: 0 <= i < |s.ops| ==> SameClaim(s.ops[i], t.ops[i])
    requires Goes(s, t, c, k, spawned)
    requires c < |s.calls| ==> Alike(t, s.calls[c], k)
    requires forall j :: 0 <= j < |spawned| ==> !Runs(spawned[j]) && !Carries(spawned[j]) && Fits(t, spawned[j])
    ensures ExecInv(t, owner, token)
  {
    AlikeRoles(s, t, c, k, spawned, owner, token);
    AlikeFits(s, t, c, k, spawned);
  }

  lemma ArmStep(s: State, c: nat, owner: Option<nat>, token: Token)
    requires ExecInv(s, owner, token) && WaitEnabled(s, Arm(c))
    ensures ExecInv(DoArm(s, c), owner, token)
  {
    var t := DoArm(s, c);
    AlikeStep(s, t, c, Wiring(s.calls[c].op),
              if s.stopFlag && Cancellable(s.ops[s.calls[c].op].kind) then [Cancelling(s.calls[c].op)] else [],
              owner, token);
  }

  lemma WireStep(s: State, c: nat, accepted: bool, owner: Option<nat>, token: Token)
    requires ExecInv(s, owner, token) && WaitEnabled(s, Wire(c, accepted))
    ensures ExecInv(DoWire(s, c, accepted), owner, token)
  {
    var t := DoWire(s, c, accepted);
    AlikeStep(s, t, c, Leaving(false),
              Sources(s.ops[s.calls[c].op].kind, s.calls[c].op, accepted), owner, token);
  }

  lemma ReturnStep(s: State, c: nat, outcome: Outcome, owner: Option<nat>, token: Token)
    requires ExecInv(s, owner, token) && FrameEnabled(s, Return(c, outcome))
    ensures ExecInv(DoReturn(s, c, outcome), owner, token)
  {
    var t := DoReturn(s, c, outcome);
    AlikeStep(s, t, c, Settling(outcome),
              [], owner, token);
  }

  lemma RunTicketStep(s: State, c: nat, owner: Option<nat>, token: Token)
    requires ExecInv(s, owner, token) && WaitEnabled(s, RunTicket(c))
    ensures ExecInv(DoRunTicket(s, c), owner, token)
  {
    var t := DoRunTicket(s, c);
    AlikeStep(s, t, c, Entering,
              [], owner, token);
  }

  lemma DropTicketStep(s: State, c: nat, owner: Option<nat>, token: Token)
    requires ExecInv(s, owner, token) && WaitEnabled(s, DropTicket(c))
    ensures ExecInv(DoDropTicket(s, c), owner, token)
  {
    var t := DoDropTicket(s, c);
    AlikeStep(s, t, c, Entering,
              [], owner, token);
  }

  lemma BeginWorkStep(s: State, c: nat, owner: Option<nat>, token: Token)
    requires ExecInv(s, owner, token) && WorkEnabled(s, BeginWork(c))
    ensures ExecInv(DoBeginWork(s, c), owner, token)
  {
    var t := DoBeginWork(s, c);
    AlikeStep(s, t, c, t.calls[c],
              [], owner, token);
  }

  lemma DropWorkStep(s: State, c: nat, owner: Option<nat>, token: Token)
    requires ExecInv(s, owner, token) && WorkEnabled(s, DropWork(c))
    ensures ExecInv(DoDropWork(s, c), owner, token)
  {
    var t := DoDropWork(s, c);
    AlikeStep(s, t, c, t.calls[c],
              [], owner, token);
  }

  lemma EndWorkStep(s: State, c: nat, error: Option<Failure>, owner: Option<nat>, token: Token)
    requires ExecInv(s, owner, token) && WorkEnabled(s, EndWork(c, error))
    ensures ExecInv(DoEndWork(s, c, error), owner, token)
  {
    var t := DoEndWork(s, c, error);
    AlikeStep(s, t, c, t.calls[c],
              [], owner, token);
  }

  lemma BeginProbeStep(s: State, c: nat, owner: Option<nat>, token: Token)
    requires ExecInv(s, owner, token) && WorkEnabled(s, BeginProbe(c))
    ensures ExecInv(DoBeginProbe(s, c), owner, token)
  {
    var t := DoBeginProbe(s, c);
    AlikeStep(s, t, c, t.calls[c],
              [], owner, token);
  }

  lemma EndProbeStep(s: State, c: nat, ready: bool, owner: Option<nat>, token: Token)
    requires ExecInv(s, owner, token) && WorkEnabled(s, EndProbe(c, ready))
    ensures ExecInv(DoEndProbe(s, c, ready), owner, token)
  {
    var t := DoEndProbe(s, c, ready);
    AlikeStep(s, t, c, t.calls[c], [], owner, token);
  }

  lemma ProbeThrowsStep(s: State, c: nat, thrown: Failure, owner: Option<nat>, token: Token)
    requires ExecInv(s, owner, token) && WorkEnabled(s, ProbeThrows(c, thrown))
    ensures ExecInv(DoProbeThrows(s, c, thrown), owner, token)
  {
    var t := DoProbeThrows(s, c, thrown);
    AlikeStep(s, t, c, t.calls[c], [], owner, token);
  }

  lemma SignalEventStep(s: State, i: nat, owner: Option<nat>, token: Token)
    requires ExecInv(s, owner, token) && WaitEnabled(s, SignalEvent(i))
    ensures ExecInv(DoSignalEvent(s, i), owner, token)
  {
    AlikeStep(s, DoSignalEvent(s, i), |s.calls|, Gone, [CompletingOp(i, None)], owner, token);
  }

  lemma AskStopStep(s: State, owner: Option<nat>, token: Token)
    requires ExecInv(s, owner, token) && RequestEnabled(s, AskStop)
    ensures ExecInv(DoAskStop(s), owner, token)
  {
    AlikeStep(s, DoAskStop(s), |s.calls|, Gone, [Stopping], owner, token);
  }

  lemma StopStateStep(s: State, c: nat, owner: Option<nat>, token: Token)
    requires ExecInv(s, owner, token) && RequestEnabled(s, StopState(c))
    ensures ExecInv(DoStopState(s, c), owner, token)
  {
    var t := DoStopState(s, c);
    AlikeStep(s, t, c, Flagging,
              [Notifying(StopResult(s.result).1)], owner, token);
  }

  lemma FireStopStep(s: State, c: nat, owner: Option<nat>, token: Token)
    requires ExecInv(s, owner, token) && RequestEnabled(s, FireStop(c))
    ensures ExecInv(DoFireStop(s, c), owner, token)
  {
    var t := DoFireStop(s, c);
    AlikeStep(s, t, c, Gone,
              if !s.stopFlag && s.body.Parked? &&
                s.ops[s.body.op].hook.Listening? then [Cancelling(s.body.op)] else [], owner, token);
  }

  lemma CompleteExecutionStep(s: State, c: nat, owner: Option<nat>, token: Token)
    requires ExecInv(s, owner, token) && FrameEnabled(s, CompleteExecution(c))
    ensures ExecInv(DoCompleteExecution(s, c), owner, token)
  {
    var t := DoCompleteExecution(s, c);
    AlikeStep(s, t, c, t.calls[c],
              [], owner, token);
  }

  lemma AskCallbackStep(s: State, execution: bool, owner: Option<nat>, token: Token)
    requires ExecInv(s, owner, token) && RequestEnabled(s, AskCallback(execution))
    ensures ExecInv(DoAskCallback(s, execution), owner, token)
  {
    AlikeStep(s, DoAskCallback(s, execution), |s.calls|, Gone, [Registering(Callback(|s.issued|, execution))], owner,
      token);
  }

  lemma RegisterCallbackStep(s: State, c: nat, owner: Option<nat>, token: Token)
    requires ExecInv(s, owner, token) && RequestEnabled(s, RegisterCallback(c))
    ensures ExecInv(DoRegisterCallback(s, c), owner, token)
  {
    var t := DoRegisterCallback(s, c);
    AlikeStep(s, t, c, t.calls[c],
              [], owner, token);
  }

  lemma RunCallbackStep(s: State, c: nat, owner: Option<nat>, token: Token)
    requires ExecInv(s, owner, token) && RequestEnabled(s, RunCallback(c))
    ensures ExecInv(DoRunCallback(s, c), owner, token)
  {
    var t := DoRunCallback(s, c);
    AlikeStep(s, t, c, t.calls[c],
              [], owner, token);
  }

  /** complete() and cancel(): a claim, or nothing. */
  lemma ClaimOrNot(s: State, c: nat, i: nat, o: (OpCore, bool), owner: Option<nat>, token: Token)
    returns (token': Token)
    requires ExecInv(s, owner, token) && c < |s.calls| && i < |s.ops|
    requires s.calls[c].Cancelling? || s.calls[c].CompletingOp?
    requires if o.1 then o.0.claimed && !s.ops[i].core.claimed else o.0 == s.ops[i].core
    ensures ExecInv(Become(SetCore(s, i, o.0), c, if o.1 then Ticket(i) else Gone, []), owner, token')
  {
    if o.1 {
      ClaimStep(s, c, i, o.0, owner, token);
      token' := AtCall(c);
    } else {
      AlikeStep(s, Become(SetCore(s, i, o.0), c, Gone, []), c, Gone, [], owner, token);
      token' := token;
    }
  }

  lemma ReportStep(s: State, c: nat, owner: Option<nat>, token: Token)
    requires ExecInv(s, owner, token) && WaitEnabled(s, CompleteInProbe(c))
    ensures ExecInv(Become(s, c, Reported(s.calls[c].op, s.calls[c].ready), []), owner, token)
  {
    var k := Reported(s.calls[c].op, s.calls[c].ready);
    assert Fits(s, s.calls[c]);
    AlikeStep(s, Become(s, c, k, []), c, k, [], owner, token);
  }

  lemma SameCore(s: State, i: nat)
    requires i < |s.ops|
    ensures SetCore(s, i, s.ops[i].core) == s
  {
  }

  /** complete() from within a probe: the ticket is a call of its own, and the probe goes on. */
  lemma CompleteInProbeStep(s: State, c: nat, owner: Option<nat>, token: Token) returns (token': Token)
    requires ExecInv(s, owner, token) && WaitEnabled(s, CompleteInProbe(c))
    ensures ExecInv(DoCompleteInProbe(s, c), owner, token')
  {
    var t, i := DoCompleteInProbe(s, c), s.calls[c].op;
    var m := Become(s, c, Reported(i, s.calls[c].ready), []);
    ReportStep(s, c, owner, token);
    if s.ops[i].core.claimed {
      SameCore(s, i);
      assert t == m;
      token' := token;
    } else {
      SpawnTicket(m, i, t.ops[i].core, owner, token);
      assert t == SetCore(m, i, t.ops[i].core).(calls := m.calls + [Ticket(i)]);
      token' := AtCall(|s.calls|);
    }
  }

  lemma SpawnTicket(s: State, i: nat, o: OpCore, owner: Option<nat>, token: Token)
    requires ExecInv(s, owner, token) && i < |s.ops| && o.claimed && !s.ops[i].core.claimed
    ensures ExecInv(SetCore(s, i, o).(calls := s.calls + [Ticket(i)]), owner, AtCall(|s.calls|))
  {
    SpawnRoles(s, i, o, owner, token);
    SpawnFits(s, i, o, owner, token);
  }

  lemma SpawnRoles(s: State, i: nat, o: OpCore, owner: Option<nat>, token: Token)
    requires ExecInv(s, owner, token) && i < |s.ops| && o.claimed && !s.ops[i].core.claimed
    ensures OneRunner(SetCore(s, i, o).(calls := s.calls + [Ticket(i)]), owner)
    ensures OneToken(SetCore(s, i, o).(calls := s.calls + [Ticket(i)]), AtCall(|s.calls|))
  {
    assert PastClaimed(s);
  }

  lemma SpawnFits(s: State, i: nat, o: OpCore, owner: Option<nat>, token: Token)
    requires ExecInv(s, owner, token) && i < |s.ops| && !s.ops[i].core.claimed
    ensures AllFit(SetCore(s, i, o).(calls := s.calls + [Ticket(i)]))
  {
    var t := SetCore(s, i, o).(calls := s.calls + [Ticket(i)]);
    assert PastClaimed(s);
    forall d | 0 <= d < |t.calls|
      ensures Fits(t, t.calls[d])
    {
      assert d < |s.calls| ==> Fits(s, s.calls[d]);
    }
  }

  lemma FrameSteps(s: State, step: FrameStep, owner: Option<nat>, token: Token)
    returns (owner': Option<nat>, token': Token)
    requires ExecInv(s, owner, token) && FrameEnabled(s, step)
    ensures ExecInv(FrameApply(s, step), owner', token')
  {
    owner', token' := owner, token;
    match step {
      case EnterResume(c) => owner', token' := Enter(s, c, owner, token);
      case Continue(c) => Go(s, c, owner, token);
      case Suspend(c, kind) => Park(s, c, kind, owner, token); token' := AtOperation;
      case Return(c, outcome) => ReturnStep(s, c, outcome, owner, token);
      case SettleBody(c) => SettleStep(s, c, owner, token);
      case Leave(c) => owner', token' := LeaveStep(s, c, owner, token);
      case DestroyFrame(c) => DestroyStep(s, c, owner, token);
      case Finish(c) => FinishStep(s, c, owner, token); owner', token' := None, Spent;
      case CompleteExecution(c) => CompleteExecutionStep(s, c, owner, token);
    }
  }

  lemma WaitSteps(s: State, step: WaitStep, owner: Option<nat>, token: Token)
    returns (owner': Option<nat>, token': Token)
    requires ExecInv(s, owner, token) && WaitEnabled(s, step)
    ensures ExecInv(WaitApply(s, step), owner', token')
  {
    owner', token' := owner, token;
    match step {
      case Arm(c) => ArmStep(s, c, owner, token);
      case Wire(c, accepted) => WireStep(s, c, accepted, owner, token);
      case Cancel(c) => token' := ClaimOrNot(s, c, s.calls[c].op, CancelOp(s.ops[s.calls[c].op].core), owner, token);
      case SignalEvent(i) => SignalEventStep(s, i, owner, token);
      case CompleteOperation(c) =>
        token' := ClaimOrNot(s, c, s.calls[c].op, CompleteOp(s.ops[s.calls[c].op].core, s.calls[c].error), owner,
          token);
      case CompleteInProbe(c) => token' := CompleteInProbeStep(s, c, owner, token);
      case RunTicket(c) => RunTicketStep(s, c, owner, token);
      case DropTicket(c) => DropTicketStep(s, c, owner, token);
    }
  }

  lemma WorkSteps(s: State, step: WorkStep, owner: Option<nat>, token: Token)
    returns (owner': Option<nat>, token': Token)
    requires ExecInv(s, owner, token) && WorkEnabled(s, step)
    ensures ExecInv(WorkApply(s, step), owner', token')
  {
    owner', token' := owner, token;
    match step {
      case BeginWork(c) => BeginWorkStep(s, c, owner, token);
      case DropWork(c) => DropWorkStep(s, c, owner, token);
      case EndWork(c, error) => EndWorkStep(s, c, error, owner, token);
      case BeginProbe(c) => BeginProbeStep(s, c, owner, token);
      case EndProbe(c, ready) => EndProbeStep(s, c, ready, owner, token);
      case ProbeThrows(c, thrown) => ProbeThrowsStep(s, c, thrown, owner, token);
    }
  }

  lemma RequestSteps(s: State, step: RequestStep, owner: Option<nat>, token: Token)
    returns (owner': Option<nat>, token': Token)
    requires ExecInv(s, owner, token) && RequestEnabled(s, step)
    ensures ExecInv(RequestApply(s, step), owner', token')
  {
    owner', token' := owner, token;
    match step {
      case AskStop => AskStopStep(s, owner, token);
      case StopState(c) => StopStateStep(s, c, owner, token);
      case FireStop(c) => FireStopStep(s, c, owner, token);
      case AskCallback(execution) => AskCallbackStep(s, execution, owner, token);
      case RegisterCallback(c) => RegisterCallbackStep(s, c, owner, token);
      case RunCallback(c) => RunCallbackStep(s, c, owner, token);
    }
  }

  /** Every step keeps the invariant. */
  lemma StepKeepsExec(s: State, step: Step, owner: Option<nat>, token: Token)
    returns (owner': Option<nat>, token': Token)
    requires ExecInv(s, owner, token) && Enabled(s, step)
    ensures ExecInv(Apply(s, step), owner', token')
  {
    match step {
      case OfFrame(f) => owner', token' := FrameSteps(s, f, owner, token);
      case OfWait(o) => owner', token' := WaitSteps(s, o, owner, token);
      case OfWork(w) => owner', token' := WorkSteps(s, w, owner, token);
      case OfRequest(q) => owner', token' := RequestSteps(s, q, owner, token);
    }
  }
}
