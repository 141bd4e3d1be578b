/** The class of veventloop.h.

    User code is RunCode: any number of posts, schedules and cancels and, as long as it may nest deeper, of
    passes over the loop's own queues.  Interfere is what other threads do between two lock sections.  The
    depth is arbitrary; it only says that user code returns. */
module EventLoop {
  import opened LoopQueues

  /** Ids between from and below, none of them above last, in order. */
  predicate Ascending(own: seq<nat>, from: nat, below: nat, last: int) {
    && (forall i :: 0 <= i < |own| ==> from <= own[i] < below && own[i] <= last)
    && (forall i, j :: 0 <= i < j < |own| ==> own[i] < own[j])
  }

  /** Of these conditions, the ones cancelled at entry have left the list. */
  ghost predicate Purged(seen: seq<nat>, entry: Conditions, now: Conditions) {
    forall id :: id in seen && id in entry.cancelled ==> id !in now.queue
  }

  lemma PurgedGrows(snapshot: seq<nat>, i: nat, entry: Conditions, before: Conditions, now: Conditions)
    requires i < |snapshot| && (forall id :: id in snapshot ==> id < entry.next)
    requires ConditionsLater(entry, before) && ConditionsLater(before, now) && Purged(snapshot[..i], entry, before)
    requires snapshot[i] in before.cancelled ==> snapshot[i] !in now.queue
    ensures Purged(snapshot[..i + 1], entry, now)
  {
    forall id | id in snapshot[..i + 1] && id in entry.cancelled
      ensures id !in now.queue
    {
      if id in snapshot[..i] {
        assert id in snapshot;
      } else {
        assert id == snapshot[i];
      }
    }
  }

  lemma AscendingGrows(own: seq<nat>, from: nat, below: nat, last: int, id: nat, below': nat)
    requires Ascending(own, from, below, last) && from <= below <= id < below' && id <= last
    ensures Ascending(own + [id], from, below', last)
  {
  }

  lemma MayApply(t: Timers, step: TimerStep)
    requires TimersOk(t) && TimerEnabled(t, step) && !step.Pops? && !step.Starts?
    ensures TimersStep(t, TimerApply(t, step)) && (Resolved(t) ==> Resolved(TimerApply(t, step)))
    ensures TimerApply(t, step).popped == t.popped && TimerApply(t, step).started == t.started
  {
    TimerStepKeeps(t, step);
    ResolvedStays(t, TimerApply(t, step));
  }

  lemma OrderOfStarts(t: Timers, n: nat)
    requires TimersOk(t) && n <= |t.started|
    ensures InOrder(t.started[n..], t.late) && Among(t.started, t.popped)
    ensures forall k :: k in t.started ==> k.due <= t.clock
  {
    AmongMembers(t.started, t.popped);
  }

  /** The three steps of scheduleAfter. */
  lemma Scheduling(t: Timers, milliseconds: int) returns (key: Key)
    requires TimersOk(t)
    ensures
      var r := Reserve(t);
      t.nextId in r.flights && r.flights[t.nextId].None?
      && var d := Date(r, t.nextId, milliseconds);
         t.nextId in d.flights && d.flights[t.nextId].Some?
         && var u := Insert(d, t.nextId);
            TimersStep(t, u) && (Resolved(t) ==> Resolved(u)) && u.popped == t.popped && u.started == t.started
            && key in u.queue && key.id == t.nextId && u.clock == t.clock
            && key.due == if milliseconds <= 0 then t.clock else t.clock + milliseconds
  {
    var r, id := Reserve(t), t.nextId;
    ReserveKeeps(t);
    var d := Date(r, id, milliseconds);
    DateKeeps(r, id, milliseconds);
    InsertKeeps(d, id);
    key := Key(d.flights[id].value, id);
    EmplaceKeeps(d.queue, key);
    TimersCompose(t, r, d);
    TimersCompose(t, d, Insert(d, id));
    ResolvedStays(t, Insert(d, id));
  }

  /** A timer that was queued once and is due when a pass begins has started or been cancelled when it ends. */
  lemma ScheduledIsDone(scheduled: Loop, entry: Loop, now: Loop, k: Key)
    requires LoopOk(scheduled) && k in scheduled.timers.queue
    requires LoopReturn(scheduled, entry) && AtRest(entry) && k.due <= entry.timers.clock
    requires LoopReturn(entry, now) && DueAreDone(entry.timers, now.timers)
    ensures DealtWith(now.timers, k)
  {
    if k in entry.timers.popped {
      PoppedIsDone(entry.timers, k);
    }
  }

  /** Every timer that was queued and due has started or been cancelled. */
  ghost predicate DueAreDone(entry: Timers, now: Timers) {
    forall k :: k in entry.queue && k.due <= entry.clock ==> DealtWith(now, k)
  }

  lemma ResolvedStays(a: Timers, b: Timers)
    requires b.popped == a.popped && b.started == a.started && a.cancelled <= b.cancelled
    ensures Resolved(a) ==> Resolved(b)
  {
  }

  lemma StartedStays(a: Timers, b: Timers, k: Key)
    requires TimersLater(a, b) && k in a.started
    ensures k in b.started
  {
  }

  lemma QueuedHasNotStarted(t: Timers, k: Key)
    requires PoppedOk(t) && StartedOk(t) && k in t.queue
    ensures k !in t.started
  {
    AmongMembers(t.started, t.popped);
  }

  lemma NoneIsLeft(entry: Timers, t: Timers, now: nat, limit: nat)
    requires TimersOk(entry) && TimersOk(t) && TimersLater(entry, t) && Resolved(t)
    requires entry.clock <= now && entry.nextId <= limit
    requires forall k :: k in t.queue && k.id < limit ==> now < k.due
    ensures DueAreDone(entry, t)
  {
    forall k | k in entry.queue && k.due <= entry.clock
      ensures DealtWith(t, k)
    {
      assert k in t.popped || k.id in t.cancelled;
      if k in t.popped {
        PoppedIsDone(t, k);
      }
    }
  }

  lemma PoppedIsDone(t: Timers, k: Key)
    requires NoneLost(t) && Resolved(t) && k in t.popped
    ensures DealtWith(t, k)
  {
    var i :| 0 <= i < |t.popped| && t.popped[i] == k;
  }

  /** One pass of the loop of processConditions. */
  lemma PassGrows(snapshot: seq<nat>, i: nat, entry: Conditions, before: Conditions, now: Conditions, own: seq<nat>,
                  ran: bool)
    requires i < |snapshot| && snapshot == entry.queue && ConditionsOk(entry)
    requires ConditionsLater(entry, before) && ConditionsLater(before, now)
    requires Purged(snapshot[..i], entry, before) && RanHere(own, entry, before)
    requires snapshot[i] in before.cancelled ==> snapshot[i] !in now.queue
    requires ran ==> snapshot[i] in now.ran && snapshot[i] !in before.cancelled
    ensures Purged(snapshot[..i + 1], entry, now)
    ensures RanHere(if ran then own + [snapshot[i]] else own, entry, now)
  {
    assert snapshot[i] in entry.queue && snapshot[i] < entry.next <= before.next;
    PurgedGrows(snapshot, i, entry, before, now);
    RanHereStays(own, entry, before, now);
    if ran {
      RanHereGrows(own, entry, now, snapshot[i]);
    }
  }

  /** The predicate of each of these conditions has been called since, unless it was being evaluated or the condition
      has been cancelled. */
  ghost predicate AllAsked(seen: seq<nat>, entry: Conditions, now: Conditions) {
    forall id :: id in seen ==> now.asked[id] > entry.asked[id] || id in entry.evaluating || id in now.cancelled
  }

  /** Whoever has said yes has run, or been cancelled first, unless it is still being evaluated. */
  ghost predicate ApprovedAreDone(now: Conditions) {
    forall id :: id in now.approved && id !in now.evaluating ==> id in now.ran || id in now.dropped
  }

  lemma ApprovedLeave(now: Conditions)
    requires ConditionsOk(now) && now.claiming.None?
    ensures ApprovedAreDone(now)
  {
  }

  lemma AskedGrows(snapshot: seq<nat>, i: nat, entry: Conditions, before: Conditions, now: Conditions)
    requires i < |snapshot| && ConditionsLater(entry, before) && ConditionsLater(before, now)
    requires before.evaluating == entry.evaluating && AllAsked(snapshot[..i], entry, before)
    requires snapshot[i] !in before.cancelled && snapshot[i] !in before.evaluating ==>
      now.asked[snapshot[i]] > before.asked[snapshot[i]]
    ensures AllAsked(snapshot[..i + 1], entry, now)
  {
    forall id | id in snapshot[..i + 1]
      ensures now.asked[id] > entry.asked[id] || id in entry.evaluating || id in now.cancelled
    {
      assert id in snapshot[..i] || id == snapshot[i];
      assert now.asked[id] >= before.asked[id] >= entry.asked[id];
    }
  }

  /** Other threads start nothing, and take nothing out of the list of conditions. */
  ghost predicate NothingRan(a: Loop, b: Loop) {
    && b.tasks.started == a.tasks.started && b.conditions.ran == a.conditions.ran
    && a.conditions.queue <= b.conditions.queue
    && b.timers.popped == a.timers.popped && b.timers.started == a.timers.started
  }

  /** The conditions of a pass that it ran itself. */
  ghost predicate RanHere(own: seq<nat>, entry: Conditions, now: Conditions) {
    forall id :: id in own ==> id in entry.queue && id in now.ran && id !in entry.ran && id !in entry.cancelled
  }

  lemma RanHereStays(own: seq<nat>, entry: Conditions, before: Conditions, now: Conditions)
    requires RanHere(own, entry, before) && ConditionsLater(before, now)
    ensures RanHere(own, entry, now)
  {
  }

  lemma RanHereGrows(own: seq<nat>, entry: Conditions, now: Conditions, id: nat)
    requires RanHere(own, entry, now) && ConditionsOk(entry)
    requires id in entry.queue && id in now.ran && id !in entry.cancelled
    ensures RanHere(own + [id], entry, now)
  {
  }

  class EventLoop {
    var tasks: Tasks
    var timers: Timers
    var conditions: Conditions

    constructor ()
      ensures LoopOk(Snap()) && AtRest(Snap())
    {
      tasks := Tasks([], 0, []);
      timers := NoTimers();
      conditions := Conditions(0, [], {}, {}, {}, None, [], {}, multiset{}, {});
    }

    ghost function Snap(): Loop
      reads this
    {
      Loop(tasks, timers, conditions)
    }

    // -------------------------------------------------------------- steps that any thread may take

    /** invoke */
    method Invoke()
      requires TasksOk(tasks)
      modifies `tasks
      ensures TasksOk(tasks) && TasksLater(old(tasks), tasks)
      ensures tasks.queue == old(tasks.queue) + [old(tasks.next)] && tasks.started == old(tasks.started)
    {
      PostKeeps(tasks);
      tasks := Post(tasks);
    }

    /** scheduleAfter on this thread: the timer is due the given delay after the clock was read, at once if the delay
        is not positive.  TimerOrder interleaves the steps of other threads' calls. */
    method ScheduleAfter(milliseconds: int) returns (ghost key: Key)
      requires LoopOk(Snap())
      modifies `timers
      ensures LoopReturn(old(Snap()), Snap()) && NothingRan(old(Snap()), Snap())
      ensures key in timers.queue && key.id == old(timers.nextId)
      ensures key.due == if milliseconds <= 0 then old(timers.clock) else old(timers.clock) + milliseconds
      ensures timers.clock == old(timers.clock)
    {
      ghost var was := Snap();
      var id := timers.nextId;
      key := Scheduling(timers, milliseconds);
      timers := Reserve(timers);
      timers := Date(timers, id, milliseconds);
      timers := Insert(timers, id);
      TimersAlone(was, Snap());
    }

    /** One of the steps of scheduleAfter or of a connection's reset, on any thread, or time passing. */
    method StepTimers(step: TimerStep)
      requires LoopOk(Snap()) && TimerEnabled(timers, step) && !step.Pops? && !step.Starts?
      modifies `timers
      ensures LoopReturn(old(Snap()), Snap()) && NothingRan(old(Snap()), Snap())
      ensures timers == TimerApply(old(timers), step)
    {
      MayApply(timers, step);
      TimersAlone(Snap(), Snap().(timers := TimerApply(timers, step)));
      timers := TimerApply(timers, step);
    }

    /** One step of another thread on the timers: time passing, an id taken elsewhere, or part of a
        scheduleAfter or of a connection's reset. */
    method DisturbTimers()
      requires LoopOk(Snap())
      modifies `timers
      ensures LoopReturn(old(Snap()), Snap()) && NothingRan(old(Snap()), Snap())
    {
      var step: TimerStep := *;
      if !step.Pops? && !step.Starts? && TimerEnabled(timers, step) {
        StepTimers(step);
      } else {
        TimersAlone(Snap(), Snap());
      }
    }

    /** One step of another thread on the conditions. */
    method DisturbConditions()
      requires ConditionsOk(conditions)
      modifies `conditions
      ensures ConditionsOk(conditions) && ConditionsReturn(old(conditions), conditions)
      ensures conditions.ran == old(conditions.ran) && old(conditions.queue) <= conditions.queue
    {
      var id: nat := *;
      if {
        case true =>
          AddKeeps(conditions);
          conditions := AddCondition(conditions);
        case id < conditions.next =>
          CancelKeeps(conditions, id);
          conditions := CancelCondition(conditions, id);
      }
    }

    /** One step of another thread. */
    method Disturb()
      requires LoopOk(Snap())
      modifies this
      ensures LoopReturn(old(Snap()), Snap()) && NothingRan(old(Snap()), Snap())
    {
      if {
        case true =>
          Invoke();
          TasksAlone(old(Snap()), Snap());
        case true =>
          DisturbTimers();
        case true =>
          DisturbConditions();
          ConditionsAlone(old(Snap()), Snap());
      }
    }

    /** Any number of steps of other threads. */
    method Interfere()
      requires LoopOk(Snap())
      modifies this
      ensures LoopReturn(old(Snap()), Snap()) && NothingRan(old(Snap()), Snap())
    {
      var n: nat :| true;
      for i := 0 to n
        invariant LoopReturn(old(Snap()), Snap()) && NothingRan(old(Snap()), Snap())
      {
        ghost var before := Snap();
        Disturb();
        LoopCompose(old(Snap()), before, Snap());
      }
    }

    // -------------------------------------------------------------- user code

    /** A callback, a predicate, an event handler or the exception handler. */
    method RunCode(depth: nat)
      requires LoopOk(Snap()) && AtRest(Snap())
      modifies this
      ensures LoopReturn(old(Snap()), Snap())
      decreases depth, 0
    {
      var n: nat :| true;
      for i := 0 to n
        invariant LoopReturn(old(Snap()), Snap())
      {
        ghost var before := Snap();
        if {
          case true => Interfere();
          case depth > 0 => var processed, own, last := DrainPostedTasks(depth - 1);
          case depth > 0 => var processed := RunReady(depth - 1);
          case depth > 0 => var total, passes, last := RunUntilIdle(1000, depth - 1);
        }
        LoopCompose(old(Snap()), before, Snap());
      }
    }

    /** safeInvoke: the code, and the exception handler if it threw */
    method SafeInvoke(depth: nat)
      requires LoopOk(Snap()) && AtRest(Snap())
      modifies this
      ensures LoopReturn(old(Snap()), Snap())
      decreases depth, 1
    {
      var threw: bool := *;
      RunCode(depth);
      if threw {
        ghost var before := Snap();
        RunCode(depth);
        LoopCompose(old(Snap()), before, Snap());
      }
    }

    // -------------------------------------------------------------- drainPostedTasks

    /** Starts every task posted before the call, in order, and none posted after `last` was read. */
    method DrainPostedTasks(depth: nat) returns (processed: nat, ghost own: seq<nat>, ghost last: int)
      requires LoopOk(Snap()) && AtRest(Snap())
      modifies this
      ensures LoopReturn(old(Snap()), Snap())
      ensures |tasks.started| >= old(tasks.next)
      ensures old(tasks.queue) != [] ==> processed > 0
      ensures processed == |own| && Ascending(own, |old(tasks.started)|, |tasks.started|, last)
      ensures last < tasks.next && (tasks.queue == [] || tasks.queue[0] > last)
      decreases depth, 6
    {
      if tasks.queue == [] {
        return 0, [], -1;
      }
      var lastTaskId := tasks.queue[|tasks.queue| - 1];
      Interfere();
      ghost var before := Snap();
      processed, own := DrainUpTo(lastTaskId, depth);
      last := lastTaskId;
      LoopCompose(old(Snap()), before, Snap());
    }

    /** The loop of drainPostedTasks. */
    method DrainUpTo(lastTaskId: nat, depth: nat) returns (processed: nat, ghost own: seq<nat>)
      requires LoopOk(Snap()) && AtRest(Snap()) && lastTaskId < tasks.next
      modifies this
      ensures LoopReturn(old(Snap()), Snap())
      ensures old(tasks.queue) != [] && old(tasks.queue[0]) <= lastTaskId ==> processed > 0
      ensures processed == |own| && Ascending(own, |old(tasks.started)|, |tasks.started|, lastTaskId)
      ensures tasks.queue == [] || tasks.queue[0] > lastTaskId
      decreases depth, 5
    {
      processed, own := 0, [];
      while tasks.queue != [] && tasks.queue[0] <= lastTaskId
        invariant LoopReturn(old(Snap()), Snap())
        invariant processed == |own| && Ascending(own, |old(tasks.started)|, |tasks.started|, lastTaskId)
        invariant processed > 0 || tasks.queue == old(tasks.queue)
        decreases lastTaskId - |tasks.started|
      {
        ghost var before := Snap();
        var id := tasks.queue[0];
        StartFirst(depth);
        AscendingGrows(own, |old(tasks.started)|, |before.tasks.started|, lastTaskId, id, |tasks.started|);
        own := own + [id];
        LoopCompose(old(Snap()), before, Snap());
        processed := processed + 1;
      }
    }

    /** One pass of the loop: the first task leaves the queue and runs. */
    method StartFirst(depth: nat)
      requires LoopOk(Snap()) && AtRest(Snap()) && tasks.queue != []
      modifies this
      ensures LoopReturn(old(Snap()), Snap())
      ensures |tasks.started| > |old(tasks.started)| && tasks.started[|old(tasks.started)|] == old(tasks.queue[0])
      decreases depth, 3
    {
      PopKeeps(tasks);
      tasks := PopTask(tasks);
      ghost var popped := Snap();
      assert LoopReturn(old(Snap()), popped);
      RunThenYield(depth);
      LoopCompose(old(Snap()), popped, Snap());
      assert tasks.started[..|popped.tasks.started|] == popped.tasks.started;
    }

    // -------------------------------------------------------------- processDelays

    /** The section that takes the first timer, and what happens before its flag is looked at. */
    method TakeFirst() returns (k: Key)
      requires LoopOk(Snap()) && AtRest(Snap())
      requires timers.queue != [] && timers.queue[0].due <= timers.clock
      modifies this
      ensures LoopOk(Snap()) && LoopLater(old(Snap()), Snap()) && TimersLater(Pop(old(timers)), timers)
      ensures SameFlags(old(conditions), conditions)
      ensures k == old(timers.queue[0]) && timers.started == old(timers.started) && k !in timers.started
      ensures timers.popped == old(timers.popped) + [k]
    {
      k := timers.queue[0];
      QueuedHasNotStarted(timers, k);
      PopTimerKeeps(timers);
      timers := Pop(timers);
      ghost var popped := Snap();
      TasksCompose(tasks, tasks, tasks);
      Interfere();
      TimersCompose(old(timers), popped.timers, timers);
    }

    /** The first timer leaves the queue and starts, unless it has been cancelled. */
    method PopFirst(depth: nat) returns (started: bool)
      requires LoopOk(Snap()) && AtRest(Snap())
      requires timers.queue != [] && timers.queue[0].due <= timers.clock
      modifies this
      ensures LoopReturn(old(Snap()), Snap())
      ensures old(timers.popped) + [old(timers.queue[0])] <= timers.popped
      ensures started ==> old(timers.queue[0]) in timers.started && old(timers.queue[0].id) !in old(timers.cancelled)
      ensures !started ==> old(timers.queue[0].id) in timers.cancelled
      ensures TimersLater(Pop(old(timers)), timers)
      decreases depth, 4
    {
      var k := TakeFirst();
      ghost var taken := Snap();
      started := k.id !in timers.cancelled;
      if started {
        StartPopped(k, depth);
        TimersCompose(Pop(old(timers)), taken.timers, timers);
        LoopLaterCompose(old(Snap()), taken, Snap());
      }
    }

    method StartPopped(k: Key, depth: nat)
      requires LoopOk(Snap()) && conditions.claiming.None?
      requires timers.popped != [] && k == timers.popped[|timers.popped| - 1]
      requires k !in timers.started && k.id !in timers.cancelled
      modifies this
      ensures LoopReturn(old(Snap()), Snap()) && k in timers.started && Resolved(timers)
      decreases depth, 3
    {
      StartKeeps(timers);
      timers := StartTimer(timers);
      ghost var begun := Snap();
      TimersAlone(old(Snap()), begun);
      RunThenYield(depth);
      LoopCompose(old(Snap()), begun, Snap());
      StartedStays(begun.timers, timers, k);
    }

    /** User code, and what other threads do after it. */
    method RunThenYield(depth: nat)
      requires LoopOk(Snap()) && AtRest(Snap())
      modifies this
      ensures LoopReturn(old(Snap()), Snap())
      decreases depth, 2
    {
      SafeInvoke(depth);
      ghost var returned := Snap();
      Interfere();
      LoopCompose(old(Snap()), returned, Snap());
    }

    /** Starts the timers that were due, in order; stops at one that was scheduled during the pass, and even
        so leaves none behind that had been queued before and was due. */
    method ProcessDelays(depth: nat) returns (processed: nat, ghost now: nat, ghost limit: nat)
      requires LoopOk(Snap()) && AtRest(Snap())
      modifies this
      ensures LoopReturn(old(Snap()), Snap())
      ensures old(timers.clock) <= now <= timers.clock && old(timers.nextId) <= limit
      ensures forall k :: k in timers.queue && k.id < limit ==> now < k.due
      ensures InOrder(timers.started[|old(timers.started)|..], timers.late)
      ensures forall k :: k in timers.started ==> k.due <= timers.clock
      ensures Among(timers.started, timers.popped)
      decreases depth, 6
    {
      now := timers.clock;
      var time := timers.clock;
      Interfere();
      var limitId := timers.nextId;
      limit := limitId;
      ghost var before := Snap();
      processed := DelaysUpTo(time, limitId, depth);
      LoopCompose(old(Snap()), before, Snap());
      OrderOfStarts(timers, |old(timers.started)|);
    }

    /** The loop of processDelays. */
    method DelaysUpTo(now: nat, limitId: nat, depth: nat) returns (processed: nat)
      requires LoopOk(Snap()) && AtRest(Snap()) && now <= timers.clock && limitId == timers.nextId
      modifies this
      ensures LoopReturn(old(Snap()), Snap())
      ensures forall k :: k in timers.queue && k.id < limitId ==> now < k.due
      decreases depth, 5
    {
      processed := 0;
      assert Fresh(timers, limitId, now);
      while timers.queue != [] && timers.queue[0].due <= now && timers.queue[0].id < limitId
        invariant LoopReturn(old(Snap()), Snap()) && Fresh(timers, limitId, now)
        decreases |OpenBelow(timers, limitId)|
      {
        ghost var before := Snap();
        PopLowersOpenBelow(timers, limitId);
        var started := PopFirst(depth);
        OpenBelowShrinks(Pop(before.timers), timers, limitId);
        FreshStays(before.timers, timers, limitId, now);
        LoopCompose(old(Snap()), before, Snap());
        processed := if started then processed + 1 else processed;
      }
      forall k | k in timers.queue && k.id < limitId
        ensures now < k.due
      {
        NothingDueIsLeft(timers, limitId, now, k);
      }
    }

    // -------------------------------------------------------------- processConditions

    /** The call of a predicate: never while it is already being called, and never once it has been run. */
    method CallPredicate(id: nat, depth: nat) returns (ready: bool)
      requires LoopOk(Snap()) && AtRest(Snap()) && id < conditions.next
      requires id in conditions.evaluating && id !in conditions.probing && id !in conditions.ran
      modifies this
      ensures LoopReturn(old(Snap()), Snap())
      ensures conditions.asked[id] > old(conditions.asked[id])
      ensures id in conditions.approved <==> ready || id in old(conditions.approved)
      decreases depth, 3
    {
      conditions := conditions.(probing := conditions.probing + {id});
      ghost var begun := Snap();
      RunThenYield(depth);
      ready := *;
      conditions := conditions.(probing := conditions.probing - {id}, asked := conditions.asked + multiset{id},
                                approved := if ready then conditions.approved + {id} else conditions.approved);
    }

    /** removeCondition and the exchange: a ready condition is taken out, and wins unless a cancellation came
        first. */
    method TakeOut(id: nat) returns (won: bool)
      requires LoopOk(Snap()) && AtRest(Snap()) && id in conditions.queue
      modifies this
      ensures LoopReturn(old(Snap()), Snap())
      ensures won ==> id in conditions.ran && id !in old(conditions.cancelled) && id !in old(conditions.ran)
      ensures !won ==> id in conditions.dropped && conditions.ran == old(conditions.ran)
      ensures id !in conditions.queue
    {
      TakeKeeps(conditions, id);
      RemoveKeeps(conditions.queue, id);
      conditions := Take(conditions, id);
      ghost var taken := Snap();
      Interfere();
      won := id !in conditions.cancelled;
      ghost var before := Snap();
      DecideKeeps(conditions);
      conditions := Decide(conditions);
      ConditionsCompose(taken.conditions, before.conditions, conditions);
    }

    /** The middle of one pass, after the predicate. */
    method RunIfReady(id: nat, ready: bool, depth: nat) returns (ran: bool)
      requires LoopOk(Snap()) && AtRest(Snap()) && id < conditions.next
      modifies this
      ensures LoopReturn(old(Snap()), Snap())
      ensures ran ==> id in conditions.ran && id !in old(conditions.cancelled) && id !in old(conditions.ran)
      ensures ready ==> id !in conditions.queue
      ensures !ready ==> conditions == old(conditions)
      decreases depth, 3
    {
      ran := false;
      if ready && id in conditions.queue {
        ran := TakeOut(id);
        if ran {
          ghost var won := Snap();
          RunThenYield(depth);
          LoopCompose(old(Snap()), won, Snap());
        }
      }
    }

    /** removeCondition, for a condition that is cancelled or has run */
    method Clean(id: nat)
      requires ConditionsOk(conditions)
      modifies `conditions
      ensures ConditionsOk(conditions) && ConditionsReturn(old(conditions), conditions)
      ensures conditions.approved == old(conditions.approved)
      ensures forall j :: j in conditions.queue ==> j in old(conditions.queue)
      ensures id in old(conditions.cancelled) ==> id !in conditions.queue
      ensures conditions.cancelled == old(conditions.cancelled) && conditions.ran == old(conditions.ran)
    {
      if id in conditions.cancelled {
        DiscardKeeps(conditions, id);
        RemoveKeeps(conditions.queue, id);
        conditions := Discard(conditions, id);
      }
    }

    /** The action, and the cleaning up. */
    method Conclude(id: nat, ready: bool, depth: nat) returns (ran: bool)
      requires LoopOk(Snap()) && AtRest(Snap()) && id < conditions.next
      modifies this
      ensures LoopReturn(old(Snap()), Snap())
      ensures ran ==> id in conditions.ran && id !in old(conditions.cancelled)
      ensures ready ==> id !in conditions.queue
      ensures !ready ==> conditions.approved == old(conditions.approved)
      decreases depth, 4
    {
      ran := RunIfReady(id, ready, depth);
      ghost var before := Snap();
      Clean(id);
      ConditionsAlone(before, Snap());
      LoopCompose(old(Snap()), before, Snap());
    }

    /** The predicate, the action, and the cleaning up.  If the predicate says yes, the condition leaves the list. */
    method ProbeAndRun(id: nat, depth: nat) returns (ran: bool)
      requires LoopOk(Snap()) && AtRest(Snap()) && id < conditions.next
      requires id in conditions.evaluating && id !in conditions.probing && id !in conditions.ran
      modifies this
      ensures LoopReturn(old(Snap()), Snap())
      ensures ran ==> id in conditions.ran && id !in old(conditions.cancelled)
      ensures conditions.asked[id] > old(conditions.asked[id])
      ensures id in conditions.approved && id in conditions.queue ==> id in old(conditions.approved)
      decreases depth, 5
    {
      var ready := CallPredicate(id, depth);
      ghost var called := Snap();
      ran := Conclude(id, ready, depth);
      LoopCompose(old(Snap()), called, Snap());
    }

    /** From the exchange of the evaluating flag to its reset. */
    method Evaluate(id: nat, depth: nat) returns (ran: bool)
      requires LoopOk(Snap()) && AtRest(Snap()) && id < conditions.next
      requires id !in conditions.evaluating && id !in conditions.ran
      modifies this
      ensures LoopReturn(old(Snap()), Snap())
      ensures ran ==> id in conditions.ran && id !in old(conditions.cancelled)
      ensures conditions.asked[id] > old(conditions.asked[id])
      decreases depth, 6
    {
      conditions := BeginEvaluation(conditions, id);
      ran := ProbeAndRun(id, depth);
      conditions := EndEvaluation(conditions, id);
    }

    /** One pass of the loop of processConditions: the predicate is called unless the condition has been cancelled or
        is being evaluated already. */
    method CheckCondition(id: nat, depth: nat) returns (ran: bool)
      requires LoopOk(Snap()) && AtRest(Snap()) && id < conditions.next
      modifies this
      ensures LoopReturn(old(Snap()), Snap())
      ensures ran ==> id in conditions.ran && id !in old(conditions.cancelled)
      ensures id in old(conditions.cancelled) ==> id !in conditions.queue
      ensures id !in old(conditions.cancelled) && id !in old(conditions.evaluating) ==>
        conditions.asked[id] > old(conditions.asked[id])
      decreases depth, 7
    {
      ran := false;
      if id in conditions.cancelled {
        Clean(id);
      } else if id !in conditions.evaluating {
        ran := Evaluate(id, depth);
      }
      ghost var before := Snap();
      Interfere();
      LoopCompose(old(Snap()), before, Snap());
    }

    /** Evaluates the listed conditions and runs those that hold; the ones cancelled before leave the list.  Every listed
        condition is asked unless it is cancelled or being evaluated, and one whose predicate has said yes, and is no
        longer being evaluated, has run or been cancelled. */
    method ProcessConditions(depth: nat) returns (processed: nat, ghost own: seq<nat>)
      requires LoopOk(Snap()) && AtRest(Snap())
      modifies this
      ensures LoopReturn(old(Snap()), Snap())
      ensures processed == |own| && RanHere(own, old(conditions), conditions)
      ensures forall id :: id in old(conditions.queue) && id in old(conditions.cancelled) ==> id !in conditions.queue
      ensures AllAsked(old(conditions.queue), old(conditions), conditions) && ApprovedAreDone(conditions)
      decreases depth, 8
    {
      var snapshot := conditions.queue;
      ghost var entry := Snap();
      processed, own := 0, [];
      for i := 0 to |snapshot|
        invariant LoopReturn(entry, Snap()) && processed == |own|
        invariant RanHere(own, entry.conditions, conditions)
        invariant Purged(snapshot[..i], entry.conditions, conditions)
        invariant AllAsked(snapshot[..i], entry.conditions, conditions)
      {
        ghost var before := Snap();
        assert snapshot[i] in entry.conditions.queue;
        var ran := CheckCondition(snapshot[i], depth);
        LoopCompose(entry, before, Snap());
        PassGrows(snapshot, i, entry.conditions, before.conditions, conditions, own, ran);
        AskedGrows(snapshot, i, entry.conditions, before.conditions, conditions);
        if ran {
          processed, own := processed + 1, own + [snapshot[i]];
        }
      }
      assert snapshot[..|snapshot|] == snapshot;
      ApprovedLeave(conditions);
    }

    // -------------------------------------------------------------- what callers may do

    /** scheduleWhen */
    method ScheduleWhen() returns (id: nat)
      requires ConditionsOk(conditions)
      modifies `conditions
      ensures ConditionsOk(conditions) && ConditionsReturn(old(conditions), conditions)
      ensures id == old(conditions.next) && conditions.queue == old(conditions.queue) + [id]
      ensures id !in conditions.cancelled && id !in conditions.ran
    {
      AddKeeps(conditions);
      id := conditions.next;
      conditions := AddCondition(conditions);
    }

    /** connection::reset of a condition: if its action has not been started, it never will be. */
    method ResetCondition(id: nat)
      requires ConditionsOk(conditions) && id < conditions.next
      modifies `conditions
      ensures ConditionsOk(conditions) && ConditionsReturn(old(conditions), conditions)
      ensures id in conditions.cancelled && conditions.ran == old(conditions.ran)
      ensures id !in old(conditions.ran) ==> id in conditions.dropped
    {
      CancelKeeps(conditions, id);
      conditions := CancelCondition(conditions, id);
    }

    /** connection::reset of a timer: it leaves the queue, and if it has not started, it never will. */
    method ResetTimer(key: Key)
      requires LoopOk(Snap()) && key.id < timers.nextId && key.id !in timers.flights
      modifies `timers
      ensures LoopReturn(old(Snap()), Snap()) && NothingRan(old(Snap()), Snap())
      ensures key.id in timers.cancelled && key !in timers.queue
    {
      ghost var was := Snap();
      StepTimers(RaisesFlag(key.id));
      ghost var raised := Snap();
      WithoutKeeps(timers.queue, key);
      StepTimers(Extracts(key));
      LoopCompose(was, raised, Snap());
    }

    // -------------------------------------------------------------- the passes together

    /** pollEvents: any number of events, each of which may run handlers */
    method PollEvents(depth: nat) returns (processed: nat)
      requires LoopOk(Snap()) && AtRest(Snap())
      modifies this
      ensures LoopReturn(old(Snap()), Snap())
      decreases depth, 6
    {
      processed := 0;
      var events: nat :| true;
      for i := 0 to events
        invariant LoopReturn(old(Snap()), Snap())
      {
        ghost var before := Snap();
        RunThenYield(depth);
        LoopCompose(old(Snap()), before, Snap());
        processed := processed + 1;
      }
    }

    /** runReady */
    method RunReady(depth: nat) returns (processed: nat)
      requires LoopOk(Snap()) && AtRest(Snap())
      modifies this
      ensures LoopReturn(old(Snap()), Snap())
      ensures |tasks.started| >= old(tasks.next) && (old(tasks.queue) != [] ==> processed > 0)
      ensures DueAreDone(old(timers), timers)
      ensures Among(timers.started, timers.popped) && InOrder(timers.started, timers.late)
      ensures forall id :: id in old(conditions.queue) && id in old(conditions.cancelled) ==> id !in conditions.queue
      decreases depth, 9
    {
      ghost var entry := Snap();
      var posted, own, last := DrainPostedTasks(depth);
      ghost var drained := Snap();
      var polled := PollEvents(depth);
      ghost var afterEvents := Snap();
      LoopCompose(entry, drained, afterEvents);
      var met, run := ProcessConditions(depth);
      ghost var checked := Snap();
      LoopCompose(entry, afterEvents, checked);
      var delayed, now, limit := ProcessDelays(depth);
      LoopCompose(entry, checked, Snap());
      NoneIsLeft(entry.timers, timers, now, limit);
      processed := posted + polled + met + delayed;
    }

    /** runUntilIdle.  It ends after the given number of passes, or after one that met an empty queue of posted
        tasks and processed nothing: `last` is the state in which that pass began. */
    method RunUntilIdle(maxIterations: nat, depth: nat) returns (total: nat, passes: nat, ghost last: Loop)
      requires LoopOk(Snap()) && AtRest(Snap())
      modifies this
      ensures LoopReturn(old(Snap()), Snap())
      ensures maxIterations > 0 ==> |tasks.started| >= old(tasks.next)
      ensures passes <= maxIterations
      ensures passes < maxIterations ==>
        LoopReturn(old(Snap()), last) && LoopReturn(last, Snap()) && last.tasks.queue == []
        && DueAreDone(last.timers, timers)
      decreases depth, 10
    {
      total, passes, last := 0, 0, Snap();
      while passes < maxIterations
        invariant LoopReturn(old(Snap()), Snap()) && passes <= maxIterations
        invariant passes > 0 ==> |tasks.started| >= old(tasks.next)
      {
        last := Snap();
        var processed := RunReady(depth);
        LoopCompose(old(Snap()), last, Snap());
        total := total + processed;
        if processed == 0 {
          break;
        }
        passes := passes + 1;
      }
    }
  }
}
