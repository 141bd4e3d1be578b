/** When timers of veventloop.h start in the order of due time and id, and when they cannot be relied on to.

    scheduleAfter takes its id, reads the clock and inserts the timer in three separate steps.  A timer
    taken out of the queue in between may belong behind the one still on its way. */
module TimerOrder {
  import opened LoopQueues

  /** The state after `steps` from t, if each of them was enabled in turn. */
  function Run(t: Timers, steps: seq<TimerStep>): Option<Timers>
  {
    if steps == [] then Some(t)
    else
      match Run(t, steps[..|steps| - 1])
      case None => None
      case Some(s) =>
        var step := steps[|steps| - 1];
        if TimerEnabled(s, step) then Some(TimerApply(s, step)) else None
  }

  lemma {:induction false} RunKeeps(t: Timers, steps: seq<TimerStep>)
    requires TimersOk(t) && Run(t, steps).Some?
    ensures TimersStep(t, Run(t, steps).value)
  {
    if steps != [] {
      var before := steps[..|steps| - 1];
      RunKeeps(t, before);
      TimerStepKeeps(Run(t, before).value, steps[|steps| - 1]);
      TimersCompose(t, Run(t, before).value, Run(t, steps).value);
    }
  }

  lemma {:induction false} RunAppend(t: Timers, a: seq<TimerStep>, b: seq<TimerStep>)
    requires Run(t, a).Some? && Run(Run(t, a).value, b).Some?
    ensures Run(t, a + b) == Run(Run(t, a).value, b)
  {
    if b == [] {
      assert a + b == a;
    } else {
      assert (a + b)[..|a + b| - 1] == a + b[..|b| - 1];
      RunAppend(t, a, b[..|b| - 1]);
    }
  }

  // ---------------------------------------------------------------- being overtaken

  /** The call that holds `id` can still lose to j: it has a due time before j, or may yet read the clock while
      that shows j's own due time. */
  predicate CanLose(t: Timers, id: nat, j: Key) {
    id in t.flights &&
    match t.flights[id]
    case Some(due) => Before(Key(due, id), j)
    case None => j.due == t.clock && id < j.id
  }

  /** Timer `id`, waiting or on its way, belongs before j or may come to. */
  predicate Exposed(t: Timers, id: nat, j: Key) {
    id !in t.cancelled && (CanLose(t, id, j) || exists k :: k in t.queue && k.id == id && Before(k, j))
  }

  /** Some continuation starts timer `id` although it belongs before j. */
  ghost predicate CanStartBehind(t: Timers, id: nat, j: Key) {
    exists steps: seq<TimerStep>, k: Key :: StartsBehind(t, steps, id, j, k)
  }

  predicate StartsBehind(t: Timers, steps: seq<TimerStep>, id: nat, j: Key, k: Key) {
    && k.id == id && Before(k, j)
    && Run(t, steps).Some? && k in Run(t, steps).value.started
  }

  // ---------------------------------------------------------------- if it happens, it was exposed

  /** Where a key that is seen later may come from. */
  predicate ComesFrom(t: Timers, k: Key) {
    || k in t.queue
    || (k.id in t.flights && (t.flights[k.id] == Some(k.due) || (t.flights[k.id].None? && t.clock <= k.due)))
    || (t.nextId <= k.id && t.clock <= k.due)
  }

  ghost predicate Traced(t: Timers, s: Timers) {
    && (forall k: Key :: ComesFrom(s, k) ==> ComesFrom(t, k))
    && (forall k :: k in s.popped ==> k in t.popped || ComesFrom(t, k))
  }

  lemma OriginOfOne(s: Timers, step: TimerStep, k: Key)
    requires TimersOk(s) && TimerEnabled(s, step) && ComesFrom(TimerApply(s, step), k)
    ensures ComesFrom(s, k)
  {
    match step {
      case Inserts(id) => EmplaceKeeps(s.queue, Key(s.flights[id].value, id));
      case Extracts(key) => WithoutKeeps(s.queue, key);
      case other =>
    }
  }

  lemma TracedStep(t: Timers, s: Timers, step: TimerStep)
    requires Traced(t, s) && TimersOk(s) && TimerEnabled(s, step)
    ensures Traced(t, TimerApply(s, step))
  {
    var u := TimerApply(s, step);
    forall k: Key | ComesFrom(u, k)
      ensures ComesFrom(t, k)
    {
      OriginOfOne(s, step, k);
    }
    forall k | k in u.popped
      ensures k in t.popped || ComesFrom(t, k)
    {
      assert k in s.popped || (step.Pops? && k == s.queue[0]);
    }
  }

  lemma {:induction false} RunTraced(t: Timers, steps: seq<TimerStep>)
    requires TimersOk(t) && Run(t, steps).Some?
    ensures Traced(t, Run(t, steps).value)
  {
    if steps != [] {
      var before := steps[..|steps| - 1];
      RunTraced(t, before);
      RunKeeps(t, before);
      TracedStep(t, Run(t, before).value, steps[|steps| - 1]);
    }
  }

  /** What is open has not been popped. */
  lemma OpenIsNotPopped(t: Timers, k: Key)
    requires QueueOk(t) && PoppedOk(t) && k.id in OpenIds(t)
    ensures k !in t.popped
  {
  }

  lemma NewlyStarted(a: Timers, b: Timers, k: Key)
    requires TimersLater(a, b) && k in b.started && k !in a.started
    ensures k.id !in a.cancelled
  {
    var i :| 0 <= i < |b.started| && b.started[i] == k;
    PrefixMember(a.started, b.started, i);
  }

  lemma PrefixMember(a: seq<Key>, b: seq<Key>, i: nat)
    requires a <= b && i < |b|
    ensures i < |a| ==> b[i] in a
  {
    assert i < |a| ==> a[i] == b[i];
  }

  lemma BehindWasExposed(t: Timers, steps: seq<TimerStep>, id: nat, j: Key, k: Key)
    requires TimersOk(t) && id in OpenIds(t) && j in t.popped && StartsBehind(t, steps, id, j, k)
    ensures Exposed(t, id, j)
  {
    var s := Run(t, steps).value;
    RunKeeps(t, steps);
    RunTraced(t, steps);
    AmongMembers(s.started, s.popped);
    OpenIsNotPopped(t, k);
    assert ComesFrom(t, k);
    AmongMembers(t.started, t.popped);
    NewlyStarted(t, s, k);
  }

  // ---------------------------------------------------------------- if it is exposed, it can happen

  /** One more step of a run that is being built. */
  lemma Next(t: Timers, steps: seq<TimerStep>, s: Timers, step: TimerStep) returns (steps': seq<TimerStep>, s': Timers)
    requires Run(t, steps) == Some(s) && TimerEnabled(s, step)
    ensures steps' == steps + [step] && s' == TimerApply(s, step) && Run(t, steps') == Some(s')
  {
    steps', s' := steps + [step], TimerApply(s, step);
    assert steps'[..|steps'| - 1] == steps;
  }

  lemma Step(t: Timers, steps: seq<TimerStep>, s: Timers, step: TimerStep) returns (steps': seq<TimerStep>, s': Timers)
    requires TimersOk(t) && Run(t, steps) == Some(s) && TimerEnabled(s, step)
    ensures steps' == steps + [step] && s' == TimerApply(s, step) && Run(t, steps') == Some(s')
    ensures TimersOk(s')
  {
    steps', s' := Next(t, steps, s, step);
    RunKeeps(t, steps');
  }

  /** If a popped timer is waiting to start, it does. */
  lemma Resolve(t: Timers) returns (steps: seq<TimerStep>, s: Timers)
    requires TimersOk(t)
    ensures Run(t, steps) == Some(s) && TimersOk(s) && Resolved(s) && s == t.(started := s.started)
  {
    steps, s := [], t;
    if !Resolved(t) {
      steps, s := Step(t, steps, s, Starts);
    }
  }

  /** The first timer of the queue can start. */
  lemma FirstCanStart(t: Timers, steps: seq<TimerStep>, s: Timers) returns (steps': seq<TimerStep>)
    requires TimersOk(t) && Run(t, steps) == Some(s) && TimersOk(s) && TimerEnabled(s, Pops)
    requires s.queue[0].id !in s.cancelled
    ensures Run(t, steps').Some? && s.queue[0] in Run(t, steps').value.started
  {
    var k, u := s.queue[0], s;
    assert k in s.queue;
    OpenIsNotPopped(s, k);
    AmongMembers(s.started, s.popped);
    steps', u := Step(t, steps, s, Pops);
    steps', u := Step(t, steps', u, Starts);
    assert u.started[|u.started| - 1] == k;
  }

  /** A due timer that is queued can start: those before it are popped first. */
  lemma {:induction false} QueuedCanStart(t: Timers, k: Key) returns (steps: seq<TimerStep>)
    requires TimersOk(t) && k in t.queue && k.due <= t.clock && k.id !in t.cancelled
    ensures Run(t, steps).Some? && k in Run(t, steps).value.started
    decreases |t.queue|
  {
    var s;
    steps, s := Resolve(t);
    assert k == s.queue[0] || Before(s.queue[0], k);
    if k == s.queue[0] {
      steps := FirstCanStart(t, steps, s);
    } else {
      steps, s := Step(t, steps, s, Pops);
      var more := QueuedCanStart(s, k);
      RunAppend(t, steps, more);
      steps := steps + more;
    }
  }

  /** One that is on its way can arrive. */
  lemma FlightCanArrive(t: Timers, id: nat, j: Key) returns (steps: seq<TimerStep>, s: Timers, k: Key)
    requires TimersOk(t) && CanLose(t, id, j)
    ensures Run(t, steps) == Some(s) && TimersOk(s) && s.cancelled == t.cancelled && s.clock == t.clock
    ensures k in s.queue && k.id == id && Before(k, j)
  {
    steps, s := [], t;
    if t.flights[id].None? {
      steps, s := Step(t, steps, s, Dates(id, 0));
    }
    k := Key(s.flights[id].value, id);
    EmplaceKeeps(s.queue, k);
    steps, s := Step(t, steps, s, Inserts(id));
  }

  lemma ExposedCanStartBehind(t: Timers, id: nat, j: Key) returns (steps: seq<TimerStep>, k: Key)
    requires TimersOk(t) && j in t.popped && Exposed(t, id, j)
    ensures StartsBehind(t, steps, id, j, k)
  {
    if CanLose(t, id, j) {
      var s, more;
      steps, s, k := FlightCanArrive(t, id, j);
      more := QueuedCanStart(s, k);
      RunAppend(t, steps, more);
      steps := steps + more;
    } else {
      k :| k in t.queue && k.id == id && Before(k, j);
      steps := QueuedCanStart(t, k);
    }
  }

  /** A timer that is waiting or still being scheduled can start behind its turn, after the popped timer j that
      it belongs before, if and only if it has a due time before j, or has none yet while the clock still shows
      the due time of j and j took its id later. */
  lemma StartsBehindExactlyWhenExposed(t: Timers, id: nat, j: Key)
    requires TimersOk(t) && id in OpenIds(t) && j in t.popped
    ensures CanStartBehind(t, id, j) <==> Exposed(t, id, j)
  {
    if CanStartBehind(t, id, j) {
      var steps: seq<TimerStep>, k: Key :| StartsBehind(t, steps, id, j, k);
      BehindWasExposed(t, steps, id, j, k);
    }
    if Exposed(t, id, j) {
      var steps, k := ExposedCanStartBehind(t, id, j);
    }
  }

  // ---------------------------------------------------------------- whole histories

  /** No call under way can lose to the timer that is about to be popped. */
  predicate SafeToPop(t: Timers) {
    t.queue != [] ==> forall id :: id in t.flights ==> !CanLose(t, id, t.queue[0])
  }

  /** Whenever a timer was popped in this history, no scheduleAfter under way could still lose to it. */
  predicate Careful(steps: seq<TimerStep>)
    requires Run(NoTimers(), steps).Some?
  {
    steps != [] ==>
      var before := steps[..|steps| - 1];
      Careful(before) && (steps[|steps| - 1].Pops? ==> SafeToPop(Run(NoTimers(), before).value))
  }

  /** No continuation starts an open timer behind one already popped. */
  ghost predicate Secure(t: Timers) {
    forall id, j :: id in OpenIds(t) && j in t.popped ==> !CanStartBehind(t, id, j)
  }

  ghost predicate Unexposed(t: Timers) {
    forall id, j :: id in OpenIds(t) && j in t.popped ==> !Exposed(t, id, j)
  }

  lemma SecureIsUnexposed(t: Timers)
    requires TimersOk(t)
    ensures Secure(t) <==> Unexposed(t)
  {
    forall id, j | id in OpenIds(t) && j in t.popped
      ensures CanStartBehind(t, id, j) <==> Exposed(t, id, j)
    {
      StartsBehindExactlyWhenExposed(t, id, j);
    }
  }

  lemma NothingYet()
    ensures TimersOk(NoTimers()) && Unexposed(NoTimers())
  {
  }

  /** No step but a pop exposes a timer. */
  lemma ExposedBefore(s: Timers, step: TimerStep, id: nat, j: Key)
    requires TimersOk(s) && TimerEnabled(s, step) && Exposed(TimerApply(s, step), id, j) && j in s.popped
    ensures Exposed(s, id, j) && id in OpenIds(s)
  {
    match step {
      case Inserts(id') => EmplaceKeeps(s.queue, Key(s.flights[id'].value, id'));
      case Extracts(key) => WithoutKeeps(s.queue, key);
      case other =>
    }
  }

  /** A pop exposes exactly the calls that can lose to it. */
  lemma ExposedByPop(s: Timers, id: nat)
    requires TimersOk(s) && TimerEnabled(s, Pops)
    ensures Exposed(Pop(s), id, s.queue[0]) <==> CanLose(s, id, s.queue[0])
  {
    assert forall k :: k in s.queue[1..] ==> Before(s.queue[0], k);
  }

  lemma StepKeepsUnexposed(s: Timers, step: TimerStep)
    requires TimersOk(s) && TimerEnabled(s, step) && Unexposed(s)
    requires step.Pops? ==> SafeToPop(s)
    ensures Unexposed(TimerApply(s, step))
  {
    var u := TimerApply(s, step);
    forall id, j | id in OpenIds(u) && j in u.popped
      ensures !Exposed(u, id, j)
    {
      if Exposed(u, id, j) {
        if j in s.popped {
          ExposedBefore(s, step, id, j);
        } else {
          ExposedByPop(s, id);
        }
      }
    }
  }

  /** All along the history, no continuation could start an open timer behind one already popped. */
  ghost predicate AlwaysSecure(steps: seq<TimerStep>)
    requires Run(NoTimers(), steps).Some?
  {
    Secure(Run(NoTimers(), steps).value) && (steps != [] ==> AlwaysSecure(steps[..|steps| - 1]))
  }

  lemma UnsafePopExposes(s: Timers)
    requires TimersOk(s) && TimerEnabled(s, Pops) && !SafeToPop(s)
    ensures !Unexposed(Pop(s))
  {
    var id :| id in s.flights && CanLose(s, id, s.queue[0]);
    ExposedByPop(s, id);
    assert id in OpenIds(Pop(s)) && s.queue[0] in Pop(s).popped;
  }

  /** At no time in a history could a timer come to start behind its turn, if and only if each timer was popped
      at a time at which no scheduleAfter under way could still lose to it. */
  lemma {:induction false} SecureExactlyWhenCareful(steps: seq<TimerStep>)
    requires Run(NoTimers(), steps).Some?
    ensures AlwaysSecure(steps) <==> Careful(steps)
  {
    var t := Run(NoTimers(), steps).value;
    NothingYet();
    RunKeeps(NoTimers(), steps);
    SecureIsUnexposed(t);
    if steps != [] {
      var before, step := steps[..|steps| - 1], steps[|steps| - 1];
      var s := Run(NoTimers(), before).value;
      RunKeeps(NoTimers(), before);
      SecureIsUnexposed(s);
      SecureExactlyWhenCareful(before);
      if AlwaysSecure(before) {
        if step.Pops? && !SafeToPop(s) {
          UnsafePopExposes(s);
        } else {
          StepKeepsUnexposed(s, step);
        }
      }
    }
  }

  lemma {:induction false} CarefulLeavesNoneLate(steps: seq<TimerStep>)
    requires Run(NoTimers(), steps).Some? && Careful(steps)
    ensures Run(NoTimers(), steps).value.late == {} && Unexposed(Run(NoTimers(), steps).value)
  {
    NothingYet();
    if steps != [] {
      var before, step := steps[..|steps| - 1], steps[|steps| - 1];
      var s := Run(NoTimers(), before).value;
      CarefulLeavesNoneLate(before);
      RunKeeps(NoTimers(), before);
      StepKeepsUnexposed(s, step);
      if step.Inserts? {
        InsertIsOnTime(s, step.id);
      }
    }
  }

  lemma InsertIsOnTime(s: Timers, id: nat)
    requires TimersOk(s) && Unexposed(s) && TimerEnabled(s, Inserts(id))
    ensures Insert(s, id).late == s.late
  {
    var k := Key(s.flights[id].value, id);
    if Overtaken(s.popped, k) {
      var i :| 0 <= i < |s.popped| && Before(k, s.popped[i]);
      assert id in OpenIds(s) && s.popped[i] in s.popped && Exposed(s, id, s.popped[i]);
    }
  }

  predicate Ascending(keys: seq<Key>) {
    forall i, j :: 0 <= i < j < |keys| ==> Before(keys[i], keys[j])
  }

  /** In a careful history all timers leave the queue, and start, in the order of due time and id. */
  lemma CarefulHistoriesStartInOrder(steps: seq<TimerStep>)
    requires Run(NoTimers(), steps).Some? && Careful(steps)
    ensures Ascending(Run(NoTimers(), steps).value.started) && Ascending(Run(NoTimers(), steps).value.popped)
  {
    NothingYet();
    RunKeeps(NoTimers(), steps);
    CarefulLeavesNoneLate(steps);
  }

  /** What a caller can see to: no timer is popped while a scheduleAfter is under way. */
  predicate NoOverlap(steps: seq<TimerStep>)
    requires Run(NoTimers(), steps).Some?
  {
    steps != [] ==>
      var before := steps[..|steps| - 1];
      NoOverlap(before) && (steps[|steps| - 1].Pops? ==> Run(NoTimers(), before).value.flights == map[])
  }

  lemma {:induction false} NoOverlapIsCareful(steps: seq<TimerStep>)
    requires Run(NoTimers(), steps).Some? && NoOverlap(steps)
    ensures Careful(steps)
  {
    if steps != [] {
      NoOverlapIsCareful(steps[..|steps| - 1]);
    }
  }

  lemma NotOvertaken(popped: seq<Key>, j: nat)
    requires Ascending(popped) && j < |popped|
    ensures !Overtaken(popped[..j], popped[j])
  {
  }

  /** The timers of any history left the queue in order if and only if none of them was late. */
  lemma PopsAscendExactlyWhenNoneIsLate(t: Timers)
    requires TimersOk(t)
    ensures Ascending(t.popped) <==> forall k :: k in t.popped ==> k.id !in t.late
  {
    if Ascending(t.popped) {
      forall j | 0 <= j < |t.popped|
        ensures t.popped[j].id !in t.late
      {
        NotOvertaken(t.popped, j);
      }
    }
  }

  lemma TwoCalls() returns (steps: seq<TimerStep>, t: Timers)
    ensures Run(NoTimers(), steps) == Some(t)
    ensures t.flights == map[1 := None, 2 := None] && t.clock == 0 && t.queue == [] && t.popped == []
  {
    steps, t := Next(NoTimers(), [], NoTimers(), Reserves);
    steps, t := Next(NoTimers(), steps, t, Reserves);
  }

  lemma OneOfTwoArrives() returns (steps: seq<TimerStep>, t: Timers)
    ensures Run(NoTimers(), steps) == Some(t)
    ensures t.flights == map[1 := None] && t.clock == 0 && t.queue == [Key(0, 2)] && t.popped == []
  {
    steps, t := TwoCalls();
    steps, t := Next(NoTimers(), steps, t, Dates(2, 0));
    steps, t := Next(NoTimers(), steps, t, Inserts(2));
  }

  /** A history that is not careful: two calls take their ids, and the second one's timer is popped before the
      first one has read the clock. */
  lemma CarelessHistory() returns (steps: seq<TimerStep>)
    ensures Run(NoTimers(), steps).Some? && !Careful(steps)
  {
    var before, s := OneOfTwoArrives();
    assert CanLose(s, 1, s.queue[0]);
    steps := before + [Pops];
    assert steps[..|steps| - 1] == before;
  }

  // ---------------------------------------------------------------- due times

  /** Wherever the timer `id` is, it has this due time. */
  ghost predicate IsDueAt(t: Timers, id: nat, due: nat) {
    && id < t.nextId
    && (id in t.flights ==> t.flights[id] == Some(due))
    && (forall k :: (k in t.queue || k in t.popped || k in t.started) && k.id == id ==> k.due == due)
  }

  lemma DueTimeStays(s: Timers, step: TimerStep, id: nat, due: nat)
    requires TimersOk(s) && TimerEnabled(s, step) && IsDueAt(s, id, due)
    ensures IsDueAt(TimerApply(s, step), id, due)
  {
    match step {
      case Inserts(id') => EmplaceKeeps(s.queue, Key(s.flights[id'].value, id'));
      case Extracts(key) => WithoutKeeps(s.queue, key);
      case Starts => assert s.popped[|s.popped| - 1] in s.popped;
      case other =>
    }
  }

  lemma DatedIsDue(s: Timers, id: nat, milliseconds: int)
    requires TimersOk(s) && TimerEnabled(s, Dates(id, milliseconds))
    ensures IsDueAt(TimerApply(s, Dates(id, milliseconds)), id, DueAfter(s.clock, milliseconds))
  {
    AmongMembers(s.started, s.popped);
    assert id in s.flights;
  }

  function DueAfter(clock: nat, milliseconds: int): nat {
    if milliseconds <= 0 then clock else clock + milliseconds
  }

  lemma DueAlongStep(steps: seq<TimerStep>, id: nat, due: nat)
    requires steps != [] && Run(NoTimers(), steps).Some?
    requires IsDueAt(Run(NoTimers(), steps[..|steps| - 1]).value, id, due)
    ensures IsDueAt(Run(NoTimers(), steps).value, id, due)
  {
    NothingYet();
    RunKeeps(NoTimers(), steps[..|steps| - 1]);
    DueTimeStays(Run(NoTimers(), steps[..|steps| - 1]).value, steps[|steps| - 1], id, due);
  }

  lemma DueFromStep(steps: seq<TimerStep>, id: nat, milliseconds: int)
    requires steps != [] && Run(NoTimers(), steps).Some? && steps[|steps| - 1] == Dates(id, milliseconds)
    ensures IsDueAt(Run(NoTimers(), steps).value, id,
                    DueAfter(Run(NoTimers(), steps[..|steps| - 1]).value.clock, milliseconds))
  {
    NothingYet();
    RunKeeps(NoTimers(), steps[..|steps| - 1]);
    DatedIsDue(Run(NoTimers(), steps[..|steps| - 1]).value, id, milliseconds);
  }

  /** A timer keeps the due time that it was scheduled with: the clock that its scheduleAfter read, plus the delay if
      that is positive. */
  lemma {:induction false} DelayIsKept(steps: seq<TimerStep>, n: nat, id: nat, milliseconds: int)
    requires Run(NoTimers(), steps).Some? && n < |steps| && steps[n] == Dates(id, milliseconds)
    ensures Run(NoTimers(), steps[..n]).Some?
    ensures IsDueAt(Run(NoTimers(), steps).value, id, DueAfter(Run(NoTimers(), steps[..n]).value.clock, milliseconds))
    decreases |steps|
  {
    var before := steps[..|steps| - 1];
    if n == |steps| - 1 {
      DueFromStep(steps, id, milliseconds);
    } else {
      assert before[..n] == steps[..n];
      DelayIsKept(before, n, id, milliseconds);
      DueAlongStep(steps, id, DueAfter(Run(NoTimers(), steps[..n]).value.clock, milliseconds));
    }
  }

  /** No timer leaves the queue, nor starts, before it is due. */
  lemma NothingStartsEarly(steps: seq<TimerStep>, k: Key)
    requires Run(NoTimers(), steps).Some?
    requires k in Run(NoTimers(), steps).value.popped || k in Run(NoTimers(), steps).value.started
    ensures k.due <= Run(NoTimers(), steps).value.clock
  {
    NothingYet();
    RunKeeps(NoTimers(), steps);
    var t := Run(NoTimers(), steps).value;
    AmongMembers(t.started, t.popped);
  }

  /** So a timer that has started did so at least its delay after its scheduleAfter read the clock. */
  lemma DelayIsRespected(steps: seq<TimerStep>, n: nat, id: nat, milliseconds: int, k: Key)
    requires Run(NoTimers(), steps).Some? && n < |steps| && steps[n] == Dates(id, milliseconds)
    requires k in Run(NoTimers(), steps).value.started && k.id == id
    ensures Run(NoTimers(), steps[..n]).Some?
    ensures Run(NoTimers(), steps[..n]).value.clock + milliseconds <= Run(NoTimers(), steps).value.clock
    ensures Run(NoTimers(), steps[..n]).value.clock <= Run(NoTimers(), steps).value.clock
  {
    DelayIsKept(steps, n, id, milliseconds);
    NothingStartsEarly(steps, k);
  }
}
