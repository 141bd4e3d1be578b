/** Threads that wait for each other's tasks.

    join and get look at the calling thread only.  A wait that they let pass can still be the last one of
    a circle of threads, each waiting for a task that the next one owns; this module says exactly which
    waits those are. */
module WaitCircles {
  import opened ExecutionScope

  /** Thread v executes task t, or something that t awaits. */
  predicate Holds(s: State, v: nat, t: nat)
    requires Shaped(s)
  {
    v < |s.workers| && Owns(s.parents, s.stamps, s.workers[v].stack, t)
  }

  /** Thread u waits for a task that thread v holds. */
  predicate Blocks(s: State, u: nat, v: nat)
    requires Shaped(s)
  {
    u < |s.workers| && s.workers[u].waiting.Some? && Holds(s, v, s.workers[u].waiting.value)
  }

  /** From u to v by n waits. */
  ghost predicate Leads(s: State, u: nat, v: nat, n: nat)
    requires Shaped(s)
    decreases n
  {
    if n == 0 then u == v else exists m: nat :: Blocks(s, u, m) && Leads(s, m, v, n - 1)
  }

  ghost predicate Circle(s: State)
    requires Shaped(s)
  {
    exists u: nat, n: nat :: n > 0 && Leads(s, u, u, n)
  }

  /** Whoever holds the task that w is about to wait for waits, however indirectly, for w. */
  ghost predicate Closes(s: State, step: Step)
    requires Shaped(s)
  {
    && step.BeginWait? && !Holds(s, step.w, step.t)
    && exists v: nat, n: nat :: Holds(s, v, step.t) && Leads(s, v, step.w, n)
  }

  lemma {:induction false} LeadsCompose(s: State, a: nat, b: nat, c: nat, i: nat, j: nat)
    requires Shaped(s) && Leads(s, a, b, i) && Leads(s, b, c, j)
    ensures Leads(s, a, c, i + j)
    decreases i
  {
    if i > 0 {
      var m: nat :| Blocks(s, a, m) && Leads(s, m, b, i - 1);
      LeadsCompose(s, m, b, c, i - 1, j);
    }
  }

  // ---------------------------------------------------------------- steps that let no wait begin

  predicate Waits(s: State, w: nat) {
    w < |s.workers| && s.workers[w].waiting.Some?
  }

  /** Who waits after the step waited before it, for the same task and with the same stack. */
  predicate NoNewWait(s: State, t: State) {
    && |t.workers| == |s.workers| && Keeps(s, t)
    && forall w :: 0 <= w < |t.workers| && t.workers[w].waiting.Some? ==> t.workers[w] == s.workers[w]
  }

  lemma StepBeginsNoWait(s: State, step: Step)
    requires Inv(s) && Enabled(s, step) && (step.BeginWait? ==> Holds(s, step.w, step.t))
    ensures NoNewWait(s, Apply(s, step))
  {
    StepKeepsInv(s, step);
  }

  lemma HeldBefore(s: State, t: State, v: nat, task: nat)
    requires Inv(s) && NoNewWait(s, t) && Waits(t, v) && Holds(t, v, task)
    ensures Holds(s, v, task)
  {
    var stack := t.workers[v].stack;
    var i :| 0 <= i < |stack| && IsAncestor(t.parents, t.stamps, stack[i], task);
    assert WorkerOk(s, s.workers[v]);
    AncestorsStay(s, t, stack[i], task);
  }

  lemma {:induction false} LedBefore(s: State, t: State, u: nat, v: nat, n: nat)
    requires Inv(s) && NoNewWait(s, t) && Leads(t, u, v, n) && Waits(t, v)
    ensures Leads(s, u, v, n) && (n > 0 ==> Waits(t, u))
    decreases n
  {
    if n > 0 {
      var m: nat :| Blocks(t, u, m) && Leads(t, m, v, n - 1);
      LedBefore(s, t, m, v, n - 1);
      HeldBefore(s, t, m, t.workers[u].waiting.value);
      assert Blocks(s, u, m);
    }
  }

  lemma NoNewCircle(s: State, t: State)
    requires Inv(s) && NoNewWait(s, t) && Circle(t)
    ensures Circle(s)
  {
    var u: nat, n: nat :| n > 0 && Leads(t, u, u, n);
    var m: nat :| Blocks(t, u, m) && Leads(t, m, u, n - 1);
    LedBefore(s, t, u, u, n);
  }

  // ---------------------------------------------------------------- a wait that begins

  /** Only thread w has changed: it was free, and now waits for `task`. */
  predicate BeginsToWait(s: State, t: State, w: nat, task: nat) {
    Shaped(s) && Free(s, w) && t == s.(workers := s.workers[w := s.workers[w].(waiting := Some(task))])
  }

  lemma SameHolders(s: State, t: State, w: nat, task: nat, v: nat, other: nat)
    requires BeginsToWait(s, t, w, task)
    ensures Shaped(t) && Holds(t, v, other) == Holds(s, v, other)
  {
    assert v < |s.workers| ==> t.workers[v].stack == s.workers[v].stack;
  }

  lemma SameBlocks(s: State, t: State, w: nat, task: nat, u: nat, v: nat)
    requires BeginsToWait(s, t, w, task)
    ensures Shaped(t) && (Blocks(t, u, v) <==> if u == w then Holds(s, v, task) else Blocks(s, u, v))
  {
    SameHolders(s, t, w, task, v, if u == w then task else if Waits(s, u) then s.workers[u].waiting.value else 0);
  }

  lemma {:induction false} StillLeads(s: State, t: State, w: nat, task: nat, u: nat, v: nat, n: nat)
    requires BeginsToWait(s, t, w, task) && Leads(s, u, v, n)
    ensures Shaped(t) && Leads(t, u, v, n)
    decreases n
  {
    SameHolders(s, t, w, task, 0, 0);
    if n > 0 {
      var m: nat :| Blocks(s, u, m) && Leads(s, m, v, n - 1);
      SameBlocks(s, t, w, task, u, m);
      StillLeads(s, t, w, task, m, v, n - 1);
    }
  }

  /** A way through the new wait: to w, by the wait, and on from a holder of the task. */
  datatype Way = Old | Through(before: nat, holder: nat, after: nat)

  ghost predicate Fits(s: State, w: nat, task: nat, a: nat, b: nat, n: nat, way: Way)
    requires Shaped(s)
  {
    match way
    case Old => Leads(s, a, b, n)
    case Through(i, v, j) => Leads(s, a, w, i) && Holds(s, v, task) && Leads(s, v, b, j)
  }

  lemma {:induction false} Split(s: State, t: State, w: nat, task: nat, a: nat, b: nat, n: nat) returns (way: Way)
    requires BeginsToWait(s, t, w, task) && Shaped(t) && Leads(t, a, b, n)
    ensures Fits(s, w, task, a, b, n, way)
    decreases n
  {
    if n == 0 {
      way := Old;
    } else {
      var m: nat :| Blocks(t, a, m) && Leads(t, m, b, n - 1);
      way := Split(s, t, w, task, m, b, n - 1);
      SameBlocks(s, t, w, task, a, m);
      if a == w {
        way := if way.Old? then Through(0, m, n - 1) else way.(before := 0);
      } else if way.Through? {
        way := way.(before := way.before + 1);
      }
    }
  }

  lemma BeginCloses(s: State, t: State, w: nat, task: nat)
    requires BeginsToWait(s, t, w, task) && Shaped(t) && !Circle(s) && !Holds(s, w, task)
    ensures Circle(t) <==> Closes(s, BeginWait(w, task))
  {
    if Circle(t) {
      var u: nat, n: nat :| n > 0 && Leads(t, u, u, n);
      var way := Split(s, t, w, task, u, u, n);
      assert way.Through?;
      LeadsCompose(s, way.holder, u, w, way.after, way.before);
    }
    if Closes(s, BeginWait(w, task)) {
      var v: nat, n: nat :| Holds(s, v, task) && Leads(s, v, w, n);
      StillLeads(s, t, w, task, v, w, n);
      SameBlocks(s, t, w, task, w, v);
      assert Leads(t, w, w, n + 1);
    }
  }

  // ---------------------------------------------------------------- theorems

  /** The step that closes the first circle is a wait for a task whose holder already waits, directly or
      through others, for the calling thread; every such wait closes one. */
  lemma CircleClosesExactlyWhen(workers: nat, steps: seq<Step>, s: State, step: Step)
    requires Run(workers, steps) == Some(s) && Enabled(s, step) && Shaped(s) && !Circle(s)
    ensures Shaped(Apply(s, step)) && (Circle(Apply(s, step)) <==> Closes(s, step))
  {
    RunKeepsInv(workers, steps, s);
    StepKeepsInv(s, step);
    if step.BeginWait? && !Holds(s, step.w, step.t) {
      BeginCloses(s, Apply(s, step), step.w, step.t);
    } else {
      StepBeginsNoWait(s, step);
      if Circle(Apply(s, step)) {
        NoNewCircle(s, Apply(s, step));
      }
    }
  }

  /** No step of the run closes a circle. */
  ghost predicate Careful(workers: nat, steps: seq<Step>)
    requires Run(workers, steps).Some?
  {
    steps != [] ==>
      var before := steps[..|steps| - 1];
      Careful(workers, before)
      && (Shaped(Run(workers, before).value) ==> !Closes(Run(workers, before).value, steps[|steps| - 1]))
  }

  /** No state of the run has a circle. */
  ghost predicate CircleFree(workers: nat, steps: seq<Step>)
    requires Run(workers, steps).Some?
  {
    && (Shaped(Run(workers, steps).value) ==> !Circle(Run(workers, steps).value))
    && (steps != [] ==> CircleFree(workers, steps[..|steps| - 1]))
  }

  lemma NobodyWaitsYet(workers: nat)
    ensures Shaped(Init(workers)) && !Circle(Init(workers))
  {
  }

  /** Threads never come to wait for each other in a run if and only if each wait in it is begun at a time at
      which no holder of its task waits for the calling thread. */
  lemma {:induction false} NoCircleExactlyWhenCareful(workers: nat, steps: seq<Step>)
    requires Run(workers, steps).Some?
    ensures CircleFree(workers, steps) <==> Careful(workers, steps)
  {
    RunKeepsInv(workers, steps, Run(workers, steps).value);
    if steps == [] {
      NobodyWaitsYet(workers);
    } else {
      var before := steps[..|steps| - 1];
      var s := Run(workers, before).value;
      NoCircleExactlyWhenCareful(workers, before);
      RunKeepsInv(workers, before, s);
      if !Circle(s) {
        CircleClosesExactlyWhen(workers, before, s, steps[|steps| - 1]);
      }
    }
  }
}
