/** execution_scope of vtask.h: the stack of tasks that a thread is executing, how it is restored, and the
    refusal of waits that could never end. */
module ExecutionScope {

  datatype Option<+T> = None | Some(value: T)

  // ---------------------------------------------------------------- await-ancestors

  /** parents[t] is the task awaiting t, if there is one. */
  type Parents = seq<Option<nat>>

  /** `stamps` orders tasks by the time at which they were first resumed; a parent was resumed before its
      child was given to it. */
  predicate Acyclic(parents: Parents, stamps: seq<nat>) {
    && |parents| == |stamps|
    && forall t :: 0 <= t < |parents| && parents[t].Some? ==>
         parents[t].value < |parents| && stamps[parents[t].value] < stamps[t]
  }

  /** target is t itself or awaits it, directly or indirectly. */
  predicate IsAncestor(parents: Parents, stamps: seq<nat>, t: nat, target: nat)
    requires Acyclic(parents, stamps) && t < |parents|
    decreases stamps[t]
  {
    t == target || (parents[t].Some? && IsAncestor(parents, stamps, parents[t].value, target))
  }

  lemma {:induction false} AncestorIsOlder(parents: Parents, stamps: seq<nat>, t: nat, target: nat)
    requires Acyclic(parents, stamps) && t < |parents| && IsAncestor(parents, stamps, t, target)
    ensures target < |parents| && stamps[target] <= stamps[t]
    decreases stamps[t]
  {
    if t != target {
      AncestorIsOlder(parents, stamps, parents[t].value, target);
    }
  }

  /** Nobody awaits itself, however indirectly. */
  lemma NoSelfAwait(parents: Parents, stamps: seq<nat>, t: nat)
    requires Acyclic(parents, stamps) && t < |parents| && parents[t].Some?
    ensures !IsAncestor(parents, stamps, parents[t].value, t)
  {
    if IsAncestor(parents, stamps, parents[t].value, t) {
      AncestorIsOlder(parents, stamps, parents[t].value, t);
    }
  }

  /** target is on the stack or awaits something on it. */
  predicate Owns(parents: Parents, stamps: seq<nat>, stack: seq<nat>, target: nat)
    requires Acyclic(parents, stamps) && forall i :: 0 <= i < |stack| ==> stack[i] < |parents|
  {
    exists i :: 0 <= i < |stack| && IsAncestor(parents, stamps, stack[i], target)
  }

  /** The inner loop of ownsCurrentExecution. */
  method WalkUp(parents: Parents, ghost stamps: seq<nat>, start: nat, target: nat) returns (found: bool)
    requires Acyclic(parents, stamps) && start < |parents|
    ensures found == IsAncestor(parents, stamps, start, target)
  {
    var current: Option<nat> := Some(start);
    while current.Some?
      invariant current.Some? ==> current.value < |parents|
      invariant IsAncestor(parents, stamps, start, target)
            <==> current.Some? && IsAncestor(parents, stamps, current.value, target)
      decreases if current.Some? then stamps[current.value] + 1 else 0
    {
      if current.value == target {
        return true;
      }
      current := parents[current.value];
    }
    return false;
  }

  // ---------------------------------------------------------------- one thread's scopes

  class Scope {
    const task: nat
    const previous: Scope?
    const previousTask: Option<nat>
    var active: bool

    constructor (task: nat, previous: Scope?, previousTask: Option<nat>)
      ensures this.task == task && this.previous == previous && this.previousTask == previousTask && active
    {
      this.task, this.previous, this.previousTask, active := task, previous, previousTask, true;
    }
  }

  function TasksOf(stack: seq<Scope>): (r: seq<nat>)
    ensures |r| == |stack|
    ensures forall i :: 0 <= i < |stack| ==> r[i] == stack[i].task
  {
    seq(|stack|, i requires 0 <= i < |stack| => stack[i].task)
  }

  function TopOf(stack: seq<Scope>): Scope? {
    if stack == [] then null else stack[|stack| - 1]
  }

  function TaskOf(stack: seq<Scope>): Option<nat> {
    if stack == [] then None else Some(stack[|stack| - 1].task)
  }

  /** Each scope remembers what was current when it was entered. */
  predicate Linked(stack: seq<Scope>) {
    stack != [] ==>
      var rest := stack[..|stack| - 1];
      Linked(rest) && stack[|stack| - 1].previous == TopOf(rest) && stack[|stack| - 1].previousTask == TaskOf(rest)
  }

  /** The thread-local variables currentTask and currentExecution; `stack` is what they stand for. */
  class Thread {
    var currentTask: Option<nat>
    var currentExecution: Scope?
    ghost var stack: seq<Scope>

    ghost predicate Valid()
      reads this
    {
      currentExecution == TopOf(stack) && currentTask == TaskOf(stack) && Linked(stack)
    }

    /** The tasks on the stack, innermost last. */
    ghost function Tasks(): (r: seq<nat>)
      reads this
      ensures |r| == |stack|
      ensures forall i :: 0 <= i < |stack| ==> r[i] == stack[i].task
    {
      TasksOf(stack)
    }

    constructor ()
      ensures Valid() && stack == []
    {
      currentTask, currentExecution, stack := None, null, [];
    }

    /** The constructor of execution_scope. */
    method Enter(task: nat) returns (s: Scope)
      requires Valid()
      modifies this
      ensures Valid() && fresh(s) && s.active && s.task == task && stack == old(stack) + [s]
    {
      s := new Scope(task, currentExecution, currentTask);
      currentTask := Some(task);
      currentExecution := s;
      stack := stack + [s];
      assert stack[..|stack| - 1] == old(stack);
    }

    /** release, and the destructor: the second of them does nothing. */
    method Release(s: Scope)
      requires Valid() && (s.active ==> stack != [] && s == stack[|stack| - 1])
      modifies this, s`active
      ensures Valid() && !s.active
      ensures stack == if old(s.active) then old(stack)[..|old(stack)| - 1] else old(stack)
    {
      if s.active {
        s.active := false;
        currentTask := s.previousTask;
        currentExecution := s.previous;
        stack := stack[..|stack| - 1];
      }
    }

    /** Whatever runs inside a scope, and however deeply that nests further scopes, resumes and worker calls,
        the thread is left as it was found. */
    method RunInScope(task: nat, depth: nat)
      requires Valid()
      modifies this
      ensures Valid() && stack == old(stack)
      ensures currentTask == old(currentTask) && currentExecution == old(currentExecution)
      decreases depth
    {
      var s := Enter(task);
      var calls: nat :| true;
      for i := 0 to calls
        invariant Valid() && s.active && fresh(s) && stack == old(stack) + [s]
      {
        var inner: nat := *;
        if depth > 0 {
          RunInScope(inner, depth - 1);
        }
      }
      Release(s);
      Release(s);
    }

    /** ownsCurrentExecution: for each scope of this thread, up the await chain.  join and get wait for the target
        if and only if the answer is no. */
    method OwnsCurrentExecution(parents: Parents, ghost stamps: seq<nat>, target: nat) returns (owns: bool)
      requires Valid() && Acyclic(parents, stamps)
      requires forall i :: 0 <= i < |stack| ==> stack[i].task < |parents|
      ensures owns == Owns(parents, stamps, Tasks(), target)
    {
      var execution := currentExecution;
      ghost var left := |stack|;
      assert stack[..left] == stack;
      while execution != null
        invariant 0 <= left <= |stack|
        invariant Linked(stack[..left]) && execution == TopOf(stack[..left])
        invariant forall i :: left <= i < |stack| ==> !IsAncestor(parents, stamps, stack[i].task, target)
        decreases left
      {
        var found := WalkUp(parents, stamps, execution.task, target);
        if found {
          assert IsAncestor(parents, stamps, Tasks()[left - 1], target);
          return true;
        }
        execution := execution.previous;
        assert stack[..left][..left - 1] == stack[..left - 1];
        left := left - 1;
      }
      return false;
    }
  }

  // ---------------------------------------------------------------- all threads

  /** The tasks that a thread is executing, innermost last, and the task it waits for. */
  datatype Worker = Worker(stack: seq<nat>, waiting: Option<nat>)

  datatype State = State(parents: Parents, stamps: seq<nat>, started: seq<bool>, completed: seq<bool>, clock: nat,
                         workers: seq<Worker>)

  function Init(workers: nat): State {
    State([], [], [], [], 0, seq(workers, _ => Worker([], None)))
  }

  datatype Step =
    | Create
    | Await(w: nat, t: nat)     // the task on top of w's stack awaits the new task t, which starts on w
    | Spawn(w: nat, t: nat)     // t starts on w without a parent
    | Resume(w: nat, t: nat)    // a ticket, a nested resume or a worker call runs on behalf of t
    | Leave(w: nat)
    | BeginWait(w: nat, t: nat) // join or get
    | EndWait(w: nat)
    | Complete(t: nat)

  predicate Shaped(s: State) {
    && |s.parents| == |s.stamps| == |s.started| == |s.completed| && Acyclic(s.parents, s.stamps)
    && (forall w, i :: 0 <= w < |s.workers| && 0 <= i < |s.workers[w].stack| ==> s.workers[w].stack[i] < |s.parents|)
  }

  predicate Free(s: State, w: nat) {
    w < |s.workers| && s.workers[w].waiting.None?
  }

  predicate Enabled(s: State, step: Step) {
    && Shaped(s)
    && match step
       case Create => true
       case Await(w, t) => Free(s, w) && s.workers[w].stack != [] && t < |s.parents| && !s.started[t]
       case Spawn(w, t) => Free(s, w) && t < |s.parents| && !s.started[t]
       case Resume(w, t) => Free(s, w) && t < |s.parents| && s.started[t]
       case Leave(w) => Free(s, w) && s.workers[w].stack != []
       case BeginWait(w, t) => Free(s, w) && t < |s.parents|
       case EndWait(w) => w < |s.workers| && s.workers[w].waiting.Some?
                          && s.workers[w].waiting.value < |s.parents| && s.completed[s.workers[w].waiting.value]
       case Complete(t) => t < |s.parents| && s.started[t]
  }

  function Push(s: State, w: nat, t: nat): State
    requires w < |s.workers|
  {
    s.(workers := s.workers[w := s.workers[w].(stack := s.workers[w].stack + [t])])
  }

  function StartTask(s: State, t: nat, parent: Option<nat>): State
    requires Shaped(s) && t < |s.parents|
  {
    s.(parents := s.parents[t := parent], stamps := s.stamps[t := s.clock], started := s.started[t := true],
       clock := s.clock + 1)
  }

  function Apply(s: State, step: Step): State
    requires Enabled(s, step)
  {
    match step
    case Create =>
      s.(parents := s.parents + [None], stamps := s.stamps + [0], started := s.started + [false],
         completed := s.completed + [false])
    case Await(w, t) =>
      Push(StartTask(s, t, Some(s.workers[w].stack[|s.workers[w].stack| - 1])), w, t)
    case Spawn(w, t) => Push(StartTask(s, t, s.parents[t]), w, t)
    case Resume(w, t) => Push(s, w, t)
    case Leave(w) =>
      s.(workers := s.workers[w := s.workers[w].(stack := s.workers[w].stack[..|s.workers[w].stack| - 1])])
    case BeginWait(w, t) =>
      if Owns(s.parents, s.stamps, s.workers[w].stack, t) then s
      else s.(workers := s.workers[w := s.workers[w].(waiting := Some(t))])
    case EndWait(w) => s.(workers := s.workers[w := s.workers[w].(waiting := None)])
    case Complete(t) => s.(completed := s.completed[t := true])
  }

  function Run(workers: nat, steps: seq<Step>): Option<State>
  {
    if steps == [] then Some(Init(workers))
    else
      match Run(workers, steps[..|steps| - 1])
      case None => None
      case Some(s) =>
        var step := steps[|steps| - 1];
        if Enabled(s, step) then Some(Apply(s, step)) else None
  }

  predicate TaskOk(s: State, t: nat)
    requires Shaped(s) && t < |s.parents|
  {
    && (s.started[t] ==> s.stamps[t] < s.clock)
    && (!s.started[t] ==> s.parents[t].None?)
    && (s.parents[t].Some? ==> s.started[s.parents[t].value])
  }

  /** A waiting thread waits for nothing that it executes itself, directly or through an await. */
  predicate WorkerOk(s: State, k: Worker)
    requires Shaped(s)
  {
    && (forall i :: 0 <= i < |k.stack| ==> k.stack[i] < |s.parents| && s.started[k.stack[i]])
    && (k.waiting.Some? ==> k.waiting.value < |s.parents| && !Owns(s.parents, s.stamps, k.stack, k.waiting.value))
  }

  predicate Inv(s: State) {
    && Shaped(s)
    && (forall t :: 0 <= t < |s.parents| ==> TaskOk(s, t))
    && (forall w :: 0 <= w < |s.workers| ==> WorkerOk(s, s.workers[w]))
  }

  /** Started tasks keep their parents, and with them their ancestors. */
  predicate Keeps(s: State, t: State) {
    && Shaped(s) && Shaped(t) && |s.parents| <= |t.parents|
    && (forall k :: 0 <= k < |s.parents| && s.started[k] ==> t.started[k] && t.parents[k] == s.parents[k])
  }

  lemma {:induction false} AncestorsStay(s: State, t: State, k: nat, target: nat)
    requires Keeps(s, t) && (forall j :: 0 <= j < |s.parents| ==> TaskOk(s, j)) && k < |s.parents| && s.started[k]
    ensures IsAncestor(t.parents, t.stamps, k, target) == IsAncestor(s.parents, s.stamps, k, target)
    decreases s.stamps[k]
  {
    assert TaskOk(s, k);
    if s.parents[k].Some? {
      AncestorsStay(s, t, s.parents[k].value, target);
    }
  }

  lemma WorkerStays(s: State, t: State, k: Worker)
    requires Keeps(s, t) && (forall j :: 0 <= j < |s.parents| ==> TaskOk(s, j)) && WorkerOk(s, k)
    ensures WorkerOk(t, k)
  {
    if k.waiting.Some? {
      forall i | 0 <= i < |k.stack|
        ensures !IsAncestor(t.parents, t.stamps, k.stack[i], k.waiting.value)
      {
        AncestorsStay(s, t, k.stack[i], k.waiting.value);
      }
    }
  }

  lemma StartKeeps(s: State, t: nat, parent: Option<nat>)
    requires Inv(s) && t < |s.parents| && !s.started[t]
    requires parent.Some? ==> parent.value < |s.parents| && s.started[parent.value]
    ensures Inv(StartTask(s, t, parent))
  {
    var u := StartTask(s, t, parent);
    forall k | 0 <= k < |u.parents| && u.parents[k].Some?
      ensures u.parents[k].value < |u.parents| && u.stamps[u.parents[k].value] < u.stamps[k]
      ensures u.started[u.parents[k].value]
    {
      assert TaskOk(s, k);
      assert parent.Some? ==> TaskOk(s, parent.value);
    }
    forall k | 0 <= k < |u.parents|
      ensures TaskOk(u, k)
    {
      assert TaskOk(s, k);
    }
    forall w | 0 <= w < |u.workers|
      ensures WorkerOk(u, u.workers[w])
    {
      WorkerStays(s, u, s.workers[w]);
    }
  }

  lemma PushKeeps(s: State, w: nat, t: nat)
    requires Inv(s) && Free(s, w) && t < |s.parents| && s.started[t]
    ensures Inv(Push(s, w, t))
  {
    var u := Push(s, w, t);
    assert WorkerOk(s, s.workers[w]);
    forall k | 0 <= k < |u.parents|
      ensures TaskOk(u, k)
    {
      assert TaskOk(s, k);
    }
    forall v | 0 <= v < |u.workers|
      ensures WorkerOk(u, u.workers[v])
    {
      assert WorkerOk(s, s.workers[v]);
    }
  }

  /** A step that changes no task, and one worker to a right one. */
  lemma WorkerChangeKeeps(s: State, w: nat, k: Worker)
    requires Inv(s) && w < |s.workers| && WorkerOk(s, k)
    ensures Inv(s.(workers := s.workers[w := k]))
  {
    var u := s.(workers := s.workers[w := k]);
    forall j | 0 <= j < |u.parents|
      ensures TaskOk(u, j)
    {
      assert TaskOk(s, j);
    }
    forall v | 0 <= v < |u.workers|
      ensures WorkerOk(u, u.workers[v])
    {
      assert WorkerOk(s, if v == w then k else s.workers[v]);
    }
  }

  lemma CreateKeeps(s: State)
    requires Inv(s)
    ensures Inv(Apply(s, Create))
  {
    var u := Apply(s, Create);
    forall k | 0 <= k < |u.parents|
      ensures TaskOk(u, k)
    {
      assert k < |s.parents| ==> TaskOk(s, k);
    }
    forall w | 0 <= w < |u.workers|
      ensures WorkerOk(u, u.workers[w])
    {
      WorkerStays(s, u, s.workers[w]);
    }
  }

  lemma CompleteKeeps(s: State, t: nat)
    requires Inv(s) && Enabled(s, Complete(t))
    ensures Inv(Apply(s, Complete(t)))
  {
    var u := Apply(s, Complete(t));
    forall k | 0 <= k < |u.parents|
      ensures TaskOk(u, k)
    {
      assert TaskOk(s, k);
    }
    forall w | 0 <= w < |u.workers|
      ensures WorkerOk(u, u.workers[w])
    {
      WorkerStays(s, u, s.workers[w]);
    }
  }

  lemma AwaitKeeps(s: State, w: nat, t: nat)
    requires Inv(s) && Enabled(s, Await(w, t))
    ensures Inv(Apply(s, Await(w, t)))
  {
    var top := s.workers[w].stack[|s.workers[w].stack| - 1];
    assert WorkerOk(s, s.workers[w]);
    StartKeeps(s, t, Some(top));
    PushKeeps(StartTask(s, t, Some(top)), w, t);
  }

  lemma BeginWaitKeeps(s: State, w: nat, t: nat)
    requires Inv(s) && Enabled(s, BeginWait(w, t))
    ensures Inv(Apply(s, BeginWait(w, t)))
  {
    if !Owns(s.parents, s.stamps, s.workers[w].stack, t) {
      assert WorkerOk(s, s.workers[w]);
      WorkerChangeKeeps(s, w, s.workers[w].(waiting := Some(t)));
    }
  }

  lemma StepKeepsInv(s: State, step: Step)
    requires Inv(s) && Enabled(s, step)
    ensures Inv(Apply(s, step))
  {
    match step {
      case Create => CreateKeeps(s);
      case Await(w, t) => AwaitKeeps(s, w, t);
      case Spawn(w, t) =>
        assert TaskOk(s, t);
        StartKeeps(s, t, s.parents[t]);
        PushKeeps(StartTask(s, t, s.parents[t]), w, t);
      case Resume(w, t) => PushKeeps(s, w, t);
      case Leave(w) =>
        assert WorkerOk(s, s.workers[w]);
        WorkerChangeKeeps(s, w, s.workers[w].(stack := s.workers[w].stack[..|s.workers[w].stack| - 1]));
      case BeginWait(w, t) => BeginWaitKeeps(s, w, t);
      case EndWait(w) =>
        assert WorkerOk(s, s.workers[w]);
        WorkerChangeKeeps(s, w, s.workers[w].(waiting := None));
      case Complete(t) => CompleteKeeps(s, t);
    }
  }

  lemma {:induction false} RunKeepsInv(workers: nat, steps: seq<Step>, s: State)
    requires Run(workers, steps) == Some(s)
    ensures Inv(s)
  {
    if steps != [] {
      var before := Run(workers, steps[..|steps| - 1]).value;
      RunKeepsInv(workers, steps[..|steps| - 1], before);
      StepKeepsInv(before, steps[|steps| - 1]);
    }
  }

  // ---------------------------------------------------------------- theorems

  /** In every run parent links are acyclic, so the walk up the await chain ends. */
  lemma ParentsAreAcyclic(workers: nat, steps: seq<Step>, s: State, t: nat)
    requires Run(workers, steps) == Some(s) && t < |s.parents| && s.parents[t].Some?
    ensures Acyclic(s.parents, s.stamps) && !IsAncestor(s.parents, s.stamps, s.parents[t].value, t)
  {
    RunKeepsInv(workers, steps, s);
    NoSelfAwait(s.parents, s.stamps, t);
  }

  /** A waiting thread never waits for a task that it executes, nor for one that awaits such a task, from the
      beginning of its wait to the end. */
  lemma NobodyWaitsForItself(workers: nat, steps: seq<Step>, s: State, w: nat, i: nat)
    requires Run(workers, steps) == Some(s) && w < |s.workers| && s.workers[w].waiting.Some?
    requires i < |s.workers[w].stack|
    ensures Shaped(s) && !IsAncestor(s.parents, s.stamps, s.workers[w].stack[i], s.workers[w].waiting.value)
  {
    RunKeepsInv(workers, steps, s);
    assert WorkerOk(s, s.workers[w]);
  }

  /** What awaits, spawns, resumes and waits do to the await links and the stacks: an awaited task's parent is the task
      on top of the awaiting thread's stack, a spawned one keeps having none, and nothing else changes a link. */
  lemma LinksFollowSteps(s: State, step: Step)
    requires Inv(s) && Enabled(s, step)
    ensures
      var u := Apply(s, step);
      match step
      case Create =>
        |u.parents| == |s.parents| + 1 && u.parents[|s.parents|] == None && u.workers == s.workers
        && !u.started[|s.parents|]
      case Await(w, t) =>
        u.parents == s.parents[t := Some(s.workers[w].stack[|s.workers[w].stack| - 1])] && u.started[t]
        && u.workers[w].stack == s.workers[w].stack + [t]
      case Spawn(w, t) =>
        u.parents == s.parents && s.parents[t] == None && u.started[t] && u.workers[w].stack == s.workers[w].stack + [t]
      case Resume(w, t) => u.parents == s.parents && u.workers[w].stack == s.workers[w].stack + [t]
      case Leave(w) =>
        u.parents == s.parents && s.workers[w].stack == u.workers[w].stack + [s.workers[w].stack[|s.workers[w].stack| - 1]]
      case BeginWait(w, t) =>
        u.parents == s.parents && u.workers[w].stack == s.workers[w].stack
        && u.workers[w].waiting == if Owns(s.parents, s.stamps, s.workers[w].stack, t) then None else Some(t)
      case EndWait(w) =>
        u.parents == s.parents && u.workers[w].stack == s.workers[w].stack && u.workers[w].waiting == None
      case Complete(t) => u.parents == s.parents && u.workers == s.workers && u.completed[t]
  {
    if step.Spawn? {
      assert TaskOk(s, step.t);
    }
  }

  /** An ancestor is found along the links: t is its own, and those of the task that awaits it are the others. */
  lemma AncestorsAreAlongLinks(parents: Parents, stamps: seq<nat>, t: nat, target: nat)
    requires Acyclic(parents, stamps) && t < |parents| && t != target
    ensures IsAncestor(parents, stamps, t, t)
    ensures IsAncestor(parents, stamps, t, target) <==>
            parents[t].Some? && IsAncestor(parents, stamps, parents[t].value, target)
  {
  }

  predicate TwoTasks(s: State, first: bool, second: bool) {
    && s.parents == [None, None] && |s.stamps| == |s.started| == |s.completed| == 2 && |s.workers| == 2
    && s.started[0] == first && s.started[1] == second
  }

  lemma TwoNewTasks() returns (steps: seq<Step>, s: State)
    ensures Run(2, steps) == Some(s) && TwoTasks(s, false, false)
    ensures s.workers[0] == Worker([], None) && s.workers[1] == Worker([], None)
  {
    s := Init(2);
    steps := [];
    steps, s := Take(steps, s, Create);
    RunKeepsInv(2, steps, s);
    steps, s := Take(steps, s, Create);
  }

  lemma OneRunningTask() returns (steps: seq<Step>, s: State)
    ensures Run(2, steps) == Some(s) && TwoTasks(s, true, false)
    ensures s.workers[0] == Worker([0], None) && s.workers[1] == Worker([], None)
  {
    steps, s := TwoNewTasks();
    RunKeepsInv(2, steps, s);
    steps, s := Take(steps, s, Spawn(0, 0));
  }

  lemma TwoRunningTasks() returns (steps: seq<Step>, s: State)
    ensures Run(2, steps) == Some(s) && TwoTasks(s, true, true)
    ensures s.workers[0] == Worker([0], None) && s.workers[1] == Worker([1], None)
  {
    steps, s := OneRunningTask();
    RunKeepsInv(2, steps, s);
    steps, s := Take(steps, s, Spawn(1, 1));
  }

  lemma OneWaitingThread() returns (steps: seq<Step>, s: State)
    ensures Run(2, steps) == Some(s) && TwoTasks(s, true, true)
    ensures s.workers[0] == Worker([0], Some(1)) && s.workers[1] == Worker([1], None)
  {
    steps, s := TwoRunningTasks();
    RunKeepsInv(2, steps, s);
    steps, s := Take(steps, s, BeginWait(0, 1));
  }

  /** But it looks at one thread only: two threads can wait for each other's tasks. */
  lemma TwoThreadsCanWaitForEachOther() returns (steps: seq<Step>, s: State)
    ensures Run(2, steps) == Some(s) && |s.workers| == 2
    ensures s.workers[0] == Worker([0], Some(1)) && s.workers[1] == Worker([1], Some(0))
  {
    steps, s := OneWaitingThread();
    RunKeepsInv(2, steps, s);
    steps, s := Take(steps, s, BeginWait(1, 0));
  }

  lemma Take(steps: seq<Step>, s: State, step: Step) returns (steps': seq<Step>, s': State)
    requires Run(2, steps) == Some(s) && Enabled(s, step)
    ensures Run(2, steps') == Some(s') && s' == Apply(s, step)
  {
    steps', s' := steps + [step], Apply(s, step);
    assert steps'[..|steps'| - 1] == steps;
  }
}
