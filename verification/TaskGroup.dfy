/** task_group of vtask.h: its list of tasks, which spawn prunes, and the calls that walk snapshots of it
    while tasks start, complete and are stopped. */
module TaskGroup {
  import E = ExecutionScope

  datatype Option<+T> = None | Some(value: T)

  // ---------------------------------------------------------------- the group's own fields

  datatype Group = Group(tasks: seq<nat>, stopping: bool)

  function Prune(tasks: seq<nat>, gone: set<nat>): (r: seq<nat>)
    ensures forall t :: t in r <==> t in tasks && t !in gone
  {
    if tasks == [] then []
    else
      var rest := Prune(tasks[..|tasks| - 1], gone);
      assert tasks == tasks[..|tasks| - 1] + [tasks[|tasks| - 1]];
      if tasks[|tasks| - 1] in gone then rest else rest + [tasks[|tasks| - 1]]
  }

  /** The section of spawn: `gone` are the tasks that it found finished. */
  function Insert(g: Group, task: nat, gone: set<nat>): (Group, bool) {
    if g.stopping then (g, false) else (g.(tasks := Prune(g.tasks, gone) + [task]), true)
  }

  class TaskList {
    var tasks: seq<nat>
    var stopping: bool

    ghost function Contents(): Group
      reads this
    {
      Group(tasks, stopping)
    }

    constructor ()
      ensures Contents() == Group([], false)
    {
      tasks, stopping := [], false;
    }

    /** spawn, up to the release of the mutex */
    method Spawn(task: nat, gone: set<nat>) returns (accepted: bool)
      modifies this
      ensures (Contents(), accepted) == Insert(old(Contents()), task, gone)
      ensures accepted == !old(stopping) && stopping == old(stopping)
      ensures !accepted ==> tasks == old(tasks)
      ensures accepted ==>
        forall t :: t in tasks <==> t == task || (t in old(tasks) && t !in gone)
    {
      if stopping {
        return false;
      }
      var kept := [];
      for i := 0 to |tasks|
        invariant tasks == old(tasks) && stopping == old(stopping) && kept == Prune(tasks[..i], gone)
      {
        assert tasks[..i + 1][..i] == tasks[..i];
        if tasks[i] !in gone {
          kept := kept + [tasks[i]];
        }
      }
      assert tasks[..|tasks|] == tasks;
      tasks := kept + [task];
      return true;
    }

    /** requestStop, up to the release of the mutex */
    method BeginStop() returns (snapshot: seq<nat>)
      modifies this
      ensures Contents() == old(Contents()).(stopping := true) && snapshot == old(tasks)
    {
      stopping := true;
      snapshot := tasks;
    }

    /** ownsCurrentTask, and the first loop of join: does the calling thread own one of the tasks? */
    method OwnsOne(thread: E.Thread, parents: E.Parents, ghost stamps: seq<nat>) returns (owns: bool)
      requires thread.Valid() && E.Acyclic(parents, stamps)
      requires forall i :: 0 <= i < |thread.stack| ==> thread.stack[i].task < |parents|
      ensures owns <==> exists t :: t in tasks && E.Owns(parents, stamps, thread.Tasks(), t)
    {
      for i := 0 to |tasks|
        invariant forall t :: t in tasks[..i] ==> !E.Owns(parents, stamps, thread.Tasks(), t)
      {
        owns := thread.OwnsCurrentExecution(parents, stamps, tasks[i]);
        if owns {
          assert tasks[i] in tasks;
          return true;
        }
      }
      assert tasks[..|tasks|] == tasks;
      return false;
    }
  }

  // ---------------------------------------------------------------- the group among its tasks

  /** A task of the group, by its number.  `entered` says that its body has been started. */
  datatype Task = Task(started: bool, entered: bool, stopRequested: bool, completed: bool)

  /** What ownsCurrentExecution sees: the await links of all tasks, and the stack of the calling thread; ids[t] is
      the group's t-th task among all tasks. */
  datatype View = View(parents: E.Parents, stamps: seq<nat>, stack: seq<nat>, ids: seq<nat>)

  predicate Sees(v: View, n: nat) {
    E.Acyclic(v.parents, v.stamps) && (forall i :: 0 <= i < |v.stack| ==> v.stack[i] < |v.parents|) && |v.ids| == n
  }

  /** The thread executes task t of the group, or something that t awaits. */
  predicate OwnsTask(v: View, n: nat, t: nat)
    requires Sees(v, n)
  {
    t < n && E.Owns(v.parents, v.stamps, v.stack, v.ids[t])
  }

  function Owned(v: View, n: nat): (r: set<nat>)
    requires Sees(v, n)
    ensures forall t: nat :: t in r <==> OwnsTask(v, n, t)
  {
    set t: nat | t < n && OwnsTask(v, n, t)
  }

  datatype Stage = Looking | Acting | Over | Refused

  /** A requestStop or join call with its snapshot; it looks at one task after the other and, if need be,
      acts on it.  `owned` are the tasks of the group that the thread calling join owned then, and `since` is
      the number of tasks spawned when the call began. */
  datatype Walk = Walk(stops: bool, owned: set<nat>, since: nat, snapshot: seq<nat>, next: nat, stage: Stage)

  /** A finished() call, which holds the mutex; `since` is the number of spawned tasks and `allDone` says
      whether they all had completed when it began. */
  datatype Query = Query(next: nat, since: nat, allDone: bool)

  /** `spawned` counts the accepted spawns; their tasks are numbered from 0. */
  datatype State = State(group: Group, tasks: seq<Task>, walks: seq<Walk>, query: Option<Query>,
                         answers: seq<(nat, bool, bool)>)

  function Init(): State {
    State(Group([], false), [], [], None, [])
  }

  datatype Step =
    | Spawn(gone: set<nat>)
    | Resume(t: nat)              // the first resume of a task: run the body, or skip it
    | Complete(t: nat)
    | StopTask(t: nat)            // somebody else stops a task
    | BeginStop
    | BeginJoin(view: View)
    | Look(w: nat)
    | Act(w: nat)
    | BeginFinished
    | CheckOne

  predicate Enabled(s: State, step: Step) {
    match step
    case Spawn(gone) => s.query.None? && forall t :: t in gone ==> t < |s.tasks| && s.tasks[t].completed
    case Resume(t) => t < |s.tasks| && !s.tasks[t].started
    case Complete(t) => t < |s.tasks| && s.tasks[t].started && !s.tasks[t].completed
    case StopTask(t) => t < |s.tasks|
    case BeginStop => s.query.None?
    case BeginJoin(view) => s.query.None? && Sees(view, |s.tasks|)
    case Look(w) => w < |s.walks| && s.walks[w].stage.Looking?
                    && (s.walks[w].next < |s.walks[w].snapshot| ==> s.walks[w].snapshot[s.walks[w].next] < |s.tasks|)
    case Act(w) => w < |s.walks| && s.walks[w].stage.Acting? && s.walks[w].next < |s.walks[w].snapshot|
                   && s.walks[w].snapshot[s.walks[w].next] < |s.tasks|
                   && (s.walks[w].stops || s.tasks[s.walks[w].snapshot[s.walks[w].next]].completed)
    case BeginFinished => s.query.None?
    case CheckOne => s.query.Some? && (s.query.value.next < |s.group.tasks| ==>
      s.group.tasks[s.query.value.next] < |s.tasks|)
  }

  predicate AllCompleted(tasks: seq<Task>) {
    forall t :: 0 <= t < |tasks| ==> tasks[t].completed
  }

  function DoSpawn(s: State, gone: set<nat>): State {
    var (g, accepted) := Insert(s.group, |s.tasks|, gone);
    s.(group := g, tasks := if accepted then s.tasks + [Task(false, false, false, false)] else s.tasks)
  }

  /** A task that has been asked to stop before its first resume completes without entering its body. */
  function DoResume(s: State, t: nat): State
    requires t < |s.tasks|
  {
    s.(tasks := s.tasks[t := s.tasks[t].(started := true, entered := !s.tasks[t].stopRequested)])
  }

  function DoLook(s: State, w: nat): State
    requires Enabled(s, Look(w))
  {
    var k := s.walks[w];
    if k.next == |k.snapshot| then s.(walks := s.walks[w := k.(stage := Over)])
    else if k.next < |k.snapshot| &&
      s.tasks[k.snapshot[k.next]].completed then s.(walks := s.walks[w := k.(next := k.next + 1)])
    else s.(walks := s.walks[w := k.(stage := Acting)])
  }

  function DoAct(s: State, w: nat): State
    requires Enabled(s, Act(w))
  {
    var k := s.walks[w];
    var t := k.snapshot[k.next];
    s.(tasks := if k.stops then s.tasks[t := s.tasks[t].(stopRequested := true)] else s.tasks,
       walks := s.walks[w := k.(next := k.next + 1, stage := Looking)])
  }

  function DoCheck(s: State): State
    requires Enabled(s, CheckOne)
  {
    var q := s.query.value;
    if q.next >= |s.group.tasks| then s.(query := None, answers := s.answers + [(q.since, q.allDone, true)])
    else if s.tasks[s.group.tasks[q.next]].completed then s.(query := Some(q.(next := q.next + 1)))
    else s.(query := None, answers := s.answers + [(q.since, q.allDone, false)])
  }

  /** join: refused if the thread owns a task of the snapshot. */
  function NewJoin(s: State, owned: set<nat>): Walk {
    var stage := if exists t :: t in s.group.tasks && t in owned then Refused else Looking;
    Walk(false, owned, |s.tasks|, s.group.tasks, 0, stage)
  }

  function Apply(s: State, step: Step): State
    requires Enabled(s, step)
  {
    match step
    case Spawn(gone) => DoSpawn(s, gone)
    case Resume(t) => DoResume(s, t)
    case Complete(t) => s.(tasks := s.tasks[t := s.tasks[t].(completed := true)])
    case StopTask(t) => s.(tasks := s.tasks[t := s.tasks[t].(stopRequested := true)])
    case BeginStop =>
      s.(group := s.group.(stopping := true),
         walks := s.walks + [Walk(true, {}, |s.tasks|, s.group.tasks, 0, Looking)])
    case BeginJoin(view) => s.(walks := s.walks + [NewJoin(s, Owned(view, |s.tasks|))])
    case Look(w) => DoLook(s, w)
    case Act(w) => DoAct(s, w)
    case BeginFinished => s.(query := Some(Query(0, |s.tasks|, AllCompleted(s.tasks))))
    case CheckOne => DoCheck(s)
  }

  function Run(steps: seq<Step>): Option<State>
  {
    if steps == [] then Some(Init())
    else
      match Run(steps[..|steps| - 1])
      case None => None
      case Some(s) =>
        var step := steps[|steps| - 1];
        if Enabled(s, step) then Some(Apply(s, step)) else None
  }

  // ---------------------------------------------------------------- what always holds

  /** Every task ever spawned is in the list, or has completed. */
  predicate Covers(s: State, list: seq<nat>, n: nat)
    requires n <= |s.tasks|
  {
    forall t: nat :: t < n ==> t in list || s.tasks[t].completed
  }

  predicate Known(s: State, list: seq<nat>) {
    forall i :: 0 <= i < |list| ==> list[i] < |s.tasks|
  }

  predicate Dealt(k: Walk, t: Task) {
    t.completed || (k.stops && t.stopRequested)
  }

  /** A stop call has all tasks but completed ones in its snapshot, and those it has passed are dealt with. */
  predicate WalkOk(s: State, k: Walk) {
    && Known(s, k.snapshot) && k.next <= |k.snapshot|
    && k.since <= |s.tasks| && Covers(s, k.snapshot, k.since)
    && (k.stops ==> s.group.stopping && k.since == |s.tasks|)
    && (!k.stops ==> (k.stage.Refused? <==> exists t :: t in k.snapshot && t in k.owned))
    && (forall i :: 0 <= i < |k.snapshot| ==> k.snapshot[i] < k.since)
    && (k.stage.Acting? ==> k.next < |k.snapshot|)
    && (k.stage.Over? ==> k.next == |k.snapshot|)
    && (forall i :: 0 <= i < k.next ==> Dealt(k, s.tasks[k.snapshot[i]]))
  }

  predicate QueryOk(s: State, q: Query) {
    && q.since == |s.tasks| && q.next <= |s.group.tasks| && Known(s, s.group.tasks)
    && (q.allDone ==> AllCompleted(s.tasks))
    && (forall i :: 0 <= i < q.next ==> s.tasks[s.group.tasks[i]].completed)
  }

  /** finished() answered true only with all tasks of its beginning completed, and false only if not all of
      them had completed when it began. */
  predicate AnswerOk(s: State, a: (nat, bool, bool)) {
    && a.0 <= |s.tasks|
    && (a.2 ==> forall t :: 0 <= t < a.0 ==> s.tasks[t].completed)
    && (!a.2 ==> !a.1)
  }

  predicate TaskOk(t: Task) {
    (t.completed ==> t.started) && (t.entered ==> t.started)
  }

  ghost predicate Inv(s: State) {
    && Known(s, s.group.tasks) && Covers(s, s.group.tasks, |s.tasks|)
    && (forall t :: 0 <= t < |s.tasks| ==> TaskOk(s.tasks[t]))
    && (forall w :: 0 <= w < |s.walks| ==> WalkOk(s, s.walks[w]))
    && (s.query.Some? ==> QueryOk(s, s.query.value))
    && (forall a :: a in s.answers ==> AnswerOk(s, a))
  }

  predicate TaskLater(a: Task, b: Task) {
    && (a.started ==> b.started && b.entered == a.entered) && (a.stopRequested ==> b.stopRequested)
    && (a.completed ==> b.completed)
  }

  /** The same group, the same tasks or further on. */
  predicate Later(s: State, t: State) {
    && |t.tasks| == |s.tasks| && t.group.tasks == s.group.tasks && (s.group.stopping ==> t.group.stopping)
    && forall i :: 0 <= i < |s.tasks| ==> TaskLater(s.tasks[i], t.tasks[i])
  }

  lemma WalkStays(s: State, t: State, k: Walk)
    requires Later(s, t) && WalkOk(s, k)
    ensures WalkOk(t, k)
  {
  }

  lemma QueryStays(s: State, t: State, q: Query)
    requires Later(s, t) && QueryOk(s, q)
    ensures QueryOk(t, q)
  {
  }

  lemma AnswerStays(s: State, t: State, a: (nat, bool, bool))
    requires Later(s, t) && AnswerOk(s, a)
    ensures AnswerOk(t, a)
  {
  }

  /** A step that changes only tasks. */
  lemma TasksKeep(s: State, t: State)
    requires Inv(s) && Later(s, t) && t == s.(tasks := t.tasks)
    requires forall i :: 0 <= i < |t.tasks| ==> TaskOk(t.tasks[i])
    ensures Inv(t)
  {
    forall w | 0 <= w < |t.walks|
      ensures WalkOk(t, t.walks[w])
    {
      WalkStays(s, t, s.walks[w]);
    }
    if s.query.Some? {
      QueryStays(s, t, s.query.value);
    }
    forall a | a in t.answers
      ensures AnswerOk(t, a)
    {
      AnswerStays(s, t, a);
    }
  }

  /** A step that changes only walks: all but one are the same, or one is new. */
  lemma WalksKeep(s: State, t: State)
    requires Inv(s) && t == s.(walks := t.walks)
    requires forall w :: 0 <= w < |t.walks| ==> WalkOk(s, t.walks[w])
    ensures Inv(t)
  {
    forall w | 0 <= w < |t.walks|
      ensures WalkOk(t, t.walks[w])
    {
      assert WalkOk(s, t.walks[w]);
    }
    forall a | a in t.answers
      ensures AnswerOk(t, a)
    {
      assert AnswerOk(s, a);
    }
    if s.query.Some? {
      QueryStays(s, t, s.query.value);
    }
  }

  lemma SpawnKeeps(s: State, gone: set<nat>)
    requires Inv(s) && Enabled(s, Spawn(gone))
    ensures Inv(DoSpawn(s, gone))
  {
    var t := DoSpawn(s, gone);
    if s.group.stopping {
      assert t == s;
    } else {
      var kept := Prune(s.group.tasks, gone);
      forall i | 0 <= i < |t.group.tasks|
        ensures t.group.tasks[i] < |t.tasks|
      {
        assert i < |kept| ==> kept[i] in kept && kept[i] in s.group.tasks;
      }
      forall k: nat | k < |t.tasks|
        ensures k in t.group.tasks || t.tasks[k].completed
      {
        assert k < |s.tasks| ==> k in s.group.tasks || s.tasks[k].completed;
        assert k == |s.tasks| ==> t.group.tasks[|kept|] == k;
        assert k in kept ==> k in t.group.tasks;
      }
      forall w | 0 <= w < |t.walks|
        ensures WalkOk(t, t.walks[w])
      {
        assert WalkOk(s, s.walks[w]);
      }
    }
  }

  lemma ActKeeps(s: State, w: nat)
    requires Inv(s) && Enabled(s, Act(w))
    ensures Inv(DoAct(s, w))
  {
    var t, k := DoAct(s, w), s.walks[w];
    var u := s.(tasks := t.tasks);
    assert WalkOk(s, k);
    TasksKeep(s, u);
    forall v | 0 <= v < |t.walks|
      ensures WalkOk(u, t.walks[v])
    {
      assert WalkOk(u, u.walks[v]);
    }
    WalksKeep(u, t);
  }

  lemma LookKeeps(s: State, w: nat)
    requires Inv(s) && Enabled(s, Look(w))
    ensures Inv(DoLook(s, w))
  {
    var t := DoLook(s, w);
    assert WalkOk(s, s.walks[w]);
    forall v | 0 <= v < |t.walks|
      ensures WalkOk(s, t.walks[v])
    {
      assert v != w ==> WalkOk(s, s.walks[v]);
    }
    WalksKeep(s, t);
  }

  lemma BeginStopKeeps(s: State)
    requires Inv(s) && Enabled(s, BeginStop)
    ensures Inv(Apply(s, BeginStop))
  {
    var t := Apply(s, BeginStop);
    var u := s.(group := t.group);
    forall w | 0 <= w < |s.walks|
      ensures WalkOk(u, s.walks[w])
    {
      WalkStays(s, u, s.walks[w]);
    }
    forall a | a in t.answers
      ensures AnswerOk(u, a)
    {
      AnswerStays(s, u, a);
    }
    WalksKeep(u, t);
  }

  lemma BeginJoinKeeps(s: State, view: View)
    requires Inv(s) && Enabled(s, BeginJoin(view))
    ensures Inv(Apply(s, BeginJoin(view)))
  {
    WalksKeep(s, Apply(s, BeginJoin(view)));
  }

  lemma CheckKeeps(s: State)
    requires Inv(s) && Enabled(s, CheckOne)
    ensures Inv(DoCheck(s))
  {
    var t, q := DoCheck(s), s.query.value;
    forall w | 0 <= w < |t.walks|
      ensures WalkOk(t, t.walks[w])
    {
      assert WalkOk(s, s.walks[w]);
    }
    if q.next >= |s.group.tasks| {
      forall k | 0 <= k < |s.tasks|
        ensures s.tasks[k].completed
      {
        assert k in s.group.tasks || s.tasks[k].completed;
      }
    }
    forall a | a in t.answers
      ensures AnswerOk(t, a)
    {
      assert a in s.answers ==> AnswerOk(s, a);
    }
  }

  lemma BeginFinishedKeeps(s: State)
    requires Inv(s) && Enabled(s, BeginFinished)
    ensures Inv(Apply(s, BeginFinished))
  {
    var t := Apply(s, BeginFinished);
    forall w | 0 <= w < |t.walks|
      ensures WalkOk(t, t.walks[w])
    {
      assert WalkOk(s, s.walks[w]);
    }
    forall a | a in t.answers
      ensures AnswerOk(t, a)
    {
      assert AnswerOk(s, a);
    }
  }

  lemma StepKeepsInv(s: State, step: Step)
    requires Inv(s) && Enabled(s, step)
    ensures Inv(Apply(s, step))
  {
    match step {
      case Spawn(gone) => SpawnKeeps(s, gone);
      case Resume(t) => TasksKeep(s, Apply(s, step));
      case Complete(t) => TasksKeep(s, Apply(s, step));
      case StopTask(t) => TasksKeep(s, Apply(s, step));
      case BeginStop => BeginStopKeeps(s);
      case BeginJoin(view) => BeginJoinKeeps(s, view);
      case Look(w) => LookKeeps(s, w);
      case Act(w) => ActKeeps(s, w);
      case BeginFinished => BeginFinishedKeeps(s);
      case CheckOne => CheckKeeps(s);
    }
  }

  lemma {:induction false} RunKeepsInv(steps: seq<Step>, s: State)
    requires Run(steps) == Some(s)
    ensures Inv(s)
  {
    if steps != [] {
      var before := Run(steps[..|steps| - 1]).value;
      RunKeepsInv(steps[..|steps| - 1], before);
      StepKeepsInv(before, steps[|steps| - 1]);
    }
  }

  // ---------------------------------------------------------------- theorems

  /** Pruning is invisible: the listed tasks have all finished exactly if all tasks ever spawned have. */
  lemma PruningIsInvisible(steps: seq<Step>, s: State)
    requires Run(steps) == Some(s)
    ensures forall i :: 0 <= i < |s.group.tasks| ==> s.group.tasks[i] < |s.tasks|
    ensures (forall i :: 0 <= i < |s.group.tasks| ==> s.tasks[s.group.tasks[i]].completed) <==> AllCompleted(s.tasks)
  {
    RunKeepsInv(steps, s);
    if forall i :: 0 <= i < |s.group.tasks| ==> s.tasks[s.group.tasks[i]].completed {
      forall t | 0 <= t < |s.tasks|
        ensures s.tasks[t].completed
      {
        assert t in s.group.tasks || s.tasks[t].completed;
      }
    }
  }

  /** finished() answers true only if every task spawned before it had completed when it answered, and false
      only if not all of them had completed when it was called. */
  lemma FinishedIsRight(steps: seq<Step>, s: State, since: nat, allDone: bool, answer: bool)
    requires Run(steps) == Some(s) && (since, allDone, answer) in s.answers
    ensures since <= |s.tasks|
    ensures answer ==> forall t :: 0 <= t < since ==> s.tasks[t].completed
    ensures !answer ==> !allDone
  {
    RunKeepsInv(steps, s);
    assert AnswerOk(s, (since, allDone, answer));
  }

  /** After requestStop no spawn is accepted; and once it has returned, every task ever spawned has completed
      or been asked to stop. */
  lemma StopReachesEveryTask(steps: seq<Step>, s: State, w: nat)
    requires Run(steps) == Some(s) && w < |s.walks| && s.walks[w].stops
    ensures forall gone: set<nat> :: DoSpawn(s, gone) == s
    ensures s.walks[w].stage.Over? ==> forall t :: 0 <= t < |s.tasks| ==>
      s.tasks[t].completed || s.tasks[t].stopRequested
  {
    RunKeepsInv(steps, s);
    var k := s.walks[w];
    assert WalkOk(s, k);
    if k.stage.Over? {
      forall t: nat | t < |s.tasks|
        ensures s.tasks[t].completed || s.tasks[t].stopRequested
      {
        assert t in k.snapshot || s.tasks[t].completed;
        if i :| 0 <= i < |k.snapshot| && k.snapshot[i] == t {
          assert Dealt(k, s.tasks[k.snapshot[i]]);
        }
      }
    }
  }

  /** From then on no body is entered any more: a task inserted but not yet resumed skips its body. */
  lemma NoBodyIsEnteredAfterStop(steps: seq<Step>, s: State, w: nat, step: Step, t: nat)
    requires Run(steps) == Some(s) && w < |s.walks| && s.walks[w].stops && s.walks[w].stage.Over?
    requires Enabled(s, step) && t < |Apply(s, step).tasks| && Apply(s, step).tasks[t].entered
    ensures t < |s.tasks| && s.tasks[t].entered
  {
    RunKeepsInv(steps, s);
    StopReachesEveryTask(steps, s, w);
  }

  /** When join has returned true, every task spawned before it has completed. */
  lemma JoinWaitsForAll(steps: seq<Step>, s: State, w: nat, t: nat)
    requires Run(steps) == Some(s) && w < |s.walks| && !s.walks[w].stops && s.walks[w].stage.Over?
    requires t < s.walks[w].since
    ensures t < |s.tasks| && s.tasks[t].completed
  {
    RunKeepsInv(steps, s);
    var k := s.walks[w];
    assert WalkOk(s, k);
    if t in k.snapshot {
      var i :| 0 <= i < |k.snapshot| && k.snapshot[i] == t;
      assert Dealt(k, s.tasks[k.snapshot[i]]);
    }
  }

  /** join is refused on the spot if the calling thread owns a spawned task that has not completed, and only if it
      owns a spawned task: what pruning has removed makes no difference. */
  lemma JoinIsRefusedWhenOwned(steps: seq<Step>, s: State, view: View)
    requires Run(steps) == Some(s) && Enabled(s, BeginJoin(view))
    ensures
      var walks := Apply(s, BeginJoin(view)).walks;
      var refused := walks[|s.walks|].stage.Refused?;
      && |walks| == |s.walks| + 1
      && ((exists t: nat :: t < |s.tasks| && !s.tasks[t].completed && OwnsTask(view, |s.tasks|, t)) ==> refused)
      && (refused ==> exists t: nat :: OwnsTask(view, |s.tasks|, t))
  {
    RunKeepsInv(steps, s);
    var k := NewJoin(s, Owned(view, |s.tasks|));
    if t: nat :| t < |s.tasks| && !s.tasks[t].completed && OwnsTask(view, |s.tasks|, t) {
      assert t in s.group.tasks && t in k.owned;
    }
  }

  /** A join that was refused stays so and waits for nothing; one that was not is never refused later. */
  lemma RefusalIsFinal(s: State, step: Step, w: nat)
    requires Enabled(s, step) && w < |s.walks|
    ensures w < |Apply(s, step).walks| && Apply(s, step).walks[w].stage.Refused? == s.walks[w].stage.Refused?
  {
  }

  /** Nothing that is asked of the group is ignored: unless it is stopping a spawn adds its task to the list, a first
      resume enters the body exactly if no stop has been requested, and stops, joins and completions take effect. */
  lemma StepsTakeEffect(s: State, step: Step)
    requires Enabled(s, step)
    ensures
      var t := Apply(s, step);
      match step
      case Spawn(gone) =>
        if s.group.stopping then t == s
        else |t.tasks| == |s.tasks| + 1 && t.tasks[|s.tasks|] == Task(false, false, false, false)
             && |s.tasks| in t.group.tasks
      case Resume(k) => t.tasks[k].started && t.tasks[k].entered == !s.tasks[k].stopRequested
      case Complete(k) => t.tasks[k].completed
      case StopTask(k) => t.tasks[k].stopRequested
      case BeginStop => t.group.stopping && |t.walks| == |s.walks| + 1 && t.walks[|s.walks|].stops
      case BeginJoin(_) =>
        |t.walks| == |s.walks| + 1 && !t.walks[|s.walks|].stops && t.walks[|s.walks|].since == |s.tasks|
      case BeginFinished =>
        t.query == Some(Query(0, |s.tasks|, forall k :: 0 <= k < |s.tasks| ==> s.tasks[k].completed))
      case _ => true
  {
  }

  /** A query in progress knows how many tasks there were when it began, and whether all had completed. */
  predicate Began(steps: seq<Step>, n: nat, since: nat, allDone: bool) {
    && n < |steps| && steps[n].BeginFinished? && Run(steps[..n]).Some?
    && since == |Run(steps[..n]).value.tasks|
    && (allDone <==> forall k :: 0 <= k < |Run(steps[..n]).value.tasks| ==> Run(steps[..n]).value.tasks[k].completed)
  }

  ghost predicate HasBeginning(steps: seq<Step>, since: nat, allDone: bool) {
    exists n: nat :: Began(steps, n, since, allDone)
  }

  lemma BeginningStays(steps: seq<Step>, since: nat, allDone: bool)
    requires steps != [] && HasBeginning(steps[..|steps| - 1], since, allDone)
    ensures HasBeginning(steps, since, allDone)
  {
    var n: nat :| Began(steps[..|steps| - 1], n, since, allDone);
    assert steps[..|steps| - 1][..n] == steps[..n];
    assert Began(steps, n, since, allDone);
  }

  /** A query begins with BeginFinished alone, and only the query in progress gives an answer. */
  lemma QueriesFollowSteps(s: State, step: Step)
    requires Enabled(s, step)
    ensures
      var t := Apply(s, step);
      && (!step.BeginFinished? && t.query.Some? ==>
          s.query.Some? && t.query.value.since == s.query.value.since && t.query.value.allDone == s.query.value.allDone)
      && forall a :: a in t.answers ==>
        a in s.answers || (s.query.Some? && a.0 == s.query.value.since && a.1 == s.query.value.allDone)
  {
  }

  /** Every answer of finished() is about the tasks and the state at its beginning. */
  lemma {:induction false} AnswersHaveBeginnings(steps: seq<Step>, s: State)
    requires Run(steps) == Some(s)
    ensures s.query.Some? ==> HasBeginning(steps, s.query.value.since, s.query.value.allDone)
    ensures forall a :: a in s.answers ==> HasBeginning(steps, a.0, a.1)
  {
    if steps != [] {
      var last := |steps| - 1;
      var before, step := Run(steps[..last]).value, steps[last];
      AnswersHaveBeginnings(steps[..last], before);
      QueriesFollowSteps(before, step);
      if before.query.Some? {
        BeginningStays(steps, before.query.value.since, before.query.value.allDone);
      }
      if step.BeginFinished? {
        StepsTakeEffect(before, step);
        assert Began(steps, last, s.query.value.since, s.query.value.allDone);
      }
      forall a | a in s.answers
        ensures HasBeginning(steps, a.0, a.1)
      {
        if a in before.answers {
          BeginningStays(steps, a.0, a.1);
        }
      }
    }
  }
}
