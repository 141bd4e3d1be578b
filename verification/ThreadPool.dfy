/** The thread pool of vthreadpool.h: its queue as a class, and the pool with its workers as a state
    machine in which every lock section is one step. */
module ThreadPool {

  datatype Option<+T> = None | Some(value: T)

  // ---------------------------------------------------------------- one queue

  /** The queue of one generation, with everything it ever accepted and everything taken out of it. */
  datatype Gen = Gen(pending: seq<nat>, shut: bool, accepted: seq<nat>, popped: seq<nat>)

  const NEW_GEN := Gen([], false, [], [])

  /** push_task */
  function Push(g: Gen, task: nat): (Gen, bool) {
    if g.shut then (g, false) else (g.(pending := g.pending + [task], accepted := g.accepted + [task]), true)
  }

  /** What pop_task waits for. */
  predicate CanPop(g: Gen, stopRequested: bool) {
    g.pending != [] || g.shut || stopRequested
  }

  /** pop_task, once it has stopped waiting */
  function Pop(g: Gen): (Gen, Option<nat>) {
    if g.pending == [] then (g, None)
    else (g.(pending := g.pending[1..], popped := g.popped + [g.pending[0]]), Some(g.pending[0]))
  }

  /** ThreadPoolQueue: the sections under its lock, on its fields */
  class TaskQueue {
    var queue: seq<nat>
    var isShut: bool
    ghost var accepted: seq<nat>
    ghost var popped: seq<nat>

    ghost function Contents(): Gen
      reads this
    {
      Gen(queue, isShut, accepted, popped)
    }

    constructor ()
      ensures Contents() == NEW_GEN
    {
      queue, isShut, accepted, popped := [], false, [], [];
    }

    method PushTask(task: nat) returns (ok: bool)
      modifies this
      ensures (Contents(), ok) == Push(old(Contents()), task)
      ensures ok == !old(isShut) && isShut == old(isShut)
      ensures queue == if ok then old(queue) + [task] else old(queue)
    {
      if isShut {
        return false;
      }
      queue := queue + [task];
      accepted := accepted + [task];
      return true;
    }

    method PopTask(stopRequested: bool) returns (task: Option<nat>)
      requires CanPop(Contents(), stopRequested)
      modifies this
      ensures (Contents(), task) == Pop(old(Contents()))
      ensures task.Some? == (old(queue) != []) && isShut == old(isShut)
      ensures task.Some? ==> old(queue) == [task.value] + queue
    {
      if queue == [] {
        return None;
      }
      task := Some(queue[0]);
      popped := popped + [queue[0]];
      queue := queue[1..];
    }

    method Shutdown()
      modifies this
      ensures Contents() == old(Contents()).(shut := true)
      ensures isShut && queue == old(queue)
    {
      isShut := true;
    }
  }

  // ---------------------------------------------------------------- the pool

  datatype Phase = Idle | Running(task: nat) | Exited

  datatype Worker = Worker(gen: nat, phase: Phase, stopRequested: bool)

  /** A submit or execute call: it has taken the pool's current queue, or knows the answer.  Its position
      names its task. */
  datatype Submission = Holding(gen: nat) | Answered(gen: nat, accepted: bool)

  datatype Stage = Asking | Joining | Returned

  /** A stop call that retires a generation, made by a worker of this pool or by anybody else: it asks the
      workers to stop one by one, and then joins or detaches them one by one. */
  datatype StopCall = StopCall(caller: Option<nat>, gen: nat, workers: seq<nat>, stage: Stage, next: nat)

  datatype Pool = Pool(size: nat, gens: seq<Gen>, workers: seq<Worker>, owned: seq<nat>, started: bool,
                       hasStarted: bool, submissions: seq<Submission>, stops: seq<StopCall>, finished: set<nat>)

  function Init(size: nat): Pool {
    Pool(size, [NEW_GEN], [], [], false, false, [], [], {})
  }

  datatype Step =
    | Submit                        // submit: the section under the pool's lock
    | PushTask(i: nat)              // submit: push_task
    | Start
    | Stop(caller: Option<nat>)     // stop: its section
    | Ask(i: nat)                   // stopWorkers: request_stop
    | Join(i: nat)                  // stopWorkers: join, or detach
    | PopTask(w: nat)
    | Finish(w: nat)

  predicate Enabled(s: Pool, step: Step) {
    && s.gens != []
    && match step
       case Submit => true
       case PushTask(i) => i < |s.submissions| && s.submissions[i].Holding? && s.submissions[i].gen < |s.gens|
       case Start => true
       case Stop(caller) => caller.Some? ==> caller.value < |s.workers| && s.workers[caller.value].phase.Running?
       case Ask(i) => i < |s.stops| && s.stops[i].stage.Asking?
                      && (s.stops[i].next < |s.stops[i].workers| ==> s.stops[i].workers[s.stops[i].next] < |s.workers|)
       case Join(i) => i < |s.stops| && s.stops[i].stage.Joining?
                       && (s.stops[i].next < |s.stops[i].workers| ==> CanPass(s, s.stops[i]))
       case PopTask(w) => w < |s.workers| && s.workers[w].phase.Idle? && s.workers[w].gen < |s.gens|
                          && CanPop(s.gens[s.workers[w].gen], s.workers[w].stopRequested)
       case Finish(w) => w < |s.workers| && s.workers[w].phase.Running?
  }

  /** A worker of the pool detaches without waiting; anybody else waits until the thread has exited. */
  predicate CanPass(s: Pool, k: StopCall)
    requires k.next < |k.workers|
  {
    && k.workers[k.next] < |s.workers|
    && (k.caller.None? ==> s.workers[k.workers[k.next]].phase.Exited?)
  }

  function DoSubmit(s: Pool): Pool
    requires Enabled(s, Submit)
  {
    s.(submissions := s.submissions + [Holding(|s.gens| - 1)])
  }

  function DoPush(s: Pool, i: nat): Pool
    requires Enabled(s, PushTask(i))
  {
    var k := s.submissions[i];
    var (g, ok) := Push(s.gens[k.gen], i);
    s.(gens := s.gens[k.gen := g], submissions := s.submissions[i := Answered(k.gen, ok)])
  }

  function Recruits(s: Pool, g: nat): seq<Worker> {
    seq(s.size, _ => Worker(g, Idle, false))
  }

  function DoStart(s: Pool): Pool
    requires Enabled(s, Start)
  {
    if s.started then s
    else
      var gens := if s.hasStarted then s.gens + [NEW_GEN] else s.gens;
      s.(gens := gens, started := true, hasStarted := true, workers := s.workers + Recruits(s, |gens| - 1),
         owned := seq(s.size, i requires 0 <= i => |s.workers| + i))
  }

  /** A stop call that finds the pool stopped returns at once. */
  function DoStop(s: Pool, caller: Option<nat>): Pool
    requires Enabled(s, Stop(caller))
  {
    if !s.started then s
    else
      var c := |s.gens| - 1;
      s.(started := false, gens := s.gens[c := s.gens[c].(shut := true)], owned := [],
         stops := s.stops + [StopCall(caller, c, s.owned, Asking, 0)])
  }

  function DoAsk(s: Pool, i: nat): Pool
    requires Enabled(s, Ask(i))
  {
    var k := s.stops[i];
    if k.next < |k.workers| then
      var w := k.workers[k.next];
      s.(workers := s.workers[w := s.workers[w].(stopRequested := true)], stops := s.stops[i := k.(next := k.next + 1)])
    else s.(stops := s.stops[i := k.(stage := Joining, next := 0)])
  }

  function DoJoin(s: Pool, i: nat): Pool
    requires Enabled(s, Join(i))
  {
    var k := s.stops[i];
    s.(stops := s.stops[i := if k.next < |k.workers| then k.(next := k.next + 1) else k.(stage := Returned)])
  }

  function DoPop(s: Pool, w: nat): Pool
    requires Enabled(s, PopTask(w))
  {
    var k := s.workers[w];
    var (g, task) := Pop(s.gens[k.gen]);
    s.(gens := s.gens[k.gen := g],
       workers := s.workers[w := k.(phase := if task.Some? then Running(task.value) else Exited)])
  }

  function DoFinish(s: Pool, w: nat): Pool
    requires Enabled(s, Finish(w))
  {
    s.(workers := s.workers[w := s.workers[w].(phase := Idle)], finished := s.finished + {s.workers[w].phase.task})
  }

  function Apply(s: Pool, step: Step): Pool
    requires Enabled(s, step)
  {
    match step
    case Submit => DoSubmit(s)
    case PushTask(i) => DoPush(s, i)
    case Start => DoStart(s)
    case Stop(caller) => DoStop(s, caller)
    case Ask(i) => DoAsk(s, i)
    case Join(i) => DoJoin(s, i)
    case PopTask(w) => DoPop(s, w)
    case Finish(w) => DoFinish(s, w)
  }

  function Run(size: nat, steps: seq<Step>): Option<Pool>
  {
    if steps == [] then Some(Init(size))
    else
      match Run(size, steps[..|steps| - 1])
      case None => None
      case Some(s) =>
        var step := steps[|steps| - 1];
        if Enabled(s, step) then Some(Apply(s, step)) else None
  }

  // ---------------------------------------------------------------- what always holds

  predicate GenOk(g: Gen) {
    g.accepted == g.popped + g.pending
  }

  /** All generations but the last are shut, and the last one is open until it is stopped. */
  predicate GensOk(s: Pool) {
    && s.gens != []
    && (forall g :: 0 <= g < |s.gens| ==> GenOk(s.gens[g]))
    && (forall g :: 0 <= g < |s.gens| - 1 ==> s.gens[g].shut)
    && (s.gens[|s.gens| - 1].shut <==> s.hasStarted && !s.started)
    && (s.started ==> s.hasStarted)
    && (!s.hasStarted ==> s.workers == [] && |s.gens| == 1)
  }

  predicate WorkerOk(s: Pool, k: Worker) {
    && k.gen < |s.gens|
    && (k.stopRequested ==> s.gens[k.gen].shut)
    && (k.phase.Exited? ==> s.gens[k.gen].shut && s.gens[k.gen].pending == [])
  }

  predicate WorkersOk(s: Pool) {
    forall w :: 0 <= w < |s.workers| ==> WorkerOk(s, s.workers[w])
  }

  predicate Accepted(s: Pool, g: nat, task: nat) {
    g < |s.gens| && task in s.gens[g].accepted
  }

  predicate Told(s: Pool, g: nat, task: nat) {
    task < |s.submissions| && s.submissions[task] == Answered(g, true)
  }

  predicate Distinct(q: seq<nat>) {
    forall i, j :: 0 <= i < j < |q| ==> q[i] != q[j]
  }

  /** Accepted tasks are exactly those whose submission was told so, each in its own generation and once. */
  ghost predicate AnswersOk(s: Pool) {
    && (forall g: nat, task: nat :: Accepted(s, g, task) <==> Told(s, g, task))
    && (forall g :: 0 <= g < |s.gens| ==> Distinct(s.gens[g].accepted))
  }

  predicate IsRunning(s: Pool, w: nat, g: nat, task: nat) {
    w < |s.workers| && s.workers[w].gen == g && s.workers[w].phase == Running(task)
  }

  /** Every task taken out of a queue has finished or is being run by a worker of that generation. */
  ghost predicate Handled(s: Pool, g: nat, task: nat) {
    task in s.finished || exists w: nat :: IsRunning(s, w, g, task)
  }

  ghost predicate AllHandled(s: Pool) {
    forall g, t :: 0 <= g < |s.gens| && t in s.gens[g].popped ==> Handled(s, g, t)
  }

  predicate RunnerOk(s: Pool, k: Worker) {
    k.phase.Running? ==>
      k.gen < |s.gens| && k.phase.task in s.gens[k.gen].popped && k.phase.task !in s.finished
  }

  predicate WasPopped(s: Pool, g: nat, task: nat) {
    g < |s.gens| && task in s.gens[g].popped
  }

  /** A running task was taken from the worker's own queue, has not finished, and nobody else runs it. */
  ghost predicate RunningOk(s: Pool) {
    && (forall w :: 0 <= w < |s.workers| ==> RunnerOk(s, s.workers[w]))
    && (forall v, w :: 0 <= v < w < |s.workers| && s.workers[v].phase.Running? ==>
      s.workers[v].phase != s.workers[w].phase)
    && (forall task :: task in s.finished ==> exists g: nat :: WasPopped(s, g, task))
  }

  /** `list` holds all workers of generation g, as many as the pool has. */
  ghost predicate Crew(s: Pool, list: seq<nat>, g: int) {
    && |list| == s.size
    && (forall j :: 0 <= j < |list| ==> list[j] < |s.workers| && s.workers[list[j]].gen == g)
    && (forall w: nat :: w < |s.workers| && s.workers[w].gen == g ==> w in list)
  }

  ghost predicate StopOk(s: Pool, k: StopCall) {
    && k.gen < |s.gens| && s.gens[k.gen].shut && Crew(s, k.workers, k.gen) && k.next <= |k.workers|
    && (k.stage.Returned? ==> k.next == |k.workers|)
    && (!k.stage.Asking? && k.caller.None? ==> forall j :: 0 <= j < k.next ==> s.workers[k.workers[j]].phase.Exited?)
  }

  ghost predicate StopsOk(s: Pool) {
    && (forall i :: 0 <= i < |s.stops| ==> StopOk(s, s.stops[i]))
    && (s.started ==> Crew(s, s.owned, |s.gens| - 1))
  }

  ghost predicate Inv(s: Pool) {
    GensOk(s) && WorkersOk(s) && AnswersOk(s) && AllHandled(s) && RunningOk(s) && StopsOk(s)
  }

  // ---------------------------------------------------------------- every step keeps it

  /** Whoever ran a task still does, or it has finished. */
  ghost predicate KeepsHandling(s: Pool, t: Pool) {
    && s.finished <= t.finished
    && (forall w: nat :: w < |s.workers| && s.workers[w].phase.Running? ==>
          Handled(t, s.workers[w].gen, s.workers[w].phase.task))
  }

  lemma HandledStays(s: Pool, t: Pool, g: nat, task: nat)
    requires KeepsHandling(s, t) && Handled(s, g, task)
    ensures Handled(t, g, task)
  {
    if task !in s.finished {
      var w: nat :| IsRunning(s, w, g, task);
      assert s.workers[w].phase.Running?;
    }
  }

  lemma AllHandledStays(s: Pool, t: Pool)
    requires AllHandled(s) && KeepsHandling(s, t)
    requires |s.gens| <= |t.gens|
    requires forall g :: 0 <= g < |s.gens| ==> t.gens[g].popped == s.gens[g].popped
    requires forall g :: |s.gens| <= g < |t.gens| ==> t.gens[g].popped == []
    ensures AllHandled(t)
  {
    forall g, task | 0 <= g < |t.gens| && task in t.gens[g].popped
      ensures Handled(t, g, task)
    {
      HandledStays(s, t, g, task);
    }
  }

  lemma SameRunners(s: Pool, t: Pool)
    requires s.finished <= t.finished && |s.workers| <= |t.workers|
    requires forall w :: 0 <= w < |s.workers| && s.workers[w].phase.Running? ==>
      t.workers[w].gen == s.workers[w].gen && t.workers[w].phase == s.workers[w].phase
    ensures KeepsHandling(s, t)
  {
    forall w: nat | w < |s.workers| && s.workers[w].phase.Running?
      ensures Handled(t, s.workers[w].gen, s.workers[w].phase.task)
    {
      assert IsRunning(t, w, s.workers[w].gen, s.workers[w].phase.task);
    }
  }

  // AnswersOk

  lemma SubmitAnswers(s: Pool)
    requires GensOk(s) && AnswersOk(s)
    ensures AnswersOk(DoSubmit(s))
  {
    var t := DoSubmit(s);
    forall g: nat, task: nat
      ensures Accepted(t, g, task) <==> Told(t, g, task)
    {
      assert Accepted(t, g, task) == Accepted(s, g, task) && Told(t, g, task) == Told(s, g, task);
    }
  }

  lemma DistinctGrows(q: seq<nat>, task: nat)
    requires Distinct(q) && task !in q
    ensures Distinct(q + [task])
  {
  }

  lemma PushAnswers(s: Pool, i: nat)
    requires AnswersOk(s) && Enabled(s, PushTask(i))
    ensures AnswersOk(DoPush(s, i))
  {
    var t, k := DoPush(s, i), s.submissions[i];
    assert !Told(s, k.gen, i) && !Accepted(s, k.gen, i);
    DistinctGrows(s.gens[k.gen].accepted, i);
    forall g: nat, task: nat
      ensures Accepted(t, g, task) <==> Told(t, g, task)
    {
      assert Accepted(s, g, task) <==> Told(s, g, task);
    }
  }

  /** The same tasks accepted, and the same answers. */
  predicate SameAnswers(s: Pool, t: Pool) {
    && t.submissions == s.submissions && |s.gens| <= |t.gens|
    && (forall g :: 0 <= g < |s.gens| ==> t.gens[g].accepted == s.gens[g].accepted)
    && (forall g :: |s.gens| <= g < |t.gens| ==> t.gens[g].accepted == [])
  }

  lemma AnswersStay(s: Pool, t: Pool)
    requires AnswersOk(s) && SameAnswers(s, t)
    ensures AnswersOk(t)
  {
    forall g: nat, task: nat
      ensures Accepted(t, g, task) <==> Told(t, g, task)
    {
      assert Accepted(t, g, task) == Accepted(s, g, task) && Told(t, g, task) == Told(s, g, task);
    }
  }

  // RunningOk

  predicate SamePopped(s: Pool, t: Pool) {
    |s.gens| <= |t.gens| && forall g :: 0 <= g < |s.gens| ==> t.gens[g].popped == s.gens[g].popped
  }

  /** The same workers in the same phases, and new ones without work. */
  predicate SamePhases(s: Pool, t: Pool) {
    && |s.workers| <= |t.workers| && t.finished == s.finished
    && (forall w :: 0 <= w < |s.workers| ==>
      t.workers[w].phase == s.workers[w].phase && t.workers[w].gen == s.workers[w].gen)
    && (forall w :: |s.workers| <= w < |t.workers| ==> t.workers[w].phase.Idle?)
  }

  lemma RunningStays(s: Pool, t: Pool)
    requires RunningOk(s) && SamePopped(s, t) && SamePhases(s, t)
    ensures RunningOk(t) && KeepsHandling(s, t)
  {
    forall w | 0 <= w < |t.workers|
      ensures RunnerOk(t, t.workers[w])
    {
      if w < |s.workers| {
        assert RunnerOk(s, s.workers[w]);
      }
    }
    forall task | task in t.finished
      ensures exists g: nat :: WasPopped(t, g, task)
    {
      var g: nat :| WasPopped(s, g, task);
      assert WasPopped(t, g, task);
    }
    SameRunners(s, t);
  }

  // the steps

  lemma SubmitKeeps(s: Pool)
    requires Inv(s)
    ensures Inv(DoSubmit(s))
  {
    var t := DoSubmit(s);
    SubmitAnswers(s);
    RunningStays(s, t);
    AllHandledStays(s, t);
  }

  lemma PushKeeps(s: Pool, i: nat)
    requires Inv(s) && Enabled(s, PushTask(i))
    ensures Inv(DoPush(s, i))
  {
    var t := DoPush(s, i);
    PushAnswers(s, i);
    RunningStays(s, t);
    AllHandledStays(s, t);
    PushStructure(s, i);
  }

  ghost predicate Structure(s: Pool) {
    GensOk(s) && WorkersOk(s) && StopsOk(s)
  }

  lemma PushStructure(s: Pool, i: nat)
    requires Structure(s) && Enabled(s, PushTask(i))
    ensures Structure(DoPush(s, i))
  {
  }

  lemma StartStructure(s: Pool)
    requires Structure(s) && !s.started
    ensures Structure(DoStart(s))
  {
    var t := DoStart(s);
    forall w: nat | w < |t.workers| && t.workers[w].gen == |t.gens| - 1
      ensures w in t.owned
    {
      assert w >= |s.workers| && t.owned[w - |s.workers|] == w;
    }
  }

  lemma StartKeeps(s: Pool)
    requires Inv(s)
    ensures Inv(DoStart(s))
  {
    if !s.started {
      var t := DoStart(s);
      StartStructure(s);
      AnswersStay(s, t);
      RunningStays(s, t);
      AllHandledStays(s, t);
    }
  }

  lemma StopStructure(s: Pool, caller: Option<nat>)
    requires Structure(s) && Enabled(s, Stop(caller))
    ensures Structure(DoStop(s, caller))
  {
  }

  lemma StopKeeps(s: Pool, caller: Option<nat>)
    requires Inv(s) && Enabled(s, Stop(caller))
    ensures Inv(DoStop(s, caller))
  {
    var t := DoStop(s, caller);
    StopStructure(s, caller);
    AnswersStay(s, t);
    RunningStays(s, t);
    AllHandledStays(s, t);
  }

  lemma AskStructure(s: Pool, i: nat)
    requires Structure(s) && Enabled(s, Ask(i))
    ensures Structure(DoAsk(s, i))
  {
    assert StopOk(s, s.stops[i]);
  }

  lemma AskKeeps(s: Pool, i: nat)
    requires Inv(s) && Enabled(s, Ask(i))
    ensures Inv(DoAsk(s, i))
  {
    var t := DoAsk(s, i);
    AskStructure(s, i);
    AnswersStay(s, t);
    RunningStays(s, t);
    AllHandledStays(s, t);
  }

  lemma JoinStructure(s: Pool, i: nat)
    requires Structure(s) && Enabled(s, Join(i))
    ensures Structure(DoJoin(s, i))
  {
    assert StopOk(s, s.stops[i]);
  }

  lemma JoinKeeps(s: Pool, i: nat)
    requires Inv(s) && Enabled(s, Join(i))
    ensures Inv(DoJoin(s, i))
  {
    var t := DoJoin(s, i);
    JoinStructure(s, i);
    AnswersStay(s, t);
    RunningStays(s, t);
    AllHandledStays(s, t);
  }

  lemma PopStructure(s: Pool, w: nat)
    requires Structure(s) && Enabled(s, PopTask(w))
    ensures Structure(DoPop(s, w))
  {
    assert WorkerOk(s, s.workers[w]);
  }

  lemma NotAgain(q: Gen)
    requires GenOk(q) && Distinct(q.accepted) && q.pending != []
    ensures q.pending[0] !in q.popped && q.pending[0] in q.accepted
  {
    assert q.accepted[|q.popped|] == q.pending[0];
    assert forall i :: 0 <= i < |q.popped| ==> q.accepted[i] == q.popped[i];
  }

  /** The first pending task has not been popped before, nor in another generation. */
  lemma FreshTask(s: Pool, g: nat, h: nat, task: nat)
    requires GensOk(s) && AnswersOk(s) && g < |s.gens| && s.gens[g].pending != [] && task == s.gens[g].pending[0]
    ensures !WasPopped(s, h, task)
  {
    NotAgain(s.gens[g]);
    if h != g && h < |s.gens| {
      assert Accepted(s, g, task) && Told(s, g, task) && !Told(s, h, task);
      assert !Accepted(s, h, task) && GenOk(s.gens[h]);
    }
  }

  lemma PopRunning(s: Pool, w: nat)
    requires GensOk(s) && AnswersOk(s) && RunningOk(s) && Enabled(s, PopTask(w))
    ensures RunningOk(DoPop(s, w))
  {
    var t, g := DoPop(s, w), s.workers[w].gen;
    forall v | 0 <= v < |t.workers|
      ensures RunnerOk(t, t.workers[v])
      ensures v != w ==> t.workers[v].phase == s.workers[v].phase
      ensures v != w && t.workers[w].phase.Running? ==> t.workers[v].phase != t.workers[w].phase
    {
      PopRunner(s, w, v);
    }
    forall task | task in t.finished
      ensures exists h: nat :: WasPopped(t, h, task)
    {
      var h: nat :| WasPopped(s, h, task);
      assert WasPopped(t, h, task);
    }
  }

  lemma PopRunner(s: Pool, w: nat, v: nat)
    requires GensOk(s) && AnswersOk(s) && RunningOk(s) && Enabled(s, PopTask(w)) && v < |s.workers|
    ensures
      var t := DoPop(s, w);
      && RunnerOk(t, t.workers[v]) && (v != w ==> t.workers[v] == s.workers[v])
      && (v != w && t.workers[w].phase.Running? ==> t.workers[v].phase != t.workers[w].phase)
  {
    var g := s.workers[w].gen;
    assert RunnerOk(s, s.workers[v]);
    if s.gens[g].pending != [] {
      var task := s.gens[g].pending[0];
      FreshTask(s, g, s.workers[v].gen, task);
      if task in s.finished {
        var h: nat :| WasPopped(s, h, task);
        FreshTask(s, g, h, task);
      }
    }
  }

  lemma PopHandled(s: Pool, w: nat)
    requires AllHandled(s) && Enabled(s, PopTask(w))
    ensures AllHandled(DoPop(s, w))
  {
    var t, k := DoPop(s, w), s.workers[w].gen;
    SameRunners(s, t);
    forall g, task | 0 <= g < |t.gens| && task in t.gens[g].popped
      ensures Handled(t, g, task)
    {
      if task in s.gens[g].popped {
        HandledStays(s, t, g, task);
      } else {
        assert IsRunning(t, w, g, task);
      }
    }
  }

  lemma PopKeeps(s: Pool, w: nat)
    requires Inv(s) && Enabled(s, PopTask(w))
    ensures Inv(DoPop(s, w))
  {
    PopStructure(s, w);
    AnswersStay(s, DoPop(s, w));
    PopRunning(s, w);
    PopHandled(s, w);
  }

  lemma FinishHandled(s: Pool, w: nat)
    requires AllHandled(s) && Enabled(s, Finish(w))
    ensures AllHandled(DoFinish(s, w))
  {
    var t := DoFinish(s, w);
    forall v: nat | v < |s.workers| && s.workers[v].phase.Running?
      ensures Handled(t, s.workers[v].gen, s.workers[v].phase.task)
    {
      assert v == w || IsRunning(t, v, s.workers[v].gen, s.workers[v].phase.task);
    }
    AllHandledStays(s, t);
  }

  lemma FinishRunning(s: Pool, w: nat)
    requires RunningOk(s) && Enabled(s, Finish(w))
    ensures RunningOk(DoFinish(s, w))
  {
    var t := DoFinish(s, w);
    assert RunnerOk(s, s.workers[w]);
    forall v | 0 <= v < |t.workers|
      ensures RunnerOk(t, t.workers[v])
    {
      assert RunnerOk(s, s.workers[v]);
    }
    forall task | task in t.finished
      ensures exists h: nat :: WasPopped(t, h, task)
    {
      if task in s.finished {
        var h: nat :| WasPopped(s, h, task);
        assert WasPopped(t, h, task);
      } else {
        assert WasPopped(t, s.workers[w].gen, task);
      }
    }
  }

  lemma FinishStructure(s: Pool, w: nat)
    requires Structure(s) && Enabled(s, Finish(w))
    ensures Structure(DoFinish(s, w))
  {
  }

  lemma FinishKeeps(s: Pool, w: nat)
    requires Inv(s) && Enabled(s, Finish(w))
    ensures Inv(DoFinish(s, w))
  {
    FinishStructure(s, w);
    AnswersStay(s, DoFinish(s, w));
    FinishRunning(s, w);
    FinishHandled(s, w);
  }

  lemma StepKeepsInv(s: Pool, step: Step)
    requires Inv(s) && Enabled(s, step)
    ensures Inv(Apply(s, step))
  {
    match step {
      case Submit => SubmitKeeps(s);
      case PushTask(i) => PushKeeps(s, i);
      case Start => StartKeeps(s);
      case Stop(caller) => StopKeeps(s, caller);
      case Ask(i) => AskKeeps(s, i);
      case Join(i) => JoinKeeps(s, i);
      case PopTask(w) => PopKeeps(s, w);
      case Finish(w) => FinishKeeps(s, w);
    }
  }

  lemma {:induction false} RunKeepsInv(size: nat, steps: seq<Step>, s: Pool)
    requires Run(size, steps) == Some(s)
    ensures Inv(s)
  {
    if steps != [] {
      var before := Run(size, steps[..|steps| - 1]).value;
      RunKeepsInv(size, steps[..|steps| - 1], before);
      StepKeepsInv(before, steps[|steps| - 1]);
    }
  }

  // ---------------------------------------------------------------- theorems

  /** Per generation, accepted tasks are the popped ones followed by the queued ones, in the order of their
      acceptance, and submit answered true exactly for the accepted ones. */
  lemma AcceptedIsPoppedThenQueued(size: nat, steps: seq<Step>, s: Pool, g: nat)
    requires Run(size, steps) == Some(s) && g < |s.gens|
    ensures s.gens[g].accepted == s.gens[g].popped + s.gens[g].pending
    ensures Distinct(s.gens[g].accepted)
    ensures forall task: nat :: task in s.gens[g].accepted <==> Told(s, g, task)
  {
    RunKeepsInv(size, steps, s);
    assert GenOk(s.gens[g]);
    forall task: nat
      ensures task in s.gens[g].accepted <==> Told(s, g, task)
    {
      assert Accepted(s, g, task) <==> Told(s, g, task);
    }
  }

  /** A worker gives up only when its queue is shut and empty. */
  lemma PopFailsOnlyOnShutEmptyQueue(size: nat, steps: seq<Step>, s: Pool, w: nat)
    requires Run(size, steps) == Some(s) && Enabled(s, PopTask(w)) && DoPop(s, w).workers[w].phase.Exited?
    ensures s.gens[s.workers[w].gen].shut && s.gens[s.workers[w].gen].pending == []
  {
    RunKeepsInv(size, steps, s);
    assert WorkerOk(s, s.workers[w]);
  }

  /** No two workers run the same task, none runs one that has finished, and a worker runs only tasks that
      its own generation accepted, so a retired worker never takes a task of a later generation. */
  lemma TasksRunOnce(size: nat, steps: seq<Step>, s: Pool, w: nat)
    requires Run(size, steps) == Some(s) && w < |s.workers| && s.workers[w].phase.Running?
    ensures s.workers[w].phase.task !in s.finished
    ensures Told(s, s.workers[w].gen, s.workers[w].phase.task)
    ensures forall v :: 0 <= v < |s.workers| && v != w ==> s.workers[v].phase != s.workers[w].phase
  {
    RunKeepsInv(size, steps, s);
    assert RunnerOk(s, s.workers[w]) && GenOk(s.gens[s.workers[w].gen]);
    assert Accepted(s, s.workers[w].gen, s.workers[w].phase.task);
  }

  /** When a stop call that was not made by a worker returns after retiring a generation, every task that was
      ever accepted into that generation has finished, provided that the pool has workers. */
  lemma StopDrains(size: nat, steps: seq<Step>, s: Pool, i: nat, task: nat)
    requires Run(size, steps) == Some(s) && size > 0
    requires i < |s.stops| && s.stops[i].stage.Returned? && s.stops[i].caller.None?
    requires Told(s, s.stops[i].gen, task)
    ensures task in s.finished
    ensures s.stops[i].gen < |s.gens| && s.gens[s.stops[i].gen].shut && s.gens[s.stops[i].gen].pending == []
  {
    RunKeepsInv(size, steps, s);
    SizeIsKept(size, steps, s);
    var k := s.stops[i];
    var g := k.gen;
    assert StopOk(s, k);
    assert WorkerOk(s, s.workers[k.workers[0]]) && GenOk(s.gens[g]);
    assert Accepted(s, g, task) && task in s.gens[g].popped;
    assert Handled(s, g, task);
    forall w: nat
      ensures !IsRunning(s, w, g, task)
    {
      if w < |s.workers| && s.workers[w].gen == g {
        assert w in k.workers;
      }
    }
  }

  lemma {:induction false} SizeIsKept(size: nat, steps: seq<Step>, s: Pool)
    requires Run(size, steps) == Some(s)
    ensures s.size == size
  {
    if steps != [] {
      var before := Run(size, steps[..|steps| - 1]).value;
      SizeIsKept(size, steps[..|steps| - 1], before);
      SizeStays(before, steps[|steps| - 1]);
    }
  }

  lemma SizeStays(s: Pool, step: Step)
    requires Enabled(s, step)
    ensures Apply(s, step).size == s.size
  {
  }

  /** Without workers nothing ever runs. */
  lemma {:induction false} NoWorkersNothingRuns(steps: seq<Step>, s: Pool)
    requires Run(0, steps) == Some(s)
    ensures s.workers == [] && s.finished == {}
  {
    if steps != [] {
      var before := Run(0, steps[..|steps| - 1]).value;
      NoWorkersNothingRuns(steps[..|steps| - 1], before);
      SizeIsKept(0, steps[..|steps| - 1], before);
      StillNoWorkers(before, steps[|steps| - 1]);
    }
  }

  lemma StillNoWorkers(s: Pool, step: Step)
    requires Enabled(s, step) && s.size == 0 && s.workers == [] && s.finished == {}
    ensures Apply(s, step).workers == [] && Apply(s, step).finished == {}
  {
  }

  /** A stop call made by a worker never waits. */
  lemma WorkerStopNeverBlocks(size: nat, steps: seq<Step>, s: Pool, i: nat)
    requires Run(size, steps) == Some(s) && i < |s.stops| && s.stops[i].caller.Some? && !s.stops[i].stage.Returned?
    ensures Enabled(s, if s.stops[i].stage.Asking? then Ask(i) else Join(i))
  {
    RunKeepsInv(size, steps, s);
    assert StopOk(s, s.stops[i]);
  }

  /** Any other stop call waits only for a worker that can still go on by itself. */
  lemma StopWaitsForLiveWorkers(size: nat, steps: seq<Step>, s: Pool, i: nat) returns (step: Step)
    requires Run(size, steps) == Some(s) && i < |s.stops| && !s.stops[i].stage.Returned?
    ensures Enabled(s, step)
    ensures step == Ask(i) || step == Join(i)
         || (exists w: nat ::
           (step == PopTask(w) || step == Finish(w)) && w < |s.workers| && s.workers[w].gen == s.stops[i].gen)
  {
    RunKeepsInv(size, steps, s);
    var k := s.stops[i];
    assert StopOk(s, k);
    if k.stage.Asking? {
      step := Ask(i);
    } else if k.next == |k.workers| || k.caller.Some? || s.workers[k.workers[k.next]].phase.Exited? {
      step := Join(i);
    } else {
      var w := k.workers[k.next];
      assert WorkerOk(s, s.workers[w]);
      step := if s.workers[w].phase.Idle? then PopTask(w) else Finish(w);
    }
  }

  /** What is left to do for one worker, and in one queue. */
  function Burden(p: Phase): nat {
    match p
    case Idle => 1
    case Running(task) => 2
    case Exited => 0
  }

  function Burdens(workers: seq<Worker>, g: nat): nat {
    if workers == [] then 0
    else
      var last := workers[|workers| - 1];
      Burdens(workers[..|workers| - 1], g) + if last.gen == g then Burden(last.phase) else 0
  }

  function Left(s: Pool, g: nat): nat
    requires g < |s.gens|
  {
    2 * |s.gens[g].pending| + Burdens(s.workers, g)
  }

  lemma {:induction false} BurdenChanges(workers: seq<Worker>, w: nat, k: Worker, g: nat)
    requires w < |workers| && k.gen == workers[w].gen
    ensures Burdens(workers[w := k], g) + (if k.gen == g then Burden(workers[w].phase) else 0)
         == Burdens(workers, g) + if k.gen == g then Burden(k.phase) else 0
  {
    var last := |workers| - 1;
    if w < last {
      BurdenChanges(workers[..last], w, k, g);
      assert workers[w := k][..last] == workers[..last][w := k];
    } else {
      assert workers[w := k][..last] == workers[..last];
    }
  }

  lemma {:induction false} OthersAddNothing(workers: seq<Worker>, more: seq<Worker>, g: nat)
    requires forall w :: 0 <= w < |more| ==> more[w].gen != g
    ensures Burdens(workers + more, g) == Burdens(workers, g)
  {
    if more == [] {
      assert workers + more == workers;
    } else {
      assert (workers + more)[..|workers + more| - 1] == workers + more[..|more| - 1];
      OthersAddNothing(workers, more[..|more| - 1], g);
    }
  }

  lemma OwnStepsLower(s: Pool, step: Step, w: nat, g: nat)
    requires GensOk(s) && WorkersOk(s) && Enabled(s, step) && (step == PopTask(w) || step == Finish(w))
    requires g == s.workers[w].gen
    ensures g < |s.gens| && g < |Apply(s, step).gens| && Left(Apply(s, step), g) < Left(s, g)
  {
    assert WorkerOk(s, s.workers[w]);
    BurdenChanges(s.workers, w, Apply(s, step).workers[w], g);
  }

  /** The step is taken by a worker of generation g. */
  predicate IsOwn(s: Pool, step: Step, g: nat) {
    match step
    case PopTask(w) => w < |s.workers| && s.workers[w].gen == g
    case Finish(w) => w < |s.workers| && s.workers[w].gen == g
    case _ => false
  }

  lemma ForeignWorkersKeepLeft(s: Pool, step: Step, w: nat, g: nat)
    requires Enabled(s, step) && (step == PopTask(w) || step == Finish(w)) && s.workers[w].gen != g < |s.gens|
    ensures g < |Apply(s, step).gens| && Left(Apply(s, step), g) == Left(s, g)
  {
    BurdenChanges(s.workers, w, Apply(s, step).workers[w], g);
  }

  lemma AskKeepsLeft(s: Pool, i: nat, g: nat)
    requires Enabled(s, Ask(i)) && g < |s.gens|
    ensures g < |DoAsk(s, i).gens| && Left(DoAsk(s, i), g) == Left(s, g)
  {
    var k := s.stops[i];
    if k.next < |k.workers| {
      var w := k.workers[k.next];
      BurdenChanges(s.workers, w, s.workers[w].(stopRequested := true), g);
    }
  }

  lemma StartKeepsLeft(s: Pool, g: nat)
    requires GensOk(s) && Enabled(s, Start) && g < |s.gens| && s.gens[g].shut
    ensures g < |DoStart(s).gens| && Left(DoStart(s), g) == Left(s, g)
  {
    if !s.started {
      OthersAddNothing(s.workers, Recruits(s, |DoStart(s).gens| - 1), g);
    }
  }

  lemma OthersNeverRaise(s: Pool, step: Step, g: nat)
    requires GensOk(s) && Enabled(s, step) && g < |s.gens| && s.gens[g].shut && !IsOwn(s, step, g)
    ensures g < |Apply(s, step).gens| && Left(Apply(s, step), g) <= Left(s, g)
  {
    match step {
      case Start => StartKeepsLeft(s, g);
      case Ask(i) => AskKeepsLeft(s, i, g);
      case PopTask(w) => ForeignWorkersKeepLeft(s, step, w, g);
      case Finish(w) => ForeignWorkersKeepLeft(s, step, w, g);
      case Submit =>
      case PushTask(i) =>
      case Stop(caller) =>
      case Join(i) =>
    }
  }

  lemma ShutStays(s: Pool, step: Step, g: nat)
    requires Enabled(s, step) && g < |s.gens| && s.gens[g].shut
    ensures g < |Apply(s, step).gens| && Apply(s, step).gens[g].shut
  {
  }

  /** An open generation accepts what is submitted to it, and a retired one refuses it; an accepted task is the last
      one in its queue. */
  lemma SubmitIsAnswered(s: Pool, i: nat)
    requires Enabled(s, PushTask(i))
    ensures
      var t, g := Apply(s, PushTask(i)), s.submissions[i].gen;
      && i < |t.submissions| && g < |t.gens| && t.submissions[i] == Answered(g, !s.gens[g].shut)
      && t.gens[g].pending == s.gens[g].pending + (if s.gens[g].shut then [] else [i])
  {
  }

  /** A submission goes to the current generation; a stop of a started pool retires it, together with all its workers;
      a finished task counts as finished. */
  lemma StepsTakeEffect(s: Pool, step: Step)
    requires Enabled(s, step)
    ensures
      var t := Apply(s, step);
      match step
      case Submit => t.submissions == s.submissions + [Holding(|s.gens| - 1)]
      case Stop(caller) =>
        s.started ==>
          !t.started && t.gens[|s.gens| - 1].shut && |t.stops| == |s.stops| + 1
          && t.stops[|s.stops|] == StopCall(caller, |s.gens| - 1, s.owned, Asking, 0)
      case Ask(i) =>
        s.stops[i].next < |s.stops[i].workers| ==> t.workers[s.stops[i].workers[s.stops[i].next]].stopRequested
      case Finish(w) => s.workers[w].phase.task in t.finished && t.workers[w].phase.Idle?
      case _ => true
  {
  }

  /** An idle worker takes the oldest task of its queue; it exits only if there is none. */
  lemma WorkerTakesOldest(s: Pool, w: nat)
    requires Enabled(s, PopTask(w))
    ensures
      var t, g := Apply(s, PopTask(w)), s.workers[w].gen;
      && w < |t.workers| && g < |t.gens|
      && (s.gens[g].pending == [] ==> t.workers[w].phase.Exited?)
      && (s.gens[g].pending != [] ==>
            t.workers[w].phase == Running(s.gens[g].pending[0])
            && s.gens[g].pending == [s.gens[g].pending[0]] + t.gens[g].pending)
  {
  }

  /** Starting a stopped pool gives it as many idle workers as it was made with, for a generation that is open. */
  lemma StartRecruits(s: Pool)
    requires GensOk(s) && Enabled(s, Start) && !s.started
    ensures
      var t := Apply(s, Start);
      && t.started && t.gens != [] && !t.gens[|t.gens| - 1].shut
      && |t.workers| == |s.workers| + s.size && |t.owned| == s.size
      && (forall i :: 0 <= i < s.size ==>
            t.owned[i] == |s.workers| + i && t.workers[t.owned[i]] == Worker(|t.gens| - 1, Idle, false))
  {
  }

  /** A generation runs out: each step of one of its workers lowers what is left of it, and once it is retired it
      stays retired and no other step raises that. */
  lemma RetiredGenerationRunsOut(size: nat, steps: seq<Step>, s: Pool, step: Step, g: nat)
    requires Run(size, steps) == Some(s) && Enabled(s, step) && g < |s.gens|
    ensures g < |Apply(s, step).gens|
    ensures IsOwn(s, step, g) ==> Left(Apply(s, step), g) < Left(s, g)
    ensures s.gens[g].shut ==> Apply(s, step).gens[g].shut && Left(Apply(s, step), g) <= Left(s, g)
  {
    RunKeepsInv(size, steps, s);
    GensStay(s, step);
    if IsOwn(s, step, g) {
      OwnStepsLower(s, step, step.w, g);
    } else if s.gens[g].shut {
      OthersNeverRaise(s, step, g);
    }
    if s.gens[g].shut {
      ShutStays(s, step, g);
    }
  }

  lemma GensStay(s: Pool, step: Step)
    requires Enabled(s, step)
    ensures |s.gens| <= |Apply(s, step).gens|
  {
  }
}
