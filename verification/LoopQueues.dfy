/** The three queues of veventloop.h as values: what one lock section or atomic step does to each, what
    always holds of them, and how they may have changed when a callback returns. */
module LoopQueues {

  // ---------------------------------------------------------------- posted tasks

  /** The ids in the queue, the next id, and the ids started so far in the order of their starts. */
  datatype Tasks = Tasks(queue: seq<nat>, next: nat, started: seq<nat>)

  /** Every id below `next` has started or is queued, in order. */
  ghost predicate TasksOk(t: Tasks) {
    && |t.started| + |t.queue| == t.next
    && (forall i :: 0 <= i < |t.started| ==> t.started[i] == i)
    && (forall i :: 0 <= i < |t.queue| ==> t.queue[i] == |t.started| + i)
  }

  ghost predicate TasksLater(a: Tasks, b: Tasks) {
    a.next <= b.next && |a.started| <= |b.started| && b.started[..|a.started|] == a.started
  }

  /** The section of invoke. */
  function Post(t: Tasks): Tasks {
    t.(queue := t.queue + [t.next], next := t.next + 1)
  }

  /** The section of drainPostedTasks that takes a task; it starts at once. */
  function PopTask(t: Tasks): Tasks
    requires t.queue != []
  {
    t.(queue := t.queue[1..], started := t.started + [t.queue[0]])
  }

  lemma PostKeeps(t: Tasks)
    requires TasksOk(t)
    ensures TasksOk(Post(t)) && TasksLater(t, Post(t))
  {
  }

  lemma PopKeeps(t: Tasks)
    requires TasksOk(t) && t.queue != []
    ensures TasksOk(PopTask(t)) && TasksLater(t, PopTask(t))
  {
  }

  lemma TasksCompose(a: Tasks, b: Tasks, c: Tasks)
    requires TasksLater(a, b) && TasksLater(b, c)
    ensures TasksLater(a, c)
  {
    assert c.started[..|a.started|] == c.started[..|b.started|][..|a.started|];
  }

  // ---------------------------------------------------------------- timers

  datatype Option<+T> = None | Some(value: T)

  datatype Key = Key(due: nat, id: nat)

  /** The order of std::pair<time_point, size_t>. */
  predicate Before(a: Key, b: Key) {
    a.due < b.due || (a.due == b.due && a.id < b.id)
  }

  /** `flights` holds the scheduleAfter calls under way on any thread: their ids and, once they have it, their
      due times.  `late` holds the timers that were inserted only after one that belongs behind them had been
      popped. */
  datatype Timers = Timers(clock: nat, nextId: nat, queue: seq<Key>, flights: map<nat, Option<nat>>,
                           cancelled: set<nat>, popped: seq<Key>, started: seq<Key>, late: set<nat>)

  function NoTimers(): Timers {
    Timers(0, 1, [], map[], {}, [], [], {})
  }

  predicate Sorted(q: seq<Key>) {
    forall i, j :: 0 <= i < j < |q| ==> Before(q[i], q[j])
  }

  function QueuedIds(q: seq<Key>): set<nat> {
    set k | k in q :: k.id
  }

  /** The ids that a schedule call holds or that wait in the queue. */
  function OpenIds(t: Timers): set<nat> {
    QueuedIds(t.queue) + t.flights.Keys
  }

  /** Timer k has this due time, in the queue or on its way there. */
  predicate IsDated(t: Timers, k: Key) {
    k in t.queue || (k.id in t.flights && t.flights[k.id] == Some(k.due))
  }

  ghost predicate QueueOk(t: Timers) {
    && Sorted(t.queue)
    && (forall k :: k in t.queue ==> k.id < t.nextId && k.id !in t.flights)
    && (forall a, b :: a in t.queue && b in t.queue && a.id == b.id ==> a == b)
    && (forall id :: id in t.flights ==> id < t.nextId && id !in t.cancelled)
    && (forall id :: id in t.cancelled ==> id < t.nextId)
  }

  /** What has been popped is over. */
  ghost predicate PoppedOk(t: Timers) {
    && (forall k :: k in t.popped ==> k.due <= t.clock && k.id < t.nextId && k.id !in t.flights)
    && (forall k, j :: k in t.popped && j in t.queue ==> k.id != j.id)
    && (forall i, j :: 0 <= i < j < |t.popped| ==> t.popped[i].id != t.popped[j].id)
  }

  /** Some popped timer belongs behind k. */
  predicate Overtaken(popped: seq<Key>, k: Key) {
    exists i :: 0 <= i < |popped| && Before(k, popped[i])
  }

  /** Timers leave the queue in order, except for late ones, each of which leaves it out of order. */
  ghost predicate OrderOk(t: Timers) {
    && (forall i, j :: 0 <= i < j < |t.popped| ==> t.popped[j].id in t.late || Before(t.popped[i], t.popped[j]))
    && (forall j :: 0 <= j < |t.popped| && t.popped[j].id in t.late ==> Overtaken(t.popped[..j], t.popped[j]))
    && (forall k, j :: k in t.popped && j in t.queue ==> j.id in t.late || Before(k, j))
    && (forall j :: j in t.queue && j.id in t.late ==> Overtaken(t.popped, j))
    && (forall id :: id in t.late ==> id < t.nextId && id !in t.flights)
  }

  /** The keys of a, in their order, are some of those of b. */
  predicate Among(a: seq<Key>, b: seq<Key>)
    decreases |b|
  {
    a == [] || (b != [] && (
      var rest := b[..|b| - 1];
      Among(a, rest) || (a[|a| - 1] == b[|b| - 1] && Among(a[..|a| - 1], rest))))
  }

  lemma {:induction false} AmongMembers(a: seq<Key>, b: seq<Key>)
    requires Among(a, b)
    ensures forall k :: k in a ==> k in b
    decreases |b|
  {
    if a != [] {
      var rest := b[..|b| - 1];
      if Among(a, rest) {
        AmongMembers(a, rest);
      } else {
        AmongMembers(a[..|a| - 1], rest);
        assert a == a[..|a| - 1] + [a[|a| - 1]];
      }
    }
  }

  /** Started timers follow each other in order, except for late ones. */
  predicate InOrder(started: seq<Key>, late: set<nat>) {
    forall i, j :: 0 <= i < j < |started| ==> started[j].id in late || Before(started[i], started[j])
  }

  /** Timers start at most once, in the order in which they were popped. */
  ghost predicate StartedOk(t: Timers) {
    && Among(t.started, t.popped)
    && (forall i, j :: 0 <= i < j < |t.started| ==> t.started[i].id != t.started[j].id)
    && InOrder(t.started, t.late)
  }

  predicate DealtWith(t: Timers, k: Key) {
    k in t.started || k.id in t.cancelled
  }

  /** Between pops: the last timer popped has started, or it has been cancelled. */
  predicate Resolved(t: Timers) {
    t.popped == [] || DealtWith(t, t.popped[|t.popped| - 1])
  }

  /** Of the timers that were popped, at most the last one has yet to start. */
  ghost predicate NoneLost(t: Timers) {
    forall i :: 0 <= i < |t.popped| - 1 ==> DealtWith(t, t.popped[i])
  }

  ghost predicate TimersOk(t: Timers) {
    QueueOk(t) && PoppedOk(t) && OrderOk(t) && StartedOk(t) && NoneLost(t)
  }

  ghost predicate TimersLater(a: Timers, b: Timers) {
    && a.clock <= b.clock && a.nextId <= b.nextId && a.cancelled <= b.cancelled
    && a.popped <= b.popped && a.started <= b.started && a.late <= b.late
    && (forall k: Key :: IsDated(b, k) ==> IsDated(a, k) || a.clock <= k.due)
    && (forall id :: id in OpenIds(b) && id < a.nextId ==> id in OpenIds(a))
    && (forall i :: |a.started| <= i < |b.started| ==> b.started[i].id !in a.cancelled)
    && (forall k :: k in a.queue ==> k in b.queue || k in b.popped || k.id in b.cancelled)
  }

  lemma TimersCompose(a: Timers, b: Timers, c: Timers)
    requires TimersLater(a, b) && TimersLater(b, c)
    ensures TimersLater(a, c)
  {
    forall i | |a.started| <= i < |c.started|
      ensures c.started[i].id !in a.cancelled
    {
      if i < |b.started| {
        assert c.started[i] == b.started[i];
      }
    }
  }

  /** Time passes. */
  function Tick(t: Timers, d: nat): Timers {
    t.(clock := t.clock + d)
  }

  /** Somebody else takes an id. */
  function SkipId(t: Timers): Timers {
    t.(nextId := t.nextId + 1)
  }

  /** scheduleAfter takes its id. */
  function Reserve(t: Timers): Timers {
    t.(flights := t.flights[t.nextId := None], nextId := t.nextId + 1)
  }

  /** scheduleAfter reads the clock. */
  function Date(t: Timers, id: nat, milliseconds: int): Timers
    requires id in t.flights && t.flights[id].None?
  {
    t.(flights := t.flights[id := Some(t.clock + (if milliseconds > 0 then milliseconds else 0))])
  }

  /** The place of k in a sorted queue. */
  function Emplace(q: seq<Key>, k: Key): seq<Key> {
    if q == [] then [k]
    else if Before(k, q[0]) then [k] + q
    else [q[0]] + Emplace(q[1..], k)
  }

  lemma {:induction false} EmplaceKeeps(q: seq<Key>, k: Key)
    requires Sorted(q) && forall j :: j in q ==> j.id != k.id
    ensures Sorted(Emplace(q, k))
    ensures forall j :: j in Emplace(q, k) <==> j == k || j in q
  {
    if q != [] && !Before(k, q[0]) {
      EmplaceKeeps(q[1..], k);
      assert q == [q[0]] + q[1..] && q[0] in q;
      assert forall j :: j in q[1..] ==> j in q;
      assert forall j :: j in Emplace(q[1..], k) ==> Before(q[0], j);
    }
  }

  /** scheduleAfter inserts its timer. */
  function Insert(t: Timers, id: nat): Timers
    requires id in t.flights && t.flights[id].Some?
  {
    var k := Key(t.flights[id].value, id);
    t.(queue := Emplace(t.queue, k), flights := t.flights - {id},
       late := if Overtaken(t.popped, k) then t.late + {id} else t.late)
  }

  /** connection::reset raises the flag; scheduleAfter must have returned the connection. */
  function RaiseFlag(t: Timers, id: nat): Timers {
    t.(cancelled := t.cancelled + {id})
  }

  function Without(q: seq<Key>, k: Key): seq<Key> {
    if q == [] then [] else if q[0] == k then q[1..] else [q[0]] + Without(q[1..], k)
  }

  lemma {:induction false} WithoutKeeps(q: seq<Key>, k: Key)
    requires Sorted(q)
    ensures Sorted(Without(q, k))
    ensures forall j :: j in Without(q, k) <==> j in q && j != k
  {
    if q != [] {
      assert q == [q[0]] + q[1..];
      WithoutKeeps(q[1..], k);
      assert forall j :: j in q[1..] ==> Before(q[0], j);
    }
  }

  /** connection::reset takes the timer out of the queue. */
  function Extract(t: Timers, k: Key): Timers {
    t.(queue := Without(t.queue, k))
  }

  /** The section of processDelays that takes the first timer. */
  function Pop(t: Timers): Timers
    requires t.queue != []
  {
    t.(queue := t.queue[1..], popped := t.popped + [t.queue[0]])
  }

  /** The timer just popped starts. */
  function StartTimer(t: Timers): Timers
    requires t.popped != []
  {
    t.(started := t.started + [t.popped[|t.popped| - 1]])
  }

  ghost predicate TimersStep(a: Timers, b: Timers) {
    TimersOk(b) && TimersLater(a, b)
  }

  lemma TickKeeps(t: Timers, d: nat)
    requires TimersOk(t)
    ensures TimersStep(t, Tick(t, d))
  {
  }

  lemma SkipKeeps(t: Timers)
    requires TimersOk(t)
    ensures TimersStep(t, SkipId(t))
  {
  }

  lemma ReserveKeeps(t: Timers)
    requires TimersOk(t)
    ensures TimersStep(t, Reserve(t))
  {
  }

  lemma DateKeeps(t: Timers, id: nat, milliseconds: int)
    requires TimersOk(t) && id in t.flights && t.flights[id].None?
    ensures TimersStep(t, Date(t, id, milliseconds))
  {
  }

  lemma InsertKeeps(t: Timers, id: nat)
    requires TimersOk(t) && id in t.flights && t.flights[id].Some?
    ensures TimersStep(t, Insert(t, id))
  {
    var k := Key(t.flights[id].value, id);
    EmplaceKeeps(t.queue, k);
    assert IsDated(t, k);
  }

  lemma RaiseKeeps(t: Timers, id: nat)
    requires TimersOk(t) && id < t.nextId && id !in t.flights
    ensures TimersStep(t, RaiseFlag(t, id))
  {
  }

  lemma ExtractKeeps(t: Timers, k: Key)
    requires TimersOk(t) && k.id in t.cancelled
    ensures TimersStep(t, Extract(t, k))
  {
    WithoutKeeps(t.queue, k);
  }

  lemma PopTimerKeeps(t: Timers)
    requires TimersOk(t) && t.queue != [] && t.queue[0].due <= t.clock && Resolved(t)
    ensures TimersStep(t, Pop(t))
  {
    var u, k := Pop(t), t.queue[0];
    assert forall j :: j in t.queue[1..] ==> j in t.queue && Before(k, j);
    assert k in t.queue;
    assert u.popped[..|u.popped| - 1] == t.popped;
    PopKeepsOrder(t);
    PopLosesNone(t);
  }

  lemma PopLosesNone(t: Timers)
    requires NoneLost(t) && Resolved(t) && t.queue != []
    ensures NoneLost(Pop(t))
  {
  }

  lemma PopKeepsOrder(t: Timers)
    requires QueueOk(t) && PoppedOk(t) && OrderOk(t) && t.queue != []
    ensures OrderOk(Pop(t))
  {
    var u, k := Pop(t), t.queue[0];
    assert forall j :: j in u.queue ==> j in t.queue && Before(k, j);
    PoppedOneMore(t.popped, k, t.late);
    forall j | j in u.queue && j.id in u.late
      ensures Overtaken(u.popped, j)
    {
      OvertakenStays(t.popped, k, j);
    }
  }

  lemma OvertakenStays(popped: seq<Key>, k: Key, j: Key)
    requires Overtaken(popped, j)
    ensures Overtaken(popped + [k], j)
  {
    var i :| 0 <= i < |popped| && Before(j, popped[i]);
    assert (popped + [k])[i] == popped[i];
  }

  lemma PoppedOneMore(popped: seq<Key>, k: Key, late: set<nat>)
    requires forall j :: 0 <= j < |popped| && popped[j].id in late ==> Overtaken(popped[..j], popped[j])
    requires k.id in late ==> Overtaken(popped, k)
    ensures
      var more := popped + [k];
      forall j :: 0 <= j < |more| && more[j].id in late ==> Overtaken(more[..j], more[j])
  {
    var more := popped + [k];
    forall j | 0 <= j < |more| && more[j].id in late
      ensures Overtaken(more[..j], more[j])
    {
      assert more[..j] == popped[..j];
      assert popped[..|popped|] == popped;
    }
  }

  /** Whatever is among the earlier pops may be followed by the last one. */
  lemma AmongFollowed(started: seq<Key>, rest: seq<Key>, k: Key)
    requires Among(started, rest + [k]) && k !in started
    ensures Among(started, rest) && Among(started + [k], rest + [k])
  {
    assert (started + [k])[..|started|] == started && (rest + [k])[..|rest|] == rest;
  }

  /** It comes after all of them. */
  lemma LastComesAfter(rest: seq<Key>, k: Key, late: set<nat>, s: Key)
    requires forall i :: 0 <= i < |rest| ==> rest[i].id != k.id && (k.id in late || Before(rest[i], k))
    requires s in rest
    ensures s.id != k.id && (k.id in late || Before(s, k))
  {
  }

  lemma OneMoreStart(started: seq<Key>, rest: seq<Key>, k: Key, late: set<nat>)
    requires Among(started, rest + [k]) && k !in started
    requires forall i :: 0 <= i < |rest| ==> rest[i].id != k.id && (k.id in late || Before(rest[i], k))
    ensures Among(started + [k], rest + [k])
    ensures forall i :: 0 <= i < |started| ==> started[i].id != k.id && (k.id in late || Before(started[i], k))
  {
    AmongFollowed(started, rest, k);
    AmongMembers(started, rest);
    forall i | 0 <= i < |started|
      ensures started[i].id != k.id && (k.id in late || Before(started[i], k))
    {
      LastComesAfter(rest, k, late, started[i]);
    }
  }

  lemma StartKeepsStarted(t: Timers)
    requires PoppedOk(t) && OrderOk(t) && StartedOk(t) && !Resolved(t)
    ensures StartedOk(StartTimer(t))
  {
    var k, rest := t.popped[|t.popped| - 1], t.popped[..|t.popped| - 1];
    assert t.popped == rest + [k];
    OneMoreStart(t.started, rest, k, t.late);
  }

  lemma StartKeeps(t: Timers)
    requires TimersOk(t) && !Resolved(t)
    ensures TimersStep(t, StartTimer(t))
  {
    StartKeepsStarted(t);
    StartIsLater(t);
  }

  lemma StartIsLater(t: Timers)
    requires !Resolved(t)
    ensures TimersLater(t, StartTimer(t))
  {
  }

  /** The ids below limit that are still open: what one pass of processDelays can pop. */
  function OpenBelow(t: Timers, limit: nat): set<nat> {
    set id | id in OpenIds(t) && id < limit
  }

  lemma Smaller(a: set<nat>, b: set<nat>)
    requires a <= b
    ensures |a| <= |b| && (a != b ==> |a| < |b|)
  {
    assert b == a + (b - a);
  }

  lemma OpenBelowShrinks(a: Timers, b: Timers, limit: nat)
    requires TimersLater(a, b) && limit <= a.nextId
    ensures |OpenBelow(b, limit)| <= |OpenBelow(a, limit)|
  {
    Smaller(OpenBelow(b, limit), OpenBelow(a, limit));
  }

  lemma PopLowersOpenBelow(t: Timers, limit: nat)
    requires TimersOk(t) && t.queue != [] && t.queue[0].id < limit
    ensures |OpenBelow(Pop(t), limit)| < |OpenBelow(t, limit)|
  {
    var id := t.queue[0].id;
    assert t.queue[0] in t.queue && id in OpenBelow(t, limit);
    forall k | k in t.queue[1..]
      ensures k.id != id && k in t.queue
    {
      assert Before(t.queue[0], k);
    }
    assert id !in OpenBelow(Pop(t), limit);
    assert OpenBelow(Pop(t), limit) <= OpenBelow(t, limit);
    Smaller(OpenBelow(Pop(t), limit), OpenBelow(t, limit));
  }

  /** A timer that has taken its id at or after `limit` is due at or after `now`. */
  ghost predicate Fresh(t: Timers, limit: nat, now: nat) {
    forall k: Key :: IsDated(t, k) && limit <= k.id ==> now <= k.due
  }

  lemma FreshStays(a: Timers, b: Timers, limit: nat, now: nat)
    requires Fresh(a, limit, now) && TimersLater(a, b) && now <= a.clock
    ensures Fresh(b, limit, now)
  {
  }

  /** Where processDelays stops, nothing older is left that was due. */
  lemma NothingDueIsLeft(t: Timers, limit: nat, now: nat, k: Key)
    requires TimersOk(t) && Fresh(t, limit, now)
    requires t.queue == [] || t.queue[0].due > now || t.queue[0].id >= limit
    requires k in t.queue && k.id < limit
    ensures now < k.due
  {
    assert t.queue[0] in t.queue && IsDated(t, t.queue[0]);
    assert k == t.queue[0] || Before(t.queue[0], k);
  }

  // ---------------------------------------------------------------- every step on the timers

  datatype TimerStep =
    | Ticks(d: nat)
    | SkipsId
    | Reserves
    | Dates(id: nat, milliseconds: int)
    | Inserts(id: nat)
    | RaisesFlag(id: nat)
    | Extracts(key: Key)
    | Pops
    | Starts

  predicate TimerEnabled(t: Timers, step: TimerStep) {
    match step
    case Ticks(_) => true
    case SkipsId => true
    case Reserves => true
    case Dates(id, _) => id in t.flights && t.flights[id].None?
    case Inserts(id) => id in t.flights && t.flights[id].Some?
    case RaisesFlag(id) => id < t.nextId && id !in t.flights
    case Extracts(key) => key.id in t.cancelled
    case Pops => t.queue != [] && t.queue[0].due <= t.clock && Resolved(t)
    case Starts => !Resolved(t)
  }

  function TimerApply(t: Timers, step: TimerStep): Timers
    requires TimerEnabled(t, step)
  {
    match step
    case Ticks(d) => Tick(t, d)
    case SkipsId => SkipId(t)
    case Reserves => Reserve(t)
    case Dates(id, milliseconds) => Date(t, id, milliseconds)
    case Inserts(id) => Insert(t, id)
    case RaisesFlag(id) => RaiseFlag(t, id)
    case Extracts(key) => Extract(t, key)
    case Pops => Pop(t)
    case Starts => StartTimer(t)
  }

  lemma TimerStepKeeps(t: Timers, step: TimerStep)
    requires TimersOk(t) && TimerEnabled(t, step)
    ensures TimersStep(t, TimerApply(t, step))
    ensures !step.Pops? && !step.Starts? ==>
      TimerApply(t, step).popped == t.popped && TimerApply(t, step).started == t.started
  {
    match step {
      case Ticks(d) => TickKeeps(t, d);
      case SkipsId => SkipKeeps(t);
      case Reserves => ReserveKeeps(t);
      case Dates(id, milliseconds) => DateKeeps(t, id, milliseconds);
      case Inserts(id) => InsertKeeps(t, id);
      case RaisesFlag(id) => RaiseKeeps(t, id);
      case Extracts(key) => ExtractKeeps(t, key);
      case Pops => PopTimerKeeps(t);
      case Starts => StartKeeps(t);
    }
  }

  // ---------------------------------------------------------------- conditions

  predicate Distinct(q: seq<nat>) {
    forall i, j :: 0 <= i < j < |q| ==> q[i] != q[j]
  }

  lemma DistinctGrows(q: seq<nat>, id: nat)
    requires Distinct(q) && id !in q
    ensures Distinct(q + [id]) && Distinct([id] + q)
  {
    forall i, j | 0 <= i < j < |[id] + q|
      ensures ([id] + q)[i] != ([id] + q)[j]
    {
      assert ([id] + q)[j] in q;
    }
  }

  /** The conditional tasks by id.  `probing` holds those whose predicate is being called, `claiming` the one
      that has just been taken out of the list to be run, `ran` those whose action was started, and `dropped`
      those whose cancellation came first.  `asked` counts the calls of each predicate, and
      `approved` holds those whose predicate has said yes. */
  datatype Conditions = Conditions(next: nat, queue: seq<nat>, cancelled: set<nat>, evaluating: set<nat>,
                                   probing: set<nat>, claiming: Option<nat>, ran: seq<nat>, dropped: set<nat>,
                                   asked: multiset<nat>, approved: set<nat>)

  ghost predicate ConditionsOk(c: Conditions) {
    && (forall id :: id in c.queue ==> id < c.next)
    && Distinct(c.queue)
    && (forall id :: id in c.ran ==> id < c.next && id in c.cancelled && id !in c.queue && id !in c.dropped)
    && (forall i, j :: 0 <= i < j < |c.ran| ==> c.ran[i] != c.ran[j])
    && (forall id :: id in c.cancelled <==> id in c.dropped || id in c.ran)
    && (forall id :: id in c.cancelled ==> id < c.next)
    && (forall id :: id in c.approved ==> id < c.next && (id !in c.queue || id in c.evaluating))
    && (forall id: nat :: id < c.next ==> id in c.queue || id in c.cancelled || c.claiming == Some(id))
    && (c.claiming.Some? ==> c.claiming.value !in c.queue && c.claiming.value !in c.ran && c.claiming.value < c.next)
    && c.probing <= c.evaluating
  }

  ghost predicate ConditionsLater(a: Conditions, b: Conditions) {
    && a.next <= b.next && a.cancelled <= b.cancelled && a.dropped <= b.dropped && a.ran <= b.ran
    && a.asked <= b.asked && a.approved <= b.approved
    && (forall id :: id in b.queue && id < a.next ==> id in a.queue)
    && (forall i :: |a.ran| <= i < |b.ran| ==> b.ran[i] !in a.cancelled)
  }

  predicate SameFlags(a: Conditions, b: Conditions) {
    && b.evaluating == a.evaluating && b.probing == a.probing && b.claiming == a.claiming
    && (forall id :: id in a.probing && id in b.approved ==> id in a.approved)
  }

  /** As seen by a frame that called somebody else. */
  ghost predicate ConditionsReturn(a: Conditions, b: Conditions) {
    ConditionsLater(a, b) && SameFlags(a, b)
  }

  lemma ConditionsCompose(a: Conditions, b: Conditions, c: Conditions)
    requires ConditionsLater(a, b) && ConditionsLater(b, c)
    ensures ConditionsLater(a, c)
  {
    forall i | |a.ran| <= i < |c.ran|
      ensures c.ran[i] !in a.cancelled
    {
      if i < |b.ran| {
        assert c.ran[i] == b.ran[i];
      }
    }
  }

  /** scheduleWhen */
  function AddCondition(c: Conditions): Conditions {
    c.(queue := c.queue + [c.next], next := c.next + 1)
  }

  /** connection::reset of a condition */
  function CancelCondition(c: Conditions, id: nat): Conditions {
    c.(cancelled := c.cancelled + {id}, dropped := if id in c.cancelled then c.dropped else c.dropped + {id})
  }

  function Remove(q: seq<nat>, id: nat): seq<nat> {
    if q == [] then [] else if q[0] == id then q[1..] else [q[0]] + Remove(q[1..], id)
  }

  lemma {:induction false} RemoveKeeps(q: seq<nat>, id: nat)
    requires Distinct(q)
    ensures Distinct(Remove(q, id))
    ensures forall j :: j in Remove(q, id) <==> j in q && j != id
  {
    if q != [] {
      assert q == [q[0]] + q[1..];
      RemoveKeeps(q[1..], id);
      assert forall j :: j in q[1..] ==> q[0] != j;
      DistinctGrows(Remove(q[1..], id), q[0]);
    }
  }

  /** removeCondition on a cancelled condition */
  function Discard(c: Conditions, id: nat): Conditions {
    c.(queue := Remove(c.queue, id))
  }

  /** removeCondition on a ready one: it is taken out to be run. */
  function Take(c: Conditions, id: nat): Conditions {
    c.(queue := Remove(c.queue, id), claiming := Some(id))
  }

  /** The exchange that decides between the action and a cancellation. */
  function Decide(c: Conditions): Conditions
    requires c.claiming.Some?
  {
    var id := c.claiming.value;
    if id in c.cancelled then c.(claiming := None)
    else c.(claiming := None, cancelled := c.cancelled + {id}, ran := c.ran + [id])
  }

  function BeginEvaluation(c: Conditions, id: nat): Conditions {
    c.(evaluating := c.evaluating + {id})
  }

  function EndEvaluation(c: Conditions, id: nat): Conditions {
    c.(evaluating := c.evaluating - {id})
  }

  ghost predicate ConditionsStep(a: Conditions, b: Conditions) {
    ConditionsOk(b) && ConditionsLater(a, b)
  }

  lemma AddKeeps(c: Conditions)
    requires ConditionsOk(c)
    ensures ConditionsStep(c, AddCondition(c))
  {
    DistinctGrows(c.queue, c.next);
  }

  lemma CancelKeeps(c: Conditions, id: nat)
    requires ConditionsOk(c) && id < c.next
    ensures ConditionsStep(c, CancelCondition(c, id))
  {
  }

  lemma DiscardKeeps(c: Conditions, id: nat)
    requires ConditionsOk(c) && id in c.cancelled
    ensures ConditionsStep(c, Discard(c, id))
  {
    RemoveKeeps(c.queue, id);
  }

  lemma TakeKeeps(c: Conditions, id: nat)
    requires ConditionsOk(c) && id in c.queue && c.claiming.None?
    ensures ConditionsStep(c, Take(c, id))
  {
    RemoveKeeps(c.queue, id);
  }

  lemma DecideKeeps(c: Conditions)
    requires ConditionsOk(c) && c.claiming.Some?
    ensures ConditionsStep(c, Decide(c))
    ensures c.claiming.value in Decide(c).cancelled
  {
  }

  // ---------------------------------------------------------------- all three

  datatype Loop = Loop(tasks: Tasks, timers: Timers, conditions: Conditions)

  ghost predicate LoopOk(s: Loop) {
    TasksOk(s.tasks) && TimersOk(s.timers) && ConditionsOk(s.conditions)
  }

  ghost predicate LoopLater(a: Loop, b: Loop) {
    TasksLater(a.tasks, b.tasks) && TimersLater(a.timers, b.timers) && ConditionsLater(a.conditions, b.conditions)
  }

  /** Everything a caller knows after calling user code: only what any number of posts, schedules, cancels
      and nested passes can do has happened, and all flags that were up are up again. */
  ghost predicate LoopReturn(a: Loop, b: Loop) {
    && LoopOk(b) && LoopLater(a, b)
    && SameFlags(a.conditions, b.conditions) && (Resolved(a.timers) ==> Resolved(b.timers))
  }

  /** Nothing is half done: no condition is being claimed, and the last timer popped has been dealt with. */
  ghost predicate AtRest(s: Loop) {
    s.conditions.claiming.None? && Resolved(s.timers)
  }

  lemma TasksAlone(a: Loop, b: Loop)
    requires LoopOk(a) && b == a.(tasks := b.tasks) && TasksOk(b.tasks) && TasksLater(a.tasks, b.tasks)
    ensures LoopReturn(a, b)
  {
  }

  lemma TimersAlone(a: Loop, b: Loop)
    requires LoopOk(a) && b == a.(timers := b.timers) && TimersStep(a.timers, b.timers)
    requires Resolved(a.timers) ==> Resolved(b.timers)
    ensures LoopReturn(a, b)
  {
  }

  lemma ConditionsAlone(a: Loop, b: Loop)
    requires LoopOk(a) && b == a.(conditions := b.conditions)
    requires ConditionsOk(b.conditions) && ConditionsReturn(a.conditions, b.conditions)
    ensures LoopReturn(a, b)
  {
  }

  lemma LoopLaterCompose(a: Loop, b: Loop, c: Loop)
    requires LoopLater(a, b) && LoopLater(b, c)
    ensures LoopLater(a, c)
  {
    TasksCompose(a.tasks, b.tasks, c.tasks);
    TimersCompose(a.timers, b.timers, c.timers);
    ConditionsCompose(a.conditions, b.conditions, c.conditions);
  }

  lemma LoopCompose(a: Loop, b: Loop, c: Loop)
    requires LoopReturn(a, b) && LoopReturn(b, c)
    ensures LoopReturn(a, c)
  {
    LoopLaterCompose(a, b, c);
  }
}
