/** The conversion registry of vany.h: a breadth-first search over registered converters. */
module AnyRegistry {

  datatype Option<+T> = None | Some(value: T)

  /** A std::any: its type and its contents. */
  datatype Any = Any(kind: nat, contents: int)

  /** A converter may throw. */
  type Converter = Any -> Option<Any>

  datatype Key = Key(target: nat, source: nat)

  type Converters = map<Key, Converter>

  /** Every converter yields its target type from its source type, as register_any_type arranges. */
  ghost predicate WellTyped(m: Converters) {
    forall k, x :: k in m && m[k](Any(k.source, x)).Some? ==> m[k](Any(k.source, x)).value.kind == k.target
  }

  // ---------------------------------------------------------------- chains

  /** keys lead from source to target, each from where the last one ended. */
  predicate IsChain(m: Converters, source: nat, target: nat, keys: seq<Key>)
    decreases |keys|
  {
    if keys == [] then source == target
    else
      var last := keys[|keys| - 1];
      last in m && last.target == target && IsChain(m, source, last.source, keys[..|keys| - 1])
  }

  /** target can be reached by at most n conversions. */
  predicate Within(m: Converters, source: nat, target: nat, n: nat)
    decreases n
  {
    target == source || (n > 0 && (Within(m, source, target, n - 1)
                                   || exists k :: k in m && k.target == target && Within(m, source, k.source, n - 1)))
  }

  lemma {:induction false} WithinMore(m: Converters, source: nat, target: nat, n: nat, p: nat)
    requires n <= p && Within(m, source, target, n)
    ensures Within(m, source, target, p)
  {
    if n < p {
      WithinMore(m, source, target, n, p - 1);
    }
  }

  lemma {:induction false} ChainIsWithin(m: Converters, source: nat, target: nat, keys: seq<Key>)
    requires IsChain(m, source, target, keys)
    ensures Within(m, source, target, |keys|)
    decreases |keys|
  {
    if keys != [] {
      var last := keys[|keys| - 1];
      ChainIsWithin(m, source, last.source, keys[..|keys| - 1]);
    }
  }

  /** A chain that is as long as the distance is a shortest one. */
  lemma ShortestChain(m: Converters, source: nat, target: nat, keys: seq<Key>, other: seq<Key>)
    requires keys != [] ==> !Within(m, source, target, |keys| - 1)
    requires IsChain(m, source, target, other)
    ensures |keys| <= |other|
  {
    ChainIsWithin(m, source, target, other);
    if |other| < |keys| {
      WithinMore(m, source, target, |other|, |keys| - 1);
    }
  }

  lemma {:induction false} ClosedIsAll(m: Converters, source: nat, visited: set<nat>, target: nat, n: nat)
    requires source in visited && (forall k :: k in m && k.source in visited ==> k.target in visited)
    requires Within(m, source, target, n)
    ensures target in visited
    decreases n
  {
    if target != source {
      if Within(m, source, target, n - 1) {
        ClosedIsAll(m, source, visited, target, n - 1);
      } else {
        var k :| k in m && k.target == target && Within(m, source, k.source, n - 1);
        ClosedIsAll(m, source, visited, k.source, n - 1);
      }
    }
  }

  predicate InMap(m: Converters, keys: seq<Key>) {
    forall i :: 0 <= i < |keys| ==> keys[i] in m
  }

  function Functions(m: Converters, keys: seq<Key>): (r: seq<Converter>)
    requires InMap(m, keys)
    ensures |r| == |keys|
  {
    seq(|keys|, i requires 0 <= i < |keys| => m[keys[i]])
  }

  // ---------------------------------------------------------------- what converting along a chain means

  /** Apply the converters one after the other; the first exception ends it. */
  function Follow(functions: seq<Converter>, value: Any): Option<Any> {
    if functions == [] then Some(value)
    else
      match Follow(functions[..|functions| - 1], value)
      case None => None
      case Some(x) => functions[|functions| - 1](x)
  }

  /** steps are the values along the way: each is what the next converter made of the one before. */
  ghost predicate Passes(functions: seq<Converter>, value: Any, steps: seq<Any>) {
    && |steps| == |functions| + 1 && steps[0] == value
    && forall i :: 0 <= i < |functions| ==> functions[i](steps[i]) == Some(steps[i + 1])
  }

  /** A conversion gives a value exactly if every converter gives one when applied to what the one before it gave, and
      then it gives what the last one did. */
  lemma {:induction false} FollowIsPassing(functions: seq<Converter>, value: Any, result: Any)
    ensures Follow(functions, value) == Some(result) <==>
            exists steps: seq<Any> :: Passes(functions, value, steps) && steps[|functions|] == result
    decreases |functions|
  {
    if functions == [] {
      if Follow(functions, value) == Some(result) {
        assert Passes(functions, value, [value]);
      }
    } else {
      var n := |functions| - 1;
      if Follow(functions, value) == Some(result) {
        var middle := Follow(functions[..n], value).value;
        FollowIsPassing(functions[..n], value, middle);
        var before: seq<Any> :| Passes(functions[..n], value, before) && before[n] == middle;
        PassesOneMore(functions, value, before, result);
      }
      if steps: seq<Any> :| Passes(functions, value, steps) && steps[|functions|] == result {
        PassesOneLess(functions, value, steps);
        FollowIsPassing(functions[..n], value, steps[n]);
      }
    }
  }

  lemma PassesOneMore(functions: seq<Converter>, value: Any, before: seq<Any>, result: Any)
    requires functions != [] && Passes(functions[..|functions| - 1], value, before)
    requires functions[|functions| - 1](before[|functions| - 1]) == Some(result)
    ensures Passes(functions, value, before + [result])
  {
    forall i | 0 <= i < |functions|
      ensures functions[i]((before + [result])[i]) == Some((before + [result])[i + 1])
    {
      assert i < |functions| - 1 ==> functions[..|functions| - 1][i] == functions[i];
    }
  }

  lemma PassesOneLess(functions: seq<Converter>, value: Any, steps: seq<Any>)
    requires functions != [] && Passes(functions, value, steps)
    ensures Passes(functions[..|functions| - 1], value, steps[..|functions|])
  {
  }

  /** After an exception no converter is called. */
  lemma {:induction false} FollowStops(functions: seq<Converter>, n: nat, value: Any)
    requires n <= |functions| && (Follow(functions[..n], value).None? || n == |functions|)
    ensures Follow(functions, value) == Follow(functions[..n], value)
    decreases |functions|
  {
    if n == |functions| {
      assert functions[..n] == functions;
    } else {
      var rest := functions[..|functions| - 1];
      assert rest[..n] == functions[..n];
      FollowStops(rest, n, value);
    }
  }

  lemma {:induction false} ChainConverts(m: Converters, source: nat, target: nat, keys: seq<Key>, value: Any)
    requires WellTyped(m) && IsChain(m, source, target, keys) && value.kind == source
    requires InMap(m, keys)
    requires Follow(Functions(m, keys), value).Some?
    ensures Follow(Functions(m, keys), value).value.kind == target
    decreases |keys|
  {
    if keys != [] {
      var last, rest := keys[|keys| - 1], keys[..|keys| - 1];
      assert Functions(m, keys)[..|keys| - 1] == Functions(m, rest);
      ChainConverts(m, source, last.source, rest, value);
    }
  }

  // ---------------------------------------------------------------- the search

  datatype Node = Node(kind: nat, functions: seq<Converter>, keys: seq<Key>)

  function Kinds(m: Converters, source: nat): set<nat> {
    (set k | k in m :: k.target) + {source}
  }

  /** A queue entry is a shortest chain to its type. */
  ghost predicate NodeOk(m: Converters, source: nat, n: Node) {
    && IsChain(m, source, n.kind, n.keys)
    && InMap(m, n.keys) && n.functions == Functions(m, n.keys)
    && (n.keys != [] ==> !Within(m, source, n.kind, |n.keys| - 1))
  }

  ghost predicate NodesOk(m: Converters, source: nat, queue: seq<Node>, visited: set<nat>) {
    forall j :: 0 <= j < |queue| ==> NodeOk(m, source, queue[j]) && queue[j].kind in visited
  }

  ghost predicate Increasing(queue: seq<Node>) {
    forall j, l :: 0 <= j < l < |queue| ==> |queue[j].keys| <= |queue[l].keys|
  }

  /** Every visited type has its entry. */
  ghost predicate Listed(queue: seq<Node>, visited: set<nat>) {
    forall kind :: kind in visited ==> exists j :: 0 <= j < |queue| && queue[j].kind == kind
  }

  /** The queue and the visited types. */
  ghost predicate SearchOk(m: Converters, source: nat, target: nat, queue: seq<Node>, visited: set<nat>) {
    && source in visited && (target in visited ==> target == source) && visited <= Kinds(m, source)
    && |visited| == |queue| && NodesOk(m, source, queue, visited) && Listed(queue, visited) && Increasing(queue)
  }

  /** Entries before i have been expanded. */
  ghost predicate Expanded(m: Converters, queue: seq<Node>, visited: set<nat>, i: nat) {
    forall j, k :: 0 <= j < i && j < |queue| && k in m && k.source == queue[j].kind ==> k.target in visited
  }

  /** Everything at the current distance has been found. */
  ghost predicate LevelOk(m: Converters, source: nat, queue: seq<Node>, visited: set<nat>, i: nat) {
    i < |queue| ==>
      && (forall kind :: Within(m, source, kind, |queue[i].keys|) ==> kind in visited)
      && (forall j :: 0 <= j < |queue| ==> |queue[j].keys| <= |queue[i].keys| + 1)
  }

  lemma SetBound(a: set<nat>, b: set<nat>)
    requires a <= b
    ensures |a| <= |b|
  {
    assert b == a + (b - a);
  }

  /** The entry found through key k from entry i. */
  function Extend(m: Converters, n: Node, k: Key): Node
    requires k in m
  {
    Node(k.target, n.functions + [m[k]], n.keys + [k])
  }

  lemma ExtendOk(m: Converters, source: nat, n: Node, k: Key)
    requires NodeOk(m, source, n) && k in m && k.source == n.kind && !Within(m, source, k.target, |n.keys|)
    ensures NodeOk(m, source, Extend(m, n, k))
  {
    var e := Extend(m, n, k);
    assert e.keys[..|e.keys| - 1] == n.keys;
    assert e.functions == Functions(m, e.keys);
  }

  /** One level further, everything at the next distance has been found. */
  lemma NextLevel(m: Converters, source: nat, target: nat, queue: seq<Node>, visited: set<nat>, i: nat)
    requires SearchOk(m, source, target, queue, visited) && i < |queue| && LevelOk(m, source, queue, visited, i)
    requires Expanded(m, queue, visited, i + 1)
    ensures LevelOk(m, source, queue, visited, i + 1)
  {
    if i + 1 < |queue| && |queue[i + 1].keys| > |queue[i].keys| {
      var d := |queue[i].keys|;
      assert |queue[i + 1].keys| == d + 1;
      forall kind | Within(m, source, kind, d + 1)
        ensures kind in visited
      {
        if kind != source && !Within(m, source, kind, d) {
          var k :| k in m && k.target == kind && Within(m, source, k.source, d);
          assert k.source in visited;
          var j :| 0 <= j < |queue| && queue[j].kind == k.source;
          NearIsEarly(m, source, target, queue, visited, i, j, d);
        }
      }
    }
  }

  lemma NearIsEarly(m: Converters, source: nat, target: nat, queue: seq<Node>, visited: set<nat>, i: nat, j: nat,
    d: nat)
    requires SearchOk(m, source, target, queue, visited) && i + 1 < |queue| && j < |queue|
    requires d == |queue[i].keys| < |queue[i + 1].keys| && Within(m, source, queue[j].kind, d)
    ensures j <= i
  {
    assert NodeOk(m, source, queue[j]);
    if j > i {
      assert |queue[j].keys| > d;
      WithinMore(m, source, queue[j].kind, d, |queue[j].keys| - 1);
    }
  }

  lemma NodesGrow(m: Converters, source: nat, queue: seq<Node>, visited: set<nat>, e: Node)
    requires NodesOk(m, source, queue, visited) && NodeOk(m, source, e)
    ensures NodesOk(m, source, queue + [e], visited + {e.kind})
  {
    var queue' := queue + [e];
    forall j | 0 <= j < |queue'|
      ensures NodeOk(m, source, queue'[j]) && queue'[j].kind in visited + {e.kind}
    {
      assert queue'[j] == if j < |queue| then queue[j] else e;
    }
  }

  lemma ListedGrows(queue: seq<Node>, visited: set<nat>, e: Node)
    requires Listed(queue, visited)
    ensures Listed(queue + [e], visited + {e.kind})
  {
    var queue' := queue + [e];
    forall kind | kind in visited + {e.kind}
      ensures exists j :: 0 <= j < |queue'| && queue'[j].kind == kind
    {
      if kind in visited {
        var j :| 0 <= j < |queue| && queue[j].kind == kind;
        assert queue'[j].kind == kind;
      } else {
        assert queue'[|queue|].kind == kind;
      }
    }
  }

  lemma IncreasingGrows(queue: seq<Node>, e: Node)
    requires Increasing(queue) && forall j :: 0 <= j < |queue| ==> |queue[j].keys| <= |e.keys|
    ensures Increasing(queue + [e])
  {
  }

  lemma VisitedGrows(kinds: set<nat>, visited: set<nat>, kind: nat)
    requires visited <= kinds && kind in kinds && kind !in visited
    ensures visited + {kind} <= kinds && |visited + {kind}| == |visited| + 1
  {
  }

  lemma PushSearch(m: Converters, source: nat, target: nat, queue: seq<Node>, visited: set<nat>, e: Node)
    requires SearchOk(m, source, target, queue, visited) && NodeOk(m, source, e)
    requires e.kind !in visited && e.kind != target && e.kind in Kinds(m, source)
    requires forall j :: 0 <= j < |queue| ==> |queue[j].keys| <= |e.keys|
    ensures SearchOk(m, source, target, queue + [e], visited + {e.kind})
  {
    NodesGrow(m, source, queue, visited, e);
    ListedGrows(queue, visited, e);
    IncreasingGrows(queue, e);
    VisitedGrows(Kinds(m, source), visited, e.kind);
  }

  lemma PushLevel(m: Converters, source: nat, queue: seq<Node>, visited: set<nat>, i: nat, e: Node)
    requires i < |queue| && LevelOk(m, source, queue, visited, i) && Expanded(m, queue, visited, i)
    requires |e.keys| == |queue[i].keys| + 1
    ensures LevelOk(m, source, queue + [e], visited + {e.kind}, i) && Expanded(m, queue + [e], visited + {e.kind}, i)
  {
  }

  lemma PushOk(m: Converters, source: nat, target: nat, queue: seq<Node>, visited: set<nat>, i: nat, k: Key, e: Node)
    requires SearchOk(m, source, target, queue, visited) && i < |queue| && LevelOk(m, source, queue, visited, i)
    requires Expanded(m, queue, visited, i)
    requires k in m && k.source == queue[i].kind && k.target !in visited && k.target != target
    requires e == Extend(m, queue[i], k)
    ensures SearchOk(m, source, target, queue + [e], visited + {k.target})
    ensures LevelOk(m, source, queue + [e], visited + {k.target}, i)
    ensures Expanded(m, queue + [e], visited + {k.target}, i)
  {
    assert NodeOk(m, source, queue[i]);
    ExtendOk(m, source, queue[i], k);
    assert k.target in Kinds(m, source);
    PushSearch(m, source, target, queue, visited, e);
    PushLevel(m, source, queue, visited, i, e);
  }

  /** The converters from `kind` that are no longer remaining lead to visited types. */
  ghost predicate Handled(m: Converters, remaining: set<Key>, kind: nat, visited: set<nat>) {
    forall k :: k in m && k !in remaining && k.source == kind ==> k.target in visited
  }

  lemma AllHandled(m: Converters, queue: seq<Node>, visited: set<nat>, i: nat)
    requires i < |queue| && Expanded(m, queue, visited, i) && Handled(m, {}, queue[i].kind, visited)
    ensures Expanded(m, queue, visited, i + 1)
  {
  }

  /** A shortest chain from source to target. */
  ghost predicate IsShortest(m: Converters, source: nat, target: nat, functions: seq<Converter>, keys: seq<Key>) {
    && keys != [] && IsChain(m, source, target, keys)
    && InMap(m, keys) && functions == Functions(m, keys)
    && forall other: seq<Key> :: other != [] && IsChain(m, source, target, other) ==> |keys| <= |other|
  }

  lemma FoundShortest(m: Converters, source: nat, target: nat, n: Node)
    requires NodeOk(m, source, n) && n.kind == target && target != source
    ensures IsShortest(m, source, target, n.functions, n.keys)
  {
    forall other: seq<Key> | other != [] && IsChain(m, source, target, other)
      ensures |n.keys| <= |other|
    {
      ShortestChain(m, source, target, n.keys, other);
    }
  }

  ghost predicate Reachable(m: Converters, source: nat, target: nat) {
    exists keys: seq<Key> :: IsChain(m, source, target, keys)
  }

  /** A direct converter, or any chain between different types. */
  ghost predicate Convertible(m: Converters, source: nat, target: nat) {
    Key(target, source) in m || (target != source && Reachable(m, source, target))
  }

  lemma DirectIsShortest(m: Converters, source: nat, target: nat)
    requires Key(target, source) in m
    ensures IsShortest(m, source, target, [m[Key(target, source)]], [Key(target, source)])
  {
    assert [Key(target, source)][..0] == [];
    assert Functions(m, [Key(target, source)]) == [m[Key(target, source)]];
  }

  /** A direct converter is the only shortest chain. */
  lemma DirectIsOnly(m: Converters, source: nat, target: nat, keys: seq<Key>)
    requires Key(target, source) in m && keys != [] && IsChain(m, source, target, keys)
    requires forall other: seq<Key> :: other != [] && IsChain(m, source, target, other) ==> |keys| <= |other|
    ensures keys == [Key(target, source)]
  {
    DirectIsShortest(m, source, target);
    assert |keys| == 1 && keys[..0] == [];
  }

  lemma NoChainExists(m: Converters, source: nat, target: nat, queue: seq<Node>, visited: set<nat>, keys: seq<Key>)
    requires SearchOk(m, source, target, queue, visited) && Expanded(m, queue, visited, |queue|) && target != source
    ensures !IsChain(m, source, target, keys)
  {
    if IsChain(m, source, target, keys) {
      ChainIsWithin(m, source, target, keys);
      forall k | k in m && k.source in visited
        ensures k.target in visited
      {
        var j :| 0 <= j < |queue| && queue[j].kind == k.source;
      }
      ClosedIsAll(m, source, visited, target, |keys|);
    }
  }

  /** The invariant of the outer loop. */
  ghost predicate SearchingAt(m: Converters, source: nat, target: nat, queue: seq<Node>, visited: set<nat>, i: nat) {
    && SearchOk(m, source, target, queue, visited) && LevelOk(m, source, queue, visited, i)
    && Expanded(m, queue, visited, i)
  }

  ghost predicate Answer(m: Converters, source: nat, target: nat, n: Node) {
    target != source && IsShortest(m, source, target, n.functions, n.keys)
  }

  lemma FirstEntry(m: Converters, source: nat, target: nat)
    ensures SearchingAt(m, source, target, [Node(source, [], [])], {source}, 0)
    ensures |Kinds(m, source)| >= 1
  {
    SetBound({source}, Kinds(m, source));
    var queue := [Node(source, [], [])];
    assert queue[0].kind == source && queue[0].functions == Functions(m, []);
  }

  lemma NotReachable(m: Converters, source: nat, target: nat, queue: seq<Node>, visited: set<nat>)
    requires SearchingAt(m, source, target, queue, visited, |queue|)
    ensures target == source || !Reachable(m, source, target)
  {
    if target != source && Reachable(m, source, target) {
      var keys: seq<Key> :| IsChain(m, source, target, keys);
      NoChainExists(m, source, target, queue, visited, keys);
    }
  }

  class Registry {
    var converters: Converters

    constructor ()
      ensures converters == map[]
    {
      converters := map[];
    }

    /** add: a later registration replaces an earlier one. */
    method Add(target: nat, source: nat, function_: Converter)
      modifies this
      ensures converters == old(converters)[Key(target, source) := function_]
    {
      converters := converters[Key(target, source) := function_];
    }

    /** The inner loop of path: entry i is expanded through the converters in any order. */
    method Expand(source: nat, target: nat, queue: seq<Node>, visited: set<nat>, i: nat)
      returns (queue': seq<Node>, visited': set<nat>, found: Option<Node>)
      requires SearchOk(converters, source, target, queue, visited) && i < |queue|
      requires LevelOk(converters, source, queue, visited, i) && Expanded(converters, queue, visited, i)
      ensures found.Some? ==> NodeOk(converters, source, found.value) && found.value.kind == target != source
      ensures found.None? ==>
        && SearchOk(converters, source, target, queue', visited') && queue <= queue'
        && LevelOk(converters, source, queue', visited', i) && Expanded(converters, queue', visited', i + 1)
    {
      queue', visited', found := queue, visited, None;
      var remaining := converters.Keys;
      while remaining != {}
        invariant SearchOk(converters, source, target, queue', visited') && queue <= queue' &&
          remaining <= converters.Keys
        invariant LevelOk(converters, source, queue', visited', i) && Expanded(converters, queue', visited', i)
        invariant Handled(converters, remaining, queue[i].kind, visited')
        decreases |remaining|
      {
        var k :| k in remaining;
        remaining := remaining - {k};
        assert queue'[i] == queue[i];
        if k.source == queue[i].kind && k.target !in visited' {
          var e := Extend(converters, queue[i], k);
          if k.target == target {
            assert NodeOk(converters, source, queue'[i]);
            ExtendOk(converters, source, queue[i], k);
            found := Some(e);
            return;
          }
          PushOk(converters, source, target, queue', visited', i, k, e);
          queue', visited' := queue' + [e], visited' + {k.target};
        }
      }
      AllHandled(converters, queue', visited', i);
    }

    /** One pass of the outer loop. */
    method Advance(source: nat, target: nat, queue: seq<Node>, visited: set<nat>, i: nat)
      returns (queue': seq<Node>, visited': set<nat>, found: Option<Node>)
      requires i < |queue| && SearchingAt(converters, source, target, queue, visited, i)
      ensures found.Some? ==> Answer(converters, source, target, found.value)
      ensures found.None? ==> SearchingAt(converters, source, target, queue', visited', i + 1)
      ensures found.None? ==> i < |queue'| <= |Kinds(converters, source)|
      ensures found.None? && i + 1 == |queue'| ==> target == source || !Reachable(converters, source, target)
    {
      queue', visited', found := Expand(source, target, queue, visited, i);
      if found.None? {
        NextLevel(converters, source, target, queue', visited', i);
        SetBound(visited', Kinds(converters, source));
        if i + 1 == |queue'| {
          NotReachable(converters, source, target, queue', visited');
        }
      } else {
        FoundShortest(converters, source, target, found.value);
      }
    }

    /** path: a direct converter if there is one; otherwise a shortest chain, or bad_any_cast.  From a type to
        itself the search finds none, since it never comes back to where it began. */
    method Path(target: nat, source: nat) returns (functions: Option<seq<Converter>>, ghost keys: seq<Key>)
      ensures functions.Some? ==> IsShortest(converters, source, target, functions.value, keys)
      ensures Key(target, source) in converters ==> functions == Some([converters[Key(target, source)]])
      ensures functions.Some? <==> Convertible(converters, source, target)
    {
      if Key(target, source) in converters {
        DirectIsShortest(converters, source, target);
        return Some([converters[Key(target, source)]]), [Key(target, source)];
      }
      functions, keys := Search(target, source);
      assert functions.Some? ==> IsChain(converters, source, target, keys);
    }

    /** The outer loop of path. */
    method Search(target: nat, source: nat) returns (functions: Option<seq<Converter>>, ghost keys: seq<Key>)
      ensures functions.Some? ==> target != source && IsShortest(converters, source, target, functions.value, keys)
      ensures functions.None? ==> target == source || !Reachable(converters, source, target)
    {
      var queue, visited := [Node(source, [], [])], {source};
      FirstEntry(converters, source, target);
      var i := 0;
      while i < |queue|
        invariant i <= |queue| <= |Kinds(converters, source)|
        invariant SearchingAt(converters, source, target, queue, visited, i)
        invariant i == |queue| ==> target == source || !Reachable(converters, source, target)
        decreases |Kinds(converters, source)| - i
      {
        var found;
        queue, visited, found := Advance(source, target, queue, visited, i);
        if found.Some? {
          return Some(found.value.functions), found.value.keys;
        }
        i := i + 1;
      }
      return None, [];
    }

    /** convert: the converters of a shortest chain, one after the other; None stands for an exception, of the
        search or of a converter. */
    method Convert(target: nat, value: Any) returns (converted: Option<Any>, ghost keys: seq<Key>)
      requires WellTyped(converters)
      ensures converted.Some? ==> converted.value.kind == target
      ensures Key(target, value.kind) in converters ==> keys == [Key(target, value.kind)]
      ensures Convertible(converters, value.kind, target) ==>
        && InMap(converters, keys) && IsShortest(converters, value.kind, target, Functions(converters, keys), keys)
        && converted == Follow(Functions(converters, keys), value)
      ensures !Convertible(converters, value.kind, target) ==> converted.None?
    {
      var functions;
      functions, keys := Path(target, value.kind);
      if functions.None? {
        return None, [];
      }
      if Key(target, value.kind) in converters {
        DirectIsOnly(converters, value.kind, target, keys);
      }
      var fs := functions.value;
      converted := fs[0](value);
      assert fs[..1] == [fs[0]] && [fs[0]][..0] == [];
      var i := 1;
      while i < |fs| && converted.Some?
        invariant 1 <= i <= |fs| && converted == Follow(fs[..i], value)
      {
        assert fs[..i + 1][..i] == fs[..i];
        converted := fs[i](converted.value);
        i := i + 1;
      }
      FollowStops(fs, i, value);
      if converted.Some? {
        ChainConverts(converters, value.kind, target, keys, value);
      }
    }
  }
}
