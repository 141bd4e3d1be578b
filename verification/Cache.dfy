/** The TTL cache of vcache.h, with the wrapping arithmetic of its 32-bit ticks. */
module Cache {

  datatype Option<+T> = None | Some(value: T)

  const TWO_TO_THE_32: int := 0x1_0000_0000

  /** int */
  newtype Tick = x: int | -0x8000_0000 <= x < 0x8000_0000

  /** static_cast<unsigned> */
  function Unsigned(t: Tick): (r: int)
    ensures 0 <= r < TWO_TO_THE_32
  {
    if t < 0 then t as int + TWO_TO_THE_32 else t as int
  }

  /** The difference of two unsigned values, modulo their width. */
  function WrappingMinus(a: int, b: int): int
    requires 0 <= a < TWO_TO_THE_32 && 0 <= b < TWO_TO_THE_32
  {
    (a - b) % TWO_TO_THE_32
  }

  datatype Entry = Entry(value: int, insertedAt: Tick, ttl: Tick)

  /** valid_at */
  predicate ValidAt(e: Entry, time: Tick) {
    time >= e.insertedAt && WrappingMinus(Unsigned(time), Unsigned(e.insertedAt)) <= Unsigned(e.ttl)
  }

  /** The age of an entry, as a mathematical integer. */
  function Age(e: Entry, time: Tick): int {
    time as int - e.insertedAt as int
  }

  /** For every tick and every stored entry the unsigned comparison is exact, even across zero. */
  lemma ValidityIsExact(e: Entry, time: Tick)
    requires e.ttl >= 0
    ensures ValidAt(e, time) <==> 0 <= Age(e, time) <= e.ttl as int
  {
    var u, v := Unsigned(time), Unsigned(e.insertedAt);
    if time >= e.insertedAt {
      assert u - v == Age(e, time) || u - v == Age(e, time) - TWO_TO_THE_32;
      assert 0 <= Age(e, time) < TWO_TO_THE_32;
      assert WrappingMinus(u, v) == Age(e, time);
    }
  }

  /** A call of get: its loader and get_ttl may throw. */
  datatype Call = Call(key: int, time: Tick, load: Option<int>, ttl: Option<Tick>)

  /** What the calls so far leave stored for a key: the last load, unless it was not to be stored, failed, or
      was dropped because a later call found it too old or from the future. */
  function Stored(calls: seq<Call>, key: int): Option<Entry> {
    if calls == [] then None
    else
      var last, before := calls[|calls| - 1], Stored(calls[..|calls| - 1], key);
      if last.key != key then before
      else if before.Some? && 0 <= Age(before.value, last.time) <= before.value.ttl as int then before
      else if last.load.Some? && last.ttl.Some? && last.ttl.value >= 0
      then Some(Entry(last.load.value, last.time, last.ttl.value))
      else None
  }

  /** A hit: the call returns what is stored, and loads nothing. */
  predicate Hits(calls: seq<Call>, c: Call) {
    var e := Stored(calls, c.key);
    e.Some? && 0 <= Age(e.value, c.time) <= e.value.ttl as int
  }

  lemma {:induction false} StoredTtlIsNotNegative(calls: seq<Call>, key: int)
    ensures Stored(calls, key).Some? ==> Stored(calls, key).value.ttl >= 0
  {
    if calls != [] {
      StoredTtlIsNotNegative(calls[..|calls| - 1], key);
    }
  }

  /** Whatever is stored was loaded by an earlier call for that key, and every call for the key since then was
      a hit: a value is never replaced by, nor taken for, a later load. */
  lemma {:induction false} StoredIsLatestLoad(calls: seq<Call>, key: int) returns (i: nat)
    requires Stored(calls, key).Some?
    ensures i < |calls| && calls[i].key == key && !Hits(calls[..i], calls[i])
    ensures calls[i].load == Some(Stored(calls, key).value.value) &&
      calls[i].time == Stored(calls, key).value.insertedAt
    ensures calls[i].ttl == Some(Stored(calls, key).value.ttl)
    ensures forall j :: i < j < |calls| && calls[j].key == key ==> Hits(calls[..j], calls[j])
  {
    var n := |calls| - 1;
    var last, rest := calls[n], calls[..n];
    if last.key != key || Hits(rest, last) {
      i := StoredIsLatestLoad(rest, key);
      assert rest[..i] == calls[..i];
      forall j | i < j < |calls| && calls[j].key == key
        ensures Hits(calls[..j], calls[j])
      {
        if j < n {
          assert rest[..j] == calls[..j] && rest[j] == calls[j];
        }
      }
    } else {
      i := n;
    }
  }

  /** After a miss that loads a value for a time, every call in that time is a hit with that value, and the first one
      outside it is not. */
  lemma LoadIsKeptForItsTime(calls: seq<Call>, c: Call, next: Call)
    requires !Hits(calls, c) && c.load.Some? && c.ttl.Some? && c.ttl.value >= 0 && next.key == c.key
    ensures Hits(calls + [c], next) <==> 0 <= next.time as int - c.time as int <= c.ttl.value as int
    ensures Hits(calls + [c], next) ==> Stored(calls + [c], next.key).value.value == c.load.value
  {
    assert (calls + [c])[..|calls + [c]| - 1] == calls;
  }

  /** A hit changes nothing. */
  lemma HitsChangeNothing(calls: seq<Call>, c: Call)
    requires Hits(calls, c)
    ensures Stored(calls + [c], c.key) == Stored(calls, c.key)
  {
    assert (calls + [c])[..|calls + [c]| - 1] == calls;
  }

  /** The calls for one key, in order. */
  function OfKey(calls: seq<Call>, key: int): seq<Call> {
    if calls == [] then []
    else
      var rest := OfKey(calls[..|calls| - 1], key);
      if calls[|calls| - 1].key == key then rest + [calls[|calls| - 1]] else rest
  }

  /** What is stored for a key depends on the calls for that key alone, and on their order. */
  lemma {:induction false} StoredIsOfKey(calls: seq<Call>, key: int)
    ensures Stored(calls, key) == Stored(OfKey(calls, key), key)
  {
    if calls != [] {
      var before := calls[..|calls| - 1];
      StoredIsOfKey(before, key);
      if calls[|calls| - 1].key == key {
        assert OfKey(calls, key)[..|OfKey(calls, key)| - 1] == OfKey(before, key);
      }
    }
  }

  /** Two histories with the same calls for a key answer the next call for it alike, hit or miss. */
  lemma SameCallsSameAnswer(calls: seq<Call>, others: seq<Call>, c: Call)
    requires OfKey(calls, c.key) == OfKey(others, c.key)
    ensures Hits(calls, c) == Hits(others, c) && Stored(calls, c.key) == Stored(others, c.key)
  {
    StoredIsOfKey(calls, c.key);
    StoredIsOfKey(others, c.key);
  }

  /** cache_storage */
  class CacheStorage {
    var values: map<int, Entry>
    ghost var calls: seq<Call>

    ghost predicate Valid()
      reads this
    {
      && (forall key :: key in values ==> Stored(calls, key) == Some(values[key]))
      && (forall key :: key !in values ==> Stored(calls, key) == None)
    }

    constructor ()
      ensures Valid() && calls == []
    {
      values, calls := map[], [];
    }

    /** get: loads once exactly if the call is not a hit; None stands for an exception. */
    method Get(c: Call) returns (result: Option<int>, loads: nat)
      requires Valid()
      modifies this
      ensures Valid() && calls == old(calls) + [c]
      ensures Hits(old(calls), c) ==> loads == 0 && result == Some(Stored(old(calls), c.key).value.value)
      ensures !Hits(old(calls), c) ==> loads == 1 && result == if c.ttl.Some? then c.load else None
      ensures !Hits(old(calls), c) && (c.load.None? || c.ttl.None?) ==> c.key !in values
      ensures !Hits(old(calls), c) && c.load.Some? && c.ttl.Some? ==>
        if c.ttl.value >= 0 then c.key in values && values[c.key] == Entry(c.load.value, c.time, c.ttl.value)
        else c.key !in values
      ensures Hits(old(calls), c) ==> values == old(values)
      ensures forall key :: key != c.key ==> (key in values <==> key in old(values))
      ensures forall key :: key != c.key && key in values ==> values[key] == old(values)[key]
    {
      ghost var before := calls;
      calls := calls + [c];
      assert calls[..|calls| - 1] == before;
      StoredTtlIsNotNegative(before, c.key);
      if c.key in values {
        ValidityIsExact(values[c.key], c.time);
        if ValidAt(values[c.key], c.time) {
          return Some(values[c.key].value), 0;
        }
        values := values - {c.key};
      }
      if c.load.None? || c.ttl.None? {
        return None, 1;
      }
      if c.ttl.value >= 0 {
        values := values[c.key := Entry(c.load.value, c.time, c.ttl.value)];
      }
      return c.load, 1;
    }
  }
}
