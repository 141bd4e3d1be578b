/** replace, split and join of vstring.h. */
module Strings {

  datatype Option<+T> = None | Some(value: T)

  // ---------------------------------------------------------------- find

  predicate Occurs(s: string, from: string, i: int) {
    0 <= i && i + |from| <= |s| && s[i..i + |from|] == from
  }

  /** std::string::find from a position on */
  method Find(s: string, from: string, start: nat) returns (r: Option<nat>)
    requires start <= |s|
    ensures r.Some? ==> start <= r.value && Occurs(s, from, r.value)
    ensures r.Some? ==> forall j :: start <= j < r.value ==> !Occurs(s, from, j)
    ensures r.None? ==> forall j :: start <= j ==> !Occurs(s, from, j)
  {
    var i := start;
    while i + |from| <= |s|
      invariant start <= i
      invariant forall j :: start <= j < i ==> !Occurs(s, from, j)
    {
      if s[i..i + |from|] == from {
        return Some(i);
      }
      i := i + 1;
    }
    return None;
  }

  // ---------------------------------------------------------------- replace

  /** Left to right, without overlaps: what replacing means. */
  function Rewrite(s: string, from: string, to: string): string
    requires from != ""
  {
    if s == "" then ""
    else if from <= s then to + Rewrite(s[|from|..], from, to)
    else [s[0]] + Rewrite(s[1..], from, to)
  }

  /** Occurrences in the second part of a string. */
  lemma OccursInRest(done: string, rest: string, from: string, j: nat)
    ensures Occurs(done + rest, from, |done| + j) <==> Occurs(rest, from, j)
  {
    if j + |from| <= |rest| {
      assert (done + rest)[|done| + j..|done| + j + |from|] == rest[j..j + |from|];
    }
  }

  /** Up to the first occurrence nothing changes. */
  lemma {:induction false} RewriteSkips(p: string, rest: string, from: string, to: string)
    requires from != "" && forall j :: 0 <= j < |p| ==> !Occurs(p + rest, from, j)
    ensures Rewrite(p + rest, from, to) == p + Rewrite(rest, from, to)
  {
    if p == "" {
      assert p + rest == rest;
    } else {
      var s, tail := p + rest, p[1..] + rest;
      assert s[1..] == tail && s == [p[0]] + tail && !Occurs(s, from, 0);
      forall j | 0 <= j < |p| - 1
        ensures !Occurs(tail, from, j)
      {
        OccursInRest([p[0]], tail, from, j);
        assert !Occurs(s, from, j + 1);
      }
      RewriteSkips(p[1..], rest, from, to);
    }
  }

  lemma RewriteFront(from: string, q: string, to: string)
    requires from != ""
    ensures Rewrite(from + q, from, to) == to + Rewrite(q, from, to)
  {
    assert (from + q)[|from|..] == q && from <= from + q;
  }

  lemma RewriteWithout(s: string, from: string, to: string)
    requires from != "" && forall j: nat :: !Occurs(s, from, j)
    ensures Rewrite(s, from, to) == s
  {
    assert s + "" == s;
    RewriteSkips(s, "", from, to);
  }

  /** The first occurrence at or behind the start of the rest, seen from the rest. */
  lemma FirstInRest(done: string, rest: string, from: string, i: nat)
    requires Occurs(done + rest, from, |done| + i)
    requires forall j :: |done| <= j < |done| + i ==> !Occurs(done + rest, from, j)
    ensures i + |from| <= |rest| && rest == rest[..i] + from + rest[i + |from|..]
    ensures forall j :: 0 <= j < i ==> !Occurs(rest, from, j)
  {
    OccursInRest(done, rest, from, i);
    forall j | 0 <= j < i
      ensures !Occurs(rest, from, j)
    {
      OccursInRest(done, rest, from, j);
      assert !Occurs(done + rest, from, |done| + j);
    }
  }

  lemma RewriteFirst(p: string, from: string, q: string, to: string)
    requires from != "" && forall j :: 0 <= j < |p| ==> !Occurs(p + from + q, from, j)
    ensures Rewrite(p + from + q, from, to) == p + to + Rewrite(q, from, to)
  {
    assert p + from + q == p + (from + q);
    RewriteSkips(p, from + q, from, to);
    RewriteFront(from, q, to);
  }

  lemma NothingInRest(done: string, rest: string, from: string)
    requires forall j :: |done| <= j ==> !Occurs(done + rest, from, j)
    ensures forall j: nat :: !Occurs(rest, from, j)
  {
    forall j: nat
      ensures !Occurs(rest, from, j)
    {
      OccursInRest(done, rest, from, j);
      assert !Occurs(done + rest, from, |done| + j);
    }
  }

  /** One pass of replace: what is done afterwards, and what it leaves for later. */
  lemma NextPart(done: string, rest: string, from: string, to: string, at: nat) returns (done': string, rest': string)
    requires from != "" && |done| <= at && Occurs(done + rest, from, at)
    requires forall j :: |done| <= j < at ==> !Occurs(done + rest, from, j)
    ensures |rest'| < |rest| && |done'| == at + |to| && at + |from| <= |done + rest|
    ensures (done + rest)[..at] + to + (done + rest)[at + |from|..] == done' + rest'
    ensures done' + Rewrite(rest', from, to) == done + Rewrite(rest, from, to)
  {
    var i := at - |done|;
    FirstInRest(done, rest, from, i);
    var p, q := rest[..i], rest[i + |from|..];
    RewriteFirst(p, from, q, to);
    done', rest' := done + p + to, q;
    assert (done + rest)[..at] == done + p && (done + rest)[at + |from|..] == q;
  }

  /** replace: the loop rewrites in place and goes on behind what it has inserted, so it ends even if the
      replacement contains what it replaces. */
  method Replace(str: string, from: string, to: string) returns (r: string)
    ensures from == "" ==> r == str
    ensures from != "" ==> r == Rewrite(str, from, to)
  {
    if from == "" {
      return str;
    }
    r := ReplaceAll(str, from, to);
  }

  method ReplaceAll(str: string, from: string, to: string) returns (r: string)
    requires from != ""
    ensures r == Rewrite(str, from, to)
  {
    r := str;
    var start: nat := 0;
    ghost var done, rest := "", str;
    assert r == done + rest && done + Rewrite(rest, from, to) == Rewrite(str, from, to);
    var found := Find(r, from, start);
    while found.Some?
      invariant r == done + rest && start == |done|
      invariant done + Rewrite(rest, from, to) == Rewrite(str, from, to)
      invariant found.Some? ==> start <= found.value && Occurs(r, from, found.value)
      invariant found.Some? ==> forall j :: start <= j < found.value ==> !Occurs(r, from, j)
      invariant found.None? ==> forall j :: start <= j ==> !Occurs(r, from, j)
      decreases |rest|
    {
      var at := found.value;
      ghost var done', rest' := NextPart(done, rest, from, to, at);
      r := r[..at] + to + r[at + |from|..];
      done, rest := done', rest';
      start := at + |to|;
      found := Find(r, from, start);
    }
    NothingInRest(done, rest, from);
    RewriteWithout(rest, from, to);
  }

  // ---------------------------------------------------------------- split and join

  /** The position of the first d, or the length. */
  function UpTo(s: string, d: char): (n: nat)
    ensures n <= |s| && d !in s[..n] && (n < |s| ==> s[n] == d)
  {
    if s == "" || s[0] == d then 0
    else
      var n := 1 + UpTo(s[1..], d);
      assert s[..n] == [s[0]] + s[1..][..n - 1];
      n
  }

  /** The lines that std::getline reads: an end of the input right behind a delimiter starts no further line. */
  function Lines(s: string, d: char): (r: seq<string>)
    ensures forall i :: 0 <= i < |r| ==> d !in r[i]
    ensures r == [] <==> s == ""
    decreases |s|
  {
    if s == "" then []
    else
      var n := UpTo(s, d);
      [s[..n]] + if n == |s| then [] else Lines(s[n + 1..], d)
  }

  lemma {:induction false} UpToFirst(item: string, rest: string, d: char)
    requires d !in item
    ensures UpTo(item + [d] + rest, d) == |item|
  {
    var s := item + [d] + rest;
    if item != "" {
      assert s[1..] == item[1..] + [d] + rest && s[0] == item[0] && item[0] in item;
      UpToFirst(item[1..], rest, d);
    }
  }

  lemma LinesStep(item: string, rest: string, d: char)
    requires d !in item
    ensures Lines(item + [d] + rest, d) == [item] + Lines(rest, d)
  {
    var s := item + [d] + rest;
    UpToFirst(item, rest, d);
    assert s[..|item|] == item && s[|item| + 1..] == rest;
  }

  lemma LinesLast(item: string, d: char)
    requires d !in item && item != ""
    ensures Lines(item, d) == [item]
  {
    assert item[..|item|] == item;
  }

  /** The next item and what follows its delimiter. */
  lemma Cut(s: string, d: char) returns (item: string, rest: string)
    requires UpTo(s, d) < |s|
    ensures d !in item && s == item + [d] + rest && item == s[..UpTo(s, d)] && rest == s[UpTo(s, d) + 1..]
  {
    item, rest := s[..UpTo(s, d)], s[UpTo(s, d) + 1..];
  }

  /** split: one getline after the other */
  method Split(s: string, d: char) returns (elems: seq<string>)
    ensures elems == Lines(s, d)
  {
    elems := [];
    var rest := s;
    while rest != ""
      invariant elems + Lines(rest, d) == Lines(s, d)
      decreases |rest|
    {
      var n := UpTo(rest, d);
      elems := elems + [rest[..n]];
      rest := if n < |rest| then rest[n + 1..] else "";
    }
  }

  function Joined(items: seq<string>, sep: string): string {
    if items == [] then ""
    else if |items| == 1 then items[0]
    else items[0] + sep + Joined(items[1..], sep)
  }

  /** What join still appends from item i on. */
  function Rest(items: seq<string>, i: nat, sep: string): string
    requires i <= |items|
  {
    Joined(items[i..], sep)
  }

  lemma RestStep(items: seq<string>, i: nat, sep: string)
    requires i < |items|
    ensures Rest(items, i, sep) == items[i] + (if i == |items| - 1 then "" else sep) + Rest(items, i + 1, sep)
  {
    assert items[i..][1..] == items[i + 1..];
  }

  /** join: a separator after every item but the last */
  method Join(items: seq<string>, sep: string) returns (r: string)
    ensures r == Joined(items, sep)
  {
    r := "";
    assert items[0..] == items;
    for i := 0 to |items|
      invariant r + Rest(items, i, sep) == Joined(items, sep)
    {
      RestStep(items, i, sep);
      r := r + items[i];
      if i != |items| - 1 {
        r := r + sep;
      }
    }
  }

  function EndsWith(s: string, d: char): bool {
    s != "" && s[|s| - 1] == d
  }

  lemma JoinedStep(item: string, items: seq<string>, sep: string)
    requires items != []
    ensures Joined([item] + items, sep) == item + sep + Joined(items, sep)
  {
    assert ([item] + items)[1..] == items;
  }

  /** The string without one delimiter at its end. */
  function Trimmed(s: string, d: char): string {
    if EndsWith(s, d) then s[..|s| - 1] else s
  }

  lemma TrimmedStep(item: string, rest: string, d: char)
    ensures Trimmed(item + [d] + rest, d) == if rest == "" then item else item + [d] + Trimmed(rest, d)
  {
    var s := item + [d] + rest;
    if rest == "" {
      assert s[..|s| - 1] == item;
    } else if EndsWith(rest, d) {
      assert s[..|s| - 1] == item + [d] + rest[..|rest| - 1];
    }
  }

  /** Joining what was split restores the string, but for one delimiter at its end. */
  lemma {:induction false} JoinAfterSplit(s: string, d: char)
    ensures Joined(Lines(s, d), [d]) == Trimmed(s, d)
    decreases |s|
  {
    if s != "" {
      if UpTo(s, d) == |s| {
        assert s[..|s|] == s;
        LinesLast(s, d);
        assert s[|s| - 1] in s;
      } else {
        var item, rest := Cut(s, d);
        JoinAfterSplit(rest, d);
        LinesStep(item, rest, d);
        TrimmedStep(item, rest, d);
        if rest != "" {
          JoinedStep(item, Lines(rest, d), [d]);
        }
      }
    }
  }

  /** Items that split can give back: without delimiters, and not ending in an empty item. */
  predicate Splittable(items: seq<string>, d: char) {
    && (forall i :: 0 <= i < |items| ==> d !in items[i])
    && (items != [] ==> items[|items| - 1] != "")
  }

  /** Splitting what was joined gives such items back. */
  lemma {:induction false} SplitAfterJoin(items: seq<string>, d: char)
    requires Splittable(items, d)
    ensures Lines(Joined(items, [d]), d) == items
  {
    if |items| == 1 {
      LinesLast(items[0], d);
    } else if |items| > 1 {
      SplitAfterJoin(items[1..], d);
      LinesStep(items[0], Joined(items[1..], [d]), d);
      assert [items[0]] + items[1..] == items;
    }
  }

  /** And it gives back no other items. */
  lemma OnlySplittableIsRestored(items: seq<string>, d: char)
    ensures Lines(Joined(items, [d]), d) == items <==> Splittable(items, d)
  {
    if Splittable(items, d) {
      SplitAfterJoin(items, d);
    } else if (forall i :: 0 <= i < |items| ==> d !in items[i]) && items[|items| - 1] == "" {
      EmptyEndIsLost(items, d);
    }
  }

  /** An empty item at the end is lost. */
  lemma {:induction false} EmptyEndIsLost(items: seq<string>, d: char)
    requires items != [] && items[|items| - 1] == "" && forall i :: 0 <= i < |items| ==> d !in items[i]
    ensures Lines(Joined(items, [d]), d) == items[..|items| - 1]
  {
    if |items| > 1 {
      EmptyEndIsLost(items[1..], d);
      LinesStep(items[0], Joined(items[1..], [d]), d);
      assert [items[0]] + items[1..][..|items| - 2] == items[..|items| - 1];
    }
  }

  /** In the text left over before an occurrence, and in the text behind the last one, nothing is left to replace. */
  predicate Piece(p: string, from: string, behind: string) {
    forall i :: 0 <= i < |p| ==> !Occurs(p + behind, from, i)
  }

  /** What follows a piece directly. */
  function Behind(from: string, last: bool): string {
    if last then "" else from
  }

  /** s falls into pieces at the occurrences of `from` that are met from left to right, each search going on behind
      the last one found. */
  ghost predicate Pieces(s: string, from: string, pieces: seq<string>) {
    && pieces != [] && Joined(pieces, from) == s
    && (forall k :: 0 <= k < |pieces| ==> Piece(pieces[k], from, Behind(from, k == |pieces| - 1)))
  }

  lemma PieceBefore(p: string, rest: string, from: string)
    requires forall j :: 0 <= j < |p| ==> !Occurs(p + from + rest, from, j)
    ensures Piece(p, from, from)
  {
    forall i | 0 <= i < |p|
      ensures !Occurs(p + from, from, i)
    {
      if Occurs(p + from, from, i) {
        assert (p + from + rest)[i..i + |from|] == (p + from)[i..i + |from|];
        assert Occurs(p + from + rest, from, i);
      }
    }
  }

  /** The first occurrence, if there is one. */
  lemma {:induction false} FirstOccurrence(s: string, from: string) returns (at: Option<nat>)
    requires from != ""
    ensures at.None? ==> forall j :: !Occurs(s, from, j)
    ensures at.Some? ==> Occurs(s, from, at.value) && forall j :: 0 <= j < at.value ==> !Occurs(s, from, j)
  {
    if Occurs(s, from, 0) {
      at := Some(0);
    } else if s == "" {
      at := None;
    } else {
      var rest := FirstOccurrence(s[1..], from);
      assert s == [s[0]] + s[1..];
      forall j | 1 <= j
        ensures Occurs(s, from, j) <==> Occurs(s[1..], from, j - 1)
      {
        OccursInRest([s[0]], s[1..], from, j - 1);
      }
      at := if rest.Some? then Some(rest.value + 1) else None;
    }
  }

  /** Replacing puts `to` between the very same pieces: nothing else changes, and every occurrence that is met is
      replaced. */
  lemma {:induction false} ReplacingKeepsPieces(s: string, from: string, to: string) returns (pieces: seq<string>)
    requires from != ""
    ensures Pieces(s, from, pieces) && Joined(pieces, to) == Rewrite(s, from, to)
    decreases |s|
  {
    var at := FirstOccurrence(s, from);
    if at.None? {
      pieces := [s];
      RewriteWithout(s, from, to);
      assert s + "" == s;
    } else {
      var p, rest := s[..at.value], s[at.value + |from|..];
      assert s == p + from + rest;
      var more := ReplacingKeepsPieces(rest, from, to);
      pieces := [p] + more;
      RewriteFirst(p, from, rest, to);
      JoinedStep(p, more, from);
      JoinedStep(p, more, to);
      PieceBefore(p, rest, from);
      PiecesOneMore(p, more, from);
    }
  }

  lemma PiecesOneMore(p: string, more: seq<string>, from: string)
    requires more != [] && Piece(p, from, from)
    requires forall k :: 0 <= k < |more| ==> Piece(more[k], from, Behind(from, k == |more| - 1))
    ensures forall k :: 0 <= k < |[p] + more| ==> Piece(([p] + more)[k], from, Behind(from, k == |[p] + more| - 1))
  {
    forall k | 0 <= k < |[p] + more|
      ensures Piece(([p] + more)[k], from, Behind(from, k == |[p] + more| - 1))
    {
      assert k > 0 ==> ([p] + more)[k] == more[k - 1];
    }
  }
}
