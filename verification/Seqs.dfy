/** Sequence vocabulary shared by the models: windows, filters, maps and
    order-preserving embeddings. */
module Seqs {
  datatype Option<+T> = None | Some(value: T)

  datatype Result<+T, +E> = Ok(value: T) | Err(error: E) {
    predicate IsFailure() { Err? }
    function PropagateFailure<U>(): Result<U, E>
      requires Err?
    {
      Err(error)
    }
    function Extract(): T
      requires Ok?
    {
      value
    }
  }

  /** `s.slice(-n)` for a positive `n`. */
  function LastN<T>(s: seq<T>, n: nat): (r: seq<T>)
    ensures |r| == (if |s| <= n then |s| else n)
  {
    if |s| <= n then s else s[|s| - n..]
  }

  /** `s.slice(0, n)`. */
  function FirstN<T>(s: seq<T>, n: nat): (r: seq<T>)
    ensures |r| == (if |s| <= n then |s| else n)
    ensures r <= s
  {
    if |s| <= n then s else s[..n]
  }

  function Filter<T>(s: seq<T>, p: T -> bool): seq<T> {
    if s == [] then []
    else if p(s[0]) then [s[0]] + Filter(s[1..], p)
    else Filter(s[1..], p)
  }

  function Not<T>(p: T -> bool): T -> bool {
    x => !p(x)
  }

  function Map<A, B>(f: A -> B, s: seq<A>): seq<B> {
    seq(|s|, i requires 0 <= i < |s| => f(s[i]))
  }

  function Flatten<T>(parts: seq<seq<T>>): seq<T> {
    if parts == [] then [] else parts[0] + Flatten(parts[1..])
  }

  /** `s.find(p)`. */
  function Find<T>(s: seq<T>, p: T -> bool): (r: Option<T>)
    ensures r.Some? <==> exists x :: x in s && p(x)
    ensures r.Some? ==> r.value in s && p(r.value)
  {
    if s == [] then None
    else if p(s[0]) then Some(s[0])
    else Find(s[1..], p)
  }

  /** What is found is the first with `p`. */
  lemma {:induction false} FindIsFirst<T>(s: seq<T>, p: T -> bool) returns (i: nat)
    requires Find(s, p).Some?
    ensures i < |s| && Find(s, p) == Some(s[i]) && p(s[i]) && forall j :: 0 <= j < i ==> !p(s[j])
  {
    if p(s[0]) {
      i := 0;
    } else {
      i := FindIsFirst(s[1..], p);
      assert forall j :: 0 < j < i + 1 ==> s[j] == s[1..][j - 1];
      i := i + 1;
    }
  }

  lemma {:induction false} FindFirst<T>(s: seq<T>, p: T -> bool, i: nat)
    requires i < |s| && p(s[i]) && forall j :: 0 <= j < i ==> !p(s[j])
    ensures Find(s, p) == Some(s[i])
  {
    if i > 0 {
      assert forall j :: 0 <= j < i - 1 ==> s[1..][j] == s[j + 1];
      FindFirst(s[1..], p, i - 1);
    }
  }

  /** The window is the end of the list, and as much of it as fits. */
  lemma LastNExactly<T>(s: seq<T>, n: nat, r: seq<T>)
    ensures r == LastN(s, n) <==> |r| == (if |s| <= n then |s| else n) && r == s[|s| - |r|..]
  {
    if |r| <= |s| && r == s[|s| - |r|..] && |r| == |s| {
      assert s[0..] == s;
    }
  }

  lemma LastNAppend<T>(a: seq<T>, b: seq<T>, n: nat)
    ensures LastN(LastN(a, n) + b, n) == LastN(a + b, n)
  {
  }

  lemma MapMember<A, B>(f: A -> B, s: seq<A>, y: B)
    ensures y in Map(f, s) <==> exists x :: x in s && y == f(x)
  {
    if x :| x in s && y == f(x) {
      var i :| 0 <= i < |s| && s[i] == x;
      assert Map(f, s)[i] == y;
    }
  }

  lemma {:induction false} FilterMember<T>(s: seq<T>, p: T -> bool, x: T)
    ensures x in Filter(s, p) <==> x in s && p(x)
  {
    if s != [] {
      FilterMember(s[1..], p, x);
      assert s == [s[0]] + s[1..];
    }
  }

  lemma {:induction false} FilterAppend<T>(a: seq<T>, b: seq<T>, p: T -> bool)
    ensures Filter(a + b, p) == Filter(a, p) + Filter(b, p)
  {
    if a == [] {
      assert a + b == b;
    } else {
      FilterAppend(a[1..], b, p);
      assert (a + b)[1..] == a[1..] + b;
    }
  }

  lemma {:induction false} FilterAll<T>(s: seq<T>, p: T -> bool)
    requires forall x :: x in s ==> p(x)
    ensures Filter(s, p) == s
  {
    if s != [] {
      FilterAll(s[1..], p);
    }
  }

  lemma {:induction false} FilterNone<T>(s: seq<T>, p: T -> bool)
    requires forall x :: x in s ==> !p(x)
    ensures Filter(s, p) == []
  {
    if s != [] {
      FilterNone(s[1..], p);
    }
  }

  // ---------------------------------------------------------------- first occurrences

  function Keys<T, K(==)>(key: T -> K, s: seq<T>): set<K> {
    set i | 0 <= i < |s| :: key(s[i])
  }

  /** The elements whose key is not in `seen` and did not occur earlier in `s`. */
  function Dedupe<T, K(==)>(key: T -> K, seen: set<K>, s: seq<T>): seq<T>
    decreases |s|
  {
    if s == [] then []
    else if key(s[0]) in seen then Dedupe(key, seen, s[1..])
    else [s[0]] + Dedupe(key, seen + {key(s[0])}, s[1..])
  }

  /** Position `i` is the first with its key. */
  ghost predicate IsFirst<T, K>(key: T -> K, s: seq<T>, i: nat)
    requires i < |s|
  {
    forall j :: 0 <= j < i ==> key(s[j]) != key(s[i])
  }

  ghost predicate DistinctKeys<T, K>(key: T -> K, s: seq<T>) {
    forall i, j :: 0 <= i < j < |s| ==> key(s[i]) != key(s[j])
  }

  lemma KeysAppend<T, K>(key: T -> K, a: seq<T>, b: seq<T>)
    ensures Keys(key, a + b) == Keys(key, a) + Keys(key, b)
  {
    forall k | k in Keys(key, a) + Keys(key, b)
      ensures k in Keys(key, a + b)
    {
      if i :| 0 <= i < |a| && k == key(a[i]) {
        assert (a + b)[i] == a[i];
      } else {
        var j :| 0 <= j < |b| && k == key(b[j]);
        assert (a + b)[|a| + j] == b[j];
      }
    }
  }

  lemma {:induction false} DedupeAppend<T, K>(key: T -> K, seen: set<K>, a: seq<T>, b: seq<T>)
    ensures Dedupe(key, seen, a + b) == Dedupe(key, seen, a) + Dedupe(key, seen + Keys(key, a), b)
    decreases |a|
  {
    if a == [] {
      assert a + b == b && seen + Keys(key, a) == seen;
    } else {
      var k := key(a[0]);
      KeysAppend(key, [a[0]], a[1..]);
      assert a == [a[0]] + a[1..] && Keys(key, [a[0]]) == {k} by {
        assert [a[0]][0] == a[0];
      }
      assert (a + b)[1..] == a[1..] + b;
      if k in seen {
        assert seen + Keys(key, a[1..]) == seen + Keys(key, a);
        DedupeAppend(key, seen, a[1..], b);
      } else {
        assert seen + {k} + Keys(key, a[1..]) == seen + Keys(key, a);
        DedupeAppend(key, seen + {k}, a[1..], b);
      }
    }
  }

  lemma DedupeOne<T, K>(key: T -> K, s: seq<T>, x: T)
    ensures Dedupe(key, {}, s + [x]) == Dedupe(key, {}, s) + (if key(x) in Keys(key, s) then [] else [x])
    ensures Keys(key, s + [x]) == Keys(key, s) + {key(x)}
  {
    DedupeAppend(key, {}, s, [x]);
    assert {} + Keys(key, s) == Keys(key, s);
    KeysAppend(key, s, [x]);
    assert Keys(key, [x]) == {key(x)} by {
      assert [x][0] == x;
    }
  }

  /** Without repeats: every key once. */
  lemma {:induction false} DedupeDistinct<T, K>(key: T -> K, s: seq<T>)
    ensures DistinctKeys(key, Dedupe(key, {}, s)) && Keys(key, Dedupe(key, {}, s)) == Keys(key, s)
    decreases |s|
  {
    if s != [] {
      var init, x := s[..|s| - 1], s[|s| - 1];
      assert s == init + [x];
      DedupeDistinct(key, init);
      DedupeOne(key, init, x);
      var kept := Dedupe(key, {}, init);
      assert forall i :: 0 <= i < |kept| ==> key(kept[i]) in Keys(key, kept);
      DedupeOne(key, kept, x);
      if key(x) in Keys(key, init) {
        assert kept + [] == kept;
      }
    }
  }

  lemma FirstMeansNew<T, K>(key: T -> K, init: seq<T>, x: T)
    ensures IsFirst(key, init + [x], |init|) <==> key(x) !in Keys(key, init)
  {
    var s := init + [x];
    assert forall j :: 0 <= j < |init| ==> s[j] == init[j];
    if key(x) in Keys(key, init) {
      var j :| 0 <= j < |init| && key(init[j]) == key(x);
      assert key(s[j]) == key(s[|init|]);
    } else {
      assert forall j :: 0 <= j < |init| ==> key(init[j]) in Keys(key, init);
    }
  }

  /** The elements at first positions, in order. */
  ghost function FirstOccurrences<T, K>(key: T -> K, s: seq<T>): seq<T>
    decreases |s|
  {
    if s == [] then []
    else FirstOccurrences(key, s[..|s| - 1]) + (if IsFirst(key, s, |s| - 1) then [s[|s| - 1]] else [])
  }

  /** Without repeats: the first occurrences, in their order. */
  lemma {:induction false} DedupeIsFirsts<T, K>(key: T -> K, s: seq<T>)
    ensures Dedupe(key, {}, s) == FirstOccurrences(key, s)
    decreases |s|
  {
    if s != [] {
      var init, last := s[..|s| - 1], s[|s| - 1];
      assert s == init + [last];
      DedupeIsFirsts(key, init);
      DedupeOne(key, init, last);
      FirstMeansNew(key, init, last);
    }
  }

  /** Without repeats: exactly the first occurrences. */
  lemma {:induction false} DedupeKeepsFirsts<T, K>(key: T -> K, s: seq<T>, x: T)
    ensures x in Dedupe(key, {}, s) <==> exists i :: 0 <= i < |s| && IsFirst(key, s, i) && s[i] == x
    decreases |s|
  {
    if s != [] {
      var init, last := s[..|s| - 1], s[|s| - 1];
      assert s == init + [last];
      DedupeKeepsFirsts(key, init, x);
      DedupeOne(key, init, last);
      FirstMeansNew(key, init, last);
      assert forall i :: 0 <= i < |init| ==> s[i] == init[i] && (IsFirst(key, s, i) <==> IsFirst(key, init, i));
      if i :| 0 <= i < |init| && IsFirst(key, init, i) && init[i] == x {
        assert IsFirst(key, s, i) && s[i] == x;
      }
    }
  }

  /** A list with distinct keys has no repeats to remove. */
  lemma {:induction false} DedupeOfDistinct<T, K>(key: T -> K, s: seq<T>)
    requires DistinctKeys(key, s)
    ensures Dedupe(key, {}, s) == s
    decreases |s|
  {
    if s != [] {
      var init, x := s[..|s| - 1], s[|s| - 1];
      assert s == init + [x];
      DedupeOfDistinct(key, init);
      DedupeOne(key, init, x);
      assert key(x) !in Keys(key, init);
    }
  }

  // ---------------------------------------------------------------- embeddings

  /** `a` matches, in order, some of the elements of `b`: each element of `a`
      stands in relation `r` to its own element of `b`. */
  ghost predicate Embeds<A(!new), B(!new)>(r: (A, B) -> bool, a: seq<A>, b: seq<B>)
    decreases |b|
  {
    a == [] ||
    (b != [] &&
     ((r(a[0], b[0]) && Embeds(r, a[1..], b[1..])) || Embeds(r, a, b[1..])))
  }

  lemma {:induction false} EmbedsPointwise<A(!new), B(!new)>(r: (A, B) -> bool, a: seq<A>, b: seq<B>)
    requires |a| == |b|
    requires forall i :: 0 <= i < |a| ==> r(a[i], b[i])
    ensures Embeds(r, a, b)
    decreases |b|
  {
    if a != [] {
      EmbedsPointwise(r, a[1..], b[1..]);
    }
  }
}
