/** Stable sorting, as `Array.prototype.sort` sorts. */
module Sorting {
  import opened Seqs

  /** Puts `x` before the first element it may precede. */
  function Insert<T>(leq: (T, T) -> bool, x: T, s: seq<T>): seq<T> {
    if s == [] || leq(x, s[0]) then [x] + s else [s[0]] + Insert(leq, x, s[1..])
  }

  function Sort<T>(leq: (T, T) -> bool, s: seq<T>): seq<T> {
    if s == [] then [] else Insert(leq, s[0], Sort(leq, s[1..]))
  }

  lemma {:induction false} InsertMultiset<T>(leq: (T, T) -> bool, x: T, s: seq<T>)
    ensures multiset(Insert(leq, x, s)) == multiset(s) + multiset{x}
  {
    if s != [] && !leq(x, s[0]) {
      InsertMultiset(leq, x, s[1..]);
      assert s == [s[0]] + s[1..];
    }
  }

  lemma {:induction false} SortPermutes<T>(leq: (T, T) -> bool, s: seq<T>)
    ensures multiset(Sort(leq, s)) == multiset(s)
  {
    if s != [] {
      SortPermutes(leq, s[1..]);
      InsertMultiset(leq, s[0], Sort(leq, s[1..]));
      assert s == [s[0]] + s[1..];
    }
  }

  lemma SortMember<T>(leq: (T, T) -> bool, s: seq<T>, x: T)
    ensures x in Sort(leq, s) <==> x in s
  {
    SortPermutes(leq, s);
    assert x in multiset(Sort(leq, s)) <==> x in multiset(s);
  }

  // ---------------------------------------------------------------- sorting by a number

  /** The order of `(a, b) => key(a) - key(b)`. */
  function ByKey<T>(key: T -> real): (T, T) -> bool {
    (a: T, b: T) => key(a) <= key(b)
  }

  function KeyIs<T>(key: T -> real, k: real): T -> bool {
    (x: T) => key(x) == k
  }

  ghost predicate Sorted<T>(key: T -> real, s: seq<T>) {
    forall i, j :: 0 <= i < j < |s| ==> key(s[i]) <= key(s[j])
  }

  /** Elements with equal keys stand in the order they have in `s`. */
  ghost predicate KeepsTies<T>(key: T -> real, r: seq<T>, s: seq<T>) {
    forall k: real :: Filter(r, KeyIs(key, k)) == Filter(s, KeyIs(key, k))
  }

  lemma {:induction false} InsertMember<T>(leq: (T, T) -> bool, x: T, s: seq<T>, y: T)
    ensures y in Insert(leq, x, s) <==> y == x || y in s
  {
    InsertMultiset(leq, x, s);
    assert y in multiset(Insert(leq, x, s)) <==> y in multiset(s) + multiset{x};
  }

  lemma {:induction false} InsertSorts<T>(key: T -> real, x: T, s: seq<T>)
    requires Sorted(key, s)
    ensures Sorted(key, Insert(ByKey(key), x, s))
  {
    if s != [] && key(x) > key(s[0]) {
      var rest := Insert(ByKey(key), x, s[1..]);
      InsertSorts(key, x, s[1..]);
      forall i | 0 <= i < |rest|
        ensures key(s[0]) <= key(rest[i])
      {
        InsertMember(ByKey(key), x, s[1..], rest[i]);
      }
    }
  }

  lemma {:induction false} SortSorts<T>(key: T -> real, s: seq<T>)
    ensures Sorted(key, Sort(ByKey(key), s))
  {
    if s != [] {
      SortSorts(key, s[1..]);
      InsertSorts(key, s[0], Sort(ByKey(key), s[1..]));
    }
  }

  /** Inserting before equals keeps any selection in order, whatever selects. */
  lemma {:induction false} InsertFilter<T>(key: T -> real, x: T, s: seq<T>, p: T -> bool)
    requires Sorted(key, s)
    ensures Filter(Insert(ByKey(key), x, s), p) == if p(x) then Insert(ByKey(key), x, Filter(s, p)) else Filter(s, p)
  {
    if s == [] {
    } else if key(x) <= key(s[0]) {
      assert ([x] + s)[1..] == s;
      if Filter(s, p) != [] {
        FilterMember(s, p, Filter(s, p)[0]);
        var i :| 0 <= i < |s| && s[i] == Filter(s, p)[0];
      }
    } else {
      InsertFilter(key, x, s[1..], p);
      assert ([s[0]] + Insert(ByKey(key), x, s[1..]))[1..] == Insert(ByKey(key), x, s[1..]);
      if p(s[0]) {
        assert Filter(s, p)[1..] == Filter(s[1..], p);
      } else {
        assert Filter(s, p) == Filter(s[1..], p);
      }
    }
  }

  /** Selecting and sorting commute. */
  lemma {:induction false} SortFilter<T>(key: T -> real, s: seq<T>, p: T -> bool)
    ensures Filter(Sort(ByKey(key), s), p) == Sort(ByKey(key), Filter(s, p))
  {
    if s != [] {
      SortFilter(key, s[1..], p);
      SortSorts(key, s[1..]);
      InsertFilter(key, s[0], Sort(ByKey(key), s[1..]), p);
      if p(s[0]) {
        assert Filter(s, p)[1..] == Filter(s[1..], p);
      }
    }
  }

  lemma {:induction false} SortOfSorted<T>(key: T -> real, s: seq<T>)
    requires Sorted(key, s)
    ensures Sort(ByKey(key), s) == s
  {
    if s != [] {
      SortOfSorted(key, s[1..]);
    }
  }

  lemma SortKeepsTies<T>(key: T -> real, s: seq<T>)
    ensures KeepsTies(key, Sort(ByKey(key), s), s)
  {
    forall k: real
      ensures Filter(Sort(ByKey(key), s), KeyIs(key, k)) == Filter(s, KeyIs(key, k))
    {
      SortFilter(key, s, KeyIs(key, k));
      var tied := Filter(s, KeyIs(key, k));
      forall i | 0 <= i < |tied|
        ensures key(tied[i]) == k
      {
        FilterMember(s, KeyIs(key, k), tied[i]);
      }
      SortOfSorted(key, tied);
    }
  }

  /** Sorted with ties kept means one thing only: any such arrangement is the sort. */
  lemma {:induction false} SortIsUnique<T>(key: T -> real, r: seq<T>, s: seq<T>)
    requires Sorted(key, r) && Sorted(key, s) && KeepsTies(key, r, s)
    ensures r == s
    decreases |r| + |s|
  {
    TiesFill(key, r, s);
    TiesFill(key, s, r);
    if r != [] {
      HeadsAgree(key, r, s);
      forall k: real
        ensures Filter(r[1..], KeyIs(key, k)) == Filter(s[1..], KeyIs(key, k))
      {
        assert Filter(r, KeyIs(key, k)) == Filter(s, KeyIs(key, k));
        if key(r[0]) == k {
          assert Filter(r, KeyIs(key, k))[1..] == Filter(r[1..], KeyIs(key, k));
          assert Filter(s, KeyIs(key, k))[1..] == Filter(s[1..], KeyIs(key, k));
        }
      }
      SortIsUnique(key, r[1..], s[1..]);
      assert r == [r[0]] + r[1..] && s == [s[0]] + s[1..];
    }
  }

  lemma TiesFill<T>(key: T -> real, r: seq<T>, s: seq<T>)
    requires KeepsTies(key, r, s)
    ensures r != [] ==> s != []
  {
    if r != [] {
      assert Filter(r, KeyIs(key, key(r[0])))[0] == r[0];
      FilterMember(s, KeyIs(key, key(r[0])), r[0]);
    }
  }

  lemma HeadsAgree<T>(key: T -> real, r: seq<T>, s: seq<T>)
    requires Sorted(key, r) && Sorted(key, s) && KeepsTies(key, r, s) && r != [] && s != []
    ensures r[0] == s[0]
  {
    LowestHead(key, r, s);
    LowestHead(key, s, r);
    assert Filter(r, KeyIs(key, key(r[0])))[0] == r[0];
    assert Filter(s, KeyIs(key, key(r[0])))[0] == s[0];
  }

  lemma LowestHead<T>(key: T -> real, r: seq<T>, s: seq<T>)
    requires Sorted(key, r) && Sorted(key, s) && KeepsTies(key, r, s) && r != [] && s != []
    ensures key(s[0]) <= key(r[0])
  {
    var k := key(r[0]);
    assert Filter(r, KeyIs(key, k))[0] == r[0];
    FilterMember(s, KeyIs(key, k), r[0]);
    var i :| 0 <= i < |s| && s[i] == r[0];
  }

  /** If a selection of `s` never steps down in `rank`, neither does `s` between
      two selected elements. */
  lemma {:induction false} RankInFilter<T>(s: seq<T>, p: T -> bool, rank: T -> int, i: nat, j: nat)
    requires i < j < |s| && p(s[i]) && p(s[j])
    requires forall a, b :: 0 <= a < b < |Filter(s, p)| ==> rank(Filter(s, p)[a]) <= rank(Filter(s, p)[b])
    ensures rank(s[i]) <= rank(s[j])
    decreases |s|
  {
    var rest := Filter(s[1..], p);
    if p(s[0]) {
      assert Filter(s, p)[1..] == rest;
      assert forall a :: 0 <= a < |rest| ==> rest[a] == Filter(s, p)[a + 1];
    } else {
      assert Filter(s, p) == rest;
    }
    if i > 0 {
      RankInFilter(s[1..], p, rank, i - 1, j - 1);
    } else {
      FilterMember(s[1..], p, s[j]);
      assert s[1..][j - 1] == s[j];
      var b :| 0 <= b < |rest| && rest[b] == s[j];
      assert Filter(s, p)[0] == s[0] && Filter(s, p)[b + 1] == s[j];
    }
  }
}
