/**
 Python's `sorted(xs, key=...)[, reverse=True]`: a stable sort by a total preorder.
 `reverse=True` is the same function with the preorder turned around, because Python keeps
 equal elements in their original order in both directions.
 */
module Sorting {
  import opened Basics

  ghost predicate TotalPreorder<T(!new)>(leq: (T, T) -> bool) {
    && (forall x, y :: leq(x, y) || leq(y, x))
    && (forall x, y, z :: leq(x, y) && leq(y, z) ==> leq(x, z))
  }

  ghost predicate Sorted<T(!new)>(leq: (T, T) -> bool, s: seq<T>) {
    forall i, j :: 0 <= i < j < |s| ==> leq(s[i], s[j])
  }

  function Insert<T>(leq: (T, T) -> bool, x: T, s: seq<T>): (r: seq<T>)
    ensures |r| == |s| + 1
    ensures multiset(r) == multiset{x} + multiset(s)
  {
    if s == [] then [x]
    else if leq(x, s[0]) then [x] + s
    else
      assert s == [s[0]] + s[1..];
      [s[0]] + Insert(leq, x, s[1..])
  }

  function Sort<T>(leq: (T, T) -> bool, s: seq<T>): (r: seq<T>)
    ensures |r| == |s|
    ensures multiset(r) == multiset(s)
  {
    if s == [] then []
    else
      assert s == [s[0]] + s[1..];
      Insert(leq, s[0], Sort(leq, s[1..]))
  }

  lemma {:induction false} InsertSorted<T(!new)>(leq: (T, T) -> bool, x: T, s: seq<T>)
    requires TotalPreorder(leq) && Sorted(leq, s)
    ensures Sorted(leq, Insert(leq, x, s))
  {
    if s != [] && !leq(x, s[0]) {
      InsertSorted(leq, x, s[1..]);
      var rest := Insert(leq, x, s[1..]);
      forall j | 0 <= j < |rest| ensures leq(s[0], rest[j]) {
        assert rest[j] in multiset(rest);
        assert rest[j] == x || rest[j] in s[1..];
      }
    }
  }

  lemma {:induction false} SortSorted<T(!new)>(leq: (T, T) -> bool, s: seq<T>)
    requires TotalPreorder(leq)
    ensures Sorted(leq, Sort(leq, s))
  {
    if s != [] {
      SortSorted(leq, s[1..]);
      InsertSorted(leq, s[0], Sort(leq, s[1..]));
    }
  }

  lemma {:induction false} SortOfSorted<T(!new)>(leq: (T, T) -> bool, s: seq<T>)
    requires Sorted(leq, s)
    ensures Sort(leq, s) == s
  {
    if s != [] {
      SortOfSorted(leq, s[1..]);
    }
  }

  lemma {:induction false} InsertStable<T(!new)>(leq: (T, T) -> bool, p: T -> bool, x: T, s: seq<T>)
    requires forall y, z :: p(y) && p(z) ==> leq(y, z)
    ensures Filter(p, Insert(leq, x, s)) == Filter(p, [x] + s)
  {
    if s == [] {
    } else if leq(x, s[0]) {
    } else {
      InsertStable(leq, p, x, s[1..]);
      assert ([x] + s[1..])[1..] == s[1..];
      assert ([x] + s)[1..] == s;
      var rest := Insert(leq, x, s[1..]);
      assert ([s[0]] + rest)[1..] == rest;
    }
  }

  /** Stability: elements the preorder cannot tell apart keep their original order. */
  lemma {:induction false} SortStable<T(!new)>(leq: (T, T) -> bool, p: T -> bool, s: seq<T>)
    requires forall y, z :: p(y) && p(z) ==> leq(y, z)
    ensures Filter(p, Sort(leq, s)) == Filter(p, s)
  {
    if s != [] {
      SortStable(leq, p, s[1..]);
      InsertStable(leq, p, s[0], Sort(leq, s[1..]));
      assert ([s[0]] + Sort(leq, s[1..]))[1..] == Sort(leq, s[1..]);
    }
  }

  lemma SortedHead<T(!new)>(leq: (T, T) -> bool, a: seq<T>, x: T)
    requires Sorted(leq, a) && x in a
    ensures x == a[0] || leq(a[0], x)
  {
    var i :| 0 <= i < |a| && a[i] == x;
  }

  lemma SameHeads<T(!new)>(leq: (T, T) -> bool, a: seq<T>, b: seq<T>)
    requires Sorted(leq, a) && Sorted(leq, b) && a != []
    requires multiset(a) == multiset(b)
    requires forall x, y :: x in a && y in a && leq(x, y) && leq(y, x) ==> x == y
    ensures b != [] && a[0] == b[0]
  {
    assert a[0] in multiset(b);
    assert b[0] in multiset(b);
    SortedHead(leq, a, b[0]);
    SortedHead(leq, b, a[0]);
  }

  lemma SameTails<T>(a: seq<T>, b: seq<T>)
    requires a != [] && b != [] && a[0] == b[0] && multiset(a) == multiset(b)
    ensures multiset(a[1..]) == multiset(b[1..])
  {
    assert a == [a[0]] + a[1..] && b == [b[0]] + b[1..];
    assert multiset(a[1..]) == multiset(a) - multiset{a[0]};
    assert multiset(b[1..]) == multiset(b) - multiset{b[0]};
  }

  /** When elements with equal keys are equal, the sorted order of a bag is unique. */
  lemma {:induction false} SortedUnique<T(!new)>(leq: (T, T) -> bool, a: seq<T>, b: seq<T>)
    requires Sorted(leq, a) && Sorted(leq, b)
    requires multiset(a) == multiset(b)
    requires forall x, y :: x in a && y in a && leq(x, y) && leq(y, x) ==> x == y
    ensures a == b
  {
    if a == [] {
      assert |b| == |multiset(b)| == |multiset(a)|;
    } else {
      SameHeads(leq, a, b);
      SameTails(a, b);
      SortedUnique(leq, a[1..], b[1..]);
      assert a == [a[0]] + a[1..] && b == [b[0]] + b[1..];
    }
  }

  // ---------- Merging sorted lists ----------

  function Merge<T>(leq: (T, T) -> bool, a: seq<T>, b: seq<T>): (r: seq<T>)
    ensures |r| == |a| + |b|
    decreases |a| + |b|
  {
    if a == [] then b
    else if b == [] then a
    else if leq(a[0], b[0]) then [a[0]] + Merge(leq, a[1..], b)
    else [b[0]] + Merge(leq, a, b[1..])
  }

  lemma {:induction false} MergeInsert<T(!new)>(leq: (T, T) -> bool, x: T, a: seq<T>, b: seq<T>)
    requires TotalPreorder(leq) && Sorted(leq, a)
    ensures Insert(leq, x, Merge(leq, a, b)) == Merge(leq, Insert(leq, x, a), b)
    decreases |a| + |b|
  {
    if a == [] {
      if b != [] && !leq(x, b[0]) {
        MergeInsert(leq, x, a, b[1..]);
      }
    } else if b == [] {
    } else if leq(a[0], b[0]) {
      if !leq(x, a[0]) {
        MergeInsert(leq, x, a[1..], b);
        assert Insert(leq, x, a)[1..] == Insert(leq, x, a[1..]);
      } else {
        assert ([x] + a)[1..] == a;
      }
    } else {
      if leq(x, b[0]) {
        assert leq(x, a[0]);
        assert ([x] + a)[1..] == a;
      } else {
        MergeInsert(leq, x, a, b[1..]);
        assert Insert(leq, x, a)[0] == if leq(x, a[0]) then x else a[0];
      }
    }
  }

  lemma {:induction false} SortConcat<T(!new)>(leq: (T, T) -> bool, a: seq<T>, b: seq<T>)
    requires TotalPreorder(leq)
    ensures Sort(leq, a + b) == Merge(leq, Sort(leq, a), Sort(leq, b))
  {
    if a == [] {
      assert a + b == b;
    } else {
      assert (a + b)[1..] == a[1..] + b;
      SortConcat(leq, a[1..], b);
      SortSorted(leq, a[1..]);
      MergeInsert(leq, a[0], Sort(leq, a[1..]), Sort(leq, b));
    }
  }

  // ---------- First k of the sorted order ----------

  function Take<T>(k: nat, s: seq<T>): seq<T> {
    if k < |s| then s[..k] else s
  }

  function Drop<T>(k: nat, s: seq<T>): seq<T> {
    if k < |s| then s[k..] else []
  }

  lemma TakeDrop<T>(k: nat, s: seq<T>)
    ensures Take(k, s) + Drop(k, s) == s
  {
  }

  function TopK<T>(leq: (T, T) -> bool, k: nat, s: seq<T>): seq<T> {
    Take(k, Sort(leq, s))
  }

  lemma TakeTail<T>(k: nat, s: seq<T>)
    requires k > 0 && s != []
    ensures Take(k, s) == [s[0]] + Take(k - 1, s[1..])
    ensures Take(k, s)[1..] == Take(k - 1, s[1..])
  {
  }

  lemma TakeLess<T>(j: nat, k: nat, s: seq<T>)
    requires j <= k
    ensures Take(j, Take(k, s)) == Take(j, s)
  {
  }

  lemma {:induction false} TakeMerge<T>(leq: (T, T) -> bool, k: nat, a: seq<T>, b: seq<T>, a': seq<T>, b': seq<T>)
    requires Take(k, a) == Take(k, a') && Take(k, b) == Take(k, b')
    ensures Take(k, Merge(leq, a, b)) == Take(k, Merge(leq, a', b'))
    decreases |a| + |b|
  {
    if k > 0 && a != [] && b != [] {
      assert a' != [] && b' != [];
      TakeTail(k, a);
      TakeTail(k, a');
      TakeTail(k, b);
      TakeTail(k, b');
      TakeLess(k - 1, k, a);
      TakeLess(k - 1, k, a');
      TakeLess(k - 1, k, b);
      TakeLess(k - 1, k, b');
      TakeTail(k, Merge(leq, a, b));
      TakeTail(k, Merge(leq, a', b'));
      assert a[0] == Take(k, a)[0] == a'[0] && b[0] == Take(k, b)[0] == b'[0];
      if leq(a[0], b[0]) {
        TakeMerge(leq, k - 1, a[1..], b, a'[1..], b');
      } else {
        TakeMerge(leq, k - 1, a, b[1..], a', b'[1..]);
      }
    }
  }

  lemma TopKSorted<T(!new)>(leq: (T, T) -> bool, k: nat, s: seq<T>)
    requires TotalPreorder(leq)
    ensures Sorted(leq, TopK(leq, k, s))
  {
    SortSorted(leq, s);
  }

  lemma TopKConcat<T(!new)>(leq: (T, T) -> bool, k: nat, a: seq<T>, b: seq<T>)
    requires TotalPreorder(leq)
    ensures TopK(leq, k, a + b) == TopK(leq, k, TopK(leq, k, a) + TopK(leq, k, b))
  {
    SortConcat(leq, a, b);
    TakeMerge(leq, k, Sort(leq, a), Sort(leq, b), TopK(leq, k, a), TopK(leq, k, b));
    TopKSorted(leq, k, a);
    TopKSorted(leq, k, b);
    SortOfSorted(leq, TopK(leq, k, a));
    SortOfSorted(leq, TopK(leq, k, b));
    SortConcat(leq, TopK(leq, k, a), TopK(leq, k, b));
  }

  lemma TopKNested<T(!new)>(leq: (T, T) -> bool, j: nat, k: nat, s: seq<T>)
    requires TotalPreorder(leq)
    ensures TopK(leq, j, TopK(leq, k, s)) == TopK(leq, if j < k then j else k, s)
  {
    TopKSorted(leq, k, s);
    SortOfSorted(leq, TopK(leq, k, s));
  }

  /** Top-k of any number of shards from each shard's own top-k, ties included. */
  lemma {:induction false} TopKShards<T(!new)>(leq: (T, T) -> bool, k: nat, shards: seq<seq<T>>)
    requires TotalPreorder(leq)
    ensures TopK(leq, k, Flatten(shards)) == TopK(leq, k, Flatten(Map(s => TopK(leq, k, s), shards)))
  {
    if shards != [] {
      var top := s => TopK(leq, k, s);
      var rest := Flatten(shards[1..]);
      var tops := Flatten(Map(top, shards[1..]));
      TopKShards(leq, k, shards[1..]);
      assert Map(top, shards)[1..] == Map(top, shards[1..]);
      TopKConcat(leq, k, shards[0], rest);
      TopKConcat(leq, k, top(shards[0]), tops);
      TopKNested(leq, k, k, shards[0]);
    }
  }

  // ---------- Sorted lists of identifiers ----------

  function SortIds(ids: seq<Id>): seq<Id> {
    Sort(LexLeq, ids)
  }

  lemma LexIsTotalPreorder()
    ensures TotalPreorder(LexLeq)
  {
    forall x: string, y: string ensures LexLeq(x, y) || LexLeq(y, x) {
      LexTotal(x, y);
    }
    forall x: string, y: string, z: string | LexLeq(x, y) && LexLeq(y, z) ensures LexLeq(x, z) {
      LexTransitive(x, y, z);
    }
  }

  lemma SortedIdsUnique(a: seq<Id>, b: seq<Id>)
    requires Sorted(LexLeq, a) && Sorted(LexLeq, b) && multiset(a) == multiset(b)
    ensures a == b
  {
    forall x: string, y: string | LexLeq(x, y) && LexLeq(y, x) ensures x == y {
      LexAntisymmetric(x, y);
    }
    SortedUnique(LexLeq, a, b);
  }

  predicate IsLeast(least: Id, ids: set<Id>) {
    least in ids && forall id :: id in ids ==> LexLeq(least, id)
  }

  lemma {:induction false} LeastExists(ids: set<Id>)
    requires ids != {}
    ensures exists least :: IsLeast(least, ids)
  {
    var some :| some in ids;
    LexTotal(some, some);
    if ids == {some} {
      assert IsLeast(some, ids);
    } else {
      LeastExists(ids - {some});
      var least :| IsLeast(least, ids - {some});
      LeastOfTwo(some, least, ids);
    }
  }

  lemma LeastOfTwo(some: Id, least: Id, ids: set<Id>)
    requires some in ids && IsLeast(least, ids - {some})
    ensures IsLeast(some, ids) || IsLeast(least, ids)
  {
    LexTotal(some, some);
    LexTotal(some, least);
    forall id | id in ids && LexLeq(some, least) ensures LexLeq(some, id) {
      if id != some {
        LexTransitive(some, least, id);
      }
    }
  }

  lemma LeastUnique(a: Id, b: Id, ids: set<Id>)
    requires IsLeast(a, ids) && IsLeast(b, ids)
    ensures a == b
  {
    LexAntisymmetric(a, b);
  }

  /** `min(ids)`. */
  function Least(ids: set<Id>): (least: Id)
    requires ids != {}
    ensures IsLeast(least, ids)
  {
    LeastExists(ids);
    assert forall a, b :: IsLeast(a, ids) && IsLeast(b, ids) ==> a == b by {
      forall a, b | IsLeast(a, ids) && IsLeast(b, ids) ensures a == b {
        LeastUnique(a, b, ids);
      }
    }
    var least :| IsLeast(least, ids);
    least
  }

  /** `sorted(ids)` of a set or of the keys of a dictionary. */
  function Enumerate(ids: set<Id>): (s: seq<Id>)
    ensures Sorted(LexLeq, s) && NoDuplicates(s)
    ensures |s| == |ids|
    ensures forall id :: id in s <==> id in ids
  {
    if ids == {} then []
    else
      var least := Least(ids);
      [least] + Enumerate(ids - {least})
  }

  lemma {:induction false} NoDuplicatesMultiset(a: seq<Id>, b: seq<Id>)
    requires NoDuplicates(a) && NoDuplicates(b)
    requires forall id :: id in a <==> id in b
    ensures multiset(a) == multiset(b)
  {
    forall id ensures multiset(a)[id] == multiset(b)[id] {
      CountNoDuplicates(a, id);
      CountNoDuplicates(b, id);
    }
  }

  /** A duplicate-free list, once sorted, depends only on the set of its elements. */
  lemma SortOfDistinctIds(ids: seq<Id>)
    requires NoDuplicates(ids)
    ensures SortIds(ids) == Enumerate(set id | id in ids)
  {
    var s := set id | id in ids;
    LexIsTotalPreorder();
    SortSorted(LexLeq, ids);
    NoDuplicatesMultiset(ids, Enumerate(s));
    SortedIdsUnique(SortIds(ids), Enumerate(s));
  }
}
