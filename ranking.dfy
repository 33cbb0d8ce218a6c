/** Ordering candidates by confidence. Python's `list.sort(key=..., reverse=True)`
    is a stable sort into non-increasing key order, and `max(xs, key=...)` returns
    the first element of maximal key; both are modelled here for any element type
    and key. */
module Ranking {

  /** Non-increasing in `key`. */
  predicate SortedDesc<T>(s: seq<T>, key: T -> real) {
    forall i, j :: 0 <= i < j < |s| ==> key(s[i]) >= key(s[j])
  }

  /** Where a stable descending insertion puts `x`: after every leading element
      whose key is at least `x`'s. */
  function InsertPos<T>(x: T, s: seq<T>, key: T -> real): (p: nat)
    ensures p <= |s|
    ensures forall k :: 0 <= k < p ==> key(s[k]) >= key(x)
    ensures p < |s| ==> key(s[p]) < key(x)
  {
    if s == [] || key(s[0]) < key(x) then 0 else 1 + InsertPos(x, s[1..], key)
  }

  function Insert<T>(x: T, s: seq<T>, key: T -> real): (r: seq<T>)
    ensures |r| == |s| + 1
  {
    var p := InsertPos(x, s, key);
    s[..p] + [x] + s[p..]
  }

  /** The stable descending sort, as a specification: insert the elements one by
      one, in input order. */
  function SortDesc<T>(s: seq<T>, key: T -> real): (r: seq<T>)
    ensures |r| == |s|
  {
    if s == [] then [] else Insert(s[|s| - 1], SortDesc(s[..|s| - 1], key), key)
  }

  /** Index of the first element of maximal key (what `max(s, key=key)` returns). */
  function FirstMax<T>(s: seq<T>, key: T -> real): (i: nat)
    requires |s| > 0
    ensures i < |s|
    ensures forall k :: 0 <= k < |s| ==> key(s[k]) <= key(s[i])
    ensures forall k :: 0 <= k < i ==> key(s[k]) < key(s[i])
  {
    if |s| == 1 then 0
    else
      var i := FirstMax(s[..|s| - 1], key);
      if key(s[|s| - 1]) > key(s[i]) then |s| - 1 else i
  }

  lemma InsertSorted<T>(x: T, s: seq<T>, key: T -> real)
    requires SortedDesc(s, key)
    ensures SortedDesc(Insert(x, s, key), key)
  {
    var p := InsertPos(x, s, key);
    var r := Insert(x, s, key);
    forall i, j | 0 <= i < j < |r|
      ensures key(r[i]) >= key(r[j])
    {
      if j < p || i > p {
      } else if i == p {
        assert r[j] == s[j - 1];
      } else {
        assert r[i] == s[i];
      }
    }
  }

  /** The sort's output is ordered. */
  lemma {:induction false} SortDescSorted<T>(s: seq<T>, key: T -> real)
    ensures SortedDesc(SortDesc(s, key), key)
  {
    if s != [] {
      SortDescSorted(s[..|s| - 1], key);
      InsertSorted(s[|s| - 1], SortDesc(s[..|s| - 1], key), key);
    }
  }

  /** Insertion adds exactly `x`. */
  lemma InsertPermutation<T>(x: T, s: seq<T>, key: T -> real)
    ensures multiset(Insert(x, s, key)) == multiset(s) + multiset{x}
  {
    var p := InsertPos(x, s, key);
    assert s == s[..p] + s[p..];
  }

  /** The sort's output is a permutation of its input. */
  lemma {:induction false} SortDescPermutation<T>(s: seq<T>, key: T -> real)
    ensures multiset(SortDesc(s, key)) == multiset(s)
  {
    if s != [] {
      var front := s[..|s| - 1];
      SortDescPermutation(front, key);
      InsertPermutation(s[|s| - 1], SortDesc(front, key), key);
      assert s == front + [s[|s| - 1]];
    }
  }

  /** The elements whose key is `v`, in their order in `s`. */
  function WithKey<T>(s: seq<T>, key: T -> real, v: real): seq<T> {
    if s == [] then []
    else WithKey(s[..|s| - 1], key, v) + (if key(s[|s| - 1]) == v then [s[|s| - 1]] else [])
  }

  lemma {:induction false} WithKeyAppend<T>(a: seq<T>, b: seq<T>, key: T -> real, v: real)
    ensures WithKey(a + b, key, v) == WithKey(a, key, v) + WithKey(b, key, v)
    decreases |b|
  {
    if b == [] {
      assert a + b == a;
    } else {
      var n := |b| - 1;
      assert (a + b)[..|a + b| - 1] == a + b[..n];
      WithKeyAppend(a, b[..n], key, v);
    }
  }

  lemma {:induction false} WithKeyNone<T>(s: seq<T>, key: T -> real, v: real)
    requires forall k :: 0 <= k < |s| ==> key(s[k]) < v
    ensures WithKey(s, key, v) == []
  {
    if s != [] {
      WithKeyNone(s[..|s| - 1], key, v);
    }
  }

  lemma WithKeySingle<T>(x: T, key: T -> real, v: real)
    ensures WithKey([x], key, v) == if key(x) == v then [x] else []
  {
    assert [x][..0] == [];
  }

  /** In a sorted list every element from the insertion point on has a key
      below `x`'s. */
  lemma InsertPosTail<T>(x: T, s: seq<T>, key: T -> real)
    requires SortedDesc(s, key)
    ensures forall k :: InsertPos(x, s, key) <= k < |s| ==> key(s[k]) < key(x)
  {
    var p := InsertPos(x, s, key);
    forall k | p <= k < |s| ensures key(s[k]) < key(x) {
      assert key(s[k]) <= key(s[p]);
    }
  }

  /** Putting `x` between `a` and `b` puts it between their elements with its
      key, which is last among them when `b` has none. */
  lemma WithKeyMiddle<T>(a: seq<T>, x: T, b: seq<T>, key: T -> real, v: real)
    requires key(x) == v ==> WithKey(b, key, v) == []
    ensures WithKey(a + [x] + b, key, v) == WithKey(a + b, key, v) + (if key(x) == v then [x] else [])
  {
    assert a + [x] + b == a + ([x] + b);
    WithKeyAppend(a, [x] + b, key, v);
    WithKeyAppend([x], b, key, v);
    WithKeyAppend(a, b, key, v);
    WithKeySingle(x, key, v);
    var wa, wb := WithKey(a, key, v), WithKey(b, key, v);
    if key(x) == v {
      assert wa + ([x] + wb) == wa + wb + [x];
    } else {
      assert wa + ([] + wb) == wa + wb;
    }
  }

  /** Inserting `x` into a sorted list puts it after every element with the
      same key. */
  lemma InsertWithKey<T>(x: T, s: seq<T>, key: T -> real, v: real)
    requires SortedDesc(s, key)
    ensures WithKey(Insert(x, s, key), key, v) == WithKey(s, key, v) + (if key(x) == v then [x] else [])
  {
    var p := InsertPos(x, s, key);
    var a, b := s[..p], s[p..];
    assert s == a + b;
    if key(x) == v {
      InsertPosTail(x, s, key);
      forall k | 0 <= k < |b| ensures key(b[k]) < v {
        assert b[k] == s[p + k];
      }
      WithKeyNone(b, key, v);
    }
    WithKeyMiddle(a, x, b, key, v);
  }

  /** The sort is stable: for every key value, the elements with that key
      leave in the order they came in. */
  lemma {:induction false} SortDescStable<T>(s: seq<T>, key: T -> real, v: real)
    ensures WithKey(SortDesc(s, key), key, v) == WithKey(s, key, v)
  {
    if s != [] {
      var n := |s| - 1;
      SortDescStable(s[..n], key, v);
      SortDescSorted(s[..n], key);
      InsertWithKey(s[n], SortDesc(s[..n], key), key, v);
    }
  }

  /** The head of the sorted list is the first element of maximal key, so
      sorting and taking the head agrees with `max`. */
  lemma {:induction false} SortDescHead<T>(s: seq<T>, key: T -> real)
    requires |s| > 0
    ensures SortDesc(s, key)[0] == s[FirstMax(s, key)]
  {
    if |s| > 1 {
      var front := s[..|s| - 1];
      SortDescHead(front, key);
      var i := FirstMax(front, key);
      assert front[i] == s[i];
    }
  }

  /** The scan for the insertion point: past every element whose key is at
      least `x`'s. */
  method InsertionPoint<T>(x: T, r: seq<T>, key: T -> real) returns (p: nat)
    ensures p == InsertPos(x, r, key)
  {
    p := 0;
    while p < |r| && key(r[p]) >= key(x)
      invariant p <= |r|
      invariant InsertPos(x, r, key) == p + InsertPos(x, r[p..], key)
    {
      assert r[p..][1..] == r[p + 1..];
      p := p + 1;
    }
    if p < |r| {
      assert r[p..][0] == r[p];
    }
  }

  /** `sorted_list.sort(key=key, reverse=True)` by repeated insertion. */
  method SortByKeyDesc<T>(s: seq<T>, key: T -> real) returns (r: seq<T>)
    ensures r == SortDesc(s, key)
  {
    r := [];
    var i := 0;
    while i < |s|
      invariant 0 <= i <= |s|
      invariant r == SortDesc(s[..i], key)
    {
      var p := InsertionPoint(s[i], r, key);
      assert s[..i + 1][..i] == s[..i];
      r := r[..p] + [s[i]] + r[p..];
      i := i + 1;
    }
    assert s[..i] == s;
  }
}
