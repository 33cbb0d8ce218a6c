/** Result dictionaries built by one pass over a list of definitions: each
    definition in turn is searched, and its key is inserted with the result
    when the search finds something. Python dicts keep insertion order, so the
    dictionary is a sequence of (key, value) pairs. The smart extractor's field
    map, the form extractor's area map and its structured-field map are all
    built this way. */
module Dicts {
  import opened Common

  /** No two definitions share a key. */
  predicate DistinctKeys<C>(items: seq<C>, key: C -> string) {
    forall i, j :: 0 <= i < j < |items| ==> key(items[i]) != key(items[j])
  }

  /** The dictionary built from `items`, in item order, as a specification. */
  function Collect<C, R>(items: seq<C>, key: C -> string, find: C -> Option<R>): (r: seq<(string, R)>)
    ensures |r| <= |items|
  {
    if items == [] then []
    else
      var c := items[|items| - 1];
      var front := Collect(items[..|items| - 1], key, find);
      match find(c)
      case None => front
      case Some(res) => front + [(key(c), res)]
  }

  /** Every key of the dictionary is the key of some definition. */
  lemma {:induction false} CollectKeys<C, R>(items: seq<C>, key: C -> string, find: C -> Option<R>)
    ensures forall m :: 0 <= m < |Collect(items, key, find)| ==>
              exists k :: 0 <= k < |items| && Collect(items, key, find)[m].0 == key(items[k])
  {
    if items != [] {
      var n := |items| - 1;
      var c := items[n];
      CollectKeys(items[..n], key, find);
      var front := Collect(items[..n], key, find);
      var fields := Collect(items, key, find);
      assert fields == if find(c).Some? then front + [(key(c), find(c).value)] else front;
      forall m | 0 <= m < |fields|
        ensures exists k :: 0 <= k < |items| && fields[m].0 == key(items[k])
      {
        if m < |front| {
          var k :| 0 <= k < n && front[m].0 == key(items[..n][k]);
          assert items[..n][k] == items[k];
          assert fields[m] == front[m];
        } else {
          assert fields[m].0 == key(items[n]);
        }
      }
    } else {
      assert Collect(items, key, find) == [];
    }
  }

  /** With distinct keys, a definition whose search finds nothing has no entry. */
  lemma {:induction false} CollectAbsent<C, R>(items: seq<C>, key: C -> string, find: C -> Option<R>, k: int)
    requires DistinctKeys(items, key) && 0 <= k < |items| && find(items[k]).None?
    ensures forall m :: 0 <= m < |Collect(items, key, find)| ==> Collect(items, key, find)[m].0 != key(items[k])
  {
    var n := |items| - 1;
    var c := items[n];
    var front := Collect(items[..n], key, find);
    var fields := Collect(items, key, find);
    assert fields == if find(c).Some? then front + [(key(c), find(c).value)] else front;
    if k < n {
      DistinctPrefix(items, key, n);
      assert items[..n][k] == items[k];
      CollectAbsent(items[..n], key, find, k);
      assert key(items[k]) != key(c);
      forall m | 0 <= m < |fields| ensures fields[m].0 != key(items[k]) {
        if m < |front| {
          assert fields[m] == front[m];
        } else {
          assert fields[m] == (key(c), find(c).value);
        }
      }
    } else {
      assert fields == front;
      CollectKeys(items[..n], key, find);
      forall m | 0 <= m < |front| ensures front[m].0 != key(c) {
        var j :| 0 <= j < n && front[m].0 == key(items[..n][j]);
        assert items[..n][j] == items[j];
      }
    }
  }

  /** A definition whose search finds a result has an entry holding it. */
  lemma {:induction false} CollectPresent<C, R>(items: seq<C>, key: C -> string, find: C -> Option<R>, k: int)
    requires 0 <= k < |items| && find(items[k]).Some?
    ensures exists m :: 0 <= m < |Collect(items, key, find)| && Collect(items, key, find)[m] == (key(items[k]), find(items[k]).value)
  {
    var n := |items| - 1;
    var c := items[n];
    var front := Collect(items[..n], key, find);
    var fields := Collect(items, key, find);
    assert fields == if find(c).Some? then front + [(key(c), find(c).value)] else front;
    if k < n {
      assert items[..n][k] == items[k];
      CollectPresent(items[..n], key, find, k);
      var m :| 0 <= m < |front| && front[m] == (key(items[k]), find(items[k]).value);
      assert fields[m] == front[m];
    } else {
      assert fields[|front|] == (key(items[k]), find(items[k]).value);
    }
  }

  /** Every entry holds a result the search produced for its definition. */
  lemma {:induction false} CollectValues<C, R>(items: seq<C>, key: C -> string, find: C -> Option<R>)
    ensures forall m :: 0 <= m < |Collect(items, key, find)| ==>
              exists k :: 0 <= k < |items| && find(items[k]) == Some(Collect(items, key, find)[m].1)
  {
    if items != [] {
      var n := |items| - 1;
      var c := items[n];
      CollectValues(items[..n], key, find);
      var front := Collect(items[..n], key, find);
      var fields := Collect(items, key, find);
      assert fields == if find(c).Some? then front + [(key(c), find(c).value)] else front;
      forall m | 0 <= m < |fields|
        ensures exists k :: 0 <= k < |items| && find(items[k]) == Some(fields[m].1)
      {
        if m < |front| {
          var k :| 0 <= k < n && find(items[..n][k]) == Some(front[m].1);
          assert items[..n][k] == items[k];
          assert fields[m] == front[m];
        } else {
          assert find(items[n]) == Some(fields[m].1);
        }
      }
    } else {
      assert Collect(items, key, find) == [];
    }
  }

  lemma DistinctPrefix<C>(items: seq<C>, key: C -> string, n: nat)
    requires DistinctKeys(items, key) && n <= |items|
    ensures DistinctKeys(items[..n], key)
  {
    forall a, b | 0 <= a < b < n ensures key(items[..n][a]) != key(items[..n][b]) {
      assert items[..n][a] == items[a] && items[..n][b] == items[b];
    }
  }

  // ---------------------------------------------------------------------------
  // Insertion-ordered dictionaries updated in place
  // ---------------------------------------------------------------------------

  /** `d.get(k)`: the value of the first entry with key `k`. */
  function Lookup<V>(d: seq<(string, V)>, k: string): Option<V> {
    if d == [] then None else if d[0].0 == k then Some(d[0].1) else Lookup(d[1..], k)
  }

  /** `list(d.keys())`. */
  function KeysOf<V>(d: seq<(string, V)>): (ks: seq<string>)
    ensures |ks| == |d| && forall i :: 0 <= i < |d| ==> ks[i] == d[i].0
  {
    if d == [] then [] else [d[0].0] + KeysOf(d[1..])
  }

  /** No key occurs twice. */
  predicate UniqueKeys<V>(d: seq<(string, V)>) {
    forall a, b :: 0 <= a < b < |d| ==> d[a].0 != d[b].0
  }

  /** `d[k] = v`: an existing key keeps its place and takes the new value, a new
      key goes last. */
  function Put<V>(d: seq<(string, V)>, k: string, v: V): seq<(string, V)> {
    if d == [] then [(k, v)]
    else if d[0].0 == k then [(k, v)] + d[1..]
    else [d[0]] + Put(d[1..], k, v)
  }

  /** `d.setdefault(k, []).append(x)`. */
  function AppendTo<V>(d: seq<(string, seq<V>)>, k: string, x: V): seq<(string, seq<V>)> {
    Put(d, k, (match Lookup(d, k) case Some(xs) => xs case None => []) + [x])
  }

  /** A key is found exactly when it is one of the keys. */
  lemma {:induction false} LookupFound<V>(d: seq<(string, V)>, k: string)
    ensures Lookup(d, k).Some? <==> k in KeysOf(d)
  {
    if d != [] {
      LookupFound(d[1..], k);
      assert KeysOf(d) == [d[0].0] + KeysOf(d[1..]);
    }
  }

  /** After `d[k] = v`, `k` reads `v` and every other key reads as before. */
  lemma {:induction false} PutLookup<V>(d: seq<(string, V)>, k: string, v: V, k': string)
    ensures Lookup(Put(d, k, v), k') == if k' == k then Some(v) else Lookup(d, k')
  {
    if d != [] && d[0].0 != k {
      PutLookup(d[1..], k, v, k');
      assert Put(d, k, v)[1..] == Put(d[1..], k, v);
    }
  }

  /** `d[k] = v` keeps the key order and appends a new key at the end. */
  lemma {:induction false} PutKeys<V>(d: seq<(string, V)>, k: string, v: V)
    ensures KeysOf(Put(d, k, v)) == if k in KeysOf(d) then KeysOf(d) else KeysOf(d) + [k]
  {
    if d != [] {
      assert KeysOf(d) == [d[0].0] + KeysOf(d[1..]);
      if d[0].0 == k {
        assert KeysOf(Put(d, k, v)) == [k] + KeysOf(d[1..]);
      } else {
        PutKeys(d[1..], k, v);
        assert Put(d, k, v)[1..] == Put(d[1..], k, v);
        assert KeysOf(Put(d, k, v)) == [d[0].0] + KeysOf(Put(d[1..], k, v));
      }
    }
  }

  /** `d[k] = v` keeps the keys unique. */
  lemma {:induction false} PutUnique<V>(d: seq<(string, V)>, k: string, v: V)
    requires UniqueKeys(d)
    ensures UniqueKeys(Put(d, k, v))
  {
    PutKeys(d, k, v);
    var r := Put(d, k, v);
    var ks, rs := KeysOf(d), KeysOf(r);
    forall a, b | 0 <= a < b < |r| ensures r[a].0 != r[b].0 {
      assert rs[a] == r[a].0 && rs[b] == r[b].0;
      if b < |d| {
        assert rs[a] == ks[a] && rs[b] == ks[b];
      } else {
        assert rs[b] == k && k !in ks && rs[a] == ks[a];
      }
    }
  }

  /** The total length of the stored lists. */
  function TotalSize<V>(d: seq<(string, seq<V>)>): nat {
    if d == [] then 0 else |d[0].1| + TotalSize(d[1..])
  }

  /** `d[k] = v` replaces the list stored under `k` (if any) by `v`. */
  lemma {:induction false} PutTotalSize<V>(d: seq<(string, seq<V>)>, k: string, v: seq<V>)
    ensures TotalSize(Put(d, k, v)) + (match Lookup(d, k) case Some(xs) => |xs| case None => 0) == TotalSize(d) + |v|
  {
    if d != [] && d[0].0 != k {
      PutTotalSize(d[1..], k, v);
      assert Put(d, k, v)[1..] == Put(d[1..], k, v);
    }
  }
}
