/**
 * What every store shares: NewStore filling its map from the seed records,
 * each under its key; List visiting each entry of the map once, in the map's
 * own order, and appending its view; and the two orders List sorts by, by
 * name and by namespace then name.
 */
module Maps {
  import opened Text
  import opened Sorting

  /** `keys` lists every key of `m` exactly once, in some order. */
  ghost predicate Enumerates<K(!new), V>(keys: seq<K>, m: map<K, V>) {
    && Distinct(keys)
    && |keys| == |m|
    && (forall k :: k in keys <==> k in m)
  }

  /** NewStore's loop: every seed record under its own key; the keys are distinct, so none is lost. */
  method Index<K(!new), V>(seed: seq<V>, key: V -> K) returns (m: map<K, V>)
    requires forall j, l :: 0 <= j < l < |seed| ==> key(seed[j]) != key(seed[l])
    ensures |m| == |seed|
    ensures forall k :: k in m ==> k == key(m[k])
    ensures forall v :: v in seed ==> key(v) in m && m[key(v)] == v
    ensures forall k :: k in m ==> m[k] in seed
  {
    m := map[];
    for i := 0 to |seed|
      invariant |m| == i
      invariant forall k :: k in m ==> k == key(m[k])
      invariant forall j :: 0 <= j < i ==> key(seed[j]) in m && m[key(seed[j])] == seed[j]
      invariant forall k :: k in m ==> m[k] in seed[..i]
    {
      m := m[key(seed[i]) := seed[i]];
    }
  }

  /**
   * One view per entry of `m`: `keys` is the order the loop visited the
   * entries in, and the i-th view is the view of the i-th visited entry.
   */
  method Collect<K(!new), V, W>(m: map<K, V>, view: V -> W) returns (out: seq<W>, ghost keys: seq<K>)
    ensures Enumerates(keys, m)
    ensures |out| == |keys| && forall i :: 0 <= i < |out| ==> out[i] == view(m[keys[i]])
  {
    out := [];
    keys := [];
    var todo := m.Keys;
    while todo != {}
      invariant todo <= m.Keys
      invariant Distinct(keys)
      invariant forall k :: k in keys <==> k in m && k !in todo
      invariant |keys| + |todo| == |m|
      invariant |out| == |keys| && forall i :: 0 <= i < |out| ==> out[i] == view(m[keys[i]])
      decreases |todo|
    {
      var k :| k in todo;
      out := out + [view(m[k])];
      keys := keys + [k];
      todo := todo - {k};
    }
  }

  /** Every view of an enumeration, each one once: an entry's view appears and nothing else does. */
  lemma CollectMembers<K(!new), V, W>(m: map<K, V>, view: V -> W, keys: seq<K>, out: seq<W>)
    requires Enumerates(keys, m)
    requires |out| == |keys| && forall i :: 0 <= i < |out| ==> out[i] == view(m[keys[i]])
    ensures |out| == |m|
    ensures forall k :: k in m ==> view(m[k]) in out
    ensures forall w :: w in out ==> exists k :: k in m && w == view(m[k])
  {
    forall k | k in m ensures view(m[k]) in out {
      var i :| 0 <= i < |keys| && keys[i] == k;
      assert out[i] == view(m[k]);
    }
    forall w | w in out ensures exists k :: k in m && w == view(m[k]) {
      var i :| 0 <= i < |out| && out[i] == w;
      assert keys[i] in m;
    }
  }

  /** When each view names the key it came from, no two views of an enumeration coincide. */
  lemma CollectDistinct<K(!new), V, W>(m: map<K, V>, view: V -> W, key: W -> K, keys: seq<K>, out: seq<W>)
    requires Enumerates(keys, m)
    requires |out| == |keys| && forall i :: 0 <= i < |out| ==> out[i] == view(m[keys[i]])
    requires forall k :: k in m ==> key(view(m[k])) == k
    ensures Distinct(out)
  {
    forall i, j | 0 <= i < j < |out| ensures out[i] != out[j] {
      assert keys[i] in m && keys[j] in m;
      assert key(out[i]) == keys[i] && key(out[j]) == keys[j];
    }
  }

  /** Sorting by one string field (a name) is a total preorder. */
  lemma KeyOrderTotal<T(!new)>(le: (T, T) -> bool, key: T -> string)
    requires forall a, b :: le(a, b) == LessEq(key(a), key(b))
    ensures TotalPreorder(le)
  {
    forall x: T, y: T, z: T
      ensures le(x, y) || le(y, x)
      ensures le(x, y) && le(y, z) ==> le(x, z)
    {
      LessEqTotalOrder(key(x), key(y), key(z));
    }
  }

  /** Sorting by one string field and then another (namespace, then name) is a total preorder. */
  lemma PairOrderTotal<T(!new)>(le: (T, T) -> bool, first: T -> string, second: T -> string)
    requires forall a, b :: le(a, b) == LessEqPair(first(a), second(a), first(b), second(b))
    ensures TotalPreorder(le)
  {
    forall x: T, y: T, z: T
      ensures le(x, y) || le(y, x)
      ensures le(x, y) && le(y, z) ==> le(x, z)
    {
      LessEqPairTotalOrder(first(x), second(x), first(y), second(y), first(z), second(z));
    }
  }
}
