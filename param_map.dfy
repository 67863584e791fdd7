/**
 * An insertion-ordered dictionary, as Ruby's `Hash` behaves when the lookup
 * builds its request parameters: assigning to a key that is already present
 * replaces its value where it stands, assigning to a new key appends it,
 * `reject` filters keeping the order, and `merge` lays a second hash over
 * the first. The order in which a serialiser walks the entries is not
 * part of this model.
 */
module ParamMap {
  import opened Optional

  /** The keys of `p`, in insertion order. */
  function Keys<K, V>(p: seq<(K, V)>): seq<K>
  {
    if p == [] then [] else [p[0].0] + Keys(p[1..])
  }

  /** No key occurs twice: what every Ruby `Hash` guarantees. */
  predicate UniqueKeys<K(==), V>(p: seq<(K, V)>)
  {
    p == [] || (p[0].0 !in Keys(p[1..]) && UniqueKeys(p[1..]))
  }

  /** `hash[k]`: the value of the first entry with key `k`. */
  function Lookup<K(==), V>(p: seq<(K, V)>, k: K): Option<V>
  {
    if p == [] then None
    else if p[0].0 == k then Some(p[0].1)
    else Lookup(p[1..], k)
  }

  /** `hash[k] = v`. */
  function Put<K(==,!new), V>(p: seq<(K, V)>, k: K, v: V): (r: seq<(K, V)>)
    ensures Lookup(r, k) == Some(v)
    ensures forall k' :: k' != k ==> Lookup(r, k') == Lookup(p, k')
  {
    if p == [] then [(k, v)]
    else if p[0].0 == k then [(k, v)] + p[1..]
    else [p[0]] + Put(p[1..], k, v)
  }

  /** Assigning to a new key appends the entry at the end. */
  lemma {:induction false} PutAbsent<K(!new), V>(p: seq<(K, V)>, k: K, v: V)
    requires k !in Keys(p)
    ensures Put(p, k, v) == p + [(k, v)]
  {
    if p != [] {
      PutAbsent(p[1..], k, v);
    }
  }

  /** Assigning to a present key keeps every key where it was. */
  lemma {:induction false} PutPresent<K(!new), V>(p: seq<(K, V)>, k: K, v: V)
    requires k in Keys(p)
    ensures Keys(Put(p, k, v)) == Keys(p)
  {
    if p[0].0 != k {
      PutPresent(p[1..], k, v);
    }
  }

  /** An assignment keeps the order of the keys and appends a new key at the end. */
  lemma PutKeys<K(!new), V>(p: seq<(K, V)>, k: K, v: V)
    ensures Keys(Put(p, k, v)) == if k in Keys(p) then Keys(p) else Keys(p) + [k]
  {
    if k in Keys(p) {
      PutPresent(p, k, v);
    } else {
      PutAbsent(p, k, v);
      KeysConcat(p, [(k, v)]);
    }
  }

  /** Writing the value a key already holds changes nothing. */
  lemma {:induction false} PutSameValue<K(!new), V>(p: seq<(K, V)>, k: K, v: V)
    requires Lookup(p, k) == Some(v)
    ensures Put(p, k, v) == p
  {
    if p[0].0 != k {
      PutSameValue(p[1..], k, v);
    }
  }

  /** An assignment keeps a hash free of duplicate keys. */
  lemma {:induction false} PutUnique<K(!new), V>(p: seq<(K, V)>, k: K, v: V)
    requires UniqueKeys(p)
    ensures UniqueKeys(Put(p, k, v))
    ensures forall k' :: k' in Keys(Put(p, k, v)) <==> k' == k || k' in Keys(p)
  {
    if p != [] && p[0].0 != k {
      PutUnique(p[1..], k, v);
    }
  }

  /** `hash.reject { |key, _| ks.include?(key) }`. */
  function Without<K(==,!new), V(!new)>(p: seq<(K, V)>, ks: set<K>): (r: seq<(K, V)>)
    ensures forall k :: Lookup(r, k) == if k in ks then None else Lookup(p, k)
  {
    if p == [] then []
    else if p[0].0 in ks then Without(p[1..], ks)
    else [p[0]] + Without(p[1..], ks)
  }

  /** The keys of `keys` outside `ks`, in their order. */
  function KeysOutside<K(==,!new)>(keys: seq<K>, ks: set<K>): (r: seq<K>)
    ensures forall k :: k in r <==> k in keys && k !in ks
  {
    if keys == [] then []
    else if keys[0] in ks then KeysOutside(keys[1..], ks)
    else [keys[0]] + KeysOutside(keys[1..], ks)
  }

  /** Filtering keeps the remaining entries in their order. */
  lemma {:induction false} WithoutKeepsOrder<K(!new), V(!new)>(p: seq<(K, V)>, ks: set<K>)
    ensures Keys(Without(p, ks)) == KeysOutside(Keys(p), ks)
  {
    if p != [] {
      WithoutKeepsOrder(p[1..], ks);
      assert Keys(p)[1..] == Keys(p[1..]);
      if p[0].0 !in ks {
        KeysConcat([p[0]], Without(p[1..], ks));
      }
    }
  }

  /** Filtering keeps a hash free of duplicate keys and removes the keys in `ks`. */
  lemma {:induction false} WithoutUnique<K(!new), V(!new)>(p: seq<(K, V)>, ks: set<K>)
    requires UniqueKeys(p)
    ensures UniqueKeys(Without(p, ks))
    ensures forall k :: k in Keys(Without(p, ks)) <==> k in Keys(p) && k !in ks
  {
    if p != [] {
      WithoutUnique(p[1..], ks);
    }
  }

  /** `p.merge(q)`: the entries of `q`, assigned one by one over `p`. */
  function Merge<K(==,!new), V>(p: seq<(K, V)>, q: seq<(K, V)>): (r: seq<(K, V)>)
    ensures UniqueKeys(q) ==>
      forall k :: Lookup(r, k) == if k in Keys(q) then Lookup(q, k) else Lookup(p, k)
    decreases |q|
  {
    if q == [] then p else Merge(Put(p, q[0].0, q[0].1), q[1..])
  }

  /** A merge keeps the receiver's keys in their places; new keys come after. */
  lemma {:induction false} MergeKeepsPositions<K(!new), V>(p: seq<(K, V)>, q: seq<(K, V)>)
    ensures Keys(p) <= Keys(Merge(p, q))
    decreases |q|
  {
    if q != [] {
      var k, v := q[0].0, q[0].1;
      if k in Keys(p) {
        PutPresent(p, k, v);
      } else {
        PutAbsent(p, k, v);
        KeysConcat(p, [(k, v)]);
      }
      MergeKeepsPositions(Put(p, k, v), q[1..]);
    }
  }

  /** A merge keeps a hash free of duplicate keys. */
  lemma {:induction false} MergeUnique<K(!new), V>(p: seq<(K, V)>, q: seq<(K, V)>)
    requires UniqueKeys(p)
    ensures UniqueKeys(Merge(p, q))
    decreases |q|
  {
    if q != [] {
      PutUnique(p, q[0].0, q[0].1);
      MergeUnique(Put(p, q[0].0, q[0].1), q[1..]);
    }
  }

  /** The keys of two hashes laid end to end. */
  lemma {:induction false} KeysConcat<K, V>(p: seq<(K, V)>, q: seq<(K, V)>)
    ensures Keys(p + q) == Keys(p) + Keys(q)
  {
    if p == [] {
      assert p + q == q;
    } else {
      assert (p + q)[1..] == p[1..] + q;
      KeysConcat(p[1..], q);
    }
  }

  /** An assignment to a filtered-out key leaves no trace after the filter. */
  lemma {:induction false} WithoutPutInside<K(!new), V(!new)>(p: seq<(K, V)>, k: K, v: V, ks: set<K>)
    requires k in ks
    ensures Without(Put(p, k, v), ks) == Without(p, ks)
  {
    if p != [] && p[0].0 != k {
      WithoutPutInside(p[1..], k, v, ks);
    }
  }

  /** An assignment to a kept key commutes with the filter. */
  lemma {:induction false} WithoutPutOutside<K(!new), V(!new)>(p: seq<(K, V)>, k: K, v: V, ks: set<K>)
    requires k !in ks
    ensures Without(Put(p, k, v), ks) == Put(Without(p, ks), k, v)
  {
    if p != [] && p[0].0 != k {
      WithoutPutOutside(p[1..], k, v, ks);
    }
  }

  /** Filtering a merge is merging the filtered hashes. */
  lemma {:induction false} WithoutMerge<K(!new), V(!new)>(p: seq<(K, V)>, q: seq<(K, V)>, ks: set<K>)
    ensures Without(Merge(p, q), ks) == Merge(Without(p, ks), Without(q, ks))
    decreases |q|
  {
    if q != [] {
      var k, v := q[0].0, q[0].1;
      WithoutMerge(Put(p, k, v), q[1..], ks);
      if k in ks {
        WithoutPutInside(p, k, v, ks);
      } else {
        WithoutPutOutside(p, k, v, ks);
      }
    }
  }
}
