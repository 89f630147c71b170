/** Map facts shared by the two builders' property merges. */
module Maps {

  /** The entries of `m` whose keys are in `keys`. */
  function Restrict<K, V>(m: map<K, V>, keys: set<K>): (r: map<K, V>)
    requires keys <= m.Keys
    ensures r.Keys == keys && forall k :: k in r ==> r[k] == m[k]
  {
    map k | k in keys :: m[k]
  }

  /** Merging one more key of `incoming` into `base` is inserting that key's incoming value. */
  lemma MergeOneMore<K, V>(base: map<K, V>, incoming: map<K, V>, applied: set<K>, key: K)
    requires applied <= incoming.Keys && key in incoming
    ensures (base + Restrict(incoming, applied))[key := incoming[key]] == base + Restrict(incoming, applied + {key})
  {
  }

  /** Once every key is applied, the merged part is all of `incoming`. */
  lemma RestrictAll<K, V>(m: map<K, V>)
    ensures Restrict(m, m.Keys) == m
  {
  }
}
