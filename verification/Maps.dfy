/** Steps of loops that work through a map one key at a time. */
module Maps {

  lemma TakeOne<K, V>(todo: map<K, V>, done: map<K, V>, k: K)
    requires todo.Keys !! done.Keys && k in todo
    ensures (todo - {k}) + done[k := todo[k]] == todo + done
    ensures (todo - {k}).Keys !! done[k := todo[k]].Keys
  {}

  lemma PutOne<K, V>(m: map<K, V>, done: map<K, V>, k: K, v: V)
    ensures m + done[k := v] == (m + done)[k := v]
  {}

  lemma DropOne<K, V>(m: map<K, V>, done: set<K>, k: K)
    ensures m - (done + {k}) == (m - done) - {k}
  {}

  /** One more key yields to `skip` and to the keys of `base`. */
  lemma YieldOne<K, V>(base: map<K, V>, skip: set<K>, done: map<K, V>, k: K, v: V)
    requires k !in done
    ensures (done[k := v] - skip) + base ==
            (if k in skip || k in base then (done - skip) + base else ((done - skip) + base)[k := v])
  {
    var l := (done[k := v] - skip) + base;
    var r := (done - skip) + base;
    if k in skip || k in base {
      assert l == r;
    } else {
      assert l == r[k := v];
    }
  }
}
