/**
 * An insertion-ordered dictionary: a JavaScript object with string keys or a
 * Python `dict`. Entries keep the order in which their keys were first
 * inserted; assigning to an existing key keeps its position.
 */
module OrderedDict {
  import opened Wrappers

  type Dict<K, V> = seq<(K, V)>

  function Keys<K, V>(d: Dict<K, V>): (ks: seq<K>)
    ensures |ks| == |d| && forall i :: 0 <= i < |d| ==> ks[i] == d[i].0
  {
    if d == [] then [] else [d[0].0] + Keys(d[1..])
  }

  /** No key occurs twice. */
  predicate Valid<K(==,!new), V>(d: Dict<K, V>) {
    forall i, j :: 0 <= i < j < |d| ==> d[i].0 != d[j].0
  }

  /** `d[k]`, or nothing when the key is absent. */
  function Get<K(==), V>(d: Dict<K, V>, k: K): Option<V> {
    if d == [] then None
    else if d[0].0 == k then Some(d[0].1)
    else Get(d[1..], k)
  }

  /** A key reads a value exactly when it is one of the keys, and then the value is stored with it. */
  lemma {:induction false} GetFound<K, V>(d: Dict<K, V>, k: K)
    ensures Get(d, k).Some? <==> k in Keys(d)
    ensures Get(d, k).Some? ==> exists i :: 0 <= i < |d| && d[i] == (k, Get(d, k).value)
  {
    if d != [] {
      assert Keys(d) == [d[0].0] + Keys(d[1..]);
      if d[0].0 != k {
        GetFound(d[1..], k);
        if Get(d, k).Some? {
          var i :| 0 <= i < |d[1..]| && d[1..][i] == (k, Get(d, k).value);
          assert d[i + 1] == (k, Get(d, k).value);
        }
      }
    }
  }

  /** `d[k] = v`: overwrites in place when `k` is present, appends otherwise. */
  function Put<K(==), V>(d: Dict<K, V>, k: K, v: V): Dict<K, V> {
    if d == [] then [(k, v)]
    else if d[0].0 == k then [(k, v)] + d[1..]
    else [d[0]] + Put(d[1..], k, v)
  }

  /** Assignment keeps the key order: an existing key stays in place, a new one goes last. */
  lemma {:induction false} PutKeys<K, V>(d: Dict<K, V>, k: K, v: V)
    ensures k in Keys(d) ==> Keys(Put(d, k, v)) == Keys(d)
    ensures k !in Keys(d) ==> Keys(Put(d, k, v)) == Keys(d) + [k]
  {
    if d != [] {
      assert Keys(d) == [d[0].0] + Keys(d[1..]);
      if d[0].0 != k {
        PutKeys(d[1..], k, v);
        assert Keys(Put(d, k, v)) == [d[0].0] + Keys(Put(d[1..], k, v));
      } else {
        assert Keys(Put(d, k, v)) == [k] + Keys(d[1..]);
      }
    }
  }

  /** After `d[k] = v`, `k` reads `v` and every other key reads what it read before. */
  lemma {:induction false} PutGet<K, V>(d: Dict<K, V>, k: K, v: V, k': K)
    ensures Get(Put(d, k, v), k') == if k' == k then Some(v) else Get(d, k')
  {
    if d != [] && d[0].0 != k {
      PutGet(d[1..], k, v, k');
    }
  }

  lemma PutGetAll<K, V>(d: Dict<K, V>, k: K, v: V)
    ensures forall k' :: Get(Put(d, k, v), k') == if k' == k then Some(v) else Get(d, k')
  {
    forall k' ensures Get(Put(d, k, v), k') == if k' == k then Some(v) else Get(d, k') {
      PutGet(d, k, v, k');
    }
  }

  /** `d[k] = v` never duplicates a key. */
  lemma PutValid<K(!new), V>(d: Dict<K, V>, k: K, v: V)
    requires Valid(d)
    ensures Valid(Put(d, k, v))
  {
    var r := Put(d, k, v);
    PutKeys(d, k, v);
    assert Keys(r) == Keys(d) || Keys(r) == Keys(d) + [k];
    forall i, j | 0 <= i < j < |r| ensures r[i].0 != r[j].0 {
      assert Keys(r)[i] == r[i].0 && Keys(r)[j] == r[j].0;
    }
  }

  /** The dictionary as a finite map (forgets the order). */
  function ToMap<K(==,!new), V>(d: Dict<K, V>): (m: map<K, V>)
    ensures m.Keys == set k | k in Keys(d)
    ensures forall k :: k in m ==> Get(d, k) == Some(m[k])
  {
    if d == [] then map[]
    else
      var m := ToMap(d[1..])[d[0].0 := d[0].1];
      assert Keys(d) == [d[0].0] + Keys(d[1..]);
      m
  }
}
