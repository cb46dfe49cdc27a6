/** Python's `dict`: an association list with unique keys that remembers
    insertion order, which is the order `keys()`, `values()` and `items()`
    iterate in. Assigning to an existing key keeps its position. */
module PyDict {
  import opened Wrappers

  datatype Dict<K, V> = Dict(entries: seq<(K, V)>)

  function Keys<K, V>(d: Dict<K, V>): seq<K> {
    seq(|d.entries|, i requires 0 <= i < |d.entries| => d.entries[i].0)
  }

  function Values<K, V>(d: Dict<K, V>): seq<V> {
    seq(|d.entries|, i requires 0 <= i < |d.entries| => d.entries[i].1)
  }

  /** No key occurs twice. */
  predicate Valid<K(==), V>(d: Dict<K, V>) {
    forall i, j :: 0 <= i < j < |d.entries| ==> d.entries[i].0 != d.entries[j].0
  }

  const Empty: Dict<int, int> := Dict([])

  /** `d.get(k)`: the value stored under `k`, if any. */
  function Get<K(==), V>(d: Dict<K, V>, k: K): (r: Option<V>)
    decreases |d.entries|
    ensures r.None? <==> forall i :: 0 <= i < |d.entries| ==> d.entries[i].0 != k
    ensures r.Some? ==> exists i :: 0 <= i < |d.entries| && d.entries[i] == (k, r.value)
  {
    if d.entries == [] then None
    else if d.entries[0].0 == k then Some(d.entries[0].1)
    else
      var rest := Get(Dict(d.entries[1..]), k);
      assert forall i :: 1 <= i < |d.entries| ==> d.entries[i] == d.entries[1..][i - 1];
      rest
  }

  /** In a valid dict, the entry at position `i` is what `Get` finds. */
  lemma {:induction false} GetAt<K, V>(d: Dict<K, V>, i: nat)
    requires Valid(d) && i < |d.entries|
    ensures Get(d, d.entries[i].0) == Some(d.entries[i].1)
    decreases i
  {
    if i > 0 {
      var tail := Dict(d.entries[1..]);
      assert tail.entries[i - 1] == d.entries[i];
      GetAt(tail, i - 1);
    }
  }

  /** `d[k] = v`: an existing key keeps its position and takes the new value,
      a new key is appended. */
  function Set<K(==), V>(d: Dict<K, V>, k: K, v: V): (r: Dict<K, V>)
    requires Valid(d)
    ensures Get(d, k).Some? ==> |r.entries| == |d.entries|
    ensures Get(d, k).Some? ==>
      forall i :: 0 <= i < |d.entries| ==> r.entries[i] == if d.entries[i].0 == k then (k, v) else d.entries[i]
    ensures Get(d, k).None? ==> r.entries == d.entries + [(k, v)]
    decreases |d.entries|
  {
    if d.entries == [] then Dict([(k, v)])
    else if d.entries[0].0 == k then
      var r := Dict([(k, v)] + d.entries[1..]);
      assert Get(d, k).Some?;
      r
    else
      var rest := Set(Dict(d.entries[1..]), k, v);
      assert forall i :: 1 <= i < |d.entries| ==> d.entries[i] == d.entries[1..][i - 1];
      Dict([d.entries[0]] + rest.entries)
  }

  /** Assignment keeps the key order and appends only a new key; the keys
      stay unique. */
  lemma SetKeys<K, V>(d: Dict<K, V>, k: K, v: V)
    requires Valid(d)
    ensures Get(d, k).Some? ==> Keys(Set(d, k, v)) == Keys(d)
    ensures Get(d, k).None? ==> Keys(Set(d, k, v)) == Keys(d) + [k]
    ensures Valid(Set(d, k, v))
  {
    var r := Set(d, k, v);
    if Get(d, k).Some? {
      assert forall i :: 0 <= i < |r.entries| ==> r.entries[i].0 == d.entries[i].0;
    }
  }

  /** After `d[k] = v`, `k` maps to `v`. */
  lemma SetGetSame<K, V>(d: Dict<K, V>, k: K, v: V)
    requires Valid(d)
    ensures Get(Set(d, k, v), k) == Some(v)
  {
    SetKeys(d, k, v);
    if Get(d, k).Some? {
      var j :| 0 <= j < |d.entries| && d.entries[j] == (k, Get(d, k).value);
      GetAt(Set(d, k, v), j);
    } else {
      GetAt(Set(d, k, v), |d.entries|);
    }
  }

  /** After `d[k] = v`, every other key keeps its value. */
  lemma SetGetOther<K, V>(d: Dict<K, V>, k: K, v: V, other: K)
    requires Valid(d) && other != k
    ensures Get(Set(d, k, v), other) == Get(d, other)
  {
    SetKeys(d, k, v);
    var r := Set(d, k, v);
    if Get(d, other).Some? {
      var i :| 0 <= i < |d.entries| && d.entries[i] == (other, Get(d, other).value);
      assert r.entries[i] == d.entries[i];
      GetAt(r, i);
    } else {
      forall i | 0 <= i < |r.entries|
        ensures r.entries[i].0 != other
      {
        if Get(d, k).None? && i == |d.entries| {
          assert r.entries[i] == (k, v);
        } else {
          assert r.entries[i].0 == d.entries[i].0;
        }
      }
    }
  }
}
