/** A Python dict as the core uses `lib_tracks`: keys kept in insertion
    order, assignment to an existing key keeps its position. */
module OrderedDict {
  import opened Sequences

  type Dict<K, V> = seq<(K, V)>

  function Keys<K, V>(d: Dict<K, V>): (ks: seq<K>)
  {
    seq(|d|, i requires 0 <= i < |d| => d[i].0)
  }

  predicate HasKey<K(==), V>(d: Dict<K, V>, k: K)
  {
    k in Keys(d)
  }

  /** `d[k]`, for a key the dict holds (the first entry with that key). */
  function Get<K(==), V>(d: Dict<K, V>, k: K): V
    requires HasKey(d, k)
  {
    if d[0].0 == k then d[0].1
    else
      assert Keys(d) == [d[0].0] + Keys(d[1..]);
      Get(d[1..], k)
  }

  /** `d[k] = v`: replaces the value in place, or appends a new entry. */
  function Put<K(==), V>(d: Dict<K, V>, k: K, v: V): (r: Dict<K, V>)
    ensures HasKey(r, k) && Get(r, k) == v
    ensures Keys(r) == if HasKey(d, k) then Keys(d) else Keys(d) + [k]
  {
    if d == [] then
      KeysCons((k, v), []);
      assert [(k, v)] + [] == [(k, v)];
      [(k, v)]
    else
      KeysCons(d[0], d[1..]);
      assert d == [d[0]] + d[1..];
      if d[0].0 == k then
        KeysCons((k, v), d[1..]);
        [(k, v)] + d[1..]
      else
        var r := [d[0]] + Put(d[1..], k, v);
        KeysCons(d[0], Put(d[1..], k, v));
        r
  }

  /** The keys of a dict with one entry in front. */
  lemma KeysCons<K, V>(e: (K, V), d: Dict<K, V>)
    ensures Keys([e] + d) == [e.0] + Keys(d)
  {
  }

  /** `d[k] = v` leaves every other key's value as it was. */
  lemma {:induction false} PutKeepsOthers<K, V>(d: Dict<K, V>, k: K, v: V, k': K)
    requires HasKey(d, k') && k' != k
    ensures HasKey(Put(d, k, v), k') && Get(Put(d, k, v), k') == Get(d, k')
  {
    if d[0].0 != k' && d[0].0 != k {
      assert Keys(d) == [d[0].0] + Keys(d[1..]);
      PutKeepsOthers(d[1..], k, v, k');
    }
  }

  /** The values in key order, concatenated (`for sublist in d.values() for item in sublist`). */
  function AllValues<K, V>(d: Dict<K, seq<V>>): seq<V>
  {
    if d == [] then [] else d[0].1 + AllValues(d[1..])
  }

  /** Every value of the dict is part of the concatenation. */
  lemma {:induction false} GetInAllValues<K, V>(d: Dict<K, seq<V>>, k: K, x: V)
    requires HasKey(d, k) && x in Get(d, k)
    ensures x in AllValues(d)
  {
    if d[0].0 != k {
      assert Keys(d) == [d[0].0] + Keys(d[1..]);
      GetInAllValues(d[1..], k, x);
    }
  }

  /** A dict built only by `Put` never holds a key twice. */
  lemma {:induction false} PutKeepsKeysDistinct<K, V>(d: Dict<K, V>, k: K, v: V)
    requires Distinct(Keys(d))
    ensures Distinct(Keys(Put(d, k, v)))
  {
    var ks := Keys(d);
    if !HasKey(d, k) {
      var ks' := ks + [k];
      forall i, j | 0 <= i < j < |ks'| ensures ks'[i] != ks'[j] {
        if j == |ks| { assert ks[i] in ks; }
      }
    }
  }
}
