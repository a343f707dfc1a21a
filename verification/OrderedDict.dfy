/**
 Python's insertion-ordered dictionary as a sequence of entries, oldest first.
 Assigning to a key that is present keeps its position; deleting and assigning again moves it to the end.
 */
module OrderedDict {
  import opened Types

  type Dict<K(==), V> = seq<(K, V)>

  ghost predicate Distinct<K, V>(d: seq<(K, V)>) {
    forall i, j :: 0 <= i < j < |d| ==> d[i].0 != d[j].0
  }

  function Keys<K(==), V>(d: Dict<K, V>): (ks: seq<K>)
    ensures |ks| == |d|
    ensures forall i :: 0 <= i < |d| ==> ks[i] == d[i].0
  {
    seq(|d|, i requires 0 <= i < |d| => d[i].0)
  }

  function Get<K(==), V>(d: Dict<K, V>, key: K): Option<V> {
    if d == [] then None else if d[0].0 == key then Some(d[0].1) else Get(d[1..], key)
  }

  predicate Has<K(==), V>(d: Dict<K, V>, key: K) {
    Get(d, key).Some?
  }

  function Put<K(==), V>(d: Dict<K, V>, key: K, value: V): Dict<K, V> {
    if d == [] then [(key, value)]
    else if d[0].0 == key then [(key, value)] + d[1..]
    else [d[0]] + Put(d[1..], key, value)
  }

  function Remove<K(==), V>(d: Dict<K, V>, key: K): Dict<K, V> {
    if d == [] then []
    else if d[0].0 == key then d[1..]
    else [d[0]] + Remove(d[1..], key)
  }

  /** OrderedDict.move_to_end for a key that is present. */
  function MoveToEnd<K(==), V>(d: Dict<K, V>, key: K): Dict<K, V>
    requires Has(d, key)
  {
    Remove(d, key) + [(key, Get(d, key).value)]
  }

  lemma {:induction false} HasIsMembership<K, V>(d: Dict<K, V>, key: K)
    ensures Has(d, key) <==> key in Keys(d)
    ensures Has(d, key) ==> (key, Get(d, key).value) in d
  {
    if d == [] {
    } else {
      HasIsMembership(d[1..], key);
      assert Keys(d) == [d[0].0] + Keys(d[1..]);
    }
  }

  /** In a dictionary with distinct keys an entry is what looking up its key returns. */
  lemma {:induction false} GetAt<K, V>(d: Dict<K, V>, i: nat)
    requires Distinct(d) && i < |d|
    ensures Get(d, d[i].0) == Some(d[i].1)
  {
    if i > 0 {
      GetAt(d[1..], i - 1);
    }
  }

  lemma {:induction false} PutProperties<K, V>(d: Dict<K, V>, key: K, value: V, other: K)
    ensures Get(Put(d, key, value), other) == if other == key then Some(value) else Get(d, other)
    ensures Keys(Put(d, key, value)) == if Has(d, key) then Keys(d) else Keys(d) + [key]
  {
    if d == [] {
    } else {
      PutProperties(d[1..], key, value, other);
      assert Keys(d) == [d[0].0] + Keys(d[1..]);
      if d[0].0 != key {
        assert Put(d, key, value)[1..] == Put(d[1..], key, value);
      }
    }
  }

  lemma {:induction false} PutAbsent<K, V>(d: Dict<K, V>, key: K, value: V)
    requires !Has(d, key)
    ensures Put(d, key, value) == d + [(key, value)]
  {
    if d == [] {
    } else {
      PutAbsent(d[1..], key, value);
    }
  }

  lemma DistinctKeys<K, V>(d: Dict<K, V>)
    ensures Distinct(d) <==> forall i, j :: 0 <= i < j < |Keys(d)| ==> Keys(d)[i] != Keys(d)[j]
  {
    if Distinct(d) {
    } else {
      var i, j :| 0 <= i < j < |d| && d[i].0 == d[j].0;
      assert Keys(d)[i] == Keys(d)[j];
    }
  }

  lemma PutDistinct<K, V>(d: Dict<K, V>, key: K, value: V)
    requires Distinct(d)
    ensures Distinct(Put(d, key, value))
  {
    PutProperties(d, key, value, key);
    HasIsMembership(d, key);
    DistinctKeys(d);
    DistinctKeys(Put(d, key, value));
  }

  lemma {:induction false} RemoveMember<K, V>(d: Dict<K, V>, key: K, e: (K, V))
    requires Distinct(d)
    ensures e in Remove(d, key) <==> e in d && e.0 != key
  {
    if d == [] {
    } else if d[0].0 == key {
      assert e in d <==> e == d[0] || e in d[1..];
    } else {
      RemoveMember(d[1..], key, e);
      assert e in d <==> e == d[0] || e in d[1..];
      assert e in Remove(d, key) <==> e == d[0] || e in Remove(d[1..], key);
    }
  }

  lemma {:induction false} RemoveProperties<K, V>(d: Dict<K, V>, key: K, other: K)
    requires Distinct(d)
    ensures Distinct(Remove(d, key))
    ensures Get(Remove(d, key), other) == if other == key then None else Get(d, other)
    ensures forall i :: 0 <= i < |Remove(d, key)| ==> Remove(d, key)[i].0 != key
    ensures |Remove(d, key)| == if Has(d, key) then |d| - 1 else |d|
  {
    if d == [] {
    } else if d[0].0 == key {
      HasIsMembership(d[1..], key);
    } else {
      RemoveProperties(d[1..], key, other);
      var r := Remove(d[1..], key);
      assert Remove(d, key) == [d[0]] + r;
      forall j | 0 <= j < |r| ensures r[j].0 != d[0].0 {
        RemoveMember(d[1..], key, r[j]);
      }
    }
  }

  lemma MoveToEndProperties<K, V>(d: Dict<K, V>, key: K, other: K)
    requires Distinct(d) && Has(d, key)
    ensures Distinct(MoveToEnd(d, key))
    ensures Get(MoveToEnd(d, key), other) == Get(d, other)
  {
    RemoveProperties(d, key, other);
    var r, e := Remove(d, key), (key, Get(d, key).value);
    DistinctAppend(r, e);
    GetAppend(r, e, other);
  }

  lemma DistinctAppend<K, V>(d: Dict<K, V>, e: (K, V))
    requires Distinct(d) && forall i :: 0 <= i < |d| ==> d[i].0 != e.0
    ensures Distinct(d + [e])
  {
  }

  lemma {:induction false} GetAppend<K, V>(d: Dict<K, V>, e: (K, V), other: K)
    ensures Get(d + [e], other) == if Has(d, other) then Get(d, other) else if e.0 == other then Some(e.1) else None
  {
    if d == [] {
    } else {
      assert (d + [e])[1..] == d[1..] + [e];
      GetAppend(d[1..], e, other);
    }
  }

  /** Two dictionaries with the same keys in the same order and the same values are the same dictionary. */
  lemma {:induction false} SameDict<K, V>(d: Dict<K, V>, e: Dict<K, V>)
    requires Distinct(d) && Keys(d) == Keys(e)
    requires forall k :: k in Keys(d) ==> Get(d, k) == Get(e, k)
    ensures d == e
  {
    DistinctKeys(d);
    DistinctKeys(e);
    forall i | 0 <= i < |d| ensures d[i] == e[i] {
      GetAt(d, i);
      GetAt(e, i);
      assert d[i].0 == Keys(d)[i] == Keys(e)[i] == e[i].0;
    }
  }
}
