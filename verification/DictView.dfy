/**
 A dictionary whose values are objects, seen as a dictionary of the states a map records for them.
 This is what lets a method that changes one object say what the whole dictionary has become.
 */
module DictView {
  import opened Types
  import opened OrderedDict
  import opened LruCache

  ghost predicate Covered<K, B, S>(d: Dict<K, B>, m: map<B, S>) {
    forall i :: 0 <= i < |d| ==> d[i].1 in m
  }

  /** A dictionary of item items seen as a dictionary of the states that `m` records for them. */
  ghost function ViewOf<K, B, S>(d: Dict<K, B>, m: map<B, S>): (v: Dict<K, S>)
    requires Covered(d, m)
    ensures |v| == |d| && forall i :: 0 <= i < |d| ==> v[i].0 == d[i].0
  {
    if d == [] then [] else [(d[0].0, m[d[0].1])] + ViewOf(d[1..], m)
  }

  lemma {:induction false} ViewLookup<K, B, S>(d: Dict<K, B>, m: map<B, S>, key: K)
    requires Covered(d, m)
    ensures Get(d, key).Some? ==> Get(d, key).value in m && (key, Get(d, key).value) in d
    ensures Get(ViewOf(d, m), key) == if Get(d, key).Some? then Some(m[Get(d, key).value]) else None
  {
    if d == [] {
    } else {
      ViewLookup(d[1..], m, key);
    }
  }

  lemma {:induction false} ViewAppend<K, B, S>(d: Dict<K, B>, e: (K, B), m: map<B, S>)
    requires Covered(d, m) && e.1 in m
    ensures Covered(d + [e], m)
    ensures ViewOf(d + [e], m) == ViewOf(d, m) + [(e.0, m[e.1])]
  {
    if d == [] {
    } else {
      assert (d + [e])[1..] == d[1..] + [e];
      ViewAppend(d[1..], e, m);
    }
  }

  lemma {:induction false} ViewRemove<K, B, S>(d: Dict<K, B>, m: map<B, S>, key: K)
    requires Covered(d, m)
    ensures Covered(Remove(d, key), m)
    ensures ViewOf(Remove(d, key), m) == Remove(ViewOf(d, m), key)
  {
    if d == [] || d[0].0 == key {
    } else {
      ViewRemove(d[1..], m, key);
      assert Remove(d, key)[1..] == Remove(d[1..], key);
    }
  }

  lemma ViewGetStep<K, B, S>(d: Dict<K, B>, m: map<B, S>, key: K)
    requires Covered(d, m) && Has(d, key)
    ensures Covered(GetStep(d, key), m)
    ensures ViewOf(GetStep(d, key), m) == GetStep(ViewOf(d, m), key)
  {
    ViewLookup(d, m, key);
    ViewRemove(d, m, key);
    ViewAppend(Remove(d, key), (key, Get(d, key).value), m);
  }

  lemma ViewSetStep<K, B, S>(d: Dict<K, B>, m: map<B, S>, maxSize: int, key: K, item: B)
    requires Covered(d, m) && item in m && !Has(d, key)
    ensures Covered(SetStep(d, maxSize, key, item), m)
    ensures ViewOf(SetStep(d, maxSize, key, item), m) == SetStep(ViewOf(d, m), maxSize, key, m[item])
  {
    ViewLookup(d, m, key);
    ViewAppend(d, (key, item), m);
    PutAbsent(d, key, item);
    PutAbsent(ViewOf(d, m), key, m[item]);
  }

  ghost predicate Unshared<K, B>(d: Dict<K, B>) {
    forall i, j :: 0 <= i < j < |d| ==> d[i].1 != d[j].1
  }

  lemma {:induction false} ViewSame<K, B, S>(d: Dict<K, B>, m: map<B, S>, m': map<B, S>)
    requires Covered(d, m) && Covered(d, m')
    requires forall i :: 0 <= i < |d| ==> m[d[i].1] == m'[d[i].1]
    ensures ViewOf(d, m) == ViewOf(d, m')
  {
    if d == [] {
    } else {
      ViewSame(d[1..], m, m');
    }
  }

  ghost predicate Unheld<K, B>(d: Dict<K, B>, item: B) {
    forall i :: 0 <= i < |d| ==> d[i].1 != item
  }

  /** Changing the state of the item held under `key` changes that entry of the view and no other. */
  lemma {:induction false} ViewUpdate<K, B, S>(d: Dict<K, B>, m: map<B, S>, key: K, item: B, after: S)
    requires Covered(d, m) && Distinct(d) && Unshared(d) && Get(d, key) == Some(item)
    ensures Covered(d, m[item := after])
    ensures ViewOf(d, m[item := after]) == Put(ViewOf(d, m), key, after)
  {
    if d[0].0 == key {
      ViewSame(d[1..], m, m[item := after]);
    } else {
      ViewLookup(d[1..], m, key);
      assert d[0].1 != item by {
        var i :| 0 <= i < |d[1..]| && d[1..][i] == (key, item);
        assert d[i + 1].1 == item;
      }
      ViewUpdate(d[1..], m, key, item, after);
    }
  }

  lemma {:induction false} RemoveUnshared<K, B>(d: Dict<K, B>, key: K)
    requires Distinct(d) && Unshared(d)
    ensures Unshared(Remove(d, key))
    ensures forall i :: 0 <= i < |Remove(d, key)| ==> Remove(d, key)[i] in d
    ensures forall i :: Has(d, key) && 0 <= i < |Remove(d, key)| ==> Remove(d, key)[i].1 != Get(d, key).value
  {
    if d == [] {
    } else if d[0].0 == key {
    } else {
      RemoveUnshared(d[1..], key);
      var r := Remove(d[1..], key);
      assert Remove(d, key) == [d[0]] + r;
      HasIsMembership(d[1..], key);
      forall j | 0 <= j < |r| ensures r[j].1 != d[0].1 && r[j] in d {
        assert r[j] in d[1..];
      }
    }
  }

  lemma HitItems<K, B>(d: Dict<K, B>, key: K)
    requires Distinct(d) && Unshared(d) && Has(d, key)
    ensures var d' := GetStep(d, key);
            Distinct(d') && Unshared(d') && Get(d', key) == Get(d, key) && forall i :: 0 <= i < |d'| ==> d'[i] in d
  {
    hide Distinct, Remove, Get;
    RemoveUnshared(d, key);
    HasIsMembership(d, key);
    GetStepProperties(d, key);
  }

  /** The view after a hit on a held item whose state becomes `after`. */
  lemma HitView<K, B, S>(d: Dict<K, B>, m: map<B, S>, key: K, after: S)
    requires Covered(d, m) && Distinct(d) && Unshared(d) && Has(d, key)
    ensures var d', m' := GetStep(d, key), m[Get(d, key).value := after];
            && Distinct(d') && Unshared(d') && Covered(d', m')
            && Has(GetStep(ViewOf(d, m), key), key)
            && ViewOf(d', m') == Put(GetStep(ViewOf(d, m), key), key, after)
            && forall i :: 0 <= i < |d'| ==> d'[i] in d
  {
    hide Distinct, Unshared, Covered, ViewOf, Put, Remove, Get, GetStep;
    HitItems(d, key);
    ViewLookup(d, m, key);
    ViewGetStep(d, m, key);
    ViewLookup(GetStep(d, key), m, key);
    ViewUpdate(GetStep(d, key), m, key, Get(d, key).value, after);
  }

  lemma SetItems<K, B>(d: Dict<K, B>, maxSize: int, key: K, item: B)
    requires Distinct(d) && Unshared(d) && !Has(d, key) && Unheld(d, item)
    ensures var d', all := SetStep(d, maxSize, key, item), d + [(key, item)];
            && Distinct(d') && Unshared(d')
            && (d' == all || d' == all[1..])
            && (d' != [] ==> Get(d', key) == Some(item))
  {
    var d' := SetStep(d, maxSize, key, item);
    PutAbsent(d, key, item);
    SetStepProperties(d, maxSize, key, item);
    if d' != [] {
      GetAt(d', |d'| - 1);
    }
  }

  /** The view after a miss that stored a new item, whose state becomes `after`. */
  lemma MissView<K, B, S>(d: Dict<K, B>, m: map<B, S>, maxSize: int, key: K, item: B, after: S)
    requires Covered(d, m) && Distinct(d) && Unshared(d) && !Has(d, key) && Unheld(d, item) && item in m
    ensures var d', v' := SetStep(d, maxSize, key, item), SetStep(ViewOf(d, m), maxSize, key, m[item]);
            && Covered(d', m[item := after])
            && ViewOf(d', m[item := after]) == (if Has(v', key) then Put(v', key, after) else v')
  {
    var d' := SetStep(d, maxSize, key, item);
    SetItems(d, maxSize, key, item);
    ViewSetStep(d, m, maxSize, key, item);
    ViewLookup(d', m, key);
    if d' != [] {
      ViewUpdate(d', m, key, item, after);
    }
  }
}
