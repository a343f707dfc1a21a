/**
 BoundedLRUDict (util.py): a dictionary that forgets its least recently used entry when it grows past a cap.
 The entries are kept least recently used first, as the ordered dictionary underneath keeps them.
 */
module LruCache {
  import opened Types
  import opened OrderedDict
  import opened Sequences

  function GetStep<K(==), V>(d: Dict<K, V>, key: K): Dict<K, V> {
    if Has(d, key) then MoveToEnd(d, key) else d
  }

  function SetStep<K(==), V>(d: Dict<K, V>, maxSize: int, key: K, value: V): Dict<K, V> {
    var stored := Put(GetStep(d, key), key, value);
    if |stored| > maxSize && |stored| > 0 then stored[1..] else stored
  }

  class BoundedLRUDict<K(==), V> {
    var entries: Dict<K, V>
    const maxSize: int

    constructor (maxSize: int)
      ensures this.maxSize == maxSize && entries == []
    {
      this.maxSize := maxSize;
      entries := [];
    }

    ghost predicate Valid() reads this {
      Distinct(entries)
    }

    /** Looks a key up and, when it is present, makes it the most recently used. */
    method Lookup(key: K) returns (found: Option<V>)
      requires Valid()
      modifies this
      ensures Valid()
      ensures found == Get(old(entries), key)
      ensures entries == GetStep(old(entries), key)
    {
      found := Get(entries, key);
      GetStepProperties(entries, key);
      if found.Some? {
        entries := MoveToEnd(entries, key);
      }
    }

    /** Stores a value as the most recently used one; at most one entry, the least recently used, is dropped. */
    method Assign(key: K, value: V)
      requires Valid()
      modifies this
      ensures Valid()
      ensures entries == SetStep(old(entries), maxSize, key, value)
    {
      SetStepProperties(entries, maxSize, key, value);
      if Has(entries, key) {
        entries := MoveToEnd(entries, key);
      }
      entries := Put(entries, key, value);
      if |entries| > maxSize && |entries| > 0 {
        entries := entries[1..];
      }
    }

    method Contains(key: K) returns (present: bool)
      ensures present <==> key in Keys(entries)
    {
      HasIsMembership(entries, key);
      present := Has(entries, key);
    }
  }

  lemma {:induction false} RemoveKeys<K, V>(d: Dict<K, V>, key: K)
    requires Distinct(d)
    ensures Keys(Remove(d, key)) == Without(Keys(d), key)
  {
    if d == [] {
    } else {
      assert Keys(d)[1..] == Keys(d[1..]);
      if d[0].0 == key {
        assert key !in Keys(d[1..]);
        WithoutProperties(Keys(d[1..]), key, key);
      } else {
        RemoveKeys(d[1..], key);
      }
    }
  }

  lemma MoveToEndKeys<K, V>(d: Dict<K, V>, key: K)
    requires Distinct(d) && Has(d, key)
    ensures Keys(MoveToEnd(d, key)) == Without(Keys(d), key) + [key]
  {
    RemoveKeys(d, key);
  }

  /** An access of the pattern acts on the keys as AccessKeys says, whether the key was held or not. */
  lemma AccessActsOnKeys<K, V>(d: Dict<K, V>, maxSize: int, key: K, value: V)
    requires Distinct(d)
    ensures Has(d, key) ==> Keys(GetStep(d, key)) == AccessKeys(Keys(d), maxSize, key)
    ensures !Has(d, key) ==> Keys(SetStep(d, maxSize, key, value)) == AccessKeys(Keys(d), maxSize, key)
  {
    HasIsMembership(d, key);
    if Has(d, key) {
      MoveToEndKeys(d, key);
    } else {
      PutProperties(d, key, value, key);
    }
  }

  lemma GetStepProperties<K, V>(d: Dict<K, V>, key: K)
    requires Distinct(d)
    ensures Distinct(GetStep(d, key))
    ensures forall k :: Get(GetStep(d, key), k) == Get(d, k)
  {
    forall k ensures Distinct(GetStep(d, key)) && Get(GetStep(d, key), k) == Get(d, k) {
      if Has(d, key) {
        MoveToEndProperties(d, key, k);
      }
    }
    if Has(d, key) {
      MoveToEndProperties(d, key, key);
    }
  }

  lemma SetStepProperties<K, V>(d: Dict<K, V>, maxSize: int, key: K, value: V)
    requires Distinct(d)
    ensures Distinct(SetStep(d, maxSize, key, value))
  {
    if Has(d, key) {
      MoveToEndProperties(d, key, key);
    }
    PutDistinct(GetStep(d, key), key, value);
  }

  // ---- What the steps do to the keys alone ----

  function Without<K(==)>(ks: seq<K>, key: K): seq<K> {
    if ks == [] then [] else if ks[0] == key then Without(ks[1..], key) else [ks[0]] + Without(ks[1..], key)
  }

  /** The keys after one access of the pattern "get, and set on a miss". */
  function AccessKeys<K(==)>(ks: seq<K>, maxSize: int, key: K): seq<K> {
    if key in ks then Without(ks, key) + [key]
    else if |ks| + 1 > maxSize then (ks + [key])[1..]
    else ks + [key]
  }

  function KeysAfter<K(==)>(trace: seq<K>, maxSize: int): seq<K> {
    if trace == [] then [] else AccessKeys(KeysAfter(trace[..|trace| - 1], maxSize), maxSize, trace[|trace| - 1])
  }

  /** The unbounded move-to-front list of a trace, most recent last: each key once, in order of last use. */
  function Recency<K(==)>(trace: seq<K>): seq<K> {
    if trace == [] then [] else Without(Recency(trace[..|trace| - 1]), trace[|trace| - 1]) + [trace[|trace| - 1]]
  }

  function LastN<K>(s: seq<K>, n: int): seq<K> {
    if n <= 0 then [] else if |s| <= n then s else s[|s| - n..]
  }

  lemma {:induction false} WithoutProperties<K>(s: seq<K>, key: K, other: K)
    ensures other in Without(s, key) <==> other in s && other != key
    ensures NoRepeats(s) ==> NoRepeats(Without(s, key))
    ensures key !in s ==> Without(s, key) == s
  {
    if s == [] {
    } else {
      WithoutProperties(s[1..], key, other);
      assert other in s <==> other == s[0] || other in s[1..];
      if s[0] != key {
        WithoutProperties(s[1..], key, s[0]);
        if NoRepeats(s) {
          assert s[0] !in s[1..];
        }
      }
    }
  }

  lemma {:induction false} WithoutAppend<K>(s: seq<K>, t: seq<K>, key: K)
    ensures Without(s + t, key) == Without(s, key) + Without(t, key)
  {
    if s == [] {
      assert s + t == t;
    } else {
      assert (s + t)[1..] == s[1..] + t;
      WithoutAppend(s[1..], t, key);
    }
  }

  lemma {:induction false} RecencyContents<K>(trace: seq<K>, key: K)
    ensures NoRepeats(Recency(trace))
    ensures key in Recency(trace) <==> key in trace
  {
    if trace == [] {
    } else {
      var before, last := trace[..|trace| - 1], trace[|trace| - 1];
      RecencyContents(before, key);
      WithoutProperties(Recency(before), last, key);
      WithoutProperties(Recency(before), last, last);
      assert trace == before + [last];
    }
  }

  /** The recency list of a longer trace ends with the recency list of its later part. */
  lemma {:induction false} RecencyAppend<K>(before: seq<K>, after: seq<K>) returns (older: seq<K>)
    ensures Recency(before + after) == older + Recency(after)
    ensures forall k :: k in older ==> k in before && k !in after
  {
    if after == [] {
      assert before + after == before;
      older := Recency(before);
      forall k | k in older ensures k in before { RecencyContents(before, k); }
    } else {
      var front, last := after[..|after| - 1], after[|after| - 1];
      assert (before + after)[..|before + after| - 1] == before + front;
      var o := RecencyAppend(before, front);
      older := Without(o, last);
      WithoutAppend(o, Recency(front), last);
      assert Recency(before + after) == older + (Without(Recency(front), last) + [last]);
      forall k | k in older ensures k in before && k !in after {
        WithoutProperties(o, last, k);
        assert after == front + [last];
      }
    }
  }

  /** The LRU stack property: a cache of any capacity holds exactly the most recent keys of the unbounded list. */
  lemma {:induction false} LruStackProperty<K>(trace: seq<K>, maxSize: int)
    ensures KeysAfter(trace, maxSize) == LastN(Recency(trace), maxSize)
  {
    if trace == [] {
    } else {
      var before, last := trace[..|trace| - 1], trace[|trace| - 1];
      LruStackProperty(before, maxSize);
      RecencyContents(before, last);
      OneAccess(Recency(before), maxSize, last);
    }
  }

  /** One access keeps "holds the last maxSize keys of the recency list". */
  lemma OneAccess<K>(r: seq<K>, maxSize: int, key: K)
    requires NoRepeats(r)
    ensures AccessKeys(LastN(r, maxSize), maxSize, key) == LastN(Without(r, key) + [key], maxSize)
  {
    var held := LastN(r, maxSize);
    var lost := r[..|r| - |held|];
    assert r == lost + held;
    if key in held {
      HitAccess(lost, held, maxSize, key);
    } else {
      MissAccess(lost, held, maxSize, key);
    }
  }

  lemma HitAccess<K>(lost: seq<K>, held: seq<K>, maxSize: int, key: K)
    requires NoRepeats(lost + held) && key in held
    requires lost != [] ==> |held| == maxSize
    requires |held| <= maxSize
    ensures AccessKeys(held, maxSize, key) == LastN(Without(lost + held, key) + [key], maxSize)
  {
    var i :| 0 <= i < |held| && held[i] == key;
    assert (lost + held)[|lost| + i] == key;
    assert key !in lost by {
      assert forall j :: 0 <= j < |lost| ==> (lost + held)[j] == lost[j];
    }
    assert NoRepeats(held) by {
      assert forall j :: 0 <= j < |held| ==> (lost + held)[|lost| + j] == held[j];
    }
    WithoutAppend(lost, held, key);
    WithoutProperties(lost, key, key);
    RemovedOnce(held, key);
    assert Without(lost + held, key) + [key] == lost + (Without(held, key) + [key]);
    if lost != [] {
      LastNOfAppend(lost, Without(held, key) + [key], maxSize);
    }
  }

  lemma MissAccess<K>(lost: seq<K>, held: seq<K>, maxSize: int, key: K)
    requires key !in held
    requires |held| < maxSize ==> lost == []
    requires |held| <= if maxSize > 0 then maxSize else 0
    ensures AccessKeys(held, maxSize, key) == LastN(Without(lost + held, key) + [key], maxSize)
  {
    WithoutAppend(lost, held, key);
    WithoutProperties(held, key, key);
    var grown := held + [key];
    assert Without(lost + held, key) + [key] == Without(lost, key) + grown;
    if |held| >= maxSize {
      assert Without(lost, key) + grown == (Without(lost, key) + grown[..1]) + grown[1..];
      LastNOfAppend(Without(lost, key) + grown[..1], grown[1..], maxSize);
    }
  }

  lemma LastNOfAppend<K>(s: seq<K>, t: seq<K>, n: int)
    requires |t| == if n > 0 then n else 0
    ensures LastN(s + t, n) == t
  {
  }

  lemma {:induction false} RemovedOnce<K>(s: seq<K>, key: K)
    requires NoRepeats(s) && key in s
    ensures |Without(s, key)| == |s| - 1
  {
    if s[0] == key {
      assert key !in s[1..];
      WithoutProperties(s[1..], key, key);
    } else {
      assert key in s[1..];
      RemovedOnce(s[1..], key);
    }
  }

  /** Contents grow monotonically with the capacity. */
  lemma CapacityMonotone<K>(trace: seq<K>, small: int, large: int)
    requires small <= large
    ensures KeysAfter(trace, small) == LastN(KeysAfter(trace, large), small)
  {
    LruStackProperty(trace, small);
    LruStackProperty(trace, large);
  }

  lemma {:induction false} NoRepeatsSize<K>(s: seq<K>, elements: set<K>)
    requires NoRepeats(s) && forall k :: k in s <==> k in elements
    ensures |s| == |elements|
  {
    if s == [] {
      assert elements == {};
    } else {
      assert s[0] !in s[1..];
      forall k ensures k in s[1..] <==> k in elements - {s[0]} {
        assert k in s <==> k == s[0] || k in s[1..];
      }
      NoRepeatsSize(s[1..], elements - {s[0]});
    }
  }

  lemma OnlyKey<K>(front: seq<K>, back: seq<K>, key: K)
    requires NoRepeats(front + back) && key in front + back && key !in back
    requires forall k :: k in front ==> k == key
    ensures front == [key]
  {
    var whole := front + back;
    assert forall i :: 0 <= i < |front| ==> whole[i] == front[i] && front[i] in front;
    NoRepeatsSize(front, {key});
  }

  lemma PositionInSuffix<K>(front: seq<K>, key: K, back: seq<K>, n: int)
    requires NoRepeats(front + [key] + back)
    ensures key in LastN(front + [key] + back, n) <==> |back| < n
  {
    var r := front + [key] + back;
    var kept := LastN(r, n);
    assert r[|front|] == key;
    if |back| < n {
      assert kept[|kept| - |back| - 1] == key;
    }
    if key in kept {
      var i :| 0 <= i < |kept| && kept[i] == key;
      assert r[|r| - |kept| + i] == key;
    }
  }

  /** After its last use a key stays exactly until as many distinct other keys as the capacity have been used. */
  lemma SurvivesUntil<K>(before: seq<K>, key: K, after: seq<K>, maxSize: int)
    requires key !in after
    ensures key in KeysAfter(before + [key] + after, maxSize) <==> |set k | k in after| < maxSize
  {
    var trace := before + [key] + after;
    assert trace == before + ([key] + after);
    LruStackProperty(trace, maxSize);
    var oldest := RecencyAppend(before, [key] + after);
    var middle := RecencyAppend([key], after);
    forall k ensures k in Recency(after) <==> k in after { RecencyContents(after, k); }
    RecencyContents(after, key);
    NoRepeatsSize(Recency(after), set k | k in after);
    RecencyContents([key] + after, key);
    OnlyKey(middle, Recency(after), key);
    RecencyContents(trace, key);
    assert Recency(trace) == oldest + [key] + Recency(after);
    PositionInSuffix(oldest, key, Recency(after), maxSize);
  }

  /** Every key used in the later part of a trace is held, when that part uses no more keys than fit. */
  lemma RecentKeysHeld<K>(before: seq<K>, after: seq<K>, maxSize: int, key: K)
    requires key in after && |set k | k in after| <= maxSize
    ensures key in KeysAfter(before + after, maxSize)
  {
    LruStackProperty(before + after, maxSize);
    var older := RecencyAppend(before, after);
    forall k ensures k in Recency(after) <==> k in after { RecencyContents(after, k); }
    RecencyContents(after, key);
    NoRepeatsSize(Recency(after), set k | k in after);
    InSuffix(older, Recency(after), maxSize, key);
  }

  lemma InSuffix<K>(front: seq<K>, back: seq<K>, n: int, key: K)
    requires key in back && |back| <= n
    ensures key in LastN(front + back, n)
  {
    var i :| 0 <= i < |back| && back[i] == key;
    var kept := LastN(front + back, n);
    assert kept[|kept| - |back| + i] == key;
  }
}
