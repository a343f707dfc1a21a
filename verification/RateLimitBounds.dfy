/**
 What the rate limiter promises over whole runs: how many calls of one (user, tool) pair a time window can see
 accepted, exactly when the bounded cache endangers that bound, and which callers are never rejected.
 */
module RateLimitBounds {
  import opened Types
  import opened OrderedDict
  import opened LruCache
  import opened RateLimiter
  import opened Sequences

  datatype Call<+K> = Call(key: K, perMinute: int, created: real, now: real)

  function StateAfter<K(==)>(calls: seq<Call<K>>, maxSize: int): Dict<K, BucketState> {
    if calls == [] then []
    else
      var c := calls[|calls| - 1];
      AcquireStep(StateAfter(calls[..|calls| - 1], maxSize), maxSize, c.key, c.perMinute, c.created, c.now).0
  }

  predicate Accepted<K(==)>(calls: seq<Call<K>>, maxSize: int, i: nat)
    requires i < |calls|
  {
    var c := calls[i];
    AcquireStep(StateAfter(calls[..i], maxSize), maxSize, c.key, c.perMinute, c.created, c.now).1
  }

  /** The clock is monotone: within a call and from call to call. */
  ghost predicate Clocked<K>(calls: seq<Call<K>>) {
    && (forall i :: 0 <= i < |calls| ==> calls[i].created <= calls[i].now)
    && (forall i, j :: 0 <= i < j < |calls| ==> calls[i].now <= calls[j].created)
  }

  /** The keys whose buckets a run touches: a call with no allowance is turned away before the lookup. */
  function UsedKeys<K(==)>(calls: seq<Call<K>>): seq<K> {
    if calls == [] then []
    else UsedKeys(calls[..|calls| - 1]) + if calls[|calls| - 1].perMinute > 0 then [calls[|calls| - 1].key] else []
  }

  /** How many of the first n calls were accepted calls of `key` made in the window [s, t]. */
  function AcceptedWithin<K(==)>(calls: seq<Call<K>>, maxSize: int, key: K, s: real, t: real, n: nat): nat
    requires n <= |calls|
  {
    if n == 0 then 0
    else
      var counted := calls[n - 1].key == key && s <= calls[n - 1].now <= t && Accepted(calls, maxSize, n - 1);
      AcceptedWithin(calls, maxSize, key, s, t, n - 1) + (if counted then 1 else 0)
  }

  /** The pairs that used the limiter in the window. */
  ghost function PairsWithin<K>(calls: seq<Call<K>>, s: real, t: real): set<K> {
    set i | 0 <= i < |calls| && calls[i].perMinute > 0 && s <= calls[i].now <= t :: calls[i].key
  }

  // ---- One step ----

  lemma StepKeys<K>(d: Dict<K, BucketState>, maxSize: int, c: Call<K>)
    requires Distinct(d)
    ensures var d' := AcquireStep(d, maxSize, c.key, c.perMinute, c.created, c.now).0;
            Distinct(d') && Keys(d') == if c.perMinute > 0 then AccessKeys(Keys(d), maxSize, c.key) else Keys(d)
  {
    if c.perMinute > 0 {
      var bucket := if Has(d, c.key) then Get(d, c.key).value else FullBucket(c.perMinute, c.created);
      var d1 := if Has(d, c.key) then GetStep(d, c.key) else SetStep(d, maxSize, c.key, bucket);
      AccessActsOnKeys(d, maxSize, c.key, bucket);
      GetStepProperties(d, c.key);
      SetStepProperties(d, maxSize, c.key, bucket);
      var after := Consume(bucket, 1.0, c.now).0;
      PutProperties(d1, c.key, after, c.key);
      PutDistinct(d1, c.key, after);
    }
  }

  /** The bucket that a step leaves for its own key is the consumed one; every other bucket is left as it was. */
  lemma StepBucket<K>(d: Dict<K, BucketState>, maxSize: int, c: Call<K>, key: K)
    requires Distinct(d) && c.perMinute > 0
    ensures var d' := AcquireStep(d, maxSize, c.key, c.perMinute, c.created, c.now).0;
            var bucket := if Has(d, c.key) then Get(d, c.key).value else FullBucket(c.perMinute, c.created);
            Has(d', key) ==> Get(d', key) == if key == c.key then Some(Consume(bucket, 1.0, c.now).0) else Get(d, key)
  {
    var bucket := if Has(d, c.key) then Get(d, c.key).value else FullBucket(c.perMinute, c.created);
    var d1 := if Has(d, c.key) then GetStep(d, c.key) else SetStep(d, maxSize, c.key, bucket);
    GetStepProperties(d, c.key);
    if !Has(d, c.key) {
      PutAbsent(d, c.key, bucket);
      PutProperties(d, c.key, bucket, key);
      PutDistinct(d, c.key, bucket);
      DropFirst(Put(d, c.key, bucket), key);
    }
    PutProperties(d1, c.key, Consume(bucket, 1.0, c.now).0, key);
  }

  lemma DropFirst<K>(d: Dict<K, BucketState>, key: K)
    requires Distinct(d) && d != []
    ensures Has(d[1..], key) ==> Get(d[1..], key) == Get(d, key)
  {
    HasIsMembership(d[1..], key);
  }

  lemma {:induction false} StateKeys<K>(calls: seq<Call<K>>, maxSize: int)
    ensures Distinct(StateAfter(calls, maxSize))
    ensures Keys(StateAfter(calls, maxSize)) == KeysAfter(UsedKeys(calls), maxSize)
  {
    if calls == [] {
    } else {
      var before, c := calls[..|calls| - 1], calls[|calls| - 1];
      StateKeys(before, maxSize);
      StepKeys(StateAfter(before, maxSize), maxSize, c);
      if c.perMinute > 0 {
        assert UsedKeys(calls)[..|UsedKeys(calls)| - 1] == UsedKeys(before);
      } else {
        assert UsedKeys(calls) == UsedKeys(before);
      }
    }
  }

  lemma {:induction false} UsedKeysAppend<K>(front: seq<Call<K>>, back: seq<Call<K>>)
    ensures UsedKeys(front + back) == UsedKeys(front) + UsedKeys(back)
  {
    if back == [] {
      assert front + back == front;
    } else {
      var b, c := back[..|back| - 1], back[|back| - 1];
      assert (front + back)[..|front + back| - 1] == front + b;
      UsedKeysAppend(front, b);
    }
  }

  lemma {:induction false} UsedKeysMembers<K>(calls: seq<Call<K>>, key: K)
    ensures key in UsedKeys(calls) <==> exists i :: 0 <= i < |calls| && calls[i].perMinute > 0 && calls[i].key == key
  {
    if calls == [] {
    } else {
      var before, c := calls[..|calls| - 1], calls[|calls| - 1];
      UsedKeysMembers(before, key);
      if exists i :: 0 <= i < |calls| && calls[i].perMinute > 0 && calls[i].key == key {
        var i :| 0 <= i < |calls| && calls[i].perMinute > 0 && calls[i].key == key;
        if i < |before| {
          assert before[i] == calls[i];
        }
      }
    }
  }

  /** A pair used since call number lo keeps its bucket while no more pairs than fit have been used since then. */
  lemma BucketKept<K>(calls: seq<Call<K>>, maxSize: int, lo: nat, used: nat, pairs: set<K>)
    requires lo <= used < |calls| && calls[used].perMinute > 0
    requires forall i :: lo <= i < |calls| && calls[i].perMinute > 0 ==> calls[i].key in pairs
    requires |pairs| <= maxSize
    ensures Has(StateAfter(calls, maxSize), calls[used].key)
  {
    var front, back := calls[..lo], calls[lo..];
    var key := calls[used].key;
    assert calls == front + back && back[used - lo] == calls[used];
    UsedKeysAppend(front, back);
    UsedKeysMembers(back, key);
    var recent := set k | k in UsedKeys(back);
    assert recent <= pairs by {
      forall k | k in recent ensures k in pairs {
        UsedKeysMembers(back, k);
        var i :| 0 <= i < |back| && back[i].perMinute > 0 && back[i].key == k;
        assert calls[lo + i] == back[i];
      }
    }
    SubsetSize(recent, pairs);
    RecentKeysHeld(UsedKeys(front), UsedKeys(back), maxSize, key);
    StateKeys(calls, maxSize);
    HasIsMembership(StateAfter(calls, maxSize), key);
  }

  lemma {:induction false} SubsetSize<T>(small: set<T>, large: set<T>)
    requires small <= large
    ensures |small| <= |large|
  {
    if small == {} {
    } else {
      var x :| x in small;
      SubsetSize(small - {x}, large - {x});
    }
  }

  // ---- The window bound ----

  /** A bucket within its limits: 0 <= tokens <= capacity <= cap, last touched no later than `now`. */
  ghost predicate Sound(b: BucketState, cap: nat, now: real) {
    0.0 <= b.tokens <= b.capacity <= cap as real && b.lastRefill <= now
  }

  /** The tokens a bucket of this capacity earns in this time. */
  function Earned(elapsed: real, capacity: real): real {
    elapsed * (capacity / 60.0)
  }

  lemma EarnedMonotone(elapsed: real, capacity: real, cap: real)
    requires elapsed >= 0.0 && 0.0 <= capacity <= cap
    ensures 0.0 <= Earned(elapsed, capacity) <= Earned(elapsed, cap)
  {
  }

  lemma EarnedAdds(from: real, mid: real, to: real, cap: real)
    requires from <= mid <= to && cap >= 0.0
    ensures Earned(mid - from, cap) + Earned(to - mid, cap) == Earned(to - from, cap)
    ensures 0.0 <= Earned(mid - from, cap) && 0.0 <= Earned(to - mid, cap)
  {
  }

  /** Taking a token moves credit from the bucket to the count and never creates any beyond the refill rate. */
  lemma ConsumeAccounting(b: BucketState, cap: nat, now: real)
    requires Sound(b, cap, now)
    ensures var (after, ok) := Consume(b, 1.0, now);
            && Sound(after, cap, now) && after.lastRefill == now
            && after.tokens + (if ok then 1.0 else 0.0) <= cap as real
            && after.tokens + (if ok then 1.0 else 0.0) <= b.tokens + Earned(now - b.lastRefill, cap as real)
  {
    hide Earned;
    EarnedMonotone(now - b.lastRefill, b.capacity, cap as real);
    RefillEarns(b, now);
  }

  lemma RefillEarns(b: BucketState, now: real)
    requires 0.0 <= b.tokens <= b.capacity && b.lastRefill <= now && 0.0 <= Earned(now - b.lastRefill, b.capacity)
    ensures var r := Refill(b, now);
            && r.capacity == b.capacity && r.lastRefill == now
            && b.tokens <= r.tokens <= r.capacity && r.tokens <= b.tokens + Earned(now - b.lastRefill, b.capacity)
  {
  }

  ghost predicate Limited<K>(calls: seq<Call<K>>, key: K, cap: nat) {
    forall i :: 0 <= i < |calls| && calls[i].key == key ==> calls[i].perMinute <= cap
  }

  lemma {:induction false} BucketSound<K>(calls: seq<Call<K>>, maxSize: int, key: K, cap: nat, now: real)
    requires Clocked(calls) && Limited(calls, key, cap)
    requires calls != [] ==> calls[|calls| - 1].now <= now
    ensures Has(StateAfter(calls, maxSize), key) ==> Sound(Get(StateAfter(calls, maxSize), key).value, cap, now)
  {
    if calls == [] {
    } else {
      var before, c := calls[..|calls| - 1], calls[|calls| - 1];
      BucketSound(before, maxSize, key, cap, c.created);
      StateKeys(before, maxSize);
      if c.perMinute > 0 {
        StepBucket(StateAfter(before, maxSize), maxSize, c, key);
        if c.key == key {
          var d := StateAfter(before, maxSize);
          var bucket := if Has(d, key) then Get(d, key).value else FullBucket(c.perMinute, c.created);
          ConsumeAccounting(bucket, cap, c.now);
        }
      }
    }
  }

  /** The pair used the limiter in the window among the first n calls. */
  ghost predicate UsedWithin<K>(calls: seq<Call<K>>, key: K, s: real, t: real, n: nat)
    requires n <= |calls|
  {
    exists i :: 0 <= i < n && calls[i].key == key && calls[i].perMinute > 0 && s <= calls[i].now <= t
  }

  ghost predicate Balanced<K>(d: Dict<K, BucketState>, key: K, cap: nat, s: real, count: real) {
    && Has(d, key)
    && s <= Get(d, key).value.lastRefill
    && count + Get(d, key).value.tokens <= cap as real + Earned(Get(d, key).value.lastRefill - s, cap as real)
  }

  /**
   The running account of a window that starts at s: accepted calls and tokens left never exceed the credit so far.
   */
  ghost predicate Accounted<K>(calls: seq<Call<K>>, maxSize: int, key: K, cap: nat, s: real, t: real, n: nat)
    requires n <= |calls|
  {
    var d := StateAfter(calls[..n], maxSize);
    var count := AcceptedWithin(calls, maxSize, key, s, t, n) as real;
    if UsedWithin(calls, key, s, t, n) then Balanced(d, key, cap, s, count) else count == 0.0
  }

  lemma UsedWithinStep<K>(calls: seq<Call<K>>, key: K, s: real, t: real, n: nat)
    requires 0 < n <= |calls|
    ensures UsedWithin(calls, key, s, t, n) <==>
            UsedWithin(calls, key, s, t, n - 1) ||
            (calls[n - 1].key == key && calls[n - 1].perMinute > 0 && s <= calls[n - 1].now <= t)
  {
  }

  lemma {:induction false} WindowAccount<K>(calls: seq<Call<K>>, maxSize: int, key: K, cap: nat, s: real, t: real,
      n: nat)
    requires Clocked(calls) && Limited(calls, key, cap) && n <= |calls|
    requires |PairsWithin(calls, s, t)| <= maxSize
    requires n > 0 ==> calls[n - 1].now <= t
    ensures Accounted(calls, maxSize, key, cap, s, t, n)
  {
    if n > 0 {
      var c := calls[n - 1];
      assert calls[..n][..n - 1] == calls[..n - 1];
      if n > 1 {
        assert calls[n - 2].now <= c.created;
      }
      WindowAccount(calls, maxSize, key, cap, s, t, n - 1);
      UsedWithinStep(calls, key, s, t, n);
      if c.perMinute <= 0 {
        IdleStep(calls, maxSize, key, cap, s, t, n);
      } else if c.now < s {
        EarlyStep(calls, maxSize, key, s, t, n);
      } else if UsedWithin(calls, key, s, t, n) {
        WindowStep(calls, maxSize, key, cap, s, t, n);
      }
    }
  }

  lemma IdleStep<K>(calls: seq<Call<K>>, maxSize: int, key: K, cap: nat, s: real, t: real, n: nat)
    requires 0 < n <= |calls| && calls[n - 1].perMinute <= 0
    requires Accounted(calls, maxSize, key, cap, s, t, n - 1)
    ensures Accounted(calls, maxSize, key, cap, s, t, n)
  {
    assert calls[..n][..n - 1] == calls[..n - 1];
    UsedWithinStep(calls, key, s, t, n);
  }

  lemma EarlyStep<K>(calls: seq<Call<K>>, maxSize: int, key: K, s: real, t: real, n: nat)
    requires Clocked(calls) && 0 < n <= |calls| && calls[n - 1].now < s
    ensures !UsedWithin(calls, key, s, t, n)
  {
  }

  lemma WindowStep<K>(calls: seq<Call<K>>, maxSize: int, key: K, cap: nat, s: real, t: real, n: nat)
    requires Clocked(calls) && Limited(calls, key, cap) && 0 < n <= |calls|
    requires |PairsWithin(calls, s, t)| <= maxSize
    requires calls[n - 1].perMinute > 0 && s <= calls[n - 1].now <= t
    requires UsedWithin(calls, key, s, t, n)
    requires Accounted(calls, maxSize, key, cap, s, t, n - 1)
    ensures Accounted(calls, maxSize, key, cap, s, t, n)
  {
    hide Balanced, AcquireStep, StateAfter, AcceptedWithin, UsedWithin, Accepted, PairsWithin, Clocked, Limited, Sound,
         Get;
    var c, before := calls[n - 1], calls[..n - 1];
    var d := StateAfter(before, maxSize);
    LastStep(calls, maxSize, key, s, t, n);
    BeforeStep(calls, maxSize, key, cap, n);
    KeptInWindow(calls, maxSize, key, s, t, n);
    var count := AcceptedWithin(calls, maxSize, key, s, t, n - 1) as real;
    UsedWithinStep(calls, key, s, t, n);
    if c.key == key {
      OwnStep(d, maxSize, c, cap, s, count, UsedWithin(calls, key, s, t, n - 1));
    } else {
      OtherStep(d, maxSize, c, key, cap, s, count);
    }
  }

  /** What the n-th call finds. */
  lemma BeforeStep<K>(calls: seq<Call<K>>, maxSize: int, key: K, cap: nat, n: nat)
    requires Clocked(calls) && Limited(calls, key, cap) && 0 < n <= |calls|
    ensures var d, c := StateAfter(calls[..n - 1], maxSize), calls[n - 1];
            && Distinct(d) && c.created <= c.now && (c.key == key ==> c.perMinute <= cap)
            && (Has(d, key) ==> Sound(Get(d, key).value, cap, c.created))
  {
    hide Sound, Get, AcquireStep;
    var before := calls[..n - 1];
    StateKeys(before, maxSize);
    if n > 1 {
      assert calls[n - 2].now <= calls[n - 1].created;
    }
    BucketSound(before, maxSize, key, cap, calls[n - 1].created);
  }

  /** The state and the count after the n-th call, from those before it. */
  lemma LastStep<K>(calls: seq<Call<K>>, maxSize: int, key: K, s: real, t: real, n: nat)
    requires 0 < n <= |calls|
    ensures var c := calls[n - 1];
            var step := AcquireStep(StateAfter(calls[..n - 1], maxSize), maxSize, c.key, c.perMinute, c.created, c.now);
            && StateAfter(calls[..n], maxSize) == step.0
            && AcceptedWithin(calls, maxSize, key, s, t, n) ==
                 AcceptedWithin(calls, maxSize, key, s, t, n - 1)
                     + (if c.key == key && s <= c.now <= t && step.1 then 1 else 0)
  {
    hide AcquireStep;
    assert calls[..n][..n - 1] == calls[..n - 1];
  }

  lemma FullIsSound(perMinute: int, cap: nat, created: real)
    requires 0 < perMinute <= cap
    ensures Sound(FullBucket(perMinute, created), cap, created)
  {
  }

  lemma SoundLater(b: BucketState, cap: nat, now: real, later: real)
    requires Sound(b, cap, now) && now <= later
    ensures Sound(b, cap, later)
  {
  }

  lemma StepAccepts<K>(d: Dict<K, BucketState>, maxSize: int, c: Call<K>)
    requires c.perMinute > 0
    ensures var bucket := if Has(d, c.key) then Get(d, c.key).value else FullBucket(c.perMinute, c.created);
            AcquireStep(d, maxSize, c.key, c.perMinute, c.created, c.now).1 == Consume(bucket, 1.0, c.now).1
  {
    hide Consume, FullBucket;
  }

  lemma OwnStep<K>(d: Dict<K, BucketState>, maxSize: int, c: Call<K>, cap: nat, s: real, count: real, usedBefore: bool)
    requires Distinct(d) && 0 < c.perMinute <= cap && s <= c.now && c.created <= c.now
    requires Has(d, c.key) ==> Sound(Get(d, c.key).value, cap, c.created)
    requires if usedBefore then Balanced(d, c.key, cap, s, count) else count == 0.0
    requires Has(AcquireStep(d, maxSize, c.key, c.perMinute, c.created, c.now).0, c.key)
    ensures var (d', ok) := AcquireStep(d, maxSize, c.key, c.perMinute, c.created, c.now);
            Balanced(d', c.key, cap, s, count + (if ok then 1.0 else 0.0))
  {
    hide Sound, Earned, Consume, Get, FullBucket, Balanced, AcquireStep;
    StepBucket(d, maxSize, c, c.key);
    StepAccepts(d, maxSize, c);
    var bucket := if Has(d, c.key) then Get(d, c.key).value else FullBucket(c.perMinute, c.created);
    if usedBefore {
      BalancedMeans(d, c.key, cap, s, count);
    } else if !Has(d, c.key) {
      FullIsSound(c.perMinute, cap, c.created);
    }
    SoundLater(bucket, cap, c.created, c.now);
    AccountMoves(bucket, cap, s, c.now, count, usedBefore);
    var (after, ok) := Consume(bucket, 1.0, c.now);
    var d' := AcquireStep(d, maxSize, c.key, c.perMinute, c.created, c.now).0;
    NowBalanced(d', c.key, cap, s, count + (if ok then 1.0 else 0.0), after);
  }

  lemma BalancedMeans<K>(d: Dict<K, BucketState>, key: K, cap: nat, s: real, count: real)
    requires Balanced(d, key, cap, s, count)
    ensures Has(d, key) && s <= Get(d, key).value.lastRefill
    ensures count + Get(d, key).value.tokens <= cap as real + Earned(Get(d, key).value.lastRefill - s, cap as real)
  {
  }

  lemma NowBalanced<K>(d: Dict<K, BucketState>, key: K, cap: nat, s: real, count: real, b: BucketState)
    requires Get(d, key) == Some(b) && s <= b.lastRefill
              && count + b.tokens <= cap as real + Earned(b.lastRefill - s, cap as real)
    ensures Balanced(d, key, cap, s, count)
  {
  }

  lemma OtherStep<K>(d: Dict<K, BucketState>, maxSize: int, c: Call<K>, key: K, cap: nat, s: real, count: real)
    requires Distinct(d) && 0 < c.perMinute && c.key != key && Balanced(d, key, cap, s, count)
    requires Has(AcquireStep(d, maxSize, c.key, c.perMinute, c.created, c.now).0, key)
    ensures Balanced(AcquireStep(d, maxSize, c.key, c.perMinute, c.created, c.now).0, key, cap, s, count)
  {
    StepBucket(d, maxSize, c, key);
  }

  /** The account of a window after its pair's bucket is consumed from. */
  lemma AccountMoves(b: BucketState, cap: nat, s: real, now: real, count: real, usedBefore: bool)
    requires Sound(b, cap, now) && s <= now
    requires usedBefore ==> s <= b.lastRefill && count + b.tokens <= cap as real + Earned(b.lastRefill - s, cap as real)
    requires !usedBefore ==> count == 0.0
    ensures var (after, ok) := Consume(b, 1.0, now);
            after.lastRefill == now &&
            count + (if ok then 1.0 else 0.0) + after.tokens <= cap as real + Earned(now - s, cap as real)
  {
    ConsumeAccounting(b, cap, now);
    if usedBefore {
      EarnedAdds(s, b.lastRefill, now, cap as real);
    } else {
      EarnedMonotone(now - s, 0.0, cap as real);
    }
  }

  /** The first call of the window. */
  lemma FirstAt<K>(calls: seq<Call<K>>, s: real) returns (lo: nat)
    requires Clocked(calls)
    ensures lo <= |calls|
    ensures forall i :: 0 <= i < |calls| ==> (i < lo <==> calls[i].now < s)
  {
    lo := 0;
    while lo < |calls| && calls[lo].now < s
      invariant lo <= |calls|
      invariant forall i :: 0 <= i < lo ==> calls[i].now < s
    {
      lo := lo + 1;
    }
  }

  lemma KeptInWindow<K>(calls: seq<Call<K>>, maxSize: int, key: K, s: real, t: real, n: nat)
    requires Clocked(calls) && 0 < n <= |calls| && calls[n - 1].now <= t
    requires |PairsWithin(calls, s, t)| <= maxSize
    requires UsedWithin(calls, key, s, t, n)
    ensures Has(StateAfter(calls[..n], maxSize), key)
  {
    var used :| 0 <= used < n && calls[used].key == key && calls[used].perMinute > 0 && s <= calls[used].now <= t;
    var lo := FirstAt(calls, s);
    var run := calls[..n];
    forall i | lo <= i < |run| && run[i].perMinute > 0 ensures run[i].key in PairsWithin(calls, s, t) {
      assert run[i] == calls[i];
      if i < n - 1 {
        assert calls[i].now <= calls[n - 1].created;
      }
    }
    BucketKept(run, maxSize, lo, used, PairsWithin(calls, s, t));
  }

  /**
   In a window in which no more pairs than the cache holds use the limiter, a pair with at most `cap` calls per
   minute allowed has at most cap + (t - s) * cap / 60 calls accepted.
   */
  lemma WindowBound<K>(calls: seq<Call<K>>, maxSize: int, key: K, cap: nat, s: real, t: real)
    requires Clocked(calls) && Limited(calls, key, cap) && s <= t
    requires |PairsWithin(calls, s, t)| <= maxSize
    ensures AcceptedWithin(calls, maxSize, key, s, t, |calls|) as real <= cap as real + Earned(t - s, cap as real)
  {
    hide StateAfter, AcceptedWithin, PairsWithin, UsedWithin, Clocked, Limited, Sound, Earned, Balanced, Get;
    var n := EndOf(calls, t);
    LateCallsDoNotCount(calls, maxSize, key, s, t, n);
    WindowAccount(calls, maxSize, key, cap, s, t, n);
    EarnedMonotone(t - s, 0.0, cap as real);
    if UsedWithin(calls, key, s, t, n) {
      EndIsSound(calls, maxSize, key, cap, t, n);
      var d := StateAfter(calls[..n], maxSize);
      var count := AcceptedWithin(calls, maxSize, key, s, t, n) as real;
      BalancedMeans(d, key, cap, s, count);
      SoundMeans(Get(d, key).value, cap, t);
      EarnedAdds(s, Get(d, key).value.lastRefill, t, cap as real);
    }
  }

  lemma SoundMeans(b: BucketState, cap: nat, now: real)
    requires Sound(b, cap, now)
    ensures 0.0 <= b.tokens && b.lastRefill <= now
  {
  }

  lemma EndIsSound<K>(calls: seq<Call<K>>, maxSize: int, key: K, cap: nat, t: real, n: nat)
    requires Clocked(calls) && Limited(calls, key, cap) && n <= |calls| && (n > 0 ==> calls[n - 1].now <= t)
    ensures Has(StateAfter(calls[..n], maxSize), key) ==> Sound(Get(StateAfter(calls[..n], maxSize), key).value, cap, t)
  {
    hide StateAfter, Sound, Get;
    BucketSound(calls[..n], maxSize, key, cap, t);
  }

  lemma EndOf<K>(calls: seq<Call<K>>, t: real) returns (n: nat)
    requires Clocked(calls)
    ensures n <= |calls|
    ensures forall i :: 0 <= i < |calls| ==> (i < n <==> calls[i].now <= t)
  {
    n := 0;
    while n < |calls| && calls[n].now <= t
      invariant n <= |calls|
      invariant forall i :: 0 <= i < n ==> calls[i].now <= t
    {
      n := n + 1;
    }
  }

  lemma {:induction false} LateCallsDoNotCount<K>(calls: seq<Call<K>>, maxSize: int, key: K, s: real, t: real, n: nat)
    requires n <= |calls| && forall i :: n <= i < |calls| ==> calls[i].now > t
    ensures AcceptedWithin(calls, maxSize, key, s, t, |calls|) == AcceptedWithin(calls, maxSize, key, s, t, n)
  {
    var m := |calls|;
    while m > n
      invariant n <= m <= |calls|
      invariant AcceptedWithin(calls, maxSize, key, s, t, |calls|) == AcceptedWithin(calls, maxSize, key, s, t, m)
    {
      m := m - 1;
    }
  }

  // ---- Callers who keep their distance ----

  /** Any two calls of the pair are at least 60 / rate seconds apart. */
  ghost predicate Spaced<K>(calls: seq<Call<K>>, key: K, rate: nat) {
    forall i, j :: 0 <= i < j < |calls| && calls[i].key == key && calls[j].key == key ==>
      (calls[j].now - calls[i].now) * (rate as real) >= 60.0
  }

  ghost predicate Allowed<K>(calls: seq<Call<K>>, key: K, rate: nat) {
    forall i :: 0 <= i < |calls| && calls[i].key == key ==> calls[i].perMinute >= rate
  }

  ghost predicate Rested<K>(b: BucketState, calls: seq<Call<K>>, key: K, rate: nat) {
    && b.capacity >= rate as real && 0.0 <= b.tokens
    && exists i :: 0 <= i < |calls| && calls[i].key == key && calls[i].now == b.lastRefill
  }

  lemma ConsumeRested(b: BucketState, rate: nat, now: real)
    requires rate >= 1 && b.capacity >= rate as real && 0.0 <= b.tokens
    requires (now - b.lastRefill) * (rate as real) >= 60.0 || b.tokens == b.capacity
    requires b.lastRefill <= now
    ensures var (after, ok) := Consume(b, 1.0, now);
            ok && after.capacity == b.capacity && 0.0 <= after.tokens && after.lastRefill == now
  {
    if b.tokens != b.capacity {
      var elapsed := now - b.lastRefill;
      assert elapsed > 0.0;
      EarnedMonotone(elapsed, rate as real, b.capacity);
      assert Earned(elapsed, rate as real) == elapsed * (rate as real) / 60.0;
      assert Earned(elapsed, b.capacity) >= 1.0;
    } else {
      EarnedMonotone(now - b.lastRefill, 0.0, b.capacity);
    }
  }

  /** A caller of the pair that stays within its allowance and keeps its distance, on a monotone clock. */
  ghost predicate Polite<K>(calls: seq<Call<K>>, key: K, rate: nat) {
    Clocked(calls) && Spaced(calls, key, rate) && Allowed(calls, key, rate) && rate >= 1
  }

  ghost predicate LongAgo<K>(before: seq<Call<K>>, c: Call<K>, rate: nat) {
    forall i :: 0 <= i < |before| && before[i].key == c.key ==>
      before[i].now <= c.now && (c.now - before[i].now) * (rate as real) >= 60.0
  }

  lemma PolitePrefix<K>(calls: seq<Call<K>>, n: nat, key: K, rate: nat)
    requires n <= |calls| && Polite(calls, key, rate)
    ensures Polite(calls[..n], key, rate)
  {
  }

  lemma PoliteGap<K>(calls: seq<Call<K>>, n: nat, key: K, rate: nat)
    requires n < |calls| && Polite(calls, key, rate)
    ensures calls[n].created <= calls[n].now
    ensures calls[n].key == key ==> calls[n].perMinute >= rate && LongAgo(calls[..n], calls[n], rate)
  {
    assert forall i :: 0 <= i < n ==> calls[i].now <= calls[n].created;
  }

  lemma {:induction false} RestedAfter<K>(calls: seq<Call<K>>, maxSize: int, key: K, rate: nat, n: nat)
    requires n <= |calls| && Polite(calls, key, rate)
    ensures var d := StateAfter(calls[..n], maxSize);
            Has(d, key) ==> Rested(Get(d, key).value, calls[..n], key, rate)
  {
    hide Polite, Rested;
    if n > 0 {
      RestedAfter(calls, maxSize, key, rate, n - 1);
      PolitePrefix(calls, n, key, rate);
      PoliteGap(calls, n - 1, key, rate);
      PrefixOfPrefix(calls, n - 1, n);
      SplitLast(calls[..n]);
      StateKeys(calls[..n - 1], maxSize);
      RestedStep(StateAfter(calls[..n - 1], maxSize), maxSize, calls[..n - 1], calls[n - 1], key, rate);
    }
  }

  lemma RestedStep<K>(d: Dict<K, BucketState>, maxSize: int, before: seq<Call<K>>, c: Call<K>, key: K, rate: nat)
    requires Distinct(d) && rate >= 1 && c.created <= c.now
    requires Has(d, key) ==> Rested(Get(d, key).value, before, key, rate)
    requires c.key == key ==> c.perMinute >= rate && LongAgo(before, c, rate)
    ensures var (d', ok) := AcquireStep(d, maxSize, c.key, c.perMinute, c.created, c.now);
            && (c.key == key ==> ok)
            && (Has(d', key) ==> Rested(Get(d', key).value, before + [c], key, rate))
  {
    if c.key == key {
      OwnRested(d, maxSize, before, c, rate);
    } else {
      OtherRested(d, maxSize, before, c, key, rate);
    }
  }

  /** The bucket that a call finds, or the full one it creates. */
  function Found<K(==)>(d: Dict<K, BucketState>, c: Call<K>): BucketState {
    if Has(d, c.key) then Get(d, c.key).value else FullBucket(c.perMinute, c.created)
  }

  lemma FoundRested<K>(d: Dict<K, BucketState>, before: seq<Call<K>>, c: Call<K>, rate: nat)
    requires c.perMinute >= rate >= 1 && c.created <= c.now && LongAgo(before, c, rate)
    requires Has(d, c.key) ==> Rested(Get(d, c.key).value, before, c.key, rate)
    ensures var b := Found(d, c);
            && b.capacity >= rate as real && 0.0 <= b.tokens && b.lastRefill <= c.now
            && ((c.now - b.lastRefill) * (rate as real) >= 60.0 || b.tokens == b.capacity)
  {
    hide LongAgo;
    if Has(d, c.key) {
      var i :| 0 <= i < |before| && before[i].key == c.key && before[i].now == Get(d, c.key).value.lastRefill;
      LongAgoAt(before, c, rate, i);
    }
  }

  lemma LongAgoAt<K>(before: seq<Call<K>>, c: Call<K>, rate: nat, i: nat)
    requires LongAgo(before, c, rate) && i < |before| && before[i].key == c.key
    ensures before[i].now <= c.now && (c.now - before[i].now) * (rate as real) >= 60.0
  {
  }

  lemma FoundDecides<K>(d: Dict<K, BucketState>, maxSize: int, c: Call<K>)
    requires c.perMinute > 0
    ensures AcquireStep(d, maxSize, c.key, c.perMinute, c.created, c.now).1 == Consume(Found(d, c), 1.0, c.now).1
  {
    hide Consume;
  }

  lemma RestedNow<K>(b: BucketState, before: seq<Call<K>>, c: Call<K>, rate: nat)
    requires b.capacity >= rate as real && 0.0 <= b.tokens && b.lastRefill == c.now
    ensures Rested(b, before + [c], c.key, rate)
  {
    assert (before + [c])[|before|] == c;
  }

  lemma OwnRested<K>(d: Dict<K, BucketState>, maxSize: int, before: seq<Call<K>>, c: Call<K>, rate: nat)
    requires Distinct(d) && c.perMinute >= rate >= 1 && c.created <= c.now
    requires Has(d, c.key) ==> Rested(Get(d, c.key).value, before, c.key, rate)
    requires LongAgo(before, c, rate)
    ensures var (d', ok) := AcquireStep(d, maxSize, c.key, c.perMinute, c.created, c.now);
            ok && (Has(d', c.key) ==> Rested(Get(d', c.key).value, before + [c], c.key, rate))
  {
    hide AcquireStep, Consume, LongAgo, Rested, Distinct;
    FoundRested(d, before, c, rate);
    StepBucket(d, maxSize, c, c.key);
    FoundDecides(d, maxSize, c);
    ConsumeRested(Found(d, c), rate, c.now);
    RestedNow(Consume(Found(d, c), 1.0, c.now).0, before, c, rate);
  }

  lemma OtherRested<K>(d: Dict<K, BucketState>, maxSize: int, before: seq<Call<K>>, c: Call<K>, key: K, rate: nat)
    requires Distinct(d) && c.key != key
    requires Has(d, key) ==> Rested(Get(d, key).value, before, key, rate)
    ensures var d' := AcquireStep(d, maxSize, c.key, c.perMinute, c.created, c.now).0;
            Has(d', key) ==> Rested(Get(d', key).value, before + [c], key, rate)
  {
    var d' := AcquireStep(d, maxSize, c.key, c.perMinute, c.created, c.now).0;
    if c.perMinute > 0 {
      StepBucket(d, maxSize, c, key);
    }
    if Has(d', key) {
      assert Has(d, key) by { OtherNotCreated(d, maxSize, c, key); }
      var i :| 0 <= i < |before| && before[i].key == key && before[i].now == Get(d, key).value.lastRefill;
      assert (before + [c])[i] == before[i];
    }
  }

  lemma OtherNotCreated<K>(d: Dict<K, BucketState>, maxSize: int, c: Call<K>, key: K)
    requires Distinct(d) && c.key != key
    ensures Has(AcquireStep(d, maxSize, c.key, c.perMinute, c.created, c.now).0, key) ==> Has(d, key)
  {
    if c.perMinute > 0 {
      StepBucket(d, maxSize, c, key);
    }
  }

  /**
   A pair that may call `rate` times a minute and leaves 60 / rate seconds between its calls is never rejected,
   whatever the other pairs do and however often its bucket is evicted.
   */
  lemma NeverRejected<K>(calls: seq<Call<K>>, maxSize: int, key: K, rate: nat, i: nat)
    requires Polite(calls, key, rate)
    requires i < |calls| && calls[i].key == key
    ensures Accepted(calls, maxSize, i)
  {
    RestedAfter(calls, maxSize, key, rate, i);
    PoliteGap(calls, i, key, rate);
    StateKeys(calls[..i], maxSize);
    OwnRested(StateAfter(calls[..i], maxSize), maxSize, calls[..i], calls[i], rate);
  }

  // ---- Why the window bound needs its condition ----

  function Round<K(==)>(keys: seq<K>): (r: seq<Call<K>>)
    ensures |r| == |keys| && forall i :: 0 <= i < |r| ==> r[i] == Call(keys[i], 1, 0.0, 0.0)
  {
    seq(|keys|, i requires 0 <= i < |keys| => Call(keys[i], 1, 0.0, 0.0))
  }

  function Rounds<K(==)>(keys: seq<K>, n: nat): seq<Call<K>> {
    if n == 0 then [] else Rounds(keys, n - 1) + Round(keys)
  }

  lemma {:induction false} RoundKeys<K>(keys: seq<K>)
    ensures UsedKeys(Round(keys)) == keys
  {
    if keys == [] {
    } else {
      RoundKeys(keys[..|keys| - 1]);
      assert Round(keys)[..|keys| - 1] == Round(keys[..|keys| - 1]);
    }
  }

  lemma {:induction false} RoundsAreClocked<K>(keys: seq<K>, n: nat)
    ensures forall i :: 0 <= i < |Rounds(keys, n)| ==>
              Rounds(keys, n)[i].now == 0.0 && Rounds(keys, n)[i].created == 0.0 && Rounds(keys, n)[i].perMinute == 1
    ensures Clocked(Rounds(keys, n)) && forall key :: Limited(Rounds(keys, n), key, 1)
  {
    if n > 0 {
      RoundsAreClocked(keys, n - 1);
    }
  }

  /** After whole rounds of more pairs than the cache holds, the first pair's bucket is gone. */
  lemma FirstPairEvicted<K>(keys: seq<K>, maxSize: int, n: nat)
    requires NoRepeats(keys) && keys != [] && |keys| > maxSize
    ensures !Has(StateAfter(Rounds(keys, n), maxSize), keys[0])
  {
    hide KeysAfter, AcquireStep;
    if n > 0 {
      var earlier := Rounds(keys, n - 1);
      UsedKeysAppend(earlier, Round(keys));
      RoundKeys(keys);
      var rest := keys[1..];
      assert UsedKeys(Rounds(keys, n)) == UsedKeys(earlier) + [keys[0]] + rest;
      SurvivesUntil(UsedKeys(earlier), keys[0], rest, maxSize);
      NoRepeatsSize(rest, set k | k in rest);
      StateKeys(Rounds(keys, n), maxSize);
      HasIsMembership(StateAfter(Rounds(keys, n), maxSize), keys[0]);
    }
  }

  lemma {:induction false} CountPrefix<K>(front: seq<Call<K>>, back: seq<Call<K>>, maxSize: int, key: K, s: real,
      t: real, n: nat)
    requires n <= |front|
    ensures AcceptedWithin(front + back, maxSize, key, s, t, n) == AcceptedWithin(front, maxSize, key, s, t, n)
  {
    if n > 0 {
      CountPrefix(front, back, maxSize, key, s, t, n - 1);
      assert (front + back)[..n - 1] == front[..n - 1];
    }
  }

  /**
   With one pair more than the cache holds taking turns, every call of a pair allowed once a minute is accepted, so
   the calls accepted at one instant are unbounded. The condition of WindowBound is therefore the right one.
   */
  lemma EvictionBreaksBound<K>(keys: seq<K>, maxSize: int, n: nat)
    requires NoRepeats(keys) && keys != [] && |keys| > maxSize
    ensures Clocked(Rounds(keys, n)) && Limited(Rounds(keys, n), keys[0], 1)
    ensures AcceptedWithin(Rounds(keys, n), maxSize, keys[0], 0.0, 0.0, |Rounds(keys, n)|) == n
  {
    RoundsAreClocked(keys, n);
    EvictionCount(keys, maxSize, n);
  }

  lemma {:induction false} EvictionCount<K>(keys: seq<K>, maxSize: int, n: nat)
    requires NoRepeats(keys) && keys != [] && |keys| > maxSize
    ensures AcceptedWithin(Rounds(keys, n), maxSize, keys[0], 0.0, 0.0, |Rounds(keys, n)|) == n
  {
    hide StateAfter, Accepted, Round;
    if n > 0 {
      EvictionCount(keys, maxSize, n - 1);
      FirstPairEvicted(keys, maxSize, n - 1);
      EvictionRound(Rounds(keys, n - 1), keys, maxSize);
    }
  }

  ghost predicate FirstOnce<K>(keys: seq<K>) {
    forall i :: 1 <= i < |keys| ==> keys[i] != keys[0]
  }

  lemma EvictionRound<K>(front: seq<Call<K>>, keys: seq<K>, maxSize: int)
    requires FirstOnce(keys) && keys != [] && !Has(StateAfter(front, maxSize), keys[0])
    ensures AcceptedWithin(front + Round(keys), maxSize, keys[0], 0.0, 0.0, |front + Round(keys)|) ==
            AcceptedWithin(front, maxSize, keys[0], 0.0, 0.0, |front|) + 1
  {
    hide *;
    RoundCountsOnce(front, keys, maxSize, |keys|);
    CountPrefix(front, Round(keys), maxSize, keys[0], 0.0, 0.0, |front|);
  }

  lemma FirstIsAccepted<K>(calls: seq<Call<K>>, maxSize: int, key: K)
    requires !Has(StateAfter(calls, maxSize), key)
    ensures AcquireStep(StateAfter(calls, maxSize), maxSize, key, 1, 0.0, 0.0).1
  {
  }

  lemma {:induction false} RoundCountsOnce<K>(front: seq<Call<K>>, keys: seq<K>, maxSize: int, j: nat)
    requires 1 <= j <= |keys| && FirstOnce(keys)
    requires !Has(StateAfter(front, maxSize), keys[0])
    ensures AcceptedWithin(front + Round(keys), maxSize, keys[0], 0.0, 0.0, |front| + j) ==
            AcceptedWithin(front + Round(keys), maxSize, keys[0], 0.0, 0.0, |front|) + 1
  {
    var run := front + Round(keys);
    assert run[|front| + j - 1] == Round(keys)[j - 1];
    if j == 1 {
      PrefixOfAppend(front, Round(keys), |front|);
      FirstIsAccepted(front, maxSize, keys[0]);
    } else {
      RoundCountsOnce(front, keys, maxSize, j - 1);
    }
  }
}
