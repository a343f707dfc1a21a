/**
 Which calls a rate limiter turns away: while a pair's bucket is held, exactly those that the calls accepted since an
 earlier call of the pair leave no token for. So a pair can always spend its whole allowance at once.
 */
module RateLimitBursts {
  import opened OrderedDict
  import opened RateLimiter
  import opened RateLimitBounds

  /** Call number i takes from the pair's bucket. */
  predicate Uses<K(==)>(calls: seq<Call<K>>, key: K, i: nat)
    requires i < |calls|
  {
    calls[i].key == key && calls[i].perMinute > 0
  }

  /** How many of the calls number j up to n, n excluded, are calls of the pair that were accepted. */
  function AcceptedBetween<K(==)>(calls: seq<Call<K>>, maxSize: int, key: K, j: nat, n: nat): nat
    requires j <= n <= |calls|
    decreases n
  {
    if n == j then 0
    else
      AcceptedBetween(calls, maxSize, key, j, n - 1)
          + (if calls[n - 1].key == key && Accepted(calls, maxSize, n - 1) then 1 else 0)
  }

  /** How many of them are calls of the pair at all. */
  function CallsBetween<K(==)>(calls: seq<Call<K>>, key: K, j: nat, n: nat): nat
    requires j <= n <= |calls|
    decreases n
  {
    if n == j then 0 else CallsBetween(calls, key, j, n - 1) + (if calls[n - 1].key == key then 1 else 0)
  }

  /** Call `first` made the pair's bucket, and the cache still holds it when call n comes. */
  ghost predicate HeldSince<K>(calls: seq<Call<K>>, maxSize: int, key: K, first: nat, n: nat)
    requires first < n <= |calls|
  {
    && Uses(calls, key, first) && !Has(StateAfter(calls[..first], maxSize), key)
    && forall m :: first < m <= n ==> Has(StateAfter(calls[..m], maxSize), key)
  }

  /** What a full bucket at call j, refilled since then, has left at time t if only the accepted calls took from it. */
  function Credit<K(==)>(calls: seq<Call<K>>, maxSize: int, key: K, cap: int, j: nat, n: nat, t: real): real
    requires j <= n <= |calls| && j < |calls|
  {
    cap as real + Earned(t - calls[j].now, cap as real) - AcceptedBetween(calls, maxSize, key, j, n) as real
  }

  /** x is the least of the credits since the calls of the pair from number `first` on. */
  ghost predicate LeastCredit<K>(calls: seq<Call<K>>, maxSize: int, key: K, cap: int, first: nat, n: nat, t: real,
      x: real)
    requires first < n <= |calls|
  {
    && (forall j :: first <= j < n && Uses(calls, key, j) ==> x <= Credit(calls, maxSize, key, cap, j, n, t))
    && exists j :: first <= j < n && Uses(calls, key, j) && x == Credit(calls, maxSize, key, cap, j, n, t)
  }

  /** The bucket holds the least credit. */
  ghost predicate Metered<K>(b: BucketState, calls: seq<Call<K>>, maxSize: int, key: K, cap: int, first: nat, n: nat)
    requires first < n <= |calls|
  {
    && b.tokens <= b.capacity == cap as real && b.lastRefill <= calls[n - 1].now
    && LeastCredit(calls, maxSize, key, cap, first, n, b.lastRefill, b.tokens)
  }

  lemma CreditGrows<K>(calls: seq<Call<K>>, maxSize: int, key: K, cap: int, j: nat, n: nat, t: real, later: real)
    requires j <= n <= |calls| && j < |calls|
    ensures Credit(calls, maxSize, key, cap, j, n, later) ==
            Credit(calls, maxSize, key, cap, j, n, t) + Earned(later - t, cap as real)
  {
    hide AcceptedBetween;
    var from, rate := calls[j].now, cap as real / 60.0;
    assert (later - from) * rate == (t - from) * rate + (later - t) * rate;
  }

  lemma CreditStep<K>(calls: seq<Call<K>>, maxSize: int, key: K, cap: int, j: nat, n: nat, t: real)
    requires j <= n < |calls|
    ensures Credit(calls, maxSize, key, cap, j, n + 1, t) ==
            Credit(calls, maxSize, key, cap, j, n, t)
                - (if calls[n].key == key && Accepted(calls, maxSize, n) then 1.0 else 0.0)
  {
    hide Accepted, Earned;
  }

  lemma CreditNow<K>(calls: seq<Call<K>>, maxSize: int, key: K, cap: int, n: nat)
    requires n < |calls|
    ensures Credit(calls, maxSize, key, cap, n, n, calls[n].now) == cap as real
  {
  }

  /** Time passes: each credit, and so the least one, grows alike. */
  lemma LeastLater<K>(calls: seq<Call<K>>, maxSize: int, key: K, cap: int, first: nat, n: nat, t: real, later: real,
      x: real)
    requires first < n <= |calls| && LeastCredit(calls, maxSize, key, cap, first, n, t, x)
    ensures LeastCredit(calls, maxSize, key, cap, first, n, later, x + Earned(later - t, cap as real))
  {
    hide Credit, Earned, Uses;
    forall j | first <= j < n && Uses(calls, key, j)
      ensures Credit(calls, maxSize, key, cap, j, n, later) ==
              Credit(calls, maxSize, key, cap, j, n, t) + Earned(later - t, cap as real)
    {
      CreditGrows(calls, maxSize, key, cap, j, n, t, later);
    }
  }

  /** The next call of the pair adds the credit of a full bucket, and takes its token from all if it is accepted. */
  lemma LeastAfterOwn<K>(calls: seq<Call<K>>, maxSize: int, key: K, cap: int, first: nat, n: nat, x: real)
    requires first < n < |calls| && Uses(calls, key, n)
    requires LeastCredit(calls, maxSize, key, cap, first, n, calls[n].now, x)
    ensures var least := if x < cap as real then x else cap as real;
            LeastCredit(calls, maxSize, key, cap, first, n + 1, calls[n].now,
                        least - if Accepted(calls, maxSize, n) then 1.0 else 0.0)
  {
    hide Credit, Accepted;
    CreditNow(calls, maxSize, key, cap, n);
    CreditStep(calls, maxSize, key, cap, n, n, calls[n].now);
    forall j | first <= j < n
      ensures Credit(calls, maxSize, key, cap, j, n + 1, calls[n].now) ==
              Credit(calls, maxSize, key, cap, j, n, calls[n].now)
                  - (if Accepted(calls, maxSize, n) || calls[n].key != key then 1.0 else 0.0)
    {
      CreditStep(calls, maxSize, key, cap, j, n, calls[n].now);
    }
  }

  /** Another pair's call, and one with no allowance, change no credit. */
  lemma LeastAfterOther<K>(calls: seq<Call<K>>, maxSize: int, key: K, cap: int, first: nat, n: nat, t: real, x: real)
    requires first < n < |calls| && !Uses(calls, key, n)
    requires LeastCredit(calls, maxSize, key, cap, first, n, t, x)
    ensures LeastCredit(calls, maxSize, key, cap, first, n + 1, t, x)
  {
    hide Credit, AcquireStep, StateAfter;
    NotAccepted(calls, maxSize, n);
    forall j | first <= j < n
      ensures Credit(calls, maxSize, key, cap, j, n + 1, t) == Credit(calls, maxSize, key, cap, j, n, t)
    {
      CreditStep(calls, maxSize, key, cap, j, n, t);
    }
  }

  lemma NotAccepted<K>(calls: seq<Call<K>>, maxSize: int, n: nat)
    requires n < |calls|
    ensures calls[n].perMinute <= 0 ==> !Accepted(calls, maxSize, n)
  {
  }

  // ---- Along a run ----

  lemma StateStep<K>(calls: seq<Call<K>>, maxSize: int, n: nat)
    requires n < |calls|
    ensures var c := calls[n];
            && Distinct(StateAfter(calls[..n], maxSize))
            && (StateAfter(calls[..n + 1], maxSize), Accepted(calls, maxSize, n)) ==
               AcquireStep(StateAfter(calls[..n], maxSize), maxSize, c.key, c.perMinute, c.created, c.now)
  {
    hide AcquireStep;
    assert calls[..n + 1][..n] == calls[..n];
    StateKeys(calls[..n], maxSize);
  }

  lemma FreshBucket(cap: int, created: real, now: real)
    requires cap > 0 && created <= now
    ensures Consume(FullBucket(cap, created), 1.0, now) == (BucketState(cap as real, cap as real - 1.0, now), true)
  {
    if now > created {
      EarnedMonotone(now - created, 0.0, cap as real);
    }
  }

  lemma MeteredFirst<K>(calls: seq<Call<K>>, maxSize: int, key: K, first: nat)
    requires Clocked(calls) && first < |calls| && HeldSince(calls, maxSize, key, first, first + 1)
    ensures Accepted(calls, maxSize, first)
    ensures Metered(Get(StateAfter(calls[..first + 1], maxSize), key).value, calls, maxSize, key,
                    calls[first].perMinute, first, first + 1)
  {
    hide AcquireStep, Get, Consume, FullBucket, Earned, Accepted, StateAfter;
    var c, d := calls[first], StateAfter(calls[..first], maxSize);
    StateStep(calls, maxSize, first);
    StepBucket(d, maxSize, c, key);
    StepAccepts(d, maxSize, c);
    FreshBucket(c.perMinute, c.created, c.now);
    CreditNow(calls, maxSize, key, c.perMinute, first);
    CreditStep(calls, maxSize, key, c.perMinute, first, first, c.now);
  }

  lemma NoTimeNoTokens(cap: real)
    ensures Earned(0.0, cap) == 0.0
  {
  }

  lemma RefillLater(b: BucketState, now: real)
    requires b.lastRefill <= now && b.tokens <= b.capacity
    ensures var x := b.tokens + Earned(now - b.lastRefill, b.capacity);
            Refill(b, now) == BucketState(b.capacity, if x < b.capacity then x else b.capacity, now)
  {
    if now == b.lastRefill {
      hide Earned;
      NoTimeNoTokens(b.capacity);
    } else {
      var earned := (now - b.lastRefill) * (b.capacity / 60.0);
      assert Earned(now - b.lastRefill, b.capacity) == earned;
    }
  }

  /** What a consumption does to a bucket whose clock runs forward. */
  lemma ConsumeLater(b: BucketState, now: real)
    requires b.lastRefill <= now && b.tokens <= b.capacity
    ensures var x := b.tokens + Earned(now - b.lastRefill, b.capacity);
            var least := if x < b.capacity then x else b.capacity;
            Consume(b, 1.0, now) ==
            (BucketState(b.capacity, least - (if least >= 1.0 then 1.0 else 0.0), now), least >= 1.0)
  {
    hide Refill, Earned;
    RefillLater(b, now);
  }

  lemma InOrder<K>(calls: seq<Call<K>>, n: nat)
    requires Clocked(calls) && 0 < n < |calls|
    ensures calls[n - 1].now <= calls[n].now
  {
  }

  lemma MeteredAfterOwn<K>(b: BucketState, calls: seq<Call<K>>, maxSize: int, key: K, cap: int, first: nat, n: nat)
    requires first < n < |calls| && Uses(calls, key, n) && calls[n - 1].now <= calls[n].now
    requires Metered(b, calls, maxSize, key, cap, first, n)
    requires Accepted(calls, maxSize, n) == Consume(b, 1.0, calls[n].now).1
    ensures Metered(Consume(b, 1.0, calls[n].now).0, calls, maxSize, key, cap, first, n + 1)
  {
    hide LeastCredit, Consume, Earned, Accepted, Uses;
    var now := calls[n].now;
    ConsumeLater(b, now);
    LeastLater(calls, maxSize, key, cap, first, n, b.lastRefill, now, b.tokens);
    LeastAfterOwn(calls, maxSize, key, cap, first, n, b.tokens + Earned(now - b.lastRefill, b.capacity));
  }

  lemma MeteredAfterOther<K>(b: BucketState, calls: seq<Call<K>>, maxSize: int, key: K, cap: int, first: nat, n: nat)
    requires first < n < |calls| && !Uses(calls, key, n) && calls[n - 1].now <= calls[n].now
    requires Metered(b, calls, maxSize, key, cap, first, n)
    ensures Metered(b, calls, maxSize, key, cap, first, n + 1)
  {
    hide LeastCredit;
    LeastAfterOther(calls, maxSize, key, cap, first, n, b.lastRefill, b.tokens);
  }

  /** What call number n finds in the pair's bucket. */
  lemma {:induction false} MeteredBefore<K>(calls: seq<Call<K>>, maxSize: int, key: K, first: nat, n: nat)
    requires Clocked(calls) && first < n <= |calls| && HeldSince(calls, maxSize, key, first, n)
    ensures Has(StateAfter(calls[..n], maxSize), key)
    ensures Metered(Get(StateAfter(calls[..n], maxSize), key).value, calls, maxSize, key, calls[first].perMinute,
                    first, n)
  {
    hide StateAfter, AcquireStep, Get, Metered, Clocked, Accepted, Consume;
    if n == first + 1 {
      MeteredFirst(calls, maxSize, key, first);
    } else {
      MeteredBefore(calls, maxSize, key, first, n - 1);
      MeteredStep(calls, maxSize, key, calls[first].perMinute, first, n - 1);
    }
  }

  lemma MeteredStep<K>(calls: seq<Call<K>>, maxSize: int, key: K, cap: int, first: nat, n: nat)
    requires Clocked(calls) && first < n < |calls|
    requires Has(StateAfter(calls[..n], maxSize), key) && Has(StateAfter(calls[..n + 1], maxSize), key)
    requires Metered(Get(StateAfter(calls[..n], maxSize), key).value, calls, maxSize, key, cap, first, n)
    ensures Metered(Get(StateAfter(calls[..n + 1], maxSize), key).value, calls, maxSize, key, cap, first, n + 1)
  {
    hide StateAfter, AcquireStep, Get, Metered, Clocked, Accepted, Consume;
    var d, c := StateAfter(calls[..n], maxSize), calls[n];
    StateStep(calls, maxSize, n);
    InOrder(calls, n);
    if c.perMinute > 0 {
      StepBucket(d, maxSize, c, key);
      StepAccepts(d, maxSize, c);
      if c.key == key {
        MeteredAfterOwn(Get(d, key).value, calls, maxSize, key, cap, first, n);
      } else {
        MeteredAfterOther(Get(d, key).value, calls, maxSize, key, cap, first, n);
      }
    } else {
      IdleStepKeeps(d, maxSize, c);
      MeteredAfterOther(Get(d, key).value, calls, maxSize, key, cap, first, n);
    }
  }

  lemma IdleStepKeeps<K>(d: Dict<K, BucketState>, maxSize: int, c: Call<K>)
    requires c.perMinute <= 0
    ensures AcquireStep(d, maxSize, c.key, c.perMinute, c.created, c.now) == (d, false)
  {
  }

  // ---- Which calls are rejected ----

  /**
   The calls of the pair accepted from call j on, and one more, are more than a full bucket at call j and its refill
   since then can pay for.
   */
  ghost predicate OverdrawnSince<K>(calls: seq<Call<K>>, maxSize: int, key: K, cap: int, j: nat, n: nat)
    requires j <= n < |calls|
  {
    AcceptedBetween(calls, maxSize, key, j, n) as real >
    cap as real - 1.0 + Earned(calls[n].now - calls[j].now, cap as real)
  }

  lemma LeastDecides<K>(calls: seq<Call<K>>, maxSize: int, key: K, cap: int, first: nat, n: nat, x: real)
    requires first < n < |calls| && LeastCredit(calls, maxSize, key, cap, first, n, calls[n].now, x)
    ensures x < 1.0 <==>
            exists j :: first <= j < n && Uses(calls, key, j) && OverdrawnSince(calls, maxSize, key, cap, j, n)
  {
    hide Earned, AcceptedBetween, Uses;
    forall j | first <= j < n
      ensures OverdrawnSince(calls, maxSize, key, cap, j, n) <==>
              Credit(calls, maxSize, key, cap, j, n, calls[n].now) < 1.0
    {
    }
  }

  /**
   While the pair's bucket, made by call `first` with room for `cap` tokens, is held, a call of the pair is rejected
   exactly when for some earlier call of the pair since then the calls accepted from that one on number more than
   cap - 1 and the tokens earned in between. The call that made the bucket is accepted.
   */
  lemma RejectedIff<K>(calls: seq<Call<K>>, maxSize: int, key: K, first: nat, n: nat)
    requires Clocked(calls) && first < n < |calls|
    requires HeldSince(calls, maxSize, key, first, n) && Uses(calls, key, n)
    ensures Accepted(calls, maxSize, first)
    ensures !Accepted(calls, maxSize, n) <==>
            exists j :: first <= j < n && Uses(calls, key, j) &&
                        OverdrawnSince(calls, maxSize, key, calls[first].perMinute, j, n)
  {
    hide StateAfter, AcquireStep, Get, LeastCredit, Clocked, Accepted, Consume, OverdrawnSince, Earned;
    var cap, c, d := calls[first].perMinute, calls[n], StateAfter(calls[..n], maxSize);
    MeteredFirst(calls, maxSize, key, first);
    MeteredBefore(calls, maxSize, key, first, n);
    StateStep(calls, maxSize, n);
    StepAccepts(d, maxSize, c);
    InOrder(calls, n);
    var b := Get(d, key).value;
    ConsumeLater(b, c.now);
    LeastLater(calls, maxSize, key, cap, first, n, b.lastRefill, c.now, b.tokens);
    LeastDecides(calls, maxSize, key, cap, first, n, b.tokens + Earned(c.now - b.lastRefill, b.capacity));
  }

  lemma {:induction false} NoMoreAcceptedThanMade<K>(calls: seq<Call<K>>, maxSize: int, key: K, first: nat, j: nat,
      n: nat)
    requires first <= j <= n <= |calls|
    ensures AcceptedBetween(calls, maxSize, key, j, n) <= CallsBetween(calls, key, j, n) <=
            CallsBetween(calls, key, first, n)
  {
    hide Accepted;
    if n == j {
    } else {
      NoMoreAcceptedThanMade(calls, maxSize, key, first, j, n - 1);
    }
  }

  lemma InOrderAll<K>(calls: seq<Call<K>>, j: nat, n: nat)
    requires Clocked(calls) && j < n < |calls|
    ensures calls[j].now <= calls[n].now
  {
  }

  /**
   A new bucket pays for its whole capacity: while it is held, the pair's first `cap` calls since it was made, the
   one that made it included, are all accepted, at whatever times they come.
   */
  lemma WholeBurstAccepted<K>(calls: seq<Call<K>>, maxSize: int, key: K, first: nat, n: nat)
    requires Clocked(calls) && first < n < |calls|
    requires HeldSince(calls, maxSize, key, first, n) && Uses(calls, key, n)
    requires CallsBetween(calls, key, first, n) < calls[first].perMinute
    ensures Accepted(calls, maxSize, n)
  {
    hide StateAfter, Accepted, Clocked, Earned, HeldSince;
    RejectedIff(calls, maxSize, key, first, n);
    var cap := calls[first].perMinute;
    forall j | first <= j < n ensures !OverdrawnSince(calls, maxSize, key, cap, j, n) {
      NoMoreAcceptedThanMade(calls, maxSize, key, first, j, n);
      InOrderAll(calls, j, n);
      EarnedMonotone(calls[n].now - calls[j].now, 0.0, cap as real);
    }
  }

  /**
   A bucket is held from its first call on while, since then, no more pairs than the cache holds used the limiter.
   */
  lemma HeldWhileItFits<K>(calls: seq<Call<K>>, maxSize: int, key: K, first: nat, n: nat, pairs: set<K>)
    requires first < n <= |calls| && Uses(calls, key, first)
    requires !Has(StateAfter(calls[..first], maxSize), key)
    requires forall i :: first <= i < n && calls[i].perMinute > 0 ==> calls[i].key in pairs
    requires |pairs| <= maxSize
    ensures HeldSince(calls, maxSize, key, first, n)
  {
    hide StateAfter;
    forall m | first < m <= n ensures Has(StateAfter(calls[..m], maxSize), key) {
      var run := calls[..m];
      assert forall i :: first <= i < |run| ==> run[i] == calls[i];
      BucketKept(run, maxSize, first, first, pairs);
    }
  }
}
