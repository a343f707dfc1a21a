/** The per-(user, tool) token buckets (tools/ratelimit.py), kept in a bounded LRU dictionary. Times are seconds. */
module RateLimiter {
  import opened OrderedDict
  import opened LruCache
  import opened DictView

  type Key = (string, string)

  datatype BucketState = BucketState(capacity: real, tokens: real, lastRefill: real)

  function FullBucket(perMinute: int, created: real): BucketState {
    BucketState(perMinute as real, perMinute as real, created)
  }

  function Refill(b: BucketState, now: real): BucketState {
    if now > b.lastRefill then
      var refilled := b.tokens + (now - b.lastRefill) * (b.capacity / 60.0);
      b.(tokens := if refilled < b.capacity then refilled else b.capacity, lastRefill := now)
    else b
  }

  function Consume(b: BucketState, amount: real, now: real): (BucketState, bool) {
    var r := Refill(b, now);
    if r.tokens >= amount then (r.(tokens := r.tokens - amount), true) else (r, false)
  }

  class Bucket {
    const capacity: real
    const refillPerSecond: real
    var tokens: real
    var lastRefill: real

    ghost predicate Valid() { refillPerSecond == capacity / 60.0 }

    ghost function State(): BucketState reads this { BucketState(capacity, tokens, lastRefill) }

    constructor (capacityPerMinute: int, now: real)
      ensures Valid() && State() == FullBucket(capacityPerMinute, now)
    {
      capacity := capacityPerMinute as real;
      refillPerSecond := capacityPerMinute as real / 60.0;
      tokens := capacityPerMinute as real;
      lastRefill := now;
    }

    /** Takes `amount` tokens if the bucket, refilled up to now, has them. */
    method TryConsume(amount: real, now: real) returns (ok: bool)
      requires Valid()
      modifies this
      ensures (State(), ok) == Consume(old(State()), amount, now)
    {
      var elapsed := now - lastRefill;
      if elapsed > 0.0 {
        var refilled := tokens + elapsed * refillPerSecond;
        tokens := if refilled < capacity then refilled else capacity;
        lastRefill := now;
      }
      if tokens >= amount {
        tokens := tokens - amount;
        return true;
      }
      return false;
    }
  }

  /**
   One call of try_acquire on the buckets' states. The clock is read twice: once when a new bucket is made
   (`created`) and once when a token is taken (`now`).
   */
  function AcquireStep<K(==)>(d: Dict<K, BucketState>, maxSize: int, key: K, perMinute: int, created: real, now: real)
    : (Dict<K, BucketState>, bool)
  {
    if perMinute <= 0 then (d, false)
    else
      var held := Get(d, key);
      var bucket := if held.Some? then held.value else FullBucket(perMinute, created);
      var d' := if held.Some? then GetStep(d, key) else SetStep(d, maxSize, key, bucket);
      var (after, ok) := Consume(bucket, 1.0, now);
      (if Has(d', key) then Put(d', key, after) else d', ok)
  }

  class ToolRateLimiter {
    const buckets: BoundedLRUDict<Key, Bucket>
    ghost var objects: set<Bucket>  // every bucket ever made, the evicted ones included

    ghost predicate Valid()
      reads this, buckets, objects
    {
      && buckets.Valid()
      && Unshared(buckets.entries)
      && (forall i :: 0 <= i < |buckets.entries| ==> buckets.entries[i].1 in objects)
      && (forall b :: b in objects ==> b.Valid())
    }

    ghost function Recorded(): (m: map<Bucket, BucketState>)
      reads this, objects
      ensures m.Keys == objects && forall b :: b in objects ==> m[b] == b.State()
    {
      map b: Bucket | b in objects :: b.State()
    }

    ghost function States(): Dict<Key, BucketState>
      requires Valid()
      reads this, buckets, objects
    {
      ViewOf(buckets.entries, Recorded())
    }

    constructor (maxBuckets: int)
      ensures Valid() && States() == [] && buckets.maxSize == maxBuckets
      ensures fresh(buckets) && fresh(objects)
    {
      buckets := new BoundedLRUDict<Key, Bucket>(maxBuckets);
      objects := {};
    }

    method TryAcquire(userId: string, tool: string, perMinute: int, created: real, now: real) returns (ok: bool)
      requires Valid()
      modifies this, buckets, objects
      ensures Valid() && fresh(objects - old(objects))
      ensures (States(), ok) == AcquireStep(old(States()), buckets.maxSize, (userId, tool), perMinute, created, now)
    {
      if perMinute <= 0 {
        return false;
      }
      var key := (userId, tool);
      ViewLookup(buckets.entries, Recorded(), key);
      if Has(buckets.entries, key) {
        ok := TakeFromHeld(key, now);
      } else {
        ok := TakeFromNew(key, perMinute, created, now);
      }
    }

    /** The branch of TryAcquire where the lookup finds a bucket. */
    method TakeFromHeld(key: Key, now: real) returns (ok: bool)
      requires Valid() && Has(buckets.entries, key)
      modifies this, buckets, objects
      ensures Valid() && objects == old(objects)
      ensures Has(old(States()), key) && Has(GetStep(old(States()), key), key)
      ensures var (after, took) := Consume(Get(old(States()), key).value, 1.0, now);
              ok == took && States() == Put(GetStep(old(States()), key), key, after)
    {
      ghost var m: map<Bucket, BucketState> := Recorded();
      ghost var d := buckets.entries;
      ViewLookup(d, m, key);
      var found := buckets.Lookup(key);
      var bucket := found.value;
      ok := bucket.TryConsume(1.0, now);
      HitView(d, m, key, bucket.State());
      assert Recorded() == m[bucket := bucket.State()];
    }

    /** The branch of TryAcquire where the lookup misses: a full bucket is made and stored. */
    method TakeFromNew(key: Key, perMinute: int, created: real, now: real) returns (ok: bool)
      requires Valid() && !Has(buckets.entries, key)
      modifies this, buckets, objects
      ensures Valid() && fresh(objects - old(objects))
      ensures var (after, took) := Consume(FullBucket(perMinute, created), 1.0, now);
              var stored := SetStep(old(States()), buckets.maxSize, key, FullBucket(perMinute, created));
              ok == took && States() == if Has(stored, key) then Put(stored, key, after) else stored
    {
      hide SetStep, ViewOf, Consume, Put, Get, Remove, Covered;
      ghost var m: map<Bucket, BucketState> := Recorded();
      ghost var d := buckets.entries;
      var bucket := new Bucket(perMinute, created);
      ghost var m' := m[bucket := bucket.State()];
      ViewSame(d, m, m');
      SetItems(d, buckets.maxSize, key, bucket);
      objects := objects + {bucket};
      buckets.Assign(key, bucket);
      ok := bucket.TryConsume(1.0, now);
      MissView(d, m', buckets.maxSize, key, bucket, bucket.State());
      assert Recorded() == m'[bucket := bucket.State()];
    }
  }
}
