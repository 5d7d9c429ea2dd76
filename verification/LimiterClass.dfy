/** The limiter itself: an ordered dictionary of buckets, updated in place under one lock. */
module LimiterClass {
  import opened Limiter
  import opened Options

  class AttemptLimiter {
    const capacity: nat
    const refillRate: real
    const entryTtl: real
    const maxEntries: nat
    /** The dictionary: its keys from the least to the most recently used, and their buckets. */
    var order: seq<Key>
    var buckets: map<Key, Bucket>

    function Cfg(): Config {
      Config(capacity, refillRate, entryTtl, maxEntries)
    }

    function Contents(): Table
      reads this
    {
      Table(order, buckets)
    }

    ghost predicate Valid()
      reads this
    {
      Cfg().Valid() && WellFormed(Cfg(), Contents())
    }

    constructor (capacity: nat, refillSeconds: real, ttlSeconds: real, maxEntries: nat)
      requires capacity >= 1 && refillSeconds > 0.0 && ttlSeconds > 0.0 && maxEntries >= 1
      ensures Valid() && Contents() == EMPTY && this.capacity == capacity && this.maxEntries == maxEntries
      ensures Cfg().OutlivesRefill() <==> refillSeconds <= ttlSeconds
    {
      this.capacity, entryTtl, this.maxEntries := capacity, ttlSeconds, maxEntries;
      refillRate := capacity as real / refillSeconds;
      order, buckets := [], map[];
      new;
      RateMeansRefill(capacity as real, refillSeconds, ttlSeconds);
    }

    method PopFirst()
      requires Valid() && order != []
      modifies this
      ensures Valid() && Contents() == old(Table(order[1..], buckets - {order[0]}))
    {
      TailKeeps(Cfg(), Contents());
      buckets := buckets - {order[0]};
      order := order[1..];
    }

    method ExpireIdle(now: real)
      requires Valid()
      modifies this
      ensures Valid() && Contents() == old(Expire(Cfg(), Contents(), now))
    {
      while order != []
        invariant Valid() && Expire(Cfg(), Contents(), now) == old(Expire(Cfg(), Contents(), now))
        decreases |order|
      {
        if now - buckets[order[0]].lastSeen < entryTtl { break; }
        PopFirst();
      }
    }

    /** Finds the key's bucket and refills it, or makes room for a full one; either way the key comes last. */
    method Touch(key: Key, now: real)
      requires Valid()
      modifies this
      ensures var made := old(MakeRoom(Cfg(), Contents(), key));
        && order == Without(made.order, key) + [key]
        && buckets == made.buckets[key := Refilled(Cfg(), Get(made.buckets, key), now)]
    {
      if key !in buckets {
        if |order| >= maxEntries { PopFirst(); }
        WithoutAbsent(order, key);
        order := order + [key];
        buckets := buckets[key := Bucket(capacity as real, now, now)];
      } else {
        var b := buckets[key];
        var tokens := Min(capacity as real, b.tokens + Gain(Max(0.0, now - b.updatedAt), refillRate));
        order := Without(order, key) + [key];
        buckets := buckets[key := Bucket(tokens, Max(b.updatedAt, now), Max(b.lastSeen, now))];
      }
    }

    /** Takes a token from the key's bucket, or says how long until there is one. */
    method Take(key: Key) returns (decision: Decision)
      requires key in buckets && refillRate > 0.0 && Cfg().Valid()
      modifies this`buckets
      ensures var b := old(buckets[key]);
        && buckets == old(buckets)[key := if b.tokens >= 1.0 then b.(tokens := b.tokens - 1.0) else b]
        && decision == Decide(Cfg(), b.tokens)
    {
      var bucket := buckets[key];
      if bucket.tokens >= 1.0 {
        buckets := buckets[key := bucket.(tokens := bucket.tokens - 1.0)];
        return Decision(true, 0);
      }
      var wait := Ceil((1.0 - bucket.tokens) / refillRate);
      return Decision(false, if wait < 1 then 1 else wait);
    }

    /** One attempt, decided and recorded as a single step. */
    method Consume(key: Key, now: real) returns (decision: Decision)
      requires Valid()
      modifies this
      ensures Valid() && (Contents(), decision) == old(Limiter.Consume(Cfg(), Contents(), key, now))
    {
      ghost var cfg, was := Cfg(), Contents();
      ghost var p := Prepared(cfg, was, key, now);
      ghost var b := Refilled(cfg, Get(p.buckets, key), now);
      ExpireIdle(now);
      Touch(key, now);
      assert order == Without(p.order, key) + [key] && buckets == p.buckets[key := b];
      decision := Take(key);
      ConsumeOf(cfg, was, key, now);
      assert (Contents(), decision) == Limiter.Consume(cfg, was, key, now);
      ConsumeKeeps(cfg, was, key, now);
    }

    method Reset(key: Key)
      requires Valid()
      modifies this
      ensures Valid() && Contents() == old(Drop(Contents(), key))
    {
      DropKeeps(Cfg(), Contents(), key);
      order, buckets := Without(order, key), buckets - {key};
    }

    method Length() returns (n: nat)
      requires Valid()
      ensures n == |order| <= maxEntries
    {
      n := |order|;
    }
  }

  /** A bucket is spent by taking a token from it once it is refilled, if it then holds one. */
  lemma SpentOf(cfg: Config, b: Option<Bucket>, now: real)
    requires cfg.Valid()
    ensures var r := Refilled(cfg, b, now);
      Spent(cfg, b, now) == (if r.tokens >= 1.0 then r.(tokens := r.tokens - 1.0) else r)
        && r.tokens == Level(cfg, b, now)
  {
  }

  /** What an attempt does, in terms of the bucket once it is refilled. */
  lemma ConsumeOf(cfg: Config, t: Table, key: Key, now: real)
    requires cfg.Valid()
    ensures var p := Prepared(cfg, t, key, now);
      var b := Refilled(cfg, Get(p.buckets, key), now);
      Limiter.Consume(cfg, t, key, now) == (
        Table(Without(p.order, key) + [key],
          p.buckets[key := b][key := if b.tokens >= 1.0 then b.(tokens := b.tokens - 1.0) else b]),
        Decide(cfg, b.tokens))
  {
    var p := Prepared(cfg, t, key, now);
    var b := Refilled(cfg, Get(p.buckets, key), now);
    SpentOf(cfg, Get(p.buckets, key), now);
    assert p.buckets[key := b][key := Spent(cfg, Get(p.buckets, key), now)] ==
      p.buckets[key := Spent(cfg, Get(p.buckets, key), now)];
  }

  lemma RateMeansRefill(capacity: real, refill: real, ttl: real)
    requires capacity > 0.0 && refill > 0.0
    ensures capacity / refill > 0.0 && (capacity <= ttl * (capacity / refill) <==> refill <= ttl)
  {
    Quotient(capacity, refill);
    if refill <= ttl {
      Scale(refill, ttl, capacity / refill);
    } else {
      ScaleStrictly(ttl, refill, capacity / refill);
    }
  }
}
