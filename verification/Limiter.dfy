/**
 * Token buckets with idle expiry and a hard entry cap, against a map of buckets
 * that never forgets. Time and tokens are reals; a clock that does not go back
 * is asked for only where a result needs it.
 */
module Limiter {
  import opened Options

  type Key = nat

  /** Tokens come back at the refill rate; an idle entry is dropped after the time to live. */
  datatype Config = Config(capacity: nat, rate: real, ttl: real, maxEntries: nat) {
    predicate Valid() {
      capacity >= 1 && rate > 0.0 && ttl > 0.0 && maxEntries >= 1
    }

    /** An entry lives at least as long as its whole capacity takes to refill. */
    predicate OutlivesRefill() {
      capacity as real <= ttl * rate
    }
  }

  datatype Bucket = Bucket(tokens: real, updatedAt: real, lastSeen: real)
  datatype Decision = Decision(allowed: bool, retryAfter: int)

  /** An ordered dictionary: its keys from the least to the most recently used, and their buckets. */
  datatype Table = Table(order: seq<Key>, buckets: map<Key, Bucket>)

  const EMPTY := Table([], map[])

  // ---- arithmetic ----

  function Max(a: real, b: real): real {
    if a < b then b else a
  }

  function Min(a: real, b: real): real {
    if b < a then b else a
  }

  function Ceil(x: real): (n: int)
    ensures n as real >= x && (n - 1) as real < x
  {
    -((-x).Floor)
  }

  lemma Scale(a: real, b: real, c: real)
    requires a <= b && c >= 0.0
    ensures a * c <= b * c
  {
  }

  lemma ScaleStrictly(a: real, b: real, c: real)
    requires a < b && c > 0.0
    ensures a * c < b * c
  {
  }

  lemma Quotient(a: real, b: real)
    requires a > 0.0 && b > 0.0
    ensures a / b > 0.0 && b * (a / b) == a
  {
  }

  // ---- what a bucket holds at a time ----

  /** What comes back in so many seconds. */
  function Gain(seconds: real, rate: real): real {
    seconds * rate
  }

  /** A key without a bucket has its whole capacity. */
  function Level(cfg: Config, b: Option<Bucket>, now: real): real
    requires cfg.Valid()
  {
    match b
    case None => cfg.capacity as real
    case Some(b) => Min(cfg.capacity as real, b.tokens + Gain(Max(0.0, now - b.updatedAt), cfg.rate))
  }

  function Get(m: map<Key, Bucket>, k: Key): Option<Bucket> {
    if k in m then Some(m[k]) else None
  }

  /** The bucket that an attempt at `now` finds, or makes. */
  function Refilled(cfg: Config, b: Option<Bucket>, now: real): Bucket
    requires cfg.Valid()
  {
    var level := Level(cfg, b, now);
    match b
    case None => Bucket(level, now, now)
    case Some(b) => Bucket(level, Max(b.updatedAt, now), Max(b.lastSeen, now))
  }

  /** The bucket after an attempt at `now`: refilled, and one token short when the attempt is allowed. */
  function Spent(cfg: Config, b: Option<Bucket>, now: real): Bucket
    requires cfg.Valid()
  {
    var r := Refilled(cfg, b, now);
    if r.tokens >= 1.0 then r.(tokens := r.tokens - 1.0) else r
  }

  function Decide(cfg: Config, level: real): Decision
    requires cfg.Valid()
  {
    if level >= 1.0 then Decision(true, 0)
    else
      var wait := Ceil((1.0 - level) / cfg.rate);
      Decision(false, if wait < 1 then 1 else wait)
  }

  // ---- the table ----

  predicate Distinct(s: seq<Key>) {
    forall i, j :: 0 <= i < j < |s| ==> s[i] != s[j]
  }

  function Without(s: seq<Key>, k: Key): (r: seq<Key>)
    ensures forall x :: x in r <==> x in s && x != k
  {
    if s == [] then []
    else if s[0] == k then Without(s[1..], k)
    else [s[0]] + Without(s[1..], k)
  }

  function Drop(t: Table, k: Key): Table {
    Table(Without(t.order, k), t.buckets - {k})
  }

  ghost predicate WellFormed(cfg: Config, t: Table) {
    && Distinct(t.order)
    && (forall k :: k in t.order <==> k in t.buckets)
    && (forall k :: k in t.buckets ==> 0.0 <= t.buckets[k].tokens <= cfg.capacity as real)
    && (forall k :: k in t.buckets ==> t.buckets[k].lastSeen == t.buckets[k].updatedAt)
    && |t.order| <= cfg.maxEntries
  }

  /** Entries are in the order in which they were last seen, none after `now`. */
  ghost predicate InOrder(t: Table, now: real)
    requires forall k :: k in t.order ==> k in t.buckets
  {
    && (forall i, j :: 0 <= i < j < |t.order| ==> t.buckets[t.order[i]].lastSeen <= t.buckets[t.order[j]].lastSeen)
    && (forall k :: k in t.order ==> t.buckets[k].lastSeen <= now)
  }

  /**
   * `_expire_idle`: from the least recently used entry on, until the first live one. Every key in the order has a
   * bucket.
   */
  function Expire(cfg: Config, t: Table, now: real): Table
    decreases |t.order|
  {
    if t.order == [] || t.order[0] !in t.buckets || now - t.buckets[t.order[0]].lastSeen < cfg.ttl then t
    else
      var rest := Table(t.order[1..], t.buckets - {t.order[0]});
      Expire(cfg, rest, now)
  }

  predicate Evicts(cfg: Config, t: Table, k: Key) {
    k !in t.buckets && |t.order| >= cfg.maxEntries
  }

  /** The table with room for `k`: the least recently used entry makes way when the table is full. */
  function MakeRoom(cfg: Config, t: Table, k: Key): Table {
    if Evicts(cfg, t, k) && t.order != [] then Table(t.order[1..], t.buckets - {t.order[0]}) else t
  }

  /** The table after expiry and eviction, in which `consume` looks its key up. */
  function Prepared(cfg: Config, t: Table, k: Key, now: real): Table {
    MakeRoom(cfg, Expire(cfg, t, now), k)
  }

  function Consume(cfg: Config, t: Table, k: Key, now: real): (Table, Decision)
    requires cfg.Valid()
  {
    var p := Prepared(cfg, t, k, now);
    var b := Get(p.buckets, k);
    (Table(Without(p.order, k) + [k], p.buckets[k := Spent(cfg, b, now)]), Decide(cfg, Level(cfg, b, now)))
  }

  // ---- what every operation keeps, whatever the clock does ----

  lemma {:induction false} WithoutDistinct(s: seq<Key>, k: Key)
    requires Distinct(s)
    ensures Distinct(Without(s, k)) && |Without(s, k)| == if k in s then |s| - 1 else |s|
  {
    if s != [] {
      WithoutDistinct(s[1..], k);
      var rest := Without(s[1..], k);
      if s[0] == k {
        WithoutAbsent(s[1..], k);
      } else {
        assert forall j :: 0 <= j < |rest| ==> rest[j] in s[1..];
        assert s[0] !in s[1..];
      }
    }
  }

  lemma {:induction false} WithoutAbsent(s: seq<Key>, k: Key)
    requires k !in s
    ensures Without(s, k) == s
  {
    if s != [] { WithoutAbsent(s[1..], k); }
  }

  lemma TailKeeps(cfg: Config, t: Table)
    requires WellFormed(cfg, t) && t.order != []
    ensures WellFormed(cfg, Table(t.order[1..], t.buckets - {t.order[0]}))
  {
    var rest := Table(t.order[1..], t.buckets - {t.order[0]});
    forall k ensures k in rest.order <==> k in rest.buckets {
      assert t.order == [t.order[0]] + t.order[1..];
    }
  }

  lemma {:induction false} ExpireKeeps(cfg: Config, t: Table, now: real)
    requires WellFormed(cfg, t)
    ensures WellFormed(cfg, Expire(cfg, t, now))
    decreases |t.order|
  {
    if t.order != [] && !(now - t.buckets[t.order[0]].lastSeen < cfg.ttl) {
      TailKeeps(cfg, t);
      ExpireKeeps(cfg, Table(t.order[1..], t.buckets - {t.order[0]}), now);
    }
  }

  lemma PreparedKeeps(cfg: Config, t: Table, k: Key, now: real)
    requires cfg.Valid() && WellFormed(cfg, t)
    ensures WellFormed(cfg, Prepared(cfg, t, k, now))
    ensures k !in Prepared(cfg, t, k, now).buckets ==> |Prepared(cfg, t, k, now).order| < cfg.maxEntries
  {
    ExpireKeeps(cfg, t, now);
    var e := Expire(cfg, t, now);
    if Evicts(cfg, e, k) { TailKeeps(cfg, e); }
  }

  lemma SpentIsWithin(cfg: Config, b: Option<Bucket>, now: real)
    requires cfg.Valid() && (b.Some? ==> 0.0 <= b.value.tokens && b.value.lastSeen == b.value.updatedAt)
    ensures 0.0 <= Level(cfg, b, now) <= cfg.capacity as real
    ensures 0.0 <= Spent(cfg, b, now).tokens <= cfg.capacity as real
    ensures Spent(cfg, b, now).lastSeen == Spent(cfg, b, now).updatedAt
  {
    if b.Some? { Scale(0.0, Max(0.0, now - b.value.updatedAt), cfg.rate); }
  }

  /** Tokens stay within the capacity and entries within the cap, even if the clock goes back. */
  lemma ConsumeKeeps(cfg: Config, t: Table, k: Key, now: real)
    requires cfg.Valid() && WellFormed(cfg, t)
    ensures WellFormed(cfg, Consume(cfg, t, k, now).0)
  {
    var p := Prepared(cfg, t, k, now);
    PreparedKeeps(cfg, t, k, now);
    WithoutDistinct(p.order, k);
    SpentIsWithin(cfg, Get(p.buckets, k), now);
  }

  lemma DropKeeps(cfg: Config, t: Table, k: Key)
    requires WellFormed(cfg, t)
    ensures WellFormed(cfg, Drop(t, k))
  {
    WithoutDistinct(t.order, k);
  }

  // ---- with a clock that does not go back ----

  lemma {:induction false} ExpireKeepsOrder(cfg: Config, t: Table, now: real)
    requires WellFormed(cfg, t) && InOrder(t, now)
    ensures WellFormed(cfg, Expire(cfg, t, now)) && InOrder(Expire(cfg, t, now), now)
    decreases |t.order|
  {
    if t.order != [] && !(now - t.buckets[t.order[0]].lastSeen < cfg.ttl) {
      TailKeeps(cfg, t);
      TailInOrder(cfg, t, now);
      ExpireKeepsOrder(cfg, Table(t.order[1..], t.buckets - {t.order[0]}), now);
    }
  }

  lemma TailInOrder(cfg: Config, t: Table, now: real)
    requires WellFormed(cfg, t) && InOrder(t, now) && t.order != []
    requires WellFormed(cfg, Table(t.order[1..], t.buckets - {t.order[0]}))
    ensures InOrder(Table(t.order[1..], t.buckets - {t.order[0]}), now)
  {
    var tail := t.order[1..];
    assert forall i :: 0 <= i < |tail| ==> tail[i] == t.order[i + 1] && tail[i] != t.order[0];
  }

  predicate Live(cfg: Config, b: Bucket, now: real) {
    now - b.lastSeen < cfg.ttl
  }

  lemma AllLive(cfg: Config, t: Table, now: real)
    requires WellFormed(cfg, t) && InOrder(t, now) && t.order != [] && Live(cfg, t.buckets[t.order[0]], now)
    ensures forall k :: k in t.buckets ==> Live(cfg, t.buckets[k], now)
  {
    forall k | k in t.buckets ensures Live(cfg, t.buckets[k], now) {
      var i :| 0 <= i < |t.order| && t.order[i] == k;
      assert t.buckets[t.order[0]].lastSeen <= t.buckets[t.order[i]].lastSeen;
    }
  }

  /** Expiry drops exactly the entries idle for the time to live: the first live one is not in the way of a dead one. */
  lemma {:induction false} ExpiresAllIdle(cfg: Config, t: Table, now: real)
    requires WellFormed(cfg, t) && InOrder(t, now)
    ensures forall k :: k in Expire(cfg, t, now).buckets <==> k in t.buckets && Live(cfg, t.buckets[k], now)
    ensures forall k :: k in Expire(cfg, t, now).buckets ==> Expire(cfg, t, now).buckets[k] == t.buckets[k]
    decreases |t.order|
  {
    if t.order == [] {
    } else if Live(cfg, t.buckets[t.order[0]], now) {
      AllLive(cfg, t, now);
    } else {
      var rest := Table(t.order[1..], t.buckets - {t.order[0]});
      TailKeeps(cfg, t);
      TailInOrder(cfg, t, now);
      ExpiresAllIdle(cfg, rest, now);
      assert Expire(cfg, t, now) == Expire(cfg, rest, now);
    }
  }

  /** Keys left in place after one is taken out keep their order. */
  lemma {:induction false} WithoutIndex(s: seq<Key>, k: Key, i: nat, j: nat) returns (a: nat, b: nat)
    requires Distinct(s) && i < j < |Without(s, k)|
    ensures a < b < |s| && s[a] == Without(s, k)[i] && s[b] == Without(s, k)[j]
  {
    if s[0] == k {
      a, b := WithoutIndex(s[1..], k, i, j);
      a, b := a + 1, b + 1;
    } else if i > 0 {
      a, b := WithoutIndex(s[1..], k, i - 1, j - 1);
      a, b := a + 1, b + 1;
    } else {
      a := 0;
      assert Without(s, k)[j] in Without(s[1..], k);
      b :| 0 <= b < |s| && s[b] == Without(s, k)[j];
      assert s[0] !in s[1..];
    }
  }

  lemma TouchKeepsOrder(cfg: Config, t: Table, k: Key, bucket: Bucket, now: real)
    requires WellFormed(cfg, t) && InOrder(t, now) && bucket.lastSeen == now
    ensures forall x :: x in Without(t.order, k) + [k] ==> x in t.buckets[k := bucket]
    ensures InOrder(Table(Without(t.order, k) + [k], t.buckets[k := bucket]), now)
  {
    var front := Without(t.order, k);
    var order, buckets := front + [k], t.buckets[k := bucket];
    forall i, j | 0 <= i < j < |order| ensures buckets[order[i]].lastSeen <= buckets[order[j]].lastSeen {
      assert order[i] == front[i] && front[i] in front;
      if j < |front| {
        var a, b := WithoutIndex(t.order, k, i, j);
        assert t.buckets[t.order[a]].lastSeen <= t.buckets[t.order[b]].lastSeen;
        assert front[j] in front;
      }
    }
  }

  lemma PreparedKeepsOrder(cfg: Config, t: Table, k: Key, now: real)
    requires cfg.Valid() && WellFormed(cfg, t) && InOrder(t, now)
    ensures WellFormed(cfg, Prepared(cfg, t, k, now)) && InOrder(Prepared(cfg, t, k, now), now)
  {
    ExpireKeepsOrder(cfg, t, now);
    var e := Expire(cfg, t, now);
    if Evicts(cfg, e, k) {
      TailKeeps(cfg, e);
      TailInOrder(cfg, e, now);
    }
  }

  /** Entries stay ordered by when they were last seen. */
  lemma ConsumeKeepsOrder(cfg: Config, t: Table, k: Key, before: real, now: real)
    requires cfg.Valid() && WellFormed(cfg, t) && InOrder(t, before) && before <= now
    ensures WellFormed(cfg, Consume(cfg, t, k, now).0) && InOrder(Consume(cfg, t, k, now).0, now)
  {
    assert InOrder(t, now);
    var p := Prepared(cfg, t, k, now);
    PreparedKeepsOrder(cfg, t, k, now);
    ConsumeKeeps(cfg, t, k, now);
    var b := Get(p.buckets, k);
    assert b.Some? ==> k in p.order && b.value.lastSeen <= now;
    TouchKeepsOrder(cfg, p, k, Spent(cfg, b, now), now);
  }

  lemma DropKeepsOrder(cfg: Config, t: Table, k: Key, now: real)
    requires WellFormed(cfg, t) && InOrder(t, now)
    ensures WellFormed(cfg, Drop(t, k)) && InOrder(Drop(t, k), now)
  {
    DropKeeps(cfg, t, k);
    var d := Drop(t, k);
    forall i, j | 0 <= i < j < |d.order| ensures d.buckets[d.order[i]].lastSeen <= d.buckets[d.order[j]].lastSeen {
      var a, b := WithoutIndex(t.order, k, i, j);
      assert t.buckets[t.order[a]].lastSeen <= t.buckets[t.order[b]].lastSeen;
    }
  }
}
