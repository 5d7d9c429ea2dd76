/**
 * Whole runs of the limiter: it decides as a map that never forgets, allows no
 * more than the capacity and the refill over any window, and its retry hints
 * are both enough and not too much.
 */
module LimiterRuns {
  import opened Options
  import opened Limiter

  datatype Op = Attempt(key: Key, at: real) | Reset(key: Key)

  /** The clock does not go back. */
  predicate Timed(ops: seq<Op>, now: real) {
    ops == [] || match ops[0] case Attempt(_, at) => now <= at
      && Timed(ops[1..], at) case Reset(_) => Timed(ops[1..], now)
  }

  function EndTime(ops: seq<Op>, now: real): real {
    if ops == [] then now else EndTime(ops[1..], TimeOf(ops[0], now))
  }

  function TimeOf(op: Op, now: real): real {
    match op case Attempt(_, at) => at case Reset(_) => now
  }

  // ---- one operation, on the table and on the map that never forgets ----

  function Step(cfg: Config, t: Table, op: Op): (Table, Option<Decision>)
    requires cfg.Valid()
  {
    match op
    case Attempt(k, at) => (Consume(cfg, t, k, at).0, Some(Consume(cfg, t, k, at).1))
    case Reset(k) => (Drop(t, k), None)
  }

  function Remember(cfg: Config, m: map<Key, Bucket>, op: Op): (map<Key, Bucket>, Option<Decision>)
    requires cfg.Valid()
  {
    match op
    case Attempt(k, at) => (m[k := Spent(cfg, Get(m, k), at)], Some(Decide(cfg, Level(cfg, Get(m, k), at))))
    case Reset(k) => (m - {k}, None)
  }

  lemma StepKeeps(cfg: Config, t: Table, op: Op, now: real)
    requires cfg.Valid() && WellFormed(cfg, t) && InOrder(t, now) && now <= TimeOf(op, now)
    ensures WellFormed(cfg, Step(cfg, t, op).0) && InOrder(Step(cfg, t, op).0, TimeOf(op, now))
  {
    match op
    case Attempt(k, at) => ConsumeKeepsOrder(cfg, t, k, now, at);
    case Reset(k) => DropKeepsOrder(cfg, t, k, now);
  }

  // ---- runs ----

  function After(cfg: Config, t: Table, ops: seq<Op>): Table
    requires cfg.Valid()
    decreases |ops|
  {
    if ops == [] then t else After(cfg, Step(cfg, t, ops[0]).0, ops[1..])
  }

  function Decisions(cfg: Config, t: Table, ops: seq<Op>): (r: seq<Option<Decision>>)
    requires cfg.Valid()
    ensures |r| == |ops|
    decreases |ops|
  {
    if ops == [] then [] else [Step(cfg, t, ops[0]).1] + Decisions(cfg, Step(cfg, t, ops[0]).0, ops[1..])
  }

  function Remembered(cfg: Config, m: map<Key, Bucket>, ops: seq<Op>): (r: seq<Option<Decision>>)
    requires cfg.Valid()
    ensures |r| == |ops|
    decreases |ops|
  {
    if ops == [] then [] else [Remember(cfg, m, ops[0]).1] + Remembered(cfg, Remember(cfg, m, ops[0]).0, ops[1..])
  }

  /** The entry of `k` is never the one that makes way for a new key. */
  predicate Spares(cfg: Config, t: Table, ops: seq<Op>, k: Key)
    requires cfg.Valid()
    decreases |ops|
  {
    ops == [] || (StepSpares(cfg, t, ops[0], k) && Spares(cfg, Step(cfg, t, ops[0]).0, ops[1..], k))
  }

  predicate StepSpares(cfg: Config, t: Table, op: Op, k: Key)
    requires cfg.Valid()
  {
    match op
    case Attempt(x, at) => k in Expire(cfg, t, at).buckets ==> k in Prepared(cfg, t, x, at).buckets
    case Reset(_) => true
  }

  // ---- refinement ----

  /** From `now` on, the key holds as much in the one as in the other. */
  ghost predicate Agree(cfg: Config, a: map<Key, Bucket>, b: map<Key, Bucket>, k: Key, now: real)
    requires cfg.Valid()
  {
    forall t :: t >= now ==> Level(cfg, Get(a, k), t) == Level(cfg, Get(b, k), t)
  }

  /** A remembered bucket holds nothing negative and was not refilled in the future. */
  ghost predicate Past(b: Option<Bucket>, now: real) {
    b.Some? ==> 0.0 <= b.value.tokens && b.value.updatedAt <= now
  }

  /** A bucket that has been idle for the time to live is full, like no bucket at all. */
  lemma IdleIsFull(cfg: Config, b: Bucket, now: real)
    requires cfg.Valid() && cfg.OutlivesRefill() && 0.0 <= b.tokens && now - b.updatedAt >= cfg.ttl
    ensures Level(cfg, Some(b), now) == cfg.capacity as real
  {
    Scale(cfg.ttl, now - b.updatedAt, cfg.rate);
  }

  /** Expiry is harmless when idle entries live at least as long as the refill takes. */
  lemma ExpiryAgrees(cfg: Config, t: Table, k: Key, now: real)
    requires cfg.Valid() && cfg.OutlivesRefill() && WellFormed(cfg, t) && InOrder(t, now)
    ensures Agree(cfg, t.buckets, Expire(cfg, t, now).buckets, k, now)
  {
    ExpiresAllIdle(cfg, t, now);
    if k in t.buckets && k !in Expire(cfg, t, now).buckets {
      forall x | x >= now ensures Level(cfg, Some(t.buckets[k]), x) == cfg.capacity as real {
        IdleIsFull(cfg, t.buckets[k], x);
      }
    }
  }

  lemma PreparedAgrees(cfg: Config, t: Table, x: Key, k: Key, now: real)
    requires cfg.Valid() && cfg.OutlivesRefill() && WellFormed(cfg, t) && InOrder(t, now)
    requires StepSpares(cfg, t, Attempt(x, now), k)
    ensures Agree(cfg, t.buckets, Prepared(cfg, t, x, now).buckets, k, now)
  {
    ExpiryAgrees(cfg, t, k, now);
    var e, p := Expire(cfg, t, now), Prepared(cfg, t, x, now);
    assert Get(p.buckets, k) == Get(e.buckets, k);
  }

  /** Two buckets that agree at the time of an attempt agree ever after, whatever their histories. */
  lemma SpentAgrees(cfg: Config, a: Option<Bucket>, b: Option<Bucket>, now: real, later: real)
    requires cfg.Valid() && Past(a, now) && Past(b, now) && Level(cfg, a, now) == Level(cfg, b, now)
    ensures Level(cfg, Some(Spent(cfg, a, now)), later) == Level(cfg, Some(Spent(cfg, b, now)), later)
  {
  }

  lemma StepAgrees(cfg: Config, t: Table, m: map<Key, Bucket>, op: Op, k: Key, now: real)
    requires cfg.Valid() && cfg.OutlivesRefill() && WellFormed(cfg, t) && InOrder(t, now) && now <= TimeOf(op, now)
    requires Agree(cfg, t.buckets, m, k, now) && Past(Get(m, k), now) && StepSpares(cfg, t, op, k)
    ensures Agree(cfg, Step(cfg, t, op).0.buckets, Remember(cfg, m, op).0, k, TimeOf(op, now))
    ensures Past(Get(Remember(cfg, m, op).0, k), TimeOf(op, now))
    ensures op.key == k ==> Step(cfg, t, op).1 == Remember(cfg, m, op).1
  {
    match op
    case Reset(_) =>
    case Attempt(x, at) =>
      PreparedAgrees(cfg, t, x, k, at);
      PreparedKeepsOrder(cfg, t, x, at);
      var p := Prepared(cfg, t, x, at);
      if x == k {
        assert Get(p.buckets, k).Some? ==> k in p.order;
        assert Past(Get(p.buckets, k), at);
        SpentPast(cfg, Get(m, k), at);
        forall later | later >= at
          ensures Level(cfg, Some(Spent(cfg, Get(p.buckets, k), at)), later) ==
            Level(cfg, Some(Spent(cfg, Get(m, k), at)), later)
        {
          SpentAgrees(cfg, Get(p.buckets, k), Get(m, k), at, later);
        }
      } else {
        assert Get(Step(cfg, t, op).0.buckets, k) == Get(p.buckets, k);
      }
  }

  lemma SpentPast(cfg: Config, b: Option<Bucket>, now: real)
    requires cfg.Valid() && Past(b, now)
    ensures Past(Some(Spent(cfg, b, now)), now)
  {
    if b.Some? { Scale(0.0, Max(0.0, now - b.value.updatedAt), cfg.rate); }
  }

  lemma DecisionsAt(cfg: Config, t: Table, ops: seq<Op>, i: nat)
    requires cfg.Valid() && i < |ops|
    ensures Decisions(cfg, t, ops)[i] == if i == 0 then Step(cfg, t, ops[0]).1
      else Decisions(cfg, Step(cfg, t, ops[0]).0, ops[1..])[i - 1]
  {
  }

  lemma RememberedAt(cfg: Config, m: map<Key, Bucket>, ops: seq<Op>, i: nat)
    requires cfg.Valid() && i < |ops|
    ensures Remembered(cfg, m, ops)[i] ==
      if i == 0 then Remember(cfg, m, ops[0]).1 else Remembered(cfg, Remember(cfg, m, ops[0]).0, ops[1..])[i - 1]
  {
  }

  /** A key that is not evicted gets, attempt by attempt, the decisions of the map that never forgets. */
  lemma {:induction false} KeyRefines(cfg: Config, t: Table, m: map<Key, Bucket>, ops: seq<Op>, k: Key, now: real,
                                      i: nat)
    requires cfg.Valid() && cfg.OutlivesRefill() && WellFormed(cfg, t) && InOrder(t, now) && Timed(ops, now)
    requires Agree(cfg, t.buckets, m, k, now) && Past(Get(m, k), now) && Spares(cfg, t, ops, k)
    requires i < |ops| && ops[i].key == k
    ensures Decisions(cfg, t, ops)[i] == Remembered(cfg, m, ops)[i]
    decreases |ops|
  {
    DecisionsAt(cfg, t, ops, i);
    RememberedAt(cfg, m, ops, i);
    StepAgrees(cfg, t, m, ops[0], k, now);
    if i > 0 {
      StepKeeps(cfg, t, ops[0], now);
      KeyRefines(cfg, Step(cfg, t, ops[0]).0, Remember(cfg, m, ops[0]).0, ops[1..], k, TimeOf(ops[0], now), i - 1);
    }
  }

  /** Without evictions, the limiter and the map that never forgets decide every run alike. */
  lemma LimiterRefines(cfg: Config, ops: seq<Op>, now: real)
    requires cfg.Valid() && cfg.OutlivesRefill() && Timed(ops, now)
    requires forall k :: Spares(cfg, EMPTY, ops, k)
    ensures Decisions(cfg, EMPTY, ops) == Remembered(cfg, map[], ops)
  {
    forall i | 0 <= i < |ops| ensures Decisions(cfg, EMPTY, ops)[i] == Remembered(cfg, map[], ops)[i] {
      KeyRefines(cfg, EMPTY, map[], ops, ops[i].key, now, i);
    }
  }

  // ---- over any window: the capacity, and what the window refills ----

  function Allowed(cfg: Config, t: Table, ops: seq<Op>, k: Key): nat
    requires cfg.Valid()
    decreases |ops|
  {
    if ops == [] then 0
    else
      (if ops[0].key == k && AllowsNow(Step(cfg, t, ops[0]).1) then 1
        else 0) + Allowed(cfg, Step(cfg, t, ops[0]).0, ops[1..], k)
  }

  predicate AllowsNow(d: Option<Decision>) {
    d.Some? && d.value.allowed
  }

  lemma Distribute(a: real, b: real, c: real)
    ensures (a + b) * c == a * c + b * c
  {
  }

  lemma LevelGrows(cfg: Config, b: Option<Bucket>, now: real, at: real)
    requires cfg.Valid() && Past(b, now) && now <= at
    ensures Level(cfg, b, at) <= Level(cfg, b, now) + (at - now) * cfg.rate
  {
    GainAdds(0.0, at - now, cfg.rate);
    if b.Some? {
      var before, since := now - b.value.updatedAt, at - now;
      assert Level(cfg, b, now) == Min(cfg.capacity as real, b.value.tokens + Gain(before, cfg.rate));
      assert Level(cfg, b, at) == Min(cfg.capacity as real, b.value.tokens + Gain(before + since, cfg.rate));
      GainAdds(before, since, cfg.rate);
      CappedGrows(cfg.capacity as real, b.value.tokens, Gain(before, cfg.rate), since * cfg.rate);
    }
  }

  lemma GainAdds(before: real, since: real, rate: real)
    requires since >= 0.0 && rate > 0.0
    ensures Gain(before + since, rate) == Gain(before, rate) + since * rate && since * rate >= 0.0
  {
    Distribute(before, since, rate);
    Scale(0.0, since, rate);
  }

  lemma CappedGrows(cap: real, tokens: real, gain: real, more: real)
    requires more >= 0.0
    ensures Min(cap, tokens + (gain + more)) <= Min(cap, tokens + gain) + more
  {
  }

  lemma LevelAfterSpent(cfg: Config, b: Option<Bucket>, now: real)
    requires cfg.Valid() && Past(b, now)
    ensures Level(cfg, Some(Spent(cfg, b, now)), now) ==
      Level(cfg, b, now) - (if Level(cfg, b, now) >= 1.0 then 1.0 else 0.0)
  {
    SpentPast(cfg, b, now);
  }

  lemma LevelIsWithin(cfg: Config, b: Option<Bucket>, now: real)
    requires cfg.Valid() && Past(b, now)
    ensures 0.0 <= Level(cfg, b, now) <= cfg.capacity as real
  {
    if b.Some? { Scale(0.0, Max(0.0, now - b.value.updatedAt), cfg.rate); }
  }

  lemma BucketsArePast(cfg: Config, t: Table, k: Key, now: real)
    requires WellFormed(cfg, t) && InOrder(t, now)
    ensures Past(Get(t.buckets, k), now)
  {
    assert k in t.buckets ==> k in t.order;
  }

  /** An attempt leaves the key's own prepared bucket spent, and every other key's as it was. */
  lemma StepBucket(cfg: Config, t: Table, x: Key, at: real, k: Key)
    requires cfg.Valid()
    ensures var (t', d) := Consume(cfg, t, x, at);
      var b := Get(Prepared(cfg, t, x, at).buckets, k);
      if x == k then Get(t'.buckets, k) == Some(Spent(cfg, b, at)) && d == Decide(cfg, Level(cfg, b, at))
        else Get(t'.buckets, k) == b
  {
  }

  /** Between two times a level grew by at most the refill, less what was allowed. */
  ghost predicate Grew(before: real, after: real, allowed: bool, elapsed: real, rate: real) {
    after + (if allowed then 1.0 else 0.0) <= before + elapsed * rate
  }

  lemma SpentGrew(cfg: Config, old': Option<Bucket>, b: Option<Bucket>, now: real, at: real)
    requires cfg.Valid() && Past(old', now) && Past(b, at) && now <= at && Level(cfg, old', at) == Level(cfg, b, at)
    ensures Grew(Level(cfg, old', now), Level(cfg, Some(Spent(cfg, b, at)), at),
      Decide(cfg, Level(cfg, b, at)).allowed, at - now, cfg.rate)
    ensures Grew(Level(cfg, old', now), Level(cfg, b, at), false, at - now, cfg.rate)
  {
    LevelGrows(cfg, old', now, at);
    LevelAfterSpent(cfg, b, at);
  }

  lemma WindowAttempt(cfg: Config, t: Table, x: Key, at: real, k: Key, now: real)
    requires cfg.Valid() && cfg.OutlivesRefill() && WellFormed(cfg, t) && InOrder(t, now) && now <= at
    requires StepSpares(cfg, t, Attempt(x, at), k)
    ensures Grew(Level(cfg, Get(t.buckets, k), now), Level(cfg, Get(Consume(cfg, t, x, at).0.buckets, k), at),
                 x == k && Consume(cfg, t, x, at).1.allowed, at - now, cfg.rate)
  {
    var b := Get(Prepared(cfg, t, x, at).buckets, k);
    BucketsArePast(cfg, t, k, now);
    PreparedAgrees(cfg, t, x, k, at);
    assert Level(cfg, Get(t.buckets, k), at) == Level(cfg, b, at);
    PreparedKeepsOrder(cfg, t, x, at);
    BucketsArePast(cfg, Prepared(cfg, t, x, at), k, at);
    StepBucket(cfg, t, x, at, k);
    SpentGrew(cfg, Get(t.buckets, k), b, now, at);
  }

  lemma WindowStep(cfg: Config, t: Table, op: Op, k: Key, now: real)
    requires cfg.Valid() && cfg.OutlivesRefill() && WellFormed(cfg, t) && InOrder(t, now) && now <= TimeOf(op, now)
    requires StepSpares(cfg, t, op, k) && op != Reset(k)
    ensures Grew(Level(cfg, Get(t.buckets, k), now), Level(cfg, Get(Step(cfg, t, op).0.buckets, k), TimeOf(op, now)),
                 op.key == k && AllowsNow(Step(cfg, t, op).1), TimeOf(op, now) - now, cfg.rate)
  {
    match op
    case Reset(x) => assert Get(Drop(t, x).buckets, k) == Get(t.buckets, k);
    case Attempt(x, at) => WindowAttempt(cfg, t, x, at, k, now);
  }

  /** What a window allows is covered by what the key holds at its start and what the window refills. */
  ghost predicate WithinWindow(allowed: nat, level: real, elapsed: real, rate: real) {
    allowed as real <= level + elapsed * rate
  }

  lemma WindowAdds(allowed: bool, rest: nat, level: real, between: real, now: real, at: real, end: real, rate: real)
    requires Grew(level, between, allowed, at - now, rate) && WithinWindow(rest, between, end - at, rate)
    ensures WithinWindow((if allowed then 1 else 0) + rest, level, end - now, rate)
  {
    Distribute(at - now, end - at, rate);
  }

  lemma WindowOfNothing(cfg: Config, t: Table, k: Key, now: real)
    requires cfg.Valid() && WellFormed(cfg, t) && InOrder(t, now)
    ensures WithinWindow(0, Level(cfg, Get(t.buckets, k), now), 0.0, cfg.rate)
  {
    BucketsArePast(cfg, t, k, now);
    LevelIsWithin(cfg, Get(t.buckets, k), now);
  }

  /** What a run asks of its start, its first step hands to the rest. */
  lemma WindowRest(cfg: Config, t: Table, ops: seq<Op>, k: Key, now: real)
    requires cfg.Valid() && WellFormed(cfg, t) && InOrder(t, now) && ops != [] && Timed(ops, now)
    requires Spares(cfg, t, ops, k) && Reset(k) !in ops
    ensures var t', at := Step(cfg, t, ops[0]).0, TimeOf(ops[0], now);
      && WellFormed(cfg, t') && InOrder(t', at) && Timed(ops[1..], at) && now <= at
      && Spares(cfg, t', ops[1..], k) && Reset(k) !in ops[1..] && ops[0] != Reset(k) && StepSpares(cfg, t, ops[0], k)
  {
    StepKeeps(cfg, t, ops[0], now);
  }

  /** A key that is neither reset nor evicted is allowed at most what it holds and what the window refills. */
  lemma {:induction false} WindowBound(cfg: Config, t: Table, ops: seq<Op>, k: Key, now: real)
    requires cfg.Valid() && cfg.OutlivesRefill() && WellFormed(cfg, t) && InOrder(t, now) && Timed(ops, now)
    requires Spares(cfg, t, ops, k) && Reset(k) !in ops
    ensures WithinWindow(Allowed(cfg, t, ops, k), Level(cfg, Get(t.buckets, k), now), EndTime(ops, now) - now, cfg.rate)
    decreases |ops|
  {
    if ops == [] {
      WindowOfNothing(cfg, t, k, now);
    } else {
      WindowRest(cfg, t, ops, k, now);
      WindowBound(cfg, Step(cfg, t, ops[0]).0, ops[1..], k, TimeOf(ops[0], now));
      WindowTurn(cfg, t, ops, k, now);
    }
  }

  lemma WindowTurn(cfg: Config, t: Table, ops: seq<Op>, k: Key, now: real)
    requires cfg.Valid() && cfg.OutlivesRefill() && WellFormed(cfg, t) && InOrder(t, now)
    requires ops != [] && now <= TimeOf(ops[0], now) && StepSpares(cfg, t, ops[0], k) && ops[0] != Reset(k)
    requires var at := TimeOf(ops[0], now);
      var t' := Step(cfg, t, ops[0]).0;
      WithinWindow(Allowed(cfg, t', ops[1..], k), Level(cfg, Get(t'.buckets, k), at), EndTime(ops[1..], at) - at,
        cfg.rate)
    ensures WithinWindow(Allowed(cfg, t, ops, k), Level(cfg, Get(t.buckets, k), now), EndTime(ops, now) - now, cfg.rate)
  {
    WindowStep(cfg, t, ops[0], k, now);
    WindowFirst(cfg, t, ops, k, now, Level(cfg, Get(t.buckets, k), now),
                Level(cfg, Get(Step(cfg, t, ops[0]).0.buckets, k), TimeOf(ops[0], now)));
  }

  lemma WindowFirst(cfg: Config, t: Table, ops: seq<Op>, k: Key, now: real, level: real, between: real)
    requires cfg.Valid() && ops != []
    requires Grew(level, between, ops[0].key == k
      && AllowsNow(Step(cfg, t, ops[0]).1), TimeOf(ops[0], now) - now, cfg.rate)
    requires var at := TimeOf(ops[0], now);
      WithinWindow(Allowed(cfg, Step(cfg, t, ops[0]).0, ops[1..], k), between, EndTime(ops[1..], at) - at, cfg.rate)
    ensures WithinWindow(Allowed(cfg, t, ops, k), level, EndTime(ops, now) - now, cfg.rate)
  {
    var at := TimeOf(ops[0], now);
    WindowAdds(ops[0].key == k && AllowsNow(Step(cfg, t, ops[0]).1), Allowed(cfg, Step(cfg, t, ops[0]).0, ops[1..], k),
               level, between, now, at, EndTime(ops[1..], at), cfg.rate);
  }

  /** From any state at all: the capacity plus the refill rate times the time elapsed. */
  lemma WindowBoundedByCapacity(cfg: Config, t: Table, ops: seq<Op>, k: Key, now: real)
    requires cfg.Valid() && cfg.OutlivesRefill() && WellFormed(cfg, t) && InOrder(t, now) && Timed(ops, now)
    requires Spares(cfg, t, ops, k) && Reset(k) !in ops
    ensures WithinWindow(Allowed(cfg, t, ops, k), cfg.capacity as real, EndTime(ops, now) - now, cfg.rate)
  {
    WindowBound(cfg, t, ops, k, now);
    BucketsArePast(cfg, t, k, now);
    LevelIsWithin(cfg, Get(t.buckets, k), now);
    FullerAtStart(Allowed(cfg, t, ops, k), Level(cfg, Get(t.buckets, k), now), cfg.capacity as real,
      EndTime(ops, now) - now, cfg.rate);
  }

  lemma FullerAtStart(allowed: nat, level: real, full: real, elapsed: real, rate: real)
    requires WithinWindow(allowed, level, elapsed, rate) && level <= full
    ensures WithinWindow(allowed, full, elapsed, rate)
  {
  }

  // ---- the retry hint ----

  /** From `from` on, an attempt on the key would be allowed. */
  ghost predicate OpenFrom(cfg: Config, b: Option<Bucket>, from: real)
    requires cfg.Valid()
  {
    forall x :: x >= from ==> Level(cfg, b, x) >= 1.0
  }

  /** Waiting this long refills what a level lacks of one token. */
  ghost predicate Refills(level: real, seconds: real, rate: real) {
    1.0 - level <= seconds * rate
  }

  /** The hint is the first whole number of seconds that refills what is missing. */
  lemma HintRefills(cfg: Config, level: real, s: int)
    requires cfg.Valid() && level < 1.0 && 1 <= s
    ensures Refills(level, s as real, cfg.rate) <==> Decide(cfg, level).retryAfter <= s
  {
    var wait := (1.0 - level) / cfg.rate;
    Quotient(1.0 - level, cfg.rate);
    if wait <= s as real {
      Scale(wait, s as real, cfg.rate);
    } else {
      ScaleStrictly(s as real, wait, cfg.rate);
    }
  }

  lemma LongerRefills(level: real, a: real, b: real, rate: real)
    requires Refills(level, a, rate) && a <= b && rate > 0.0
    ensures Refills(level, b, rate)
  {
    Scale(a, b, rate);
  }

  /** After a refusal, the key is open once what was missing has been refilled, and not before. */
  lemma RefusedUntilRefilled(cfg: Config, b: Option<Bucket>, now: real, later: real)
    requires cfg.Valid() && Past(b, now) && Level(cfg, b, now) < 1.0 && now <= later
    ensures Level(cfg, Some(Spent(cfg, b, now)), later) >= 1.0 <==> Refills(Level(cfg, b, now), later - now, cfg.rate)
  {
  }

  lemma HintOpens(cfg: Config, b: Option<Bucket>, now: real)
    requires cfg.Valid() && Past(b, now) && Level(cfg, b, now) < 1.0
    ensures OpenFrom(cfg, Some(Spent(cfg, b, now)), now + Decide(cfg, Level(cfg, b, now)).retryAfter as real)
  {
    var level, hint := Level(cfg, b, now), Decide(cfg, Level(cfg, b, now)).retryAfter;
    HintRefills(cfg, level, hint);
    forall x | x >= now + hint as real ensures Level(cfg, Some(Spent(cfg, b, now)), x) >= 1.0 {
      LongerRefills(level, hint as real, x - now, cfg.rate);
      RefusedUntilRefilled(cfg, b, now, x);
    }
  }

  lemma RefusalKeepsOpen(cfg: Config, b: Option<Bucket>, now: real, from: real)
    requires cfg.Valid() && Past(b, now) && Level(cfg, b, now) < 1.0 && OpenFrom(cfg, b, from)
    ensures OpenFrom(cfg, Some(Spent(cfg, b, now)), Max(from, now))
  {
    forall x | x >= Max(from, now) ensures Level(cfg, Some(Spent(cfg, b, now)), x) >= 1.0 {
      RefusalChangesNothing(cfg, b, now, x);
    }
  }

  lemma RefusalChangesNothing(cfg: Config, b: Option<Bucket>, now: real, x: real)
    requires cfg.Valid() && Past(b, now) && Level(cfg, b, now) < 1.0 && now <= x
    ensures Level(cfg, Some(Spent(cfg, b, now)), x) == Level(cfg, b, x)
  {
    Distribute(now - b.value.updatedAt, x - now, cfg.rate);
  }

  lemma PreparedBucket(cfg: Config, t: Table, x: Key, at: real, k: Key)
    requires cfg.Valid() && WellFormed(cfg, t) && InOrder(t, at)
    ensures Get(Prepared(cfg, t, x, at).buckets, k) == None
      || Get(Prepared(cfg, t, x, at).buckets, k) == Get(t.buckets, k)
    ensures Past(Get(Prepared(cfg, t, x, at).buckets, k), at)
  {
    ExpiresAllIdle(cfg, t, at);
    PreparedKeepsOrder(cfg, t, x, at);
    BucketsArePast(cfg, Prepared(cfg, t, x, at), k, at);
  }

  /** Other keys' attempts, expiry, eviction, resets and refused attempts do not postpone the opening. */
  lemma OpeningStays(cfg: Config, t: Table, op: Op, k: Key, now: real, from: real)
    requires cfg.Valid() && WellFormed(cfg, t) && InOrder(t, now) && now <= TimeOf(op, now)
    requires OpenFrom(cfg, Get(t.buckets, k), from)
    requires op.key == k ==> !AllowsNow(Step(cfg, t, op).1)
    ensures OpenFrom(cfg, Get(Step(cfg, t, op).0.buckets, k), Max(from, TimeOf(op, now)))
  {
    match op
    case Reset(_) =>
    case Attempt(x, at) =>
      PreparedBucket(cfg, t, x, at, k);
      StepBucket(cfg, t, x, at, k);
      var b := Get(Prepared(cfg, t, x, at).buckets, k);
      assert OpenFrom(cfg, b, from);
      if x == k { RefusalKeepsOpen(cfg, b, at, from); }
  }

  /** After a refusal with hint r, the key is allowed again by r seconds later, whatever else happens in between. */
  lemma {:induction false} HintIsSufficient(cfg: Config, t: Table, ops: seq<Op>, k: Key, now: real, from: real,
                                            at: real)
    requires cfg.Valid() && WellFormed(cfg, t) && InOrder(t, now) && Timed(ops, now)
    requires OpenFrom(cfg, Get(t.buckets, k), from) && Allowed(cfg, t, ops, k) == 0
    requires EndTime(ops, now) <= at && from <= at
    ensures Consume(cfg, After(cfg, t, ops), k, at).1.allowed
    decreases |ops|
  {
    if ops == [] {
      ExpiresAllIdle(cfg, t, at);
    } else {
      StepKeeps(cfg, t, ops[0], now);
      OpeningStays(cfg, t, ops[0], k, now, from);
      EndIsLater(ops[1..], TimeOf(ops[0], now));
      HintIsSufficient(cfg, Step(cfg, t, ops[0]).0, ops[1..], k, TimeOf(ops[0], now), Max(from, TimeOf(ops[0], now)),
        at);
    }
  }

  lemma {:induction false} EndIsLater(ops: seq<Op>, now: real)
    requires Timed(ops, now)
    ensures now <= EndTime(ops, now)
  {
    if ops != [] { EndIsLater(ops[1..], TimeOf(ops[0], now)); }
  }

  lemma RetryHintIsSufficient(cfg: Config, t: Table, k: Key, now: real, ops: seq<Op>, at: real)
    requires cfg.Valid() && WellFormed(cfg, t) && InOrder(t, now)
    requires var (t', d) := Consume(cfg, t, k, now); !d.allowed && now + d.retryAfter as real <= at
    requires Timed(ops, now) && EndTime(ops, now) <= at
    ensures var t' := Step(cfg, t, Attempt(k, now)).0;
      WellFormed(cfg, t') && (Allowed(cfg, t', ops, k) == 0 ==> Consume(cfg, After(cfg, t', ops), k, at).1.allowed)
  {
    var p := Prepared(cfg, t, k, now);
    PreparedKeepsOrder(cfg, t, k, now);
    BucketsArePast(cfg, p, k, now);
    ConsumeKeepsOrder(cfg, t, k, now, now);
    HintOpens(cfg, Get(p.buckets, k), now);
    var t', d := Consume(cfg, t, k, now).0, Consume(cfg, t, k, now).1;
    if Allowed(cfg, t', ops, k) == 0 {
      HintIsSufficient(cfg, t', ops, k, now, now + d.retryAfter as real, at);
    }
  }

  /** At every earlier whole second a retained bucket still refuses; one that has expired meanwhile allows. */
  lemma RetryHintIsTight(cfg: Config, t: Table, k: Key, now: real, s: nat)
    requires cfg.Valid() && WellFormed(cfg, t) && InOrder(t, now)
    requires !Consume(cfg, t, k, now).1.allowed && s < Consume(cfg, t, k, now).1.retryAfter
    ensures WellFormed(cfg, Consume(cfg, t, k, now).0)
    ensures Consume(cfg, Consume(cfg, t, k, now).0, k, now + s as real).1.allowed <==> cfg.ttl <= s as real
  {
    var b := Get(Prepared(cfg, t, k, now).buckets, k);
    PreparedKeepsOrder(cfg, t, k, now);
    BucketsArePast(cfg, Prepared(cfg, t, k, now), k, now);
    ConsumeKeepsOrder(cfg, t, k, now, now);
    StepBucket(cfg, t, k, now, k);
    SpentNow(cfg, b, now);
    RefusedStays(cfg, Consume(cfg, t, k, now).0, k, b, now, s);
  }

  lemma RefusedStays(cfg: Config, t: Table, k: Key, b: Option<Bucket>, now: real, s: nat)
    requires cfg.Valid() && WellFormed(cfg, t) && InOrder(t, now) && Past(b, now)
    requires Level(cfg, b, now) < 1.0 && s < Decide(cfg, Level(cfg, b, now)).retryAfter
    requires k in t.buckets && t.buckets[k] == Spent(cfg, b, now) && t.buckets[k].lastSeen == now
    ensures Consume(cfg, t, k, now + s as real).1.allowed <==> cfg.ttl <= s as real
  {
    StillShort(cfg, b, now, s);
    NextLevel(cfg, t, k, now, now + s as real);
  }

  lemma StillShort(cfg: Config, b: Option<Bucket>, now: real, s: nat)
    requires cfg.Valid() && Past(b, now) && Level(cfg, b, now) < 1.0 && s < Decide(cfg, Level(cfg, b, now)).retryAfter
    ensures Level(cfg, Some(Spent(cfg, b, now)), now + s as real) < 1.0
  {
    if s > 0 { HintRefills(cfg, Level(cfg, b, now), s); }
    RefusedUntilRefilled(cfg, b, now, now + s as real);
  }

  lemma SpentNow(cfg: Config, b: Option<Bucket>, now: real)
    requires cfg.Valid() && (b.Some? ==> b.value.updatedAt <= now && b.value.lastSeen == b.value.updatedAt)
    ensures Spent(cfg, b, now).lastSeen == now
  {
  }

  /** The next attempt on a key just seen finds its bucket, or none once it has been idle for the time to live. */
  lemma NextLevel(cfg: Config, t: Table, k: Key, now: real, later: real)
    requires cfg.Valid() && WellFormed(cfg, t) && InOrder(t, now) && now <= later
    requires k in t.buckets && t.buckets[k].lastSeen == now
    ensures Consume(cfg, t, k, later).1.allowed <==>
      cfg.ttl <= later - now || Level(cfg, Some(t.buckets[k]), later) >= 1.0
  {
    ExpiresAllIdle(cfg, t, later);
  }

  // ---- entries that do not live as long as the refill takes ----

  /** So many attempts on one key at one time. */
  function Burst(k: Key, at: real, n: nat): (ops: seq<Op>)
    ensures |ops| == n && forall i :: 0 <= i < n ==> ops[i] == Attempt(k, at)
  {
    seq(n, _ => Attempt(k, at))
  }

  ghost predicate AllAllowed(ds: seq<Option<Decision>>) {
    forall i :: 0 <= i < |ds| ==> AllowsNow(ds[i])
  }

  function MapAfter(cfg: Config, m: map<Key, Bucket>, ops: seq<Op>): map<Key, Bucket>
    requires cfg.Valid()
    decreases |ops|
  {
    if ops == [] then m else MapAfter(cfg, Remember(cfg, m, ops[0]).0, ops[1..])
  }

  lemma {:induction false} RememberedSplits(cfg: Config, m: map<Key, Bucket>, a: seq<Op>, b: seq<Op>)
    requires cfg.Valid()
    ensures Remembered(cfg, m, a + b) == Remembered(cfg, m, a) + Remembered(cfg, MapAfter(cfg, m, a), b)
    decreases |a|
  {
    if a == [] {
      assert a + b == b;
    } else {
      RememberedSplits(cfg, Remember(cfg, m, a[0]).0, a[1..], b);
      assert (a + b)[0] == a[0] && (a + b)[1..] == a[1..] + b;
    }
  }

  /** A run of two parts: the decisions of the first, then those of the second where the first ended. */
  lemma {:induction false} DecisionsSplit(cfg: Config, t: Table, a: seq<Op>, b: seq<Op>)
    requires cfg.Valid()
    ensures Decisions(cfg, t, a + b) == Decisions(cfg, t, a) + Decisions(cfg, After(cfg, t, a), b)
    decreases |a|
  {
    if a == [] {
      assert a + b == b;
    } else {
      DecisionsSplit(cfg, Step(cfg, t, a[0]).0, a[1..], b);
      assert (a + b)[0] == a[0] && (a + b)[1..] == a[1..] + b;
    }
  }

  /** The map that never forgets allows a burst of n only when the key holds n, and takes n from it. */
  lemma {:induction false} BurstTakes(cfg: Config, m: map<Key, Bucket>, k: Key, at: real, n: nat)
    requires cfg.Valid() && Past(Get(m, k), at) && AllAllowed(Remembered(cfg, m, Burst(k, at, n)))
    ensures Past(Get(MapAfter(cfg, m, Burst(k, at, n)), k), at)
    ensures 0.0 <= Level(cfg, Get(MapAfter(cfg, m, Burst(k, at, n)), k), at) == Level(cfg, Get(m, k), at) - n as real
    decreases n
  {
    if n == 0 {
      LevelIsWithin(cfg, Get(m, k), at);
    } else {
      var ops := Burst(k, at, n);
      var m', d := Remember(cfg, m, ops[0]).0, Remember(cfg, m, ops[0]).1;
      assert ops[1..] == Burst(k, at, n - 1);
      var ds := Remembered(cfg, m, ops);
      assert ds == [d] + Remembered(cfg, m', ops[1..]);
      assert AllowsNow(ds[0]);
      assert forall i :: 0 <= i < n - 1 ==> Remembered(cfg, m', ops[1..])[i] == ds[i + 1];
      LevelAfterSpent(cfg, Get(m, k), at);
      SpentPast(cfg, Get(m, k), at);
      BurstTakes(cfg, m', k, at, n - 1);
    }
  }

  /** The table holds at most the one key, and after expiry that key holds at least n. */
  ghost predicate HoldsOnly(cfg: Config, t: Table, k: Key, at: real, n: int) {
    && cfg.Valid() && WellFormed(cfg, t) && InOrder(t, at)
    && (t.order == [] || t.order == [k])
    && Level(cfg, Get(Expire(cfg, t, at).buckets, k), at) >= n as real
  }

  ghost predicate JustSeen(t: Table, k: Key, at: real) {
    t.order == [k] && k in t.buckets && t.buckets[k].lastSeen == at
  }

  lemma AllAllowedCons(d: Option<Decision>, ds: seq<Option<Decision>>)
    requires AllowsNow(d) && AllAllowed(ds)
    ensures AllAllowed([d] + ds)
  {
  }

  lemma BurstCons(k: Key, at: real, n: nat)
    requires n > 0
    ensures Burst(k, at, n) == [Attempt(k, at)] + Burst(k, at, n - 1)
  {
  }

  lemma RunCons(cfg: Config, t: Table, op: Op, rest: seq<Op>)
    requires cfg.Valid()
    ensures Decisions(cfg, t, [op] + rest) == [Step(cfg, t, op).1] + Decisions(cfg, Step(cfg, t, op).0, rest)
    ensures After(cfg, t, [op] + rest) == After(cfg, Step(cfg, t, op).0, rest)
  {
    assert ([op] + rest)[0] == op && ([op] + rest)[1..] == rest;
  }

  /** The limiter, holding at most the one key, allows a burst of all that the key holds after expiry. */
  lemma {:induction false} BurstIsGiven(cfg: Config, t: Table, k: Key, at: real, n: nat)
    requires HoldsOnly(cfg, t, k, at, n)
    ensures AllAllowed(Decisions(cfg, t, Burst(k, at, n)))
    decreases n
  {
    if n > 0 {
      var t' := OneAttempt(cfg, t, k, at, n);
      BurstIsGiven(cfg, t', k, at, n - 1);
      BurstCons(k, at, n);
      RunCons(cfg, t, Attempt(k, at), Burst(k, at, n - 1));
      AllAllowedCons(Step(cfg, t, Attempt(k, at)).1, Decisions(cfg, t', Burst(k, at, n - 1)));
    }
  }

  /** And leaves nothing but the key, just seen. */
  lemma {:induction false} BurstLeaves(cfg: Config, t: Table, k: Key, at: real, n: nat)
    requires HoldsOnly(cfg, t, k, at, n) && n > 0
    ensures HoldsOnly(cfg, After(cfg, t, Burst(k, at, n)), k, at, 0) && JustSeen(After(cfg, t, Burst(k, at, n)), k, at)
    decreases n
  {
    var t' := OneAttempt(cfg, t, k, at, n);
    BurstCons(k, at, n);
    RunCons(cfg, t, Attempt(k, at), Burst(k, at, n - 1));
    if n > 1 { BurstLeaves(cfg, t', k, at, n - 1); }
  }

  lemma OneAttempt(cfg: Config, t: Table, k: Key, at: real, n: nat) returns (t': Table)
    requires HoldsOnly(cfg, t, k, at, n) && n > 0
    ensures t' == Step(cfg, t, Attempt(k, at)).0 && AllowsNow(Step(cfg, t, Attempt(k, at)).1)
    ensures HoldsOnly(cfg, t', k, at, n - 1) && JustSeen(t', k, at)
  {
    t' := Step(cfg, t, Attempt(k, at)).0;
    var b := OnlyBucket(cfg, t, k, at, n);
    LevelAfterSpent(cfg, b, at);
    ConsumeKeepsOrder(cfg, t, k, at, at);
    ExpiresAllIdle(cfg, t', at);
  }

  /** A table of one key: an attempt spends from the bucket that its expiry leaves, and nothing else is in the table. */
  lemma OnlyBucket(cfg: Config, t: Table, k: Key, at: real, n: nat) returns (b: Option<Bucket>)
    requires HoldsOnly(cfg, t, k, at, n)
    ensures Past(b, at) && Level(cfg, b, at) >= n as real
    ensures var (t', d) := Step(cfg, t, Attempt(k, at));
      Get(t'.buckets, k) == Some(Spent(cfg, b, at)) && d == Some(Decide(cfg, Level(cfg, b, at))) && JustSeen(t', k, at)
  {
    var e := Expire(cfg, t, at);
    ExpireKeepsOrder(cfg, t, at);
    ExpiresAllIdle(cfg, t, at);
    OnlyKey(cfg, e, k);
    assert Prepared(cfg, t, k, at) == e;
    b := Get(e.buckets, k);
    BucketsArePast(cfg, e, k, at);
    StepBucket(cfg, t, k, at, k);
    SpentNow(cfg, b, at);
  }

  lemma OnlyKey(cfg: Config, t: Table, k: Key)
    requires cfg.Valid() && WellFormed(cfg, t) && forall x :: x in t.buckets ==> x == k
    ensures t.order == [] || t.order == [k]
    ensures !Evicts(cfg, t, k) && Without(t.order, k) == []
  {
    assert |t.order| <= 1 || t.order[0] != t.order[1];
    forall i | 0 <= i < |t.order| ensures t.order[i] == k {
      assert t.order[i] in t.buckets;
    }
    assert Without([k], k) == Without([], k);
  }

  /** After the time to live the key holds a whole capacity again. */
  lemma ExpiredIsFull(cfg: Config, t: Table, k: Key, at: real)
    requires HoldsOnly(cfg, t, k, at, 0) && JustSeen(t, k, at)
    ensures HoldsOnly(cfg, t, k, at + cfg.ttl, cfg.capacity)
  {
    ExpiresAllIdle(cfg, t, at + cfg.ttl);
  }

  lemma BurstsAreGiven(cfg: Config, k: Key)
    requires cfg.Valid()
    ensures AllAllowed(Decisions(cfg, EMPTY, Burst(k, 0.0, cfg.capacity) + Burst(k, cfg.ttl, cfg.capacity)))
  {
    var a, b := Burst(k, 0.0, cfg.capacity), Burst(k, cfg.ttl, cfg.capacity);
    DecisionsSplit(cfg, EMPTY, a, b);
    BurstIsGiven(cfg, EMPTY, k, 0.0, cfg.capacity);
    BurstLeaves(cfg, EMPTY, k, 0.0, cfg.capacity);
    ExpiredIsFull(cfg, After(cfg, EMPTY, a), k, 0.0);
    BurstIsGiven(cfg, After(cfg, EMPTY, a), k, cfg.ttl, cfg.capacity);
  }

  lemma {:induction false} BurstsAreRefused(cfg: Config, k: Key)
    requires cfg.Valid() && !cfg.OutlivesRefill()
    ensures !AllAllowed(Remembered(cfg, map[], Burst(k, 0.0, cfg.capacity) + Burst(k, cfg.ttl, cfg.capacity)))
  {
    var a, b := Burst(k, 0.0, cfg.capacity), Burst(k, cfg.ttl, cfg.capacity);
    RememberedSplits(cfg, map[], a, b);
    var whole, m := Remembered(cfg, map[], a + b), MapAfter(cfg, map[], a);
    if AllAllowed(whole) {
      assert forall i :: 0 <= i < |a| ==> Remembered(cfg, map[], a)[i] == whole[i];
      assert forall i :: 0 <= i < |b| ==> Remembered(cfg, m, b)[i] == whole[|a| + i];
      BurstTakes(cfg, map[], k, 0.0, cfg.capacity);
      LevelGrows(cfg, Get(m, k), 0.0, cfg.ttl);
      BurstTakes(cfg, m, k, cfg.ttl, cfg.capacity);
    }
  }

  /**
   * When entries do not live as long as the refill takes, the limiter forgets: after one burst and the time to live it
   * allows a second whole burst, and the map that never forgets does not. The clock is in order and nothing is evicted.
   */
  lemma ShortLivedEntriesForget(cfg: Config, k: Key)
    requires cfg.Valid() && !cfg.OutlivesRefill()
    ensures var ops := Burst(k, 0.0, cfg.capacity) + Burst(k, cfg.ttl, cfg.capacity);
      AllAllowed(Decisions(cfg, EMPTY, ops)) && !AllAllowed(Remembered(cfg, map[], ops))
  {
    BurstsAreGiven(cfg, k);
    BurstsAreRefused(cfg, k);
  }

  ghost predicate OnlyAttempts(ops: seq<Op>, k: Key) {
    forall i :: 0 <= i < |ops| ==> ops[i].Attempt? && ops[i].key == k
  }

  /** A run on one key evicts nothing. */
  lemma {:induction false} OneKeySpares(cfg: Config, t: Table, ops: seq<Op>, k: Key, x: Key)
    requires cfg.Valid() && WellFormed(cfg, t) && (forall y :: y in t.buckets ==> y == k) && OnlyAttempts(ops, k)
    ensures Spares(cfg, t, ops, x)
    decreases |ops|
  {
    if ops != [] {
      var e := Expire(cfg, t, ops[0].at);
      ExpireKeeps(cfg, t, ops[0].at);
      ExpireShrinks(cfg, t, ops[0].at);
      OnlyKey(cfg, e, k);
      assert Prepared(cfg, t, k, ops[0].at) == e;
      OneKeySpares(cfg, Step(cfg, t, ops[0]).0, ops[1..], k, x);
    }
  }

  lemma {:induction false} ExpireShrinks(cfg: Config, t: Table, now: real)
    requires WellFormed(cfg, t)
    ensures forall x :: x in Expire(cfg, t, now).buckets ==> x in t.buckets
    decreases |t.order|
  {
    if t.order != [] && !(now - t.buckets[t.order[0]].lastSeen < cfg.ttl) {
      TailKeeps(cfg, t);
      ExpireShrinks(cfg, Table(t.order[1..], t.buckets - {t.order[0]}), now);
    }
  }

  lemma {:induction false} BurstsAreTimed(k: Key, at: real, n: nat, later: real, m: nat)
    requires at <= later
    ensures Timed(Burst(k, at, n) + Burst(k, later, m), at)
    decreases n, m
  {
    var ops := Burst(k, at, n) + Burst(k, later, m);
    if n > 0 {
      assert ops[0] == Attempt(k, at) && ops[1..] == Burst(k, at, n - 1) + Burst(k, later, m);
      BurstsAreTimed(k, at, n - 1, later, m);
    } else if m > 0 {
      assert ops[0] == Attempt(k, later) && ops[1..] == Burst(k, later, 0) + Burst(k, later, m - 1);
      BurstsAreTimed(k, later, 0, later, m - 1);
    }
  }

  /** On every run without evictions the limiter decides as the map that never forgets. */
  ghost predicate NeverForgets(cfg: Config)
    requires cfg.Valid()
  {
    forall ops: seq<Op>, now: real :: Timed(ops, now) && (forall k :: Spares(cfg, EMPTY, ops, k)) ==>
      Decisions(cfg, EMPTY, ops) == Remembered(cfg, map[], ops)
  }

  /** It does exactly when entries outlive the refill of a whole capacity. */
  lemma NeverForgetsExactly(cfg: Config)
    requires cfg.Valid()
    ensures NeverForgets(cfg) <==> cfg.OutlivesRefill()
  {
    if cfg.OutlivesRefill() {
      forall ops: seq<Op>, now: real | Timed(ops, now) && forall k :: Spares(cfg, EMPTY, ops, k)
        ensures Decisions(cfg, EMPTY, ops) == Remembered(cfg, map[], ops)
      {
        LimiterRefines(cfg, ops, now);
      }
    } else {
      var ops := Burst(0, 0.0, cfg.capacity) + Burst(0, cfg.ttl, cfg.capacity);
      ShortLivedEntriesForget(cfg, 0);
      BurstsAreTimed(0, 0.0, cfg.capacity, cfg.ttl, cfg.capacity);
      forall x ensures Spares(cfg, EMPTY, ops, x) {
        OneKeySpares(cfg, EMPTY, ops, 0, x);
      }
    }
  }

  // ---- and exactly when windows are bounded ----

  /** Over any window a key that is neither reset nor evicted is allowed at most the capacity and the refill. */
  ghost predicate BoundsWindows(cfg: Config)
    requires cfg.Valid()
  {
    forall t, ops: seq<Op>, k, now: real ::
      WellFormed(cfg, t) && InOrder(t, now) && Timed(ops, now) && Spares(cfg, t, ops, k) && Reset(k) !in ops ==>
        WithinWindow(Allowed(cfg, t, ops, k), cfg.capacity as real, EndTime(ops, now) - now, cfg.rate)
  }

  lemma {:induction false} AllowedAll(cfg: Config, t: Table, ops: seq<Op>, k: Key)
    requires cfg.Valid() && OnlyAttempts(ops, k) && AllAllowed(Decisions(cfg, t, ops))
    ensures Allowed(cfg, t, ops, k) == |ops|
    decreases |ops|
  {
    if ops != [] {
      var (t', d) := Step(cfg, t, ops[0]);
      var rest := Decisions(cfg, t', ops[1..]);
      assert Decisions(cfg, t, ops) == [d] + rest;
      assert AllowsNow(([d] + rest)[0]);
      forall i | 0 <= i < |rest| ensures AllowsNow(rest[i]) { assert rest[i] == ([d] + rest)[i + 1]; }
      AllowedAll(cfg, t', ops[1..], k);
    }
  }

  lemma {:induction false} EndOfBursts(k: Key, at: real, n: nat, later: real, m: nat, now: real)
    requires m > 0
    ensures EndTime(Burst(k, at, n) + Burst(k, later, m), now) == later
    decreases n, m
  {
    var ops := Burst(k, at, n) + Burst(k, later, m);
    if n > 0 {
      assert ops[0] == Attempt(k, at) && ops[1..] == Burst(k, at, n - 1) + Burst(k, later, m);
      EndOfBursts(k, at, n - 1, later, m, at);
    } else {
      assert ops[0] == Attempt(k, later) && ops[1..] == Burst(k, later, 0) + Burst(k, later, m - 1);
      if m > 1 { EndOfBursts(k, later, 0, later, m - 1, later); }
    }
  }

  /** Two whole bursts, a time to live apart, are more than the capacity and what is refilled in between. */
  lemma TwoBurstsExceed(cfg: Config, k: Key)
    requires cfg.Valid() && !cfg.OutlivesRefill()
    ensures var ops := Burst(k, 0.0, cfg.capacity) + Burst(k, cfg.ttl, cfg.capacity);
      && Timed(ops, 0.0) && Spares(cfg, EMPTY, ops, k) && Reset(k) !in ops
      && Allowed(cfg, EMPTY, ops, k) == 2 * cfg.capacity
      && !WithinWindow(Allowed(cfg, EMPTY, ops, k), cfg.capacity as real, EndTime(ops, 0.0) - 0.0, cfg.rate)
  {
    var ops := Burst(k, 0.0, cfg.capacity) + Burst(k, cfg.ttl, cfg.capacity);
    BurstsAreTimed(k, 0.0, cfg.capacity, cfg.ttl, cfg.capacity);
    OneKeySpares(cfg, EMPTY, ops, k, k);
    BurstsAreGiven(cfg, k);
    AllowedAll(cfg, EMPTY, ops, k);
    EndOfBursts(k, 0.0, cfg.capacity, cfg.ttl, cfg.capacity, 0.0);
  }

  /** The bound holds from every table, for every run and key, exactly when entries outlive a refill. */
  lemma WindowsBoundedExactly(cfg: Config)
    requires cfg.Valid()
    ensures BoundsWindows(cfg) <==> cfg.OutlivesRefill()
  {
    if cfg.OutlivesRefill() {
      forall t, ops: seq<Op>, k, now: real
        | WellFormed(cfg, t) && InOrder(t, now) && Timed(ops, now) && Spares(cfg, t, ops, k) && Reset(k) !in ops
        ensures WithinWindow(Allowed(cfg, t, ops, k), cfg.capacity as real, EndTime(ops, now) - now, cfg.rate)
      {
        WindowBoundedByCapacity(cfg, t, ops, k, now);
      }
    } else {
      TwoBurstsExceed(cfg, 0);
    }
  }

  /** The repository's own setting: five attempts refilled in a minute, entries kept for ten. */
  lemma PasswordLimitsNeverForget(maxEntries: nat)
    requires maxEntries >= 1
    ensures NeverForgets(Config(5, 5.0 / 60.0, 600.0, maxEntries))
  {
    NeverForgetsExactly(Config(5, 5.0 / 60.0, 600.0, maxEntries));
  }
}
