/**
 A token bucket per key, with idle buckets evicted now and then. Floating-point numbers are modelled
 as reals, and each request carries the clock readings its handling makes, in seconds.
 */
module RateLimiter {

  const CLEANUP_AGE: real := 300.0

  datatype Config = Config(burst: real, rate: real)

  datatype Bucket = Bucket(tokens: real, last: real)

  datatype State = State(buckets: map<string, Bucket>, lastCleanup: real)

  /** The readings for the cleanup check, its threshold, its end, a new bucket, and the refill. */
  datatype Call = Call(key: string, check: real, sweep: real, swept: real, create: real, take: real)

  /** What a bucket gains in a stretch of time. */
  function Gain(rate: real, elapsed: real): real { elapsed * rate }

  function Refilled(cfg: Config, b: Bucket, now: real): real {
    var tokens := b.tokens + Gain(cfg.rate, now - b.last);
    if tokens > cfg.burst then cfg.burst else tokens
  }

  function Take(cfg: Config, b: Bucket, now: real): (Bucket, bool) {
    var tokens := Refilled(cfg, b, now);
    if tokens >= 1.0 then (Bucket(tokens - 1.0, now), true) else (Bucket(tokens, now), false)
  }

  function Swept(s: State, sweep: real, swept: real): State {
    State(map k | k in s.buckets && s.buckets[k].last >= sweep - CLEANUP_AGE :: s.buckets[k], swept)
  }

  /** Sweep if it is time; `evict` switches the sweeping on. */
  function Due(s: State, c: Call, evict: bool): State {
    if evict && c.check - s.lastCleanup > CLEANUP_AGE then Swept(s, c.sweep, c.swept) else s
  }

  /** Sweep if it is time, then make sure the key has a bucket. */
  function Present(cfg: Config, s: State, c: Call, evict: bool): (s': State)
    ensures c.key in s'.buckets
  {
    var t := Due(s, c, evict);
    if c.key in t.buckets then t else t.(buckets := t.buckets[c.key := Bucket(cfg.burst, c.create)])
  }

  /** Handling one request. */
  function Allow(cfg: Config, s: State, c: Call, evict: bool): (State, bool) {
    var t := Present(cfg, s, c, evict);
    var (b, ok) := Take(cfg, t.buckets[c.key], c.take);
    (t.(buckets := t.buckets[c.key := b]), ok)
  }

  class TokenBucket {
    var tokens: real
    var maxTokens: real
    var refillRate: real
    var lastRefill: real

    constructor (cfg: Config, now: real)
      ensures tokens == maxTokens == cfg.burst && refillRate == cfg.rate && lastRefill == now
    {
      tokens := cfg.burst;
      maxTokens := cfg.burst;
      refillRate := cfg.rate;
      lastRefill := now;
    }

    ghost function Value(): Bucket
      reads this
    {
      Bucket(tokens, lastRefill)
    }

    ghost predicate For(cfg: Config)
      reads this
    {
      maxTokens == cfg.burst && refillRate == cfg.rate
    }

    method Allow(now: real) returns (ok: bool)
      modifies this
      ensures maxTokens == old(maxTokens) && refillRate == old(refillRate)
      ensures (Value(), ok) == Take(Config(maxTokens, refillRate), old(Value()), now)
    {
      hide Gain;
      var elapsed := now - lastRefill;
      tokens := tokens + Gain(refillRate, elapsed);
      if tokens > maxTokens {
        tokens := maxTokens;
      }
      lastRefill := now;
      if tokens >= 1.0 {
        tokens := tokens - 1.0;
        return true;
      }
      ok := false;
    }
  }

  class Limiter {
    var buckets: map<string, TokenBucket>
    const cfg: Config
    var lastCleanup: real

    /** Different keys have different buckets, all made for this configuration. */
    ghost predicate Valid()
      reads this, buckets.Values
    {
      && (forall k :: k in buckets ==> buckets[k].For(cfg))
      && (forall k, l :: k in buckets && l in buckets && k != l ==> buckets[k] != buckets[l])
    }

    ghost function Contents(): map<string, Bucket>
      reads this, buckets.Values
    {
      map k | k in buckets :: buckets[k].Value()
    }

    constructor (cfg: Config, now: real)
      ensures Valid() && this.cfg == cfg && Contents() == map[] && lastCleanup == now
      ensures buckets == map[]
    {
      this.cfg := cfg;
      buckets := map[];
      lastCleanup := now;
    }

    method Cleanup(sweep: real, swept: real)
      modifies this
      ensures lastCleanup == swept
      ensures buckets == map k | k in old(buckets) && old(buckets)[k].lastRefill >= sweep - CLEANUP_AGE :: old(buckets)[k]
    {
      var threshold := sweep - CLEANUP_AGE;
      var todo := buckets.Keys;
      while todo != {}
        invariant todo <= buckets.Keys <= old(buckets).Keys
        invariant forall k :: k in buckets ==> buckets[k] == old(buckets)[k]
        invariant forall k :: k in old(buckets) && k !in todo ==>
          (k in buckets <==> old(buckets)[k].lastRefill >= threshold)
        decreases todo
      {
        var key :| key in todo;
        todo := todo - {key};
        if buckets[key].lastRefill < threshold {
          buckets := buckets - {key};
        }
      }
      lastCleanup := swept;
    }

    method CleanupIfDue(c: Call)
      requires Valid()
      modifies this
      ensures Valid() && buckets.Values <= old(buckets.Values)
      ensures State(Contents(), lastCleanup) == Due(State(old(Contents()), old(lastCleanup)), c, true)
    {
      if c.check - lastCleanup > CLEANUP_AGE {
        Cleanup(c.sweep, c.swept);
        forall b | b in buckets.Values ensures b in old(buckets.Values) {
          var k :| k in buckets && buckets[k] == b;
          assert k in old(buckets) && old(buckets)[k] == b;
        }
      }
    }

    method BucketFor(c: Call) returns (bucket: TokenBucket)
      requires Valid()
      modifies this
      ensures Valid() && fresh(buckets.Values - old(buckets.Values))
      ensures c.key in buckets && buckets[c.key] == bucket
      ensures State(Contents(), lastCleanup) == Present(cfg, State(old(Contents()), old(lastCleanup)), c, true)
    {
      hide Due;
      CleanupIfDue(c);
      ghost var s := Contents();
      if c.key !in buckets {
        bucket := new TokenBucket(cfg, c.create);
        buckets := buckets[c.key := bucket];
        assert Contents() == s[c.key := Bucket(cfg.burst, c.create)];
      } else {
        bucket := buckets[c.key];
      }
    }

    method AllowKey(c: Call) returns (ok: bool)
      requires Valid()
      modifies this, buckets.Values
      ensures Valid() && fresh(buckets.Values - old(buckets.Values))
      ensures (State(Contents(), lastCleanup), ok) == Allow(cfg, State(old(Contents()), old(lastCleanup)), c, true)
    {
      hide Present, Take;
      var bucket := BucketFor(c);
      ghost var s := State(Contents(), lastCleanup);
      ok := bucket.Allow(c.take);
      assert Contents() == s.buckets[c.key := bucket.Value()];
    }
  }

  // ---------- Runs ----------

  /** Readings only move forward, within a request and from one to the next. */
  predicate InOrder(from: real, calls: seq<Call>) {
    calls == []
    || (var c := calls[|calls| - 1];
        && InOrder(from, calls[..|calls| - 1])
        && Now(from, calls[..|calls| - 1]) <= c.check <= c.sweep <= c.swept <= c.create <= c.take)
  }

  function Now(from: real, calls: seq<Call>): real {
    if calls == [] then from else calls[|calls| - 1].take
  }

  function Serve(cfg: Config, s: State, calls: seq<Call>, evict: bool): State {
    if calls == [] then s
    else Allow(cfg, Serve(cfg, s, calls[..|calls| - 1], evict), calls[|calls| - 1], evict).0
  }

  /** The answer to the last call. */
  function LastAnswer(cfg: Config, s: State, calls: seq<Call>, evict: bool): bool
    requires calls != []
  {
    Allow(cfg, Serve(cfg, s, calls[..|calls| - 1], evict), calls[|calls| - 1], evict).1
  }

  function Answers(cfg: Config, s: State, calls: seq<Call>, evict: bool): seq<bool> {
    if calls == [] then []
    else Answers(cfg, s, calls[..|calls| - 1], evict) + [LastAnswer(cfg, s, calls, evict)]
  }

  /** How many of a key's calls are let through. */
  function Granted(cfg: Config, s: State, calls: seq<Call>, evict: bool, key: string): nat {
    if calls == [] then 0
    else
      Granted(cfg, s, calls[..|calls| - 1], evict, key) +
      if calls[|calls| - 1].key == key && LastAnswer(cfg, s, calls, evict) then 1 else 0
  }

  function Empty(start: real): State { State(map[], start) }

  // ---------- Evicting and never evicting ----------

  lemma GainGrows(rate: real, a: real, b: real)
    requires rate >= 0.0 && a <= b
    ensures Gain(rate, a) <= Gain(rate, b)
    ensures Gain(rate, b) == Gain(rate, a) + Gain(rate, b - a)
    ensures Gain(rate, 0.0) == 0.0 && Gain(rate, b - a) >= 0.0
  {
    var d := b - a;
    NonNegative(rate, d);
    assert b * rate == (a + d) * rate == a * rate + d * rate;
  }

  lemma NonNegative(x: real, y: real)
    requires x >= 0.0 && y >= 0.0
    ensures y * x >= 0.0
  {
  }

  /** A bucket holds between nothing and the burst; with a negative burst it holds exactly that. */
  predicate Sane(cfg: Config, b: Bucket, now: real) {
    b.last <= now && (0.0 <= b.tokens <= cfg.burst || b.tokens == cfg.burst)
  }

  /** For one key: the same bucket on both sides, or one evicted that would be full again by now. */
  predicate Alike(cfg: Config, e: State, k: State, key: string, now: real) {
    if key in k.buckets then
      && Sane(cfg, k.buckets[key], now)
      && (if key in e.buckets then e.buckets[key] == k.buckets[key] else Refilled(cfg, k.buckets[key], now) == cfg.burst)
    else key !in e.buckets
  }

  lemma FullStaysFull(cfg: Config, b: Bucket, now: real, later: real)
    requires cfg.rate >= 0.0 && b.last <= now <= later && Refilled(cfg, b, now) == cfg.burst
    ensures Refilled(cfg, b, later) == cfg.burst
  {
    GainGrows(cfg.rate, now - b.last, later - b.last);
    hide Gain;
  }

  lemma AlikeLater(cfg: Config, e: State, k: State, key: string, now: real, later: real)
    requires cfg.rate >= 0.0 && now <= later && Alike(cfg, e, k, key, now)
    ensures Alike(cfg, e, k, key, later)
  {
    hide Refilled;
    if key in k.buckets && key !in e.buckets {
      FullStaysFull(cfg, k.buckets[key], now, later);
    }
  }

  /** The condition under which an idle bucket is full by the time it may be evicted. */
  predicate RefillsInTime(cfg: Config) { cfg.rate >= 0.0 && cfg.rate * CLEANUP_AGE >= cfg.burst }

  lemma IdleIsFull(cfg: Config, b: Bucket, sweep: real)
    requires RefillsInTime(cfg) && Sane(cfg, b, sweep) && b.last < sweep - CLEANUP_AGE
    ensures Refilled(cfg, b, sweep) == cfg.burst
  {
    GainGrows(cfg.rate, CLEANUP_AGE, sweep - b.last);
    assert Gain(cfg.rate, CLEANUP_AGE) == cfg.rate * CLEANUP_AGE;
    hide Gain;
  }

  lemma SweptAlike(cfg: Config, e: State, k: State, key: string, sweep: real, swept: real)
    requires RefillsInTime(cfg) && Alike(cfg, e, k, key, sweep)
    ensures Alike(cfg, Swept(e, sweep, swept), k, key, sweep)
  {
    hide Refilled, RefillsInTime;
    if key in e.buckets && e.buckets[key].last < sweep - CLEANUP_AGE {
      IdleIsFull(cfg, e.buckets[key], sweep);
    }
  }

  lemma DueAlike(cfg: Config, e: State, k: State, c: Call, key: string, now: real)
    requires RefillsInTime(cfg) && now <= c.check <= c.sweep <= c.swept <= c.create <= c.take
    requires Alike(cfg, e, k, key, now)
    ensures Alike(cfg, Due(e, c, true), k, key, c.take)
  {
    AlikeLater(cfg, e, k, key, now, c.sweep);
    SweptAlike(cfg, e, k, key, c.sweep, c.swept);
    hide Alike, Swept;
    AlikeLater(cfg, e, k, key, now, c.take);
    AlikeLater(cfg, Swept(e, c.sweep, c.swept), k, key, c.sweep, c.take);
  }

  /** A new bucket, and one that is full again, are taken from alike. */
  lemma NewIsFull(cfg: Config, created: real, now: real)
    requires cfg.rate >= 0.0 && created <= now
    ensures Refilled(cfg, Bucket(cfg.burst, created), now) == cfg.burst
  {
    GainGrows(cfg.rate, 0.0, now - created);
  }

  lemma TakeSane(cfg: Config, b: Bucket, now: real)
    requires cfg.rate >= 0.0 && Sane(cfg, b, now)
    ensures Sane(cfg, Take(cfg, b, now).0, now)
  {
    GainGrows(cfg.rate, 0.0, now - b.last);
    hide Gain;
  }

  lemma CallAlike(cfg: Config, e: State, k: State, c: Call, now: real)
    requires RefillsInTime(cfg) && now <= c.check <= c.sweep <= c.swept <= c.create <= c.take
    requires Alike(cfg, e, k, c.key, now)
    ensures Allow(cfg, e, c, true).1 == Allow(cfg, k, c, false).1
    ensures Alike(cfg, Allow(cfg, e, c, true).0, Allow(cfg, k, c, false).0, c.key, c.take)
  {
    DueAlike(cfg, e, k, c, c.key, now);
    NewIsFull(cfg, c.create, c.take);
    TakeSane(cfg, if c.key in k.buckets then k.buckets[c.key] else Bucket(cfg.burst, c.create), c.take);
    hide Refilled, Due, RefillsInTime;
    assert Due(k, c, false) == k by { NoSweep(k, c); }
  }

  lemma NoSweep(k: State, c: Call)
    ensures Due(k, c, false) == k
  {
  }

  lemma OtherAlike(cfg: Config, e: State, k: State, c: Call, key: string, now: real)
    requires RefillsInTime(cfg) && now <= c.check <= c.sweep <= c.swept <= c.create <= c.take
    requires key != c.key && Alike(cfg, e, k, key, now)
    ensures Alike(cfg, Allow(cfg, e, c, true).0, Allow(cfg, k, c, false).0, key, c.take)
  {
    DueAlike(cfg, e, k, c, key, now);
    NoSweep(k, c);
    hide Refilled, Due, Take, RefillsInTime;
  }

  ghost predicate AllAlike(cfg: Config, e: State, k: State, now: real) {
    forall key :: Alike(cfg, e, k, key, now)
  }

  /** From alike states, evicting and never evicting give the same answers and stay alike. */
  lemma {:induction false} RunsAlike(cfg: Config, e: State, k: State, from: real, calls: seq<Call>, key: string)
    requires RefillsInTime(cfg) && AllAlike(cfg, e, k, from) && InOrder(from, calls)
    ensures AllAlike(cfg, Serve(cfg, e, calls, true), Serve(cfg, k, calls, false), Now(from, calls))
    ensures Answers(cfg, e, calls, true) == Answers(cfg, k, calls, false)
    ensures Granted(cfg, e, calls, true, key) == Granted(cfg, k, calls, false, key)
  {
    hide RefillsInTime, Alike, Allow;
    if calls != [] {
      var before, c := calls[..|calls| - 1], calls[|calls| - 1];
      RunsAlike(cfg, e, k, from, before, key);
      var e', k' := Serve(cfg, e, before, true), Serve(cfg, k, before, false);
      CallAlike(cfg, e', k', c, Now(from, before));
      forall other ensures Alike(cfg, Serve(cfg, e, calls, true), Serve(cfg, k, calls, false), other, c.take) {
        if other != c.key {
          OtherAlike(cfg, e', k', c, other, Now(from, before));
        }
      }
    }
  }

  /** Eviction is invisible: a limiter that sweeps idle buckets answers every run as one that never does. */
  lemma EvictionInvisible(cfg: Config, start: real, calls: seq<Call>)
    requires RefillsInTime(cfg) && InOrder(start, calls)
    ensures Answers(cfg, Empty(start), calls, true) == Answers(cfg, Empty(start), calls, false)
  {
    RunsAlike(cfg, Empty(start), Empty(start), start, calls, "");
  }

  // ---------- How many requests a window lets through ----------

  /** A key's bucket, if it has one, has paid for what was granted since `from`. */
  predicate Paid(cfg: Config, s: State, key: string, granted: nat, from: real, now: real) {
    if key in s.buckets then
      && Sane(cfg, s.buckets[key], now)
      && granted as real + Refilled(cfg, s.buckets[key], now) <= cfg.burst + Gain(cfg.rate, now - from)
    else granted == 0
  }

  lemma RefilledLater(cfg: Config, b: Bucket, now: real, later: real)
    requires cfg.rate >= 0.0 && b.last <= now <= later
    ensures Refilled(cfg, b, now) <= Refilled(cfg, b, later) <= Refilled(cfg, b, now) + Gain(cfg.rate, later - now)
  {
    GainGrows(cfg.rate, now - b.last, later - b.last);
    assert later - b.last - (now - b.last) == later - now;
    hide Gain;
  }

  lemma PaidLater(cfg: Config, s: State, key: string, granted: nat, from: real, now: real, later: real)
    requires cfg.rate >= 0.0 && from <= now <= later && Paid(cfg, s, key, granted, from, now)
    ensures Paid(cfg, s, key, granted, from, later)
  {
    if key in s.buckets {
      RefilledLater(cfg, s.buckets[key], now, later);
      GainGrows(cfg.rate, now - from, later - from);
      assert later - from - (now - from) == later - now;
    }
    hide Gain, Refilled;
  }

  lemma TakePays(cfg: Config, b: Bucket, now: real)
    requires Sane(cfg, b, now) && cfg.rate >= 0.0
    ensures var (b', ok) := Take(cfg, b, now);
      Refilled(cfg, b', now) == Refilled(cfg, b, now) - if ok then 1.0 else 0.0
  {
    GainGrows(cfg.rate, 0.0, now - b.last);
    GainGrows(cfg.rate, 0.0, 0.0);
    hide Gain;
  }

  lemma CallPaid(cfg: Config, s: State, c: Call, key: string, granted: nat, from: real, now: real)
    requires cfg.rate >= 0.0 && from <= now <= c.check <= c.sweep <= c.swept <= c.create <= c.take
    requires Paid(cfg, s, key, granted, from, now)
    ensures var (s', ok) := Allow(cfg, s, c, false);
      Paid(cfg, s', key, granted + if c.key == key && ok then 1 else 0, from, c.take)
  {
    PaidLater(cfg, s, key, granted, from, now, c.take);
    NoSweep(s, c);
    NewIsFull(cfg, c.create, c.take);
    GainGrows(cfg.rate, 0.0, c.take - from);
    if c.key == key {
      var b := if key in s.buckets then s.buckets[key] else Bucket(cfg.burst, c.create);
      TakeSane(cfg, b, c.take);
      TakePays(cfg, b, c.take);
    }
    hide Gain, Refilled, Due;
  }

  lemma {:induction false} RunPaid(cfg: Config, s: State, from: real, calls: seq<Call>, key: string)
    requires cfg.rate >= 0.0 && Paid(cfg, s, key, 0, from, from) && InOrder(from, calls)
    ensures from <= Now(from, calls)
    ensures Paid(cfg, Serve(cfg, s, calls, false), key, Granted(cfg, s, calls, false, key), from, Now(from, calls))
  {
    hide Paid, Allow;
    if calls != [] {
      var before := calls[..|calls| - 1];
      RunPaid(cfg, s, from, before, key);
      var granted := Granted(cfg, s, before, false, key);
      CallPaid(cfg, Serve(cfg, s, before, false), calls[|calls| - 1], key, granted, from, Now(from, before));
    }
  }

  /**
   In any stretch of a run, from `from` to its last call, a key gets at most the burst and what the rate
   yields in that time, whatever came before.
   */
  lemma WindowBound(cfg: Config, start: real, before: seq<Call>, from: real, calls: seq<Call>, key: string)
    requires cfg.rate >= 0.0 && cfg.burst >= 0.0 && RefillsInTime(cfg)
    requires InOrder(start, before) && Now(start, before) <= from && InOrder(from, calls)
    ensures Granted(cfg, Serve(cfg, Empty(start), before, true), calls, true, key) as real
         <= cfg.burst + Gain(cfg.rate, Now(from, calls) - from)
  {
    var e, k := Serve(cfg, Empty(start), before, true), Serve(cfg, Empty(start), before, false);
    RunsAlike(cfg, Empty(start), Empty(start), start, before, key);
    forall other ensures Alike(cfg, e, k, other, from) {
      AlikeLater(cfg, e, k, other, Now(start, before), from);
    }
    RunsAlike(cfg, e, k, from, calls, key);
    KeptWindow(cfg, e, k, from, calls, key);
  }

  lemma PaidBound(cfg: Config, s: State, key: string, granted: nat, from: real, now: real)
    requires cfg.rate >= 0.0 && cfg.burst >= 0.0 && from <= now && Paid(cfg, s, key, granted, from, now)
    ensures granted as real <= cfg.burst + Gain(cfg.rate, now - from)
  {
    GainGrows(cfg.rate, 0.0, now - from);
    if key in s.buckets {
      GainGrows(cfg.rate, 0.0, now - s.buckets[key].last);
    }
    hide Gain;
  }

  lemma NothingPaidYet(cfg: Config, e: State, k: State, key: string, from: real)
    requires Alike(cfg, e, k, key, from)
    ensures Paid(cfg, k, key, 0, from, from)
  {
    assert Gain(cfg.rate, from - from) == 0.0;
    hide Gain;
  }

  lemma KeptWindow(cfg: Config, e: State, k: State, from: real, calls: seq<Call>, key: string)
    requires cfg.rate >= 0.0 && cfg.burst >= 0.0 && Alike(cfg, e, k, key, from) && InOrder(from, calls)
    ensures Granted(cfg, k, calls, false, key) as real <= cfg.burst + Gain(cfg.rate, Now(from, calls) - from)
  {
    NothingPaidYet(cfg, e, k, key, from);
    RunPaid(cfg, k, from, calls, key);
    hide Granted, Serve, Paid, Gain;
    PaidBound(cfg, Serve(cfg, k, calls, false), key, Granted(cfg, k, calls, false, key), from, Now(from, calls));
  }

  // ---------- When eviction shows ----------

  /** A request on the one key whose handling takes no time. */
  function At(t: real): Call { Call("k", t, t, t, t, t) }

  lemma {:induction false} AnswersConcat(cfg: Config, s: State, a: seq<Call>, b: seq<Call>, evict: bool)
    ensures Serve(cfg, s, a + b, evict) == Serve(cfg, Serve(cfg, s, a, evict), b, evict)
    ensures Answers(cfg, s, a + b, evict) == Answers(cfg, s, a, evict) + Answers(cfg, Serve(cfg, s, a, evict), b, evict)
    ensures |Answers(cfg, s, a, evict)| == |a|
  {
    hide Allow;
    if b == [] {
      assert a + b == a;
      if a != [] {
        AnswersConcat(cfg, s, a[..|a| - 1], [], evict);
      }
    } else {
      AnswersConcat(cfg, s, a, b[..|b| - 1], evict);
      assert (a + b)[..|a + b| - 1] == a + b[..|b| - 1];
    }
  }

  lemma {:induction false} InOrderConcat(from: real, a: seq<Call>, b: seq<Call>)
    requires InOrder(from, a) && InOrder(Now(from, a), b)
    ensures InOrder(from, a + b) && Now(from, a + b) == Now(Now(from, a), b)
  {
    if b == [] {
      assert a + b == a;
    } else {
      InOrderConcat(from, a, b[..|b| - 1]);
      assert (a + b)[..|a + b| - 1] == a + b[..|b| - 1];
    }
  }

  /** The two limiters, in these states at this time, answer these calls differently. */
  ghost predicate Tells(cfg: Config, e: State, k: State, t: real, calls: seq<Call>) {
    InOrder(t, calls) && Answers(cfg, e, calls, true) != Answers(cfg, k, calls, false)
  }

  lemma ServeOne(cfg: Config, s: State, c: Call, evict: bool)
    ensures Serve(cfg, s, [c], evict) == Allow(cfg, s, c, evict).0
    ensures Answers(cfg, s, [c], evict) == [Allow(cfg, s, c, evict).1]
  {
    hide Allow;
    var calls := [c];
    assert calls[..|calls| - 1] == [];
    assert Answers(cfg, s, [], evict) == [] && [] + [Allow(cfg, s, c, evict).1] == [Allow(cfg, s, c, evict).1];
  }

  predicate Instants(t: real, c: Call) { t <= c.check <= c.sweep <= c.swept <= c.create <= c.take }

  lemma OneInOrder(t: real, c: Call)
    requires Instants(t, c)
    ensures InOrder(t, [c]) && Now(t, [c]) == c.take
  {
    var calls := [c];
    assert calls[..|calls| - 1] == [] && InOrder(t, []) && Now(t, []) == t;
  }

  lemma TellsNow(cfg: Config, e: State, k: State, t: real, c: Call)
    requires Instants(t, c) && Allow(cfg, e, c, true).1 != Allow(cfg, k, c, false).1
    ensures Tells(cfg, e, k, t, [c])
  {
    hide Allow;
    ServeOne(cfg, e, c, true);
    ServeOne(cfg, k, c, false);
    OneInOrder(t, c);
    hide Serve, Answers, InOrder;
    assert [Allow(cfg, e, c, true).1][0] != [Allow(cfg, k, c, false).1][0];
  }

  lemma DifferentTails(a: bool, b: bool, x: seq<bool>, y: seq<bool>)
    requires x != y
    ensures [a] + x != [b] + y
  {
    assert ([a] + x)[1..] == x && ([b] + y)[1..] == y;
  }

  lemma TellsLater(cfg: Config, e: State, k: State, t: real, c: Call, rest: seq<Call>)
    requires Instants(t, c) && Tells(cfg, Allow(cfg, e, c, true).0, Allow(cfg, k, c, false).0, c.take, rest)
    ensures Tells(cfg, e, k, t, [c] + rest)
  {
    hide Allow;
    ServeOne(cfg, e, c, true);
    ServeOne(cfg, k, c, false);
    OneInOrder(t, c);
    InOrderConcat(t, [c], rest);
    AnswersConcat(cfg, e, [c], rest, true);
    AnswersConcat(cfg, k, [c], rest, false);
    hide Serve, Answers, InOrder;
    DifferentTails(Allow(cfg, e, c, true).1, Allow(cfg, k, c, false).1,
      Answers(cfg, Allow(cfg, e, c, true).0, rest, true), Answers(cfg, Allow(cfg, k, c, false).0, rest, false));
  }

  /** One key, one bucket. */
  function Only(tokens: real, last: real, lastCleanup: real): State { State(map["k" := Bucket(tokens, last)], lastCleanup) }

  /** A call on the only bucket that no sweep removes. */
  lemma AllowOnly(cfg: Config, tokens: real, last: real, lastCleanup: real, t: real, evict: bool)
    requires !evict || t - lastCleanup <= CLEANUP_AGE
    ensures var v := Refilled(cfg, Bucket(tokens, last), t);
      Allow(cfg, Only(tokens, last, lastCleanup), At(t), evict)
      == if v >= 1.0 then (Only(v - 1.0, t, lastCleanup), true) else (Only(v, t, lastCleanup), false)
  {
    hide Refilled;
    var taken := Take(cfg, Bucket(tokens, last), t).0;
    assert map["k" := Bucket(tokens, last)]["k" := taken] == map["k" := taken];
  }

  /** A call that sweeps the only bucket away starts again from a full one. */
  lemma AllowSwept(cfg: Config, tokens: real, last: real, lastCleanup: real, t: real)
    requires cfg.burst >= 1.0 && cfg.rate >= 0.0 && t - lastCleanup > CLEANUP_AGE && last < t - CLEANUP_AGE
    ensures Allow(cfg, Only(tokens, last, lastCleanup), At(t), true) == (Only(cfg.burst - 1.0, t, t), true)
  {
    NewIsFull(cfg, t, t);
    hide Refilled;
    assert Swept(Only(tokens, last, lastCleanup), t, t).buckets == map[];
    assert map["k" := Bucket(cfg.burst, t)]["k" := Bucket(cfg.burst - 1.0, t)] == map["k" := Bucket(cfg.burst - 1.0, t)];
  }

  lemma RefilledNow(cfg: Config, tokens: real, t: real)
    requires tokens <= cfg.burst
    ensures Refilled(cfg, Bucket(tokens, t), t) == tokens
  {
    assert Gain(cfg.rate, t - t) == 0.0;
    hide Gain;
  }

  /** How long it takes to gain some tokens. */
  lemma GainIn(rate: real, tokens: real)
    requires rate > 0.0 && tokens > 0.0
    ensures tokens / rate > 0.0 && Gain(rate, tokens / rate) == tokens
  {
  }

  lemma GainStrict(rate: real, a: real, b: real)
    requires rate > 0.0 && a < b
    ensures Gain(rate, a) < Gain(rate, b)
  {
    var d := b - a;
    assert d * rate > 0.0;
    assert b * rate == (a + d) * rate == a * rate + d * rate;
  }

  /** Waiting until the fuller bucket has exactly one token. */
  lemma TellByWaiting(cfg: Config, x: real, y: real, t: real, lck: real) returns (calls: seq<Call>)
    requires cfg.burst >= 1.0 && cfg.rate > 0.0 && 0.0 <= y < x < 1.0
    ensures Tells(cfg, Only(x, t, t), Only(y, t, lck), t, calls)
  {
    var w := (1.0 - x) / cfg.rate;
    GainIn(cfg.rate, 1.0 - x);
    assert t + w - t == w;
    hide Gain;
    AllowOnly(cfg, y, t, lck, t + w, false);
    if w <= CLEANUP_AGE {
      AllowOnly(cfg, x, t, t, t + w, true);
    } else {
      AllowSwept(cfg, x, t, t, t + w);
    }
    hide Allow, Only;
    TellsNow(cfg, Only(x, t, t), Only(y, t, lck), t, At(t + w));
    calls := [At(t + w)];
  }

  /** A fuller bucket can be told from an emptier one. */
  lemma Tell(cfg: Config, x: real, y: real, t: real, lck: real) returns (calls: seq<Call>)
    requires cfg.burst >= 1.0 && cfg.rate >= 0.0 && 0.0 <= y < x <= cfg.burst
    requires cfg.rate > 0.0 || y < 1.0 <= x
    ensures Tells(cfg, Only(x, t, t), Only(y, t, lck), t, calls)
    decreases y.Floor
  {
    if x < 1.0 {
      calls := TellByWaiting(cfg, x, y, t, lck);
    } else {
      hide Refilled, Allow, Only, Tells;
      RefilledNow(cfg, x, t);
      RefilledNow(cfg, y, t);
      AllowOnly(cfg, x, t, t, t, true);
      AllowOnly(cfg, y, t, lck, t, false);
      if y >= 1.0 {
        var rest := Tell(cfg, x - 1.0, y - 1.0, t, lck);
        TellsLater(cfg, Only(x, t, t), Only(y, t, lck), t, At(t), rest);
        calls := [At(t)] + rest;
      } else {
        TellsNow(cfg, Only(x, t, t), Only(y, t, lck), t, At(t));
        calls := [At(t)];
      }
    }
  }

  /** A rest longer than the cleanup age that still leaves the bucket below a level. */
  lemma PickDelay(cfg: Config, f: real, level: real) returns (d: real)
    requires cfg.rate >= 0.0 && f + Gain(cfg.rate, CLEANUP_AGE) < level
    ensures d > CLEANUP_AGE && f + Gain(cfg.rate, d) < level
  {
    if cfg.rate == 0.0 {
      d := CLEANUP_AGE + 1.0;
    } else {
      var more := (level - f - Gain(cfg.rate, CLEANUP_AGE)) / 2.0;
      d := CLEANUP_AGE + more / cfg.rate;
      GainIn(cfg.rate, more);
      GainGrows(cfg.rate, CLEANUP_AGE, d);
      assert d - CLEANUP_AGE == more / cfg.rate;
      hide Gain;
    }
  }

  /** After a long rest the swept limiter grants a full burst; the other does not yet. */
  lemma AfterRest(cfg: Config, f: real, t: real, lc: real, d: real)
    requires cfg.burst >= 1.0 && cfg.rate >= 0.0 && lc <= t && 0.0 <= f
    requires d > CLEANUP_AGE && f + Gain(cfg.rate, d) < cfg.burst
    ensures Allow(cfg, Only(f, t, lc), At(t + d), true) == (Only(cfg.burst - 1.0, t + d, t + d), true)
    ensures var v := f + Gain(cfg.rate, d);
      Allow(cfg, Only(f, t, lc), At(t + d), false) ==
        if v >= 1.0 then (Only(v - 1.0, t + d, lc), true) else (Only(v, t + d, lc), false)
    ensures Gain(cfg.rate, d) >= 0.0 && (cfg.rate == 0.0 ==> Gain(cfg.rate, d) == 0.0)
  {
    GainGrows(cfg.rate, 0.0, d);
    assert t + d - t == d;
    if cfg.rate == 0.0 {
      assert Gain(cfg.rate, d) == 0.0;
    }
    hide Gain;
    AllowSwept(cfg, f, t, lc, t + d);
    AllowOnly(cfg, f, t, lc, t + d, false);
    hide Allow, Only;
  }

  lemma TellByResting(cfg: Config, f: real, t: real, lc: real) returns (calls: seq<Call>)
    requires cfg.burst >= 1.0 && cfg.rate >= 0.0 && lc <= t
    requires 0.0 <= f < 1.0 && f + Gain(cfg.rate, CLEANUP_AGE) < cfg.burst
    ensures Tells(cfg, Only(f, t, lc), Only(f, t, lc), t, calls)
  {
    hide Gain, Allow, Only, Tells;
    var d := PickDelay(cfg, f, cfg.burst);
    var v := f + Gain(cfg.rate, d);
    AfterRest(cfg, f, t, lc, d);
    if v >= 1.0 {
      var rest := Tell(cfg, cfg.burst - 1.0, v - 1.0, t + d, lc);
      TellsLater(cfg, Only(f, t, lc), Only(f, t, lc), t, At(t + d), rest);
      calls := [At(t + d)] + rest;
    } else {
      TellsNow(cfg, Only(f, t, lc), Only(f, t, lc), t, At(t + d));
      calls := [At(t + d)];
    }
  }

  /** If a drained bucket would refill while resting, first drain it to nothing. */
  lemma TellFromLevel(cfg: Config, f: real, t: real) returns (calls: seq<Call>)
    requires cfg.burst >= 1.0 && cfg.rate >= 0.0 && 0.0 <= f < 1.0 && Gain(cfg.rate, CLEANUP_AGE) < cfg.burst
    ensures Tells(cfg, Only(f, t, t), Only(f, t, t), t, calls)
  {
    if f + Gain(cfg.rate, CLEANUP_AGE) < cfg.burst {
      calls := TellByResting(cfg, f, t, t);
    } else {
      assert cfg.rate > 0.0 by {
        assert cfg.rate == 0.0 ==> Gain(cfg.rate, CLEANUP_AGE) == 0.0;
      }
      var w := (1.0 - f) / cfg.rate;
      GainIn(cfg.rate, 1.0 - f);
      if w > CLEANUP_AGE {
        GainStrict(cfg.rate, CLEANUP_AGE, w);
      }
      assert t + w - t == w;
      hide Gain;
      AllowOnly(cfg, f, t, t, t + w, true);
      AllowOnly(cfg, f, t, t, t + w, false);
      assert Refilled(cfg, Bucket(f, t), t + w) == 1.0;
      var rest := TellByResting(cfg, 0.0, t + w, t);
      hide Allow, Only, Tells, Refilled;
      TellsLater(cfg, Only(f, t, t), Only(f, t, t), t, At(t + w), rest);
      calls := [At(t + w)] + rest;
    }
  }

  function Repeated(c: Call, n: nat): seq<Call> { if n == 0 then [] else Repeated(c, n - 1) + [c] }

  /** Calls that come at once drain a new bucket one by one, with and without sweeping. */
  lemma {:induction false} Drained(cfg: Config, n: nat, start: real)
    requires 1 <= n && n as real <= cfg.burst && cfg.rate >= 0.0
    ensures var calls := Repeated(At(start), n);
      && InOrder(start, calls) && Now(start, calls) == start
      && Serve(cfg, Empty(start), calls, true) == Only(cfg.burst - n as real, start, start)
      && Serve(cfg, Empty(start), calls, false) == Only(cfg.burst - n as real, start, start)
      && Answers(cfg, Empty(start), calls, true) == Answers(cfg, Empty(start), calls, false)
  {
    var calls := Repeated(At(start), n);
    assert calls[..|calls| - 1] == Repeated(At(start), n - 1);
    if n == 1 {
      FirstCall(cfg, start);
      hide Allow;
      assert calls == [At(start)];
      ServeOne(cfg, Empty(start), At(start), true);
      ServeOne(cfg, Empty(start), At(start), false);
    } else {
      Drained(cfg, n - 1, start);
      RefilledNow(cfg, cfg.burst - (n - 1) as real, start);
      AllowOnly(cfg, cfg.burst - (n - 1) as real, start, start, start, true);
      AllowOnly(cfg, cfg.burst - (n - 1) as real, start, start, start, false);
      hide Allow, Refilled, Only;
    }
  }

  lemma FirstCall(cfg: Config, start: real)
    requires cfg.burst >= 1.0 && cfg.rate >= 0.0
    ensures Allow(cfg, Empty(start), At(start), true) == (Only(cfg.burst - 1.0, start, start), true)
    ensures Allow(cfg, Empty(start), At(start), false) == (Only(cfg.burst - 1.0, start, start), true)
  {
    NewIsFull(cfg, start, start);
    hide Refilled;
    var taken := Bucket(cfg.burst - 1.0, start);
    assert map["k" := Bucket(cfg.burst, start)]["k" := taken] == map["k" := taken];
  }

  /** If a bucket does not refill within the cleanup age, some run shows the eviction. */
  lemma EvictionShows(cfg: Config, start: real) returns (calls: seq<Call>)
    requires cfg.rate >= 0.0 && cfg.burst >= 1.0 && !RefillsInTime(cfg)
    ensures Tells(cfg, Empty(start), Empty(start), start, calls)
  {
    var n := cfg.burst.Floor;
    var f := cfg.burst - n as real;
    assert Gain(cfg.rate, CLEANUP_AGE) < cfg.burst;
    hide Gain;
    Drained(cfg, n, start);
    var rest := TellFromLevel(cfg, f, start);
    hide Only, Repeated;
    TellsAfterPrefix(cfg, start, Repeated(At(start), n), Only(f, start, start), start, rest);
    calls := Repeated(At(start), n) + rest;
  }

  lemma TellsAfterPrefix(cfg: Config, start: real, before: seq<Call>, s: State, t: real, rest: seq<Call>)
    requires InOrder(start, before) && Now(start, before) == t
    requires Serve(cfg, Empty(start), before, true) == s && Serve(cfg, Empty(start), before, false) == s
    requires Answers(cfg, Empty(start), before, true) == Answers(cfg, Empty(start), before, false)
    requires Tells(cfg, s, s, t, rest)
    ensures Tells(cfg, Empty(start), Empty(start), start, before + rest)
  {
    InOrderConcat(start, before, rest);
    AnswersConcat(cfg, Empty(start), before, rest, true);
    AnswersConcat(cfg, Empty(start), before, rest, false);
    hide Serve, Answers, InOrder;
    var same := Answers(cfg, Empty(start), before, true);
    var (x, y) := (Answers(cfg, s, rest, true), Answers(cfg, s, rest, false));
    assert (same + x)[|same|..] == x && (same + y)[|same|..] == y;
  }

  /** Less than one token is never enough. */
  lemma {:induction false} AllDenied(cfg: Config, s: State, calls: seq<Call>, evict: bool, key: string)
    requires cfg.burst < 1.0
    ensures Granted(cfg, s, calls, evict, key) == 0 && |Answers(cfg, s, calls, evict)| == |calls|
    ensures forall i :: 0 <= i < |calls| ==> !Answers(cfg, s, calls, evict)[i]
  {
    if calls != [] {
      AllDenied(cfg, s, calls[..|calls| - 1], evict, key);
      hide Gain, Present;
    }
  }

  /** Eviction is invisible exactly when a bucket refills within the cleanup age or never holds a whole token. */
  lemma InvisibleIff(cfg: Config, start: real)
    requires cfg.rate >= 0.0
    ensures cfg.burst < 1.0 || RefillsInTime(cfg) <==>
      forall calls :: InOrder(start, calls) ==>
        Answers(cfg, Empty(start), calls, true) == Answers(cfg, Empty(start), calls, false)
  {
    hide Allow, Refilled;
    if cfg.burst < 1.0 || RefillsInTime(cfg) {
      forall calls | InOrder(start, calls)
        ensures Answers(cfg, Empty(start), calls, true) == Answers(cfg, Empty(start), calls, false)
      {
        if cfg.burst < 1.0 {
          AllDenied(cfg, Empty(start), calls, true, "k");
          AllDenied(cfg, Empty(start), calls, false, "k");
        } else {
          EvictionInvisible(cfg, start, calls);
        }
      }
    } else {
      var calls := EvictionShows(cfg, start);
      assert InOrder(start, calls) && Answers(cfg, Empty(start), calls, true) != Answers(cfg, Empty(start), calls, false);
    }
  }

  // ---------- When the bound fails ----------

  /** The bound on one stretch of a run: what a key gets from `from` to the last of the calls. */
  ghost predicate WithinBound(cfg: Config, start: real, before: seq<Call>, from: real, calls: seq<Call>, key: string) {
    InOrder(start, before) && Now(start, before) <= from && InOrder(from, calls) ==>
      Granted(cfg, Serve(cfg, Empty(start), before, true), calls, true, key) as real
        <= cfg.burst + Gain(cfg.rate, Now(from, calls) - from)
  }

  lemma {:induction false} GrantedConcat(cfg: Config, s: State, a: seq<Call>, b: seq<Call>, evict: bool, key: string)
    ensures Granted(cfg, s, a + b, evict, key)
         == Granted(cfg, s, a, evict, key) + Granted(cfg, Serve(cfg, s, a, evict), b, evict, key)
  {
    hide Allow;
    if b == [] {
      assert a + b == a;
    } else {
      GrantedConcat(cfg, s, a, b[..|b| - 1], evict, key);
      AnswersConcat(cfg, s, a, b[..|b| - 1], evict);
      assert (a + b)[..|a + b| - 1] == a + b[..|b| - 1];
    }
  }

  /** From this state and time, the evicting limiter grants so many of these calls and ends in that state and time. */
  ghost predicate Goes(cfg: Config, s: State, t: real, calls: seq<Call>, s': State, t': real, granted: nat) {
    && InOrder(t, calls) && Now(t, calls) == t'
    && Serve(cfg, s, calls, true) == s' && Granted(cfg, s, calls, true, "k") == granted
  }

  lemma GoesOn(cfg: Config, s: State, t: real, a: seq<Call>, s1: State, t1: real, n1: nat,
               b: seq<Call>, s2: State, t2: real, n2: nat)
    requires Goes(cfg, s, t, a, s1, t1, n1) && Goes(cfg, s1, t1, b, s2, t2, n2)
    ensures Goes(cfg, s, t, a + b, s2, t2, n1 + n2)
  {
    InOrderConcat(t, a, b);
    AnswersConcat(cfg, s, a, b, true);
    GrantedConcat(cfg, s, a, b, true, "k");
    hide InOrder, Serve, Granted;
  }

  lemma GoesOne(cfg: Config, s: State, t: real, t': real, s': State, ok: bool)
    requires t <= t' && Allow(cfg, s, At(t'), true) == (s', ok)
    ensures Goes(cfg, s, t, [At(t')], s', t', if ok then 1 else 0)
  {
    hide Allow;
    var calls := [At(t')];
    ServeOne(cfg, s, At(t'), true);
    OneInOrder(t, At(t'));
    assert calls[..|calls| - 1] == [] && Granted(cfg, s, [], true, "k") == 0;
  }

  /** Calls that come at once take the only bucket's tokens one by one. */
  lemma {:induction false} DrainOnly(cfg: Config, n: nat, x: real, t: real)
    requires n as real <= x <= cfg.burst
    ensures Goes(cfg, Only(x, t, t), t, Repeated(At(t), n), Only(x - n as real, t, t), t, n)
  {
    if n > 0 {
      DrainOnly(cfg, n - 1, x, t);
      RefilledNow(cfg, x - (n - 1) as real, t);
      AllowOnly(cfg, x - (n - 1) as real, t, t, t, true);
      hide Refilled, Allow, Only, Goes;
      GoesOne(cfg, Only(x - (n - 1) as real, t, t), t, t, Only(x - n as real, t, t), true);
      GoesOn(cfg, Only(x, t, t), t, Repeated(At(t), n - 1), Only(x - (n - 1) as real, t, t), t, n - 1,
        [At(t)], Only(x - n as real, t, t), t, 1);
    }
  }

  /** As many calls at once as a full bucket has whole tokens. */
  function Burst(cfg: Config, t: real): seq<Call>
    requires cfg.burst >= 1.0
  {
    [At(t)] + Repeated(At(t), cfg.burst.Floor - 1)
  }

  function Rest(cfg: Config): real { cfg.burst - cfg.burst.Floor as real }

  /** Where a call meets a new bucket, a whole burst is granted. */
  lemma BurstGoes(cfg: Config, s: State, t: real, t': real)
    requires cfg.burst >= 1.0 && t <= t' && Allow(cfg, s, At(t'), true) == (Only(cfg.burst - 1.0, t', t'), true)
    ensures Goes(cfg, s, t, Burst(cfg, t'), Only(Rest(cfg), t', t'), t', cfg.burst.Floor)
  {
    var n := cfg.burst.Floor;
    assert n >= 1 && cfg.burst - 1.0 - (n - 1) as real == Rest(cfg);
    DrainOnly(cfg, n - 1, cfg.burst - 1.0, t');
    hide Allow, Only, Goes;
    GoesOne(cfg, s, t, t', Only(cfg.burst - 1.0, t', t'), true);
    GoesOn(cfg, s, t, [At(t')], Only(cfg.burst - 1.0, t', t'), t', 1,
      Repeated(At(t'), n - 1), Only(Rest(cfg), t', t'), t', n - 1);
  }

  /** Waiting until the rest of a burst has become one token, and taking it, empties the bucket. */
  lemma EmptiedGoes(cfg: Config, s: State, t: real, t': real, w: real)
    requires cfg.burst >= 1.0 && t <= t' && Allow(cfg, s, At(t'), true) == (Only(cfg.burst - 1.0, t', t'), true)
    requires 0.0 <= w <= CLEANUP_AGE && Rest(cfg) + Gain(cfg.rate, w) == 1.0
    ensures Goes(cfg, s, t, Burst(cfg, t') + [At(t' + w)], Only(0.0, t' + w, t'), t' + w, cfg.burst.Floor + 1)
  {
    BurstGoes(cfg, s, t, t');
    assert t' + w - t' == w;
    hide Gain;
    AllowOnly(cfg, Rest(cfg), t', t', t' + w, true);
    assert Refilled(cfg, Bucket(Rest(cfg), t'), t' + w) == 1.0;
    hide Allow, Only, Goes, Refilled;
    GoesOne(cfg, Only(Rest(cfg), t', t'), t', t' + w, Only(0.0, t' + w, t'), true);
    GoesOn(cfg, s, t, Burst(cfg, t'), Only(Rest(cfg), t', t'), t', cfg.burst.Floor,
      [At(t' + w)], Only(0.0, t' + w, t'), t' + w, 1);
  }

  /** Two bursts, so far apart that the bucket is evicted and so close that it is not yet full enough. */
  lemma BrokenByResting(cfg: Config, start: real) returns (calls: seq<Call>)
    requires cfg.rate >= 0.0 && cfg.burst >= 1.0 && Rest(cfg) + Gain(cfg.rate, CLEANUP_AGE) < cfg.burst.Floor as real
    ensures !WithinBound(cfg, start, [], start, calls, "k")
  {
    hide Gain, Allow, Only, Goes, Burst, WithinBound;
    var n := cfg.burst.Floor;
    var d := PickDelay(cfg, Rest(cfg), n as real);
    FirstCall(cfg, start);
    AllowSwept(cfg, Rest(cfg), start, start, start + d);
    BurstGoes(cfg, Empty(start), start, start);
    BurstGoes(cfg, Only(Rest(cfg), start, start), start, start + d);
    calls := Burst(cfg, start) + Burst(cfg, start + d);
    GoesOn(cfg, Empty(start), start, Burst(cfg, start), Only(Rest(cfg), start, start), start, n,
      Burst(cfg, start + d), Only(Rest(cfg), start + d, start + d), start + d, n);
    assert start + d - start == d;
    TooMuch(cfg, start, calls, Only(Rest(cfg), start + d, start + d), start + d, n + n);
  }

  lemma TooMuch(cfg: Config, start: real, calls: seq<Call>, s: State, t: real, granted: nat)
    requires Goes(cfg, Empty(start), start, calls, s, t, granted)
    requires granted as real > cfg.burst + Gain(cfg.rate, t - start)
    ensures !WithinBound(cfg, start, [], start, calls, "k")
  {
    hide Gain;
    assert InOrder(start, []) && Now(start, []) == start && Serve(cfg, Empty(start), [], true) == Empty(start);
    hide InOrder, Serve, Granted;
  }

  /** The same, with the bucket emptied to the last drop after each burst. */
  lemma BrokenByEmptying(cfg: Config, start: real) returns (calls: seq<Call>)
    requires cfg.rate >= 0.0 && cfg.burst >= 1.0 && Gain(cfg.rate, CLEANUP_AGE) < cfg.burst
    requires Rest(cfg) + Gain(cfg.rate, CLEANUP_AGE) >= cfg.burst.Floor as real
    ensures !WithinBound(cfg, start, [], start, calls, "k")
  {
    var n := cfg.burst.Floor;
    assert cfg.rate > 0.0 by {
      assert cfg.rate == 0.0 ==> Gain(cfg.rate, CLEANUP_AGE) == 0.0;
    }
    var w := (1.0 - Rest(cfg)) / cfg.rate;
    GainIn(cfg.rate, 1.0 - Rest(cfg));
    if w > CLEANUP_AGE {
      GainStrict(cfg.rate, CLEANUP_AGE, w);
    }
    var d := PickDelay(cfg, 0.0, cfg.burst);
    TwiceEmptied(cfg, start, w, d);
    GainGrows(cfg.rate, w, w + (d + w));
    GainGrows(cfg.rate, w, w + d);
    hide Gain;
    calls := Burst(cfg, start) + [At(start + w)] + (Burst(cfg, start + w + d) + [At(start + w + d + w)]);
    var t := start + w + d + w;
    assert t - start == w + (d + w) && w + (d + w) - w == w + d && w + d - w == d;
    TooMuch(cfg, start, calls, Only(0.0, t, start + w + d), t, n + 1 + (n + 1));
  }

  lemma TwiceEmptied(cfg: Config, start: real, w: real, d: real)
    requires cfg.rate >= 0.0 && cfg.burst >= 1.0 && d > CLEANUP_AGE
    requires 0.0 <= w <= CLEANUP_AGE && Rest(cfg) + Gain(cfg.rate, w) == 1.0
    ensures var again := start + w + d;
      var calls := Burst(cfg, start) + [At(start + w)] + (Burst(cfg, again) + [At(again + w)]);
      var n := cfg.burst.Floor;
      Goes(cfg, Empty(start), start, calls, Only(0.0, again + w, again), again + w, n + 1 + (n + 1))
  {
    var again, n := start + w + d, cfg.burst.Floor;
    hide Gain, Allow, Only, Goes, Burst, Rest;
    FirstCall(cfg, start);
    AllowSwept(cfg, 0.0, start + w, start, again);
    EmptiedGoes(cfg, Empty(start), start, start, w);
    EmptiedGoes(cfg, Only(0.0, start + w, start), start + w, again, w);
    GoesOn(cfg, Empty(start), start, Burst(cfg, start) + [At(start + w)], Only(0.0, start + w, start), start + w, n + 1,
      Burst(cfg, again) + [At(again + w)], Only(0.0, again + w, again), again + w, n + 1);
  }

  /** If a bucket does not refill within the cleanup age, some run goes over the bound. */
  lemma BoundBroken(cfg: Config, start: real) returns (calls: seq<Call>)
    requires cfg.rate >= 0.0 && cfg.burst >= 1.0 && !RefillsInTime(cfg)
    ensures !WithinBound(cfg, start, [], start, calls, "k")
  {
    assert Gain(cfg.rate, CLEANUP_AGE) < cfg.burst;
    hide Gain, WithinBound;
    if Rest(cfg) + Gain(cfg.rate, CLEANUP_AGE) < cfg.burst.Floor as real {
      calls := BrokenByResting(cfg, start);
    } else {
      calls := BrokenByEmptying(cfg, start);
    }
  }

  /**
   The bound on what a key gets holds in every stretch of every run exactly when a bucket refills within the
   cleanup age, or never holds a whole token.
   */
  lemma WindowBoundIff(cfg: Config, start: real)
    requires cfg.rate >= 0.0
    ensures (forall before, from, calls, key :: WithinBound(cfg, start, before, from, calls, key)) <==>
      cfg.burst >= 0.0 && (cfg.burst < 1.0 || RefillsInTime(cfg))
  {
    hide RefillsInTime;
    if cfg.burst >= 0.0 && (cfg.burst < 1.0 || RefillsInTime(cfg)) {
      forall before, from, calls, key ensures WithinBound(cfg, start, before, from, calls, key) {
        BoundHolds(cfg, start, before, from, calls, key);
      }
    } else if cfg.burst >= 0.0 {
      var calls := BoundBroken(cfg, start);
      hide WithinBound;
      assert !WithinBound(cfg, start, [], start, calls, "k");
    } else {
      assert Gain(cfg.rate, start - start) == 0.0;
      assert !WithinBound(cfg, start, [], start, [], "k");
    }
  }

  lemma BoundHolds(cfg: Config, start: real, before: seq<Call>, from: real, calls: seq<Call>, key: string)
    requires cfg.rate >= 0.0 && cfg.burst >= 0.0 && (cfg.burst < 1.0 || RefillsInTime(cfg))
    ensures WithinBound(cfg, start, before, from, calls, key)
  {
    hide RefillsInTime, Granted;
    if InOrder(start, before) && Now(start, before) <= from && InOrder(from, calls) {
      if RefillsInTime(cfg) {
        WindowBound(cfg, start, before, from, calls, key);
      } else {
        AllDenied(cfg, Serve(cfg, Empty(start), before, true), calls, true, key);
        ForwardInOrder(from, calls);
        GainGrows(cfg.rate, 0.0, Now(from, calls) - from);
        hide Gain;
      }
    }
  }

  lemma {:induction false} ForwardInOrder(from: real, calls: seq<Call>)
    requires InOrder(from, calls)
    ensures from <= Now(from, calls)
  {
    if calls != [] {
      ForwardInOrder(from, calls[..|calls| - 1]);
    }
  }

  // ---------- What one request does, and who is never turned away ----------

  /** A sweep is due, and the bucket has been idle for more than five minutes when it happens. */
  predicate SweptAway(s: State, c: Call, evict: bool, key: string)
    requires key in s.buckets
  {
    evict && c.check - s.lastCleanup > 300.0 && s.buckets[key].last < c.sweep - 300.0
  }

  /**
   A request is let through exactly if its bucket, full if it is new or swept away, holds a token after what it gained
   since it was last used, up to the burst. It takes that token, and of the other buckets only idle ones are gone.
   */
  lemma AllowExact(cfg: Config, s: State, c: Call, evict: bool)
    ensures var (s', ok) := Allow(cfg, s, c, evict);
      var b := if c.key in s.buckets && !SweptAway(s, c, evict, c.key) then s.buckets[c.key] else Bucket(cfg.burst, c.create);
      var gained := b.tokens + (c.take - b.last) * cfg.rate;
      var tokens := if gained > cfg.burst then cfg.burst else gained;
      && (ok <==> tokens >= 1.0)
      && c.key in s'.buckets && s'.buckets[c.key] == Bucket(if ok then tokens - 1.0 else tokens, c.take)
      && (forall k :: k != c.key ==> (k in s'.buckets <==> k in s.buckets && !SweptAway(s, c, evict, k)))
      && (forall k :: k != c.key && k in s'.buckets ==> s'.buckets[k] == s.buckets[k])
      && s'.lastCleanup == if evict && c.check - s.lastCleanup > 300.0 then c.swept else s.lastCleanup
  {
  }

  /** Each bucket was last used by some call for its key, and is not overdrawn. */
  ghost predicate UsedBy(cfg: Config, s: State, calls: seq<Call>, now: real) {
    forall k :: k in s.buckets ==> s.buckets[k].tokens >= 0.0 && s.buckets[k].last <= now && Used(calls, k, s.buckets[k].last)
  }

  ghost predicate Used(calls: seq<Call>, key: string, at: real) {
    exists i :: 0 <= i < |calls| && calls[i].key == key && calls[i].take == at
  }

  lemma UsedLonger(calls: seq<Call>, c: Call, key: string, at: real)
    ensures Used(calls, key, at) ==> Used(calls + [c], key, at)
    ensures Used(calls + [c], c.key, c.take)
  {
    assert (calls + [c])[|calls|] == c;
    if Used(calls, key, at) {
      var i :| 0 <= i < |calls| && calls[i].key == key && calls[i].take == at;
      assert (calls + [c])[i] == calls[i];
    }
  }

  lemma CallUses(cfg: Config, s: State, calls: seq<Call>, c: Call, evict: bool, now: real)
    requires cfg.rate >= 0.0 && cfg.burst >= 0.0 && UsedBy(cfg, s, calls, now)
    requires now <= c.check <= c.sweep <= c.swept <= c.create <= c.take
    ensures UsedBy(cfg, Allow(cfg, s, c, evict).0, calls + [c], c.take)
  {
    AllowExact(cfg, s, c, evict);
    var s' := Allow(cfg, s, c, evict).0;
    forall k | k in s'.buckets
      ensures s'.buckets[k].tokens >= 0.0 && s'.buckets[k].last <= c.take && Used(calls + [c], k, s'.buckets[k].last)
    {
      UsedLonger(calls, c, k, s'.buckets[k].last);
      if k == c.key {
        GainGrows(cfg.rate, 0.0, c.take - c.create);
        if k in s.buckets {
          GainGrows(cfg.rate, 0.0, c.take - s.buckets[k].last);
        }
      }
      hide Allow, Used, SweptAway;
    }
  }

  lemma {:induction false} RunUses(cfg: Config, start: real, calls: seq<Call>, evict: bool)
    requires cfg.rate >= 0.0 && cfg.burst >= 0.0 && InOrder(start, calls)
    ensures UsedBy(cfg, Serve(cfg, Empty(start), calls, evict), calls, Now(start, calls))
  {
    hide Allow, UsedBy;
    if calls == [] {
      NothingUsed(cfg, start);
    } else {
      var before, c := calls[..|calls| - 1], calls[|calls| - 1];
      RunUses(cfg, start, before, evict);
      CallUses(cfg, Serve(cfg, Empty(start), before, evict), before, c, evict, Now(start, before));
      assert before + [c] == calls;
    }
  }

  lemma NothingUsed(cfg: Config, start: real)
    ensures UsedBy(cfg, Empty(start), [], start)
  {
  }

  /** A key's calls are so far apart that the bucket gains a token from each to the next. */
  predicate Spaced(cfg: Config, calls: seq<Call>, key: string) {
    forall i, j :: 0 <= i < j < |calls| && calls[i].key == key && calls[j].key == key ==>
      Gain(cfg.rate, calls[j].take - calls[i].take) >= 1.0
  }

  /**
   A key whose calls are spaced by the refill rate is never turned away, with or without eviction and whatever other
   keys do.
   */
  lemma SpacedIsGranted(cfg: Config, start: real, calls: seq<Call>, evict: bool)
    requires cfg.rate >= 0.0 && cfg.burst >= 1.0 && calls != [] && InOrder(start, calls)
    requires Spaced(cfg, calls, calls[|calls| - 1].key)
    ensures LastAnswer(cfg, Empty(start), calls, evict)
  {
    hide Allow, InOrder, Used;
    var before, c := calls[..|calls| - 1], calls[|calls| - 1];
    LastInOrder(start, calls);
    RunUses(cfg, start, before, evict);
    var s := Serve(cfg, Empty(start), before, evict);
    if c.key in s.buckets {
      UsedSpaced(cfg, calls, c.key, s.buckets[c.key].last);
    }
    hide Serve, Spaced;
    SpacedCall(cfg, s, c, evict);
  }

  lemma LastInOrder(start: real, calls: seq<Call>)
    requires calls != [] && InOrder(start, calls)
    ensures InOrder(start, calls[..|calls| - 1]) && calls[|calls| - 1].create <= calls[|calls| - 1].take
  {
  }

  lemma UsedSpaced(cfg: Config, calls: seq<Call>, key: string, at: real)
    requires calls != [] && Spaced(cfg, calls, key) && calls[|calls| - 1].key == key && Used(calls[..|calls| - 1], key, at)
    ensures Gain(cfg.rate, calls[|calls| - 1].take - at) >= 1.0
  {
    hide Gain;
    var before, j := calls[..|calls| - 1], |calls| - 1;
    var i :| 0 <= i < |before| && before[i].key == key && before[i].take == at;
    assert calls[i] == before[i] && calls[j].key == key;
  }

  lemma SpacedCall(cfg: Config, s: State, c: Call, evict: bool)
    requires cfg.rate >= 0.0 && cfg.burst >= 1.0 && c.create <= c.take
    requires c.key in s.buckets ==>
      s.buckets[c.key].tokens >= 0.0 && Gain(cfg.rate, c.take - s.buckets[c.key].last) >= 1.0
    ensures Allow(cfg, s, c, evict).1
  {
    AllowExact(cfg, s, c, evict);
    GainGrows(cfg.rate, 0.0, c.take - c.create);
    var b := if c.key in s.buckets && !SweptAway(s, c, evict, c.key) then s.buckets[c.key] else Bucket(cfg.burst, c.create);
    assert Gain(cfg.rate, c.take - b.last) == (c.take - b.last) * cfg.rate;
    hide Allow, SweptAway, Gain;
  }
}
