/** Token-bucket admission control. Time and tokens are real numbers. */
module RateLimit {
  import opened Json

  datatype Config = Config(maxRequests: nat, window: real)

  datatype RateKey = RateKey(scope: string, subject: string, namespace: string)

  datatype Bucket = Bucket(tokens: real, lastRefill: real)

  datatype Snapshot = Snapshot(limit: nat, remaining: nat, windowSeconds: nat, retryAfter: nat)

  datatype Answer = Admitted(snapshot: Snapshot) | Exceeded(remaining: nat, retryAfter: nat)

  ghost predicate ValidConfig(c: Config) {
    c.maxRequests >= 1 && c.window > 0.0
  }

  /** How many tokens a bucket holds, and how many flow in between two moments. */
  datatype Flow = Flow(capacity: real, inflow: (real, real) -> real)

  ghost predicate ValidFlow(f: Flow) {
    && f.capacity >= 1.0
    && (forall s, t | s <= t :: f.inflow(s, t) >= 0.0)
    && (forall s :: f.inflow(s, s) == 0.0)
    && forall r, s, t | r <= s <= t :: f.inflow(r, t) == f.inflow(r, s) + f.inflow(s, t)
  }

  function Rate(c: Config): real
    requires ValidConfig(c)
  {
    c.maxRequests as real / c.window
  }

  /** Tokens flow in at a constant rate. */
  function FlowOf(c: Config): Flow
    requires ValidConfig(c)
  {
    var rate := Rate(c);
    Flow(c.maxRequests as real, (s: real, t: real) => (t - s) * rate)
  }

  lemma Distribute(a: real, b: real, rate: real)
    ensures (a + b) * rate == a * rate + b * rate
  {
  }

  /** The configured flow: `maxRequests` tokens per window, never lost or doubled between
      moments. */
  lemma FlowIsValid(c: Config)
    requires ValidConfig(c)
    ensures ValidFlow(FlowOf(c)) && Rate(c) > 0.0
    ensures FlowOf(c).capacity == c.maxRequests as real
    ensures forall s, t :: FlowOf(c).inflow(s, t) == (t - s) * (c.maxRequests as real / c.window)
  {
    var f, rate := FlowOf(c), Rate(c);
    PositiveQuotient(c.maxRequests as real, c.window);
    forall r, s, t | r <= s <= t
      ensures f.inflow(r, t) == f.inflow(r, s) + f.inflow(s, t)
    {
      Distribute(s - r, t - s, rate);
      assert t - r == (s - r) + (t - s);
    }
  }

  function Min(a: real, b: real): real {
    if a <= b then a else b
  }

  function Ceil(x: real): int {
    -((-x).Floor)
  }

  function Refill(f: Flow, b: Bucket, now: real): Bucket {
    Bucket(Min(b.tokens + f.inflow(b.lastRefill, now), f.capacity), now)
  }

  /** Whole seconds until a token is there. */
  function RetryAfter(c: Config, tokens: real): (seconds: nat)
    requires ValidConfig(c)
  {
    if tokens >= 1.0 then 0 else
      FlowIsValid(c);
      PositiveQuotient(1.0 - tokens, Rate(c));
      Ceil((1.0 - tokens) / Rate(c))
  }

  lemma PositiveQuotient(a: real, b: real)
    requires a > 0.0 && b > 0.0
    ensures a / b > 0.0
  {
  }

  function SnapshotOf(c: Config, tokens: real): Snapshot
    requires ValidConfig(c)
  {
    Snapshot(c.maxRequests, if tokens.Floor > 0 then tokens.Floor else 0, c.window.Floor,
             RetryAfter(c, tokens))
  }

  /** The bucket of a key not seen before is full. */
  function BucketAt(f: Flow, buckets: map<RateKey, Bucket>, key: RateKey, now: real): Bucket {
    if key in buckets then buckets[key] else Bucket(f.capacity, now)
  }

  /** One admission decision: the bucket after it, and whether it admitted. */
  function Decide(f: Flow, b: Bucket, now: real): (Bucket, bool) {
    var full := Refill(f, b, now);
    if full.tokens >= 1.0 then (full.(tokens := full.tokens - 1.0), true) else (full, false)
  }

  class InMemoryRateLimiter {
    const config: Config
    var buckets: map<RateKey, Bucket>

    constructor (config: Config)
      ensures this.config == config && buckets == map[]
    {
      this.config := config;
      buckets := map[];
    }

    method Check(key: RateKey, now: real) returns (answer: Answer)
      requires ValidConfig(config)
      modifies this
      ensures var f := FlowOf(config);
        var (after, admitted) := Decide(f, BucketAt(f, old(buckets), key, now), now);
        var s := SnapshotOf(config, after.tokens);
        && buckets == old(buckets)[key := after]
        && answer == if admitted then Admitted(s) else Exceeded(s.remaining, s.retryAfter)
    {
      var f := FlowOf(config);
      var bucket := if key in buckets then buckets[key] else Bucket(f.capacity, now);
      bucket := Refill(f, bucket, now);
      if bucket.tokens >= 1.0 {
        bucket := bucket.(tokens := bucket.tokens - 1.0);
        buckets := buckets[key := bucket];
        answer := Admitted(SnapshotOf(config, bucket.tokens));
      } else {
        buckets := buckets[key := bucket];
        var snapshot := SnapshotOf(config, bucket.tokens);
        answer := Exceeded(snapshot.remaining, snapshot.retryAfter);
      }
    }

    method Peek(key: RateKey, now: real) returns (snapshot: Snapshot)
      requires ValidConfig(config)
      modifies this
      ensures var f := FlowOf(config);
        var after := Refill(f, BucketAt(f, old(buckets), key, now), now);
        buckets == old(buckets)[key := after] && snapshot == SnapshotOf(config, after.tokens)
    {
      var f := FlowOf(config);
      var bucket := if key in buckets then buckets[key] else Bucket(f.capacity, now);
      bucket := Refill(f, bucket, now);
      buckets := buckets[key := bucket];
      snapshot := SnapshotOf(config, bucket.tokens);
    }
  }

  // ---------------------------------------------------------------- refilling

  /** Refilling in two steps is refilling once. */
  lemma RefillComposes(f: Flow, b: Bucket, s: real, t: real)
    requires ValidFlow(f) && b.lastRefill <= s <= t
    ensures Refill(f, Refill(f, b, s), t) == Refill(f, b, t)
  {
    assert f.inflow(b.lastRefill, t) == f.inflow(b.lastRefill, s) + f.inflow(s, t);
  }

  ghost predicate ReachedBucket(f: Flow, b: Bucket, now: real) {
    b.lastRefill <= now && 0.0 <= b.tokens <= f.capacity
  }

  lemma RefillReached(f: Flow, b: Bucket, s: real, now: real)
    requires ValidFlow(f) && ReachedBucket(f, b, s) && s <= now
    ensures 0.0 <= Refill(f, b, now).tokens <= f.capacity
    ensures Refill(f, b, now).tokens <= Refill(f, b, s).tokens + f.inflow(s, now)
    ensures ReachedBucket(f, Decide(f, b, now).0, now)
  {
    assert f.inflow(b.lastRefill, now) == f.inflow(b.lastRefill, s) + f.inflow(s, now);
  }

  // ---------------------------------------------------------------- runs

  /** One call on the limiter. */
  datatype Call = Check(key: RateKey, at: real) | Peek(key: RateKey, at: real)

  function Next(f: Flow, buckets: map<RateKey, Bucket>, call: Call): map<RateKey, Bucket>
  {
    var b := BucketAt(f, buckets, call.key, call.at);
    buckets[call.key := if call.Check? then Decide(f, b, call.at).0 else Refill(f, b, call.at)]
  }

  /** The call is a `Check` that admits. */
  predicate Admits(f: Flow, buckets: map<RateKey, Bucket>, call: Call)
  {
    call.Check? && Decide(f, BucketAt(f, buckets, call.key, call.at), call.at).1
  }

  /** The limiter after a run. */
  function Run(f: Flow, buckets: map<RateKey, Bucket>, calls: seq<Call>): map<RateKey, Bucket>
    decreases calls
  {
    if calls == [] then buckets else Run(f, Next(f, buckets, calls[0]), calls[1..])
  }

  /** The decision of every `Check` of a run, in order. */
  function Decisions(f: Flow, buckets: map<RateKey, Bucket>, calls: seq<Call>): seq<bool>
    decreases calls
  {
    if calls == [] then [] else
      (if calls[0].Check? then [Admits(f, buckets, calls[0])] else [])
      + Decisions(f, Next(f, buckets, calls[0]), calls[1..])
  }

  /** The tokens a call takes from `key`. */
  function Spent(f: Flow, buckets: map<RateKey, Bucket>, call: Call, key: RateKey): real {
    if call.key == key && Admits(f, buckets, call) then 1.0 else 0.0
  }

  /** How often a run admits `key`. */
  function Admissions(f: Flow, buckets: map<RateKey, Bucket>, calls: seq<Call>, key: RateKey): nat
    decreases calls
  {
    if calls == [] then 0 else
      (if calls[0].key == key && Admits(f, buckets, calls[0]) then 1 else 0)
      + Admissions(f, Next(f, buckets, calls[0]), calls[1..], key)
  }

  /** The calls happen in order, from `s` to `t`. */
  ghost predicate Within(calls: seq<Call>, s: real, t: real)
    decreases calls
  {
    if calls == [] then s <= t else s <= calls[0].at && Within(calls[1..], calls[0].at, t)
  }

  lemma {:induction false} WithinIsForward(calls: seq<Call>, s: real, t: real)
    requires Within(calls, s, t)
    ensures s <= t
    decreases calls
  {
    if calls != [] { WithinIsForward(calls[1..], calls[0].at, t); }
  }

  /** What any run from an empty limiter leaves behind at time `now`. */
  ghost predicate Reached(f: Flow, buckets: map<RateKey, Bucket>, now: real) {
    forall k | k in buckets :: ReachedBucket(f, buckets[k], now)
  }

  lemma NextReached(f: Flow, buckets: map<RateKey, Bucket>, call: Call, s: real)
    requires ValidFlow(f) && Reached(f, buckets, s) && s <= call.at
    ensures Reached(f, Next(f, buckets, call), call.at)
  {
    if call.key in buckets {
      RefillReached(f, buckets[call.key], s, call.at);
    } else {
      RefillReached(f, Bucket(f.capacity, call.at), call.at, call.at);
    }
  }

  lemma {:induction false} RunReached(f: Flow, buckets: map<RateKey, Bucket>, calls: seq<Call>, s: real, t: real)
    requires ValidFlow(f) && Reached(f, buckets, s) && Within(calls, s, t)
    ensures Reached(f, Run(f, buckets, calls), t)
    decreases calls
  {
    if calls != [] {
      NextReached(f, buckets, calls[0], s);
      RunReached(f, Next(f, buckets, calls[0]), calls[1..], calls[0].at, t);
    }
  }

  // ---------------------------------------------------------------- the admission bound

  /** The tokens a key has at time `s`. */
  function Available(f: Flow, buckets: map<RateKey, Bucket>, key: RateKey, s: real): real
  {
    Refill(f, BucketAt(f, buckets, key, s), s).tokens
  }

  lemma AvailableFresh(f: Flow, buckets: map<RateKey, Bucket>, key: RateKey, s: real)
    requires ValidFlow(f) && key !in buckets
    ensures Available(f, buckets, key, s) == f.capacity
  {
  }

  lemma AvailableGrows(f: Flow, buckets: map<RateKey, Bucket>, key: RateKey, s: real, t: real)
    requires ValidFlow(f) && Reached(f, buckets, s) && s <= t
    ensures 0.0 <= Available(f, buckets, key, t) <= f.capacity
    ensures Available(f, buckets, key, t) <= Available(f, buckets, key, s) + f.inflow(s, t)
  {
    if key in buckets {
      RefillReached(f, buckets[key], s, t);
    } else {
      AvailableFresh(f, buckets, key, s);
      AvailableFresh(f, buckets, key, t);
    }
  }

  /** An admission costs a token; nothing else does. */
  lemma StepPays(f: Flow, buckets: map<RateKey, Bucket>, call: Call, key: RateKey, s: real)
    requires ValidFlow(f) && Reached(f, buckets, s) && s <= call.at
    ensures Available(f, Next(f, buckets, call), key, call.at)
         == Available(f, buckets, key, call.at) - Spent(f, buckets, call, key)
  {
    if call.key == key {
      AvailableGrows(f, buckets, key, s, call.at);
    }
  }

  lemma StepBudget(f: Flow, buckets: map<RateKey, Bucket>, call: Call, key: RateKey, s: real, t: real)
    requires ValidFlow(f) && Reached(f, buckets, s) && s <= call.at <= t
    ensures Available(f, Next(f, buckets, call), key, call.at) + f.inflow(call.at, t)
            + Spent(f, buckets, call, key)
         <= Available(f, buckets, key, s) + f.inflow(s, t)
  {
    StepPays(f, buckets, call, key, s);
    AvailableGrows(f, buckets, key, s, call.at);
    assert f.inflow(s, t) == f.inflow(s, call.at) + f.inflow(call.at, t);
  }

  lemma {:induction false} AdmissionsPaid(f: Flow, buckets: map<RateKey, Bucket>, calls: seq<Call>,
                                          key: RateKey, s: real, t: real)
    requires ValidFlow(f) && Reached(f, buckets, s) && Within(calls, s, t)
    ensures Admissions(f, buckets, calls, key) as real <= Available(f, buckets, key, s) + f.inflow(s, t)
    decreases calls
  {
    if calls == [] {
      AvailableGrows(f, buckets, key, s, t);
    } else {
      var next := Next(f, buckets, calls[0]);
      NextReached(f, buckets, calls[0], s);
      WithinIsForward(calls[1..], calls[0].at, t);
      AdmissionsPaid(f, next, calls[1..], key, calls[0].at, t);
      StepBudget(f, buckets, calls[0], key, s, t);
    }
  }

  /** Between two moments a key is admitted at most its burst plus what flows in meanwhile:
      from any reachable limiter, over any calls on any keys. */
  lemma AdmissionBound(f: Flow, before: seq<Call>, calls: seq<Call>, key: RateKey, origin: real, s: real, t: real)
    requires ValidFlow(f) && Within(before, origin, s) && Within(calls, s, t)
    ensures Admissions(f, Run(f, map[], before), calls, key) as real <= f.capacity + f.inflow(s, t)
  {
    RunReached(f, map[], before, origin, s);
    var buckets := Run(f, map[], before);
    AdmissionsPaid(f, buckets, calls, key, s, t);
    AvailableGrows(f, buckets, key, s, s);
  }

  lemma FlowIs(c: Config, s: real, t: real) returns (f: Flow)
    requires ValidConfig(c)
    ensures f == FlowOf(c) && ValidFlow(f)
    ensures f.capacity + f.inflow(s, t) == c.maxRequests as real + (t - s) * (c.maxRequests as real / c.window)
  {
    FlowIsValid(c);
    f := FlowOf(c);
  }

  /** Read for the configured limiter: the burst is one window's worth, and the rest comes in
      evenly. */
  lemma ConfiguredBound(c: Config, before: seq<Call>, calls: seq<Call>, key: RateKey, origin: real, s: real, t: real)
    requires ValidConfig(c) && Within(before, origin, s) && Within(calls, s, t)
    ensures Admissions(FlowOf(c), Run(FlowOf(c), map[], before), calls, key) as real
         <= c.maxRequests as real + (t - s) * (c.maxRequests as real / c.window)
  {
    var f := FlowIs(c, s, t);
    AdmissionBound(f, before, calls, key, origin, s, t);
  }

  // ---------------------------------------------------------------- peeking

  function WithoutPeeks(calls: seq<Call>): seq<Call> {
    if calls == [] then [] else (if calls[0].Peek? then [] else [calls[0]]) + WithoutPeeks(calls[1..])
  }

  /** Two limiters no later decision can tell apart. */
  ghost predicate Alike(f: Flow, x: map<RateKey, Bucket>, y: map<RateKey, Bucket>, now: real)
  {
    forall k, t | t >= now :: Refill(f, BucketAt(f, x, k, t), t) == Refill(f, BucketAt(f, y, k, t), t)
  }

  lemma PeekChangesNothing(f: Flow, x: map<RateKey, Bucket>, call: Call, s: real)
    requires ValidFlow(f) && Reached(f, x, s) && s <= call.at && call.Peek?
    ensures Alike(f, Next(f, x, call), x, call.at)
  {
    var b := BucketAt(f, x, call.key, call.at);
    var y := Next(f, x, call);
    forall k, t | t >= call.at
      ensures Refill(f, BucketAt(f, y, k, t), t) == Refill(f, BucketAt(f, x, k, t), t)
    {
      if k == call.key {
        RefillComposes(f, b, call.at, t);
      }
    }
  }

  lemma CheckKeepsAlike(f: Flow, x: map<RateKey, Bucket>, y: map<RateKey, Bucket>, call: Call, s: real)
    requires ValidFlow(f) && Alike(f, x, y, s) && s <= call.at && call.Check?
    ensures Alike(f, Next(f, x, call), Next(f, y, call), call.at)
    ensures Admits(f, x, call) == Admits(f, y, call)
  {
    assert Refill(f, BucketAt(f, x, call.key, call.at), call.at)
        == Refill(f, BucketAt(f, y, call.key, call.at), call.at);
    var x', y' := Next(f, x, call), Next(f, y, call);
    assert x'[call.key] == y'[call.key];
    forall k, t | t >= call.at
      ensures Refill(f, BucketAt(f, x', k, t), t) == Refill(f, BucketAt(f, y', k, t), t)
    {
      assert k != call.key ==>
        BucketAt(f, x', k, t) == BucketAt(f, x, k, t) && BucketAt(f, y', k, t) == BucketAt(f, y, k, t);
    }
  }

  lemma {:induction false} AlikeDecide(f: Flow, x: map<RateKey, Bucket>, y: map<RateKey, Bucket>,
                                       calls: seq<Call>, s: real, t: real)
    requires ValidFlow(f) && Reached(f, x, s) && Alike(f, x, y, s) && Within(calls, s, t)
    ensures Decisions(f, x, calls) == Decisions(f, y, WithoutPeeks(calls))
    decreases calls
  {
    if calls != [] {
      var call := calls[0];
      NextReached(f, x, call, s);
      if call.Peek? {
        PeekChangesNothing(f, x, call, s);
        AlikeDecide(f, Next(f, x, call), y, calls[1..], call.at, t);
        assert [] + WithoutPeeks(calls[1..]) == WithoutPeeks(calls[1..]);
      } else {
        CheckKeepsAlike(f, x, y, call, s);
        AlikeDecide(f, Next(f, x, call), Next(f, y, call), calls[1..], call.at, t);
        assert ([call] + WithoutPeeks(calls[1..]))[1..] == WithoutPeeks(calls[1..]);
      }
    }
  }

  /** `peek` never changes a later decision: leaving every peek out of a run leaves every
      decision as it was. */
  lemma PeeksAreInvisible(f: Flow, calls: seq<Call>, s: real, t: real)
    requires ValidFlow(f) && Within(calls, s, t)
    ensures Decisions(f, map[], calls) == Decisions(f, map[], WithoutPeeks(calls))
  {
    AlikeDecide(f, map[], map[], calls, s, t);
  }

  // ---------------------------------------------------------------- retrying

  lemma {:induction false} RefusedBucketOnlyRefills(f: Flow, x: map<RateKey, Bucket>, calls: seq<Call>,
                                                    key: RateKey, s: real, t: real)
    requires ValidFlow(f) && Reached(f, x, s) && Within(calls, s, t) && key in x
    requires Admissions(f, x, calls, key) == 0
    ensures key in Run(f, x, calls) && Refill(f, Run(f, x, calls)[key], t) == Refill(f, x[key], t)
    decreases calls
  {
    if calls != [] {
      var call := calls[0];
      NextReached(f, x, call, s);
      RunReached(f, Next(f, x, call), calls[1..], call.at, t);
      RefusedBucketOnlyRefills(f, Next(f, x, call), calls[1..], key, call.at, t);
      if call.key == key {
        WithinIsForward(calls[1..], call.at, t);
        RefillComposes(f, x[key], call.at, t);
      }
    }
  }

  lemma CeilCovers(missing: real, rate: real, waited: real)
    requires rate > 0.0 && waited >= Ceil(missing / rate) as real
    ensures waited * rate >= missing
  {
    var q := missing / rate;
    assert Ceil(q) as real >= q;
    assert (waited - q) * rate >= 0.0;
    assert q * rate == missing;
  }

  lemma WaitedOut(c: Config, b: Bucket, now: real)
    requires ValidConfig(c) && b.tokens < 1.0 && now - b.lastRefill >= RetryAfter(c, b.tokens) as real
    ensures Refill(FlowOf(c), b, now).tokens >= 1.0
  {
    FlowIsValid(c);
    CeilCovers(1.0 - b.tokens, Rate(c), now - b.lastRefill);
    assert FlowOf(c).inflow(b.lastRefill, now) == (now - b.lastRefill) * Rate(c);
  }

  /** A refused caller who waits the stated time is admitted, whatever else happened
      meanwhile short of the same key being admitted. */
  lemma RetryAfterIsEnough(c: Config, x: map<RateKey, Bucket>, refused: Call, calls: seq<Call>, again: Call, s: real)
    requires ValidConfig(c) && Reached(FlowOf(c), x, s) && s <= refused.at
    requires Within(calls, refused.at, again.at)
    ensures var f := FlowOf(c); var next := Next(f, x, refused);
      && refused.Check? && !Admits(f, x, refused) && again.Check? && again.key == refused.key
      && Admissions(f, next, calls, refused.key) == 0
      && again.at - refused.at >= SnapshotOf(c, next[refused.key].tokens).retryAfter as real
      ==> Admits(f, Run(f, next, calls), again)
  {
    var f := FlowOf(c);
    var next := Next(f, x, refused);
    FlowIsValid(c);
    NextReached(f, x, refused, s);
    if refused.Check? && !Admits(f, x, refused) && again.Check? && again.key == refused.key
       && Admissions(f, next, calls, refused.key) == 0
       && again.at - refused.at >= SnapshotOf(c, next[refused.key].tokens).retryAfter as real
    {
      RefusedBucketOnlyRefills(f, next, calls, refused.key, refused.at, again.at);
      WaitedOut(c, next[refused.key], again.at);
    }
  }

  lemma FloorBelow(k: nat, missing: real, rate: real)
    requires rate > 0.0 && k < Ceil(missing / rate)
    ensures k as real * rate < missing
  {
    var q := missing / rate;
    assert k as real < q;
    assert (q - k as real) * rate > 0.0;
    assert q * rate == missing;
  }

  /** The time a refusal reports is the least number of whole seconds after which the bucket,
      left alone, admits again. */
  lemma RetryAfterIsLeast(c: Config, b: Bucket, k: nat)
    requires ValidConfig(c) && b.tokens < 1.0
    ensures Refill(FlowOf(c), b, b.lastRefill + k as real).tokens >= 1.0 <==> k >= SnapshotOf(c, b.tokens).retryAfter
  {
    FlowIsValid(c);
    var f := FlowOf(c);
    assert f.inflow(b.lastRefill, b.lastRefill + k as real) == k as real * Rate(c);
    if k < RetryAfter(c, b.tokens) {
      FloorBelow(k, 1.0 - b.tokens, Rate(c));
    } else {
      CeilCovers(1.0 - b.tokens, Rate(c), k as real);
    }
  }

  /** The same key checked `n` times at one moment. */
  function Checks(key: RateKey, at: real, n: nat): seq<Call> {
    if n == 0 then [] else [Check(key, at)] + Checks(key, at, n - 1)
  }

  function Admitting(n: nat): seq<bool> {
    if n == 0 then [false] else [true] + Admitting(n - 1)
  }

  lemma {:induction false} TokensAreSpent(f: Flow, x: map<RateKey, Bucket>, key: RateKey, s: real, t: real, n: nat)
    requires ValidFlow(f) && Reached(f, x, s) && s <= t
    requires n as real <= Available(f, x, key, t) < n as real + 1.0
    ensures Decisions(f, x, Checks(key, t, n + 1)) == Admitting(n)
    decreases n
  {
    var call := Check(key, t);
    var next := Next(f, x, call);
    var calls := Checks(key, t, n + 1);
    assert calls[0] == call && calls[1..] == Checks(key, t, n);
    NextReached(f, x, call, s);
    StepPays(f, x, call, key, s);
    if n == 0 {
      assert [false] + Decisions(f, next, []) == [false];
    } else {
      TokensAreSpent(f, next, key, t, t, n - 1);
    }
  }

  /** What a snapshot reports: as many requests as remain are admitted at that moment and no
      more, the wait is zero exactly while one remains, and the limit and the whole seconds of
      the window are the configured ones. */
  lemma SnapshotTells(c: Config, x: map<RateKey, Bucket>, key: RateKey, s: real, t: real)
    requires ValidConfig(c) && Reached(FlowOf(c), x, s) && s <= t
    ensures var f := FlowOf(c); var shown := SnapshotOf(c, Available(f, x, key, t));
      && Decisions(f, x, Checks(key, t, shown.remaining + 1)) == Admitting(shown.remaining)
      && shown.limit == c.maxRequests && shown.remaining <= shown.limit
      && shown.windowSeconds as real <= c.window < shown.windowSeconds as real + 1.0
      && (shown.retryAfter == 0 <==> shown.remaining > 0)
  {
    FlowIsValid(c);
    var f := FlowOf(c);
    AvailableGrows(f, x, key, s, t);
    var tokens := Available(f, x, key, t);
    TokensAreSpent(f, x, key, s, t, tokens.Floor);
    if tokens < 1.0 { PositiveQuotient(1.0 - tokens, Rate(c)); }
  }
}
