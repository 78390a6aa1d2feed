/** The per-tenant token bucket (internal/ratelimit/bucket.go) and the `Retry-After` answer of
    its middleware (internal/ratelimit/middleware.go). Times are integer nanoseconds; token
    counts are reals. */
module TokenBuckets {
  import opened Arith

  const NANOS: real := 1000000000.0

  function Seconds(nanos: int): real {
    nanos as real / NANOS
  }

  /** What the registry builds its buckets with. The configuration check demands a positive rate and
      a burst, which is a whole number, of at least one. */
  datatype Config = Config(capacity: real, rate: real) {
    predicate Sane() {
      rate > 0.0 && capacity >= 1.0 && capacity == capacity.Floor as real
    }
  }

  type SaneConfig = c: Config | c.Sane() witness Config(10.0, 1.0)

  function Refilled(cfg: SaneConfig, tokens: real, elapsed: real): real {
    var t := tokens + elapsed * cfg.rate;
    if t > cfg.capacity then cfg.capacity else t
  }

  /** Tokens in the bucket just before the k-th request of a key is decided; the bucket is made
      full by the first one. */
  function Before(cfg: SaneConfig, times: seq<int>, k: nat): real
    requires k < |times|
    decreases k, 0
  {
    if k == 0 then cfg.capacity
    else Refilled(cfg, After(cfg, times, k - 1), Seconds(times[k] - times[k - 1]))
  }

  predicate Admits(cfg: SaneConfig, times: seq<int>, k: nat)
    requires k < |times|
    decreases k, 1
  {
    Before(cfg, times, k) >= 1.0
  }

  function After(cfg: SaneConfig, times: seq<int>, k: nat): real
    requires k < |times|
    decreases k, 2
  {
    if Admits(cfg, times, k) then Before(cfg, times, k) - 1.0 else Before(cfg, times, k)
  }

  /** One step of the recursion, for a later request. */
  lemma BeforeStep(cfg: SaneConfig, times: seq<int>, k: nat)
    requires 0 < k < |times| && times[k - 1] <= times[k]
    ensures var gain := Seconds(times[k] - times[k - 1]) * cfg.rate;
            var left := Before(cfg, times, k - 1) - if Admits(cfg, times, k - 1) then 1.0 else 0.0;
            gain >= 0.0 && Before(cfg, times, k) == if left + gain > cfg.capacity then cfg.capacity else left + gain
  {
    RealMulMono(0.0, Seconds(times[k] - times[k - 1]), cfg.rate);
  }

  lemma {:induction false} SamePrefix(cfg: SaneConfig, a: seq<int>, b: seq<int>, n: nat)
    requires n <= |a| && n <= |b| && a[..n] == b[..n]
    ensures forall k | 0 <= k < n ::
              Before(cfg, a, k) == Before(cfg, b, k) && After(cfg, a, k) == After(cfg, b, k)
  {
    if n > 0 {
      assert a[..n - 1] == a[..n][..n - 1] && b[..n - 1] == b[..n][..n - 1];
      assert a[n - 1] == a[..n][n - 1] && b[n - 1] == b[..n][n - 1];
      SamePrefix(cfg, a, b, n - 1);
    }
  }

  lemma NextBefore(cfg: SaneConfig, times: seq<int>, now: int)
    ensures Before(cfg, times + [now], |times|)
            == if times == [] then cfg.capacity
               else Refilled(cfg, After(cfg, times, |times| - 1), Seconds(now - times[|times| - 1]))
  {
    SamePrefix(cfg, times, times + [now], |times|);
  }

  class TokenBucket {
    const cfg: SaneConfig
    var tokens: real
    var last: int
    /** Times of the requests so far. */
    ghost var times: seq<int>

    ghost predicate Valid()
      reads this
    {
      if times == [] then tokens == cfg.capacity
      else tokens == After(cfg, times, |times| - 1) && last == times[|times| - 1]
    }

    constructor (cfg: SaneConfig, now: int)
      ensures Valid() && this.cfg == cfg && times == [] && last == now
    {
      this.cfg := cfg;
      tokens := cfg.capacity;
      last := now;
      times := [];
    }

    /** The first request comes no earlier than the bucket's creation. */
    method Allow(now: int) returns (ok: bool, remaining: real)
      requires Valid() && (times == [] ==> now >= last)
      modifies this
      ensures Valid() && times == old(times) + [now]
      ensures ok == Admits(cfg, times, |times| - 1)
      ensures remaining == if ok then After(cfg, times, |times| - 1) else 0.0
    {
      hide Before;
      ghost var next := times + [now];
      NextBefore(cfg, times, now);
      if times == [] {
        RealMulMono(0.0, Seconds(now - last), cfg.rate);
      }
      var elapsed := Seconds(now - last);
      last := now;
      tokens := tokens + elapsed * cfg.rate;
      if tokens > cfg.capacity {
        tokens := cfg.capacity;
      }
      times := next;
      assert tokens == Before(cfg, next, |next| - 1);
      assert After(cfg, next, |next| - 1) == if tokens < 1.0 then tokens else tokens - 1.0;
      if tokens < 1.0 {
        return false, 0.0;
      }
      tokens := tokens - 1.0;
      return true, tokens;
    }
  }

  // ----- One bucket per tenant -----

  datatype Ask = Ask(key: string, time: int)

  /** When a tenant asked. */
  function TimesOf(asks: seq<Ask>, key: string): seq<int> {
    if |asks| == 0 then []
    else
      var a := asks[|asks| - 1];
      TimesOf(asks[..|asks| - 1], key) + if a.key == key then [a.time] else []
  }

  lemma TimesOfOne(asks: seq<Ask>, a: Ask, key: string)
    ensures TimesOf(asks + [a], key) == TimesOf(asks, key) + if a.key == key then [a.time] else []
  {
    assert (asks + [a])[..|asks|] == asks;
  }

  /** The buckets of all tenants, made on first use; `asks` is what all of them asked. */
  class Registry {
    const cfg: SaneConfig
    var buckets: map<string, TokenBucket>
    ghost var asks: seq<Ask>
    ghost var Repr: set<object>

    ghost predicate Shape()
      reads this, Repr
    {
      && this in Repr
      && (forall key | key in buckets :: buckets[key] in Repr && buckets[key].Valid() && buckets[key].cfg == cfg)
      && (forall key, other | key in buckets && other in buckets && key != other :: buckets[key] != buckets[other])
    }

    ghost predicate Matches(key: string)
      requires Shape()
      reads this, Repr
    {
      && (key in buckets <==> TimesOf(asks, key) != [])
      && (key in buckets ==> buckets[key].times == TimesOf(asks, key))
    }

    ghost predicate Valid()
      reads this, Repr
    {
      Shape() && forall key :: Matches(key)
    }

    constructor (cfg: SaneConfig)
      ensures Valid() && fresh(Repr) && this.cfg == cfg && asks == []
    {
      this.cfg := cfg;
      buckets, asks := map[], [];
      Repr := {this};
    }

    /** A tenant's request is decided by that tenant's own requests alone. */
    method Allow(key: string, now: int) returns (ok: bool, remaining: real)
      requires Valid()
      modifies Repr
      ensures Valid() && fresh(Repr - old(Repr)) && asks == old(asks) + [Ask(key, now)]
      ensures var times := TimesOf(asks, key);
              && times == TimesOf(old(asks), key) + [now]
              && ok == Admits(cfg, times, |times| - 1)
              && remaining == if ok then After(cfg, times, |times| - 1) else 0.0
    {
      hide TimesOf, Admits, After, TokenBucket.Valid;
      assert Matches(key);
      var b := GetOrCreate(key, now);
      label found:
      ok, remaining := b.Allow(now);
      ghost var was := asks;
      asks := asks + [Ask(key, now)];
      forall other
        ensures Matches(other)
      {
        TimesOfOne(was, Ask(key, now), other);
        assert other != key ==> old@found(Matches(other));
        assert other in buckets && other != key ==> buckets[other] != b;
      }
      TimesOfOne(was, Ask(key, now), key);
    }

    method GetOrCreate(key: string, now: int) returns (b: TokenBucket)
      requires Valid()
      modifies this
      ensures Shape() && fresh(Repr - old(Repr)) && asks == old(asks)
      ensures forall other | other != key :: Matches(other)
      ensures key in buckets && buckets[key] == b && b.times == TimesOf(asks, key) && (b.times == [] ==> b.last == now)
      ensures key in old(buckets) ==> b == old(buckets)[key]
    {
      hide TimesOf, TokenBucket.Valid;
      assert Matches(key);
      if key in buckets {
        return buckets[key];
      }
      b := new TokenBucket(cfg, now);
      buckets := buckets[key := b];
      Repr := Repr + {b};
      assert forall other | other != key :: old(Matches(other)) ==> Matches(other);
    }
  }

  // ----- Exactness -----

  ghost predicate Ordered(times: seq<int>) {
    forall i, j | 0 <= i <= j < |times| :: times[i] <= times[j]
  }

  /** Requests number i up to, not including, j that `chosen` lets through. */
  function Chosen(chosen: seq<bool>, i: nat, j: nat): nat
    requires i <= j <= |chosen|
    decreases j
  {
    if i == j then 0 else Chosen(chosen, i, j - 1) + if chosen[j - 1] then 1 else 0
  }

  /** The bucket's own decisions. */
  function Admitted(cfg: SaneConfig, times: seq<int>): (r: seq<bool>)
    ensures |r| == |times|
  {
    seq(|times|, k requires 0 <= k < |times| => Admits(cfg, times, k))
  }

  /** The most requests the limit promises between two instants. */
  function Allowance(cfg: SaneConfig, t1: int, t2: int): real {
    cfg.capacity + cfg.rate * Seconds(t2 - t1)
  }

  /** Decisions keep the limit when no stretch of the run lets through more than its allowance. */
  ghost predicate Conforms(cfg: SaneConfig, times: seq<int>, chosen: seq<bool>)
    requires |chosen| == |times|
  {
    forall i, j | 0 <= i <= j < |times| ::
      Chosen(chosen, i, j + 1) as real <= Allowance(cfg, times[i], times[j])
  }

  lemma AllowanceGrows(cfg: SaneConfig, t1: int, t2: int, t3: int)
    requires t2 <= t3
    ensures Allowance(cfg, t1, t3) == Allowance(cfg, t1, t2) + Seconds(t3 - t2) * cfg.rate
    ensures Seconds(t3 - t2) * cfg.rate >= 0.0
  {
    RealMulAdd(cfg.rate, Seconds(t2 - t1), Seconds(t3 - t2));
    assert Seconds(t3 - t1) == Seconds(t2 - t1) + Seconds(t3 - t2);
    RealMulMono(0.0, Seconds(t3 - t2), cfg.rate);
  }

  /** The budget left for request k by the stretch that starts at request i. */
  function Budget(cfg: SaneConfig, times: seq<int>, i: nat, k: nat): real
    requires i <= k < |times|
  {
    Allowance(cfg, times[i], times[k]) - Chosen(Admitted(cfg, times), i, k) as real
  }

  lemma BudgetStep(cfg: SaneConfig, times: seq<int>, i: nat, k: nat)
    requires Ordered(times) && i < k < |times|
    ensures Budget(cfg, times, i, k)
            == Budget(cfg, times, i, k - 1) + Seconds(times[k] - times[k - 1]) * cfg.rate
               - if Admits(cfg, times, k - 1) then 1.0 else 0.0
  {
    AllowanceGrows(cfg, times[i], times[k - 1], times[k]);
  }

  lemma BudgetAtOnce(cfg: SaneConfig, times: seq<int>, k: nat)
    requires k < |times|
    ensures Budget(cfg, times, k, k) == cfg.capacity
  {
    assert cfg.rate * Seconds(0) == 0.0;
  }

  /** The tokens in the bucket are exactly the smallest budget over all stretches ending now. */
  lemma {:induction false} TokensAreTightestBudget(cfg: SaneConfig, times: seq<int>, k: nat) returns (tight: nat)
    requires Ordered(times) && k < |times|
    ensures tight <= k && Before(cfg, times, k) == Budget(cfg, times, tight, k)
    ensures forall i | 0 <= i <= k :: Before(cfg, times, k) <= Budget(cfg, times, i, k)
  {
    hide Budget, Admits, Admitted, Chosen, Allowance;
    BudgetAtOnce(cfg, times, k);
    if k == 0 {
      return 0;
    }
    BeforeStep(cfg, times, k);
    hide Before;
    tight := TokensAreTightestBudget(cfg, times, k - 1);
    forall i | 0 <= i <= k - 1
      ensures Before(cfg, times, k) <= Budget(cfg, times, i, k)
    {
      BudgetStep(cfg, times, i, k);
    }
    BudgetStep(cfg, times, tight, k);
    if Before(cfg, times, k) != Budget(cfg, times, tight, k) {
      tight := k;
    }
  }

  /** A request is refused exactly when some stretch ending with it would exceed its allowance. */
  lemma RefusedExactly(cfg: SaneConfig, times: seq<int>, k: nat)
    requires Ordered(times) && k < |times|
    ensures !Admits(cfg, times, k) <==>
            exists i :: 0 <= i <= k && (Chosen(Admitted(cfg, times), i, k) + 1) as real > Allowance(cfg, times[i], times[k])
  {
    var tight := TokensAreTightestBudget(cfg, times, k);
    if Admits(cfg, times, k) {
      forall i | 0 <= i <= k
        ensures (Chosen(Admitted(cfg, times), i, k) + 1) as real <= Allowance(cfg, times[i], times[k])
      {
        assert Budget(cfg, times, i, k) >= 1.0;
      }
    } else {
      assert Budget(cfg, times, tight, k) < 1.0;
    }
  }

  /** Every stretch of every run stays within its allowance. */
  lemma {:induction false} StretchWithinAllowance(cfg: SaneConfig, times: seq<int>, i: nat, j: nat)
    requires Ordered(times) && i <= j < |times|
    ensures var n := Chosen(Admitted(cfg, times), i, j + 1);
            n as real <= Allowance(cfg, times[i], times[j])
    decreases j
  {
    if Admits(cfg, times, j) {
      RefusedExactly(cfg, times, j);
    } else if i < j {
      StretchWithinAllowance(cfg, times, i, j - 1);
      AllowanceGrows(cfg, times[i], times[j - 1], times[j]);
    } else {
      assert Chosen(Admitted(cfg, times), i, i) == 0;
      assert cfg.rate * Seconds(0) == 0.0;
    }
  }

  lemma BucketConforms(cfg: SaneConfig, times: seq<int>)
    requires Ordered(times)
    ensures Conforms(cfg, times, Admitted(cfg, times))
  {
    forall i, j | 0 <= i <= j < |times|
      ensures Chosen(Admitted(cfg, times), i, j + 1) as real <= Allowance(cfg, times[i], times[j])
    {
      StretchWithinAllowance(cfg, times, i, j);
    }
  }

  lemma {:induction false} ChosenSplit(chosen: seq<bool>, i: nat, j: nat, k: nat)
    requires i <= j <= k <= |chosen|
    ensures Chosen(chosen, i, k) == Chosen(chosen, i, j) + Chosen(chosen, j, k)
    decreases k
  {
    if j < k {
      ChosenSplit(chosen, i, j, k - 1);
    }
  }

  /** No limiter that keeps the limit has, at any point of any run, let through more requests
      than the bucket: refusing early never pays. */
  lemma {:induction false} BucketIsOptimal(cfg: SaneConfig, times: seq<int>, chosen: seq<bool>, k: nat)
    requires Ordered(times) && |chosen| == |times| && k <= |times|
    requires Conforms(cfg, times, chosen)
    ensures Chosen(chosen, 0, k) <= Chosen(Admitted(cfg, times), 0, k)
    decreases k
  {
    if k > 0 {
      var admitted := Admitted(cfg, times);
      BucketIsOptimal(cfg, times, chosen, k - 1);
      if !Admits(cfg, times, k - 1) {
        RefusedExactly(cfg, times, k - 1);
        var i :| 0 <= i <= k - 1 && (Chosen(admitted, i, k - 1) + 1) as real > Allowance(cfg, times[i], times[k - 1]);
        BucketIsOptimal(cfg, times, chosen, i);
        ChosenSplit(chosen, 0, i, k);
        ChosenSplit(admitted, 0, i, k);
        assert Chosen(chosen, i, k) < Chosen(admitted, i, k - 1) + 1;
      }
    }
  }

  // ----- Retry-After -----

  function Ceil(x: real): int {
    -((-x).Floor)
  }

  /** The middleware's header value: whole seconds, rounded up, for one token to accrue. */
  function RetryAfter(cfg: SaneConfig): int {
    Ceil(60.0 / (cfg.rate * 60.0))
  }

  lemma {:induction false} TokensStayNonNegative(cfg: SaneConfig, times: seq<int>, k: nat)
    requires Ordered(times) && k < |times|
    ensures Before(cfg, times, k) >= 0.0
  {
    if k > 0 {
      TokensStayNonNegative(cfg, times, k - 1);
      BeforeStep(cfg, times, k);
    }
  }

  lemma {:induction false} TokensAccrue(cfg: SaneConfig, times: seq<int>, k: nat, m: nat)
    requires Ordered(times) && k <= m < |times|
    requires forall j | k <= j < m :: !Admits(cfg, times, j)
    ensures Before(cfg, times, m) >= cfg.capacity || Before(cfg, times, m) >= cfg.rate * Seconds(times[m] - times[k])
    decreases m
  {
    if k == m {
      TokensStayNonNegative(cfg, times, k);
      assert cfg.rate * Seconds(0) == 0.0;
    } else {
      TokensAccrue(cfg, times, k, m - 1);
      BeforeStep(cfg, times, m);
      AllowanceGrows(cfg, times[k], times[m - 1], times[m]);
    }
  }

  lemma OneTokenAccrues(cfg: SaneConfig, seconds: real)
    requires seconds >= RetryAfter(cfg) as real
    ensures cfg.rate * seconds >= 1.0
  {
    var q := TokenTime(cfg);
    RealMulMono(q, seconds, cfg.rate);
  }

  /** Request k was refused, and request m comes at least `wait` seconds later. */
  ghost predicate CameBack(cfg: SaneConfig, times: seq<int>, k: nat, m: nat, wait: int) {
    && k < m < |times| && Ordered(times)
    && !Admits(cfg, times, k)
    && Seconds(times[m] - times[k]) >= wait as real
  }

  /** Some request after the k-th, up to the m-th, is admitted. */
  ghost predicate AdmitsBetween(cfg: SaneConfig, times: seq<int>, k: nat, m: nat)
    requires m < |times|
  {
    exists j :: k < j <= m && Admits(cfg, times, j)
  }

  /** A refused client that comes back after `Retry-After` seconds finds its request, or one between,
      admitted. */
  lemma RetryAfterSuffices(cfg: SaneConfig, times: seq<int>, k: nat, m: nat)
    requires CameBack(cfg, times, k, m, RetryAfter(cfg))
    ensures AdmitsBetween(cfg, times, k, m)
  {
    if forall j | k <= j < m :: !Admits(cfg, times, j) {
      TokensAccrue(cfg, times, k, m);
      OneTokenAccrues(cfg, Seconds(times[m] - times[k]));
      assert Admits(cfg, times, m);
    }
  }

  /** `wait` seconds are enough in every run. */
  ghost predicate AlwaysEnough(cfg: SaneConfig, wait: int) {
    forall times, k, m | CameBack(cfg, times, k, m, wait) :: AdmitsBetween(cfg, times, k, m)
  }

  /** `Retry-After` is the shortest whole number of seconds that is always enough. */
  lemma RetryAfterExactly(cfg: SaneConfig, wait: int)
    ensures AlwaysEnough(cfg, wait) <==> wait >= RetryAfter(cfg)
  {
    if wait >= RetryAfter(cfg) {
      forall times, k, m | CameBack(cfg, times, k, m, wait)
        ensures AdmitsBetween(cfg, times, k, m)
      {
        RetryAfterSuffices(cfg, times, k, m);
      }
    } else {
      var times, k := TooSoon(cfg, if wait < 0 then 0 else wait);
      assert CameBack(cfg, times, k, k + 1, wait);
    }
  }

  /** A burst drains the bucket; the refused client then comes back too soon. */
  lemma TooSoon(cfg: SaneConfig, wait: nat) returns (times: seq<int>, k: nat)
    requires wait < RetryAfter(cfg) || wait == 0
    ensures CameBack(cfg, times, k, k + 1, wait) && !AdmitsBetween(cfg, times, k, k + 1)
  {
    k := cfg.capacity.Floor;
    times := seq(k + 1, _ => 0) + [wait * 1000000000];
    Drained(cfg, times, k);
    DrainedThen(cfg, times, k, wait);
    hide Before, Seconds;
    WholeSeconds(wait);
    assert times[k] == 0 && times[k + 1] == wait * 1000000000;
    assert forall i, j | 0 <= i <= j < |times| :: times[i] <= times[j];
    assert !Admits(cfg, times, k) && !Admits(cfg, times, k + 1);
  }

  lemma DrainedThen(cfg: SaneConfig, times: seq<int>, k: nat, wait: nat)
    requires wait < RetryAfter(cfg) || wait == 0
    requires k == cfg.capacity.Floor && |times| == k + 2 && times[k] == 0 && times[k + 1] == wait * 1000000000
    requires Before(cfg, times, k) == cfg.capacity - k as real
    ensures Before(cfg, times, k) < 1.0 && Before(cfg, times, k + 1) < 1.0
  {
    hide Seconds, RetryAfter, Ceil;
    assert times[k + 1] - times[k] == wait * 1000000000;
    WholeSeconds(wait);
    assert !Admits(cfg, times, k);
    hide Before;
    var gain := GainStep(cfg, times, k + 1);
    NoTokenYet(cfg, wait, Seconds(times[k + 1] - times[k]), cfg.rate, gain);
  }

  lemma GainStep(cfg: SaneConfig, times: seq<int>, k: nat) returns (gain: real)
    requires 0 < k < |times| && times[k - 1] <= times[k] && !Admits(cfg, times, k - 1)
    ensures gain == Seconds(times[k] - times[k - 1]) * cfg.rate && Before(cfg, times, k) <= Before(cfg, times, k - 1) + gain
  {
    gain := Seconds(times[k] - times[k - 1]) * cfg.rate;
    BeforeStep(cfg, times, k);
    hide Before, Seconds;
  }

  lemma {:induction false} Drained(cfg: SaneConfig, times: seq<int>, j: nat)
    requires j <= cfg.capacity.Floor && j < |times| && forall i | 0 <= i <= j :: times[i] == 0
    ensures Before(cfg, times, j) == cfg.capacity - j as real
  {
    if j > 0 {
      Drained(cfg, times, j - 1);
      BeforeStep(cfg, times, j);
      assert Seconds(0) * cfg.rate == 0.0;
    }
  }

  lemma NoTokenYet(cfg: SaneConfig, wait: nat, w: real, rate: real, gain: real)
    requires wait < RetryAfter(cfg) || wait == 0
    requires w == wait as real && rate == cfg.rate && gain == w * rate
    ensures gain < 1.0
  {
    hide RetryAfter, Ceil;
    var q := TokenTime(cfg);
    if wait > 0 {
      BelowCeil(wait, q);
    }
    ProductBelow(w, q, rate);
  }

  lemma ProductBelow(w: real, q: real, rate: real)
    requires rate > 0.0 && w < q && q * rate == 1.0
    ensures w * rate < 1.0
  {
    RealMulIff(w, q, rate);
    var x, y := w * rate, q * rate;
    assert x < y;
  }

  lemma BelowCeil(n: int, x: real)
    requires n < Ceil(x)
    ensures (n as real) < x
  {
  }

  /** The seconds one token takes. */
  lemma TokenTime(cfg: SaneConfig) returns (q: real)
    ensures RetryAfter(cfg) == Ceil(q) && q * cfg.rate == 1.0 && q > 0.0
  {
    q := 60.0 / (cfg.rate * 60.0);
    QuotientTimes(60.0, cfg.rate * 60.0);
    assert (q * cfg.rate) * 60.0 == 60.0;
  }

  lemma WholeSeconds(n: int)
    ensures Seconds(n * 1000000000) == n as real
  {
    var x := n as real;
    assert (n * 1000000000) as real == x * NANOS;
    assert x * NANOS / NANOS == x;
  }
}
