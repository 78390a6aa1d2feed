/** Theorems about every run of a circuit breaker (internal/circuit/breaker.go): what the
    lazily rotated window counts, when the breaker trips, and how probes are spaced. */
module BreakerRuns {
  import opened Arith
  import opened Windows
  import opened Breakers

  /** One call on the breaker, at a time the clock gave it. */
  datatype Op =
    | Allow(time: int)
    | Success(time: int)
    | Failure(time: int)
    | GetState(time: int)
    | ErrorRate(time: int)
  {
    predicate IsOutcome() {
      Success? || Failure?
    }
  }

  function Step(cfg: UsableConfig, m: Model, op: Op): Model {
    match op
    case Allow(t) => AfterTouch(cfg, m, t)
    case GetState(t) => AfterTouch(cfg, m, t)
    case Success(t) => AfterSuccess(cfg, m, t)
    case Failure(t) => AfterFailure(cfg, m, t)
    case ErrorRate(t) => AfterErrorRate(cfg, m, t)
  }

  function Run(cfg: UsableConfig, m: Model, ops: seq<Op>): Model {
    if |ops| == 0 then m
    else Step(cfg, Run(cfg, m, ops[..|ops| - 1]), ops[|ops| - 1])
  }

  /** The clock never goes back. */
  ghost predicate Ordered(t0: int, ops: seq<Op>) {
    && (forall i | 0 <= i < |ops| :: t0 <= ops[i].time)
    && (forall i, j | 0 <= i < j < |ops| :: ops[i].time <= ops[j].time)
  }

  function LastTime(t0: int, ops: seq<Op>): int {
    if |ops| == 0 then t0 else ops[|ops| - 1].time
  }

  lemma OrderedAppend(t0: int, ops: seq<Op>, op: Op)
    requires Ordered(t0, ops) && LastTime(t0, ops) <= op.time
    ensures Ordered(t0, ops + [op])
  {
  }

  // ----- What the window counts -----

  /** How far rotations and elapsed time can drift apart for one logged outcome. */
  ghost predicate EntryFaithful(h: History, d: int, e: Outcome) {
    && e.step <= h.step
    && e.anchor <= e.time < e.anchor + d
    && (h.step - e.step) * d <= h.lastTime - e.anchor
    && (Counted(h, e) ==> h.lastTime - e.anchor <= (h.step - e.step) * (2 * d - 1))
  }

  ghost predicate Faithful(h: History, d: int) {
    forall e | e in h.log :: EntryFaithful(h, d, e)
  }

  lemma RotationBounds(elapsed: int, d: int)
    requires d > 0 && elapsed >= 0
    ensures Rotations(elapsed, d) * d <= elapsed
    ensures Rotations(elapsed, d) < NUM_BUCKETS ==> elapsed < Rotations(elapsed, d) * d + d
    ensures 0 < Rotations(elapsed, d) < NUM_BUCKETS ==> elapsed <= Rotations(elapsed, d) * (2 * d - 1)
  {
    var q := elapsed / d;
    DivBounds(elapsed, d);
    if q > NUM_BUCKETS {
      MulMono(NUM_BUCKETS, q, d);
    } else if q > 0 {
      NearlyTwice(q, d);
    }
  }

  lemma NearlyTwice(q: int, d: int)
    requires q > 0 && d > 0
    ensures q * d + d <= q * (2 * d - 1) + 1
  {
    MulMono(1, q, d - 1);
    assert q * (2 * d - 1) == q * d + q * (d - 1);
  }

  lemma AdvanceFaithful(h: History, d: int, now: int)
    requires d > 0 && now >= h.lastTime && Faithful(h, d)
    ensures var a := Advance(h, d, now);
            Faithful(a, d) && a.lastTime <= now < a.lastTime + d
  {
    var n := Rotations(now - h.lastTime, d);
    var a := Advance(h, d, now);
    RotationBounds(now - h.lastTime, d);
    forall e | e in h.log
      ensures EntryFaithful(a, d, e)
    {
      var k := h.step - e.step;
      assert EntryFaithful(h, d, e);
      if n > 0 {
        MulAdd(k, n, d);
        MulAdd(k, n, 2 * d - 1);
      }
    }
  }

  lemma RecordFaithful(h: History, d: int, now: int, success: bool)
    requires d > 0 && now >= h.lastTime && Faithful(h, d)
    ensures var r := Record(h, d, now, success);
            Faithful(r, d) && r.lastTime <= now < r.lastTime + d
  {
    AdvanceFaithful(h, d, now);
    var a := Advance(h, d, now);
    var r := Record(h, d, now, success);
    forall e | e in r.log
      ensures EntryFaithful(r, d, e)
    {
      assert e in a.log ==> EntryFaithful(a, d, e);
    }
  }

  lemma {:induction false} RunFaithful(cfg: UsableConfig, t0: int, ops: seq<Op>)
    requires Ordered(t0, ops)
    ensures var m := Run(cfg, NewModel(t0), ops);
            && Faithful(m.window, cfg.BucketDur())
            && m.window.lastTime <= LastTime(t0, ops)
            && (m.state != Closed ==> m.openedAt <= LastTime(t0, ops))
            && (forall e | e in m.window.log :: e.time <= LastTime(t0, ops))
  {
    if |ops| > 0 {
      var init, op := ops[..|ops| - 1], ops[|ops| - 1];
      RunFaithful(cfg, t0, init);
      var m := Run(cfg, NewModel(t0), init);
      assert m.window.lastTime <= op.time;
      match op
      case Allow(_) =>
      case GetState(_) =>
      case Success(t) => RecordFaithful(m.window, cfg.BucketDur(), t, true);
      case Failure(t) => RecordFaithful(m.window, cfg.BucketDur(), t, false);
      case ErrorRate(t) => AdvanceFaithful(m.window, cfg.BucketDur(), t);
    }
  }

  lemma FaithfulAges(h: History, d: int, now: int, e: Outcome)
    requires d > 0 && EntryFaithful(h, d, e) && h.lastTime <= now < h.lastTime + d
    ensures now - e.time <= 9 * d ==> Counted(h, e)
    ensures Counted(h, e) ==> now - e.time <= 19 * d - 10
  {
    var k := h.step - e.step;
    if Counted(h, e) {
      MulMono(k, 9, 2 * d - 1);
    } else {
      MulMono(10, k, d);
    }
  }

  /** Every outcome of age at most 9d counts, and none older than 19d - 10 nanoseconds. */
  ghost predicate AgesBounded(h: History, d: int, now: int) {
    forall e | e in h.log ::
      && (now - e.time <= 9 * d ==> Counted(h, e))
      && (Counted(h, e) ==> 0 <= now - e.time <= 19 * d - 10)
  }

  /** With buckets of width d, this holds of a query at any later time in any run. */
  lemma WindowBounds(cfg: UsableConfig, t0: int, ops: seq<Op>, now: int)
    requires Ordered(t0, ops) && now >= LastTime(t0, ops)
    ensures var d := cfg.BucketDur();
            AgesBounded(Advance(Run(cfg, NewModel(t0), ops).window, d, now), d, now)
  {
    RunFaithful(cfg, t0, ops);
    var d := cfg.BucketDur();
    var w := Run(cfg, NewModel(t0), ops).window;
    AdvanceFaithful(w, d, now);
    var h := Advance(w, d, now);
    forall e | e in h.log
      ensures now - e.time <= 9 * d ==> Counted(h, e)
      ensures Counted(h, e) ==> 0 <= now - e.time <= 19 * d - 10
    {
      FaithfulAges(h, d, now, e);
    }
  }

  /** The lower bound is exact for every bucket width: an outcome of age 9d + 1 can be lost. */
  lemma WindowLowerBoundTight(cfg: UsableConfig) returns (ops: seq<Op>, now: int)
    ensures var d := cfg.BucketDur();
            && Ordered(0, ops) && now >= LastTime(0, ops)
            && var h := Advance(Run(cfg, NewModel(0), ops).window, d, now);
               exists e :: e in h.log && now - e.time == 9 * d + 1 && !Counted(h, e)
  {
    var d := cfg.BucketDur();
    ops, now := [Success(d - 1)], 10 * d;
    RunStep(cfg, NewModel(0), ops, 0);
    assert ops[..1] == ops;
    DivUnique(d - 1, 0, d);
    DivUnique(10 * d, 10, d);
    var h := Advance(Run(cfg, NewModel(0), ops).window, d, now);
    assert h.log[0] in h.log;
  }

  /** One success, then queries `gap` apart. */
  function SlowQueries(gap: int, n: nat): seq<Op> {
    if n == 0 then [Success(0)] else SlowQueries(gap, n - 1) + [ErrorRate(n * gap)]
  }

  lemma {:induction false} SlowQueriesOrdered(gap: int, n: nat)
    requires gap >= 0
    ensures Ordered(0, SlowQueries(gap, n)) && LastTime(0, SlowQueries(gap, n)) == n * gap
  {
    if n > 0 {
      SlowQueriesOrdered(gap, n - 1);
      MulMono(n - 1, n, gap);
      OrderedAppend(0, SlowQueries(gap, n - 1), ErrorRate(n * gap));
    }
  }

  /** Queries just short of two bucket widths apart rotate the ring only once each. */
  lemma {:induction false} SlowQueriesRun(cfg: UsableConfig, gap: int, n: nat)
    requires gap == 2 * cfg.BucketDur() - 1
    ensures Run(cfg, NewModel(0), SlowQueries(gap, n)).window == History([Outcome(0, true, 0, 0)], n, n * gap)
  {
    var d := cfg.BucketDur();
    var m := NewModel(0);
    if n == 0 {
      assert [Success(0)][..0] == [];
      DivUnique(0, 0, d);
      assert Run(cfg, m, SlowQueries(gap, 0)) == AfterSuccess(cfg, Run(cfg, m, []), 0);
    } else {
      SlowQueriesRun(cfg, gap, n - 1);
      var ops := SlowQueries(gap, n);
      assert ops[..|ops| - 1] == SlowQueries(gap, n - 1);
      SlowRotation((n - 1) * gap, n * gap, gap, d) by {
        MulAdd(n - 1, 1, gap);
      }
    }
  }

  lemma SlowRotation(before: int, after: int, gap: int, d: int)
    requires d > 0 && gap == 2 * d - 1 && after == before + gap
    ensures Rotations(after - before, d) == 1
  {
    DivUnique(gap, 1, d);
  }

  /** The upper bound is exact for every bucket width: an outcome of age 19d - 10 can still count. */
  lemma WindowUpperBoundTight(cfg: UsableConfig) returns (ops: seq<Op>, now: int)
    ensures var d := cfg.BucketDur();
            && Ordered(0, ops) && now >= LastTime(0, ops)
            && var h := Advance(Run(cfg, NewModel(0), ops).window, d, now);
               exists e :: e in h.log && now - e.time == 19 * d - 10 && Counted(h, e)
  {
    var d := cfg.BucketDur();
    SlowQueriesOrdered(2 * d - 1, 9);
    SlowQueriesRun(cfg, 2 * d - 1, 9);
    ops, now := SlowQueries(2 * d - 1, 9), 19 * d - 10;
    DivUnique(d - 1, 0, d);
    var h := Advance(Run(cfg, NewModel(0), ops).window, d, now);
    assert h.log[0] in h.log;
  }

  // ----- The log is what was recorded since the breaker last closed -----

  function Recorded(ops: seq<Op>): seq<(int, bool)> {
    if |ops| == 0 then []
    else
      var rest := Recorded(ops[..|ops| - 1]);
      var op := ops[|ops| - 1];
      if op.IsOutcome() then rest + [(op.time, op.Success?)] else rest
  }

  function Project(log: seq<Outcome>): seq<(int, bool)> {
    seq(|log|, i requires 0 <= i < |log| => (log[i].time, log[i].success))
  }

  /** The step that closes a half-open breaker and gives it an empty window. */
  ghost predicate ClosesAt(cfg: UsableConfig, m: Model, ops: seq<Op>, i: nat)
    requires i < |ops|
  {
    ops[i].Success? && Run(cfg, m, ops[..i]).state == HalfOpen
  }

  lemma {:induction false} LogIsRecorded(cfg: UsableConfig, t0: int, ops: seq<Op>) returns (k: nat)
    ensures k <= |ops|
    ensures Project(Run(cfg, NewModel(t0), ops).window.log) == Recorded(ops[k..])
    ensures k > 0 ==> ClosesAt(cfg, NewModel(t0), ops, k - 1)
    ensures forall j | k <= j < |ops| :: !ClosesAt(cfg, NewModel(t0), ops, j)
  {
    hide Rotations, Trips;
    if |ops| == 0 {
      return 0;
    }
    var n := |ops| - 1;
    var init := ops[..n];
    k := LogIsRecorded(cfg, t0, init);
    forall j: nat | j < n
      ensures ClosesAt(cfg, NewModel(t0), init, j) == ClosesAt(cfg, NewModel(t0), ops, j)
    {
      assert init[..j] == ops[..j];
    }
    if ClosesAt(cfg, NewModel(t0), ops, n) {
      k := |ops|;
    } else {
      assert ops[k..][..|ops[k..]| - 1] == init[k..];
    }
  }

  // ----- Trips -----

  function Within(now: int, age: int): Outcome -> bool {
    (e: Outcome) => now - e.time <= age
  }

  function KindWithin(now: int, age: int, success: bool): Outcome -> bool {
    (e: Outcome) => now - e.time <= age && e.success == success
  }

  /** The window right after a failure was recorded at the end of a run. */
  function WindowAfterFailure(cfg: UsableConfig, t0: int, ops: seq<Op>, now: int): History {
    Record(Run(cfg, NewModel(t0), ops).window, cfg.BucketDur(), now, false)
  }

  lemma FailureWindowBounds(cfg: UsableConfig, t0: int, ops: seq<Op>, now: int)
    requires Ordered(t0, ops) && now >= LastTime(t0, ops)
    ensures var d := cfg.BucketDur();
            AgesBounded(WindowAfterFailure(cfg, t0, ops, now), d, now)
  {
    var d := cfg.BucketDur();
    RunFaithful(cfg, t0, ops);
    RecordFaithful(Run(cfg, NewModel(t0), ops).window, d, now, false);
    var w := WindowAfterFailure(cfg, t0, ops, now);
    forall e | e in w.log
      ensures now - e.time <= 9 * d ==> Counted(w, e)
      ensures Counted(w, e) ==> 0 <= now - e.time <= 19 * d - 10
    {
      FaithfulAges(w, d, now, e);
    }
  }

  /** What the rotating window counts lies between the outcomes of the last 9d and those of the
      last 19d - 10. */
  lemma TotalsBetween(h: History, d: int, now: int)
    requires AgesBounded(h, d, now)
    ensures Count(h.log, Within(now, 9 * d)) <= Total(h, true) + Total(h, false) <= Count(h.log, Within(now, 19 * d - 10))
    ensures forall success ::
              Count(h.log, KindWithin(now, 9 * d, success)) <= Total(h, success) <= Count(h.log, KindWithin(now, 19 * d - 10, success))
  {
    var counted := (e: Outcome) => Counted(h, e);
    CountSplit(h.log, counted, (e: Outcome) => Counted(h, e) && e.success == true, (e: Outcome) => Counted(h, e) && e.success == false);
    CountMono(h.log, Within(now, 9 * d), counted);
    CountMono(h.log, counted, Within(now, 19 * d - 10));
    forall success
      ensures Count(h.log, KindWithin(now, 9 * d, success)) <= Total(h, success) <= Count(h.log, KindWithin(now, 19 * d - 10, success))
    {
      CountMono(h.log, KindWithin(now, 9 * d, success), (e: Outcome) => Counted(h, e) && e.success == success);
      CountMono(h.log, (e: Outcome) => Counted(h, e) && e.success == success, KindWithin(now, 19 * d - 10, success));
    }
  }

  lemma StateAfterFailure(cfg: UsableConfig, t0: int, ops: seq<Op>, now: int)
    requires Run(cfg, NewModel(t0), ops).state == Closed
    ensures Run(cfg, NewModel(t0), ops + [Failure(now)]).state
            == if Trips(cfg, WindowAfterFailure(cfg, t0, ops, now)) then Open else Closed
  {
    hide Run, Trips, Record;
    RunOneMore(cfg, NewModel(t0), ops, Failure(now));
  }

  /** A trip is justified by outcomes of the last 19d - 10 nanoseconds alone: enough of them,
      and a threshold share of the required samples were failures. */
  lemma TripJustified(cfg: UsableConfig, t0: int, ops: seq<Op>, now: int)
    requires Ordered(t0, ops) && now >= LastTime(t0, ops)
    requires cfg.threshold >= 0.0
    requires Run(cfg, NewModel(t0), ops).state == Closed
    requires Run(cfg, NewModel(t0), ops + [Failure(now)]).state == Open
    ensures var log := WindowAfterFailure(cfg, t0, ops, now).log;
            var age := 19 * cfg.BucketDur() - 10;
            && Count(log, Within(now, age)) >= cfg.minSamples
            && Count(log, KindWithin(now, age, false)) as real >= cfg.threshold * cfg.minSamples as real
  {
    hide Run, Count, Total, AgesBounded, Record, Ordered;
    StateAfterFailure(cfg, t0, ops, now);
    FailureWindowBounds(cfg, t0, ops, now);
    var w := WindowAfterFailure(cfg, t0, ops, now);
    TotalsBetween(w, cfg.BucketDur(), now);
    EnoughFailures(cfg, Total(w, false), Total(w, true) + Total(w, false));
  }

  /** What a trip counted: outcomes that are all that recent, enough of them, and a threshold share
      of them failures. */
  lemma TripShare(cfg: UsableConfig, t0: int, ops: seq<Op>, now: int)
    requires Ordered(t0, ops) && now >= LastTime(t0, ops)
    requires Run(cfg, NewModel(t0), ops).state == Closed
    requires Run(cfg, NewModel(t0), ops + [Failure(now)]).state == Open
    ensures var w := WindowAfterFailure(cfg, t0, ops, now);
            var total := Total(w, true) + Total(w, false);
            && total >= cfg.minSamples && Total(w, false) as real >= cfg.threshold * total as real
            && forall e | e in w.log && Counted(w, e) :: now - e.time <= 19 * cfg.BucketDur() - 10
  {
    hide Run, Record, Ordered, Trips, Total;
    StateAfterFailure(cfg, t0, ops, now);
    CountedAreRecent(cfg, t0, ops, now);
    TripMeans(cfg, WindowAfterFailure(cfg, t0, ops, now));
  }

  lemma TripMeans(cfg: UsableConfig, h: History)
    requires Trips(cfg, h)
    ensures var total := Total(h, true) + Total(h, false);
            total >= cfg.minSamples && Total(h, false) as real >= cfg.threshold * total as real
  {
    hide Total;
    var total := Total(h, true) + Total(h, false);
    QuotientAtLeast(Total(h, false) as real, total as real, cfg.threshold);
  }

  lemma CountedAreRecent(cfg: UsableConfig, t0: int, ops: seq<Op>, now: int)
    requires Ordered(t0, ops) && now >= LastTime(t0, ops)
    ensures var w := WindowAfterFailure(cfg, t0, ops, now);
            forall e | e in w.log && Counted(w, e) :: now - e.time <= 19 * cfg.BucketDur() - 10
  {
    hide Run, Record, Ordered, WindowAfterFailure;
    FailureWindowBounds(cfg, t0, ops, now);
  }

  lemma EnoughFailures(cfg: UsableConfig, failures: nat, total: nat)
    requires total > 0 && total >= cfg.minSamples && cfg.threshold >= 0.0
    requires failures as real / total as real >= cfg.threshold
    ensures failures as real >= cfg.threshold * cfg.minSamples as real
  {
    QuotientAtLeast(failures as real, total as real, cfg.threshold);
    RealMulMono(cfg.minSamples as real, total as real, cfg.threshold);
  }

  /** A trip happens whenever the outcomes of the last 9d are enough and their failures
      outweigh, in the configured proportion, every success of the last 19d - 10. */
  lemma TripHappens(cfg: UsableConfig, t0: int, ops: seq<Op>, now: int)
    requires Ordered(t0, ops) && now >= LastTime(t0, ops)
    requires 0.0 <= cfg.threshold <= 1.0
    requires Run(cfg, NewModel(t0), ops).state == Closed
    requires var log := WindowAfterFailure(cfg, t0, ops, now).log;
             var d := cfg.BucketDur();
             var f := Count(log, KindWithin(now, 9 * d, false));
             var s := Count(log, KindWithin(now, 19 * d - 10, true));
             && Count(log, Within(now, 9 * d)) >= cfg.minSamples
             && f as real >= cfg.threshold * (f + s) as real
    ensures Run(cfg, NewModel(t0), ops + [Failure(now)]).state == Open
  {
    hide Run, Count, Total, AgesBounded, Record, Ordered;
    StateAfterFailure(cfg, t0, ops, now);
    FailureWindowBounds(cfg, t0, ops, now);
    var d := cfg.BucketDur();
    var w := WindowAfterFailure(cfg, t0, ops, now);
    RecordedCounts(Run(cfg, NewModel(t0), ops).window, d, now, false);
    EnoughToTrip(cfg, w, d, now);
  }

  lemma EnoughToTrip(cfg: UsableConfig, h: History, d: int, now: int)
    requires AgesBounded(h, d, now) && Total(h, false) > 0
    requires 0.0 <= cfg.threshold <= 1.0
    requires Count(h.log, Within(now, 9 * d)) >= cfg.minSamples
    requires var f := Count(h.log, KindWithin(now, 9 * d, false));
             var s := Count(h.log, KindWithin(now, 19 * d - 10, true));
             f as real >= cfg.threshold * (f + s) as real
    ensures Trips(cfg, h)
  {
    hide Total, Count, AgesBounded;
    TotalsBetween(h, d, now);
    ShareIsMonotone(cfg.threshold, Count(h.log, KindWithin(now, 9 * d, false)),
                    Count(h.log, KindWithin(now, 19 * d - 10, true)), Total(h, false), Total(h, true));
  }

  /** More failures and fewer successes keep a failure share above a threshold of at most one. */
  lemma ShareIsMonotone(threshold: real, f0: nat, s0: nat, f: nat, s: nat)
    requires 0.0 <= threshold <= 1.0
    requires f0 <= f && s <= s0 && f > 0
    requires f0 as real >= threshold * (f0 + s0) as real
    ensures f as real / (s + f) as real >= threshold
  {
    var F0, S0, F, S := f0 as real, s0 as real, f as real, s as real;
    FailuresWeigh(threshold, F0, S0, F - F0, S);
    assert F0 + (F - F0) == F;
    QuotientAtLeast(F, S + F, threshold);
  }

  lemma FailuresWeigh(t: real, f: real, s0: real, more: real, s: real)
    requires 0.0 <= t <= 1.0 && more >= 0.0 && s <= s0
    requires f >= t * (f + s0)
    ensures f + more >= t * (s + (f + more))
  {
    var tf, ts0, ts, tm := t * f, t * s0, t * s, t * more;
    RealMulAdd(t, f, s0);
    RealMulMono(s, s0, t);
    AtMostAll(t, more);
    RealMulAdd(t, s, f + more);
    RealMulAdd(t, f, more);
    assert t * (s + (f + more)) == ts + (tf + tm);
    assert tf + ts0 <= f && ts <= ts0 && tm <= more;
  }

  lemma AtMostAll(t: real, x: real)
    requires t <= 1.0 && x >= 0.0
    ensures t * x <= x
  {
    RealMulMono(t, 1.0, x);
    assert x * t == t * x;
    assert x * 1.0 == x;
  }

  // ----- Probes -----

  /** The i-th call of the run is an `Allow` that lets its request through. */
  ghost predicate PermittedAt(cfg: UsableConfig, m: Model, ops: seq<Op>, i: nat)
    requires i < |ops|
  {
    ops[i].Allow? && Permits(cfg, Run(cfg, m, ops[..i]), ops[i].time)
  }

  lemma RunStep(cfg: UsableConfig, m: Model, ops: seq<Op>, i: nat)
    requires i < |ops|
    ensures Run(cfg, m, ops[..i + 1]) == Step(cfg, Run(cfg, m, ops[..i]), ops[i])
  {
    assert ops[..i + 1][..i] == ops[..i];
  }

  /** A half-open breaker stays half-open, and refuses everyone, until an outcome is recorded. */
  lemma {:induction false} HalfOpenWaits(cfg: UsableConfig, m: Model, ops: seq<Op>, i: nat, j: nat)
    requires i <= j <= |ops|
    requires Run(cfg, m, ops[..i]).state == HalfOpen
    requires forall k | i <= k < j :: !ops[k].IsOutcome()
    ensures Run(cfg, m, ops[..j]).state == HalfOpen
    ensures j < |ops| ==> !PermittedAt(cfg, m, ops, j)
    decreases j - i
  {
    if i < j {
      HalfOpenWaits(cfg, m, ops, i, j - 1);
      RunStep(cfg, m, ops, j - 1);
    }
  }

  /** At most one probe per half-open period: between two permitted calls, the first of which
      left the breaker half-open, an outcome was recorded. */
  lemma OneProbe(cfg: UsableConfig, m: Model, ops: seq<Op>, i: nat, j: nat)
    requires i < j < |ops|
    requires PermittedAt(cfg, m, ops, i) && PermittedAt(cfg, m, ops, j)
    requires Run(cfg, m, ops[..i]).state != Closed
    ensures exists k :: i < k < j && ops[k].IsOutcome()
  {
    RunStep(cfg, m, ops, i);
    if forall k | i < k < j :: !ops[k].IsOutcome() {
      HalfOpenWaits(cfg, m, ops, i + 1, j);
    }
  }

  ghost predicate NeverClosed(cfg: UsableConfig, m: Model, ops: seq<Op>, i: nat, j: nat)
    requires j <= |ops|
  {
    forall k | i <= k <= j :: Run(cfg, m, ops[..k]).state != Closed
  }

  /** Since a probe at time t, a breaker that has not closed is half-open or was opened no
      earlier than t. */
  lemma {:induction false} OpenedAfterProbe(cfg: UsableConfig, m: Model, t0: int, ops: seq<Op>, i: nat, j: nat)
    requires i < j <= |ops| && Ordered(t0, ops)
    requires PermittedAt(cfg, m, ops, i) && NeverClosed(cfg, m, ops, i, j)
    ensures var b := Run(cfg, m, ops[..j]);
            b.state == HalfOpen || b.openedAt >= ops[i].time
    decreases j - i
  {
    hide Record, Advance, Trips;
    RunStep(cfg, m, ops, j - 1);
    if i < j - 1 {
      OpenedAfterProbe(cfg, m, t0, ops, i, j - 1);
    }
  }

  /** Two probes with no closed period between them are at least one cooldown apart. */
  lemma ProbesSpaced(cfg: UsableConfig, m: Model, t0: int, ops: seq<Op>, i: nat, j: nat)
    requires i < j < |ops| && Ordered(t0, ops)
    requires PermittedAt(cfg, m, ops, i) && PermittedAt(cfg, m, ops, j)
    requires NeverClosed(cfg, m, ops, i, j)
    ensures ops[j].time - ops[i].time >= cfg.cooldown
  {
    OpenedAfterProbe(cfg, m, t0, ops, i, j);
  }

  ghost function Probes(cfg: UsableConfig, m: Model, ops: seq<Op>, i: nat, j: nat): nat
    requires i <= j <= |ops|
    decreases j - i
  {
    if i == j then 0
    else Probes(cfg, m, ops, i, j - 1) + if PermittedAt(cfg, m, ops, j - 1) then 1 else 0
  }

  /** Over a stretch without a closed period, n probes need n - 1 whole cooldowns. */
  lemma {:induction false} ProbeBudget(cfg: UsableConfig, m: Model, t0: int, ops: seq<Op>, i: nat, j: nat)
    requires i < j <= |ops| && Ordered(t0, ops) && cfg.cooldown >= 0
    requires NeverClosed(cfg, m, ops, i, j - 1)
    ensures (Probes(cfg, m, ops, i, j) - 1) * cfg.cooldown <= ops[j - 1].time - ops[i].time
  {
    var _ := LastProbe(cfg, m, t0, ops, i, j);
  }

  lemma {:induction false} LastProbe(cfg: UsableConfig, m: Model, t0: int, ops: seq<Op>, i: nat, j: nat)
    returns (last: nat)
    requires i < j <= |ops| && Ordered(t0, ops) && cfg.cooldown >= 0
    requires NeverClosed(cfg, m, ops, i, j - 1)
    ensures i <= last < j
    ensures (Probes(cfg, m, ops, i, j) - 1) * cfg.cooldown <= ops[last].time - ops[i].time
    ensures Probes(cfg, m, ops, i, j) > 0 ==> PermittedAt(cfg, m, ops, last)
    decreases j - i
  {
    hide Run, PermittedAt;
    if i == j - 1 {
      last := i;
      assert Probes(cfg, m, ops, i, i) == 0;
      assert Probes(cfg, m, ops, i, j) <= 1;
    } else {
      last := LastProbe(cfg, m, t0, ops, i, j - 1);
      var n := Probes(cfg, m, ops, i, j - 1);
      if PermittedAt(cfg, m, ops, j - 1) {
        if n > 0 {
          ProbesSpaced(cfg, m, t0, ops, last, j - 1);
          MulAdd(n - 1, 1, cfg.cooldown);
        }
        last := j - 1;
      }
    }
  }

  // ----- The lost probe -----

  /** A call that moves a cooled-down breaker to half-open. */
  predicate Touches(cfg: UsableConfig, openedAt: int, op: Op) {
    (op.Allow? || op.GetState?) && op.time - openedAt >= cfg.cooldown
  }

  /** An open breaker stays open, whatever outcomes arrive, until it is touched after its cooldown. */
  lemma {:induction false} OpenUntilTouched(cfg: UsableConfig, m: Model, ops: seq<Op>, j: nat)
    requires m.state == Open && j <= |ops|
    requires forall k | 0 <= k < j :: !Touches(cfg, m.openedAt, ops[k])
    ensures var b := Run(cfg, m, ops[..j]);
            b.state == Open && b.openedAt == m.openedAt
  {
    hide Record, Advance, Trips;
    if j > 0 {
      OpenUntilTouched(cfg, m, ops, j - 1);
      RunStep(cfg, m, ops, j - 1);
    }
  }

  /** So from the moment it opens it refuses everyone until then, and the first touch after the
      cooldown, whenever it comes, makes it half-open. */
  lemma OpenPeriod(cfg: UsableConfig, m: Model, ops: seq<Op>, first: nat)
    requires m.state == Open && first < |ops|
    requires Touches(cfg, m.openedAt, ops[first])
    requires forall k | 0 <= k < first :: !Touches(cfg, m.openedAt, ops[k])
    ensures forall i: nat | i < first :: !PermittedAt(cfg, m, ops, i)
    ensures PermittedAt(cfg, m, ops, first) <==> ops[first].Allow?
    ensures Run(cfg, m, ops[..first + 1]).state == HalfOpen
  {
    forall i: nat | i <= first
      ensures Run(cfg, m, ops[..i]).state == Open && Run(cfg, m, ops[..i]).openedAt == m.openedAt
    {
      OpenUntilTouched(cfg, m, ops, i);
    }
    RunStep(cfg, m, ops, first);
  }

  /** A half-open period ends with the first outcome: a success closes the breaker on an empty window,
      a failure opens it again, from that moment on. */
  lemma HalfOpenPeriod(cfg: UsableConfig, m: Model, ops: seq<Op>, first: nat)
    requires m.state == HalfOpen && first < |ops| && ops[first].IsOutcome()
    requires forall k | 0 <= k < first :: !ops[k].IsOutcome()
    ensures forall i: nat | i < first :: !PermittedAt(cfg, m, ops, i)
    ensures var b, t := Run(cfg, m, ops[..first + 1]), ops[first].time;
            if ops[first].Success? then b.state == Closed && b.window == NewHistory(t) else b.state == Open && b.openedAt == t
  {
    hide Record, Advance, Trips;
    assert Run(cfg, m, ops[..0]) == m;
    forall i: nat | i <= first
      ensures Run(cfg, m, ops[..i]).state == HalfOpen && (i < first ==> !PermittedAt(cfg, m, ops, i))
    {
      HalfOpenWaits(cfg, m, ops, 0, i);
    }
    RunStep(cfg, m, ops, first);
  }

  /** The failure that ends a run of calls trips the breaker. */
  ghost predicate TripsAt(cfg: UsableConfig, m: Model, ops: seq<Op>, i: nat)
    requires i < |ops|
  {
    ops[i].Failure? && Trips(cfg, Record(Run(cfg, m, ops[..i]).window, cfg.BucketDur(), ops[i].time, false))
  }

  /** A closed period permits everyone and lasts, whatever else is called, until a failure trips it; the
      breaker is open from that moment on. */
  lemma {:induction false} ClosedPeriod(cfg: UsableConfig, m: Model, ops: seq<Op>, j: nat)
    requires m.state == Closed && j <= |ops|
    requires forall k | 0 <= k < j :: !TripsAt(cfg, m, ops, k)
    ensures Run(cfg, m, ops[..j]).state == Closed
    ensures j < |ops| && ops[j].Allow? ==> PermittedAt(cfg, m, ops, j)
    ensures j < |ops| && TripsAt(cfg, m, ops, j) ==>
              var b := Run(cfg, m, ops[..j + 1]);
              b.state == Open && b.openedAt == ops[j].time
  {
    hide Record, Advance, Trips;
    if j > 0 {
      ClosedPeriod(cfg, m, ops, j - 1);
      RunStep(cfg, m, ops, j - 1);
    }
    if j < |ops| {
      RunStep(cfg, m, ops, j);
    }
  }

  /** While no outcome is recorded, an open breaker lets a request through exactly if the first
      touch after the cooldown is an `Allow`. When a status read comes first, the probe is lost
      and every later `Allow` is refused, however long the run. */
  lemma ProbeLostExactly(cfg: UsableConfig, m: Model, ops: seq<Op>, first: nat)
    requires m.state == Open && first < |ops|
    requires forall k | 0 <= k < |ops| :: !ops[k].IsOutcome()
    requires Touches(cfg, m.openedAt, ops[first])
    requires forall k | 0 <= k < first :: !Touches(cfg, m.openedAt, ops[k])
    ensures forall i: nat | i < |ops| :: PermittedAt(cfg, m, ops, i) <==> i == first && ops[i].Allow?
  {
    forall i: nat | i < |ops|
      ensures PermittedAt(cfg, m, ops, i) <==> i == first && ops[i].Allow?
    {
      if i <= first {
        OpenUntilTouched(cfg, m, ops, i);
      } else {
        OpenUntilTouched(cfg, m, ops, first);
        RunStep(cfg, m, ops, first);
        HalfOpenWaits(cfg, m, ops, first + 1, i);
      }
    }
  }

  /** It does happen: a status read, then a request, on a breaker that has cooled down. */
  lemma ProbeLost(cfg: UsableConfig, m: Model, now: int)
    requires CooledDown(cfg, m, now)
    ensures !PermittedAt(cfg, m, [GetState(now), Allow(now)], 1)
    ensures PermittedAt(cfg, m, [Allow(now)], 0)
  {
    var ops := [GetState(now), Allow(now)];
    ProbeLostExactly(cfg, m, ops, 0);
    assert [Allow(now)][..0] == [];
  }

  /** Outcomes come from requests that were let through. */
  ghost predicate Disciplined(cfg: UsableConfig, m: Model, ops: seq<Op>) {
    forall j | 0 <= j < |ops| && ops[j].IsOutcome() :: exists i: nat :: i < j && PermittedAt(cfg, m, ops, i)
  }

  /** A half-open breaker with no request under way is stranded: whatever is asked of it, for ever,
      nobody is let through and no outcome arrives. */
  lemma {:induction false} Stranded(cfg: UsableConfig, m: Model, ops: seq<Op>, j: nat)
    requires m.state == HalfOpen && Disciplined(cfg, m, ops) && j < |ops|
    ensures !PermittedAt(cfg, m, ops, j) && !ops[j].IsOutcome()
    decreases j
  {
    hide Permits;
    assert Run(cfg, m, ops[..0]) == m;
    forall i: nat | i < j
      ensures !PermittedAt(cfg, m, ops, i) && !ops[i].IsOutcome()
    {
      Stranded(cfg, m, ops, i);
    }
    HalfOpenWaits(cfg, m, ops, 0, j);
  }

  // ----- A failure after the fact -----

  /** Whether a failure keeps the next request away: on an open breaker it changes nothing, else
      exactly when it opens it, and until the cooldown has passed. */
  lemma AvoidedExactly(cfg: UsableConfig, m: Model, endAt: int, later: int)
    ensures !Permits(cfg, AfterFailure(cfg, m, endAt), later)
            <==> if m.state == Open then later - m.openedAt < cfg.cooldown
                 else (m.state == HalfOpen || Trips(cfg, Record(m.window, cfg.BucketDur(), endAt, false)))
                      && later - endAt < cfg.cooldown
  {
    hide Trips, Record;
  }

  /** Every served request ends with a status read, which moves a cooled-down breaker to half-open. So
      the next request is kept away by a half-open breaker, by one that has not cooled down yet, and
      by one that had cooled down already when it was read. */
  lemma ReadAvoidedExactly(cfg: UsableConfig, f: Model, statusAt: int, later: int)
    ensures !Permits(cfg, AfterTouch(cfg, f, statusAt), later)
            <==> f.state == HalfOpen
                 || (f.state == Open && (later - f.openedAt < cfg.cooldown || statusAt - f.openedAt >= cfg.cooldown))
  {
  }

  /** A stream that ends badly, on a breaker with any past `ops`, and with any other calls between the
      failure and the status read: is the next request kept away? The failure itself opens the breaker
      if it was half-open or trips, and leaves an open one as it was. */
  lemma BadEndAvoidedExactly(cfg: UsableConfig, m: Model, ops: seq<Op>, endAt: int, closing: seq<Op>, statusAt: int, later: int)
    ensures var f := Run(cfg, m, ops + [Failure(endAt)] + closing);
            !Permits(cfg, Run(cfg, m, ops + [Failure(endAt)] + closing + [GetState(statusAt)]), later)
            <==> f.state == HalfOpen
                 || (f.state == Open && (later - f.openedAt < cfg.cooldown || statusAt - f.openedAt >= cfg.cooldown))
    ensures var before, f := Run(cfg, m, ops), Run(cfg, m, ops + [Failure(endAt)]);
            if before.state == Open then f.state == Open && f.openedAt == before.openedAt
            else if before.state == HalfOpen || Trips(cfg, Record(before.window, cfg.BucketDur(), endAt, false))
            then f.state == Open && f.openedAt == endAt
            else f.state == Closed
  {
    hide Trips, Record, Permits;
    var all := ops + [Failure(endAt)] + closing;
    RunOneMore(cfg, m, all, GetState(statusAt));
    RunOneMore(cfg, m, ops, Failure(endAt));
    ReadAvoidedExactly(cfg, Run(cfg, m, all), statusAt, later);
  }

  lemma RunOneMore(cfg: UsableConfig, m: Model, ops: seq<Op>, op: Op)
    ensures Run(cfg, m, ops + [op]) == Step(cfg, Run(cfg, m, ops), op)
    ensures Run(cfg, m, []) == m
  {
    assert (ops + [op])[..|ops|] == ops;
  }

  /** A half-open probe that answers and then dies mid-stream, with no other call on its breaker: the
      success at its headers has closed the breaker on an empty window, so the replica is avoided only
      if a single failure is enough to trip it. */
  lemma LoneDeadProbe(cfg: UsableConfig, probe: Model, headersAt: int, endAt: int, statusAt: int, later: int)
    requires probe.state == HalfOpen
    ensures !Permits(cfg, Run(cfg, probe, [Success(headersAt), Failure(endAt), GetState(statusAt)]), later)
            <==> cfg.minSamples <= 1 && cfg.threshold <= 1.0
                 && (later - endAt < cfg.cooldown || statusAt - endAt >= cfg.cooldown)
  {
    hide Run, Permits;
    assert [Success(headersAt)] + [Failure(endAt)] + [] + [GetState(statusAt)] == [Success(headersAt), Failure(endAt), GetState(statusAt)];
    assert [Success(headersAt)] + [Failure(endAt)] + [] == [Success(headersAt)] + [Failure(endAt)];
    BadEndAvoidedExactly(cfg, probe, [Success(headersAt)], endAt, [], statusAt, later);
    RunOneMore(cfg, probe, [], Success(headersAt));
    assert [] + [Success(headersAt)] == [Success(headersAt)];
    LoneFailure(Record(NewHistory(headersAt), cfg.BucketDur(), endAt, false));
  }

  /** In a window that has seen one failure only, that failure is the whole count. */
  lemma LoneFailure(w: History)
    requires |w.log| == 1 && Counted(w, w.log[0]) && !w.log[0].success
    ensures Total(w, true) == 0 && Total(w, false) == 1
  {
    var p, q := (e: Outcome) => Counted(w, e) && e.success == true, (e: Outcome) => Counted(w, e) && e.success == false;
    assert !p(w.log[0]) && q(w.log[0]);
    CountBound(w.log, p);
    CountBound(w.log, q);
  }

  /** Even then one success in between can hide the failure: two successes and a failure stay below
      a threshold of nine in ten. */
  lemma MaskedDeadProbe(probe: Model)
    requires probe.state == HalfOpen
    ensures var cfg := Config(0.9, 10, 1000, 1);
            Permits(cfg, Run(cfg, probe, [Success(0)] + [Success(1)] + [Failure(2)] + [] + [GetState(2)]), 3)
  {
    var cfg: UsableConfig := Config(0.9, 10, 1000, 1);
    BadEndAvoidedExactly(cfg, probe, [Success(0)] + [Success(1)], 2, [], 2, 3);
    RunOneMore(cfg, probe, [], Success(0));
    assert [] + [Success(0)] == [Success(0)];
    RunOneMore(cfg, probe, [Success(0)], Success(1));
    assert [Success(0)] + [Success(1)] + [Failure(2)] + [] == [Success(0)] + [Success(1)] + [Failure(2)];
    hide Run, Record, Trips, Permits;
    MaskedWindow(cfg);
  }

  /** The status read can also strand the replica. A breaker opened at 5, by another request, while a
      stream was running; the stream ends badly at 25, the cooldown of 10 long over; without the read
      the next request would be let through, with it nobody is. */
  lemma StatusReadStrands()
    ensures var cfg, m := Config(0.5, 100, 10, 1), Model(Open, NewHistory(0), 5);
            && Permits(cfg, Run(cfg, m, [] + [Failure(25)]), 26)
            && !Permits(cfg, Run(cfg, m, [] + [Failure(25)] + [] + [GetState(25)]), 26)
            && Run(cfg, m, [] + [Failure(25)] + [] + [GetState(25)]).state == HalfOpen
  {
    var cfg: UsableConfig, m := Config(0.5, 100, 10, 1), Model(Open, NewHistory(0), 5);
    BadEndAvoidedExactly(cfg, m, [], 25, [], 25, 26);
    RunOneMore(cfg, m, [], Failure(25));
    assert [] + [Failure(25)] + [] == [] + [Failure(25)];
    RunOneMore(cfg, m, [] + [Failure(25)], GetState(25));
    hide Run, Record, Trips;
  }

  lemma MaskedWindow(cfg: UsableConfig)
    requires cfg == Config(0.9, 10, 1000, 1)
    ensures !Trips(cfg, Record(Record(NewHistory(0), cfg.BucketDur(), 1, true), cfg.BucketDur(), 2, false))
  {
    var w := Record(Record(NewHistory(0), 1, 1, true), 1, 2, false);
    assert |w.log| == 2 && w.log[0].success && !w.log[1].success;
    OneOfEach(w);
    hide Total, Record;
    assert 1.0 / 2.0 == 0.5;
  }

  lemma OneOfEach(w: History)
    requires |w.log| == 2 && Counted(w, w.log[0]) && Counted(w, w.log[1]) && w.log[0].success && !w.log[1].success
    ensures Total(w, true) == 1 && Total(w, false) == 1
  {
    CountTwo(w.log, (e: Outcome) => Counted(w, e) && e.success == true);
    CountTwo(w.log, (e: Outcome) => Counted(w, e) && e.success == false);
  }

  lemma CountTwo(log: seq<Outcome>, p: Outcome -> bool)
    requires |log| == 2
    ensures Count(log, p) == (if p(log[0]) then 1 else 0) + (if p(log[1]) then 1 else 0)
  {
    var first := log[..1];
    assert first[..0] == [];
    assert Count(first, p) == if p(log[0]) then 1 else 0;
  }
}
