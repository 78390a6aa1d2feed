/** The per-replica circuit breaker (internal/circuit/breaker.go).

    `Breaker` is the program's object. `Model` is the value a breaker stands for, and the
    `After...` functions say what each call makes of it; the theorems about runs are in
    BreakerRuns.dfy, the registry in Registry.dfy. The injected clock is the `now` argument. */
module Breakers {
  import opened Arith
  import opened Windows

  datatype State = Closed | Open | HalfOpen

  datatype Config = Config(threshold: real, windowSize: int, cooldown: int, minSamples: int) {
    /** Below ten nanoseconds a bucket would have no width and the program would divide by zero. */
    predicate Usable() {
      windowSize >= NUM_BUCKETS
    }

    function BucketDur(): (d: int)
      requires Usable()
      ensures d > 0
    {
      windowSize / NUM_BUCKETS
    }
  }

  type UsableConfig = c: Config | c.Usable() witness Config(0.5, 10, 0, 5)

  datatype Model = Model(state: State, window: History, openedAt: int)

  function NewModel(now: int): Model {
    Model(Closed, NewHistory(now), 0)
  }

  predicate CooledDown(cfg: UsableConfig, m: Model, now: int) {
    m.state == Open && now - m.openedAt >= cfg.cooldown
  }

  /** The answer of `Allow`. */
  predicate Permits(cfg: UsableConfig, m: Model, now: int) {
    m.state == Closed || CooledDown(cfg, m, now)
  }

  /** `Allow` and `State` both move a cooled-down breaker to half-open. */
  function AfterTouch(cfg: UsableConfig, m: Model, now: int): Model {
    if CooledDown(cfg, m, now) then m.(state := HalfOpen) else m
  }

  function AfterSuccess(cfg: UsableConfig, m: Model, now: int): Model {
    if m.state == HalfOpen
    then m.(state := Closed, window := NewHistory(now))
    else m.(window := Record(m.window, cfg.BucketDur(), now, true))
  }

  /** Enough samples, and a threshold fraction of them failures. */
  predicate Trips(cfg: UsableConfig, h: History) {
    var total := Total(h, true) + Total(h, false);
    total >= cfg.minSamples && total > 0 && Total(h, false) as real / total as real >= cfg.threshold
  }

  function AfterFailure(cfg: UsableConfig, m: Model, now: int): Model {
    var w := Record(m.window, cfg.BucketDur(), now, false);
    if m.state == HalfOpen || (m.state == Closed && Trips(cfg, w))
    then Model(Open, w, now)
    else m.(window := w)
  }

  function AfterErrorRate(cfg: UsableConfig, m: Model, now: int): Model {
    m.(window := Advance(m.window, cfg.BucketDur(), now))
  }

  /** Touching the window a second time at the same instant changes nothing. */
  lemma AdvanceTwice(h: History, bucketDur: int, now: int)
    requires bucketDur > 0
    ensures Advance(Advance(h, bucketDur, now), bucketDur, now) == Advance(h, bucketDur, now)
    ensures forall success :: Advance(Record(h, bucketDur, now, success), bucketDur, now) == Record(h, bucketDur, now, success)
  {
    assert 0 / bucketDur == 0;
  }

  /** The outcome just recorded is itself counted. */
  lemma RecordedCounts(h: History, bucketDur: int, now: int, success: bool)
    requires bucketDur > 0
    ensures Total(Record(h, bucketDur, now, success), success) >= 1
  {
    var r := Record(h, bucketDur, now, success);
    assert Counted(r, r.log[|r.log| - 1]);
  }

  class Breaker {
    const cfg: UsableConfig
    var state: State
    /** Embedded, and so reset in place. */
    const window: SlidingWindow
    var openedAt: int

    ghost predicate Valid()
      reads Repr()
    {
      window.Valid() && window.bucketDur == cfg.BucketDur()
    }

    ghost function Repr(): set<object> {
      {this, window, window.buckets}
    }

    ghost function Value(): Model
      reads this, window
    {
      Model(state, window.history, openedAt)
    }

    constructor (cfg: UsableConfig, now: int)
      ensures Valid() && fresh(Repr()) && this.cfg == cfg
      ensures Value() == NewModel(now)
    {
      this.cfg := cfg;
      state := Closed;
      window := new SlidingWindow(cfg.windowSize, now);
      openedAt := 0;
    }

    method Allow(now: int) returns (ok: bool)
      requires Valid()
      modifies this`state
      ensures Valid() && Value() == AfterTouch(cfg, old(Value()), now)
      ensures ok == Permits(cfg, old(Value()), now)
    {
      match state
      case Closed => ok := true;
      case Open =>
        if now - openedAt >= cfg.cooldown {
          state := HalfOpen;
          ok := true;
        } else {
          ok := false;
        }
      case HalfOpen => ok := false;
    }

    method RecordSuccess(now: int)
      requires Valid()
      modifies Repr()
      ensures Valid()
      ensures Value() == AfterSuccess(cfg, old(Value()), now)
    {
      window.RecordOutcome(now, true);
      if state == HalfOpen {
        state := Closed;
        window.Reset(now);
      }
    }

    method RecordFailure(now: int)
      requires Valid()
      modifies Repr()
      ensures Valid()
      ensures Value() == AfterFailure(cfg, old(Value()), now)
    {
      RecordedCounts(window.history, window.bucketDur, now, false);
      AdvanceTwice(window.history, window.bucketDur, now);
      window.RecordOutcome(now, false);
      match state
      case Closed =>
        var successes, failures := window.Totals(now);
        var total := successes + failures;
        if total >= cfg.minSamples {
          var errorRate := failures as real / total as real;
          if errorRate >= cfg.threshold {
            state := Open;
            openedAt := now;
          }
        }
      case HalfOpen =>
        state := Open;
        openedAt := now;
      case Open =>
    }

    method GetState(now: int) returns (s: State)
      requires Valid()
      modifies this`state
      ensures Valid() && Value() == AfterTouch(cfg, old(Value()), now)
      ensures s == Value().state
    {
      if state == Open && now - openedAt >= cfg.cooldown {
        state := HalfOpen;
      }
      s := state;
    }

    method ErrorRate(now: int) returns (rate: real)
      requires Valid()
      modifies Repr()
      ensures Valid()
      ensures Value() == AfterErrorRate(cfg, old(Value()), now)
      ensures var s, f := Total(Value().window, true), Total(Value().window, false);
              if s + f == 0 then rate == 0.0 else rate * (s + f) as real == f as real
    {
      hide Total;
      var successes, failures := window.Totals(now);
      var total := successes + failures;
      if total > 0 {
        QuotientTimes(failures as real, total as real);
      }
      rate := if total == 0 then 0.0 else failures as real / total as real;
    }
  }
}
