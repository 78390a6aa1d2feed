/** The mid-stream stall watchdog (internal/proxy/deadreplica.go): a timed loop that samples the
    last activity on every tick. Times are nanoseconds. */
module Watchdogs {
  import opened Arith
  import opened Options

  const MILLISECOND := 1_000_000

  /** What the loop meets: when its ticker was created and its start noted, the times of the
      writes to the client, and when it is asked to stop. A tick and a stop that are ready
      together may be taken in either order. */
  datatype Trace = Trace(stall: int, created: int, started: int, writes: seq<int>, stopAt: Option<int>, stopFirst: bool) {
    predicate Valid() {
      created <= started && forall i, j | 0 <= i <= j < |writes| :: writes[i] <= writes[j]
    }
  }

  function TickLength(stall: int): int {
    if stall / 4 < 50 * MILLISECOND then 50 * MILLISECOND else stall / 4
  }

  function TickAt(w: Trace, k: nat): int {
    w.created + (k + 1) * TickLength(w.stall)
  }

  /** The last write up to a moment. */
  function LastActivity(writes: seq<int>, now: int): Option<int> {
    if |writes| == 0 then None
    else if writes[|writes| - 1] <= now then Some(writes[|writes| - 1])
    else LastActivity(writes[..|writes| - 1], now)
  }

  function LastOrStart(w: Trace, now: int): int {
    match LastActivity(w.writes, now)
    case Some(at) => at
    case None => w.started
  }

  predicate Quiet(w: Trace, k: nat) {
    TickAt(w, k) - LastOrStart(w, TickAt(w, k)) >= w.stall
  }

  predicate StoppedBy(w: Trace, k: nat) {
    w.stopAt.Some? && (w.stopAt.value < TickAt(w, k) || (w.stopAt.value == TickAt(w, k) && w.stopFirst))
  }

  /** The stall is reported at the first quiet tick, unless the watchdog is stopped before. */
  ghost predicate FiresAt(w: Trace, k: nat) {
    && Quiet(w, k) && !StoppedBy(w, k)
    && forall j: nat | j < k :: !Quiet(w, j)
  }

  ghost predicate StopsAt(w: Trace, k: nat) {
    && StoppedBy(w, k)
    && forall j: nat | j < k :: !Quiet(w, j) && !StoppedBy(w, j)
  }

  method Watch(w: Trace) returns (stalls: seq<int>)
    requires w.Valid()
    ensures |stalls| <= 1
    ensures stalls != [] ==> w.stall > 0 && exists k: nat :: FiresAt(w, k) && stalls[0] == TickAt(w, k)
    ensures stalls == [] ==> w.stall <= 0 || exists k: nat :: StopsAt(w, k)
  {
    stalls := [];
    if w.stall <= 0 {
      return;
    }
    var tick := TickLength(w.stall);
    var k: nat := 0;
    while true
      invariant forall j: nat | j < k :: !Quiet(w, j) && !StoppedBy(w, j)
      decreases Latest(w) + w.stall - TickAt(w, k)
    {
      var now := w.created + (k + 1) * tick;
      assert now == TickAt(w, k);
      if w.stopAt.Some? && (w.stopAt.value < now || (w.stopAt.value == now && w.stopFirst)) {
        assert StopsAt(w, k);
        return;
      }
      var last := LastActivity(w.writes, now);
      var since := if last.Some? then last.value else w.started;
      if now - since >= w.stall {
        assert FiresAt(w, k);
        return [now];
      }
      NotAfterLatest(w, now);
      TicksAdvance(w, k);
      k := k + 1;
    }
  }

  function Latest(w: Trace): int {
    if |w.writes| == 0 || w.writes[|w.writes| - 1] < w.started then w.started else w.writes[|w.writes| - 1]
  }

  lemma TicksAdvance(w: Trace, k: nat)
    ensures TickAt(w, k + 1) == TickAt(w, k) + TickLength(w.stall) && TickLength(w.stall) > 0
  {
  }

  lemma {:induction false} LastIsLatest(writes: seq<int>, now: int)
    requires forall i, j | 0 <= i <= j < |writes| :: writes[i] <= writes[j]
    ensures match LastActivity(writes, now)
            case Some(at) => at in writes && at <= now && forall x | x in writes && x <= now :: x <= at
            case None => forall x | x in writes :: x > now
  {
    if |writes| > 0 {
      var n := |writes| - 1;
      forall x | x in writes
        ensures x <= writes[n] && (x in writes[..n] || x == writes[n])
      {
        var i :| 0 <= i < |writes| && writes[i] == x;
        assert i < n ==> writes[..n][i] == x;
      }
      if writes[n] > now {
        LastIsLatest(writes[..n], now);
      }
    }
  }

  lemma NotAfterLatest(w: Trace, now: int)
    requires w.Valid()
    ensures LastOrStart(w, now) <= Latest(w)
  {
    LastIsLatest(w.writes, now);
  }

  // ----- When it fires -----

  /** Firing and stopping first exclude each other, and each happens on one tick only: the method's
      contract determines its result. */
  lemma OneOutcome(w: Trace, k: nat, m: nat)
    requires FiresAt(w, k) && (FiresAt(w, m) || StopsAt(w, m))
    ensures FiresAt(w, m) && m == k
  {
    assert Quiet(w, k) && (m <= k || !StopsAt(w, m));
    if m <= k {
      TicksOrdered(w, m, k);
    }
  }

  lemma {:induction false} TicksOrdered(w: Trace, m: nat, k: nat)
    requires m <= k
    ensures TickAt(w, m) <= TickAt(w, k)
  {
    if m < k {
      TicksOrdered(w, m, k - 1);
      TicksAdvance(w, k - 1);
    }
  }

  /** Never early: when the stall is reported, every write so far is at least the stall timeout
      old, and so is the start if nothing was written. */
  lemma NeverEarly(w: Trace, k: nat)
    requires w.Valid() && FiresAt(w, k)
    ensures forall x | x in w.writes && x <= TickAt(w, k) :: TickAt(w, k) - x >= w.stall
    ensures (forall x | x in w.writes :: x > TickAt(w, k)) ==> TickAt(w, k) - w.started >= w.stall
  {
    LastIsLatest(w.writes, TickAt(w, k));
  }

  /** The goroutine may create its ticker after the first write. */
  function Later(a: int, b: int): int {
    if a < b then b else a
  }

  /** `a` is the last activity, and silence until `end` follows it. */
  ghost predicate SilentAfter(w: Trace, a: int, end: int) {
    && (a in w.writes || (a == w.started && forall x | x in w.writes :: x > a))
    && forall x | x in w.writes :: x <= a || x >= end
  }

  /** Promptness: silence for the stall timeout and one tick, without a stop, counted from the last
      activity or from the creation of the ticker if that is later, is reported before it is over. */
  lemma FiresInTime(w: Trace, a: int) returns (k: nat)
    requires w.Valid() && w.stall > 0
    requires SilentAfter(w, a, Later(a, w.created) + w.stall + TickLength(w.stall))
    requires w.stopAt.Some? ==> w.stopAt.value >= Later(a, w.created) + w.stall + TickLength(w.stall)
    ensures FiresAt(w, k) && TickAt(w, k) < Later(a, w.created) + w.stall + TickLength(w.stall)
  {
    var m := FirstTickFrom(w, Later(a, w.created) + w.stall);
    LastIsLatest(w.writes, TickAt(w, m));
    assert Quiet(w, m);
    k := FirstQuiet(w, m);
    TicksOrdered(w, k, m);
  }

  lemma FirstTickFrom(w: Trace, t: int) returns (m: nat)
    requires t > w.created
    ensures t <= TickAt(w, m) < t + TickLength(w.stall)
  {
    var tick := TickLength(w.stall);
    m := (t - w.created - 1) / tick;
    assert (t - w.created - 1) == tick * m + (t - w.created - 1) % tick;
    assert (m + 1) * tick == tick * m + tick;
  }

  lemma {:induction false} FirstQuiet(w: Trace, m: nat) returns (k: nat)
    requires Quiet(w, m)
    ensures k <= m && Quiet(w, k) && forall j: nat | j < k :: !Quiet(w, j)
    decreases m
  {
    if j: nat :| j < m && Quiet(w, j) {
      k := FirstQuiet(w, j);
    } else {
      k := m;
    }
  }

  /** Whether a stall that would be reported at tick k is: exactly if the stop comes after that tick, or
      with it and loses. */
  lemma StopExactly(w: Trace, k: nat)
    requires FiresAt(w.(stopAt := None), k)
    ensures FiresAt(w, k) <==> forall at: int :: w.stopAt == Some(at) ==> at > TickAt(w, k) || (at == TickAt(w, k) && !w.stopFirst)
  {
    var free := w.(stopAt := None);
    forall j: nat | j <= k
      ensures Quiet(free, j) == Quiet(w, j) && TickAt(free, j) == TickAt(w, j)
    {
    }
  }

  // ----- The advertised latency -----

  /** "Within 1.25 times the stall timeout", on every trace. */
  ghost predicate KeepsPromise(stall: int) {
    forall w: Trace, k: nat | w.Valid() && w.stall == stall && FiresAt(w, k) :: InPromise(w, k)
  }

  predicate InPromise(w: Trace, k: nat) {
    4 * (TickAt(w, k) - Later(LastOrStart(w, TickAt(w, k)), w.created)) <= 5 * w.stall
  }

  /** Every report comes once the timeout has run out and less than a tick later, counted from the
      last activity or from the creation of the ticker if that is later. */
  lemma Latency(w: Trace, k: nat)
    requires w.Valid() && w.stall > 0 && FiresAt(w, k)
    ensures var a := LastOrStart(w, TickAt(w, k));
            w.stall <= TickAt(w, k) - a && TickAt(w, k) - Later(a, w.created) < w.stall + TickLength(w.stall)
  {
    if k > 0 {
      assert !Quiet(w, k - 1);
      TicksAdvance(w, k - 1);
      LastIsLatest(w.writes, TickAt(w, k));
      LastIsLatest(w.writes, TickAt(w, k - 1));
    }
  }

  /** The timeout is sampled four times over, or every 50ms if that is less often. */
  lemma TickExactly(stall: int)
    requires stall > 0
    ensures TickLength(stall) >= 50 * MILLISECOND
    ensures stall < 200 * MILLISECOND ==> TickLength(stall) == 50 * MILLISECOND
    ensures stall >= 200 * MILLISECOND ==> 4 * TickLength(stall) <= stall < 4 * (TickLength(stall) + 1)
  {
  }

  /** The bound on the latency is attained for every timeout: a write just after a tick less the timeout
      is noticed all but a nanosecond of a tick late. */
  lemma WorstCase(stall: int) returns (w: Trace, k: nat)
    requires stall > 0
    ensures w.Valid() && w.stall == stall && FiresAt(w, k)
    ensures w.created <= LastOrStart(w, TickAt(w, k)) && TickAt(w, k) - LastOrStart(w, TickAt(w, k)) == stall + TickLength(stall) - 1
  {
    var tick := TickLength(stall);
    k := (stall - 1 + tick - 1) / tick;
    TicksCover(stall - 1, tick, k);
    var a := k * tick + 1 - stall;
    w := Trace(stall, 0, 0, [a], None, false);
    hide TickLength;
    forall j: nat | j <= k
      ensures TickAt(w, j) == (j + 1) * tick && LastActivity(w.writes, TickAt(w, j)) == Some(a)
      ensures j < k ==> TickAt(w, j) <= k * tick
    {
      MulMono(1, j + 1, tick);
      if j < k {
        MulMono(j + 1, k, tick);
      }
    }
    MulAdd(k, 1, tick);
  }

  lemma TicksCover(x: int, tick: int, k: int)
    requires x >= 0 && tick > 0 && k == (x + tick - 1) / tick
    ensures x <= k * tick < x + tick && k >= 0
  {
    DivBounds(x + tick - 1, tick);
  }

  /** The promise holds exactly for timeouts of 200ms less four nanoseconds and up: below that, ticks are
      never closer than 50ms. */
  lemma PromiseExactly(stall: int)
    requires stall > 0
    ensures KeepsPromise(stall) <==> stall >= 4 * (50 * MILLISECOND - 1)
  {
    if stall >= 4 * (50 * MILLISECOND - 1) {
      forall w: Trace, k: nat | w.Valid() && w.stall == stall && FiresAt(w, k)
        ensures InPromise(w, k)
      {
        Latency(w, k);
      }
    } else {
      var w, k := LateReport(stall);
    }
  }

  lemma LateReport(stall: int) returns (w: Trace, k: nat)
    requires 0 < stall < 4 * (50 * MILLISECOND - 1)
    ensures w.Valid() && w.stall == stall && FiresAt(w, k) && !InPromise(w, k)
  {
    w, k := WorstCase(stall);
    TickExactly(stall);
  }

  /** Counted from an activity before the ticker existed, no timeout keeps it: the goroutine may be
      started arbitrarily late. */
  lemma LateTicker(stall: int) returns (w: Trace, k: nat)
    requires stall > 0
    ensures w.Valid() && w.stall == stall && FiresAt(w, k) && LastActivity(w.writes, TickAt(w, k)) == Some(0)
    ensures 4 * TickAt(w, k) > 5 * stall
  {
    w, k := Trace(stall, 2 * stall, 2 * stall, [0], None, false), 0;
    assert TickAt(w, 0) == 2 * stall + TickLength(stall) && TickLength(stall) > 0;
  }

  // ----- Stopping -----

  /** `Stop` looks whether the channel is closed, and closes it if not, without a lock: `passed` calls
      are between the two. Closing a closed channel panics. */
  datatype Stopping = Stopping(stopClosed: bool, passed: nat, panicked: bool)

  datatype StopStep = Look | CloseIt

  predicate CanStep(s: Stopping, step: StopStep) {
    step.CloseIt? ==> s.passed > 0
  }

  function AfterStep(s: Stopping, step: StopStep): Stopping
    requires CanStep(s, step)
  {
    match step
    case Look => if s.stopClosed then s else s.(passed := s.passed + 1)
    case CloseIt => Stopping(true, s.passed - 1, s.panicked || s.stopClosed)
  }

  class StallWatchdog {
    var stopClosed: bool
    ghost var state: Stopping

    ghost predicate Valid()
      reads this
    {
      state.stopClosed == stopClosed
    }

    constructor ()
      ensures Valid() && state == Stopping(false, 0, false)
    {
      stopClosed, state := false, Stopping(false, 0, false);
    }

    method LookForStop() returns (pass: bool)
      requires Valid()
      modifies this`state
      ensures Valid() && state == AfterStep(old(state), Look) && pass == !stopClosed
    {
      pass := !stopClosed;
      state := AfterStep(state, Look);
    }

    method CloseStop()
      requires Valid() && state.passed > 0
      modifies this
      ensures Valid() && state == AfterStep(old(state), CloseIt)
    {
      state := AfterStep(state, CloseIt);
      stopClosed := true;
    }

    /** One call by itself: it never panics, however often it is repeated. */
    method Stop()
      requires Valid() && state.passed == 0
      modifies this
      ensures Valid() && stopClosed && state == Stopping(true, 0, old(state).panicked)
    {
      var pass := LookForStop();
      if pass {
        CloseStop();
      }
    }
  }

  /** Any interleaving of any number of calls, from the start. */
  predicate CanRun(steps: seq<StopStep>)
    decreases |steps|, 0
  {
    |steps| == 0 || (CanRun(steps[..|steps| - 1]) && CanStep(RunStops(steps[..|steps| - 1]), steps[|steps| - 1]))
  }

  function RunStops(steps: seq<StopStep>): Stopping
    requires CanRun(steps)
    decreases |steps|, 1
  {
    if |steps| == 0 then Stopping(false, 0, false) else AfterStep(RunStops(steps[..|steps| - 1]), steps[|steps| - 1])
  }

  /** The calls that looked before the channel was first closed. */
  function EarlyLooks(steps: seq<StopStep>): nat {
    if |steps| == 0 || steps[0].CloseIt? then 0 else 1 + EarlyLooks(steps[1..])
  }

  lemma {:induction false} EarlyLooksGrow(steps: seq<StopStep>, step: StopStep)
    ensures EarlyLooks(steps + [step]) == EarlyLooks(steps) + if step.Look? && CloseIt !in steps then 1 else 0
  {
    if |steps| == 0 {
      assert ([] + [step])[1..] == [];
    } else {
      assert (steps + [step])[1..] == steps[1..] + [step];
      assert steps == [steps[0]] + steps[1..];
      EarlyLooksGrow(steps[1..], step);
    }
  }

  function Closes(steps: seq<StopStep>): nat {
    if |steps| == 0 then 0 else Closes(steps[..|steps| - 1]) + if steps[|steps| - 1].CloseIt? then 1 else 0
  }

  lemma {:induction false} StopCounts(steps: seq<StopStep>)
    requires CanRun(steps)
    ensures var s := RunStops(steps);
            && (s.stopClosed <==> CloseIt in steps) && (s.stopClosed <==> Closes(steps) >= 1)
            && (s.panicked <==> Closes(steps) >= 2)
            && s.passed + Closes(steps) == EarlyLooks(steps)
  {
    if |steps| > 0 {
      var init, step := steps[..|steps| - 1], steps[|steps| - 1];
      assert steps == init + [step];
      StopCounts(init);
      EarlyLooksGrow(init, step);
    }
  }

  /** Once all calls have returned, one has panicked exactly if two or more had looked before the first
      closed the channel. Calls one after the other never panic. */
  lemma StopPanicsExactly(steps: seq<StopStep>)
    requires CanRun(steps) && RunStops(steps).passed == 0
    ensures RunStops(steps).panicked <==> EarlyLooks(steps) >= 2
  {
    StopCounts(steps);
  }

  lemma StopPanics()
    ensures var steps := [Look] + [Look] + [CloseIt] + [CloseIt];
            CanRun(steps) && RunStops(steps).passed == 0 && RunStops(steps).panicked
  {
    StopOne([], Look);
    assert [] + [Look] == [Look];
    StopOne([Look], Look);
    StopOne([Look] + [Look], CloseIt);
    StopOne([Look] + [Look] + [CloseIt], CloseIt);
    hide CanRun, RunStops;
  }

  lemma StopOne(steps: seq<StopStep>, step: StopStep)
    requires CanRun(steps) && CanStep(RunStops(steps), step)
    ensures CanRun(steps + [step]) && RunStops(steps + [step]) == AfterStep(RunStops(steps), step)
    ensures RunStops([]) == Stopping(false, 0, false)
  {
    assert (steps + [step])[..|steps|] == steps;
  }
}
