/** The lazily rotated outcome window of a circuit breaker (internal/circuit/breaker.go).

    `SlidingWindow` is the ring of ten buckets as the program keeps it. `History` is the
    reference it is proved against: every outcome ever recorded, with the number of bucket
    rotations performed before it. Times are integer nanoseconds. */
module Windows {

  const NUM_BUCKETS := 10

  datatype Bucket = Bucket(successes: nat, failures: nat)

  /** One recorded outcome: `step` is the rotation it was recorded in, `anchor` the window's
      `lastTime` at that moment. */
  datatype Outcome = Outcome(time: int, success: bool, step: nat, anchor: int)

  datatype History = History(log: seq<Outcome>, step: nat, lastTime: int)

  function NewHistory(now: int): History {
    History([], 0, now)
  }

  /** Rotations made by one touch of the window, at most a whole turn of the ring. */
  function Rotations(elapsed: int, bucketDur: int): nat
    requires bucketDur > 0
  {
    var steps := elapsed / bucketDur;
    if steps <= 0 then 0 else if steps > NUM_BUCKETS then NUM_BUCKETS else steps
  }

  function Advance(h: History, bucketDur: int, now: int): History
    requires bucketDur > 0
  {
    var n := Rotations(now - h.lastTime, bucketDur);
    if n == 0 then h else History(h.log, h.step + n, now)
  }

  function Record(h: History, bucketDur: int, now: int, success: bool): History
    requires bucketDur > 0
  {
    var a := Advance(h, bucketDur, now);
    a.(log := a.log + [Outcome(now, success, a.step, a.lastTime)])
  }

  /** An outcome still counts while fewer than ten rotations have passed since it. */
  predicate Counted(h: History, e: Outcome) {
    h.step < e.step + NUM_BUCKETS
  }

  function Count(log: seq<Outcome>, p: Outcome -> bool): nat {
    if |log| == 0 then 0
    else Count(log[..|log| - 1], p) + if p(log[|log| - 1]) then 1 else 0
  }

  /** How many counted outcomes of the given kind the window holds. */
  function Total(h: History, success: bool): nat {
    Count(h.log, (e: Outcome) => Counted(h, e) && e.success == success)
  }

  lemma {:induction false} CountSame(log: seq<Outcome>, p: Outcome -> bool, q: Outcome -> bool)
    requires forall e | e in log :: p(e) == q(e)
    ensures Count(log, p) == Count(log, q)
  {
    if |log| > 0 {
      CountSame(log[..|log| - 1], p, q);
    }
  }

  lemma {:induction false} CountSplit(log: seq<Outcome>, p: Outcome -> bool, q: Outcome -> bool, r: Outcome -> bool)
    requires forall e | e in log :: (p(e) <==> q(e) || r(e)) && !(q(e) && r(e))
    ensures Count(log, p) == Count(log, q) + Count(log, r)
  {
    if |log| > 0 {
      CountSplit(log[..|log| - 1], p, q, r);
    }
  }

  lemma {:induction false} CountBound(log: seq<Outcome>, p: Outcome -> bool)
    ensures Count(log, p) <= |log|
    ensures (forall e | e in log :: !p(e)) ==> Count(log, p) == 0
    ensures (forall e | e in log :: p(e)) ==> Count(log, p) == |log|
  {
    if |log| > 0 {
      CountBound(log[..|log| - 1], p);
    }
  }

  lemma {:induction false} CountMono(log: seq<Outcome>, p: Outcome -> bool, q: Outcome -> bool)
    requires forall e | e in log :: p(e) ==> q(e)
    ensures Count(log, p) <= Count(log, q)
  {
    if |log| > 0 {
      CountMono(log[..|log| - 1], p, q);
    }
  }

  /** The counted outcomes that belong in ring slot `i`. */
  function InSlot(step: nat, i: nat, success: bool): Outcome -> bool {
    (e: Outcome) => step < e.step + NUM_BUCKETS && e.step % NUM_BUCKETS == i && e.success == success
  }

  /** The counted outcomes that belong in the first `n` ring slots. */
  function BelowSlot(step: nat, n: nat, success: bool): Outcome -> bool {
    (e: Outcome) => step < e.step + NUM_BUCKETS && e.step % NUM_BUCKETS < n && e.success == success
  }

  ghost predicate SlotMatches(b: Bucket, log: seq<Outcome>, step: nat, i: nat) {
    && b.successes == Count(log, InSlot(step, i, true))
    && b.failures == Count(log, InSlot(step, i, false))
  }

  ghost predicate RingMatches(ring: seq<Bucket>, log: seq<Outcome>, step: nat) {
    && |ring| == NUM_BUCKETS
    && (forall e | e in log :: e.step <= step)
    && (forall i | 0 <= i < NUM_BUCKETS :: SlotMatches(ring[i], log, step, i))
  }

  /** One rotation empties exactly the slot it moves onto and leaves the others alone. */
  lemma RotateSlot(log: seq<Outcome>, step: nat, i: nat, success: bool)
    requires i < NUM_BUCKETS
    requires forall e | e in log :: e.step <= step
    ensures i == (step + 1) % NUM_BUCKETS ==> Count(log, InSlot(step + 1, i, success)) == 0
    ensures i != (step + 1) % NUM_BUCKETS ==>
              Count(log, InSlot(step + 1, i, success)) == Count(log, InSlot(step, i, success))
  {
    if i == (step + 1) % NUM_BUCKETS {
      CountBound(log, InSlot(step + 1, i, success));
    } else {
      CountSame(log, InSlot(step + 1, i, success), InSlot(step, i, success));
    }
  }

  lemma RotateRing(ring: seq<Bucket>, log: seq<Outcome>, step: nat)
    requires RingMatches(ring, log, step)
    ensures RingMatches(ring[(step + 1) % NUM_BUCKETS := Bucket(0, 0)], log, step + 1)
  {
    var turned := ring[(step + 1) % NUM_BUCKETS := Bucket(0, 0)];
    forall i | 0 <= i < NUM_BUCKETS
      ensures SlotMatches(turned[i], log, step + 1, i)
    {
      RotateSlot(log, step, i, true);
      RotateSlot(log, step, i, false);
    }
  }

  /** Counting one more outcome in the current slot. */
  lemma RecordInRing(ring: seq<Bucket>, log: seq<Outcome>, e: Outcome)
    requires RingMatches(ring, log, e.step)
    ensures var c := e.step % NUM_BUCKETS;
            var b := ring[c];
            var b' := if e.success then b.(successes := b.successes + 1) else b.(failures := b.failures + 1);
            RingMatches(ring[c := b'], log + [e], e.step)
  {
    assert (log + [e])[..|log|] == log;
  }

  class SlidingWindow {
    const bucketDur: int
    const buckets: array<Bucket>
    var current: nat
    var lastTime: int
    ghost var history: History

    ghost predicate Valid()
      reads this, buckets
    {
      && bucketDur > 0
      && buckets.Length == NUM_BUCKETS
      && lastTime == history.lastTime
      && current == history.step % NUM_BUCKETS
      && RingMatches(buckets[..], history.log, history.step)
    }

    constructor (windowSize: int, now: int)
      requires windowSize >= NUM_BUCKETS
      ensures Valid() && fresh(buckets)
      ensures bucketDur == windowSize / NUM_BUCKETS && history == NewHistory(now)
    {
      bucketDur := windowSize / NUM_BUCKETS;
      buckets := new Bucket[NUM_BUCKETS](_ => Bucket(0, 0));
      current := 0;
      lastTime := now;
      history := NewHistory(now);
    }

    /** The value a new window of the same width has. */
    method Reset(now: int)
      requires Valid()
      modifies this, buckets
      ensures Valid() && history == NewHistory(now)
    {
      forall i | 0 <= i < buckets.Length {
        buckets[i] := Bucket(0, 0);
      }
      current := 0;
      lastTime := now;
      history := NewHistory(now);
    }

    /** Body of the rotation loop: move on one slot and empty it. */
    method Rotate(ghost step: nat)
      requires buckets.Length == NUM_BUCKETS && current == step % NUM_BUCKETS
      requires RingMatches(buckets[..], history.log, step)
      modifies this`current, buckets
      ensures current == (step + 1) % NUM_BUCKETS
      ensures RingMatches(buckets[..], history.log, step + 1)
    {
      hide RingMatches;
      RotateRing(buckets[..], history.log, step);
      current := (current + 1) % NUM_BUCKETS;
      buckets[current] := Bucket(0, 0);
      assert buckets[..] == old(buckets[..])[(step + 1) % NUM_BUCKETS := Bucket(0, 0)];
    }

    method Touch(now: int)
      requires Valid()
      modifies this, buckets
      ensures Valid() && history == Advance(old(history), bucketDur, now)
    {
      var steps := (now - lastTime) / bucketDur;
      if steps <= 0 {
        return;
      }
      if steps > NUM_BUCKETS {
        steps := NUM_BUCKETS;
      }
      ghost var h := history;
      for i := 0 to steps
        invariant history == h && lastTime == h.lastTime
        invariant current == (h.step + i) % NUM_BUCKETS
        invariant RingMatches(buckets[..], h.log, h.step + i)
      {
        Rotate(h.step + i);
      }
      lastTime := now;
      history := History(h.log, h.step + steps, now);
    }

    method RecordOutcome(now: int, success: bool)
      requires Valid()
      modifies this, buckets
      ensures Valid() && history == Record(old(history), bucketDur, now, success)
    {
      hide RingMatches;
      Touch(now);
      ghost var h := history;
      RecordInRing(buckets[..], h.log, Outcome(now, success, h.step, h.lastTime));
      var b := buckets[current];
      buckets[current] := if success then b.(successes := b.successes + 1) else b.(failures := b.failures + 1);
      history := h.(log := h.log + [Outcome(now, success, h.step, h.lastTime)]);
    }

    method Totals(now: int) returns (successes: nat, failures: nat)
      requires Valid()
      modifies this, buckets
      ensures Valid() && history == Advance(old(history), bucketDur, now)
      ensures successes == Total(history, true) && failures == Total(history, false)
    {
      hide Count, Advance;
      Touch(now);
      successes, failures := 0, 0;
      ghost var log, step := history.log, history.step;
      CountBound(log, BelowSlot(step, 0, true));
      CountBound(log, BelowSlot(step, 0, false));
      for i := 0 to NUM_BUCKETS
        modifies {}
        invariant successes == Count(log, BelowSlot(step, i, true))
        invariant failures == Count(log, BelowSlot(step, i, false))
      {
        CountSplit(log, BelowSlot(step, i + 1, true), BelowSlot(step, i, true), InSlot(step, i, true));
        CountSplit(log, BelowSlot(step, i + 1, false), BelowSlot(step, i, false), InSlot(step, i, false));
        successes := successes + buckets[i].successes;
        failures := failures + buckets[i].failures;
      }
      ghost var h := history;
      CountSame(log, BelowSlot(step, NUM_BUCKETS, true), (e: Outcome) => Counted(h, e) && e.success == true);
      CountSame(log, BelowSlot(step, NUM_BUCKETS, false), (e: Outcome) => Counted(h, e) && e.success == false);
    }
  }
}
