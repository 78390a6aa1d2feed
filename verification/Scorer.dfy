/** Replica choice (internal/scorer/scorer.go): the best healthy, permitted replica of the tier
    asked for, else the best of any other tier. Asking a breaker changes it. */
module Scorer {
  import opened Arith
  import opened Options
  import opened Breakers
  import BreakerRuns
  import opened Registries
  import opened Routing

  datatype Weights = Weights(cacheAffinity: real, queueDepth: real, kvCachePressure: real, baseline: real, missPenalty: real) {
    /** Checked at startup, like the positive queue bound. */
    predicate NonNegative() {
      cacheAffinity >= 0.0 && queueDepth >= 0.0 && kvCachePressure >= 0.0 && baseline >= 0.0 && missPenalty >= 0.0
    }
  }

  datatype Settings = Settings(weights: Weights, maxQueue: real, breaker: UsableConfig) {
    predicate Checked() {
      weights.NonNegative() && maxQueue > 0.0
    }
  }

  type CheckedSettings = s: Settings | s.Checked()
    witness Settings(Weights(0.5, 0.25, 0.15, 0.1, 0.25), 20.0, Config(0.5, 10, 0, 5))

  datatype Health = Health(healthy: bool, queueDepth: int, kvCacheUtil: real)

  /** What one call of `Pick` looks at: the poller's snapshot, the affinity entry of the prefix,
      the replicas already tried, the clock at each breaker asked, and what other requests did to
      the breakers just before. */
  datatype Query = Query(replicas: seq<Replica>, states: map<string, Health>, affinity: Option<string>,
                         excluded: set<string>, tier: string, now: nat -> int, others: nat -> seq<Call>)

  function AtLeastZero(x: real): real {
    if x < 0.0 then 0.0 else x
  }

  function QueueTerm(s: CheckedSettings, h: Health): real {
    s.weights.queueDepth * AtLeastZero(1.0 - h.queueDepth as real / s.maxQueue)
  }

  function PressureTerm(s: CheckedSettings, h: Health): real {
    s.weights.kvCachePressure * AtLeastZero(1.0 - h.kvCacheUtil)
  }

  function Score(s: CheckedSettings, hit: bool, h: Health): real {
    s.weights.cacheAffinity * (if hit then 1.0 else 0.0)
    + QueueTerm(s, h)
    + PressureTerm(s, h)
    + s.weights.baseline * 0.5
    - (if hit then 0.0 else s.weights.missPenalty)
  }

  /** Healthy and not tried yet: its breaker will be asked. */
  predicate Asked(q: Query, i: nat)
    requires i < |q.replicas|
  {
    var id := q.replicas[i].id;
    id in q.states && q.states[id].healthy && id !in q.excluded
  }

  /** What happens to the breakers while the first n replicas are looked at. */
  function PickCalls(q: Query, n: nat): seq<Call>
    requires n <= |q.replicas|
  {
    if n == 0 then []
    else
      PickCalls(q, n - 1) + q.others(n - 1)
      + if Asked(q, n - 1) then [Call(q.replicas[n - 1].id, BreakerRuns.Allow(q.now(n - 1)))] else []
  }

  /** Asked, and permitted by its breaker at that moment; `c` is all that happened before. */
  predicate Eligible(s: CheckedSettings, q: Query, c: seq<Call>, i: nat)
    requires i < |q.replicas|
  {
    && Asked(q, i)
    && Permits(s.breaker, Entry(s.breaker, c + PickCalls(q, i) + q.others(i), q.replicas[i].id, q.now(i)), q.now(i))
  }

  /** A replica that is not asked never gets past the search's starting value. */
  function ScoreAt(s: CheckedSettings, q: Query, i: nat): real
    requires i < |q.replicas|
  {
    var id := q.replicas[i].id;
    if Asked(q, i) then Score(s, q.affinity == Some(id), q.states[id]) else -1.0
  }

  /** Eligible, of the right kind, and with a score the search's starting value lets through. */
  predicate Candidate(s: CheckedSettings, q: Query, c: seq<Call>, inTier: bool, i: nat)
    requires i < |q.replicas|
  {
    && Eligible(s, q, c, i)
    && (q.replicas[i].tier == q.tier) == inTier
    && ScoreAt(s, q, i) > -1.0
  }

  /** The first candidate of highest score among the first n replicas. */
  ghost predicate IsBest(s: CheckedSettings, q: Query, c: seq<Call>, inTier: bool, n: nat, i: nat)
    requires n <= |q.replicas|
  {
    && i < n && Candidate(s, q, c, inTier, i)
    && forall j | 0 <= j < n && Candidate(s, q, c, inTier, j) ::
         ScoreAt(s, q, j) <= ScoreAt(s, q, i) && (j < i ==> ScoreAt(s, q, j) < ScoreAt(s, q, i))
  }

  ghost predicate NoCandidate(s: CheckedSettings, q: Query, c: seq<Call>, inTier: bool, n: nat)
    requires n <= |q.replicas|
  {
    forall j | 0 <= j < n :: !Candidate(s, q, c, inTier, j)
  }

  ghost predicate IsBestReplica(s: CheckedSettings, q: Query, c: seq<Call>, inTier: bool, n: nat, r: Replica)
    requires n <= |q.replicas|
  {
    exists i: nat :: i < n && IsBest(s, q, c, inTier, n, i) && r == q.replicas[i]
  }

  /** The replica `Pick` owes its caller; "no replica" is the zero value, told by its empty ID. */
  function NoReplica(): Replica {
    Replica("", "", "", "", TierConfig("", 0, TierRouting([], [], false, false)), 0)
  }

  ghost predicate IsPick(s: CheckedSettings, q: Query, c: seq<Call>, r: Replica) {
    var n := |q.replicas|;
    if !NoCandidate(s, q, c, true, n) then IsBestReplica(s, q, c, true, n, r)
    else if !NoCandidate(s, q, c, false, n) then IsBestReplica(s, q, c, false, n, r)
    else r == NoReplica()
  }

  /** One side of the running search: the best so far and its score. */
  ghost predicate Tracks(s: CheckedSettings, q: Query, c: seq<Call>, inTier: bool, n: nat, best: Replica, score: real)
    requires n <= |q.replicas|
  {
    || (NoCandidate(s, q, c, inTier, n) && best == NoReplica() && score == -1.0)
    || exists i: nat :: i < n && IsBest(s, q, c, inTier, n, i) && best == q.replicas[i] && score == ScoreAt(s, q, i)
  }

  method Pick(s: CheckedSettings, q: Query, registry: Registry) returns (r: Replica)
    requires registry.Valid() && registry.cfg == s.breaker
    requires forall x | x in q.replicas :: x.id != ""
    modifies registry.Repr
    ensures registry.Valid() && fresh(registry.Repr - old(registry.Repr))
    ensures IsPick(s, q, old(registry.calls), r)
    ensures registry.calls == old(registry.calls) + PickCalls(q, |q.replicas|)
  {
    hide Tracks, Score, IsPick, Registry.Valid, Entry, Permits;
    var best, bestScore := NoReplica(), -1.0;
    var fallback, fallbackScore := NoReplica(), -1.0;
    ghost var c := registry.calls;
    NothingTracked(s, q, c);
    assert c == c + PickCalls(q, 0);
    for i := 0 to |q.replicas|
      invariant registry.Valid() && fresh(registry.Repr - old(registry.Repr))
      invariant registry.calls == c + PickCalls(q, i)
      invariant Tracks(s, q, c, true, i, best, bestScore)
      invariant Tracks(s, q, c, false, i, fallback, fallbackScore)
    {
      var x := q.replicas[i];
      TrackStep(s, q, c, true, i, best, bestScore);
      TrackStep(s, q, c, false, i, fallback, fallbackScore);
      registry.Perform(q.others(i));
      assert registry.calls == c + PickCalls(q, i) + q.others(i);
      assert !Asked(q, i) ==> registry.calls == c + PickCalls(q, i + 1);
      if x.id !in q.states || !q.states[x.id].healthy {
        continue;
      }
      if x.id in q.excluded {
        continue;
      }
      var ok := registry.Allow(x.id, q.now(i));
      assert registry.calls == c + PickCalls(q, i + 1);
      if !ok {
        continue;
      }
      var score := Score(s, q.affinity == Some(x.id), q.states[x.id]);
      if x.tier == q.tier {
        if score > bestScore {
          bestScore := score;
          best := x;
        }
      } else if score > fallbackScore {
        fallbackScore := score;
        fallback := x;
      }
    }
    TracksArePick(s, q, c, best, bestScore, fallback, fallbackScore);
    r := if best.id != "" then best else fallback;
  }

  lemma NothingTracked(s: CheckedSettings, q: Query, c: seq<Call>)
    ensures Tracks(s, q, c, true, 0, NoReplica(), -1.0) && Tracks(s, q, c, false, 0, NoReplica(), -1.0)
  {
  }

  lemma TrackStep(s: CheckedSettings, q: Query, c: seq<Call>, inTier: bool, n: nat, best: Replica, score: real)
    requires n < |q.replicas| && Tracks(s, q, c, inTier, n, best, score)
    ensures var x := q.replicas[n];
            if Eligible(s, q, c, n) && (x.tier == q.tier) == inTier && ScoreAt(s, q, n) > score
            then Tracks(s, q, c, inTier, n + 1, x, ScoreAt(s, q, n))
            else Tracks(s, q, c, inTier, n + 1, best, score)
  {
    hide Score, Eligible, IsBest;
    var better := Eligible(s, q, c, n) && (q.replicas[n].tier == q.tier) == inTier && ScoreAt(s, q, n) > score;
    if NoCandidate(s, q, c, inTier, n) && best == NoReplica() && score == -1.0 {
      if better {
        FirstCandidate(s, q, c, inTier, n);
      }
    } else {
      var i: nat :| i < n && IsBest(s, q, c, inTier, n, i) && best == q.replicas[i] && score == ScoreAt(s, q, i);
      StillBest(s, q, c, inTier, n, i, better);
    }
  }

  lemma FirstCandidate(s: CheckedSettings, q: Query, c: seq<Call>, inTier: bool, n: nat)
    requires n < |q.replicas| && NoCandidate(s, q, c, inTier, n) && Candidate(s, q, c, inTier, n)
    ensures IsBest(s, q, c, inTier, n + 1, n)
  {
    hide Candidate, ScoreAt;
  }

  /** A later replica takes over only with a strictly higher score. */
  lemma StillBest(s: CheckedSettings, q: Query, c: seq<Call>, inTier: bool, n: nat, i: nat, better: bool)
    requires i < n < |q.replicas| && IsBest(s, q, c, inTier, n, i)
    requires better <==> Eligible(s, q, c, n) && (q.replicas[n].tier == q.tier) == inTier && ScoreAt(s, q, n) > ScoreAt(s, q, i)
    ensures IsBest(s, q, c, inTier, n + 1, if better then n else i)
  {
    assert ScoreAt(s, q, i) > -1.0;
    assert better ==> Candidate(s, q, c, inTier, n);
    assert Candidate(s, q, c, inTier, n) && !better ==> ScoreAt(s, q, n) <= ScoreAt(s, q, i);
    hide Eligible, ScoreAt, Candidate;
  }

  lemma TracksArePick(s: CheckedSettings, q: Query, c: seq<Call>, best: Replica, bestScore: real,
                      fallback: Replica, fallbackScore: real)
    requires forall x | x in q.replicas :: x.id != ""
    requires Tracks(s, q, c, true, |q.replicas|, best, bestScore)
    requires Tracks(s, q, c, false, |q.replicas|, fallback, fallbackScore)
    ensures IsPick(s, q, c, if best.id != "" then best else fallback)
  {
    TrackedBest(s, q, c, true, |q.replicas|, best, bestScore);
    TrackedBest(s, q, c, false, |q.replicas|, fallback, fallbackScore);
    hide NoCandidate, IsBestReplica, Tracks;
  }

  lemma TrackedBest(s: CheckedSettings, q: Query, c: seq<Call>, inTier: bool, n: nat, best: Replica, score: real)
    requires n <= |q.replicas| && forall x | x in q.replicas :: x.id != ""
    requires Tracks(s, q, c, inTier, n, best, score)
    ensures if NoCandidate(s, q, c, inTier, n) then best == NoReplica()
            else IsBestReplica(s, q, c, inTier, n, best) && best.id != ""
  {
    hide Candidate, ScoreAt;
    if !(NoCandidate(s, q, c, inTier, n) && best == NoReplica() && score == -1.0) {
      var i: nat :| i < n && IsBest(s, q, c, inTier, n, i) && best == q.replicas[i] && score == ScoreAt(s, q, i);
      assert q.replicas[i] in q.replicas;
    }
  }

  // ----- When something is picked -----

  lemma ScoreFloor(s: CheckedSettings, hit: bool, h: Health)
    ensures Score(s, hit, h) >= s.weights.baseline * 0.5 - s.weights.missPenalty
    ensures hit ==> Score(s, hit, h) >= s.weights.baseline * 0.5 + s.weights.cacheAffinity
  {
    RealMulMono(0.0, AtLeastZero(1.0 - h.queueDepth as real / s.maxQueue), s.weights.queueDepth);
    RealMulMono(0.0, AtLeastZero(1.0 - h.kvCacheUtil), s.weights.kvCachePressure);
  }

  /** What each weight is worth: the affine score is fixed by its corners, idle or saturated, hit
      or miss. */
  lemma ScoreCorners(s: CheckedSettings, hit: bool, full: int)
    requires full as real >= s.maxQueue
    ensures var w := s.weights;
            var base := w.baseline / 2.0 + if hit then w.cacheAffinity else -w.missPenalty;
            && Score(s, hit, Health(true, 0, 0.0)) == base + w.queueDepth + w.kvCachePressure
            && Score(s, hit, Health(true, full, 0.0)) == base + w.kvCachePressure
            && Score(s, hit, Health(true, 0, 1.0)) == base + w.queueDepth
            && Score(s, hit, Health(true, full, 1.0)) == base
  {
    QuotientAtLeast(full as real, s.maxQueue, 1.0);
    assert 0.0 / s.maxQueue == 0.0;
  }

  /** More queued requests or a fuller cache never raise the score. */
  lemma LoadLowersScore(s: CheckedSettings, hit: bool, a: Health, b: Health)
    requires a.queueDepth <= b.queueDepth && a.kvCacheUtil <= b.kvCacheUtil
    ensures Score(s, hit, a) >= Score(s, hit, b)
  {
    TermsShrink(s, a, b);
    hide QueueTerm, PressureTerm;
  }

  lemma TermsShrink(s: CheckedSettings, a: Health, b: Health)
    requires a.queueDepth <= b.queueDepth && a.kvCacheUtil <= b.kvCacheUtil
    ensures QueueTerm(s, a) >= QueueTerm(s, b) && PressureTerm(s, a) >= PressureTerm(s, b)
  {
    RoomShrinks(a.queueDepth as real, b.queueDepth as real, s.maxQueue);
    RealMulMono(AtLeastZero(1.0 - b.queueDepth as real / s.maxQueue), AtLeastZero(1.0 - a.queueDepth as real / s.maxQueue),
                s.weights.queueDepth);
    RealMulMono(AtLeastZero(1.0 - b.kvCacheUtil), AtLeastZero(1.0 - a.kvCacheUtil), s.weights.kvCachePressure);
  }

  lemma RoomShrinks(x: real, y: real, m: real)
    requires x <= y && m > 0.0
    ensures AtLeastZero(1.0 - x / m) >= AtLeastZero(1.0 - y / m)
  {
    QuotientAtLeast(y, m, x / m);
    assert x / m * m == x;
  }

  // ----- What load costs -----

  /** The share of the queue bound in use, at most all of it; and of the cache. */
  function QueueShare(s: CheckedSettings, h: Health): real {
    if h.queueDepth as real >= s.maxQueue then 1.0 else h.queueDepth as real / s.maxQueue
  }

  function CacheShare(h: Health): real {
    if h.kvCacheUtil >= 1.0 then 1.0 else h.kvCacheUtil
  }

  function LoadCost(s: CheckedSettings, h: Health): real {
    s.weights.queueDepth * QueueShare(s, h) + s.weights.kvCachePressure * CacheShare(h)
  }

  /** The score is that of an idle replica less its weighted load: linear in queue and cache up to their
      bounds, and flat beyond. */
  lemma ScoreIsIdleLessLoad(s: CheckedSettings, hit: bool, h: Health)
    ensures Score(s, hit, h) == Score(s, hit, Health(true, 0, 0.0)) - LoadCost(s, h)
  {
    QueueTermIs(s, h);
    PressureTermIs(s, h);
    QueueTermIs(s, Health(true, 0, 0.0));
    PressureTermIs(s, Health(true, 0, 0.0));
    ZeroShares(s);
    hide QueueTerm, PressureTerm, QueueShare, CacheShare;
  }

  lemma ZeroShares(s: CheckedSettings)
    ensures QueueShare(s, Health(true, 0, 0.0)) == 0.0 && CacheShare(Health(true, 0, 0.0)) == 0.0
    ensures s.weights.queueDepth * 0.0 == 0.0 && s.weights.kvCachePressure * 0.0 == 0.0
  {
    assert 0.0 / s.maxQueue == 0.0;
  }

  lemma QueueTermIs(s: CheckedSettings, h: Health)
    ensures QueueTerm(s, h) == s.weights.queueDepth - s.weights.queueDepth * QueueShare(s, h)
  {
    var q, m := h.queueDepth as real, s.maxQueue;
    QuotientAtLeast(q, m, 1.0);
    assert AtLeastZero(1.0 - q / m) == 1.0 - QueueShare(s, h);
    Less(s.weights.queueDepth, QueueShare(s, h));
  }

  lemma PressureTermIs(s: CheckedSettings, h: Health)
    ensures PressureTerm(s, h) == s.weights.kvCachePressure - s.weights.kvCachePressure * CacheShare(h)
  {
    assert AtLeastZero(1.0 - h.kvCacheUtil) == 1.0 - CacheShare(h);
    Less(s.weights.kvCachePressure, CacheShare(h));
  }

  lemma Less(w: real, x: real)
    ensures w * (1.0 - x) == w - w * x
  {
    RealMulAdd(w, 1.0 - x, x);
    assert w * 1.0 == w;
  }

  /** Every queued request below the bound, and every share of the cache, costs its weight. */
  lemma LoadCostsEvenly(s: CheckedSettings, hit: bool, q: int, more: int, u: real, v: real)
    requires q as real <= s.maxQueue && (q + more) as real <= s.maxQueue && u <= 1.0 && v <= 1.0
    ensures Score(s, hit, Health(true, q, u)) - Score(s, hit, Health(true, q + more, v))
            == s.weights.queueDepth * (more as real / s.maxQueue) + s.weights.kvCachePressure * (v - u)
  {
    var m, w := s.maxQueue, s.weights;
    ScoreIsIdleLessLoad(s, hit, Health(true, q, u));
    ScoreIsIdleLessLoad(s, hit, Health(true, q + more, v));
    ShareBelow(q as real, m);
    ShareBelow((q + more) as real, m);
    SharesAdd(q as real, more as real, m);
    RealMulAdd(w.queueDepth, q as real / m, more as real / m);
    RealMulAdd(w.kvCachePressure, u, v - u);
    assert u + (v - u) == v;
    assert (q + more) as real == q as real + more as real;
    hide Score;
  }

  lemma ShareBelow(x: real, m: real)
    requires x <= m && m > 0.0
    ensures (if x >= m then 1.0 else x / m) == x / m
  {
  }

  lemma SharesAdd(x: real, y: real, m: real)
    requires m > 0.0
    ensures (x + y) / m == x / m + y / m
  {
  }

  /** Without prefixes, `Pick` goes to a replica of the tier whose weighted load is least. */
  lemma LeastLoadedIsPicked(s: CheckedSettings, q: Query, c: seq<Call>, r: Replica, i: nat)
    requires IsPick(s, q, c, r) && q.affinity == None
    requires i < |q.replicas| && Eligible(s, q, c, i) && q.replicas[i].tier == q.tier && ScoreAt(s, q, i) > -1.0
    ensures r.id in q.states && LoadCost(s, q.states[r.id]) <= LoadCost(s, q.states[q.replicas[i].id])
  {
    hide Score, Permits, PickCalls, LoadCost;
    var n := |q.replicas|;
    assert Candidate(s, q, c, true, i);
    var k: nat :| k < n && IsBest(s, q, c, true, n, k) && r == q.replicas[k];
    ScoreIsIdleLessLoad(s, false, q.states[q.replicas[i].id]);
    ScoreIsIdleLessLoad(s, false, q.states[q.replicas[k].id]);
  }

  /** A replica of another tier is picked only if no replica of the tier is a candidate, and then again
      the least loaded one. */
  lemma OtherTierLast(s: CheckedSettings, q: Query, c: seq<Call>, r: Replica, i: nat)
    requires IsPick(s, q, c, r) && r.id != "" && r.tier != q.tier
    requires i < |q.replicas| && Eligible(s, q, c, i) && ScoreAt(s, q, i) > -1.0
    ensures q.replicas[i].tier != q.tier
    ensures q.affinity == None ==> r.id in q.states && LoadCost(s, q.states[r.id]) <= LoadCost(s, q.states[q.replicas[i].id])
  {
    hide Score, Permits, PickCalls, LoadCost;
    var n := |q.replicas|;
    assert Candidate(s, q, c, q.replicas[i].tier == q.tier, i);
    assert !IsBestReplica(s, q, c, true, n, r);
    var k: nat :| k < n && IsBest(s, q, c, false, n, k) && r == q.replicas[k];
    ScoreIsIdleLessLoad(s, false, q.states[q.replicas[i].id]);
    ScoreIsIdleLessLoad(s, false, q.states[q.replicas[k].id]);
  }

  /** Of candidates that score the same, a later one is never picked. */
  lemma EarlierWinsTies(s: CheckedSettings, q: Query, c: seq<Call>, r: Replica, i: nat, j: nat)
    requires IsPick(s, q, c, r) && DistinctIds(q.replicas)
    requires i < j < |q.replicas| && q.replicas[i].tier == q.replicas[j].tier
    requires Eligible(s, q, c, i) && ScoreAt(s, q, i) >= ScoreAt(s, q, j) && ScoreAt(s, q, i) > -1.0
    ensures r.id != q.replicas[j].id
  {
    hide ScoreAt, Eligible, IsPick, IsBest;
    var inTier, k := PickedBest(s, q, c, r, i);
    NotBestAfter(s, q, c, inTier, i, j);
  }

  lemma PickedBest(s: CheckedSettings, q: Query, c: seq<Call>, r: Replica, i: nat) returns (inTier: bool, k: nat)
    requires IsPick(s, q, c, r) && i < |q.replicas| && Eligible(s, q, c, i) && ScoreAt(s, q, i) > -1.0
    ensures k < |q.replicas| && IsBest(s, q, c, inTier, |q.replicas|, k) && r == q.replicas[k]
  {
    assert Candidate(s, q, c, q.replicas[i].tier == q.tier, i);
    hide Candidate, IsBest;
    var n := |q.replicas|;
    inTier := !NoCandidate(s, q, c, true, n);
    assert IsBestReplica(s, q, c, inTier, n, r);
    k :| k < n && IsBest(s, q, c, inTier, n, k) && r == q.replicas[k];
  }

  lemma NotBestAfter(s: CheckedSettings, q: Query, c: seq<Call>, inTier: bool, i: nat, j: nat)
    requires i < j < |q.replicas| && ScoreAt(s, q, i) >= ScoreAt(s, q, j)
    requires (q.replicas[i].tier == q.replicas[j].tier) && Candidate(s, q, c, q.replicas[i].tier == q.tier, i)
    ensures !IsBest(s, q, c, inTier, |q.replicas|, j)
  {
    hide ScoreAt, Eligible;
  }

  // ----- When the prefix cache decides -----

  predicate Plausible(h: Health) {
    h.queueDepth >= 0 && h.kvCacheUtil >= 0.0
  }

  /** A replica that has the prefix beats one that has not, whatever their loads. */
  ghost predicate AffinityDecides(s: CheckedSettings) {
    forall a: Health, b: Health | Plausible(a) && Plausible(b) :: Score(s, true, a) > Score(s, false, b)
  }

  lemma ScoreRange(s: CheckedSettings, hit: bool, h: Health)
    requires Plausible(h)
    ensures var w := s.weights;
            var base := w.baseline / 2.0 + if hit then w.cacheAffinity else -w.missPenalty;
            base <= Score(s, hit, h) <= base + w.queueDepth + w.kvCachePressure
  {
    var idle := Health(true, 0, 0.0);
    var full := s.maxQueue.Floor + 1 + h.queueDepth;
    ScoreCorners(s, hit, full);
    LoadLowersScore(s, hit, idle, h);
    ScoreFloor(s, hit, h);
    hide Score;
  }

  /** It does exactly when the cache weight and the miss penalty together outweigh both loads. */
  lemma AffinityDecidesExactly(s: CheckedSettings)
    ensures AffinityDecides(s)
            <==> s.weights.cacheAffinity + s.weights.missPenalty > s.weights.queueDepth + s.weights.kvCachePressure
  {
    hide Score;
    if s.weights.cacheAffinity + s.weights.missPenalty > s.weights.queueDepth + s.weights.kvCachePressure {
      forall a: Health, b: Health | Plausible(a) && Plausible(b)
        ensures Score(s, true, a) > Score(s, false, b)
      {
        ScoreRange(s, true, a);
        ScoreRange(s, false, b);
      }
    } else {
      var full := s.maxQueue.Floor + 1;
      ScoreCorners(s, true, full);
      ScoreCorners(s, false, full);
      assert Plausible(Health(true, full, 1.0)) && Plausible(Health(true, 0, 0.0));
    }
  }

  /** Then `Pick` goes to the replica that has the prefix whenever it can be asked for this tier. */
  lemma AffinityIsPicked(s: CheckedSettings, q: Query, c: seq<Call>, r: Replica, i: nat)
    requires AffinityDecides(s) && DistinctIds(q.replicas) && IsPick(s, q, c, r)
    requires forall id | id in q.states :: Plausible(q.states[id])
    requires i < |q.replicas| && Eligible(s, q, c, i) && q.replicas[i].tier == q.tier
    requires q.affinity == Some(q.replicas[i].id)
    ensures r == q.replicas[i]
  {
    hide Score, Permits, PickCalls;
    var n := |q.replicas|;
    ScoreRange(s, true, q.states[q.replicas[i].id]);
    assert Candidate(s, q, c, true, i);
    forall j: nat | j < n && j != i && Asked(q, j)
      ensures ScoreAt(s, q, j) < ScoreAt(s, q, i)
    {
      assert q.affinity != Some(q.replicas[j].id);
      assert Plausible(q.states[q.replicas[j].id]) && Plausible(q.states[q.replicas[i].id]);
    }
    var k: nat :| k < n && IsBest(s, q, c, true, n, k) && r == q.replicas[k];
    assert Candidate(s, q, c, true, k);
    AskedIfEligible(s, q, c, k);
  }

  ghost predicate SomeEligible(s: CheckedSettings, q: Query, c: seq<Call>) {
    exists i: nat :: i < |q.replicas| && Eligible(s, q, c, i)
  }

  /** No eligible replica is ever overlooked. */
  ghost predicate NeverOverlooks(s: CheckedSettings) {
    forall q: Query, c: seq<Call>, r: Replica | (forall x | x in q.replicas :: x.id != "") && IsPick(s, q, c, r) ::
      r.id == "" <==> !SomeEligible(s, q, c)
  }

  lemma PickedIsEligible(s: CheckedSettings, q: Query, c: seq<Call>, r: Replica) returns (i: nat)
    requires IsPick(s, q, c, r) && r.id != ""
    ensures i < |q.replicas| && Eligible(s, q, c, i) && r == q.replicas[i]
  {
    hide Eligible, ScoreAt, NoCandidate;
    var n := |q.replicas|;
    if IsBestReplica(s, q, c, true, n, r) {
      i :| i < n && IsBest(s, q, c, true, n, i) && r == q.replicas[i];
    } else {
      i :| i < n && IsBest(s, q, c, false, n, i) && r == q.replicas[i];
    }
  }

  lemma EligibleIsCandidate(s: CheckedSettings, q: Query, c: seq<Call>, i: nat)
    requires s.weights.missPenalty < 1.0 + s.weights.baseline / 2.0
    requires i < |q.replicas| && Eligible(s, q, c, i)
    ensures Candidate(s, q, c, q.replicas[i].tier == q.tier, i)
  {
    hide Score;
    AskedIfEligible(s, q, c, i);
    var id := q.replicas[i].id;
    ScoreFloor(s, q.affinity == Some(id), q.states[id]);
  }

  lemma BestHasId(s: CheckedSettings, q: Query, c: seq<Call>, inTier: bool, r: Replica)
    requires (forall x | x in q.replicas :: x.id != "") && IsBestReplica(s, q, c, inTier, |q.replicas|, r)
    ensures r.id != ""
  {
    hide IsBest;
    var i: nat :| i < |q.replicas| && IsBest(s, q, c, inTier, |q.replicas|, i) && r == q.replicas[i];
    assert q.replicas[i] in q.replicas;
  }

  lemma LowPenaltyFinds(s: CheckedSettings, q: Query, c: seq<Call>, r: Replica)
    requires s.weights.missPenalty < 1.0 + s.weights.baseline / 2.0
    requires (forall x | x in q.replicas :: x.id != "") && IsPick(s, q, c, r)
    ensures r.id == "" <==> !SomeEligible(s, q, c)
  {
    hide Eligible, Candidate, IsBestReplica;
    if SomeEligible(s, q, c) {
      var i: nat :| i < |q.replicas| && Eligible(s, q, c, i);
      EligibleIsCandidate(s, q, c, i);
      if IsBestReplica(s, q, c, true, |q.replicas|, r) {
        BestHasId(s, q, c, true, r);
      } else {
        BestHasId(s, q, c, false, r);
      }
    } else if r.id != "" {
      var i := PickedIsEligible(s, q, c, r);
    }
  }

  lemma AskedIfEligible(s: CheckedSettings, q: Query, c: seq<Call>, i: nat)
    requires i < |q.replicas| && Eligible(s, q, c, i)
    ensures Asked(q, i)
  {
  }

  /** A miss penalty below one plus half the baseline is exactly what makes `Pick` return nothing
      only when nothing is eligible; with a larger one, a saturated replica is passed over although
      it is the only one left. */
  lemma NeverOverlooksExactly(s: CheckedSettings)
    ensures NeverOverlooks(s) <==> s.weights.missPenalty < 1.0 + s.weights.baseline / 2.0
  {
    if s.weights.missPenalty < 1.0 + s.weights.baseline / 2.0 {
      forall q: Query, c: seq<Call>, r: Replica | (forall x | x in q.replicas :: x.id != "") && IsPick(s, q, c, r)
        ensures r.id == "" <==> !SomeEligible(s, q, c)
      {
        LowPenaltyFinds(s, q, c, r);
      }
    } else {
      var q := Overlooked(s);
    }
  }

  /** A single replica, healthy and permitted but saturated, is passed over. */
  lemma Overlooked(s: CheckedSettings) returns (q: Query)
    requires s.weights.missPenalty >= 1.0 + s.weights.baseline / 2.0
    ensures (forall x | x in q.replicas :: x.id != "") && SomeEligible(s, q, []) && IsPick(s, q, [], NoReplica())
  {
    var x := NoReplica().(id := "r", tier := "t");
    var full := Health(true, s.maxQueue.Floor + 1, 1.0);
    q := Query([x], map["r" := full], None, {}, "t", _ => 0, _ => []);
    SaturatedScore(s, full);
    assert Eligible(s, q, [], 0);
    assert ScoreAt(s, q, 0) == s.weights.baseline * 0.5 - s.weights.missPenalty;
    assert NoCandidate(s, q, [], true, 1) && NoCandidate(s, q, [], false, 1);
  }

  lemma SaturatedScore(s: CheckedSettings, h: Health)
    requires h.queueDepth as real >= s.maxQueue && h.kvCacheUtil == 1.0
    ensures Score(s, false, h) == s.weights.baseline * 0.5 - s.weights.missPenalty
  {
    QuotientAtLeast(h.queueDepth as real, s.maxQueue, 1.0);
  }

  // ----- What a pick does to the breakers it asks -----

  predicate DistinctIds(replicas: seq<Replica>) {
    forall i, j | 0 <= i < j < |replicas| :: replicas[i].id != replicas[j].id
  }

  /** Nobody else calls a replica's breaker while the first n replicas are looked at. */
  ghost predicate Quiet(q: Query, id: string, n: nat) {
    forall j: nat | j < n :: OpsOn(q.others(j), id) == []
  }

  /** Every replica asked has its breaker touched exactly once, whether or not it is the one picked:
      a cooled-down breaker of an unpicked replica is left half-open with no request under way. */
  lemma {:induction false} PickTouchesEveryoneAsked(q: Query, n: nat, i: nat)
    requires DistinctIds(q.replicas) && i < n <= |q.replicas| && Quiet(q, q.replicas[i].id, n)
    ensures OpsOn(PickCalls(q, n), q.replicas[i].id) == if Asked(q, i) then [BreakerRuns.Allow(q.now(i))] else []
  {
    hide OpsOn;
    PickStep(q, n, q.replicas[i].id);
    if i == n - 1 {
      Untouched(q, i, q.replicas[i].id);
    } else {
      PickTouchesEveryoneAsked(q, n - 1, i);
    }
  }

  lemma PickStep(q: Query, n: nat, id: string)
    requires 0 < n <= |q.replicas| && OpsOn(q.others(n - 1), id) == []
    ensures OpsOn(PickCalls(q, n), id)
            == OpsOn(PickCalls(q, n - 1), id)
               + if Asked(q, n - 1) && q.replicas[n - 1].id == id then [BreakerRuns.Allow(q.now(n - 1))] else []
  {
    hide OpsOn;
    var before := PickCalls(q, n - 1) + q.others(n - 1);
    OpsOnAppend(PickCalls(q, n - 1), q.others(n - 1), id);
    assert OpsOn(PickCalls(q, n - 1), id) + [] == OpsOn(PickCalls(q, n - 1), id);
    if Asked(q, n - 1) {
      OpsOnOne(before, Call(q.replicas[n - 1].id, BreakerRuns.Allow(q.now(n - 1))), id);
    } else {
      assert PickCalls(q, n) == before + [] == before;
    }
  }

  lemma {:induction false} Untouched(q: Query, n: nat, id: string)
    requires n <= |q.replicas| && Quiet(q, id, n) && forall j | 0 <= j < n :: q.replicas[j].id != id
    ensures OpsOn(PickCalls(q, n), id) == []
  {
    if n > 0 {
      Untouched(q, n - 1, id);
      PickStep(q, n, id);
    }
  }

  /** With distinct IDs, and nobody else at that breaker meanwhile, eligibility is what the breaker
      said before the pick. */
  lemma EligibleBefore(s: CheckedSettings, q: Query, c: seq<Call>, i: nat)
    requires DistinctIds(q.replicas) && i < |q.replicas| && Quiet(q, q.replicas[i].id, i + 1)
    ensures Eligible(s, q, c, i) <==>
            Asked(q, i) && Permits(s.breaker, Entry(s.breaker, c, q.replicas[i].id, q.now(i)), q.now(i))
  {
    hide OpsOn, Permits, PickCalls;
    var id := q.replicas[i].id;
    Untouched(q, i, id);
    OpsOnAppend(c, PickCalls(q, i), id);
    OpsOnAppend(c + PickCalls(q, i), q.others(i), id);
    assert OpsOn(c, id) + [] + [] == OpsOn(c, id);
  }
}
