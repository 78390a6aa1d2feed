/** The retry loop of the request handler (internal/proxy/handler.go): which replicas a request
    is sent to, what is recorded against their breakers, and what is cleaned up after a failure.
    Health, affinity, clocks, upstream behaviour and the other requests that use the same breakers
    meanwhile are inputs. */
module RetryLoop {
  import opened Options
  import opened Breakers
  import opened BreakerRuns
  import opened Registries
  import opened Routing
  import opened Scorer
  import opened Relay

  /** What came back from an upstream: nothing, or a status and what its body will deliver. */
  datatype Upstream = Failed | Response(status: int, arrivals: seq<Piece>)

  /** What the k-th attempt of the request meets: what its pick looks at, what other requests do
      between the pick and the outcome, and the clock. */
  datatype View = View(states: map<string, Health>, affinity: Option<string>, now: nat -> int, others: nat -> seq<Call>,
                       between: seq<Call>, peekAt: int, byteFirst: bool, doneAt: int)

  datatype Request = Request(replicas: seq<Replica>, tier: string, stallTimeout: int, maxRetries: int,
                             view: nat -> View, upstream: (nat, string) -> Upstream)

  function TimerOf(r: Request, k: nat): Timer {
    Timer(r.view(k).peekAt, r.stallTimeout, r.view(k).byteFirst)
  }

  /** The k-th attempt succeeds: no transport or server error, and a first byte in time. Stall
      detection is off for a zero timeout. */
  predicate Good(r: Request, k: nat, u: Upstream) {
    u.Response? && u.status < 500 && (r.stallTimeout > 0 ==> Alive(u.arrivals, TimerOf(r, k)))
  }

  /** One pass of the loop, with how often it recorded an outcome against the replica's breaker,
      cancelled the upstream context and closed the response body. */
  datatype Attempt = Attempt(replica: Replica, upstream: Upstream, failures: int, successes: int, cancels: int, closes: int)

  /** A failed attempt counts one failure and leaves nothing open; a good one counts one success
      and leaves its body to be streamed. */
  predicate Settled(r: Request, k: nat, a: Attempt) {
    if Good(r, k, a.upstream)
    then a.failures == 0 && a.successes == 1 && a.cancels == 0 && a.closes == 0
    else a.failures == 1 && a.successes == 0 && a.cancels == 1 && a.closes == if a.upstream.Response? then 1 else 0
  }

  function Tried(ledger: seq<Attempt>): set<string> {
    set a | a in ledger :: a.replica.id
  }

  function QueryAt(r: Request, ledger: seq<Attempt>): Query {
    var v := r.view(|ledger|);
    Query(r.replicas, v.states, v.affinity, Tried(ledger), r.tier, v.now, v.others)
  }

  /** The outcome an attempt records. */
  function OutcomeOf(r: Request, k: nat, a: Attempt): Call {
    Call(a.replica.id, if Good(r, k, a.upstream) then Success(r.view(k).doneAt) else Failure(r.view(k).doneAt))
  }

  /** All that happens to the breakers over the attempts of the ledger, by this request and others:
      each pick asks its candidates, then exactly one outcome is recorded, against the replica that
      was sent to. */
  function Trace(r: Request, ledger: seq<Attempt>): seq<Call>
    decreases |ledger|, 0
  {
    if |ledger| == 0 then []
    else
      var k := |ledger| - 1;
      Asking(r, ledger[..k]) + r.view(k).between + [OutcomeOf(r, k, ledger[k])]
  }

  /** ... and over the pick that follows them. */
  function Asking(r: Request, ledger: seq<Attempt>): seq<Call>
    decreases |ledger|, 1
  {
    Trace(r, ledger) + PickCalls(QueryAt(r, ledger), |r.replicas|)
  }

  /** The k-th attempt went to what `Pick` returned, given all that happened before it. */
  ghost predicate PickedAt(s: CheckedSettings, r: Request, c: seq<Call>, ledger: seq<Attempt>, k: nat)
    requires k < |ledger|
  {
    && IsPick(s, QueryAt(r, ledger[..k]), c + Trace(r, ledger[..k]), ledger[k].replica)
    && ledger[k].replica.id != ""
    && ledger[k].upstream == r.upstream(k, ledger[k].replica.id)
  }

  predicate DistinctTries(ledger: seq<Attempt>) {
    forall i, j | 0 <= i < j < |ledger| :: ledger[i].replica.id != ledger[j].replica.id
  }

  ghost predicate Sound(s: CheckedSettings, r: Request, c: seq<Call>, ledger: seq<Attempt>) {
    && (forall k | 0 <= k < |ledger| :: PickedAt(s, r, c, ledger, k))
    && (forall k | 0 <= k < |ledger| :: Settled(r, k, ledger[k]))
    && DistinctTries(ledger)
  }

  lemma OneMoreAttempt(s: CheckedSettings, r: Request, c: seq<Call>, ledger: seq<Attempt>, a: Attempt)
    requires Sound(s, r, c, ledger) && Settled(r, |ledger|, a)
    requires IsPick(s, QueryAt(r, ledger), c + Trace(r, ledger), a.replica)
    requires a.replica.id != "" && a.upstream == r.upstream(|ledger|, a.replica.id)
    ensures Sound(s, r, c, ledger + [a])
  {
    hide IsPick, Trace, Settled, Good;
    var all := ledger + [a];
    forall k | 0 <= k < |all|
      ensures PickedAt(s, r, c, all, k)
    {
      if k < |ledger| {
        assert PickedAt(s, r, c, ledger, k);
        assert all[..k] == ledger[..k];
      } else {
        assert all[..k] == ledger;
      }
    }
    NotTried(s, r, c, ledger, a.replica);
  }

  /** A pick never returns a replica that was tried before. */
  lemma NotTried(s: CheckedSettings, r: Request, c: seq<Call>, ledger: seq<Attempt>, x: Replica)
    requires IsPick(s, QueryAt(r, ledger), c + Trace(r, ledger), x) && x.id != ""
    ensures x.id !in Tried(ledger)
  {
    hide IsPick, Trace;
    var q := QueryAt(r, ledger);
    var i := PickedIsEligible(s, q, c + Trace(r, ledger), x);
    AskedIfEligible(s, q, c + Trace(r, ledger), i);
  }

  /** What one more attempt does to the breakers. */
  lemma OneMoreRecorded(r: Request, c: seq<Call>, ledger: seq<Attempt>, a: Attempt)
    ensures c + Trace(r, ledger + [a])
            == c + Trace(r, ledger) + PickCalls(QueryAt(r, ledger), |r.replicas|) + r.view(|ledger|).between
               + [OutcomeOf(r, |ledger|, a)]
  {
    TraceStep(r, ledger, a);
    hide Trace, PickCalls, OutcomeOf;
    Regroup(c, Trace(r, ledger), PickCalls(QueryAt(r, ledger), |r.replicas|), r.view(|ledger|).between, [OutcomeOf(r, |ledger|, a)]);
  }

  lemma TraceStep(r: Request, ledger: seq<Attempt>, a: Attempt)
    ensures Trace(r, ledger + [a]) == Asking(r, ledger) + r.view(|ledger|).between + [OutcomeOf(r, |ledger|, a)]
  {
    hide PickCalls, QueryAt, OutcomeOf, Asking;
    assert (ledger + [a])[..|ledger|] == ledger;
  }

  lemma Regroup<T>(a: seq<T>, b: seq<T>, c: seq<T>, d: seq<T>, e: seq<T>)
    ensures a + (b + c + d + e) == a + b + c + d + e
    ensures a + (b + c) == a + b + c
  {
  }

  // ----- The loop -----

  method DoUpstream(r: Request, k: nat, replica: Replica) returns (upstream: Upstream, body: Body?)
    ensures upstream == r.upstream(k, replica.id)
    ensures (body != null <==> upstream.Response?)
    ensures body != null ==> fresh(body) && body.Untouched() && body.arrivals == upstream.arrivals
  {
    upstream := r.upstream(k, replica.id);
    body := null;
    if upstream.Response? {
      body := new Body(upstream.arrivals);
    }
  }

  /** The context an upstream request runs under. */
  class UpstreamContext {
    var cancelled: bool

    constructor ()
      ensures !cancelled
    {
      cancelled := false;
    }

    method Cancel()
      modifies this
      ensures cancelled
    {
      cancelled := true;
    }
  }

  /** What came of the attempts before the winner, if any: they failed, their contexts are cancelled and
      their bodies closed. */
  ghost predicate CleanedUp(r: Request, ledger: seq<Attempt>, contexts: seq<UpstreamContext>, bodies: seq<Body?>, n: nat)
    reads contexts, bodies
    requires n <= |ledger| == |bodies| == |contexts|
  {
    forall k | 0 <= k < n ::
      && !Good(r, k, ledger[k].upstream) && contexts[k].cancelled
      && (bodies[k] != null <==> ledger[k].upstream.Response?) && (bodies[k] != null ==> bodies[k].closed)
  }

  /** Sends the request until an attempt succeeds; its body comes back as a reader that has all of
      it still to deliver. */
  method Serve(s: CheckedSettings, r: Request, registry: Registry)
    returns (chosen: Option<Replica>, reader: Replay?, ledger: seq<Attempt>, contexts: seq<UpstreamContext>, bodies: seq<Body?>)
    requires registry.Valid() && registry.cfg == s.breaker
    requires forall x | x in r.replicas :: x.id != ""
    modifies registry.Repr
    ensures registry.Valid() && fresh(registry.Repr - old(registry.Repr))
    ensures Sound(s, r, old(registry.calls), ledger)
    ensures |ledger| <= 1 + r.maxRetries || ledger == []
    ensures |bodies| == |ledger| && forall b | b in bodies && b != null :: fresh(b) && b !in registry.Repr
    ensures |contexts| == |ledger| && forall x | x in contexts :: fresh(x) && x !in registry.Repr
    ensures chosen.None? <==> reader == null
    ensures chosen.Some? ==>
              var k := |ledger| - 1;
              && k >= 0 && Good(r, k, ledger[k].upstream) && chosen.value == ledger[k].replica
              && CleanedUp(r, ledger, contexts, bodies, k)
              && fresh(reader) && reader !in registry.Repr && reader.body == bodies[k] && !reader.body.closed
              && !contexts[k].cancelled && reader.Remaining() == Payload(ledger[k].upstream.arrivals)
              && registry.calls == old(registry.calls) + Trace(r, ledger)
    ensures chosen.None? ==>
              && CleanedUp(r, ledger, contexts, bodies, |ledger|)
              && (if |ledger| >= 1 + r.maxRetries then registry.calls == old(registry.calls) + Trace(r, ledger)
                  else IsPick(s, QueryAt(r, ledger), old(registry.calls) + Trace(r, ledger), NoReplica())
                       && registry.calls == old(registry.calls) + Asking(r, ledger))
  {
    hide IsPick, Sound, Trace, Asking, PickCalls, Registry.Valid, Payload, Good, Settled, OutcomeOf, CleanedUp, Tried;
    ghost var c := registry.calls;
    ledger, contexts, bodies := [], [], [];
    chosen, reader := None, null;
    var excluded: set<string> := {};
    var maxAttempts := 1 + r.maxRetries;
    NothingTried(s, r, c);
    while |ledger| < maxAttempts
      invariant registry.Valid() && fresh(registry.Repr - old(registry.Repr))
      invariant chosen.None? && reader == null && |ledger| == |bodies| == |contexts| && (|ledger| <= maxAttempts || ledger == [])
      invariant excluded == Tried(ledger)
      invariant Sound(s, r, c, ledger)
      invariant forall b | b in bodies && b != null :: fresh(b) && b !in registry.Repr
      invariant forall x | x in contexts :: fresh(x) && x !in registry.Repr
      invariant CleanedUp(r, ledger, contexts, bodies, |ledger|)
      invariant registry.calls == c + Trace(r, ledger)
      decreases maxAttempts - |ledger|
    {
      var k, v := |ledger|, r.view(|ledger|);
      var q := Query(r.replicas, v.states, v.affinity, excluded, r.tier, v.now, v.others);
      var replica := Pick(s, q, registry);
      assert q == QueryAt(r, ledger);
      if replica.id == "" {
        PickedNothing(s, q, c + Trace(r, ledger), replica);
        AskingIs(r, c, ledger);
        break;
      }
      var context, body, a;
      reader, context, body, a := TryReplica(r, k, replica, registry);
      if reader == null {
        excluded := excluded + {replica.id};
      } else {
        chosen := Some(replica);
      }
      OneMoreAttempt(s, r, c, ledger, a);
      OneMoreRecorded(r, c, ledger, a);
      OneMoreTried(r, ledger, contexts, bodies, a, context, body);
      ledger, contexts, bodies := ledger + [a], contexts + [context], bodies + [body];
      if chosen.Some? {
        break;
      }
    }
  }

  lemma OneMoreTried(r: Request, ledger: seq<Attempt>, contexts: seq<UpstreamContext>, bodies: seq<Body?>,
                     a: Attempt, context: UpstreamContext, body: Body?)
    requires |ledger| == |bodies| == |contexts| && CleanedUp(r, ledger, contexts, bodies, |ledger|)
    requires (body != null <==> a.upstream.Response?) && (body != null && !Good(r, |ledger|, a.upstream) ==> body.closed)
    requires !Good(r, |ledger|, a.upstream) ==> context.cancelled
    ensures Tried(ledger + [a]) == Tried(ledger) + {a.replica.id}
    ensures CleanedUp(r, ledger + [a], contexts + [context], bodies + [body], if Good(r, |ledger|, a.upstream) then |ledger| else |ledger| + 1)
  {
    hide Good;
  }

  /** One attempt on the replica picked. */
  method TryReplica(r: Request, k: nat, replica: Replica, registry: Registry)
    returns (reader: Replay?, context: UpstreamContext, body: Body?, a: Attempt)
    requires registry.Valid()
    modifies registry.Repr
    ensures registry.Valid() && fresh(registry.Repr - old(registry.Repr))
    ensures a.replica == replica && a.upstream == r.upstream(k, replica.id) && Settled(r, k, a)
    ensures registry.calls == old(registry.calls) + r.view(k).between + [OutcomeOf(r, k, a)]
    ensures body != null <==> a.upstream.Response?
    ensures body != null ==> fresh(body) && body !in registry.Repr
    ensures fresh(context) && context !in registry.Repr && (context.cancelled <==> reader == null)
    ensures reader != null <==> Good(r, k, a.upstream)
    ensures reader == null && body != null ==> body.closed
    ensures reader != null ==>
              && fresh(reader) && reader !in registry.Repr && reader.body == body && !body.closed
              && reader.Remaining() == Payload(a.upstream.arrivals)
  {
    hide Registry.Valid, Payload, Alive;
    var v := r.view(k);
    registry.Perform(v.between);
    context := new UpstreamContext();
    var upstream;
    upstream, body := DoUpstream(r, k, replica);
    reader := null;
    var failures, successes, cancels, closes := 0, 0, 0, 0;
    if upstream.Response? && upstream.status < 500 {
      if r.stallTimeout > 0 {
        reader := PeekFirstByte(body, Timer(v.peekAt, r.stallTimeout, v.byteFirst));
        if reader == null {
          context.Cancel();
          cancels := cancels + 1;
          body.Close();
          closes := closes + 1;
          registry.RecordFailure(replica.id, v.doneAt);
          failures := failures + 1;
        }
      } else {
        reader := new Replay("", body);
        EmptyPrefix(body.arrivals);
      }
      if reader != null {
        registry.RecordSuccess(replica.id, v.doneAt);
        successes := successes + 1;
      }
    } else {
      context.Cancel();
      cancels := cancels + 1;
      registry.RecordFailure(replica.id, v.doneAt);
      failures := failures + 1;
      if body != null {
        body.Close();
        closes := closes + 1;
      }
    }
    a := Attempt(replica, upstream, failures, successes, cancels, closes);
  }

  lemma EmptyPrefix(script: seq<Piece>)
    ensures "" + Payload(script) == Payload(script)
  {
  }

  lemma AskingIs(r: Request, c: seq<Call>, ledger: seq<Attempt>)
    ensures c + Trace(r, ledger) + PickCalls(QueryAt(r, ledger), |r.replicas|) == c + Asking(r, ledger)
  {
    hide Trace, PickCalls;
  }

  lemma NothingTried(s: CheckedSettings, r: Request, c: seq<Call>)
    ensures Sound(s, r, c, []) && c + Trace(r, []) == c
    ensures Tried([]) == {} && CleanedUp(r, [], [], [], 0)
  {
  }

  lemma PickedNothing(s: CheckedSettings, q: Query, c: seq<Call>, x: Replica)
    requires IsPick(s, q, c, x) && x.id == "" && forall y | y in q.replicas :: y.id != ""
    ensures x == NoReplica()
  {
    hide IsBest, NoCandidate;
    if IsBestReplica(s, q, c, true, |q.replicas|, x) {
      BestHasId(s, q, c, true, x);
    }
    if IsBestReplica(s, q, c, false, |q.replicas|, x) {
      BestHasId(s, q, c, false, x);
    }
  }

  // ----- What the ledger says -----

  lemma {:induction false} PickPrefix(q: Query, i: nat, n: nat)
    requires i < n <= |q.replicas| && Asked(q, i)
    ensures PickCalls(q, i) + q.others(i) + [Call(q.replicas[i].id, BreakerRuns.Allow(q.now(i)))] <= PickCalls(q, n)
  {
    if i < n - 1 {
      PickPrefix(q, i, n - 1);
    }
  }

  lemma {:induction false} TracePrefix(r: Request, ledger: seq<Attempt>, k: nat)
    requires k < |ledger|
    ensures Asking(r, ledger[..k]) <= Trace(r, ledger)
  {
    hide Asking;
    var n := |ledger| - 1;
    if k == n {
      assert ledger[..k] == ledger[..n];
    } else {
      TracePrefix(r, ledger[..n], k);
      assert ledger[..n][..k] == ledger[..k];
      assert Trace(r, ledger[..n]) <= Asking(r, ledger[..n]) by { AskingExtends(r, ledger[..n]); }
    }
  }

  lemma AskingExtends(r: Request, ledger: seq<Attempt>)
    ensures Trace(r, ledger) <= Asking(r, ledger)
  {
  }

  /** Every attempt's replica was healthy and permitted by its breaker at the moment it was asked,
      and that call comes before the attempt's outcome in what the breakers see. */
  lemma AttemptsPermitted(s: CheckedSettings, r: Request, c: seq<Call>, ledger: seq<Attempt>, k: nat) returns (i: nat, before: seq<Call>)
    requires Sound(s, r, c, ledger) && k < |ledger|
    ensures i < |r.replicas| && r.replicas[i] == ledger[k].replica
    ensures var id, v := ledger[k].replica.id, r.view(k);
            && id in v.states && v.states[id].healthy
            && Permits(s.breaker, Entry(s.breaker, c + before, id, v.now(i)), v.now(i))
            && before + [Call(id, BreakerRuns.Allow(v.now(i)))] <= Asking(r, ledger[..k]) <= Trace(r, ledger)
  {
    hide IsPick, Permits, Trace;
    assert PickedAt(s, r, c, ledger, k);
    var q, past := QueryAt(r, ledger[..k]), Trace(r, ledger[..k]);
    i := PickedIsEligible(s, q, c + past, ledger[k].replica);
    before := past + PickCalls(q, i) + q.others(i);
    assert c + past + PickCalls(q, i) + q.others(i) == c + before;
    PickPrefix(q, i, |r.replicas|);
    TracePrefix(r, ledger, k);
    PrefixAfter(past, PickCalls(q, i) + q.others(i), [Call(ledger[k].replica.id, BreakerRuns.Allow(r.view(k).now(i)))],
                PickCalls(q, |r.replicas|));
    assert past + (PickCalls(q, i) + q.others(i)) == before;
  }

  lemma PrefixAfter<T>(a: seq<T>, b: seq<T>, c: seq<T>, d: seq<T>)
    requires b + c <= d
    ensures a + b + c <= a + d
  {
  }

  datatype Books = Books(failures: int, successes: int, cancels: int, closes: int)

  /** Totals over a request's attempts. */
  function Totals(ledger: seq<Attempt>): Books {
    if |ledger| == 0 then Books(0, 0, 0, 0)
    else
      var before, a := Totals(ledger[..|ledger| - 1]), ledger[|ledger| - 1];
      Books(before.failures + a.failures, before.successes + a.successes, before.cancels + a.cancels, before.closes + a.closes)
  }

  /** How many attempts failed, and how many of them had a response. */
  function FailedAttempts(r: Request, ledger: seq<Attempt>, answered: bool): nat {
    if |ledger| == 0 then 0
    else
      var k := |ledger| - 1;
      FailedAttempts(r, ledger[..k], answered)
      + if !Good(r, k, ledger[k].upstream) && (answered ==> ledger[k].upstream != Failed) then 1 else 0
  }

  /** Every attempt records exactly one outcome; as many failures are recorded and contexts cancelled as
      attempts failed, and as many bodies closed as failed attempts had one. */
  lemma BooksBalance(s: CheckedSettings, r: Request, c: seq<Call>, ledger: seq<Attempt>)
    requires Sound(s, r, c, ledger)
    ensures var t, failed := Totals(ledger), FailedAttempts(r, ledger, false);
            && t.failures == failed && t.cancels == failed && t.successes == |ledger| - failed
            && t.closes == FailedAttempts(r, ledger, true)
  {
    hide Good, PickedAt, Totals, FailedAttempts;
    BooksOver(r, ledger);
  }

  lemma {:induction false} BooksOver(r: Request, ledger: seq<Attempt>)
    requires forall k | 0 <= k < |ledger| :: Settled(r, k, ledger[k])
    ensures var t, failed := Totals(ledger), FailedAttempts(r, ledger, false);
            && t.failures == failed && t.cancels == failed && t.successes == |ledger| - failed
            && t.closes == FailedAttempts(r, ledger, true)
  {
    hide Good;
    if |ledger| > 0 {
      var k := |ledger| - 1;
      forall i | 0 <= i < k
        ensures Settled(r, i, ledger[..k][i])
      {
        assert Settled(r, i, ledger[i]);
      }
      BooksOver(r, ledger[..k]);
      assert Settled(r, k, ledger[k]);
    }
  }

  /** Giving up before the attempts run out means that no replica was eligible, provided the miss
      penalty is small enough for `Pick` not to overlook one. */
  lemma GivesUpOnlyWhenNoneIsEligible(s: CheckedSettings, r: Request, c: seq<Call>, ledger: seq<Attempt>)
    requires s.weights.missPenalty < 1.0 + s.weights.baseline / 2.0
    requires forall x | x in r.replicas :: x.id != ""
    requires IsPick(s, QueryAt(r, ledger), c + Trace(r, ledger), NoReplica())
    ensures !SomeEligible(s, QueryAt(r, ledger), c + Trace(r, ledger))
  {
    LowPenaltyFinds(s, QueryAt(r, ledger), c + Trace(r, ledger), NoReplica());
  }

  /** A request is never sent more often than there are replicas. */
  lemma NoMoreAttemptsThanReplicas(s: CheckedSettings, r: Request, c: seq<Call>, ledger: seq<Attempt>)
    requires Sound(s, r, c, ledger)
    ensures |ledger| <= |r.replicas|
  {
    hide IsPick, Trace;
    var ids := seq(|r.replicas|, i requires 0 <= i < |r.replicas| => r.replicas[i].id);
    forall k | 0 <= k < |ledger|
      ensures ledger[k].replica.id in ids
    {
      assert PickedAt(s, r, c, ledger, k);
      var i := PickedIsEligible(s, QueryAt(r, ledger[..k]), c + Trace(r, ledger[..k]), ledger[k].replica);
      assert ids[i] == ledger[k].replica.id;
    }
    Pigeonhole(ledger, ids);
  }

  lemma {:induction false} Pigeonhole(ledger: seq<Attempt>, ids: seq<string>)
    requires DistinctTries(ledger) && forall k | 0 <= k < |ledger| :: ledger[k].replica.id in ids
    ensures |ledger| <= |ids|
  {
    if |ledger| > 0 {
      var last := ledger[|ledger| - 1].replica.id;
      var p :| 0 <= p < |ids| && ids[p] == last;
      var rest := ids[..p] + ids[p + 1..];
      forall k | 0 <= k < |ledger| - 1
        ensures ledger[k].replica.id in rest
      {
        var i :| 0 <= i < |ids| && ids[i] == ledger[k].replica.id;
        assert rest[if i < p then i else i - 1] == ids[i];
      }
      Pigeonhole(ledger[..|ledger| - 1], rest);
    }
  }
}
