/** A whole request (internal/proxy/handler.go): the retry loop, the stream to the client, and what
    the stream's end records. Other requests use the same breakers all the while. */
module Requests {
  import opened Options
  import opened Breakers
  import opened BreakerRuns
  import opened Registries
  import opened Routing
  import opened Scorer
  import opened SseText
  import opened Interceptor
  import opened Relay
  import opened RetryLoop

  /** What the streaming of the winner's body meets: what other requests do meanwhile, the client,
      the clock, whether the watchdog reported a stall, what others do until the replica's state is
      read for the metrics, and when that is. */
  datatype Streaming = Streaming(during: seq<Call>, client: Client, clock: nat -> int, stalled: bool, endAt: int,
                                 closing: seq<Call>, statusAt: int)

  /** A request that has been handled, with whether its stream was held against the replica. */
  datatype Handled = Handled(r: Request, ledger: seq<Attempt>, st: Streaming, bad: bool) {
    predicate Won() {
      |ledger| > 0 && Good(r, |ledger| - 1, ledger[|ledger| - 1].upstream)
    }

    function Winner(): Attempt
      requires Won()
    {
      ledger[|ledger| - 1]
    }
  }

  /** What the winner's stream adds to the breakers' history: a failure if it went bad, and always the
      final status read. */
  function Ending(id: string, st: Streaming, bad: bool): seq<Call> {
    st.during + (if bad then [Call(id, Failure(st.endAt))] else []) + st.closing + [Call(id, BreakerRuns.GetState(st.statusAt))]
  }

  /** All that happened to the breakers while a request was handled. */
  function CallsOf(x: Handled): seq<Call> {
    if x.Won() then Trace(x.r, x.ledger) + Ending(x.Winner().replica.id, x.st, x.bad)
    else if |x.ledger| >= 1 + x.r.maxRetries then Trace(x.r, x.ledger)
    else Asking(x.r, x.ledger)
  }

  /** A stall, or a stream without its terminator, is held against the replica, although its attempt
      has already counted as a success. */
  method FinishStream(registry: Registry, chosen: Replica, stalled: bool, doneSeen: bool, endAt: int)
    requires registry.Valid()
    modifies registry.Repr
    ensures registry.Valid() && fresh(registry.Repr - old(registry.Repr))
    ensures registry.calls == old(registry.calls) + if stalled || !doneSeen then [Call(chosen.id, Failure(endAt))] else []
  {
    hide Registry.Valid;
    if stalled || !doneSeen {
      registry.RecordFailure(chosen.id, endAt);
    }
  }

  /** The winner's body is copied to the client, a bad stream is held against it, and its breaker's
      state is read. */
  method StreamWinner(registry: Registry, chosen: Replica, reader: Replay, sw: StreamInterceptor, st: Streaming) returns (bad: bool)
    requires registry.Valid() && sw.Valid() && {sw, reader, reader.body} !! registry.Repr
    modifies registry.Repr, sw, reader, reader.body`script
    ensures registry.Valid() && fresh(registry.Repr - old(registry.Repr)) && sw.Valid()
    ensures registry.calls == old(registry.calls) + Ending(chosen.id, st, bad)
    ensures Relayed(st.client, old(reader.Remaining()), old(sw.writes), sw.writes, old(sw.sent), sw.sent)
    ensures bad <==> st.stalled || !sw.stats.doneSeen
  {
    hide Registry.Valid, StreamInterceptor.Valid, Relayed, Payload;
    ghost var c := registry.calls;
    registry.Perform(st.during);
    StreamBody(sw, reader, st.client, st.clock);
    FinishStream(registry, chosen, st.stalled, sw.stats.doneSeen, st.endAt);
    bad := st.stalled || !sw.stats.doneSeen;
    registry.Perform(st.closing);
    var state := registry.GetState(chosen.id, st.statusAt);
    Regroup(c, st.during, if bad then [Call(chosen.id, Failure(st.endAt))] else [], st.closing,
            [Call(chosen.id, BreakerRuns.GetState(st.statusAt))]);
  }

  /** Nothing of an attempt is left open: its context is cancelled, and its body, if it had one, closed. */
  predicate Released(a: Attempt, context: UpstreamContext, body: Body?)
    reads context`cancelled, (if body == null then {} else {body})`closed
  {
    context.cancelled && (body != null <==> a.upstream.Response?) && (body != null ==> body.closed)
  }

  /** What is deferred until the request returns. */
  method ReleaseWinner(ghost ledger: seq<Attempt>, ghost contexts: seq<UpstreamContext>, ghost bodies: seq<Body?>,
                       context: UpstreamContext, body: Body)
    requires |ledger| == |contexts| == |bodies| > 0
    requires forall j | 0 <= j < |ledger| - 1 :: Released(ledger[j], contexts[j], bodies[j])
    requires context == contexts[|ledger| - 1] && body == bodies[|ledger| - 1] && ledger[|ledger| - 1].upstream.Response?
    modifies context, body`closed
    ensures forall j | 0 <= j < |ledger| :: Released(ledger[j], contexts[j], bodies[j])
  {
    body.Close();
    context.Cancel();
  }

  /** The client gets the winner's body and nothing of any other attempt; every body is closed; the
      winner is blamed for a bad stream; and the breakers saw exactly the calls of the ledger, those
      of other requests in between, that blame and the final status read. */
  method HandleRequest(s: CheckedSettings, r: Request, registry: Registry, sw: StreamInterceptor, st: Streaming)
    returns (x: Handled, contexts: seq<UpstreamContext>, bodies: seq<Body?>)
    requires registry.Valid() && registry.cfg == s.breaker
    requires sw.Valid() && sw !in registry.Repr && sw.writes == [] && sw.sent == ""
    requires forall y | y in r.replicas :: y.id != ""
    modifies registry.Repr, sw
    ensures registry.Valid() && registry.calls == old(registry.calls) + CallsOf(x)
    ensures x.r == r && x.st == st && Sound(s, r, old(registry.calls), x.ledger)
    ensures sw.Valid()
    ensures x.Won() ==> Relayed(st.client, Payload(x.Winner().upstream.arrivals), [], sw.writes, "", sw.sent)
    ensures x.Won() ==> (x.bad <==> st.stalled || !sw.stats.doneSeen)
    ensures !x.Won() ==> sw.sent == "" && sw.writes == []
    ensures forall k | 0 <= k < |x.ledger| :: Good(r, k, x.ledger[k].upstream) ==> x.Won() && k == |x.ledger| - 1
    ensures |contexts| == |bodies| == |x.ledger|
    ensures forall k | 0 <= k < |x.ledger| :: Released(x.ledger[k], contexts[k], bodies[k])
  {
    hide Sound, Trace, Asking, Registry.Valid, StreamInterceptor.Valid, Relayed, Payload, Good, IsPick, CleanedUp, Released, CallsOf;
    var chosen, reader, ledger;
    chosen, reader, ledger, contexts, bodies := Serve(s, r, registry);
    x := Handled(r, ledger, st, false);
    if reader == null {
      NobodyWon(x, contexts, bodies);
      LostCalls(x);
      return;
    }
    var k := |ledger| - 1;
    FailedAreClosed(r, ledger, contexts, bodies, k);
    var bad := StreamWinner(registry, chosen.value, reader, sw, st);
    x := Handled(r, ledger, st, bad);
    GoodResponds(r, k, ledger[k].upstream);
    WonCalls(old(registry.calls), x);
    ReleaseWinner(ledger, contexts, bodies, contexts[k], bodies[k]);
  }

  lemma FailedAreClosed(r: Request, ledger: seq<Attempt>, contexts: seq<UpstreamContext>, bodies: seq<Body?>, n: nat)
    requires n <= |ledger| == |bodies| == |contexts| && CleanedUp(r, ledger, contexts, bodies, n)
    ensures forall k | 0 <= k < n :: !Good(r, k, ledger[k].upstream) && Released(ledger[k], contexts[k], bodies[k])
  {
  }

  lemma WonCalls(c: seq<Call>, x: Handled)
    requires x.Won()
    ensures c + CallsOf(x) == c + Trace(x.r, x.ledger) + Ending(x.Winner().replica.id, x.st, x.bad)
  {
    hide Trace, Ending;
  }

  lemma LostCalls(x: Handled)
    requires !x.Won()
    ensures CallsOf(x) == if |x.ledger| >= 1 + x.r.maxRetries then Trace(x.r, x.ledger) else Asking(x.r, x.ledger)
  {
  }

  lemma GoodResponds(r: Request, k: nat, u: Upstream)
    requires Good(r, k, u)
    ensures u.Response?
  {
  }

  lemma NobodyWon(x: Handled, contexts: seq<UpstreamContext>, bodies: seq<Body?>)
    requires |bodies| == |x.ledger| == |contexts| && CleanedUp(x.r, x.ledger, contexts, bodies, |x.ledger|)
    ensures !x.Won()
    ensures forall k | 0 <= k < |x.ledger| :: !Good(x.r, k, x.ledger[k].upstream) && Released(x.ledger[k], contexts[k], bodies[k])
  {
  }

  /** Which attempt ends a request: a transport error, a status of 500 or above, and with stall detection
      a first byte that does not beat the timer, are failures; nothing else is, client errors included. */
  lemma WinsExactly(r: Request, k: nat, u: Upstream)
    ensures Good(r, k, u)
            <==> exists status: int, arrivals :: u == Response(status, arrivals) && status <= 499
                   && (r.stallTimeout <= 0
                       || exists at: int :: FirstByte(arrivals) == Some(at)
                            && (at - r.view(k).peekAt < r.stallTimeout
                                || (at - r.view(k).peekAt == r.stallTimeout && r.view(k).byteFirst)))
  {
    if u.Response? {
      assert u == Response(u.status, u.arrivals);
    }
  }

  // ----- The next request -----

  /** The winner's breaker when its state is about to be read. */
  function BeforeStatus(cfg: UsableConfig, c: seq<Call>, x: Handled): Breakers.Model
    requires x.Won()
  {
    var id := x.Winner().replica.id;
    Entry(cfg, c + Trace(x.r, x.ledger) + x.st.during + (if x.bad then [Call(id, Failure(x.st.endAt))] else []) + x.st.closing,
          id, x.st.statusAt)
  }

  lemma StatusIsRead(cfg: UsableConfig, c: seq<Call>, x: Handled, now: int)
    requires x.Won()
    ensures Entry(cfg, c + CallsOf(x), x.Winner().replica.id, now) == AfterTouch(cfg, BeforeStatus(cfg, c, x), x.st.statusAt)
    ensures OpsOn(c + CallsOf(x), x.Winner().replica.id) != []
  {
    hide Trace, Entry, AfterTouch, OpsOn;
    var id := x.Winner().replica.id;
    var blame := if x.bad then [Call(id, Failure(x.st.endAt))] else [];
    var before := c + Trace(x.r, x.ledger) + x.st.during + blame + x.st.closing;
    var read := Call(id, BreakerRuns.GetState(x.st.statusAt));
    assert c + CallsOf(x) == before + [read];
    EntryStep(cfg, before, read, id, now);
    OpsOnOne(before, read, id);
  }

  /** Is the next request kept away from the replica that served this one? Exactly if others had left
      its breaker half-open, if it is open and the cooldown has not passed, or if it was open and had
      cooled down already when this request read its state. */
  lemma ServedAvoidedExactly(cfg: UsableConfig, c: seq<Call>, x: Handled, later: int)
    requires x.Won()
    ensures var f := BeforeStatus(cfg, c, x);
            !Permits(cfg, Entry(cfg, c + CallsOf(x), x.Winner().replica.id, later), later)
            <==> f.state == HalfOpen
                 || (f.state == Open && (later - f.openedAt < cfg.cooldown || x.st.statusAt - f.openedAt >= cfg.cooldown))
  {
    hide CallsOf, BeforeStatus, Permits;
    StatusIsRead(cfg, c, x, later);
    ReadAvoidedExactly(cfg, BeforeStatus(cfg, c, x), x.st.statusAt, later);
  }

  /** What a bad stream does to that: `m` is the breaker when the failure is recorded. If nobody else
      calls it before the status read, the replica is avoided exactly when the failure opens the
      breaker or finds it open, and the cooldown either lasts still or was over at the status read. */
  lemma BadStreamAvoidedExactly(cfg: UsableConfig, c: seq<Call>, x: Handled, later: int)
    requires x.Won() && x.bad
    ensures var id, endAt := x.Winner().replica.id, x.st.endAt;
            var m := Entry(cfg, c + Trace(x.r, x.ledger) + x.st.during, id, endAt);
            && BeforeStatus(cfg, c, x) == Run(cfg, AfterFailure(cfg, m, endAt), OpsOn(x.st.closing, id))
            && (OpsOn(x.st.closing, id) == [] ==>
                  var open := m.state != Closed || Trips(cfg, Windows.Record(m.window, cfg.BucketDur(), endAt, false));
                  var openedAt := if m.state == Open then m.openedAt else endAt;
                  (!Permits(cfg, Entry(cfg, c + CallsOf(x), id, later), later)
                   <==> open && (later - openedAt < cfg.cooldown || x.st.statusAt - openedAt >= cfg.cooldown)))
  {
    hide Trace, Permits, Trips, Windows.Record, CallsOf, OpsOn;
    var id, endAt := x.Winner().replica.id, x.st.endAt;
    var before, blame := c + Trace(x.r, x.ledger) + x.st.during, Call(id, Failure(endAt));
    var m := Entry(cfg, before, id, endAt);
    ServedAvoidedExactly(cfg, c, x, later);
    EntryStep(cfg, before, blame, id, x.st.statusAt);
    OpsOnOne(before, blame, id);
    hide Entry;
    EntryThen(cfg, before + [blame], x.st.closing, id, x.st.statusAt);
    RunOneMore(cfg, AfterFailure(cfg, m, endAt), [], Failure(0));
  }

  /** A served request, even one whose stream ended well, strands its own replica exactly when its
      breaker is open and cooled down when its state is read; half-open it is left as others put it. */
  lemma ServedStrandsExactly(s: CheckedSettings, c: seq<Call>, x: Handled)
    requires x.Won()
    ensures var f := BeforeStatus(s.breaker, c, x);
            IsHalfOpen(s.breaker, c + CallsOf(x), x.Winner().replica.id)
            <==> f.state == HalfOpen || CooledDown(s.breaker, f, x.st.statusAt)
  {
    hide CallsOf, BeforeStatus, Entry, OpsOn;
    StatusIsRead(s.breaker, c, x, 0);
  }

  /** From then on no request of any run is sent to it. */
  lemma ServedStrandsForever(s: CheckedSettings, c: seq<Call>, x: Handled, xs: seq<Handled>)
    requires x.Won() && CooledDown(s.breaker, BeforeStatus(s.breaker, c, x), x.st.statusAt)
    requires Served(s, c + CallsOf(x), xs, x.Winner().replica.id)
    ensures forall y | y in xs :: x.Winner().replica.id !in Tried(y.ledger)
  {
    hide CallsOf, BeforeStatus, Served, IsHalfOpen, CooledDown, Tried;
    ServedStrandsExactly(s, c, x);
    StrandedForever(s, c + CallsOf(x), xs, x.Winner().replica.id);
  }

  // ----- Accounting: one outcome per attempt, and one more for a bad stream -----

  function Outcomes(calls: seq<Call>, id: string, ok: bool): nat {
    if |calls| == 0 then 0
    else
      var c := calls[|calls| - 1];
      Outcomes(calls[..|calls| - 1], id, ok) + if c.id == id && c.op.IsOutcome() && c.op.Success? == ok then 1 else 0
  }

  lemma {:induction false} OutcomesAppend(a: seq<Call>, b: seq<Call>, id: string, ok: bool)
    ensures Outcomes(a + b, id, ok) == Outcomes(a, id, ok) + Outcomes(b, id, ok)
  {
    if b == [] {
      assert a + b == a;
    } else {
      var init, c := b[..|b| - 1], b[|b| - 1];
      assert (a + b)[..|a + b| - 1] == a + init;
      OutcomesAppend(a, init, id, ok);
    }
  }

  /** What other requests do while the first n replicas are looked at. */
  function PickOthers(q: Query, n: nat): seq<Call>
    requires n <= |q.replicas|
  {
    if n == 0 then [] else PickOthers(q, n - 1) + q.others(n - 1)
  }

  /** What other requests do over the attempts of the ledger, and over the whole request. */
  function OthersOver(r: Request, ledger: seq<Attempt>): seq<Call> {
    if |ledger| == 0 then []
    else
      var init := ledger[..|ledger| - 1];
      OthersOver(r, init) + PickOthers(QueryAt(r, init), |r.replicas|) + r.view(|init|).between
  }

  function OthersOf(x: Handled): seq<Call> {
    if x.Won() then OthersOver(x.r, x.ledger) + x.st.during + x.st.closing
    else if |x.ledger| >= 1 + x.r.maxRetries then OthersOver(x.r, x.ledger)
    else OthersOver(x.r, x.ledger) + PickOthers(QueryAt(x.r, x.ledger), |x.r.replicas|)
  }

  /** Some attempt on the replica ended this way. */
  ghost predicate Ended(r: Request, ledger: seq<Attempt>, id: string, ok: bool) {
    exists k :: 0 <= k < |ledger| && ledger[k].replica.id == id && Good(r, k, ledger[k].upstream) == ok
  }

  lemma {:induction false} PicksRecordNothing(q: Query, n: nat, id: string, ok: bool)
    requires n <= |q.replicas|
    ensures Outcomes(PickCalls(q, n), id, ok) == Outcomes(PickOthers(q, n), id, ok)
  {
    if n > 0 {
      PicksRecordNothing(q, n - 1, id, ok);
      OutcomesAppend(PickOthers(q, n - 1), q.others(n - 1), id, ok);
      OutcomesAppend(PickCalls(q, n - 1), q.others(n - 1), id, ok);
      var before := PickCalls(q, n - 1) + q.others(n - 1);
      if Asked(q, n - 1) {
        OutcomesOne(before, Call(q.replicas[n - 1].id, BreakerRuns.Allow(q.now(n - 1))), id, ok);
      } else {
        assert PickCalls(q, n) == before + [] == before;
      }
    }
  }

  lemma OutcomesOne(calls: seq<Call>, c: Call, id: string, ok: bool)
    ensures Outcomes(calls + [c], id, ok)
            == Outcomes(calls, id, ok) + if c.id == id && c.op.IsOutcome() && c.op.Success? == ok then 1 else 0
  {
    assert (calls + [c])[..|calls|] == calls;
  }

  lemma AskingOutcomes(r: Request, ledger: seq<Attempt>, id: string, ok: bool)
    ensures Outcomes(Asking(r, ledger), id, ok)
            == Outcomes(Trace(r, ledger), id, ok) + Outcomes(PickOthers(QueryAt(r, ledger), |r.replicas|), id, ok)
  {
    hide Trace, PickCalls, PickOthers, Outcomes;
    var q := QueryAt(r, ledger);
    PicksRecordNothing(q, |r.replicas|, id, ok);
    OutcomesAppend(Trace(r, ledger), PickCalls(q, |r.replicas|), id, ok);
  }

  lemma {:induction false} LedgerOutcomes(r: Request, ledger: seq<Attempt>, id: string, ok: bool)
    requires DistinctTries(ledger)
    ensures Outcomes(Trace(r, ledger), id, ok)
            == Outcomes(OthersOver(r, ledger), id, ok) + if Ended(r, ledger, id, ok) then 1 else 0
  {
    hide Outcomes, Asking, PickOthers, Good;
    if |ledger| == 0 {
      NoOutcomesYet(id, ok);
    } else {
      var k := |ledger| - 1;
      var init, a := ledger[..k], ledger[k];
      LedgerOutcomes(r, init, id, ok);
      AskingOutcomes(r, init, id, ok);
      OthersAppend(r, ledger, id, ok);
      OutcomesAppend(Asking(r, init), r.view(k).between, id, ok);
      OutcomesOne(Asking(r, init) + r.view(k).between, OutcomeOf(r, k, a), id, ok);
      EndedStep(r, ledger, id, ok);
    }
  }

  lemma NoOutcomesYet(id: string, ok: bool)
    ensures Outcomes([], id, ok) == 0
  {
  }

  lemma OthersAppend(r: Request, ledger: seq<Attempt>, id: string, ok: bool)
    requires |ledger| > 0
    ensures var init := ledger[..|ledger| - 1];
            Outcomes(OthersOver(r, ledger), id, ok)
            == Outcomes(OthersOver(r, init), id, ok) + Outcomes(PickOthers(QueryAt(r, init), |r.replicas|), id, ok)
               + Outcomes(r.view(|init|).between, id, ok)
  {
    hide Outcomes, PickOthers;
    var init := ledger[..|ledger| - 1];
    OutcomesAppend(OthersOver(r, init), PickOthers(QueryAt(r, init), |r.replicas|), id, ok);
    OutcomesAppend(OthersOver(r, init) + PickOthers(QueryAt(r, init), |r.replicas|), r.view(|init|).between, id, ok);
  }

  lemma EndedStep(r: Request, ledger: seq<Attempt>, id: string, ok: bool)
    requires |ledger| > 0 && DistinctTries(ledger)
    ensures var k := |ledger| - 1;
            var now := ledger[k].replica.id == id && Good(r, k, ledger[k].upstream) == ok;
            && (Ended(r, ledger, id, ok) <==> Ended(r, ledger[..k], id, ok) || now)
            && !(Ended(r, ledger[..k], id, ok) && now)
  {
    hide Good;
    var init := ledger[..|ledger| - 1];
    assert forall i | 0 <= i < |init| :: init[i] == ledger[i];
  }

  lemma EndingOutcomes(winner: string, st: Streaming, bad: bool, id: string, ok: bool)
    ensures Outcomes(Ending(winner, st, bad), id, ok)
            == Outcomes(st.during, id, ok) + Outcomes(st.closing, id, ok) + if bad && winner == id && !ok then 1 else 0
  {
    hide Outcomes;
    var blame, blamed := Call(winner, Failure(st.endAt)), st.during + if bad then [Call(winner, Failure(st.endAt))] else [];
    OutcomesOne(st.during, blame, id, ok);
    assert st.during + [] == st.during;
    OutcomesAppend(blamed, st.closing, id, ok);
    OutcomesOne(blamed + st.closing, Call(winner, BreakerRuns.GetState(st.statusAt)), id, ok);
  }

  /** What a request adds to what others record: one outcome for each replica it was sent to,
      and one failure more for a winner whose stream went bad. */
  lemma RequestOutcomes(x: Handled, id: string, ok: bool)
    requires DistinctTries(x.ledger)
    ensures Outcomes(CallsOf(x), id, ok)
            == Outcomes(OthersOf(x), id, ok) + (if Ended(x.r, x.ledger, id, ok) then 1 else 0)
               + if x.Won() && x.bad && x.Winner().replica.id == id && !ok then 1 else 0
  {
    hide Outcomes, Trace, Asking, OthersOver, PickOthers, Ended, DistinctTries, Good, Ending;
    LedgerOutcomes(x.r, x.ledger, id, ok);
    if x.Won() {
      OutcomesAppend(Trace(x.r, x.ledger), Ending(x.Winner().replica.id, x.st, x.bad), id, ok);
      EndingOutcomes(x.Winner().replica.id, x.st, x.bad, id, ok);
      OutcomesAppend(OthersOver(x.r, x.ledger), x.st.during, id, ok);
      OutcomesAppend(OthersOver(x.r, x.ledger) + x.st.during, x.st.closing, id, ok);
    } else {
      AskingOutcomes(x.r, x.ledger, id, ok);
      OutcomesAppend(OthersOver(x.r, x.ledger), PickOthers(QueryAt(x.r, x.ledger), |x.r.replicas|), id, ok);
    }
  }

  // ----- The stranded replica -----

  ghost predicate NoOutcomes(calls: seq<Call>, id: string) {
    forall op | op in OpsOn(calls, id) :: !op.IsOutcome()
  }

  lemma NoOutcomesAppend(a: seq<Call>, b: seq<Call>, id: string)
    ensures NoOutcomes(a + b, id) <==> NoOutcomes(a, id) && NoOutcomes(b, id)
  {
    OpsOnAppend(a, b, id);
    hide OpsOn;
  }

  lemma NoOutcomesOne(c: Call, id: string)
    ensures NoOutcomes([c], id) <==> c.id != id || !c.op.IsOutcome()
    ensures NoOutcomes([], id)
  {
    OpsOnOne([], c, id);
    assert [] + [c] == [c];
  }

  /** Other requests record no outcome for the replica over the first n attempts and the pick after. */
  ghost predicate OthersSilent(r: Request, n: nat, id: string) {
    && (forall k: nat, j: nat | k <= n && j < |r.replicas| :: NoOutcomes(r.view(k).others(j), id))
    && (forall k: nat | k < n :: NoOutcomes(r.view(k).between, id))
  }

  ghost predicate IsHalfOpen(cfg: UsableConfig, c: seq<Call>, id: string) {
    OpsOn(c, id) != [] && Entry(cfg, c, id, 0).state == HalfOpen
  }

  /** A half-open breaker stays so, and refuses, as long as no outcome is recorded for it. */
  lemma StaysHalfOpen(cfg: UsableConfig, c: seq<Call>, d: seq<Call>, id: string, now: int)
    requires IsHalfOpen(cfg, c, id) && NoOutcomes(d, id)
    ensures IsHalfOpen(cfg, c + d, id) && !Permits(cfg, Entry(cfg, c + d, id, now), now)
  {
    hide OpsOn;
    var m, ops := Entry(cfg, c, id, 0), OpsOn(d, id);
    EntryThen(cfg, c, d, id, 0);
    OpsOnAppend(c, d, id);
    Known(cfg, c + d, id, now);
    hide Entry;
    assert Run(cfg, m, ops[..0]) == m;
    assert forall k | 0 <= k < |ops| :: ops[k] in ops;
    HalfOpenWaits(cfg, m, ops, 0, |ops|);
    assert ops[..|ops|] == ops;
  }

  lemma {:induction false} PickSilent(q: Query, n: nat, id: string)
    requires n <= |q.replicas| && forall j: nat | j < n :: NoOutcomes(q.others(j), id)
    ensures NoOutcomes(PickCalls(q, n), id)
  {
    hide NoOutcomes;
    if n == 0 {
      NoOutcomesOne(Call(id, GetState(0)), id);
    } else {
      PickSilent(q, n - 1, id);
      var before, ask := PickCalls(q, n - 1) + q.others(n - 1), Call(q.replicas[n - 1].id, BreakerRuns.Allow(q.now(n - 1)));
      NoOutcomesAppend(PickCalls(q, n - 1), q.others(n - 1), id);
      NoOutcomesAppend(before, [ask], id);
      NoOutcomesOne(ask, id);
      assert before + [] == before;
    }
  }

  lemma NotSentTo(s: CheckedSettings, r: Request, c: seq<Call>, ledger: seq<Attempt>, k: nat, id: string)
    requires Sound(s, r, c, ledger) && k < |ledger| && IsHalfOpen(s.breaker, c, id)
    requires NoOutcomes(Asking(r, ledger[..k]), id)
    ensures ledger[k].replica.id != id
  {
    hide Sound, Asking, Entry, NoOutcomes, IsHalfOpen, Permits;
    if ledger[k].replica.id == id {
      var i, before := AttemptsPermitted(s, r, c, ledger, k);
      var ask := Call(id, BreakerRuns.Allow(r.view(k).now(i)));
      var asking := Asking(r, ledger[..k]);
      assert asking == before + ([ask] + asking[|before| + 1..]);
      NoOutcomesAppend(before, [ask] + asking[|before| + 1..], id);
      StaysHalfOpen(s.breaker, c, before, id, r.view(k).now(i));
      assert false;
    }
  }

  /** A request never reaches a replica whose breaker is half-open when it comes, and leaves it so,
      unless another request records an outcome for it. */
  lemma {:induction false} StrandedLedger(s: CheckedSettings, r: Request, c: seq<Call>, ledger: seq<Attempt>, n: nat, id: string)
    requires Sound(s, r, c, ledger) && n <= |ledger| && IsHalfOpen(s.breaker, c, id) && OthersSilent(r, n, id)
    ensures forall k | 0 <= k < n :: ledger[k].replica.id != id
    ensures NoOutcomes(Trace(r, ledger[..n]), id) && NoOutcomes(Asking(r, ledger[..n]), id)
  {
    hide Sound, IsHalfOpen, NoOutcomes, PickCalls;
    var init := ledger[..n];
    if n == 0 {
      NoOutcomesOne(Call(id, GetState(0)), id);
    } else {
      var k := n - 1;
      StrandedLedger(s, r, c, ledger, k, id);
      NotSentTo(s, r, c, ledger, k, id);
      assert init[..k] == ledger[..k];
      var asking, last := Asking(r, ledger[..k]), OutcomeOf(r, k, ledger[k]);
      NoOutcomesAppend(asking, r.view(k).between, id);
      NoOutcomesAppend(asking + r.view(k).between, [last], id);
      NoOutcomesOne(last, id);
    }
    PickSilent(QueryAt(r, init), |r.replicas|, id);
    NoOutcomesAppend(Trace(r, init), PickCalls(QueryAt(r, init), |r.replicas|), id);
  }

  lemma EndingSilent(winner: string, st: Streaming, bad: bool, id: string)
    requires winner != id && NoOutcomes(st.during, id) && NoOutcomes(st.closing, id)
    ensures NoOutcomes(Ending(winner, st, bad), id)
  {
    hide NoOutcomes;
    var blame, read := Call(winner, Failure(st.endAt)), Call(winner, BreakerRuns.GetState(st.statusAt));
    var blamed := st.during + if bad then [blame] else [];
    NoOutcomesOne(blame, id);
    NoOutcomesOne(read, id);
    NoOutcomesAppend(st.during, if bad then [blame] else [], id);
    NoOutcomesAppend(blamed, st.closing, id);
    NoOutcomesAppend(blamed + st.closing, [read], id);
  }

  lemma StrandedRequest(s: CheckedSettings, c: seq<Call>, x: Handled, id: string)
    requires Sound(s, x.r, c, x.ledger) && IsHalfOpen(s.breaker, c, id)
    requires OthersSilent(x.r, |x.ledger|, id)
    requires NoOutcomes(x.st.during, id) && NoOutcomes(x.st.closing, id)
    ensures id !in Tried(x.ledger)
    ensures NoOutcomes(CallsOf(x), id) && IsHalfOpen(s.breaker, c + CallsOf(x), id)
  {
    hide Sound, IsHalfOpen, NoOutcomes, Trace, Asking, Good, Ending;
    StrandedLedger(s, x.r, c, x.ledger, |x.ledger|, id);
    assert x.ledger[..|x.ledger|] == x.ledger;
    if x.Won() {
      NoOutcomesAppend(Trace(x.r, x.ledger), Ending(x.Winner().replica.id, x.st, x.bad), id);
      EndingSilent(x.Winner().replica.id, x.st, x.bad, id);
    }
    StaysHalfOpen(s.breaker, c, CallsOf(x), id, 0);
  }

  /** Requests handled one after the other, with others in between that record nothing for `id`. */
  ghost predicate Served(s: CheckedSettings, c: seq<Call>, xs: seq<Handled>, id: string)
    decreases |xs|
  {
    |xs| == 0 ||
    (&& Sound(s, xs[0].r, c, xs[0].ledger) && OthersSilent(xs[0].r, |xs[0].ledger|, id)
     && NoOutcomes(xs[0].st.during, id) && NoOutcomes(xs[0].st.closing, id)
     && Served(s, c + CallsOf(xs[0]), xs[1..], id))
  }

  /** So a half-open breaker with nothing under way strands its replica for good: no request of any
      later run is sent to it. */
  lemma {:induction false} StrandedForever(s: CheckedSettings, c: seq<Call>, xs: seq<Handled>, id: string)
    requires Served(s, c, xs, id) && IsHalfOpen(s.breaker, c, id)
    ensures forall x | x in xs :: id !in Tried(x.ledger)
    decreases |xs|
  {
    hide Sound, IsHalfOpen, NoOutcomes, CallsOf, OthersSilent, Tried;
    if |xs| > 0 {
      StrandedRequest(s, c, xs[0], id);
      StrandedForever(s, c + CallsOf(xs[0]), xs[1..], id);
      assert forall x | x in xs :: x == xs[0] || x in xs[1..];
    }
  }
}
