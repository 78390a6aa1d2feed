/** The asynchronous usage pipeline (internal/usage/sink.go) between the request handler
    (internal/proxy/handler.go), the tracker and the usage table, as a protocol of atomic steps
    that any number of requests, the worker, its ticker and the closing goroutine interleave. */
module BatchSinks {
  import opened Usages

  datatype Config = Config(bufferSize: nat, batchSize: nat)

  /** Defaults and validation rule out a zero size. */
  type SinkConfig = c: Config | c.bufferSize > 0 && c.batchSize > 0 witness Config(1, 1)

  /** Where the worker's loop is. A flush takes time: others run while it is under way. */
  datatype Phase = Selecting | Flushing(final: bool) | Draining | Exited

  datatype Flush = Flush(events: seq<Event>, ok: bool, final: bool)

  /** `tracked`, `accepted`, `dropped` and `flushes` are histories; `pending` holds the requests
      that have been recorded in the tracker but not yet offered to the channel. */
  datatype State = State(tracked: seq<Event>, pending: seq<Event>, channel: seq<Event>, batch: seq<Event>,
                         phase: Phase, stopped: bool, closed: bool, accepted: seq<Event>, dropped: seq<Event>, flushes: seq<Flush>)

  function Initial(): State {
    State([], [], [], [], Selecting, false, false, [], [], [])
  }

  datatype Step =
    | Record(e: Event)
    | Enqueue(i: nat)
    | Receive
    | Tick
    | FlushDone(ok: bool)
    | Close
    | Closed
    | SeeStop
    | Drain
  {
    predicate IsWorkers() {
      Receive? || Tick? || FlushDone? || SeeStop? || Drain?
    }
  }

  predicate Enabled(s: State, step: Step) {
    match step
    case Record(_) => true
    case Enqueue(i) => i < |s.pending|
    case Receive => s.phase == Selecting && s.channel != []
    case Tick => s.phase == Selecting
    case FlushDone(_) => s.phase.Flushing?
    case Close => !s.stopped
    case Closed => s.stopped && s.phase == Exited
    case SeeStop => s.phase == Selecting && s.stopped
    case Drain => s.phase == Draining
  }

  function Next(cfg: SinkConfig, s: State, step: Step): State
    requires Enabled(s, step)
  {
    match step
    case Record(e) => s.(tracked := s.tracked + [e], pending := s.pending + [e])
    case Enqueue(i) =>
      var e := s.pending[i];
      var t := s.(pending := s.pending[..i] + s.pending[i + 1..]);
      if |s.channel| < cfg.bufferSize
      then t.(channel := s.channel + [e], accepted := s.accepted + [e])
      else t.(dropped := s.dropped + [e])
    case Receive =>
      var t := s.(channel := s.channel[1..], batch := s.batch + [s.channel[0]]);
      if |t.batch| >= cfg.batchSize then t.(phase := Flushing(false)) else t
    case Tick => if s.batch == [] then s else s.(phase := Flushing(false))
    case FlushDone(ok) =>
      s.(batch := [], flushes := s.flushes + [Flush(s.batch, ok, s.phase.final)],
         phase := if s.phase.final then Exited else Selecting)
    case Close => s.(stopped := true)
    case Closed => s.(closed := true)
    case SeeStop => s.(phase := Draining)
    case Drain =>
      if s.channel != [] then s.(channel := s.channel[1..], batch := s.batch + [s.channel[0]])
      else s.(phase := if s.batch == [] then Exited else Flushing(true))
  }

  /** The steps can be taken one after the other from `s`. */
  predicate Runs(cfg: SinkConfig, s: State, steps: seq<Step>)
    decreases |steps|, 0
  {
    |steps| == 0 ||
    (Runs(cfg, s, steps[..|steps| - 1]) && Enabled(After(cfg, s, steps[..|steps| - 1]), steps[|steps| - 1]))
  }

  function After(cfg: SinkConfig, s: State, steps: seq<Step>): State
    requires Runs(cfg, s, steps)
    decreases |steps|, 1
  {
    if |steps| == 0 then s else Next(cfg, After(cfg, s, steps[..|steps| - 1]), steps[|steps| - 1])
  }

  // ----- The sink as an object: one method per atomic step of the worker and its clients -----

  class BatchSink {
    const cfg: SinkConfig
    var channel: seq<Event>
    var batch: seq<Event>
    var phase: Phase
    var stopped: bool
    var closed: bool
    var droppedCount: nat
    ghost var state: State

    ghost predicate Valid()
      reads this
    {
      && channel == state.channel && batch == state.batch && phase == state.phase && stopped == state.stopped && closed == state.closed
      && droppedCount == |state.dropped|
    }

    constructor (cfg: SinkConfig)
      ensures Valid() && this.cfg == cfg && state == Initial()
    {
      this.cfg := cfg;
      channel, batch, phase, stopped, closed, droppedCount := [], [], Selecting, false, false, 0;
      state := Initial();
    }

    /** A non-blocking send: a full channel drops the event. */
    method Enqueue(e: Event, ghost i: nat)
      requires Valid() && i < |state.pending| && e == state.pending[i]
      modifies this
      ensures Valid() && state == Next(cfg, old(state), Step.Enqueue(i))
    {
      state := Next(cfg, state, Step.Enqueue(i));
      if |channel| < cfg.bufferSize {
        channel := channel + [e];
      } else {
        droppedCount := droppedCount + 1;
      }
    }

    /** `Close` signals the worker ... */
    method Close()
      requires Valid() && !stopped
      modifies this
      ensures Valid() && state == Next(cfg, old(state), Step.Close)
    {
      state := Next(cfg, state, Step.Close);
      stopped := true;
    }

    /** ... and returns once it has exited. */
    method AwaitDone()
      requires Valid() && Enabled(state, Step.Closed)
      modifies this
      ensures Valid() && state == Next(cfg, old(state), Step.Closed)
    {
      state := Next(cfg, state, Step.Closed);
      closed := true;
    }

    /** Start a flush, unless there is nothing to flush. */
    method BeginFlush(final: bool)
      modifies this`phase
      ensures phase == if batch == [] then (if final then Exited else old(phase)) else Flushing(final)
    {
      if |batch| == 0 {
        if final {
          phase := Exited;
        }
        return;
      }
      phase := Flushing(final);
    }

    /** One pass of the worker's select, with the choice the scheduler made. */
    method Select(choice: Step)
      requires Valid() && Enabled(state, choice) && (choice.Receive? || choice.Tick? || choice.SeeStop?)
      modifies this
      ensures Valid() && state == Next(cfg, old(state), choice)
    {
      state := Next(cfg, state, choice);
      match choice
      case Receive =>
        batch := batch + [channel[0]];
        channel := channel[1..];
        if |batch| >= cfg.batchSize {
          BeginFlush(false);
        }
      case Tick => BeginFlush(false);
      case SeeStop => phase := Draining;
    }

    method DrainOne()
      requires Valid() && phase == Draining
      modifies this
      ensures Valid() && state == Next(cfg, old(state), Step.Drain)
    {
      state := Next(cfg, state, Step.Drain);
      if |channel| > 0 {
        batch := batch + [channel[0]];
        channel := channel[1..];
      } else {
        BeginFlush(true);
      }
    }

    /** The flush function returned; the batch is discarded either way. */
    method EndFlush(ok: bool)
      requires Valid() && phase.Flushing?
      modifies this
      ensures Valid() && state == Next(cfg, old(state), FlushDone(ok))
    {
      state := Next(cfg, state, FlushDone(ok));
      batch := [];
      phase := if phase.final then Exited else Selecting;
    }
  }

  // ----- What every run keeps -----

  function Batches(flushes: seq<Flush>): seq<seq<Event>> {
    seq(|flushes|, i requires 0 <= i < |flushes| => flushes[i].events)
  }

  /** The flushes that reached the table, or that were lost, by their outcome. */
  function ByOutcome(flushes: seq<Flush>, ok: bool): seq<seq<Event>> {
    if |flushes| == 0 then []
    else
      var init := ByOutcome(flushes[..|flushes| - 1], ok);
      if flushes[|flushes| - 1].ok == ok then init + [flushes[|flushes| - 1].events] else init
  }

  /** Accepted events are flushed, batched or waiting, once each and in order. */
  ghost predicate InOrder(s: State) {
    s.accepted == Flat(Batches(s.flushes)) + s.batch + s.channel
  }

  ghost predicate Sized(cfg: SinkConfig, s: State) {
    && |s.channel| <= cfg.bufferSize
    && (forall f | f in s.flushes :: f.events != [] && (!f.final ==> |f.events| <= cfg.batchSize))
    && match s.phase
       case Selecting => |s.batch| < cfg.batchSize
       case Flushing(final) => s.batch != [] && (!final ==> |s.batch| <= cfg.batchSize)
       case Draining => true
       case Exited => s.batch == []
  }

  /** `Close` has not returned while the worker still runs, and the worker does not stop before it is
      told to. */
  predicate ClosedLast(s: State) {
    (s.closed ==> s.phase == Exited) && (Finishing(s) ==> s.stopped)
  }

  /** Every use the tracker knows of is in exactly one other place. */
  ghost predicate Conserved(s: State) {
    forall t ::
      Sum(t, s.tracked)
      == Plus(Plus(Plus(Sum(t, Flat(ByOutcome(s.flushes, true))), Sum(t, Flat(ByOutcome(s.flushes, false)))),
                   Plus(Sum(t, s.batch), Sum(t, s.channel))),
              Plus(Sum(t, s.dropped), Sum(t, s.pending)))
  }

  lemma OneMoreBatch(batches: seq<seq<Event>>, last: seq<Event>)
    ensures Flat(batches + [last]) == Flat(batches) + last
  {
    assert (batches + [last])[..|batches|] == batches;
  }

  lemma OneMoreFlush(flushes: seq<Flush>, f: Flush)
    ensures Flat(Batches(flushes + [f])) == Flat(Batches(flushes)) + f.events
    ensures forall ok ::
              Flat(ByOutcome(flushes + [f], ok)) == Flat(ByOutcome(flushes, ok)) + if f.ok == ok then f.events else []
  {
    assert Batches(flushes + [f]) == Batches(flushes) + [f.events];
    OneMoreBatch(Batches(flushes), f.events);
    assert (flushes + [f])[..|flushes|] == flushes;
    OneMoreBatch(ByOutcome(flushes, true), f.events);
    OneMoreBatch(ByOutcome(flushes, false), f.events);
    assert forall ok :: Flat(ByOutcome(flushes, ok)) + [] == Flat(ByOutcome(flushes, ok));
  }

  lemma StepKeepsOrder(cfg: SinkConfig, s: State, step: Step)
    requires Enabled(s, step) && InOrder(s)
    ensures InOrder(Next(cfg, s, step))
  {
    hide Flat, Batches;
    if step.FlushDone? {
      OneMoreFlush(s.flushes, Flush(s.batch, step.ok, s.phase.final));
      var flushed := Flat(Batches(s.flushes));
      assert flushed + s.batch + [] == flushed + s.batch;
    }
  }

  lemma StepKeepsSizes(cfg: SinkConfig, s: State, step: Step)
    requires Enabled(s, step) && Sized(cfg, s)
    ensures Sized(cfg, Next(cfg, s, step))
  {
    if step.FlushDone? {
      var f := Flush(s.batch, step.ok, s.phase.final);
      assert forall g | g in s.flushes + [f] :: g in s.flushes || g == f;
    }
  }

  lemma StepKeepsClosed(cfg: SinkConfig, s: State, step: Step)
    requires Enabled(s, step) && ClosedLast(s)
    ensures ClosedLast(Next(cfg, s, step))
  {
  }

  /** Sums are unaffected by which element moves from the front, the middle or the end. */
  lemma SumWithout(t: string, events: seq<Event>, i: nat)
    requires i < |events|
    ensures Sum(t, events) == Plus(Sum(t, events[..i] + events[i + 1..]), Of(t, events[i]))
  {
    hide Sum, Of, Plus;
    var e := events[i];
    assert events == (events[..i] + [e]) + events[i + 1..];
    SumAppend(t, events[..i] + [e], events[i + 1..]);
    SumAppend(t, events[..i], events[i + 1..]);
    SumOneMore(t, events[..i], e);
    PlusSwap(Sum(t, events[..i]), Of(t, e), Sum(t, events[i + 1..]));
  }

  lemma PlusSwap(a: Counts, b: Counts, c: Counts)
    ensures Plus(Plus(a, b), c) == Plus(Plus(a, c), b)
  {
  }

  lemma StepConserves(cfg: SinkConfig, s: State, step: Step)
    requires Enabled(s, step) && Conserved(s)
    ensures Conserved(Next(cfg, s, step))
  {
    hide Sum, Of, Flat, ByOutcome;
    var s' := Next(cfg, s, step);
    forall t
      ensures Sum(t, s'.tracked)
              == Plus(Plus(Plus(Sum(t, Flat(ByOutcome(s'.flushes, true))), Sum(t, Flat(ByOutcome(s'.flushes, false)))),
                           Plus(Sum(t, s'.batch), Sum(t, s'.channel))),
                      Plus(Sum(t, s'.dropped), Sum(t, s'.pending)))
    {
      match step
      case Record(e) =>
        SumOneMore(t, s.tracked, e);
        SumOneMore(t, s.pending, e);
      case Enqueue(i) =>
        SumWithout(t, s.pending, i);
        SumOneMore(t, s.channel, s.pending[i]);
        SumOneMore(t, s.dropped, s.pending[i]);
      case FlushDone(ok) => FlushMoves(t, s, Flush(s.batch, ok, s.phase.final));
      case Receive => SumMoved(t, s);
      case Drain =>
        if s.channel != [] {
          SumMoved(t, s);
        }
      case Tick =>
      case Close =>
      case Closed =>
      case SeeStop =>
    }
  }

  /** A flush moves the batch, whole, to where its outcome says. */
  lemma FlushMoves(t: string, s: State, f: Flush)
    requires f.events == s.batch
    ensures Sum(t, []) == Nothing()
    ensures Sum(t, Flat(ByOutcome(s.flushes + [f], f.ok))) == Plus(Sum(t, Flat(ByOutcome(s.flushes, f.ok))), Sum(t, s.batch))
    ensures Sum(t, Flat(ByOutcome(s.flushes + [f], !f.ok))) == Sum(t, Flat(ByOutcome(s.flushes, !f.ok)))
  {
    hide Sum, Flat, ByOutcome, Plus;
    OneMoreFlush(s.flushes, f);
    SumAppend(t, Flat(ByOutcome(s.flushes, f.ok)), s.batch);
    assert Flat(ByOutcome(s.flushes, !f.ok)) + [] == Flat(ByOutcome(s.flushes, !f.ok));
    SumNothing(t);
  }

  lemma SumMoved(t: string, s: State)
    requires s.channel != []
    ensures Plus(Sum(t, s.batch + [s.channel[0]]), Sum(t, s.channel[1..])) == Plus(Sum(t, s.batch), Sum(t, s.channel))
  {
    hide Sum, Of;
    SumOneMore(t, s.batch, s.channel[0]);
    SumWithout(t, s.channel, 0);
    assert s.channel[..0] + s.channel[1..] == s.channel[1..];
  }

  /** In every interleaving: accepted events keep their order and are never duplicated or lost by
      the worker, batches have the promised sizes, and the tracker's totals are conserved. */
  lemma {:induction false} EveryRunKeeps(cfg: SinkConfig, steps: seq<Step>)
    requires Runs(cfg, Initial(), steps)
    ensures var s := After(cfg, Initial(), steps);
            InOrder(s) && Sized(cfg, s) && Conserved(s) && ClosedLast(s)
  {
    hide Next, Enabled, InOrder, Sized, Conserved, ClosedLast;
    if |steps| == 0 {
      InitiallyGood(cfg);
    } else {
      var before := After(cfg, Initial(), steps[..|steps| - 1]);
      EveryRunKeeps(cfg, steps[..|steps| - 1]);
      StepKeepsOrder(cfg, before, steps[|steps| - 1]);
      StepKeepsSizes(cfg, before, steps[|steps| - 1]);
      StepConserves(cfg, before, steps[|steps| - 1]);
      StepKeepsClosed(cfg, before, steps[|steps| - 1]);
    }
  }

  lemma InitiallyGood(cfg: SinkConfig)
    ensures InOrder(Initial()) && Sized(cfg, Initial()) && Conserved(Initial()) && ClosedLast(Initial())
  {
    assert Batches([]) == [];
  }

  /** What the table says a tenant used, given what it held when the process started: the flushes that
      succeeded were merged into it. */
  function TableTotal(start: map<string, Row>, s: State, t: string): Counts {
    CountsIn(TableFrom(start, ByOutcome(s.flushes, true)), t)
  }

  lemma TableTotalIsSum(start: map<string, Row>, s: State, t: string)
    ensures TableTotal(start, s, t) == Plus(CountsIn(start, t), Sum(t, Flat(ByOutcome(s.flushes, true))))
  {
    TableIsExact(start, ByOutcome(s.flushes, true), t);
  }

  /** At any moment of any interleaving, what the table started with and what the tracker has counted
      since exceed the table by exactly what was lost to failed flushes and drops plus what is still
      on its way. */
  lemma TrackerAccountedFor(cfg: SinkConfig, start: map<string, Row>, steps: seq<Step>, t: string)
    requires Runs(cfg, Initial(), steps)
    ensures var s := After(cfg, Initial(), steps);
            Plus(CountsIn(start, t), Sum(t, s.tracked))
            == Plus(Plus(Plus(TableTotal(start, s, t), Sum(t, Flat(ByOutcome(s.flushes, false)))),
                         Plus(Sum(t, s.batch), Sum(t, s.channel))),
                    Plus(Sum(t, s.dropped), Sum(t, s.pending)))
  {
    hide Sum, Flat, TableTotal, InOrder, Sized, Next;
    EveryRunKeeps(cfg, steps);
    TableTotalIsSum(start, After(cfg, Initial(), steps), t);
  }

  /** When the worker has exited with nothing left behind, dropped or failed, the table has gained the
      tracker's totals. */
  lemma NothingLeftBehind(cfg: SinkConfig, start: map<string, Row>, steps: seq<Step>, t: string)
    requires Runs(cfg, Initial(), steps)
    requires var s := After(cfg, Initial(), steps);
             && s.phase == Exited && s.channel == [] && s.pending == [] && s.dropped == []
             && forall f | f in s.flushes :: f.ok
    ensures var s := After(cfg, Initial(), steps);
            TableTotal(start, s, t) == Plus(CountsIn(start, t), Sum(t, s.tracked))
  {
    hide Sum, Flat, TableTotal, InOrder, Conserved, Next, Plus, After, Runs;
    var s := After(cfg, Initial(), steps);
    EveryRunKeeps(cfg, steps);
    TrackerAccountedFor(cfg, start, steps, t);
    AllReached(s.flushes);
    SumNothing(t);
    FlatNothing();
    PlusLaws(TableTotal(start, s, t), Nothing(), Nothing());
    PlusLaws(Nothing(), Nothing(), Nothing());
  }

  lemma FlatNothing()
    ensures Flat([]) == []
  {
  }

  lemma {:induction false} AllReached(flushes: seq<Flush>)
    requires forall f | f in flushes :: f.ok
    ensures ByOutcome(flushes, true) == Batches(flushes) && ByOutcome(flushes, false) == []
  {
    if |flushes| > 0 {
      var init, f := flushes[..|flushes| - 1], flushes[|flushes| - 1];
      assert f in flushes;
      assert forall g | g in init :: g in flushes;
      AllReached(init);
      assert Batches(flushes) == Batches(init) + [f.events];
    }
  }

  // ----- What a run did -----

  function RecordedBy(steps: seq<Step>): seq<Event> {
    if |steps| == 0 then []
    else
      var step := steps[|steps| - 1];
      RecordedBy(steps[..|steps| - 1]) + if step.Record? then [step.e] else []
  }

  function FlushResults(steps: seq<Step>): seq<bool> {
    if |steps| == 0 then []
    else
      var step := steps[|steps| - 1];
      FlushResults(steps[..|steps| - 1]) + if step.FlushDone? then [step.ok] else []
  }

  /** The histories are what the steps say: every use recorded is tracked, in order; each is still to be
      offered, or was accepted or dropped, once; and every flush has the result it came back with. */
  lemma {:induction false} HistoriesAreSteps(cfg: SinkConfig, steps: seq<Step>)
    requires Runs(cfg, Initial(), steps)
    ensures var s := After(cfg, Initial(), steps);
            && s.tracked == RecordedBy(steps)
            && Balanced(s.tracked, s.accepted, s.dropped, s.pending)
            && |s.accepted| + |s.dropped| == Enqueues(steps)
            && |s.flushes| == |FlushResults(steps)| && forall i | 0 <= i < |s.flushes| :: s.flushes[i].ok == FlushResults(steps)[i]
  {
    hide Next, Enabled, Balanced;
    if |steps| == 0 {
      NothingBalanced();
    } else {
      var init, step := steps[..|steps| - 1], steps[|steps| - 1];
      HistoriesAreSteps(cfg, init);
      StepInHistory(cfg, After(cfg, Initial(), init), step);
    }
  }

  /** Each use is in exactly one of the three places. */
  ghost predicate Balanced(tracked: seq<Event>, accepted: seq<Event>, dropped: seq<Event>, pending: seq<Event>) {
    multiset(tracked) == multiset(accepted) + multiset(dropped) + multiset(pending)
  }

  lemma NothingBalanced()
    ensures Balanced([], [], [], [])
  {
  }

  lemma RecordBalances(tracked: seq<Event>, accepted: seq<Event>, dropped: seq<Event>, pending: seq<Event>, e: Event)
    requires Balanced(tracked, accepted, dropped, pending)
    ensures Balanced(tracked + [e], accepted, dropped, pending + [e])
  {
    AddOne(tracked, e);
    AddOne(pending, e);
  }

  lemma OfferBalances(tracked: seq<Event>, accepted: seq<Event>, dropped: seq<Event>, pending: seq<Event>, i: nat)
    requires Balanced(tracked, accepted, dropped, pending) && i < |pending|
    ensures Balanced(tracked, accepted + [pending[i]], dropped, pending[..i] + pending[i + 1..])
    ensures Balanced(tracked, accepted, dropped + [pending[i]], pending[..i] + pending[i + 1..])
  {
    TakeOne(pending, i);
    AddOne(accepted, pending[i]);
    AddOne(dropped, pending[i]);
  }

  lemma StepInHistory(cfg: SinkConfig, s: State, step: Step)
    requires Enabled(s, step) && Balanced(s.tracked, s.accepted, s.dropped, s.pending)
    ensures var s' := Next(cfg, s, step);
            && s'.tracked == s.tracked + (if step.Record? then [step.e] else [])
            && Balanced(s'.tracked, s'.accepted, s'.dropped, s'.pending)
            && |s'.accepted| + |s'.dropped| == |s.accepted| + |s.dropped| + (if step.Enqueue? then 1 else 0)
            && |s'.flushes| == |s.flushes| + (if step.FlushDone? then 1 else 0)
            && (forall i | 0 <= i < |s.flushes| :: s'.flushes[i] == s.flushes[i])
            && (step.FlushDone? ==> s'.flushes[|s.flushes|].ok == step.ok)
  {
    hide Balanced;
    if step.Record? {
      RecordBalances(s.tracked, s.accepted, s.dropped, s.pending, step.e);
    } else if step.Enqueue? {
      OfferBalances(s.tracked, s.accepted, s.dropped, s.pending, step.i);
    }
  }

  lemma AddOne<T>(a: seq<T>, x: T)
    ensures multiset(a + [x]) == multiset(a) + multiset{x}
  {
  }

  lemma TakeOne<T>(a: seq<T>, i: nat)
    requires i < |a|
    ensures multiset(a) == multiset(a[..i] + a[i + 1..]) + multiset{a[i]}
  {
    assert a == a[..i] + [a[i]] + a[i + 1..];
  }

  /** The channel was full when this step came. */
  predicate FindsFull(cfg: SinkConfig, steps: seq<Step>, k: nat)
    requires k < |steps| && Runs(cfg, Initial(), steps[..k])
  {
    steps[k].Enqueue? && |After(cfg, Initial(), steps[..k]).channel| >= cfg.bufferSize
  }

  lemma {:induction false} RunsBefore(cfg: SinkConfig, s: State, steps: seq<Step>, k: nat)
    requires Runs(cfg, s, steps) && k <= |steps|
    ensures Runs(cfg, s, steps[..k])
  {
    if k == |steps| {
      assert steps[..k] == steps;
    } else {
      RunsBefore(cfg, s, steps[..|steps| - 1], k);
      assert steps[..|steps| - 1][..k] == steps[..k];
    }
  }

  /** How many enqueues of a run found the channel full. */
  function FullFinds(cfg: SinkConfig, steps: seq<Step>): nat
    requires Runs(cfg, Initial(), steps)
  {
    if |steps| == 0 then 0
    else
      var init := steps[..|steps| - 1];
      FullFinds(cfg, init) + if FindsFull(cfg, steps, |init|) then 1 else 0
  }

  /** An event is dropped exactly when it finds the channel full; with room, it is always accepted. */
  lemma {:induction false} DroppedExactly(cfg: SinkConfig, steps: seq<Step>)
    requires Runs(cfg, Initial(), steps)
    ensures var s := After(cfg, Initial(), steps);
            |s.dropped| == FullFinds(cfg, steps) && |s.accepted| == Enqueues(steps) - FullFinds(cfg, steps)
  {
    hide Next, Enabled;
    if |steps| > 0 {
      var init := steps[..|steps| - 1];
      DroppedExactly(cfg, init);
      DropStep(cfg, After(cfg, Initial(), init), steps[|steps| - 1]);
    }
  }

  lemma DropStep(cfg: SinkConfig, s: State, step: Step)
    requires Enabled(s, step)
    ensures var s' := Next(cfg, s, step);
            var full := step.Enqueue? && |s.channel| >= cfg.bufferSize;
            && |s'.dropped| == |s.dropped| + (if full then 1 else 0)
            && |s'.accepted| == |s.accepted| + (if step.Enqueue? && !full then 1 else 0)
  {
  }

  // ----- Promptness -----

  /** What the worker has taken off the channel, flushed or not. */
  function Received(s: State): seq<Event> {
    Flat(Batches(s.flushes)) + s.batch
  }

  function Receives(steps: seq<Step>): nat {
    if |steps| == 0 then 0
    else Receives(steps[..|steps| - 1]) + if steps[|steps| - 1].Receive? then 1 else 0
  }

  /** Everything received by the time of a tick: flushed, or being flushed now. */
  ghost predicate Flushed(s: State, events: seq<Event>) {
    events <= Flat(Batches(s.flushes)) || (s.phase.Flushing? && events <= Received(s))
  }

  lemma StepKeepsReceived(cfg: SinkConfig, s: State, step: Step)
    requires Enabled(s, step)
    ensures Received(s) <= Received(Next(cfg, s, step))
    ensures |Received(Next(cfg, s, step))| >= |Received(s)| + if step.Receive? then 1 else 0
    ensures forall events :: Flushed(s, events) ==> Flushed(Next(cfg, s, step), events)
  {
    hide Flat, Batches;
    if step.FlushDone? {
      OneMoreFlush(s.flushes, Flush(s.batch, step.ok, s.phase.final));
    }
  }

  lemma {:induction false} RunKeepsReceived(cfg: SinkConfig, s: State, steps: seq<Step>)
    requires Runs(cfg, s, steps)
    ensures Received(s) <= Received(After(cfg, s, steps))
    ensures |Received(After(cfg, s, steps))| >= |Received(s)| + Receives(steps)
    ensures forall events :: Flushed(s, events) ==> Flushed(After(cfg, s, steps), events)
  {
    hide Next, Enabled, Received, Flushed;
    if |steps| > 0 {
      var init := steps[..|steps| - 1];
      RunKeepsReceived(cfg, s, init);
      StepKeepsReceived(cfg, After(cfg, s, init), steps[|steps| - 1]);
    }
  }

  /** A tick starts flushing all that was received, if there is anything. */
  lemma TickFlushes(cfg: SinkConfig, s: State)
    requires Enabled(s, Tick)
    ensures Flushed(Next(cfg, s, Tick), Received(s))
  {
    hide Flat, Batches;
    assert Flat(Batches(s.flushes)) + [] == Flat(Batches(s.flushes));
  }

  /** Promptness: once the worker has received as many events as were waiting when some moment's last one
      was accepted, and a tick has come and its flush is done, every event accepted up to that moment is
      in a flush - without `Close`, and whatever else happens. */
  lemma FlushedByTick(cfg: SinkConfig, before: seq<Step>, receiving: seq<Step>, rest: seq<Step>)
    requires Runs(cfg, Initial(), before)
    requires var s := After(cfg, Initial(), before);
             && Runs(cfg, s, receiving) && Receives(receiving) >= |s.channel|
             && Enabled(After(cfg, s, receiving), Tick)
             && Runs(cfg, Next(cfg, After(cfg, s, receiving), Tick), rest)
             && !After(cfg, Next(cfg, After(cfg, s, receiving), Tick), rest).phase.Flushing?
    ensures var s := After(cfg, Initial(), before);
            s.accepted <= Flat(Batches(After(cfg, Next(cfg, After(cfg, s, receiving), Tick), rest).flushes))
  {
    hide Next, Enabled, Sized, Conserved, ClosedLast, Flat, Batches;
    var s := After(cfg, Initial(), before);
    var t := After(cfg, s, receiving);
    EveryRunKeeps(cfg, before);
    RunKeepsReceived(cfg, s, receiving);
    OrderThroughout(cfg, s, receiving);
    assert s.accepted == Received(s) + s.channel;
    AcceptedGrows(cfg, s, receiving);
    PrefixOfPrefix(s.accepted, Received(t), t.accepted);
    TickFlushes(cfg, t);
    RunKeepsReceived(cfg, Next(cfg, t, Tick), rest);
  }

  lemma PrefixOfPrefix<T>(a: seq<T>, b: seq<T>, c: seq<T>)
    requires a <= c && b <= c && |a| <= |b|
    ensures a <= b
  {
  }

  lemma {:induction false} OrderThroughout(cfg: SinkConfig, s: State, steps: seq<Step>)
    requires Runs(cfg, s, steps) && InOrder(s)
    ensures InOrder(After(cfg, s, steps))
  {
    hide InOrder, Next, Enabled;
    if |steps| > 0 {
      OrderThroughout(cfg, s, steps[..|steps| - 1]);
      StepKeepsOrder(cfg, After(cfg, s, steps[..|steps| - 1]), steps[|steps| - 1]);
    }
  }

  lemma {:induction false} AcceptedGrows(cfg: SinkConfig, s: State, steps: seq<Step>)
    requires Runs(cfg, s, steps)
    ensures s.accepted <= After(cfg, s, steps).accepted
  {
    if |steps| > 0 {
      AcceptedGrows(cfg, s, steps[..|steps| - 1]);
    }
  }

  /** From any moment at which the worker selects, it can do so by itself: receiving what waits, with
      the flushes that fall due, then a tick and its flush. */
  lemma {:induction false} CanFlushAll(cfg: SinkConfig, s: State) returns (steps: seq<Step>)
    requires s.phase == Selecting && Sized(cfg, s)
    ensures Runs(cfg, s, steps) && (forall step | step in steps :: step.IsWorkers())
    ensures var s' := After(cfg, s, steps);
            s'.phase == Selecting && s'.channel == [] && s'.batch == [] && s'.accepted == s.accepted
    decreases |s.channel|
  {
    hide Runs, After;
    NoSteps(cfg, s);
    if s.channel == [] {
      OneMoreStep(cfg, s, [], Tick);
      steps := [] + [Tick];
      if s.batch != [] {
        OneMoreStep(cfg, s, steps, FlushDone(true));
        steps := steps + [FlushDone(true)];
      }
    } else {
      OneMoreStep(cfg, s, [], Receive);
      StepKeepsSizes(cfg, s, Receive);
      steps := [] + [Receive];
      var t := Next(cfg, s, Receive);
      if t.phase.Flushing? {
        OneMoreStep(cfg, s, steps, FlushDone(true));
        StepKeepsSizes(cfg, t, FlushDone(true));
        steps := steps + [FlushDone(true)];
        t := Next(cfg, t, FlushDone(true));
      }
      var rest := CanFlushAll(cfg, t);
      RunsThen(cfg, s, steps, rest);
      steps := steps + rest;
    }
  }

  // ----- The final drain -----

  /** Worker steps left before it exits. */
  function DrainLeft(s: State): nat {
    match s.phase
    case Draining => |s.channel| + 2
    case Flushing(final) => if final then 1 else 0
    case _ => 0
  }

  predicate Finishing(s: State) {
    s.phase == Draining || s.phase == Flushing(true) || s.phase == Exited
  }

  function WorkerSteps(steps: seq<Step>): nat {
    if |steps| == 0 then 0
    else WorkerSteps(steps[..|steps| - 1]) + if steps[|steps| - 1].IsWorkers() then 1 else 0
  }

  function Enqueues(steps: seq<Step>): nat {
    if |steps| == 0 then 0
    else Enqueues(steps[..|steps| - 1]) + if steps[|steps| - 1].Enqueue? then 1 else 0
  }

  /** Once the worker drains, it exits after at most one step per waiting event, one per event that
      still arrives, and two more; it never gets stuck, and its last flush holds no more than what
      was there and what arrived. */
  lemma {:induction false} DrainTerminates(cfg: SinkConfig, s: State, steps: seq<Step>)
    requires Finishing(s) && Runs(cfg, s, steps)
    ensures var s' := After(cfg, s, steps);
            && Finishing(s')
            && WorkerSteps(steps) + DrainLeft(s') <= DrainLeft(s) + Enqueues(steps)
            && |s'.batch| + |s'.channel| <= |s.batch| + |s.channel| + Enqueues(steps)
            && (DrainLeft(s') > 0 ==> Enabled(s', Drain) || Enabled(s', FlushDone(true)))
  {
    hide Next, Enabled;
    if |steps| > 0 {
      var init := steps[..|steps| - 1];
      DrainTerminates(cfg, s, init);
      DrainStep(cfg, After(cfg, s, init), steps[|steps| - 1]);
    }
    NeverStuck(After(cfg, s, steps));
  }

  lemma NeverStuck(s: State)
    requires Finishing(s)
    ensures DrainLeft(s) > 0 ==> Enabled(s, Drain) || Enabled(s, FlushDone(true))
  {
  }

  lemma DrainStep(cfg: SinkConfig, s: State, step: Step)
    requires Finishing(s) && Enabled(s, step)
    ensures var s', more := Next(cfg, s, step), if step.Enqueue? then 1 else 0;
            && Finishing(s')
            && DrainLeft(s') + (if step.IsWorkers() then 1 else 0) <= DrainLeft(s) + more
            && |s'.batch| + |s'.channel| <= |s.batch| + |s.channel| + more
            && (s.phase != Draining ==> s'.phase != Draining)
            && (s.phase == Draining && s'.phase != Draining ==> s'.channel == [])
            && (s.channel == [] && !step.Enqueue? ==> s'.channel == [])
  {
  }

  /** The worker saw the stop signal after `before`, and `steps` followed. */
  function Stopped(cfg: SinkConfig, before: seq<Step>): State
    requires Runs(cfg, Initial(), before) && Enabled(After(cfg, Initial(), before), SeeStop)
  {
    Next(cfg, After(cfg, Initial(), before), SeeStop)
  }

  /** From the moment the worker sees the stop signal, the final flush holds at most batchSize - 1 +
      bufferSize events and those that still arrive. */
  lemma FinalFlushBounded(cfg: SinkConfig, before: seq<Step>, steps: seq<Step>)
    requires Runs(cfg, Initial(), before) && Enabled(After(cfg, Initial(), before), SeeStop)
    requires Runs(cfg, Stopped(cfg, before), steps)
    ensures |After(cfg, Stopped(cfg, before), steps).batch| <= cfg.batchSize - 1 + cfg.bufferSize + Enqueues(steps)
  {
    EveryRunKeeps(cfg, before);
    DrainTerminates(cfg, Stopped(cfg, before), steps);
  }

  /** If nothing more is enqueued, the drain leaves the channel empty. */
  lemma {:induction false} DrainEmpties(cfg: SinkConfig, s: State, steps: seq<Step>)
    requires s.phase == Draining && Runs(cfg, s, steps) && Enqueues(steps) == 0
    ensures Finishing(After(cfg, s, steps))
    ensures After(cfg, s, steps).phase != Draining ==> After(cfg, s, steps).channel == []
  {
    hide Next, Enabled;
    if |steps| > 0 {
      var init := steps[..|steps| - 1];
      DrainEmpties(cfg, s, init);
      DrainStep(cfg, After(cfg, s, init), steps[|steps| - 1]);
    }
  }

  lemma {:induction false} RunsThen(cfg: SinkConfig, s: State, a: seq<Step>, b: seq<Step>)
    requires Runs(cfg, s, a) && Runs(cfg, After(cfg, s, a), b)
    ensures Runs(cfg, s, a + b) && After(cfg, s, a + b) == After(cfg, After(cfg, s, a), b)
  {
    hide Next, Enabled;
    if |b| == 0 {
      assert a + b == a;
    } else {
      var init := b[..|b| - 1];
      RunsThen(cfg, s, a, init);
      assert (a + b)[..|a + b| - 1] == a + init;
    }
  }

  /** After a clean shutdown - no event dropped, no flush failed, nothing enqueued once the worker had
      seen the stop signal and nothing waiting to be - `Close` returns with the table having gained
      exactly the tracker's totals. */
  lemma TableAgreesWithTracker(cfg: SinkConfig, start: map<string, Row>, before: seq<Step>, steps: seq<Step>, t: string)
    requires Runs(cfg, Initial(), before) && Enabled(After(cfg, Initial(), before), SeeStop)
    requires Runs(cfg, Stopped(cfg, before), steps) && Enqueues(steps) == 0
    requires var s := After(cfg, Stopped(cfg, before), steps);
             s.closed && s.pending == [] && s.dropped == [] && forall f | f in s.flushes :: f.ok
    ensures var s := After(cfg, Stopped(cfg, before), steps);
            TableTotal(start, s, t) == Plus(CountsIn(start, t), Sum(t, s.tracked))
  {
    hide Next, Enabled, TableTotal, Sum, InOrder, Sized, Conserved;
    StopIsAStep(cfg, before);
    OneMoreStep(cfg, Initial(), before, SeeStop);
    RunsThen(cfg, Initial(), before + [SeeStop], steps);
    var all := before + [SeeStop] + steps;
    EveryRunKeeps(cfg, all);
    DrainEmpties(cfg, Stopped(cfg, before), steps);
    NothingLeftBehind(cfg, start, all, t);
  }

  lemma StopIsAStep(cfg: SinkConfig, before: seq<Step>)
    requires Runs(cfg, Initial(), before) && Enabled(After(cfg, Initial(), before), SeeStop)
    ensures Stopped(cfg, before).phase == Draining
  {
  }

  /** Requests that keep enqueueing can hold the drain for any number of steps: the promise of a
      bounded shutdown needs them to have stopped. */
  function Outpacing(e: Event, n: nat): seq<Step> {
    if n == 0 then [Close, SeeStop] else Outpacing(e, n - 1) + [Record(e), Enqueue(0), Drain]
  }

  lemma {:induction false} DrainOutpaced(cfg: SinkConfig, e: Event, n: nat)
    ensures Runs(cfg, Initial(), Outpacing(e, n))
    ensures var s := After(cfg, Initial(), Outpacing(e, n));
            s.phase == Draining && |s.batch| == n && s.channel == [] && s.pending == []
  {
    hide Runs, After;
    NoSteps(cfg, Initial());
    if n == 0 {
      OneMoreStep(cfg, Initial(), [], Close);
      OneMoreStep(cfg, Initial(), [Close], SeeStop);
      assert [] + [Close] == [Close] && [Close] + [SeeStop] == [Close, SeeStop];
    } else {
      DrainOutpaced(cfg, e, n - 1);
      var init := Outpacing(e, n - 1);
      OneMoreStep(cfg, Initial(), init, Record(e));
      OneMoreStep(cfg, Initial(), init + [Record(e)], Enqueue(0));
      OneMoreStep(cfg, Initial(), init + [Record(e)] + [Enqueue(0)], Drain);
      assert Outpacing(e, n) == init + [Record(e)] + [Enqueue(0)] + [Drain];
    }
  }

  lemma NoSteps(cfg: SinkConfig, s: State)
    ensures Runs(cfg, s, []) && After(cfg, s, []) == s
  {
  }

  lemma OneMoreStep(cfg: SinkConfig, s: State, steps: seq<Step>, step: Step)
    requires Runs(cfg, s, steps) && Enabled(After(cfg, s, steps), step)
    ensures Runs(cfg, s, steps + [step]) && After(cfg, s, steps + [step]) == Next(cfg, After(cfg, s, steps), step)
  {
    assert (steps + [step])[..|steps|] == steps;
  }
}
