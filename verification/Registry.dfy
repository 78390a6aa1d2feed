/** The registry of breakers by replica ID (internal/circuit/breaker.go). Every request shares it:
    its ghost history `calls` is what all of them did to it, in the order of its locks. */
module Registries {
  import opened Windows
  import opened Breakers
  import opened BreakerRuns

  datatype Call = Call(id: string, op: Op)

  /** What one replica's breaker has seen. */
  function OpsOn(calls: seq<Call>, id: string): seq<Op> {
    if |calls| == 0 then []
    else
      var c := calls[|calls| - 1];
      OpsOn(calls[..|calls| - 1], id) + if c.id == id then [c.op] else []
  }

  lemma OpsOnOne(calls: seq<Call>, c: Call, id: string)
    ensures OpsOn(calls + [c], id) == OpsOn(calls, id) + if c.id == id then [c.op] else []
  {
    assert (calls + [c])[..|calls|] == calls;
  }

  lemma {:induction false} OpsOnAppend(a: seq<Call>, b: seq<Call>, id: string)
    ensures OpsOn(a + b, id) == OpsOn(a, id) + OpsOn(b, id)
  {
    if b == [] {
      assert a + b == a;
    } else {
      var init, c := b[..|b| - 1], b[|b| - 1];
      assert a + b == (a + init) + [c] && b == init + [c];
      OpsOnAppend(a, init, id);
      OpsOnOne(a + init, c, id);
    }
  }

  /** A replica's breaker: a new one if it was never called, else what its own calls make of the
      one created at the first of them. The theorems about runs apply to it. */
  function Entry(cfg: UsableConfig, calls: seq<Call>, id: string, now: int): Model {
    var ops := OpsOn(calls, id);
    if ops == [] then NewModel(now) else Run(cfg, NewModel(ops[0].time), ops)
  }

  lemma EntryStep(cfg: UsableConfig, calls: seq<Call>, c: Call, id: string, now: int)
    ensures Entry(cfg, calls + [c], id, now)
            == if c.id == id then Step(cfg, Entry(cfg, calls, id, c.op.time), c.op) else Entry(cfg, calls, id, now)
  {
    hide Step, OpsOn;
    OpsOnOne(calls, c, id);
    var ops := OpsOn(calls, id);
    if c.id == id {
      RunOneMore(cfg, NewModel((ops + [c.op])[0].time), ops, c.op);
    } else {
      assert ops + [] == ops;
    }
  }

  /** What an earlier history makes of a breaker carries over: later calls are run from there. */
  lemma {:induction false} EntryThen(cfg: UsableConfig, a: seq<Call>, b: seq<Call>, id: string, now: int)
    requires OpsOn(a, id) != []
    ensures Entry(cfg, a + b, id, now) == Run(cfg, Entry(cfg, a, id, now), OpsOn(b, id))
  {
    hide Step, Entry, Run, OpsOn;
    if b == [] {
      assert a + b == a;
      NoOps(id);
      RunOneMore(cfg, Entry(cfg, a, id, now), [], Allow(0));
    } else {
      var init, c := b[..|b| - 1], b[|b| - 1];
      assert a + b == (a + init) + [c] && b == init + [c];
      EntryThen(cfg, a, init, id, now);
      OpsOnOne(init, c, id);
      OpsOnAppend(a, init, id);
      EntryStep(cfg, a + init, c, id, now);
      Known(cfg, a + init, id, c.op.time);
      Known(cfg, a + init, id, now);
      if c.id == id {
        RunOneMore(cfg, Entry(cfg, a, id, now), OpsOn(init, id), c.op);
      } else {
        assert OpsOn(init, id) + [] == OpsOn(init, id);
      }
    }
  }

  lemma NoOps(id: string)
    ensures OpsOn([], id) == []
  {
  }

  class Registry {
    const cfg: UsableConfig
    var breakers: map<string, Breaker>
    ghost var calls: seq<Call>
    ghost var Repr: set<object>

    /** Each breaker is well-formed and shares no memory with another. */
    ghost predicate Shape()
      reads this, Repr
    {
      && this in Repr
      && (forall id | id in breakers ::
            breakers[id] in Repr && breakers[id].Repr() <= Repr && breakers[id].Valid() && breakers[id].cfg == cfg)
      && (forall id, other | id in breakers && other in breakers && id != other ::
            breakers[id].Repr() !! breakers[other].Repr())
    }

    ghost predicate Matches(id: string)
      requires Shape()
      reads this, Repr
    {
      && (id in breakers <==> OpsOn(calls, id) != [])
      && (id in breakers ==> breakers[id].Value() == Entry(cfg, calls, id, 0))
    }

    ghost predicate Valid()
      reads this, Repr
    {
      Shape() && forall id :: Matches(id)
    }

    constructor (cfg: UsableConfig)
      ensures Valid() && fresh(Repr) && this.cfg == cfg && calls == []
    {
      this.cfg := cfg;
      breakers := map[];
      calls := [];
      Repr := {this};
    }

    method GetOrCreate(id: string, now: int) returns (b: Breaker)
      requires Valid()
      modifies this
      ensures Shape() && fresh(Repr - old(Repr)) && calls == old(calls)
      ensures forall other | other != id :: Matches(other)
      ensures id in breakers && breakers[id] == b && b.Value() == Entry(cfg, calls, id, now)
      ensures id in old(breakers) ==> b == old(breakers)[id]
    {
      hide OpsOn, Entry, Breaker.Valid, Breaker.Value, NewModel;
      assert Matches(id);
      if id in breakers {
        b := breakers[id];
        Known(cfg, calls, id, now);
        return;
      }
      b := Create(id, now);
    }

    method Create(id: string, now: int) returns (b: Breaker)
      requires Valid() && id !in breakers
      modifies this
      ensures Shape() && fresh(Repr - old(Repr)) && calls == old(calls)
      ensures forall other | other != id :: Matches(other)
      ensures id in breakers && breakers[id] == b && b.Value() == Entry(cfg, calls, id, now)
    {
      hide OpsOn, Entry, Breaker.Valid, Breaker.Value, NewModel, Matches;
      NotCalled(id, now);
      b := new Breaker(cfg, now);
      Add(id, b);
    }

    lemma NotCalled(id: string, now: int)
      requires Valid() && id !in breakers
      ensures Entry(cfg, calls, id, now) == NewModel(now)
    {
      assert Matches(id);
    }

    method Add(id: string, b: Breaker)
      requires Valid() && id !in breakers && b.Valid() && b.cfg == cfg && b.Repr() !! Repr
      modifies this
      ensures Shape() && Repr == old(Repr) + b.Repr() && calls == old(calls) && breakers == old(breakers)[id := b]
      ensures forall other | other != id :: Matches(other)
    {
      hide OpsOn, Entry, Breaker.Valid, Breaker.Value;
      breakers := breakers[id := b];
      Repr := Repr + b.Repr();
      forall other | other != id
        ensures Matches(other)
      {
        assert old(Matches(other));
      }
    }

    /** The call has been made: it joins the history. */
    ghost method Log(c: Call)
      requires Shape() && forall other | other != c.id :: Matches(other)
      requires c.id in breakers
      requires breakers[c.id].Value() == Step(cfg, Entry(cfg, calls, c.id, c.op.time), c.op)
      modifies this`calls
      ensures Valid() && calls == old(calls) + [c]
    {
      hide OpsOn, Entry, Step, Breaker.Valid;
      NewEntries(cfg, calls, c);
      calls := calls + [c];
      forall id
        ensures Matches(id)
      {
        assert id != c.id ==> old(Matches(id));
      }
    }

    method Allow(id: string, now: int) returns (ok: bool)
      requires Valid()
      modifies Repr
      ensures Valid() && fresh(Repr - old(Repr)) && calls == old(calls) + [Call(id, BreakerRuns.Allow(now))]
      ensures ok == Permits(cfg, Entry(cfg, old(calls), id, now), now)
    {
      hide OpsOn, Entry, Breaker.Valid, AfterSuccess, AfterFailure, AfterErrorRate, AfterTouch;
      var b := GetOrCreate(id, now);
      label found:
      ok := b.Allow(now);
      assert Shape();
      assert forall other | other in breakers && other != id :: breakers[other].Value() == old@found(breakers[other].Value());
      assert forall other | other != id :: old@found(Matches(other)) ==> Matches(other);
      Log(Call(id, BreakerRuns.Allow(now)));
    }

    method RecordSuccess(id: string, now: int)
      requires Valid()
      modifies Repr
      ensures Valid() && fresh(Repr - old(Repr)) && calls == old(calls) + [Call(id, Success(now))]
    {
      hide OpsOn, Entry, Breaker.Valid, AfterSuccess, AfterFailure, AfterErrorRate, AfterTouch;
      var b := GetOrCreate(id, now);
      label found:
      b.RecordSuccess(now);
      assert Shape();
      assert forall other | other in breakers && other != id :: breakers[other].Value() == old@found(breakers[other].Value());
      assert forall other | other != id :: old@found(Matches(other)) ==> Matches(other);
      Log(Call(id, Success(now)));
    }

    method RecordFailure(id: string, now: int)
      requires Valid()
      modifies Repr
      ensures Valid() && fresh(Repr - old(Repr)) && calls == old(calls) + [Call(id, Failure(now))]
    {
      hide OpsOn, Entry, Breaker.Valid, AfterSuccess, AfterFailure, AfterErrorRate, AfterTouch;
      var b := GetOrCreate(id, now);
      label found:
      b.RecordFailure(now);
      assert Shape();
      assert forall other | other in breakers && other != id :: breakers[other].Value() == old@found(breakers[other].Value());
      assert forall other | other != id :: old@found(Matches(other)) ==> Matches(other);
      Log(Call(id, Failure(now)));
    }

    method GetState(id: string, now: int) returns (s: State)
      requires Valid()
      modifies Repr
      ensures Valid() && fresh(Repr - old(Repr)) && calls == old(calls) + [Call(id, BreakerRuns.GetState(now))]
      ensures s == Entry(cfg, calls, id, now).state
    {
      hide OpsOn, Entry, Breaker.Valid, AfterSuccess, AfterFailure, AfterErrorRate, AfterTouch;
      var b := GetOrCreate(id, now);
      label found:
      s := b.GetState(now);
      assert Shape();
      assert forall other | other in breakers && other != id :: breakers[other].Value() == old@found(breakers[other].Value());
      assert forall other | other != id :: old@found(Matches(other)) ==> Matches(other);
      EntryStep(cfg, calls, Call(id, BreakerRuns.GetState(now)), id, now);
      Log(Call(id, BreakerRuns.GetState(now)));
    }

    method ErrorRate(id: string, now: int) returns (rate: real)
      requires Valid()
      modifies Repr
      ensures Valid() && fresh(Repr - old(Repr)) && calls == old(calls) + [Call(id, BreakerRuns.ErrorRate(now))]
      ensures var w := Entry(cfg, calls, id, now).window;
              var s, f := Total(w, true), Total(w, false);
              if s + f == 0 then rate == 0.0 else rate * (s + f) as real == f as real
    {
      hide OpsOn, Entry, Breaker.Valid, AfterSuccess, AfterFailure, AfterErrorRate, AfterTouch, Total;
      var b := GetOrCreate(id, now);
      label found:
      rate := b.ErrorRate(now);
      assert Shape();
      assert forall other | other in breakers && other != id :: breakers[other].Value() == old@found(breakers[other].Value());
      assert forall other | other != id :: old@found(Matches(other)) ==> Matches(other);
      EntryStep(cfg, calls, Call(id, BreakerRuns.ErrorRate(now)), id, now);
      Log(Call(id, BreakerRuns.ErrorRate(now)));
    }

    /** The calls of other requests, one after the other. */
    method Perform(others: seq<Call>)
      requires Valid()
      modifies Repr
      ensures Valid() && fresh(Repr - old(Repr)) && calls == old(calls) + others
    {
      hide Valid;
      assert calls == old(calls) + others[..0];
      for i := 0 to |others|
        invariant Valid() && fresh(Repr - old(Repr)) && calls == old(calls) + others[..i]
      {
        var c := others[i];
        assert others[..i + 1] == others[..i] + [c];
        match c.op
        case Allow(t) => var _ := Allow(c.id, t);
        case Success(t) => RecordSuccess(c.id, t);
        case Failure(t) => RecordFailure(c.id, t);
        case GetState(t) => var _ := GetState(c.id, t);
        case ErrorRate(t) => var _ := ErrorRate(c.id, t);
      }
      assert others[..|others|] == others;
    }
  }

  lemma NewEntries(cfg: UsableConfig, calls: seq<Call>, c: Call)
    ensures forall id ::
              && (OpsOn(calls + [c], id) != [] <==> OpsOn(calls, id) != [] || id == c.id)
              && Entry(cfg, calls + [c], id, 0)
                 == if id == c.id then Step(cfg, Entry(cfg, calls, id, c.op.time), c.op) else Entry(cfg, calls, id, 0)
  {
    forall id
      ensures OpsOn(calls + [c], id) != [] <==> OpsOn(calls, id) != [] || id == c.id
      ensures Entry(cfg, calls + [c], id, 0)
              == if id == c.id then Step(cfg, Entry(cfg, calls, id, c.op.time), c.op) else Entry(cfg, calls, id, 0)
    {
      OpsOnOne(calls, c, id);
      EntryStep(cfg, calls, c, id, 0);
    }
  }

  lemma Known(cfg: UsableConfig, calls: seq<Call>, id: string, now: int)
    ensures OpsOn(calls, id) != [] ==> Entry(cfg, calls, id, now) == Entry(cfg, calls, id, 0)
  {
  }
}
