/** Per-tenant usage: the in-memory tracker (internal/usage/tracker.go) and the batched upsert
    into the usage table (internal/usage/postgres.go). Both are proved against sums over the
    events themselves. */
module Usages {

  datatype Event = Event(tenant: string, input: nat, output: nat, at: int)

  datatype Counts = Counts(input: int, output: int, requests: int)

  function Plus(a: Counts, b: Counts): Counts {
    Counts(a.input + b.input, a.output + b.output, a.requests + b.requests)
  }

  function Nothing(): Counts {
    Counts(0, 0, 0)
  }

  function Of(tenant: string, e: Event): Counts {
    if e.tenant == tenant then Counts(e.input, e.output, 1) else Nothing()
  }

  /** What a tenant used over a list of events. */
  function Sum(tenant: string, events: seq<Event>): Counts {
    if |events| == 0 then Nothing()
    else Plus(Sum(tenant, events[..|events| - 1]), Of(tenant, events[|events| - 1]))
  }

  lemma SumOneMore(t: string, events: seq<Event>, e: Event)
    ensures Sum(t, events + [e]) == Plus(Sum(t, events), Of(t, e))
  {
    assert (events + [e])[..|events|] == events;
  }

  lemma SumNothing(t: string)
    ensures Sum(t, []) == Nothing()
  {
  }

  lemma PlusLaws(a: Counts, b: Counts, c: Counts)
    ensures Plus(Plus(a, b), c) == Plus(a, Plus(b, c))
    ensures Plus(a, Nothing()) == a
  {
  }

  lemma {:induction false} SumAppend(t: string, a: seq<Event>, b: seq<Event>)
    ensures Sum(t, a + b) == Plus(Sum(t, a), Sum(t, b))
  {
    hide Sum, Of, Plus;
    SumNothing(t);
    if |b| == 0 {
      assert a + b == a && b == [];
      PlusLaws(Sum(t, a), Nothing(), Nothing());
    } else {
      var init, e := b[..|b| - 1], b[|b| - 1];
      assert b == init + [e] && a + b == (a + init) + [e];
      SumAppend(t, a, init);
      SumOneMore(t, init, e);
      SumOneMore(t, a + init, e);
      PlusLaws(Sum(t, a), Sum(t, init), Of(t, e));
    }
  }

  predicate Mentions(tenant: string, events: seq<Event>) {
    exists i :: 0 <= i < |events| && events[i].tenant == tenant
  }

  lemma MentionsAppend(t: string, a: seq<Event>, b: seq<Event>)
    ensures Mentions(t, a + b) <==> Mentions(t, a) || Mentions(t, b)
  {
    var all := a + b;
    if i :| 0 <= i < |a| && a[i].tenant == t {
      assert all[i].tenant == t;
    }
    if i :| 0 <= i < |b| && b[i].tenant == t {
      assert all[|a| + i].tenant == t;
    }
  }

  lemma MentionsOneMore(t: string, events: seq<Event>, e: Event)
    ensures Mentions(t, events + [e]) <==> Mentions(t, events) || e.tenant == t
  {
    MentionsAppend(t, events, [e]);
    assert [e][0] == e;
  }

  lemma {:induction false} SumOfNobody(t: string, events: seq<Event>)
    requires !Mentions(t, events)
    ensures Sum(t, events) == Nothing()
  {
    hide Sum, Mentions;
    SumNothing(t);
    if |events| == 0 {
      assert events == [];
    } else {
      var init, e := events[..|events| - 1], events[|events| - 1];
      assert events == init + [e];
      MentionsOneMore(t, init, e);
      SumOneMore(t, init, e);
      SumOfNobody(t, init);
    }
  }

  /** Earliest and latest time among a tenant's events. */
  function MinAt(tenant: string, events: seq<Event>): (m: int)
    requires Mentions(tenant, events)
    ensures exists i :: 0 <= i < |events| && events[i].tenant == tenant && events[i].at == m
    ensures forall i | 0 <= i < |events| && events[i].tenant == tenant :: m <= events[i].at
  {
    var init, last := events[..|events| - 1], events[|events| - 1];
    if last.tenant != tenant then assert Mentions(tenant, init); MinAt(tenant, init)
    else if !Mentions(tenant, init) then
      assert forall i | 0 <= i < |init| :: events[i] == init[i] && init[i].tenant != tenant;
      last.at
    else
      var m := MinAt(tenant, init);
      assert forall i | 0 <= i < |init| :: events[i] == init[i];
      if last.at < m then last.at else m
  }

  function MaxAt(tenant: string, events: seq<Event>): (m: int)
    requires Mentions(tenant, events)
    ensures exists i :: 0 <= i < |events| && events[i].tenant == tenant && events[i].at == m
    ensures forall i | 0 <= i < |events| && events[i].tenant == tenant :: m >= events[i].at
  {
    var init, last := events[..|events| - 1], events[|events| - 1];
    if last.tenant != tenant then assert Mentions(tenant, init); MaxAt(tenant, init)
    else if !Mentions(tenant, init) then
      assert forall i | 0 <= i < |init| :: events[i] == init[i] && init[i].tenant != tenant;
      last.at
    else
      var m := MaxAt(tenant, init);
      assert forall i | 0 <= i < |init| :: events[i] == init[i];
      if last.at > m then last.at else m
  }

  /** A row of the table, and a tracker entry: counts with two times. */
  datatype Row = Row(counts: Counts, first: int, last: int)

  // ----- The tracker -----

  /** Times of a tenant's first and last event in order of recording. */
  function FirstAt(tenant: string, events: seq<Event>): int
    requires Mentions(tenant, events)
  {
    var init, last := events[..|events| - 1], events[|events| - 1];
    assert events == init + [last];
    MentionsOneMore(tenant, init, last);
    if Mentions(tenant, init) then FirstAt(tenant, init) else last.at
  }

  function LastAt(tenant: string, events: seq<Event>): int
    requires Mentions(tenant, events)
  {
    var init, last := events[..|events| - 1], events[|events| - 1];
    assert events == init + [last];
    MentionsOneMore(tenant, init, last);
    if last.tenant == tenant then last.at else LastAt(tenant, init)
  }

  ghost predicate Tallies(data: map<string, Row>, events: seq<Event>) {
    && (forall t :: t in data <==> Mentions(t, events))
    && (forall t | t in data && Mentions(t, events) ::
          data[t] == Row(Sum(t, events), FirstAt(t, events), LastAt(t, events)))
  }

  function WithoutTenant(tenant: string, events: seq<Event>): seq<Event> {
    if |events| == 0 then []
    else
      var init := WithoutTenant(tenant, events[..|events| - 1]);
      if events[|events| - 1].tenant == tenant then init else init + [events[|events| - 1]]
  }

  class Tracker {
    var data: map<string, Row>
    /** Every record whose tenant has not been reset since. */
    ghost var recorded: seq<Event>

    ghost predicate Valid()
      reads this
    {
      Tallies(data, recorded)
    }

    constructor ()
      ensures Valid() && recorded == []
    {
      data := map[];
      recorded := [];
    }

    /** Negative token counts count as zero. */
    method Record(tenant: string, input: int, output: int, now: int)
      requires Valid()
      modifies this
      ensures Valid()
      ensures recorded == old(recorded) + [Event(tenant, if input < 0 then 0 else input, if output < 0 then 0 else output, now)]
    {
      hide Tallies;
      var inTokens: nat := if input < 0 then 0 else input;
      var outTokens: nat := if output < 0 then 0 else output;
      var e := Event(tenant, inTokens, outTokens, now);
      RecordTallies(data, recorded, e);
      var u := if tenant in data then data[tenant] else Row(Nothing(), now, now);
      data := data[tenant := Row(Plus(u.counts, Counts(inTokens, outTokens, 1)), u.first, now)];
      recorded := recorded + [e];
    }

    /** Resetting a tenant leaves the tracker as if its requests had never been recorded; the empty
        name resets everyone. Returns how many entries were removed. */
    method Reset(tenant: string) returns (removed: nat)
      requires Valid()
      modifies this
      ensures Valid() && removed == |old(data)| - |data|
      ensures recorded == if tenant == "" then [] else WithoutTenant(tenant, old(recorded))
    {
      hide Tallies;
      TalliesNothing();
      if tenant == "" {
        removed := |data|;
        data := map[];
        recorded := [];
        return;
      }
      RemoveOne(data, tenant);
      ResetTallies(data, recorded, tenant);
      removed := if tenant in data then 1 else 0;
      data := data - {tenant};
      recorded := WithoutTenant(tenant, recorded);
    }
  }

  lemma TalliesNothing()
    ensures Tallies(map[], [])
  {
  }

  lemma RemoveOne(data: map<string, Row>, tenant: string)
    ensures |data - {tenant}| == |data| - if tenant in data then 1 else 0
  {
    var rest := data - {tenant};
    if tenant in data {
      assert data.Keys == rest.Keys + {tenant};
    } else {
      assert rest == data;
    }
  }

  function Recorded(data: map<string, Row>, e: Event): map<string, Row> {
    var u := if e.tenant in data then data[e.tenant] else Row(Nothing(), e.at, e.at);
    data[e.tenant := Row(Plus(u.counts, Counts(e.input, e.output, 1)), u.first, e.at)]
  }

  lemma OneMore(t: string, events: seq<Event>, e: Event)
    ensures Mentions(t, events + [e]) <==> Mentions(t, events) || e.tenant == t
    ensures Sum(t, events + [e]) == Plus(Sum(t, events), Of(t, e))
    ensures e.tenant != t ==> Sum(t, events + [e]) == Sum(t, events)
    ensures !Mentions(t, events) ==> Sum(t, events) == Nothing()
  {
    hide Sum;
    MentionsOneMore(t, events, e);
    SumOneMore(t, events, e);
    if !Mentions(t, events) {
      SumOfNobody(t, events);
    }
  }

  lemma TimesOneMore(t: string, events: seq<Event>, e: Event)
    requires Mentions(t, events + [e])
    ensures e.tenant != t ==> Mentions(t, events)
    ensures FirstAt(t, events + [e]) == if Mentions(t, events) then FirstAt(t, events) else e.at
    ensures LastAt(t, events + [e]) == if e.tenant == t then e.at else LastAt(t, events)
  {
    assert (events + [e])[..|events|] == events;
    MentionsOneMore(t, events, e);
  }

  lemma RecordTallies(data: map<string, Row>, events: seq<Event>, e: Event)
    requires Tallies(data, events)
    ensures Tallies(Recorded(data, e), events + [e])
  {
    hide Sum, Mentions, FirstAt, LastAt, Plus;
    var all, after := events + [e], Recorded(data, e);
    forall t
      ensures t in after <==> Mentions(t, all)
      ensures t in after && Mentions(t, all) ==> after[t] == Row(Sum(t, all), FirstAt(t, all), LastAt(t, all))
    {
      OneMore(t, events, e);
      if Mentions(t, all) {
        TimesOneMore(t, events, e);
      }
    }
  }

  /** Dropping one tenant's events changes nothing about another's. */
  lemma {:induction false} OthersUnchanged(tenant: string, t: string, events: seq<Event>)
    ensures Mentions(t, WithoutTenant(tenant, events)) <==> t != tenant && Mentions(t, events)
    ensures t != tenant ==> Sum(t, WithoutTenant(tenant, events)) == Sum(t, events)
    ensures t != tenant && Mentions(t, events) ==>
              && FirstAt(t, WithoutTenant(tenant, events)) == FirstAt(t, events)
              && LastAt(t, WithoutTenant(tenant, events)) == LastAt(t, events)
  {
    hide Sum, Mentions, FirstAt, LastAt, Plus;
    if |events| == 0 {
      assert events == [];
      NobodyMentioned(t);
    } else {
      var init, e := events[..|events| - 1], events[|events| - 1];
      assert events == init + [e];
      OthersUnchanged(tenant, t, init);
      OneMore(t, init, e);
      OneMore(t, WithoutTenant(tenant, init), e);
      if t != tenant && Mentions(t, events) {
        TimesOneMore(t, init, e);
        if e.tenant != tenant {
          TimesOneMore(t, WithoutTenant(tenant, init), e);
        }
      }
    }
  }

  lemma NobodyMentioned(t: string)
    ensures !Mentions(t, [])
  {
  }

  lemma ResetTallies(data: map<string, Row>, events: seq<Event>, tenant: string)
    requires Tallies(data, events)
    ensures Tallies(data - {tenant}, WithoutTenant(tenant, events))
  {
    hide Sum, Mentions, FirstAt, LastAt, WithoutTenant;
    forall t
      ensures Mentions(t, WithoutTenant(tenant, events)) <==> t != tenant && Mentions(t, events)
      ensures t != tenant ==> Sum(t, WithoutTenant(tenant, events)) == Sum(t, events)
      ensures t != tenant && Mentions(t, events) ==>
                && FirstAt(t, WithoutTenant(tenant, events)) == FirstAt(t, events)
                && LastAt(t, WithoutTenant(tenant, events)) == LastAt(t, events)
    {
      OthersUnchanged(tenant, t, events);
    }
  }

  // ----- The table -----

  /** `ON CONFLICT (tenant) DO UPDATE`: the counts add up, the last time only rises, and the first
      time keeps whatever the row was created with. */
  function Upsert(table: map<string, Row>, tenant: string, a: Row): map<string, Row> {
    if tenant in table
    then
      var old_ := table[tenant];
      table[tenant := Row(Plus(old_.counts, a.counts), old_.first, if old_.last < a.last then a.last else old_.last)]
    else table[tenant := a]
  }

  ghost predicate Aggregates(tenants: map<string, Row>, events: seq<Event>) {
    && (forall t :: t in tenants <==> Mentions(t, events))
    && (forall t | t in tenants && Mentions(t, events) ::
          tenants[t] == Row(Sum(t, events), MinAt(t, events), MaxAt(t, events)))
  }

  /** The table after one batch: every tenant of the batch is merged once. */
  function Merge(table: map<string, Row>, batch: seq<Event>): map<string, Row> {
    map t | t in table.Keys + (set i | 0 <= i < |batch| :: batch[i].tenant) ::
      if !Mentions(t, batch) then (if t in table then table[t] else Row(Nothing(), 0, 0))
      else Upsert(table, t, Row(Sum(t, batch), MinAt(t, batch), MaxAt(t, batch)))[t]
  }

  /** One turn of the collapsing loop. */
  function Collapse(tenants: map<string, Row>, e: Event): map<string, Row> {
    var a := if e.tenant in tenants then tenants[e.tenant] else Row(Nothing(), e.at, e.at);
    tenants[e.tenant := Row(Plus(a.counts, Counts(e.input, e.output, 1)),
                            if e.at < a.first then e.at else a.first,
                            if e.at > a.last then e.at else a.last)]
  }

  lemma AggregateOne(tenants: map<string, Row>, events: seq<Event>, e: Event)
    requires Aggregates(tenants, events)
    ensures Aggregates(Collapse(tenants, e), events + [e])
  {
    hide Sum, Mentions, MinAt, MaxAt, Plus;
    var all, after := events + [e], Collapse(tenants, e);
    forall t
      ensures t in after <==> Mentions(t, all)
      ensures t in after && Mentions(t, all) ==> after[t] == Row(Sum(t, all), MinAt(t, all), MaxAt(t, all))
    {
      OneMore(t, events, e);
      if Mentions(t, all) {
        ExtremesOneMore(t, events, e);
      }
    }
  }

  lemma ExtremesOneMore(t: string, events: seq<Event>, e: Event)
    requires Mentions(t, events + [e])
    ensures e.tenant != t ==> Mentions(t, events)
    ensures MinAt(t, events + [e])
            == if e.tenant != t then MinAt(t, events) else if !Mentions(t, events) || e.at < MinAt(t, events) then e.at else MinAt(t, events)
    ensures MaxAt(t, events + [e])
            == if e.tenant != t then MaxAt(t, events) else if !Mentions(t, events) || e.at > MaxAt(t, events) then e.at else MaxAt(t, events)
  {
    var all := events + [e];
    assert all[..|all| - 1] == events && all[|all| - 1] == e;
    MentionsOneMore(t, events, e);
  }

  lemma AggregateNothing()
    ensures Aggregates(map[], [])
  {
  }

  class UsageTable {
    var rows: map<string, Row>

    constructor ()
      ensures rows == map[]
    {
      rows := map[];
    }

    /** Collapse the batch per tenant, then merge the tenants in any order. */
    method UpsertUsage(events: seq<Event>)
      modifies this
      ensures rows == Merge(old(rows), events)
    {
      hide Aggregates, Merge;
      AggregateNothing();
      var tenants: map<string, Row> := map[];
      assert events[..0] == [];
      for i := 0 to |events|
        modifies {}
        invariant Aggregates(tenants, events[..i])
      {
        var e := events[i];
        AggregateOne(tenants, events[..i], e);
        assert events[..i + 1] == events[..i] + [e];
        var a := if e.tenant in tenants then tenants[e.tenant] else Row(Nothing(), e.at, e.at);
        a := a.(counts := Plus(a.counts, Counts(e.input, e.output, 1)));
        if e.at < a.first {
          a := a.(first := e.at);
        }
        if e.at > a.last {
          a := a.(last := e.at);
        }
        tenants := tenants[e.tenant := a];
      }
      assert events[..|events|] == events;
      MergeTenants(tenants, events);
    }

    method MergeTenants(tenants: map<string, Row>, ghost events: seq<Event>)
      requires Aggregates(tenants, events)
      modifies this
      ensures rows == Merge(old(rows), events)
    {
      hide Aggregates, Merge;
      ghost var before := rows;
      var todo := tenants.Keys;
      while todo != {}
        invariant todo <= tenants.Keys
        invariant rows.Keys == before.Keys + (tenants.Keys - todo)
        invariant forall t | t in rows ::
                    rows[t] == if t in tenants && t !in todo then Upsert(before, t, tenants[t])[t] else before[t]
        decreases todo
      {
        var t :| t in todo;
        rows := Upsert(rows, t, tenants[t]);
        todo := todo - {t};
      }
      MergeIs(before, rows, tenants, events);
    }
  }

  lemma MergeIs(before: map<string, Row>, after: map<string, Row>, tenants: map<string, Row>, events: seq<Event>)
    requires Aggregates(tenants, events)
    requires after.Keys == before.Keys + tenants.Keys
    requires forall t | t in after :: after[t] == if t in tenants then Upsert(before, t, tenants[t])[t] else before[t]
    ensures after == Merge(before, events)
  {
    hide Sum, MinAt, MaxAt, Mentions, Upsert, Merge;
    forall t
      ensures t in Merge(before, events) <==> t in after
      ensures t in after ==> Merge(before, events)[t] == after[t]
    {
      MergedKeys(before, events, t);
    }
  }

  lemma MergedKeys(table: map<string, Row>, batch: seq<Event>, t: string)
    ensures t in Merge(table, batch) <==> t in table || Mentions(t, batch)
    ensures Mentions(t, batch) ==> Merge(table, batch)[t] == Upsert(table, t, Row(Sum(t, batch), MinAt(t, batch), MaxAt(t, batch)))[t]
    ensures !Mentions(t, batch) && t in table ==> Merge(table, batch)[t] == table[t]
  {
  }

  /** The table after a list of batches, in order; rows outlive the process, so it may start with any. */
  function TableFrom(start: map<string, Row>, batches: seq<seq<Event>>): map<string, Row> {
    if |batches| == 0 then start else Merge(TableFrom(start, batches[..|batches| - 1]), batches[|batches| - 1])
  }

  function CountsIn(table: map<string, Row>, t: string): Counts {
    if t in table then table[t].counts else Nothing()
  }

  function Flat(batches: seq<seq<Event>>): seq<Event> {
    if |batches| == 0 then [] else Flat(batches[..|batches| - 1]) + batches[|batches| - 1]
  }

  lemma MaxAtAppend(t: string, a: seq<Event>, b: seq<Event>)
    requires Mentions(t, a + b)
    ensures var m := MaxAt(t, a + b);
            && (Mentions(t, a) ==> MaxAt(t, a) <= m) && (Mentions(t, b) ==> MaxAt(t, b) <= m)
            && ((Mentions(t, a) && MaxAt(t, a) == m) || (Mentions(t, b) && MaxAt(t, b) == m))
  {
    var all := a + b;
    assert forall i | 0 <= i < |a| :: all[i] == a[i];
    assert forall i | 0 <= i < |b| :: all[|a| + i] == b[i];
    var k :| 0 <= k < |all| && all[k].tenant == t && all[k].at == MaxAt(t, all);
    if k < |a| {
      assert a[k].tenant == t;
    } else {
      assert b[k - |a|].tenant == t;
    }
  }

  /** One tenant's row after one more batch. */
  lemma MergedRow(table: map<string, Row>, batch: seq<Event>, t: string)
    ensures t in Merge(table, batch) <==> t in table || Mentions(t, batch)
    ensures !Mentions(t, batch) && t in table ==> Merge(table, batch)[t] == table[t]
    ensures Mentions(t, batch) && t !in table ==>
              Merge(table, batch)[t] == Row(Sum(t, batch), MinAt(t, batch), MaxAt(t, batch))
    ensures Mentions(t, batch) && t in table ==>
              Merge(table, batch)[t] == Row(Plus(table[t].counts, Sum(t, batch)), table[t].first,
                                            if table[t].last < MaxAt(t, batch) then MaxAt(t, batch) else table[t].last)
  {
  }

  function LatestFrom(start: map<string, Row>, t: string, events: seq<Event>): int
    requires t in start || Mentions(t, events)
  {
    if !Mentions(t, events) then start[t].last
    else if t in start && start[t].last > MaxAt(t, events) then start[t].last
    else MaxAt(t, events)
  }

  /** However events are batched, the table holds each tenant's exact totals, what it started with
      included, and its latest time; the first time is the one of the row it started with, else the
      earliest of the first batch that mentioned the tenant. */
  lemma {:induction false} TableIsExact(start: map<string, Row>, batches: seq<seq<Event>>, t: string)
    ensures t in TableFrom(start, batches) <==> t in start || Mentions(t, Flat(batches))
    ensures CountsIn(TableFrom(start, batches), t) == Plus(CountsIn(start, t), Sum(t, Flat(batches)))
    ensures t in TableFrom(start, batches) ==> TableFrom(start, batches)[t].last == LatestFrom(start, t, Flat(batches))
    ensures t in start ==> TableFrom(start, batches)[t].first == start[t].first
    ensures forall k | 0 <= k < |batches| && t !in start && Mentions(t, batches[k]) && !Mentions(t, Flat(batches[..k])) ::
              t in TableFrom(start, batches) && TableFrom(start, batches)[t].first == MinAt(t, batches[k])
  {
    hide Sum, MaxAt, MinAt, Mentions, Merge, Plus, Flat, TableFrom, LatestFrom;
    TablesStep(start, batches);
    if |batches| == 0 {
      NothingMerged(start, t);
    } else {
      var init, last := batches[..|batches| - 1], batches[|batches| - 1];
      TableIsExact(start, init, t);
      MergedRow(TableFrom(start, init), last, t);
      MentionsAppend(t, Flat(init), last);
      MergedCounts(start, TableFrom(start, init), Flat(init), last, t);
      if t in start || Mentions(t, Flat(batches)) {
        LatestAppend(start, t, Flat(init), last);
      }
      forall k | 0 <= k < |batches| && t !in start && Mentions(t, batches[k]) && !Mentions(t, Flat(batches[..k]))
        ensures t in TableFrom(start, batches) && TableFrom(start, batches)[t].first == MinAt(t, batches[k])
      {
        if k < |init| {
          assert init[..k] == batches[..k];
        } else {
          assert batches[..k] == init;
        }
      }
    }
  }

  lemma NothingMerged(start: map<string, Row>, t: string)
    ensures !Mentions(t, []) && Plus(CountsIn(start, t), Sum(t, [])) == CountsIn(start, t)
    ensures t in start ==> LatestFrom(start, t, []) == start[t].last
  {
    hide Sum, Mentions, Plus, MaxAt;
    NobodyMentioned(t);
    SumNothing(t);
    PlusLaws(CountsIn(start, t), Nothing(), Nothing());
  }

  /** One more batch adds its sum to a tenant's counts. */
  lemma MergedCounts(start: map<string, Row>, table: map<string, Row>, before: seq<Event>, last: seq<Event>, t: string)
    requires CountsIn(table, t) == Plus(CountsIn(start, t), Sum(t, before))
    ensures CountsIn(Merge(table, last), t) == Plus(CountsIn(start, t), Sum(t, before + last))
  {
    hide Sum, Mentions, Merge, MinAt, MaxAt;
    MergedRow(table, last, t);
    SumAppend(t, before, last);
    if !Mentions(t, last) {
      SumOfNobody(t, last);
    }
    PlusLaws(CountsIn(start, t), Sum(t, before), Sum(t, last));
    NothingPlus(Sum(t, last));
  }

  lemma LatestAppend(start: map<string, Row>, t: string, before: seq<Event>, last: seq<Event>)
    requires t in start || Mentions(t, before + last)
    ensures Mentions(t, before + last) <==> Mentions(t, before) || Mentions(t, last)
    ensures LatestFrom(start, t, before + last)
            == if !Mentions(t, last) then LatestFrom(start, t, before)
               else if (t in start || Mentions(t, before)) && LatestFrom(start, t, before) >= MaxAt(t, last) then LatestFrom(start, t, before)
               else MaxAt(t, last)
  {
    hide MaxAt, Mentions;
    MentionsAppend(t, before, last);
    if Mentions(t, before + last) {
      MaxAtAppend(t, before, last);
    }
  }

  lemma NothingPlus(c: Counts)
    ensures Plus(Nothing(), c) == c && Plus(c, Nothing()) == c
  {
  }

  lemma TablesStep(start: map<string, Row>, batches: seq<seq<Event>>)
    ensures |batches| == 0 ==> TableFrom(start, batches) == start && Flat(batches) == []
    ensures |batches| > 0 ==>
              var init, last := batches[..|batches| - 1], batches[|batches| - 1];
              TableFrom(start, batches) == Merge(TableFrom(start, init), last) && Flat(batches) == Flat(init) + last
  {
  }

  /** Is `first_seen` no later than any of the tenant's events? For a row that was there at the start,
      exactly when no event is older than it ... */
  lemma FirstSeenOfOldRow(start: map<string, Row>, batches: seq<seq<Event>>, t: string)
    requires t in start
    ensures t in TableFrom(start, batches)
    ensures (forall p | 0 <= p < |Flat(batches)| && Flat(batches)[p].tenant == t :: TableFrom(start, batches)[t].first <= Flat(batches)[p].at)
            <==> forall j, i | 0 <= j < |batches| && 0 <= i < |batches[j]| && batches[j][i].tenant == t ::
                   batches[j][i].at >= start[t].first
  {
    hide TableFrom, Flat, LatestFrom, CountsIn, Sum;
    TableIsExact(start, batches, t);
    forall j, i | 0 <= j < |batches| && 0 <= i < |batches[j]|
      ensures batches[j][i] in Flat(batches)
    {
      InFlat(batches, j, i);
    }
    forall p | 0 <= p < |Flat(batches)|
      ensures exists j, i :: 0 <= j < |batches| && 0 <= i < |batches[j]| && batches[j][i] == Flat(batches)[p]
    {
      var j, i := FlatComesFrom(batches, p);
    }
  }

  /** ... and otherwise it is the tenant's earliest event exactly when no later batch brought an older
      one than the batch that created the row. */
  lemma FirstSeenExactly(start: map<string, Row>, batches: seq<seq<Event>>, t: string, k: nat)
    requires t !in start && k < |batches| && Mentions(t, batches[k]) && !Mentions(t, Flat(batches[..k]))
    ensures Mentions(t, Flat(batches)) && t in TableFrom(start, batches)
    ensures TableFrom(start, batches)[t].first == MinAt(t, Flat(batches))
            <==> forall j, i | k < j < |batches| && 0 <= i < |batches[j]| && batches[j][i].tenant == t ::
                   batches[j][i].at >= MinAt(t, batches[k])
  {
    hide TableFrom, Flat, LatestFrom, CountsIn, Sum, MinAt;
    TableIsExact(start, batches, t);
    var m := MinAt(t, batches[k]);
    forall j, i | 0 <= j < |batches| && 0 <= i < |batches[j]|
      ensures batches[j][i] in Flat(batches)
    {
      InFlat(batches, j, i);
    }
    var lowest := MinAt(t, Flat(batches));
    var p :| 0 <= p < |Flat(batches)| && Flat(batches)[p].tenant == t && Flat(batches)[p].at == lowest;
    var j, i := FlatComesFrom(batches, p);
    if j < k {
      InFlat(batches[..k], j, i);
    }
  }

  /** It can be wrong: a second batch brings an older event. */
  lemma FirstSeenTooLate(x: Event, y: Event)
    requires x.tenant == y.tenant && y.at < x.at
    ensures x.tenant in TableFrom(map[], [[x], [y]]) && TableFrom(map[], [[x], [y]])[x.tenant].first == x.at
    ensures Mentions(x.tenant, Flat([[x], [y]])) && MinAt(x.tenant, Flat([[x], [y]])) == y.at
  {
    var t := x.tenant;
    var batches: seq<seq<Event>> := [[x], [y]];
    assert batches[0][0].tenant == t && batches[1][0].tenant == t;
    assert Flat(batches[..0]) == [];
    FirstSeenExactly(map[], batches, t, 0);
    TableIsExact(map[], batches, t);
    FlatTwo([x], [y]);
    var all := [x] + [y];
    assert all[0] == x && all[1] == y && Flat(batches) == all;
  }

  lemma FlatTwo(a: seq<Event>, b: seq<Event>)
    ensures Flat([a, b]) == a + b
  {
    assert [a, b][..1] == [a] && [a][..0] == [];
    assert Flat([a]) == [] + a;
  }

  lemma {:induction false} InFlat(batches: seq<seq<Event>>, j: nat, i: nat)
    requires j < |batches| && i < |batches[j]|
    ensures batches[j][i] in Flat(batches)
    ensures Mentions(batches[j][i].tenant, Flat(batches))
  {
    var init, last := batches[..|batches| - 1], batches[|batches| - 1];
    if j < |init| {
      InFlat(init, j, i);
      assert batches[j][i] in Flat(init);
    } else {
      assert batches[j][i] in last;
    }
    assert batches[j][i] in Flat(init) + last;
  }

  lemma {:induction false} FlatComesFrom(batches: seq<seq<Event>>, p: nat) returns (j: nat, i: nat)
    requires p < |Flat(batches)|
    ensures j < |batches| && i < |batches[j]| && batches[j][i] == Flat(batches)[p]
  {
    var init, last := batches[..|batches| - 1], batches[|batches| - 1];
    if p < |Flat(init)| {
      j, i := FlatComesFrom(init, p);
    } else {
      j, i := |init|, p - |Flat(init)|;
    }
  }
}
