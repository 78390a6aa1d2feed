/** Tier routing: configuration check and flattening (internal/config/config.go) and tier choice
    on the flat replica list (internal/types/types.go). */
module Routing {
  import opened Options

  datatype Range = Range(min: Option<real>, max: Option<real>) {
    predicate Contains(x: real) {
      (min.Some? ==> x >= min.value) && (max.Some? ==> x < max.value)
    }

    predicate WellFormed() {
      min.Some? && max.Some? ==> min.value < max.value
    }
  }

  datatype Rule = Rule(score: Range, reasoning: Range, domain: Range, creativity: Range, constraint: Range,
                       taskTypes: seq<string>)

  datatype TierRouting = TierRouting(rules: seq<Rule>, taskTypes: seq<string>, codeSignals: bool, fallback: bool)

  datatype Signals = Signals(taskType: string, score: real, reasoning: real, domain: real, creativity: real,
                             constraint: real, text: string)

  datatype Model = Model(id: string, url: string, model: string)

  /** A tier as configured, and as compiled into every replica of it. */
  datatype Tier = Tier(name: string, priority: int, routing: TierRouting, models: seq<Model>)

  datatype TierConfig = TierConfig(name: string, priority: int, routing: TierRouting)

  datatype Replica = Replica(id: string, url: string, model: string, tier: string, tierCfg: TierConfig, paramSize: int)

  // ----- Matching -----

  function ToLower(c: char): char {
    if 'A' <= c <= 'Z' then (c as int + 32) as char else c
  }

  predicate EqualFold(a: string, b: string) {
    |a| == |b| && forall i | 0 <= i < |a| :: ToLower(a[i]) == ToLower(b[i])
  }

  predicate ContainsAt(text: string, part: string, i: nat) {
    i + |part| <= |text| && text[i..i + |part|] == part
  }

  predicate Contains(text: string, part: string) {
    exists i :: 0 <= i <= |text| && ContainsAt(text, part, i)
  }

  predicate HasCode(text: string) {
    || Contains(text, "```") || Contains(text, "def ") || Contains(text, "class ") || Contains(text, "function ")
    || Contains(text, "func ") || Contains(text, "import ") || Contains(text, "package ")
  }

  predicate MatchesTaskType(allowed: seq<string>, actual: string) {
    exists t :: t in allowed && EqualFold(t, actual)
  }

  predicate RuleMatches(rule: Rule, s: Signals) {
    && (rule.taskTypes != [] ==> MatchesTaskType(rule.taskTypes, s.taskType))
    && rule.score.Contains(s.score) && rule.reasoning.Contains(s.reasoning) && rule.domain.Contains(s.domain)
    && rule.creativity.Contains(s.creativity) && rule.constraint.Contains(s.constraint)
  }

  predicate TierMatches(routing: TierRouting, s: Signals) {
    || MatchesTaskType(routing.taskTypes, s.taskType)
    || (routing.codeSignals && HasCode(s.text) && s.score < 0.60)
    || exists rule :: rule in routing.rules && RuleMatches(rule, s)
  }

  /** Names of task types are compared letter by letter, case ignored. */
  lemma FoldsLetters(c: char, d: char)
    ensures EqualFold([c], [d])
            <==> c == d || ('A' <= c <= 'Z' && d as int == c as int + 32) || ('A' <= d <= 'Z' && c as int == d as int + 32)
  {
    assert [c][0] == c && [d][0] == d;
  }

  lemma ContainsExactly(text: string, part: string)
    ensures Contains(text, part) <==> exists a: string, b: string :: text == a + part + b
  {
    if Contains(text, part) {
      var i :| 0 <= i <= |text| && ContainsAt(text, part, i);
      assert text == text[..i] + part + text[i + |part|..];
    }
    if exists a: string, b: string :: text == a + part + b {
      var a: string, b: string :| text == a + part + b;
      assert ContainsAt(text, part, |a|);
    }
  }

  /** A text has code exactly if one of seven marks stands somewhere in it. */
  lemma HasCodeExactly(text: string)
    ensures HasCode(text)
            <==> exists mark: string, a: string, b: string ::
                   mark in {"```", "def ", "class ", "function ", "func ", "import ", "package "} && text == a + mark + b
  {
    var marks := {"```", "def ", "class ", "function ", "func ", "import ", "package "};
    assert HasCode(text) <==> exists mark :: mark in marks && Contains(text, mark);
    hide HasCode;
    forall mark
      ensures Contains(text, mark) <==> exists a: string, b: string :: text == a + mark + b
    {
      ContainsExactly(text, mark);
    }
    hide Contains;
  }

  /** A range is a half-open interval: convex, with its lower end and without its upper one, and open
      where it has none. It is well-formed exactly when something lies in it. */
  lemma RangeIsInterval(r: Range, x: real, y: real, z: real)
    ensures r.Contains(x) && r.Contains(z) && x <= y <= z ==> r.Contains(y)
    ensures r.WellFormed() && r.min.Some? ==> r.Contains(r.min.value) && (x < r.min.value ==> !r.Contains(x))
    ensures r.max.Some? ==> !r.Contains(r.max.value)
    ensures r.Contains(x) && y <= x && r.min.None? ==> r.Contains(y)
    ensures r.Contains(x) && y >= x && r.max.None? ==> r.Contains(y)
    ensures r.min.None? && r.max.Some? && x < r.max.value ==> r.Contains(x)
    ensures r.WellFormed() <==> exists u :: r.Contains(u)
  {
    assert r.WellFormed() ==> r.Contains(SomePoint(r));
  }

  function SomePoint(r: Range): real {
    if r.min.Some? then r.min.value else if r.max.Some? then r.max.value - 1.0 else 0.0
  }

  /** The configuration check turns down exactly the rules that no request could ever match. */
  lemma GoodRuleExactly(rule: Rule)
    ensures GoodRule(rule) <==> exists s: Signals :: RuleMatches(rule, s)
  {
    if GoodRule(rule) {
      var task := if rule.taskTypes == [] then "" else rule.taskTypes[0];
      var s := Signals(task, SomePoint(rule.score), SomePoint(rule.reasoning), SomePoint(rule.domain),
                       SomePoint(rule.creativity), SomePoint(rule.constraint), "");
      assert rule.taskTypes != [] ==> task in rule.taskTypes && EqualFold(task, task);
      assert RuleMatches(rule, s);
    }
  }

  // ----- Checking a configuration -----

  predicate GoodRule(rule: Rule) {
    && rule.score.WellFormed() && rule.reasoning.WellFormed() && rule.domain.WellFormed()
    && rule.creativity.WellFormed() && rule.constraint.WellFormed()
  }

  predicate GoodTier(t: Tier) {
    && t.name != "" && t.priority >= 0 && t.models != []
    && (forall rule | rule in t.routing.rules :: GoodRule(rule))
    && (forall m | m in t.models :: m.id != "" && m.url != "" && m.model != "")
  }

  /** Distinct names and priorities, at most one fallback. */
  predicate Distinct(tiers: seq<Tier>) {
    forall i, j | 0 <= i < j < |tiers| ::
      && tiers[i].name != tiers[j].name && tiers[i].priority != tiers[j].priority
      && !(tiers[i].routing.fallback && tiers[j].routing.fallback)
  }

  predicate HasFallback(tiers: seq<Tier>) {
    exists t :: t in tiers && t.routing.fallback
  }

  predicate ValidTiers(tiers: seq<Tier>) {
    && tiers != [] && (forall t | t in tiers :: GoodTier(t)) && Distinct(tiers) && HasFallback(tiers)
  }

  datatype ConfigError =
    | NoTiers
    | UnnamedTier
    | NegativePriority(tier: string)
    | EmptyTier(tier: string)
    | SharedPriority(first: string, second: string)
    | DuplicateName(tier: string)
    | SecondFallback(tier: string)
    | BadRule(tier: string, rule: nat)
    | IncompleteReplica(tier: string, index: nat)
    | NoFallback

  /** An error is only reported when it is there. */
  ghost predicate Blames(tiers: seq<Tier>, e: ConfigError) {
    match e
    case NoTiers => tiers == []
    case UnnamedTier => exists t :: t in tiers && t.name == ""
    case NegativePriority(n) => exists t :: t in tiers && t.name == n && t.priority < 0
    case EmptyTier(n) => exists t :: t in tiers && t.name == n && t.models == []
    case SharedPriority(a, b) =>
      exists i, j :: 0 <= i < j < |tiers| && tiers[i].name == a && tiers[j].name == b && tiers[i].priority == tiers[j].priority
    case DuplicateName(n) => exists i, j :: 0 <= i < j < |tiers| && tiers[i].name == n && tiers[j].name == n
    case SecondFallback(n) =>
      exists i, j :: 0 <= i < j < |tiers| && tiers[j].name == n && tiers[i].routing.fallback && tiers[j].routing.fallback
    case BadRule(n, k) => exists t :: t in tiers && t.name == n && k < |t.routing.rules| && !GoodRule(t.routing.rules[k])
    case IncompleteReplica(n, k) =>
      exists t :: t in tiers && t.name == n && k < |t.models| && (t.models[k].id == "" || t.models[k].url == "" || t.models[k].model == "")
    case NoFallback => !HasFallback(tiers)
  }

  lemma BlameMeansInvalid(tiers: seq<Tier>, e: ConfigError)
    requires Blames(tiers, e)
    ensures !ValidTiers(tiers)
  {
    match e
    case BadRule(n, k) =>
      var t :| t in tiers && t.name == n && k < |t.routing.rules| && !GoodRule(t.routing.rules[k]);
      assert t.routing.rules[k] in t.routing.rules && !GoodTier(t);
    case IncompleteReplica(n, k) =>
      var t :| t in tiers && t.name == n && k < |t.models| && (t.models[k].id == "" || t.models[k].url == "" || t.models[k].model == "");
      assert t.models[k] in t.models && !GoodTier(t);
    case _ =>
  }

  method Validate(tiers: seq<Tier>) returns (error: Option<ConfigError>)
    ensures error.None? <==> ValidTiers(tiers)
    ensures error.Some? ==> Blames(tiers, error.value)
  {
    error := CheckTiers(tiers);
    if error.Some? {
      BlameMeansInvalid(tiers, error.value);
    }
  }

  method CheckTiers(tiers: seq<Tier>) returns (error: Option<ConfigError>)
    ensures error.None? ==> ValidTiers(tiers)
    ensures error.Some? ==> Blames(tiers, error.value)
  {
    hide GoodRule, Distinct, GoodTier;
    if |tiers| == 0 {
      return Some(NoTiers);
    }
    NothingDistinct(tiers);
    var priorities: map<int, string> := map[];
    var names: set<string> := {};
    var hasFallback := false;
    for i := 0 to |tiers|
      invariant forall p :: p in priorities <==> exists k :: 0 <= k < i && tiers[k].priority == p
      invariant forall p | p in priorities :: exists k :: 0 <= k < i && tiers[k].priority == p && tiers[k].name == priorities[p]
      invariant forall n :: n in names <==> exists k :: 0 <= k < i && tiers[k].name == n
      invariant hasFallback <==> exists k :: 0 <= k < i && tiers[k].routing.fallback
      invariant forall k | 0 <= k < i :: GoodTier(tiers[k])
      invariant Distinct(tiers[..i])
    {
      var t := tiers[i];
      assert t in tiers;
      if t.name == "" {
        return Some(UnnamedTier);
      }
      if t.priority < 0 {
        return Some(NegativePriority(t.name));
      }
      if |t.models| == 0 {
        return Some(EmptyTier(t.name));
      }
      if t.priority in priorities {
        return Some(SharedPriority(priorities[t.priority], t.name));
      }
      if t.name in names {
        return Some(DuplicateName(t.name));
      }
      priorities := priorities[t.priority := t.name];
      names := names + {t.name};
      if t.routing.fallback {
        if hasFallback {
          return Some(SecondFallback(t.name));
        }
        hasFallback := true;
      }
      error := CheckTierBody(tiers, t);
      if error.Some? {
        return;
      }
      DistinctOneMore(tiers, i);
    }
    if !hasFallback {
      return Some(NoFallback);
    }
    assert tiers[..|tiers|] == tiers;
    return None;
  }

  lemma NothingDistinct(tiers: seq<Tier>)
    ensures Distinct(tiers[..0])
  {
  }

  lemma DistinctOneMore(tiers: seq<Tier>, i: nat)
    requires i < |tiers| && Distinct(tiers[..i])
    requires forall k | 0 <= k < i ::
               && tiers[k].name != tiers[i].name && tiers[k].priority != tiers[i].priority
               && !(tiers[k].routing.fallback && tiers[i].routing.fallback)
    ensures Distinct(tiers[..i + 1])
  {
    assert forall k | 0 <= k < i :: tiers[..i][k] == tiers[k];
  }

  /** The part of a tier's check that comes after its name, priority and fallback flag. */
  method CheckTierBody(tiers: seq<Tier>, t: Tier) returns (error: Option<ConfigError>)
    requires t in tiers && t.name != "" && t.priority >= 0 && t.models != []
    ensures error.None? ==> GoodTier(t)
    ensures error.Some? ==> Blames(tiers, error.value)
  {
    hide GoodRule;
    var bad := FirstBadRule(t.routing.rules);
    if bad < |t.routing.rules| {
      return Some(BadRule(t.name, bad));
    }
    var incomplete := FirstIncomplete(t.models);
    if incomplete < |t.models| {
      return Some(IncompleteReplica(t.name, incomplete));
    }
    return None;
  }

  method FirstBadRule(rules: seq<Rule>) returns (k: nat)
    ensures k <= |rules| && (k < |rules| ==> !GoodRule(rules[k]))
    ensures forall i | 0 <= i < k :: GoodRule(rules[i])
  {
    k := 0;
    while k < |rules| && GoodRule(rules[k])
      invariant k <= |rules| && forall i | 0 <= i < k :: GoodRule(rules[i])
    {
      k := k + 1;
    }
  }

  method FirstIncomplete(models: seq<Model>) returns (k: nat)
    ensures k <= |models| && (k < |models| ==> models[k].id == "" || models[k].url == "" || models[k].model == "")
    ensures forall i | 0 <= i < k :: models[i].id != "" && models[i].url != "" && models[i].model != ""
  {
    k := 0;
    while k < |models| && models[k].id != "" && models[k].url != "" && models[k].model != ""
      invariant k <= |models|
      invariant forall i | 0 <= i < k :: models[i].id != "" && models[i].url != "" && models[i].model != ""
    {
      k := k + 1;
    }
  }

  // ----- Sorting and flattening -----

  predicate SortedTiers(tiers: seq<Tier>) {
    forall i, j | 0 <= i < j < |tiers| :: tiers[i].priority <= tiers[j].priority
  }

  /** What any sort by priority may return. */
  ghost predicate IsSortOf(sorted: seq<Tier>, tiers: seq<Tier>) {
    multiset(sorted) == multiset(tiers) && SortedTiers(sorted)
  }

  /** The parameter count read off a model name; the program uses a regular expression. */
  type SizeOf = string -> int

  function Compile(t: Tier): TierConfig {
    TierConfig(t.name, t.priority, t.routing)
  }

  function TierReplicas(sizeOf: SizeOf, t: Tier): seq<Replica> {
    seq(|t.models|, i requires 0 <= i < |t.models| =>
      Replica(t.models[i].id, t.models[i].url, t.models[i].model, t.name, Compile(t), sizeOf(t.models[i].model)))
  }

  function Flatten(sizeOf: SizeOf, sorted: seq<Tier>): seq<Replica> {
    if |sorted| == 0 then [] else Flatten(sizeOf, sorted[..|sorted| - 1]) + TierReplicas(sizeOf, sorted[|sorted| - 1])
  }

  /** `sorted` is the copy that the library's sort has put in priority order. */
  method ToReplicaList(sizeOf: SizeOf, sorted: seq<Tier>) returns (replicas: seq<Replica>)
    ensures replicas == Flatten(sizeOf, sorted)
  {
    replicas := [];
    for i := 0 to |sorted|
      invariant replicas == Flatten(sizeOf, sorted[..i])
    {
      var t := sorted[i];
      ghost var before := replicas;
      for j := 0 to |t.models|
        invariant replicas == before + TierReplicas(sizeOf, t)[..j]
      {
        var m := t.models[j];
        replicas := replicas + [Replica(m.id, m.url, m.model, t.name, Compile(t), sizeOf(m.model))];
      }
      assert TierReplicas(sizeOf, t)[..|t.models|] == TierReplicas(sizeOf, t);
      assert sorted[..i + 1][..i] == sorted[..i];
    }
    assert sorted[..|sorted|] == sorted;
  }

  /** How many models a list of tiers has. */
  function ModelCount(tiers: seq<Tier>): nat {
    if |tiers| == 0 then 0 else ModelCount(tiers[..|tiers| - 1]) + |tiers[|tiers| - 1].models|
  }

  /** The replica that stands for a model of a tier. */
  predicate StandsFor(sizeOf: SizeOf, r: Replica, t: Tier, m: Model) {
    && r.id == m.id && r.url == m.url && r.model == m.model && r.tier == t.name && r.paramSize == sizeOf(m.model)
    && r.tierCfg.name == t.name && r.tierCfg.priority == t.priority && r.tierCfg.routing == t.routing
  }

  /** Nothing is lost, repeated or made up: the flat list has one replica for each model, in the order of
      the tiers and of the models in them. */
  lemma {:induction false} FlattenAt(sizeOf: SizeOf, sorted: seq<Tier>, i: nat, j: nat)
    requires i < |sorted| && j < |sorted[i].models|
    ensures |Flatten(sizeOf, sorted)| == ModelCount(sorted)
    ensures ModelCount(sorted[..i]) + j < |Flatten(sizeOf, sorted)|
    ensures StandsFor(sizeOf, Flatten(sizeOf, sorted)[ModelCount(sorted[..i]) + j], sorted[i], sorted[i].models[j])
  {
    hide StandsFor, TierReplicas;
    var n := |sorted| - 1;
    FlattenCount(sizeOf, sorted);
    FlattenCount(sizeOf, sorted[..n]);
    if i < n {
      FlattenAt(sizeOf, sorted[..n], i, j);
      assert sorted[..n][..i] == sorted[..i] && sorted[..n][i] == sorted[i];
    } else {
      TierReplicaAt(sizeOf, sorted[n], j);
    }
  }

  lemma TierReplicaAt(sizeOf: SizeOf, t: Tier, j: nat)
    requires j < |t.models|
    ensures j < |TierReplicas(sizeOf, t)| && StandsFor(sizeOf, TierReplicas(sizeOf, t)[j], t, t.models[j])
  {
  }

  lemma {:induction false} FlattenCount(sizeOf: SizeOf, sorted: seq<Tier>)
    ensures |Flatten(sizeOf, sorted)| == ModelCount(sorted)
  {
    if |sorted| > 0 {
      FlattenCount(sizeOf, sorted[..|sorted| - 1]);
    }
  }

  lemma {:induction false} FlattenFrom(sizeOf: SizeOf, sorted: seq<Tier>, k: nat) returns (i: nat, j: nat)
    requires k < |Flatten(sizeOf, sorted)|
    ensures i < |sorted| && j < |sorted[i].models| && k == ModelCount(sorted[..i]) + j
  {
    var n := |sorted| - 1;
    FlattenCount(sizeOf, sorted[..n]);
    if k < |Flatten(sizeOf, sorted[..n])| {
      i, j := FlattenFrom(sizeOf, sorted[..n], k);
      assert sorted[..n][..i] == sorted[..i] && sorted[..n][i] == sorted[i];
    } else {
      i, j := n, k - |Flatten(sizeOf, sorted[..n])|;
    }
  }

  /** On the flat list of any configuration, whatever sort was used: each model of each tier has its
      replica and each replica stands for a model. */
  lemma FlattenIsExact(sizeOf: SizeOf, tiers: seq<Tier>, sorted: seq<Tier>)
    requires IsSortOf(sorted, tiers)
    ensures forall t, m | t in tiers && m in t.models :: exists r :: r in Flatten(sizeOf, sorted) && StandsFor(sizeOf, r, t, m)
    ensures forall r | r in Flatten(sizeOf, sorted) :: exists t, m :: t in tiers && m in t.models && StandsFor(sizeOf, r, t, m)
  {
    hide StandsFor, Flatten, SortedTiers;
    SameTiers(sorted, tiers);
    var flat := Flatten(sizeOf, sorted);
    forall t, m | t in tiers && m in t.models
      ensures exists r :: r in flat && StandsFor(sizeOf, r, t, m)
    {
      var i :| 0 <= i < |sorted| && sorted[i] == t;
      var j :| 0 <= j < |t.models| && t.models[j] == m;
      FlattenAt(sizeOf, sorted, i, j);
      assert flat[ModelCount(sorted[..i]) + j] in flat;
    }
    forall r | r in flat
      ensures exists t, m :: t in tiers && m in t.models && StandsFor(sizeOf, r, t, m)
    {
      var k :| 0 <= k < |flat| && flat[k] == r;
      var i, j := FlattenFrom(sizeOf, sorted, k);
      FlattenAt(sizeOf, sorted, i, j);
      assert sorted[i] in tiers && sorted[i].models[j] in sorted[i].models;
    }
  }

  /** On the list of a checked configuration every replica can be addressed. */
  lemma ReplicasAreComplete(sizeOf: SizeOf, tiers: seq<Tier>, sorted: seq<Tier>)
    requires ValidTiers(tiers) && IsSortOf(sorted, tiers)
    ensures Flatten(sizeOf, sorted) != []
    ensures forall r | r in Flatten(sizeOf, sorted) :: r.id != "" && r.url != "" && r.model != "" && r.tier != ""
  {
    FlattenIsExact(sizeOf, tiers, sorted);
    hide Flatten, IsSortOf, GoodRule, Distinct;
    var t := tiers[0];
    assert t in tiers && GoodTier(t) && t.models[0] in t.models;
    forall r | r in Flatten(sizeOf, sorted)
      ensures r.id != "" && r.url != "" && r.model != "" && r.tier != ""
    {
      var u, m :| u in tiers && m in u.models && StandsFor(sizeOf, r, u, m);
      assert GoodTier(u);
    }
  }

  // ----- Choosing a tier -----

  /** A replica's tier is looked at once, at its first replica, and not when it is the fallback. */
  predicate Hit(replicas: seq<Replica>, s: Signals, i: nat)
    requires i < |replicas|
  {
    && (forall j | 0 <= j < i :: replicas[j].tierCfg.name != replicas[i].tierCfg.name)
    && !replicas[i].tierCfg.routing.fallback
    && TierMatches(replicas[i].tierCfg.routing, s)
  }

  /** The first of greatest parameter count among the first n replicas. */
  predicate IsLargest(replicas: seq<Replica>, n: nat, k: nat)
    requires n <= |replicas|
  {
    && k < n
    && forall j | 0 <= j < n ::
         replicas[j].paramSize <= replicas[k].paramSize && (j < k ==> replicas[j].paramSize < replicas[k].paramSize)
  }

  /** What the choice on a flat list is, for any list. */
  ghost predicate Selects(replicas: seq<Replica>, s: Signals, tier: string) {
    if exists i :: 0 <= i < |replicas| && Hit(replicas, s, i) then
      exists i :: 0 <= i < |replicas| && Hit(replicas, s, i) && tier == replicas[i].tierCfg.name
                  && forall j | 0 <= j < i :: !Hit(replicas, s, j)
    else if exists i :: 0 <= i < |replicas| && replicas[i].tierCfg.routing.fallback then
      exists i :: 0 <= i < |replicas| && replicas[i].tierCfg.routing.fallback && tier == replicas[i].tierCfg.name
                  && forall j | 0 <= j < i :: !replicas[j].tierCfg.routing.fallback
    else exists k: nat :: IsLargest(replicas, |replicas|, k) && tier == replicas[k].tier
  }

  /** Some replica before which all are smaller. */
  ghost predicate FirstLargest(replicas: seq<Replica>, tier: string) {
    exists k: nat :: k < |replicas| && tier == replicas[k].tier && forall j | 0 <= j < k :: replicas[j].paramSize < replicas[k].paramSize
  }

  ghost predicate NoneLarger(replicas: seq<Replica>, tier: string) {
    forall r | r in replicas :: exists l :: l in replicas && l.tier == tier && r.paramSize <= l.paramSize
  }

  /** The tier of the largest replica; of several largest, the first decides. */
  method LargestTier(replicas: seq<Replica>) returns (tier: string)
    requires replicas != []
    ensures exists k: nat :: k < |replicas| && IsLargest(replicas, |replicas|, k) && tier == replicas[k].tier
    ensures FirstLargest(replicas, tier) && NoneLarger(replicas, tier)
  {
    var largest := replicas[0];
    ghost var k: nat := 0;
    for i := 1 to |replicas|
      invariant IsLargest(replicas, i, k) && largest == replicas[k]
    {
      if replicas[i].paramSize > largest.paramSize {
        largest := replicas[i];
        k := i;
      }
    }
    tier := largest.tier;
    assert IsLargest(replicas, |replicas|, k) && replicas[k] in replicas;
  }

  method TierForClassification(replicas: seq<Replica>, s: Signals) returns (tier: string)
    requires replicas != []
    ensures Selects(replicas, s, tier)
  {
    hide TierMatches, IsLargest, Selects;
    var seen: set<string> := {};
    for i := 0 to |replicas|
      invariant forall n :: n in seen <==> exists j :: 0 <= j < i && replicas[j].tierCfg.name == n
      invariant forall j | 0 <= j < i :: !Hit(replicas, s, j)
    {
      var t := replicas[i].tierCfg;
      if t.name in seen {
        continue;
      }
      seen := seen + {t.name};
      if t.routing.fallback {
        continue;
      }
      if TierMatches(t.routing, s) {
        assert Hit(replicas, s, i);
        FirstHitSelects(replicas, s, i);
        return t.name;
      }
    }
    tier := FallbackTier(replicas, s);
  }

  lemma FirstHitSelects(replicas: seq<Replica>, s: Signals, i: nat)
    requires i < |replicas| && Hit(replicas, s, i) && forall j | 0 <= j < i :: !Hit(replicas, s, j)
    ensures Selects(replicas, s, replicas[i].tierCfg.name)
  {
    hide Hit;
  }

  lemma FirstFallbackSelects(replicas: seq<Replica>, s: Signals, i: nat)
    requires forall j | 0 <= j < |replicas| :: !Hit(replicas, s, j)
    requires i < |replicas| && replicas[i].tierCfg.routing.fallback && forall j | 0 <= j < i :: !replicas[j].tierCfg.routing.fallback
    ensures Selects(replicas, s, replicas[i].tierCfg.name)
  {
    hide Hit, IsLargest;
  }

  lemma LargestSelects(replicas: seq<Replica>, s: Signals, k: nat)
    requires forall j | 0 <= j < |replicas| :: !Hit(replicas, s, j) && !replicas[j].tierCfg.routing.fallback
    requires IsLargest(replicas, |replicas|, k)
    ensures Selects(replicas, s, replicas[k].tier)
  {
    hide Hit;
    assert k < |replicas|;
    hide IsLargest;
  }

  /** Nothing matched explicitly. */
  method FallbackTier(replicas: seq<Replica>, s: Signals) returns (tier: string)
    requires replicas != [] && forall i | 0 <= i < |replicas| :: !Hit(replicas, s, i)
    ensures Selects(replicas, s, tier)
  {
    hide Hit, IsLargest, Selects, FirstLargest, NoneLarger;
    for i := 0 to |replicas|
      invariant forall j | 0 <= j < i :: !replicas[j].tierCfg.routing.fallback
    {
      if replicas[i].tierCfg.routing.fallback {
        FirstFallbackSelects(replicas, s, i);
        return replicas[i].tierCfg.name;
      }
    }
    tier := LargestTier(replicas);
    ghost var k: nat :| k < |replicas| && IsLargest(replicas, |replicas|, k) && tier == replicas[k].tier;
    LargestSelects(replicas, s, k);
  }

  function PriorityOf(replicas: seq<Replica>, name: string): int {
    if replicas == [] then -1
    else if replicas[0].tierCfg.name == name then replicas[0].tierCfg.priority
    else PriorityOf(replicas[1..], name)
  }

  /** On a tie, and in particular when both are unknown, the first argument wins. */
  function HigherTier(replicas: seq<Replica>, a: string, b: string): string {
    if PriorityOf(replicas, a) >= PriorityOf(replicas, b) then a else b
  }

  // ----- Flattening preserves the meaning of the configuration -----

  /** The tier the configuration asks for: the matching non-fallback tier of lowest priority
      number, else the fallback. */
  ghost predicate Wanted(tiers: seq<Tier>, s: Signals, name: string) {
    || (exists t :: t in tiers && t.name == name && !t.routing.fallback && TierMatches(t.routing, s)
                    && forall u | u in tiers && !u.routing.fallback && TierMatches(u.routing, s) :: t.priority <= u.priority)
    || ((forall u | u in tiers && !u.routing.fallback :: !TierMatches(u.routing, s))
        && exists t :: t in tiers && t.routing.fallback && t.name == name)
  }

  predicate IsReplicaOf(r: Replica, t: Tier) {
    r.tierCfg == Compile(t) && r.tier == t.name
  }

  ghost predicate FromTier(r: Replica, tiers: seq<Tier>) {
    exists t :: t in tiers && IsReplicaOf(r, t)
  }

  ghost predicate HasReplica(t: Tier, replicas: seq<Replica>) {
    exists r :: r in replicas && IsReplicaOf(r, t)
  }

  ghost predicate ByPriority(replicas: seq<Replica>) {
    forall i, j | 0 <= i < j < |replicas| :: replicas[i].tierCfg.priority <= replicas[j].tierCfg.priority
  }

  /** What a flat list keeps of its tiers: each replica belongs to one, each has a replica, and
      replicas come in priority order. */
  ghost predicate Represents(replicas: seq<Replica>, tiers: seq<Tier>) {
    && (forall r | r in replicas :: FromTier(r, tiers))
    && (forall t | t in tiers :: HasReplica(t, replicas))
    && ByPriority(replicas)
  }

  lemma {:induction false} FlattenRepresents(sizeOf: SizeOf, sorted: seq<Tier>)
    requires SortedTiers(sorted) && forall t | t in sorted :: t.models != []
    ensures Represents(Flatten(sizeOf, sorted), sorted)
  {
    hide Compile;
    if |sorted| > 0 {
      var init, last := sorted[..|sorted| - 1], sorted[|sorted| - 1];
      assert sorted == init + [last];
      FlattenRepresents(sizeOf, init);
      TierRepresents(sizeOf, last);
      AppendRepresents(Flatten(sizeOf, init), init, TierReplicas(sizeOf, last), last);
    }
  }

  lemma TierRepresents(sizeOf: SizeOf, t: Tier)
    requires t.models != []
    ensures forall r | r in TierReplicas(sizeOf, t) :: IsReplicaOf(r, t)
    ensures TierReplicas(sizeOf, t) != []
  {
  }

  lemma AppendRepresents(head: seq<Replica>, init: seq<Tier>, tail: seq<Replica>, last: Tier)
    requires Represents(head, init) && SortedTiers(init + [last])
    requires tail != [] && forall r | r in tail :: IsReplicaOf(r, last)
    ensures Represents(head + tail, init + [last])
  {
    hide SortedTiers, ByPriority, IsReplicaOf;
    var all, tiers := head + tail, init + [last];
    assert tail[0] in tail && tail[0] in all && last in tiers;
    forall r | r in all
      ensures FromTier(r, tiers)
    {
      if r in head {
        assert FromTier(r, init);
        var t :| t in init && IsReplicaOf(r, t);
        assert t in tiers;
      }
    }
    forall t | t in tiers
      ensures HasReplica(t, all)
    {
      if t in init {
        assert HasReplica(t, head);
        var r :| r in head && IsReplicaOf(r, t);
        assert r in all;
      }
    }
    AppendKeepsOrder(head, init, tail, last);
  }

  lemma AppendKeepsOrder(head: seq<Replica>, init: seq<Tier>, tail: seq<Replica>, last: Tier)
    requires ByPriority(head) && SortedTiers(init + [last])
    requires forall r | r in head :: FromTier(r, init)
    requires forall r | r in tail :: IsReplicaOf(r, last)
    ensures ByPriority(head + tail)
  {
    forall r | r in head
      ensures r.tierCfg.priority <= last.priority
    {
      LastTierIsHighest(r, init, last);
    }
    hide FromTier, SortedTiers;
    var all := head + tail;
    forall i, j | 0 <= i < j < |all|
      ensures all[i].tierCfg.priority <= all[j].tierCfg.priority
    {
      if j < |head| {
        assert all[i] == head[i] && all[j] == head[j];
      } else {
        assert all[j] in tail;
        assert if i < |head| then all[i] in head else all[i] in tail;
      }
    }
  }

  lemma LastTierIsHighest(r: Replica, init: seq<Tier>, last: Tier)
    requires FromTier(r, init) && SortedTiers(init + [last])
    ensures r.tierCfg.priority <= last.priority
  {
    var t :| t in init && IsReplicaOf(r, t);
    var k :| 0 <= k < |init| && init[k] == t;
    assert (init + [last])[k] == t && (init + [last])[|init|] == last;
  }

  lemma SameTiers(sorted: seq<Tier>, tiers: seq<Tier>)
    requires multiset(sorted) == multiset(tiers)
    ensures forall t :: t in sorted <==> t in tiers
  {
    assert forall t :: t in sorted <==> t in multiset(sorted);
    assert forall t :: t in tiers <==> t in multiset(tiers);
  }

  lemma ByName(tiers: seq<Tier>, t: Tier, u: Tier)
    requires Distinct(tiers) && t in tiers && u in tiers
    ensures t.name == u.name || t.priority == u.priority || (t.routing.fallback && u.routing.fallback) ==> t == u
  {
    var i :| 0 <= i < |tiers| && tiers[i] == t;
    var j :| 0 <= j < |tiers| && tiers[j] == u;
    if i < j {
      assert tiers[i].name != tiers[j].name;
    } else if j < i {
      assert tiers[j].name != tiers[i].name;
    }
  }

  /** The first replica of a tier. */
  lemma FirstReplica(replicas: seq<Replica>, name: string, n: nat) returns (k: nat)
    requires n < |replicas| && replicas[n].tierCfg.name == name
    ensures k <= n && replicas[k].tierCfg.name == name
    ensures forall j | 0 <= j < k :: replicas[j].tierCfg.name != name
  {
    k := 0;
    while replicas[k].tierCfg.name != name
      invariant k <= n && forall j | 0 <= j < k :: replicas[j].tierCfg.name != name
      decreases n - k
    {
      k := k + 1;
    }
  }

  lemma MatchingTierHits(replicas: seq<Replica>, tiers: seq<Tier>, s: Signals, u: Tier) returns (k: nat)
    requires ValidTiers(tiers) && Represents(replicas, tiers)
    requires u in tiers && !u.routing.fallback && TierMatches(u.routing, s)
    ensures k < |replicas| && Hit(replicas, s, k) && replicas[k].tierCfg == Compile(u)
  {
    hide TierMatches, GoodTier, HasFallback, Distinct, ByPriority;
    assert HasReplica(u, replicas);
    var r :| r in replicas && IsReplicaOf(r, u);
    var n :| 0 <= n < |replicas| && replicas[n] == r;
    k := FirstReplica(replicas, u.name, n);
    assert replicas[k] in replicas && FromTier(replicas[k], tiers);
    var t :| t in tiers && IsReplicaOf(replicas[k], t);
    ByName(tiers, t, u);
  }

  /** On the flat list of a checked configuration, whatever sort was used, the tier chosen is the
      one the configuration asks for; the largest-model escape is never taken. */
  lemma FlatteningPreservesChoice(sizeOf: SizeOf, tiers: seq<Tier>, sorted: seq<Tier>, s: Signals, tier: string)
    requires ValidTiers(tiers) && IsSortOf(sorted, tiers)
    requires Selects(Flatten(sizeOf, sorted), s, tier)
    ensures Wanted(tiers, s, tier)
    ensures forall other :: Wanted(tiers, s, other) ==> other == tier
  {
    hide Flatten, Selects, Wanted, ValidTiers, Represents;
    SortedRepresents(sizeOf, tiers, sorted);
    var replicas := Flatten(sizeOf, sorted);
    ChoiceIsWanted(replicas, tiers, s, tier);
    forall other | Wanted(tiers, s, other)
      ensures other == tier
    {
      WantedIsUnique(tiers, s, tier, other);
    }
  }

  lemma ChoiceIsWanted(replicas: seq<Replica>, tiers: seq<Tier>, s: Signals, tier: string)
    requires ValidTiers(tiers) && Represents(replicas, tiers) && Selects(replicas, s, tier)
    ensures Wanted(tiers, s, tier)
  {
    hide TierMatches, GoodTier, IsLargest, Distinct, Hit;
    if exists i :: 0 <= i < |replicas| && Hit(replicas, s, i) {
      var i :| 0 <= i < |replicas| && Hit(replicas, s, i) && tier == replicas[i].tierCfg.name
               && forall j | 0 <= j < i :: !Hit(replicas, s, j);
      FirstHitIsWanted(replicas, tiers, s, i);
    } else {
      FallbackIsWanted(replicas, tiers, s, tier);
    }
  }

  lemma FallbackIsWanted(replicas: seq<Replica>, tiers: seq<Tier>, s: Signals, tier: string)
    requires ValidTiers(tiers) && Represents(replicas, tiers) && Selects(replicas, s, tier)
    requires forall i | 0 <= i < |replicas| :: !Hit(replicas, s, i)
    ensures Wanted(tiers, s, tier)
  {
    NoTierMatches(replicas, tiers, s);
    var n := FallbackReplica(replicas, tiers);
    var i := SelectedFallback(replicas, s, tier, n);
    hide TierMatches, ValidTiers, Hit, Selects;
    var t := TierOfReplica(replicas, tiers, i);
  }

  lemma NoTierMatches(replicas: seq<Replica>, tiers: seq<Tier>, s: Signals)
    requires ValidTiers(tiers) && Represents(replicas, tiers)
    requires forall i | 0 <= i < |replicas| :: !Hit(replicas, s, i)
    ensures forall u | u in tiers && !u.routing.fallback :: !TierMatches(u.routing, s)
  {
    hide TierMatches, ValidTiers, Represents, Hit;
    forall u | u in tiers && !u.routing.fallback
      ensures !TierMatches(u.routing, s)
    {
      if TierMatches(u.routing, s) {
        var k := MatchingTierHits(replicas, tiers, s, u);
      }
    }
  }

  lemma FallbackReplica(replicas: seq<Replica>, tiers: seq<Tier>) returns (n: nat)
    requires ValidTiers(tiers) && Represents(replicas, tiers)
    ensures n < |replicas| && replicas[n].tierCfg.routing.fallback
  {
    hide GoodTier, Distinct, ByPriority, FromTier;
    var f :| f in tiers && f.routing.fallback;
    assert HasReplica(f, replicas);
    var r :| r in replicas && IsReplicaOf(r, f);
    n :| 0 <= n < |replicas| && replicas[n] == r;
  }

  lemma SelectedFallback(replicas: seq<Replica>, s: Signals, tier: string, n: nat) returns (i: nat)
    requires Selects(replicas, s, tier) && forall j | 0 <= j < |replicas| :: !Hit(replicas, s, j)
    requires n < |replicas| && replicas[n].tierCfg.routing.fallback
    ensures i < |replicas| && replicas[i].tierCfg.routing.fallback && replicas[i].tierCfg.name == tier
  {
    hide Hit, IsLargest;
    i :| 0 <= i < |replicas| && replicas[i].tierCfg.routing.fallback && tier == replicas[i].tierCfg.name;
  }

  lemma FirstHitIsWanted(replicas: seq<Replica>, tiers: seq<Tier>, s: Signals, i: nat)
    requires ValidTiers(tiers) && Represents(replicas, tiers)
    requires i < |replicas| && Hit(replicas, s, i) && forall j | 0 <= j < i :: !Hit(replicas, s, j)
    ensures Wanted(tiers, s, replicas[i].tierCfg.name)
  {
    var t := TierOfReplica(replicas, tiers, i);
    hide TierMatches, ValidTiers, Represents;
    forall u | u in tiers && !u.routing.fallback && TierMatches(u.routing, s)
      ensures t.priority <= u.priority
    {
      HitOrder(replicas, tiers, s, i, u);
    }
  }

  lemma TierOfReplica(replicas: seq<Replica>, tiers: seq<Tier>, i: nat) returns (t: Tier)
    requires Represents(replicas, tiers) && i < |replicas|
    ensures t in tiers && IsReplicaOf(replicas[i], t)
  {
    hide ByPriority, HasReplica;
    assert replicas[i] in replicas && FromTier(replicas[i], tiers);
    t :| t in tiers && IsReplicaOf(replicas[i], t);
  }

  lemma HitOrder(replicas: seq<Replica>, tiers: seq<Tier>, s: Signals, i: nat, u: Tier)
    requires ValidTiers(tiers) && Represents(replicas, tiers)
    requires i < |replicas| && forall j | 0 <= j < i :: !Hit(replicas, s, j)
    requires u in tiers && !u.routing.fallback && TierMatches(u.routing, s)
    ensures replicas[i].tierCfg.priority <= u.priority
  {
    hide TierMatches, ValidTiers, Hit, FromTier, HasReplica;
    var k := MatchingTierHits(replicas, tiers, s, u);
    assert i <= k;
  }

  lemma WantedIsUnique(tiers: seq<Tier>, s: Signals, a: string, b: string)
    requires ValidTiers(tiers) && Wanted(tiers, s, a) && Wanted(tiers, s, b)
    ensures a == b
  {
    hide TierMatches, GoodTier, Distinct;
    if exists u :: u in tiers && !u.routing.fallback && TierMatches(u.routing, s) {
      var t :| t in tiers && t.name == a && !t.routing.fallback && TierMatches(t.routing, s)
               && forall u | u in tiers && !u.routing.fallback && TierMatches(u.routing, s) :: t.priority <= u.priority;
      var u :| u in tiers && u.name == b && !u.routing.fallback && TierMatches(u.routing, s)
               && forall v | v in tiers && !v.routing.fallback && TierMatches(v.routing, s) :: u.priority <= v.priority;
      ByName(tiers, t, u);
    } else {
      var t :| t in tiers && t.routing.fallback && t.name == a;
      var u :| u in tiers && u.routing.fallback && u.name == b;
      ByName(tiers, t, u);
    }
  }

  lemma {:induction false} PriorityFound(replicas: seq<Replica>, name: string)
    ensures (forall r | r in replicas :: r.tierCfg.name != name) ==> PriorityOf(replicas, name) == -1
    ensures (exists r :: r in replicas && r.tierCfg.name == name) ==>
              exists r :: r in replicas && r.tierCfg.name == name && PriorityOf(replicas, name) == r.tierCfg.priority
  {
    if replicas != [] {
      assert replicas[0] in replicas;
      assert forall r :: r in replicas <==> r == replicas[0] || r in replicas[1..];
      if replicas[0].tierCfg.name != name {
        PriorityFound(replicas[1..], name);
      }
    }
  }

  /** A tier's priority, looked up on the flat list, is the configured one; other names get -1,
      which is below every configured priority. */
  lemma PriorityIsConfigured(sizeOf: SizeOf, tiers: seq<Tier>, sorted: seq<Tier>, name: string)
    requires ValidTiers(tiers) && IsSortOf(sorted, tiers)
    ensures forall t | t in tiers && t.name == name :: PriorityOf(Flatten(sizeOf, sorted), name) == t.priority
    ensures (forall t | t in tiers :: t.name != name) ==> PriorityOf(Flatten(sizeOf, sorted), name) == -1
    ensures PriorityOf(Flatten(sizeOf, sorted), name) >= 0 <==> exists t :: t in tiers && t.name == name
  {
    var replicas := Flatten(sizeOf, sorted);
    SortedRepresents(sizeOf, tiers, sorted);
    hide Flatten, PriorityOf, ValidTiers, Represents;
    forall t | t in tiers && t.name == name
      ensures PriorityOf(replicas, name) == t.priority && t.priority >= 0
    {
      TierPriority(replicas, tiers, t);
    }
    if forall t | t in tiers :: t.name != name {
      UnknownPriority(replicas, tiers, name);
    }
  }

  lemma SortedRepresents(sizeOf: SizeOf, tiers: seq<Tier>, sorted: seq<Tier>)
    requires ValidTiers(tiers) && IsSortOf(sorted, tiers)
    ensures Represents(Flatten(sizeOf, sorted), tiers)
  {
    hide Flatten, ByPriority, FromTier, HasReplica, Distinct;
    SameTiers(sorted, tiers);
    assert forall t | t in sorted :: GoodTier(t);
    FlattenRepresents(sizeOf, sorted);
    forall r | r in Flatten(sizeOf, sorted)
      ensures FromTier(r, tiers)
    {
      SameOrigin(r, sorted, tiers);
    }
  }

  lemma SameOrigin(r: Replica, sorted: seq<Tier>, tiers: seq<Tier>)
    requires FromTier(r, sorted) && forall t :: t in sorted <==> t in tiers
    ensures FromTier(r, tiers)
  {
  }

  lemma UnknownPriority(replicas: seq<Replica>, tiers: seq<Tier>, name: string)
    requires Represents(replicas, tiers) && forall t | t in tiers :: t.name != name
    ensures PriorityOf(replicas, name) == -1
  {
    hide PriorityOf, ByPriority, HasReplica;
    forall r | r in replicas
      ensures r.tierCfg.name != name
    {
      assert FromTier(r, tiers);
    }
    PriorityFound(replicas, name);
  }

  lemma TierPriority(replicas: seq<Replica>, tiers: seq<Tier>, t: Tier)
    requires ValidTiers(tiers) && Represents(replicas, tiers) && t in tiers
    ensures PriorityOf(replicas, t.name) == t.priority && t.priority >= 0
  {
    hide PriorityOf, Distinct, ByPriority;
    assert GoodTier(t);
    PriorityFound(replicas, t.name);
    assert HasReplica(t, replicas);
    var r0 :| r0 in replicas && IsReplicaOf(r0, t);
    var r :| r in replicas && r.tierCfg.name == t.name && PriorityOf(replicas, t.name) == r.tierCfg.priority;
    assert FromTier(r, tiers);
    var u :| u in tiers && IsReplicaOf(r, u);
    ByName(tiers, t, u);
  }

  /** Two tiers of a checked configuration with the same priority are the same tier, so the higher
      of two configured tiers does not depend on the order of the arguments. */
  lemma HigherTierSymmetric(sizeOf: SizeOf, tiers: seq<Tier>, sorted: seq<Tier>, a: string, b: string)
    requires ValidTiers(tiers) && IsSortOf(sorted, tiers)
    requires (exists t :: t in tiers && t.name == a) || (exists t :: t in tiers && t.name == b)
    ensures HigherTier(Flatten(sizeOf, sorted), a, b) == HigherTier(Flatten(sizeOf, sorted), b, a)
  {
    PriorityIsConfigured(sizeOf, tiers, sorted, a);
    PriorityIsConfigured(sizeOf, tiers, sorted, b);
    var replicas := Flatten(sizeOf, sorted);
    if PriorityOf(replicas, a) == PriorityOf(replicas, b) {
      var t :| t in tiers && t.name == a;
      var u :| u in tiers && u.name == b;
      ByName(tiers, t, u);
    }
  }

  ghost predicate Configured(tiers: seq<Tier>, name: string) {
    exists t :: t in tiers && t.name == name
  }

  /** What the comment on `HigherTier` promises: the configured one of higher priority, or `b` when
      neither is configured. */
  ghost predicate AsDocumented(tiers: seq<Tier>, a: string, b: string, r: string) {
    if Configured(tiers, a) || Configured(tiers, b) then
      (r == a || r == b)
      && exists t :: t in tiers && t.name == r
                     && forall u | u in tiers && (u.name == a || u.name == b) :: u.priority <= t.priority
    else r == b
  }

  /** The code keeps that promise exactly when one of the tiers is configured or both are the same
      name: of two different unknown ones it returns the first. */
  lemma HigherTierAsDocumentedExactly(sizeOf: SizeOf, tiers: seq<Tier>, sorted: seq<Tier>, a: string, b: string)
    requires ValidTiers(tiers) && IsSortOf(sorted, tiers)
    ensures AsDocumented(tiers, a, b, HigherTier(Flatten(sizeOf, sorted), a, b))
            <==> Configured(tiers, a) || Configured(tiers, b) || a == b
  {
    hide ValidTiers, IsSortOf, Flatten, PriorityOf;
    PriorityIsConfigured(sizeOf, tiers, sorted, a);
    PriorityIsConfigured(sizeOf, tiers, sorted, b);
    var r := HigherTier(Flatten(sizeOf, sorted), a, b);
    if Configured(tiers, a) || Configured(tiers, b) {
      var t :| t in tiers && t.name == r;
      assert forall u | u in tiers && (u.name == a || u.name == b) :: u.priority <= t.priority;
    }
  }

  /** With a single tier "t", the higher of "x" and "y" is not the documented one. */
  lemma HigherTierOfUnknowns(sizeOf: SizeOf)
    ensures var t := Tier("t", 0, TierRouting([], [], false, true), [Model("r", "u", "m")]);
            && ValidTiers([t]) && IsSortOf([t], [t])
            && HigherTier(Flatten(sizeOf, [t]), "x", "y") == "x" && !AsDocumented([t], "x", "y", "x")
  {
    var t := Tier("t", 0, TierRouting([], [], false, true), [Model("r", "u", "m")]);
    assert t in [t] && GoodTier(t);
    HigherTierAsDocumentedExactly(sizeOf, [t], [t], "x", "y");
    PriorityIsConfigured(sizeOf, [t], [t], "x");
    PriorityIsConfigured(sizeOf, [t], [t], "y");
    hide PriorityOf, Flatten, IsSortOf, ValidTiers;
  }
}
