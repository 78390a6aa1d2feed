/** The tiers of the configuration the repository ships (config.yaml), and what they route where. */
module ShippedConfig {
  import opened Options
  import opened Routing
  import opened ConversationPin

  function AtLeast(x: real): Range {
    Range(Some(x), None)
  }

  function Below(x: real): Range {
    Range(None, Some(x))
  }

  function Anything(): Range {
    Range(None, None)
  }

  function Small(): Tier {
    Tier("small", 1, TierRouting([Rule(Below(0.15), Below(0.15), Anything(), Anything(), Anything(), ["QA", "Classification"])],
                                 [], false, false),
         [Model("replica-small-1", "http://localhost:8001", "Qwen/Qwen2.5-1.5B-Instruct-AWQ"),
          Model("replica-small-2", "http://localhost:8002", "Qwen/Qwen2.5-1.5B-Instruct-AWQ")])
  }

  function Code(): Tier {
    Tier("code", 2, TierRouting([], ["Code Generation"], true, false),
         [Model("replica-code-1", "http://localhost:8003", "Qwen/Qwen2.5-Coder-7B-Instruct-AWQ")])
  }

  function Medium(): Tier {
    Tier("medium", 3, TierRouting([], [], false, true),
         [Model("replica-medium-1", "http://localhost:8004", "Qwen/Qwen2.5-14B-Instruct-AWQ")])
  }

  function Large(): Tier {
    Tier("large", 4, TierRouting([Rule(AtLeast(0.55), AtLeast(0.70), Anything(), Anything(), Anything(), []),
                                  Rule(AtLeast(0.65), Anything(), AtLeast(0.80), Anything(), AtLeast(0.60), [])],
                                 [], false, false),
         [Model("replica-large-1", "http://localhost:8005", "Qwen/Qwen2.5-72B-Instruct-AWQ")])
  }

  function Reasoning(): Tier {
    Tier("reasoning", 5, TierRouting([Rule(AtLeast(0.75), AtLeast(0.85), Anything(), Anything(), Anything(), [])], [], false, false),
         [Model("replica-reasoning-1", "http://localhost:8006", "Qwen/QwQ-32B-AWQ")])
  }

  function Tiers(): seq<Tier> {
    [Small(), Code(), Medium(), Large(), Reasoning()]
  }

  /** Names, priorities and the fallback, tier by tier. */
  lemma TierFacts()
    ensures Small().name == "small" && Code().name == "code" && Medium().name == "medium"
    ensures Large().name == "large" && Reasoning().name == "reasoning"
    ensures Small().priority == 1 && Code().priority == 2 && Medium().priority == 3 && Large().priority == 4 && Reasoning().priority == 5
    ensures Medium().routing.fallback && !Small().routing.fallback && !Code().routing.fallback
    ensures !Large().routing.fallback && !Reasoning().routing.fallback
    ensures GoodTier(Small()) && GoodTier(Code()) && GoodTier(Medium()) && GoodTier(Large()) && GoodTier(Reasoning())
  {
  }

  lemma TiersAreValid()
    ensures ValidTiers(Tiers())
  {
    TierFacts();
    hide Small, Code, Medium, Large, Reasoning, GoodTier;
    assert Tiers()[2] in Tiers();
  }

  // ----- What the tiers ask for -----

  predicate Simple(s: Signals) {
    (EqualFold("QA", s.taskType) || EqualFold("Classification", s.taskType)) && s.score < 0.15 && s.reasoning < 0.15
  }

  predicate Coding(s: Signals) {
    EqualFold("Code Generation", s.taskType) || (HasCode(s.text) && s.score < 0.60)
  }

  predicate Hard(s: Signals) {
    (s.reasoning >= 0.70 && s.score >= 0.55) || (s.score >= 0.65 && s.domain >= 0.80 && s.constraint >= 0.60)
  }

  function Choice(s: Signals): string {
    if Simple(s) then "small" else if Coding(s) then "code" else if Hard(s) then "large" else "medium"
  }

  lemma WhatMatches(s: Signals)
    ensures TierMatches(Small().routing, s) <==> Simple(s)
    ensures TierMatches(Code().routing, s) <==> Coding(s)
    ensures TierMatches(Large().routing, s) <==> Hard(s)
    ensures TierMatches(Reasoning().routing, s) ==> Hard(s)
  {
    hide EqualFold, HasCode;
    SmallMatches(s);
    LargeMatches(s);
    var r := Reasoning().routing.rules[0];
    assert forall rule | rule in Reasoning().routing.rules :: rule == r;
  }

  lemma SmallMatches(s: Signals)
    ensures TierMatches(Small().routing, s) <==> Simple(s)
  {
    hide EqualFold, HasCode;
    var r := Small().routing.rules[0];
    assert r in Small().routing.rules && forall rule | rule in Small().routing.rules :: rule == r;
    assert "QA" in r.taskTypes && "Classification" in r.taskTypes;
  }

  lemma LargeMatches(s: Signals)
    ensures TierMatches(Large().routing, s) <==> Hard(s)
  {
    hide EqualFold, HasCode;
    var rules := Large().routing.rules;
    assert rules[0] in rules && rules[1] in rules && forall rule | rule in rules :: rule == rules[0] || rule == rules[1];
    assert RuleMatches(rules[0], s) <==> s.reasoning >= 0.70 && s.score >= 0.55;
    assert RuleMatches(rules[1], s) <==> s.score >= 0.65 && s.domain >= 0.80 && s.constraint >= 0.60;
  }

  /** What the router's own choice makes of these tiers, on every classification: the tier "reasoning" is
      never chosen, because whatever matches it matches "large", which comes first. */
  lemma ShippedChoice(sizeOf: SizeOf, sorted: seq<Tier>, s: Signals, tier: string)
    requires IsSortOf(sorted, Tiers()) && Selects(Flatten(sizeOf, sorted), s, tier)
    ensures tier == Choice(s) && tier != "reasoning"
  {
    hide Selects, Flatten, IsSortOf, TierMatches, Simple, Coding, Hard, ValidTiers;
    TiersAreValid();
    WhatMatches(s);
    ChoiceIsWanted(s);
    FlatteningPreservesChoice(sizeOf, Tiers(), sorted, s, tier);
  }

  lemma ChoiceIsWanted(s: Signals)
    ensures Wanted(Tiers(), s, Choice(s))
  {
    WhatMatches(s);
    TierFacts();
    hide TierMatches, Simple, Coding, Hard, Small, Code, Medium, Large, Reasoning;
    var tiers := Tiers();
    assert forall t | t in tiers :: t == tiers[0] || t == tiers[1] || t == tiers[2] || t == tiers[3] || t == tiers[4];
    assert tiers[0] in tiers && tiers[1] in tiers && tiers[2] in tiers && tiers[3] in tiers;
  }

  // ----- The classifier service against the configuration -----

  /** The service is asked without the prompt's text. Where neither sees code or a simple question, they
      send the same requests to "large"; what is left goes to "reasoning" with the one and to "medium"
      with the other, so that they never agree on it. */
  lemma ServiceAgainstConfig(s: Signals)
    requires s.text == ""
    ensures var service, config := ServiceTier(BasePick(s)), Choice(s);
            service !in {"code", "small"} && config !in {"code", "small"} ==>
              (service == "large" <==> config == "large") && (service == "reasoning" <==> config == "medium")
  {
    hide EqualFold, Contains;
  }

  /** The service takes every classification task for code, since "class" is one of its code signals: its
      own branch for them, and the configuration's, are never reached. */
  lemma ClassificationIsCode(s: Signals)
    requires s.taskType == "Classification"
    ensures BasePick(s) == CODE
  {
    var lower := Lower(s.taskType);
    assert lower[..5] == "class";
    assert ContainsAt(lower, "class", 0);
    assert "class" in CODE_SIGNALS && Contains(lower, "class");
  }

  /** On plain questions they agree: small exactly when score and reasoning are both below 0.15. */
  lemma QuestionsAgree(s: Signals)
    requires s.text == "" && s.taskType == "QA"
    ensures ServiceTier(BasePick(s)) == "small" <==> Choice(s) == "small"
    ensures Choice(s) == "small" <==> s.score < 0.15 && s.reasoning < 0.15
    ensures ServiceTier(BasePick(s)) != "code"
  {
    NoCodeSignal("QA");
    assert ContainsAt("QA", "QA", 0);
  }

  /** Asked with the text, the service takes a simple enough request for code exactly if one of four marks
      stands in it, provided its task is not a code task anyway. */
  lemma TextMakesCode(s: Signals)
    requires s.taskType == "QA"
    ensures BasePick(s) == CODE
            <==> s.score < 0.60 && exists mark: string, a: string, b: string ::
                   mark in {"```", "def ", "class ", "function "} && s.text == a + mark + b
  {
    NoCodeSignal("QA");
    var marks := {"```", "def ", "class ", "function "};
    assert s.text == "" ==> forall mark | mark in marks :: !Contains(s.text, mark);
    var marked := exists mark :: mark in marks && Contains(s.text, mark);
    assert marked <==> Contains(s.text, "```") || Contains(s.text, "def ") || Contains(s.text, "class ") || Contains(s.text, "function ");
    assert BasePick(s) == CODE <==> s.score < 0.60 && marked;
    hide BasePick;
    forall mark
      ensures Contains(s.text, mark) <==> exists a: string, b: string :: s.text == a + mark + b
    {
      ContainsExactly(s.text, mark);
    }
    hide Contains;
  }
}
