/**
  * GameViewer.js: the agents of a game grouped into titled categories. Four
  * categories list fixed agent names; every other agent of the game goes
  * to the language-model category. Categories with no agent in the game
  * are dropped.
  */
module GameViewer {
  import opened Games

  datatype Category = Category(title: string, agents: seq<string>)

  const FixedCategories: seq<Category> := [
    Category("CLASSIC HEURISTIC", ["RuleBasedAgent", "HeuristicAgent"]),
    Category("TRADITIONAL ML", ["LogisticRegressionAgent", "HitGradientBoostedAgent", "LightGBMAgent", "MLPAgent"]),
    Category("ENSEMBLE ML", ["VotingEnsembleAgent", "StackingEnsembleAgent"]),
    Category("REINFORCEMENT LEARNING", ["QLearningAgent", "SARSAAgent"])
  ]

  const LlmTitle: string := "LARGE LANGUAGE MODELS"

  /** `name` is listed by one of the fixed categories. */
  predicate IsKnown(name: string)
  {
    exists i | 0 <= i < |FixedCategories| :: name in FixedCategories[i].agents
  }

  /** The fixed lists share no name. */
  lemma FixedCategoriesDisjoint(i: int, j: int, name: string)
    requires 0 <= i < j < |FixedCategories|
    ensures !(name in FixedCategories[i].agents && name in FixedCategories[j].agents)
  {
  }

  /** The `knownAgents` set: every agent name of the fixed categories, added one by one. */
  method KnownAgents() returns (known: set<string>)
    ensures forall n :: n in known <==> IsKnown(n)
  {
    known := {};
    var i := 0;
    while i < |FixedCategories|
      invariant 0 <= i <= |FixedCategories|
      invariant forall n :: n in known <==> exists k | 0 <= k < i :: n in FixedCategories[k].agents
    {
      var agents := FixedCategories[i].agents;
      var j := 0;
      while j < |agents|
        invariant 0 <= j <= |agents|
        invariant forall n :: n in known <==>
                    (exists k | 0 <= k < i :: n in FixedCategories[k].agents) || n in agents[..j]
      {
        known := known + {agents[j]};
        assert agents[..j + 1] == agents[..j] + [agents[j]];
        j := j + 1;
      }
      assert agents[..j] == agents;
      i := i + 1;
    }
  }

  /** The game's agents that no fixed category lists, in key order. */
  function UnknownAgents(g: GameData): (r: seq<string>)
    ensures forall n :: n in r <==> Has(g, n) && !IsKnown(n)
    ensures IsSubseq(r, Names(g))
  {
    Filter(Names(g), n => !IsKnown(n))
  }

  /**
    * The five categories: the four fixed ones, then the language-model
    * category holding the game's other agents.
    */
  method Categorize(g: GameData) returns (categories: seq<Category>)
    ensures |categories| == 5 && categories[..4] == FixedCategories
    ensures categories[4] == Category(LlmTitle, UnknownAgents(g))
  {
    categories := FixedCategories + [Category(LlmTitle, [])];
    var known := KnownAgents();
    var names := Names(g);
    categories := categories[4 := Category(LlmTitle, Filter(names, n => n !in known))];
    assert Filter(names, n => n !in known) == UnknownAgents(g) by {
      FilterSamePredicate(names, n => n !in known, n => !IsKnown(n));
    }
  }

  lemma {:induction false} FilterSamePredicate(s: seq<string>, p: string -> bool, q: string -> bool)
    requires forall x :: p(x) == q(x)
    ensures Filter(s, p) == Filter(s, q)
  {
    if s != [] {
      FilterSamePredicate(s[1..], p, q);
    }
  }

  /**
    * Every agent of the game is in exactly one of the five categories: its
    * fixed category if it has one, the language-model category otherwise.
    */
  lemma Partition(g: GameData, categories: seq<Category>, name: string, i: int)
    requires |categories| == 5 && categories[..4] == FixedCategories
    requires categories[4] == Category(LlmTitle, UnknownAgents(g))
    requires Has(g, name) && 0 <= i < 5 && name in categories[i].agents
    ensures forall j :: 0 <= j < 5 && j != i ==> name !in categories[j].agents
    ensures i == 4 <==> !IsKnown(name)
  {
    forall j | 0 <= j < 5 && j != i
      ensures name !in categories[j].agents
    {
      if i < 4 && j < 4 {
        assert categories[i] == FixedCategories[i] && categories[j] == FixedCategories[j];
        if i < j { FixedCategoriesDisjoint(i, j, name); } else { FixedCategoriesDisjoint(j, i, name); }
      } else if i < 4 {
        assert categories[i] == FixedCategories[i];
      } else {
        assert categories[j] == FixedCategories[j];
      }
    }
    if i < 4 {
      assert categories[i] == FixedCategories[i];
    }
  }

  /** `cat.agents.some(agentName => gameData[agentName])`. */
  predicate AnyPresent(c: Category, g: GameData)
  {
    exists n | n in c.agents :: Has(g, n)
  }

  /** The categories with at least one agent in the game, in their order. */
  function ActiveCategories(categories: seq<Category>, g: GameData): (r: seq<Category>)
    ensures forall c :: c in r <==> c in categories && AnyPresent(c, g)
    ensures IsSubseq(r, categories)
  {
    Filter(categories, c => AnyPresent(c, g))
  }

  /** The language-model category is kept exactly when the game has an agent no fixed category lists. */
  lemma LlmCategoryKept(g: GameData)
    ensures AnyPresent(Category(LlmTitle, UnknownAgents(g)), g) <==> UnknownAgents(g) != []
  {
    var u := UnknownAgents(g);
    if u != [] {
      assert u[0] in u;
    }
  }

  /** What the viewer shows: a loading note without a game, otherwise the non-empty categories. */
  method ViewCategories(gameData: Option<GameData>) returns (view: Option<seq<Category>>)
    ensures view.None? <==> gameData.None?
    ensures view.Some? ==>
              view.value == ActiveCategories(FixedCategories + [Category(LlmTitle, UnknownAgents(gameData.value))], gameData.value)
  {
    if gameData.None? {
      return None;
    }
    var categories := Categorize(gameData.value);
    assert categories == FixedCategories + [Category(LlmTitle, UnknownAgents(gameData.value))];
    return Some(ActiveCategories(categories, gameData.value));
  }
}
