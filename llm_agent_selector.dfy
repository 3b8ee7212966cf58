/**
  * LlmAgentSelector.js: the tabs for choosing whose reasoning is shown.
  */
module LlmAgentSelector {
  import opened Games

  /** `gameData?.[name]?.move_metadata?.length > 0`. */
  predicate HasMoves(gameData: Option<GameData>, name: string)
  {
    gameData.Some? && Lookup(gameData.value, name).Some? &&
    |Transcript(Lookup(gameData.value, name).value)| > 0
  }

  /** The listed agents that have at least one recorded move, in list order. */
  function AvailableAgents(agents: seq<string>, gameData: Option<GameData>): (r: seq<string>)
    ensures forall n :: n in r <==> n in agents && HasMoves(gameData, n)
    ensures IsSubseq(r, agents)
  {
    Filter(agents, n => HasMoves(gameData, n))
  }

  datatype Tab = Tab(name: string, isActive: bool)

  datatype Selector = NoAgents | Tabs(tabs: seq<Tab>)

  /**
    * The selector: the "no agents" note when no listed agent has moves,
    * otherwise one tab per available agent, active exactly when it is the
    * selected one.
    */
  function AgentSelector(agents: seq<string>, selected: string, gameData: Option<GameData>): (s: Selector)
    ensures s.NoAgents? <==> forall n :: n in agents ==> !HasMoves(gameData, n)
    ensures s.Tabs? ==> |s.tabs| == |AvailableAgents(agents, gameData)|
    ensures s.Tabs? ==> forall i :: 0 <= i < |s.tabs| ==>
              s.tabs[i].name == AvailableAgents(agents, gameData)[i] &&
              (s.tabs[i].isActive <==> s.tabs[i].name == selected)
  {
    var available := AvailableAgents(agents, gameData);
    if |available| == 0 then NoAgents
    else
      assert available[0] in agents;
      Tabs(seq(|available|, i requires 0 <= i < |available| => Tab(available[i], available[i] == selected)))
  }

  function ActiveCount(tabs: seq<Tab>): nat
  {
    if tabs == [] then 0 else (if tabs[0].isActive then 1 else 0) + ActiveCount(tabs[1..])
  }

  lemma {:induction false} ActiveCountIsOccurrences(tabs: seq<Tab>, selected: string)
    requires forall i :: 0 <= i < |tabs| ==> (tabs[i].isActive <==> tabs[i].name == selected)
    ensures ActiveCount(tabs) == multiset(seq(|tabs|, i requires 0 <= i < |tabs| => tabs[i].name))[selected]
  {
    if tabs != [] {
      var names := seq(|tabs|, i requires 0 <= i < |tabs| => tabs[i].name);
      var rest := seq(|tabs| - 1, i requires 0 <= i < |tabs| - 1 => tabs[1..][i].name);
      assert names == [tabs[0].name] + rest;
      ActiveCountIsOccurrences(tabs[1..], selected);
    }
  }

  /**
    * With distinct agent names, exactly one tab is active when the selected
    * agent is available, and none otherwise.
    */
  lemma OneActiveTab(agents: seq<string>, selected: string, gameData: Option<GameData>)
    requires forall i, j :: 0 <= i < j < |agents| ==> agents[i] != agents[j]
    requires AgentSelector(agents, selected, gameData).Tabs?
    ensures ActiveCount(AgentSelector(agents, selected, gameData).tabs) ==
              if selected in AvailableAgents(agents, gameData) then 1 else 0
  {
    var tabs := AgentSelector(agents, selected, gameData).tabs;
    var available := AvailableAgents(agents, gameData);
    ActiveCountIsOccurrences(tabs, selected);
    var names := seq(|tabs|, i requires 0 <= i < |tabs| => tabs[i].name);
    assert names == available;
    SubseqOfDistinct(available, agents);
    DistinctCount(available, selected);
  }

  lemma {:induction false} SubseqOfDistinct(r: seq<string>, s: seq<string>)
    requires IsSubseq(r, s) && forall i, j :: 0 <= i < j < |s| ==> s[i] != s[j]
    ensures forall i, j :: 0 <= i < j < |r| ==> r[i] != r[j]
    decreases |s|
  {
    if r != [] && s != [] {
      assert forall i, j :: 0 <= i < j < |s| - 1 ==> s[1..][i] != s[1..][j];
      if r[0] == s[0] && IsSubseq(r[1..], s[1..]) {
        SubseqOfDistinct(r[1..], s[1..]);
        SubseqMembers(r[1..], s[1..]);
        forall j | 0 < j < |r| ensures r[0] != r[j] {
          assert r[1..][j - 1] in s[1..];
          var k :| 0 <= k < |s| - 1 && s[1..][k] == r[j];
          assert s[k + 1] == r[j];
        }
        forall i, j | 0 <= i < j < |r| ensures r[i] != r[j] {
          if i > 0 { assert r[1..][i - 1] != r[1..][j - 1]; }
        }
      } else {
        SubseqOfDistinct(r, s[1..]);
      }
    }
  }

  lemma {:induction false} SubseqMembers(r: seq<string>, s: seq<string>)
    requires IsSubseq(r, s)
    ensures forall x :: x in r ==> x in s
    decreases |s|
  {
    if r != [] && s != [] {
      if r[0] == s[0] && IsSubseq(r[1..], s[1..]) {
        SubseqMembers(r[1..], s[1..]);
        assert forall x :: x in r ==> x == r[0] || x in r[1..];
      } else {
        SubseqMembers(r, s[1..]);
      }
    }
  }

  lemma {:induction false} DistinctCount(s: seq<string>, x: string)
    requires forall i, j :: 0 <= i < j < |s| ==> s[i] != s[j]
    ensures multiset(s)[x] == if x in s then 1 else 0
  {
    if s != [] {
      assert s == [s[0]] + s[1..];
      assert forall i, j :: 0 <= i < j < |s| - 1 ==> s[1..][i] != s[1..][j];
      DistinctCount(s[1..], x);
      assert s[0] !in s[1..];
    }
  }
}
