/**
  * StatsPanel.js: the running per-agent summary over the games replayed so
  * far, and the enlarged board of a selected agent.
  */
module StatsPanel {
  import opened Games
  import opened BoardTimeline

  /** `allGamesData.slice(0, currentGameIndex + 1)`, with slice's handling of a negative end. */
  function GamesSoFar(games: seq<Game>, currentGameIndex: int): (r: seq<Game>)
    ensures currentGameIndex >= 0 ==> r == games[..Min(currentGameIndex + 1, |games|)]
    ensures currentGameIndex == -1 ==> r == []
    ensures currentGameIndex < -1 ==> r == games[..Max(|games| + currentGameIndex + 1, 0)]
  {
    var end := currentGameIndex + 1;
    var stop := if end < 0 then Max(|games| + end, 0) else Min(end, |games|);
    games[..stop]
  }

  /** Every agent entry of these games, game by game, each game's in key order. */
  function Entries(games: seq<Game>): seq<AgentEntry>
  {
    if games == [] then [] else Entries(games[..|games| - 1]) + games[|games| - 1].data.agents
  }

  /** The names in order of first appearance. */
  function FirstSeen(names: seq<string>): (r: seq<string>)
    ensures forall n :: n in r <==> n in names
    ensures forall i, j :: 0 <= i < j < |r| ==> r[i] != r[j]
  {
    if names == [] then []
    else
      var d := FirstSeen(names[..|names| - 1]);
      var last := names[|names| - 1];
      assert forall n :: n in names <==> n in names[..|names| - 1] || n == last by {
        assert names == names[..|names| - 1] + [last];
      }
      if last in d then d else d + [last]
  }

  function EntryNames(es: seq<AgentEntry>): (r: seq<string>)
    ensures |r| == |es| && forall i :: 0 <= i < |es| ==> r[i] == es[i].name
  {
    seq(|es|, i requires 0 <= i < |es| => es[i].name)
  }

  /** The summed turns, summed hits and number of entries of agent `name`. */
  function SumTurns(es: seq<AgentEntry>, name: string): nat
  {
    if es == [] then 0
    else SumTurns(es[..|es| - 1], name) + (if es[|es| - 1].name == name then es[|es| - 1].record.turns else 0)
  }

  function SumHits(es: seq<AgentEntry>, name: string): nat
  {
    if es == [] then 0
    else SumHits(es[..|es| - 1], name) + (if es[|es| - 1].name == name then es[|es| - 1].record.hits else 0)
  }

  function CountEntries(es: seq<AgentEntry>, name: string): nat
  {
    if es == [] then 0
    else CountEntries(es[..|es| - 1], name) + (if es[|es| - 1].name == name then 1 else 0)
  }

  /** The integer part of one agent's running summary. */
  datatype Totals = Totals(turns: nat, hits: nat, games: nat)

  datatype AgentSummary = AgentSummary(name: string, totals: Totals)

  /** The totals of `name` over a list of entries. */
  function TotalsOf(es: seq<AgentEntry>, name: string): Totals
  {
    Totals(SumTurns(es, name), SumHits(es, name), CountEntries(es, name))
  }

  lemma EntriesAppend(games: seq<Game>, n: int)
    requires 0 <= n < |games|
    ensures Entries(games[..n + 1]) == Entries(games[..n]) + games[n].data.agents
  {
    assert games[..n + 1][..n] == games[..n];
  }

  lemma TotalsStep(es: seq<AgentEntry>, e: AgentEntry, name: string)
    ensures TotalsOf(es + [e], name) ==
              if e.name == name then Totals(SumTurns(es, name) + e.record.turns, SumHits(es, name) + e.record.hits,
                                            CountEntries(es, name) + 1)
              else TotalsOf(es, name)
  {
    assert (es + [e])[..|es|] == es;
  }

  lemma FirstSeenStep(es: seq<AgentEntry>, e: AgentEntry)
    ensures FirstSeen(EntryNames(es + [e])) ==
              if e.name in FirstSeen(EntryNames(es)) then FirstSeen(EntryNames(es)) else FirstSeen(EntryNames(es)) + [e.name]
  {
    assert EntryNames(es + [e])[..|es|] == EntryNames(es);
  }

  /** `agentStats` with its keys in insertion order holds the totals of `es`. */
  ghost predicate Accumulates(stats: map<string, Totals>, order: seq<string>, es: seq<AgentEntry>)
  {
    && order == FirstSeen(EntryNames(es))
    && (forall name :: name in stats <==> name in order)
    && (forall name :: name in stats ==> stats[name] == TotalsOf(es, name))
  }

  /** One step of the inner `forEach`: add entry `e` to the running totals. */
  method AddEntry(stats: map<string, Totals>, order: seq<string>, ghost es: seq<AgentEntry>, e: AgentEntry)
    returns (stats': map<string, Totals>, order': seq<string>)
    requires Accumulates(stats, order, es)
    ensures Accumulates(stats', order', es + [e])
  {
    FirstSeenStep(es, e);
    OthersUnchanged(es, e);
    stats', order' := stats, order;
    if e.name !in stats' {
      FirstSeenMembers(es, e.name);
      stats' := stats'[e.name := Totals(0, 0, 0)];
      order' := order' + [e.name];
    }
    var t := stats'[e.name];
    TotalsStep(es, e, e.name);
    stats' := stats'[e.name := Totals(t.turns + e.record.turns, t.hits + e.record.hits, t.games + 1)];
  }

  /** An entry of one agent leaves the totals of every other agent as they were. */
  lemma OthersUnchanged(es: seq<AgentEntry>, e: AgentEntry)
    ensures forall other :: other != e.name ==> TotalsOf(es + [e], other) == TotalsOf(es, other)
  {
    forall other | other != e.name
      ensures TotalsOf(es + [e], other) == TotalsOf(es, other)
    {
      TotalsStep(es, e, other);
    }
  }

  /** The outer `forEach` over one game: add each of its agents' entries, in key order. */
  method AddGame(stats: map<string, Totals>, order: seq<string>, ghost done: seq<AgentEntry>, agents: seq<AgentEntry>)
    returns (stats': map<string, Totals>, order': seq<string>)
    requires Accumulates(stats, order, done)
    ensures Accumulates(stats', order', done + agents)
  {
    stats', order' := stats, order;
    var k := 0;
    assert done + agents[..0] == done;
    while k < |agents|
      invariant 0 <= k <= |agents|
      invariant Accumulates(stats', order', done + agents[..k])
    {
      stats', order' := AddEntry(stats', order', done + agents[..k], agents[k]);
      assert done + agents[..k + 1] == (done + agents[..k]) + [agents[k]];
      k := k + 1;
    }
    assert agents[..k] == agents;
  }

  /**
    * The integer accumulation of `calculateStats`: over the games up to the
    * current one, each agent gets an entry when first seen, then each of
    * its entries adds its turns and hits and counts one game. The result
    * lists the agents in the order they were first seen.
    */
  method CalculateTotals(games: seq<Game>, currentGameIndex: int) returns (summary: seq<AgentSummary>)
    ensures var es := Entries(GamesSoFar(games, currentGameIndex));
              |summary| == |FirstSeen(EntryNames(es))| &&
              forall i :: 0 <= i < |summary| ==>
                summary[i] == AgentSummary(FirstSeen(EntryNames(es))[i], TotalsOf(es, FirstSeen(EntryNames(es))[i]))
  {
    var gamesSoFar := GamesSoFar(games, currentGameIndex);
    var stats: map<string, Totals> := map[];
    var order: seq<string> := [];
    var n := 0;
    assert gamesSoFar[..0] == [];
    while n < |gamesSoFar|
      invariant 0 <= n <= |gamesSoFar|
      invariant Accumulates(stats, order, Entries(gamesSoFar[..n]))
    {
      stats, order := AddGame(stats, order, Entries(gamesSoFar[..n]), gamesSoFar[n].data.agents);
      EntriesAppend(gamesSoFar, n);
      n := n + 1;
    }
    assert gamesSoFar[..n] == gamesSoFar;
    summary := seq(|order|, i requires 0 <= i < |order| => AgentSummary(order[i], stats[order[i]]));
  }

  /** An agent never seen has zero totals. */
  lemma {:induction false} FirstSeenMembers(es: seq<AgentEntry>, name: string)
    requires name !in FirstSeen(EntryNames(es))
    ensures TotalsOf(es, name) == Totals(0, 0, 0)
  {
    if es != [] {
      var front := es[..|es| - 1];
      assert EntryNames(es)[..|es| - 1] == EntryNames(front);
      assert EntryNames(es) == EntryNames(front) + [es[|es| - 1].name];
      FirstSeenMembers(front, name);
    }
  }

  /** The number of games, among these, that hold agent `name`. */
  function GamesWith(games: seq<Game>, name: string): nat
  {
    if games == [] then 0 else GamesWith(games[..|games| - 1], name) + (if Has(games[|games| - 1].data, name) then 1 else 0)
  }

  lemma {:induction false} CountConcat(a: seq<AgentEntry>, b: seq<AgentEntry>, name: string)
    ensures CountEntries(a + b, name) == CountEntries(a, name) + CountEntries(b, name)
    decreases |b|
  {
    if b == [] {
      assert a + b == a;
    } else {
      assert (a + b)[..|a + b| - 1] == a + b[..|b| - 1];
      assert (a + b)[|a + b| - 1] == b[|b| - 1];
      CountConcat(a, b[..|b| - 1], name);
    }
  }

  /** In a game with distinct agent names, an agent has one entry when present and none otherwise. */
  lemma {:induction false} CountInGame(agents: seq<AgentEntry>, name: string)
    requires WellFormed(GameData(agents))
    ensures CountEntries(agents, name) == if Has(GameData(agents), name) then 1 else 0
    decreases |agents|
  {
    if agents != [] {
      var front := agents[..|agents| - 1];
      assert WellFormed(GameData(front));
      CountInGame(front, name);
      assert Names(GameData(agents)) == Names(GameData(front)) + [agents[|agents| - 1].name];
    }
  }

  /**
    * When every game lists each agent once, an agent's game count is the
    * number of games so far that hold it.
    */
  lemma {:induction false} GamesCountsGames(games: seq<Game>, name: string)
    requires forall i :: 0 <= i < |games| ==> WellFormed(games[i].data)
    ensures CountEntries(Entries(games), name) == GamesWith(games, name)
    decreases |games|
  {
    if games != [] {
      var front := games[..|games| - 1];
      GamesCountsGames(front, name);
      CountConcat(Entries(front), games[|games| - 1].data.agents, name);
      CountInGame(games[|games| - 1].data.agents, name);
    }
  }

  /**
    * The enlarged board: shown when an agent is selected and the current
    * game holds it, as its card at this turn counting 'h' and 's' cells.
    */
  function FocusBoard(selected: string, gameData: Option<GameData>, turn: int): (v: Option<BoardView>)
    ensures v.Some? <==> selected != "" && gameData.Some? && Has(gameData.value, selected)
    ensures v.Some? ==> v.value == Card(selected, Lookup(gameData.value, selected).value, turn, {"h", "s"})
  {
    if selected != "" && gameData.Some? && Has(gameData.value, selected)
    then Some(Card(selected, Lookup(gameData.value, selected).value, turn, {"h", "s"}))
    else None
  }
}
