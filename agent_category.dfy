/**
  * AgentCategory.js: one titled row of agent boards, showing only the
  * listed agents that appear in the game.
  */
module AgentCategory {
  import opened Games
  import opened BoardTimeline

  /** `agents.filter(agentName => gameData[agentName])`. */
  function ActiveAgents(agents: seq<string>, g: GameData): (r: seq<string>)
    ensures forall n :: n in r <==> n in agents && Has(g, n)
    ensures IsSubseq(r, agents)
  {
    Filter(agents, n => Has(g, n))
  }

  /**
    * The row: nothing when no listed agent is present, otherwise one board
    * card per present agent, in list order, counting 'h' cells as hits.
    */
  function CategoryRow(agents: seq<string>, g: GameData, turn: int): (row: Option<seq<BoardView>>)
    ensures row.None? <==> forall n :: n in agents ==> !Has(g, n)
    ensures row.Some? ==> |row.value| == |ActiveAgents(agents, g)|
    ensures row.Some? ==> forall i :: 0 <= i < |row.value| ==>
              var name := ActiveAgents(agents, g)[i];
              Has(g, name) && row.value[i] == Card(name, Lookup(g, name).value, turn, {"h"})
  {
    var active := ActiveAgents(agents, g);
    if |active| == 0 then None
    else
      assert active[0] in agents && Has(g, active[0]);
      Some(seq(|active|, i requires 0 <= i < |active| => Card(active[i], Lookup(g, active[i]).value, turn, {"h"})))
  }
}
