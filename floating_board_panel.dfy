/**
  * FloatingBoardPanel.js: the board of the agent whose reasoning is shown,
  * with the move of the current turn and its result.
  */
module FloatingBoardPanel {
  import opened Games
  import opened BoardTimeline

  datatype Panel = Panel(card: BoardView, move: Option<string>, result: Option<string>)

  /** A present, non-empty string; `null` for a missing or empty one. */
  function NonEmpty(s: string): (r: Option<string>)
    ensures r.Some? <==> s != ""
    ensures r.Some? ==> r.value == s
  {
    if s == "" then None else Some(s)
  }

  /**
    * The panel: nothing unless the agent name is given and the game holds
    * that agent; otherwise the agent's card at this turn, counting both 'h'
    * and 's' cells as hits, and the move and result of this turn, each
    * `null` when absent or empty.
    */
  function FloatingPanel(agentName: string, gameData: Option<GameData>, turn: int): (p: Option<Panel>)
    ensures p.Some? <==> agentName != "" && gameData.Some? && Has(gameData.value, agentName)
    ensures p.Some? ==> var rec := Lookup(gameData.value, agentName).value;
              p.value.card == Card(agentName, rec, turn, {"h", "s"}) &&
              (p.value.move.Some? <==> 0 <= turn < |Transcript(rec)| && Transcript(rec)[turn].move != "") &&
              (p.value.result.Some? <==> 0 <= turn < |Transcript(rec)| && Transcript(rec)[turn].result != "") &&
              (p.value.move.Some? ==> p.value.move.value == Transcript(rec)[turn].move) &&
              (p.value.result.Some? ==> p.value.result.value == Transcript(rec)[turn].result)
  {
    if agentName == "" || gameData.None? || !Has(gameData.value, agentName) then None
    else
      var rec := Lookup(gameData.value, agentName).value;
      var m := MoveAt(rec, turn);
      Some(Panel(Card(agentName, rec, turn, {"h", "s"}),
                 if m.Some? then NonEmpty(m.value.move) else None,
                 if m.Some? then NonEmpty(m.value.result) else None))
  }

  /**
    * The panel's hit count is the number of cells marked 'h' or 's' on the
    * shown board, and once the agent has finished the board stays its last
    * snapshot.
    */
  lemma PanelHits(agentName: string, gameData: Option<GameData>, turn: int)
    requires FloatingPanel(agentName, gameData, turn).Some?
    ensures var p := FloatingPanel(agentName, gameData, turn).value;
            var rec := Lookup(gameData.value, agentName).value;
              p.card.hits == multiset(Flatten(p.card.board))["h"] + multiset(Flatten(p.card.board))["s"] &&
              (p.card.isFinished ==> p.card.board == rec.boardHistory[|rec.boardHistory| - 1])
  {
    var p := FloatingPanel(agentName, gameData, turn).value;
    CountMarksOccurrences(p.card.board, "h", "s");
  }
}
