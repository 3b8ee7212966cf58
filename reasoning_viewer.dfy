/**
  * ReasoningViewer.js: which agent's transcript is shown for a turn, and
  * what the chat window holds (the prompt, the response typed so far and,
  * once the response is complete, the move and its result).
  */
module ReasoningViewer {
  import opened Games
  import opened TypingReveal

  /** The agents the viewer falls back to, in this order. */
  const LlmAgents: seq<string> := ["Llama-4-Scout", "Llama 3.1 8B- FINE-TUNED"]

  /**
    * `gameData[name]?.move_metadata?.length > turn`: a missing record or a
    * missing `move_metadata` gives `undefined`, which is not greater than
    * any turn, not even -1.
    */
  predicate HasTranscript(g: GameData, name: string, turn: int)
  {
    var r := Lookup(g, name);
    r.Some? && r.value.moveMetadata.Some? && |r.value.moveMetadata.value| > turn
  }

  /** `candidates.find(name => HasTranscript(name))`. */
  function FirstWithTranscript(candidates: seq<string>, g: GameData, turn: int): (r: Option<string>)
    ensures r.Some? ==> r.value in candidates && HasTranscript(g, r.value, turn)
    ensures r.None? <==> forall c :: c in candidates ==> !HasTranscript(g, c, turn)
  {
    if candidates == [] then None
    else if HasTranscript(g, candidates[0], turn) then Some(candidates[0])
    else
      var r := FirstWithTranscript(candidates[1..], g, turn);
      assert candidates == [candidates[0]] + candidates[1..];
      r
  }

  /** The agent found is the first candidate with a move for this turn: none before it has one. */
  lemma {:induction false} FirstWithTranscriptIsFirst(candidates: seq<string>, g: GameData, turn: int)
    ensures var r := FirstWithTranscript(candidates, g, turn);
              r.Some? ==> exists i :: 0 <= i < |candidates| && candidates[i] == r.value &&
                                      forall j :: 0 <= j < i ==> !HasTranscript(g, candidates[j], turn)
  {
    var r := FirstWithTranscript(candidates, g, turn);
    if candidates != [] && !HasTranscript(g, candidates[0], turn) && r.Some? {
      var tail := candidates[1..];
      FirstWithTranscriptIsFirst(tail, g, turn);
      var i :| 0 <= i < |tail| && tail[i] == r.value && forall j :: 0 <= j < i ==> !HasTranscript(g, tail[j], turn);
      assert candidates[i + 1] == r.value;
      forall j | 0 <= j < i + 1
        ensures !HasTranscript(g, candidates[j], turn)
      {
        if j > 0 {
          assert candidates[j] == tail[j - 1];
        }
      }
    } else if r.Some? {
      assert candidates[0] == r.value;
    }
  }

  /**
    * The agent whose transcript is shown: the selected agent (the empty
    * string when none) if it has a move for this turn, otherwise the first
    * of the fallback agents that has one.
    */
  function ActiveAgent(g: GameData, selected: string, turn: int): (r: Option<string>)
    ensures selected != "" && HasTranscript(g, selected, turn) ==> r == Some(selected)
    ensures r.Some? ==> HasTranscript(g, r.value, turn)
    ensures r.Some? && r.value != selected ==> r.value in LlmAgents
    ensures r.None? <==> (selected == "" || !HasTranscript(g, selected, turn)) &&
                         forall a :: a in LlmAgents ==> !HasTranscript(g, a, turn)
  {
    if selected != "" && HasTranscript(g, selected, turn) then Some(selected)
    else FirstWithTranscript(LlmAgents, g, turn)
  }

  /**
    * An agent whose record has no `move_metadata` is never the one shown,
    * at any turn, -1 included; an agent with an empty list is shown at
    * turn -1 when selected.
    */
  lemma MissingTranscriptNeverShown(g: GameData, selected: string, turn: int)
    ensures var r := ActiveAgent(g, selected, turn);
              r.Some? ==> Lookup(g, r.value).value.moveMetadata.Some?
    ensures selected != "" && Lookup(g, selected) == Some(AgentRecord([], 0, 0, None)) ==>
              ActiveAgent(g, selected, -1) != Some(selected)
    ensures selected != "" && Lookup(g, selected) == Some(AgentRecord([], 0, 0, Some([]))) ==>
              ActiveAgent(g, selected, -1) == Some(selected)
  {
  }

  /**
    * When the selected agent has no move for this turn, the fallback is the
    * first listed agent that has one: "Llama-4-Scout" wins whenever it has a
    * move.
    */
  lemma FallbackPriority(g: GameData, selected: string, turn: int)
    requires selected == "" || !HasTranscript(g, selected, turn)
    requires HasTranscript(g, LlmAgents[0], turn)
    ensures ActiveAgent(g, selected, turn) == Some(LlmAgents[0])
  {
  }

  /** The move line under the response, with its result badge ("" for none). */
  datatype MoveLine = MoveLine(move: string, result: string)

  /** What the chat window shows. */
  datatype ChatView =
    | Loading
    | NoTranscript(turnLabel: int)
    | Chat(agent: string, prompt: string, response: Option<Display>, moveLine: Option<MoveLine>)

  const NoPrompt: string := "(No prompt available)"

  /**
    * The whole viewer: waiting while the game is not loaded; the "no LLM
    * data" note (showing turn `turn + 1`) when no agent has a move for the
    * turn; otherwise the prompt (or a placeholder), the response typed up
    * to chunk `chunkIndex - 1` once `chunkIndex > 0`, and the move once the
    * chunk index has passed the number of boundaries.
    */
  function View(gameData: Option<GameData>, selected: string, turn: int, chunkIndex: nat, source: DrawSource): (v: ChatView)
    requires ValidSource(source)
    ensures gameData.None? <==> v.Loading?
    ensures gameData.Some? ==> (v.NoTranscript? <==> ActiveAgent(gameData.value, selected, turn).None?)
    ensures v.NoTranscript? ==> v.turnLabel == turn + 1
    ensures v.Chat? ==> gameData.Some? && ActiveAgent(gameData.value, selected, turn) == Some(v.agent)
    ensures v.Chat? ==> var m := MoveAt(Lookup(gameData.value, v.agent).value, turn);
              (v.prompt == if m.Some? && m.value.prompt != "" then m.value.prompt else NoPrompt) &&
              (v.response.Some? <==> chunkIndex > 0 && m.Some? && m.value.reasoning != "") &&
              (v.response.Some? ==> v.response.value == ResponseDisplay(m.value.reasoning, chunkIndex - 1, source)) &&
              (v.moveLine.Some? <==>
                 (m.Some? && m.value.reasoning != "" && m.value.move != "" &&
                  chunkIndex > |ChunkBoundaries(m.value.reasoning, source)|)) &&
              (v.moveLine.Some? ==> v.moveLine.value == MoveLine(m.value.move, m.value.result))
  {
    if gameData.None? then Loading
    else
      var g := gameData.value;
      var active := ActiveAgent(g, selected, turn);
      if active.None? then NoTranscript(turn + 1)
      else
        var name := active.value;
        var m := MoveAt(Lookup(g, name).value, turn);
        var prompt := if m.Some? && m.value.prompt != "" then m.value.prompt else NoPrompt;
        var reasoning := if m.Some? then m.value.reasoning else "";
        var response := if chunkIndex > 0 && reasoning != ""
                        then Some(ResponseDisplay(reasoning, chunkIndex - 1, source)) else None;
        var moveLine := if reasoning != "" && chunkIndex > |ChunkBoundaries(reasoning, source)| && m.value.move != ""
                        then Some(MoveLine(m.value.move, m.value.result)) else None;
        Chat(name, prompt, response, moveLine)
  }

  /**
    * The move line only appears under a finished response: the whole
    * reasoning is shown and the cursor has stopped.
    */
  lemma MoveAfterFullResponse(gameData: Option<GameData>, selected: string, turn: int, chunkIndex: nat, source: DrawSource)
    requires ValidSource(source)
    requires View(gameData, selected, turn, chunkIndex, source).Chat?
    requires View(gameData, selected, turn, chunkIndex, source).moveLine.Some?
    ensures var v := View(gameData, selected, turn, chunkIndex, source);
              v.response.Some? && !v.response.value.cursor &&
              v.response.value.text == MoveAt(Lookup(gameData.value, v.agent).value, turn).value.reasoning
  {
    var v := View(gameData, selected, turn, chunkIndex, source);
    var m := MoveAt(Lookup(gameData.value, v.agent).value, turn);
    var b := ChunkBoundaries(m.value.reasoning, source);
    assert chunkIndex - 1 >= |b| - 1;
  }

  /** A shown transcript always belongs to an agent that has a move this turn. */
  lemma ChatHasMove(gameData: Option<GameData>, selected: string, turn: int, chunkIndex: nat, source: DrawSource)
    requires ValidSource(source) && turn >= 0
    requires View(gameData, selected, turn, chunkIndex, source).Chat?
    ensures var v := View(gameData, selected, turn, chunkIndex, source);
              MoveAt(Lookup(gameData.value, v.agent).value, turn).Some?
  {
  }
}
