/**
  * The board-overview playback of App.js: a position (game index, turn)
  * over the loaded, immutable list of games, a play flag and a speed.
  *
  * The navigation rules are stated once as functions on `Position`; the
  * `Player` class holds the state the component keeps and its handlers are
  * proved to follow those functions. `Offset` numbers every in-bounds
  * position of the whole collection in playing order, and the lemmas show
  * that stepping forward and backward move one place along that numbering.
  */
module Playback {
  import opened Games

  /**
    * `getMaxTurnsForGame`: the longest board history among the game's
    * agents (a missing history counts as empty).
    */
  function MaxTurns(g: GameData): (m: nat)
    requires |g.agents| > 0
    ensures forall i :: 0 <= i < |g.agents| ==> |g.agents[i].record.boardHistory| <= m
    ensures exists i :: 0 <= i < |g.agents| && |g.agents[i].record.boardHistory| == m
    decreases |g.agents|
  {
    var first := |g.agents[0].record.boardHistory|;
    if |g.agents| == 1 then first
    else
      var rest := GameData(g.agents[1..]);
      var m := MaxTurns(rest);
      var j :| 0 <= j < |rest.agents| && |rest.agents[j].record.boardHistory| == m;
      assert |g.agents[j + 1].record.boardHistory| == m;
      Max(first, m)
  }

  /** Every loaded game has at least one agent, so `MaxTurns` is defined. */
  predicate Loaded(games: seq<Game>)
  {
    forall k :: 0 <= k < |games| ==> |games[k].data.agents| > 0
  }

  /** Every game has at least one turn to show. */
  predicate NonEmptyGames(games: seq<Game>)
  {
    Loaded(games) && forall k :: 0 <= k < |games| ==> MaxTurns(games[k].data) >= 1
  }

  datatype Position = Position(game: int, turn: int)

  /** The game index stays inside the collection (or is 0 when there is none). */
  predicate ValidGame(games: seq<Game>, game: int)
  {
    0 <= game && (game < |games| || game == 0)
  }

  /** The position names an existing turn of an existing game. */
  predicate InBounds(games: seq<Game>, p: Position)
    requires Loaded(games)
  {
    0 <= p.game < |games| && 0 <= p.turn < MaxTurns(games[p.game].data)
  }

  /** `handleStepForward`. */
  function Forward(games: seq<Game>, p: Position): Position
    requires Loaded(games)
  {
    if !(0 <= p.game < |games|) then p
    else if p.turn < MaxTurns(games[p.game].data) - 1 then Position(p.game, p.turn + 1)
    else if p.game < |games| - 1 then Position(p.game + 1, 0)
    else p
  }

  /**
    * `handleStepBackward`. Stepping back from turn 0 lands on the last turn
    * of the previous game, which is -1 when that game has no turns at all.
    */
  function Backward(games: seq<Game>, p: Position): (q: Position)
    requires Loaded(games) && p.game <= |games|
    ensures p.turn <= 0 && p.game > 0 && MaxTurns(games[p.game - 1].data) == 0 ==> q.turn == -1
  {
    if p.turn > 0 then Position(p.game, p.turn - 1)
    else if p.game > 0 then Position(p.game - 1, MaxTurns(games[p.game - 1].data) - 1)
    else p
  }

  /** `handleSkipToNextGame` on the position: the next game at turn 0, if any. */
  function SkipNext(games: seq<Game>, p: Position): Position
  {
    if p.game < |games| - 1 then Position(p.game + 1, 0) else p
  }

  /** `handleSkipToPrevGame` on the position: the previous game at turn 0, if any. */
  function SkipPrev(p: Position): Position
  {
    if p.game > 0 then Position(p.game - 1, 0) else p
  }

  /** Position and play flag after one tick of the auto-play interval. */
  datatype TickResult = TickResult(pos: Position, playing: bool)

  /**
    * The interval body: it is only scheduled while playing over a non-empty
    * collection with an existing current game; it advances like a step
    * forward, and at the last turn of the last game it stops playback.
    */
  function TickStep(games: seq<Game>, p: Position, playing: bool): TickResult
    requires Loaded(games)
  {
    if !(playing && |games| > 0 && 0 <= p.game < |games|) then TickResult(p, playing)
    else if p.turn < MaxTurns(games[p.game].data) - 1 then TickResult(Position(p.game, p.turn + 1), true)
    else if p.game < |games| - 1 then TickResult(Position(p.game + 1, 0), true)
    else TickResult(p, false)
  }

  /** A scheduled tick is a step forward, except at the very end where it stops. */
  lemma TickIsStepForward(games: seq<Game>, p: Position)
    requires Loaded(games) && 0 <= p.game < |games|
    ensures Forward(games, p) != p ==> TickStep(games, p, true) == TickResult(Forward(games, p), true)
    ensures Forward(games, p) == p ==> TickStep(games, p, true) == TickResult(p, false)
    ensures Forward(games, p) == p <==>
              p.game == |games| - 1 && p.turn >= MaxTurns(games[p.game].data) - 1
  {
  }

  // ----- The collection in playing order -----

  /** Number of turns of the games before game `k`. */
  function TurnsBefore(games: seq<Game>, k: int): (n: nat)
    requires Loaded(games) && 0 <= k <= |games|
  {
    if k == 0 then 0 else TurnsBefore(games, k - 1) + MaxTurns(games[k - 1].data)
  }

  /** Number of turns of the whole collection. */
  function TotalTurns(games: seq<Game>): nat
    requires Loaded(games)
  {
    TurnsBefore(games, |games|)
  }

  /** The place of a position in playing order. */
  function Offset(games: seq<Game>, p: Position): int
    requires Loaded(games) && 0 <= p.game < |games|
  {
    TurnsBefore(games, p.game) + p.turn
  }

  lemma {:induction false} TurnsBeforeMonotone(games: seq<Game>, i: int, j: int)
    requires Loaded(games) && 0 <= i <= j <= |games|
    ensures TurnsBefore(games, i) + (if i < j then MaxTurns(games[i].data) else 0) <= TurnsBefore(games, j)
    decreases j - i
  {
    if i < j {
      TurnsBeforeMonotone(games, i + 1, j);
    }
  }

  /** Every in-bounds position has a place in `0 .. TotalTurns - 1`. */
  lemma OffsetInRange(games: seq<Game>, p: Position)
    requires Loaded(games) && InBounds(games, p)
    ensures 0 <= Offset(games, p) < TotalTurns(games)
  {
    TurnsBeforeMonotone(games, p.game, |games|);
  }

  /** Distinct in-bounds positions have distinct places. */
  lemma OffsetInjective(games: seq<Game>, p: Position, q: Position)
    requires Loaded(games) && InBounds(games, p) && InBounds(games, q)
    requires Offset(games, p) == Offset(games, q)
    ensures p == q
  {
    if p.game < q.game {
      TurnsBeforeMonotone(games, p.game, q.game);
    } else if q.game < p.game {
      TurnsBeforeMonotone(games, q.game, p.game);
    }
  }

  /**
    * Stepping forward from an in-bounds position moves to the next place in
    * playing order, and is a no-op exactly at the last place.
    */
  lemma ForwardAdvances(games: seq<Game>, p: Position)
    requires NonEmptyGames(games) && InBounds(games, p)
    ensures InBounds(games, Forward(games, p))
    ensures Offset(games, p) < TotalTurns(games) - 1 ==>
              Offset(games, Forward(games, p)) == Offset(games, p) + 1
    ensures Offset(games, p) == TotalTurns(games) - 1 ==> Forward(games, p) == p
  {
    var g := p.game;
    if p.turn < MaxTurns(games[g].data) - 1 {
      TurnsBeforeMonotone(games, g, |games|);
    } else if g < |games| - 1 {
      ForwardAcrossGames(games, p);
    } else {
      assert TotalTurns(games) == TurnsBefore(games, g) + MaxTurns(games[g].data);
    }
  }

  /** The step from the last turn of a game that is not the last one. */
  lemma ForwardAcrossGames(games: seq<Game>, p: Position)
    requires Loaded(games) && InBounds(games, p) && p.game < |games| - 1
    requires p.turn >= MaxTurns(games[p.game].data) - 1
    requires MaxTurns(games[p.game + 1].data) >= 1
    ensures Forward(games, p) == Position(p.game + 1, 0)
    ensures InBounds(games, Forward(games, p))
    ensures Offset(games, Forward(games, p)) == Offset(games, p) + 1 < TotalTurns(games)
  {
    TurnsBeforeMonotone(games, p.game + 1, |games|);
  }

  /**
    * Stepping backward from an in-bounds position moves to the previous
    * place in playing order, and is a no-op exactly at turn 0 of game 0.
    */
  lemma BackwardRetreats(games: seq<Game>, p: Position)
    requires NonEmptyGames(games) && InBounds(games, p)
    ensures InBounds(games, Backward(games, p))
    ensures Offset(games, p) > 0 ==> Offset(games, Backward(games, p)) == Offset(games, p) - 1
    ensures Offset(games, p) == 0 ==> Backward(games, p) == p
  {
    if p.turn == 0 && p.game > 0 {
      assert MaxTurns(games[p.game - 1].data) >= 1;
      assert TurnsBefore(games, p.game) > 0;
    }
  }

  /** Stepping back undoes a step forward, except at the very end. */
  lemma BackwardUndoesForward(games: seq<Game>, p: Position)
    requires NonEmptyGames(games) && InBounds(games, p)
    requires Offset(games, p) < TotalTurns(games) - 1
    ensures Backward(games, Forward(games, p)) == p
  {
    ForwardAdvances(games, p);
    var q := Forward(games, p);
    BackwardRetreats(games, q);
    OffsetInjective(games, Backward(games, q), p);
  }

  /** Stepping forward undoes a step back, except at turn 0 of game 0. */
  lemma ForwardUndoesBackward(games: seq<Game>, p: Position)
    requires NonEmptyGames(games) && InBounds(games, p)
    requires p != Position(0, 0)
    ensures Forward(games, Backward(games, p)) == p
  {
    assert Offset(games, p) > 0 by {
      if p.game > 0 {
        TurnsBeforeMonotone(games, 0, p.game);
      }
    }
    BackwardRetreats(games, p);
    var q := Backward(games, p);
    OffsetInRange(games, p);
    ForwardAdvances(games, q);
    OffsetInjective(games, Forward(games, q), p);
  }

  /**
    * Across a game boundary: from turn 0 of game k + 1 a step back lands on
    * the last turn of game k, and a step forward from there comes back.
    */
  lemma BoundaryRoundTrip(games: seq<Game>, k: int)
    requires Loaded(games) && 0 <= k && k + 1 < |games|
    ensures Backward(games, Position(k + 1, 0)) == Position(k, MaxTurns(games[k].data) - 1)
    ensures Forward(games, Position(k, MaxTurns(games[k].data) - 1)) == Position(k + 1, 0)
  {
  }

  /** `n` steps forward. */
  function ForwardN(games: seq<Game>, p: Position, n: nat): Position
    requires Loaded(games)
    decreases n
  {
    if n == 0 then p else ForwardN(games, Forward(games, p), n - 1)
  }

  /** `n` steps forward move `n` places, as long as the end is not passed. */
  lemma {:induction false} ForwardNAdvances(games: seq<Game>, p: Position, n: nat)
    requires NonEmptyGames(games) && InBounds(games, p)
    requires Offset(games, p) + n <= TotalTurns(games) - 1
    ensures InBounds(games, ForwardN(games, p, n))
    decreases n
    ensures Offset(games, ForwardN(games, p, n)) == Offset(games, p) + n
  {
    if n > 0 {
      ForwardAdvances(games, p);
      ForwardNAdvances(games, Forward(games, p), n - 1);
    }
  }

  /**
    * Stepping forward `MaxTurns` of game k times from its turn 0 lands on
    * turn 0 of game k + 1.
    */
  lemma StepThroughGame(games: seq<Game>, k: int)
    requires NonEmptyGames(games) && 0 <= k && k + 1 < |games|
    ensures ForwardN(games, Position(k, 0), MaxTurns(games[k].data)) == Position(k + 1, 0)
  {
    var p := Position(k, 0);
    var n := MaxTurns(games[k].data);
    var q := Position(k + 1, 0);
    assert InBounds(games, q) by { assert MaxTurns(games[k + 1].data) >= 1; }
    OffsetInRange(games, q);
    ForwardNAdvances(games, p, n);
    OffsetInjective(games, ForwardN(games, p, n), q);
  }

  /** Skipping keeps the position in bounds when every game has a turn. */
  lemma SkipKeepsInBounds(games: seq<Game>, p: Position)
    requires NonEmptyGames(games) && InBounds(games, p)
    ensures InBounds(games, SkipNext(games, p)) && InBounds(games, SkipPrev(p))
  {
    assert 0 <= p.game < |games|;
    if p.game < |games| - 1 {
      assert MaxTurns(games[p.game + 1].data) >= 1;
    }
    if p.game > 0 {
      assert MaxTurns(games[p.game - 1].data) >= 1;
    }
  }

  /** A tick keeps the position in bounds when every game has a turn. */
  lemma TickKeepsInBounds(games: seq<Game>, p: Position, playing: bool)
    requires NonEmptyGames(games) && InBounds(games, p)
    ensures InBounds(games, TickStep(games, p, playing).pos)
  {
    if playing {
      TickIsStepForward(games, p);
      ForwardAdvances(games, p);
    }
  }

  /**
    * The state App.js keeps for the overview tab. `games` is the collection
    * once it has been loaded; it is never changed afterwards.
    */
  class Player {
    const games: seq<Game>
    var gameIndex: int
    var turn: int
    var isPlaying: bool
    var speed: int

    ghost predicate Valid()
      reads this
    {
      Loaded(games) && ValidGame(games, gameIndex)
    }

    function Cursor(): Position
      reads this
    {
      Position(gameIndex, turn)
    }

    /** The initial state: first game, first turn, paused, 500 ms per tick. */
    constructor (loaded: seq<Game>)
      requires Loaded(loaded)
      ensures Valid() && games == loaded
      ensures gameIndex == 0 && turn == 0 && !isPlaying && speed == 500
    {
      games := loaded;
      gameIndex, turn := 0, 0;
      isPlaying := false;
      speed := 500;
    }

    /** `maxTurns` shown by the controls: that of the current game, or 0. */
    function CurrentMaxTurns(): (m: nat)
      requires Valid()
      reads this
      ensures gameIndex < |games| ==> m == MaxTurns(games[gameIndex].data)
      ensures |games| == 0 ==> m == 0
    {
      if gameIndex < |games| then MaxTurns(games[gameIndex].data) else 0
    }

    /** `handlePlayPause`: flips the play flag and nothing else. */
    method PlayPause()
      modifies this
      ensures isPlaying == !old(isPlaying)
      ensures Cursor() == old(Cursor()) && speed == old(speed)
    {
      isPlaying := !isPlaying;
    }

    /** `onSpeedChange={setPlaybackSpeed}`: replaces the speed and nothing else. */
    method SetSpeed(ms: int)
      modifies this
      ensures speed == ms
      ensures Cursor() == old(Cursor()) && isPlaying == old(isPlaying)
    {
      speed := ms;
    }

    /** `onTurnChange={setCurrentTurn}`: replaces the turn, without clamping. */
    method Seek(t: int)
      modifies this
      ensures turn == t
      ensures gameIndex == old(gameIndex) && isPlaying == old(isPlaying) && speed == old(speed)
    {
      turn := t;
    }

    /**
      * `handleSkipToNextGame`: next game, turn 0, paused; at the last game
      * nothing changes, not even the play flag.
      */
    method SkipToNextGame()
      requires Valid()
      modifies this
      ensures Valid() && speed == old(speed)
      ensures Cursor() == SkipNext(games, old(Cursor()))
      ensures isPlaying == (if old(gameIndex) < |games| - 1 then false else old(isPlaying))
    {
      if gameIndex < |games| - 1 {
        gameIndex := gameIndex + 1;
        turn := 0;
        isPlaying := false;
      }
    }

    /**
      * `handleSkipToPrevGame`: previous game, turn 0, paused; at the first
      * game nothing changes.
      */
    method SkipToPrevGame()
      requires Valid()
      modifies this
      ensures Valid() && speed == old(speed)
      ensures Cursor() == SkipPrev(old(Cursor()))
      ensures isPlaying == (if old(gameIndex) > 0 then false else old(isPlaying))
    {
      if gameIndex > 0 {
        gameIndex := gameIndex - 1;
        turn := 0;
        isPlaying := false;
      }
    }

    /** `handleStepForward`: moves the position only. */
    method StepForward()
      requires Valid()
      modifies this
      ensures Valid() && Cursor() == Forward(games, old(Cursor()))
      ensures isPlaying == old(isPlaying) && speed == old(speed)
    {
      if !(gameIndex < |games|) {
        return;
      }
      var maxTurns: int := MaxTurns(games[gameIndex].data);
      if turn < maxTurns - 1 {
        turn := turn + 1;
      } else if gameIndex < |games| - 1 {
        gameIndex := gameIndex + 1;
        turn := 0;
      }
    }

    /** `handleStepBackward`: moves the position only. */
    method StepBackward()
      requires Valid()
      modifies this
      ensures Valid() && Cursor() == Backward(games, old(Cursor()))
      ensures isPlaying == old(isPlaying) && speed == old(speed)
    {
      if turn > 0 {
        turn := turn - 1;
      } else if gameIndex > 0 {
        var prevGame := games[gameIndex - 1];
        gameIndex := gameIndex - 1;
        turn := MaxTurns(prevGame.data) - 1;
      }
    }

    /** One firing of the auto-play interval. */
    method Tick()
      requires Valid()
      modifies this
      ensures Valid() && speed == old(speed)
      ensures TickResult(Cursor(), isPlaying) == TickStep(games, old(Cursor()), old(isPlaying))
    {
      if !(isPlaying && |games| > 0 && gameIndex < |games|) {
        return;
      }
      var maxTurns: int := MaxTurns(games[gameIndex].data);
      if turn < maxTurns - 1 {
        turn := turn + 1;
      } else if gameIndex < |games| - 1 {
        gameIndex := gameIndex + 1;
        turn := 0;
      } else {
        isPlaying := false;
      }
    }
  }
}
