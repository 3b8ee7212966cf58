/**
  * The per-agent board shown at a given turn ("frozen on completion") and
  * the hit count drawn under it. AgentCategory, FloatingBoardPanel and the
  * focus mode of StatsPanel all read an agent's record this way.
  */
module BoardTimeline {
  import opened Games

  /**
    * `boardHistory[Math.min(turn, boardHistory.length - 1)] || []`: the
    * snapshot of that turn, the last snapshot once the agent has finished,
    * and an empty board when there is no history (or the index is negative).
    */
  function CurrentBoard(history: seq<Board>, turn: int): (b: Board)
    ensures 0 <= turn < |history| ==> b == history[turn]
    ensures |history| > 0 && turn >= |history| - 1 ==> b == history[|history| - 1]
    ensures |history| == 0 || turn < 0 ==> b == []
  {
    var i := Min(turn, |history| - 1);
    if 0 <= i < |history| then history[i] else []
  }

  /** `currentTurn >= boardHistory.length - 1 && boardHistory.length > 0`. */
  predicate IsFinished(historyLength: nat, turn: int)
  {
    turn >= historyLength - 1 && historyLength > 0
  }

  /** Once an agent has finished, later turns show the same, last board. */
  lemma FrozenOnCompletion(history: seq<Board>, turn: int, later: int)
    requires IsFinished(|history|, turn) && turn <= later
    ensures CurrentBoard(history, later) == CurrentBoard(history, turn) == history[|history| - 1]
  {
  }

  /** Number of cells of one row whose mark is in `marks`. */
  function RowCount(row: seq<string>, marks: set<string>): (n: nat)
    ensures n <= |row|
  {
    if row == [] then 0
    else (if row[0] in marks then 1 else 0) + RowCount(row[1..], marks)
  }

  /**
    * `board.reduce((total, row) => total + row.filter(cell => marks).length, 0)`.
    */
  function CountMarks(board: Board, marks: set<string>): nat
  {
    if board == [] then 0
    else RowCount(board[0], marks) + CountMarks(board[1..], marks)
  }

  /** The cells of a board in row-major order. */
  function Flatten(board: Board): seq<string>
  {
    if board == [] then [] else board[0] + Flatten(board[1..])
  }

  lemma {:induction false} RowCountOccurrences(row: seq<string>, m1: string, m2: string)
    requires m1 != m2
    ensures RowCount(row, {m1}) == multiset(row)[m1]
    ensures RowCount(row, {m1, m2}) == multiset(row)[m1] + multiset(row)[m2]
  {
    if row != [] {
      RowCountOccurrences(row[1..], m1, m2);
      assert row == [row[0]] + row[1..];
      assert multiset(row) == multiset{row[0]} + multiset(row[1..]);
    }
  }

  /**
    * The hit count under a board is the number of occurrences of the hit
    * mark (and, where two marks count, of both) among all its cells.
    */
  lemma {:induction false} CountMarksOccurrences(board: Board, m1: string, m2: string)
    requires m1 != m2
    ensures CountMarks(board, {m1}) == multiset(Flatten(board))[m1]
    ensures CountMarks(board, {m1, m2}) == multiset(Flatten(board))[m1] + multiset(Flatten(board))[m2]
  {
    if board != [] {
      RowCountOccurrences(board[0], m1, m2);
      CountMarksOccurrences(board[1..], m1, m2);
      assert multiset(Flatten(board)) == multiset(board[0]) + multiset(Flatten(board[1..]));
    }
  }

  /** What `BoardDisplay` is given for one agent. */
  datatype BoardView = BoardView(agentName: string, board: Board, turns: int, hits: nat, isFinished: bool)

  /**
    * The board card of one agent at `turn`: the frozen-on-completion board,
    * `Math.min(turn + 1, turns)` turns, the number of cells marked with one
    * of `marks`, and whether the agent has finished.
    */
  function Card(name: string, rec: AgentRecord, turn: int, marks: set<string>): (v: BoardView)
    ensures v.agentName == name
    ensures v.board == CurrentBoard(rec.boardHistory, turn)
    ensures v.turns <= rec.turns && v.turns <= turn + 1 && (v.turns == rec.turns || v.turns == turn + 1)
    ensures v.hits == CountMarks(v.board, marks)
    ensures v.isFinished <==> |rec.boardHistory| > 0 && turn >= |rec.boardHistory| - 1
  {
    var board := CurrentBoard(rec.boardHistory, turn);
    BoardView(name, board, Min(turn + 1, rec.turns), CountMarks(board, marks),
              IsFinished(|rec.boardHistory|, turn))
  }

  /**
    * A card counting 'h' cells shows as hits the number of 'h' cells on
    * its board, and once finished, the last snapshot.
    */
  lemma HitCardFacts(name: string, rec: AgentRecord, turn: int)
    ensures var v := Card(name, rec, turn, {"h"});
              v.hits == multiset(Flatten(v.board))["h"] &&
              (v.isFinished ==> v.board == rec.boardHistory[|rec.boardHistory| - 1])
  {
    var v := Card(name, rec, turn, {"h"});
    CountMarksOccurrences(v.board, "h", "s");
  }
}
