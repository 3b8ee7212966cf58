/**
  * The helpers of GameClient.js, the interactive game against the server:
  * the opponent-name heuristics, the abstract race progress board, the
  * "A0".."J9" shot labels, the local updates made after an AI shot (player
  * board, ship hit/sunk status, race counters), the enemy fleet status and
  * the player board built from the deployed fleet.
  */
module GameClient {
  import opened Games
  import opened BoardTimeline
  import ShipPlacement

  // ---------------------------------------------------------------------
  // Names

  /** `toLowerCase` on ASCII letters; other characters are kept. */
  function LowerChar(ch: char): char
  {
    if 'A' <= ch <= 'Z' then (ch as int + 32) as char else ch
  }

  function Lower(s: string): (r: string)
    ensures |r| == |s|
    ensures forall i :: 0 <= i < |s| ==> r[i] == LowerChar(s[i])
  {
    seq(|s|, i requires 0 <= i < |s| => LowerChar(s[i]))
  }

  /** `s.includes(sub)`. */
  predicate Contains(s: string, sub: string)
  {
    exists i | 0 <= i <= |s| - |sub| :: OccursAt(s, sub, i)
  }

  predicate OccursAt(s: string, sub: string, i: int)
  {
    0 <= i <= |s| - |sub| && s[i..i + |sub|] == sub
  }

  lemma ContainsAt(s: string, sub: string, i: int)
    requires 0 <= i <= |s| - |sub| && forall j :: 0 <= j < |sub| ==> s[i + j] == sub[j]
    ensures Contains(s, sub)
  {
    assert s[i..i + |sub|] == sub;
    assert OccursAt(s, sub, i);
  }

  /** The substrings that mark an opponent as a language model. */
  const LlmMarkers: seq<string> := ["llm", "llama", "gpt", "claude", "openai", "chatgpt"]

  /**
    * `isLlmAgent`: false for a missing or empty name, otherwise whether the
    * lowercased name contains one of the markers.
    */
  function IsLlmAgent(name: string): (r: bool)
    ensures r <==> exists m :: m in LlmMarkers && Contains(Lower(name), m)
    ensures r ==> |name| >= 3
  {
    if name == "" then false
    else
      var n := Lower(name);
      Contains(n, "llm") || Contains(n, "llama") || Contains(n, "gpt") ||
      Contains(n, "claude") || Contains(n, "openai") || Contains(n, "chatgpt")
  }

  /** Lowercasing twice is lowercasing once. */
  lemma LowerIdempotent(s: string)
    ensures Lower(Lower(s)) == Lower(s)
  {
    assert forall i :: 0 <= i < |s| ==> LowerChar(LowerChar(s[i])) == LowerChar(s[i]);
  }

  /** The heuristic does not depend on letter case. */
  lemma IsLlmAgentIgnoresCase(name: string)
    ensures IsLlmAgent(Lower(name)) == IsLlmAgent(name)
  {
    LowerIdempotent(name);
    var n := Lower(name);
    assert n == "" <==> name == "";
    assert Lower(n) == n;
    forall m | m in LlmMarkers
      ensures Contains(Lower(n), m) == Contains(n, m)
    {
    }
  }

  /** Every name containing "chatgpt" already contains "gpt": the last marker adds nothing. */
  lemma ChatGptImpliesGpt(s: string)
    requires Contains(s, "chatgpt")
    ensures Contains(s, "gpt")
  {
    var i :| 0 <= i <= |s| - 7 && OccursAt(s, "chatgpt", i);
    var t := s[i..i + 7];
    assert s[i + 4] == t[4] == 'g' && s[i + 5] == t[5] == 'p' && s[i + 6] == t[6] == 't';
    ContainsAt(s, "gpt", i + 4);
  }

  /** `formatAgentName`: the two server agent ids get display names, other names are kept. */
  function FormatAgentName(name: string): (r: string)
    ensures name != "llm-local" && name != "llm-openrouter" ==> r == name
    ensures name == "llm-local" ==> r == "Llama-3.1-8B-Fine-Tuned - w/ hints"
    ensures name == "llm-openrouter" ==> r == "Llama-4-Scout - w/ hints"
  {
    if name == "llm-local" then "Llama-3.1-8B-Fine-Tuned - w/ hints"
    else if name == "llm-openrouter" then "Llama-4-Scout - w/ hints"
    else name
  }

  /** A name whose lowercase form starts with `prefix`, a marker, is a language model's. */
  lemma MarkedByPrefix(name: string, prefix: string)
    requires prefix in LlmMarkers && |prefix| <= |name|
    requires forall j :: 0 <= j < |prefix| ==> LowerChar(name[j]) == prefix[j]
    ensures IsLlmAgent(name)
  {
    ContainsAt(Lower(name), prefix, 0);
  }

  /** The two mapped ids are marked as language models. */
  lemma MappedIdsAreLlm(name: string)
    requires name == "llm-local" || name == "llm-openrouter"
    ensures IsLlmAgent(name)
  {
    MarkedByPrefix(name, "llm");
  }

  /** So are their display names. */
  lemma DisplayNamesAreLlm(name: string)
    requires name == "llm-local" || name == "llm-openrouter"
    ensures IsLlmAgent(FormatAgentName(name))
  {
    MarkedByPrefix(FormatAgentName(name), "llama");
  }

  // ---------------------------------------------------------------------
  // Race progress board

  function Clamp(x: int, lo: int, hi: int): int
  {
    if x < lo then lo else if x > hi then hi else x
  }

  /** One of the 17 "fleet health" cells: all of row 9, then columns 0-6 of row 8. */
  predicate IsHealthCell(r: int, c: int)
  {
    (r == 9 && 0 <= c < 10) || (r == 8 && 0 <= c < 7)
  }

  /** The position of a health cell in the order the cells are collected (row 9 first). */
  function HealthIndex(r: int, c: int): int
  {
    (9 - r) * 10 + c
  }

  /**
    * A cell of the progress board: a health cell is 'X' while its index is
    * below the hit count and '_' otherwise; among rows 0-5, the first
    * `aiMisses` cells in row-major order are 'O'; every other cell is '.'.
    */
  function ProgressCell(aiHits: int, aiMisses: int, r: int, c: int): string
  {
    if IsHealthCell(r, c) then (if HealthIndex(r, c) < aiHits then "X" else "_")
    else if 0 <= r < 6 && r * 10 + c < aiMisses then "O"
    else "."
  }

  function ProgressBoard(aiHits: int, aiMisses: int): (b: Board)
    ensures |b| == 10 && forall r :: 0 <= r < 10 ==> |b[r]| == 10
    ensures forall r, c :: 0 <= r < 10 && 0 <= c < 10 ==> b[r][c] == ProgressCell(aiHits, aiMisses, r, c)
  {
    seq(10, r => seq(10, c => ProgressCell(aiHits, aiMisses, r, c)))
  }

  /**
    * `generateProgressBoard(aiHits, aiMisses)`: a 10x10 board of '.', the
    * health cells collected from row 9 upwards until there are 17, marked
    * 'X' or '_', then the misses drawn from the top-left corner over rows
    * 0-5 while any are left.
    */
  method GenerateProgressBoard(aiHits: int, aiMisses: int) returns (board: Board)
    ensures board == ProgressBoard(aiHits, aiMisses)
  {
    board := seq(10, _ => seq(10, _ => "."));
    var shipCells: seq<(int, int)> := [];
    var r := 9;
    while r >= 6
      invariant 5 <= r <= 9
      invariant |shipCells| == Min(17, (9 - r) * 10)
      invariant forall i :: 0 <= i < |shipCells| ==>
                  IsHealthCell(shipCells[i].0, shipCells[i].1) && HealthIndex(shipCells[i].0, shipCells[i].1) == i
    {
      var c := 0;
      while c < 10
        invariant 0 <= c <= 10
        invariant |shipCells| == Min(17, (9 - r) * 10 + c)
        invariant forall i :: 0 <= i < |shipCells| ==>
                    IsHealthCell(shipCells[i].0, shipCells[i].1) && HealthIndex(shipCells[i].0, shipCells[i].1) == i
      {
        if |shipCells| < 17 {
          shipCells := shipCells + [(r, c)];
        }
        c := c + 1;
      }
      r := r - 1;
    }
    var index := 0;
    while index < |shipCells|
      invariant 0 <= index <= |shipCells| == 17
      invariant |board| == 10 && forall r :: 0 <= r < 10 ==> |board[r]| == 10
      invariant forall r, c :: 0 <= r < 10 && 0 <= c < 10 ==>
                  board[r][c] == if IsHealthCell(r, c) && HealthIndex(r, c) < index
                                 then ProgressCell(aiHits, 0, r, c) else "."
    {
      var (hr, hc) := shipCells[index];
      board := board[hr := board[hr][hc := if index < aiHits then "X" else "_"]];
      index := index + 1;
    }
    var missesToDraw := aiMisses;
    r := 0;
    while r < 6
      invariant 0 <= r <= 6
      invariant missesToDraw == aiMisses - Clamp(aiMisses, 0, r * 10) 
      invariant |board| == 10 && forall r :: 0 <= r < 10 ==> |board[r]| == 10
      invariant forall r', c :: 0 <= r' < 10 && 0 <= c < 10 ==>
                  board[r'][c] == if r' < r then ProgressCell(aiHits, aiMisses, r', c)
                                  else ProgressCell(aiHits, 0, r', c)
    {
      var c := 0;
      while c < 10
        invariant 0 <= c <= 10
        invariant missesToDraw == aiMisses - Clamp(aiMisses, 0, r * 10 + c)
        invariant |board| == 10 && forall r :: 0 <= r < 10 ==> |board[r]| == 10
        invariant forall r', c' :: 0 <= r' < 10 && 0 <= c' < 10 ==>
                    board[r'][c'] == if r' < r || (r' == r && c' < c) then ProgressCell(aiHits, aiMisses, r', c')
                                     else ProgressCell(aiHits, 0, r', c')
      {
        if missesToDraw > 0 {
          board := board[r := board[r][c := "O"]];
          missesToDraw := missesToDraw - 1;
        }
        c := c + 1;
      }
      r := r + 1;
    }
    ghost var expected := ProgressBoard(aiHits, aiMisses);
    forall r' | 0 <= r' < 10
      ensures board[r'] == expected[r']
    {
      assert forall c :: 0 <= c < 10 ==> board[r'][c] == expected[r'][c];
    }
  }

  /** A row whose marked cells are exactly the first `k` has `k` marked cells, within the row. */
  lemma {:induction false} PrefixRowCount(row: seq<string>, marks: set<string>, k: int)
    requires forall c :: 0 <= c < |row| ==> (row[c] in marks <==> c < k)
    ensures RowCount(row, marks) == Clamp(k, 0, |row|)
  {
    if row != [] {
      assert forall c :: 0 <= c < |row| - 1 ==> row[1..][c] == row[c + 1];
      PrefixRowCount(row[1..], marks, k - 1);
    }
  }

  /** Hits drawn in rows `j..9`. */
  lemma {:induction false} HitCountFrom(aiHits: int, aiMisses: int, j: int)
    requires 0 <= j <= 10
    ensures CountMarks(ProgressBoard(aiHits, aiMisses)[j..], {"X"}) ==
              if j <= 8 then Clamp(aiHits, 0, 17) else if j == 9 then Clamp(aiHits, 0, 10) else 0
    ensures CountMarks(ProgressBoard(aiHits, aiMisses)[j..], {"X", "_"}) ==
              if j <= 8 then 17 else if j == 9 then 10 else 0
    decreases 10 - j
  {
    var b := ProgressBoard(aiHits, aiMisses);
    if j < 10 {
      HitCountFrom(aiHits, aiMisses, j + 1);
      assert b[j..][1..] == b[j + 1..];
      var k := if j == 9 then aiHits else if j == 8 then Min(7, aiHits - 10) else 0;
      PrefixRowCount(b[j], {"X"}, k);
      PrefixRowCount(b[j], {"X", "_"}, if j == 9 then 10 else if j == 8 then 7 else 0);
    }
  }

  /** Misses drawn in rows `j..9`. */
  lemma {:induction false} MissCountFrom(aiHits: int, aiMisses: int, j: int)
    requires 0 <= j <= 10
    ensures CountMarks(ProgressBoard(aiHits, aiMisses)[j..], {"O"}) ==
              if j >= 6 then 0 else Clamp(aiMisses - 10 * j, 0, 60 - 10 * j)
    decreases 10 - j
  {
    var b := ProgressBoard(aiHits, aiMisses);
    if j < 10 {
      MissCountFrom(aiHits, aiMisses, j + 1);
      assert b[j..][1..] == b[j + 1..];
      PrefixRowCount(b[j], {"O"}, if j < 6 then aiMisses - 10 * j else 0);
    }
  }

  /**
    * The progress board shows `min(aiHits, 17)` hits and the rest of the 17
    * health cells standing (none when the count is negative), and
    * `min(aiMisses, 60)` misses.
    */
  lemma ProgressCounts(aiHits: int, aiMisses: int)
    ensures var b := ProgressBoard(aiHits, aiMisses);
              CountMarks(b, {"X"}) == Clamp(aiHits, 0, 17) &&
              CountMarks(b, {"X", "_"}) == 17 &&
              CountMarks(b, {"O"}) == Clamp(aiMisses, 0, 60)
  {
    var b := ProgressBoard(aiHits, aiMisses);
    assert b[0..] == b;
    HitCountFrom(aiHits, aiMisses, 0);
    MissCountFrom(aiHits, aiMisses, 0);
  }

  // ---------------------------------------------------------------------
  // Shot labels

  const Columns: string := "ABCDEFGHIJ"

  predicate IsDigit(ch: char)
  {
    '0' <= ch <= '9'
  }

  function DigitChar(d: int): (ch: char)
    requires 0 <= d < 10
    ensures IsDigit(ch)
  {
    ('0' as int + d) as char
  }

  /** `String(n)` for a non-negative integer: its decimal digits, most significant first. */
  function NatToDecimal(n: nat): (s: string)
    ensures |s| >= 1 && forall i :: 0 <= i < |s| ==> IsDigit(s[i])
  {
    if n < 10 then [DigitChar(n)] else NatToDecimal(n / 10) + [DigitChar(n % 10)]
  }

  /** The value of a string of decimal digits. */
  function DigitsValue(s: string): nat
    requires forall i :: 0 <= i < |s| ==> IsDigit(s[i])
  {
    if s == [] then 0
    else
      assert IsDigit(s[|s| - 1]);
      DigitsValue(s[..|s| - 1]) * 10 + (s[|s| - 1] as int - '0' as int)
  }

  /** The length of the run of digits that starts the string. */
  function LeadingDigits(s: string): (k: nat)
    ensures k <= |s| && forall i :: 0 <= i < k ==> IsDigit(s[i])
    ensures k < |s| ==> !IsDigit(s[k])
  {
    if s == [] || !IsDigit(s[0]) then 0 else 1 + LeadingDigits(s[1..])
  }

  /**
    * `parseInt(s, 10)` on a string that starts with its digits: the value of
    * the leading digits, or `NaN` (here `None`) when there are none.
    */
  function ParseInt(s: string): (r: Option<nat>)
    ensures r.None? <==> s == [] || !IsDigit(s[0])
  {
    var k := LeadingDigits(s);
    if k == 0 then None else Some(DigitsValue(s[..k]))
  }

  /** `"ABCDEFGHIJ"[c] + r`: the label of the shot at row `r`, column `c`. */
  function ShotLabel(r: nat, c: int): (lbl: string)
    requires 0 <= c < 10
    ensures |lbl| >= 2 && lbl[0] == Columns[c]
  {
    [Columns[c]] + NatToDecimal(r)
  }

  /**
    * The cell of an AI move: column `charCodeAt(0) - 65`, row
    * `parseInt(move.slice(1), 10)`; `None` when the row is `NaN`.
    */
  function DecodeLabel(move: string): (cell: Option<(int, int)>)
    requires move != ""
    ensures cell.Some? ==> cell.value.1 == move[0] as int - 'A' as int && cell.value.0 >= 0
  {
    var row := ParseInt(move[1..]);
    if row.None? then None else Some((row.value, move[0] as int - 'A' as int))
  }

  lemma {:induction false} DecimalValue(n: nat)
    ensures DigitsValue(NatToDecimal(n)) == n
  {
    if n >= 10 {
      DecimalValue(n / 10);
      var s := NatToDecimal(n);
      assert s[..|s| - 1] == NatToDecimal(n / 10);
    }
  }

  lemma {:induction false} AllDigitsLeading(s: string)
    requires forall i :: 0 <= i < |s| ==> IsDigit(s[i])
    ensures LeadingDigits(s) == |s|
  {
    if s != [] {
      AllDigitsLeading(s[1..]);
    }
  }

  /** Decoding the label of any cell in columns A-J gives the cell back. */
  lemma LabelRoundTrip(r: nat, c: int)
    requires 0 <= c < 10
    ensures DecodeLabel(ShotLabel(r, c)) == Some((r, c))
  {
    var lbl := ShotLabel(r, c);
    assert lbl[1..] == NatToDecimal(r);
    AllDigitsLeading(NatToDecimal(r));
    DecimalValue(r);
    assert NatToDecimal(r)[..|NatToDecimal(r)|] == NatToDecimal(r);
    assert Columns[c] as int - 'A' as int == c;
  }

  /** Distinct cells have distinct labels. */
  lemma LabelInjective(r1: nat, c1: int, r2: nat, c2: int)
    requires 0 <= c1 < 10 && 0 <= c2 < 10 && ShotLabel(r1, c1) == ShotLabel(r2, c2)
    ensures r1 == r2 && c1 == c2
  {
    LabelRoundTrip(r1, c1);
    LabelRoundTrip(r2, c2);
  }

  /** The key of a player's ship cell: `String.fromCharCode(65 + col) + row`. */
  function CellKey(row: nat, col: int): string
    requires 0 <= col < 10
  {
    [(65 + col) as char] + NatToDecimal(row)
  }

  /** A ship cell's key is the label an AI shot at that cell carries. */
  lemma CellKeyIsShotLabel(row: nat, col: int)
    requires 0 <= col < 10
    ensures CellKey(row, col) == ShotLabel(row, col)
  {
    assert Columns[col] == (65 + col) as char;
  }

  // ---------------------------------------------------------------------
  // After an AI shot

  /** The server's shot results that count as a hit. */
  predicate IsHit(shotResult: string)
  {
    shotResult == "HIT" || shotResult == "SUNK"
  }

  predicate IsTenByTen(b: Board)
  {
    |b| == 10 && forall r :: 0 <= r < 10 ==> |b[r]| == 10
  }

  /** The AI move decodes to a cell of the grid. */
  predicate TargetsGrid(aiMove: string)
  {
    aiMove != "" && DecodeLabel(aiMove).Some? &&
    0 <= DecodeLabel(aiMove).value.0 < 10 && 0 <= DecodeLabel(aiMove).value.1 < 10
  }

  /**
    * The player board after an AI shot: a copy of the board whose target
    * cell becomes 'X' on a hit and 'O' otherwise; every other cell is kept.
    */
  function ApplyAiShot(board: Board, aiMove: string, shotResult: string): (b: Board)
    requires IsTenByTen(board) && TargetsGrid(aiMove)
    ensures IsTenByTen(b)
    ensures var (row, col) := DecodeLabel(aiMove).value;
              b[row][col] == (if IsHit(shotResult) then "X" else "O") &&
              forall r, c :: 0 <= r < 10 && 0 <= c < 10 && (r, c) != (row, col) ==> b[r][c] == board[r][c]
  {
    var (row, col) := DecodeLabel(aiMove).value;
    board[row := board[row][col := if IsHit(shotResult) then "X" else "O"]]
  }

  /** A shot at a cell's label marks that cell and no other. */
  lemma ShotMarksItsCell(board: Board, r: nat, c: int, shotResult: string)
    requires IsTenByTen(board) && r < 10 && 0 <= c < 10
    ensures TargetsGrid(ShotLabel(r, c))
    ensures var b := ApplyAiShot(board, ShotLabel(r, c), shotResult);
              b[r][c] == (if IsHit(shotResult) then "X" else "O") &&
              forall r', c' :: 0 <= r' < 10 && 0 <= c' < 10 && (r', c') != (r, c) ==> b[r'][c'] == board[r'][c']
  {
    LabelRoundTrip(r, c);
  }

  /** One of the player's ships: its cell labels, the hits it took and whether it sank. */
  datatype ShipStatus = ShipStatus(name: string, id: string, size: nat, cells: seq<string>, hits: nat, sunk: bool)

  /**
    * The ships after an AI shot: on a hit, each ship whose cells hold the
    * move takes one more hit and is sunk once its hits reach its size;
    * otherwise, and for every other ship, nothing changes.
    */
  function UpdateShips(ships: seq<ShipStatus>, aiMove: string, shotResult: string): (r: seq<ShipStatus>)
    ensures |r| == |ships|
    ensures forall i :: 0 <= i < |r| ==>
              r[i].name == ships[i].name && r[i].id == ships[i].id &&
              r[i].size == ships[i].size && r[i].cells == ships[i].cells
    ensures forall i :: 0 <= i < |r| ==>
              if IsHit(shotResult) && aiMove in ships[i].cells
              then r[i].hits == ships[i].hits + 1 && (r[i].sunk <==> r[i].hits >= r[i].size)
              else r[i] == ships[i]
  {
    if !IsHit(shotResult) then ships
    else seq(|ships|, i requires 0 <= i < |ships| =>
               var ship := ships[i];
               if aiMove in ship.cells
               then ship.(hits := ship.hits + 1, sunk := ship.hits + 1 >= ship.size)
               else ship)
  }

  /** Every ship is marked sunk exactly when its hits have reached its size. */
  predicate SunkAgrees(ships: seq<ShipStatus>)
  {
    forall i :: 0 <= i < |ships| ==> (ships[i].sunk <==> ships[i].hits >= ships[i].size)
  }

  /** A shot keeps the sunk flags in agreement with the hit counts. */
  lemma UpdateKeepsSunkAgrees(ships: seq<ShipStatus>, aiMove: string, shotResult: string)
    requires SunkAgrees(ships)
    ensures SunkAgrees(UpdateShips(ships, aiMove, shotResult))
  {
  }

  /** One AI shot as the client sees it: the move label and the result. */
  datatype Shot = Shot(move: string, result: string)

  function ApplyShots(ships: seq<ShipStatus>, shots: seq<Shot>): (r: seq<ShipStatus>)
    ensures |r| == |ships|
    decreases |shots|
  {
    if shots == [] then ships
    else ApplyShots(UpdateShips(ships, shots[0].move, shots[0].result), shots[1..])
  }

  /** The number of shots that hit one of these cells. */
  function HitsOn(cells: seq<string>, shots: seq<Shot>): nat
    decreases |shots|
  {
    if shots == [] then 0
    else (if IsHit(shots[0].result) && shots[0].move in cells then 1 else 0) + HitsOn(cells, shots[1..])
  }

  /**
    * After a series of AI shots, each ship has taken one hit per hitting
    * shot at one of its cells, and the sunk flags still agree.
    */
  lemma {:induction false} HitsAccumulate(ships: seq<ShipStatus>, shots: seq<Shot>)
    requires SunkAgrees(ships)
    ensures var r := ApplyShots(ships, shots);
              SunkAgrees(r) &&
              forall i :: 0 <= i < |ships| ==>
                r[i].cells == ships[i].cells && r[i].size == ships[i].size &&
                r[i].hits == ships[i].hits + HitsOn(ships[i].cells, shots)
    decreases |shots|
  {
    if shots != [] {
      var next := UpdateShips(ships, shots[0].move, shots[0].result);
      UpdateKeepsSunkAgrees(ships, shots[0].move, shots[0].result);
      HitsAccumulate(next, shots[1..]);
    }
  }

  /** The race-mode counters of the AI's hits and misses. */
  datatype RaceStats = RaceStats(hits: int, misses: int)

  /** A race-mode shot: one more hit on HIT or SUNK, one more miss on MISS, else no change. */
  function RaceUpdate(st: RaceStats, shotResult: string): (r: RaceStats)
    ensures r.hits + r.misses <= st.hits + st.misses + 1
    ensures r.hits == st.hits + (if IsHit(shotResult) then 1 else 0)
    ensures r.misses == st.misses + (if shotResult == "MISS" then 1 else 0)
  {
    RaceStats(st.hits + (if IsHit(shotResult) then 1 else 0),
              st.misses + (if shotResult == "MISS" then 1 else 0))
  }

  /**
    * The counters on resuming a game: the server's hit count, and the turns
    * that were not hits as misses (never below zero). Missing values are 0.
    */
  function ResumeStats(aiTurns: int, aiHits: int): (r: RaceStats)
    ensures r.hits == aiHits && r.misses >= 0 && r.misses >= aiTurns - aiHits
    ensures r.misses == 0 || r.hits + r.misses == aiTurns
  {
    RaceStats(aiHits, Max(0, aiTurns - aiHits))
  }

  function RaceAfter(st: RaceStats, results: seq<string>): RaceStats
    decreases |results|
  {
    if results == [] then st else RaceAfter(RaceUpdate(st, results[0]), results[1..])
  }

  function CountHits(results: seq<string>): nat
  {
    if results == [] then 0 else (if IsHit(results[0]) then 1 else 0) + CountHits(results[1..])
  }

  function CountMisses(results: seq<string>): nat
  {
    if results == [] then 0 else (if results[0] == "MISS" then 1 else 0) + CountMisses(results[1..])
  }

  /**
    * From zero, the counters are the number of hitting shots and the number
    * of misses; when every result is HIT, SUNK or MISS, they are what a
    * resume would rebuild from the number of turns and hits.
    */
  lemma {:induction false} RaceCounts(results: seq<string>, st: RaceStats)
    ensures RaceAfter(st, results) ==
              RaceStats(st.hits + CountHits(results), st.misses + CountMisses(results))
    ensures (forall i :: 0 <= i < |results| ==> IsHit(results[i]) || results[i] == "MISS") ==>
              CountHits(results) + CountMisses(results) == |results|
    decreases |results|
  {
    if results != [] {
      RaceCounts(results[1..], RaceUpdate(st, results[0]));
    }
  }

  lemma ResumeMatchesLocalCount(results: seq<string>)
    requires forall i :: 0 <= i < |results| ==> IsHit(results[i]) || results[i] == "MISS"
    ensures ResumeStats(|results|, CountHits(results)) == RaceAfter(RaceStats(0, 0), results)
  {
    RaceCounts(results, RaceStats(0, 0));
  }

  // ---------------------------------------------------------------------
  // Enemy fleet status

  /** The sizes of the enemy ships in the order they are listed. */
  const FleetSizes: seq<int> := [5, 4, 3, 3, 2]

  /** `s.indexOf(x)`: the first position holding `x`, or -1. */
  function IndexOf(s: seq<int>, x: int): (i: int)
    ensures -1 <= i < |s|
    ensures i == -1 <==> x !in s
    ensures i >= 0 ==> s[i] == x && x !in s[..i]
  {
    if s == [] then -1
    else if s[0] == x then 0
    else
      var j := IndexOf(s[1..], x);
      if j == -1 then -1
      else
        assert s[..j + 1] == [s[0]] + s[1..][..j];
        j + 1
  }

  function CountTrue(s: seq<bool>): nat
  {
    if s == [] then 0 else (if s[|s| - 1] then 1 else 0) + CountTrue(s[..|s| - 1])
  }

  lemma CountTrueAppend(s: seq<bool>, b: bool)
    ensures CountTrue(s + [b]) == CountTrue(s) + (if b then 1 else 0)
  {
    assert (s + [b])[..|s|] == s;
  }

  /** Adding one more wanted `x` to `b` adds `x` to the intersection exactly when `a` has more `x` than `b`. */
  lemma IntersectStep(a: multiset<int>, b: multiset<int>, x: int)
    ensures a * (b + multiset{x}) == if a[x] > b[x] then a * b + multiset{x} else a * b
  {
    var lhs := a * (b + multiset{x});
    var rhs := if a[x] > b[x] then a * b + multiset{x} else a * b;
    forall y
      ensures lhs[y] == rhs[y]
    {
    }
  }

  /**
    * Ship `i` of a list with these sizes is afloat: the remaining sizes hold
    * more values of its size than there are ships of that size listed
    * before it.
    */
  predicate StillAfloat(remaining: multiset<int>, sizes: seq<int>, i: int)
    requires 0 <= i < |sizes|
  {
    remaining[sizes[i]] > multiset(sizes[..i])[sizes[i]]
  }

  /**
    * One ship of the fleet list, with `before` the sizes of the ships
    * listed before it: a value of its size is left exactly when the
    * remaining sizes hold more of them than the ships before it took.
    */
  lemma MatchFound(all: multiset<int>, rem: seq<int>, taken: multiset<int>, before: multiset<int>, size: int)
    requires multiset(rem) + taken == all && taken == all * before
    ensures IndexOf(rem, size) != -1 <==> all[size] > before[size]
  {
    assert taken[size] == if all[size] <= before[size] then all[size] else before[size];
  }

  /** A ship that finds its size takes one value of it. */
  lemma MatchTake(all: multiset<int>, rem: seq<int>, taken: multiset<int>, before: multiset<int>, size: int)
    requires multiset(rem) + taken == all && taken == all * before
    requires IndexOf(rem, size) != -1
    ensures var idx := IndexOf(rem, size);
              multiset(rem[..idx] + rem[idx + 1..]) + (taken + multiset{size}) == all &&
              taken + multiset{size} == all * (before + multiset{size})
  {
    var idx := IndexOf(rem, size);
    MatchFound(all, rem, taken, before, size);
    IntersectStep(all, before, size);
    assert rem == rem[..idx] + [size] + rem[idx + 1..];
  }

  /** A ship that does not find its size takes nothing. */
  lemma MatchSkip(all: multiset<int>, rem: seq<int>, taken: multiset<int>, before: multiset<int>, size: int)
    requires multiset(rem) + taken == all && taken == all * before
    requires IndexOf(rem, size) == -1
    ensures taken == all * (before + multiset{size})
  {
    MatchFound(all, rem, taken, before, size);
    IntersectStep(all, before, size);
  }

  lemma PrefixMultiset(s: seq<int>, i: int)
    requires 0 <= i < |s|
    ensures multiset(s[..i + 1]) == multiset(s[..i]) + multiset{s[i]}
  {
    assert s[..i + 1] == s[..i] + [s[i]];
  }

  /** What the matching loop keeps after `i` ships: `taken` holds the values removed so far. */
  ghost predicate MatchInv(all: multiset<int>, rem: seq<int>, taken: multiset<int>, sizes: seq<int>, i: int, flags: seq<bool>)
  {
    0 <= i <= |sizes| && |flags| == i &&
    multiset(rem) + taken == all &&
    taken == all * multiset(sizes[..i]) &&
    CountTrue(flags) == |taken| &&
    forall j :: 0 <= j < i ==> flags[j] == StillAfloat(all, sizes, j)
  }

  /** A round of the matching loop whose ship finds its size keeps the invariant. */
  lemma MatchInvTake(all: multiset<int>, rem: seq<int>, taken: multiset<int>, sizes: seq<int>, i: int, flags: seq<bool>)
    requires MatchInv(all, rem, taken, sizes, i, flags) && i < |sizes|
    requires IndexOf(rem, sizes[i]) != -1
    ensures var idx := IndexOf(rem, sizes[i]);
              MatchInv(all, rem[..idx] + rem[idx + 1..], taken + multiset{sizes[i]}, sizes, i + 1, flags + [true])
  {
    PrefixMultiset(sizes, i);
    var size := sizes[i];
    MatchFound(all, rem, taken, multiset(sizes[..i]), size);
    MatchTake(all, rem, taken, multiset(sizes[..i]), size);
    CountTrueAppend(flags, true);
    FlagsStep(all, sizes, i, flags, true);
    assert |taken + multiset{size}| == |taken| + 1;
  }

  /** A round of the matching loop whose ship finds no value of its size keeps the invariant. */
  lemma MatchInvSkip(all: multiset<int>, rem: seq<int>, taken: multiset<int>, sizes: seq<int>, i: int, flags: seq<bool>)
    requires MatchInv(all, rem, taken, sizes, i, flags) && i < |sizes|
    requires IndexOf(rem, sizes[i]) == -1
    ensures MatchInv(all, rem, taken, sizes, i + 1, flags + [false])
  {
    PrefixMultiset(sizes, i);
    var size := sizes[i];
    MatchFound(all, rem, taken, multiset(sizes[..i]), size);
    MatchSkip(all, rem, taken, multiset(sizes[..i]), size);
    CountTrueAppend(flags, false);
    FlagsStep(all, sizes, i, flags, false);
  }

  /** Appending the flag of ship `i` keeps every flag equal to its ship's `StillAfloat`. */
  lemma FlagsStep(all: multiset<int>, sizes: seq<int>, i: int, flags: seq<bool>, found: bool)
    requires 0 <= i < |sizes| && |flags| == i
    requires forall j :: 0 <= j < i ==> flags[j] == StillAfloat(all, sizes, j)
    requires found == StillAfloat(all, sizes, i)
    ensures forall j :: 0 <= j < i + 1 ==> (flags + [found])[j] == StillAfloat(all, sizes, j)
  {
    forall j | 0 <= j < i + 1
      ensures (flags + [found])[j] == StillAfloat(all, sizes, j)
    {
      if j < i {
        assert (flags + [found])[j] == flags[j];
      }
    }
  }

  /**
    * The matching loop for any list of ship sizes: each ship in turn takes
    * one value of its size from the remaining sizes when one is left.
    */
  method MatchSizes(remaining: seq<int>, sizes: seq<int>) returns (flags: seq<bool>)
    ensures |flags| == |sizes|
    ensures forall i :: 0 <= i < |sizes| ==> flags[i] == StillAfloat(multiset(remaining), sizes, i)
    ensures CountTrue(flags) == |multiset(remaining) * multiset(sizes)|
  {
    var rem := remaining;
    flags := [];
    ghost var taken: multiset<int> := multiset{};
    var i := 0;
    while i < |sizes|
      invariant MatchInv(multiset(remaining), rem, taken, sizes, i, flags)
      decreases |sizes| - i
    {
      rem, flags, taken := MatchOne(multiset(remaining), rem, taken, sizes, i, flags);
      i := i + 1;
    }
    assert sizes[..|sizes|] == sizes;
  }

  /** The body of the matching loop for ship `i`: take a value of its size if one is left, and record whether it did. */
  method MatchOne(ghost all: multiset<int>, rem: seq<int>, ghost taken: multiset<int>, sizes: seq<int>, i: int, flags: seq<bool>)
    returns (rem': seq<int>, flags': seq<bool>, ghost taken': multiset<int>)
    requires MatchInv(all, rem, taken, sizes, i, flags) && i < |sizes|
    ensures MatchInv(all, rem', taken', sizes, i + 1, flags')
  {
    var idx := IndexOf(rem, sizes[i]);
    var isAfloat := idx != -1;
    if isAfloat {
      MatchInvTake(all, rem, taken, sizes, i, flags);
      rem' := rem[..idx] + rem[idx + 1..];
      taken' := taken + multiset{sizes[i]};
    } else {
      MatchInvSkip(all, rem, taken, sizes, i, flags);
      rem', taken' := rem, taken;
    }
    flags' := flags + [isAfloat];
  }

  /**
    * The enemy fleet list: for each ship in order, it is afloat when a
    * value of its size is still in the remaining sizes, and then one such
    * value is removed; `None` (no data) when the server sent no list. The
    * number of ships afloat is the size of the multiset intersection of the
    * remaining sizes with the fleet's sizes.
    */
  method ShipsAfloat(remaining: Option<seq<int>>) returns (afloat: Option<seq<bool>>)
    ensures afloat.None? <==> remaining.None?
    ensures afloat.Some? ==> |afloat.value| == |FleetSizes|
    ensures afloat.Some? ==> forall i :: 0 <= i < |FleetSizes| ==>
              afloat.value[i] == StillAfloat(multiset(remaining.value), FleetSizes, i)
    ensures afloat.Some? ==>
              CountTrue(afloat.value) == |multiset(remaining.value) * multiset(FleetSizes)|
  {
    if remaining.None? {
      return None;
    }
    var flags := MatchSizes(remaining.value, FleetSizes);
    return Some(flags);
  }

  // ---------------------------------------------------------------------
  // The player's board at the start of a classic game

  predicate IsSlugChar(ch: char)
  {
    'a' <= ch <= 'z' || IsDigit(ch)
  }

  /**
    * `t.replace(/[^a-z0-9]+/g, '-')`: each maximal run of other characters
    * becomes one '-'; `inRun` says the previous character was already in
    * such a run.
    */
  function CollapseRuns(t: string, inRun: bool): (r: string)
    ensures forall i :: 0 <= i < |r| ==> IsSlugChar(r[i]) || r[i] == '-'
    ensures forall i :: 0 <= i < |r| - 1 ==> !(r[i] == '-' && r[i + 1] == '-')
    ensures inRun && r != [] ==> r[0] != '-'
  {
    if t == [] then []
    else if IsSlugChar(t[0]) then [t[0]] + CollapseRuns(t[1..], false)
    else if inRun then CollapseRuns(t[1..], true)
    else ['-'] + CollapseRuns(t[1..], true)
  }

  /** The ship id derived from its name: lowercased, runs of other characters as one '-'. */
  function Slug(name: string): (id: string)
    ensures forall i :: 0 <= i < |id| ==> IsSlugChar(id[i]) || id[i] == '-'
    ensures forall i :: 0 <= i < |id| - 1 ==> !(id[i] == '-' && id[i + 1] == '-')
  {
    CollapseRuns(Lower(name), false)
  }

  /** A name of letters and digits only keeps its lowercase letters as its id. */
  lemma {:induction false} SlugOfPlainName(t: string, inRun: bool)
    requires forall i :: 0 <= i < |t| ==> IsSlugChar(t[i])
    ensures CollapseRuns(t, inRun) == t
  {
    if t != [] {
      SlugOfPlainName(t[1..], false);
    }
  }

  /** The id derived from each ship's name is the id the placement screen gives it. */
  lemma SlugMatchesPlacementId(k: ShipPlacement.ShipKind)
    ensures Slug(ShipPlacement.Name(k)) == ShipPlacement.Id(k)
  {
    var n := ShipPlacement.Name(k);
    assert Lower(n) == ShipPlacement.Id(k);
    SlugOfPlainName(Lower(n), false);
  }

  /** The slug of the last ship (in list order) with a cell at `(a, b)`, or '.'. */
  function Owner(fleet: seq<ShipPlacement.DeployedShip>, a: int, b: int): string
  {
    if fleet == [] then "."
    else if (a, b) in fleet[|fleet| - 1].coords then Slug(fleet[|fleet| - 1].name)
    else Owner(fleet[..|fleet| - 1], a, b)
  }

  function CellKeys(coords: seq<(int, int)>): (keys: seq<string>)
    requires forall j :: 0 <= j < |coords| ==> coords[j].0 >= 0 && 0 <= coords[j].1 < 10
    ensures |keys| == |coords|
    ensures forall j :: 0 <= j < |coords| ==> keys[j] == CellKey(coords[j].0, coords[j].1)
  {
    seq(|coords|, j requires 0 <= j < |coords| => CellKey(coords[j].0, coords[j].1))
  }

  /** The status of a freshly deployed ship: no hits, not sunk. */
  function FreshStatus(ship: ShipPlacement.DeployedShip): ShipStatus
    requires forall j :: 0 <= j < |ship.coords| ==> ShipPlacement.InGrid(ship.coords[j].0, ship.coords[j].1)
  {
    assert forall j :: 0 <= j < |ship.coords| ==> ship.coords[j].0 >= 0 && 0 <= ship.coords[j].1 < 10 by {
      forall j | 0 <= j < |ship.coords|
        ensures ship.coords[j].0 >= 0 && 0 <= ship.coords[j].1 < 10
      {
        assert ShipPlacement.InGrid(ship.coords[j].0, ship.coords[j].1);
      }
    }
    ShipStatus(ship.name, Slug(ship.name), ship.size, CellKeys(ship.coords), 0, false)
  }

  predicate FleetInGrid(fleet: seq<ShipPlacement.DeployedShip>)
  {
    forall i, j :: 0 <= i < |fleet| && 0 <= j < |fleet[i].coords| ==>
      ShipPlacement.InGrid(fleet[i].coords[j].0, fleet[i].coords[j].1)
  }

  /**
    * The board and ship list a classic game starts with: each cell of each
    * ship holds the ship's id (the last ship wins a shared cell), every other
    * cell is '.', and each ship starts with its cell keys, no hits and not
    * sunk. Any other mode, or an empty fleet, starts with no board and no
    * ships.
    */
  method BuildPlayerFleet(classic: bool, fleet: seq<ShipPlacement.DeployedShip>)
      returns (board: Option<Board>, ships: seq<ShipStatus>)
    requires FleetInGrid(fleet)
    ensures board.None? <==> !classic || fleet == []
    ensures board.Some? ==> IsTenByTen(board.value)
    ensures board.Some? ==> forall a, b :: 0 <= a < 10 && 0 <= b < 10 ==> board.value[a][b] == Owner(fleet, a, b)
    ensures board.None? ==> ships == []
    ensures board.Some? ==> |ships| == |fleet| && forall i :: 0 <= i < |fleet| ==> ships[i] == FreshStatus(fleet[i])
  {
    if !classic || fleet == [] {
      return None, [];
    }
    var b: Board := seq(10, _ => seq(10, _ => "."));
    ships := [];
    var n := 0;
    while n < |fleet|
      invariant 0 <= n <= |fleet| && |ships| == n
      invariant IsTenByTen(b)
      invariant forall a, c :: 0 <= a < 10 && 0 <= c < 10 ==> b[a][c] == Owner(fleet[..n], a, c)
      invariant forall i :: 0 <= i < n ==> ships[i] == FreshStatus(fleet[i])
    {
      var ship := fleet[n];
      var id := Slug(ship.name);
      ghost var before := b;
      var cellKeys;
      b, cellKeys := PaintShip(b, ship, id);
      forall a, c | 0 <= a < 10 && 0 <= c < 10
        ensures b[a][c] == Owner(fleet[..n + 1], a, c)
      {
        OwnerExtend(fleet, n, a, c);
      }
      ships := ships + [ShipStatus(ship.name, id, ship.size, cellKeys, 0, false)];
      n := n + 1;
    }
    assert fleet[..n] == fleet;
    board := Some(b);
  }

  lemma OwnerExtend(fleet: seq<ShipPlacement.DeployedShip>, n: int, a: int, c: int)
    requires 0 <= n < |fleet|
    ensures Owner(fleet[..n + 1], a, c) ==
              if (a, c) in fleet[n].coords then Slug(fleet[n].name) else Owner(fleet[..n], a, c)
  {
    assert fleet[..n + 1][..n] == fleet[..n];
  }

  /** The inner loop of the board build: write the ship's id on each of its cells and collect their keys. */
  method PaintShip(b: Board, ship: ShipPlacement.DeployedShip, id: string) returns (b': Board, cellKeys: seq<string>)
    requires IsTenByTen(b)
    requires forall j :: 0 <= j < |ship.coords| ==> ShipPlacement.InGrid(ship.coords[j].0, ship.coords[j].1)
    ensures IsTenByTen(b')
    ensures forall a, c :: 0 <= a < 10 && 0 <= c < 10 ==> b'[a][c] == if (a, c) in ship.coords then id else b[a][c]
    ensures cellKeys == FreshStatus(ship).cells
  {
    b' := b;
    cellKeys := [];
    var j := 0;
    while j < |ship.coords|
      invariant 0 <= j <= |ship.coords|
      invariant Painted(b, b', ship.coords[..j], id)
      invariant KeysOf(cellKeys, ship.coords[..j])
    {
      var (row, col) := ship.coords[j];
      assert ShipPlacement.InGrid(row, col);
      PaintStep(b, b', ship.coords[..j], id, row, col);
      KeysStep(cellKeys, ship.coords[..j], row, col);
      assert ship.coords[..j + 1] == ship.coords[..j] + [(row, col)];
      b' := b'[row := b'[row][col := id]];
      cellKeys := cellKeys + [CellKey(row, col)];
      j := j + 1;
    }
    assert ship.coords[..j] == ship.coords;
    assert cellKeys == FreshStatus(ship).cells;
  }

  /** `keys` holds the cell key of each of `coords`, in order. */
  ghost predicate KeysOf(keys: seq<string>, coords: seq<(int, int)>)
  {
    |keys| == |coords| &&
    forall k :: 0 <= k < |coords| ==>
      coords[k].0 >= 0 && 0 <= coords[k].1 < 10 && keys[k] == CellKey(coords[k].0, coords[k].1)
  }

  lemma KeysStep(keys: seq<string>, coords: seq<(int, int)>, row: int, col: int)
    requires KeysOf(keys, coords) && 0 <= row < 10 && 0 <= col < 10
    ensures KeysOf(keys + [CellKey(row, col)], coords + [(row, col)])
  {
  }

  /** `b'` is the 10 by 10 board `b` with `id` written on the cells `coords`. */
  ghost predicate Painted(b: Board, b': Board, coords: seq<(int, int)>, id: string)
  {
    IsTenByTen(b) && IsTenByTen(b') &&
    forall a, c :: 0 <= a < 10 && 0 <= c < 10 ==> b'[a][c] == if (a, c) in coords then id else b[a][c]
  }

  lemma PaintStep(b: Board, b': Board, coords: seq<(int, int)>, id: string, row: int, col: int)
    requires Painted(b, b', coords, id) && 0 <= row < 10 && 0 <= col < 10
    ensures Painted(b, b'[row := b'[row][col := id]], coords + [(row, col)], id)
  {
  }

  /**
    * When no two ships share a cell, each cell of a ship shows that ship's
    * id, and an AI shot at it carries one of that ship's cell keys and none
    * of another ship's.
    */
  lemma {:induction false} OwnerOfDisjointFleet(fleet: seq<ShipPlacement.DeployedShip>, i: int, a: int, b: int)
    requires FleetInGrid(fleet) && 0 <= i < |fleet| && (a, b) in fleet[i].coords
    requires forall i', j' :: 0 <= i' < j' < |fleet| ==> forall p :: p in fleet[i'].coords ==> p !in fleet[j'].coords
    ensures Owner(fleet, a, b) == Slug(fleet[i].name)
    ensures forall i' :: 0 <= i' < |fleet| ==> (ShotLabel(a, b) in FreshStatus(fleet[i']).cells <==> i' == i)
    decreases |fleet|
  {
    var last := |fleet| - 1;
    if i < last {
      assert (a, b) !in fleet[last].coords;
      var front := fleet[..last];
      assert front[i] == fleet[i];
      OwnerOfDisjointFleet(front, i, a, b);
    }
    var j :| 0 <= j < |fleet[i].coords| && fleet[i].coords[j] == (a, b);
    assert a >= 0 && 0 <= b < 10;
    forall i' | 0 <= i' < |fleet|
      ensures ShotLabel(a, b) in FreshStatus(fleet[i']).cells <==> i' == i
    {
      var keys := FreshStatus(fleet[i']).cells;
      CellKeyIsShotLabel(a, b);
      if i' == i {
        assert keys[j] == CellKey(a, b);
      } else if ShotLabel(a, b) in keys {
        var k :| 0 <= k < |keys| && keys[k] == ShotLabel(a, b);
        var p := fleet[i'].coords[k];
        CellKeyIsShotLabel(p.0, p.1);
        LabelInjective(p.0, p.1, a, b);
        assert false;
      }
    }
  }
}
