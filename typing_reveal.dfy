/**
  * The typing-reveal chunker of ReasoningViewer.js: `generateChunkBoundaries`
  * cuts a reasoning text into the offsets at which the typing animation
  * stops, and `ResponseDisplay` shows the prefix up to one of them.
  *
  * The pseudo-random generator is abstracted: a draw source maps the seed
  * (`text.length * 31`) and the number of the chunk to that chunk's draws,
  * which are only known to lie in the ranges the code maps them to. Every
  * property below holds for every such source.
  */
module TypingReveal {
  import opened Games

  /**
    * The draws for one chunk: `Math.floor(r * 8) + 3` (3 to 11, since the
    * generator can return exactly 1), whether the `< 0.2` burst test passed,
    * and `Math.floor(r * 10) + 5` (5 to 15), used only on a burst.
    */
  datatype ChunkDraw = ChunkDraw(base: int, burst: bool, extra: int)

  predicate DrawInRange(d: ChunkDraw)
  {
    3 <= d.base <= 11 && 5 <= d.extra <= 15
  }

  /** Seed, then chunk number, to that chunk's draws. */
  type DrawSource = nat -> nat -> ChunkDraw

  ghost predicate ValidSource(source: DrawSource)
  {
    forall seed: nat, k: nat :: DrawInRange(source(seed)(k))
  }

  /** The draws of the generator seeded for `text`: only its length matters. */
  function DrawsFor(text: string, source: DrawSource): nat -> ChunkDraw
  {
    source(|text| * 31)
  }

  function ChunkSize(d: ChunkDraw): int
  {
    if d.burst then d.base + d.extra else d.base
  }

  /** A natural break: the end of the text, or a space, '.', ',', newline or ':'. */
  predicate IsBreak(text: string, i: int)
  {
    i >= |text| || (0 <= i && text[i] in {' ', '.', ',', '\n', ':'})
  }

  /**
    * The inner search from position `i` up to `lookAhead`: just after the
    * first break, else the tentative cut.
    */
  function SnapFrom(text: string, i: int, lookAhead: int, cut: int): int
    requires i >= 0
    decreases lookAhead - i
  {
    if i > lookAhead then cut
    else if IsBreak(text, i) then Min(i + 1, |text|)
    else SnapFrom(text, i + 1, lookAhead, cut)
  }

  /**
    * The snap point is just after the first break in `[i, lookAhead]`, or
    * the tentative cut when that window holds no break.
    */
  lemma {:induction false} SnapFirstBreak(text: string, i: int, lookAhead: int, cut: int)
    requires i >= 0
    ensures var r := SnapFrom(text, i, lookAhead, cut);
              (exists j :: i <= j <= lookAhead && IsBreak(text, j)) ==>
                exists j :: i <= j <= lookAhead && IsBreak(text, j) && r == Min(j + 1, |text|) &&
                  forall j' :: i <= j' < j ==> !IsBreak(text, j')
    ensures (forall j :: i <= j <= lookAhead ==> !IsBreak(text, j)) ==> SnapFrom(text, i, lookAhead, cut) == cut
    decreases lookAhead - i
  {
    if i <= lookAhead && !IsBreak(text, i) {
      SnapFirstBreak(text, i + 1, lookAhead, cut);
    }
  }

  /**
    * Where a chunk ends: from the tentative cut, scan up to five more
    * characters and snap to just after the first break.
    */
  function Snap(text: string, cut: int): (r: int)
    requires 0 <= cut <= |text|
    ensures cut <= r <= Min(cut + 6, |text|)
  {
    SnapBounds(text, cut, cut, Min(cut + 5, |text|));
    SnapFrom(text, cut, Min(cut + 5, |text|), cut)
  }

  lemma {:induction false} SnapBounds(text: string, cut: int, i: int, lookAhead: int)
    requires 0 <= cut <= i && lookAhead <= |text| && cut <= |text| && lookAhead <= cut + 5
    ensures cut <= SnapFrom(text, i, lookAhead, cut) <= Min(cut + 6, |text|)
    decreases lookAhead - i
  {
    if i <= lookAhead && !IsBreak(text, i) {
      SnapBounds(text, cut, i + 1, lookAhead);
    }
  }

  /** The next boundary after `pos`, for one chunk's draws. */
  function NextBoundary(text: string, pos: int, d: ChunkDraw): (r: int)
    requires 0 <= pos < |text| && DrawInRange(d)
    ensures pos < r <= |text|
    ensures r - pos >= Min(3, |text| - pos)
    ensures r - pos <= ChunkSize(d) + 6
  {
    Snap(text, Min(pos + ChunkSize(d), |text|))
  }

  predicate StrictlyIncreasing(b: seq<int>)
  {
    forall i, j :: 0 <= i < j < |b| ==> b[i] < b[j]
  }

  /** The boundaries after `pos`, the k-th chunk using draws `draws(k)`. */
  function BoundariesFrom(text: string, pos: int, k: nat, draws: nat -> ChunkDraw): (r: seq<int>)
    requires 0 <= pos <= |text|
    requires forall k: nat :: DrawInRange(draws(k))
    ensures r == [] <==> pos == |text|
    ensures r != [] ==> r[|r| - 1] == |text|
    ensures forall i :: 0 <= i < |r| ==> pos < r[i] <= |text|
    ensures StrictlyIncreasing(r)
    decreases |text| - pos
  {
    if pos >= |text| then []
    else
      var next := NextBoundary(text, pos, draws(k));
      [next] + BoundariesFrom(text, next, k + 1, draws)
  }

  /** `generateChunkBoundaries(text)`, as a function of the text and the draw source. */
  function ChunkBoundaries(text: string, source: DrawSource): (r: seq<int>)
    requires ValidSource(source)
    ensures |r| >= 1 && r[0] == 0 && r[|r| - 1] == |text|
    ensures StrictlyIncreasing(r)
    ensures forall i :: 0 <= i < |r| ==> 0 <= r[i] <= |text|
    ensures text == "" ==> r == [0]
  {
    if text == "" then [0]
    else
      var draws := DrawsFor(text, source);
      [0] + BoundariesFrom(text, 0, 0, draws)
  }

  /**
    * Each boundary is the next boundary of the one before it, the i-th
    * chunk using the i-th draws of the generator seeded for the text.
    */
  lemma {:induction false} BoundariesStep(text: string, pos: int, k: nat, draws: nat -> ChunkDraw, i: int, chunk: nat)
    requires 0 <= pos <= |text| && forall k: nat :: DrawInRange(draws(k))
    requires 0 <= i < |BoundariesFrom(text, pos, k, draws)| && chunk == k + i
    ensures var b := [pos] + BoundariesFrom(text, pos, k, draws);
              b[i] < |text| && b[i + 1] == NextBoundary(text, b[i], draws(chunk))
    decreases |text| - pos
  {
    var r := BoundariesFrom(text, pos, k, draws);
    assert pos < |text|;
    var next := NextBoundary(text, pos, draws(k));
    var rest := BoundariesFrom(text, next, k + 1, draws);
    assert r == [next] + rest;
    var b := [pos] + r;
    if i == 0 {
      assert b[0] == pos && b[1] == next;
    } else {
      BoundariesStep(text, next, k + 1, draws, i - 1, chunk);
      var b' := [next] + rest;
      assert b[i] == b'[i - 1] && b[i + 1] == b'[i];
    }
  }

  /**
    * Consecutive boundaries: a step of at least 3 characters (or what is
    * left of the text), and at most the drawn chunk size plus 6.
    */
  lemma ChunkGaps(text: string, source: DrawSource, i: int)
    requires ValidSource(source)
    requires 0 <= i < |ChunkBoundaries(text, source)| - 1
    ensures var b := ChunkBoundaries(text, source);
              b[i + 1] == NextBoundary(text, b[i], DrawsFor(text, source)(i)) &&
              Min(3, |text| - b[i]) <= b[i + 1] - b[i] <= ChunkSize(DrawsFor(text, source)(i)) + 6
  {
    DrawsInRange(text, source);
    assert text != "";
    assert ChunkBoundaries(text, source) == [0] + BoundariesFrom(text, 0, 0, DrawsFor(text, source));
    BoundariesStep(text, 0, 0, DrawsFor(text, source), i, i);
  }

  lemma DrawsInRange(text: string, source: DrawSource)
    requires ValidSource(source)
    ensures forall k: nat :: DrawInRange(DrawsFor(text, source)(k))
  {
  }

  /** One round of the outer loop pushes the next boundary. */
  lemma BoundariesUnfold(text: string, pos: int, k: nat, draws: nat -> ChunkDraw, done: seq<int>)
    requires 0 <= pos < |text| && forall k: nat :: DrawInRange(draws(k))
    ensures var next := NextBoundary(text, pos, draws(k));
              done + BoundariesFrom(text, pos, k, draws) == (done + [next]) + BoundariesFrom(text, next, k + 1, draws)
  {
  }

  /**
    * The inner `for` loop of `generateChunkBoundaries`: scan from the
    * tentative cut to `min(cut + 5, text.length)` and stop at the first break.
    */
  method FindSnapPoint(text: string, cut: int) returns (nextPos: int)
    requires 0 <= cut <= |text|
    ensures nextPos == Snap(text, cut)
  {
    nextPos := cut;
    var lookAhead := Min(nextPos + 5, |text|);
    var i := nextPos;
    while i <= lookAhead
      invariant cut <= i <= lookAhead + 1
      invariant SnapFrom(text, i, lookAhead, cut) == Snap(text, cut)
      invariant nextPos == cut
      decreases lookAhead - i
    {
      if i >= |text| || text[i] in {' ', '.', ',', '\n', ':'} {
        nextPos := Min(i + 1, |text|);
        return;
      }
      i := i + 1;
    }
  }

  /** One round of the outer loop: draw the chunk size, then snap the tentative cut to a break. */
  method NextCut(text: string, pos: int, d: ChunkDraw) returns (nextPos: int)
    requires 0 <= pos < |text| && DrawInRange(d)
    ensures nextPos == NextBoundary(text, pos, d)
  {
    var chunkSize := d.base;
    if d.burst {
      chunkSize := chunkSize + d.extra;
    }
    var cut := Min(pos + chunkSize, |text|);
    assert cut == Min(pos + ChunkSize(d), |text|);
    nextPos := FindSnapPoint(text, cut);
  }

  /**
    * `generateChunkBoundaries`: each round draws a chunk size, snaps the
    * tentative cut to a break and pushes the new offset.
    */
  method GenerateChunkBoundaries(text: string, source: DrawSource) returns (boundaries: seq<int>)
    requires ValidSource(source)
    ensures boundaries == ChunkBoundaries(text, source)
  {
    if text == "" {
      return [0];
    }
    var draws := DrawsFor(text, source);
    DrawsInRange(text, source);
    boundaries := [0];
    var pos := 0;
    var k: nat := 0;
    while pos < |text|
      invariant 0 <= pos <= |text|
      invariant boundaries + BoundariesFrom(text, pos, k, draws) == ChunkBoundaries(text, source)
      decreases |text| - pos
    {
      var nextPos := NextCut(text, pos, draws(k));
      BoundariesUnfold(text, pos, k, draws, boundaries);
      pos := nextPos;
      boundaries := boundaries + [pos];
      k := k + 1;
    }
  }

  /** What `ResponseDisplay` shows: the revealed text and whether the cursor blinks. */
  datatype Display = Display(text: string, cursor: bool)

  /**
    * `ResponseDisplay({ fullText, chunkIndex })`: the prefix of the text up
    * to boundary `min(chunkIndex, n - 1)`, with the cursor while typing.
    */
  function ResponseDisplay(fullText: string, chunkIndex: nat, source: DrawSource): (d: Display)
    requires ValidSource(source)
    ensures var b := ChunkBoundaries(fullText, source);
              d.text <= fullText && |d.text| == b[Min(chunkIndex, |b| - 1)] &&
              (d.cursor <==> chunkIndex < |b| - 1)
    ensures !d.cursor ==> d.text == fullText
  {
    var b := ChunkBoundaries(fullText, source);
    var charPos := b[Min(chunkIndex, |b| - 1)];
    Display(fullText[..charPos], chunkIndex < |b| - 1)
  }

  /** Typing only ever adds text: a later chunk index shows a longer prefix. */
  lemma RevealIsMonotone(fullText: string, i: nat, j: nat, source: DrawSource)
    requires ValidSource(source) && i <= j
    ensures ResponseDisplay(fullText, i, source).text <= ResponseDisplay(fullText, j, source).text
  {
    var b := ChunkBoundaries(fullText, source);
    var bi, bj := Min(i, |b| - 1), Min(j, |b| - 1);
    assert bi <= bj;
    assert b[bi] <= b[bj];
  }

  /** Each chunk index past the first reveals strictly more, until the text is complete. */
  lemma RevealProgresses(fullText: string, i: nat, source: DrawSource)
    requires ValidSource(source)
    requires ResponseDisplay(fullText, i, source).cursor
    ensures |ResponseDisplay(fullText, i, source).text| < |ResponseDisplay(fullText, i + 1, source).text|
  {
  }
}
