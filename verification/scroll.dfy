/** The tile-append scroll state of the page script: the scroll offset, the
    pixel width of the strip rendered so far (`totalRenderedPixelsWidth`) and
    the growing list of sprites to render.  A frame draws every sprite shifted
    left by the offset, advances the offset by one pixel and appends one grass
    tile at the right end when the strip no longer reaches the canvas edge. */
module Scroll {
  import opened RandomInt

  /** Horizontal distance between consecutive grass tiles, in pixels. */
  const TileWidth := 32
  /** Number of grass images a tile is chosen from. */
  const GrassCount := 4
  /** Tiles are drawn this many pixels above the bottom of the canvas. */
  const GroundClearance := 200
  /** Number of tiles the load handler lays down. */
  const InitialTiles := 20

  /** One entry of the render list.  `image` indexes the grass images
      `sprite_grass_1` .. `sprite_grass_4` from 0. */
  datatype Sprite = Sprite(image: int, x: int, y: int)

  /** `scrollOffset`, `totalRenderedPixelsWidth` and `spritesToRender`. */
  datatype State = State(scrollOffset: int, totalWidth: int, sprites: seq<Sprite>)

  /** One `drawImage(image, x, y)` call of a frame. */
  datatype DrawCall = DrawCall(image: int, x: int, y: int)

  /** The state when the script is first evaluated. */
  function Initial(): State {
    State(0, 0, [])
  }

  predicate IsGrass(image: int) {
    0 <= image < GrassCount
  }

  /** How far the rendered strip reaches to the right of the scroll offset. */
  function Coverage(s: State): int {
    s.totalWidth - s.scrollOffset
  }

  /** The strip is gap-free: tile `i` starts at `32 * i`, the total width is the
      right edge of the last tile, and every tile shows a grass image. */
  ghost predicate Contiguous(s: State) {
    && s.totalWidth == TileWidth * |s.sprites|
    && forall i :: 0 <= i < |s.sprites| ==> s.sprites[i].x == TileWidth * i && IsGrass(s.sprites[i].image)
  }

  /** Contiguous, and scrolled no further left than the start. */
  ghost predicate Running(s: State) {
    Contiguous(s) && s.scrollOffset >= 0
  }

  /** Where a sprite lands on the canvas when the offset is `offset`. */
  function Placed(sprite: Sprite, offset: int): DrawCall {
    DrawCall(sprite.image, sprite.x - offset, sprite.y)
  }

  /** The state update of one frame on a canvas of `width` by `height` pixels,
      `u` being the draw behind the grass choice.  The append test uses the
      offset after the increment. */
  function Step(s: State, width: nat, height: int, u: real): (r: State)
    requires IsDraw(u)
    ensures r.scrollOffset == s.scrollOffset + 1
    ensures |s.sprites| <= |r.sprites| <= |s.sprites| + 1
    ensures r.sprites[..|s.sprites|] == s.sprites
    ensures |r.sprites| == |s.sprites| + 1 <==> s.totalWidth - r.scrollOffset < width
    ensures r.totalWidth == s.totalWidth + TileWidth * (|r.sprites| - |s.sprites|)
    ensures |r.sprites| == |s.sprites| + 1 ==>
              && r.sprites[|s.sprites|].x == s.totalWidth
              && r.sprites[|s.sprites|].y == height - GroundClearance
              && r.sprites[|s.sprites|].image == GetRandomInt(GrassCount, u)
              && IsGrass(r.sprites[|s.sprites|].image)
  {
    var offset := s.scrollOffset + 1;
    if s.totalWidth - offset < width then
      var tile := Sprite(GetRandomInt(GrassCount, u), s.totalWidth, height - GroundClearance);
      State(offset, s.totalWidth + TileWidth, s.sprites + [tile])
    else
      State(offset, s.totalWidth, s.sprites)
  }

  /** One call of `drawCanvasContent`, imperatively: the draw calls of the
      frame, made with the offset from before the increment, and the state the
      frame leaves behind. */
  method DrawCanvasContent(s: State, width: nat, height: int, u: real)
      returns (calls: seq<DrawCall>, next: State)
    requires IsDraw(u)
    ensures |calls| == |s.sprites|
    ensures forall i :: 0 <= i < |calls| ==> calls[i] == Placed(s.sprites[i], s.scrollOffset)
    ensures next == Step(s, width, height, u)
  {
    calls := [];
    var k := 0;
    while k < |s.sprites|
      invariant 0 <= k <= |s.sprites|
      invariant |calls| == k
      invariant forall i :: 0 <= i < k ==> calls[i] == Placed(s.sprites[i], s.scrollOffset)
    {
      var sprite := s.sprites[k];
      calls := calls + [DrawCall(sprite.image, sprite.x - s.scrollOffset, sprite.y)];
      k := k + 1;
    }
    var offset := s.scrollOffset + 1;
    var total := s.totalWidth;
    var sprites := s.sprites;
    if total - offset < width {
      var grass := GetRandomInt(GrassCount, u);
      sprites := sprites + [Sprite(grass, total, height - GroundClearance)];
      total := total + TileWidth;
    }
    next := State(offset, total, sprites);
  }

  /** Between two frames every sprite already on the list moves exactly one
      pixel to the left and keeps its image and height. */
  lemma StepScrollsLeft(s: State, width: nat, height: int, u: real, i: int)
    requires IsDraw(u)
    requires 0 <= i < |s.sprites|
    ensures var r := Step(s, width, height, u);
            && i < |r.sprites|
            && Placed(r.sprites[i], r.scrollOffset).x == Placed(s.sprites[i], s.scrollOffset).x - 1
            && Placed(r.sprites[i], r.scrollOffset).image == s.sprites[i].image
            && Placed(r.sprites[i], r.scrollOffset).y == s.sprites[i].y
  {
  }

  /** A frame keeps the strip gap-free. */
  lemma StepKeepsRunning(s: State, width: nat, height: int, u: real)
    requires IsDraw(u)
    requires Running(s)
    ensures Running(Step(s, width, height, u))
  {
  }

  /** Once the strip reaches the canvas edge it keeps reaching it. */
  lemma CoverageKept(s: State, width: nat, height: int, u: real)
    requires IsDraw(u)
    requires Coverage(s) >= width
    ensures Coverage(Step(s, width, height, u)) >= width
  {
  }

  /** While the strip falls short of the canvas edge, each frame gains it a net
      31 pixels: one tile appended, one pixel scrolled. */
  lemma CoverageRaised(s: State, width: nat, height: int, u: real)
    requires IsDraw(u)
    requires Coverage(s) < width
    ensures Coverage(Step(s, width, height, u)) == Coverage(s) + TileWidth - 1
  {
  }

  /** In steady state the strip reaches between 0 and 31 pixels past the canvas
      edge; a tile is appended exactly when it reaches the edge exactly, and
      that tile is next drawn with its left edge on the last pixel column. */
  lemma CoverageBand(s: State, width: nat, height: int, u: real)
    requires IsDraw(u)
    requires width <= Coverage(s) <= width + TileWidth - 1
    ensures var r := Step(s, width, height, u);
            && width <= Coverage(r) <= width + TileWidth - 1
            && (|r.sprites| > |s.sprites| <==> Coverage(s) == width)
            && (|r.sprites| > |s.sprites| ==>
                  Placed(r.sprites[|s.sprites|], r.scrollOffset).x == width - 1)
  {
  }

  /** A running strip that reaches the canvas edge covers every pixel column of
      the canvas with some tile of width 32. */
  lemma ViewportCovered(s: State, width: nat, px: int)
    requires Running(s)
    requires Coverage(s) >= width
    requires 0 <= px < width
    ensures exists i :: 0 <= i < |s.sprites| &&
              Placed(s.sprites[i], s.scrollOffset).x <= px < Placed(s.sprites[i], s.scrollOffset).x + TileWidth
  {
    var i := (px + s.scrollOffset) / TileWidth;
    assert TileWidth * i <= px + s.scrollOffset < TileWidth * i + TileWidth;
    assert i < |s.sprites|;
    assert s.sprites[i].x == TileWidth * i;
  }

  /** The tiles the load handler's loop pushes, with `picks[i]` the draw for
      tile `i`: tile `i` starts at `start + 32 * i`.  The source loop uses
      `start == 0`. */
  function GrassRow(start: int, height: int, picks: seq<real>): (row: seq<Sprite>)
    requires forall i :: 0 <= i < |picks| ==> IsDraw(picks[i])
    ensures |row| == |picks|
    ensures forall i :: 0 <= i < |row| ==>
              && row[i].x == start + TileWidth * i
              && row[i].y == height - GroundClearance
              && row[i].image == GetRandomInt(GrassCount, picks[i])
              && IsGrass(row[i].image)
    decreases |picks|
  {
    if |picks| == 0 then []
    else
      var n := |picks| - 1;
      GrassRow(start, height, picks[..n])
        + [Sprite(GetRandomInt(GrassCount, picks[n]), start + TileWidth * n, height - GroundClearance)]
  }

  /** The loop of the load handler, as written: twenty tiles at x = 32 * i,
      whatever is already on the list, then the total grows by 640. */
  function InitTiles(s: State, height: int, picks: seq<real>): (r: State)
    requires |picks| == InitialTiles
    requires forall i :: 0 <= i < |picks| ==> IsDraw(picks[i])
    ensures r.scrollOffset == s.scrollOffset
    ensures r.totalWidth == s.totalWidth + InitialTiles * TileWidth
    ensures |r.sprites| == |s.sprites| + InitialTiles
    ensures r.sprites[..|s.sprites|] == s.sprites
    ensures forall i :: 0 <= i < InitialTiles ==> r.sprites[|s.sprites| + i].x == TileWidth * i
    ensures forall i :: 0 <= i < InitialTiles ==>
              && r.sprites[|s.sprites| + i].y == height - GroundClearance
              && r.sprites[|s.sprites| + i].image == GetRandomInt(GrassCount, picks[i])
              && IsGrass(r.sprites[|s.sprites| + i].image)
  {
    State(s.scrollOffset, s.totalWidth + InitialTiles * TileWidth, s.sprites + GrassRow(0, height, picks))
  }

  /** The loop laying its tiles from the current right edge of the strip. */
  function InitTilesAtEdge(s: State, height: int, picks: seq<real>): (r: State)
    requires |picks| == InitialTiles
    requires forall i :: 0 <= i < |picks| ==> IsDraw(picks[i])
    ensures r.scrollOffset == s.scrollOffset
    ensures r.totalWidth == s.totalWidth + InitialTiles * TileWidth
    ensures |r.sprites| == |s.sprites| + InitialTiles
    ensures r.sprites[..|s.sprites|] == s.sprites
    ensures forall i :: 0 <= i < InitialTiles ==> r.sprites[|s.sprites| + i].x == s.totalWidth + TileWidth * i
    ensures forall i :: 0 <= i < InitialTiles ==>
              && r.sprites[|s.sprites| + i].y == height - GroundClearance
              && r.sprites[|s.sprites| + i].image == GetRandomInt(GrassCount, picks[i])
              && IsGrass(r.sprites[|s.sprites| + i].image)
  {
    State(s.scrollOffset, s.totalWidth + InitialTiles * TileWidth, s.sprites + GrassRow(s.totalWidth, height, picks))
  }

  /** On the empty state the loop lays twenty grass tiles at 0, 32, .., 608
      and sets the total width to 640. */
  lemma InitTilesFromEmpty(height: int, picks: seq<real>)
    requires |picks| == InitialTiles
    requires forall i :: 0 <= i < |picks| ==> IsDraw(picks[i])
    ensures var r := InitTiles(Initial(), height, picks);
            && Running(r)
            && |r.sprites| == InitialTiles
            && r.totalWidth == 640
            && forall i :: 0 <= i < |r.sprites| ==> r.sprites[i].y == height - GroundClearance
  {
  }

  /** Laying the tiles from the right edge keeps any running strip gap-free. */
  lemma InitTilesAtEdgeKeepsRunning(s: State, height: int, picks: seq<real>)
    requires |picks| == InitialTiles
    requires forall i :: 0 <= i < |picks| ==> IsDraw(picks[i])
    requires Running(s)
    ensures Running(InitTilesAtEdge(s, height, picks))
  {
  }

  /** On a strip whose total width is still zero the loop as written and the
      loop laying its tiles from the right edge do the same thing. */
  lemma InitTilesAgreeAtZero(s: State, height: int, picks: seq<real>)
    requires |picks| == InitialTiles
    requires forall i :: 0 <= i < |picks| ==> IsDraw(picks[i])
    requires s.totalWidth == 0
    ensures InitTiles(s, height, picks) == InitTilesAtEdge(s, height, picks)
  {
  }
}
