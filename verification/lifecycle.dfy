/** The page around the scroll state: the canvas dimensions, the resize
    handler (which also runs a frame), the animation frame callback, the load
    handler, and any interleaving of frames and resizes after it. */
module Lifecycle {
  import opened RandomInt
  import opened Scroll

  /** `canvas.width` and `canvas.height`. */
  datatype Canvas = Canvas(width: nat, height: nat)

  datatype Page = Page(canvas: Canvas, scroll: State)

  /** What the host can deliver to the script: an animation frame, or a window
      resize to the given inner size.  `u` is the draw a frame may spend on
      the grass choice. */
  datatype Event =
    | AnimationFrame(u: real)
    | WindowResize(innerWidth: nat, innerHeight: nat, u: real)

  predicate ValidEvents(events: seq<Event>) {
    forall i :: 0 <= i < |events| ==> IsDraw(events[i].u)
  }

  predicate OnlyFrames(events: seq<Event>) {
    forall i :: 0 <= i < |events| ==> events[i].AnimationFrame? && IsDraw(events[i].u)
  }

  /** `resizeCanvas`: the canvas takes the window's inner size, then a full
      frame runs under the new dimensions. */
  function ResizeCanvas(p: Page, innerWidth: nat, innerHeight: nat, u: real): (r: Page)
    requires IsDraw(u)
    ensures r.canvas == Canvas(innerWidth, innerHeight)
    ensures r.scroll == Step(p.scroll, innerWidth, innerHeight, u)
    ensures r.scroll.scrollOffset == p.scroll.scrollOffset + 1
    ensures |r.scroll.sprites| > |p.scroll.sprites| <==> p.scroll.totalWidth - r.scroll.scrollOffset < innerWidth
    ensures |r.scroll.sprites| > |p.scroll.sprites| ==>
              r.scroll.sprites[|p.scroll.sprites|].y == innerHeight - GroundClearance
  {
    Page(Canvas(innerWidth, innerHeight), Step(p.scroll, innerWidth, innerHeight, u))
  }

  /** `animate`: one frame under the current canvas dimensions. */
  function Animate(p: Page, u: real): (r: Page)
    requires IsDraw(u)
    ensures r.canvas == p.canvas
    ensures r.scroll == Step(p.scroll, p.canvas.width, p.canvas.height, u)
    ensures r.scroll.scrollOffset == p.scroll.scrollOffset + 1
    ensures |r.scroll.sprites| > |p.scroll.sprites| <==> p.scroll.totalWidth - r.scroll.scrollOffset < p.canvas.width
  {
    Page(p.canvas, Step(p.scroll, p.canvas.width, p.canvas.height, u))
  }

  function Handle(p: Page, e: Event): Page
    requires IsDraw(e.u)
  {
    match e
    case AnimationFrame(u) => Animate(p, u)
    case WindowResize(w, h, u) => ResizeCanvas(p, w, h, u)
  }

  /** The page after the events, in order. */
  function Replay(p: Page, events: seq<Event>): Page
    requires ValidEvents(events)
    decreases |events|
  {
    if |events| == 0 then p
    else Replay(Handle(p, events[0]), events[1..])
  }

  /** `window.onload`, as written: a resize (and so a frame) on the current
      state, then the twenty-tile loop with its absolute positions.  The
      `animate()` call it ends with is the first `AnimationFrame` event. */
  function OnLoad(p: Page, innerWidth: nat, innerHeight: nat, u: real, picks: seq<real>): (r: Page)
    requires IsDraw(u)
    requires |picks| == InitialTiles
    requires forall i :: 0 <= i < |picks| ==> IsDraw(picks[i])
    ensures r.canvas == Canvas(innerWidth, innerHeight)
    ensures r.scroll == InitTiles(Step(p.scroll, innerWidth, innerHeight, u), innerHeight, picks)
    ensures r.scroll.scrollOffset == p.scroll.scrollOffset + 1
  {
    var q := ResizeCanvas(p, innerWidth, innerHeight, u);
    Page(q.canvas, InitTiles(q.scroll, q.canvas.height, picks))
  }

  /** `window.onload` with the loop laying its tiles from the right edge of
      whatever the resize frame already appended.  As in `OnLoad`, the closing
      `animate()` call is the first `AnimationFrame` event. */
  function OnLoadAtEdge(p: Page, innerWidth: nat, innerHeight: nat, u: real, picks: seq<real>): (r: Page)
    requires IsDraw(u)
    requires |picks| == InitialTiles
    requires forall i :: 0 <= i < |picks| ==> IsDraw(picks[i])
    ensures r.canvas == Canvas(innerWidth, innerHeight)
    ensures r.scroll == InitTilesAtEdge(Step(p.scroll, innerWidth, innerHeight, u), innerHeight, picks)
    ensures r.scroll.scrollOffset == p.scroll.scrollOffset + 1
  {
    var q := ResizeCanvas(p, innerWidth, innerHeight, u);
    Page(q.canvas, InitTilesAtEdge(q.scroll, q.canvas.height, picks))
  }

  /** Both load handlers keep the sprites already on the list and add the
      loop's twenty tiles plus at most one from the resize frame, the total
      growing by 32 per tile added. */
  lemma OnLoadOnlyAppends(p: Page, innerWidth: nat, innerHeight: nat, u: real, picks: seq<real>)
    requires IsDraw(u)
    requires |picks| == InitialTiles
    requires forall i :: 0 <= i < |picks| ==> IsDraw(picks[i])
    ensures var r := OnLoad(p, innerWidth, innerHeight, u, picks);
              && |p.scroll.sprites| + InitialTiles <= |r.scroll.sprites| <= |p.scroll.sprites| + InitialTiles + 1
              && r.scroll.sprites[..|p.scroll.sprites|] == p.scroll.sprites
              && r.scroll.totalWidth == p.scroll.totalWidth + TileWidth * (|r.scroll.sprites| - |p.scroll.sprites|)
    ensures var r := OnLoadAtEdge(p, innerWidth, innerHeight, u, picks);
              && |p.scroll.sprites| + InitialTiles <= |r.scroll.sprites| <= |p.scroll.sprites| + InitialTiles + 1
              && r.scroll.sprites[..|p.scroll.sprites|] == p.scroll.sprites
              && r.scroll.totalWidth == p.scroll.totalWidth + TileWidth * (|r.scroll.sprites| - |p.scroll.sprites|)
  {
  }

  /** Every event, frame or resize, advances the scroll offset by exactly one
      pixel. */
  lemma {:induction false} ReplayAdvancesOffset(p: Page, events: seq<Event>)
    requires ValidEvents(events)
    ensures Replay(p, events).scroll.scrollOffset == p.scroll.scrollOffset + |events|
    decreases |events|
  {
    if |events| > 0 {
      ReplayAdvancesOffset(Handle(p, events[0]), events[1..]);
    }
  }

  /** Events never change or remove a sprite: the list only grows at its end,
      and the total width never shrinks. */
  lemma {:induction false} ReplayOnlyAppends(p: Page, events: seq<Event>)
    requires ValidEvents(events)
    ensures var r := Replay(p, events).scroll;
            && |p.scroll.sprites| <= |r.sprites|
            && r.sprites[..|p.scroll.sprites|] == p.scroll.sprites
            && r.totalWidth >= p.scroll.totalWidth
    decreases |events|
  {
    if |events| > 0 {
      var q := Handle(p, events[0]);
      ReplayOnlyAppends(q, events[1..]);
      var r := Replay(p, events).scroll;
      assert r.sprites[..|p.scroll.sprites|] == r.sprites[..|q.scroll.sprites|][..|p.scroll.sprites|];
    }
  }

  /** Frames and resizes keep a gap-free strip gap-free. */
  lemma {:induction false} ReplayKeepsRunning(p: Page, events: seq<Event>)
    requires ValidEvents(events)
    requires Running(p.scroll)
    ensures Running(Replay(p, events).scroll)
    decreases |events|
  {
    if |events| > 0 {
      var e := events[0];
      StepKeepsRunning(p.scroll, Handle(p, e).canvas.width, Handle(p, e).canvas.height, e.u);
      ReplayKeepsRunning(Handle(p, e), events[1..]);
    }
  }

  function Min(a: int, b: int): int {
    if a <= b then a else b
  }

  /** Without resizes, `n` frames bring the strip to within 31 pixels per
      frame of the canvas edge, and past it it stays. */
  lemma {:induction false} FramesReachEdge(p: Page, events: seq<Event>)
    requires OnlyFrames(events)
    ensures ValidEvents(events)
    ensures Replay(p, events).canvas == p.canvas
    ensures Coverage(Replay(p, events).scroll)
              >= Min(p.canvas.width, Coverage(p.scroll) + (TileWidth - 1) * |events|)
    decreases |events|
  {
    if |events| > 0 {
      var u := events[0].u;
      var q := Handle(p, events[0]);
      assert q == Animate(p, u);
      if Coverage(p.scroll) >= p.canvas.width {
        CoverageKept(p.scroll, p.canvas.width, p.canvas.height, u);
      } else {
        CoverageRaised(p.scroll, p.canvas.width, p.canvas.height, u);
      }
      assert OnlyFrames(events[1..]) by {
        forall i | 0 <= i < |events| - 1
          ensures events[1..][i].AnimationFrame? && IsDraw(events[1..][i].u)
        {
          assert events[1..][i] == events[i + 1];
        }
      }
      FramesReachEdge(q, events[1..]);
    }
  }

  function Max(a: int, b: int): int {
    if a >= b then a else b
  }

  /** No tile starts strictly between `lo - 32` and `hi`, and the strip already
      ends at or beyond `hi`: no 32-pixel tile will ever be drawn over any
      column of [lo, hi). */
  ghost predicate Hole(s: State, lo: int, hi: int) {
    && s.totalWidth >= hi
    && forall i :: 0 <= i < |s.sprites| ==> s.sprites[i].x <= lo - TileWidth || s.sprites[i].x >= hi
  }

  /** The load handler as written, on a fresh page: the resize frame appends a
      tile at 0, the loop lays a second tile at 0, and the total width ends at
      672 while the last tile ends at 640. */
  lemma OnLoadOverlapsFirstTile(c: Canvas, innerWidth: nat, innerHeight: nat, u: real, picks: seq<real>)
    requires IsDraw(u)
    requires |picks| == InitialTiles
    requires forall i :: 0 <= i < |picks| ==> IsDraw(picks[i])
    ensures var s := OnLoad(Page(c, Initial()), innerWidth, innerHeight, u, picks).scroll;
            && |s.sprites| == InitialTiles + 1
            && s.sprites[0].x == 0 && s.sprites[1].x == 0
            && s.sprites[InitialTiles].x + TileWidth == 640
            && s.totalWidth == 672
            && s.scrollOffset == 1
            && !Contiguous(s)
            && Hole(s, 640, 672)
  {
  }

  /** A frame or resize never fills a hole: appended tiles start at the total
      width, which is past it. */
  lemma {:induction false} HoleStays(p: Page, events: seq<Event>, lo: int, hi: int)
    requires ValidEvents(events)
    requires Hole(p.scroll, lo, hi)
    ensures Hole(Replay(p, events).scroll, lo, hi)
    decreases |events|
  {
    if |events| > 0 {
      var q := Handle(p, events[0]);
      assert Hole(q.scroll, lo, hi) by {
        forall i | 0 <= i < |q.scroll.sprites|
          ensures q.scroll.sprites[i].x <= lo - TileWidth || q.scroll.sprites[i].x >= hi
        {
          if i < |p.scroll.sprites| {
            assert q.scroll.sprites[i] == q.scroll.sprites[..|p.scroll.sprites|][i];
          }
        }
      }
      HoleStays(q, events[1..], lo, hi);
    }
  }

  /** Every page the script can reach from a fresh one, by any frames and
      resizes, holds a gap-free strip; so the load handler always starts from
      a gap-free strip, whatever arrived before it. */
  lemma ReachableIsRunning(c: Canvas, pre: seq<Event>)
    requires ValidEvents(pre)
    ensures Running(Replay(Page(c, Initial()), pre).scroll)
  {
    ReplayKeepsRunning(Page(c, Initial()), pre);
  }

  /** The load handler as written, on any gap-free strip (any page reached
      before load), with `m` tiles once its resize frame has run: the strip
      ends at `32 * m + 640`, but its tiles only reach `max(32 * m, 640)`.
      The hole between, at least one tile wide, is never filled by any later
      event. */
  lemma OnLoadLeavesHole(p0: Page, innerWidth: nat, innerHeight: nat, u: real,
                         picks: seq<real>, events: seq<Event>)
    requires Running(p0.scroll)
    requires IsDraw(u)
    requires |picks| == InitialTiles
    requires forall i :: 0 <= i < |picks| ==> IsDraw(picks[i])
    requires ValidEvents(events)
    ensures var p := OnLoad(p0, innerWidth, innerHeight, u, picks);
            var m := |p.scroll.sprites| - InitialTiles;
            var lo := Max(TileWidth * m, InitialTiles * TileWidth);
            && m >= 1
            && p.scroll.totalWidth == TileWidth * m + InitialTiles * TileWidth
            && p.scroll.totalWidth - lo >= TileWidth
            && Hole(Replay(p, events).scroll, lo, p.scroll.totalWidth)
  {
    var q := ResizeCanvas(p0, innerWidth, innerHeight, u);
    StepKeepsRunning(p0.scroll, innerWidth, innerHeight, u);
    var m := |q.scroll.sprites|;
    assert m >= 1;
    var p := OnLoad(p0, innerWidth, innerHeight, u, picks);
    var lo := Max(TileWidth * m, InitialTiles * TileWidth);
    var hi := p.scroll.totalWidth;
    assert Hole(p.scroll, lo, hi) by {
      forall i | 0 <= i < |p.scroll.sprites|
        ensures p.scroll.sprites[i].x <= lo - TileWidth || p.scroll.sprites[i].x >= hi
      {
        if i < m {
          assert p.scroll.sprites[i] == q.scroll.sprites[i];
        } else {
          assert p.scroll.sprites[m + (i - m)].x == TileWidth * (i - m);
        }
      }
    }
    HoleStays(p, events, lo, hi);
  }

  /** The load handler laying its tiles from the right edge, on a fresh page:
      twenty-one gap-free tiles with total width 672. */
  lemma OnLoadAtEdgeFresh(c: Canvas, innerWidth: nat, innerHeight: nat, u: real, picks: seq<real>)
    requires IsDraw(u)
    requires |picks| == InitialTiles
    requires forall i :: 0 <= i < |picks| ==> IsDraw(picks[i])
    ensures var s := OnLoadAtEdge(Page(c, Initial()), innerWidth, innerHeight, u, picks).scroll;
            && Running(s)
            && |s.sprites| == InitialTiles + 1
            && s.totalWidth == 672
  {
  }

  /** The load handler laying its tiles from the right edge, on any gap-free
      strip (any page reached before load): the strip is gap-free and stays
      so under any later frames and resizes. */
  lemma OnLoadAtEdgeContiguous(p0: Page, innerWidth: nat, innerHeight: nat, u: real,
                               picks: seq<real>, events: seq<Event>)
    requires Running(p0.scroll)
    requires IsDraw(u)
    requires |picks| == InitialTiles
    requires forall i :: 0 <= i < |picks| ==> IsDraw(picks[i])
    requires ValidEvents(events)
    ensures Running(OnLoadAtEdge(p0, innerWidth, innerHeight, u, picks).scroll)
    ensures Running(Replay(OnLoadAtEdge(p0, innerWidth, innerHeight, u, picks), events).scroll)
  {
    var q := ResizeCanvas(p0, innerWidth, innerHeight, u);
    StepKeepsRunning(p0.scroll, innerWidth, innerHeight, u);
    InitTilesAtEdgeKeepsRunning(q.scroll, q.canvas.height, picks);
    ReplayKeepsRunning(OnLoadAtEdge(p0, innerWidth, innerHeight, u, picks), events);
  }
}
