# landscape-scroll: the tile-append scroll state machine

The page script `index.js` scrolls a strip of grass tiles across a full-window
canvas. It keeps three pieces of state:

- `scrollOffset`, the scroll position in pixels;
- `totalRenderedPixelsWidth`, the right edge of the strip laid so far;
- `spritesToRender`, a list of `{image, x, y}` records.

Each frame (`drawCanvasContent`) does three things in order:

1. It draws every sprite at `x - scrollOffset`.
2. It adds one to the offset.
3. It appends one grass tile at the current total width when `total - offset`, taken after the increment, falls below the canvas width. The new tile's image is one of the four grass images, picked at random. Its `y` is `canvas.height - 200`. The total then grows by 32.

Two handlers drive the state:

- The resize handler (`resizeCanvas`) copies the window size to the canvas, then runs a frame.
- The load handler (`window.onload`) runs the resize handler first. It then lays down twenty grass tiles at `x = 32 * i` and adds 640 to the total.

The model has three modules:

- `RandomInt` (random.dfy) models `getRandomInt`. The host's `Math.random()` result comes in as a parameter `u` in [0, 1).
- `Scroll` (scroll.dfy) holds the state record, the pure frame step `Step` and the draw loop `DrawCanvasContent`. It also holds the tile-laying loop of the load handler, the invariants (gap-free strip, coverage of the canvas width) and the lemmas about one frame.
- `Lifecycle` (lifecycle.dfy) adds the canvas dimensions. It models the resize handler as "set the dimensions, then a frame", the animation callback as "a frame under the current dimensions", and the load handler. `Replay` runs any sequence of frames and resizes, and lemmas cover such runs.

## Model

| member | source | states |
|---|---|---|
| `RandomInt.GetRandomInt` | index.js:10-12 | the result is the floor of `u * max`, so for `max > 0` it is an index in `[0, max)` |
| `RandomInt.GetRandomIntReaches` | index.js:10-12 | every index below `max` comes from some draw in [0, 1); the draw `k / max` gives `k` |
| `Scroll.Step` | index.js:45-56 | offset grows by exactly 1; at most one sprite is appended; one is appended exactly when `total - offset` (offset after the increment) is below the width; existing sprites are untouched; an appended tile sits at the old total, has `y = height - 200` and the image `getRandomInt(4)` yields for the frame's draw, always a grass index; the total grows by 32 per appended tile |
| `Scroll.DrawCanvasContent` | index.js:42-56 | one draw call per sprite, in list order, at `x - offset` with the offset from before the increment; the state it leaves is the frame step's |
| `Scroll.StepScrollsLeft` | index.js:42-45 | between two frames each existing sprite is drawn one pixel further left, with the same image and `y` |
| `Scroll.StepKeepsRunning` | index.js:45-56 | a frame keeps the strip gap-free (`total == 32 * count`, tile `i` at `32 * i`, all grass images) and the offset non-negative |
| `Scroll.CoverageKept` | index.js:45-56 | if `total - offset >= W` before a frame, it still is after |
| `Scroll.CoverageRaised` | index.js:45-56 | if `total - offset < W`, a frame raises it by exactly 31 |
| `Scroll.CoverageBand` | index.js:43-56 | `W <= total - offset <= W + 31` is kept; in that band a tile is appended exactly when the strip ends exactly at the edge, and the next frame draws that tile with its left edge at `W - 1` |
| `Scroll.ViewportCovered` | index.js:42-44 | when the strip is gap-free, the offset is non-negative and `total - offset >= W`, every pixel column in `[0, W)` lies under some tile's drawn span |
| `Scroll.GrassRow` | index.js:77-80 | the loop's pushes: tile `i` at `start + 32 * i`, `y = height - 200`, image `getRandomInt(4)` of its own draw, always a grass index |
| `Scroll.InitTiles` | index.js:77-81 | the loop as written appends 20 tiles at the absolute positions `32 * i`, each with `y = height - 200` and the grass image `getRandomInt(4)` of its own draw; it keeps the sprites already there, leaves the offset alone and adds 640 to the total |
| `Scroll.InitTilesAtEdge` | index.js:77-81 | the corrected loop appends 20 tiles at `total + 32 * i`, each with `y = height - 200` and the grass image of its own draw; the rest matches the loop as written |
| `Scroll.InitTilesFromEmpty` | index.js:77-81 | on the empty state the loop gives exactly 20 gap-free grass tiles at 0..608 with total 640 |
| `Scroll.InitTilesAtEdgeKeepsRunning` | index.js:77-81 | laying the tiles from the right edge keeps any gap-free strip gap-free |
| `Scroll.InitTilesAgreeAtZero` | index.js:77-81 | while the total width is still 0, the loop as written and the corrected loop give the same state |
| `Lifecycle.ResizeCanvas` | index.js:17-22 | the canvas takes the new size, and the scroll state becomes exactly the frame step's under the new width and height: offset +1, and the append test uses the new width and the new height for `y` |
| `Lifecycle.Animate` | index.js:63-65 | the canvas is unchanged, and the scroll state becomes exactly the frame step's under the current size: offset +1, append exactly when `total - offset` is below the current width |
| `Lifecycle.ReplayAdvancesOffset` | index.js:45 | after any sequence of frames and resizes, the offset has grown by exactly the number of events |
| `Lifecycle.ReplayOnlyAppends` | index.js:42-56 | events never modify or remove sprites: the old list is a prefix of the new one, and the total never shrinks |
| `Lifecycle.ReplayKeepsRunning` | index.js:47-56 | any sequence of frames and resizes keeps a gap-free strip gap-free |
| `Lifecycle.FramesReachEdge` | index.js:45-56 | with no resize, after `n` frames `total - offset >= min(W, c + 31 * n)`, where `c` was its starting value |
| `Lifecycle.OnLoad` | index.js:69-81 | the load handler as written: the canvas takes the window size, and the scroll state is the resize frame under that size followed by the loop as written. The offset grows by 1. The `animate()` call at the end is the first `AnimationFrame` event of the later run |
| `Lifecycle.OnLoadAtEdge` | index.js:69-81 | the corrected load handler: the same as `OnLoad`, except that the loop lays its tiles from the right edge left by the resize frame |
| `Lifecycle.OnLoadOnlyAppends` | index.js:69-81 | both load handlers keep the old sprites as a prefix and add 20 or 21 tiles (the resize frame adds at most one), with the total grown by 32 per tile added |
| `Lifecycle.OnLoadOverlapsFirstTile` | index.js:69-81 | the load handler as written on a fresh page: 21 tiles, two of them at x = 0, the last one ending at 640 while the total is 672; not gap-free |
| `Lifecycle.HoleStays` | index.js:47-56 | once no tile starts strictly between `lo - 32` and `hi` and the total is at least `hi`, frames and resizes keep it so |
| `Lifecycle.ReachableIsRunning` | index.js:5-8 | every page reached from the fresh script state by any frames and resizes (the resize listener runs before load) holds a gap-free strip |
| `Lifecycle.OnLoadLeavesHole` | index.js:69-84 | on any gap-free strip, and so after any frames and resizes before load, the load handler as written leaves `m >= 1` tiles from its resize frame and a total of `32 * m + 640`. No tile overlaps `[max(32 * m, 640), 32 * m + 640)`, a hole at least one tile wide, and no later event fills it |
| `Lifecycle.OnLoadAtEdgeFresh` | index.js:69-81 | the corrected load handler on a fresh page gives 21 gap-free tiles with total 672 |
| `Lifecycle.OnLoadAtEdgeContiguous` | index.js:69-84 | on any gap-free strip, and so after any frames and resizes before load, the corrected load handler leaves a gap-free strip, and it stays gap-free under any later frames and resizes |

## Findings

| source | as written | input that shows it | evidently intended | confidence | as-written member | corrected member |
|---|---|---|---|---|---|---|
| index.js:69-81 | `window.onload` first calls `resizeCanvas()`. That runs a frame on the empty state, and the frame appends a tile at x = 0 (total 32). The loop then pushes its twenty tiles at the absolute positions `i * 32` and adds 640, so the total becomes 672. | a fresh page, any window size: tiles at 0, 0, 32, ..., 608; total 672. Later tiles start at 672, so [640, 672) is never covered. After earlier resizes that leave `m` tiles, the hole is `[max(32m, 640), 32m + 640)`. | the strip stays gap-free: the loop lays its tiles from the current right edge, at `total + 32 * i` | high for the hole in the sprite positions (not executed); whether the hole shows on screen depends on the grass images being 32 px wide | `Lifecycle.OnLoadLeavesHole` | `Lifecycle.OnLoadAtEdgeContiguous` |

The as-written load handler is `Lifecycle.OnLoad` (on top of `Scroll.InitTiles`). The corrected one is `Lifecycle.OnLoadAtEdge` (on top of `Scroll.InitTilesAtEdge`). While the total width is 0 the two loops agree (`Scroll.InitTilesAgreeAtZero`).

## Left out

- Canvas rendering is not modelled: `clearRect`, the gradient, `fillRect` and the pixels `drawImage` paints (index.js:31-40). Only the coordinates of each `drawImage` call are modelled.
- The four `document.getElementById` lookups are not modelled. Images are the indices 0..3, standing for `sprite_grass_1` .. `sprite_grass_4`.
- Image sizes are not modelled. Coverage lemmas take a tile to be 32 px wide, the spacing the script uses.
- `Math.random()` is not modelled. Each frame and each loop pass receives its draw as a parameter in [0, 1).
- RandomInt.GetRandomInt: the product `u * max` uses exact reals. JavaScript rounds it to a double, which matters only when `max` is not a power of two. The script only calls it with 4, where the product is exact.
- `requestAnimationFrame`, `cancelAnimationFrame` and the `resize` / `beforeunload` listener registrations are not modelled (index.js:63-66, 87-92). They are host scheduling. A run of the page is any sequence of animation frames and resizes. The load-handler lemmas `Lifecycle.OnLoadLeavesHole` and `Lifecycle.OnLoadAtEdgeContiguous` start from any gap-free strip. By `Lifecycle.ReachableIsRunning`, that covers every page reached by events before load. `Lifecycle.OnLoadOverlapsFirstTile` and `Lifecycle.OnLoadAtEdgeFresh` give the exact numbers for a page that saw no event before load.
- JavaScript numbers are doubles, and integers stay exact up to 2^53. The model uses unbounded integers. Offsets that large would take millions of years at 60 frames per second.
- The canvas's size before the first resize comes from the HTML page, which is not part of this model. The lemmas about a fresh page hold for any starting canvas.
