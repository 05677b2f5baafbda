# CarGame scene model

A Dafny model of the scene-state machine of a small WebGL driving scene
(`script.js`). The intended scene is a red rectangular car that sways left
and right over a gray road scrolling towards the viewer, with white lane
markings; the arrow keys steer. The frame as written draws something else:
the road's scroll translation is never uploaded, the lane-marking loop
redraws the car, and every draw reads the road's vertices (see
"## Findings"). So the road never visibly scrolls, and the red draws cover
the road's rectangle at the car's translation.

The model covers:

- **Geometry** (`geometry.dfy`): the three constant quads (car, road, lane
  marking). Each is twelve numbers, four (x, y, z) corners, with the index
  array `[0, 1, 2, 0, 2, 3]`.
- **Controls** (`controls.dfy`): the `keyState` object as a
  `map<string, bool>` with the entries `ArrowLeft` and `ArrowRight`. The
  keydown/keyup rule sets a recognised key's flag and ignores every other
  key.
- **Motion** (`motion.dfy`): the per-frame update as pure functions.
  - The car's x moves 0.02 per held key, left first, clamped to ±0.5 with
    `Math.max`/`Math.min`.
  - The road offset drops by 0.02 and wraps by +2.0 below -2.0.
  - The y-translation built for the road at script.js:188 (never uploaded)
    is `roadOffset % 2.0`, using JavaScript's truncated remainder.
  - Lemmas cover runs of frames: the sway bound, the offset range, the
    closed form of the offset from 0, and the 100-frame period.
- **Graphics** (`graphics.dfy`): the WebGL state the frame loop depends on,
  as a class. It records the bound buffers, the vertex buffer the position
  attribute reads, the color and model-view uniforms, and the list of clear
  and draw commands issued.
- **Game** (`game.dfy`): the mutable session state as a class `Scene`
  (`carPosition`, `roadOffset`, `keyState`). It holds the two key listeners
  and the update step. The file also has `render`, `drawRoad` and
  `drawLaneMarkings` as imperative methods over `Scene` and `Gl`, the
  frame's command list as the source issues it, and the frame the source
  evidently intends.

Numbers are exact reals with the source's constants (0.02, 0.5, 2.0,
-0.2, -1.5, -2.0). JavaScript `%` is written out as the remainder of
truncated division, which has the sign of the dividend. Dafny's own `%` is
not used for it.

The road translation built at script.js:188 is easy to misread as
`offset mod 2.0` in [0, 2.0). The code takes a JavaScript remainder of an offset that is never
positive, so the value lies in (-2.0, 0.0]. It equals the offset itself
except at exactly -2.0, where it is zero. `Motion.RoadTranslationInRange`
states this.

## Model

| member | source | states |
|---|---|---|
| `Geometry.Catalog` | script.js:58-104 | The car, road and lane vertex arrays each hold four (x, y, z) corners of an axis-aligned rectangle in z = 0. The extents are ±0.15 × ±0.05 for the car, [-1, 1] × [-1, 0] for the road and ±0.05 × [-0.8, -0.7] for the lane marking. Every index array is `[0,1,2,0,2,3]`. Its indices are 16-bit values that name vertices 0..3, and its length equals the draw count 6. |
| `Controls.KeyEvent` | script.js:127-133 | A keydown or keyup event never changes the set of entries. A recognised key gets the new flag. Every other entry keeps its flag. An unrecognised key leaves the map unchanged. |
| `Controls.LastEventWins` | script.js:127-133 | Two events for the same key leave the flag of the later one. |
| `Controls.DistinctKeysCommute` | script.js:127-133 | Events for two different keys give the same map in either order. |
| `Motion.JsMax` | script.js:177 | `Math.max` returns one of its arguments, and that argument is at least as large as the other. |
| `Motion.JsMin` | script.js:178 | `Math.min` returns one of its arguments, and that argument is at most as large as the other. |
| `Motion.NextX` | script.js:177-178 | A car x within ±maxSway stays within it. With no key held, x is unchanged. With only left held, x moves down by 0.02 or stops at -maxSway. With only right held, x moves up by 0.02 or stops at +maxSway. |
| `Motion.NextOffset` | script.js:181-184 | The step either subtracts exactly 0.02, or subtracts 0.02 and adds 2.0. It adds 2.0 exactly when the result fell below -2.0. The range [-2.0, 0.0] is preserved, and the result is negative. |
| `Motion.Trunc` | script.js:188 | Rounds toward zero: the result lies between 0 and x and is less than 1 away from x. |
| `Motion.TruncRem` | script.js:188 | JavaScript `n % d` for d > 0: the result lies strictly between -d and d and has the sign of the dividend. It is no larger in magnitude than n, and it differs from n by a whole multiple of d. |
| `Motion.TruncRemFacts` | script.js:188 | With q the truncated quotient of n and d, `n - d*q` has the bounds and sign above, and `(n - r)/d` equals q. |
| `Motion.RoadTranslation` | script.js:188 | The y-translation built for the road (never uploaded as written): `roadOffset % 2.0`, strictly between -2.0 and 2.0 and with the sign of the offset, no larger in magnitude than the offset. |
| `Motion.RoadTranslationInRange` | script.js:188 | For every offset in [-2.0, 0.0], the y-translation built for the road, `roadOffset % 2.0`, lies in (-2.0, 0.0]. It equals the offset, except at -2.0, where it is 0. |
| `Motion.SwayBoundAlways` | script.js:177-178 | Whatever keys are held in each frame, a car that starts within ±maxSway (x = 0 included) stays there after any number of frames. |
| `Motion.NoKeysNoSway` | script.js:177-178 | With neither key held in any frame, the car's x never changes. |
| `Motion.BothKeysHeld` | script.js:177-178 | With both keys held, left is applied before right. x is unchanged when x >= -maxSway + 0.02. Below that, x moves to -maxSway + 0.02, so from -0.5 it moves to -0.48. |
| `Motion.HoldRightFromCentre` | script.js:177-178 | Holding only the right arrow from x = 0 for n frames gives min(0.02·n, 0.5): exactly 0.5 after 25 frames, and still 0.5 after that. |
| `Motion.HoldRightFrom` | script.js:177-178 | From x = 0.02·k (k <= 25), n frames of right arrow give min(0.02·(k+n), 0.5). |
| `Motion.OffsetRangeAlways` | script.js:181-184 | An offset in [-2.0, 0.0] stays there after any number of frames. |
| `Motion.OffsetFromStart` | script.js:120-184 | From the initial offset 0, frame n >= 1 has offset -0.02·m, with m = (n-1) mod 100 + 1. |
| `Motion.OffsetPeriodic` | script.js:181-184 | After the first frame, the offset repeats every 100 frames. |
| `Motion.FirstWrap` | script.js:181-184 | From 0, the offset is exactly -2.0 after 100 frames without wrapping. Frame 101 wraps it to -0.02. |
| `Graphics.Gl.constructor` | script.js:66-107 | After startup, the lane marking's vertex and index buffers are the ones left bound. No attribute pointer is set, both uniforms hold their zero defaults, and nothing has been drawn. |
| `Graphics.Gl.ClearScreen` | script.js:139-140 | Appends one clear to black, and nothing else changes. |
| `Graphics.Gl.BindArrayBuffer` | script.js:154 | Binds a vertex buffer. Only the array-buffer binding changes. |
| `Graphics.Gl.VertexAttribPointer` | script.js:155 | The position attribute now reads the buffer bound at this moment. Later binds do not move it. |
| `Graphics.Gl.BindElementBuffer` | script.js:156 | Binds an index buffer. Only the element-buffer binding changes. |
| `Graphics.Gl.SetColor` | script.js:153 | Sets the color uniform, and nothing else changes. |
| `Graphics.Gl.SetModelView` | script.js:166 | Uploads the model-view matrix, and nothing else changes. |
| `Graphics.Gl.DrawElements` | script.js:157 | Appends one draw that records the current attribute buffer, index buffer, color and model-view matrix. |
| `Game.Scene.constructor` | script.js:117-125 | The initial state is the car at (0, -0.2, -1.5), road offset 0 and both keys released. The invariant holds: the two key entries, x within ±0.5, fixed y and z, and the offset in [-2, 0]. |
| `Game.Scene.KeyDown` | script.js:127-129 | The keydown listener: `keyState` becomes `KeyEvent(old, key, true)`. The invariant and every other field are kept. |
| `Game.Scene.KeyUp` | script.js:131-133 | The keyup listener: `keyState` becomes `KeyEvent(old, key, false)`. The invariant and every other field are kept. |
| `Game.Scene.Step` | script.js:176-184 | The car's x becomes `NextX` of the held keys, and y and z are unchanged. The offset becomes `NextOffset`. The key flags are untouched, and the invariant is preserved. |
| `Game.DrawRoad` | script.js:152-158 | Issues one gray draw with the road's buffers and the previously uploaded matrix. It points the attribute at the road's vertex buffer and uploads no matrix. |
| `Game.DrawLaneMarkings` | script.js:160-172 | The counter runs from -1.0 by 0.2 while <= 1.0, which is 11 passes. Each pass issues a red draw of the car's index buffer at the car's translation. It ends with the car's translation uploaded. |
| `Game.Render` | script.js:138-203 | One frame: clear, update the scene, then issue exactly `FrameAsWritten(previous upload, new car position)`. Afterwards the car's translation is uploaded, the color uniform is red, the road's vertex buffer is bound and read by the attribute, and the car's index buffer is bound. |
| `Game.FrameAsWritten` | script.js:138-200 | The command list of one `render` call: a clear to black, the gray road draw with the matrix uploaded before the frame, then 11 lane-loop draws and the final car draw, each red with the car's index buffer and the road's vertex buffer at the car's translation. |
| `Game.Frame` | script.js:138-200 | The intended frame: a clear to black, the road with its own buffers at `(0, roadOffset % 2.0, -2.0)`, a white lane marking with its own buffers at `(0, -1.0 + 0.2k, -2.0)` for each of the 11 loop passes k, and the red car with its own buffers at its position last. |
| `Game.FrameOrder` | script.js:139-200 | The frame issues the clear, the road draw, 11 lane-loop draws, and the car draw last at the car's position. Every draw's count equals its index buffer's length. |
| `Game.LaneLoopRedrawsCar` | script.js:160-169 | Every lane-loop draw is identical to the final car draw, and no draw uses a lane-marking buffer. |
| `Game.RoadDrawnWithStaleMatrix` | script.js:186-189 | In the first frame the road is drawn with the zero matrix, never at `(0, roadOffset % 2.0, -2.0)`. In later frames it is drawn at the previous frame's car translation. |
| `Game.EveryDrawReadsRoadVertices` | script.js:152-200 | Every draw of the frame reads the road's vertex buffer, the car's final draw included. |
| `Game.FrameDrawsEachShape` | script.js:186-200 | In the intended frame, every draw uses one shape's own vertex and index buffers with a count equal to its index length. The order is: the road at `(0, roadOffset % 2.0, -2.0)` with y in (-2, 0], then lane markings at y = -1.0, -0.8, ..., 1.0, then the car last at its position. |

## Findings

| source | as written | input that shows it | evidently intended | confidence | as-written member | corrected member |
|---|---|---|---|---|---|---|
| script.js:160-169 | The lane-marking loop uploads the car's translation, sets red and draws the car's index buffer on every pass. The lane-marking buffers are never drawn. | Any frame, e.g. the first with the car at (0, -0.2, -1.5): 11 red car draws and no lane draw. | Draw the lane-marking shape, white, at each loop position along the road. | high that it is a defect; the positions (0, i, -2.0) are a reading of the loop; not executed | `Game.LaneLoopRedrawsCar` | `Game.FrameDrawsEachShape` |
| script.js:186-189 | The road's model-view matrix `translate(0, roadOffset % 2.0, -2.0)` is built but never uploaded before `drawRoad`. | First frame: the road is drawn with the unset (zero) matrix. From then on it is drawn at the previous frame's car translation, whatever `roadOffset` is. | Upload the road's translation before drawing the road. | high; not executed | `Game.RoadDrawnWithStaleMatrix` | `Game.FrameDrawsEachShape` |
| script.js:155 | `vertexAttribPointer` is called only in `drawRoad`, while the road's vertex buffer is bound. The car draws bind only the car's index buffer. | Any frame: the final car draw reads the road's 2 × 1 vertices, not the car's 0.3 × 0.1 ones. | Bind each shape's vertex buffer and point the attribute at it before its draw. | high; not executed | `Game.EveryDrawReadsRoadVertices` | `Game.FrameDrawsEachShape` |

`Game.Render` and its helpers model the code as written. The intended frame
is `Game.Frame`, a function about which `Game.FrameDrawsEachShape` is
proved.

## Left out

- Shader sources, compilation and linking, and their error reports
  (script.js:10-54). These are foreign WebGL calls with no behaviour
  visible here. The model assumes a working program.
- Uploading buffer contents (`bufferData`) is not modelled. A buffer is
  identified with the constant shape it is filled from.
- `useProgram`, attribute and uniform location lookup, and
  `enableVertexAttribArray` (script.js:142-149) are left out. They are
  repeated each frame and affect nothing the model tracks.
- The projection matrix is left out: `mat4.perspective` from the gl-matrix
  library, the canvas aspect ratio, and its upload at script.js:110-111
  and 174. It is floating-point matrix math from a library that is not part
  of this model.
- `mat4.identity` followed by `mat4.translate` is modelled only as the
  translation vector it is given (`Matrix.Translate`).
- IEEE-754 doubles are not modelled. Steps of 0.02, `Math.max`/`Math.min`
  and the lane counter's `i += 0.2` are exact here, so the wrap timing of
  the road offset is the idealised one: wrap at frame 101 from 0. In
  64-bit floats, 100 subtractions of 0.02 from 0 give about
  -2.0000000000000013, which is below -2.0, so in doubles the first wrap
  comes at frame 100, not 101 (`Motion.FirstWrap`, `Motion.OffsetFromStart`
  state the exact-arithmetic timing). The
  JavaScript `-2.0 % 2.0` is negative zero, which is 0 here.
- The lane loop's pass count is 11 in exact arithmetic (`LANE_PASSES`).
  Rounding of the accumulated counter is not modelled.
- `Controls.KeyEvent`: JavaScript's `event.key in keyState` also sees
  inherited properties (such as `toString`). Such a key would get an own
  entry in the source, but here it is ignored. Browser key names never
  coincide with those property names.
- The canvas sizing (script.js:2-7), listener registration with
  `addEventListener`, and rescheduling with `requestAnimationFrame`
  (script.js:202, 207) are left out. The model has one call of `Render`
  per frame. Runs of frames are stated on the pure update functions
  (`XAfter`, `OffsetAfter`).
- The intended frame is stated as a function (`Game.Frame`), not as a
  second imperative renderer.
