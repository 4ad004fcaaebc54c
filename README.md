# Rolling-box sketch: a verified model

The sketch in `index.tsx` draws a grid of neon cubes, one per cell of a
`rows` by `cols` grid. Each cube can roll over one of its bottom edges by one
cell. Every frame the sketch samples the camera picture. It mirrors it left to
right, takes the brightness of each cell, and compares it with the previous
frame's brightness. A cell whose brightness changed by more than the
configured threshold starts its cube rolling. When auto-march is on, a cell
can also start by a small random chance. Stronger motion gives a faster roll
and a hotter, more opaque colour.

The model has six modules, one per file:

- `Vectors` (`vectors.dfy`): vector values `V3` and the library's mutable
  vector object `Vector`, which `Add` and `Mult` change in place.
- `Palette` (`palette.dfy`): the seven-colour palette, its hot and cool groups,
  and the recolouring rule. A colour is a palette position plus an alpha.
- `Motion` (`motion.dfy`): the pure part of the sampling loop. It covers the
  row-major cell index, the mirrored pixel offset, the brightness average, the
  intensity ramp, the speed mapping and the trigger rule.
- `Tiles` (`tiles.dfy`): the rolling-cube state machine on values. A `Tile` is
  a snapshot of a box's fields. `Start` is `startAnimation`, `Step` is
  `update` and `PoseOf` is the pose `show` draws. This module also holds the
  direction table.
- `RollBoxes` (`rollbox.dfy`): the `RollBox` class itself. Its fields are
  updated in place and it holds vector objects. Each method is proved against
  the functions of `Tiles` through `State()`.
- `Sketches` (`sketch.dfy`): the sketch's state as a class `Sketch`. It covers
  the construction of the direction table and the grid in `setup`, and the
  motion-sampling loop of `draw` as nested `while` loops. The loop writes over
  the previous-frame map and starts the boxes of the cells that fire.

Randomness, the frame counter and the camera picture are parameters:

- Each random draw is a number the caller supplies. A `Dice` value holds one
  cell's draws, and `dirPicks`/`colPicks` hold the draws made at construction.
  A pick `p` selects element `p % n` of an `n`-element list.
- The frame counter is an argument.
- The camera picture is a sequence of RGBA bytes, empty while the camera has
  no picture. √2 is a real `sqrt2` with `sqrt2 * sqrt2 == 2`.
- Numbers are reals. `HALF_PI` is the decimal 1.5707963267948966, the
  shortest decimal that reads back as the library's double. The model takes
  that decimal as an exact real; the double itself differs from it in the
  seventeenth digit.
- The previous-frame array is sparse in the source. It is modelled as a
  `map<int, real>`, and a missing key stands for `undefined`.

### What the code does, where a reader might expect otherwise

- **A roll finishes one update later than its length.** A tile started for `N`
  frames completes on the first `update` where more than `N` frames have
  passed. The test is `a > HALF_PI`, which is strict. In real arithmetic,
  when exactly `N` frames have passed, the angle is exactly π/2 and the tile
  is still animating, so the angle lies in [0, π/2], not [0, π/2). The sketch
  also updates a tile in the same frame it starts it. So a roll of `N` frames
  lands on the first update `n` after its start with `n - 1 > N`
  (`Tiles.RollLifetime`). For a whole `N` that is the `(N+2)`-th update; `N`
  is usually fractional (23.5 at intensity 0.25, which lands on the 25th).
  In floating point the roll can land one update earlier; see "Left out".
- **Idle implies angle 0, but not the reverse.** An idle tile has angle 0, but
  a tile that has only just started also has angle 0 until its first update.
- **The step is measured from the current position.** A completed roll moves
  the tile one step from where it was, `pos + dir * 2 * edgeOffset`. This
  equals the anchor plus one step only while the tile is at its anchor when
  the roll starts: on its first roll, after a reset to the anchor, or after
  it has rolled away and back. The tile returns to its anchor when it ends up
  farther than `0.8 * width` from it, so a landed tile is never farther than
  that from its anchor (`Tiles.Landing`).
- **The sketch mirrors the picture itself.** The sampling loop reads the pixel
  of video column `cols - 1 - x` for grid column `x`.
- **A threshold of exactly 100 divides by zero.** The library's `map` then
  yields +Infinity for any larger change, which clamps to intensity 1. A
  threshold above 100 clamps to 0. `Motion.Ramp` models both cases.
- **A completed roll leaves its direction scaled.** `update` multiplies the
  box's own direction vector in place. After a roll, the box's direction is
  therefore scaled by `2 * edgeOffset`. The shared table is never touched,
  because `startAnimation` gives the box private copies.

## Model

| member | source | states |
|---|---|---|
| Vectors.FartherThanIsDistance | index.tsx:113-114 | the squared-distance test `FartherThan` holds exactly when the Euclidean distance exceeds the limit |
| Vectors.Vector.Copy | index.tsx:81-82 | `copy()` returns a new object with the same components |
| Vectors.Vector.Add | index.tsx:109 | `add` replaces the vector by the sum, in place |
| Vectors.Vector.Mult | index.tsx:109 | `mult` replaces the vector by its multiple, in place |
| Palette.PaletteSplits | index.tsx:13-25 | the hot entries (0, 1, 5) and the cool entries (2, 3, 4, 6) split the seven-colour palette into two disjoint groups that cover it |
| Palette.InitialColor | index.tsx:69-70 | a new box's colour is a cool colour at alpha 180 |
| Palette.Recolor | index.tsx:92-98 | intensity above 0.4 gives a hot colour at alpha 255; otherwise a cool colour at alpha `120 + 135 * intensity`; the alpha lies in [120, 255] for intensities in [0, 1] |
| Palette.AlphaMonotone | index.tsx:92-98 | over [0, 1], a higher intensity never gives a lower alpha |
| Palette.RecolorReachesGroup | index.tsx:92-98 | every colour of the group an intensity selects is chosen by some random pick |
| Motion.GridIndexDecodes | index.tsx:255 | `x + y * cols` decodes back to column `x` (remainder) and row `y` (quotient) |
| Motion.GridIndexInRange | index.tsx:255 | every cell of the grid has an index in `[0, rows * cols)` |
| Motion.GridIndexCovers | index.tsx:213-218 | every index in `[0, rows * cols)` is the index of exactly one cell, `(k % cols, k / cols)` |
| Motion.MirroredIndex | index.tsx:247-248 | the pixel offset of cell `(x, y)` is a multiple of 4 and points at video column `cols - 1 - x`, row `y` |
| Motion.MirroredIndexInjective | index.tsx:247-248 | different cells read different pixels |
| Motion.MirroredIndexInFrame | index.tsx:248-252 | the R, G and B bytes a cell reads lie inside a `cols` by `rows` RGBA frame |
| Motion.Brightness | index.tsx:253 | the mean of R, G and B lies in [0, 255], between two of the channels, and equals the channel value for a grey pixel |
| Motion.CellBrightness | index.tsx:247-253 | the brightness of the cell with grid index `k` lies in [0, 255] |
| Motion.CellBrightnessAt | index.tsx:247-253 | the brightness of cell `(x, y)` is the mean of the pixel at offset `4 * ((cols - 1 - x) + y * cols)` |
| Motion.Sampled | index.tsx:281 | after the loop, every cell maps to this frame's brightness, every other key keeps its old value, and no other key is added |
| Motion.Clamp | index.tsx:268 | the library's `constrain` keeps its result within [low, high], returns a value already inside unchanged, and gives `high` above the range and `low` below it |
| Motion.MapRange | index.tsx:268 | the library's `map` takes `start1` to `start2` and `stop1` to `stop2` |
| Motion.Ramp | index.tsx:265-268 | the intensity lies in [0, 1]; it is 1 from a change of 100 upwards, linear in between (`i * (100 - threshold) == diff - threshold`), 1 for a threshold of exactly 100, and 0 for a threshold above 100 |
| Motion.RampMonotone | index.tsx:268 | a larger change never gives a smaller intensity |
| Motion.SpeedFrames | index.tsx:276 | the roll length is `30 - 26 * intensity` frames: it lies in [4, 30] for intensities in [0, 1], 30 at intensity 0 and 4 at intensity 1 |
| Motion.MoreMotionRollsFaster | index.tsx:265-276 | a larger change never gives a longer roll |
| Motion.Decide | index.tsx:259-272 | a cell fires exactly when the change exceeds the threshold, or auto-march is on and its coin came up; a change beyond the threshold fires with the ramped intensity; otherwise the drawn march intensity is used, which lies in [0, 1] |
| Motion.NoAutoMarchFiresOnMotionOnly | index.tsx:265-272 | without auto-march, a cell fires exactly when its change exceeds the threshold |
| Motion.CellTrigger | index.tsx:257-258 | a cell without a previous brightness never fires; otherwise the rule is applied to the absolute change |
| Tiles.DirectionTableShape | index.tsx:205-210 | the table has four entries; each is a unit horizontal step whose pivot is the step plus `(0, 1, 0)`; no two entries share a name |
| Tiles.InitialTile | index.tsx:60-73 | a new tile is idle and upright at its anchor, has the chosen direction, a cool colour at alpha 180, start frame 0 and length 10 |
| Tiles.Start | index.tsx:76-100 | an animating tile is returned unchanged; an idle one starts animating at this frame for the given length, with the given direction and a colour chosen by the intensity, and keeps its position and angle; the tile invariant is preserved |
| Tiles.StartTwice | index.tsx:77-99 | a second start while the first animation runs changes nothing |
| Tiles.Angle | index.tsx:105 | the angle times the length is `HALF_PI` times the elapsed frames; it is 0 at the start frame and exactly `HALF_PI` once the length has elapsed |
| Tiles.AngleFacts | index.tsx:105-107 | the angle exceeds π/2 exactly when more frames than the length have passed, and lies in [0, π/2] until then |
| Tiles.Landing | index.tsx:109-116 | a completed roll moves the tile one step `2 * edgeOffset` along its direction, or back to its anchor when that step ends farther than `0.8 * width` from it; either way, for a non-negative width, the tile ends no farther than `0.8 * width` from its anchor |
| Tiles.Landed | index.tsx:107-116 | a completed roll leaves the tile idle at angle 0, at `Landing`, with its direction scaled by `2 * edgeOffset` and every other field kept; the tile invariant holds and the tile is within `0.8 * width` of its anchor |
| Tiles.Step | index.tsx:102-119 | an idle tile is unchanged; while the elapsed frames do not exceed the length, only the angle changes, to the elapsed fraction of π/2, within [0, π/2]; after that the tile lands: idle, angle 0, position as `Landing`, direction scaled, the other fields kept; the tile invariant is preserved |
| Tiles.Run | index.tsx:102-119 | through any number of updates the tile keeps its invariant, its anchor, length, start frame, name, pivot and colour; a tile still rolling after them was rolling before and has not moved |
| Tiles.RunIdle | index.tsx:103-118 | an idle tile stays as it is through any number of updates |
| Tiles.RunRolling | index.tsx:103-117 | over consecutive updates, a rolling tile keeps rolling at the angle of the last frame while that frame is within the length, and has landed exactly once after it |
| Tiles.RollLifetime | index.tsx:76-117 | a tile started at frame `f` for `N` frames and updated in frames `f`, `f+1`, ... is still rolling at its position after `n` updates while `n - 1 <= N`, and after that has landed one step on, or back at its anchor |
| Tiles.PoseOf | index.tsx:125-144 | the pose is drawn at the tile's position with its colour and the pivot offset `pivot * edgeOffset`; it is rotated exactly while animating; forwards and backwards turn about X, left and right about Z; backwards and right by `a`, forwards and left by `-a` |
| Tiles.RollIsContinuous | index.tsx:125-144 | for every table direction, a cube at angle 0 is drawn where the tile is, and after a quarter turn about the pivot exactly where completing the roll puts it |
| RollBoxes.RollBox.constructor | index.tsx:60-73 | the new box is valid, with new position and anchor vectors; its direction is the table entry itself; `sideLength` is `0.9 * side` and `edgeOffset` is `sqrt2 * sideLength / 2`; its state is `InitialTile` |
| RollBoxes.RollBox.StartAnimation | index.tsx:76-100 | the box's new state is `Start` of its old state; an animating box is unchanged; an idle one gets new copies of the chosen direction's vectors and keeps its position vector |
| RollBoxes.RollBox.Update | index.tsx:102-119 | the box's new state is `Step` of its old state; the shared direction table keeps its values; the position vector is replaced only by a new copy, at the end of a roll |
| RollBoxes.RollBox.Show | index.tsx:121-144 | the pose drawn is `PoseOf` of the box's state |
| Sketches.CellCenter | index.tsx:215-217 | a box rests on the plane `y = 0`, and the centre of every column lies strictly inside the canvas width |
| Sketches.ColumnX | index.tsx:215 | the across coordinate of every column's centre lies strictly between `-width / 2` and `width / 2` |
| Sketches.CellCenterSpacing | index.tsx:215-216 | neighbouring columns are one cell width apart, and mirrored columns lie symmetrically about the canvas centre |
| Sketches.CellOutcome | index.tsx:257-278 | the motion loop either leaves a cell's tile as it was, or starts an idle one at this frame, at its position, for 4 to 30 frames |
| Sketches.CellOutcomeFacts | index.tsx:257-278 | a cell seen for the first time, a tile already rolling, and a change within the threshold without auto-march all leave the tile alone; a change beyond the threshold starts an idle tile now, with the ramped intensity's length (4 to 30 frames), the picked direction and a hot colour above 0.4 |
| Sketches.OutcomeReadsOneCell | index.tsx:257-258 | a cell's outcome depends on the previous-frame map only through that cell's own entry |
| Sketches.OverwrittenStep | index.tsx:281 | visiting cell `n` reads the entry the map had before the loop, and adds this frame's brightness for that cell |
| Sketches.OverwrittenPrefix | index.tsx:245-282 | after the first `n` cells in grid order, exactly those cells hold this frame's brightness, the other keys are unchanged, and nothing else is added |
| Sketches.SampledUpToAll | index.tsx:244-284 | once every cell has been visited, the map is `Sampled` |
| Sketches.GridTileAt | index.tsx:213-218 | the box at index `i + j * cols` is the box built for column `i`, row `j`: at that cell's centre, with that box's random picks |
| Sketches.NewDirections | index.tsx:205-210 | four entries holding new vectors, whose values are the direction table |
| Sketches.Setup | index.tsx:205-218 | the table and `rows * cols` distinct valid boxes that share it, the `k`-th box at `GridTile(k)` |
| Sketches.NewGrid | index.tsx:213-219 | the `rows * cols` boxes pushed in row-major order are distinct and valid, share the table, and the `k`-th starts as `GridTile(k)` |
| Sketches.NewRow | index.tsx:214-218 | row `j` appends `cols` new, distinct, valid boxes sharing the table; every box, earlier or new, is at its `GridTile` |
| Sketches.NewCell | index.tsx:215-217 | the box of cell `(i, j)` is appended at index `i + j * cols`, at the cell's centre |
| Sketches.ReadCell | index.tsx:247-253 | the brightness read for cell `(x, y)` is `CellBrightness` of its grid index |
| Sketches.Sketch.constructor | index.tsx:191-218 | the sketch is valid, with an empty previous-frame map, and box `k` starts as `GridTile(k)` |
| Sketches.Sketch.Judge | index.tsx:257-272 | the cell fires exactly when `CellTrigger` says so, and with its intensity, which lies in [0, 1] |
| Sketches.Sketch.Launch | index.tsx:274-278 | box `k` becomes `Start` of its old state, with the speed of the intensity; every other box is unchanged |
| Sketches.Sketch.Visit | index.tsx:255-281 | box `k` becomes `CellOutcome` of its old state; the map gains this frame's brightness at `k`; every other box is unchanged |
| Sketches.Sketch.SampleCell | index.tsx:246-282 | one inner pass moves the overwritten prefix and the finished boxes on by one cell |
| Sketches.Sketch.SampleRow | index.tsx:245-283 | one outer pass moves the overwritten prefix and the finished boxes on by one row |
| Sketches.Sketch.SampleMotion | index.tsx:242-284 | with no picture, the map and every box are unchanged; otherwise the map becomes `Sampled` of the old map, and each box becomes `CellOutcome` of its old state, judged against the map as it was before the loop |

## Left out

- Rendering is not modelled: translations, rotations, `box`, fill, stroke,
  lights, background, the global spin and the camera (index.tsx:121-159,
  193-196, 225-239, 291). Only the pose `show` chooses is modelled.
- Video capture and `loadPixels` (index.tsx:199-201, 242-243) are left out. The
  frame's pixels are a parameter.
- The GUI panel, the React mount and cleanup, and `windowResized` are left
  out, because they are user-interface glue. The threshold and auto-march flag
  are parameters.
- Random choices are parameters, not distributions. The model does not state
  the 0.5% auto-march chance or the uniform law of its intensity. It requires
  only that a march intensity lies in [0.2, 0.8].
- The motion loop takes the draws of every cell up front. The source draws
  them only when a cell gets that far. The outcomes are the same.
- Floating point is modelled by reals. `sqrt(2)`, `HALF_PI` and `dist` are
  exact, and NaN and infinities do not occur, except the division by zero
  that `Motion.Ramp` models explicitly. Rounding is therefore not modelled.
  In particular, in doubles `HALF_PI * N / N > HALF_PI` holds for some whole
  lengths `N` (13 and 26 among them; a threshold of 22 and a change of 34
  give a length of exactly 26). Such a roll lands in the update where
  exactly `N` frames have passed, one update earlier than `Tiles.Step` and
  `Tiles.RollLifetime` say. The column offset `i * width / cols` is written
  as `i * (width / cols)`, which is the same real.
- The variable `motionThreshold` (index.tsx:45, 178) is never read by `draw`,
  so it is left out.
- Each box's `update` and `show` are modelled, but not the loop that calls
  them once per box (index.tsx:286-289). `Tiles.RollLifetime` gives the
  sequence of updates one tile sees.
- `startAnimation`'s default arguments (`customDir = null`, `frames = 20`,
  `intensity = 0`) do not exist in the model. Callers pass every argument.
- Colours are palette positions with an alpha. Their RGB values and the
  library's colour objects are not modelled.
- The boxes' `p` back-reference and `sideLength`'s use in drawing are left out.
- RollBoxes.RollBox.StartAnimation: requires a positive frame count. The
  source does not check it. A count of 0 would give an infinite or NaN angle,
  which reals cannot express. The only caller passes 4 to 30 frames.
- RollBoxes.RollBox.constructor: requires a non-empty direction table. The
  library's random choice from an empty list gives `undefined`, and the sketch
  always passes four entries.
- Sketches.Sketch.SampleMotion: requires the picture to be empty or to hold at
  least `rows * cols` RGBA pixels. On a shorter, non-empty buffer the source
  reads `undefined` and computes a NaN brightness, which is not modelled.
