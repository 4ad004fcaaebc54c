/** The sketch's state and its two loops over the grid: the construction of
    the boxes in row-major order, and the per-frame motion sampling that
    overwrites the previous-frame snapshot and starts the boxes of the cells
    that moved. */
module Sketches {
  import opened Vectors
  import opened Palette
  import opened Motion
  import opened Tiles
  import opened RollBoxes

  /** The resting position of the box of column `i`, row `j` on a canvas
      `width` by `height`: cells are `width / cols` apart across and
      `height / rows` apart in depth, and every centre is offset by half of
      `side = width / cols`. The boxes stand on the plane `y = 0`, and the
      centre of every column lies strictly inside the canvas. */
  function CellCenter(i: int, j: int, rows: nat, cols: nat, width: real, height: real): (c: V3)
    requires rows > 0 && cols > 0
    ensures c.y == 0.0
    ensures 0 <= i < cols && width > 0.0 ==> -width / 2.0 < c.x < width / 2.0
  {
    var side := width / cols as real;
    V3(ColumnX(i, cols, width),
       0.0,
       -height / 2.0 + j as real * height / rows as real + side / 2.0)
  }

  /** The across coordinate of column `i`'s centre. */
  function ColumnX(i: int, cols: nat, width: real): (x: real)
    requires cols > 0
    ensures 0 <= i < cols && width > 0.0 ==> -width / 2.0 < x < width / 2.0
  {
    ColumnInside(i, cols, width);
    var side := width / cols as real;
    -width / 2.0 + i as real * side + side / 2.0
  }

  /** The centre of every column lies strictly inside the canvas. */
  lemma ColumnInside(i: int, cols: nat, width: real)
    requires cols > 0
    ensures var side := width / cols as real;
            var x := -width / 2.0 + i as real * side + side / 2.0;
            0 <= i < cols && width > 0.0 ==> -width / 2.0 < x < width / 2.0
  {
    if !(0 <= i < cols && width > 0.0) {
      return;
    }
    var c := cols as real;
    var w := width / c;
    var iw := i as real * w;
    assert c * w == width && w > 0.0;
    var gap := c - 1.0 - i as real;
    assert gap >= 0.0 && gap * w >= 0.0;
    assert gap * w == width - w - iw;
    assert 0.0 <= iw;
  }

  /** Neighbouring columns are one cell width apart, and the columns are
      placed symmetrically about the centre of the canvas. */
  lemma CellCenterSpacing(i: int, j: int, rows: nat, cols: nat, width: real, height: real)
    requires rows > 0 && cols > 0
    ensures CellCenter(i + 1, j, rows, cols, width, height).x - CellCenter(i, j, rows, cols, width, height).x
              == width / cols as real
    ensures CellCenter(i, j, rows, cols, width, height).x +
              CellCenter(MirroredColumn(i, cols), j, rows, cols, width, height).x == 0.0
  {
    var c := cols as real;
    var w := width / c;
    var m := MirroredColumn(i, cols);
    assert (i + 1) as real * w == i as real * w + w;
    assert m as real * w == c * w - w - i as real * w;
    assert c * w == width;
  }

  /** What the motion loop does to the tile of cell `k`: a cell that fires
      starts its tile with the intensity's speed, a direction picked from the
      table and a colour picked by the intensity; otherwise the tile is left
      alone. */
  function CellOutcome(t: Tile, prev: map<int, real>, pixels: seq<byte>, rows: nat, cols: nat,
                       k: int, frameCount: int, threshold: real, autoMarch: bool, dice: Dice): (r: Tile)
    requires 0 <= k < rows * cols && |pixels| >= 4 * rows * cols
    requires 0.2 <= dice.march <= 0.8
    ensures r == t || (!t.animating && r.animating && r.startFrame == frameCount &&
                       r.pos == t.pos && 4.0 <= r.totalFrames <= 30.0)
  {
    match CellTrigger(prev, k, CellBrightness(pixels, rows, cols, k), threshold, autoMarch, dice)
    case Quiet => t
    case Fire(i) => Start(t, frameCount, SpeedFrames(i), i, DirectionSpecs[dice.dirPick % 4], dice.colPick)
  }

  /** A cell seen for the first time, a tile already rolling, and a change
      within the threshold without auto-march all leave the tile alone; a
      change beyond the threshold starts an idle tile at this frame, with the
      speed and colour of the ramped intensity. */
  lemma CellOutcomeFacts(t: Tile, prev: map<int, real>, pixels: seq<byte>, rows: nat, cols: nat,
                         k: int, frameCount: int, threshold: real, autoMarch: bool, dice: Dice)
    requires 0 <= k < rows * cols && |pixels| >= 4 * rows * cols
    requires 0.2 <= dice.march <= 0.8
    ensures var r := CellOutcome(t, prev, pixels, rows, cols, k, frameCount, threshold, autoMarch, dice);
      (Inv(t) ==> Inv(r)) &&
      (k !in prev ==> r == t) &&
      (t.animating ==> r == t) &&
      ((k in prev && !autoMarch &&
        Abs(CellBrightness(pixels, rows, cols, k) - prev[k]) <= threshold) ==> r == t) &&
      (k in prev && !t.animating &&
       Abs(CellBrightness(pixels, rows, cols, k) - prev[k]) > threshold ==>
         var i := Ramp(Abs(CellBrightness(pixels, rows, cols, k) - prev[k]), threshold);
         r.animating && r.startFrame == frameCount && r.totalFrames == SpeedFrames(i) &&
         4.0 <= r.totalFrames <= 30.0 &&
         r.desc == DirectionSpecs[dice.dirPick % 4].desc && r.pos == t.pos &&
         (i > HotLevel ==> r.col.swatch in HotSwatches && r.col.alpha == 255.0))
  {
  }

  /** Of the snapshot, a cell's outcome depends on that cell's entry alone. */
  lemma OutcomeReadsOneCell(t: Tile, m1: map<int, real>, m2: map<int, real>, pixels: seq<byte>,
                            rows: nat, cols: nat, k: int, frameCount: int, threshold: real,
                            autoMarch: bool, dice: Dice)
    requires 0 <= k < rows * cols && |pixels| >= 4 * rows * cols
    requires 0.2 <= dice.march <= 0.8
    requires k in m1 <==> k in m2
    requires k in m1 ==> m1[k] == m2[k]
    ensures CellOutcome(t, m1, pixels, rows, cols, k, frameCount, threshold, autoMarch, dice) ==
            CellOutcome(t, m2, pixels, rows, cols, k, frameCount, threshold, autoMarch, dice)
  {
  }

  /** `m` is `prev` with the first `n` cells, in grid order, overwritten by
      this frame's brightness. */
  ghost predicate SampledUpTo(m: map<int, real>, prev: map<int, real>, pixels: seq<byte>,
                              rows: nat, cols: nat, n: int)
    requires n <= rows * cols && |pixels| >= 4 * rows * cols
  {
    (forall c :: c in m <==> c in prev || 0 <= c < n) &&
    (forall c :: 0 <= c < n ==> m[c] == CellBrightness(pixels, rows, cols, c)) &&
    (forall c :: c in prev && !(0 <= c < n) ==> m[c] == prev[c])
  }

  /** Visiting cell `n` reads the value `prev` held there and adds this
      frame's brightness for it. */
  lemma OverwrittenStep(prev: map<int, real>, pixels: seq<byte>, rows: nat, cols: nat, n: int)
    requires 0 <= n < rows * cols && |pixels| >= 4 * rows * cols
    ensures n in Overwritten(prev, pixels, rows, cols, n) <==> n in prev
    ensures n in prev ==> Overwritten(prev, pixels, rows, cols, n)[n] == prev[n]
    ensures Overwritten(prev, pixels, rows, cols, n + 1) ==
            Overwritten(prev, pixels, rows, cols, n)[n := CellBrightness(pixels, rows, cols, n)]
  {
    OverwrittenPrefix(prev, pixels, rows, cols, n);
  }

  /** Once every cell is overwritten, the snapshot is the sampled one. */
  lemma SampledUpToAll(m: map<int, real>, prev: map<int, real>, pixels: seq<byte>,
                       rows: nat, cols: nat)
    requires |pixels| >= 4 * rows * cols
    requires SampledUpTo(m, prev, pixels, rows, cols, rows * cols)
    ensures m == Sampled(prev, pixels, rows, cols)
  {
  }

  /** The snapshot after the loop has visited the cells before grid index
      `n`, in grid order: each visit writes that cell's brightness over
      `prev`. */
  function Overwritten(prev: map<int, real>, pixels: seq<byte>, rows: nat, cols: nat, n: int): map<int, real>
    requires |pixels| >= 4 * rows * cols
    decreases n
  {
    if n <= 0 then prev
    else
      var m := Overwritten(prev, pixels, rows, cols, n - 1);
      if n - 1 < rows * cols then m[n - 1 := CellBrightness(pixels, rows, cols, n - 1)] else m
  }

  lemma {:induction false} OverwrittenPrefix(prev: map<int, real>, pixels: seq<byte>,
                                             rows: nat, cols: nat, n: int)
    requires 0 <= n
    requires n <= rows * cols && |pixels| >= 4 * rows * cols
    ensures SampledUpTo(Overwritten(prev, pixels, rows, cols, n), prev, pixels, rows, cols, n)
  {
    if n > 0 {
      OverwrittenPrefix(prev, pixels, rows, cols, n - 1);
      SampledUpToStep(Overwritten(prev, pixels, rows, cols, n - 1), prev, pixels, rows, cols, n - 1);
    }
  }

  /** Writing cell `n`'s brightness extends an overwritten prefix by one cell. */
  lemma SampledUpToStep(m: map<int, real>, prev: map<int, real>, pixels: seq<byte>,
                        rows: nat, cols: nat, n: int)
    requires 0 <= n < rows * cols && |pixels| >= 4 * rows * cols
    requires SampledUpTo(m, prev, pixels, rows, cols, n)
    ensures SampledUpTo(m[n := CellBrightness(pixels, rows, cols, n)], prev, pixels, rows, cols, n + 1)
  {
  }

  /** The tile every cell is to end the frame with, from the tiles `start`. */
  ghost function AllOutcomes(start: seq<Tile>, prev: map<int, real>, pixels: seq<byte>,
                             rows: nat, cols: nat, frameCount: int, threshold: real,
                             autoMarch: bool, dice: seq<Dice>): (s: seq<Tile>)
    requires |start| == rows * cols && |dice| == rows * cols && |pixels| >= 4 * rows * cols
    requires forall k :: 0 <= k < |dice| ==> 0.2 <= dice[k].march <= 0.8
    ensures |s| == |start|
    ensures forall k :: 0 <= k < |s| ==>
              s[k] == CellOutcome(start[k], prev, pixels, rows, cols, k, frameCount,
                                  threshold, autoMarch, dice[k])
  {
    seq(|start|, k requires 0 <= k < |start| == rows * cols == |dice| && |pixels| >= 4 * rows * cols &&
                            0.2 <= dice[k].march <= 0.8 =>
          CellOutcome(start[k], prev, pixels, rows, cols, k, frameCount, threshold, autoMarch, dice[k]))
  }

  lemma RowStep(j: int, rows: nat, cols: nat)
    requires 0 <= j < rows
    ensures 0 <= j * cols && (j + 1) * cols == j * cols + cols <= rows * cols
  {
    MulAtLeast(j + 1, cols);
    MulAtLeast(rows - j, cols);
    assert rows * cols == j * cols + (rows - j) * cols;
  }

  /** The direction table of `setup`, each entry holding two new vectors. */
  method NewDirections() returns (t: seq<DirRecord>)
    ensures |t| == 4 && fresh(TableObjects(t)) && TableValue(t) == DirectionSpecs
  {
    var e0 := NewDirection(DirectionSpecs[0]);
    var e1 := NewDirection(DirectionSpecs[1]);
    var e2 := NewDirection(DirectionSpecs[2]);
    var e3 := NewDirection(DirectionSpecs[3]);
    t := [e0, e1, e2, e3];
    assert TableObjects(t) <= {e0.dir, e0.pivotPt, e1.dir, e1.pivotPt, e2.dir, e2.pivotPt, e3.dir, e3.pivotPt};
  }

  /** A table entry with new vectors holding the values of `spec`. */
  method NewDirection(spec: DirSpec) returns (r: DirRecord)
    ensures fresh(r.dir) && fresh(r.pivotPt) && r.Value() == spec
  {
    var d := new Vector(spec.dir.x, spec.dir.y, spec.dir.z);
    var p := new Vector(spec.pivotPt.x, spec.pivotPt.y, spec.pivotPt.z);
    r := DirRecord(spec.desc, d, p);
  }

  /** Boxes created so far: distinct and valid, sharing `table`, and owning
      only objects of `objs`. */
  ghost predicate Built(bs: seq<RollBox>, objs: set<object>, table: seq<DirRecord>)
    reads objs
  {
    (forall k :: 0 <= k < |bs| ==>
       bs[k] in objs && bs[k].Objects() <= objs && bs[k].Valid() && bs[k].directions == table) &&
    (forall k, l :: 0 <= k < l < |bs| ==> bs[k] != bs[l])
  }

  lemma BuiltStep(bs: seq<RollBox>, objs: set<object>, table: seq<DirRecord>, b: RollBox)
    requires Built(bs, objs, table) && b !in objs
    requires b.Valid() && b.directions == table && b.Objects() - {b, b.pos, b.originalP} <= objs
    ensures Built(bs + [b], objs + {b, b.pos, b.originalP}, table)
  {
  }

  /** Changing box `k` alone, in a way that keeps it valid and its objects
      in `objs'`, keeps the boxes built. */
  twostate lemma BuiltAfterChange(new bs: seq<RollBox>, new objs: set<object>, new objs': set<object>,
                                  new table: seq<DirRecord>, new k: int)
    requires old(allocated(bs)) && old(allocated(objs)) && old(allocated(table))
    requires old(Built(bs, objs, table)) && 0 <= k < |bs| && objs <= objs'
    requires bs[k].Valid() && bs[k].directions == table && bs[k].Objects() <= objs'
    requires forall l :: 0 <= l < |bs| && l != k ==> unchanged(bs[l])
    ensures Built(bs, objs', table)
  {
  }

  /** The tile the `k`-th box created by `setup` starts as: resting at the
      centre of cell `(k % cols, k / cols)`, with the `k`-th random picks. */
  function GridTile(k: int, rows: nat, cols: nat, width: real, height: real,
                    dirPicks: seq<nat>, colPicks: seq<nat>): Tile
    requires rows > 0 && cols > 0 && 0 <= k < |dirPicks| && k < |colPicks|
  {
    InitialTile(CellCenter(k % cols, k / cols, rows, cols, width, height),
                DirectionSpecs[dirPicks[k] % 4], colPicks[k])
  }

  /** The box created for column `i`, row `j` rests at that cell's centre. */
  lemma GridTileAt(i: int, j: int, rows: nat, cols: nat, width: real, height: real,
                   dirPicks: seq<nat>, colPicks: seq<nat>)
    requires rows > 0 && cols > 0 && 0 <= i < cols && 0 <= j < rows
    requires |dirPicks| == rows * cols && |colPicks| == rows * cols
    ensures 0 <= GridIndex(i, j, cols) < rows * cols
    ensures GridTile(GridIndex(i, j, cols), rows, cols, width, height, dirPicks, colPicks) ==
              InitialTile(CellCenter(i, j, rows, cols, width, height),
                          DirectionSpecs[dirPicks[GridIndex(i, j, cols)] % 4],
                          colPicks[GridIndex(i, j, cols)])
  {
    GridIndexInRange(i, j, rows, cols);
    GridIndexDecodes(i, j, cols);
  }

  /** `setup`: the direction table, then the grid of boxes sharing it. */
  method Setup(rows: nat, cols: nat, width: real, height: real, sqrt2: real,
               dirPicks: seq<nat>, colPicks: seq<nat>)
    returns (table: seq<DirRecord>, bs: seq<RollBox>, ghost objs: set<object>)
    requires rows > 0 && cols > 0
    requires sqrt2 > 0.0 && sqrt2 * sqrt2 == 2.0
    requires |dirPicks| == rows * cols && |colPicks| == rows * cols
    ensures |table| == 4 && TableValue(table) == DirectionSpecs
    ensures TableObjects(table) <= objs && fresh(objs)
    ensures |bs| == rows * cols && Built(bs, objs, table)
    ensures forall k :: 0 <= k < |bs| ==>
              bs[k].State() == GridTile(k, rows, cols, width, height, dirPicks, colPicks)
  {
    table := NewDirections();
    bs, objs := NewGrid(rows, cols, width, height, sqrt2, table, dirPicks, colPicks);
  }

  /** The grid loop of `setup`: `rows * cols` boxes, created in row-major
      order, the `k`-th starting as `GridTile(k, ...)`, and all sharing
      `table`. */
  method NewGrid(rows: nat, cols: nat, width: real, height: real, sqrt2: real,
                 table: seq<DirRecord>, dirPicks: seq<nat>, colPicks: seq<nat>)
    returns (bs: seq<RollBox>, ghost objs: set<object>)
    requires rows > 0 && cols > 0
    requires sqrt2 > 0.0 && sqrt2 * sqrt2 == 2.0
    requires |table| == 4 && TableValue(table) == DirectionSpecs
    requires |dirPicks| == rows * cols && |colPicks| == rows * cols
    ensures |bs| == rows * cols && TableObjects(table) <= objs
    ensures fresh(objs - TableObjects(table)) && Built(bs, objs, table)
    ensures forall k :: 0 <= k < |bs| ==>
              bs[k].State() == GridTile(k, rows, cols, width, height, dirPicks, colPicks)
  {
    bs := [];
    objs := TableObjects(table);
    var j := 0;
    while j < rows
      invariant 0 <= j <= rows
      invariant |bs| == j * cols <= rows * cols
      invariant TableObjects(table) <= objs
      invariant fresh(objs - TableObjects(table)) && Built(bs, objs, table)
      invariant forall k :: 0 <= k < |bs| ==>
                  bs[k].State() == GridTile(k, rows, cols, width, height, dirPicks, colPicks)
    {
      RowStep(j, rows, cols);
      bs, objs := NewRow(j, rows, cols, width, height, sqrt2, table, dirPicks, colPicks, bs, objs);
      j := j + 1;
    }
  }

  /** One pass of the outer grid loop: the boxes of row `j`, appended to the
      `j * cols` boxes of the rows above. */
  method NewRow(j: nat, rows: nat, cols: nat, width: real, height: real, sqrt2: real,
                table: seq<DirRecord>, dirPicks: seq<nat>, colPicks: seq<nat>,
                bs0: seq<RollBox>, ghost objs0: set<object>)
    returns (bs: seq<RollBox>, ghost objs: set<object>)
    requires rows > 0 && cols > 0 && j < rows
    requires sqrt2 > 0.0 && sqrt2 * sqrt2 == 2.0
    requires |table| == 4 && TableValue(table) == DirectionSpecs
    requires |dirPicks| == rows * cols && |colPicks| == rows * cols
    requires |bs0| == j * cols && j * cols + cols <= rows * cols
    requires TableObjects(table) <= objs0 && Built(bs0, objs0, table)
    requires forall k :: 0 <= k < |bs0| ==>
               bs0[k].State() == GridTile(k, rows, cols, width, height, dirPicks, colPicks)
    ensures |bs| == |bs0| + cols
    ensures objs0 <= objs && fresh(objs - objs0) && Built(bs, objs, table)
    ensures forall k :: 0 <= k < |bs| ==>
              bs[k].State() == GridTile(k, rows, cols, width, height, dirPicks, colPicks)
  {
    bs, objs := bs0, objs0;
    var i := 0;
    while i < cols
      invariant 0 <= i <= cols && |bs| == |bs0| + i
      invariant objs0 <= objs && fresh(objs - objs0) && Built(bs, objs, table)
      invariant forall k :: 0 <= k < |bs| ==>
                  bs[k].State() == GridTile(k, rows, cols, width, height, dirPicks, colPicks)
    {
      bs, objs := NewCell(i, j, rows, cols, width, height, sqrt2, table, dirPicks, colPicks, bs, objs);
      i := i + 1;
    }
  }

  /** One pass of the inner grid loop: the box of column `i`, row `j`,
      appended to the boxes created before it, which it leaves alone. */
  method NewCell(i: int, j: int, rows: nat, cols: nat, width: real, height: real, sqrt2: real,
                 table: seq<DirRecord>, dirPicks: seq<nat>, colPicks: seq<nat>,
                 bs0: seq<RollBox>, ghost objs0: set<object>)
    returns (bs: seq<RollBox>, ghost objs: set<object>)
    requires rows > 0 && cols > 0 && 0 <= i < cols && 0 <= j
    requires sqrt2 > 0.0 && sqrt2 * sqrt2 == 2.0
    requires |table| == 4 && TableValue(table) == DirectionSpecs
    requires |bs0| == GridIndex(i, j, cols) && |bs0| < |dirPicks| && |bs0| < |colPicks|
    requires TableObjects(table) <= objs0 && Built(bs0, objs0, table)
    requires forall k :: 0 <= k < |bs0| ==>
               bs0[k].State() == GridTile(k, rows, cols, width, height, dirPicks, colPicks)
    ensures |bs| == |bs0| + 1
    ensures objs0 <= objs && fresh(objs - objs0) && Built(bs, objs, table)
    ensures forall k :: 0 <= k < |bs| ==>
              bs[k].State() == GridTile(k, rows, cols, width, height, dirPicks, colPicks)
  {
    label BeforeBox:
    var k := |bs0|;
    GridIndexDecodes(i, j, cols);
    var side := width / cols as real;
    var c := CellCenter(i, j, rows, cols, width, height);
    var b := new RollBox(c.x, c.y, c.z, side, table, sqrt2, dirPicks[k], colPicks[k]);
    assert table[dirPicks[k] % 4].dir in TableObjects(table);
    assert table[dirPicks[k] % 4].pivotPt in TableObjects(table);
    assert b.State() == GridTile(k, rows, cols, width, height, dirPicks, colPicks);
    BuiltStep(bs0, objs0, table, b);
    bs := bs0 + [b];
    objs := objs0 + {b, b.pos, b.originalP};
    StatesKept@BeforeBox(bs0, objs0, table, rows, cols, width, height, dirPicks, colPicks);
    StatesAppend(bs0, b, rows, cols, width, height, dirPicks, colPicks);
  }

  /** Appending a box that starts as the next grid tile extends the grid. */
  lemma StatesAppend(bs: seq<RollBox>, b: RollBox, rows: nat, cols: nat, width: real, height: real,
                     dirPicks: seq<nat>, colPicks: seq<nat>)
    requires rows > 0 && cols > 0 && |bs| < |dirPicks| && |bs| < |colPicks|
    requires forall k :: 0 <= k < |bs| ==>
               bs[k].State() == GridTile(k, rows, cols, width, height, dirPicks, colPicks)
    requires b.State() == GridTile(|bs|, rows, cols, width, height, dirPicks, colPicks)
    ensures forall k :: 0 <= k < |bs + [b]| ==>
              (bs + [b])[k].State() == GridTile(k, rows, cols, width, height, dirPicks, colPicks)
  {
    forall k | 0 <= k < |bs + [b]|
      ensures (bs + [b])[k].State() == GridTile(k, rows, cols, width, height, dirPicks, colPicks)
    {
      if k < |bs| {
        assert (bs + [b])[k] == bs[k];
      }
    }
  }

  /** Creating new objects leaves the states of boxes already built alone. */
  twostate lemma StatesKept(new bs: seq<RollBox>, new objs: set<object>, new table: seq<DirRecord>,
                            new rows: nat, new cols: nat, new width: real, new height: real,
                            new dirPicks: seq<nat>, new colPicks: seq<nat>)
    requires old(allocated(bs)) && old(allocated(objs)) && old(allocated(table))
    requires rows > 0 && cols > 0 && |bs| <= |dirPicks| && |bs| <= |colPicks|
    requires old(Built(bs, objs, table)) && forall o :: o in objs ==> unchanged(o)
    requires forall k :: 0 <= k < |bs| ==>
               old(bs[k].State()) == GridTile(k, rows, cols, width, height, dirPicks, colPicks)
    ensures forall k :: 0 <= k < |bs| ==>
              bs[k].State() == GridTile(k, rows, cols, width, height, dirPicks, colPicks)
  {
  }

  /** The brightness of cell `(x, y)`, read from the mirrored video
      column of the RGBA frame. */
  method ReadCell(pixels: seq<byte>, rows: nat, cols: nat, x: int, y: int) returns (bright: real)
    requires 0 <= x < cols && 0 <= y < rows && |pixels| >= 4 * rows * cols
    ensures 0 <= GridIndex(x, y, cols) < rows * cols
    ensures bright == CellBrightness(pixels, rows, cols, GridIndex(x, y, cols))
  {
    CellBrightnessAt(pixels, rows, cols, x, y);
    GridIndexInRange(x, y, rows, cols);
    var videoX := cols - 1 - x;
    var index := (videoX + y * cols) * 4;
    bright := Brightness(pixels[index], pixels[index + 1], pixels[index + 2]);
  }

  class Sketch {
    const rows: nat
    const cols: nat
    var directions: seq<DirRecord>
    var boxes: seq<RollBox>
    /** The objects of the sketch's boxes and table. */
    ghost var Repr: set<object>
    /** The previous frame's brightness of each cell, by grid index; a cell
        without an entry has not been seen yet. */
    var prevPixels: map<int, real>

    ghost function BoxSet(): set<object>
      reads this
    {
      set k | 0 <= k < |boxes| :: boxes[k]
    }

    /** The direction table holds the four directions in their order, and
        the boxes, one per cell, are distinct, valid and share that table;
        `Repr` holds their vectors and the boxes. */
    ghost predicate Valid()
      reads this`directions, this`boxes, this`Repr, Repr
    {
      this !in Repr && |directions| == 4 && TableObjects(directions) <= Repr &&
      TableValue(directions) == DirectionSpecs &&
      Built(boxes, Repr, directions) && |boxes| == rows * cols
    }

    /** `setup`: the four directions, then one box per cell, row by row.
        `dirPicks[k]` and `colPicks[k]` stand for the random choices made by
        the `k`-th box created; `sqrt2` is the square root of 2. */
    constructor (rows: nat, cols: nat, width: real, height: real, sqrt2: real,
                 dirPicks: seq<nat>, colPicks: seq<nat>)
      requires rows > 0 && cols > 0
      requires sqrt2 > 0.0 && sqrt2 * sqrt2 == 2.0
      requires |dirPicks| == rows * cols && |colPicks| == rows * cols
      ensures Valid() && fresh(Repr)
      ensures this.rows == rows && this.cols == cols && prevPixels == map[]
      ensures forall k :: 0 <= k < |boxes| ==>
                boxes[k].State() == GridTile(k, rows, cols, width, height, dirPicks, colPicks)
    {
      this.rows := rows;
      this.cols := cols;
      var table, bs, objs := Setup(rows, cols, width, height, sqrt2, dirPicks, colPicks);
      directions := table;
      prevPixels := map[];
      boxes := bs;
      Repr := objs;
    }

    /** The body of the motion loop for the cell with grid index `k`, whose
        brightness this frame is `bright`: the cell's tile is started when it
        fires, and its snapshot entry is overwritten. `prev` is the snapshot
        as it was before the loop, which agrees with the current one on `k`. */
    method Visit(pixels: seq<byte>, k: int, bright: real, frameCount: int, threshold: real,
                 autoMarch: bool, dice: Dice)
      requires Valid() && 0 <= k < rows * cols && |pixels| >= 4 * rows * cols
      requires bright == CellBrightness(pixels, rows, cols, k)
      requires 0.2 <= dice.march <= 0.8
      modifies this`prevPixels, this`Repr, boxes[k]
      ensures Valid()
      ensures prevPixels == old(prevPixels)[k := bright]
      ensures boxes[k].State() ==
                CellOutcome(old(boxes[k].State()), old(prevPixels), pixels, rows, cols, k,
                            frameCount, threshold, autoMarch, dice)
      ensures forall l :: 0 <= l < |boxes| && l != k ==> boxes[l].State() == old(boxes[l].State())
    {
      var isTriggered, intensity := Judge(k, bright, threshold, autoMarch, dice);
      if isTriggered {
        Launch(k, intensity, frameCount, dice);
      }
      label Launched:
      prevPixels := prevPixels[k := bright];
      SnapshotKeepsValid@Launched();
    }

    /** Writing the snapshot leaves the boxes and the table alone. */
    twostate lemma SnapshotKeepsValid()
      requires old(Valid()) && unchanged(old(Repr))
      requires boxes == old(boxes) && directions == old(directions) && Repr == old(Repr)
      ensures Valid()
    {
    }

    /** `startAnimation` on the box of cell `k`, with the speed of
        `intensity`, a direction picked from the table and a colour picked by
        the intensity. */
    method Launch(k: int, intensity: real, frameCount: int, dice: Dice)
      requires Valid() && 0 <= k < |boxes| && 0.0 <= intensity <= 1.0
      modifies this`Repr, boxes[k]
      ensures Valid()
      ensures boxes[k].State() ==
                Start(old(boxes[k].State()), frameCount, SpeedFrames(intensity), intensity,
                      DirectionSpecs[dice.dirPick % 4], dice.colPick)
      ensures forall l :: 0 <= l < |boxes| && l != k ==> boxes[l].State() == old(boxes[l].State())
    {
      var box := boxes[k];
      assert directions[dice.dirPick % 4].dir in TableObjects(directions);
      assert directions[dice.dirPick % 4].pivotPt in TableObjects(directions);
      box.StartAnimation(None, SpeedFrames(intensity), intensity, frameCount,
                         dice.dirPick, dice.colPick);
      Repr := Repr + box.Objects();
      BuiltAfterChange(old(boxes), old(Repr), Repr, directions, k);
    }

    /** Whether cell `k`, whose brightness this frame is `bright`, fires, and
        with what intensity: only a cell with a previous brightness can, by a
        change beyond the threshold or by an auto-march coin. */
    method Judge(k: int, bright: real, threshold: real, autoMarch: bool, dice: Dice)
      returns (isTriggered: bool, intensity: real)
      requires 0.2 <= dice.march <= 0.8
      ensures isTriggered ==> 0.0 <= intensity <= 1.0
      ensures isTriggered <==> CellTrigger(prevPixels, k, bright, threshold, autoMarch, dice).Fire?
      ensures isTriggered ==> intensity == CellTrigger(prevPixels, k, bright, threshold, autoMarch, dice).intensity
    {
      isTriggered := false;
      intensity := 0.0;
      if k in prevPixels {
        var diff := Abs(bright - prevPixels[k]);
        if diff > threshold {
          isTriggered := true;
          intensity := Ramp(diff, threshold);
        } else if autoMarch && dice.coin {
          isTriggered := true;
          intensity := dice.march;
        }
      }
    }

    /** The body of the inner motion loop for column `x`, row `y`: the
        cell's brightness is read from the mirrored video column and the cell
        is visited. `prev` and `start` are the snapshot and the tiles before
        the loop, and `targets` the tiles the cells are to end with. */
    method SampleCell(pixels: seq<byte>, x: int, y: int, frameCount: int, threshold: real,
                      autoMarch: bool, dice: seq<Dice>, ghost prev: map<int, real>,
                      ghost start: seq<Tile>, ghost targets: seq<Tile>)
      requires Valid() && 0 <= x < cols && 0 <= y < rows && |pixels| >= 4 * rows * cols
      requires |dice| == rows * cols && |start| == rows * cols
      requires forall k :: 0 <= k < |dice| ==> 0.2 <= dice[k].march <= 0.8
      requires targets == AllOutcomes(start, prev, pixels, rows, cols, frameCount, threshold, autoMarch, dice)
      requires prevPixels == Overwritten(prev, pixels, rows, cols, GridIndex(x, y, cols))
      requires Progress(start, targets, GridIndex(x, y, cols))
      modifies this`prevPixels, this`Repr, BoxSet()
      ensures Valid()
      ensures prevPixels == Overwritten(prev, pixels, rows, cols, GridIndex(x + 1, y, cols))
      ensures Progress(start, targets, GridIndex(x + 1, y, cols))
    {
      var bright := ReadCell(pixels, rows, cols, x, y);
      var boxIndex := GridIndex(x, y, cols);
      OverwrittenStep(prev, pixels, rows, cols, boxIndex);
      OutcomeReadsOneCell(start[boxIndex], prevPixels, prev, pixels, rows, cols, boxIndex,
                          frameCount, threshold, autoMarch, dice[boxIndex]);
      label Before:
      Visit(pixels, boxIndex, bright, frameCount, threshold, autoMarch, dice[boxIndex]);
      ProgressStep@Before(start, targets, boxIndex);
      GridIndexNext(x, y, cols);
    }

    /** Moving box `k`, and only it, from its start tile to its target tile
        extends the progress by one cell. */
    twostate lemma ProgressStep(new start: seq<Tile>, new targets: seq<Tile>, new k: int)
      requires old(Valid()) && Valid() && boxes == old(boxes)
      requires |start| == |boxes| && |targets| == |boxes| && 0 <= k < |boxes|
      requires old(Progress(start, targets, k))
      requires boxes[k].State() == targets[k]
      requires forall l :: 0 <= l < |boxes| && l != k ==> boxes[l].State() == old(boxes[l].State())
      ensures Progress(start, targets, k + 1)
    {
    }

    /** The values of the boxes' fields, in grid order. */
    ghost function States(): (s: seq<Tile>)
      requires Valid()
      reads this, Repr
      ensures |s| == |boxes| && forall k :: 0 <= k < |boxes| ==> s[k] == boxes[k].State()
    {
      seq(|boxes|, k requires 0 <= k < |boxes| && Valid() reads this, Repr => boxes[k].State())
    }

    /** The boxes before index `n` hold their tiles of `targets`, and the
        others still hold their tiles of `start`. */
    ghost predicate Progress(start: seq<Tile>, targets: seq<Tile>, n: int)
      requires Valid() && |start| == |boxes| && |targets| == |boxes|
      reads this, Repr
    {
      (forall k :: 0 <= k < |boxes| && k < n ==> boxes[k].State() == targets[k]) &&
      (forall k :: 0 <= k < |boxes| && n <= k ==> boxes[k].State() == start[k])
    }

    /** The motion-sampling part of `draw`, given the frame's RGBA pixels
        (empty while the camera has no picture), the frame counter, the
        configured threshold and auto-march flag, and the random draws of
        each cell. */
    method SampleMotion(pixels: seq<byte>, frameCount: int, threshold: real, autoMarch: bool,
                        dice: seq<Dice>)
      requires Valid()
      requires |pixels| == 0 || |pixels| >= 4 * rows * cols
      requires |dice| == rows * cols
      requires forall k :: 0 <= k < |dice| ==> 0.2 <= dice[k].march <= 0.8
      modifies this`prevPixels, this`Repr, BoxSet()
      ensures Valid() && boxes == old(boxes) && directions == old(directions)
      ensures |pixels| == 0 ==> prevPixels == old(prevPixels)
      ensures |pixels| == 0 ==>
                forall k :: 0 <= k < |boxes| ==> boxes[k].State() == old(boxes[k].State())
      ensures |pixels| > 0 ==> prevPixels == Sampled(old(prevPixels), pixels, rows, cols)
      ensures |pixels| > 0 ==>
                forall k :: 0 <= k < |boxes| ==>
                  boxes[k].State() ==
                    CellOutcome(old(boxes[k].State()), old(prevPixels), pixels, rows, cols, k,
                                frameCount, threshold, autoMarch, dice[k])
    {
      ghost var start := States();
      if |pixels| > 0 {
        ghost var targets := AllOutcomes(start, old(prevPixels), pixels, rows, cols,
                                         frameCount, threshold, autoMarch, dice);
        var y := 0;
        while y < rows
          invariant 0 <= y <= rows && Valid()
          invariant prevPixels == Overwritten(old(prevPixels), pixels, rows, cols, GridIndex(0, y, cols))
          invariant Progress(start, targets, GridIndex(0, y, cols))
        {
          SampleRow(pixels, y, frameCount, threshold, autoMarch, dice, old(prevPixels), start, targets);
          y := y + 1;
        }
        OverwrittenPrefix(old(prevPixels), pixels, rows, cols, rows * cols);
        SampledUpToAll(prevPixels, old(prevPixels), pixels, rows, cols);
      }
    }

    /** One pass of the outer loop of the motion sampling: the cells of row
        `y`, from left to right. */
    method SampleRow(pixels: seq<byte>, y: int, frameCount: int, threshold: real, autoMarch: bool,
                     dice: seq<Dice>, ghost prev: map<int, real>, ghost start: seq<Tile>,
                     ghost targets: seq<Tile>)
      requires Valid() && 0 <= y < rows && |pixels| >= 4 * rows * cols
      requires |dice| == rows * cols && |start| == rows * cols
      requires forall k :: 0 <= k < |dice| ==> 0.2 <= dice[k].march <= 0.8
      requires targets == AllOutcomes(start, prev, pixels, rows, cols, frameCount, threshold, autoMarch, dice)
      requires prevPixels == Overwritten(prev, pixels, rows, cols, GridIndex(0, y, cols))
      requires Progress(start, targets, GridIndex(0, y, cols))
      modifies this`prevPixels, this`Repr, BoxSet()
      ensures Valid()
      ensures prevPixels == Overwritten(prev, pixels, rows, cols, GridIndex(0, y + 1, cols))
      ensures Progress(start, targets, GridIndex(0, y + 1, cols))
    {
      var x := 0;
      while x < cols
        invariant 0 <= x <= cols && Valid()
        invariant prevPixels == Overwritten(prev, pixels, rows, cols, GridIndex(x, y, cols))
        invariant Progress(start, targets, GridIndex(x, y, cols))
      {
        SampleCell(pixels, x, y, frameCount, threshold, autoMarch, dice, prev, start, targets);
        x := x + 1;
      }
      GridIndexRowEnd(y, cols);
    }
  }
}
