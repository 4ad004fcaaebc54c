/** Motion sampling and the trigger policy: the pure computations of the
    per-frame loop that compares each grid cell's brightness with the previous
    frame's and decides whether, and how hard, to start that cell's tile. */
module Motion {

  newtype byte = x: int | 0 <= x < 256

  /** The outcomes of the library's random draws for one cell in one frame.
      `coin` is the draw `random(1) < 0.005` of the auto-march rule, `march` the
      draw `random(0.2, 0.8)` of its intensity, `dirPick` and `colPick` the
      uniform choices of a direction and of a colour if the tile starts. */
  datatype Dice = Dice(coin: bool, march: real, dirPick: nat, colPick: nat)

  /** Whether a cell starts its tile in this frame, and with what intensity. */
  datatype Trigger = Quiet | Fire(intensity: real)

  // ---------- Grid and pixel indexing ----------

  /** The position of the cell in column `x`, row `y` in a row-major grid. */
  function GridIndex(x: int, y: int, cols: int): int {
    x + y * cols
  }

  /** The cell to the right comes next in row-major order. */
  lemma GridIndexNext(x: int, y: int, cols: int)
    ensures GridIndex(x + 1, y, cols) == GridIndex(x, y, cols) + 1
  {
  }

  /** The cell past the end of a row is the first of the next. */
  lemma GridIndexRowEnd(y: int, cols: int)
    ensures GridIndex(cols, y, cols) == GridIndex(0, y + 1, cols)
  {
  }

  /** Row-major indices decode back to their column and row. */
  lemma GridIndexDecodes(x: int, y: int, cols: int)
    requires 0 <= x < cols && 0 <= y
    ensures GridIndex(x, y, cols) % cols == x
    ensures GridIndex(x, y, cols) / cols == y
  {
    var k := GridIndex(x, y, cols);
    var q, r := k / cols, k % cols;
    assert k == q * cols + r && 0 <= r < cols;
    var dq := y - q;
    var dc := dq * cols;
    assert dc == r - x;
    if dq >= 1 {
      MulAtLeast(dq, cols);
    } else if dq <= -1 {
      MulAtLeast(-dq, cols);
    }
  }

  /** A factor of at least one does not shrink a non-negative number. */
  lemma MulAtLeast(a: int, c: int)
    requires 1 <= a && 0 <= c
    ensures a * c >= c
  {
    var ac, rest := a * c, (a - 1) * c;
    assert rest >= 0;
    assert ac == rest + c;
  }

  /** Every cell of a `rows` by `cols` grid has an index in `[0, rows*cols)`. */
  lemma GridIndexInRange(x: int, y: int, rows: nat, cols: nat)
    requires 0 <= x < cols && 0 <= y < rows
    ensures 0 <= GridIndex(x, y, cols) < rows * cols
  {
    var yc, rc, left := y * cols, rows * cols, (rows - y) * cols;
    assert yc >= 0;
    assert rc == yc + left;
    MulAtLeast(rows - y, cols);
  }

  /** Every index in `[0, rows*cols)` is the index of exactly the cell
      `(k % cols, k / cols)` of the grid. */
  lemma GridIndexCovers(k: int, rows: nat, cols: nat)
    requires 0 <= k < rows * cols
    ensures cols > 0 && 0 <= k % cols < cols && 0 <= k / cols < rows
    ensures GridIndex(k % cols, k / cols, cols) == k
  {
    if cols == 0 {
      assert false;
    }
    var q := k / cols;
    if q >= rows {
      assert false;
    }
  }

  /** The video column shown in grid column `x`: the picture is mirrored left
      to right, so that the grid behaves like a mirror. */
  function MirroredColumn(x: int, cols: int): int {
    cols - 1 - x
  }

  /** The offset of the first (red) byte of the RGBA pixel that the cell
      `(x, y)` reads. */
  function MirroredIndex(x: int, y: int, cols: int): (i: int)
    requires 0 <= x < cols && 0 <= y
    ensures i % 4 == 0 && 0 <= i
    ensures (i / 4) % cols == MirroredColumn(x, cols) && (i / 4) / cols == y
  {
    GridIndexDecodes(MirroredColumn(x, cols), y, cols);
    ((cols - 1 - x) + y * cols) * 4
  }

  /** Different cells read different pixels. */
  lemma MirroredIndexInjective(x1: int, y1: int, x2: int, y2: int, cols: int)
    requires 0 <= x1 < cols && 0 <= y1 && 0 <= x2 < cols && 0 <= y2
    requires MirroredIndex(x1, y1, cols) == MirroredIndex(x2, y2, cols)
    ensures x1 == x2 && y1 == y2
  {
  }

  /** The whole pixel a cell reads lies inside a `cols` by `rows` RGBA frame. */
  lemma MirroredIndexInFrame(x: int, y: int, rows: int, cols: int)
    requires 0 <= x < cols && 0 <= y < rows
    ensures MirroredIndex(x, y, cols) + 3 < 4 * rows * cols
  {
    GridIndexInRange(MirroredColumn(x, cols), y, rows, cols);
  }

  // ---------- Brightness ----------

  /** The brightness of a pixel: the mean of its red, green and blue bytes. */
  function Brightness(r: byte, g: byte, b: byte): (v: real)
    ensures 0.0 <= v <= 255.0
    ensures r == g == b ==> v == r as real
    ensures (r as real <= v <= b as real) || (b as real <= v <= r as real) ||
            (g as real <= v <= r as real) || (r as real <= v <= g as real) ||
            (g as real <= v <= b as real) || (b as real <= v <= g as real)
  {
    (r as real + g as real + b as real) / 3.0
  }

  /** The brightness of the cell with grid index `k`, read from the mirrored
      pixel of an RGBA frame of at least `rows * cols` pixels. */
  function CellBrightness(pixels: seq<byte>, rows: nat, cols: nat, k: int): (v: real)
    requires 0 <= k < rows * cols && |pixels| >= 4 * rows * cols
    ensures 0.0 <= v <= 255.0
  {
    GridIndexCovers(k, rows, cols);
    MirroredIndexInFrame(k % cols, k / cols, rows, cols);
    var i := MirroredIndex(k % cols, k / cols, cols);
    Brightness(pixels[i], pixels[i + 1], pixels[i + 2])
  }

  /** The cell at column `x`, row `y` takes its brightness from the pixel of
      video column `cols - 1 - x`, row `y`. */
  lemma CellBrightnessAt(pixels: seq<byte>, rows: nat, cols: nat, x: int, y: int)
    requires 0 <= x < cols && 0 <= y < rows && |pixels| >= 4 * rows * cols
    ensures GridIndex(x, y, cols) < rows * cols
    ensures var i := 4 * GridIndex(MirroredColumn(x, cols), y, cols);
            i + 2 < |pixels| &&
            CellBrightness(pixels, rows, cols, GridIndex(x, y, cols)) ==
              Brightness(pixels[i], pixels[i + 1], pixels[i + 2])
  {
    GridIndexInRange(x, y, rows, cols);
    GridIndexDecodes(x, y, cols);
    MirroredIndexInFrame(x, y, rows, cols);
  }

  /** What the loop leaves as the previous-frame snapshot: the old snapshot
      with the brightness of every cell of the grid written over it. */
  function Sampled(prev: map<int, real>, pixels: seq<byte>, rows: nat, cols: nat): (m: map<int, real>)
    requires |pixels| >= 4 * rows * cols
    ensures forall k :: 0 <= k < rows * cols ==> k in m && m[k] == CellBrightness(pixels, rows, cols, k)
    ensures forall k :: k in prev && !(0 <= k < rows * cols) ==> k in m && m[k] == prev[k]
    ensures forall k :: k in m ==> k in prev || 0 <= k < rows * cols
  {
    prev + map k | 0 <= k < rows * cols :: CellBrightness(pixels, rows, cols, k)
  }

  // ---------- Trigger policy ----------

  function Abs(v: real): real {
    if v < 0.0 then -v else v
  }

  /** The library's `constrain`: `n` held within `[low, high]`. */
  function Clamp(n: real, low: real, high: real): (c: real)
    ensures low <= high ==> low <= c <= high
    ensures low <= n <= high ==> c == n
    ensures low <= high < n ==> c == high
    ensures n < low ==> c == low
  {
    var m := if n < high then n else high;
    if m > low then m else low
  }

  /** The library's `map`: the linear map taking `start1` to `start2` and
      `stop1` to `stop2`. */
  function MapRange(n: real, start1: real, stop1: real, start2: real, stop2: real): (r: real)
    requires start1 != stop1
    ensures n == start1 ==> r == start2
    ensures n == stop1 ==> r == stop2
  {
    QuotientAtEnds(n, start1, stop1);
    (n - start1) / (stop1 - start1) * (stop2 - start2) + start2
  }

  lemma QuotientAtEnds(n: real, start1: real, stop1: real)
    requires start1 != stop1
    ensures n == start1 ==> (n - start1) / (stop1 - start1) == 0.0
    ensures n == stop1 ==> (n - start1) / (stop1 - start1) == 1.0
  {
  }

  /** The saturation level of the ramp, in raw brightness units. */
  const Saturation: real := 100.0

  /** The intensity of a brightness change `diff` above `threshold`: a linear
      ramp from the threshold to 100, clamped to `[0, 1]`. At a threshold of
      exactly 100 the map divides a positive number by zero, which is
      +Infinity in floating point and clamps to 1; above 100 it divides by a
      negative number and clamps to 0. */
  function Ramp(diff: real, threshold: real): (i: real)
    requires diff > threshold
    ensures 0.0 <= i <= 1.0
    ensures threshold < Saturation && diff >= Saturation ==> i == 1.0
    ensures threshold < Saturation && diff < Saturation ==>
              i * (Saturation - threshold) == diff - threshold
    ensures threshold == Saturation ==> i == 1.0
    ensures threshold > Saturation ==> i == 0.0
  {
    if threshold == Saturation then
      1.0
    else
      RampFacts(diff, threshold);
      Clamp(MapRange(diff, threshold, Saturation, 0.0, 1.0), 0.0, 1.0)
  }

  lemma RampFacts(diff: real, threshold: real)
    requires diff > threshold && threshold != Saturation
    ensures var m := MapRange(diff, threshold, Saturation, 0.0, 1.0);
            m * (Saturation - threshold) == diff - threshold &&
            (threshold < Saturation ==> (m >= 1.0 <==> diff >= Saturation) && m > 0.0) &&
            (threshold > Saturation ==> m < 0.0)
  {
    var w := Saturation - threshold;
    var m := MapRange(diff, threshold, Saturation, 0.0, 1.0);
    assert m == (diff - threshold) / w;
    var mw := m * w;
    assert mw == diff - threshold;
    if w > 0.0 {
      var above := (m - 1.0) * w;
      assert above == mw - w;
      SignOfProduct(m - 1.0, w);
      SignOfProduct(m, w);
    } else {
      SignOfProduct(m, -w);
      assert m * (-w) == -mw;
    }
  }

  /** The sign of a product with a positive factor is the sign of the other factor. */
  lemma SignOfProduct(a: real, b: real)
    requires b > 0.0
    ensures (a > 0.0 <==> a * b > 0.0) && (a == 0.0 <==> a * b == 0.0) && (a < 0.0 <==> a * b < 0.0)
  {
    if a > 0.0 {
      assert a * b > 0.0;
    } else if a < 0.0 {
      assert (-a) * b > 0.0;
    }
  }

  /** A larger brightness change never gives a smaller intensity. */
  lemma {:induction false} RampMonotone(d1: real, d2: real, threshold: real)
    requires threshold < d1 <= d2
    ensures Ramp(d1, threshold) <= Ramp(d2, threshold)
  {
    if threshold < Saturation {
      var w := Saturation - threshold;
      var i1, i2 := Ramp(d1, threshold), Ramp(d2, threshold);
      if d2 < Saturation {
        var gap := (i2 - i1) * w;
        assert gap == d2 - d1;
        SignOfProduct(i2 - i1, w);
      }
    }
  }

  /** The number of frames a quarter turn takes at a given intensity: the
      library's `map(intensity, 0, 1, 30, 4)`. */
  function SpeedFrames(intensity: real): (frames: real)
    ensures 0.0 <= intensity <= 1.0 ==> 4.0 <= frames <= 30.0
    ensures intensity == 0.0 ==> frames == 30.0
    ensures intensity == 1.0 ==> frames == 4.0
    ensures frames == 30.0 - 26.0 * intensity
  {
    MapRange(intensity, 0.0, 1.0, 30.0, 4.0)
  }

  /** Stronger motion never makes the roll slower. */
  lemma MoreMotionRollsFaster(d1: real, d2: real, threshold: real)
    requires threshold < d1 <= d2
    ensures SpeedFrames(Ramp(d2, threshold)) <= SpeedFrames(Ramp(d1, threshold))
  {
    RampMonotone(d1, d2, threshold);
  }

  /** The trigger rule for a cell whose brightness changed by `diff`. */
  function Decide(diff: real, threshold: real, autoMarch: bool, dice: Dice): (t: Trigger)
    ensures t.Fire? <==> diff > threshold || (autoMarch && dice.coin)
    ensures diff > threshold ==> t == Fire(Ramp(diff, threshold))
    ensures diff <= threshold && t.Fire? ==> t.intensity == dice.march
    ensures 0.2 <= dice.march <= 0.8 && t.Fire? ==> 0.0 <= t.intensity <= 1.0
  {
    if diff > threshold then
      Fire(Ramp(diff, threshold))
    else if autoMarch && dice.coin then
      Fire(dice.march)
    else
      Quiet
  }

  /** Without auto-march a cell fires exactly when its change exceeds the threshold. */
  lemma NoAutoMarchFiresOnMotionOnly(diff: real, threshold: real, dice: Dice)
    ensures Decide(diff, threshold, false, dice).Fire? <==> diff > threshold
  {
  }

  /** The trigger of the cell with index `k`, given the previous snapshot and
      the cell's new brightness: a cell with no previous brightness never fires. */
  function CellTrigger(prev: map<int, real>, k: int, bright: real, threshold: real,
                       autoMarch: bool, dice: Dice): (t: Trigger)
    ensures k !in prev ==> t == Quiet
    ensures k in prev ==> t == Decide(Abs(bright - prev[k]), threshold, autoMarch, dice)
  {
    if k in prev then Decide(Abs(bright - prev[k]), threshold, autoMarch, dice) else Quiet
  }
}
