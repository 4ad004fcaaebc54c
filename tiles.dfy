/** The rolling-cube state machine of one tile, on values: a snapshot `Tile` of
    a box's fields, the transitions `Start` (begin an animation) and `Step`
    (one per-frame update), and the pose the renderer draws. */
module Tiles {
  import opened Vectors
  import opened Palette

  datatype Desc = Left | Right | Backward | Forward

  /** A direction of roll: its name, its unit movement vector and the offset,
      in units of the edge offset, of the edge the cube turns about. */
  datatype DirSpec = DirSpec(desc: Desc, dir: V3, pivotPt: V3)

  /** The sketch's table of the four directions, in its order. */
  const DirectionSpecs: seq<DirSpec> := [
    DirSpec(Left, V3(-1.0, 0.0, 0.0), V3(-1.0, 1.0, 0.0)),
    DirSpec(Right, V3(1.0, 0.0, 0.0), V3(1.0, 1.0, 0.0)),
    DirSpec(Backward, V3(0.0, 0.0, -1.0), V3(0.0, 1.0, -1.0)),
    DirSpec(Forward, V3(0.0, 0.0, 1.0), V3(0.0, 1.0, 1.0))
  ]

  /** A unit step along one horizontal axis, with its pivot one unit below
      the centre (y grows downwards) on the side the tile moves to. */
  predicate UnitStep(d: DirSpec) {
    d.dir.y == 0.0 && DistSq(d.dir, V3(0.0, 0.0, 0.0)) == 1.0 &&
    d.pivotPt == Sum(d.dir, V3(0.0, 1.0, 0.0))
  }

  /** The position of each direction in the table. */
  function Rank(d: Desc): int {
    match d
    case Left => 0
    case Right => 1
    case Backward => 2
    case Forward => 3
  }

  /** Entry `k` of the table is a unit step named by rank `k`. */
  lemma DirectionEntry(k: int)
    requires 0 <= k < 4
    ensures UnitStep(DirectionSpecs[k]) && Rank(DirectionSpecs[k].desc) == k
  {
    var d := DirectionSpecs[k];
    if k == 0 {
      assert d == DirSpec(Left, V3(-1.0, 0.0, 0.0), V3(-1.0, 1.0, 0.0));
    } else if k == 1 {
      assert d == DirSpec(Right, V3(1.0, 0.0, 0.0), V3(1.0, 1.0, 0.0));
    } else if k == 2 {
      assert d == DirSpec(Backward, V3(0.0, 0.0, -1.0), V3(0.0, 1.0, -1.0));
    } else {
      assert d == DirSpec(Forward, V3(0.0, 0.0, 1.0), V3(0.0, 1.0, 1.0));
    }
  }

  /** Every direction of the table is a unit step, and each name sits at its
      own position, so no two entries share one. */
  lemma DirectionTableShape()
    ensures |DirectionSpecs| == 4
    ensures forall k :: 0 <= k < 4 ==> UnitStep(DirectionSpecs[k])
    ensures forall k, l :: 0 <= k < l < 4 ==> DirectionSpecs[k].desc != DirectionSpecs[l].desc
  {
    forall k | 0 <= k < 4
      ensures UnitStep(DirectionSpecs[k]) && Rank(DirectionSpecs[k].desc) == k
    {
      DirectionEntry(k);
    }
  }

  /** The floating-point value of pi / 2 that the library provides. */
  const HalfPi: real := 1.5707963267948966

  /** The fields of a rolling box: its anchor `home` (the original position),
      its position, whether it is animating, the frame its animation started
      and its length in frames, its angle, its direction record and its colour. */
  datatype Tile = Tile(home: V3, pos: V3, animating: bool, startFrame: int,
                       totalFrames: real, a: real, desc: Desc, dir: V3,
                       pivot: V3, col: Color)

  /** What every reachable tile satisfies: an idle tile is upright, and an
      animating one has a positive length to divide by. */
  predicate Inv(t: Tile) {
    (!t.animating ==> t.a == 0.0) && (t.animating ==> t.totalFrames > 0.0)
  }

  /** The tile a new box starts as. */
  function InitialTile(home: V3, d: DirSpec, colPick: nat): (t: Tile)
    ensures Inv(t) && !t.animating && t.pos == t.home == home
    ensures t.desc == d.desc && t.dir == d.dir && t.pivot == d.pivotPt
    ensures t.col.swatch in CoolSwatches && t.col.alpha == 180.0
    ensures t.startFrame == 0 && t.totalFrames == 10.0
  {
    Tile(home, home, false, 0, 10.0, 0.0, d.desc, d.dir, d.pivotPt, InitialColor(colPick))
  }

  /** `startAnimation`: an animating tile ignores the call; an idle one takes
      the direction `d`, starts animating at `frameCount` for `frames` frames
      and is recoloured by `intensity`. */
  function Start(t: Tile, frameCount: int, frames: real, intensity: real, d: DirSpec, colPick: nat): (r: Tile)
    requires frames > 0.0
    ensures Inv(t) ==> Inv(r)
    ensures t.animating ==> r == t
    ensures !t.animating ==> r.animating && r.startFrame == frameCount && r.totalFrames == frames
    ensures !t.animating ==> r.desc == d.desc && r.dir == d.dir && r.pivot == d.pivotPt
    ensures !t.animating ==> r.home == t.home && r.pos == t.pos && r.a == t.a
    ensures !t.animating && intensity > HotLevel ==> r.col.swatch in HotSwatches && r.col.alpha == 255.0
    ensures !t.animating && intensity <= HotLevel ==>
              r.col.swatch in CoolSwatches && r.col.alpha == 120.0 + intensity * 135.0
  {
    if t.animating then t
    else t.(animating := true, startFrame := frameCount, totalFrames := frames,
            desc := d.desc, dir := d.dir, pivot := d.pivotPt,
            col := Recolor(intensity, colPick))
  }

  /** A second start while the first animation runs changes nothing. */
  lemma StartTwice(t: Tile, f1: int, n1: real, i1: real, d1: DirSpec, c1: nat,
                   f2: int, n2: real, i2: real, d2: DirSpec, c2: nat)
    requires n1 > 0.0 && n2 > 0.0
    ensures var s := Start(t, f1, n1, i1, d1, c1); Start(s, f2, n2, i2, d2, c2) == s
  {
  }

  /** The angle after `elapsed` frames of an animation `totalFrames` long. */
  function Angle(elapsed: int, totalFrames: real): (a: real)
    requires totalFrames > 0.0
    ensures a * totalFrames == HalfPi * elapsed as real
    ensures elapsed == 0 ==> a == 0.0
    ensures elapsed as real == totalFrames ==> a == HalfPi
  {
    HalfPi * elapsed as real / totalFrames
  }

  /** The angle passes a quarter turn exactly when more frames than the
      animation's length have elapsed, and lies in `[0, pi/2]` until then. */
  lemma AngleFacts(elapsed: int, totalFrames: real)
    requires totalFrames > 0.0
    ensures Angle(elapsed, totalFrames) > HalfPi <==> elapsed as real > totalFrames
    ensures 0 <= elapsed && elapsed as real <= totalFrames ==> 0.0 <= Angle(elapsed, totalFrames) <= HalfPi
    ensures Angle(elapsed, totalFrames) * totalFrames == HalfPi * elapsed as real
  {
    var e := elapsed as real;
    var ang := Angle(elapsed, totalFrames);
    var q := e / totalFrames;
    assert ang == HalfPi * q;
    assert q * totalFrames == e;
    assert q > 1.0 <==> e > totalFrames by {
      var over := (q - 1.0) * totalFrames;
      assert over == e - totalFrames;
      if q > 1.0 {
        assert over > 0.0;
      } else {
        assert (1.0 - q) * totalFrames >= 0.0;
      }
    }
    assert ang > HalfPi <==> q > 1.0 by {
      var diff := HalfPi * (q - 1.0);
      assert ang - HalfPi == diff;
      if q > 1.0 {
        assert diff > 0.0;
      } else {
        assert HalfPi * (1.0 - q) >= 0.0;
      }
    }
    if 0.0 <= e {
      assert q >= 0.0;
      assert HalfPi * q >= 0.0;
    }
  }

  /** Where a completed roll leaves the tile: one step of `2 * edgeOffset`
      along its direction, unless that is farther than `0.8 * width` from its
      anchor, in which case it is back at the anchor. */
  function Landing(t: Tile, width: real, edgeOffset: real): (p: V3)
    ensures var moved := Sum(t.pos, Scaled(t.dir, edgeOffset * 2.0));
            (FartherThan(moved, t.home, width * 0.8) ==> p == t.home) &&
            (!FartherThan(moved, t.home, width * 0.8) ==> p == moved)
    ensures width >= 0.0 ==> !FartherThan(p, t.home, width * 0.8)
  {
    var moved := Sum(t.pos, Scaled(t.dir, edgeOffset * 2.0));
    if FartherThan(moved, t.home, width * 0.8) then t.home else moved
  }

  /** The tile once its roll is complete. The direction vector is left scaled
      by `2 * edgeOffset`, because the step multiplies it in place. */
  function Landed(t: Tile, width: real, edgeOffset: real): (r: Tile)
    ensures Inv(r) && !r.animating && r.a == 0.0
    ensures r.pos == Landing(t, width, edgeOffset) && r.dir == Scaled(t.dir, edgeOffset * 2.0)
    ensures r == t.(a := r.a, animating := r.animating, dir := r.dir, pos := r.pos)
    ensures width >= 0.0 ==> !FartherThan(r.pos, t.home, width * 0.8)
  {
    t.(a := 0.0, animating := false, dir := Scaled(t.dir, edgeOffset * 2.0),
       pos := Landing(t, width, edgeOffset))
  }

  /** `update`: one frame of an animation. */
  function Step(t: Tile, frameCount: int, width: real, edgeOffset: real): (r: Tile)
    requires t.animating ==> t.totalFrames > 0.0
    ensures Inv(t) ==> Inv(r)
    ensures r.animating ==> r.totalFrames > 0.0
    ensures !t.animating ==> r == t
    ensures t.animating && (frameCount - t.startFrame) as real <= t.totalFrames ==>
              r == t.(a := r.a) && r.a * t.totalFrames == HalfPi * (frameCount - t.startFrame) as real &&
              (t.startFrame <= frameCount ==> 0.0 <= r.a <= HalfPi)
    ensures t.animating && (frameCount - t.startFrame) as real > t.totalFrames ==>
              !r.animating && r.a == 0.0 && r.pos == Landing(t, width, edgeOffset) &&
              r.dir == Scaled(t.dir, edgeOffset * 2.0) &&
              r.home == t.home && r.desc == t.desc && r.pivot == t.pivot && r.col == t.col &&
              r.startFrame == t.startFrame && r.totalFrames == t.totalFrames
  {
    if !t.animating then t
    else
      var a := Angle(frameCount - t.startFrame, t.totalFrames);
      AngleFacts(frameCount - t.startFrame, t.totalFrames);
      if a > HalfPi then Landed(t, width, edgeOffset) else t.(a := a)
  }

  /** The tile after `update` runs in the frames `from`, `from + 1`, ...,
      `from + n - 1`. */
  function Run(t: Tile, from: int, n: nat, width: real, edgeOffset: real): (r: Tile)
    requires t.animating ==> t.totalFrames > 0.0
    ensures Inv(t) ==> Inv(r)
    ensures r.animating ==> t.animating && r.pos == t.pos && r.dir == t.dir
    ensures r == t.(a := r.a, animating := r.animating, dir := r.dir, pos := r.pos)
    decreases n
  {
    if n == 0 then t else Run(Step(t, from, width, edgeOffset), from + 1, n - 1, width, edgeOffset)
  }

  /** An idle tile stays as it is, whatever frames pass. */
  lemma {:induction false} RunIdle(t: Tile, from: int, n: nat, width: real, edgeOffset: real)
    requires !t.animating
    ensures Run(t, from, n, width, edgeOffset) == t
    decreases n
  {
    if n > 0 {
      RunIdle(t, from + 1, n - 1, width, edgeOffset);
    }
  }

  /** Running an animating tile from frame `from` for `n > 0` frames: while
      the last of those frames is within the animation it is still rolling at
      the angle of that frame; once a frame has passed the animation's length
      it has landed, exactly once. */
  lemma {:induction false} RunRolling(t: Tile, from: int, n: nat, width: real, edgeOffset: real)
    requires t.animating && t.totalFrames > 0.0 && n > 0
    ensures var r := Run(t, from, n, width, edgeOffset);
            var last := from + n - 1 - t.startFrame;
            (last as real <= t.totalFrames ==> r == t.(a := Angle(last, t.totalFrames))) &&
            (last as real > t.totalFrames ==> r == Landed(t, width, edgeOffset))
    decreases n
  {
    var s := Step(t, from, width, edgeOffset);
    AngleFacts(from - t.startFrame, t.totalFrames);
    if (from - t.startFrame) as real > t.totalFrames {
      assert s == Landed(t, width, edgeOffset);
      RunIdle(s, from + 1, n - 1, width, edgeOffset);
    } else if n > 1 {
      assert s == t.(a := Angle(from - t.startFrame, t.totalFrames));
      RunRolling(s, from + 1, n - 1, width, edgeOffset);
      assert Landed(s, width, edgeOffset) == Landed(t, width, edgeOffset);
    }
  }

  /** The lifetime of one roll. An idle tile started at frame `f` for
      `frames` frames and then updated in the frames `f`, `f + 1`, ... (the
      sketch starts tiles before it updates them in the same frame) is still
      rolling, at its original position, after `n` updates while
      `n - 1 <= frames`, and has landed exactly one step further on (or back
      at its anchor) after the first update with `n - 1 > frames`. */
  lemma RollLifetime(t: Tile, f: int, frames: real, intensity: real, d: DirSpec,
                     colPick: nat, n: nat, width: real, edgeOffset: real)
    requires !t.animating && frames > 0.0
    ensures var s := Start(t, f, frames, intensity, d, colPick);
            var r := Run(s, f, n, width, edgeOffset);
            ((n as real) - 1.0 <= frames ==> r.animating && r.pos == t.pos) &&
            ((n as real) - 1.0 > frames ==>
               !r.animating && r.a == 0.0 &&
               r.pos == Landing(s, width, edgeOffset) &&
               (!FartherThan(Sum(t.pos, Scaled(d.dir, edgeOffset * 2.0)), t.home, width * 0.8) ==>
                  r.pos == Sum(t.pos, Scaled(d.dir, edgeOffset * 2.0))) &&
               (FartherThan(Sum(t.pos, Scaled(d.dir, edgeOffset * 2.0)), t.home, width * 0.8) ==>
                  r.pos == t.home))
  {
    var s := Start(t, f, frames, intensity, d, colPick);
    if n > 0 {
      RunRolling(s, f, n, width, edgeOffset);
    }
  }

  // ---------- Pose ----------

  datatype Axis = XAxis | ZAxis

  /** The rotation a tile is drawn with: none, or `angle` radians about an axis. */
  datatype Rotation = Upright | Turn(axis: Axis, angle: real)

  /** What the renderer draws for a tile: translate to `position`, then to
      `pivotOffset`, rotate, translate back by `pivotOffset`, draw the cube. */
  datatype Pose = Pose(position: V3, pivotOffset: V3, rotation: Rotation, color: Color)

  /** The pose a tile is drawn in: a roll forwards or backwards turns about the
      X axis, a roll left or right about the Z axis; forwards and left turn
      by `-a`, backwards and right by `a`. */
  function PoseOf(t: Tile, edgeOffset: real): (p: Pose)
    ensures p.position == t.pos && p.color == t.col
    ensures p.pivotOffset == Scaled(t.pivot, edgeOffset)
    ensures p.rotation.Upright? <==> !t.animating
    ensures p.rotation.Turn? ==> (p.rotation.axis == XAxis <==> t.desc == Forward || t.desc == Backward)
    ensures p.rotation.Turn? ==> (p.rotation.angle == t.a <==> t.desc == Backward || t.desc == Right || t.a == 0.0)
    ensures p.rotation.Turn? ==> (p.rotation.angle == -t.a || p.rotation.angle == t.a)
  {
    var rotation :=
      if !t.animating then Upright
      else match t.desc
        case Forward => Turn(XAxis, -t.a)
        case Backward => Turn(XAxis, t.a)
        case Right => Turn(ZAxis, t.a)
        case Left => Turn(ZAxis, -t.a);
    Pose(t.pos, Scaled(t.pivot, edgeOffset), rotation, t.col)
  }

  /** A right-handed rotation whose angle has cosine `c` and sine `s`. */
  function Rotate(axis: Axis, c: real, s: real, v: V3): V3 {
    match axis
    case XAxis => V3(v.x, c * v.y - s * v.z, s * v.y + c * v.z)
    case ZAxis => V3(c * v.x - s * v.y, s * v.x + c * v.y, v.z)
  }

  /** Where the renderer puts the centre of the cube of a pose, when `c` and
      `s` are the cosine and sine of the pose's angle. */
  function Center(p: Pose, c: real, s: real): V3 {
    match p.rotation
    case Upright => Sum(Sum(p.position, p.pivotOffset), Negated(p.pivotOffset))
    case Turn(axis, _) => Sum(Sum(p.position, p.pivotOffset), Rotate(axis, c, s, Negated(p.pivotOffset)))
  }

  /** The roll is continuous: the cube is drawn at the tile's position when a
      roll starts or the tile is idle, and, after a full quarter turn about the
      pivot, exactly where completing the roll moves the tile. */
  lemma RollIsContinuous(t: Tile, k: int, edgeOffset: real)
    requires 0 <= k < |DirectionSpecs|
    requires t.desc == DirectionSpecs[k].desc && t.dir == DirectionSpecs[k].dir
    requires t.pivot == DirectionSpecs[k].pivotPt
    ensures !t.animating ==> Center(PoseOf(t, edgeOffset), 1.0, 0.0) == t.pos
    ensures t.animating && t.a == 0.0 ==> Center(PoseOf(t, edgeOffset), 1.0, 0.0) == t.pos
    ensures t.animating && t.a == HalfPi ==>
              var p := PoseOf(t, edgeOffset);
              Center(p, 0.0, if p.rotation.angle > 0.0 then 1.0 else -1.0) ==
                Sum(t.pos, Scaled(t.dir, edgeOffset * 2.0))
  {
  }
}
