/** The rolling box as the sketch has it: an object whose fields its methods
    update in place, holding mutable vector objects. Its methods are proved
    against the value-level state machine of module `Tiles`. */
module RollBoxes {
  import opened Vectors
  import opened Palette
  import opened Tiles

  datatype Option<T> = None | Some(value: T)

  /** A direction record as the sketch stores it: the vectors are objects,
      so two records can share them. */
  datatype DirRecord = DirRecord(desc: Desc, dir: Vector, pivotPt: Vector) {
    function Value(): DirSpec
      reads dir, pivotPt
    {
      DirSpec(desc, dir.Value(), pivotPt.Value())
    }

    predicate Uses(v: Vector) {
      v == dir || v == pivotPt
    }
  }

  /** The vector objects of a table of direction records. */
  ghost function TableObjects(t: seq<DirRecord>): set<Vector> {
    (set k | 0 <= k < |t| :: t[k].dir) + (set k | 0 <= k < |t| :: t[k].pivotPt)
  }

  /** The values of a table of direction records. */
  ghost function TableValue(t: seq<DirRecord>): (s: seq<DirSpec>)
    reads TableObjects(t)
    ensures |s| == |t| && forall k :: 0 <= k < |t| ==> s[k] == t[k].Value()
  {
    seq(|t|, k requires 0 <= k < |t| reads TableObjects(t) => t[k].Value())
  }

  class RollBox {
    /** The anchor the box is sent back to when it strays too far. */
    const originalP: Vector
    var pos: Vector
    var animating: bool
    var startFrame: int
    var totalFrames: real
    var a: real
    var dir: DirRecord
    var col: Color
    const sideLength: real
    const edgeOffset: real
    /** The sketch's shared direction table, which the box may only read. */
    const directions: seq<DirRecord>

    ghost function Objects(): set<object>
      reads this
    {
      {this, pos, originalP, dir.dir, dir.pivotPt}
    }

    /** The box's own vectors are distinct from each other where it changes
      them, and never one of the shared table's; while it animates its
      direction vector is its own. */
    ghost predicate Valid()
      reads this
    {
      |directions| > 0 &&
      pos != originalP && pos != dir.dir && pos != dir.pivotPt &&
      (forall k :: 0 <= k < |directions| ==> !directions[k].Uses(pos)) &&
      (!animating ==> a == 0.0) &&
      (animating ==>
         totalFrames > 0.0 &&
         dir.dir != originalP && dir.dir != dir.pivotPt &&
         forall k :: 0 <= k < |directions| ==> !directions[k].Uses(dir.dir))
    }

    /** The values of the box's fields. */
    ghost function State(): Tile
      reads this, pos, originalP, dir.dir, dir.pivotPt
    {
      Tile(originalP.Value(), pos.Value(), animating, startFrame, totalFrames, a,
           dir.desc, dir.dir.Value(), dir.pivotPt.Value(), col)
    }

    /** A box resting at `(x, y, z)`. `sqrt2` is the square root of 2;
      `dirPick` and `colPick` stand for the random choice of its first
      direction (taken from the shared table itself, not copied) and of its
      cool colour. */
    constructor (x: real, y: real, z: real, side: real, directions: seq<DirRecord>,
                 sqrt2: real, dirPick: nat, colPick: nat)
      requires |directions| > 0
      requires sqrt2 > 0.0 && sqrt2 * sqrt2 == 2.0
      ensures Valid() && fresh(pos) && fresh(originalP)
      ensures this.directions == directions
      ensures dir == directions[dirPick % |directions|]
      ensures sideLength == side * 0.9 && edgeOffset == sqrt2 * sideLength * 0.5
      ensures State() == InitialTile(V3(x, y, z), directions[dirPick % |directions|].Value(), colPick)
    {
      originalP := new Vector(x, y, z);
      pos := new Vector(x, y, z);
      animating := false;
      startFrame := 0;
      totalFrames := 10.0;
      a := 0.0;
      dir := directions[dirPick % |directions|];
      col := InitialColor(colPick);
      sideLength := side * 0.9;
      edgeOffset := sqrt2 * (side * 0.9) * 0.5;
      this.directions := directions;
    }

    /** The direction an animation started now would take. */
    ghost function Chosen(customDir: Option<DirRecord>, dirPick: nat): DirSpec
      reads this
      reads if customDir.Some? then {customDir.value.dir, customDir.value.pivotPt} else {}
      reads if |directions| > 0 then TableObjects(directions) else {}
      requires |directions| > 0
    {
      if customDir.Some? then customDir.value.Value()
      else
        assert directions[dirPick % |directions|].dir in TableObjects(directions);
        directions[dirPick % |directions|].Value()
    }

    /** `startAnimation`: ignored while animating; otherwise the box takes a
      private copy of the given direction (or of a table entry picked by
      `dirPick`), starts at `frameCount` for `frames` frames and is
      recoloured by `intensity`. */
    method StartAnimation(customDir: Option<DirRecord>, frames: real, intensity: real,
                          frameCount: int, dirPick: nat, colPick: nat)
      requires Valid() && frames > 0.0
      modifies this
      ensures Valid()
      ensures old(animating) ==> unchanged(this)
      ensures !old(animating) ==> fresh(dir.dir) && fresh(dir.pivotPt)
      ensures pos == old(pos)
      ensures State() == Start(old(State()), frameCount, frames, intensity,
                               old(Chosen(customDir, dirPick)), colPick)
    {
      if !animating {
        var d := if customDir.Some? then customDir.value else directions[dirPick % |directions|];
        var v := d.dir.Copy();
        var pv := d.pivotPt.Copy();
        dir := DirRecord(d.desc, v, pv);
        animating := true;
        startFrame := frameCount;
        totalFrames := frames;
        col := Recolor(intensity, colPick);
      }
    }

    /** `update` in frame `frameCount` on a canvas `width` wide. */
    method Update(frameCount: int, width: real)
      requires Valid()
      modifies this, pos, dir.dir
      ensures Valid()
      ensures State() == Step(old(State()), frameCount, width, edgeOffset)
      ensures dir == old(dir)
      ensures pos != old(pos) ==> fresh(pos) && old(animating)
      ensures TableValue(directions) == old(TableValue(directions))
    {
      if animating {
        a := HalfPi * (frameCount - startFrame) as real / totalFrames;
        assert a == Angle(frameCount - startFrame, totalFrames);
        if a > HalfPi {
          a := 0.0;
          dir.dir.Mult(edgeOffset * 2.0);
          pos.Add(dir.dir);
          animating := false;
          if FartherThan(pos.Value(), originalP.Value(), width * 0.8) {
            pos := originalP.Copy();
          }
        }
      }
    }

    /** The read-only part of `show`: the pose the box is drawn in. */
    method Show() returns (p: Pose)
      requires Valid()
      ensures p == PoseOf(State(), edgeOffset)
    {
      var rotation := Upright;
      if animating {
        match dir.desc
        case Forward => rotation := Turn(XAxis, -a);
        case Backward => rotation := Turn(XAxis, a);
        case Right => rotation := Turn(ZAxis, a);
        case Left => rotation := Turn(ZAxis, -a);
      }
      var pivot := dir.pivotPt.Value();
      p := Pose(pos.Value(), V3(pivot.x * edgeOffset, pivot.y * edgeOffset, pivot.z * edgeOffset),
                rotation, col);
    }
  }
}
