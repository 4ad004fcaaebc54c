/** Three-dimensional vectors: `V3` is a vector value, `Vector` is the mutable
    vector object of the drawing library, updated in place by `Add` and `Mult`. */
module Vectors {

  datatype V3 = V3(x: real, y: real, z: real)

  function Sum(u: V3, v: V3): V3 {
    V3(u.x + v.x, u.y + v.y, u.z + v.z)
  }

  function Scaled(u: V3, k: real): V3 {
    V3(u.x * k, u.y * k, u.z * k)
  }

  function Negated(u: V3): V3 {
    V3(-u.x, -u.y, -u.z)
  }

  /** The square of the Euclidean distance between two points. */
  function DistSq(u: V3, v: V3): real {
    (u.x - v.x) * (u.x - v.x) + (u.y - v.y) * (u.y - v.y) + (u.z - v.z) * (u.z - v.z)
  }

  /** `dist(u, v) > limit`, decided without a square root. */
  predicate FartherThan(u: V3, v: V3, limit: real) {
    limit < 0.0 || DistSq(u, v) > limit * limit
  }

  /** For any non-negative `d` whose square is the squared distance (that is,
      for the Euclidean distance itself), `FartherThan` is `d > limit`. */
  lemma FartherThanIsDistance(u: V3, v: V3, limit: real, d: real)
    requires 0.0 <= d && d * d == DistSq(u, v)
    ensures FartherThan(u, v, limit) <==> d > limit
  {
    if 0.0 <= limit < d {
      SquareMonotone(limit, d);
    } else if 0.0 <= d < limit {
      SquareMonotone(d, limit);
    }
  }

  /** Squaring is strictly increasing on the non-negative reals. */
  lemma SquareMonotone(p: real, q: real)
    requires 0.0 <= p < q
    ensures p * p < q * q
  {
    var pp, pq, qq := p * p, p * q, q * q;
    assert pp <= pq;
    assert pq < qq;
  }

  class Vector {
    var x: real
    var y: real
    var z: real

    constructor (x: real, y: real, z: real)
      ensures Value() == V3(x, y, z)
    {
      this.x, this.y, this.z := x, y, z;
    }

    function Value(): V3
      reads this
    {
      V3(x, y, z)
    }

    /** A new vector object with the same components. */
    method Copy() returns (c: Vector)
      ensures fresh(c) && c.Value() == Value()
    {
      c := new Vector(x, y, z);
    }

    /** Adds `v` to this vector in place. */
    method Add(v: Vector)
      modifies this
      ensures Value() == Sum(old(Value()), old(v.Value()))
    {
      x, y, z := x + v.x, y + v.y, z + v.z;
    }

    /** Scales this vector in place. */
    method Mult(k: real)
      modifies this
      ensures Value() == Scaled(old(Value()), k)
    {
      x, y, z := x * k, y * k, z * k;
    }
  }
}
