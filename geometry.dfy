/**
 * Three-dimensional points over the reals: the `Point(f64, f64, f64)` tuple
 * struct and its operator impls. Floating point is replaced by exact reals.
 */
module Geometry {

  datatype Point = Point(x: real, y: real, z: real)

  function Add(p: Point, q: Point): Point {
    Point(p.x + q.x, p.y + q.y, p.z + q.z)
  }

  function Sub(p: Point, q: Point): Point {
    Point(p.x - q.x, p.y - q.y, p.z - q.z)
  }

  /** `Point * f64`: scaling every component. */
  function Scale(p: Point, s: real): Point {
    Point(p.x * s, p.y * s, p.z * s)
  }

  function Dot(p: Point, q: Point): real {
    p.x * q.x + p.y * q.y + p.z * q.z
  }

  function Cross(p: Point, q: Point): Point {
    Point(p.y * q.z - p.z * q.y, p.z * q.x - p.x * q.z, p.x * q.y - p.y * q.x)
  }

  /** The squared magnitude; the magnitude itself needs a square root. */
  function Norm2(p: Point): real {
    Dot(p, p)
  }

  function Dist2(p: Point, q: Point): real {
    Norm2(Sub(p, q))
  }

  /** Subtracting and adding back the same point is the identity, and so is the reverse. */
  lemma SubAddCancel(p: Point, q: Point)
    ensures Add(Sub(p, q), q) == p
    ensures Sub(Add(p, q), q) == p
  {
  }

  /** Dot product is linear in its first argument under scaling. */
  lemma DotScaleLeft(p: Point, q: Point, s: real)
    ensures Dot(Scale(p, s), q) == s * Dot(p, q)
  {
    calc {
      Dot(Scale(p, s), q);
      (p.x * s) * q.x + (p.y * s) * q.y + (p.z * s) * q.z;
      s * (p.x * q.x) + s * (p.y * q.y) + s * (p.z * q.z);
      s * Dot(p, q);
    }
  }

  lemma DotSymmetric(p: Point, q: Point)
    ensures Dot(p, q) == Dot(q, p)
  {
  }

  /** A cross product is orthogonal to both of its factors. */
  lemma CrossOrthogonal(p: Point, q: Point)
    ensures Dot(p, Cross(p, q)) == 0.0
    ensures Dot(q, Cross(p, q)) == 0.0
  {
    var c := Cross(p, q);
    calc {
      Dot(p, c);
      p.x * (p.y * q.z - p.z * q.y) + p.y * (p.z * q.x - p.x * q.z) + p.z * (p.x * q.y - p.y * q.x);
      (p.x * p.y * q.z - p.x * p.z * q.y) + (p.y * p.z * q.x - p.y * p.x * q.z) + (p.z * p.x * q.y - p.z * p.y * q.x);
      0.0;
    }
    calc {
      Dot(q, c);
      q.x * (p.y * q.z - p.z * q.y) + q.y * (p.z * q.x - p.x * q.z) + q.z * (p.x * q.y - p.y * q.x);
      (q.x * p.y * q.z - q.x * p.z * q.y) + (q.y * p.z * q.x - q.y * p.x * q.z) + (q.z * p.x * q.y - q.z * p.y * q.x);
      0.0;
    }
  }

  /**
   * `Point::unit`: scaling by the reciprocal of the magnitude. The magnitude
   * is supplied as `m`, characterised by `m > 0` and `m * m == Norm2(p)`.
   */
  function Unit(p: Point, m: real): (u: Point)
    requires m > 0.0 && m * m == Norm2(p)
    ensures Norm2(u) == 1.0
  {
    var s := 1.0 / m;
    calc {
      Norm2(Scale(p, s));
      { DotScaleLeft(p, Scale(p, s), s); DotSymmetric(p, Scale(p, s)); DotScaleLeft(p, p, s); }
      s * (s * Norm2(p));
      s * (s * (m * m));
      (s * m) * (s * m);
      1.0;
    }
    Scale(p, s)
  }

  /** A vector that already has length 1 is its own unit vector. */
  lemma UnitOfUnit(p: Point)
    requires Norm2(p) == 1.0
    ensures Unit(p, 1.0) == p
  {
    assert Scale(p, 1.0 / 1.0) == p;
  }
}
