/**
 * Wireframe shapes: a vertex list, an edge list of vertex-index pairs and an
 * optional rotation pivot, with the line and ring factories, the in-place
 * rotation and `combine`. Sines and cosines are not computed: the caller
 * supplies the value of `angle.sin_cos()` as a `Trig` pair.
 */
module Shapes {
  import opened Wrappers
  import opened Geometry

  /** The number of samples of a ring (and of an edge, when rasterized). */
  const VERTEX_DENSITY: nat := 100

  datatype Edge = Edge(i: nat, j: nat)

  /** Every edge refers to existing vertices. */
  predicate EdgesInRange(vertices: seq<Point>, edges: seq<Edge>) {
    forall k :: 0 <= k < |edges| ==> edges[k].i < |vertices| && edges[k].j < |vertices|
  }

  /** The pair `(sin a, cos a)` for some angle `a`. */
  datatype Trig = Trig(sin: real, cos: real)

  predicate OnUnitCircle(t: Trig) {
    t.sin * t.sin + t.cos * t.cos == 1.0
  }

  /**
   * One vertex of `rotate`: translate by `-pivot`, rotate in the (x, z) plane
   * by theta, then in the (y, z) plane by phi using the already-rotated
   * coordinates, and translate back.
   */
  function RotatePoint(v: Point, pivot: Point, theta: Trig, phi: Trig): Point {
    Add(TurnYZ(TurnXZ(Sub(v, pivot), theta), phi), pivot)
  }

  /** The (x, z) step of `rotate`. */
  function TurnXZ(p: Point, t: Trig): Point {
    Point(p.x * t.cos + p.z * t.sin, p.y, -p.x * t.sin + p.z * t.cos)
  }

  /** The (y, z) step of `rotate`, applied to the output of the (x, z) step. */
  function TurnYZ(p: Point, t: Trig): Point {
    Point(p.x, p.y * t.cos - p.z * t.sin, p.y * t.sin + p.z * t.cos)
  }

  /** A planar rotation step keeps the squared length of the pair it rotates. */
  lemma PlanarIsometry(a: real, b: real, t: Trig)
    requires OnUnitCircle(t)
    ensures (a * t.cos + b * t.sin) * (a * t.cos + b * t.sin)
          + (-a * t.sin + b * t.cos) * (-a * t.sin + b * t.cos) == a * a + b * b
  {
    var s, c := t.sin, t.cos;
    calc {
      (a * c + b * s) * (a * c + b * s) + (-a * s + b * c) * (-a * s + b * c);
      a * a * (c * c) + 2.0 * a * b * c * s + b * b * (s * s)
        + a * a * (s * s) - 2.0 * a * b * c * s + b * b * (c * c);
      a * a * (s * s + c * c) + b * b * (s * s + c * c);
      a * a + b * b;
    }
  }

  /** The (y, z) step is written with the opposite sign convention; it is still an isometry. */
  lemma PlanarIsometryMirrored(a: real, b: real, t: Trig)
    requires OnUnitCircle(t)
    ensures (a * t.cos - b * t.sin) * (a * t.cos - b * t.sin)
          + (a * t.sin + b * t.cos) * (a * t.sin + b * t.cos) == a * a + b * b
  {
    PlanarIsometry(a, -b, t);
    assert (a * t.cos - b * t.sin) == (a * t.cos + -b * t.sin);
    assert (a * t.sin + b * t.cos) * (a * t.sin + b * t.cos)
        == (-a * t.sin + -b * t.cos) * (-a * t.sin + -b * t.cos);
  }

  /** The pivot itself does not move, whatever the angles. */
  lemma RotateFixesPivot(pivot: Point, theta: Trig, phi: Trig)
    ensures RotatePoint(pivot, pivot, theta, phi) == pivot
  {
    assert Sub(pivot, pivot) == Point(0.0, 0.0, 0.0);
  }

  /** With genuine sines and cosines, rotation keeps every vertex's distance to the pivot. */
  lemma RotatePreservesDistance(v: Point, pivot: Point, theta: Trig, phi: Trig)
    requires OnUnitCircle(theta) && OnUnitCircle(phi)
    ensures Dist2(RotatePoint(v, pivot, theta, phi), pivot) == Dist2(v, pivot)
  {
    var prev := Sub(v, pivot);
    var first := TurnXZ(prev, theta);
    var second := TurnYZ(first, phi);
    PlanarIsometry(prev.x, prev.z, theta);
    PlanarIsometryMirrored(first.y, first.z, phi);
    assert Norm2(first) == Norm2(prev);
    assert Norm2(second) == Norm2(first);
    SubAddCancel(second, pivot);
    assert Sub(RotatePoint(v, pivot, theta, phi), pivot) == second;
  }

  /** The k-th ring angle, `2 * 3.14 / VERTEX_DENSITY * k`. */
  function RingAngle(k: nat): real {
    2.0 * 3.14 / (VERTEX_DENSITY as real) * (k as real)
  }

  /** The k-th ring vertex: sine on x, cosine on y, the center's z. */
  function RingPoint(radius: real, center: Point, sinCos: real -> Trig, k: nat): (p: Point)
    ensures p.z == center.z
  {
    var t := sinCos(RingAngle(k));
    Point(radius * t.sin + center.x, radius * t.cos + center.y, 0.0 + center.z)
  }

  /** With a genuine sine and cosine, every ring vertex lies at `radius` from the center in its plane. */
  lemma RingPointOnCircle(radius: real, center: Point, sinCos: real -> Trig, k: nat)
    requires OnUnitCircle(sinCos(RingAngle(k)))
    ensures Dist2(RingPoint(radius, center, sinCos, k), center) == radius * radius
  {
    var t := sinCos(RingAngle(k));
    var d := Sub(RingPoint(radius, center, sinCos, k), center);
    assert d == Point(radius * t.sin, radius * t.cos, 0.0);
    calc {
      Norm2(d);
      (radius * t.sin) * (radius * t.sin) + (radius * t.cos) * (radius * t.cos) + 0.0 * 0.0;
      radius * radius * (t.sin * t.sin + t.cos * t.cos);
      radius * radius;
    }
  }

  /** Edges renumbered by `n`, as they must be when appended after `n` vertices. */
  function Offset(edges: seq<Edge>, n: nat): (r: seq<Edge>)
    ensures |r| == |edges|
    ensures forall k :: 0 <= k < |r| ==> r[k] == Edge(edges[k].i + n, edges[k].j + n)
  {
    seq(|edges|, k requires 0 <= k < |edges| => Edge(edges[k].i + n, edges[k].j + n))
  }

  /**
   * Appending a second shape after the first, with its edges renumbered by the
   * first's vertex count, keeps every edge in range and joining the same two
   * vertex positions as before.
   */
  lemma RenumberedTopology(v1: seq<Point>, e1: seq<Edge>, v2: seq<Point>, e2: seq<Edge>)
    requires EdgesInRange(v1, e1) && EdgesInRange(v2, e2)
    ensures EdgesInRange(v1 + v2, e1 + Offset(e2, |v1|))
    ensures forall k :: 0 <= k < |e1| ==>
      (v1 + v2)[(e1 + Offset(e2, |v1|))[k].i] == v1[e1[k].i]
        && (v1 + v2)[(e1 + Offset(e2, |v1|))[k].j] == v1[e1[k].j]
    ensures forall k :: 0 <= k < |e2| ==>
      (v1 + v2)[(e1 + Offset(e2, |v1|))[|e1| + k].i] == v2[e2[k].i]
        && (v1 + v2)[(e1 + Offset(e2, |v1|))[|e1| + k].j] == v2[e2[k].j]
  {
    var es := e1 + Offset(e2, |v1|);
    forall k | 0 <= k < |es| ensures es[k].i < |v1 + v2| && es[k].j < |v1 + v2| {
      if k >= |e1| {
        assert es[k] == Offset(e2, |v1|)[k - |e1|];
      }
    }
    forall k | 0 <= k < |e2|
      ensures (v1 + v2)[es[|e1| + k].i] == v2[e2[k].i] && (v1 + v2)[es[|e1| + k].j] == v2[e2[k].j]
    {
      assert es[|e1| + k] == Edge(e2[k].i + |v1|, e2[k].j + |v1|);
    }
  }

  /** Edges appended without renumbering, as `combine` does, stay in range of the longer list. */
  lemma UnrenumberedInRange(v1: seq<Point>, e1: seq<Edge>, v2: seq<Point>, e2: seq<Edge>)
    requires EdgesInRange(v1, e1) && EdgesInRange(v2, e2)
    ensures EdgesInRange(v1 + v2, e1 + e2)
  {
    var es := e1 + e2;
    forall k | 0 <= k < |es| ensures es[k].i < |v1 + v2| && es[k].j < |v1 + v2| {
      if k >= |e1| {
        assert es[k] == e2[k - |e1|];
      }
    }
  }

  class Shape {
    var vertices: seq<Point>
    var edges: seq<Edge>
    var center: Option<Point>

    /** The struct literal `Shape { vertices, edges, center }`. */
    constructor(vertices: seq<Point>, edges: seq<Edge>, center: Option<Point>)
      ensures this.vertices == vertices && this.edges == edges && this.center == center
    {
      this.vertices := vertices;
      this.edges := edges;
      this.center := center;
    }

    /** `generate_line`: two vertices joined by one edge, no pivot. */
    constructor Line(start: Point, end: Point)
      ensures vertices == [start, end] && edges == [Edge(0, 1)] && center == None
      ensures EdgesInRange(vertices, edges)
    {
      vertices := [start, end];
      edges := [Edge(0, 1)];
      center := None;
    }

    /** `generate_ring`: `VERTEX_DENSITY` vertices on a circle, no edges, the center as pivot. */
    constructor Ring(radius: real, center: Point, sinCos: real -> Trig)
      ensures |vertices| == VERTEX_DENSITY
      ensures forall k :: 0 <= k < |vertices| ==> vertices[k] == RingPoint(radius, center, sinCos, k)
      ensures forall k :: 0 <= k < |vertices| ==> vertices[k].z == center.z
      ensures edges == [] && this.center == Some(center)
    {
      var vs: seq<Point> := [];
      for k := 0 to VERTEX_DENSITY
        invariant |vs| == k
        invariant forall m :: 0 <= m < k ==> vs[m] == RingPoint(radius, center, sinCos, m)
      {
        vs := vs + [RingPoint(radius, center, sinCos, k)];
      }
      vertices := vs;
      edges := [];
      this.center := Some(center);
    }

    /** `rotate`: every vertex is rewritten in place; the topology and pivot are untouched. */
    method Rotate(pivot: Point, theta: Trig, phi: Trig)
      modifies this
      ensures |vertices| == |old(vertices)|
      ensures forall k :: 0 <= k < |vertices| ==> vertices[k] == RotatePoint(old(vertices[k]), pivot, theta, phi)
      ensures edges == old(edges) && center == old(center)
    {
      for k := 0 to |vertices|
        invariant |vertices| == |old(vertices)|
        invariant forall m :: 0 <= m < k ==> vertices[m] == RotatePoint(old(vertices[m]), pivot, theta, phi)
        invariant forall m :: k <= m < |vertices| ==> vertices[m] == old(vertices[m])
        invariant edges == old(edges) && center == old(center)
      {
        vertices := vertices[k := RotatePoint(vertices[k], pivot, theta, phi)];
      }
    }

    /** `combine` as written: both lists appended, the second shape's edges NOT renumbered. */
    method Combine(s2: Shape) returns (r: Shape)
      ensures fresh(r)
      ensures r.vertices == vertices + s2.vertices
      ensures r.edges == edges + s2.edges
      ensures r.center == None
    {
      r := new Shape(vertices + s2.vertices, edges + s2.edges, None);
    }

    /** `combine` as the shape model requires it: the second shape's edges renumbered. */
    method CombineRenumbered(s2: Shape) returns (r: Shape)
      ensures fresh(r)
      ensures r.vertices == vertices + s2.vertices
      ensures r.edges == edges + Offset(s2.edges, |vertices|)
      ensures r.center == None
    {
      r := new Shape(vertices + s2.vertices, edges + Offset(s2.edges, |vertices|), None);
    }
  }

  /**
   * Combining two lines as written: the second line's edge still joins
   * vertices 0 and 1, so it is drawn over the first line and vertices 2 and 3
   * are joined by no edge.
   */
  method CombineTwoLinesAsWritten(a: Point, b: Point, c: Point, d: Point) returns (r: Shape)
    ensures r.vertices == [a, b, c, d]
    ensures r.edges == [Edge(0, 1), Edge(0, 1)]
    ensures forall k :: 0 <= k < |r.edges| ==> r.edges[k] != Edge(2, 3)
  {
    var first := new Shape.Line(a, b);
    var second := new Shape.Line(c, d);
    r := first.Combine(second);
  }

  /** With renumbering, the second line joins vertices 2 and 3 as intended. */
  method CombineTwoLinesRenumbered(a: Point, b: Point, c: Point, d: Point) returns (r: Shape)
    ensures r.vertices == [a, b, c, d]
    ensures r.edges == [Edge(0, 1), Edge(2, 3)]
  {
    var first := new Shape.Line(a, b);
    var second := new Shape.Line(c, d);
    r := first.CombineRenumbered(second);
    assert Offset([Edge(0, 1)], 2) == [Edge(2, 3)];
  }
}
