/**
 * The perspective display: a camera with a position, an orthonormal basis
 * derived from a look direction and a focal length projects point samples
 * (every vertex, and 100 samples along every edge) into an `y_size` by
 * `x_size` depth buffer with the farther-wins rule, and presents the buffer
 * either as a row-major list of `(depth, color)` pairs or as glyph text.
 */
module CoreDisplay {
  import opened Wrappers
  import opened Geometry
  import opened Compositor
  import opened Shapes
  import GridIndex

  // ---------------------------------------------------------------- colors

  /** An 8-bit-per-channel color. */
  datatype RGB = RGB(r: bv8, g: bv8, b: bv8)

  /** `RGB::to_u32`: `0x00RRGGBB`. */
  function ToU32(c: RGB): bv32 {
    ((c.r as bv32) << 16) | ((c.g as bv32) << 8) | (c.b as bv32)
  }

  /** The top byte of the packing is always zero. */
  lemma ToU32Bound(c: RGB)
    ensures ToU32(c) >> 24 == 0
  {
  }

  /** Each channel can be read back from its byte of the packed value, ... */
  lemma ToU32Bytes(c: RGB)
    ensures ((ToU32(c) >> 16) & 0xFF) as bv8 == c.r
    ensures ((ToU32(c) >> 8) & 0xFF) as bv8 == c.g
    ensures (ToU32(c) & 0xFF) as bv8 == c.b
  {
  }

  /** ... so different colors pack to different values. */
  lemma ToU32Injective(c: RGB, d: RGB)
    requires ToU32(c) == ToU32(d)
    ensures c == d
  {
    ToU32Bytes(c);
    ToU32Bytes(d);
  }

  /** The unit test's value: `RGB(255, 5, 15)` packs to `0x00FF050F`. */
  lemma ToU32Example()
    ensures ToU32(RGB(255, 5, 15)) == 0x00FF050F
  {
  }

  /** The colors `render` gives occupied and empty cells. */
  const FG: RGB := RGB(254, 0, 0)
  const BG: RGB := RGB(10, 10, 10)

  // ---------------------------------------------------------------- camera

  /** Camera axes: `forward` is the depth axis, `right` and `up` span the screen. */
  datatype Basis = Basis(forward: Point, right: Point, up: Point)

  /**
   * The magnitudes `orthogonal_basis` divides by, supplied because square
   * roots are not computed here: of the look direction, of the side vector
   * and of the cross product of the two.
   */
  datatype Roots = Roots(forward: real, right: real, up: real)

  /** The vector in the xy-plane orthogonal to the look direction. */
  function Side(d: Point): Point {
    Point(d.y, -d.x, 0.0)
  }

  /**
   * The roots are the true magnitudes, and the look direction is not
   * vertical (a vertical one makes the side vector zero and the basis NaN).
   */
  predicate RootsFor(d: Point, roots: Roots) {
    && (d.x != 0.0 || d.y != 0.0)
    && roots.forward > 0.0 && roots.forward * roots.forward == Norm2(d)
    && roots.right > 0.0 && roots.right * roots.right == Norm2(Side(d))
    && roots.up > 0.0 && roots.up * roots.up == Norm2(Cross(d, Unit(Side(d), roots.right)))
  }

  /**
   * Any horizontal look direction of length 1, such as the TUI's default
   * `(0, 1, 0)`, has magnitudes 1, 1 and 1: its side vector has length 1 and
   * the cross product of the two is `(0, 0, -1)`.
   */
  lemma HorizontalUnitRoots(d: Point)
    requires d.z == 0.0 && Norm2(d) == 1.0
    ensures RootsFor(d, Roots(1.0, 1.0, 1.0))
  {
    var e := Side(d);
    assert Norm2(e) == 1.0 by { assert Norm2(e) == d.y * d.y + d.x * d.x; }
    UnitOfUnit(e);
    var c := Cross(d, e);
    assert c == Point(0.0, 0.0, -(d.x * d.x + d.y * d.y));
    assert Norm2(c) == 1.0 by { assert c == Point(0.0, 0.0, -1.0); }
    assert d.x != 0.0 || d.y != 0.0;
  }

  lemma DefaultDirectionRoots(d: Point)
    requires d == Point(0.0, 1.0, 0.0)
    ensures RootsFor(d, Roots(1.0, 1.0, 1.0))
  {
    assert Norm2(d) == d.y * d.y;
    HorizontalUnitRoots(d);
  }

  /** `orthogonal_basis`: the unit direction, the unit side vector, and the unit cross product. */
  function OrthogonalBasis(d: Point, roots: Roots): Basis
    requires RootsFor(d, roots)
  {
    var a := Unit(Side(d), roots.right);
    var b := Unit(Cross(d, a), roots.up);
    Basis(Unit(d, roots.forward), a, b)
  }

  predicate Orthonormal(b: Basis) {
    && Norm2(b.forward) == 1.0 && Norm2(b.right) == 1.0 && Norm2(b.up) == 1.0
    && Dot(b.forward, b.right) == 0.0 && Dot(b.forward, b.up) == 0.0 && Dot(b.right, b.up) == 0.0
  }

  /** Scaling either factor of a dot product scales the product. */
  lemma DotScaleBoth(p: Point, q: Point, s: real, t: real)
    ensures Dot(Scale(p, s), Scale(q, t)) == s * t * Dot(p, q)
  {
    DotScaleLeft(p, Scale(q, t), s);
    DotSymmetric(p, Scale(q, t));
    DotScaleLeft(q, p, t);
    DotSymmetric(q, p);
  }

  /** The camera basis is orthonormal whenever the direction is not vertical. */
  lemma BasisOrthonormal(d: Point, roots: Roots)
    requires RootsFor(d, roots)
    ensures Orthonormal(OrthogonalBasis(d, roots))
  {
    var side := Side(d);
    var a := Unit(side, roots.right);
    var c := Cross(d, a);
    var basis := OrthogonalBasis(d, roots);
    var sf, sr, su := 1.0 / roots.forward, 1.0 / roots.right, 1.0 / roots.up;
    assert basis.forward == Scale(d, sf) && basis.right == a && a == Scale(side, sr);
    assert basis.up == Scale(c, su);
    assert Dot(d, side) == 0.0;
    DotScaleBoth(d, side, sf, sr);
    CrossOrthogonal(d, a);
    DotScaleBoth(d, c, sf, su);
    DotScaleLeft(a, Scale(c, su), 1.0);
    assert Scale(a, 1.0) == a;
    DotScaleBoth(a, c, 1.0, su);
  }

  /** `f64::round`: to the nearest integer, halfway cases away from zero. */
  function Round(x: real): (r: int)
    ensures x >= 0.0 ==> r >= 0
    ensures x - 0.5 <= r as real <= x + 0.5
  {
    if x >= 0.0 then (x + 0.5).Floor else -((-x + 0.5).Floor)
  }

  /** Every halfway case rounds away from zero. */
  lemma RoundHalfAway(n: nat)
    ensures Round(n as real + 0.5) == n + 1
    ensures Round(-(n as real) - 0.5) == -(n + 1)
  {
    assert (n as real + 0.5 + 0.5).Floor == n + 1;
    assert (-(-(n as real) - 0.5) + 0.5).Floor == n + 1;
  }

  /** Everything `project_point` reads: the grid size and the camera. */
  datatype View = View(xSize: nat, ySize: nat, camPos: Point, basis: Basis, focal: real)

  /** The forward component of the point relative to the camera. */
  function Depth(v: View, p: Point): real {
    Dot(Sub(p, v.camPos), v.basis.forward)
  }

  /** The unrounded column, after the perspective divide. */
  function PixelX(v: View, p: Point): real
    requires Depth(v, p) > 0.0
  {
    v.focal * Dot(Sub(p, v.camPos), v.basis.right) / Depth(v, p) + (v.xSize as real) / 2.0
  }

  /** The unrounded row, after the perspective divide. */
  function PixelY(v: View, p: Point): real
    requires Depth(v, p) > 0.0
  {
    v.focal * Dot(Sub(p, v.camPos), v.basis.up) / Depth(v, p) + (v.ySize as real) / 2.0
  }

  /**
   * Where `project_point` writes a sample, or `None` when it culls it: behind
   * (or level with) the camera, left of or above the grid before rounding,
   * or right of or below the grid after rounding.
   */
  function Locate(v: View, p: Point): Option<Hit> {
    var depth := Depth(v, p);
    if depth <= 0.0 then None
    else
      var x, y := PixelX(v, p), PixelY(v, p);
      if x < 0.0 || y < 0.0 then None
      else if Round(x) >= v.xSize || Round(y) >= v.ySize then None
      else Some(Hit(Round(y), Round(x), depth))
  }

  /**
   * A sample lands exactly when it is in front of the camera and inside the
   * grid both before and after rounding, on the rounded pixel, at its depth.
   */
  lemma LocateSpec(v: View, p: Point)
    ensures Locate(v, p).Some? <==>
      (Depth(v, p) > 0.0 && PixelX(v, p) >= 0.0 && PixelY(v, p) >= 0.0
       && Round(PixelX(v, p)) < v.xSize && Round(PixelY(v, p)) < v.ySize)
    ensures Locate(v, p).Some? ==>
      Locate(v, p).value == Hit(Round(PixelY(v, p)) as nat, Round(PixelX(v, p)) as nat, Depth(v, p))
  {
  }

  /** A sample at or behind the camera plane changes no cell. */
  lemma BehindCameraNoEffect(v: View, p: Point, c: Option<real>, y: int, x: int)
    requires Depth(v, p) <= 0.0
    ensures Deposit(c, Locate(v, p), y, x) == c
  {
  }

  /** A sample off the grid, before or after rounding, changes no cell. */
  lemma OffGridNoEffect(v: View, p: Point, c: Option<real>, y: int, x: int)
    requires Depth(v, p) > 0.0
    requires PixelX(v, p) < 0.0 || PixelY(v, p) < 0.0
          || Round(PixelX(v, p)) >= v.xSize || Round(PixelY(v, p)) >= v.ySize
    ensures Deposit(c, Locate(v, p), y, x) == c
  {
  }

  /**
   * A sample changes at most one cell: any two cells it changes are the same
   * cell, that cell is in the grid, and it then holds the larger of its old
   * depth and the sample's.
   */
  lemma AtMostOneCell(v: View, p: Point, c1: Option<real>, y1: int, x1: int, c2: Option<real>, y2: int, x2: int)
    requires Deposit(c1, Locate(v, p), y1, x1) != c1
    requires Deposit(c2, Locate(v, p), y2, x2) != c2
    ensures y1 == y2 && x1 == x2
    ensures 0 <= y1 < v.ySize && 0 <= x1 < v.xSize
    ensures Deposit(c1, Locate(v, p), y1, x1) == Some(Depth(v, p))
  {
  }

  /** The hits of a run of samples, in order. */
  function Hits(v: View, points: seq<Point>): (r: seq<Option<Hit>>)
    ensures |r| == |points|
    ensures forall k :: 0 <= k < |r| ==> r[k] == Locate(v, points[k])
    decreases |points|
  {
    if points == [] then []
    else Hits(v, points[..|points| - 1]) + [Locate(v, points[|points| - 1])]
  }

  /** The k-th of `VERTEX_DENSITY` samples from `start` toward `end`, at `t = k / 100`. */
  function Lerp(start: Point, end: Point, k: nat): Point {
    Add(start, Scale(Sub(end, start), (k as real) / (VERTEX_DENSITY as real)))
  }

  /** The samples of one edge. `t = 1` is not among them: the end vertex comes from the vertex pass. */
  function Segment(vertices: seq<Point>, e: Edge): (s: seq<Point>)
    requires e.i < |vertices| && e.j < |vertices|
    ensures |s| == VERTEX_DENSITY && s[0] == vertices[e.i]
  {
    seq(VERTEX_DENSITY, k requires 0 <= k < VERTEX_DENSITY => Lerp(vertices[e.i], vertices[e.j], k))
  }

  /** The samples of every edge, edge after edge. */
  function EdgeSamples(vertices: seq<Point>, edges: seq<Edge>): seq<Point>
    requires EdgesInRange(vertices, edges)
    decreases |edges|
  {
    if edges == [] then []
    else
      var n := |edges| - 1;
      EdgeSamples(vertices, edges[..n]) + Segment(vertices, edges[n])
  }

  /** Edge `k` contributes exactly the samples at `t = c / 100`, `c` in `0 .. 99`, in that order. */
  lemma {:induction false} EdgeSamplesAt(vertices: seq<Point>, edges: seq<Edge>, k: nat, c: nat)
    requires EdgesInRange(vertices, edges)
    requires k < |edges| && c < VERTEX_DENSITY
    ensures |EdgeSamples(vertices, edges)| == VERTEX_DENSITY * |edges|
    ensures EdgeSamples(vertices, edges)[VERTEX_DENSITY * k + c]
         == Lerp(vertices[edges[k].i], vertices[edges[k].j], c)
    decreases |edges|
  {
    var n := |edges| - 1;
    var pre := edges[..n];
    assert EdgesInRange(vertices, pre) by {
      forall m | 0 <= m < |pre| ensures pre[m] == edges[m] { }
    }
    EdgeSamplesLength(vertices, pre);
    if k < n {
      EdgeSamplesAt(vertices, pre, k, c);
      assert VERTEX_DENSITY * k + c < VERTEX_DENSITY * n;
      assert pre[k] == edges[k];
    } else {
      assert VERTEX_DENSITY * k + c == VERTEX_DENSITY * n + c;
    }
  }

  lemma {:induction false} EdgeSamplesLength(vertices: seq<Point>, edges: seq<Edge>)
    requires EdgesInRange(vertices, edges)
    ensures |EdgeSamples(vertices, edges)| == VERTEX_DENSITY * |edges|
    decreases |edges|
  {
    if edges != [] {
      var n := |edges| - 1;
      var pre := edges[..n];
      assert EdgesInRange(vertices, pre) by {
        forall m | 0 <= m < |pre| ensures pre[m] == edges[m] { }
      }
      EdgeSamplesLength(vertices, pre);
    }
  }

  /** Everything one pass projects: the vertices, then the edge samples. */
  function Samples(vertices: seq<Point>, edges: seq<Edge>): seq<Point>
    requires EdgesInRange(vertices, edges)
  {
    vertices + EdgeSamples(vertices, edges)
  }

  /** Hits distribute over concatenation of sample runs. */
  lemma HitsAppend(v: View, a: seq<Point>, b: seq<Point>)
    ensures Hits(v, a + b) == Hits(v, a) + Hits(v, b)
  {
    var l, r := Hits(v, a + b), Hits(v, a) + Hits(v, b);
    forall k | 0 <= k < |l| ensures l[k] == r[k] {
      if k < |a| {
        assert (a + b)[k] == a[k];
      } else {
        assert (a + b)[k] == b[k - |a|];
      }
    }
  }

  /**
   * The contents of a cell after a pass: empty exactly when no sample lands
   * on it, otherwise the largest depth of the samples that land on it.
   */
  lemma CellIsMaxDepth(v: View, points: seq<Point>, y: int, x: int)
    ensures Composite(None, Hits(v, points), y, x).None?
        <==> (forall k :: 0 <= k < |points| ==> !Lands(Locate(v, points[k]), y, x))
    ensures Composite(None, Hits(v, points), y, x).Some? ==>
      var d := Composite(None, Hits(v, points), y, x).value;
      && (exists k :: 0 <= k < |points| && Lands(Locate(v, points[k]), y, x) && Depth(v, points[k]) == d)
      && (forall k :: 0 <= k < |points| && Lands(Locate(v, points[k]), y, x) ==> Depth(v, points[k]) <= d)
  {
    var hits := Hits(v, points);
    CompositeIsMax(hits, y, x);
    var r := Composite(None, hits, y, x);
    if r.Some? {
      var k :| 0 <= k < |hits| && Lands(hits[k], y, x) && hits[k].value.depth == r.value;
      assert Depth(v, points[k]) == r.value;
    }
  }

  // ---------------------------------------------------------------- output

  /** One entry of `render`'s output: the depth and the foreground color, or 0 and the background. */
  function Shade(c: Option<real>): (real, bv32) {
    match c
    case Some(p) => (p, ToU32(FG))
    case None => (0.0, ToU32(BG))
  }

  /** Entry `k` of `render`'s row-major output. */
  function ShadeAt(v: View, points: seq<Point>, k: nat): (real, bv32)
    requires v.xSize > 0
  {
    Shade(Composite(None, Hits(v, points), k / v.xSize, k % v.xSize))
  }

  /**
   * Entry `y * x_size + x` is cell `(y, x)`: its depth and the foreground
   * color when some sample landed there, `0` and the background otherwise.
   */
  lemma ShadeAtCell(v: View, points: seq<Point>, y: nat, x: nat)
    requires x < v.xSize
    ensures var c := Composite(None, Hits(v, points), y, x);
      ShadeAt(v, points, y * v.xSize + x) == if c.Some? then (c.value, ToU32(FG)) else (0.0, ToU32(BG))
  {
    GridIndex.IndexOf(v.xSize, y, x);
  }

  /** `render_print`'s glyph: `#` below 10, `*` below 30, `-` below 50, `.` beyond, space when empty. */
  function Glyph(c: Option<real>): (g: char)
    ensures g == ' ' <==> c.None?
  {
    match c
    case None => ' '
    case Some(p) => if p < 10.0 then '#' else if p < 30.0 then '*' else if p < 50.0 then '-' else '.'
  }

  /** Boundaries are exclusive on the upper side: exactly 10 is `*`, 30 is `-`, 50 is `.`; negatives are `#`. */
  lemma GlyphBoundaries(p: real)
    ensures Glyph(Some(10.0)) == '*' && Glyph(Some(30.0)) == '-' && Glyph(Some(50.0)) == '.'
    ensures p < 0.0 ==> Glyph(Some(p)) == '#'
  {
  }

  /** The glyphs in order of increasing depth bucket. */
  function GlyphRank(g: char): nat {
    if g == '#' then 0 else if g == '*' then 1 else if g == '-' then 2 else 3
  }

  /** A farther sample never gets a nearer bucket's glyph. */
  lemma GlyphMonotone(p: real, q: real)
    requires p <= q
    ensures GlyphRank(Glyph(Some(p))) <= GlyphRank(Glyph(Some(q)))
  {
  }

  /** Character `k` of the printed frame: `x_size` glyphs then a newline, row after row. */
  function TextAt(v: View, points: seq<Point>, k: nat): char {
    var row, col := k / (v.xSize + 1), k % (v.xSize + 1);
    if col == v.xSize then '\n' else Glyph(Composite(None, Hits(v, points), row, col))
  }

  class Display {
    const xSize: nat
    const ySize: nat
    var pixels: array2<Option<real>>
    const camPos: Point
    const camBasis: Basis
    const camFocal: real

    ghost predicate Valid()
      reads this
    {
      pixels.Length0 == ySize && pixels.Length1 == xSize
    }

    function Viewpoint(): View {
      View(xSize, ySize, camPos, camBasis, camFocal)
    }

    /** `Display::new`: an empty grid and the basis derived from the look direction. */
    constructor(xSize: nat, ySize: nat, camPos: Point, camDirection: Point, camFocal: real, roots: Roots)
      requires RootsFor(camDirection, roots)
      ensures this.xSize == xSize && this.ySize == ySize
      ensures Valid() && fresh(pixels)
      ensures forall y, x :: 0 <= y < ySize && 0 <= x < xSize ==> pixels[y, x] == None
      ensures this.camPos == camPos && this.camFocal == camFocal
      ensures camBasis == OrthogonalBasis(camDirection, roots) && Orthonormal(camBasis)
    {
      this.xSize, this.ySize := xSize, ySize;
      pixels := new Option<real>[ySize, xSize]((_, _) => None);
      this.camPos := camPos;
      camBasis := OrthogonalBasis(camDirection, roots);
      this.camFocal := camFocal;
      BasisOrthonormal(camDirection, roots);
    }

    /** `project_point`: cull, then write one cell with the farther-wins rule. */
    method ProjectPoint(point: Point)
      requires Valid()
      modifies pixels
      ensures forall y, x :: 0 <= y < ySize && 0 <= x < xSize ==>
        pixels[y, x] == Deposit(old(pixels[y, x]), Locate(Viewpoint(), point), y, x)
    {
      var camToPoint := Sub(point, camPos);
      var depth := Dot(camToPoint, camBasis.forward);
      var x := Dot(camToPoint, camBasis.right);
      var y := Dot(camToPoint, camBasis.up);
      if depth <= 0.0 {
        return;
      }
      var xPixel := camFocal * x / depth;
      var yPixel := camFocal * y / depth;
      xPixel := xPixel + (xSize as real) / 2.0;
      yPixel := yPixel + (ySize as real) / 2.0;
      assert xPixel == PixelX(Viewpoint(), point) && yPixel == PixelY(Viewpoint(), point);
      if xPixel < 0.0 || yPixel < 0.0 {
        return;
      }
      var col := Round(xPixel);
      var row := Round(yPixel);
      if col >= xSize || row >= ySize {
        return;
      }
      assert Locate(Viewpoint(), point) == Some(Hit(row, col, depth));
      var curDepth := pixels[row, col];
      if curDepth.Some? {
        if depth > curDepth.value {
          pixels[row, col] := Some(depth);
        }
      } else {
        pixels[row, col] := Some(depth);
      }
    }

    /** `project_vertices`: every vertex, in order. */
    method ProjectVertices(vertices: seq<Point>)
      requires Valid()
      modifies pixels
      ensures forall y, x :: 0 <= y < ySize && 0 <= x < xSize ==>
        pixels[y, x] == Composite(old(pixels[y, x]), Hits(Viewpoint(), vertices), y, x)
    {
      for i := 0 to |vertices|
        invariant forall y, x :: 0 <= y < ySize && 0 <= x < xSize ==>
          pixels[y, x] == Composite(old(pixels[y, x]), Hits(Viewpoint(), vertices[..i]), y, x)
      {
        assert vertices[..i + 1] == vertices[..i] + [vertices[i]];
        ghost var before := Hits(Viewpoint(), vertices[..i]);
        assert Hits(Viewpoint(), vertices[..i + 1]) == before + [Locate(Viewpoint(), vertices[i])];
        ghost var mid := pixels;
        ProjectPoint(vertices[i]);
        forall y, x | 0 <= y < ySize && 0 <= x < xSize
          ensures pixels[y, x] == Composite(old(pixels[y, x]), Hits(Viewpoint(), vertices[..i + 1]), y, x)
        {
          CompositeSnoc(old(pixels[y, x]), before, Locate(Viewpoint(), vertices[i]), y, x);
        }
      }
      assert vertices[..|vertices|] == vertices;
    }

    /** `project_edges`: `VERTEX_DENSITY` samples along every edge, edge after edge. */
    method ProjectEdges(vertices: seq<Point>, edges: seq<Edge>)
      requires Valid() && EdgesInRange(vertices, edges)
      modifies pixels
      ensures forall y, x :: 0 <= y < ySize && 0 <= x < xSize ==>
        pixels[y, x] == Composite(old(pixels[y, x]), Hits(Viewpoint(), EdgeSamples(vertices, edges)), y, x)
    {
      for e := 0 to |edges|
        invariant forall y, x :: 0 <= y < ySize && 0 <= x < xSize ==>
          pixels[y, x] == Composite(old(pixels[y, x]), Hits(Viewpoint(), EdgeSamples(vertices, edges[..e])), y, x)
      {
        assert EdgesInRange(vertices, edges[..e + 1]) by {
          forall m | 0 <= m < e + 1 ensures edges[..e + 1][m] == edges[m] { }
        }
        assert edges[..e + 1][..e] == edges[..e];
        ghost var done := EdgeSamples(vertices, edges[..e]);
        ghost var segment := Segment(vertices, edges[e]);
        assert EdgeSamples(vertices, edges[..e + 1]) == done + segment;
        HitsAppend(Viewpoint(), done, segment);
        ProjectSegment(vertices, edges[e]);
        forall y, x | 0 <= y < ySize && 0 <= x < xSize
          ensures pixels[y, x] == Composite(old(pixels[y, x]), Hits(Viewpoint(), done + segment), y, x)
        {
          CompositeAppend(old(pixels[y, x]), Hits(Viewpoint(), done), Hits(Viewpoint(), segment), y, x);
        }
      }
      assert edges[..|edges|] == edges;
    }

    /** The body of `project_edges` for one edge: its samples at `t = c / 100`, `c` in `0 .. 99`. */
    method ProjectSegment(vertices: seq<Point>, edge: Edge)
      requires Valid() && edge.i < |vertices| && edge.j < |vertices|
      modifies pixels
      ensures forall y, x :: 0 <= y < ySize && 0 <= x < xSize ==>
        pixels[y, x] == Composite(old(pixels[y, x]), Hits(Viewpoint(), Segment(vertices, edge)), y, x)
    {
      ghost var v := Viewpoint();
      ghost var segment := Segment(vertices, edge);
      var start := vertices[edge.i];
      var end := vertices[edge.j];
      var delta := Sub(end, start);
      for c := 0 to VERTEX_DENSITY
        invariant forall y, x :: 0 <= y < ySize && 0 <= x < xSize ==>
          pixels[y, x] == Composite(old(pixels[y, x]), Hits(v, segment[..c]), y, x)
      {
        var point := Add(start, Scale(delta, (c as real) / (VERTEX_DENSITY as real)));
        ghost var before := Hits(v, segment[..c]);
        assert Hits(v, segment[..c + 1]) == before + [Locate(v, point)] by {
          assert point == segment[c];
          assert segment[..c + 1] == segment[..c] + [point];
        }
        ProjectPoint(point);
        forall y, x | 0 <= y < ySize && 0 <= x < xSize
          ensures pixels[y, x] == Composite(old(pixels[y, x]), Hits(v, segment[..c + 1]), y, x)
        {
          CompositeSnoc(old(pixels[y, x]), before, Locate(v, point), y, x);
        }
      }
      assert segment[..VERTEX_DENSITY] == segment;
    }

    /** `project`: clear the grid, then the vertex pass, then the edge pass. */
    method Project(shape: Shape)
      requires Valid() && EdgesInRange(shape.vertices, shape.edges)
      modifies this
      ensures Valid() && fresh(pixels)
      ensures forall y, x :: 0 <= y < ySize && 0 <= x < xSize ==>
        pixels[y, x] == Composite(None, Hits(Viewpoint(), Samples(shape.vertices, shape.edges)), y, x)
    {
      ghost var vs, es := shape.vertices, shape.edges;
      ghost var hv, he := Hits(Viewpoint(), vs), Hits(Viewpoint(), EdgeSamples(vs, es));
      HitsAppend(Viewpoint(), vs, EdgeSamples(vs, es));
      assert Hits(Viewpoint(), Samples(vs, es)) == hv + he;
      pixels := new Option<real>[ySize, xSize]((_, _) => None);
      ProjectVertices(shape.vertices);
      assert forall y, x :: 0 <= y < ySize && 0 <= x < xSize ==> pixels[y, x] == Composite(None, hv, y, x);
      ProjectEdges(shape.vertices, shape.edges);
      forall y, x | 0 <= y < ySize && 0 <= x < xSize
        ensures pixels[y, x] == Composite(None, hv + he, y, x)
      {
        CompositeAppend(None, hv, he, y, x);
      }
    }

    /** `render`: project, then list the cells row by row as `(depth, color)` pairs. */
    method Render(shape: Shape) returns (result: seq<(real, bv32)>)
      requires Valid() && EdgesInRange(shape.vertices, shape.edges)
      modifies this
      ensures Valid() && fresh(pixels)
      ensures |result| == xSize * ySize
      ensures forall k :: 0 <= k < |result| ==> xSize > 0 && result[k] == ShadeAt(Viewpoint(), Samples(shape.vertices, shape.edges), k)
    {
      Project(shape);
      result := Flatten(Samples(shape.vertices, shape.edges));
    }

    /** The loops of `render`: the cells row by row, each as a `(depth, color)` pair. */
    method Flatten(ghost samples: seq<Point>) returns (result: seq<(real, bv32)>)
      requires Valid()
      requires forall y, x :: 0 <= y < ySize && 0 <= x < xSize ==>
        pixels[y, x] == Composite(None, Hits(Viewpoint(), samples), y, x)
      ensures |result| == xSize * ySize
      ensures forall k :: 0 <= k < |result| ==> xSize > 0 && result[k] == ShadeAt(Viewpoint(), samples, k)
    {
      result := [];
      for y := 0 to ySize
        invariant |result| == y * xSize
        invariant forall k :: 0 <= k < |result| ==> xSize > 0 && result[k] == ShadeAt(Viewpoint(), samples, k)
      {
        for x := 0 to xSize
          invariant |result| == y * xSize + x
          invariant forall k :: 0 <= k < |result| ==> xSize > 0 && result[k] == ShadeAt(Viewpoint(), samples, k)
        {
          GridIndex.IndexOf(xSize, y, x);
          result := result + [Shade(pixels[y, x])];
        }
      }
    }

    /**
     * `render_print`'s output: project, then the frame as text, `x_size`
     * glyphs and a newline per row (escape sequences and colors are not part
     * of the text).
     */
    method RenderPrint(shape: Shape) returns (text: string)
      requires Valid() && EdgesInRange(shape.vertices, shape.edges)
      modifies this
      ensures Valid() && fresh(pixels)
      ensures |text| == ySize * (xSize + 1)
      ensures forall k :: 0 <= k < |text| ==> text[k] == TextAt(Viewpoint(), Samples(shape.vertices, shape.edges), k)
    {
      Project(shape);
      text := Print(Samples(shape.vertices, shape.edges));
    }

    /** The loops of `render_print`: the glyph of every cell, a newline after each row. */
    method Print(ghost samples: seq<Point>) returns (text: string)
      requires Valid()
      requires forall y, x :: 0 <= y < ySize && 0 <= x < xSize ==>
        pixels[y, x] == Composite(None, Hits(Viewpoint(), samples), y, x)
      ensures |text| == ySize * (xSize + 1)
      ensures forall k :: 0 <= k < |text| ==> text[k] == TextAt(Viewpoint(), samples, k)
    {
      var w := xSize + 1;
      text := [];
      for y := 0 to ySize
        invariant |text| == y * w
        invariant forall k :: 0 <= k < |text| ==> text[k] == TextAt(Viewpoint(), samples, k)
      {
        for x := 0 to xSize
          invariant |text| == y * w + x
          invariant forall k :: 0 <= k < |text| ==> text[k] == TextAt(Viewpoint(), samples, k)
        {
          GridIndex.IndexOf(w, y, x);
          text := text + [Glyph(pixels[y, x])];
        }
        GridIndex.IndexOf(w, y, xSize);
        text := text + ['\n'];
      }
    }
  }
}
