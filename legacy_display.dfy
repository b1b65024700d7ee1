/**
 * The older orthographic display: every vertex is dropped straight onto the
 * grid by truncating `x + x_size / 2` and `y + y_size / 2` toward zero, its
 * z coordinate is the depth, and the depth buffer keeps the largest z per
 * cell. Rendering prints one glyph per cell, chosen by depth.
 */
module LegacyDisplay {
  import opened Wrappers
  import opened Geometry
  import opened Compositor
  import Shapes
  import GridIndex

  /** `f64 as isize` on the values that matter here: truncation toward zero. */
  function Trunc(x: real): (r: int)
    ensures x >= 0.0 ==> 0 <= r && r as real <= x < r as real + 1.0
    ensures x < 0.0 ==> r <= 0 && r as real - 1.0 < x <= r as real
  {
    if x >= 0.0 then x.Floor else -((-x).Floor)
  }

  /** A value strictly between -1 and 0 truncates to 0, so it lands in column or row 0. */
  lemma TruncSmallNegative(x: real)
    requires -1.0 < x < 0.0
    ensures Trunc(x) == 0
  {
  }

  /** The cell a vertex maps to, or `None` when it falls outside the grid. */
  function Locate(xSize: nat, ySize: nat, v: Point): (h: Option<Hit>)
    ensures h.Some? <==> 0 <= Trunc(v.x + xSize as real / 2.0) < xSize
                         && 0 <= Trunc(v.y + ySize as real / 2.0) < ySize
    ensures h.Some? ==> h.value == Hit(Trunc(v.y + ySize as real / 2.0) as nat,
                                       Trunc(v.x + xSize as real / 2.0) as nat, v.z)
  {
    var x := Trunc(v.x + (xSize as real) / 2.0);
    var y := Trunc(v.y + (ySize as real) / 2.0);
    if x < 0 || y < 0 then None
    else if x >= xSize || y >= ySize then None
    else Some(Hit(y, x, v.z))
  }

  /** The hits of a pass over `vertices`, in order. */
  function Hits(xSize: nat, ySize: nat, vertices: seq<Point>): (r: seq<Option<Hit>>)
    ensures |r| == |vertices|
    ensures forall k :: 0 <= k < |r| ==> r[k] == Locate(xSize, ySize, vertices[k])
    decreases |vertices|
  {
    if vertices == [] then []
    else Hits(xSize, ySize, vertices[..|vertices| - 1]) + [Locate(xSize, ySize, vertices[|vertices| - 1])]
  }

  /**
   * After a pass a cell is empty exactly when no vertex maps to it, and
   * otherwise holds the largest z of the vertices that map to it.
   */
  lemma CellIsMaxZ(xSize: nat, ySize: nat, vertices: seq<Point>, y: int, x: int)
    ensures Composite(None, Hits(xSize, ySize, vertices), y, x).None?
        <==> (forall k :: 0 <= k < |vertices| ==> !Lands(Locate(xSize, ySize, vertices[k]), y, x))
    ensures Composite(None, Hits(xSize, ySize, vertices), y, x).Some? ==>
      var d := Composite(None, Hits(xSize, ySize, vertices), y, x).value;
      && (exists k :: 0 <= k < |vertices| && Lands(Locate(xSize, ySize, vertices[k]), y, x) && vertices[k].z == d)
      && (forall k :: 0 <= k < |vertices| && Lands(Locate(xSize, ySize, vertices[k]), y, x) ==> vertices[k].z <= d)
  {
    var hits := Hits(xSize, ySize, vertices);
    CompositeIsMax(hits, y, x);
    var r := Composite(None, hits, y, x);
    if r.Some? {
      var k :| 0 <= k < |hits| && Lands(hits[k], y, x) && hits[k].value.depth == r.value;
      assert vertices[k].z == r.value;
    }
  }

  /** A vertex mapped outside the grid has no effect on any cell. */
  lemma OffGridNoEffect(xSize: nat, ySize: nat, v: Point, c: Option<real>, y: int, x: int)
    requires Trunc(v.x + xSize as real / 2.0) < 0 || Trunc(v.y + ySize as real / 2.0) < 0
          || Trunc(v.x + xSize as real / 2.0) >= xSize || Trunc(v.y + ySize as real / 2.0) >= ySize
    ensures Deposit(c, Locate(xSize, ySize, v), y, x) == c
  {
  }

  /** The glyph of a cell: `#` above 10, `/` above 5, `-` above 3, `.` otherwise, space when empty. */
  function Glyph(c: Option<real>): (g: char)
    ensures g == ' ' <==> c.None?
  {
    match c
    case None => ' '
    case Some(p) => if p > 10.0 then '#' else if p > 5.0 then '/' else if p > 3.0 then '-' else '.'
  }

  /** The brightness order of the glyphs, from the nearest bucket to the farthest. */
  function GlyphRank(g: char): nat {
    if g == '.' then 0 else if g == '-' then 1 else if g == '/' then 2 else 3
  }

  /** Boundaries are exclusive: exactly 10 is `/`; anything at or below 3, negatives included, is `.`. */
  lemma GlyphBoundaries(p: real)
    ensures Glyph(Some(10.0)) == '/' && Glyph(Some(5.0)) == '-' && Glyph(Some(3.0)) == '.'
    ensures p <= 3.0 ==> Glyph(Some(p)) == '.'
  {
  }

  /** A larger depth never gets a lower-ranked glyph. */
  lemma GlyphMonotone(p: real, q: real)
    requires p <= q
    ensures GlyphRank(Glyph(Some(p))) <= GlyphRank(Glyph(Some(q)))
  {
  }

  /** Character `k` of the printed frame: `width` glyphs then a newline, row after row. */
  function TextAt(xSize: nat, ySize: nat, vertices: seq<Point>, k: nat): char {
    var row, col := k / (xSize + 1), k % (xSize + 1);
    if col == xSize then '\n' else Glyph(Composite(None, Hits(xSize, ySize, vertices), row, col))
  }

  class Display {
    const xSize: nat
    const ySize: nat
    var pixels: array2<Option<real>>

    ghost predicate Valid()
      reads this
    {
      pixels.Length0 == ySize && pixels.Length1 == xSize
    }

    /** `Display::new`: an all-empty `y_size` by `x_size` grid. */
    constructor(xSize: nat, ySize: nat)
      ensures this.xSize == xSize && this.ySize == ySize
      ensures Valid() && fresh(pixels)
      ensures forall y, x :: 0 <= y < ySize && 0 <= x < xSize ==> pixels[y, x] == None
    {
      this.xSize, this.ySize := xSize, ySize;
      pixels := new Option<real>[ySize, xSize]((_, _) => None);
    }

    /** `project`: clear the grid, then write every vertex in order with the farther-wins rule. */
    method Project(shape: Shapes.Shape)
      requires Valid()
      modifies this
      ensures Valid() && fresh(pixels)
      ensures forall y, x :: 0 <= y < ySize && 0 <= x < xSize ==>
        pixels[y, x] == Composite(None, Hits(xSize, ySize, shape.vertices), y, x)
    {
      pixels := new Option<real>[ySize, xSize]((_, _) => None);
      var vertices := shape.vertices;
      for i := 0 to |vertices|
        modifies pixels
        invariant Valid()
        invariant forall y, x :: 0 <= y < ySize && 0 <= x < xSize ==>
          pixels[y, x] == Composite(None, Hits(xSize, ySize, vertices[..i]), y, x)
      {
        var v := vertices[i];
        assert vertices[..i + 1] == vertices[..i] + [v];
        ghost var before := Hits(xSize, ySize, vertices[..i]);
        assert Hits(xSize, ySize, vertices[..i + 1]) == before + [Locate(xSize, ySize, v)];
        forall y, x | 0 <= y < ySize && 0 <= x < xSize {
          CompositeSnoc(None, before, Locate(xSize, ySize, v), y, x);
        }
        var x := Trunc(v.x + (xSize as real) / 2.0);
        var y := Trunc(v.y + (ySize as real) / 2.0);
        if x < 0 || y < 0 {
          continue;
        }
        if x >= xSize || y >= ySize {
          continue;
        }
        var z := v.z;
        var curZ := pixels[y, x];
        if curZ.Some? {
          if z > curZ.value {
            pixels[y, x] := Some(z);
          }
        } else {
          pixels[y, x] := Some(z);
        }
      }
      assert vertices[..|vertices|] == vertices;
    }

    /**
     * `render`: project, then produce the frame as text, `x_size` glyphs and
     * a newline per row (the clear-screen escape is not part of the text).
     */
    method Render(shape: Shapes.Shape) returns (text: string)
      requires Valid()
      modifies this
      ensures Valid() && fresh(pixels)
      ensures |text| == ySize * (xSize + 1)
      ensures forall k :: 0 <= k < |text| ==> text[k] == TextAt(xSize, ySize, shape.vertices, k)
    {
      Project(shape);
      text := Print(shape.vertices);
    }

    /** The row loops of `render`: the glyph of every cell, a newline after each row. */
    method Print(ghost vertices: seq<Point>) returns (text: string)
      requires Valid()
      requires forall y, x :: 0 <= y < ySize && 0 <= x < xSize ==>
        pixels[y, x] == Composite(None, Hits(xSize, ySize, vertices), y, x)
      ensures |text| == ySize * (xSize + 1)
      ensures forall k :: 0 <= k < |text| ==> text[k] == TextAt(xSize, ySize, vertices, k)
    {
      var w := xSize + 1;
      text := [];
      for y := 0 to ySize
        invariant |text| == y * w
        invariant forall k :: 0 <= k < |text| ==> text[k] == TextAt(xSize, ySize, vertices, k)
      {
        for x := 0 to xSize
          invariant |text| == y * w + x
          invariant forall k :: 0 <= k < |text| ==> text[k] == TextAt(xSize, ySize, vertices, k)
        {
          GridIndex.IndexOf(w, y, x);
          text := text + [Glyph(pixels[y, x])];
        }
        GridIndex.IndexOf(w, y, xSize);
        text := text + ['\n'];
      }
    }
  }
}
