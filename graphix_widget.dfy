/**
 * The TUI widget that draws a shape: it builds a perspective display the
 * size of its area, renders the shape, and walks the row-major output,
 * turning each index back into a column and a row of the area and writing
 * a glyph in the entry's color there.
 */
module GraphixWidget {
  import opened Wrappers
  import opened Geometry
  import opened Shapes
  import opened CoreDisplay
  import opened ColorUtils
  import GridIndex

  /** The terminal library's `Color::from_u32`: the low three bytes as red, green, blue. */
  function FromU32(u: bv32): Color {
    Rgb((((u >> 16) & 0xFF) as bv8) as u8, (((u >> 8) & 0xFF) as bv8) as u8, ((u & 0xFF) as bv8) as u8)
  }

  /** Reading back a packed color gives the same channels. */
  lemma FromU32Packed(c: RGB)
    ensures FromU32(ToU32(c)) == Rgb(c.r as u8, c.g as u8, c.b as u8)
  {
    ToU32Bytes(c);
  }

  /** Occupied cells are drawn in `(254, 0, 0)`, empty ones in `(10, 10, 10)`, whatever the depth. */
  lemma ShadeColor(c: Option<real>)
    ensures FromU32(Shade(c).1) == if c.Some? then Rgb(254, 0, 0) else Rgb(10, 10, 10)
  {
    FromU32Packed(FG);
    FromU32Packed(BG);
  }

  /** The glyph every cell receives. */
  const GLYPH: string := "\U{2237}"

  /** A screen rectangle: its top-left corner and its size. */
  datatype Rect = Rect(x: nat, y: nat, width: nat, height: nat)

  /** One cell of the terminal buffer: its symbol and its colors. */
  datatype Cell = Cell(symbol: string, fg: Color, bg: Color)

  /** `Graphix`: the shape to draw and the camera that looks at it. */
  datatype Graphix = Graphix(shape: Shape, camPos: Point, camDirection: Point)

  /** Writing the glyph with a foreground color; the rest of the cell's style stays. */
  function Painted(cell: Cell, color: bv32): (r: Cell)
    ensures r.symbol == GLYPH && r.fg == FromU32(color) && r.bg == cell.bg
  {
    cell.(symbol := GLYPH, fg := FromU32(color))
  }

  predicate InArea(area: Rect, row: int, col: int) {
    area.y <= row < area.y + area.height && area.x <= col < area.x + area.width
  }

  /** The position in row-major order of a cell of the area. */
  function AreaIndex(area: Rect, row: int, col: int): (i: nat)
    requires InArea(area, row, col)
    ensures i < area.width * area.height
  {
    GridIndex.IndexInRange(area.width, area.height, row - area.y, col - area.x);
    (row - area.y) * area.width + (col - area.x)
  }

  /** The camera the widget renders through. */
  function WidgetView(g: Graphix, area: Rect, roots: Roots): View
    requires RootsFor(g.camDirection, roots)
  {
    View(area.width, area.height, g.camPos, OrthogonalBasis(g.camDirection, roots), 100.0)
  }

  /**
   * `Widget::render`: every cell of the area gets the glyph in the color of
   * its own entry of the rendered frame, and nothing outside the area
   * changes.
   */
  method Render(g: Graphix, area: Rect, buf: array2<Cell>, roots: Roots)
    requires RootsFor(g.camDirection, roots)
    requires EdgesInRange(g.shape.vertices, g.shape.edges)
    requires area.y + area.height <= buf.Length0 && area.x + area.width <= buf.Length1
    modifies buf
    ensures forall r, c :: 0 <= r < buf.Length0 && 0 <= c < buf.Length1 && !InArea(area, r, c) ==>
      buf[r, c] == old(buf[r, c])
    ensures forall r, c :: 0 <= r < buf.Length0 && 0 <= c < buf.Length1 && InArea(area, r, c) ==>
      buf[r, c] == Painted(old(buf[r, c]),
        ShadeAt(WidgetView(g, area, roots), Samples(g.shape.vertices, g.shape.edges), AreaIndex(area, r, c)).1)
  {
    var display := new Display(area.width, area.height, g.camPos, g.camDirection, 100.0, roots);
    var entries := display.Render(g.shape);
    assert display.Viewpoint() == WidgetView(g, area, roots);
    Paint(area, buf, entries);
  }

  /** The loop of `Widget::render`: entry `i` goes to column `i % width`, row `(i - i % width) / width`. */
  method Paint(area: Rect, buf: array2<Cell>, entries: seq<(real, bv32)>)
    requires area.y + area.height <= buf.Length0 && area.x + area.width <= buf.Length1
    requires |entries| == area.width * area.height
    modifies buf
    ensures forall r, c :: 0 <= r < buf.Length0 && 0 <= c < buf.Length1 ==>
      buf[r, c] == if InArea(area, r, c) then Painted(old(buf[r, c]), entries[AreaIndex(area, r, c)].1)
                   else old(buf[r, c])
  {
    var w := area.width;
    for i := 0 to |entries|
      invariant forall r, c :: 0 <= r < buf.Length0 && 0 <= c < buf.Length1 ==>
        buf[r, c] == if InArea(area, r, c) && AreaIndex(area, r, c) < i
                     then Painted(old(buf[r, c]), entries[AreaIndex(area, r, c)].1)
                     else old(buf[r, c])
    {
      GridIndex.RowInRange(i, w, area.height);
      var x := i % w;
      var y := (i - x) / w;
      assert x == GridIndex.Column(i, w) && y == GridIndex.Row(i, w);
      forall r, c | InArea(area, r, c) && (r != area.y + y || c != area.x + x)
        ensures AreaIndex(area, r, c) != i
      {
        GridIndex.IndexOf(w, r - area.y, c - area.x);
      }
      assert AreaIndex(area, area.y + y, area.x + x) == i;
      buf[area.y + y, area.x + x] := Painted(buf[area.y + y, area.x + x], entries[i].1);
    }
  }
}
