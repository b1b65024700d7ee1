/**
 * Row-major indexing of a `width`-column grid: the index `i` of cell
 * `(x, y)` is `y * width + x`, and `x = i % width`, `y = (i - x) / width`
 * recover the cell. Dafny's `/` and `%` agree with Rust's `usize` operators
 * on the non-negative values used here.
 */
module GridIndex {

  lemma MulAtLeast(k: int, w: nat)
    requires k >= 1
    ensures k * w >= w
  {
    assert (k - 1) * w >= 0;
  }

  /** Quotient and remainder are the unique pair with `q * w + r == i` and `0 <= r < w`. */
  lemma {:induction false} DivModUnique(i: nat, w: nat, q: int, r: int)
    requires w > 0 && 0 <= r < w && q * w + r == i
    ensures i / w == q && i % w == r
  {
    var q0, r0 := i / w, i % w;
    assert q0 * w + r0 == i;
    assert (q - q0) * w == r0 - r;
    if q > q0 {
      MulAtLeast(q - q0, w);
      assert false;
    } else if q < q0 {
      MulAtLeast(q0 - q, w);
      assert false;
    }
  }

  /** The cell of a row-major index, as the widget computes it. */
  function Column(i: nat, width: nat): (x: nat)
    requires width > 0
    ensures x < width
  {
    i % width
  }

  function Row(i: nat, width: nat): (y: nat)
    requires width > 0
    ensures y == i / width
    ensures y * width + Column(i, width) == i
  {
    DivModUnique(i - i % width, width, i / width, 0);
    (i - i % width) / width
  }

  /** Composing a cell into an index and decomposing it again gives the cell back. */
  lemma IndexOf(width: nat, y: nat, x: nat)
    requires x < width
    ensures Row(y * width + x, width) == y
    ensures Column(y * width + x, width) == x
  {
    DivModUnique(y * width + x, width, y, x);
  }

  /** An index below `width * height` lands in a row below `height`. */
  lemma RowInRange(i: nat, width: nat, height: nat)
    requires i < width * height
    ensures width > 0 && Row(i, width) < height
  {
    if width == 0 {
      assert false;
    }
    var y := Row(i, width);
    if y >= height {
      MulAtLeast(y - height + 1, width);
      assert false;
    }
  }

  /** A cell of a `width` by `height` grid has an index below `width * height`. */
  lemma IndexInRange(width: nat, height: nat, y: nat, x: nat)
    requires x < width && y < height
    ensures y * width + x < width * height
  {
    MulAtLeast(height - y, width);
    assert (height - y) * width == width * height - y * width;
  }

  /**
   * The decomposition is a bijection between `[0, width * height)` and the
   * grid. This half: every index in range decomposes to a cell of the grid
   * which composes back to it.
   */
  lemma IndexToCell(i: nat, width: nat, height: nat)
    requires i < width * height
    ensures width > 0 && Row(i, width) < height && Column(i, width) < width
    ensures Row(i, width) * width + Column(i, width) == i
  {
    RowInRange(i, width, height);
  }

  /**
   * The other half: every cell composes to an index in range that decomposes
   * back to it, so each cell is reached by exactly one index.
   */
  lemma CellToIndex(width: nat, height: nat, y: nat, x: nat)
    requires y < height && x < width
    ensures y * width + x < width * height
    ensures Row(y * width + x, width) == y && Column(y * width + x, width) == x
  {
    IndexInRange(width, height, y, x);
    IndexOf(width, y, x);
  }
}
