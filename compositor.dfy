/**
 * The depth-buffer write rule shared by both displays. A sample that survives
 * culling is a `Hit` on one cell; writing it into a cell that is empty stores
 * its depth, writing it into an occupied cell keeps the larger of the two
 * depths ("farther wins"). A whole pass is a left fold of that rule over the
 * pass's hits, in the order they are written.
 */
module Compositor {
  import opened Wrappers

  datatype Hit = Hit(row: nat, col: nat, depth: real)

  /** Whether a (possibly culled) sample writes to cell `(y, x)`. */
  predicate Lands(h: Option<Hit>, y: int, x: int) {
    h.Some? && h.value.row == y && h.value.col == x
  }

  /** The new content of cell `(y, x)` after writing sample `h` over content `c`. */
  function Deposit(c: Option<real>, h: Option<Hit>, y: int, x: int): (r: Option<real>)
    ensures !Lands(h, y, x) ==> r == c
    ensures Lands(h, y, x) ==> r.Some? && r.value >= h.value.depth
    ensures Lands(h, y, x) && c.Some? ==> r.value >= c.value
    ensures r.Some? && r != c ==> Lands(h, y, x) && r.value == h.value.depth
  {
    if !Lands(h, y, x) then c
    else match c
      case None => Some(h.value.depth)
      case Some(k) => if h.value.depth > k then Some(h.value.depth) else c
  }

  /** Cell `(y, x)` after writing every hit of `hits`, in order, over `start`. */
  function Composite(start: Option<real>, hits: seq<Option<Hit>>, y: int, x: int): Option<real>
    decreases |hits|
  {
    if hits == [] then start
    else Deposit(Composite(start, hits[..|hits| - 1], y, x), hits[|hits| - 1], y, x)
  }

  /** Writing one more hit is one more `Deposit`. */
  lemma CompositeSnoc(start: Option<real>, hits: seq<Option<Hit>>, h: Option<Hit>, y: int, x: int)
    ensures Composite(start, hits + [h], y, x) == Deposit(Composite(start, hits, y, x), h, y, x)
  {
    assert (hits + [h])[..|hits|] == hits;
  }

  /** Two consecutive runs of writes are one run over the concatenation. */
  lemma {:induction false} CompositeAppend(start: Option<real>, a: seq<Option<Hit>>, b: seq<Option<Hit>>, y: int, x: int)
    ensures Composite(Composite(start, a, y, x), b, y, x) == Composite(start, a + b, y, x)
    decreases |b|
  {
    if b == [] {
      assert a + b == a;
    } else {
      var b' := b[..|b| - 1];
      CompositeAppend(start, a, b', y, x);
      assert a + b == (a + b') + [b[|b| - 1]];
      CompositeSnoc(start, a + b', b[|b| - 1], y, x);
    }
  }

  /** `d` is the largest depth among the hits of `hits` that land on `(y, x)`. */
  ghost predicate IsMaxDepth(hits: seq<Option<Hit>>, y: int, x: int, d: real) {
    && (exists k :: 0 <= k < |hits| && Lands(hits[k], y, x) && hits[k].value.depth == d)
    && (forall k :: 0 <= k < |hits| && Lands(hits[k], y, x) ==> hits[k].value.depth <= d)
  }

  /**
   * Starting from an empty cell, a pass leaves the cell empty exactly when no
   * hit lands on it, and otherwise holding the largest depth of the hits that
   * land on it.
   */
  lemma {:induction false} CompositeIsMax(hits: seq<Option<Hit>>, y: int, x: int)
    ensures Composite(None, hits, y, x).None? <==> (forall k :: 0 <= k < |hits| ==> !Lands(hits[k], y, x))
    ensures Composite(None, hits, y, x).Some? ==> IsMaxDepth(hits, y, x, Composite(None, hits, y, x).value)
    decreases |hits|
  {
    if hits != [] {
      var n := |hits| - 1;
      var pre := hits[..n];
      CompositeIsMax(pre, y, x);
      var c := Composite(None, pre, y, x);
      var r := Composite(None, hits, y, x);
      assert r == Deposit(c, hits[n], y, x);
      assert forall k :: 0 <= k < n ==> pre[k] == hits[k];
      if r.Some? {
        if Lands(hits[n], y, x) && (c.None? || hits[n].value.depth > c.value) {
          assert r.value == hits[n].value.depth;
        } else {
          var k :| 0 <= k < n && Lands(pre[k], y, x) && pre[k].value.depth == c.value;
          assert Lands(hits[k], y, x) && hits[k].value.depth == r.value;
        }
      }
    }
  }
}
