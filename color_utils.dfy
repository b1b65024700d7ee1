/**
 * The TUI's color helpers: a plain RGB triple, a brightness scaling that
 * clamps every channel, and the conversion into the terminal library's
 * color type.
 */
module ColorUtils {
  /** An 8-bit channel value. */
  newtype u8 = x: int | 0 <= x < 256

  /** The terminal library's color: the default color, or a true-color triple. */
  datatype Color = Reset | Rgb(r: u8, g: u8, b: u8)

  /** `ColorWrapper`: three 8-bit channels. */
  datatype ColorWrapper = ColorWrapper(r: u8, g: u8, b: u8)

  /** `ColorWrapper::rgb`. */
  function MakeRgb(r: u8, g: u8, b: u8): ColorWrapper
  {
    ColorWrapper(r, g, b)
  }

  /** `From<ColorWrapper> for Color`. */
  function ToColor(w: ColorWrapper): (c: Color)
    ensures c.Rgb? && MakeRgb(c.r, c.g, c.b) == w
  {
    Rgb(w.r, w.g, w.b)
  }

  /** Building a wrapper and converting it gives the true color of the same channels, and no two wrappers convert alike. */
  lemma ToColorFaithful(r: u8, g: u8, b: u8, w: ColorWrapper)
    ensures ToColor(MakeRgb(r, g, b)) == Rgb(r, g, b)
    ensures ToColor(w) == ToColor(MakeRgb(r, g, b)) ==> w == MakeRgb(r, g, b)
  {
  }

  function Min(a: real, b: real): real {
    if a <= b then a else b
  }

  /** A float-to-`u8` cast: toward zero, saturating at both ends (negative values give 0). */
  function CastU8(x: real): (r: u8)
    ensures x < 1.0 ==> r == 0
    ensures x >= 255.0 ==> r == 255
    ensures 0.0 <= x < 256.0 ==> r as int == x.Floor
  {
    if x < 0.0 then 0
    else if x >= 255.0 then 255
    else x.Floor as u8
  }

  /** A larger value never casts to a smaller byte. */
  lemma CastU8Monotone(x: real, y: real)
    requires x <= y
    ensures CastU8(x) <= CastU8(y)
  {
  }

  lemma MulMonotone(a: real, b: real, c: real, d: real)
    requires 0.0 <= a <= b && 0.0 <= c <= d
    ensures a * c <= b * d
  {
    assert a * c <= a * d by { assert a * (d - c) >= 0.0; }
    assert a * d <= b * d by { assert (b - a) * d >= 0.0; }
  }

  /** Scaling by a factor in `[0, 1]` and capping never exceeds the unscaled value. */
  lemma ScaledCapAtMost(factor: real, v: real, cap: real)
    requires 0.0 <= factor <= 1.0 && 0.0 <= v
    ensures Min(factor * v, cap) <= v
  {
    MulMonotone(factor, 1.0, v, v);
  }

  /** A byte read as a real casts back to itself. */
  lemma CastU8OfByte(c: u8)
    ensures CastU8(c as real) == c
  {
  }

  /** One channel of `lighten`: scale, cap at 254.999, cast. */
  function Channel(factor: real, c: u8): u8 {
    CastU8(Min(factor * (c as real), 254.999))
  }

  /** `ColorWrapper::lighten`. */
  function Lighten(w: ColorWrapper, factor: real): ColorWrapper {
    ColorWrapper(Channel(factor, w.r), Channel(factor, w.g), Channel(factor, w.b))
  }

  /** No channel of a lightened color reaches 255. */
  lemma LightenAtMost254(w: ColorWrapper, factor: real)
    ensures Lighten(w, factor).r <= 254
    ensures Lighten(w, factor).g <= 254
    ensures Lighten(w, factor).b <= 254
  {
  }

  /** A factor in `[0, 1]` never brightens a channel. */
  lemma ChannelDims(factor: real, c: u8)
    requires 0.0 <= factor <= 1.0
    ensures Channel(factor, c) <= c
  {
    var v := c as real;
    var m := Min(factor * v, 254.999);
    ScaledCapAtMost(factor, v, 254.999);
    assert Channel(factor, c) == CastU8(m);
    CastU8Monotone(m, v);
    CastU8OfByte(c);
  }

  lemma LightenDims(w: ColorWrapper, factor: real)
    requires 0.0 <= factor <= 1.0
    ensures Lighten(w, factor).r <= w.r
    ensures Lighten(w, factor).g <= w.g
    ensures Lighten(w, factor).b <= w.b
  {
    ChannelDims(factor, w.r);
    ChannelDims(factor, w.g);
    ChannelDims(factor, w.b);
  }

  /** With factor 1.0 a channel of at most 254 is kept, and 255 becomes 254. */
  lemma ChannelUnitFactor(c: u8)
    ensures c <= 254 ==> Channel(1.0, c) == c
    ensures c == 255 ==> Channel(1.0, c) == 254
  {
  }

  /** The doc comment's promise fails as written: full red is darkened by factor 1.0. */
  lemma LightenUnitFactorChangesFullChannel()
    ensures Lighten(ColorWrapper(255, 0, 0), 1.0) == ColorWrapper(254, 0, 0)
    ensures Lighten(ColorWrapper(255, 0, 0), 1.0) != ColorWrapper(255, 0, 0)
  {
    ChannelUnitFactor(255);
    ChannelUnitFactor(0);
  }

  /** For a non-negative factor, a larger factor or a larger channel never gives a smaller result. */
  lemma ChannelMonotone(f1: real, f2: real, c1: u8, c2: u8)
    requires 0.0 <= f1 <= f2
    requires c1 <= c2
    ensures Channel(f1, c1) <= Channel(f2, c2)
  {
    var v1, v2 := c1 as real, c2 as real;
    var m1, m2 := Min(f1 * v1, 254.999), Min(f2 * v2, 254.999);
    assert m1 <= m2 by { MulMonotone(f1, f2, v1, v2); }
    assert Channel(f1, c1) == CastU8(m1) && Channel(f2, c2) == CastU8(m2);
    CastU8Monotone(m1, m2);
  }

  /** A channel of `lighten` capped at 255 rather than 254.999. */
  function ChannelCapped(factor: real, c: u8): u8 {
    CastU8(Min(factor * (c as real), 255.0))
  }

  /** `lighten` as its doc comment describes it: factor 1.0 changes nothing. */
  function LightenCapped(w: ColorWrapper, factor: real): ColorWrapper {
    ColorWrapper(ChannelCapped(factor, w.r), ChannelCapped(factor, w.g), ChannelCapped(factor, w.b))
  }

  /** With the 255 cap, factor 1.0 is the identity on every color. */
  lemma LightenCappedUnitIdentity(w: ColorWrapper)
    ensures LightenCapped(w, 1.0) == w
  {
    forall c: u8 ensures ChannelCapped(1.0, c) == c {
      var v := c as real;
      assert 1.0 * v == v;
      assert v.Floor == c as int;
    }
  }

  /** The capped variant is still monotone in the factor and the channel, ... */
  lemma ChannelCappedMonotone(f1: real, f2: real, c1: u8, c2: u8)
    requires 0.0 <= f1 <= f2
    requires c1 <= c2
    ensures ChannelCapped(f1, c1) <= ChannelCapped(f2, c2)
  {
    var v1, v2 := c1 as real, c2 as real;
    var m1, m2 := Min(f1 * v1, 255.0), Min(f2 * v2, 255.0);
    assert m1 <= m2 by { MulMonotone(f1, f2, v1, v2); }
    assert ChannelCapped(f1, c1) == CastU8(m1) && ChannelCapped(f2, c2) == CastU8(m2);
    CastU8Monotone(m1, m2);
  }

  /** ... and still never brightens for a factor in `[0, 1]`. */
  lemma ChannelCappedDims(factor: real, c: u8)
    requires 0.0 <= factor <= 1.0
    ensures ChannelCapped(factor, c) <= c
  {
    var v := c as real;
    var m := Min(factor * v, 255.0);
    ScaledCapAtMost(factor, v, 255.0);
    assert ChannelCapped(factor, c) == CastU8(m);
    CastU8Monotone(m, v);
    CastU8OfByte(c);
  }
}
