/**
 * `Texture::Sample`: the nearest texel of a 32-bit surface for a UV coordinate,
 * as a colour with channels in [0, 1].
 *
 * The surface's pixel array is `w * h` entries in row-major order. SDL's
 * `SDL_GetRGB` (which unpacks a pixel by the surface's format) is passed in as a
 * function.
 */
module TextureSampling {
  import opened Basics

  /** An SDL surface with 32 bits per pixel and no padding between rows. */
  datatype Surface = Surface(w: int, h: int, pixels: seq<bv32>)

  predicate ValidSurface(s: Surface) {
    0 <= s.w && 0 <= s.h && |s.pixels| == s.w * s.h
  }

  datatype UV = UV(u: real, v: real)

  /** The channels `SDL_GetRGB` unpacks. */
  datatype RGB8 = RGB8(r: Byte, g: Byte, b: Byte)

  datatype ColorRGB = ColorRGB(r: real, g: real, b: real)

  predicate InUnitRange(c: ColorRGB) {
    0.0 <= c.r <= 1.0 && 0.0 <= c.g <= 1.0 && 0.0 <= c.b <= 1.0
  }

  /** `std::clamp(x, 0.f, 1.f)` */
  function Clamp01(x: real): (r: real)
    ensures 0.0 <= r <= 1.0
    ensures 0.0 <= x <= 1.0 ==> r == x
  {
    if x < 0.0 then 0.0 else if 1.0 < x then 1.0 else x
  }

  /** `static_cast<int>(x)`: truncation toward zero. */
  function Truncate(x: real): (n: int)
    ensures 0.0 <= x ==> 0 <= n && n as real <= x < n as real + 1.0
    ensures x < 0.0 ==> n <= 0 && x <= n as real
  {
    if 0.0 <= x then x.Floor else -((-x).Floor)
  }

  /** The cell `static_cast<int>(x * n)` of a clamped coordinate `x` on an axis of `n` texels. */
  function Cell(x: real, n: int): int {
    Truncate(x * n as real)
  }

  lemma CellBounds(x: real, n: int)
    requires 0.0 <= x <= 1.0 && 0 <= n
    ensures 0 <= Cell(x, n) <= n
    ensures x < 1.0 && 0 < n ==> Cell(x, n) < n
    ensures x == 1.0 ==> Cell(x, n) == n
  {
    var y, m := x * n as real, n as real;
    assert m - y == (1.0 - x) * m;
    NonNegativeProduct(x, m);
    NonNegativeProduct(1.0 - x, m);
    if x < 1.0 && 0 < n {
      PositiveProduct(1.0 - x, m);
    }
  }

  lemma NonNegativeProduct(a: real, b: real)
    requires 0.0 <= a && 0.0 <= b
    ensures 0.0 <= a * b
  {
  }

  lemma PositiveProduct(a: real, b: real)
    requires 0.0 < a && 0.0 < b
    ensures 0.0 < a * b
  {
  }

  /** The column `static_cast<int>(clamp(u) * w)`. */
  function Column(uv: UV, w: int): int {
    Cell(Clamp01(uv.u), w)
  }

  /** The row `static_cast<int>(clamp(v) * h)`. */
  function Row(uv: UV, h: int): int {
    Cell(Clamp01(uv.v), h)
  }

  /** The index as the source computes it: row times width plus column, with no upper guard. */
  function TexelIndex(uv: UV, w: int, h: int): (i: int)
    ensures 0 <= w && 0 <= h ==> 0 <= i <= w * h + w
  {
    var i := Row(uv, h) * w + Column(uv, w);
    assert 0 <= w && 0 <= h ==> 0 <= i <= w * h + w by {
      if 0 <= w && 0 <= h {
        ColumnRowBounds(uv, w, h);
      }
    }
    i
  }

  /** Column and row lie within [0, w] and [0, h], reaching w and h exactly at coordinate 1. */
  lemma ColumnRowBounds(uv: UV, w: int, h: int)
    requires 0 <= w && 0 <= h
    ensures 0 <= Column(uv, w) <= w && 0 <= Row(uv, h) <= h
    ensures 0 <= Row(uv, h) * w + Column(uv, w) <= w * h + w
    ensures Clamp01(uv.u) < 1.0 && 0 < w ==> Column(uv, w) < w
    ensures Clamp01(uv.v) < 1.0 && 0 < h ==> Row(uv, h) < h
    ensures Clamp01(uv.u) == 1.0 ==> Column(uv, w) == w
    ensures Clamp01(uv.v) == 1.0 ==> Row(uv, h) == h
  {
    CellBounds(Clamp01(uv.u), w);
    CellBounds(Clamp01(uv.v), h);
    var row, col := Row(uv, h), Column(uv, w);
    assert 0 <= row * w <= h * w by { MulMonotone(0, row, w); MulMonotone(row, h, w); }
  }

  lemma MulMonotone(a: int, b: int, w: int)
    requires a <= b && 0 <= w
    ensures a * w <= b * w
  {
  }

  /** Row-major order: index = row * w + column, both taken on the clamped coordinates. */
  lemma IndexIsRowMajor(uv: UV, w: int, h: int)
    requires 0 <= w && 0 <= h
    ensures var col, row := (Clamp01(uv.u) * w as real).Floor, (Clamp01(uv.v) * h as real).Floor;
      TexelIndex(uv, w, h) == row * w + col && 0 <= col <= w && 0 <= row <= h
  {
    ColumnRowBounds(uv, w, h);
  }

  /** Clamping first changes nothing: a coordinate below 0 samples as 0, above 1 as 1. */
  lemma OutOfRangeSamplesEdge(uv: UV, w: int, h: int)
    ensures TexelIndex(uv, w, h) == TexelIndex(UV(Clamp01(uv.u), Clamp01(uv.v)), w, h)
    ensures uv.u < 0.0 ==> TexelIndex(uv, w, h) == TexelIndex(uv.(u := 0.0), w, h)
    ensures uv.u > 1.0 ==> TexelIndex(uv, w, h) == TexelIndex(uv.(u := 1.0), w, h)
    ensures uv.v < 0.0 ==> TexelIndex(uv, w, h) == TexelIndex(uv.(v := 0.0), w, h)
    ensures uv.v > 1.0 ==> TexelIndex(uv, w, h) == TexelIndex(uv.(v := 1.0), w, h)
  {
    assert Clamp01(Clamp01(uv.u)) == Clamp01(uv.u) && Clamp01(Clamp01(uv.v)) == Clamp01(uv.v);
  }

  /** Below 1 on both axes the index addresses a pixel of a non-empty surface. */
  lemma {:induction false} InteriorIndexInBounds(uv: UV, w: int, h: int)
    requires 0 < w && 0 < h
    requires uv.u < 1.0 && uv.v < 1.0
    ensures Column(uv, w) < w && Row(uv, h) < h
    ensures 0 <= TexelIndex(uv, w, h) < w * h
  {
    ColumnRowBounds(uv, w, h);
    var row, col := Row(uv, h), Column(uv, w);
    assert row * w <= (h - 1) * w by { MulMonotone(row, h - 1, w); }
  }

  /**
   * At v = 1 the index is at least w * h, past the last pixel; at u = v = 1 it is
   * exactly w * h + w. At u = 1 alone the column is w, which is column 0 of the next row.
   */
  lemma EdgeIndexOverruns(uv: UV, w: int, h: int)
    requires 0 < w && 0 < h
    ensures uv.u >= 1.0 ==> Column(uv, w) == w
    ensures uv.v >= 1.0 ==> TexelIndex(uv, w, h) >= w * h
    ensures uv.u >= 1.0 && uv.v >= 1.0 ==> TexelIndex(uv, w, h) == w * h + w
  {
    ColumnRowBounds(uv, w, h);
  }

  /** One channel byte scaled to [0, 1] by `/ 255`. */
  function Channel(b: Byte): (c: real)
    ensures 0.0 <= c <= 1.0
    ensures c * 255.0 == b as real
  {
    b as real / 255.0
  }

  function ToColor(p: RGB8): (c: ColorRGB)
    ensures InUnitRange(c)
  {
    ColorRGB(Channel(p.r), Channel(p.g), Channel(p.b))
  }

  function Unpack(getRGB: bv32 -> RGB8, pixel: bv32): RGB8 {
    getRGB(pixel)
  }

  /**
   * `Texture::Sample` as written. `None` stands for the read past the end of the
   * pixel array that the source performs when the index is out of range.
   */
  function SampleAsWritten(s: Surface, uv: UV, getRGB: bv32 -> RGB8): (r: Option<ColorRGB>)
    requires ValidSurface(s)
    ensures r.None? <==> TexelIndex(uv, s.w, s.h) >= s.w * s.h
    ensures r.Some? ==> InUnitRange(r.value)
    ensures r.Some? ==> r.value == ToColor(Unpack(getRGB, s.pixels[TexelIndex(uv, s.w, s.h)]))
  {
    var index := TexelIndex(uv, s.w, s.h);
    if index < |s.pixels| then Some(ToColor(Unpack(getRGB, s.pixels[index]))) else None
  }

  /** A u and v of 1 with a non-empty surface is a read past the end of the pixels. */
  lemma SampleAtCornerOverruns(s: Surface, getRGB: bv32 -> RGB8)
    requires ValidSurface(s) && 0 < s.w && 0 < s.h
    ensures SampleAsWritten(s, UV(1.0, 1.0), getRGB) == None
  {
    EdgeIndexOverruns(UV(1.0, 1.0), s.w, s.h);
  }

  /** The corrected index: column and row held to the last texel (clamp to edge). */
  function EdgeClampedIndex(uv: UV, w: int, h: int): (i: int)
    requires 0 < w && 0 < h
    ensures 0 <= i < w * h
    ensures uv.u < 1.0 && uv.v < 1.0 ==> i == TexelIndex(uv, w, h)
    ensures Clamp01(uv.u) == 1.0 && Clamp01(uv.v) < 1.0 ==> i == Row(uv, h) * w + (w - 1)
    ensures Clamp01(uv.u) < 1.0 && Clamp01(uv.v) == 1.0 ==> i == (h - 1) * w + Column(uv, w)
    ensures Clamp01(uv.u) == 1.0 && Clamp01(uv.v) == 1.0 ==> i == w * h - 1
  {
    ColumnRowBounds(uv, w, h);
    var col := if Column(uv, w) < w then Column(uv, w) else w - 1;
    var row := if Row(uv, h) < h then Row(uv, h) else h - 1;
    assert row * w <= (h - 1) * w by { MulMonotone(row, h - 1, w); }
    row * w + col
  }

  /**
   * `Texture::Sample` with the edge clamped: every UV of a non-empty surface
   * reads a pixel, below 1 on both axes it reads the same pixel as the source,
   * and at the edges it reads the last column, the last row, or the last pixel.
   */
  function Sample(s: Surface, uv: UV, getRGB: bv32 -> RGB8): (r: Option<ColorRGB>)
    requires ValidSurface(s)
    ensures r.Some? <==> 0 < s.w && 0 < s.h
    ensures r.Some? ==> InUnitRange(r.value)
    ensures r.Some? && uv.u < 1.0 && uv.v < 1.0 ==> r == SampleAsWritten(s, uv, getRGB)
    ensures r.Some? ==> r.value == ToColor(Unpack(getRGB, s.pixels[EdgeClampedIndex(uv, s.w, s.h)]))
    ensures r.Some? && Clamp01(uv.u) == 1.0 && Clamp01(uv.v) == 1.0 ==>
      r.value == ToColor(Unpack(getRGB, s.pixels[|s.pixels| - 1]))
  {
    if s.w == 0 || s.h == 0 then None
    else Some(ToColor(Unpack(getRGB, s.pixels[EdgeClampedIndex(uv, s.w, s.h)])))
  }
}
