/** A decoded RGB frame, the crop applied to it and the per-channel statistics taken over
    its pixels. The frame is what PIL hands back after `convert("RGB")`: rows of pixels of
    equal width, each channel a byte. */
module Frames {

  type Byte = x: int | 0 <= x < 256

  datatype Pixel = Pixel(r: Byte, g: Byte, b: Byte)

  datatype Channel = Red | Green | Blue

  function Component(p: Pixel, ch: Channel): Byte {
    match ch
    case Red => p.r
    case Green => p.g
    case Blue => p.b
  }

  /** Rows of pixels, top row first; `width` is the image width even when there are no rows. */
  datatype Raster = Raster(width: nat, rows: seq<seq<Pixel>>)

  predicate Rectangular(f: Raster) {
    forall y | 0 <= y < |f.rows| :: |f.rows[y]| == f.width
  }

  type Frame = f: Raster | Rectangular(f) witness Raster(0, [])

  function Height(f: Frame): nat {
    |f.rows|
  }

  /** A crop box `(left, upper, right, lower)`; right and lower are exclusive. */
  datatype Rect = Rect(x0: int, y0: int, x1: int, y1: int)

  /** The box is non-empty and lies within the frame. */
  predicate Inside(c: Rect, f: Frame) {
    0 <= c.x0 < c.x1 <= f.width && 0 <= c.y0 < c.y1 <= Height(f)
  }

  /** `img.crop(box)` for a box inside the frame. */
  function Crop(f: Frame, c: Rect): (g: Frame)
    requires Inside(c, f)
    ensures g.width == c.x1 - c.x0 && Height(g) == c.y1 - c.y0
    ensures forall y, x | 0 <= y < Height(g) && 0 <= x < g.width :: g.rows[y][x] == f.rows[c.y0 + y][c.x0 + x]
  {
    Raster(c.x1 - c.x0, seq(c.y1 - c.y0, y requires 0 <= y < c.y1 - c.y0 => f.rows[c.y0 + y][c.x0..c.x1]))
  }

  /** `list(img.getdata())`: all pixels in row-major order. */
  function Pixels(rows: seq<seq<Pixel>>): seq<Pixel> {
    if |rows| == 0 then [] else rows[0] + Pixels(rows[1..])
  }

  lemma {:induction false} PixelCount(rows: seq<seq<Pixel>>, w: nat)
    requires forall y | 0 <= y < |rows| :: |rows[y]| == w
    ensures |Pixels(rows)| == w * |rows|
  {
    if |rows| > 0 {
      PixelCount(rows[1..], w);
    }
  }

  /** `sum(pixel[k] for pixel in pixels)` for the channel `ch`. */
  function Sum(ps: seq<Pixel>, ch: Channel): int {
    if |ps| == 0 then 0 else Component(ps[0], ch) + Sum(ps[1..], ch)
  }

  lemma {:induction false} SumBounds(ps: seq<Pixel>, ch: Channel)
    ensures 0 <= Sum(ps, ch) <= 255 * |ps|
  {
    if |ps| > 0 {
      SumBounds(ps[1..], ch);
    }
  }

  lemma QuotientBounds(s: real, n: real, k: real)
    requires 0.0 < n && 0.0 <= s <= k * n
    ensures 0.0 <= s / n <= k
  {
    var q := s / n;
    assert s == q * n;
    if q > k {
      assert q * n > k * n;
    }
  }

  /** `total / total_pixels` for one channel: the average channel value, a float in [0, 255]. */
  function Mean(ps: seq<Pixel>, ch: Channel): (m: real)
    requires 0 < |ps|
    ensures 0.0 <= m <= 255.0
  {
    SumBounds(ps, ch);
    QuotientBounds(Sum(ps, ch) as real, |ps| as real, 255.0);
    Sum(ps, ch) as real / |ps| as real
  }

  /** Every pixel of the sequence is `c`. */
  predicate Uniform(ps: seq<Pixel>, c: Pixel) {
    forall i | 0 <= i < |ps| :: ps[i] == c
  }

  /** Every pixel of the frame is `c`: a solid-colour image. */
  predicate Solid(f: Frame, c: Pixel) {
    forall y, x | 0 <= y < Height(f) && 0 <= x < f.width :: f.rows[y][x] == c
  }

  lemma {:induction false} SolidPixels(rows: seq<seq<Pixel>>, c: Pixel)
    requires forall y, x | 0 <= y < |rows| && 0 <= x < |rows[y]| :: rows[y][x] == c
    ensures Uniform(Pixels(rows), c)
  {
    if |rows| > 0 {
      SolidPixels(rows[1..], c);
    }
  }

  lemma {:induction false} UniformSum(ps: seq<Pixel>, c: Pixel, ch: Channel)
    requires Uniform(ps, c)
    ensures Sum(ps, ch) == |ps| * Component(c, ch)
  {
    if |ps| > 0 {
      UniformSum(ps[1..], c, ch);
    }
  }

  /** The mean of a solid colour is that colour. */
  lemma UniformMean(ps: seq<Pixel>, c: Pixel, ch: Channel)
    requires 0 < |ps| && Uniform(ps, c)
    ensures Mean(ps, ch) == Component(c, ch) as real
  {
    UniformSum(ps, c, ch);
    var n, v := |ps| as real, Component(c, ch) as real;
    var q := Sum(ps, ch) as real / n;
    assert q * n == v * n;
  }

  /** Any crop of a solid-colour frame is solid in the same colour. */
  lemma CropOfSolid(f: Frame, c: Pixel, box: Rect)
    requires Inside(box, f) && Solid(f, c)
    ensures Solid(Crop(f, box), c)
  {
  }

  /** A solid frame lists only its colour. */
  lemma SolidFramePixels(f: Frame, c: Pixel)
    requires Solid(f, c)
    ensures Uniform(Pixels(f.rows), c)
  {
    SolidPixels(f.rows, c);
  }
}
