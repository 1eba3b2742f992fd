/** The arithmetic of one analysis pass: channel means, BT.709 brightness, the two linear
    calibrations and the "r, g, b" label. Shared by the current and the legacy analyser. */
module Analysis {
  import opened Wrappers
  import opened Frames
  import opened Numeric
  import Decimal
  import Text

  /** Luma weights of ITU-R BT.709-6, section 3.2 ("Derivation of luminance signal"). */
  const KR: real := 0.2126
  const KG: real := 0.7152
  const KB: real := 0.0722

  /** Average red, green and blue of a pixel region, as floats. */
  datatype Means = Means(r: real, g: real, b: real)

  predicate InGamut(m: Means) {
    0.0 <= m.r <= 255.0 && 0.0 <= m.g <= 255.0 && 0.0 <= m.b <= 255.0
  }

  /** `avg_r, avg_g, avg_b` over the pixels of the (possibly cropped) image. */
  function MeanColour(ps: seq<Pixel>): (m: Means)
    requires 0 < |ps|
    ensures InGamut(m)
  {
    Means(Mean(ps, Red), Mean(ps, Green), Mean(ps, Blue))
  }

  /** For a single-colour region the means are exactly that colour. */
  lemma UniformMeanColour(ps: seq<Pixel>, c: Pixel)
    requires 0 < |ps| && Uniform(ps, c)
    ensures MeanColour(ps) == Means(c.r as real, c.g as real, c.b as real)
  {
    UniformMean(ps, c, Red);
    UniformMean(ps, c, Green);
    UniformMean(ps, c, Blue);
  }

  /** `brightness_percent`: the BT.709 luma of the means, as a percentage of full scale. */
  function BrightnessPercent(m: Means): (p: real)
    ensures InGamut(m) ==> 0.0 <= p <= 100.0
    ensures m.r == m.g == m.b ==> p == m.r / 255.0 * 100.0
  {
    (KR * m.r + KG * m.g + KB * m.b) / 255.0 * 100.0
  }

  /** The brightness calibration: when enabled with `lo < hi`, `[lo, hi]` is stretched
      linearly onto `[0, 100]` and the result clamped; otherwise the value passes through. */
  function AdjustBrightness(p: real, enabled: bool, lo: int, hi: int): (q: real)
    ensures !enabled || hi - lo <= 0 ==> q == p
    ensures enabled && 0 < hi - lo ==> 0.0 <= q <= 100.0
  {
    if enabled then
      var span := hi - lo;
      if span > 0 then Clamp((p - lo as real) / span as real * 100.0, 0.0, 100.0) else p
    else p
  }

  lemma DivideMonotone(a: real, b: real, d: real)
    requires a <= b && 0.0 < d
    ensures a / d <= b / d
  {
    var qa, qb := a / d, b / d;
    assert qa * d == a && qb * d == b;
  }

  lemma AdjustBrightnessMonotone(p: real, p': real, lo: int, hi: int)
    requires p <= p' && lo < hi
    ensures AdjustBrightness(p, true, lo, hi) <= AdjustBrightness(p', true, lo, hi)
  {
    DivideMonotone(p - lo as real, p' - lo as real, (hi - lo) as real);
  }

  /** With `lo < hi`: `lo` maps to 0, `hi` to 100, anything below `lo` to 0, anything above
      `hi` to 100, and values in between by the linear formula. */
  lemma AdjustBrightnessCalibrates(p: real, lo: int, hi: int)
    requires lo < hi
    ensures AdjustBrightness(lo as real, true, lo, hi) == 0.0
    ensures AdjustBrightness(hi as real, true, lo, hi) == 100.0
    ensures p <= lo as real ==> AdjustBrightness(p, true, lo, hi) == 0.0
    ensures hi as real <= p ==> AdjustBrightness(p, true, lo, hi) == 100.0
    ensures lo as real <= p <= hi as real ==> AdjustBrightness(p, true, lo, hi) == (p - lo as real) / (hi - lo) as real * 100.0
  {
    var d := (hi - lo) as real;
    assert (hi as real - lo as real) / d == 1.0;
    if p <= lo as real {
      AdjustBrightnessMonotone(p, lo as real, lo, hi);
    }
    if hi as real <= p {
      AdjustBrightnessMonotone(hi as real, p, lo, hi);
    }
    if lo as real <= p <= hi as real {
      DivideMonotone(0.0, p - lo as real, d);
      DivideMonotone(p - lo as real, d, d);
    }
  }

  /** The calibration `[0, 100]` leaves every percentage unchanged. */
  lemma AdjustBrightnessNeutral(p: real)
    requires 0.0 <= p <= 100.0
    ensures AdjustBrightness(p, true, 0, 100) == p
  {
  }

  /** `scale(v, vmin, vmax)`: stretch `[vmin, vmax]` onto `[0, 255]`, truncate and clamp;
      for an empty span just truncate. */
  function Scale(v: real, lo: int, hi: int): (n: int)
    ensures hi != lo ==> 0 <= n <= 255
    ensures hi == lo && 0.0 <= v ==> n as real <= v < n as real + 1.0
  {
    var span := hi - lo;
    if span != 0 then ClampInt(Trunc((v - lo as real) / span as real * 255.0), 0, 255) else Trunc(v)
  }

  /** A mean colour value stays a byte after scaling, whatever the range. */
  lemma ScaleInGamut(v: real, lo: int, hi: int)
    requires 0.0 <= v <= 255.0
    ensures 0 <= Scale(v, lo, hi) <= 255
  {
  }

  lemma ScaleMonotone(v: real, w: real, lo: int, hi: int)
    requires v <= w && lo < hi
    ensures Scale(v, lo, hi) <= Scale(w, lo, hi)
  {
    DivideMonotone(v - lo as real, w - lo as real, (hi - lo) as real);
    TruncMonotone((v - lo as real) / (hi - lo) as real * 255.0, (w - lo as real) / (hi - lo) as real * 255.0);
  }

  /** With `lo < hi`: values at or below `lo` map to 0, values at or above `hi` to 255. */
  lemma ScaleCalibrates(v: real, lo: int, hi: int)
    requires lo < hi
    ensures v <= lo as real ==> Scale(v, lo, hi) == 0
    ensures hi as real <= v ==> Scale(v, lo, hi) == 255
  {
    var d := (hi - lo) as real;
    if v <= lo as real {
      DivideMonotone(v - lo as real, 0.0, d);
    }
    if hi as real <= v {
      var q := (v - lo as real) / d;
      DivideMonotone(d, v - lo as real, d);
      assert 1.0 <= q;
      assert 255.0 <= q * 255.0;
    }
  }

  /** Between the bounds the calibration is linear: the channel is the stretched value with
      its fraction dropped. */
  lemma ScaleLinear(v: real, lo: int, hi: int)
    requires lo < hi && lo as real <= v <= hi as real
    ensures var x := (v - lo as real) / (hi - lo) as real * 255.0;
      Scale(v, lo, hi) as real <= x < Scale(v, lo, hi) as real + 1.0
  {
  }

  /** The range `[0, 255]` only truncates. */
  lemma ScaleNeutral(v: real)
    requires 0.0 <= v <= 255.0
    ensures Scale(v, 0, 255) == Trunc(v)
  {
  }

  /** `f"{r}, {g}, {b}"`. */
  function RgbLabel(r: int, g: int, b: int): string {
    Decimal.IntToString(r) + ", " + Decimal.IntToString(g) + ", " + Decimal.IntToString(b)
  }

  /** Reads a label of the form "r, g, b" back into its three integers. */
  function ParseRgbLabel(s: string): Option<(int, int, int)> {
    var parts := Text.SplitOn(s, ',');
    if |parts| == 3 && Text.StartsWith(parts[1], " ") && Text.StartsWith(parts[2], " ") then
      match (Decimal.ParseInt(parts[0]), Decimal.ParseInt(parts[1][1..]), Decimal.ParseInt(parts[2][1..]))
      case (Some(r), Some(g), Some(b)) => Some((r, g, b))
      case _ => None
    else None
  }

  lemma NoCommaInNumber(i: int)
    ensures ',' !in Decimal.IntToString(i)
  {
  }

  /** The label names exactly the three channel values it was built from. */
  lemma RgbLabelRoundTrip(r: int, g: int, b: int)
    ensures ParseRgbLabel(RgbLabel(r, g, b)) == Some((r, g, b))
  {
    var sr, sg, sb := Decimal.IntToString(r), Decimal.IntToString(g), Decimal.IntToString(b);
    NoCommaInNumber(r);
    NoCommaInNumber(g);
    NoCommaInNumber(b);
    var tail2 := " " + sb;
    var tail1 := " " + sg + [','] + tail2;
    assert RgbLabel(r, g, b) == sr + [','] + tail1;
    Text.SplitOnFirstSeparator(sr, ',', tail1);
    assert ',' !in " " + sg;
    Text.SplitOnFirstSeparator(" " + sg, ',', tail2);
    assert ',' !in tail2;
    Text.SplitOnNoSeparator(tail2, ',');
    var parts := Text.SplitOn(RgbLabel(r, g, b), ',');
    assert parts == [sr, " " + sg, tail2];
    assert parts[1][1..] == sg && parts[2][1..] == sb;
    Decimal.IntToStringRoundTrip(r);
    Decimal.IntToStringRoundTrip(g);
    Decimal.IntToStringRoundTrip(b);
  }
}
