/**
 Brand colours: `hex_to_hsl` against the rendering that browsers apply to its result,
 the algorithm of section 4.2.4 of CSS Color Module Level 3. Over the reals.
 */
module Hsl {
  datatype Rgb = Rgb(r: real, g: real, b: real)

  /** Hue as a fraction of a turn, saturation and lightness as fractions. */
  datatype Color = Color(h: real, s: real, l: real)

  predicate InUnit(x: real) {
    0.0 <= x <= 1.0
  }

  predicate ValidRgb(c: Rgb) {
    InUnit(c.r) && InUnit(c.g) && InUnit(c.b)
  }

  function Max2(x: real, y: real): real {
    if x < y then y else x
  }

  function Min2(x: real, y: real): real {
    if x < y then x else y
  }

  function Mx(c: Rgb): real {
    Max2(Max2(c.r, c.g), c.b)
  }

  function Mn(c: Rgb): real {
    Min2(Min2(c.r, c.g), c.b)
  }

  function Lightness(c: Rgb): real {
    (Mx(c) + Mn(c)) / 2.0
  }

  function Saturation(c: Rgb): real
    requires ValidRgb(c)
  {
    var mx, mn := Mx(c), Mn(c);
    if mx == mn then 0.0
    else if Lightness(c) > 0.5 then (mx - mn) / (2.0 - mx - mn)
    else (mx - mn) / (mx + mn)
  }

  /** The hue in sixths of a turn. */
  function Sextant(c: Rgb): real {
    var mx, mn := Mx(c), Mn(c);
    var delta := mx - mn;
    if mx == mn then 0.0
    else if mx == c.r then (c.g - c.b) / delta + if c.g < c.b then 6.0 else 0.0
    else if mx == c.g then (c.b - c.r) / delta + 2.0
    else (c.r - c.g) / delta + 4.0
  }

  function ToHsl(c: Rgb): Color
    requires ValidRgb(c)
  {
    Color(Sextant(c) / 6.0, Saturation(c), Lightness(c))
  }

  // ------------------------------------------------------------ the rendering

  function HueToRgb(m1: real, m2: real, hue: real): real {
    var h := if hue < 0.0 then hue + 1.0 else if hue > 1.0 then hue - 1.0 else hue;
    if h * 6.0 < 1.0 then m1 + (m2 - m1) * h * 6.0
    else if h * 2.0 < 1.0 then m2
    else if h * 3.0 < 2.0 then m1 + (m2 - m1) * (2.0 / 3.0 - h) * 6.0
    else m1
  }

  function M2(c: Color): real {
    if c.l <= 0.5 then c.l * (c.s + 1.0) else c.l + c.s - c.l * c.s
  }

  function Render(c: Color): Rgb {
    RenderBetween(c.l * 2.0 - M2(c), M2(c), c.h)
  }

  function RenderBetween(m1: real, m2: real, h: real): Rgb {
    Rgb(HueToRgb(m1, m2, h + 1.0 / 3.0), HueToRgb(m1, m2, h), HueToRgb(m1, m2, h - 1.0 / 3.0))
  }

  /** How far a channel is from m1 to m2 at a hue. */
  function Ramp(hue: real): real {
    var h := if hue < 0.0 then hue + 1.0 else if hue > 1.0 then hue - 1.0 else hue;
    if h * 6.0 < 1.0 then h * 6.0
    else if h * 2.0 < 1.0 then 1.0
    else if h * 3.0 < 2.0 then (2.0 / 3.0 - h) * 6.0
    else 0.0
  }

  lemma HueToRgbIsRamp(m1: real, m2: real, hue: real)
    ensures HueToRgb(m1, m2, hue) == m1 + (m2 - m1) * Ramp(hue)
  {
    var h := if hue < 0.0 then hue + 1.0 else if hue > 1.0 then hue - 1.0 else hue;
    assert (m2 - m1) * h * 6.0 == (m2 - m1) * (h * 6.0);
    assert (m2 - m1) * (2.0 / 3.0 - h) * 6.0 == (m2 - m1) * ((2.0 / 3.0 - h) * 6.0);
  }

  // ---------------------------------------------------------- exact inverse

  lemma Quotient(x: real, d: real)
    requires -d <= x <= d && d > 0.0
    ensures x / d * d == x && -1.0 <= x / d <= 1.0
    ensures x >= 0.0 <==> x / d >= 0.0
  {
  }

  lemma DarkMaximum(mx: real, mn: real)
    requires 0.0 <= mn < mx
    ensures (mx + mn) / 2.0 * ((mx - mn) / (mx + mn) + 1.0) == mx
  {
    var sum := mx + mn;
    Quotient(mx - mn, sum);
    var s := (mx - mn) / sum;
    assert sum / 2.0 * (s + 1.0) == (s * sum + sum) / 2.0;
  }

  lemma LightMaximum(mx: real, mn: real)
    requires mn < mx <= 1.0
    ensures var l, s := (mx + mn) / 2.0, (mx - mn) / (2.0 - mx - mn);
      l + s - l * s == mx
  {
    var rest := 2.0 - mx - mn;
    Quotient(mx - mn, rest);
    var l, s := (mx + mn) / 2.0, (mx - mn) / rest;
    assert s - l * s == s * (1.0 - l);
    assert 1.0 - l == rest / 2.0;
    assert s * (rest / 2.0) == s * rest / 2.0;
  }

  /** m2 and m1 are the largest and the smallest channel. */
  lemma ExtremesRecovered(c: Rgb)
    requires ValidRgb(c)
    ensures M2(ToHsl(c)) == Mx(c)
    ensures 2.0 * Lightness(c) - M2(ToHsl(c)) == Mn(c)
  {
    var mx, mn, l := Mx(c), Mn(c), Lightness(c);
    if mx == mn {
      assert l * (0.0 + 1.0) == l && l * 0.0 == 0.0;
    } else if l > 0.5 {
      LightMaximum(mx, mn);
    } else {
      DarkMaximum(mx, mn);
    }
  }

  /** A hue of `base` sixths plus (x - y)/d, times d. */
  lemma Sixths(x: real, y: real, d: real, base: real)
    requires -d <= x - y <= d && d > 0.0
    ensures var q := (x - y) / d + base;
      && (q - base) * d == x - y
      && base - 1.0 <= q <= base + 1.0
      && (x >= y <==> q >= base)
  {
    Quotient(x - y, d);
  }

  lemma Scale(d: real, q: real, base: real)
    ensures d * (q - base) == (q - base) * d
    ensures d * (base - q) == -((q - base) * d)
    ensures d * 0.0 == 0.0 && d * 1.0 == d
  {
  }

  /** The channels that a hue renders between mn and mn + d. */
  function Channels(h: real, mn: real, d: real): Rgb {
    Rgb(mn + d * Ramp(h + 1.0 / 3.0), mn + d * Ramp(h), mn + d * Ramp(h - 1.0 / 3.0))
  }

  lemma RedLargest(c: Rgb, d: real, mn: real)
    requires d > 0.0 && c.r == mn + d && mn <= c.g <= c.r && mn <= c.b <= c.r && (c.g == mn || c.b == mn)
    ensures Channels(((c.g - c.b) / d + if c.g < c.b then 6.0 else 0.0) / 6.0, mn, d) == c
  {
    var base := if c.g < c.b then 6.0 else 0.0;
    var q := (c.g - c.b) / d + base;
    Sixths(c.g, c.b, d, base);
    Scale(d, q, base);
  }

  lemma GreenLargest(c: Rgb, d: real, mn: real)
    requires d > 0.0 && c.g == mn + d && mn <= c.r <= c.g && mn <= c.b <= c.g && (c.r == mn || c.b == mn)
    ensures Channels(((c.b - c.r) / d + 2.0) / 6.0, mn, d) == c
  {
    var q := (c.b - c.r) / d + 2.0;
    Sixths(c.b, c.r, d, 2.0);
    Scale(d, q, 2.0);
  }

  lemma BlueLargest(c: Rgb, d: real, mn: real)
    requires d > 0.0 && c.b == mn + d && mn <= c.r <= c.b && mn <= c.g <= c.b && (c.r == mn || c.g == mn)
    ensures Channels(((c.r - c.g) / d + 4.0) / 6.0, mn, d) == c
  {
    var q := (c.r - c.g) / d + 4.0;
    Sixths(c.r, c.g, d, 4.0);
    Scale(d, q, 4.0);
  }

  lemma ChannelsOfSextant(c: Rgb)
    requires ValidRgb(c)
    ensures Channels(Sextant(c) / 6.0, Mn(c), Mx(c) - Mn(c)) == c
  {
    var mx, mn := Mx(c), Mn(c);
    if mx == mn {
      Scale(0.0, 0.0, 0.0);
    } else if mx == c.r {
      RedLargest(c, mx - mn, mn);
    } else if mx == c.g {
      GreenLargest(c, mx - mn, mn);
    } else {
      BlueLargest(c, mx - mn, mn);
    }
  }

  lemma RenderIsChannels(h: real, mn: real, mx: real)
    ensures RenderBetween(mn, mx, h) == Channels(h, mn, mx - mn)
  {
    var r, g, b := RampedHue(mn, mx, h + 1.0 / 3.0), RampedHue(mn, mx, h), RampedHue(mn, mx, h - 1.0 / 3.0);
    assert RenderBetween(mn, mx, h) == Rgb(r, g, b);
  }

  ghost function RampedHue(m1: real, m2: real, hue: real): (x: real)
    ensures x == HueToRgb(m1, m2, hue) && x == m1 + (m2 - m1) * Ramp(hue)
  {
    HueToRgbIsRamp(m1, m2, hue);
    HueToRgb(m1, m2, hue)
  }

  /** Rendering the unrounded result gives back exactly the colour. */
  lemma ExactInverse(c: Rgb)
    requires ValidRgb(c)
    ensures Render(ToHsl(c)) == c
  {
    ExtremesRecovered(c);
    RenderIsChannels(Sextant(c) / 6.0, Mn(c), Mx(c));
    ChannelsOfSextant(c);
  }

  lemma SaturationInUnit(c: Rgb)
    requires ValidRgb(c)
    ensures InUnit(Saturation(c))
  {
    var mx, mn := Mx(c), Mn(c);
    if mx != mn {
      Quotient(mx - mn, if Lightness(c) > 0.5 then 2.0 - mx - mn else mx + mn);
    }
  }

  lemma SextantInRange(c: Rgb)
    requires ValidRgb(c)
    ensures 0.0 <= Sextant(c) <= 6.0
  {
    var d := Mx(c) - Mn(c);
    if d != 0.0 {
      if Mx(c) == c.r {
        Sixths(c.g, c.b, d, if c.g < c.b then 6.0 else 0.0);
      } else if Mx(c) == c.g {
        Sixths(c.b, c.r, d, 2.0);
      } else {
        Sixths(c.r, c.g, d, 4.0);
      }
    }
  }

  lemma HslInRange(c: Rgb)
    requires ValidRgb(c)
    ensures var hsl := ToHsl(c);
      InUnit(hsl.h) && InUnit(hsl.s) && InUnit(hsl.l)
  {
    SaturationInUnit(c);
    SextantInRange(c);
  }

  /** The hue is less than a full turn, and a grey has neither hue nor saturation. */
  lemma HueIsCanonical(c: Rgb)
    requires ValidRgb(c)
    ensures ToHsl(c).h < 1.0
    ensures c.r == c.g == c.b ==> ToHsl(c) == Color(0.0, 0.0, c.r)
  {
    var d := Mx(c) - Mn(c);
    if d != 0.0 {
      if Mx(c) == c.r {
        Sixths(c.g, c.b, d, if c.g < c.b then 6.0 else 0.0);
      } else if Mx(c) == c.g {
        Sixths(c.b, c.r, d, 2.0);
      } else {
        Sixths(c.r, c.g, d, 4.0);
      }
    }
  }

  // --------------------------------------------------------------- rounding

  /** Python's `round`: to the nearest integer, halves to the even one. */
  function Round(x: real): int {
    var f := x.Floor;
    var rest := x - f as real;
    if rest < 0.5 then f
    else if rest > 0.5 then f + 1
    else if f % 2 == 0 then f else f + 1
  }

  lemma RoundIsNear(x: real)
    ensures -0.5 <= Round(x) as real - x <= 0.5
  {
    assert (x.Floor + 1) as real == x.Floor as real + 1.0;
  }

  /** The nearest integer, and of two that are equally near the even one. */
  lemma RoundIsNearest(x: real, n: int)
    ensures n == Round(x) <==> -0.5 <= n as real - x <= 0.5 && (n as real - x in {-0.5, 0.5} ==> n % 2 == 0)
  {
    RoundIsNear(x);
    var m := Round(x);
    assert n < m ==> n as real <= m as real - 1.0;
    assert n > m ==> n as real >= m as real + 1.0;
  }

  datatype Triplet = Triplet(hue: int, saturation: int, lightness: int)

  function Rounded(c: Rgb): Triplet
    requires ValidRgb(c)
  {
    var hsl := ToHsl(c);
    Triplet(Round(hsl.h * 360.0), Round(hsl.s * 100.0), Round(hsl.l * 100.0))
  }

  function Read(t: Triplet): Color {
    Color(t.hue as real / 360.0, t.saturation as real / 100.0, t.lightness as real / 100.0)
  }

  lemma RoundedInRange(c: Rgb)
    requires ValidRgb(c)
    ensures var t := Rounded(c);
      0 <= t.hue <= 360 && 0 <= t.saturation <= 100 && 0 <= t.lightness <= 100
  {
    HslInRange(c);
    var hsl := ToHsl(c);
  }

  /** The triplet is hue in degrees, then saturation and lightness in per cent. */
  lemma TripletIsHsl(c: Rgb)
    requires ValidRgb(c)
    ensures var hsl, t := ToHsl(c), Rounded(c);
      && -0.5 <= t.hue as real - hsl.h * 360.0 <= 0.5
      && -0.5 <= t.saturation as real - hsl.s * 100.0 <= 0.5
      && -0.5 <= t.lightness as real - hsl.l * 100.0 <= 0.5
    ensures c.r == c.g == c.b ==> Rounded(c) == Triplet(0, 0, Round(c.r * 100.0))
  {
    var hsl := ToHsl(c);
    RoundIsNear(hsl.h * 360.0);
    RoundIsNear(hsl.s * 100.0);
    RoundIsNear(hsl.l * 100.0);
    HueIsCanonical(c);
  }

  /** |x - y| <= e. */
  predicate Near(x: real, y: real, e: real) {
    -e <= x - y <= e
  }

  lemma RoundedIsNear(c: Rgb)
    requires ValidRgb(c)
    ensures var a, b := ToHsl(c), Read(Rounded(c));
      && Near(a.h, b.h, 1.0 / 720.0) && Near(a.s, b.s, 0.005) && Near(a.l, b.l, 0.005)
      && InUnit(b.h) && InUnit(b.s) && InUnit(b.l)
  {
    RoundedInRange(c);
    var hsl := ToHsl(c);
    RoundIsNear(hsl.h * 360.0);
    RoundIsNear(hsl.s * 100.0);
    RoundIsNear(hsl.l * 100.0);
  }

  /** The ramp is continuous around the circle and rises or falls by six a turn. */
  lemma RampIsLipschitz(x: real, y: real)
    requires -1.0 / 3.0 <= x <= 4.0 / 3.0 && -1.0 / 3.0 <= y <= 4.0 / 3.0
    requires x <= y
    ensures Near(Ramp(x), Ramp(y), 6.0 * (y - x))
    ensures 0.0 <= Ramp(x) <= 1.0
  {
  }

  /** The distance between the extremes, as a product. */
  function Spread(l: real): real {
    if l <= 0.5 then l else 1.0 - l
  }

  lemma SpreadForm(c: Color)
    ensures M2(c) == c.l + c.s * Spread(c.l)
    ensures c.l * 2.0 - M2(c) == c.l - c.s * Spread(c.l)
  {
    assert c.l * (c.s + 1.0) == c.l + c.s * c.l;
    assert c.l + c.s - c.l * c.s == c.l + c.s * (1.0 - c.l);
  }

  lemma MulMonotone(x: real, y: real, k: real)
    requires x <= y && k >= 0.0
    ensures x * k <= y * k
  {
  }

  lemma ScaledNear(x: real, k: real, e: real, bound: real)
    requires -e <= x <= e && -bound <= k <= bound && e >= 0.0
    ensures -(e * bound) <= x * k <= e * bound
  {
    var size := if k >= 0.0 then k else -k;
    MulMonotone(x, e, size);
    MulMonotone(-e, x, size);
    MulMonotone(size, bound, e);
    assert size * e == e * size && bound * e == e * bound && -e * size == -(e * size);
    if k < 0.0 {
      assert x * k == -(x * size);
    }
  }

  lemma SpreadNear(l: real, l': real)
    requires InUnit(l) && InUnit(l') && Near(l, l', 0.005)
    ensures Near(Spread(l), Spread(l'), 0.005) && 0.0 <= Spread(l) <= 0.5
  {
  }

  lemma HalfNear(s: real, s': real, p: real, p': real)
    requires InUnit(s) && InUnit(s') && 0.0 <= p <= 0.5 && 0.0 <= p' <= 0.5
    requires Near(s, s', 0.005) && Near(p, p', 0.005)
    ensures Near(s * p, s' * p', 0.0075) && 0.0 <= s' * p' <= 0.5
  {
    ScaledNear(s - s', p, 0.005, 0.5);
    ScaledNear(p - p', s', 0.005, 1.0);
    ScaledNear(p', s', 0.5, 1.0);
    MulMonotone(0.0, s', p');
    var u, v := (s - s') * p, (p - p') * s';
    assert -0.0025 <= u <= 0.0025 && -0.005 <= v <= 0.005;
    assert u == s * p - s' * p && v == s' * p - s' * p';
    assert p' * s' == s' * p';
  }

  /** One channel, written l - a + 2 a k with a the spread times the saturation. */
  lemma ChannelNear(l: real, l': real, a: real, a': real, k: real, k': real)
    requires InUnit(k) && InUnit(k') && 0.0 <= a' <= 0.5
    requires Near(l, l', 0.005) && Near(a, a', 0.0075) && Near(k, k', 1.0 / 120.0)
    ensures Near(Mix(l, a, k), Mix(l', a', k'), 1.0 / 48.0)
  {
    ScaledNear(a - a', 2.0 * k - 1.0, 0.0075, 1.0);
    ScaledNear(k - k', 2.0 * a', 1.0 / 120.0, 1.0);
    assert (a - a') * (2.0 * k - 1.0) == 2.0 * a * k - 2.0 * a' * k - a + a';
    assert (k - k') * (2.0 * a') == 2.0 * a' * k - 2.0 * a' * k';
  }

  function Mix(l: real, a: real, k: real): real {
    l - a + 2.0 * a * k
  }

  lemma HueToRgbIsMix(l: real, a: real, hue: real)
    ensures HueToRgb(l - a, l + a, hue) == Mix(l, a, Ramp(hue))
  {
    HueToRgbIsRamp(l - a, l + a, hue);
    assert (l + a - (l - a)) * Ramp(hue) == 2.0 * a * Ramp(hue);
  }

  lemma RampsNear(h: real, h': real, shift: real)
    requires InUnit(h) && InUnit(h') && Near(h, h', 1.0 / 720.0) && -1.0 / 3.0 <= shift <= 1.0 / 3.0
    ensures Near(Ramp(h + shift), Ramp(h' + shift), 1.0 / 120.0)
    ensures InUnit(Ramp(h + shift)) && InUnit(Ramp(h' + shift))
  {
    if h <= h' {
      RampIsLipschitz(h + shift, h' + shift);
      RampIsLipschitz(h' + shift, h' + shift);
    } else {
      RampIsLipschitz(h' + shift, h + shift);
      RampIsLipschitz(h + shift, h + shift);
    }
  }

  predicate InRange(c: Color) {
    InUnit(c.h) && InUnit(c.s) && InUnit(c.l)
  }

  predicate NearColors(c: Color, d: Color) {
    Near(c.h, d.h, 1.0 / 720.0) && Near(c.s, d.s, 0.005) && Near(c.l, d.l, 0.005)
  }

  predicate NearRgb(c: Rgb, d: Rgb, e: real) {
    Near(c.r, d.r, e) && Near(c.g, d.g, e) && Near(c.b, d.b, e)
  }

  /** A colour as its lightness, half spread and the ramps of its channels. */
  lemma RenderIsMix(c: Color)
    ensures var a := c.s * Spread(c.l);
      Render(c) == Rgb(Mix(c.l, a, Ramp(c.h + 1.0 / 3.0)), Mix(c.l, a, Ramp(c.h)), Mix(c.l, a, Ramp(c.h - 1.0 / 3.0)))
  {
    var a := c.s * Spread(c.l);
    SpreadForm(c);
    HueToRgbIsMix(c.l, a, c.h + 1.0 / 3.0);
    HueToRgbIsMix(c.l, a, c.h);
    HueToRgbIsMix(c.l, a, c.h - 1.0 / 3.0);
  }

  lemma MixesNear(c: Color, d: Color, a: real, a': real, shift: real)
    requires InRange(c) && InRange(d) && NearColors(c, d)
    requires Near(a, a', 0.0075) && 0.0 <= a' <= 0.5 && -1.0 / 3.0 <= shift <= 1.0 / 3.0
    ensures Near(Mix(c.l, a, Ramp(c.h + shift)), Mix(d.l, a', Ramp(d.h + shift)), 1.0 / 48.0)
  {
    RampsNear(c.h, d.h, shift);
    ChannelNear(c.l, d.l, a, a', Ramp(c.h + shift), Ramp(d.h + shift));
  }

  lemma HalvesNear(c: Color, d: Color)
    requires InRange(c) && InRange(d) && NearColors(c, d)
    ensures Near(c.s * Spread(c.l), d.s * Spread(d.l), 0.0075) && 0.0 <= d.s * Spread(d.l) <= 0.5
  {
    SpreadNear(c.l, d.l);
    SpreadNear(d.l, c.l);
    HalfNear(c.s, d.s, Spread(c.l), Spread(d.l));
  }

  lemma RendersNear(c: Color, d: Color)
    requires InRange(c) && InRange(d) && NearColors(c, d)
    ensures NearRgb(Render(c), Render(d), 1.0 / 48.0)
  {
    var a, a' := c.s * Spread(c.l), d.s * Spread(d.l);
    HalvesNear(c, d);
    RenderIsMix(c);
    RenderIsMix(d);
    MixesNear(c, d, a, a', 1.0 / 3.0);
    MixesNear(c, d, a, a', 0.0);
    MixesNear(c, d, a, a', -1.0 / 3.0);
  }

  /** Rendering the rounded integers gives every channel within 1/48, which is less
      than 6/255, of the colour; a hue that rounds to 360 is no exception. */
  lemma RoundedRenderingIsNear(c: Rgb)
    requires ValidRgb(c)
    ensures NearRgb(c, Render(Read(Rounded(c))), 1.0 / 48.0) && 1.0 / 48.0 < 6.0 / 255.0
  {
    ExactInverse(c);
    HslInRange(c);
    RoundedIsNear(c);
    RendersNear(ToHsl(c), Read(Rounded(c)));
  }
}
