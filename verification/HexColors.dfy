/** From the text of a colour to the integers that the storefront's tokens hold. */
module HexColors {
  import opened Hsl
  import opened Strings

  datatype Parsed = Ok(triplet: Triplet) | ValueError

  predicate IsHash(c: char) {
    c == '#'
  }

  function Digits(text: string): string {
    LStrip(Strip(text), IsHash)
  }

  function Doubled(h: string): string {
    if |h| == 3 then [h[0], h[0], h[1], h[1], h[2], h[2]] else h
  }

  predicate IsHex(c: char) {
    '0' <= c <= '9' || 'a' <= c <= 'f' || 'A' <= c <= 'F'
  }

  function HexValue(c: char): (n: nat)
    requires IsHex(c)
    ensures n < 16
  {
    if c <= '9' then c as int - '0' as int
    else if c <= 'F' then c as int - 'A' as int + 10
    else c as int - 'a' as int + 10
  }

  predicate WellFormed(h: string) {
    |h| == 6 && forall i | 0 <= i < 6 :: IsHex(h[i])
  }

  function ByteAt(h: string, i: nat): (n: nat)
    requires WellFormed(h) && i < 5
    ensures n <= 255
  {
    16 * HexValue(h[i]) + HexValue(h[i + 1])
  }

  function FromBytes(r: nat, g: nat, b: nat): (c: Rgb)
    requires r <= 255 && g <= 255 && b <= 255
    ensures ValidRgb(c)
  {
    Rgb(r as real / 255.0, g as real / 255.0, b as real / 255.0)
  }

  function HexToHsl(text: string): Parsed {
    var h := Doubled(Digits(text));
    if !WellFormed(h) then ValueError
    else Ok(Rounded(FromBytes(ByteAt(h, 0), ByteAt(h, 2), ByteAt(h, 4))))
  }

  // ----------------------------------------------------------------- writing

  const LOWER := "0123456789abcdef"
  const UPPER := "0123456789ABCDEF"

  /** The hexadecimal digit of `n`, in either case. */
  function Digit(n: nat, upper: bool): char
    requires n < 16
  {
    if upper then UPPER[n] else LOWER[n]
  }

  /** A byte in two digits, the higher first. */
  function Hex2(n: nat, upper: (bool, bool)): string
    requires n <= 255
  {
    [Digit(n / 16, upper.0), Digit(n % 16, upper.1)]
  }

  datatype Case = Case(r: (bool, bool), g: (bool, bool), b: (bool, bool))

  /** A colour in six digits, each of its own case. */
  function Hex6(r: nat, g: nat, b: nat, upper: Case): string
    requires r <= 255 && g <= 255 && b <= 255
  {
    Hex2(r, upper.r) + Hex2(g, upper.g) + Hex2(b, upper.b)
  }

  /** A colour in three digits. */
  function Hex3(r: nat, g: nat, b: nat, upper: Case): string
    requires r < 16 && g < 16 && b < 16
  {
    [Digit(r, upper.r.0), Digit(g, upper.g.0), Digit(b, upper.b.0)]
  }

  // -------------------------------------------------------------------- laws

  /** The digits are read back, in either case. */
  lemma DigitIsRead(n: nat, upper: bool)
    requires n < 16
    ensures IsHex(Digit(n, upper)) && HexValue(Digit(n, upper)) == n
    ensures Digit(n, upper) != '#' && !IsSpace(Digit(n, upper))
  {
    assert n < 10 ==> LOWER[n] as int == '0' as int + n && UPPER[n] as int == '0' as int + n;
    assert n >= 10 ==> LOWER[n] as int == 'a' as int + (n - 10) && UPPER[n] as int == 'A' as int + (n - 10);
  }

  /** And nothing else is a digit. */
  lemma DigitIsWritten(c: char) returns (upper: bool)
    requires IsHex(c)
    ensures c == Digit(HexValue(c), upper)
  {
    upper := c < 'a';
    var n := HexValue(c);
    DigitIsRead(n, upper);
  }

  lemma Hex2IsRead(h: string, i: nat, n: nat, upper: (bool, bool))
    requires n <= 255 && WellFormed(h) && i < 5
    requires [h[i], h[i + 1]] == Hex2(n, upper)
    ensures ByteAt(h, i) == n
  {
    DigitIsRead(n / 16, upper.0);
    DigitIsRead(n % 16, upper.1);
    assert h[i] == [h[i], h[i + 1]][0] && h[i + 1] == [h[i], h[i + 1]][1];
  }

  /** White space around it and `#`s before it are not part of the colour. */
  lemma DigitsAre(before: string, hashes: string, h: string, after: string)
    requires All(before, IsSpace) && All(hashes, IsHash) && All(after, IsSpace)
    requires h != [] && IsHex(h[0]) && IsHex(h[|h| - 1])
    ensures Digits(before + hashes + h + after) == h
  {
    var rest := hashes + h;
    assert rest[|rest| - 1] == h[|h| - 1];
    Regroup(before, hashes, h, after);
    StripIs(before, rest, after);
    LStripIs(hashes, h, IsHash);
  }

  lemma DigitsSplit(text: string) returns (before: string, hashes: string, after: string)
    ensures All(before, IsSpace) && All(hashes, IsHash) && All(after, IsSpace)
    ensures text == before + hashes + Digits(text) + after
  {
    before, after := StripSplits(text);
    hashes := LStripSplits(Strip(text), IsHash);
    Regroup(before, hashes, Digits(text), after);
  }

  lemma SixAreRead(r: nat, g: nat, b: nat, upper: Case)
    requires r <= 255 && g <= 255 && b <= 255
    ensures var h := Hex6(r, g, b, upper);
      && WellFormed(h) && ByteAt(h, 0) == r && ByteAt(h, 2) == g && ByteAt(h, 4) == b
  {
    var h := Hex6(r, g, b, upper);
    DigitIsRead(r / 16, upper.r.0);
    DigitIsRead(r % 16, upper.r.1);
    DigitIsRead(g / 16, upper.g.0);
    DigitIsRead(g % 16, upper.g.1);
    DigitIsRead(b / 16, upper.b.0);
    DigitIsRead(b % 16, upper.b.1);
    Hex2IsRead(h, 0, r, upper.r);
    Hex2IsRead(h, 2, g, upper.g);
    Hex2IsRead(h, 4, b, upper.b);
  }

  /** The integers are in the ranges of the documentation, and the browser's rendering of
      them is within 6/255 of every channel. */
  predicate Shows(t: Triplet, c: Rgb) {
    && 0 <= t.hue <= 360 && 0 <= t.saturation <= 100 && 0 <= t.lightness <= 100
    && NearRgb(c, Render(Read(t)), 6.0 / 255.0)
  }

  lemma RoundedShows(c: Rgb)
    requires ValidRgb(c)
    ensures Shows(Rounded(c), c)
  {
    RoundedInRange(c);
    RoundedRenderingIsNear(c);
  }

  /** The round trip: a colour written in six digits, in any mixture of cases, with any
      number of `#`s before it, none included, and white space around it, is read as its three
      bytes, and the result shows them. */
  lemma SixDigits(before: string, hashes: string, r: nat, g: nat, b: nat, upper: Case, after: string)
    requires All(before, IsSpace) && All(hashes, IsHash) && All(after, IsSpace)
    requires r <= 255 && g <= 255 && b <= 255
    ensures var c := Rgb(r as real / 255.0, g as real / 255.0, b as real / 255.0);
      && ValidRgb(c)
      && HexToHsl(before + hashes + Hex6(r, g, b, upper) + after) == Ok(Rounded(c))
      && Shows(Rounded(c), c)
  {
    SixAreRead(r, g, b, upper);
    DigitsAre(before, hashes, Hex6(r, g, b, upper), after);
    RoundedShows(FromBytes(r, g, b));
  }

  lemma TwiceTheDigit(n: nat, upper: bool)
    requires n < 16
    ensures 17 * n <= 255 && Hex2(17 * n, (upper, upper)) == [Digit(n, upper), Digit(n, upper)]
  {
    assert 17 * n / 16 == n && 17 * n % 16 == n;
  }

  lemma DoubledIsTwice(r: nat, g: nat, b: nat, upper: Case)
    requires r < 16 && g < 16 && b < 16
    requires upper.r.0 == upper.r.1 && upper.g.0 == upper.g.1 && upper.b.0 == upper.b.1
    ensures Doubled(Hex3(r, g, b, upper)) == Hex6(17 * r, 17 * g, 17 * b, upper)
  {
    TwiceTheDigit(r, upper.r.0);
    TwiceTheDigit(g, upper.g.0);
    TwiceTheDigit(b, upper.b.0);
  }

  /** Three digits mean each of them twice. */
  lemma ShortForm(before: string, hashes: string, r: nat, g: nat, b: nat, upper: Case, after: string)
    requires All(before, IsSpace) && All(hashes, IsHash) && All(after, IsSpace)
    requires r < 16 && g < 16 && b < 16
    ensures var c := Rgb((17 * r) as real / 255.0, (17 * g) as real / 255.0, (17 * b) as real / 255.0);
      && ValidRgb(c)
      && HexToHsl(before + hashes + Hex3(r, g, b, upper) + after) == Ok(Rounded(c))
      && Shows(Rounded(c), c)
  {
    var twice := Case((upper.r.0, upper.r.0), (upper.g.0, upper.g.0), (upper.b.0, upper.b.0));
    var h := Hex3(r, g, b, upper);
    DigitIsRead(r, upper.r.0);
    DigitIsRead(g, upper.g.0);
    DigitIsRead(b, upper.b.0);
    DigitsAre(before, hashes, h, after);
    SixAreRead(17 * r, 17 * g, 17 * b, twice);
    assert h == Hex3(r, g, b, twice);
    DoubledIsTwice(r, g, b, twice);
    RoundedShows(FromBytes(17 * r, 17 * g, 17 * b));
  }

  /** How a colour may be written: `short` in three digits, else in six. */
  ghost predicate Spells(text: string, before: string, hashes: string, r: nat, g: nat, b: nat, upper: Case,
                         short: bool, after: string)
  {
    && All(before, IsSpace) && All(hashes, IsHash) && All(after, IsSpace)
    && (if short then r < 16 && g < 16 && b < 16 && text == before + hashes + Hex3(r, g, b, upper) + after
        else r <= 255 && g <= 255 && b <= 255 && text == before + hashes + Hex6(r, g, b, upper) + after)
  }

  lemma ByteIsWritten(high: char, low: char) returns (n: nat, upper: (bool, bool))
    requires IsHex(high) && IsHex(low)
    ensures n <= 255 && Hex2(n, upper) == [high, low]
  {
    var first := DigitIsWritten(high);
    var second := DigitIsWritten(low);
    upper := (first, second);
    n := 16 * HexValue(high) + HexValue(low);
    assert n / 16 == HexValue(high) && n % 16 == HexValue(low);
  }

  lemma SixAreWritten(d: string) returns (r: nat, g: nat, b: nat, upper: Case)
    requires WellFormed(d)
    ensures r <= 255 && g <= 255 && b <= 255 && d == Hex6(r, g, b, upper)
  {
    var x, y, z;
    r, x := ByteIsWritten(d[0], d[1]);
    g, y := ByteIsWritten(d[2], d[3]);
    b, z := ByteIsWritten(d[4], d[5]);
    upper := Case(x, y, z);
    assert d[..2] == [d[0], d[1]] && d[2..4] == [d[2], d[3]] && d[4..] == [d[4], d[5]];
    assert d == d[..2] + d[2..4] + d[4..];
  }

  lemma ThreeAreWritten(d: string) returns (r: nat, g: nat, b: nat, upper: Case)
    requires |d| == 3 && WellFormed(Doubled(d))
    ensures r < 16 && g < 16 && b < 16 && d == Hex3(r, g, b, upper)
  {
    var h := Doubled(d);
    assert IsHex(h[0]) && IsHex(h[2]) && IsHex(h[4]);
    var x := DigitIsWritten(d[0]);
    var y := DigitIsWritten(d[1]);
    var z := DigitIsWritten(d[2]);
    r, g, b := HexValue(d[0]), HexValue(d[1]), HexValue(d[2]);
    upper := Case((x, x), (y, y), (z, z));
    assert d == [d[0], d[1], d[2]];
  }

  lemma ReadWasWritten(text: string)
    returns (before: string, hashes: string, r: nat, g: nat, b: nat, upper: Case, short: bool, after: string)
    requires WellFormed(Doubled(Digits(text)))
    ensures Spells(text, before, hashes, r, g, b, upper, short, after)
  {
    before, hashes, after := DigitsSplit(text);
    short := |Digits(text)| == 3;
    if short {
      r, g, b, upper := ThreeAreWritten(Digits(text));
    } else {
      r, g, b, upper := SixAreWritten(Digits(text));
    }
  }

  /** Only texts of these two forms are colours; any other raises. */
  lemma HexToHslIsFaithful(text: string)
    ensures HexToHsl(text).Ok? <==>
      exists before, hashes, r, g, b, upper, short, after ::
        Spells(text, before, hashes, r, g, b, upper, short, after)
  {
    if HexToHsl(text).Ok? {
      var before, hashes, r, g, b, upper, short, after := ReadWasWritten(text);
    }
    if before, hashes, r: nat, g: nat, b: nat, upper, short, after
      :| Spells(text, before, hashes, r, g, b, upper, short, after) {
      if short {
        ShortForm(before, hashes, r, g, b, upper, after);
      } else {
        SixDigits(before, hashes, r, g, b, upper, after);
      }
    }
  }
}
