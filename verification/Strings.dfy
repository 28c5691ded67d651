/** The string operations that the modelled Python code uses, character by character. */
module Strings {
  /** White space as `str.strip` knows it. */
  predicate IsSpace(c: char) {
    var n := c as int;
    || 9 <= n <= 13 || 28 <= n <= 32 || 0x2000 <= n <= 0x200A
    || n in {0x85, 0xA0, 0x1680, 0x2028, 0x2029, 0x202F, 0x205F, 0x3000}
  }

  function LStrip(s: string, drop: char -> bool): string {
    if s != [] && drop(s[0]) then LStrip(s[1..], drop) else s
  }

  function RStrip(s: string, drop: char -> bool): string {
    if s != [] && drop(s[|s| - 1]) then RStrip(s[..|s| - 1], drop) else s
  }

  function Strip(s: string): string {
    RStrip(LStrip(s, IsSpace), IsSpace)
  }

  lemma {:induction false} LStripStops(s: string, drop: char -> bool)
    ensures LStrip(s, drop) == [] || !drop(LStrip(s, drop)[0])
    ensures s != [] && !drop(s[0]) ==> LStrip(s, drop) == s
    ensures |LStrip(s, drop)| <= |s| && LStrip(s, drop) == s[|s| - |LStrip(s, drop)|..]
  {
    if s != [] && drop(s[0]) {
      LStripStops(s[1..], drop);
      var k := |s| - |LStrip(s, drop)|;
      assert s[1..][k - 1..] == s[k..];
    }
  }

  lemma {:induction false} RStripStops(s: string, drop: char -> bool)
    ensures var r := RStrip(s, drop);
      && (r == [] || !drop(r[|r| - 1]))
      && r <= s
    ensures s != [] && !drop(s[|s| - 1]) ==> RStrip(s, drop) == s
  {
    if s != [] && drop(s[|s| - 1]) {
      RStripStops(s[..|s| - 1], drop);
    }
  }

  lemma StripIsPlain(s: string)
    requires s != [] && !IsSpace(s[0]) && !IsSpace(s[|s| - 1])
    ensures Strip(s) == s
  {
    LStripStops(s, IsSpace);
    RStripStops(s, IsSpace);
  }

  predicate All(s: string, p: char -> bool) {
    forall i | 0 <= i < |s| :: p(s[i])
  }

  /** What is stripped on the left is the longest prefix of dropped characters. */
  lemma {:induction false} LStripIs(prefix: string, rest: string, drop: char -> bool)
    requires All(prefix, drop) && (rest == [] || !drop(rest[0]))
    ensures LStrip(prefix + rest, drop) == rest
  {
    if prefix == [] {
      assert prefix + rest == rest;
    } else {
      LStripIs(prefix[1..], rest, drop);
      assert (prefix + rest)[1..] == prefix[1..] + rest;
    }
  }

  lemma {:induction false} RStripIs(rest: string, suffix: string, drop: char -> bool)
    requires All(suffix, drop) && (rest == [] || !drop(rest[|rest| - 1]))
    ensures RStrip(rest + suffix, drop) == rest
  {
    if suffix == [] {
      assert rest + suffix == rest;
    } else {
      var t := rest + suffix;
      RStripIs(rest, suffix[..|suffix| - 1], drop);
      assert t[..|t| - 1] == rest + suffix[..|suffix| - 1];
      assert t[|t| - 1] == suffix[|suffix| - 1];
    }
  }

  lemma {:induction false} LStripSplits(s: string, drop: char -> bool) returns (prefix: string)
    ensures All(prefix, drop) && s == prefix + LStrip(s, drop)
  {
    if s == [] || !drop(s[0]) {
      prefix := [];
    } else {
      var rest := LStripSplits(s[1..], drop);
      prefix := [s[0]] + rest;
      assert s == [s[0]] + s[1..];
    }
  }

  lemma {:induction false} RStripSplits(s: string, drop: char -> bool) returns (suffix: string)
    ensures All(suffix, drop) && s == RStrip(s, drop) + suffix
  {
    if s == [] || !drop(s[|s| - 1]) {
      suffix := [];
    } else {
      var last := |s| - 1;
      var rest := RStripSplits(s[..last], drop);
      suffix := rest + [s[last]];
      assert s == s[..last] + [s[last]];
    }
  }

  /** The text between the white space around it. */
  lemma StripIs(before: string, rest: string, after: string)
    requires All(before, IsSpace) && All(after, IsSpace)
    requires rest != [] && !IsSpace(rest[0]) && !IsSpace(rest[|rest| - 1])
    ensures Strip(before + rest + after) == rest
  {
    assert before + rest + after == before + (rest + after);
    LStripIs(before, rest + after, IsSpace);
    RStripIs(rest, after, IsSpace);
  }

  lemma Regroup(a: string, b: string, c: string, d: string)
    ensures a + (b + c) + d == a + b + c + d
  {
  }

  lemma StripSplits(s: string) returns (before: string, after: string)
    ensures All(before, IsSpace) && All(after, IsSpace) && s == before + Strip(s) + after
  {
    before := LStripSplits(s, IsSpace);
    after := RStripSplits(LStrip(s, IsSpace), IsSpace);
    Regroup(before, Strip(s), after, []);
  }

  /** Among the characters of ASCII, white space is what the C locale calls so and the four
      separators. */
  lemma AsciiSpaces(c: char)
    requires c as int < 128
    ensures IsSpace(c) <==> c in "\t\n\U{0b}\U{0c}\r\U{1c}\U{1d}\U{1e}\U{1f} "
  {
  }
}
