/** Colour brightness of a stored hex colour, as the theme computes it to choose
    a light or a dark contrast palette.

    The string functions follow PHP literally on ASCII values (PHP slices
    bytes, these functions slice characters): every '#' is removed wherever it
    stands, the red, green and blue parts are the two-character slices at
    offsets 0, 2 and 4 (a slice past the end of the string is empty), and each
    slice is read as hexadecimal, skipping characters that are not hex digits
    (an empty slice reads as 0). For a colour of six hex digits this is the
    usual byte-pair reading; for a three-digit shorthand such as "#fff" it is
    not (see ThreeDigitShorthand and ShorthandIsDark). */
module ColorBrightness {

  /** The brightness threshold: above it a colour is light, at or below it dark. */
  const Threshold: real := 149.0

  // ---------------------------------------------------------------- strings

  /** The string with every '#' removed (PHP `str_replace('#', '', s)`). */
  function StripHashes(s: string): (r: string)
    ensures '#' !in r
    ensures forall c :: c in r <==> c in s && c != '#'
    ensures |r| <= |s|
    ensures '#' !in s ==> r == s
  {
    if s == [] then []
    else if s[0] == '#' then StripHashes(s[1..])
    else [s[0]] + StripHashes(s[1..])
  }

  /** Removing the hashes a second time changes nothing. */
  lemma {:induction false} StripHashesIdempotent(s: string)
    ensures StripHashes(StripHashes(s)) == StripHashes(s)
  {
    if s != [] {
      StripHashesIdempotent(s[1..]);
    }
  }

  /** Removing hashes works piece by piece, so the other characters keep
      their order and their number. */
  lemma {:induction false} StripHashesAppend(a: string, b: string)
    ensures StripHashes(a + b) == StripHashes(a) + StripHashes(b)
  {
    if a == [] {
      assert a + b == b;
    } else {
      assert (a + b)[1..] == a[1..] + b;
      StripHashesAppend(a[1..], b);
    }
  }

  function Min(a: int, b: int): int { if a <= b then a else b }

  /** PHP `substr(s, start, length)` for a non-negative start and length: the
      characters from `start` on, at most `length` of them, and the empty string
      when `start` is at or past the end. */
  function Substr(s: string, start: nat, length: nat): (r: string)
    ensures |r| == if start >= |s| then 0 else Min(length, |s| - start)
    ensures forall i :: 0 <= i < |r| ==> r[i] == s[start + i]
  {
    if start >= |s| then "" else s[start..start + Min(length, |s| - start)]
  }

  // ---------------------------------------------------------------- hexdec

  predicate IsHexDigit(c: char) {
    '0' <= c <= '9' || 'a' <= c <= 'f' || 'A' <= c <= 'F'
  }

  /** The value of one hex digit. */
  function HexDigitValue(c: char): (v: nat)
    requires IsHexDigit(c)
    ensures v < 16
  {
    if '0' <= c <= '9' then (c - '0') as nat
    else if 'a' <= c <= 'f' then (c - 'a') as nat + 10
    else (c - 'A') as nat + 10
  }

  function Pow16(n: nat): (p: nat)
    ensures p >= 1
  {
    if n == 0 then 1 else 16 * Pow16(n - 1)
  }

  /** PHP `hexdec(s)`: the digits of `s` read in base 16, ignoring every
      character that is not a hex digit; a string without hex digits reads as 0. */
  function HexDec(s: string): (r: nat)
    ensures r < Pow16(|s|)
    ensures (forall i :: 0 <= i < |s| ==> !IsHexDigit(s[i])) ==> r == 0
  {
    if s == [] then 0
    else
      var init, last := s[..|s| - 1], s[|s| - 1];
      assert forall i :: 0 <= i < |init| ==> init[i] == s[i];
      if IsHexDigit(last) then 16 * HexDec(init) + HexDigitValue(last)
      else HexDec(init)
  }

  /** A pair of hex digits reads as the byte they spell. */
  lemma HexDecPair(a: char, b: char)
    requires IsHexDigit(a) && IsHexDigit(b)
    ensures HexDec([a, b]) == 16 * HexDigitValue(a) + HexDigitValue(b)
  {
    assert [a, b][..1] == [a];
    assert [a][..0] == [];
  }

  /** The byte spelled by two hex digits. */
  function HexByte(a: char, b: char): (v: nat)
    requires IsHexDigit(a) && IsHexDigit(b)
    ensures v <= 255
  {
    16 * HexDigitValue(a) + HexDigitValue(b)
  }

  // ---------------------------------------------------------------- brightness

  /** Colour component `i` (0 red, 1 green, 2 blue): the hex value of the two
      characters at offset 2 * i once the hashes are removed. */
  function Component(hex: string, i: nat): (v: nat)
    requires i < 3
    ensures v <= 255
  {
    var slice := Substr(StripHashes(hex), 2 * i, 2);
    assert Pow16(|slice|) <= 256 by {
      assert Pow16(0) == 1 && Pow16(1) == 16 && Pow16(2) == 256;
    }
    HexDec(slice)
  }

  function Red(hex: string): nat { Component(hex, 0) }
  function Green(hex: string): nat { Component(hex, 1) }
  function Blue(hex: string): nat { Component(hex, 2) }

  /** The brightness formula scaled by 1000, so that it stays an integer. */
  function WeightedSum(hex: string): (w: nat)
    ensures w <= 255 * 1000
  {
    Red(hex) * 299 + Green(hex) * 587 + Blue(hex) * 114
  }

  /** `get_color_brightness`: the weighted sum divided by 1000. PHP's `/` on
      two integers gives an integer when the quotient is exact and a float
      otherwise; both are modelled by the exact quotient, a real. */
  function Brightness(hex: string): (b: real)
    ensures 0.0 <= b <= 255.0
  {
    WeightedSum(hex) as real / 1000.0
  }

  /** `is_color_light`: brightness above 149, decided on the integer sum. */
  predicate IsColorLight(hex: string)
    ensures IsColorLight(hex) <==> WeightedSum(hex) > 149000
  {
    Brightness(hex) > Threshold
  }

  /** `is_color_dark`: brightness 149 or below, decided on the integer sum. */
  predicate IsColorDark(hex: string)
    ensures IsColorDark(hex) <==> WeightedSum(hex) <= 149000
  {
    Brightness(hex) <= Threshold
  }

  // ---------------------------------------------------------------- properties

  /** Every colour is exactly one of light and dark. */
  lemma LightDarkPartition(hex: string)
    ensures IsColorLight(hex) <==> !IsColorDark(hex)
  {
  }

  /** Hashes anywhere in the value are ignored. */
  lemma {:induction false} HashesIgnored(hex: string)
    ensures Brightness(StripHashes(hex)) == Brightness(hex)
    ensures IsColorLight(StripHashes(hex)) == IsColorLight(hex)
  {
    StripHashesIdempotent(hex);
  }

  predicate IsSixHexDigits(s: string) {
    |s| == 6 && forall i :: 0 <= i < 6 ==> IsHexDigit(s[i])
  }

  /** For a colour that is six hex digits once its hashes are removed, the
      components are its three byte pairs and the brightness is the weighted
      sum of those bytes divided by 1000. */
  lemma SixDigitComponents(hex: string)
    requires IsSixHexDigits(StripHashes(hex))
    ensures var s := StripHashes(hex);
      && Red(hex) == HexByte(s[0], s[1])
      && Green(hex) == HexByte(s[2], s[3])
      && Blue(hex) == HexByte(s[4], s[5])
      && Brightness(hex)
         == (HexByte(s[0], s[1]) * 299 + HexByte(s[2], s[3]) * 587 + HexByte(s[4], s[5]) * 114) as real / 1000.0
  {
    var s := StripHashes(hex);
    assert Substr(s, 0, 2) == [s[0], s[1]];
    assert Substr(s, 2, 2) == [s[2], s[3]];
    assert Substr(s, 4, 2) == [s[4], s[5]];
    HexDecPair(s[0], s[1]);
    HexDecPair(s[2], s[3]);
    HexDecPair(s[4], s[5]);
  }

  /** A '#' followed by six hex digits has those digits as its components. */
  lemma HashSixDigits(hex: string)
    requires |hex| == 7 && hex[0] == '#' && IsSixHexDigits(hex[1..])
    ensures StripHashes(hex) == hex[1..]
    ensures Red(hex) == HexByte(hex[1], hex[2])
    ensures Green(hex) == HexByte(hex[3], hex[4])
    ensures Blue(hex) == HexByte(hex[5], hex[6])
  {
    assert '#' !in hex[1..];
    SixDigitComponents(hex);
  }

  /** A grey (three equal components) has that component as its brightness. */
  lemma GreyBrightness(hex: string, v: nat)
    requires Red(hex) == v && Green(hex) == v && Blue(hex) == v
    ensures WeightedSum(hex) == 1000 * v
    ensures Brightness(hex) == v as real
  {
  }

  /** A '#' and one byte pair written three times is a grey of that byte. */
  lemma HashGrey(a: char, b: char)
    requires IsHexDigit(a) && IsHexDigit(b)
    ensures WeightedSum(['#', a, b, a, b, a, b]) == 1000 * HexByte(a, b)
    ensures Brightness(['#', a, b, a, b, a, b]) == HexByte(a, b) as real
  {
    var hex := ['#', a, b, a, b, a, b];
    assert hex[1..] == [a, b, a, b, a, b];
    HashSixDigits(hex);
    GreyBrightness(hex, HexByte(a, b));
  }

  /** Brightness exactly 149 counts as dark. */
  lemma DarkAtThreshold()
    ensures Brightness("#959595") == 149.0 && IsColorDark("#959595")
  {
    assert HexByte('9', '5') == 149;
    HashGrey('9', '5');
  }

  /** Brightness 150 is light. */
  lemma LightAboveThreshold()
    ensures Brightness("#969696") == 150.0 && IsColorLight("#969696")
  {
    assert HexByte('9', '6') == 150;
    HashGrey('9', '6');
  }

  /** Upper- and lower-case hex digits give the same brightness: white is 255
      either way. */
  lemma WhiteInEitherCase()
    ensures Brightness("#FFFFFF") == Brightness("#ffffff") == 255.0
    ensures IsColorLight("#ffffff")
  {
    HashGrey('F', 'F');
    HashGrey('f', 'f');
  }

  /** Black has brightness 0 and is dark. */
  lemma BlackIsDark()
    ensures Brightness("#000000") == 0.0 && IsColorDark("#000000")
  {
    HashGrey('0', '0');
  }

  /** Under the literal reading a three-digit shorthand "#xyz" is not
      expanded: red is the byte "xy", green the single digit z, and blue 0
      (the slice at offset 4 is empty). */
  lemma ThreeDigitShorthand(x: char, y: char, z: char)
    requires IsHexDigit(x) && IsHexDigit(y) && IsHexDigit(z)
    ensures Red(['#', x, y, z]) == HexByte(x, y)
    ensures Green(['#', x, y, z]) == HexDigitValue(z)
    ensures Blue(['#', x, y, z]) == 0
  {
    var s := StripHashes(['#', x, y, z]);
    assert s == [x, y, z] by {
      assert ['#', x, y, z][1..] == [x, y, z];
      assert '#' !in [x, y, z];
    }
    assert Substr(s, 0, 2) == [x, y];
    HexDecPair(x, y);
    assert Substr(s, 2, 2) == [z];
    assert [z][..0] == [];
    assert Substr(s, 4, 2) == "";
  }

  /** Hence every three-digit shorthand is classed dark, whatever colour it
      spells: its weighted sum is at most 255 * 299 + 15 * 587 = 85050. */
  lemma ShorthandIsDark(x: char, y: char, z: char)
    requires IsHexDigit(x) && IsHexDigit(y) && IsHexDigit(z)
    ensures WeightedSum(['#', x, y, z]) <= 85050
    ensures IsColorDark(['#', x, y, z]) && !IsColorLight(['#', x, y, z])
  {
    ThreeDigitShorthand(x, y, z);
  }

  /** So the shorthand "#fff" is red 0xff, green 0xf and blue 0, and is
      classed dark. */
  lemma ShorthandWhiteIsDark()
    ensures Red("#fff") == 255 && Green("#fff") == 15 && Blue("#fff") == 0
    ensures WeightedSum("#fff") == 85050 && IsColorDark("#fff")
  {
    ThreeDigitShorthand('f', 'f', 'f');
  }
}
