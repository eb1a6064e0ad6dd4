// The text colour codec of common/renderables/KSLVariable.kt: the setup
// constructor decodes "#rrggbb" into a libGDX Color, `serialize` encodes the
// colour back into hexadecimal text.

module Colors {
  import opened Common
  import opened Text

  /** A libGDX Color; its constructor clamps every channel into [0, 1]. */
  datatype Color = Color(r: real, g: real, b: real, a: real)

  predicate InRange(c: Color)
  {
    0.0 <= c.r <= 1.0 && 0.0 <= c.g <= 1.0 && 0.0 <= c.b <= 1.0 && 0.0 <= c.a <= 1.0
  }

  /** The colours a libGDX Color can hold. */
  type Rgba = c: Color | InRange(c) witness Color(0.0, 0.0, 0.0, 1.0)

  /** Color.BLACK and Color.WHITE. */
  const BLACK: Rgba := Color(0.0, 0.0, 0.0, 1.0)
  const WHITE: Rgba := Color(1.0, 1.0, 1.0, 1.0)

  /** The opaque colour with the three channel bytes `red`, `green`, `blue`
      (each channel stored as `byte / 255`). */
  function FromBytes(red: nat, green: nat, blue: nat): Color
  {
    Color(red as real / 255.0, green as real / 255.0, blue as real / 255.0, 1.0)
  }

  // ---------------------------------------------------------------- decode

  /** The 32 bits of a Kotlin Int, read as an unsigned number (two's
      complement for a negative value). */
  function Bits(n: int): (u: nat)
    ensures u < 0x1_0000_0000
  {
    n % 0x1_0000_0000
  }

  /** `n.and(mask).shr(shift)` for the masks 0xFF0000, 0x00FF00 and
      0x0000FF: the byte of `n` starting at bit `shift`. */
  function Red(n: int): (v: nat)
    ensures v < 256
  {
    (Bits(n) / 0x1_0000) % 0x100
  }

  function Green(n: int): (v: nat)
    ensures v < 256
  {
    (Bits(n) / 0x100) % 0x100
  }

  function Blue(n: int): (v: nat)
    ensures v < 256
  {
    Bits(n) % 0x100
  }

  /** The colour read from `text`: `#` trimmed off both ends, the first six
      characters (StringIndexOutOfBounds if there are fewer, before padEnd
      can run) parsed by `toInt(16)`, and the three bytes taken apart. A
      decoded colour always has byte channels and full alpha. */
  function DecodeColor(text: string): (r: Result<Color>)
    ensures var t := Trim(text, '#');
      && (|t| < 6 ==> r == Err(IndexOutOfBounds))
      && (|t| >= 6 ==> (r.Ok? <==> ParseHex(t[..6]).Ok?))
    ensures r.Ok? ==> InRange(r.value)
    ensures r.Ok? ==> exists red: nat, green: nat, blue: nat
      | red < 256 && green < 256 && blue < 256 :: r.value == FromBytes(red, green, blue)
  {
    var t := Trim(text, '#');
    if |t| < 6 then Err(IndexOutOfBounds)
    else
      match ParseHex(t[..6])
      case Err(e) => Err(e)
      case Ok(n) =>
        var c := FromBytes(Red(n), Green(n), Blue(n));
        assert InRange(c);
        Ok(c)
  }

  // ---------------------------------------------------------------- encode

  /** `(c * 255 + 0.5).toInt()` for a channel in [0, 1]: the nearest byte,
      halves rounded up. */
  function ChannelByte(v: real): (k: nat)
    requires 0.0 <= v <= 1.0
    ensures k < 256
    ensures k as real <= v * 255.0 + 0.5 < k as real + 1.0
  {
    (v * 255.0 + 0.5).Floor
  }

  /** `r << 16 + g << 8 + b` of the rounded channels. */
  function PackedColor(c: Color): (n: nat)
    requires InRange(c)
    ensures n < 0x100_0000
  {
    ChannelByte(c.r) * 0x1_0000 + ChannelByte(c.g) * 0x100 + ChannelByte(c.b)
  }

  /** serialize's text colour: `"#" + colorNum.toString(16)`, lower-case and
      without zero padding. */
  function EncodeColor(c: Color): (s: string)
    requires InRange(c)
    ensures |s| >= 2 && s[0] == '#' && AllHexDigits(s[1..])
    ensures HexValue(s[1..]) == PackedColor(c)
  {
    "#" + NatToHex(PackedColor(c))
  }

  // ----------------------------------------------------------- properties

  /** A byte channel survives the store-and-round: `(k/255 * 255 + 0.5)`
      rounds back to `k`. */
  lemma ChannelByteOfByte(k: nat)
    requires k < 256
    ensures ChannelByte(k as real / 255.0) == k
  {
    assert (k as real / 255.0) * 255.0 == k as real;
  }

  /** The three bytes of a packed colour come back out of the masks. */
  lemma BytesOfPacked(red: nat, green: nat, blue: nat)
    requires red < 256 && green < 256 && blue < 256
    ensures var n := red * 0x1_0000 + green * 0x100 + blue;
      Red(n) == red && Green(n) == green && Blue(n) == blue
  {
    var n := red * 0x1_0000 + green * 0x100 + blue;
    assert Bits(n) == n;
    assert n / 0x1_0000 == red by {
      assert green * 0x100 + blue < 0x1_0000;
    }
    assert n / 0x100 == red * 0x100 + green by {
      assert n == (red * 0x100 + green) * 0x100 + blue;
    }
    assert (red * 0x100 + green) % 0x100 == green;
    assert n % 0x100 == blue by {
      assert n == (red * 0x100 + green) * 0x100 + blue;
    }
  }

  function Pow16(k: nat): (p: nat)
    ensures p >= 1
  {
    if k == 0 then 1 else 16 * Pow16(k - 1)
  }

  /** `toString(16)` has exactly `k` digits for a number in [16^(k-1), 16^k)
      (and a single digit below 16). */
  lemma HexLength(n: nat, k: nat)
    requires k >= 1 && n < Pow16(k)
    ensures |NatToHex(n)| <= k
    ensures k >= 2 && n >= Pow16(k - 1) ==> |NatToHex(n)| == k
  {
    HexAtMost(n, k);
    if k >= 2 && n >= Pow16(k - 1) {
      HexAtLeast(n, k);
    }
  }

  lemma {:induction false} HexAtMost(n: nat, k: nat)
    requires k >= 1 && n < Pow16(k)
    ensures |NatToHex(n)| <= k
    decreases k
  {
    if n >= 16 {
      assert Pow16(1) == 16;
      assert k >= 2;
      HexDigitDropped(n);
      DivideBelow(n, Pow16(k - 1));
      HexAtMost(n / 16, k - 1);
    }
  }

  lemma {:induction false} HexAtLeast(n: nat, k: nat)
    requires k >= 1 && n >= Pow16(k - 1)
    ensures |NatToHex(n)| >= k
    decreases k
  {
    if k >= 2 {
      var m := Pow16(k - 2);
      assert Pow16(k - 1) == 16 * m;
      HexDigitDropped(n);
      DivideBelow(n, m);
      HexAtLeast(n / 16, k - 1);
    }
  }

  /** The digits of n >= 16 are those of n / 16 followed by one more. */
  lemma HexDigitDropped(n: nat)
    requires n >= 16
    ensures |NatToHex(n)| == |NatToHex(n / 16)| + 1
  {
  }

  /** Dividing by 16 compares with m as n compares with 16 * m. */
  lemma DivideBelow(n: nat, m: nat)
    ensures n < 16 * m ==> n / 16 < m
    ensures n >= 16 * m ==> n / 16 >= m
  {
  }

  /** Trimming `#` off "#" + digits leaves the digits. */
  lemma TrimOfEncoded(h: string)
    requires |h| >= 1 && AllHexDigits(h)
    ensures Trim("#" + h, '#') == h
  {
    assert ("#" + h)[1..] == h;
    assert TrimStart(h, '#') == h;
    assert TrimStart("#" + h, '#') == h;
    assert TrimEnd(h, '#') == h;
  }

  /** A colour with byte channels comes back from serialize and the setup
      decode exactly when its red byte is at least 0x10: below that the
      hex text has fewer than six digits and the decode throws. */
  lemma EncodeDecodeRoundTrip(red: nat, green: nat, blue: nat)
    requires red < 256 && green < 256 && blue < 256
    ensures red >= 0x10 ==> DecodeColor(EncodeColor(FromBytes(red, green, blue))) == Ok(FromBytes(red, green, blue))
    ensures red < 0x10 ==> DecodeColor(EncodeColor(FromBytes(red, green, blue))) == Err(IndexOutOfBounds)
  {
    var n := red * 0x1_0000 + green * 0x100 + blue;
    EncodedBytes(red, green, blue);
    assert Pow16(5) == 0x10_0000 && Pow16(6) == 0x100_0000;
    if red >= 0x10 {
      HexLength(n, 6);
      DecodeSixDigits(n);
      BytesOfPacked(red, green, blue);
    } else {
      HexLength(n, 5);
      DecodeFewDigits(NatToHex(n));
    }
  }

  /** serialize of a colour with byte channels writes the packed bytes. */
  lemma EncodedBytes(red: nat, green: nat, blue: nat)
    requires red < 256 && green < 256 && blue < 256
    ensures EncodeColor(FromBytes(red, green, blue)) == "#" + NatToHex(red * 0x1_0000 + green * 0x100 + blue)
  {
    PackedOfByteColor(red, green, blue);
  }

  /** Six digits after the `#` decode to the bytes of their value. */
  lemma DecodeSixDigits(n: nat)
    requires n < 0x100_0000 && |NatToHex(n)| == 6
    ensures DecodeColor("#" + NatToHex(n)) == Ok(FromBytes(Red(n), Green(n), Blue(n)))
  {
    var h := NatToHex(n);
    TrimOfEncoded(h);
    assert h[..6] == h;
    assert h[0] != '-' && h[0] != '+' by {
      assert IsHexDigit(h[0]);
    }
    assert ParseHex(h) == Ok(n);
  }

  /** Fewer than six digits after the `#` make the decode throw. */
  lemma DecodeFewDigits(h: string)
    requires 1 <= |h| < 6 && AllHexDigits(h)
    ensures DecodeColor("#" + h) == Err(IndexOutOfBounds)
  {
    TrimOfEncoded(h);
  }

  /** Lower-case digits without a leading zero: the form `toString(16)`
      produces. */
  predicate Canonical(h: string)
  {
    |h| >= 1 && (forall i :: 0 <= i < |h| ==> ('0' <= h[i] <= '9') || ('a' <= h[i] <= 'f'))
    && (|h| > 1 ==> h[0] != '0')
  }

  lemma {:induction false} NatToHexOfCanonical(h: string)
    requires Canonical(h)
    ensures AllHexDigits(h) && NatToHex(HexValue(h)) == h
    decreases |h|
  {
    var last := h[|h| - 1];
    if |h| > 1 {
      var init := h[..|h| - 1];
      assert Canonical(init);
      NatToHexOfCanonical(init);
      LeadingDigitPositive(init);
      assert h == init + [last];
      CanonicalSnoc(init, last);
    } else {
      assert h == [last];
      CanonicalDigit(last);
    }
  }

  /** A single lower-case digit prints as itself. */
  lemma CanonicalDigit(ch: char)
    requires ('0' <= ch <= '9') || ('a' <= ch <= 'f')
    ensures AllHexDigits([ch]) && NatToHex(HexValue([ch])) == [ch]
  {
    assert [ch][..0] == [];
  }

  /** One more lower-case digit after digits that print as themselves with a
      positive value. */
  lemma CanonicalSnoc(init: string, ch: char)
    requires ('0' <= ch <= '9') || ('a' <= ch <= 'f')
    requires AllHexDigits(init) && NatToHex(HexValue(init)) == init && HexValue(init) >= 1
    ensures AllHexDigits(init + [ch]) && NatToHex(HexValue(init + [ch])) == init + [ch]
  {
    HexValueSnoc(init, ch);
    NatToHexStep(HexValue(init), HexDigitValue(ch));
    HexCharOfDigit(ch);
  }

  /** Appending a digit multiplies the value by 16 and adds the digit. */
  lemma HexValueSnoc(init: string, ch: char)
    requires IsHexDigit(ch) && AllHexDigits(init)
    ensures AllHexDigits(init + [ch])
    ensures HexValue(init + [ch]) == HexValue(init) * 16 + HexDigitValue(ch)
  {
    var h := init + [ch];
    assert h[..|h| - 1] == init;
  }

  /** A lower-case digit is printed back as itself. */
  lemma HexCharOfDigit(ch: char)
    requires ('0' <= ch <= '9') || ('a' <= ch <= 'f')
    ensures HexChar(HexDigitValue(ch)) == ch
  {
  }

  /** A positive number with one more digit `d` prints as its digits and then `d`. */
  lemma NatToHexStep(m: nat, d: nat)
    requires m >= 1 && d < 16
    ensures NatToHex(m * 16 + d) == NatToHex(m) + [HexChar(d)]
  {
    var n := m * 16 + d;
    assert n / 16 == m && n % 16 == d;
  }

  /** A canonical string of two or more digits has a non-zero value (so
      its `toString(16)` is computed digit by digit). */
  lemma {:induction false} LeadingDigitPositive(h: string)
    requires Canonical(h)
    ensures AllHexDigits(h) && (|h| > 1 || h[0] != '0' ==> HexValue(h) >= 1)
    decreases |h|
  {
    if |h| > 1 {
      var init := h[..|h| - 1];
      assert Canonical(init) && init[0] == h[0];
      LeadingDigitPositive(init);
    }
  }

  /** The other direction: six canonical digits after a `#` are decoded and
      written back unchanged. An upper-case digit, a sign or a leading zero
      does not survive (serialize writes the canonical form). */
  lemma DecodeEncodeRoundTrip(h: string)
    requires |h| == 6 && Canonical(h)
    ensures DecodeColor("#" + h).Ok?
    ensures EncodeColor(DecodeColor("#" + h).value) == "#" + h
  {
    NatToHexOfCanonical(h);
    TrimOfEncoded(h);
    assert h[..6] == h;
    assert h[0] != '-' && h[0] != '+';
    var n := HexValue(h);
    assert n < 0x100_0000 by {
      HexBound(h);
      assert Pow16(6) == 0x100_0000;
    }
    assert ParseHex(h) == Ok(n);
    assert DecodeColor("#" + h) == Ok(FromBytes(Red(n), Green(n), Blue(n)));
    PackedOfBytes(n);
  }

  /** Packing the three bytes of a 24-bit number gives the number back. */
  lemma PackedOfBytes(n: nat)
    requires n < 0x100_0000
    ensures PackedColor(FromBytes(Red(n), Green(n), Blue(n))) == n
  {
    var red, green, blue := Red(n), Green(n), Blue(n);
    assert Bits(n) == n;
    assert n == (n / 0x100) * 0x100 + blue;
    assert n / 0x100 == (n / 0x1_0000) * 0x100 + green;
    ChannelByteOfByte(red);
    ChannelByteOfByte(green);
    ChannelByteOfByte(blue);
  }

  lemma {:induction false} HexBound(h: string)
    requires AllHexDigits(h)
    ensures HexValue(h) < Pow16(|h|)
    decreases |h|
  {
    if |h| > 0 {
      HexBound(h[..|h| - 1]);
    }
  }

  // ------------------------------------------------ zero-padded encoding

  /** `padStart(length, '0')`: zeros in front up to `length` characters. */
  function PadZeros(s: string, length: nat): (p: string)
    ensures |p| == if |s| >= length then |s| else length
    ensures p[|p| - |s|..] == s
    ensures forall i :: 0 <= i < |p| - |s| ==> p[i] == '0'
    decreases length - |s|
  {
    if |s| >= length then s else PadZeros("0" + s, length)
  }

  /** The encoding serialize evidently intends: `toString(16)` padded to six
      digits, so that the decode's six-character window always holds the
      whole colour. */
  function EncodeColorPadded(c: Color): (s: string)
    requires InRange(c)
    ensures |s| == 7 && s[0] == '#' && AllHexDigits(s[1..])
    ensures HexValue(s[1..]) == PackedColor(c)
  {
    var h := NatToHex(PackedColor(c));
    assert Pow16(6) == 0x100_0000;
    HexLength(PackedColor(c), 6);
    var p := PadZeros(h, 6);
    PaddedValue(h, 6);
    assert ("#" + p)[1..] == p;
    "#" + p
  }

  /** Leading zeros add nothing to a hexadecimal value. */
  lemma {:induction false} PaddedValue(h: string, length: nat)
    requires AllHexDigits(h)
    ensures AllHexDigits(PadZeros(h, length))
    ensures HexValue(PadZeros(h, length)) == HexValue(h)
    decreases length - |h|
  {
    if |h| < length {
      ZeroInFront(h);
      PaddedValue("0" + h, length);
    }
  }

  lemma {:induction false} ZeroInFront(h: string)
    requires AllHexDigits(h)
    ensures AllHexDigits("0" + h) && HexValue("0" + h) == HexValue(h)
    decreases |h|
  {
    var z := "0" + h;
    assert IsHexDigit(z[0]);
    if |h| > 0 {
      assert z[..|z| - 1] == "0" + h[..|h| - 1];
      ZeroInFront(h[..|h| - 1]);
    } else {
      assert z[..0] == [];
    }
  }

  /** Any six digits after the `#` decode to the bytes of their value. */
  lemma DecodeHexDigits(p: string)
    requires |p| == 6 && AllHexDigits(p)
    ensures HexValue(p) < 0x100_0000
    ensures DecodeColor("#" + p) == Ok(FromBytes(Red(HexValue(p)), Green(HexValue(p)), Blue(HexValue(p))))
  {
    HexBound(p);
    assert Pow16(6) == 0x100_0000;
    TrimOfEncoded(p);
    assert p[..6] == p;
    assert p[0] != '-' && p[0] != '+' by {
      assert IsHexDigit(p[0]);
    }
    assert ParseHex(p) == Ok(HexValue(p));
  }

  /** With the padded encoding every colour with byte channels comes back
      from the decode, whatever its red byte. */
  lemma PaddedRoundTrip(red: nat, green: nat, blue: nat)
    requires red < 256 && green < 256 && blue < 256
    ensures DecodeColor(EncodeColorPadded(FromBytes(red, green, blue))) == Ok(FromBytes(red, green, blue))
  {
    var n := red * 0x1_0000 + green * 0x100 + blue;
    PaddedBytes(red, green, blue);
    PaddedDecode(n);
    BytesOfPacked(red, green, blue);
  }

  /** The padded encoding of a colour with byte channels writes its packed bytes. */
  lemma PaddedBytes(red: nat, green: nat, blue: nat)
    requires red < 256 && green < 256 && blue < 256
    ensures EncodeColorPadded(FromBytes(red, green, blue)) == "#" + PadZeros(NatToHex(red * 0x1_0000 + green * 0x100 + blue), 6)
  {
    PackedOfByteColor(red, green, blue);
  }

  /** Six zero-padded digits of any 24-bit value decode to its bytes. */
  lemma PaddedDecode(n: nat)
    requires n < 0x100_0000
    ensures DecodeColor("#" + PadZeros(NatToHex(n), 6)) == Ok(FromBytes(Red(n), Green(n), Blue(n)))
  {
    var h := NatToHex(n);
    assert Pow16(6) == 0x100_0000;
    HexLength(n, 6);
    PaddedValue(h, 6);
    DecodeHexDigits(PadZeros(h, 6));
  }

  /** Packing a colour with byte channels gives back its bytes. */
  lemma PackedOfByteColor(red: nat, green: nat, blue: nat)
    requires red < 256 && green < 256 && blue < 256
    ensures PackedColor(FromBytes(red, green, blue)) == red * 0x1_0000 + green * 0x100 + blue
  {
    ChannelByteOfByte(red);
    ChannelByteOfByte(green);
    ChannelByteOfByte(blue);
  }

}
