// The string operations of the Kotlin standard library that the parsers rely
// on: split on one character, split at the first occurrence of a separator,
// lines(), trim(char), and the number conversions toLong()/toInt()/toInt(16)/
// toDoubleOrNull() together with Long.toString().

module Text {
  import opened Common

  // ---------------------------------------------------------------- split

  /** `s.split(sep)` for a one-character separator: every occurrence splits,
      so two adjacent separators give an empty piece. */
  function Split(s: string, sep: char): (pieces: seq<string>)
    ensures |pieces| >= 1
    ensures forall i :: 0 <= i < |pieces| ==> sep !in pieces[i]
    decreases |s|
  {
    if |s| == 0 then [""]
    else if s[0] == sep then [""] + Split(s[1..], sep)
    else
      var rest := Split(s[1..], sep);
      [[s[0]] + rest[0]] + rest[1..]
  }

  /** `pieces.joinToString(sep)`. */
  function Join(pieces: seq<string>, sep: char): string
  {
    if |pieces| == 0 then ""
    else if |pieces| == 1 then pieces[0]
    else pieces[0] + [sep] + Join(pieces[1..], sep)
  }

  lemma JoinCons(c: char, pieces: seq<string>, sep: char)
    requires |pieces| >= 1
    ensures Join([[c] + pieces[0]] + pieces[1..], sep) == [c] + Join(pieces, sep)
  {
    var q := [[c] + pieces[0]] + pieces[1..];
    assert q[1..] == pieces[1..];
  }

  /** Joining the pieces of a split gives the original string back. */
  lemma {:induction false} JoinOfSplit(s: string, sep: char)
    ensures Join(Split(s, sep), sep) == s
    decreases |s|
  {
    if |s| == 0 {
    } else if s[0] == sep {
      JoinOfSplit(s[1..], sep);
      var rest := Split(s[1..], sep);
      assert ([""] + rest)[1..] == rest;
      assert s == [sep] + s[1..];
    } else {
      JoinOfSplit(s[1..], sep);
      JoinCons(s[0], Split(s[1..], sep), sep);
      assert s == [s[0]] + s[1..];
    }
  }

  lemma {:induction false} SplitOfPlain(w: string, sep: char)
    requires sep !in w
    ensures Split(w, sep) == [w]
    decreases |w|
  {
    if |w| > 0 {
      SplitOfPlain(w[1..], sep);
      assert w == [w[0]] + w[1..];
    }
  }

  lemma {:induction false} SplitAtSeparator(w: string, sep: char, t: string)
    requires sep !in w
    ensures Split(w + [sep] + t, sep) == [w] + Split(t, sep)
    decreases |w|
  {
    var s := w + [sep] + t;
    if |w| == 0 {
      assert s[1..] == t;
    } else {
      assert s[1..] == w[1..] + [sep] + t;
      SplitAtSeparator(w[1..], sep, t);
      assert w == [w[0]] + w[1..];
    }
  }

  /** Splitting a join of separator-free pieces gives the pieces back. */
  lemma {:induction false} SplitOfJoin(pieces: seq<string>, sep: char)
    requires |pieces| >= 1
    requires forall i :: 0 <= i < |pieces| ==> sep !in pieces[i]
    ensures Split(Join(pieces, sep), sep) == pieces
    decreases |pieces|
  {
    if |pieces| == 1 {
      SplitOfPlain(pieces[0], sep);
    } else {
      SplitOfJoin(pieces[1..], sep);
      SplitAtSeparator(pieces[0], sep, Join(pieces[1..], sep));
      assert pieces == [pieces[0]] + pieces[1..];
    }
  }

  // ---------------------------------------------------- split at first match

  /** A character that is neither the separator nor in any piece is not
      in the joined string. */
  lemma {:induction false} CharNotInJoin(pieces: seq<string>, sep: char, c: char)
    requires c != sep && forall i :: 0 <= i < |pieces| ==> c !in pieces[i]
    ensures c !in Join(pieces, sep)
    decreases |pieces|
  {
    if |pieces| > 1 {
      CharNotInJoin(pieces[1..], sep, c);
    }
  }

  predicate StartsWith(s: string, p: string)
  {
    |p| <= |s| && s[..|p|] == p
  }

  /** The first index at or after `from` where `pat` occurs. */
  function IndexOf(s: string, pat: string, from: nat): (r: Option<nat>)
    requires from <= |s|
    ensures r.Some? ==> from <= r.value <= |s| && StartsWith(s[r.value..], pat)
    ensures r.Some? ==> forall i :: from <= i < r.value ==> !StartsWith(s[i..], pat)
    ensures r.None? ==> forall i :: from <= i <= |s| ==> !StartsWith(s[i..], pat)
    decreases |s| - from
  {
    if StartsWith(s[from..], pat) then Some(from)
    else if from == |s| then None
    else IndexOf(s, pat, from + 1)
  }

  /** `s.split(sep, limit = 2)`: the text before the first `sep` and all text
      after it, or None when `sep` does not occur (a one-element result). */
  function SplitAtFirst(s: string, sep: string): (r: Option<(string, string)>)
    ensures r.None? <==> forall i :: 0 <= i <= |s| ==> !StartsWith(s[i..], sep)
    ensures r.Some? ==> r.value.0 + sep + r.value.1 == s
    ensures r.Some? ==> forall i :: 0 <= i < |r.value.0| ==> !StartsWith(s[i..], sep)
  {
    match IndexOf(s, sep, 0)
    case None => None
    case Some(i) =>
      assert s[i..][..|sep|] == sep;
      assert s == s[..i] + sep + s[i + |sep|..];
      Some((s[..i], s[i + |sep|..]))
  }

  /** Cutting at the first separator finds the one after `a` when no
      character of `a` begins the separator. */
  lemma SplitAtFirstAfter(a: string, sep: string, b: string)
    requires |sep| >= 1 && forall i :: 0 <= i < |a| ==> a[i] != sep[0]
    ensures SplitAtFirst(a + sep + b, sep) == Some((a, b))
  {
    var s := a + sep + b;
    assert s[|a|..][..|sep|] == sep;
    forall i | 0 <= i < |a| ensures !StartsWith(s[i..], sep) {
      assert s[i..][0] == a[i];
    }
    var r := SplitAtFirst(s, sep);
    var k := |r.value.0|;
    assert StartsWith(s[k..], sep) by {
      assert s[k..] == sep + r.value.1;
    }
    assert k == |a|;
    assert r.value.0 == s[..k] == a;
    assert r.value.1 == s[k + |sep|..] == b;
  }

  // ---------------------------------------------------------------- lines

  /** `s.lines()`: splits at "\r\n", "\n" and "\r". */
  function Lines(s: string): (r: seq<string>)
    ensures |r| >= 1
    ensures forall i :: 0 <= i < |r| ==> '\n' !in r[i] && '\r' !in r[i]
    decreases |s|
  {
    if |s| == 0 then [""]
    else if s[0] == '\n' then [""] + Lines(s[1..])
    else if s[0] == '\r' then
      if |s| > 1 && s[1] == '\n' then [""] + Lines(s[2..]) else [""] + Lines(s[1..])
    else
      var rest := Lines(s[1..]);
      [[s[0]] + rest[0]] + rest[1..]
  }

  /** Without carriage returns, lines() is a split at '\n'; so joining
      carriage-return-free lines with "\n" and reading them back is lossless. */
  lemma {:induction false} LinesWithoutCarriageReturn(s: string)
    requires '\r' !in s
    ensures Lines(s) == Split(s, '\n')
    decreases |s|
  {
    if |s| > 0 {
      assert '\r' !in s[1..] by {
        forall k | 0 <= k < |s[1..]| ensures s[1..][k] != '\r' { assert s[1..][k] == s[k + 1]; }
      }
      LinesWithoutCarriageReturn(s[1..]);
    }
  }

  // ----------------------------------------------------------------- trim

  /** Drops every leading `c`. */
  function TrimStart(s: string, c: char): (r: string)
    ensures |r| <= |s| && r == s[|s| - |r|..]
    ensures forall k :: 0 <= k < |s| - |r| ==> s[k] == c
    ensures |r| == 0 || r[0] != c
    decreases |s|
  {
    if |s| > 0 && s[0] == c then TrimStart(s[1..], c) else s
  }

  /** Drops every trailing `c`. */
  function TrimEnd(s: string, c: char): (r: string)
    ensures |r| <= |s| && r == s[..|r|]
    ensures forall k :: |r| <= k < |s| ==> s[k] == c
    ensures |r| == 0 || r[|r| - 1] != c
    decreases |s|
  {
    if |s| > 0 && s[|s| - 1] == c then TrimEnd(s[..|s| - 1], c) else s
  }

  /** `s.trim(c)`: every leading and trailing `c` removed. */
  function Trim(s: string, c: char): string
  {
    TrimEnd(TrimStart(s, c), c)
  }

  function Quote(s: string): string { "\"" + s + "\"" }

  /** Unquoting a quoted word whose own ends are not quotes gives the word. */
  lemma TrimOfQuote(s: string)
    requires |s| > 0 && s[0] != '"' && s[|s| - 1] != '"'
    ensures Trim(Quote(s), '"') == s
  {
    var q := Quote(s);
    assert q[1..] == s + "\"";
    assert TrimStart(q[1..], '"') == s + "\"";
    assert (s + "\"")[..|s|] == s;
  }

  /** A word with no `c` at either end is left alone. */
  lemma TrimOfPlain(s: string, c: char)
    requires |s| == 0 || (s[0] != c && s[|s| - 1] != c)
    ensures Trim(s, c) == s
  {
  }

  // -------------------------------------------------------------- numbers

  predicate IsDigit(ch: char) { '0' <= ch <= '9' }

  predicate AllDigits(s: string) { forall i :: 0 <= i < |s| ==> IsDigit(s[i]) }

  function DigitChar(d: nat): char
    requires d < 10
  {
    ('0' as int + d) as char
  }

  /** The value of a string of decimal digits. */
  function DigitsValue(s: string): nat
    requires AllDigits(s)
    decreases |s|
  {
    if |s| == 0 then 0
    else DigitsValue(s[..|s| - 1]) * 10 + ((s[|s| - 1] as int) - ('0' as int))
  }

  /** Decimal digits of a natural number, without leading zeros. */
  function NatToString(n: nat): (s: string)
    ensures |s| >= 1 && AllDigits(s)
    ensures DigitsValue(s) == n
    decreases n
  {
    if n < 10 then [DigitChar(n)]
    else
      var s := NatToString(n / 10) + [DigitChar(n % 10)];
      assert s[..|s| - 1] == NatToString(n / 10);
      s
  }

  /** `Long.toString()`: a minus sign for negatives, then the digits. */
  function IntToString(n: int): string
  {
    if n < 0 then "-" + NatToString(-n) else NatToString(n)
  }

  /** An optional sign followed by at least one decimal digit. */
  function ParseInteger(s: string): Option<int>
  {
    if |s| > 0 && (s[0] == '-' || s[0] == '+') then
      if |s| > 1 && AllDigits(s[1..]) then
        Some(if s[0] == '-' then -(DigitsValue(s[1..]) as int) else DigitsValue(s[1..]))
      else None
    else if |s| > 0 && AllDigits(s) then Some(DigitsValue(s))
    else None
  }

  const LongMin: int := -0x8000_0000_0000_0000
  const LongMax: int := 0x7FFF_FFFF_FFFF_FFFF
  const IntMin: int := -0x8000_0000
  const IntMax: int := 0x7FFF_FFFF

  /** `toLong()`: a signed decimal that fits in 64 bits, else NumberFormatException. */
  function ParseLong(s: string): (r: Result<int>)
    ensures r.Ok? ==> LongMin <= r.value <= LongMax
  {
    match ParseInteger(s)
    case Some(v) => if LongMin <= v <= LongMax then Ok(v) else Err(NumberFormat(s))
    case None => Err(NumberFormat(s))
  }

  /** `toInt()`: a signed decimal that fits in 32 bits, else NumberFormatException. */
  function ParseInt(s: string): (r: Result<int>)
    ensures r.Ok? ==> IntMin <= r.value <= IntMax
  {
    match ParseInteger(s)
    case Some(v) => if IntMin <= v <= IntMax then Ok(v) else Err(NumberFormat(s))
    case None => Err(NumberFormat(s))
  }

  /** Printing an integer and reading it back gives the same integer. */
  lemma ParseIntegerOfIntToString(n: int)
    ensures ParseInteger(IntToString(n)) == Some(n)
  {
    if n < 0 {
      var s := IntToString(n);
      assert s[1..] == NatToString(-n);
    }
  }

  lemma ParseLongOfIntToString(n: int)
    requires LongMin <= n <= LongMax
    ensures ParseLong(IntToString(n)) == Ok(n)
  {
    ParseIntegerOfIntToString(n);
  }

  lemma ParseIntOfIntToString(n: int)
    requires IntMin <= n <= IntMax
    ensures ParseInt(IntToString(n)) == Ok(n)
  {
    ParseIntegerOfIntToString(n);
  }

  function Pow10(k: nat): (p: nat)
    ensures p >= 1
  {
    if k == 0 then 1 else 10 * Pow10(k - 1)
  }

  /** The mantissa of a decimal: digits, optionally a '.' and more digits,
      with at least one digit in all. */
  function ParseMantissa(body: string): Option<real>
  {
    match IndexOf(body, ".", 0)
    case None =>
      if |body| > 0 && AllDigits(body) then Some(DigitsValue(body) as real) else None
    case Some(i) =>
      var whole := body[..i];
      var fraction := body[i + 1..];
      if AllDigits(whole) && AllDigits(fraction) && |whole| + |fraction| > 0 then
        Some(DigitsValue(whole) as real + DigitsValue(fraction) as real / Pow10(|fraction|) as real)
      else None
  }

  predicate IsExponentMark(ch: char) { ch == 'e' || ch == 'E' }

  /** The first `e` or `E` of `s` at or after `from`. */
  function ExponentMark(s: string, from: nat): (r: Option<nat>)
    requires from <= |s|
    ensures r.Some? ==> from <= r.value < |s| && IsExponentMark(s[r.value])
    ensures r.Some? ==> forall i :: from <= i < r.value ==> !IsExponentMark(s[i])
    ensures r.None? ==> forall i :: from <= i < |s| ==> !IsExponentMark(s[i])
    decreases |s| - from
  {
    if from == |s| then None
    else if IsExponentMark(s[from]) then Some(from)
    else ExponentMark(s, from + 1)
  }

  /** `m` times 10 to the power `e`, for a negative `e` too. */
  function Scaled(m: real, e: int): real
  {
    if e >= 0 then m * Pow10(e) as real else m / Pow10(-e) as real
  }

  /** The unsigned part of a decimal: a mantissa, then optionally `e` or `E`
      and a signed decimal exponent. */
  function ParseUnsignedDecimal(body: string): Option<real>
  {
    match ExponentMark(body, 0)
    case None => ParseMantissa(body)
    case Some(i) =>
      match ParseMantissa(body[..i])
      case None => None
      case Some(m) =>
        match ParseInteger(body[i + 1..])
        case None => None
        case Some(e) => Some(Scaled(m, e))
  }

  /** `toDoubleOrNull()` on the decimal forms: an optional sign before an
      unsigned decimal. */
  function ParseDouble(s: string): Option<real>
  {
    if |s| > 0 && (s[0] == '-' || s[0] == '+') then WithSign(s[0] == '-', ParseUnsignedDecimal(s[1..]))
    else ParseUnsignedDecimal(s)
  }

  function WithSign(negative: bool, m: Option<real>): Option<real>
  {
    match m
    case None => None
    case Some(v) => Some(if negative then -v else v)
  }

  lemma NoDotInDigits(d: string)
    requires AllDigits(d)
    ensures IndexOf(d, ".", 0).None?
  {
    forall i | 0 <= i <= |d| ensures !StartsWith(d[i..], ".") {
      if i < |d| { assert d[i..][0] == d[i]; }
    }
  }

  lemma ParseUnsignedOfDigits(d: string)
    requires |d| > 0 && AllDigits(d)
    ensures ParseUnsignedDecimal(d) == Some(DigitsValue(d) as real)
  {
    NoDotInDigits(d);
    NoExponentIn(d);
  }

  /** Text without `e` or `E` is read as a mantissa alone. */
  lemma NoExponentIn(s: string)
    requires forall i :: 0 <= i < |s| ==> !IsExponentMark(s[i])
    ensures ParseUnsignedDecimal(s) == ParseMantissa(s)
  {
  }

  /** The first mark is found where one follows a stretch without any. */
  lemma {:induction false} FirstMarkAt(s: string, k: nat, from: nat)
    requires from <= k < |s| && IsExponentMark(s[k])
    requires forall i :: from <= i < k ==> !IsExponentMark(s[i])
    ensures ExponentMark(s, from) == Some(k)
    decreases k - from
  {
    if from < k {
      FirstMarkAt(s, k, from + 1);
    }
  }

  /** A mantissa, an exponent mark and a signed exponent, as Kotlin's own
      Double.toString writes large and small values ("1.0E7", "5.0E-4"). */
  lemma ParseScientific(s: string, k: nat, m: real, e: int)
    requires k < |s| && IsExponentMark(s[k]) && forall i :: 0 <= i < k ==> !IsExponentMark(s[i])
    requires ParseMantissa(s[..k]) == Some(m) && ParseInteger(s[k + 1..]) == Some(e)
    ensures ParseUnsignedDecimal(s) == Some(Scaled(m, e))
  {
    FirstMarkAt(s, k, 0);
  }

  /** A mantissa of one digit, a '.' and one more digit. */
  lemma MantissaOneDecimal(a: char, d: char)
    requires IsDigit(a) && IsDigit(d)
    ensures ParseMantissa([a, '.', d]) == Some(DigitsValue([a]) as real + DigitsValue([d]) as real / 10.0)
  {
    var s := [a, '.', d];
    assert s[0] == a;
    assert !StartsWith(s, ".");
    assert StartsWith(s[1..], ".") by { assert s[1..][..1] == "."; }
    assert IndexOf(s, ".", 0) == Some(1);
    assert s[..1] == [a] && s[2..] == [d];
  }

  /** The form Double.toString gives a large value. */
  lemma ParseLargeForm()
    ensures ParseDouble("1.0E7") == Some(10000000.0)
  {
    var s := "1.0E7";
    MantissaOneDecimal('1', '0');
    assert DigitsValue("1") == 1 && DigitsValue("0") == 0 && DigitsValue("7") == 7;
    assert s[..3] == "1.0" && s[4..] == "7";
    assert ParseInteger("7") == Some(7);
    ParseScientific(s, 3, 1.0, 7);
    assert Pow10(7) == 10000000;
  }

  /** The form Double.toString gives a small value. */
  lemma ParseSmallForm()
    ensures ParseDouble("5.0E-4") == Some(0.0005)
  {
    var s := "5.0E-4";
    MantissaOneDecimal('5', '0');
    assert DigitsValue("5") == 5 && DigitsValue("0") == 0 && DigitsValue("4") == 4;
    assert s[..3] == "5.0" && s[4..] == "-4" && s[4..][1..] == "4";
    assert ParseInteger("-4") == Some(-4);
    ParseScientific(s, 3, 5.0, -4);
    assert Pow10(4) == 10000;
  }

  lemma ParseDoubleOfDigits(d: string)
    requires |d| > 0 && AllDigits(d)
    ensures ParseDouble(d) == Some(DigitsValue(d) as real)
  {
    ParseUnsignedOfDigits(d);
    assert IsDigit(d[0]);
  }

  lemma ParseDoubleOfNegativeDigits(m: string)
    requires |m| > 1 && m[0] == '-' && AllDigits(m[1..])
    ensures ParseDouble(m) == Some(-(DigitsValue(m[1..]) as real))
  {
    NegativeForm(m);
    ParseUnsignedOfDigits(m[1..]);
  }

  lemma NegativeForm(s: string)
    requires |s| > 0 && s[0] == '-'
    ensures ParseDouble(s) == WithSign(true, ParseUnsignedDecimal(s[1..]))
  {
  }

  /** An integer printed by Long.toString() (or by JavaScript's number-to-
      string for integral values) reads back as the same double. */
  lemma ParseDoubleOfIntToString(n: int)
    ensures ParseDouble(IntToString(n)) == Some(n as real)
  {
    if n < 0 {
      var m := IntToString(n);
      assert m[0] == '-' && m[1..] == NatToString(-n);
      ParseDoubleOfNegativeDigits(m);
    } else {
      ParseDoubleOfDigits(NatToString(n));
    }
  }

  // ------------------------------------------------------------ hexadecimal

  predicate IsHexDigit(ch: char)
  {
    ('0' <= ch <= '9') || ('a' <= ch <= 'f') || ('A' <= ch <= 'F')
  }

  function HexDigitValue(ch: char): (v: nat)
    requires IsHexDigit(ch)
    ensures v < 16
  {
    if '0' <= ch <= '9' then (ch as int) - ('0' as int)
    else if 'a' <= ch <= 'f' then (ch as int) - ('a' as int) + 10
    else (ch as int) - ('A' as int) + 10
  }

  predicate AllHexDigits(s: string) { forall i :: 0 <= i < |s| ==> IsHexDigit(s[i]) }

  function HexValue(s: string): nat
    requires AllHexDigits(s)
    decreases |s|
  {
    if |s| == 0 then 0 else HexValue(s[..|s| - 1]) * 16 + HexDigitValue(s[|s| - 1])
  }

  function HexChar(d: nat): char
    requires d < 16
  {
    "0123456789abcdef"[d]
  }

  /** `Int.toString(16)` for a non-negative value: lower-case digits, no padding. */
  function NatToHex(n: nat): (s: string)
    ensures |s| >= 1 && AllHexDigits(s)
    ensures HexValue(s) == n
    decreases n
  {
    if n < 16 then [HexChar(n)]
    else
      var s := NatToHex(n / 16) + [HexChar(n % 16)];
      assert s[..|s| - 1] == NatToHex(n / 16);
      s
  }

  /** `toInt(16)`: an optional sign and at least one hexadecimal digit
      (the callers only ever pass six characters, so 32 bits always suffice). */
  function ParseHex(s: string): Result<int>
  {
    if |s| > 0 && (s[0] == '-' || s[0] == '+') then
      if |s| > 1 && AllHexDigits(s[1..]) && HexValue(s[1..]) <= IntMax then
        Ok(if s[0] == '-' then -(HexValue(s[1..]) as int) else HexValue(s[1..]))
      else Err(NumberFormat(s))
    else if |s| > 0 && AllHexDigits(s) && HexValue(s) <= IntMax then Ok(HexValue(s))
    else Err(NumberFormat(s))
  }
}
