/**
 * The few Python string builtins the modelled code relies on:
 * `str(int)`, `int(str)`, the zero-padded format `f"{i:0{w}}"`,
 * `str.strip()` and `sep.join(parts)`.
 */
module Text {
  import opened Wrappers

  predicate IsDigit(c: char) { '0' <= c <= '9' }

  function DigitChar(d: nat): (c: char)
    requires d < 10
    ensures IsDigit(c) && c as int - '0' as int == d
  {
    (d + '0' as int) as char
  }

  /** Python `str(n)` for a non-negative integer: decimal, no leading zeros. */
  function NatToDigits(n: nat): string
  {
    if n < 10 then [DigitChar(n)] else NatToDigits(n / 10) + [DigitChar(n % 10)]
  }

  /** `str(n)` is a non-empty string of digits without a leading zero. */
  lemma {:induction false} NatToDigitsShape(n: nat)
    ensures |NatToDigits(n)| > 0 && AllDigits(NatToDigits(n))
    ensures |NatToDigits(n)| > 1 ==> NatToDigits(n)[0] != '0'
  {
    if n >= 10 {
      NatToDigitsShape(n / 10);
      var s := NatToDigits(n);
      assert s == NatToDigits(n / 10) + [DigitChar(n % 10)];
      assert s[0] == NatToDigits(n / 10)[0];
    }
  }

  /** Python `str(i)` for any integer: a '-' exactly for a negative value, then decimal digits. */
  function IntToString(i: int): (r: string)
    ensures |r| > 0 && (r[0] == '-' <==> i < 0)
    ensures AllDigits(if i < 0 then r[1..] else r) && |r| > (if i < 0 then 1 else 0)
  {
    NatToDigitsShape(if i < 0 then -i else i);
    if i < 0 then "-" + NatToDigits(-i) else NatToDigits(i)
  }

  predicate AllDigits(s: string) { forall i :: 0 <= i < |s| ==> IsDigit(s[i]) }

  /** The value of a string of decimal digits, leading zeros allowed. */
  function DigitsValue(s: string): nat
    requires AllDigits(s)
  {
    if s == [] then 0 else DigitsValue(s[..|s| - 1]) * 10 + (s[|s| - 1] as int - '0' as int)
  }

  /**
   * The subset of Python `int(s)` that accepts an optional sign followed by
   * ASCII decimal digits; anything else raises ValueError, modelled as None.
   */
  function ParseInt(s: string): (r: Option<int>)
    ensures r.Some? ==> |s| > 0
    ensures r.Some? <==> (|s| > 0 && AllDigits(s)) || (|s| > 1 && (s[0] == '-' || s[0] == '+') && AllDigits(s[1..]))
    ensures r.Some? && s[0] != '-' ==> r.value >= 0
    ensures r.Some? && s[0] == '-' ==> r.value <= 0
  {
    if |s| > 0 && (s[0] == '-' || s[0] == '+') then
      if |s| > 1 && AllDigits(s[1..]) then
        Some(if s[0] == '-' then -(DigitsValue(s[1..]) as int) else DigitsValue(s[1..]))
      else None
    else if |s| > 0 && AllDigits(s) then Some(DigitsValue(s))
    else None
  }

  lemma {:induction false} DigitsValueOfDigits(n: nat)
    ensures AllDigits(NatToDigits(n)) && DigitsValue(NatToDigits(n)) == n
  {
    NatToDigitsShape(n);
    if n >= 10 {
      var s := NatToDigits(n);
      assert s[..|s| - 1] == NatToDigits(n / 10);
      DigitsValueOfDigits(n / 10);
    }
  }

  /** `int(str(i)) == i`: the decimal rendering of an integer parses back to it. */
  lemma ParseIntOfIntToString(i: int)
    ensures ParseInt(IntToString(i)) == Some(i)
  {
    if i < 0 {
      DigitsValueOfDigits(-i);
      NatToDigitsShape(-i);
      ParseNegative(NatToDigits(-i));
    } else {
      DigitsValueOfDigits(i);
      NatToDigitsShape(i);
      ParseUnsigned(NatToDigits(i));
    }
  }

  lemma IntToStringInjective(i: int, j: int)
    requires IntToString(i) == IntToString(j)
    ensures i == j
  {
    ParseIntOfIntToString(i);
    ParseIntOfIntToString(j);
  }

  function Repeat(c: char, n: nat): (s: string)
    ensures |s| == n && forall i :: 0 <= i < n ==> s[i] == c
  {
    if n == 0 then [] else Repeat(c, n - 1) + [c]
  }

  /** Left-pads `s` with '0' up to `width` characters. */
  function ZeroPad(s: string, width: nat): (r: string)
    ensures |r| == if |s| < width then width else |s|
  {
    if |s| < width then Repeat('0', width - |s|) + s else s
  }

  /**
   * Python `f"{i:0{width}}"`: the sign first, then zeros, then the digits,
   * the whole at least `width` characters wide.
   */
  function FormatZeroPadded(i: int, width: nat): (r: string)
    ensures |r| >= width
  {
    if i < 0 then "-" + ZeroPad(NatToDigits(-i), if width > 0 then width - 1 else 0)
    else ZeroPad(NatToDigits(i), width)
  }

  lemma {:induction false} DigitsValueLeadingZeros(n: nat, s: string)
    requires AllDigits(s)
    ensures AllDigits(Repeat('0', n) + s)
    ensures DigitsValue(Repeat('0', n) + s) == DigitsValue(s)
  {
    if s == [] {
      ZerosValue(n);
      assert Repeat('0', n) + s == Repeat('0', n);
    } else {
      var init := s[..|s| - 1];
      DigitsValueLeadingZeros(n, init);
      var t := Repeat('0', n) + s;
      assert t[..|t| - 1] == Repeat('0', n) + init;
    }
  }

  lemma {:induction false} ZerosValue(n: nat)
    ensures AllDigits(Repeat('0', n)) && DigitsValue(Repeat('0', n)) == 0
  {
    if n > 0 {
      ZerosValue(n - 1);
      assert Repeat('0', n)[..n - 1] == Repeat('0', n - 1);
    }
  }

  /** Zero padding keeps a string of digits a string of digits with the same value. */
  lemma ZeroPadValue(d: string, width: nat)
    requires AllDigits(d) && |d| > 0
    ensures AllDigits(ZeroPad(d, width)) && DigitsValue(ZeroPad(d, width)) == DigitsValue(d) && |ZeroPad(d, width)| > 0
  {
    if |d| < width {
      DigitsValueLeadingZeros(width - |d|, d);
    }
  }

  lemma ParseUnsigned(s: string)
    requires AllDigits(s) && |s| > 0
    ensures ParseInt(s) == Some(DigitsValue(s) as int)
  {
    assert IsDigit(s[0]);
  }

  lemma ParseNegative(s: string)
    requires AllDigits(s) && |s| > 0
    ensures ParseInt("-" + s) == Some(-(DigitsValue(s) as int))
  {
    assert ("-" + s)[1..] == s;
  }

  /** The zero-padded rendering of `n` is all digits and has the value `n`. */
  lemma ZeroPaddedDigits(n: nat, width: nat)
    ensures var z := ZeroPad(NatToDigits(n), width);
            AllDigits(z) && |z| > 0 && DigitsValue(z) == n
  {
    DigitsValueOfDigits(n);
    NatToDigitsShape(n);
    ZeroPadValue(NatToDigits(n), width);
  }

  /** Zero padding never changes the parsed value: `int(f"{i:0{w}}") == i`. */
  lemma ParseIntOfZeroPadded(i: int, width: nat)
    ensures ParseInt(FormatZeroPadded(i, width)) == Some(i)
  {
    if i < 0 {
      var w: nat := if width > 0 then width - 1 else 0;
      ZeroPaddedDigits(-i, w);
      ParseNegative(ZeroPad(NatToDigits(-i), w));
    } else {
      ZeroPaddedDigits(i, width);
      ParseUnsigned(ZeroPad(NatToDigits(i), width));
    }
  }

  lemma FormatZeroPaddedInjective(i: int, j: int, width: nat)
    requires FormatZeroPadded(i, width) == FormatZeroPadded(j, width)
    ensures i == j
  {
    ParseIntOfZeroPadded(i, width);
    ParseIntOfZeroPadded(j, width);
  }

  /** The characters Python's `str.isspace()` accepts. */
  predicate IsSpace(c: char)
  {
    ('\t' <= c <= '\r') || ('\U{1C}' <= c <= ' ') || c == '\U{85}' || c == '\U{A0}'
    || c == '\U{1680}' || ('\U{2000}' <= c <= '\U{200A}') || c == '\U{2028}' || c == '\U{2029}'
    || c == '\U{202F}' || c == '\U{205F}' || c == '\U{3000}'
  }

  function StripLeft(s: string): (r: string)
    ensures |r| <= |s| && r == s[|s| - |r|..]
    ensures forall k :: 0 <= k < |s| - |r| ==> IsSpace(s[k])
    ensures r != [] ==> !IsSpace(r[0])
  {
    if s != [] && IsSpace(s[0]) then StripLeft(s[1..]) else s
  }

  function StripRight(s: string): (r: string)
    ensures |r| <= |s| && r == s[..|r|]
    ensures forall k :: |r| <= k < |s| ==> IsSpace(s[k])
    ensures r != [] ==> !IsSpace(r[|r| - 1])
  {
    if s != [] && IsSpace(s[|s| - 1]) then StripRight(s[..|s| - 1]) else s
  }

  /**
   * Python `s.strip()`: the slice of `s` left after removing the leading and
   * the trailing whitespace.
   */
  function Strip(s: string): (r: string)
    ensures exists i, j ::
              && 0 <= i <= j <= |s| && r == s[i..j]
              && (forall k :: 0 <= k < i ==> IsSpace(s[k]))
              && (forall k :: j <= k < |s| ==> IsSpace(s[k]))
    ensures r != [] ==> !IsSpace(r[0]) && !IsSpace(r[|r| - 1])
  {
    var l := StripLeft(s);
    var r := StripRight(l);
    var i := |s| - |l|;
    assert r == s[i..i + |r|];
    r
  }

  /** Python `sep.join(parts)`. */
  function Join(sep: string, parts: seq<string>): (r: string)
    ensures |parts| == 1 ==> r == parts[0]
  {
    if parts == [] then "" else if |parts| == 1 then parts[0] else parts[0] + sep + Join(sep, parts[1..])
  }
}
