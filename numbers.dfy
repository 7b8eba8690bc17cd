/** Python's `str()` and `int()` on integers, as the adapters use them to
    render and to parse current values. */
module Numbers {
  import opened Common

  predicate IsDigit(c: char) {
    '0' <= c <= '9'
  }

  predicate AllDigits(s: string) {
    forall i :: 0 <= i < |s| ==> IsDigit(s[i])
  }

  /** The whitespace `int()` ignores around its argument. */
  predicate IsSpace(c: char) {
    c == ' ' || c == '\t' || c == '\n' || c == '\r' || c == '\U{000B}' || c == '\U{000C}'
  }

  function DigitValue(c: char): (d: nat)
    requires IsDigit(c)
    ensures d < 10
  {
    (c as int) - ('0' as int)
  }

  function DigitChar(d: nat): (c: char)
    requires d < 10
    ensures IsDigit(c) && DigitValue(c) == d
  {
    (('0' as int) + d) as char
  }

  /** The decimal digits of `n`, most significant first, without leading zeros. */
  function NatDigits(n: nat): (s: string)
    decreases n
  {
    if n < 10 then [DigitChar(n)] else NatDigits(n / 10) + [DigitChar(n % 10)]
  }

  /** `str(n)` for a Python int. */
  function Str(n: int): string {
    if n < 0 then "-" + NatDigits(-n) else NatDigits(n)
  }

  /** The number a non-empty run of decimal digits denotes. */
  function DigitsValue(s: string): nat
    requires AllDigits(s)
    decreases |s|
  {
    if s == [] then 0 else DigitsValue(s[..|s| - 1]) * 10 + DigitValue(s[|s| - 1])
  }

  /** `s.strip()`: `s` without leading and trailing whitespace. */
  function Strip(s: string): (t: string)
    ensures |t| <= |s|
    ensures t != [] ==> !IsSpace(t[0]) && !IsSpace(t[|t| - 1])
    decreases |s|
  {
    if s != [] && IsSpace(s[0]) then Strip(s[1..])
    else if s != [] && IsSpace(s[|s| - 1]) then Strip(s[..|s| - 1])
    else s
  }

  /** An optional sign followed by at least one decimal digit. */
  predicate IsIntLiteral(t: string) {
    if t != [] && (t[0] == '-' || t[0] == '+') then t[1..] != [] && AllDigits(t[1..])
    else t != [] && AllDigits(t)
  }

  /** `int(s)` for a Python str: `None` stands for the `ValueError` it raises. */
  function ParseInt(s: string): (r: Option<int>)
    ensures r.Some? <==> IsIntLiteral(Strip(s))
  {
    var t := Strip(s);
    if t != [] && (t[0] == '-' || t[0] == '+') then
      if t[1..] != [] && AllDigits(t[1..]) then
        var v: int := DigitsValue(t[1..]);
        Some(if t[0] == '-' then -v else v)
      else None
    else if t != [] && AllDigits(t) then Some(DigitsValue(t))
    else None
  }

  lemma {:induction false} NatDigitsValue(n: nat)
    ensures NatDigits(n) != [] && AllDigits(NatDigits(n))
    ensures DigitsValue(NatDigits(n)) == n
    decreases n
  {
    if n >= 10 {
      NatDigitsValue(n / 10);
      var s := NatDigits(n);
      assert s[..|s| - 1] == NatDigits(n / 10);
    }
  }

  /** `int(str(n)) == n`: rendering an integer and parsing it back loses nothing. */
  lemma ParseStr(n: int)
    ensures ParseInt(Str(n)) == Some(n)
  {
    var m := if n < 0 then -n else n;
    NatDigitsValue(m);
    var s := Str(n);
    assert Strip(s) == s;
    if n < 0 {
      assert s[1..] == NatDigits(m);
    } else {
      assert s[0] != '-' && s[0] != '+';
    }
  }

  /** `int()` of a literal with an optional sign and leading zeros is the
      signed number its digits denote: `int("+016") == 16`, `int("-007") == -7`. */
  lemma ParseLiteral(sign: string, zeros: string, n: nat)
    requires sign == "" || sign == "+" || sign == "-"
    requires forall i :: 0 <= i < |zeros| ==> zeros[i] == '0'
    ensures ParseInt(sign + zeros + NatDigits(n)) == Some(if sign == "-" then -(n as int) else n)
  {
    NatDigitsValue(n);
    LeadingZeros(zeros, NatDigits(n));
    assert sign + zeros + NatDigits(n) == sign + (zeros + NatDigits(n));
    ParseSigned(sign, zeros + NatDigits(n));
  }

  /** `int()` of a sign and a run of digits is the signed value of the digits. */
  lemma ParseSigned(sign: string, digits: string)
    requires sign == "" || sign == "+" || sign == "-"
    requires digits != [] && AllDigits(digits)
    ensures ParseInt(sign + digits) == Some(if sign == "-" then -(DigitsValue(digits) as int) else DigitsValue(digits))
  {
    var s := sign + digits;
    assert s[|s| - 1] == digits[|digits| - 1];
    assert Strip(s) == s;
    if sign != "" {
      assert s[0] == sign[0] && s[1..] == digits;
    } else {
      assert s == digits;
    }
  }

  /** Leading zeros do not change the number a digit run denotes. */
  lemma {:induction false} LeadingZeros(zeros: string, d: string)
    requires forall i :: 0 <= i < |zeros| ==> zeros[i] == '0'
    requires AllDigits(d)
    ensures AllDigits(zeros + d) && DigitsValue(zeros + d) == DigitsValue(d)
    decreases |d|
  {
    var w := zeros + d;
    if d == [] {
      assert w == zeros;
      ZerosValue(zeros);
    } else {
      assert w[..|w| - 1] == zeros + d[..|d| - 1];
      LeadingZeros(zeros, d[..|d| - 1]);
    }
  }

  lemma {:induction false} ZerosValue(zeros: string)
    requires forall i :: 0 <= i < |zeros| ==> zeros[i] == '0'
    ensures AllDigits(zeros) && DigitsValue(zeros) == 0
    decreases |zeros|
  {
    if zeros != [] {
      ZerosValue(zeros[..|zeros| - 1]);
    }
  }

  /** `int()` ignores the whitespace around its argument. */
  lemma {:induction false} ParseIgnoresPadding(pad1: string, s: string, pad2: string)
    requires forall i :: 0 <= i < |pad1| ==> IsSpace(pad1[i])
    requires forall i :: 0 <= i < |pad2| ==> IsSpace(pad2[i])
    ensures ParseInt(pad1 + s + pad2) == ParseInt(s)
  {
    StripPadding(pad1, s, pad2);
  }

  lemma {:induction false} StripPadding(pad1: string, s: string, pad2: string)
    requires forall i :: 0 <= i < |pad1| ==> IsSpace(pad1[i])
    requires forall i :: 0 <= i < |pad2| ==> IsSpace(pad2[i])
    ensures Strip(pad1 + s + pad2) == Strip(s)
    decreases |pad1| + |s| + |pad2|
  {
    var w := pad1 + s + pad2;
    if pad1 != [] {
      assert w[1..] == pad1[1..] + s + pad2;
      StripPadding(pad1[1..], s, pad2);
    } else if pad2 == [] {
      assert w == s;
    } else if s != [] && IsSpace(s[0]) {
      assert w[1..] == [] + s[1..] + pad2;
      StripPadding([], s[1..], pad2);
    } else if s == [] {
      assert w == pad2;
      assert w[1..] == [] + [] + pad2[1..];
      StripPadding([], [], pad2[1..]);
    } else {
      assert w[..|w| - 1] == [] + s + pad2[..|pad2| - 1];
      StripPadding([], s, pad2[..|pad2| - 1]);
    }
  }
}
