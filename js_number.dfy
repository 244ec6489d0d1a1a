/** The numeric coercions the product form applies: `parseInt` as section 19.2.5
    of ECMA-262 defines it (string argument, radix omitted), and `parseFloat`,
    which is kept symbolic. */
module JsNumber {

  /** A Number produced by `parseInt`: NaN, or an integer. */
  datatype IntValue = NaN | Int(value: int)

  /** The Number `parseFloat(text)`; floating point is not modelled, so the
      value is identified by the text it is parsed from. */
  datatype FloatValue = ParseFloatOf(text: string)

  function ParseFloat(text: string): FloatValue
  {
    ParseFloatOf(text)
  }

  /** WhiteSpace and LineTerminator code points (sections 12.2 and 12.3 of
      ECMA-262), the characters TrimString removes. */
  predicate IsWhiteSpace(c: char)
  {
    c == '\t' || c == '\U{B}' || c == '\U{C}' || c == '\U{FEFF}'
    || c == ' ' || c == '\U{A0}' || c == '\U{1680}'
    || ('\U{2000}' <= c <= '\U{200A}')
    || c == '\U{202F}' || c == '\U{205F}' || c == '\U{3000}'
    || c == '\n' || c == '\r' || c == '\U{2028}' || c == '\U{2029}'
  }

  predicate IsDecimalDigit(c: char)
  {
    '0' <= c <= '9'
  }

  /** The digit value of `c` in any radix up to 36, or 36 when `c` is no digit. */
  function DigitValue(c: char): (d: nat)
    ensures d <= 36
    ensures d < 10 <==> IsDecimalDigit(c)
  {
    if '0' <= c <= '9' then c as int - '0' as int
    else if 'a' <= c <= 'z' then c as int - 'a' as int + 10
    else if 'A' <= c <= 'Z' then c as int - 'A' as int + 10
    else 36
  }

  predicate IsRadixDigit(c: char, radix: nat)
  {
    DigitValue(c) < radix
  }

  /** TrimString(s, start): `s` without its leading white space. */
  function TrimStart(s: string): (r: string)
    ensures |r| <= |s| && r == s[|s| - |r|..]
    ensures r != [] ==> !IsWhiteSpace(r[0])
    ensures forall i | 0 <= i < |s| - |r| :: IsWhiteSpace(s[i])
  {
    if s != [] && IsWhiteSpace(s[0]) then TrimStart(s[1..]) else s
  }

  /** The longest prefix of `s` made of radix-`radix` digits. */
  function DigitPrefix(s: string, radix: nat): (r: string)
    ensures |r| <= |s| && r == s[..|r|]
    ensures forall i | 0 <= i < |r| :: IsRadixDigit(r[i], radix)
    ensures |r| < |s| ==> !IsRadixDigit(s[|r|], radix)
  {
    if s != [] && IsRadixDigit(s[0], radix) then [s[0]] + DigitPrefix(s[1..], radix) else []
  }

  /** The integer that the digit string `digits` denotes in radix `radix`. */
  function IntegerValue(digits: string, radix: nat): nat
  {
    if digits == [] then 0
    else IntegerValue(digits[..|digits| - 1], radix) * radix + DigitValue(digits[|digits| - 1])
  }

  /** `parseInt(s)`: trim leading white space, take one optional sign, then
      read the rest as an unsigned number. Negative zero is folded into 0. */
  function ParseInt(s: string): (r: IntValue)
    ensures r.Int? ==> var t := TrimStart(s);
      t != [] && (IsDecimalDigit(t[0]) || ((t[0] == '-' || t[0] == '+') && |t| >= 2 && IsDecimalDigit(t[1])))
    ensures r.Int? ==> TrimStart(s) != [] && (r.value < 0 ==> TrimStart(s)[0] == '-')
                       && (TrimStart(s)[0] == '-' ==> r.value <= 0)
  {
    var t := TrimStart(s);
    if t != [] && t[0] == '-' then Negate(ParseUnsigned(t[1..]))
    else if t != [] && t[0] == '+' then ParseUnsigned(t[1..])
    else ParseUnsigned(t)
  }

  function Negate(v: IntValue): IntValue
  {
    match v
    case NaN => NaN
    case Int(i) => Int(-i)
  }

  /** Radix 16 after a "0x"/"0X" prefix, radix 10 otherwise. */
  function ParseUnsigned(u: string): (r: IntValue)
    ensures r.Int? ==> u != [] && IsDecimalDigit(u[0]) && r.value >= 0
  {
    if |u| >= 2 && u[0] == '0' && (u[1] == 'x' || u[1] == 'X') then ParseDigits(u[2..], 16)
    else ParseDigits(u, 10)
  }

  /** The longest run of leading digits, or NaN when there is none. */
  function ParseDigits(z: string, radix: nat): (r: IntValue)
    ensures r.Int? <==> z != [] && IsRadixDigit(z[0], radix)
    ensures r.Int? ==> r.value >= 0
  {
    var digits := DigitPrefix(z, radix);
    if digits == [] then NaN else Int(IntegerValue(digits, radix))
  }

  function DigitChar(d: nat): (c: char)
    requires d < 10
    ensures IsDecimalDigit(c) && DigitValue(c) == d
  {
    ('0' as int + d) as char
  }

  /** The canonical decimal spelling of `n`, as `String(n)` writes it for
      integers below 10^21. */
  function DecimalString(n: nat): (s: string)
    ensures s != []
    ensures forall i | 0 <= i < |s| :: IsDecimalDigit(s[i])
    ensures s[0] == '0' <==> n == 0
  {
    if n < 10 then [DigitChar(n)] else DecimalString(n / 10) + [DigitChar(n % 10)]
  }

  lemma {:induction false} IntegerValueOfDecimalString(n: nat)
    ensures IntegerValue(DecimalString(n), 10) == n
  {
    if n >= 10 {
      var s := DecimalString(n);
      assert s[..|s| - 1] == DecimalString(n / 10);
      IntegerValueOfDecimalString(n / 10);
    }
  }

  lemma {:induction false} TrimStartSkips(w: string, rest: string)
    requires forall i | 0 <= i < |w| :: IsWhiteSpace(w[i])
    requires rest != [] ==> !IsWhiteSpace(rest[0])
    ensures TrimStart(w + rest) == rest
  {
    if w != [] {
      assert (w + rest)[1..] == w[1..] + rest;
      TrimStartSkips(w[1..], rest);
    }
  }

  lemma {:induction false} DigitPrefixStops(z: string, tail: string, radix: nat)
    requires forall i | 0 <= i < |z| :: IsRadixDigit(z[i], radix)
    requires tail != [] ==> !IsRadixDigit(tail[0], radix)
    ensures DigitPrefix(z + tail, radix) == z
  {
    if z != [] {
      assert (z + tail)[1..] == z[1..] + tail;
      DigitPrefixStops(z[1..], tail, radix);
    }
  }

  /** The decimal spelling of `n`, then anything that is not a further digit
      (and, for "0", not an "x" that would make a hexadecimal prefix), reads
      as `n`. */
  lemma {:induction false} ParseUnsignedOfDecimal(n: nat, tail: string)
    requires tail != [] ==> !IsDecimalDigit(tail[0])
    requires n == 0 && tail != [] ==> tail[0] != 'x' && tail[0] != 'X'
    ensures ParseUnsigned(DecimalString(n) + tail) == Int(n)
  {
    var d := DecimalString(n);
    var u := d + tail;
    assert u[0] == d[0];
    if |u| >= 2 && u[0] == '0' {
      assert d == "0";
      assert u[1] == tail[0];
    }
    DigitPrefixStops(d, tail, 10);
    IntegerValueOfDecimalString(n);
  }

  /** Leading white space does not change what `parseInt` reads. */
  lemma {:induction false} ParseIntSkipsWhiteSpace(w: string, rest: string)
    requires forall i | 0 <= i < |w| :: IsWhiteSpace(w[i])
    requires rest != [] ==> !IsWhiteSpace(rest[0])
    ensures ParseInt(w + rest) == ParseInt(rest)
  {
    TrimStartSkips(w, rest);
    TrimStartSkips("", rest);
    assert "" + rest == rest;
  }

  /** Text that starts with a digit is read as an unsigned number. */
  lemma {:induction false} ParseIntOfUnsigned(u: string)
    requires u != [] && IsDecimalDigit(u[0])
    ensures ParseInt(u) == ParseUnsigned(u)
  {
    TrimStartSkips("", u);
    assert "" + u == u;
  }

  /** A sign in front of a digit is read once. */
  lemma {:induction false} ParseIntOfSigned(sign: char, u: string)
    requires sign == '-' || sign == '+'
    requires u != [] && IsDecimalDigit(u[0])
    ensures ParseInt([sign] + u) == if sign == '-' then Negate(ParseUnsigned(u)) else ParseUnsigned(u)
  {
    var rest := [sign] + u;
    TrimStartSkips("", rest);
    assert "" + rest == rest;
    assert rest[0] == sign && rest[1..] == u;
  }

  /** The sign a numeral may be written with. */
  datatype Sign = Unsigned | Plus | Minus
  {
    function Text(): string
    {
      match this
      case Unsigned => ""
      case Plus => "+"
      case Minus => "-"
    }
  }

  /** An optional sign in front of a digit is read once. */
  lemma {:induction false} ParseIntOfSignedDigits(sign: Sign, u: string)
    requires u != [] && IsDecimalDigit(u[0])
    ensures ParseInt(sign.Text() + u) == if sign == Minus then Negate(ParseUnsigned(u)) else ParseUnsigned(u)
  {
    match sign
    case Unsigned =>
      assert sign.Text() + u == u;
      ParseIntOfUnsigned(u);
    case Plus =>
      ParseIntOfSigned('+', u);
    case Minus =>
      ParseIntOfSigned('-', u);
  }

  /** An optional sign, the decimal spelling of `n` and a tail as above parse
      to the signed value of `n`. */
  lemma {:induction false} ParseIntOfSignedDecimal(sign: Sign, n: nat, tail: string)
    requires tail != [] ==> !IsDecimalDigit(tail[0])
    requires n == 0 && tail != [] ==> tail[0] != 'x' && tail[0] != 'X'
    ensures ParseInt(sign.Text() + DecimalString(n) + tail) == Int(if sign == Minus then -(n as int) else n)
  {
    var u := DecimalString(n) + tail;
    assert u[0] == DecimalString(n)[0];
    assert sign.Text() + DecimalString(n) + tail == sign.Text() + u;
    ParseUnsignedOfDecimal(n, tail);
    ParseIntOfSignedDigits(sign, u);
  }

  /** ... and so do they after leading white space. */
  lemma {:induction false} ParseIntOfDecimal(w: string, sign: Sign, n: nat, tail: string)
    requires forall i | 0 <= i < |w| :: IsWhiteSpace(w[i])
    requires tail != [] ==> !IsDecimalDigit(tail[0])
    requires n == 0 && tail != [] ==> tail[0] != 'x' && tail[0] != 'X'
    ensures ParseInt(w + sign.Text() + DecimalString(n) + tail) == Int(if sign == Minus then -(n as int) else n)
  {
    var rest := sign.Text() + DecimalString(n) + tail;
    assert w + sign.Text() + DecimalString(n) + tail == w + rest;
    assert rest[0] == if sign == Unsigned then DecimalString(n)[0] else sign.Text()[0];
    ParseIntSkipsWhiteSpace(w, rest);
    ParseIntOfSignedDecimal(sign, n, tail);
  }

  /** parse∘show: the decimal spelling of a natural parses back to it. */
  lemma ParseIntDecimalRoundTrip(n: nat)
    ensures ParseInt(DecimalString(n)) == Int(n)
  {
    var d := DecimalString(n);
    ParseUnsignedOfDecimal(n, "");
    assert d + "" == d;
    ParseIntOfUnsigned(d);
  }

  /** A fractional part is cut off: "n.f" parses to n. */
  lemma ParseIntTruncatesFraction(n: nat, fraction: string)
    ensures ParseInt(DecimalString(n) + "." + fraction) == Int(n)
  {
    var d, tail := DecimalString(n), "." + fraction;
    assert tail[0] == '.';
    assert d + "." + fraction == d + tail;
    assert (d + tail)[0] == d[0];
    ParseUnsignedOfDecimal(n, tail);
    ParseIntOfUnsigned(d + tail);
  }

  /** Text with no digit after the white space and the optional sign is NaN;
      without a sign, `rest` must not start one (nor more white space). */
  lemma {:induction false} ParseIntNoDigits(w: string, sign: Sign, rest: string)
    requires forall i | 0 <= i < |w| :: IsWhiteSpace(w[i])
    requires rest == [] || !IsDecimalDigit(rest[0])
    requires sign == Unsigned && rest != [] ==>
      !IsWhiteSpace(rest[0]) && rest[0] != '-' && rest[0] != '+'
    ensures ParseInt(w + sign.Text() + rest) == NaN
  {
    var t := sign.Text() + rest;
    assert w + sign.Text() + rest == w + t;
    assert sign != Unsigned ==> t[0] == sign.Text()[0] && t[1..] == rest;
    assert sign == Unsigned ==> t == rest;
    TrimStartSkips(w, t);
  }

  /** After the white space, "0x" or "0X" switches to hexadecimal: the digits
      after the prefix are read in radix 16, and none gives NaN. */
  lemma {:induction false} ParseIntHexPrefix(w: string, x: char, z: string)
    requires forall i | 0 <= i < |w| :: IsWhiteSpace(w[i])
    requires x == 'x' || x == 'X'
    ensures ParseInt(w + ['0', x] + z) == ParseDigits(z, 16)
  {
    var u := ['0', x] + z;
    assert w + ['0', x] + z == w + u;
    assert u[0] == '0' && u[1] == x && u[2..] == z;
    assert ParseUnsigned(u) == ParseDigits(z, 16);
    ParseIntSkipsWhiteSpace(w, u);
    ParseIntOfUnsigned(u);
  }

  /** For example, "0x1A" is 26. */
  lemma ParseIntHexExample()
    ensures ParseInt("0x1A") == Int(26)
  {
    var u := "0x1A";
    TrimStartSkips("", u);
    assert "" + u == u;
    assert u[2..] == "1A";
    DigitPrefixStops("1A", "", 16);
    assert "1A" + "" == "1A";
    assert "1A"[..1] == "1" && "1"[..0] == "";
  }
}
