/** JavaScript number conversions the application leans on: `parseInt` on a
    string (no radix argument), `Number.prototype.toString` on integers, and
    `Math.ceil` of a quotient of non-negative integers. Numbers are modelled as
    unbounded integers plus NaN; floating point is not modelled. */
module Numbers {

  /** A JavaScript number as this application produces it: an integer or NaN. */
  datatype Number = Num(value: int) | NaN

  /** The white space and line terminators `parseInt` skips before the number. */
  predicate IsSpace(c: char)
  {
    || c == '\t' || c == '\n' || c == '\U{000B}' || c == '\U{000C}' || c == '\r' || c == ' '
    || c == '\U{00A0}' || c == '\U{1680}' || '\U{2000}' <= c <= '\U{200A}'
    || c == '\U{2028}' || c == '\U{2029}' || c == '\U{202F}' || c == '\U{205F}'
    || c == '\U{3000}' || c == '\U{FEFF}'
  }

  function TrimStart(s: string): (r: string)
    ensures |r| <= |s| && r == s[|s| - |r|..]
    ensures r == [] || !IsSpace(r[0])
  {
    if |s| > 0 && IsSpace(s[0]) then TrimStart(s[1..]) else s
  }

  /** The value of a digit character in bases up to 16, or -1. */
  function DigitValue(c: char): int
  {
    if '0' <= c <= '9' then c as int - '0' as int
    else if 'a' <= c <= 'f' then c as int - 'a' as int + 10
    else if 'A' <= c <= 'F' then c as int - 'A' as int + 10
    else -1
  }

  predicate IsDigitIn(c: char, base: int)
  {
    0 <= DigitValue(c) < base
  }

  /** Length of the longest prefix of `s` made of digits of `base`. */
  function PrefixLength(s: string, base: int): (k: nat)
    ensures k <= |s|
    ensures forall i :: 0 <= i < k ==> IsDigitIn(s[i], base)
    ensures k < |s| ==> !IsDigitIn(s[k], base)
  {
    if |s| > 0 && IsDigitIn(s[0], base) then 1 + PrefixLength(s[1..], base) else 0
  }

  /** The value of a digit string, most significant digit first. */
  function ValueOf(ds: string, base: int): int
  {
    if ds == [] then 0 else ValueOf(ds[..|ds| - 1], base) * base + DigitValue(ds[|ds| - 1])
  }

  /** `parseInt(s)`: skip leading white space, read an optional sign, then
      the magnitude. */
  function ParseInt(s: string): Number
  {
    var t := TrimStart(s);
    if |t| > 0 && t[0] == '-' then Negate(ParseMagnitude(t[1..]))
    else if |t| > 0 && t[0] == '+' then ParseMagnitude(t[1..])
    else ParseMagnitude(t)
  }

  /** The unsigned part of `parseInt`: base 16 after a `0x`/`0X` prefix, base 10
      otherwise, reading the longest run of digits; NaN when there is none.
      Whatever follows the digits is ignored. */
  function ParseMagnitude(u: string): Number
  {
    var hex := |u| >= 2 && u[0] == '0' && (u[1] == 'x' || u[1] == 'X');
    var base := if hex then 16 else 10;
    var v := if hex then u[2..] else u;
    var k := PrefixLength(v, base);
    if k == 0 then NaN else Num(ValueOf(v[..k], base))
  }

  function Negate(x: Number): Number
  {
    match x
    case Num(n) => Num(-n)
    case NaN => NaN
  }

  function DigitChar(d: int): (c: char)
    requires 0 <= d < 10
    ensures IsDigitIn(c, 10) && DigitValue(c) == d
  {
    ('0' as int + d) as char
  }

  /** Decimal rendering of a natural number, without leading zeros. */
  function NatToString(n: nat): (s: string)
    ensures |s| > 0
    ensures forall i :: 0 <= i < |s| ==> IsDigitIn(s[i], 10)
    ensures |s| > 1 ==> s[0] != '0'
  {
    if n < 10 then [DigitChar(n)] else NatToString(n / 10) + [DigitChar(n % 10)]
  }

  /** `n.toString()` for an integer `n`. */
  function IntToString(n: int): string
  {
    if n < 0 then "-" + NatToString(-n) else NatToString(n)
  }

  /** `x.toString()` for a number that may be NaN. */
  function NumberToString(x: Number): string
  {
    match x
    case Num(n) => IntToString(n)
    case NaN => "NaN"
  }

  lemma {:induction false} NatToStringValue(n: nat)
    ensures ValueOf(NatToString(n), 10) == n
  {
    if n >= 10 {
      var s := NatToString(n);
      assert s[..|s| - 1] == NatToString(n / 10);
      NatToStringValue(n / 10);
    }
  }

  /** A run of decimal digits without a leading zero is read in base 10 and
      in full. */
  lemma ParseDecimal(d: string)
    requires |d| > 0 && forall i :: 0 <= i < |d| ==> IsDigitIn(d[i], 10)
    requires |d| > 1 ==> d[0] != '0'
    ensures ParseMagnitude(d) == Num(ValueOf(d, 10))
  {
    assert PrefixLength(d, 10) == |d|;
    assert d[..|d|] == d;
  }

  /** A string that starts with something other than white space is not
      trimmed. */
  lemma TrimStartNone(s: string)
    requires |s| > 0 && !IsSpace(s[0])
    ensures TrimStart(s) == s
  {
  }

  /** A string that starts with a digit is read as a magnitude, unsigned. */
  lemma ParseUnsigned(d: string)
    requires |d| > 0 && IsDigitIn(d[0], 10)
    ensures ParseInt(d) == ParseMagnitude(d)
  {
    assert '0' <= d[0] <= '9';
    assert !IsSpace(d[0]);
    TrimStartNone(d);
    var t := TrimStart(d);
    assert t == d && t[0] != '-' && t[0] != '+';
  }

  /** The decimal rendering of a natural number parses back to it. */
  lemma ParseNatToString(m: nat)
    ensures ParseInt(NatToString(m)) == Num(m)
  {
    var d := NatToString(m);
    calc {
      ParseInt(d);
      { ParseUnsigned(d); }
      ParseMagnitude(d);
      { ParseDecimal(d); }
      Num(ValueOf(d, 10));
      { NatToStringValue(m); }
      Num(m);
    }
  }

  /** A leading minus sign negates the magnitude that follows it. */
  lemma ParseNegative(d: string)
    ensures ParseInt("-" + d) == Negate(ParseMagnitude(d))
  {
    var s := "-" + d;
    assert s[0] == '-' && s[1..] == d;
    TrimStartNone(s);
  }

  /** The rendering of a negative number parses back to it. */
  lemma ParseNegatedNatToString(m: nat)
    ensures ParseInt("-" + NatToString(m)) == Num(-(m as int))
  {
    var d := NatToString(m);
    NatToStringValue(m);
    ParseDecimal(d);
    ParseNegative(d);
  }

  /** The decimal rendering of an integer parses back to that integer:
      `parseInt(n.toString()) === n`. */
  lemma ParseIntToString(n: int)
    ensures ParseInt(IntToString(n)) == Num(n)
  {
    if n < 0 {
      var m: nat := -n;
      calc {
        ParseInt(IntToString(n));
        { assert IntToString(n) == "-" + NatToString(m); }
        ParseInt("-" + NatToString(m));
        { ParseNegatedNatToString(m); }
        Num(n);
      }
    } else {
      ParseNatToString(n);
    }
  }

  /** Rendering a number and reading it back gives the same number, NaN included. */
  lemma ParseNumberToString(x: Number)
    ensures ParseInt(NumberToString(x)) == x
  {
    if x.Num? {
      ParseIntToString(x.value);
    } else {
      assert TrimStart("NaN") == "NaN";
      assert PrefixLength("NaN", 10) == 0;
    }
  }

  /** `Math.ceil(a / b)` for a non-negative dividend and a positive divisor:
      the least number of blocks of size `b` that cover `a`. */
  function CeilDiv(a: nat, b: nat): (q: nat)
    requires b > 0
    ensures q * b >= a
    ensures q == 0 || (q - 1) * b < a
    ensures q == 0 <==> a == 0
  {
    var q := (a + b - 1) / b;
    var r := (a + b - 1) % b;
    assert a + b - 1 == q * b + r && 0 <= r < b;
    assert (q - 1) * b == q * b - b;
    q
  }
}
