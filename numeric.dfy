/**
 * Decimal rendering of integers (`Number.prototype.toString`), `parseInt` with its
 * default radix, `Math.ceil` of a quotient, and JavaScript's NaN for page counts.
 */
module Numeric {
  import opened Wrappers
  import opened JsText

  function DigitChar(d: nat): (c: char)
    requires d < 10
    ensures IsDigit(c)
  {
    ('0' as int + d) as char
  }

  /** The decimal rendering of a natural number, without leading zeros. */
  function NatToString(n: nat): (s: string)
    ensures |s| > 0 && AllDigits(s)
    ensures |s| > 1 ==> s[0] != '0'
    decreases n
  {
    if n < 10 then [DigitChar(n)] else NatToString(n / 10) + [DigitChar(n % 10)]
  }

  /** `String(i)` for an integer `i`. */
  function IntToString(i: int): (s: string)
    ensures |s| > 0
    ensures forall k | 0 <= k < |s| :: IsDigit(s[k]) || (k == 0 && s[k] == '-')
  {
    if i < 0 then "-" + NatToString(-i) else NatToString(i)
  }

  /** The value of `c` as a digit in `radix` (10 or 16), if it is one. */
  function DigitIn(c: char, radix: nat): Option<nat> {
    if '0' <= c <= '9' then Some(c as int - '0' as int)
    else if radix == 16 && 'a' <= c <= 'f' then Some(c as int - 'a' as int + 10)
    else if radix == 16 && 'A' <= c <= 'F' then Some(c as int - 'A' as int + 10)
    else None
  }

  predicate AllDigitsIn(s: string, radix: nat) {
    forall i | 0 <= i < |s| :: DigitIn(s[i], radix).Some?
  }

  /** The length of the longest prefix of `s` made of `radix` digits. */
  function DigitRun(s: string, radix: nat): (k: nat)
    ensures k <= |s| && AllDigitsIn(s[..k], radix)
    ensures k < |s| ==> DigitIn(s[k], radix).None?
  {
    if s == [] || DigitIn(s[0], radix).None? then 0
    else
      var k := 1 + DigitRun(s[1..], radix);
      assert s[..k] == [s[0]] + s[1..][..k - 1];
      k
  }

  /** The value of a string of `radix` digits, most significant first. */
  function ValueOf(s: string, radix: nat): nat
    requires AllDigitsIn(s, radix)
  {
    if s == [] then 0 else ValueOf(s[..|s| - 1], radix) * radix + DigitIn(s[|s| - 1], radix).value
  }

  /** `s` without its leading white space. */
  function TrimStart(s: string): (t: string)
    ensures |t| <= |s| && t == s[|s| - |t|..]
    ensures t != [] ==> !IsWhitespace(t[0])
  {
    if s != [] && IsWhitespace(s[0]) then TrimStart(s[1..]) else s
  }

  /** The digits after the sign: a `0x`/`0X` prefix selects radix 16, and the longest digit run is read. */
  function ParseUnsigned(u: string): Option<nat> {
    var hex := |u| >= 2 && u[0] == '0' && (u[1] == 'x' || u[1] == 'X');
    var radix := if hex then 16 else 10;
    var v := if hex then u[2..] else u;
    var k := DigitRun(v, radix);
    if k == 0 then None else Some(ValueOf(v[..k], radix))
  }

  /**
   * `parseInt(s)` with no radix: leading white space is skipped, one sign is allowed,
   * and the digits are read by `ParseUnsigned`. `None` stands for NaN, the result
   * when no digit follows.
   */
  function ParseInt(s: string): Option<int> {
    var t := TrimStart(s);
    if t != [] && t[0] == '-' then
      match ParseUnsigned(t[1..])
      case Some(m) => Some(-(m as int))
      case None => None
    else if t != [] && t[0] == '+' then
      match ParseUnsigned(t[1..])
      case Some(m) => Some(m)
      case None => None
    else
      match ParseUnsigned(t)
      case Some(m) => Some(m)
      case None => None
  }

  lemma {:induction false} NatToStringValue(n: nat)
    ensures AllDigitsIn(NatToString(n), 10) && ValueOf(NatToString(n), 10) == n
    decreases n
  {
    var s := NatToString(n);
    if n >= 10 {
      NatToStringValue(n / 10);
      assert s[..|s| - 1] == NatToString(n / 10);
    }
  }

  lemma {:induction false} DigitRunOfDigits(s: string, radix: nat)
    requires AllDigitsIn(s, radix)
    ensures DigitRun(s, radix) == |s|
  {
    if s != [] {
      DigitRunOfDigits(s[1..], radix);
    }
  }

  lemma ParseUnsignedOfNatToString(n: nat)
    ensures ParseUnsigned(NatToString(n)) == Some(n)
  {
    var u := NatToString(n);
    NatToStringValue(n);
    DigitRunOfDigits(u, 10);
    assert |u| >= 2 ==> u[1] != 'x' && u[1] != 'X' by {
      if |u| >= 2 { assert IsDigit(u[1]); }
    }
    assert u[..|u|] == u;
  }

  /** What `String` writes, `parseInt` reads back: the clock values stored as cache timestamps survive. */
  lemma {:induction false} ParseIntOfIntToString(i: int)
    ensures ParseInt(IntToString(i)) == Some(i)
  {
    var n: nat := if i < 0 then -i else i;
    ParseUnsignedOfNatToString(n);
    var s := IntToString(i);
    assert !IsWhitespace(s[0]);
    assert TrimStart(s) == s;
    if i < 0 {
      assert s[1..] == NatToString(n);
    } else {
      assert IsDigit(s[0]);
    }
  }

  /** Distinct integers are written as distinct strings. */
  lemma IntToStringInjective(i: int, j: int)
    ensures IntToString(i) == IntToString(j) <==> i == j
  {
    if IntToString(i) == IntToString(j) {
      ParseIntOfIntToString(i);
      ParseIntOfIntToString(j);
    }
  }

  /** Digits read after the sign: none at all when the text holds no decimal digit. */
  lemma ParseUnsignedWithoutDigits(u: string)
    requires forall i | 0 <= i < |u| :: !IsDigit(u[i])
    ensures ParseUnsigned(u) == None
  {
    if u != [] {
      assert !IsDigit(u[0]);
    }
  }

  /** A string without any ASCII digit parses to NaN, never to a number. */
  lemma ParseIntWithoutDigits(s: string)
    requires forall i | 0 <= i < |s| :: !IsDigit(s[i])
    ensures ParseInt(s) == None
  {
    var t := TrimStart(s);
    assert forall i | 0 <= i < |t| :: t[i] == s[|s| - |t| + i];
    if t != [] && (t[0] == '-' || t[0] == '+') {
      ParseUnsignedWithoutDigits(t[1..]);
    } else {
      ParseUnsignedWithoutDigits(t);
    }
  }

  /** `Math.ceil(n / d)` for a positive divisor: the least `q` with `n <= q * d`. */
  function CeilDiv(n: int, d: int): (q: int)
    requires d > 0
    ensures (q - 1) * d < n <= q * d
  {
    var m := (-n) / d;
    assert -n == d * m + (-n) % d;
    -m
  }

  /** A JavaScript number restricted to what the stores compute: an integer, or NaN. */
  datatype JsNumber = Finite(value: int) | NaN

  /** `i <= x` in JavaScript: every comparison with NaN is false. */
  predicate AtMost(i: int, x: JsNumber) {
    x.Finite? && i <= x.value
  }

  /** `Math.ceil(x / d)`, where NaN stays NaN. */
  function CeilDivNumber(x: JsNumber, d: int): JsNumber
    requires d > 0
  {
    match x
    case Finite(n) => Finite(CeilDiv(n, d))
    case NaN => NaN
  }
}
