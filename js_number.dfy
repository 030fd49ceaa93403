/** The slice of JavaScript number semantics the post list relies on:
    `skip` and `limit` are numbers read from the URL with `parseInt`, written
    back with `toString`, compared, added and clamped with `Math.max`. */
module JsNumber {

  /** A JavaScript number as this program can hold it: an integer, or NaN,
      which `parseInt` returns for a string that has no leading digits. */
  datatype Num = Int(value: int) | NaN

  /** JavaScript truthiness of a number: `0` and `NaN` are falsy. */
  predicate Truthy(n: Num)
  {
    n.Int? && n.value != 0
  }

  /** `a + b`; NaN is absorbing. */
  function Add(a: Num, b: Num): Num
  {
    if a.Int? && b.Int? then Int(a.value + b.value) else NaN
  }

  /** `a - b`; NaN is absorbing. */
  function Sub(a: Num, b: Num): Num
  {
    if a.Int? && b.Int? then Int(a.value - b.value) else NaN
  }

  /** `Math.max(0, a)`; `Math.max` returns NaN as soon as one argument is NaN. */
  function MaxZero(a: Num): Num
  {
    if a.NaN? then NaN else if a.value < 0 then Int(0) else a
  }

  /** `a >= b` for a number against an integer: every comparison with NaN is false. */
  predicate AtLeast(a: Num, b: int)
  {
    a.Int? && a.value >= b
  }

  // ---------------------------------------------------------------------------
  // Number.prototype.toString for integers (radix 10)

  predicate IsDecimalDigit(c: char)
  {
    '0' <= c <= '9'
  }

  predicate IsHexDigit(c: char)
  {
    IsDecimalDigit(c) || 'a' <= c <= 'f' || 'A' <= c <= 'F'
  }

  predicate IsRadixDigit(c: char, radix: nat)
  {
    if radix == 16 then IsHexDigit(c) else IsDecimalDigit(c)
  }

  function DigitChar(d: nat): (c: char)
    requires d < 10
    ensures IsDecimalDigit(c)
  {
    ['0', '1', '2', '3', '4', '5', '6', '7', '8', '9'][d]
  }

  function DigitValue(c: char): nat
    requires IsHexDigit(c)
  {
    if IsDecimalDigit(c) then c as int - '0' as int
    else if 'a' <= c <= 'f' then c as int - 'a' as int + 10
    else c as int - 'A' as int + 10
  }

  /** The decimal digits of a natural number, most significant first, without
      leading zeros. */
  function NaturalDigits(n: nat): (s: string)
    ensures |s| > 0
    ensures forall i :: 0 <= i < |s| ==> IsDecimalDigit(s[i])
    ensures |s| > 1 ==> s[0] != '0'
  {
    if n < 10 then [DigitChar(n)] else NaturalDigits(n / 10) + [DigitChar(n % 10)]
  }

  /** `n.toString()` for an integer `n`. */
  function ToString(n: int): string
  {
    if n < 0 then "-" + NaturalDigits(-n) else NaturalDigits(n)
  }

  // ---------------------------------------------------------------------------
  // parseInt(s) with no radix argument

  /** The white space that `parseInt` skips before the number: the ASCII space
      and control white space, no-break space U+00A0, the byte order mark
      U+FEFF and the line and paragraph separators U+2028 and U+2029 (the other
      Unicode space separators are not modelled). */
  predicate IsWhiteSpace(c: char)
  {
    c == ' ' || c == '\t' || c == '\n' || c == '\r' || c == '\U{000B}' || c == '\U{000C}'
    || c == '\U{00A0}' || c == '\U{FEFF}' || c == '\U{2028}' || c == '\U{2029}'
  }

  function TrimStart(s: string): (t: string)
    ensures |t| <= |s| && t == s[|s| - |t|..]
    ensures |t| > 0 ==> !IsWhiteSpace(t[0])
  {
    if |s| > 0 && IsWhiteSpace(s[0]) then TrimStart(s[1..]) else s
  }

  /** The length of the longest prefix of `s` made of digits of the radix. */
  function DigitPrefixLength(s: string, radix: nat): (n: nat)
    ensures n <= |s|
    ensures forall i :: 0 <= i < n ==> IsRadixDigit(s[i], radix)
    ensures n < |s| ==> !IsRadixDigit(s[n], radix)
  {
    if |s| > 0 && IsRadixDigit(s[0], radix) then 1 + DigitPrefixLength(s[1..], radix) else 0
  }

  /** The value of a string of digits in the given radix, read most significant first. */
  function DigitsValue(s: string, radix: nat): nat
    requires radix == 10 || radix == 16
    requires forall i :: 0 <= i < |s| ==> IsRadixDigit(s[i], radix)
  {
    if s == [] then 0
    else
      var last := s[|s| - 1];
      assert IsRadixDigit(last, radix);
      DigitsValue(s[..|s| - 1], radix) * radix + DigitValue(last)
  }

  /** `parseInt(s)`: skip leading white space, read an optional sign, then the
      magnitude. */
  function ParseInt(s: string): Num
  {
    var t := TrimStart(s);
    if |t| > 0 && t[0] == '-' then Negate(ParseMagnitude(t[1..]))
    else if |t| > 0 && t[0] == '+' then ParseMagnitude(t[1..])
    else ParseMagnitude(t)
  }

  /** The unsigned part of `parseInt`: radix 16 after a `0x` or `0X` prefix, else
      radix 10, then the longest run of digits; NaN when there is none.
      Whatever follows the digits is ignored. */
  function ParseMagnitude(u: string): Num
  {
    var hex := |u| >= 2 && u[0] == '0' && (u[1] == 'x' || u[1] == 'X');
    var radix := if hex then 16 else 10;
    var v := if hex then u[2..] else u;
    var n := DigitPrefixLength(v, radix);
    if n == 0 then NaN else Int(DigitsValue(v[..n], radix))
  }

  /** Unary minus. */
  function Negate(a: Num): Num
  {
    if a.NaN? then NaN else Int(-a.value)
  }

  // ---------------------------------------------------------------------------
  // Round trip: parseInt reads back what toString wrote

  lemma {:induction false} NaturalDigitsValue(n: nat)
    ensures DigitsValue(NaturalDigits(n), 10) == n
  {
    var s := NaturalDigits(n);
    if n >= 10 {
      NaturalDigitsValue(n / 10);
      assert s[..|s| - 1] == NaturalDigits(n / 10);
    }
  }

  lemma {:induction false} DigitPrefixOfDigits(a: string, b: string, radix: nat)
    requires forall i :: 0 <= i < |a| ==> IsRadixDigit(a[i], radix)
    requires |b| > 0 ==> !IsRadixDigit(b[0], radix)
    ensures DigitPrefixLength(a + b, radix) == |a|
  {
    if |a| > 0 {
      assert (a + b)[1..] == a[1..] + b;
      DigitPrefixOfDigits(a[1..], b, radix);
    } else {
      assert a + b == b;
    }
  }

  lemma {:induction false} MagnitudeOfDigits(m: nat, rest: string)
    requires |rest| > 0 ==> !IsDecimalDigit(rest[0]) && rest[0] != 'x' && rest[0] != 'X'
    ensures ParseMagnitude(NaturalDigits(m) + rest) == Int(m)
  {
    var d := NaturalDigits(m);
    var u := d + rest;
    assert !(|u| >= 2 && u[0] == '0' && (u[1] == 'x' || u[1] == 'X')) by {
      if |d| == 1 {
        assert |u| >= 2 ==> u[1] == rest[0];
      } else {
        assert u[0] == d[0] && u[1] == d[1];
      }
    }
    DigitPrefixOfDigits(d, rest, 10);
    assert u[..|d|] == d;
    NaturalDigitsValue(m);
  }

  /** On a string that starts with a digit, `parseInt` reads the magnitude. */
  lemma ParseIntOfDigitFirst(u: string)
    requires |u| > 0 && IsDecimalDigit(u[0])
    ensures ParseInt(u) == ParseMagnitude(u)
  {
    assert TrimStart(u) == u by { assert !IsWhiteSpace(u[0]); }
    assert u[0] != '-' && u[0] != '+';
  }

  /** With a minus sign in front of a digit, `parseInt` negates the magnitude. */
  lemma ParseIntOfMinus(u: string, k: Num)
    requires |u| > 0 && IsDecimalDigit(u[0])
    requires ParseMagnitude(u) == k
    ensures ParseInt("-" + u) == Negate(k)
  {
    var s := "-" + u;
    assert TrimStart(s) == s by { assert !IsWhiteSpace(s[0]); }
    assert s[1..] == u;
  }

  /** `parseInt(n.toString() + rest)` is `n` whenever `rest` does not go on with
      a digit or an `x`: in particular `parseInt(n.toString())` is `n`. */
  lemma {:induction false} ParseIntToString(n: int, rest: string)
    requires |rest| > 0 ==> !IsDecimalDigit(rest[0]) && rest[0] != 'x' && rest[0] != 'X'
    ensures ParseInt(ToString(n) + rest) == Int(n)
  {
    var m: nat := if n < 0 then -n else n;
    var u := NaturalDigits(m) + rest;
    var s := if n < 0 then "-" + u else u;
    assert ToString(n) + rest == s;
    assert ParseInt(s) == Int(n) by {
      assert IsDecimalDigit(u[0]) by { assert u[0] == NaturalDigits(m)[0]; }
      MagnitudeOfDigits(m, rest);
      if n < 0 {
        ParseIntOfMinus(u, Int(m));
      } else {
        ParseIntOfDigitFirst(u);
      }
    }
  }
}
