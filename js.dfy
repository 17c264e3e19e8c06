/** JavaScript value semantics that the proxy's decisions rest on: truthiness of
    possibly undefined strings, `parseInt(x, 10)`, and the loose comparison
    `x != 0` of a string with the number zero. */
module Js {

  datatype Option<+T> = None | Some(value: T)

  /** A JavaScript number, restricted to the values the proxy produces:
      integers (the results of `parseInt` and their differences) and NaN. */
  datatype Num = NaN | Int(value: int)

  function Get<K, V>(m: map<K, V>, k: K): Option<V>
  {
    if k in m then Some(m[k]) else None
  }

  /** Truthiness of a string that may be undefined: only undefined and "" are falsy. */
  predicate Truthy(v: Option<string>)
  {
    v.Some? && v.value != ""
  }

  /** `v || fallback` for a string that may be undefined. */
  function OrElse(v: Option<string>, fallback: string): string
  {
    if Truthy(v) then v.value else fallback
  }

  /** `ToString(v)`, the conversion `parseInt` applies to its argument first. */
  function ToStr(v: Option<string>): string
  {
    if v.Some? then v.value else "undefined"
  }

  /** `n || fallback` for a number: NaN and 0 are falsy. */
  function NumOr(n: Num, fallback: int): int
  {
    if n.Int? && n.value != 0 then n.value else fallback
  }

  /** `a - b` where `a` may be NaN. */
  function Sub(a: Num, b: int): Num
  {
    if a.Int? then Int(a.value - b) else NaN
  }

  /** `a < k`: every comparison with NaN is false. */
  predicate Less(a: Num, k: int)
  {
    a.Int? && a.value < k
  }

  predicate StartsWith(s: string, prefix: string)
  {
    |prefix| <= |s| && s[..|prefix|] == prefix
  }

  predicate EndsWith(s: string, suffix: string)
  {
    |suffix| <= |s| && s[|s| - |suffix|..] == suffix
  }

  // ---------------------------------------------------------------------------
  // Characters

  /** WhiteSpace and LineTerminator code points, the characters `parseInt` and
      `ToNumber` strip (section 7.2 and 7.3 of ECMA-262). */
  predicate IsSpace(c: char)
  {
    c in {'\t', '\n', '\U{000B}', '\U{000C}', '\r', ' ', '\U{00A0}', '\U{1680}',
          '\U{2028}', '\U{2029}', '\U{202F}', '\U{205F}', '\U{3000}', '\U{FEFF}'}
    || ('\U{2000}' <= c <= '\U{200A}')
  }

  predicate IsDigit(c: char)
  {
    '0' <= c <= '9'
  }

  predicate AllDigits(s: string)
  {
    forall i :: 0 <= i < |s| ==> IsDigit(s[i])
  }

  predicate AllSpaces(s: string)
  {
    forall i :: 0 <= i < |s| ==> IsSpace(s[i])
  }

  function DigitChar(d: nat): char
    requires d < 10
  {
    ('0' as int + d) as char
  }

  // ---------------------------------------------------------------------------
  // Trimming

  /** The string without its leading white space. */
  function TrimStart(s: string): (r: string)
    ensures |r| <= |s| && r == s[|s| - |r|..]
    ensures AllSpaces(s[..|s| - |r|])
    ensures r != [] ==> !IsSpace(r[0])
    decreases |s|
  {
    if s != [] && IsSpace(s[0]) then TrimStart(s[1..]) else s
  }

  /** The string without its trailing white space. */
  function TrimEnd(s: string): (r: string)
    ensures |r| <= |s| && r == s[..|r|]
    ensures AllSpaces(s[|r|..])
    ensures r != [] ==> !IsSpace(r[|r| - 1])
    decreases |s|
  {
    if s != [] && IsSpace(s[|s| - 1]) then
      var t := s[..|s| - 1];
      var r := TrimEnd(t);
      assert t[..|r|] == s[..|r|];
      assert s[|r|..] == t[|r|..] + [s[|s| - 1]];
      r
    else s
  }

  function Trim(s: string): string
  {
    TrimEnd(TrimStart(s))
  }

  // ---------------------------------------------------------------------------
  // Decimal digits

  /** Length of the longest prefix of decimal digits. */
  function DigitRun(s: string): (n: nat)
    ensures n <= |s| && AllDigits(s[..n])
    ensures n < |s| ==> !IsDigit(s[n])
    decreases |s|
  {
    if s != [] && IsDigit(s[0]) then 1 + DigitRun(s[1..]) else 0
  }

  /** The value of a string of decimal digits, most significant first. */
  function DigitsValue(d: string): nat
    requires AllDigits(d)
    decreases |d|
  {
    if d == [] then 0 else DigitsValue(d[..|d| - 1]) * 10 + DigitOf(d[|d| - 1])
  }

  function DigitOf(c: char): nat
    requires IsDigit(c)
  {
    c as int - '0' as int
  }

  lemma DigitIsNotSpace(c: char)
    requires IsDigit(c) || c == '-'
    ensures !IsSpace(c)
  {
  }

  /** The shortest decimal rendering of a natural number. */
  function Digits(n: nat): (s: string)
    ensures s != [] && AllDigits(s)
    ensures s[0] == '0' <==> n == 0
    decreases n
  {
    if n < 10 then [DigitChar(n)] else Digits(n / 10) + [DigitChar(n % 10)]
  }

  /** `String(n)` for an integer: a minus sign for negatives, then the digits. */
  function Decimal(n: int): (s: string)
  {
    if n < 0 then "-" + Digits(-n) else Digits(n)
  }

  // ---------------------------------------------------------------------------
  // parseInt(s, 10)

  /** Whether `t` begins with a decimal digit, possibly after one sign. */
  predicate StartsWithNumber(t: string)
  {
    (t != [] && IsDigit(t[0]))
    || (|t| >= 2 && (t[0] == '+' || t[0] == '-') && IsDigit(t[1]))
  }

  /** `parseInt(s, 10)`: skip leading white space, take one optional sign, then
      the longest run of decimal digits; NaN when that run is empty. Characters
      after the run are ignored. */
  function ParseInt(s: string): (r: Num)
    ensures r.NaN? <==> !StartsWithNumber(TrimStart(s))
  {
    ParseSigned(TrimStart(s))
  }

  /** `parseInt` on a string whose leading white space is already gone. */
  function ParseSigned(t: string): (r: Num)
    ensures r.NaN? <==> !StartsWithNumber(t)
  {
    if t != [] && t[0] == '-' then Negate(ParseDigits(t[1..]))
    else if t != [] && t[0] == '+' then ParseDigits(t[1..])
    else ParseDigits(t)
  }

  /** The value of the leading digit run, NaN when there is none. */
  function ParseDigits(u: string): (r: Num)
    ensures r.NaN? <==> (u == [] || !IsDigit(u[0]))
  {
    var n := DigitRun(u);
    if n == 0 then NaN else Int(DigitsValue(u[..n]))
  }

  function Negate(a: Num): Num
  {
    if a.Int? then Int(-a.value) else NaN
  }

  lemma {:induction false} DigitsValueOfDigits(n: nat)
    ensures DigitsValue(Digits(n)) == n
    decreases n
  {
    if n >= 10 {
      DigitsValueOfDigits(n / 10);
      var d := Digits(n / 10) + [DigitChar(n % 10)];
      assert d[..|d| - 1] == Digits(n / 10);
    }
  }

  lemma {:induction false} DigitRunOfPrefix(d: string, rest: string)
    requires AllDigits(d)
    requires rest == [] || !IsDigit(rest[0])
    ensures DigitRun(d + rest) == |d|
    decreases |d|
  {
    if d == [] {
      assert d + rest == rest;
    } else {
      assert (d + rest)[1..] == d[1..] + rest;
      DigitRunOfPrefix(d[1..], rest);
    }
  }

  lemma {:induction false} TrimStartOfPadded(ws: string, t: string)
    requires AllSpaces(ws)
    requires t == [] || !IsSpace(t[0])
    ensures TrimStart(ws + t) == t
    decreases |ws|
  {
    if ws == [] {
      assert ws + t == t;
    } else {
      assert (ws + t)[1..] == ws[1..] + t;
      TrimStartOfPadded(ws[1..], t);
    }
  }

  /** `parseInt` reads back what `String(n)` writes, whatever white space comes
      before it and whatever non-digit text comes after it. */
  lemma ParseIntOfDecimal(ws: string, n: int, rest: string)
    requires AllSpaces(ws)
    requires rest == [] || !IsDigit(rest[0])
    ensures ParseInt(ws + Decimal(n) + rest) == Int(n)
  {
    var t := Decimal(n) + rest;
    assert ws + Decimal(n) + rest == ws + t;
    DigitIsNotSpace(t[0]);
    TrimStartOfPadded(ws, t);
    ParseSignedOfDecimal(n, rest);
  }

  lemma ParseIntOfZero()
    ensures ParseInt("0") == Int(0)
  {
    assert Decimal(0) == [DigitChar(0)] == "0";
    ParseIntOfDecimal([], 0, []);
    assert [] + Decimal(0) + [] == Decimal(0);
  }

  lemma ParseSignedOfDecimal(n: int, rest: string)
    requires rest == [] || !IsDigit(rest[0])
    ensures ParseSigned(Decimal(n) + rest) == Int(n)
  {
    if n < 0 {
      ParseSignedOfNegative(-n, rest);
    } else {
      ParseSignedOfDigits(n, rest);
    }
  }

  lemma ParseSignedOfNegative(m: nat, rest: string)
    requires m > 0
    requires rest == [] || !IsDigit(rest[0])
    ensures ParseSigned(Decimal(-(m as int)) + rest) == Int(-(m as int))
  {
    var u := Digits(m) + rest;
    var t := Decimal(-(m as int)) + rest;
    assert t == "-" + u;
    assert t[0] == '-' && t[1..] == u;
    ParseDigitsOf(m, rest);
  }

  lemma ParseSignedOfDigits(m: nat, rest: string)
    requires rest == [] || !IsDigit(rest[0])
    ensures ParseSigned(Decimal(m) + rest) == Int(m)
  {
    var t := Digits(m) + rest;
    assert t[0] == Digits(m)[0] && IsDigit(t[0]);
    ParseDigitsOf(m, rest);
  }

  lemma ParseDigitsOf(m: nat, rest: string)
    requires rest == [] || !IsDigit(rest[0])
    ensures ParseDigits(Digits(m) + rest) == Int(m)
  {
    ParseUnsigned(Digits(m), rest);
    DigitsValueOfDigits(m);
  }

  /** The digit run of `Digits(m) + rest` is exactly `Digits(m)`. */
  lemma ParseUnsigned(d: string, rest: string)
    requires d != [] && AllDigits(d)
    requires rest == [] || !IsDigit(rest[0])
    ensures DigitRun(d + rest) == |d| && (d + rest)[..|d|] == d
  {
    DigitRunOfPrefix(d, rest);
  }

  // ---------------------------------------------------------------------------
  // The loose comparison `v != 0`

  function Count(s: string, c: char): (k: nat)
    ensures k <= |s|
    decreases |s|
  {
    if s == [] then 0 else (if s[0] == c then 1 else 0) + Count(s[1..], c)
  }

  /** Length of the longest prefix made of '0' and '.' characters. */
  function ZeroRun(s: string): (n: nat)
    ensures n <= |s|
    ensures n < |s| ==> s[n] != '0' && s[n] != '.'
    decreases |s|
  {
    if s != [] && (s[0] == '0' || s[0] == '.') then 1 + ZeroRun(s[1..]) else 0
  }

  /** An ExponentPart of a StrDecimalLiteral: `e` or `E`, an optional sign, digits. */
  predicate IsExponent(e: string)
  {
    |e| >= 2 && (e[0] == 'e' || e[0] == 'E') &&
    var d := if e[1] == '+' || e[1] == '-' then e[2..] else e[1..];
    d != [] && AllDigits(d)
  }

  /** A StrDecimalLiteral whose value is zero: an optional sign, a mantissa of
      zeros with at most one point and at least one digit, an optional exponent. */
  predicate IsZeroDecimal(t: string)
  {
    var u := if t != [] && (t[0] == '+' || t[0] == '-') then t[1..] else t;
    var m := ZeroRun(u);
    Count(u[..m], '.') <= 1 && Count(u[..m], '0') >= 1 && (m == |u| || IsExponent(u[m..]))
  }

  /** A NonDecimalIntegerLiteral (`0x`, `0o`, `0b`) whose value is zero. */
  predicate IsZeroRadix(t: string)
  {
    |t| >= 3 && t[0] == '0' && t[1] in {'x', 'X', 'o', 'O', 'b', 'B'} &&
    forall i :: 2 <= i < |t| ==> t[i] == '0'
  }

  /** `ToNumber(s) == 0` for a string: after trimming white space, the string
      is empty or a numeric literal with value zero. */
  predicate IsZeroNumeric(s: string)
  {
    var t := Trim(s);
    t == [] || IsZeroDecimal(t) || IsZeroRadix(t)
  }

  /** `v == 0` for a possibly undefined string: undefined is never loosely
      equal to a number; a string is compared after `ToNumber`. */
  predicate LooselyZero(v: Option<string>): (r: bool)
    ensures r ==> v.Some?
    ensures v.Some? && AllSpaces(v.value) ==> r
  {
    AllSpacesTrim(if v.Some? then v.value else "");
    v.Some? && IsZeroNumeric(v.value)
  }

  /** A string of white space only trims to the empty string. */
  lemma AllSpacesTrim(s: string)
    ensures AllSpaces(s) ==> Trim(s) == []
  {
  }

  lemma TrimOfDecimal(n: int)
    ensures Trim(Decimal(n)) == Decimal(n)
  {
    var s := Decimal(n);
    var d := Digits(if n < 0 then -n else n);
    assert s[0] == '-' || s[0] == d[0];
    DigitIsNotSpace(s[0]);
    assert TrimStart(s) == s;
    assert s[|s| - 1] == d[|d| - 1];
    DigitIsNotSpace(s[|s| - 1]);
  }

  /** A decimal integer is loosely equal to zero exactly when it is zero. */
  lemma LooselyZeroOfDecimal(n: int)
    ensures LooselyZero(Some(Decimal(n))) <==> n == 0
  {
    TrimOfDecimal(n);
    var s := Decimal(n);
    if n == 0 {
      assert s == "0";
      assert ZeroRun(s) == 1;
      assert s[..1] == "0";
      assert IsZeroDecimal(s);
    } else {
      var d := Digits(if n < 0 then -n else n);
      assert d[0] != '0' && IsDigit(d[0]);
      assert ZeroRun(d) == 0;
      assert Count(d[..0], '0') == 0;
      assert !IsZeroDecimal(s);
      assert s[0] != '0';
    }
  }
}
