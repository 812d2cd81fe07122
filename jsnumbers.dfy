/**
  The pieces of JavaScript value semantics the server relies on: `String(n)` of an
  integer, `parseInt(s, 10)`, and the truthiness of strings and numbers in `a || b`
  and `if (x)`.
 */
module JsNumbers {
  import opened Wrappers

  /** The result of `parseInt`: a number, or NaN when no digit follows the sign. */
  datatype Parsed = NaN | Num(value: int)

  predicate IsDigit(c: char) { '0' <= c <= '9' }

  predicate AllDigits(s: string) { forall i :: 0 <= i < |s| ==> IsDigit(s[i]) }

  function DigitValue(c: char): (d: nat)
    requires IsDigit(c)
    ensures d < 10
  {
    (c as int) - ('0' as int)
  }

  function DigitChar(d: nat): (c: char)
    requires d < 10
    ensures IsDigit(c) && DigitValue(c) == d
  {
    (('0' as int) + d) as char
  }

  /** The characters `parseInt` skips before the number: JavaScript's WhiteSpace and LineTerminator. */
  predicate IsJsSpace(c: char)
  {
    c == '\t' || c == '\U{B}' || c == '\U{C}' || c == ' ' || c == '\U{A0}' || c == '\U{FEFF}'
    || c == '\U{1680}' || ('\U{2000}' <= c <= '\U{200A}') || c == '\U{202F}' || c == '\U{205F}'
    || c == '\U{3000}' || c == '\n' || c == '\r' || c == '\U{2028}' || c == '\U{2029}'
  }

  /** `s` without its leading white space. */
  function TrimStart(s: string): (r: string)
    ensures |r| <= |s| && r == s[|s| - |r|..]
    ensures r == [] || !IsJsSpace(r[0])
  {
    if s != [] && IsJsSpace(s[0]) then TrimStart(s[1..]) else s
  }

  /** What `TrimStart` drops is white space. */
  lemma {:induction false} TrimStartDropsSpace(s: string)
    ensures forall i :: 0 <= i < |s| - |TrimStart(s)| ==> IsJsSpace(s[i])
  {
    if s != [] && IsJsSpace(s[0]) {
      TrimStartDropsSpace(s[1..]);
      forall i | 0 <= i < |s| - |TrimStart(s)|
        ensures IsJsSpace(s[i])
      {
        if i > 0 {
          assert s[i] == s[1..][i - 1];
        }
      }
    }
  }

  /** The longest prefix of `s` made of decimal digits. */
  function DigitPrefix(s: string): (r: string)
    ensures |r| <= |s| && r == s[..|r|] && AllDigits(r)
    ensures |r| == |s| || !IsDigit(s[|r|])
  {
    if s != [] && IsDigit(s[0]) then [s[0]] + DigitPrefix(s[1..]) else []
  }

  /** The value of a string of decimal digits, most significant first. */
  function DigitsValue(d: string): (v: nat)
    requires AllDigits(d)
  {
    if d == [] then 0 else DigitsValue(d[..|d| - 1]) * 10 + DigitValue(d[|d| - 1])
  }

  /**
    `parseInt(s, 10)`: skip white space, take an optional sign, read the digits that follow.
    The lemmas `ParseIntSpaceDigits`, `ParseIntSpaceSignDigits`, `ParseIntSpaceNoNumber` and
    `ParseIntSpaceSignNoDigit` below give its value case by case.
   */
  function ParseInt(s: string): (r: Parsed)
    ensures r.NaN? <==> DigitPrefix(SignStripped(TrimStart(s))) == []
  {
    ParseTrimmed(TrimStart(s))
  }

  /** `parseInt` after the white space: the optional sign and the digits that follow it. */
  function ParseTrimmed(t: string): (r: Parsed)
    ensures r.NaN? <==> DigitPrefix(SignStripped(t)) == []
  {
    var digits := DigitPrefix(SignStripped(t));
    if digits == [] then NaN
    else if t[0] == '-' then Num(-(DigitsValue(digits) as int))
    else Num(DigitsValue(digits))
  }

  /** `t` without a leading `-` or `+`. */
  function SignStripped(t: string): (r: string)
    ensures r == t || (t != [] && (t[0] == '-' || t[0] == '+') && r == t[1..])
  {
    if t != [] && (t[0] == '-' || t[0] == '+') then t[1..] else t
  }

  /** The decimal digits of `n`, as `String(n)` writes a non-negative integer. */
  function NatString(n: nat): (s: string)
    decreases n
  {
    if n < 10 then [DigitChar(n)] else NatString(n / 10) + [DigitChar(n % 10)]
  }

  /** `String(n)` for an integer `n`. */
  function DecimalString(n: int): (s: string)
  {
    if n < 0 then "-" + NatString(-n) else NatString(n)
  }

  /** `String(n)` is its decimal digits, after a `-` exactly when `n` is negative. */
  lemma DecimalStringShape(n: int)
    ensures n >= 0 ==> DecimalString(n) != [] && AllDigits(DecimalString(n))
    ensures n < 0 ==> |DecimalString(n)| >= 2 && DecimalString(n)[0] == '-' && AllDigits(DecimalString(n)[1..])
  {
    if n < 0 {
      NatStringDigits(-n);
      assert DecimalString(n)[1..] == NatString(-n);
    } else {
      NatStringDigits(n);
    }
  }

  /** `Some(s)` when `s` is a truthy string (present and not empty), as `x || y` and `if (x)` see it. */
  predicate TruthyString(s: Option<string>) { s.Some? && s.value != "" }

  /** `s || null` (and `s || undefined`): a falsy string becomes absent. */
  function OrNull(s: Option<string>): (r: Option<string>)
  {
    if TruthyString(s) then s else None
  }

  /** `n || 0` for a nullable number. */
  function OrZero(n: Option<int>): (r: int)
  {
    match n
    case Some(v) => v
    case None => 0
  }

  /** The id `if (product_id)` lets through: a number other than 0 (NaN and 0 are falsy). */
  function TruthyNumber(p: Parsed): (r: Option<int>)
  {
    if p.Num? && p.value != 0 then Some(p.value) else None
  }

  lemma {:induction false} NatStringDigits(n: nat)
    ensures NatString(n) != [] && AllDigits(NatString(n))
    decreases n
  {
    if n >= 10 {
      NatStringDigits(n / 10);
    }
  }

  lemma {:induction false} NatStringValue(n: nat)
    ensures AllDigits(NatString(n)) && DigitsValue(NatString(n)) == n
    decreases n
  {
    NatStringDigits(n);
    if n >= 10 {
      var s := NatString(n);
      NatStringValue(n / 10);
      assert s[..|s| - 1] == NatString(n / 10);
    }
  }

  lemma {:induction false} DigitPrefixOfDigits(d: string, rest: string)
    requires AllDigits(d)
    requires rest == [] || !IsDigit(rest[0])
    ensures DigitPrefix(d + rest) == d
  {
    if d != [] {
      assert (d + rest)[1..] == d[1..] + rest;
      DigitPrefixOfDigits(d[1..], rest);
    } else {
      assert d + rest == rest;
    }
  }

  lemma ParseIntUnsigned(d: string, rest: string)
    requires d != [] && AllDigits(d)
    requires rest == [] || !IsDigit(rest[0])
    ensures ParseInt(d + rest) == Num(DigitsValue(d))
  {
    var t := d + rest;
    DigitPrefixOfDigits(d, rest);
    assert t[0] == d[0];
    assert TrimStart(t) == t by { assert !IsJsSpace(t[0]); }
    assert t[0] != '-' && t[0] != '+';
    assert SignStripped(t) == t;
  }

  /** `parseInt` of a string that starts with `-` and no white space reads the digits after the sign. */
  lemma ParseIntMinus(u: string, d: string)
    requires u != [] && u[0] == '-' && d != [] && AllDigits(d)
    requires DigitPrefix(u[1..]) == d
    ensures ParseInt(u) == Num(-(DigitsValue(d) as int))
  {
    assert TrimStart(u) == u by {
      assert !IsJsSpace(u[0]);
    }
    assert SignStripped(u) == u[1..];
  }

  lemma ParseIntNegative(d: string, rest: string)
    requires d != [] && AllDigits(d)
    requires rest == [] || !IsDigit(rest[0])
    ensures ParseInt("-" + d + rest) == Num(-(DigitsValue(d) as int))
  {
    var u := "-" + d + rest;
    assert u[1..] == d + rest;
    DigitPrefixOfDigits(d, rest);
    ParseIntMinus(u, d);
  }

  /** `parseInt(String(n), 10) == n`, and it keeps stopping at `n`'s last digit when non-digits follow. */
  lemma ParseIntDecimal(n: int, rest: string)
    requires rest == [] || !IsDigit(rest[0])
    ensures ParseInt(DecimalString(n) + rest) == Num(n)
  {
    if n < 0 {
      ParseIntDecimalNegative(n, rest);
    } else {
      NatStringValue(n);
      NatStringDigits(n);
      ParseIntUnsigned(NatString(n), rest);
    }
  }

  lemma ParseIntDecimalNegative(n: int, rest: string)
    requires n < 0
    requires rest == [] || !IsDigit(rest[0])
    ensures ParseInt(DecimalString(n) + rest) == Num(n)
  {
    NatStringValue(-n);
    NatStringDigits(-n);
    ParseIntNegative(NatString(-n), rest);
  }

  /** `SignStripped` drops exactly one leading `-` or `+`, and nothing else. */
  lemma SignStrippedDropsSign(t: string)
    ensures t != [] && (t[0] == '-' || t[0] == '+') ==> SignStripped(t) == t[1..]
    ensures t == [] || (t[0] != '-' && t[0] != '+') ==> SignStripped(t) == t
  {
  }

  /** Leading white space is skipped: `ws + u` parses as `u` does when `u` does not start with white space. */
  lemma ParseIntSkipsSpace(ws: string, u: string)
    requires forall i :: 0 <= i < |ws| ==> IsJsSpace(ws[i])
    requires u == [] || !IsJsSpace(u[0])
    ensures ParseInt(ws + u) == ParseInt(u)
  {
    TrimStartSpaces(ws, u);
    ParseIntOfTrimmed(ws + u);
  }

  lemma ParseIntOfTrimmed(s: string)
    ensures ParseInt(s) == ParseInt(TrimStart(s))
  {
    assert TrimStart(TrimStart(s)) == TrimStart(s);
  }

  lemma {:induction false} TrimStartSpaces(ws: string, u: string)
    requires forall i :: 0 <= i < |ws| ==> IsJsSpace(ws[i])
    requires u == [] || !IsJsSpace(u[0])
    ensures TrimStart(ws + u) == u
  {
    if ws == [] {
      assert ws + u == u;
    } else {
      assert (ws + u)[0] == ws[0];
      assert (ws + u)[1..] == ws[1..] + u;
      TrimStartSpaces(ws[1..], u);
    }
  }

  /** `parseInt` of a string that starts with `+` and no white space reads the digits after the sign. */
  lemma ParseIntPlus(u: string, d: string)
    requires u != [] && u[0] == '+' && d != [] && AllDigits(d)
    requires DigitPrefix(u[1..]) == d
    ensures ParseInt(u) == Num(DigitsValue(d))
  {
    assert TrimStart(u) == u by {
      assert !IsJsSpace(u[0]);
    }
    assert SignStripped(u) == u[1..];
  }

  /** White space, then digits `d`, then a non-digit or the end: the value of `d`. */
  lemma ParseIntSpaceDigits(ws: string, d: string, rest: string)
    requires forall i :: 0 <= i < |ws| ==> IsJsSpace(ws[i])
    requires d != [] && AllDigits(d)
    requires rest == [] || !IsDigit(rest[0])
    ensures ParseInt(ws + d + rest) == Num(DigitsValue(d))
  {
    var u := d + rest;
    assert ws + d + rest == ws + u;
    assert u[0] == d[0];
    ParseIntSkipsSpace(ws, u);
    ParseIntUnsigned(d, rest);
  }

  /** White space, a sign `c`, digits `d`, then a non-digit or the end: the value of `d`, negated for `-`. */
  lemma ParseIntSpaceSignDigits(ws: string, c: char, d: string, rest: string)
    requires forall i :: 0 <= i < |ws| ==> IsJsSpace(ws[i])
    requires c == '-' || c == '+'
    requires d != [] && AllDigits(d)
    requires rest == [] || !IsDigit(rest[0])
    ensures ParseInt(ws + [c] + d + rest) == Num(if c == '-' then -(DigitsValue(d) as int) else DigitsValue(d))
  {
    var u := [c] + d + rest;
    assert ws + [c] + d + rest == ws + u;
    assert ParseInt(ws + u) == ParseInt(u) by {
      assert u[0] == c;
      ParseIntSkipsSpace(ws, u);
    }
    ParseIntSignDigits(c, d, rest);
  }

  lemma ParseIntSignDigits(c: char, d: string, rest: string)
    requires c == '-' || c == '+'
    requires d != [] && AllDigits(d)
    requires rest == [] || !IsDigit(rest[0])
    ensures ParseInt([c] + d + rest) == Num(if c == '-' then -(DigitsValue(d) as int) else DigitsValue(d))
  {
    var u := [c] + d + rest;
    assert u[1..] == d + rest;
    DigitPrefixOfDigits(d, rest);
    if c == '-' {
      ParseIntMinus(u, d);
    } else {
      ParseIntPlus(u, d);
    }
  }

  /** White space, then neither a digit nor a sign (or nothing at all): NaN. */
  lemma ParseIntSpaceNoNumber(ws: string, rest: string)
    requires forall i :: 0 <= i < |ws| ==> IsJsSpace(ws[i])
    requires rest == [] || (!IsJsSpace(rest[0]) && !IsDigit(rest[0]) && rest[0] != '-' && rest[0] != '+')
    ensures ParseInt(ws + rest) == NaN
  {
    assert ParseInt(ws + rest) == ParseInt(rest) by {
      ParseIntSkipsSpace(ws, rest);
    }
    ParseIntNoNumber(rest);
  }

  lemma ParseIntNoNumber(u: string)
    requires u == [] || (!IsJsSpace(u[0]) && !IsDigit(u[0]) && u[0] != '-' && u[0] != '+')
    ensures ParseInt(u) == NaN
  {
    assert TrimStart(u) == u;
    SignStrippedDropsSign(u);
  }

  /** White space, a sign, then no digit: NaN. */
  lemma ParseIntSpaceSignNoDigit(ws: string, c: char, rest: string)
    requires forall i :: 0 <= i < |ws| ==> IsJsSpace(ws[i])
    requires c == '-' || c == '+'
    requires rest == [] || !IsDigit(rest[0])
    ensures ParseInt(ws + [c] + rest) == NaN
  {
    var u := [c] + rest;
    assert ws + [c] + rest == ws + u;
    assert ParseInt(ws + u) == ParseInt(u) by {
      assert u[0] == c;
      ParseIntSkipsSpace(ws, u);
    }
    ParseIntSignNoDigit(c, rest);
  }

  lemma ParseIntSignNoDigit(c: char, rest: string)
    requires c == '-' || c == '+'
    requires rest == [] || !IsDigit(rest[0])
    ensures ParseInt([c] + rest) == NaN
  {
    var u := [c] + rest;
    assert TrimStart(u) == u by {
      assert !IsJsSpace(u[0]);
    }
    SignStrippedDropsSign(u);
    assert u[1..] == rest;
  }

  /** A metadata string containing no digit at all parses to NaN. */
  lemma ParseIntNoDigits(s: string)
    requires forall i :: 0 <= i < |s| ==> !IsDigit(s[i])
    ensures ParseInt(s) == NaN
  {
    var t := SignStripped(TrimStart(s));
    assert t == [] || !IsDigit(t[0]) by {
      if t != [] {
        assert t[0] in s;
      }
    }
  }
}
