/** Decimal text and integers as JavaScript converts between them for the
    `limit` query parameter and the cache key (app.js:167-168):
    `parseInt(text, 10)` one way, `String(n)` (template interpolation) the
    other. Integers are unbounded here; see the README for what that leaves
    out. */
module Decimal {
  import opened Wrappers

  predicate IsDigit(c: char)
  {
    '0' <= c <= '9'
  }

  predicate AllDigits(s: string)
  {
    forall i | 0 <= i < |s| :: IsDigit(s[i])
  }

  function DigitValue(c: char): nat
    requires IsDigit(c)
  {
    (c as int) - ('0' as int)
  }

  function DigitChar(d: nat): (c: char)
    requires d < 10
    ensures IsDigit(c) && DigitValue(c) == d
  {
    (('0' as int) + d) as char
  }

  /** The number a string of decimal digits denotes. */
  function DigitsValue(ds: string): nat
    requires AllDigits(ds)
  {
    if ds == [] then 0 else 10 * DigitsValue(ds[..|ds| - 1]) + DigitValue(ds[|ds| - 1])
  }

  /** `String(n)` for n >= 0: its decimal digits, no sign, no leading zero. */
  function NatToString(n: nat): (s: string)
    ensures s != [] && AllDigits(s)
  {
    if n < 10 then [DigitChar(n)] else NatToString(n / 10) + [DigitChar(n % 10)]
  }

  /** `String(n)` for any integer: a minus sign before the digits of -n when n < 0. */
  function IntToString(n: int): string
  {
    if n < 0 then "-" + NatToString(-n) else NatToString(n)
  }

  /** The characters `parseInt` skips before the number: ECMAScript's
      WhiteSpace (tab, vertical tab, form feed, the byte order mark and the
      space separators) and LineTerminator. */
  predicate IsJsWhiteSpace(c: char)
  {
    || c == '\t' || c == '\n' || c == '\U{000B}' || c == '\U{000C}' || c == '\r'
    || c == ' ' || c == '\U{00A0}' || c == '\U{1680}' || ('\U{2000}' <= c <= '\U{200A}')
    || c == '\U{2028}' || c == '\U{2029}' || c == '\U{202F}' || c == '\U{205F}'
    || c == '\U{3000}' || c == '\U{FEFF}'
  }

  /** `s` with its leading white space removed. */
  function TrimStart(s: string): (r: string)
    ensures |r| <= |s| && r == s[|s| - |r|..]
    ensures r == [] || !IsJsWhiteSpace(r[0])
    ensures forall i | 0 <= i < |s| - |r| :: IsJsWhiteSpace(s[i])
  {
    if s != [] && IsJsWhiteSpace(s[0]) then TrimStart(s[1..]) else s
  }

  /** The longest run of decimal digits at the start of `s`. */
  function DigitPrefix(s: string): (ds: string)
    ensures |ds| <= |s| && ds == s[..|ds|] && AllDigits(ds)
    ensures |ds| == |s| || !IsDigit(s[|ds|])
  {
    if s != [] && IsDigit(s[0]) then [s[0]] + DigitPrefix(s[1..]) else []
  }

  /** `parseInt(s, 10)`: skip leading white space, read an optional sign and
      then as many decimal digits as there are; `None` (NaN) when there is no
      digit. Whatever follows the digits is ignored. */
  function ParseInt(s: string): Option<int>
  {
    ParseTrimmed(TrimStart(s))
  }

  /** `parseInt` once the leading white space is gone. */
  function ParseTrimmed(t: string): Option<int>
  {
    var negative := t != [] && t[0] == '-';
    var unsigned := if t != [] && (t[0] == '-' || t[0] == '+') then t[1..] else t;
    var ds := DigitPrefix(unsigned);
    var magnitude: int := if ds == [] then 0 else DigitsValue(ds);
    if ds == [] then None
    else if negative then Some(-magnitude)
    else Some(magnitude)
  }

  lemma {:induction false} NatToStringValue(n: nat)
    ensures DigitsValue(NatToString(n)) == n
  {
    var s := NatToString(n);
    if n < 10 {
      assert s[..0] == [];
    } else {
      assert s[..|s| - 1] == NatToString(n / 10);
      NatToStringValue(n / 10);
    }
  }

  lemma {:induction false} DigitPrefixOfDigits(ds: string, rest: string)
    requires AllDigits(ds) && (rest == [] || !IsDigit(rest[0]))
    ensures DigitPrefix(ds + rest) == ds
  {
    if ds != [] {
      assert (ds + rest)[1..] == ds[1..] + rest;
      DigitPrefixOfDigits(ds[1..], rest);
    } else {
      assert ds + rest == rest;
    }
  }

  lemma {:induction false} TrimStartSkipsWhiteSpace(pad: string, s: string)
    requires forall i | 0 <= i < |pad| :: IsJsWhiteSpace(pad[i])
    requires s == [] || !IsJsWhiteSpace(s[0])
    ensures TrimStart(pad + s) == s
  {
    if pad != [] {
      assert (pad + s)[1..] == pad[1..] + s;
      TrimStartSkipsWhiteSpace(pad[1..], s);
    } else {
      assert pad + s == s;
    }
  }

  lemma NotWhiteSpace(c: char)
    requires c == '-' || IsDigit(c)
    ensures !IsJsWhiteSpace(c)
  {
  }

  /** Nothing is trimmed from text that does not start with white space. */
  lemma TrimStartOfClean(t: string)
    requires t == [] || !IsJsWhiteSpace(t[0])
    ensures TrimStart(t) == t
  {
  }

  lemma ParseTrimmedOfDigits(digits: string, rest: string)
    requires AllDigits(digits) && digits != [] && (rest == [] || !IsDigit(rest[0]))
    ensures ParseTrimmed(digits + rest) == Some(DigitsValue(digits))
  {
    var text := digits + rest;
    assert text[0] == digits[0];
    DigitPrefixOfDigits(digits, rest);
  }

  /** After a minus sign, `parseInt` reads the digits that follow and negates them. */
  lemma ParseTrimmedAfterMinus(t: string)
    requires t != [] && t[0] == '-'
    ensures var ds := DigitPrefix(t[1..]);
            ParseTrimmed(t) == if ds == [] then None else Some(0 - DigitsValue(ds))
  {
  }

  lemma ParseTrimmedOfNegative(digits: string, rest: string)
    requires AllDigits(digits) && digits != [] && (rest == [] || !IsDigit(rest[0]))
    ensures ParseTrimmed("-" + (digits + rest)) == Some(0 - DigitsValue(digits))
  {
    var unsigned := digits + rest;
    var text := "-" + unsigned;
    assert text[0] == '-' && text[1..] == unsigned;
    DigitPrefixOfDigits(digits, rest);
    assert DigitPrefix(text[1..]) == digits;
    ParseTrimmedAfterMinus(text);
  }

  /** `parseInt` on `digits` followed by no further digit. */
  lemma ParseIntOfDigits(digits: string, rest: string)
    requires AllDigits(digits) && digits != [] && (rest == [] || !IsDigit(rest[0]))
    ensures ParseInt(digits + rest) == Some(DigitsValue(digits))
  {
    var text := digits + rest;
    assert text[0] == digits[0];
    NotWhiteSpace(text[0]);
    TrimStartOfClean(text);
    ParseTrimmedOfDigits(digits, rest);
  }

  /** `parseInt` on a minus sign, then `digits`, then no further digit. */
  lemma ParseIntOfNegative(digits: string, rest: string)
    requires AllDigits(digits) && digits != [] && (rest == [] || !IsDigit(rest[0]))
    ensures ParseInt("-" + (digits + rest)) == Some(0 - DigitsValue(digits))
  {
    var text := "-" + (digits + rest);
    NotWhiteSpace(text[0]);
    TrimStartOfClean(text);
    ParseTrimmedOfNegative(digits, rest);
  }

  lemma ParseIntReadsRenderingUnpadded(n: int, rest: string)
    requires rest == [] || !IsDigit(rest[0])
    ensures ParseInt(IntToString(n) + rest) == Some(n)
  {
    var m := if n < 0 then -n else n;
    var digits := NatToString(m);
    NatToStringValue(m);
    if n < 0 {
      assert IntToString(n) + rest == "-" + (digits + rest);
      ParseIntOfNegative(digits, rest);
    } else {
      ParseIntOfDigits(digits, rest);
    }
  }

  /** What `String(n)` writes starts with a minus sign or a digit. */
  lemma RenderingStart(n: int, rest: string)
    ensures var text := IntToString(n) + rest;
            text != [] && !IsJsWhiteSpace(text[0])
  {
    var text := IntToString(n) + rest;
    if n < 0 {
      assert text[0] == '-';
    } else {
      assert text[0] == NatToString(n)[0];
      NotWhiteSpace(text[0]);
    }
  }

  /** `parseInt` reads back what `String` writes, also with white space in
      front and with anything but a digit after it. */
  lemma ParseIntReadsRendering(n: int, pad: string, rest: string)
    requires forall i | 0 <= i < |pad| :: IsJsWhiteSpace(pad[i])
    requires rest == [] || !IsDigit(rest[0])
    ensures ParseInt(pad + IntToString(n) + rest) == Some(n)
  {
    var text := IntToString(n) + rest;
    assert pad + IntToString(n) + rest == pad + text;
    RenderingStart(n, rest);
    TrimStartSkipsWhiteSpace(pad, text);
    TrimStartOfClean(text);
    ParseIntReadsRenderingUnpadded(n, rest);
  }

  /** Distinct integers are written differently. */
  lemma IntToStringInjective(m: int, n: int)
    requires IntToString(m) == IntToString(n)
    ensures m == n
  {
    ParseIntReadsRendering(m, "", "");
    ParseIntReadsRendering(n, "", "");
    assert "" + IntToString(m) + "" == IntToString(m);
    assert "" + IntToString(n) + "" == IntToString(n);
  }
}
