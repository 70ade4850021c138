/** How the `/api/hospitals` handler normalises its query parameters
    (app.js:161-168): the wilaya (province) code, the result limit and the
    cache key built from both. */
module HospitalsRequest {
  import opened Wrappers
  import opened Decimal

  /** `n` copies of `c`. */
  function Repeat(c: char, n: nat): (r: string)
    ensures |r| == n && forall i | 0 <= i < n :: r[i] == c
  {
    if n == 0 then [] else [c] + Repeat(c, n - 1)
  }

  /** `s.padStart(width, fill)` with a one-character fill: `s` itself when it
      is already `width` long or longer, otherwise `s` preceded by enough
      copies of `fill` to reach `width`. */
  function PadStart(s: string, width: nat, fill: char): (r: string)
    ensures |r| == if |s| < width then width else |s|
    ensures r[|r| - |s|..] == s
    ensures forall i | 0 <= i < |r| - |s| :: r[i] == fill
  {
    if |s| >= width then s else Repeat(fill, width - |s|) + s
  }

  /** The two-digit code of wilaya number `n`. */
  function TwoDigits(n: nat): string
    requires n < 100
  {
    [DigitChar(n / 10), DigitChar(n % 10)]
  }

  /** The keys of the WILAYAS table: "01" to "58". */
  const WilayaCodes: set<string> := set n: nat | 1 <= n <= 58 :: TwoDigits(n)

  lemma TwoDigitValue(s: string)
    requires |s| == 2 && AllDigits(s)
    ensures DigitsValue(s) == 10 * DigitValue(s[0]) + DigitValue(s[1])
  {
    var head := s[..1];
    assert head[..0] == [];
    assert DigitsValue(head) == DigitValue(s[0]);
    assert DigitsValue(s) == 10 * DigitsValue(head) + DigitValue(s[1]);
  }

  /** A string is a wilaya code exactly when it is two decimal digits whose
      value lies between 1 and 58. */
  lemma WilayaCodeShape(s: string)
    ensures s in WilayaCodes <==> |s| == 2 && AllDigits(s) && 1 <= DigitsValue(s) <= 58
  {
    if s in WilayaCodes {
      var n: nat :| 1 <= n <= 58 && s == TwoDigits(n);
      TwoDigitValue(s);
    }
    if |s| == 2 && AllDigits(s) && 1 <= DigitsValue(s) <= 58 {
      TwoDigitValue(s);
      var n := DigitsValue(s);
      assert DigitChar(n / 10) == s[0] && DigitChar(n % 10) == s[1];
      assert s == TwoDigits(n);
    }
  }

  /** `String(req.query.wilaya || '').padStart(2, '0')`: an absent or empty
      parameter becomes "00", a single character gets a leading '0', anything
      longer is kept as it is. */
  function WilayaCandidate(raw: Option<string>): (w: string)
    ensures raw.None? || raw.value == "" ==> w == "00"
    ensures raw.Some? && |raw.value| >= 2 ==> w == raw.value
    ensures raw.Some? && |raw.value| == 1 ==> w == ['0'] + raw.value
  {
    PadStart(raw.GetOr(""), 2, '0')
  }

  /** The names WILAYAS inherits from Object.prototype in Node.js. Looking one
      of them up yields a function or an object, which is truthy. */
  const InheritedNames: set<string> := {
    "constructor", "__proto__", "hasOwnProperty", "isPrototypeOf",
    "propertyIsEnumerable", "toString", "toLocaleString", "valueOf",
    "__defineGetter__", "__defineSetter__", "__lookupGetter__", "__lookupSetter__"
  }

  /** The guard `!WILAYAS[wilaya]` as written: the lookup is truthy for the
      table's own keys and for the inherited names. */
  predicate PassesGuardAsWritten(w: string)
  {
    w in WilayaCodes || w in InheritedNames
  }

  /** As written, `wilaya=constructor` gets past the guard although it is no
      wilaya code; the handler then fails when it destructures
      `WILAYAS["constructor"]` and answers 500 instead of 400. */
  lemma GuardAdmitsInheritedName()
    ensures var w := WilayaCandidate(Some("constructor"));
            PassesGuardAsWritten(w) && w !in WilayaCodes
  {
    var w := WilayaCandidate(Some("constructor"));
    assert w == "constructor";
    WilayaCodeShape(w);
  }

  /** The intended guard: the padded parameter, when it is one of the 58 codes. */
  function ValidateWilaya(raw: Option<string>): Option<string>
  {
    var w := WilayaCandidate(raw);
    if w in WilayaCodes then Some(w) else None
  }

  /** Exactly the 58 codes, and the digits 1 to 9 written without their
      leading zero, are accepted; the accepted code is the parameter,
      zero-padded. */
  lemma ValidateWilayaAccepts(raw: Option<string>)
    ensures ValidateWilaya(raw).Some? <==>
              raw.Some? && (raw.value in WilayaCodes || (|raw.value| == 1 && ['0'] + raw.value in WilayaCodes))
    ensures ValidateWilaya(raw).Some? ==>
              ValidateWilaya(raw).value in WilayaCodes
              && (ValidateWilaya(raw).value == raw.value || ValidateWilaya(raw).value == ['0'] + raw.value)
  {
    var w := WilayaCandidate(raw);
    WilayaCodeShape(w);
    if raw.Some? {
      WilayaCodeShape(raw.value);
    } else {
      assert w == "00";
      assert DigitsValue(w) == 0 by {
        assert w[..1] == "0" && "0"[..0] == [];
      }
    }
  }

  const DefaultLimit: int := 200
  const MaxLimit: int := 1000

  /** `Math.min(parsed || 200, 1000)` on the result of `parseInt`: NaN and 0
      are falsy and give the default, and only the upper bound is applied. */
  function Clamp(parsed: Option<int>): (n: int)
    ensures n <= MaxLimit && n != 0
    ensures parsed.None? || parsed == Some(0) ==> n == DefaultLimit
    ensures parsed.Some? && parsed.value != 0 ==> n == if parsed.value < MaxLimit then parsed.value else MaxLimit
  {
    var n := if parsed.None? || parsed.value == 0 then DefaultLimit else parsed.value;
    if n < MaxLimit then n else MaxLimit
  }

  /** `Math.min(parseInt(req.query.limit || '200', 10) || 200, 1000)`. */
  function Limit(raw: Option<string>): int
  {
    var text := if raw.None? || raw.value == "" then "200" else raw.value;
    Clamp(ParseInt(text))
  }

  /** A missing, empty, unparsable or zero limit means 200; any other parsed
      value is capped at 1000 and not raised, so a negative one passes
      through. The result is never 0 and never above 1000. */
  lemma LimitRule(raw: Option<string>)
    ensures Limit(raw) <= MaxLimit && Limit(raw) != 0
    ensures raw.None? || raw == Some("") ==> Limit(raw) == DefaultLimit
    ensures raw.Some? && raw.value != "" && (ParseInt(raw.value).None? || ParseInt(raw.value) == Some(0))
            ==> Limit(raw) == DefaultLimit
    ensures raw.Some? && raw.value != "" && ParseInt(raw.value).Some? && ParseInt(raw.value).value != 0
            ==> Limit(raw) == if ParseInt(raw.value).value < MaxLimit then ParseInt(raw.value).value else MaxLimit
  {
    DefaultLimitParses();
  }

  lemma DefaultLimitParses()
    ensures ParseInt("200") == Some(200)
  {
    ParseIntOfDigits("200", "");
    assert "200" + "" == "200";
    DefaultLimitValue();
  }

  lemma DefaultLimitValue()
    ensures AllDigits("200") && DigitsValue("200") == 200
  {
    assert "2"[..0] == "";
    assert DigitsValue("2") == 2;
    assert "20"[..1] == "2";
    assert DigitsValue("20") == 20;
    assert "200"[..2] == "20";
  }

  /** The limit of a parameter that is a written integer. */
  lemma LimitOfWrittenNumber(n: int)
    ensures Limit(Some(IntToString(n))) == if n == 0 then DefaultLimit else if n < MaxLimit then n else MaxLimit
  {
    ParseIntReadsRendering(n, "", "");
    assert "" + IntToString(n) + "" == IntToString(n);
    LimitRule(Some(IntToString(n)));
  }

  /** `wilaya:${wilaya}:${limit}` */
  function CacheKey(code: string, limit: int): string
  {
    "wilaya:" + code + ":" + IntToString(limit)
  }

  /** Two requests share a cache entry exactly when they name the same code
      and the same limit. */
  lemma CacheKeyInjective(c1: string, l1: int, c2: string, l2: int)
    requires c1 in WilayaCodes && c2 in WilayaCodes
    ensures CacheKey(c1, l1) == CacheKey(c2, l2) <==> c1 == c2 && l1 == l2
  {
    if CacheKey(c1, l1) == CacheKey(c2, l2) {
      WilayaCodeShape(c1);
      WilayaCodeShape(c2);
      var k := CacheKey(c1, l1);
      assert k == "wilaya:" + c1 + ":" + IntToString(l1);
      assert k == "wilaya:" + c2 + ":" + IntToString(l2);
      assert c1 == k[7..9] == c2;
      assert IntToString(l1) == k[10..] == IntToString(l2);
      IntToStringInjective(l1, l2);
    }
  }
}
