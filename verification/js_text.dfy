/** The two string functions the control panel relies on:
    `String.prototype.includes` and the global `parseFloat`, whose result is
    the value of the longest prefix of the string (after leading white space)
    that reads as a signed decimal literal with an optional exponent, or NaN
    when there is none. The `Infinity` literal has no value in `Num`. */
module JsText {
  import opened JsNum

  /** `s.includes(part)` */
  predicate Contains(s: string, part: string)
    decreases |s|
  {
    |part| <= |s| && (s[..|part|] == part || Contains(s[1..], part))
  }

  /** A string contains every infix of itself. */
  lemma {:induction false} ContainsInfix(before: string, part: string, after: string)
    ensures Contains(before + part + after, part)
    decreases |before|
  {
    var s := before + part + after;
    if before == [] {
      assert s[..|part|] == part;
    } else {
      ContainsInfix(before[1..], part, after);
      assert s[1..] == before[1..] + part + after;
    }
  }

  /** `part` occurs in `s` starting at index `i`. */
  predicate OccursAt(s: string, part: string, i: int) {
    0 <= i <= |s| - |part| && s[i..i + |part|] == part
  }

  /** `includes` holds exactly when the part occurs at some index. */
  lemma {:induction false} ContainsIffOccurs(s: string, part: string)
    ensures Contains(s, part) <==> exists i {:trigger OccursAt(s, part, i)} :: OccursAt(s, part, i)
    decreases |s|
  {
    if Contains(s, part) {
      if s[..|part|] == part {
        assert OccursAt(s, part, 0);
      } else {
        ContainsIffOccurs(s[1..], part);
        var i :| OccursAt(s[1..], part, i);
        assert s[1..][i..i + |part|] == s[i + 1..i + 1 + |part|];
        assert OccursAt(s, part, i + 1);
      }
    }
    if exists i {:trigger OccursAt(s, part, i)} :: OccursAt(s, part, i) {
      var i :| OccursAt(s, part, i);
      assert s == s[..i] + part + s[i + |part|..];
      ContainsInfix(s[..i], part, s[i + |part|..]);
    }
  }

  predicate IsDigit(c: char) {
    '0' <= c <= '9'
  }

  predicate AllDigits(s: string) {
    forall k :: 0 <= k < |s| ==> IsDigit(s[k])
  }

  /** White space and line terminators, as `parseFloat` skips them
      (sections 12.2 and 12.3 of ECMA-262: tab, vertical tab, form feed,
      space, no-break space, byte order mark, the other space separators,
      and the four line terminators). */
  predicate IsSpace(c: char) {
    c == '\t' || c == '\U{000B}' || c == '\U{000C}' || c == ' ' || c == '\U{00A0}' || c == '\U{FEFF}'
    || c == '\n' || c == '\r' || c == '\U{2028}' || c == '\U{2029}'
    || c == '\U{1680}' || ('\U{2000}' <= c <= '\U{200A}') || c == '\U{202F}' || c == '\U{205F}' || c == '\U{3000}'
  }

  function TrimStart(s: string): (t: string)
    ensures |t| <= |s| && t == s[|s| - |t|..]
    ensures t == [] || !IsSpace(t[0])
  {
    if s != [] && IsSpace(s[0]) then TrimStart(s[1..]) else s
  }

  /** The number of leading decimal digits. */
  function DigitRun(s: string): (n: nat)
    ensures n <= |s| && AllDigits(s[..n])
    ensures n < |s| ==> !IsDigit(s[n])
  {
    if s != [] && IsDigit(s[0]) then 1 + DigitRun(s[1..]) else 0
  }

  /** The value of a string of decimal digits. */
  function DigitsValue(d: string): nat
    requires AllDigits(d)
  {
    if d == [] then 0 else 10 * DigitsValue(d[..|d| - 1]) + (d[|d| - 1] as int - '0' as int)
  }

  function Pow10(k: nat): (r: nat)
    ensures r > 0
  {
    if k == 0 then 1 else 10 * Pow10(k - 1)
  }

  /** The value of the longest prefix of `body` that is an unsigned
      decimal literal (whole digits, optionally a point and fraction digits,
      at least one digit, then optionally an exponent), or None when there
      is no such prefix. */
  function Magnitude(body: string): Option<real> {
    var whole := body[..DigitRun(body)];
    var rest := body[DigitRun(body)..];
    var point := |rest| > 0 && rest[0] == '.';
    var fraction := if point then rest[1..][..DigitRun(rest[1..])] else [];
    var tail := if point then rest[1..][DigitRun(rest[1..])..] else rest;
    if whole == [] && fraction == [] then None
    else Some(Scale(DecimalValue(whole, fraction), Exponent(tail)))
  }

  /** The power of ten an exponent part at the head of `t` denotes: `e` or
      `E`, an optional sign, then at least one digit. Without digits there
      is no exponent part, and the power is 0. */
  function Exponent(t: string): int {
    if |t| >= 2 && (t[0] == 'e' || t[0] == 'E') then
      var digits := if t[1] == '+' || t[1] == '-' then t[2..] else t[1..];
      var d := digits[..DigitRun(digits)];
      var value: int := DigitsValue(d);
      if t[1] == '-' then -value else value
    else 0
  }

  /** `m` times ten to the power `e`. */
  function Scale(m: real, e: int): real {
    if e >= 0 then m * Pow10(e) as real else m / Pow10(-e) as real
  }

  /** The value of the numeral `whole.fraction`. */
  function DecimalValue(whole: string, fraction: string): real
    requires AllDigits(whole) && AllDigits(fraction)
  {
    DigitsValue(whole) as real + DigitsValue(fraction) as real / Pow10(|fraction|) as real
  }

  /** `parseFloat(s)`: white space skipped, then an optional sign, then the
      unsigned literal. */
  function ParseFloat(s: string): Num {
    var t := TrimStart(s);
    var negative := |t| > 0 && t[0] == '-';
    var body := if |t| > 0 && (t[0] == '-' || t[0] == '+') then t[1..] else t;
    match Magnitude(body)
    case None => NaN
    case Some(m) => Real(if negative then -m else m)
  }

  /** A string whose first character after white space cannot start a
      decimal literal parses to NaN: every word-valued select option does. */
  lemma ParseFloatOfWord(s: string)
    requires var t := TrimStart(s); |t| > 0 && !IsDigit(t[0]) && t[0] !in "+-.I"
    ensures ParseFloat(s) == NaN
  {
  }

  /** A run of digits followed by anything else is read up to its end. */
  lemma {:induction false} DigitRunPrefix(d: string, rest: string)
    requires AllDigits(d)
    requires rest == [] || !IsDigit(rest[0])
    ensures DigitRun(d + rest) == |d|
    decreases |d|
  {
    if d != [] {
      assert (d + rest)[1..] == d[1..] + rest;
      DigitRunPrefix(d[1..], rest);
    }
  }

  /** Digits, a point and digits read as their decimal value, provided
      there is at least one digit. */
  lemma MagnitudeOfDecimal(whole: string, fraction: string)
    requires AllDigits(whole) && AllDigits(fraction) && (whole != [] || fraction != [])
    ensures Magnitude(whole + "." + fraction) == Some(DecimalValue(whole, fraction))
  {
    var body := whole + "." + fraction;
    var tail := "." + fraction;
    assert body == whole + tail;
    DigitRunPrefix(whole, tail);
    assert body[..DigitRun(body)] == whole;
    var rest := body[DigitRun(body)..];
    assert rest == tail;
    assert |rest| > 0 && rest[0] == '.';
    assert rest[1..] == fraction;
    DigitRunPrefix(fraction, []);
    assert fraction + [] == fraction;
    var f := rest[1..][..DigitRun(rest[1..])];
    assert f == fraction;
    assert DecimalValue(body[..DigitRun(body)], f) == DecimalValue(whole, fraction);
  }

  /** `parseFloat` of digits, a point and digits is their decimal value. */
  lemma ParseDecimal(whole: string, fraction: string)
    requires AllDigits(whole) && AllDigits(fraction) && whole != []
    ensures ParseFloat(whole + "." + fraction) == Real(DecimalValue(whole, fraction))
  {
    var s := whole + "." + fraction;
    assert s[0] == whole[0];
    ParseUnsigned(s);
    MagnitudeOfDecimal(whole, fraction);
  }

  /** A string that starts with a digit is read as an unsigned literal. */
  lemma ParseUnsigned(s: string)
    requires s != [] && IsDigit(s[0])
    ensures Magnitude(s).Some? && ParseFloat(s) == Real(Magnitude(s).value)
  {
    NoSpaceToTrim(s);
    assert DigitRun(s) > 0;
  }

  lemma NoSpaceToTrim(s: string)
    requires s != [] && IsDigit(s[0])
    ensures TrimStart(s) == s
  {
    assert !IsSpace(s[0]);
  }

  /** `parseFloat` of a plain run of digits is its value. */
  lemma ParseWhole(whole: string)
    requires AllDigits(whole) && whole != []
    ensures ParseFloat(whole) == Real(DigitsValue(whole) as real)
  {
    ParseUnsigned(whole);
    MagnitudeOfWhole(whole);
  }

  /** A plain run of digits reads, in full, as its value. */
  lemma MagnitudeOfWhole(whole: string)
    requires AllDigits(whole) && whole != []
    ensures Magnitude(whole) == Some(DigitsValue(whole) as real)
  {
    DigitRunPrefix(whole, []);
    assert whole + [] == whole;
    assert whole[..|whole|] == whole;
    assert whole[|whole|..] == [];
    assert DecimalValue(whole, []) == DigitsValue(whole) as real by {
      assert DigitsValue([]) == 0 && Pow10(0) == 1;
    }
  }

  function DigitChar(d: nat): (c: char)
    requires d < 10
    ensures IsDigit(c) && c as int - '0' as int == d
  {
    ('0' as int + d) as char
  }

  /** The decimal numeral of a natural number, as a range input reports it. */
  function NatString(n: nat): (s: string)
    ensures s != [] && AllDigits(s)
  {
    if n < 10 then [DigitChar(n)] else NatString(n / 10) + [DigitChar(n % 10)]
  }

  /** Reading a numeral gives back the number. */
  lemma {:induction false} NatStringValue(n: nat)
    ensures DigitsValue(NatString(n)) == n
  {
    var s := NatString(n);
    if n >= 10 {
      NatStringValue(n / 10);
      assert s[..|s| - 1] == NatString(n / 10);
    } else {
      assert s[..|s| - 1] == [];
    }
  }

  /** Digits followed by `e` and a natural-number numeral read in
      scientific notation: `parseFloat("15e3")` is 15000. */
  lemma ParseScientific(whole: string, e: nat)
    requires AllDigits(whole) && whole != []
    ensures ParseFloat(whole + "e" + NatString(e)) == Real((DigitsValue(whole) * Pow10(e)) as real)
  {
    var n := NatString(e);
    var s := whole + "e" + n;
    assert s[0] == whole[0];
    ParseUnsigned(s);
    MagnitudeOfScientific(whole, n);
    NatStringValue(e);
    ScaleUp(DigitsValue(whole), e);
  }

  /** A non-negative exponent multiplies. */
  lemma ScaleUp(m: nat, e: nat)
    ensures Scale(m as real, e) == (m * Pow10(e)) as real
  {
  }

  /** Digits, `e` and digits read as the first run scaled by ten to the
      power of the second. */
  lemma MagnitudeOfScientific(whole: string, n: string)
    requires AllDigits(whole) && whole != [] && AllDigits(n) && n != []
    ensures Magnitude(whole + "e" + n) == Some(Scale(DigitsValue(whole) as real, DigitsValue(n)))
  {
    var tail := "e" + n;
    var s := whole + tail;
    assert whole + "e" + n == s;
    DigitRunPrefix(whole, tail);
    var k := DigitRun(s);
    assert k == |whole|;
    assert s[..k] == whole;
    assert s[k..] == tail;
    assert tail[0] == 'e';
    ExponentOfDigits(n);
    assert DecimalValue(whole, []) == DigitsValue(whole) as real by {
      assert DigitsValue([]) == 0 && Pow10(0) == 1;
    }
  }

  /** `e` and a run of digits denote that power of ten. */
  lemma ExponentOfDigits(n: string)
    requires AllDigits(n) && n != []
    ensures Exponent("e" + n) == DigitsValue(n)
  {
    var tail := "e" + n;
    assert tail[1..] == n && tail[1] == n[0];
    DigitRunPrefix(n, []);
    assert n + [] == n;
    assert n[..DigitRun(n)] == n;
  }

  /** `parseFloat` inverts the numeral of every natural number. */
  lemma ParseNatString(n: nat)
    ensures ParseFloat(NatString(n)) == Real(n as real)
  {
    NatStringValue(n);
    ParseWhole(NatString(n));
  }
}
