/**
 * Decimal number literals as read by JavaScript's `parseFloat` (the longest
 * literal at the front of the string) and by Python's `float` (the whole
 * string must be one literal). Values are exact reals; binary floating point
 * is not modelled.
 *
 * A literal is: an optional sign, then digits with an optional fraction
 * (`12`, `12.`, `12.5`) or a fraction alone (`.5`), then an optional
 * exponent (`e3`, `E-2`) that is taken only when it has at least one digit.
 */
module Decimal {
  import opened Wrappers
  import opened Text

  /** Length of the run of digits at the front of `s`. */
  function DigitRun(s: string): (n: nat)
    ensures n <= |s|
    ensures forall i :: 0 <= i < n ==> IsDigit(s[i])
    ensures n < |s| ==> !IsDigit(s[n])
  {
    if s == [] || !IsDigit(s[0]) then 0 else 1 + DigitRun(s[1..])
  }

  function Pow10(n: nat): (r: real)
    ensures r >= 1.0
  {
    Power10(n) as real
  }

  /** Ten to an integer power. */
  function Pow10Int(e: int): (r: real)
    ensures r > 0.0
  {
    if e >= 0 then Pow10(e) else 1.0 / Pow10(-e)
  }

  function SignLength(s: string): (k: nat)
    ensures k <= 1 && k <= |s|
  {
    if |s| > 0 && (s[0] == '+' || s[0] == '-') then 1 else 0
  }

  /** A mantissa scaled by ten to the power of its exponent. */
  function Scaled(m: real, e: int): (r: real)
    requires m >= 0.0
    ensures r >= 0.0
  {
    m * Pow10Int(e)
  }

  /** What a literal has to start with: after an optional sign, a digit, or a
      point followed by a digit. */
  predicate StartsNumeric(s: string) {
    var k := SignLength(s);
    (k < |s| && IsDigit(s[k])) || (k + 1 < |s| && s[k] == '.' && IsDigit(s[k + 1]))
  }

  /** A literal read from the front of a string: its value and how many
      characters it took. */
  datatype Scan = Scan(value: real, length: nat)

  /** What a complete exponent part has to start with: a marker, an optional
      sign, and a digit. */
  predicate StartsExponent(u: string) {
    |u| > 0 && (u[0] == 'e' || u[0] == 'E') &&
    var k := SignLength(u[1..]); 1 + k < |u| && IsDigit(u[1 + k])
  }

  /** The exponent part at the front of `u`: its value and length, or (0, 0)
      when `u` does not start with a complete exponent. */
  function ScanExponent(u: string): (r: (int, nat))
    ensures r.1 <= |u|
    ensures r.1 > 0 ==> u[0] == 'e' || u[0] == 'E'
    ensures r.1 == 0 ==> r.0 == 0
  {
    if |u| > 0 && (u[0] == 'e' || u[0] == 'E') then
      var k := SignLength(u[1..]);
      var d := DigitRun(u[1 + k..]);
      if d == 0 then (0, 0)
      else
        var mag: int := DigitsValue(u[1 + k..1 + k + d]);
        (if k == 1 && u[1] == '-' then -mag else mag, 1 + k + d)
    else (0, 0)
  }

  /** An exponent is read exactly when one starts the string. */
  lemma ScanExponentStarts(u: string)
    ensures ScanExponent(u).1 > 0 <==> StartsExponent(u)
  {
    if |u| > 0 && (u[0] == 'e' || u[0] == 'E') {
      var k := SignLength(u[1..]);
      assert 1 + k < |u| ==> u[1 + k..][0] == u[1 + k];
    }
  }

  /** What an unsigned literal has to start with: a digit, or a point
      followed by a digit. */
  predicate StartsMantissa(t: string) {
    (0 < |t| && IsDigit(t[0])) || (1 < |t| && t[0] == '.' && IsDigit(t[1]))
  }

  /** The value of the digits after a decimal point. */
  function FractionValue(ds: string): (v: real)
    requires DigitString(ds)
    ensures v >= 0.0
  {
    DigitsValue(ds) as real / Pow10(|ds|)
  }

  /** The digits-and-fraction part at the front of `t`: its value and length. */
  function ScanMantissa(t: string): (r: Option<Scan>)
    ensures r.None? <==> !StartsMantissa(t)
    ensures r.Some? ==> 0 < r.value.length <= |t| && r.value.value >= 0.0
  {
    var ip := DigitRun(t);
    var hasDot := ip < |t| && t[ip] == '.';
    var fp := if hasDot then DigitRun(t[ip + 1..]) else 0;
    if ip == 0 && fp == 0 then None
    else
      var intPart := DigitsValue(t[..ip]) as real;
      var fracPart := if hasDot then FractionValue(t[ip + 1..ip + 1 + fp]) else 0.0;
      Some(Scan(intPart + fracPart, if hasDot then ip + 1 + fp else ip))
  }

  /** The longest decimal literal at the front of `s`, if there is one. */
  function ScanDecimal(s: string): (r: Option<Scan>)
    ensures r.None? <==> !StartsNumeric(s)
    ensures r.Some? ==> 0 < r.value.length <= |s|
  {
    var k := SignLength(s);
    var t := s[k..];
    assert StartsNumeric(s) <==> StartsMantissa(t);
    match ScanMantissa(t)
    case None => None
    case Some(mant) =>
      var (e, eLen) := ScanExponent(t[mant.length..]);
      var mag := Scaled(mant.value, e);
      Some(Scan(if k == 1 && s[0] == '-' then -mag else mag, k + mant.length + eLen))
  }

  /** JavaScript `parseFloat` on a finite literal: leading whitespace is
      skipped and the longest literal is read; `None` stands for NaN. */
  function ParseFloat(s: string): (r: Option<real>)
    ensures r.None? <==> !StartsNumeric(TrimStart(s, JavaScript))
  {
    match ScanDecimal(TrimStart(s, JavaScript))
    case None => None
    case Some(sc) => Some(sc.value)
  }

  /** Python `float(s)`: surrounding whitespace, in the sense of `float`'s
      own strip, is removed and what is left must be exactly one literal;
      `None` stands for the ValueError. */
  function PyFloat(s: string): (r: Option<real>)
    ensures r.Some? ==> StartsNumeric(Trim(s, PythonFloat))
  {
    var t := Trim(s, PythonFloat);
    match ScanDecimal(t)
    case Some(sc) => if sc.length == |t| then Some(sc.value) else None
    case None => None
  }

  // ---------------------------------------------------------------------
  // The value of a literal
  // ---------------------------------------------------------------------

  predicate IsSign(sgn: string) {
    sgn == "" || sgn == "+" || sgn == "-"
  }

  /** An exponent part: `e` or `E`, an optional sign, and digits. */
  datatype Exponent = Exponent(marker: char, sign: string, digits: string)

  /** A decimal literal spelled out: an optional sign, the digits before
      the point, whether there is a point, the digits after it, and an
      optional exponent. */
  datatype Numeral = Numeral(sign: string, intDigits: string, point: bool, fracDigits: string, exponent: Option<Exponent>)

  predicate WellFormed(n: Numeral) {
    && IsSign(n.sign)
    && DigitString(n.intDigits) && DigitString(n.fracDigits)
    && (n.intDigits != [] || n.fracDigits != [])
    && (!n.point ==> n.fracDigits == [])
    && (n.exponent.Some? ==>
          && (n.exponent.value.marker == 'e' || n.exponent.value.marker == 'E')
          && IsSign(n.exponent.value.sign) && IsDigits(n.exponent.value.digits))
  }

  function MantissaText(n: Numeral): string {
    n.intDigits + (if n.point then "." + n.fracDigits else "")
  }

  function ExponentText(n: Numeral): string {
    match n.exponent
    case None => ""
    case Some(x) => [x.marker] + x.sign + x.digits
  }

  /** How the literal is written. */
  function Spelling(n: Numeral): string {
    n.sign + MantissaText(n) + ExponentText(n)
  }

  function Signed(sgn: string, v: real): real {
    if sgn == "-" then -v else v
  }

  function MantissaValue(n: Numeral): real
    requires WellFormed(n)
  {
    DigitsValue(n.intDigits) as real + FractionValue(n.fracDigits)
  }

  function ExponentValue(n: Numeral): int
    requires WellFormed(n)
  {
    match n.exponent
    case None => 0
    case Some(x) =>
      var m: int := DigitsValue(x.digits);
      if x.sign == "-" then -m else m
  }

  /** The number the literal denotes, in the usual positional reading. */
  function Value(n: Numeral): real
    requires WellFormed(n)
  {
    Signed(n.sign, Scaled(MantissaValue(n), ExponentValue(n)))
  }

  /** Text that cannot continue the literal `n`: nothing, or text that starts
      with no digit and, when `n` ends in its mantissa, neither with a complete
      exponent nor, when `n` has no point either, with a point. */
  predicate Stops(n: Numeral, rest: string) {
    rest == [] ||
    (!IsDigit(rest[0]) && (n.exponent.None? ==> !StartsExponent(rest) && (!n.point ==> rest[0] != '.')))
  }

  /** The digit run at the front of `t` ends at `k`. */
  lemma {:induction false} DigitRunAt(t: string, k: nat)
    requires k <= |t| && DigitString(t[..k]) && (k == |t| || !IsDigit(t[k]))
    ensures DigitRun(t) == k
  {
    if k > 0 {
      assert t[1..][..k - 1] == t[1..k];
      assert IsDigit(t[..k][0]);
      DigitRunAt(t[1..], k - 1);
    }
  }

  /** Digits, a point and digits at the front of `t`, followed by a
      non-digit, are read whole, with their value. */
  lemma ScanMantissaPointAt(t: string, k: nat, f: nat)
    requires k + 1 + f <= |t| && t[k] == '.' && (k > 0 || f > 0)
    requires DigitString(t[..k]) && DigitString(t[k + 1..k + 1 + f])
    requires k + 1 + f == |t| || !IsDigit(t[k + 1 + f])
    ensures ScanMantissa(t)
         == Some(Scan(DigitsValue(t[..k]) as real + FractionValue(t[k + 1..k + 1 + f]), k + 1 + f))
  {
    DigitRunAt(t, k);
    var u := t[k + 1..];
    assert u[..f] == t[k + 1..k + 1 + f];
    DigitRunAt(u, f);
  }

  /** Digits at the front of `t` followed by neither a digit nor a point
      are read whole, with their value. */
  lemma ScanMantissaIntegerAt(t: string, k: nat)
    requires 0 < k <= |t| && DigitString(t[..k])
    requires k == |t| || (!IsDigit(t[k]) && t[k] != '.')
    ensures ScanMantissa(t) == Some(Scan(DigitsValue(t[..k]) as real, k))
  {
    DigitRunAt(t, k);
  }

  /** A marker, an optional sign and digits at the front of `u`, followed by a
      non-digit, are read as a signed exponent. */
  lemma ScanExponentAt(u: string, sl: nat, d: nat)
    requires 1 + sl + d <= |u| && (u[0] == 'e' || u[0] == 'E') && d > 0
    requires sl <= 1 && (sl == 1 <==> (u[1] == '+' || u[1] == '-'))
    requires DigitString(u[1 + sl..1 + sl + d])
    requires 1 + sl + d == |u| || !IsDigit(u[1 + sl + d])
    ensures var m: int := DigitsValue(u[1 + sl..1 + sl + d]);
      ScanExponent(u) == (if sl == 1 && u[1] == '-' then -m else m, 1 + sl + d)
  {
    assert SignLength(u[1..]) == sl;
    var v := u[1 + sl..];
    assert u[1..][sl..] == v;
    assert v[..d] == u[1 + sl..1 + sl + d];
    DigitRunAt(v, d);
  }
  /** A string laid out as a mantissa with a point, followed by a
      non-digit, is read as that mantissa. */
  lemma ScanPointMantissaLaidOut(t: string, n: Numeral)
    requires WellFormed(n) && n.point && |MantissaText(n)| <= |t|
    requires t[..|n.intDigits|] == n.intDigits && t[|n.intDigits|] == '.'
    requires t[|n.intDigits| + 1..|n.intDigits| + 1 + |n.fracDigits|] == n.fracDigits
    requires var k := |MantissaText(n)|; k == |t| || !IsDigit(t[k])
    ensures ScanMantissa(t) == Some(Scan(MantissaValue(n), |MantissaText(n)|))
  {
    ScanMantissaPointAt(t, |n.intDigits|, |n.fracDigits|);
  }

  /** A string laid out as a mantissa without a point, followed by neither a
      digit nor a point, is read as that mantissa. */
  lemma ScanIntegerMantissaLaidOut(t: string, n: Numeral)
    requires WellFormed(n) && !n.point && |n.intDigits| <= |t|
    requires t[..|n.intDigits|] == n.intDigits
    requires var k := |n.intDigits|; k == |t| || (!IsDigit(t[k]) && t[k] != '.')
    ensures ScanMantissa(t) == Some(Scan(MantissaValue(n), |MantissaText(n)|))
  {
    ScanMantissaIntegerAt(t, |n.intDigits|);
    assert FractionValue(n.fracDigits) == 0.0;
  }

  /** The mantissa of a literal is read whole, with its value, when what
      follows is not a digit (and not a point, when it has none). */
  lemma ScanMantissaOf(n: Numeral, rest: string)
    requires WellFormed(n)
    requires rest == [] || (!IsDigit(rest[0]) && (!n.point ==> rest[0] != '.'))
    ensures ScanMantissa(MantissaText(n) + rest) == Some(Scan(MantissaValue(n), |MantissaText(n)|))
  {
    var t, ip, fp := MantissaText(n) + rest, n.intDigits, n.fracDigits;
    assert t[..|ip|] == ip;
    if n.point {
      assert t[|ip| + 1..|ip| + 1 + |fp|] == fp;
      ScanPointMantissaLaidOut(t, n);
    } else {
      ScanIntegerMantissaLaidOut(t, n);
    }
  }

  /** The exponent part of a literal is read whole, with its value;
      without one, nothing is read. */
  lemma ScanExponentOf(n: Numeral, rest: string)
    requires WellFormed(n) && Stops(n, rest)
    ensures ScanExponent(ExponentText(n) + rest) == (ExponentValue(n), |ExponentText(n)|)
  {
    var u := ExponentText(n) + rest;
    if n.exponent.Some? {
      var x := n.exponent.value;
      var sl, d := |x.sign|, |x.digits|;
      assert u[1 + sl..1 + sl + d] == x.digits;
      assert sl == 1 ==> u[1] == x.sign[0];
      ScanExponentAt(u, sl, d);
    } else {
      assert u == rest;
      ScanExponentStarts(rest);
    }
  }

  /** `ScanDecimal` puts together the sign, the mantissa and the exponent
      read one after the other. */
  lemma ScanDecimalOfParts(s: string, mv: real, ml: nat, ev: int, el: nat)
    requires mv >= 0.0
    requires ScanMantissa(s[SignLength(s)..]) == Some(Scan(mv, ml))
    requires ml <= |s| - SignLength(s)
    requires ScanExponent(s[SignLength(s)..][ml..]) == (ev, el)
    ensures var k := SignLength(s);
      ScanDecimal(s) == Some(Scan(if k == 1 && s[0] == '-' then -Scaled(mv, ev) else Scaled(mv, ev), k + ml + el))
  {
  }

  /** Where the parts of a literal sit in its spelling, and how its sign
      is seen. */
  lemma SpellingLayout(n: Numeral, rest: string)
    requires WellFormed(n)
    ensures var s := Spelling(n) + rest;
      && s[|n.sign|..] == MantissaText(n) + (ExponentText(n) + rest)
      && SignLength(s) == |n.sign|
      && |Spelling(n)| == |n.sign| + |MantissaText(n)| + |ExponentText(n)|
      && (n.sign == "-" <==> |n.sign| == 1 && s[0] == '-')
  {
    var s := Spelling(n) + rest;
    var m := MantissaText(n);
    assert s == n.sign + (m + (ExponentText(n) + rest));
    assert s[|n.sign|] == m[0];
  }

  /** An exponent part, or else text that does not continue a literal,
      cannot continue a mantissa. */
  lemma ExponentTextStops(n: Numeral, rest: string)
    requires WellFormed(n) && Stops(n, rest)
    ensures var u := ExponentText(n) + rest; u == [] || (!IsDigit(u[0]) && (!n.point ==> u[0] != '.'))
  {
    var u := ExponentText(n) + rest;
    if ExponentText(n) == [] {
      assert u == rest;
    } else {
      assert u[0] == ExponentText(n)[0];
    }
  }

  /** The mantissa and the exponent of a literal followed by text that does
      not continue it are read one after the other. */
  lemma ScanUnsignedNumeral(n: Numeral, rest: string)
    requires WellFormed(n) && Stops(n, rest)
    ensures var t, m := MantissaText(n) + (ExponentText(n) + rest), MantissaText(n);
      && ScanMantissa(t) == Some(Scan(MantissaValue(n), |m|))
      && |m| <= |t|
      && ScanExponent(t[|m|..]) == (ExponentValue(n), |ExponentText(n)|)
  {
    var m, x := MantissaText(n), ExponentText(n);
    var t := m + (x + rest);
    ExponentTextStops(n, rest);
    ScanMantissaOf(n, x + rest);
    assert t[|m|..] == x + rest;
    ScanExponentOf(n, rest);
  }

  /** A string with the sign of a literal in front of the literal's
      mantissa and exponent is read as that literal. */
  lemma ScanSignedNumeral(s: string, n: Numeral)
    requires WellFormed(n) && SignLength(s) == |n.sign|
    requires n.sign == "-" <==> |n.sign| == 1 && s[0] == '-'
    requires |Spelling(n)| == |n.sign| + |MantissaText(n)| + |ExponentText(n)|
    requires ScanMantissa(s[|n.sign|..]) == Some(Scan(MantissaValue(n), |MantissaText(n)|))
    requires |MantissaText(n)| <= |s| - |n.sign|
    requires ScanExponent(s[|n.sign|..][|MantissaText(n)|..]) == (ExponentValue(n), |ExponentText(n)|)
    ensures ScanDecimal(s) == Some(Scan(Value(n), |Spelling(n)|))
  {
    ScanDecimalOfParts(s, MantissaValue(n), |MantissaText(n)|, ExponentValue(n), |ExponentText(n)|);
    var mag := Scaled(MantissaValue(n), ExponentValue(n));
    assert Value(n) == if n.sign == "-" then -mag else mag;
  }

  /** A literal followed by text that does not continue it is read whole,
      as the number it denotes. */
  lemma ScanNumeral(n: Numeral, rest: string)
    requires WellFormed(n) && Stops(n, rest)
    ensures ScanDecimal(Spelling(n) + rest) == Some(Scan(Value(n), |Spelling(n)|))
  {
    SpellingLayout(n, rest);
    ScanUnsignedNumeral(n, rest);
    ScanSignedNumeral(Spelling(n) + rest, n);
  }

  /** The literal `ScanDecimal` reads: whatever it finds at the front of `s`
      is the spelling of a well-formed literal followed by text that cannot
      continue it, and the value found is that literal's value. */
  lemma ScanDecimalSound(s: string)
    ensures ScanDecimal(s).Some? ==>
      exists n: Numeral, rest: string ::
        && WellFormed(n) && s == Spelling(n) + rest && Stops(n, rest)
        && ScanDecimal(s) == Some(Scan(Value(n), |Spelling(n)|))
  {
    if ScanDecimal(s).Some? {
      var n, rest := NumeralAt(s);
      ScanNumeral(n, rest);
    }
  }

  /** A string that starts numerically is a literal followed by text that
      cannot continue it. */
  lemma NumeralAt(s: string) returns (n: Numeral, rest: string)
    requires StartsNumeric(s)
    ensures WellFormed(n) && s == Spelling(n) + rest && Stops(n, rest)
  {
    var k := SignLength(s);
    var t := s[k..];
    var mant, m := MantissaAt(t);
    var x, r := ExponentAt(t[m..]);
    n, rest := Numeral(s[..k], mant.intDigits, mant.point, mant.fracDigits, x), r;
    assert MantissaText(n) == t[..m];
    assert ExponentText(n) + rest == t[m..];
    assert Stops(n, rest) by {
      if x.None? && rest != [] {
        assert rest[0] == t[m];
      }
    }
    SpellingGlue(s, k, m, n, rest);
  }

  /** A string cut at `k` and then at `k + m` into a literal's sign, mantissa
      and exponent-and-rest is that literal's spelling followed by the rest. */
  lemma SpellingGlue(s: string, k: nat, m: nat, n: Numeral, rest: string)
    requires k + m <= |s| && n.sign == s[..k]
    requires MantissaText(n) == s[k..][..m] && ExponentText(n) + rest == s[k..][m..]
    ensures s == Spelling(n) + rest
  {
    var t := s[k..];
    assert t[..m] + t[m..] == t;
    assert s[..k] + t == s;
    assert Spelling(n) + rest == n.sign + (MantissaText(n) + (ExponentText(n) + rest));
  }

  /** The mantissa at the front of `t`, as far as `ScanMantissa` reads it,
      and its length `m`. */
  lemma MantissaAt(t: string) returns (mant: Numeral, m: nat)
    requires StartsMantissa(t)
    ensures m <= |t| && MantissaText(mant) == t[..m]
    ensures m < |t| ==> !IsDigit(t[m]) && (!mant.point ==> t[m] != '.')
    ensures DigitString(mant.intDigits) && DigitString(mant.fracDigits)
    ensures mant.intDigits != [] || mant.fracDigits != []
    ensures !mant.point ==> mant.fracDigits == []
  {
    var ip := DigitRun(t);
    var hasDot := ip < |t| && t[ip] == '.';
    if hasDot {
      var fp := DigitRun(t[ip + 1..]);
      var f := t[ip + 1..ip + 1 + fp];
      assert forall i :: 0 <= i < fp ==> f[i] == t[ip + 1..][i];
      mant, m := Numeral("", t[..ip], true, f, None), ip + 1 + fp;
      assert t[..m] == t[..ip] + "." + f;
      if ip == 0 {
        assert IsDigit(t[1]);
      }
    } else {
      mant, m := Numeral("", t[..ip], false, "", None), ip;
    }
  }

  /** The exponent part at the front of `u`, if it has a complete one, and
      what follows it. */
  lemma ExponentAt(u: string) returns (x: Option<Exponent>, rest: string)
    ensures x.Some? ==>
      && (x.value.marker == 'e' || x.value.marker == 'E')
      && IsSign(x.value.sign) && IsDigits(x.value.digits)
      && (rest == [] || !IsDigit(rest[0]))
    ensures x.None? <==> !StartsExponent(u)
    ensures x.None? ==> rest == u
    ensures (match x case None => "" case Some(e) => [e.marker] + e.sign + e.digits) + rest == u
  {
    if StartsExponent(u) {
      var sl := SignLength(u[1..]);
      var d := DigitRun(u[1 + sl..]);
      x := Some(Exponent(u[0], u[1..1 + sl], u[1 + sl..1 + sl + d]));
      rest := u[1 + sl + d..];
      assert u == [u[0]] + u[1..1 + sl] + u[1 + sl..1 + sl + d] + rest;
    } else {
      x, rest := None, u;
    }
  }

  /** A literal is made of digits, signs, points and exponent markers, none
      of them whitespace. */
  lemma SpellingHasNoSpace(n: Numeral, d: Dialect)
    requires WellFormed(n)
    ensures Spelling(n) != [] && NoSpace(Spelling(n), d)
  {
    var s := Spelling(n);
    assert s == n.sign + MantissaText(n) + ExponentText(n);
    forall i | 0 <= i < |s| ensures !IsSpace(s[i], d) {
      assert IsDigit(s[i]) || s[i] in "+-.eE";
    }
  }

  /** `parseFloat` reads a literal at the front of the string as the number
      it denotes, ignoring what follows. */
  lemma ParseFloatOfNumeral(n: Numeral, rest: string)
    requires WellFormed(n) && Stops(n, rest)
    ensures ParseFloat(Spelling(n) + rest) == Some(Value(n))
  {
    var s := Spelling(n) + rest;
    SpellingHasNoSpace(n, JavaScript);
    assert !IsSpace(s[0], JavaScript);
    assert LeadingSpace(s, JavaScript) == 0;
    assert TrimStart(s, JavaScript) == s;
    ScanNumeral(n, rest);
  }

  /** `float` reads a literal with nothing around it as the number it
      denotes. */
  lemma PyFloatOfNumeral(n: Numeral)
    requires WellFormed(n)
    ensures PyFloat(Spelling(n)) == Some(Value(n))
  {
    var s := Spelling(n);
    SpellingHasNoSpace(n, PythonFloat);
    TrimToken(s, PythonFloat);
    ScanNumeral(n, "");
    assert s + "" == s;
  }

  /** `float` rejects a literal followed by anything other than
      whitespace, as in `"5.2abc"`. */
  lemma PyFloatRejectsTrailing(n: Numeral, rest: string)
    requires WellFormed(n) && Stops(n, rest) && rest != [] && !IsSpace(rest[0], PythonFloat)
    ensures PyFloat(Spelling(n) + rest) == None
  {
    var lit := Spelling(n);
    var s := lit + rest;
    SpellingHasNoSpace(n, PythonFloat);
    assert LeadingSpace(s, PythonFloat) == 0;
    var j := |s| - TrailingSpace(s, PythonFloat);
    assert s[0..] == s;
    assert s[|lit|] == rest[0];
    assert j > |lit|;
    var t := Trim(s, PythonFloat);
    assert t == s[..j];
    assert t == lit + rest[..j - |lit|];
    assert rest[..j - |lit|][0] == rest[0];
    ScanNumeral(n, rest[..j - |lit|]);
  }

  /** `float` succeeds exactly when the stripped string is one literal, and
      then gives that literal's value. */
  lemma PyFloatExact(s: string)
    ensures PyFloat(s).Some? <==> exists n :: WellFormed(n) && Trim(s, PythonFloat) == Spelling(n)
    ensures forall n :: WellFormed(n) && Trim(s, PythonFloat) == Spelling(n) ==> PyFloat(s) == Some(Value(n))
  {
    var t := Trim(s, PythonFloat);
    forall n | WellFormed(n) && t == Spelling(n)
      ensures PyFloat(s) == Some(Value(n))
    {
      ScanNumeral(n, "");
      assert Spelling(n) + "" == t;
    }
    if PyFloat(s).Some? {
      ScanDecimalSound(t);
      var n, rest :| && WellFormed(n) && t == Spelling(n) + rest && Stops(n, rest)
                     && ScanDecimal(t) == Some(Scan(Value(n), |Spelling(n)|));
      assert t == Spelling(n);
    }
  }

  /** What `parseFloat` reads is a literal at the front of the string, after
      its leading whitespace, followed by text that cannot continue it; the
      result is that literal's value. */
  lemma ParseFloatSound(s: string)
    ensures ParseFloat(s).Some? ==>
      exists n: Numeral, rest: string ::
        && WellFormed(n) && TrimStart(s, JavaScript) == Spelling(n) + rest && Stops(n, rest)
        && ParseFloat(s) == Some(Value(n))
  {
    ScanDecimalSound(TrimStart(s, JavaScript));
  }

  /** `float` does not strip the information separators that `split` breaks
      at: `float("5\x1c")` raises. */
  lemma PyFloatKeepsSeparator()
    ensures PyFloat("5\U{001C}") == None
  {
    var n := Numeral("", "5", false, "", None);
    assert Spelling(n) + "\U{001C}" == "5\U{001C}";
    PyFloatRejectsTrailing(n, "\U{001C}");
  }

  /** On a token of `split`, `float` strips nothing. */
  lemma PyFloatOfToken(t: string)
    requires t != [] && NoSpace(t, Python)
    ensures Trim(t, PythonFloat) == t
  {
    assert NoSpace(t, PythonFloat);
    TrimToken(t, PythonFloat);
  }

  /** Reading back a printed natural number gives the number, and the whole
      numeral is consumed. */
  lemma {:induction false} ScanNatString(n: nat)
    ensures ScanDecimal(NatToString(n)) == Some(Scan(n as real, |NatToString(n)|))
  {
    var s := NatToString(n);
    assert SignLength(s) == 0;
    assert s[0..] == s;
    assert DigitRun(s) == |s|;
    assert s[..|s|] == s;
    DigitsValueOfNatToString(n);
    assert ScanMantissa(s) == Some(Scan(n as real, |s|));
    assert ScanExponent(s[|s|..]) == (0, 0);
  }

  /** Python reads a decimal numeral as the number it denotes. */
  lemma PyFloatOfNatString(n: nat)
    ensures PyFloat(NatToString(n)) == Some(n as real)
  {
    var t := NatToString(n);
    assert NoSpace(t, PythonFloat);
    TrimToken(t, PythonFloat);
    ScanNatString(n);
  }

  /** A literal without fraction or exponent denotes its digits' value,
      signed. */
  lemma ValueOfWhole(n: Numeral)
    requires WellFormed(n) && !n.point && n.exponent.None?
    ensures Value(n) == Signed(n.sign, DigitsValue(n.intDigits) as real)
  {
    assert FractionValue(n.fracDigits) == 0.0;
    assert Pow10Int(0) == 1.0;
  }

  /** Anything after a complete numeral is ignored by `parseFloat` unless it
      extends the literal; a letter does not. */
  lemma ParseFloatSuffix(n: nat, rest: string)
    requires rest != [] && !IsDigit(rest[0]) && rest[0] != '.' && rest[0] != 'e' && rest[0] != 'E'
    ensures ParseFloat(NatToString(n) + rest) == Some(n as real)
  {
    var m := Numeral("", NatToString(n), false, "", None);
    assert Spelling(m) == NatToString(n);
    ParseFloatOfNumeral(m, rest);
    ValueOfWhole(m);
    DigitsValueOfNatToString(n);
  }

  /** A decimal fraction reads as the usual number. */
  lemma ParseFloatOfFraction()
    ensures ParseFloat("12.5") == Some(12.5)
  {
    var a := Numeral("", "12", true, "5", None);
    assert "12"[..1] == "1";
    assert DigitsValue("12") == 12;
    assert FractionValue("5") == 0.5;
    assert Pow10Int(0) == 1.0;
    assert Spelling(a) + "" == "12.5";
    ParseFloatOfNumeral(a, "");
  }

  /** A minus sign negates. */
  lemma ParseFloatOfNegative()
    ensures ParseFloat("-3") == Some(-3.0)
  {
    var b := Numeral("-", "3", false, "", None);
    assert Spelling(b) + "" == "-3";
    assert DigitsValue("3") == 3;
    ValueOfWhole(b);
    ParseFloatOfNumeral(b, "");
  }

  /** An exponent scales by a power of ten. */
  lemma ParseFloatOfExponent()
    ensures ParseFloat("1e2") == Some(100.0)
  {
    var c := Numeral("", "1", false, "", Some(Exponent('e', "", "2")));
    assert Spelling(c) + "" == "1e2";
    assert WellFormed(c);
    assert MantissaValue(c) == 1.0 by {
      assert DigitsValue("1") == 1;
      assert FractionValue("") == 0.0;
    }
    assert ExponentValue(c) == 2 by {
      assert DigitsValue("2") == 2;
    }
    assert Scaled(1.0, 2) == 100.0 by {
      assert Power10(2) == 100;
    }
    ParseFloatOfNumeral(c, "");
  }

  /** A fraction without integer digits, followed by a unit, reads as the
      fraction. */
  lemma ParseFloatOfBareFraction()
    ensures ParseFloat(".5km") == Some(0.5)
  {
    var e := Numeral("", "", true, "5", None);
    assert Spelling(e) + "km" == ".5km";
    assert FractionValue("5") == 0.5;
    assert Pow10Int(0) == 1.0;
    ParseFloatOfNumeral(e, "km");
  }

  /** A second point ends a literal that already has one. */
  lemma ParseFloatOfSecondPoint()
    ensures ParseFloat("1.5.3") == Some(1.5)
  {
    var a := Numeral("", "1", true, "5", None);
    assert Value(a) == 1.5 by {
      assert DigitsValue("1") == 1;
      assert FractionValue("5") == 0.5;
      assert Pow10Int(0) == 1.0;
    }
    assert Spelling(a) + ".3" == "1.5.3";
    ParseFloatOfNumeral(a, ".3");
  }

  /** An exponent marker without digits is not part of the literal. */
  lemma ParseFloatOfBareMarker()
    ensures ParseFloat("1ex") == Some(1.0)
  {
    var b := Numeral("", "1", false, "", None);
    assert Spelling(b) + "ex" == "1ex";
    assert !StartsExponent("ex");
    assert DigitsValue("1") == 1;
    ValueOfWhole(b);
    ParseFloatOfNumeral(b, "ex");
  }

  lemma ParseFloatOfZero()
    ensures ParseFloat("0") == Some(0.0)
  {
    ScanNatString(0);
  }

  lemma ParseFloatRejectsWord()
    ensures ParseFloat("abc") == None
  {
    assert TrimStart("abc", JavaScript) == "abc";
  }
}
