/** JavaScript values as the application sees them in parsed rows and fetched records, with the
    conversions it applies to them: `String(v)` / `v.toString()`, truthiness, `Number(v)`,
    `parseFloat` and `parseInt`. A number is a finite decimal `mantissa / 10^exponent`, so that
    its rendering and its parse are exact. */
module JsValues {
  import opened Wrappers
  import opened Text

  datatype JsValue =
    | Undefined
    | Null
    | Bool(b: bool)
    | Str(s: string)
    | Num(mantissa: int, exponent: nat)

  function NumValue(mantissa: int, exponent: nat): real {
    mantissa as real / Pow10(exponent) as real
  }

  /** Strip trailing zeros of the fraction: the shortest form of the same decimal. */
  function Normalize(m: int, e: nat): (r: (int, nat))
    ensures NumValue(r.0, r.1) == NumValue(m, e)
    decreases e
  {
    if e > 0 && m % 10 == 0 then
      assert NumValue(m / 10, e - 1) == NumValue(m, e) by {
        assert m as real == (m / 10) as real * 10.0;
        assert Pow10(e) as real == 10.0 * Pow10(e - 1) as real;
        TenthsCancel((m / 10) as real, Pow10(e - 1) as real);
      }
      Normalize(m / 10, e - 1)
    else (m, e)
  }

  lemma TenthsCancel(x: real, y: real)
    requires y > 0.0
    ensures (x * 10.0) / (10.0 * y) == x / y
  {
    var r := x / y;
    assert r * y == x;
    assert r * (10.0 * y) == x * 10.0;
  }

  /** `String(n)` for a number whose magnitude is below 10^21 and whose fraction, when it
      has one, is not below 10^-6 (JavaScript switches to exponent notation outside). */
  function NumberToString(m: int, e: nat): string {
    var n := Normalize(m, e);
    var sign := if n.0 < 0 then "-" else "";
    sign + MagnitudeToString(if n.0 < 0 then -n.0 else n.0, n.1)
  }

  /** `a / 10^e` written with `e` fraction digits (none when `e` is 0). */
  function MagnitudeToString(a: nat, e: nat): string {
    if e == 0 then NatToString(a) else WholeDigits(a, e) + "." + FractionDigits(a, e)
  }

  /** The digits of `a / 10^e` before the point, padded to at least one, and the `e` after it. */
  function WholeDigits(a: nat, e: nat): string {
    var digits := PadStart(NatToString(a), e + 1, '0');
    digits[..|digits| - e]
  }

  function FractionDigits(a: nat, e: nat): string {
    var digits := PadStart(NatToString(a), e + 1, '0');
    digits[|digits| - e..]
  }

  /** `String(v)`. */
  function ToStr(v: JsValue): string {
    match v
    case Undefined => "undefined"
    case Null => "null"
    case Bool(b) => if b then "true" else "false"
    case Str(s) => s
    case Num(m, e) => NumberToString(m, e)
  }

  /** JavaScript truthiness (NaN is not representable here). */
  predicate Truthy(v: JsValue) {
    match v
    case Undefined => false
    case Null => false
    case Bool(b) => b
    case Str(s) => s != ""
    case Num(m, _) => m != 0
  }

  predicate IsNullish(v: JsValue) {
    v.Undefined? || v.Null?
  }

  /** The length of the run of decimal digits at the start of `s`. */
  function DigitRun(s: string): (k: nat)
    ensures k <= |s| && AllDigits(s[..k])
    ensures k < |s| ==> !IsDigit(s[k])
  {
    if s != [] && IsDigit(s[0]) then
      var k := 1 + DigitRun(s[1..]);
      assert s[..k] == [s[0]] + s[1..][..k - 1];
      k
    else 0
  }

  /** The digit run of digits followed by a non-digit (or nothing) is exactly those digits. */
  lemma {:induction false} DigitRunOf(ds: string, tail: string)
    requires AllDigits(ds)
    requires tail == [] || !IsDigit(tail[0])
    ensures DigitRun(ds + tail) == |ds|
  {
    if ds == [] {
      assert ds + tail == tail;
    } else {
      assert (ds + tail)[1..] == ds[1..] + tail;
      DigitRunOf(ds[1..], tail);
    }
  }

  /** An exponent part `e[+-]digits` at the start of `u`: its value and length, or (0, 0). */
  function ExponentPart(u: string): (r: (int, nat))
    ensures r.1 <= |u|
  {
    if |u| >= 2 && (u[0] == 'e' || u[0] == 'E') then
      var signLen := if u[1] == '+' || u[1] == '-' then 1 else 0;
      var k := DigitRun(u[1 + signLen..]);
      if k == 0 then (0, 0)
      else
        var v: int := DigitsValue(u[1 + signLen..][..k]);
        (if signLen == 1 && u[1] == '-' then -v else v, 1 + signLen + k)
    else (0, 0)
  }

  /** The value of the digits `ip`, a point, and the digits `fp`. */
  function DecimalValue(ip: string, fp: string): real
    requires AllDigits(ip) && AllDigits(fp)
  {
    if fp == [] then DigitsValue(ip) as real
    else (DigitsValue(ip) * Pow10(|fp|) + DigitsValue(fp)) as real / Pow10(|fp|) as real
  }

  /** `x` times ten to the power `ex`. */
  function Scale(x: real, ex: int): real {
    if ex == 0 then x else if ex > 0 then x * Pow10(ex) as real else x / Pow10(-ex) as real
  }

  /** The longest prefix of `s` that is a decimal literal `[+-](digits[.digits]|.digits)[exponent]`:
      its value and its length. None when no prefix is one. */
  function DecimalPrefix(s: string): (r: Option<(real, nat)>)
    ensures r.Some? ==> 1 <= r.value.1 <= |s|
  {
    var signLen := if s != [] && (s[0] == '+' || s[0] == '-') then 1 else 0;
    var t := s[signLen..];
    var i := DigitRun(t);
    var hasDot := i < |t| && t[i] == '.';
    var f := if hasDot then DigitRun(t[i + 1..]) else 0;
    if i == 0 && f == 0 then None
    else
      var fracDigits := if hasDot then t[i + 1..][..f] else "";
      var mantEnd := if hasDot then i + 1 + f else i;
      var ex := ExponentPart(t[mantEnd..]);
      var scaled := Scale(DecimalValue(t[..i], fracDigits), ex.0);
      Some((if signLen == 1 && s[0] == '-' then -scaled else scaled, signLen + mantEnd + ex.1))
  }

  /** `parseFloat(s)` on decimal text: skip leading whitespace, read the longest decimal prefix;
      None is NaN. The "Infinity" prefix, which JavaScript reads as an infinite value, is not
      modelled and gives None here. */
  function ParseFloat(s: string): (r: Option<real>)
    ensures r.Some? ==> exists k :: 1 <= k <= |TrimStart(s)| && DecimalPrefix(TrimStart(s)) == Some((r.value, k))
  {
    match DecimalPrefix(TrimStart(s))
    case Some(p) => Some(p.0)
    case None => None
  }

  /** `Number(s)` for a string, restricted to decimal text: the trimmed string must be a decimal
      literal as a whole, and "" is 0. JavaScript also reads "Infinity" with an optional sign and
      the "0x", "0b" and "0o" integer literals; here those give None (NaN). */
  function StringToNumber(s: string): (r: Option<real>) {
    var t := Trim(s);
    if t == "" then Some(0.0)
    else match DecimalPrefix(t)
      case Some(p) => if p.1 == |t| then Some(p.0) else None
      case None => None
  }

  /** `Number(v)`; None is NaN. */
  function ToNumber(v: JsValue): Option<real> {
    match v
    case Undefined => None
    case Null => Some(0.0)
    case Bool(b) => Some(if b then 1.0 else 0.0)
    case Str(s) => StringToNumber(s)
    case Num(m, e) => Some(NumValue(m, e))
  }

  /** `parseInt(s)` in base 10: skip leading whitespace, an optional sign, then at least one digit. */
  function ParseInt(s: string): (r: Option<int>) {
    var t := TrimStart(s);
    var signLen := if t != [] && (t[0] == '+' || t[0] == '-') then 1 else 0;
    var k := DigitRun(t[signLen..]);
    if k == 0 then None
    else
      var v: int := DigitsValue(t[signLen..][..k]);
      Some(if signLen == 1 && t[0] == '-' then -v else v)
  }

  /** `x || 0` applied to a number: NaN (and 0) become 0. */
  function OrZero(x: Option<real>): (r: real)
    ensures x.Some? ==> r == x.value
    ensures x.None? ==> r == 0.0
  {
    if x.Some? then x.value else 0.0
  }

  /** `parseFloat(String(n))` reads back a whole number. */
  lemma ParseFloatNat(n: nat)
    ensures ParseFloat(NatToString(n)) == Some(n as real)
  {
    var s := NatToString(n);
    assert !IsWhitespace(s[0]);
    assert TrimStart(s) == s;
    DecimalPrefixOfDigits(s);
    NatToStringRoundTrip(n);
  }

  /** A plain run of digits is a decimal literal of its own length and value. */
  lemma DecimalPrefixOfDigits(ds: string)
    requires |ds| >= 1 && AllDigits(ds)
    ensures DecimalPrefix(ds) == Some((DigitsValue(ds) as real, |ds|))
  {
    assert ds[0] != '+' && ds[0] != '-';
    assert ds + [] == ds;
    DigitRunOf(ds, []);
    WholeDecimalPrefix(ds);
  }

  /** Unsigned text that is one run of digits reads as that whole number, with no fraction. */
  lemma WholeDecimalPrefix(s: string)
    requires |s| >= 1 && s[0] != '+' && s[0] != '-' && DigitRun(s) == |s|
    ensures DecimalPrefix(s) == Some((DigitsValue(s) as real, |s|))
  {
    assert s[0..] == s;
    assert s[..|s|] == s;
    assert s[|s|..] == [];
    assert ExponentPart([]) == (0, 0);
  }

  /** `String(n)` is never empty and starts with a sign or a digit, never with whitespace. */
  lemma NumberTextVisible(m: int, e: nat)
    ensures |NumberToString(m, e)| >= 1 && !IsWhitespace(NumberToString(m, e)[0])
  {
    var n := Normalize(m, e);
    var a: nat := if n.0 < 0 then -n.0 else n.0;
    var text := MagnitudeToString(a, n.1);
    MagnitudeLeadsWithDigit(a, n.1);
    var sign := if n.0 < 0 then "-" else "";
    var c := (sign + text)[0];
    assert c == '-' || IsDigit(c);
    SignOrDigitVisible(c);
  }

  lemma SignOrDigitVisible(c: char)
    requires c == '-' || IsDigit(c)
    ensures !IsWhitespace(c)
  {
  }

  lemma MagnitudeLeadsWithDigit(a: nat, e: nat)
    ensures |MagnitudeToString(a, e)| >= 1 && IsDigit(MagnitudeToString(a, e)[0])
  {
    if e > 0 {
      var digits := PadStart(NatToString(a), e + 1, '0');
      PadStartDigits(a, e + 1);
      assert MagnitudeToString(a, e)[0] == digits[0];
    }
  }

  /** Text that starts with anything but a sign, a digit or a point holds no number. */
  lemma NoDecimalPrefix(s: string)
    requires s != [] && !IsDigit(s[0]) && s[0] !in "+-."
    ensures DecimalPrefix(s) == None
  {
    assert s[0..] == s;
    assert DigitRun(s) == 0;
  }

  /** `parseFloat` of text starting with a visible character that cannot begin a number is NaN. */
  lemma ParseFloatNoNumber(s: string)
    requires s != [] && !IsWhitespace(s[0]) && !IsDigit(s[0]) && s[0] !in "+-."
    ensures ParseFloat(s) == None
  {
    assert TrimStart(s) == s;
    NoDecimalPrefix(s);
  }

  /** A decimal literal needs a digit, so text without one has no number prefix. */
  lemma DecimalPrefixNeedsDigit(s: string)
    requires forall i :: 0 <= i < |s| ==> !IsDigit(s[i])
    ensures DecimalPrefix(s) == None
  {
    var signLen := if s != [] && (s[0] == '+' || s[0] == '-') then 1 else 0;
    var t := s[signLen..];
    assert t != [] ==> t[0] == s[signLen];
    assert DigitRun(t) == 0;
    if |t| > 1 {
      assert t[1..][0] == s[signLen + 1];
    }
    assert t != [] ==> DigitRun(t[1..]) == 0;
  }

  /** `parseFloat` of text without a digit is NaN. */
  lemma ParseFloatNeedsDigit(s: string)
    requires forall i :: 0 <= i < |s| ==> !IsDigit(s[i])
    ensures ParseFloat(s) == None
  {
    var u := TrimStart(s);
    forall i | 0 <= i < |u|
      ensures !IsDigit(u[i])
    {
      assert u[i] == s[|s| - |u| + i];
    }
    DecimalPrefixNeedsDigit(u);
  }

  /** `parseInt(String(n))` of a non-negative number is its whole part: the digits up to the point. */
  lemma ParseIntOfNumber(m: int, e: nat)
    requires m >= 0
    ensures ParseInt(NumberToString(m, e)) == Some(NumValue(m, e).Floor)
  {
    var n := Normalize(m, e);
    NonNegativeText(m, e);
    MagnitudeWholePart(n.0, n.1);
  }

  /** A non-negative number is written without a sign. */
  lemma NonNegativeText(m: int, e: nat)
    requires m >= 0
    ensures Normalize(m, e).0 >= 0
    ensures NumberToString(m, e) == MagnitudeToString(Normalize(m, e).0, Normalize(m, e).1)
  {
    NormalizeKeepsSign(m, e);
    var n := Normalize(m, e);
    assert "" + MagnitudeToString(n.0, n.1) == MagnitudeToString(n.0, n.1);
  }

  lemma {:induction false} NormalizeKeepsSign(m: int, e: nat)
    requires m >= 0
    ensures Normalize(m, e).0 >= 0
    decreases e
  {
    if e > 0 && m % 10 == 0 {
      NormalizeKeepsSign(m / 10, e - 1);
    }
  }

  /** The whole part of `a / 10^f` is what `parseInt` reads from its rendering. */
  lemma MagnitudeWholePart(a: nat, f: nat)
    ensures ParseInt(MagnitudeToString(a, f)) == Some(NumValue(a, f).Floor)
  {
    if f == 0 {
      WholeNumberRead(a);
    } else {
      FractionReadsWholeDigits(a, f);
      WholeDigitsAreFloor(a, f);
    }
  }

  lemma WholeNumberRead(a: nat)
    ensures ParseInt(MagnitudeToString(a, 0)) == Some(NumValue(a, 0).Floor)
  {
    NatToStringRoundTrip(a);
    AllDigitsRead(NatToString(a));
    WholeOfNat(a);
  }

  lemma PointedText(a: nat, f: nat)
    requires f > 0
    ensures |WholeDigits(a, f)| >= 1 && AllDigits(WholeDigits(a, f))
    ensures |WholeDigits(a, f)| < |MagnitudeToString(a, f)|
    ensures MagnitudeToString(a, f)[..|WholeDigits(a, f)|] == WholeDigits(a, f)
    ensures MagnitudeToString(a, f)[|WholeDigits(a, f)|] == '.'
  {
    PadStartDigits(a, f + 1);
    DigitsPrefix(PadStart(NatToString(a), f + 1, '0'), f);
    PointAfter(WholeDigits(a, f), FractionDigits(a, f));
  }

  /** Dropping the last `drop` of at least `drop + 1` digits leaves at least one digit. */
  lemma DigitsPrefix(digits: string, drop: nat)
    requires AllDigits(digits) && |digits| >= drop + 1
    ensures |digits[..|digits| - drop]| >= 1 && AllDigits(digits[..|digits| - drop])
  {
  }

  /** In `whole + "." + frac` the point follows `whole`. */
  lemma PointAfter(whole: string, frac: string)
    ensures |whole| < |whole + "." + frac|
    ensures (whole + "." + frac)[..|whole|] == whole && (whole + "." + frac)[|whole|] == '.'
  {
    assert (whole + "." + frac)[..|whole|] == whole;
  }

  lemma FractionReadsWholeDigits(a: nat, f: nat)
    requires f > 0
    ensures AllDigits(WholeDigits(a, f))
    ensures ParseInt(MagnitudeToString(a, f)) == Some(DigitsValue(WholeDigits(a, f)))
  {
    PointedText(a, f);
    LeadingDigitsRead(MagnitudeToString(a, f), |WholeDigits(a, f)|);
  }

  lemma WholeDigitsAreFloor(a: nat, f: nat)
    requires f > 0
    ensures AllDigits(WholeDigits(a, f))
    ensures NumValue(a, f).Floor == DigitsValue(WholeDigits(a, f))
  {
    var digits := PadStart(NatToString(a), f + 1, '0');
    PadStartDigits(a, f + 1);
    DigitsWholePart(digits, |digits| - f);
  }

  /** The digits before position `cut` are the whole part of the digits' value over 10^(|digits| - cut). */
  lemma DigitsWholePart(digits: string, cut: nat)
    requires AllDigits(digits) && cut <= |digits|
    ensures (DigitsValue(digits) as real / Pow10(|digits| - cut) as real).Floor == DigitsValue(digits[..cut])
  {
    DigitsValueSplit(digits, cut);
    DigitsValueBound(digits[cut..]);
    WholePart(DigitsValue(digits), DigitsValue(digits[..cut]), DigitsValue(digits[cut..]), Pow10(|digits| - cut));
  }

  /** `parseInt` of a run of digits reads all of it. */
  lemma AllDigitsRead(text: string)
    requires |text| >= 1 && AllDigits(text)
    ensures ParseInt(text) == Some(DigitsValue(text))
  {
    assert text[..|text|] == text;
    LeadingDigitsRead(text, |text|);
  }

  lemma WholeOfNat(a: nat)
    ensures NumValue(a, 0).Floor == a
  {
    assert NumValue(a, 0) == a as real;
  }

  /** `parseInt` of text that starts with a run of `k` digits reads exactly that run. */
  lemma LeadingDigitsRead(text: string, k: nat)
    requires 1 <= k <= |text| && AllDigits(text[..k])
    requires k == |text| || !IsDigit(text[k])
    ensures ParseInt(text) == Some(DigitsValue(text[..k]))
  {
    assert text[..k] + text[k..] == text;
    DigitsThenRest(text[..k], text[k..]);
  }

  /** `parseInt` of digits followed by a non-digit (or nothing) reads those digits. */
  lemma DigitsThenRest(ds: string, tail: string)
    requires |ds| >= 1 && AllDigits(ds)
    requires tail == [] || !IsDigit(tail[0])
    ensures ParseInt(ds + tail) == Some(DigitsValue(ds))
  {
    var t := ds + tail;
    assert t[0] == ds[0];
    UnsignedParseInt(t);
    DigitRunOf(ds, tail);
    assert t[..|ds|] == ds;
  }

  /** Text that starts with a digit is read without whitespace or sign: its leading digit run. */
  lemma UnsignedParseInt(t: string)
    requires |t| >= 1 && IsDigit(t[0])
    ensures DigitRun(t) >= 1 && ParseInt(t) == Some(DigitsValue(t[..DigitRun(t)]))
  {
    SignOrDigitVisible(t[0]);
    assert TrimStart(t) == t;
    assert t[0] != '+' && t[0] != '-';
    assert t[0..] == t;
    var k := DigitRun(t);
    DigitRunPositive(t);
    assert ParseInt(t) == Some(DigitsValue(t[..k]));
  }

  lemma DigitRunPositive(t: string)
    requires |t| >= 1 && IsDigit(t[0])
    ensures DigitRun(t) >= 1
  {
  }

  lemma NonNegativeQuotient(a: int, p: int)
    requires a >= 0 && p >= 1
    ensures a as real / p as real >= 0.0
  {
  }

  /** a = h·p + l with 0 <= l < p has whole part h when divided by p. */
  lemma WholePart(a: int, h: int, l: int, p: int)
    requires p >= 1 && 0 <= l < p && a == h * p + l
    ensures (a as real / p as real).Floor == h
  {
    var bigP := p as real;
    var r := l as real / bigP;
    assert a as real == (h * p) as real + l as real;
    assert (h * p) as real == h as real * bigP;
    assert r * bigP == l as real;
    assert 0.0 <= r < 1.0;
    assert a as real / bigP == h as real + r;
  }

  /** The whole number of cents nearest to a magnitude `y`, the larger one on a tie. */
  function NearestCents(y: real): (k: int)
    requires y >= 0.0
    ensures k >= 0
    ensures k as real - 0.5 <= y * 100.0 < k as real + 0.5
  {
    (y * 100.0 + 0.5).Floor
  }

  /** `parseFloat(x.toFixed(2))` on an exact value: the nearest whole number of cents, a tie going
      away from zero (toFixed rounds the magnitude and takes the larger candidate). */
  function RoundToCents(x: real): (r: real)
    ensures -0.005 <= r - x <= 0.005
    ensures (r * 100.0).Floor as real == r * 100.0
    ensures (x >= 0.0 ==> r >= 0.0) && (x <= 0.0 ==> r <= 0.0)
  {
    var k := NearestCents(if x >= 0.0 then x else -x);
    var cents := if x >= 0.0 then k else -k;
    assert cents as real / 100.0 == (if x >= 0.0 then k as real / 100.0 else -(k as real / 100.0));
    assert (cents as real / 100.0) * 100.0 == cents as real;
    cents as real / 100.0
  }

  /** An amount already in whole cents is sent as it is. */
  lemma RoundToCentsKeepsCents(n: int)
    ensures RoundToCents(n as real / 100.0) == n as real / 100.0
  {
    var x := n as real / 100.0;
    var y := if x >= 0.0 then x else -x;
    var k := NearestCents(y);
    assert y * 100.0 == (if n >= 0 then n else -n) as real;
    assert k == (if n >= 0 then n else -n);
  }
}
