/** The JavaScript string built-ins the application relies on, over `string` (a sequence of
    code points): whitespace as `\s` and `trim` see it, `toLowerCase` on ASCII letters,
    `includes`, `startsWith`, `endsWith`, `join`, `padStart`, and the
    decimal rendering of non-negative integers. */
module Text {

  /** The WhiteSpace and LineTerminator code points: what `\s` matches and what `trim` strips. */
  predicate IsWhitespace(c: char) {
    || c == ' ' || c == '\t' || c == '\n' || c == '\r' || c == '\U{000B}' || c == '\U{000C}'
    || c == '\U{00A0}' || c == '\U{1680}' || ('\U{2000}' <= c <= '\U{200A}')
    || c == '\U{2028}' || c == '\U{2029}' || c == '\U{202F}' || c == '\U{205F}'
    || c == '\U{3000}' || c == '\U{FEFF}'
  }

  predicate IsUpper(c: char) { 'A' <= c <= 'Z' }

  predicate IsDigit(c: char) { '0' <= c <= '9' }

  function LowerChar(c: char): (r: char)
    ensures !IsUpper(r)
    ensures IsWhitespace(r) <==> IsWhitespace(c)
    ensures !IsUpper(c) ==> r == c
  {
    if IsUpper(c) then (c as int + 32) as char else c
  }

  /** `toLowerCase`, on the ASCII letters. */
  function ToLower(s: string): (r: string)
    ensures |r| == |s|
    ensures forall i :: 0 <= i < |s| ==> r[i] == LowerChar(s[i])
  {
    seq(|s|, i requires 0 <= i < |s| => LowerChar(s[i]))
  }

  /** `s.replace(re, '')` for a global regular expression that matches single characters. */
  function Without(s: string, drop: char -> bool): (r: string)
    ensures |r| <= |s|
    ensures forall i :: 0 <= i < |r| ==> !drop(r[i])
    ensures forall c :: c in r ==> c in s
  {
    if s == [] then []
    else (if drop(s[0]) then [] else [s[0]]) + Without(s[1..], drop)
  }

  lemma {:induction false} WithoutIdentity(s: string, drop: char -> bool)
    requires forall i :: 0 <= i < |s| ==> !drop(s[i])
    ensures Without(s, drop) == s
  {
    if s != [] {
      WithoutIdentity(s[1..], drop);
    }
  }

  lemma {:induction false} WithoutConcat(a: string, b: string, drop: char -> bool)
    ensures Without(a + b, drop) == Without(a, drop) + Without(b, drop)
  {
    if a == [] {
      assert a + b == b;
    } else {
      assert (a + b)[1..] == a[1..] + b;
      WithoutConcat(a[1..], b, drop);
    }
  }

  /** Lower-casing and deleting whitespace commute, as lower-casing keeps whitespace as it is. */
  lemma {:induction false} WithoutToLower(s: string)
    ensures Without(ToLower(s), IsWhitespace) == ToLower(Without(s, IsWhitespace))
  {
    if s != [] {
      assert ToLower(s)[1..] == ToLower(s[1..]);
      WithoutToLower(s[1..]);
      var w := Without(s[1..], IsWhitespace);
      if !IsWhitespace(s[0]) {
        assert ToLower([s[0]] + w) == [LowerChar(s[0])] + ToLower(w);
      }
    }
  }

  /** Deleting whitespace makes an earlier `trim` redundant. */
  lemma {:induction false} WithoutTrim(s: string)
    ensures Without(Trim(s), IsWhitespace) == Without(s, IsWhitespace)
  {
    WithoutTrimStart(s);
    WithoutTrimEnd(TrimStart(s));
  }

  lemma {:induction false} WithoutTrimStart(s: string)
    ensures Without(TrimStart(s), IsWhitespace) == Without(s, IsWhitespace)
  {
    if s != [] && IsWhitespace(s[0]) {
      WithoutTrimStart(s[1..]);
    }
  }

  lemma {:induction false} WithoutTrimEnd(s: string)
    ensures Without(TrimEnd(s), IsWhitespace) == Without(s, IsWhitespace)
  {
    if s != [] && IsWhitespace(s[|s| - 1]) {
      var init := s[..|s| - 1];
      WithoutTrimEnd(init);
      assert s == init + [s[|s| - 1]];
      WithoutConcat(init, [s[|s| - 1]], IsWhitespace);
      assert Without([s[|s| - 1]], IsWhitespace) == [];
    }
  }

  /** `trim` leaves a string without whitespace as it is. */
  lemma TrimNoWhitespace(s: string)
    requires forall i :: 0 <= i < |s| ==> !IsWhitespace(s[i])
    ensures Trim(s) == s
  {
  }

  function TrimStart(s: string): (r: string)
    ensures |r| <= |s| && r == s[|s| - |r|..]
    ensures r != [] ==> !IsWhitespace(r[0])
    ensures forall i :: 0 <= i < |s| - |r| ==> IsWhitespace(s[i])
  {
    if s != [] && IsWhitespace(s[0]) then TrimStart(s[1..]) else s
  }

  function TrimEnd(s: string): (r: string)
    ensures |r| <= |s| && r == s[..|r|]
    ensures r != [] ==> !IsWhitespace(r[|r| - 1])
    ensures forall i :: |r| <= i < |s| ==> IsWhitespace(s[i])
  {
    if s != [] && IsWhitespace(s[|s| - 1]) then TrimEnd(s[..|s| - 1]) else s
  }

  /** `trim`: strip leading and trailing whitespace. */
  function Trim(s: string): string {
    TrimEnd(TrimStart(s))
  }

  /** A string trims to nothing exactly when it is all whitespace. */
  lemma TrimBlank(s: string)
    ensures Trim(s) == "" <==> forall i :: 0 <= i < |s| ==> IsWhitespace(s[i])
  {
    var t := TrimStart(s);
    if t != [] {
      assert !IsWhitespace(t[0]);
      assert TrimEnd(t) != [];
      assert !IsWhitespace(s[|s| - |t|]);
    }
  }

  predicate StartsWith(s: string, p: string) {
    |p| <= |s| && s[..|p|] == p
  }

  predicate EndsWith(s: string, p: string) {
    |p| <= |s| && s[|s| - |p|..] == p
  }

  /** `includes`: some position of `s` starts an occurrence of `sub`. */
  predicate Contains(s: string, sub: string)
    decreases |s|
  {
    StartsWith(s, sub) || (s != [] && Contains(s[1..], sub))
  }

  /** `Array.prototype.join`. */
  function Join(parts: seq<string>, sep: string): string {
    if |parts| == 0 then ""
    else if |parts| == 1 then parts[0]
    else parts[0] + sep + Join(parts[1..], sep)
  }

  /** How many times `c` occurs in `s`. */
  function CountChar(s: string, c: char): nat {
    if s == [] then 0 else (if s[0] == c then 1 else 0) + CountChar(s[1..], c)
  }

  lemma {:induction false} CountCharConcat(a: string, b: string, c: char)
    ensures CountChar(a + b, c) == CountChar(a, c) + CountChar(b, c)
  {
    if a == [] {
      assert a + b == b;
    } else {
      assert (a + b)[1..] == a[1..] + b;
      CountCharConcat(a[1..], b, c);
    }
  }

  lemma {:induction false} CountCharAbsent(s: string, c: char)
    requires c !in s
    ensures CountChar(s, c) == 0
  {
    if s != [] {
      assert c !in s[1..] by {
        assert forall x :: x in s[1..] ==> x in s;
      }
      CountCharAbsent(s[1..], c);
    }
  }

  /** Joining pieces without `c` by the separator `c` puts one `c` between each two of them. */
  lemma {:induction false} JoinCount(parts: seq<string>, c: char)
    requires |parts| > 0
    requires forall i :: 0 <= i < |parts| ==> c !in parts[i]
    ensures CountChar(Join(parts, [c]), c) == |parts| - 1
  {
    CountCharAbsent(parts[0], c);
    if |parts| > 1 {
      JoinCount(parts[1..], c);
      CountCharConcat(parts[0] + [c], Join(parts[1..], [c]), c);
      CountCharConcat(parts[0], [c], c);
    }
  }

  function Repeat<T>(x: T, n: nat): (r: seq<T>)
    ensures |r| == n && forall i :: 0 <= i < n ==> r[i] == x
  {
    seq(n, _ => x)
  }

  /** `padStart(width, fill)`. */
  function PadStart(s: string, width: nat, fill: char): (r: string)
    ensures |r| == if |s| >= width then |s| else width
    ensures EndsWith(r, s)
  {
    if |s| >= width then s else Repeat(fill, width - |s|) + s
  }

  function DigitChar(d: nat): (c: char)
    requires d < 10
    ensures IsDigit(c)
  {
    ('0' as int + d) as char
  }

  function DigitValue(c: char): (d: nat)
    requires IsDigit(c)
    ensures d < 10 && DigitChar(d) == c
  {
    c as int - '0' as int
  }

  /** The decimal rendering of a non-negative integer, without leading zeros. */
  function NatToString(n: nat): (s: string)
    ensures |s| >= 1
    ensures forall i :: 0 <= i < |s| ==> IsDigit(s[i])
    decreases n
  {
    if n < 10 then [DigitChar(n)] else NatToString(n / 10) + [DigitChar(n % 10)]
  }

  function IntToString(i: int): string {
    if i < 0 then "-" + NatToString(-i) else NatToString(i)
  }

  predicate AllDigits(s: string) {
    forall i :: 0 <= i < |s| ==> IsDigit(s[i])
  }

  /** The value of a string of decimal digits. */
  function DigitsValue(s: string): nat
    requires AllDigits(s)
  {
    if s == [] then 0 else DigitsValue(s[..|s| - 1]) * 10 + DigitValue(s[|s| - 1])
  }

  function Pow10(k: nat): (p: nat)
    ensures p >= 1
  {
    if k == 0 then 1 else 10 * Pow10(k - 1)
  }

  /** Reading the digits back gives the number: the rendering and `DigitsValue` are inverses. */
  lemma {:induction false} NatToStringRoundTrip(n: nat)
    ensures DigitsValue(NatToString(n)) == n
    decreases n
  {
    var s := NatToString(n);
    if n >= 10 {
      NatToStringRoundTrip(n / 10);
      assert s[..|s| - 1] == NatToString(n / 10);
    }
  }

  /** A number in [10^(k-1), 10^k) has exactly k digits. */
  lemma {:induction false} NatToStringLength(n: nat, k: nat)
    requires 1 <= k
    requires (if k == 1 then 0 else Pow10(k - 1)) <= n < Pow10(k)
    ensures |NatToString(n)| == k
    decreases k
  {
    if k > 1 {
      if n < 10 {
        PowMonotone(1, k - 1);
        assert false;
      }
      NatToStringLength(n / 10, k - 1);
    } else if n >= 10 {
      assert false;
    }
  }

  lemma {:induction false} PowMonotone(i: nat, j: nat)
    requires i <= j
    ensures Pow10(i) <= Pow10(j)
    decreases j
  {
    if i < j {
      PowMonotone(i, j - 1);
    }
  }

  /** The first k digits of a zero-padded rendering read back as the number. */
  lemma {:induction false} PadStartDigits(n: nat, width: nat)
    ensures AllDigits(PadStart(NatToString(n), width, '0'))
    ensures DigitsValue(PadStart(NatToString(n), width, '0')) == n
  {
    var s := NatToString(n);
    NatToStringRoundTrip(n);
    if |s| < width {
      assert PadStart(s, width, '0') == Repeat('0', width - |s|) + s;
      LeadingZeros(width - |s|, s);
    } else {
      assert PadStart(s, width, '0') == s;
    }
  }

  lemma {:induction false} LeadingZeros(z: nat, s: string)
    requires AllDigits(s)
    ensures AllDigits(Repeat('0', z) + s)
    ensures DigitsValue(Repeat('0', z) + s) == DigitsValue(s)
    decreases |s|
  {
    var t := Repeat('0', z) + s;
    if s == [] {
      assert t == Repeat('0', z);
      ZerosValue(z);
    } else {
      assert t[..|t| - 1] == Repeat('0', z) + s[..|s| - 1];
      LeadingZeros(z, s[..|s| - 1]);
    }
  }

  lemma {:induction false} ZerosValue(z: nat)
    ensures AllDigits(Repeat('0', z)) && DigitsValue(Repeat('0', z)) == 0
  {
    if z > 0 {
      assert Repeat('0', z)[..z - 1] == Repeat('0', z - 1);
      ZerosValue(z - 1);
    }
  }

  /** The digits of `s` split at `k`: the leading part counts in units of 10^(|s| - k). */
  lemma {:induction false} DigitsValueSplit(s: string, k: nat)
    requires AllDigits(s) && k <= |s|
    ensures DigitsValue(s) == DigitsValue(s[..k]) * Pow10(|s| - k) + DigitsValue(s[k..])
    decreases |s|
  {
    if k == |s| {
      assert s[..k] == s;
      assert s[k..] == [];
    } else {
      var init := s[..|s| - 1];
      DigitsValueSplit(init, k);
      DropLastDigit(s, k);
      ShiftDigit(DigitsValue(init), DigitsValue(s[..k]), Pow10(|init| - k), DigitsValue(init[k..]),
        DigitValue(s[|s| - 1]), DigitsValue(s), DigitsValue(s[k..]), Pow10(|s| - k));
    }
  }

  /** Removing the last digit of `s` leaves the first `k` alone and shortens the rest by one digit. */
  lemma DropLastDigit(s: string, k: nat)
    requires AllDigits(s) && k < |s|
    ensures s[..|s| - 1][..k] == s[..k]
    ensures DigitsValue(s) == DigitsValue(s[..|s| - 1]) * 10 + DigitValue(s[|s| - 1])
    ensures DigitsValue(s[k..]) == DigitsValue(s[..|s| - 1][k..]) * 10 + DigitValue(s[|s| - 1])
    ensures Pow10(|s| - k) == 10 * Pow10(|s| - 1 - k)
  {
    assert s[k..][..|s| - k - 1] == s[..|s| - 1][k..];
    assert s[k..][|s| - k - 1] == s[|s| - 1];
  }

  /** One more digit at the end: the split of the shorter string carries over. */
  lemma ShiftDigit(whole: int, hi: int, p: int, lo: int, d: int, whole': int, lo': int, p': int)
    requires whole == hi * p + lo
    requires whole' == whole * 10 + d && lo' == lo * 10 + d && p' == 10 * p
    ensures whole' == hi * p' + lo'
  {
    assert (hi * p + lo) * 10 == hi * (10 * p) + lo * 10;
  }

  /** k digits stay below 10^k. */
  lemma {:induction false} DigitsValueBound(s: string)
    requires AllDigits(s)
    ensures DigitsValue(s) < Pow10(|s|)
    decreases |s|
  {
    if s != [] {
      DigitsValueBound(s[..|s| - 1]);
    }
  }
}
