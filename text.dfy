/** Decimal text: the rendering of integers used by string interpolation
    and `String(format: "%02d")`, and the reading of decimal numerals used by
    Swift's `Double(String)`. */
module Text {
  import opened Wrappers

  predicate IsDigit(c: char) {
    '0' <= c <= '9'
  }

  predicate AllDigits(s: string) {
    forall i :: 0 <= i < |s| ==> IsDigit(s[i])
  }

  function DigitValue(c: char): (d: nat)
    requires IsDigit(c)
    ensures d < 10
  {
    (c as int) - ('0' as int)
  }

  function DigitChar(d: nat): (c: char)
    requires d < 10
    ensures IsDigit(c) && DigitValue(c) == d
  {
    ((d + '0' as int) as char)
  }

  /** The number a string of decimal digits denotes, most significant first. */
  function DigitsValue(s: string): nat
    requires AllDigits(s)
  {
    if s == [] then 0 else DigitsValue(s[..|s| - 1]) * 10 + DigitValue(s[|s| - 1])
  }

  function Pow10(n: nat): (p: nat)
    ensures p >= 1
  {
    if n == 0 then 1 else 10 * Pow10(n - 1)
  }

  /** Decimal rendering of a natural number without leading zeros. */
  function NatToString(n: nat): (s: string)
    ensures AllDigits(s) && DigitsValue(s) == n
    ensures |s| >= 1 && (s[0] == '0' ==> n == 0)
    ensures (n < 10 <==> |s| == 1) && (n < 100 <==> |s| <= 2)
  {
    if n < 10 then [DigitChar(n)]
    else
      var prefix := NatToString(n / 10);
      var s := prefix + [DigitChar(n % 10)];
      assert s[..|s| - 1] == prefix;
      s
  }

  /** `String(format: "%02d", n)`: at least two characters, zero-padded;
      a negative number is its sign followed by its magnitude. */
  function ZeroPad2(n: int): (s: string)
    ensures 0 <= n < 100 ==> |s| == 2 && AllDigits(s) && DigitsValue(s) == n
    ensures n >= 100 ==> AllDigits(s) && DigitsValue(s) == n && |s| > 2 && s[0] != '0'
    ensures n < 0 ==> |s| >= 2 && s[0] == '-' && s[1] != '0' && AllDigits(s[1..]) && DigitsValue(s[1..]) == -n
  {
    if n < 0 then "-" + NatToString(-n)
    else if n < 10 then
      var s := "0" + NatToString(n);
      assert s[..1] == "0";
      s
    else NatToString(n)
  }

  /** Position of the first `c` in `s`, or `|s|` when there is none. */
  function IndexOf(s: string, c: char): (k: nat)
    ensures k <= |s| && (k < |s| ==> s[k] == c)
    ensures forall j :: 0 <= j < k ==> s[j] != c
  {
    if s == [] then 0
    else if s[0] == c then 0
    else 1 + IndexOf(s[1..], c)
  }

  /** An unsigned decimal numeral: digits with at most one decimal point and
      at least one digit (`"12"`, `"1.5"`, `"1."`, `".5"`). */
  function ParseUnsigned(s: string): (r: Option<real>)
    ensures r.Some? ==> r.value >= 0.0
  {
    var k := IndexOf(s, '.');
    var whole := s[..k];
    var fraction := if k < |s| then s[k + 1..] else [];
    if AllDigits(whole) && AllDigits(fraction) && |whole| + |fraction| > 0 then
      Some(DigitsValue(whole) as real + DigitsValue(fraction) as real / Pow10(|fraction|) as real)
    else None
  }

  /** Swift's `Double(String)` restricted to plain decimal numerals with an
      optional leading sign. */
  function ParseDouble(s: string): Option<real> {
    if |s| > 0 && s[0] == '-' then
      match ParseUnsigned(s[1..])
      case Some(v) => Some(-v)
      case None => None
    else if |s| > 0 && s[0] == '+' then ParseUnsigned(s[1..])
    else ParseUnsigned(s)
  }

  /** Reading back a rendered natural number gives the number. */
  lemma ParseDoubleNatToString(n: nat)
    ensures ParseDouble(NatToString(n)) == Some(n as real)
  {
    var s := NatToString(n);
    assert IndexOf(s, '.') == |s| by {
      assert forall j :: 0 <= j < |s| ==> s[j] != '.';
    }
    assert s[..|s|] == s;
  }

  /** A numeral never contains a comma (nor anything but digits, one point
      and a leading sign). */
  lemma ParseDoubleRejectsComma(s: string, i: nat)
    requires i < |s| && s[i] == ','
    ensures ParseDouble(s).None?
  {
    if |s| > 0 && (s[0] == '-' || s[0] == '+') {
      assert i > 0;
      UnsignedRejectsComma(s[1..], i - 1);
    } else {
      UnsignedRejectsComma(s, i);
    }
  }

  lemma UnsignedRejectsComma(s: string, i: nat)
    requires i < |s| && s[i] == ','
    ensures ParseUnsigned(s).None?
  {
    var k := IndexOf(s, '.');
    if i < k {
      assert s[..k][i] == ',';
    } else {
      assert i != k;
      assert s[k + 1..][i - k - 1] == ',';
    }
  }
}
