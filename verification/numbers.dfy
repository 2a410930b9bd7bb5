/** Decimal digit strings: the text of a whole number, as the clock reading in a
    generated child id, and JavaScript's `Number()` on digit strings, as the
    bedtime parser applies it. */
module Numbers {
  import opened Types

  predicate IsDigit(c: char)
  {
    '0' <= c <= '9'
  }

  predicate AllDigits(s: string)
  {
    forall i :: 0 <= i < |s| ==> IsDigit(s[i])
  }

  function DigitValue(c: char): nat
    requires IsDigit(c)
  {
    (c - '0') as nat
  }

  function DigitChar(d: nat): (c: char)
    requires d < 10
    ensures IsDigit(c) && DigitValue(c) == d
  {
    ('0' as int + d) as char
  }

  /** The decimal text of n, without leading zeros (`String(n)`). */
  function DecimalText(n: nat): (s: string)
    ensures |s| >= 1 && AllDigits(s)
    ensures n >= 10 ==> |s| >= 2
  {
    if n < 10 then [DigitChar(n)]
    else DecimalText(n / 10) + [DigitChar(n % 10)]
  }

  /** The value of a digit string read left to right; the empty string is 0. */
  function DigitsValue(s: string): (v: nat)
    requires AllDigits(s)
  {
    if |s| == 0 then 0
    else 10 * DigitsValue(s[..|s| - 1]) + DigitValue(s[|s| - 1])
  }

  /** `Number(s)` for the strings this model covers: the empty string is 0, a
      digit string is its value, and any other string is NaN (None). */
  function ParseNumber(s: string): (v: Option<nat>)
    ensures v.None? <==> !AllDigits(s)
    ensures s == [] ==> v == Some(0)
  {
    if AllDigits(s) then Some(DigitsValue(s)) else None
  }

  /** Reading back the text of a number gives the number. */
  lemma {:induction false} ParseDecimalText(n: nat)
    ensures ParseNumber(DecimalText(n)) == Some(n)
  {
    var s := DecimalText(n);
    if n >= 10 {
      ParseDecimalText(n / 10);
      assert s[..|s| - 1] == DecimalText(n / 10);
      assert DigitValue(s[|s| - 1]) == n % 10;
      assert DigitsValue(s) == 10 * (n / 10) + n % 10;
    }
  }

  /** A leading zero does not change the value of a digit string. */
  lemma {:induction false} LeadingZero(s: string)
    requires AllDigits(s)
    ensures AllDigits(['0'] + s) && ParseNumber(['0'] + s) == ParseNumber(s)
  {
    var t := ['0'] + s;
    assert forall i :: 0 <= i < |t| ==> IsDigit(t[i]) by {
      forall i | 0 <= i < |t| ensures IsDigit(t[i]) {
        if i > 0 { assert t[i] == s[i - 1]; }
      }
    }
    ZeroPrefixValue(s);
  }

  lemma {:induction false} ZeroPrefixValue(s: string)
    requires AllDigits(s) && AllDigits(['0'] + s)
    ensures DigitsValue(['0'] + s) == DigitsValue(s)
  {
    var t := ['0'] + s;
    if |s| > 0 {
      var init := s[..|s| - 1];
      assert t[..|t| - 1] == ['0'] + init;
      assert t[|t| - 1] == s[|s| - 1];
      ZeroPrefixValue(init);
    }
  }

  /** k zeros. */
  function Zeros(k: nat): (z: string)
    ensures |z| == k && forall i :: 0 <= i < k ==> z[i] == '0'
  {
    if k == 0 then [] else ['0'] + Zeros(k - 1)
  }

  /** A number written with any count of leading zeros, as "07", reads as the
      number. */
  lemma {:induction false} PaddedText(k: nat, n: nat)
    ensures ParseNumber(Zeros(k) + DecimalText(n)) == Some(n)
  {
    var t := DecimalText(n);
    if k == 0 {
      assert Zeros(k) + t == t;
      ParseDecimalText(n);
    } else {
      PaddedText(k - 1, n);
      var u := Zeros(k - 1) + t;
      assert Zeros(k) + t == ['0'] + u;
      LeadingZero(u);
    }
  }

  /** Distinct numbers have distinct texts. */
  lemma DecimalTextInjective(m: nat, n: nat)
    requires DecimalText(m) == DecimalText(n)
    ensures m == n
  {
    ParseDecimalText(m);
    ParseDecimalText(n);
  }
}
