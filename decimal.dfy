/** Decimal rendering of a natural number, as Python's str() gives it for the
    page numbers written into the page markers. */
module Decimal {

  predicate IsDigit(c: char) {
    '0' <= c <= '9'
  }

  predicate AllDigits(s: string) {
    forall i :: 0 <= i < |s| ==> IsDigit(s[i])
  }

  function DigitChar(d: nat): (c: char)
    requires d < 10
    ensures IsDigit(c) && c as int - '0' as int == d
  {
    ('0' as int + d) as char
  }

  /** A numeral without superfluous leading zeros: at least one digit, and
      a leading zero only in "0" itself. */
  predicate IsCanonical(s: string) {
    |s| >= 1 && AllDigits(s) && (s[0] == '0' ==> s == "0")
  }

  /** The shortest decimal numeral of n: only digits, a single digit exactly
      below ten, and a leading zero only in "0", the numeral of zero. */
  function FromNat(n: nat): (s: string)
    ensures |s| >= 1 && AllDigits(s)
    ensures (s[0] == '0') <==> n == 0
    ensures |s| == 1 <==> n < 10
    decreases n
  {
    if n < 10 then [DigitChar(n)] else FromNat(n / 10) + [DigitChar(n % 10)]
  }

  /** The value of a numeral, most significant digit first. */
  function ToNat(s: string): nat
    requires AllDigits(s)
    decreases |s|
  {
    if s == [] then 0 else ToNat(s[..|s| - 1]) * 10 + (s[|s| - 1] as int - '0' as int)
  }

  lemma {:induction false} RoundTrip(n: nat)
    ensures ToNat(FromNat(n)) == n
    decreases n
  {
    var s := FromNat(n);
    if n >= 10 {
      var hi := FromNat(n / 10);
      assert s == hi + [DigitChar(n % 10)];
      assert s[..|s| - 1] == hi;
      RoundTrip(n / 10);
    } else {
      assert s[..|s| - 1] == [];
    }
  }

  /** The rendering of a number is canonical; in particular zero is "0". */
  lemma FromNatCanonical(n: nat)
    ensures IsCanonical(FromNat(n))
    ensures n == 0 ==> FromNat(n) == "0"
  {
    var s := FromNat(n);
    if s[0] == '0' {
      assert |s| == 1;
      assert s == [s[0]];
    }
  }

  /** A numeral with a nonzero leading digit denotes a positive number. */
  lemma {:induction false} ToNatPositive(s: string)
    requires |s| >= 1 && AllDigits(s) && s[0] != '0'
    ensures ToNat(s) > 0
    decreases |s|
  {
    if |s| > 1 {
      var hi := s[..|s| - 1];
      assert hi[0] == s[0];
      assert AllDigits(hi) by {
        forall i | 0 <= i < |hi| ensures IsDigit(hi[i]) {
          assert hi[i] == s[i];
        }
      }
      ToNatPositive(hi);
    }
  }

  /** Every canonical numeral is the rendering of its value, so FromNat is
      the one canonical numeral of each number (for 0, "0" and not "00"). */
  lemma {:induction false} Canonical(s: string)
    requires IsCanonical(s)
    ensures FromNat(ToNat(s)) == s
    decreases |s|
  {
    if |s| == 1 {
      var d := s[0] as int - '0' as int;
      assert s[..|s| - 1] == [];
      assert ToNat(s) == d;
      assert FromNat(d) == [DigitChar(d)];
    } else {
      var hi := s[..|s| - 1];
      var d := s[|s| - 1] as int - '0' as int;
      assert hi[0] == s[0];
      assert s[0] != '0';
      assert AllDigits(hi) by {
        forall i | 0 <= i < |hi| ensures IsDigit(hi[i]) {
          assert hi[i] == s[i];
        }
      }
      ToNatPositive(hi);
      Canonical(hi);
      var n := ToNat(s);
      assert n == ToNat(hi) * 10 + d && 0 <= d < 10;
      assert n / 10 == ToNat(hi) && n % 10 == d;
      assert FromNat(n) == FromNat(n / 10) + [DigitChar(n % 10)];
      assert s == hi + [s[|s| - 1]];
    }
  }

  lemma FromNatInjective(a: nat, b: nat)
    ensures FromNat(a) == FromNat(b) ==> a == b
  {
    RoundTrip(a);
    RoundTrip(b);
  }
}
