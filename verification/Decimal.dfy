/** Counts and indices, as `String(n)` prints a whole number. */
module Decimal {

  function Digits(n: nat): (s: string)
    ensures s != [] && forall i :: 0 <= i < |s| ==> '0' <= s[i] <= '9'
  {
    var last := ['0' + (n % 10) as char];
    if n < 10 then last else Digits(n / 10) + last
  }

  function Pow10(k: nat): nat { if k == 0 then 1 else 10 * Pow10(k - 1) }

  lemma {:induction false} DigitCount(n: nat, k: nat)
    requires n < Pow10(k) && k > 0
    ensures |Digits(n)| <= k
  {
    if n >= 10 {
      DigitCount(n / 10, k - 1);
    }
  }

  /** `String(n).padStart(4, "0")`. */
  function Padded(n: nat): (s: string)
    ensures |s| >= 4 && forall i :: 0 <= i < |s| ==> '0' <= s[i] <= '9'
  {
    var d := Digits(n);
    if |d| < 4 then seq(4 - |d|, _ => '0') + d else d
  }

  /** The number a digit string spells. */
  function Value(s: string): nat
    requires forall i :: 0 <= i < |s| ==> '0' <= s[i] <= '9'
  {
    if s == [] then 0 else 10 * Value(s[..|s| - 1]) + (s[|s| - 1] as int - '0' as int)
  }

  lemma {:induction false} ValueOfDigits(n: nat)
    ensures Value(Digits(n)) == n
  {
    var d := Digits(n);
    if n >= 10 {
      ValueOfDigits(n / 10);
      assert d[..|d| - 1] == Digits(n / 10);
    } else {
      assert d[..|d| - 1] == [];
    }
  }

  lemma {:induction false} LeadingZero(s: string)
    requires forall i :: 0 <= i < |s| ==> '0' <= s[i] <= '9'
    ensures Value(['0'] + s) == Value(s)
  {
    if s == [] {
      assert (['0'] + s)[..0] == [];
    } else {
      LeadingZero(s[..|s| - 1]);
      assert (['0'] + s)[..|s|] == ['0'] + s[..|s| - 1];
    }
  }

  /** A padded number still spells itself, so no two share a spelling. */
  lemma PaddedSpells(n: nat)
    ensures Value(Padded(n)) == n
  {
    var d := Digits(n);
    ValueOfDigits(n);
    if |d| < 4 {
      var one := ['0'] + d;
      LeadingZero(d);
      if |d| < 3 {
        var two := ['0'] + one;
        LeadingZero(one);
        if |d| < 2 {
          LeadingZero(two);
          assert Padded(n) == ['0'] + two;
        } else {
          assert Padded(n) == two;
        }
      } else {
        assert Padded(n) == one;
      }
    }
  }

  lemma PaddedInjective(m: nat, n: nat)
    requires Padded(m) == Padded(n)
    ensures m == n
  {
    PaddedSpells(m);
    PaddedSpells(n);
  }
}
