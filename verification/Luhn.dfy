/** The payment-card checksum of packages/dlp/src/pii.ts. */
module Luhn {

  import opened Json

  /** What the scanner hands to the check: everything that is not a digit was removed. */
  type Digits = s: string | forall i :: 0 <= i < |s| ==> IsDigit(s[i])

  function DigitValue(c: char): (d: nat)
    requires IsDigit(c)
    ensures d < 10
  {
    c as int - '0' as int
  }

  /** Sum of the decimal digits of a one- or two-digit product. */
  function DigitSum(n: nat): nat
    requires n < 20
  {
    n / 10 + n % 10
  }

  /** In a number of `n` digits: the last one is not doubled, and from there every second one is. */
  predicate Doubled(n: nat, i: nat)
    requires i < n
    decreases n - i
  {
    i + 1 < n && !Doubled(n, i + 1)
  }

  function Contribution(d: nat, doubled: bool): nat
    requires d < 10
  {
    if doubled then DigitSum(2 * d) else d
  }

  /** The Luhn formula of ISO/IEC 7812-1, Annex B: the digits of the products are added up.
      `Formula(s, i)` is the part of the sum contributed by `s[i..]`. */
  function Formula(s: Digits, i: nat): nat
    requires i <= |s|
    decreases |s| - i
  {
    if i == |s| then 0
    else Contribution(DigitValue(s[i]), Doubled(|s|, i)) + Formula(s, i + 1)
  }

  predicate Valid(s: Digits) { Formula(s, 0) % 10 == 0 }

  method LuhnValid(digits: Digits) returns (valid: bool)
    ensures valid == Valid(digits)
  {
    var sum := 0;
    var alt := false;
    var i := |digits| - 1;
    while i >= 0
      invariant -1 <= i < |digits|
      invariant i >= 0 ==> alt == Doubled(|digits|, i)
      invariant sum == Formula(digits, i + 1)
    {
      var n := DigitValue(digits[i]);
      if alt {
        n := n * 2;
        if n > 9 { n := n - 9; }
      }
      sum := sum + n;
      alt := !alt;
      i := i - 1;
    }
    return sum % 10 == 0;
  }

  /** Strings that agree from `i` on contribute the same from `i` on. */
  lemma FormulaSuffix(s: Digits, t: Digits, i: nat)
    requires |s| == |t| && i <= |s|
    requires forall j :: i <= j < |s| ==> s[j] == t[j]
    ensures Formula(s, i) == Formula(t, i)
    decreases |s| - i
  {
    if i < |s| { FormulaSuffix(s, t, i + 1); }
  }

  /** Two strings that differ only inside `[k, k + width)` differ in the sum only by that window. */
  lemma FormulaWindow(s: Digits, t: Digits, i: nat, k: nat)
    requires |s| == |t| && i <= k <= |s|
    requires forall j :: 0 <= j < k ==> s[j] == t[j]
    ensures Formula(s, i) - Formula(t, i) == Formula(s, k) - Formula(t, k)
    decreases k - i
  {
    if i < k { FormulaWindow(s, t, i + 1, k); }
  }

  lemma DoubledContribution(d: nat)
    requires d < 10
    ensures Contribution(d, true) == if d < 5 then 2 * d else 2 * d - 9
  {
  }

  /** A digit's contribution, doubled or not, determines the digit. */
  lemma ContributionInjective(a: nat, b: nat, doubled: bool)
    requires a < 10 && b < 10 && a != b
    ensures Contribution(a, doubled) < 10 && Contribution(b, doubled) < 10
    ensures Contribution(a, doubled) != Contribution(b, doubled)
  {
    DoubledContribution(a);
    DoubledContribution(b);
  }

  /** How much the sum loses when `a` moves to a doubled place and `b` to a plain one. */
  function SwapGap(a: nat, b: nat): int
    requires a < 10 && b < 10
  {
    a + Contribution(b, true) - b - Contribution(a, true)
  }

  /** The exchange leaves the sum alone exactly for the pair 0 and 9, and never moves it by a full ten. */
  lemma SwapContribution(a: nat, b: nat)
    requires a < 10 && b < 10 && a != b
    ensures -10 < SwapGap(a, b) < 10
    ensures SwapGap(a, b) == 0 <==> {a, b} == {0, 9}
  {
    DoubledContribution(a);
    DoubledContribution(b);
    assert {a, b} == {0, 9} <==> (a == 0 && b == 9) || (a == 9 && b == 0) by {
      if {a, b} == {0, 9} { assert 0 in {a, b} && 9 in {a, b}; }
    }
  }

  /** A shift by less than ten preserves divisibility by ten only when it is no shift. */
  lemma SmallShift(x: int, y: int)
    requires x % 10 == 0 && -10 < x - y < 10
    ensures y % 10 == 0 <==> x == y
  {
  }

  /** Changing one digit of a valid number always makes it invalid. */
  lemma SingleDigitError(s: Digits, k: nat, c: char)
    requires Valid(s) && k < |s| && IsDigit(c) && c != s[k]
    ensures !Valid(s[k := c])
  {
    var t: Digits := s[k := c];
    FormulaWindow(s, t, 0, k);
    FormulaSuffix(s, t, k + 1);
    ContributionInjective(DigitValue(s[k]), DigitValue(c), Doubled(|s|, k));
    var d := Contribution(DigitValue(s[k]), Doubled(|s|, k)) - Contribution(DigitValue(c), Doubled(|s|, k));
    assert Formula(s, 0) - Formula(t, 0) == d by {
      assert Formula(s, k) == Contribution(DigitValue(s[k]), Doubled(|s|, k)) + Formula(s, k + 1);
      assert Formula(t, k) == Contribution(DigitValue(c), Doubled(|t|, k)) + Formula(t, k + 1);
    }
    SmallShift(Formula(s, 0), Formula(t, 0));
  }

  function Swapped(s: Digits, k: nat): Digits
    requires k + 1 < |s|
  {
    s[k := s[k + 1]][k + 1 := s[k]]
  }

  lemma SwapDifference(s: Digits, k: nat)
    requires k + 1 < |s|
    ensures var a, b := DigitValue(s[k]), DigitValue(s[k + 1]);
      Formula(s, 0) - Formula(Swapped(s, k), 0) == if Doubled(|s|, k) then SwapGap(b, a) else SwapGap(a, b)
  {
    var t := Swapped(s, k);
    FormulaWindow(s, t, 0, k);
    FormulaSuffix(s, t, k + 2);
    var p := Doubled(|s|, k);
    var a, b := DigitValue(s[k]), DigitValue(s[k + 1]);
    var tail := Formula(s, k + 2);
    assert Formula(s, k + 1) == Contribution(b, !p) + tail && Formula(t, k + 1) == Contribution(a, !p) + tail;
    assert Formula(s, k) == Contribution(a, p) + Formula(s, k + 1);
    assert Formula(t, k) == Contribution(b, p) + Formula(t, k + 1);
  }

  /** Swapping two different neighbours of a valid number goes unnoticed exactly for the pair 0 and 9. */
  lemma AdjacentSwap(s: Digits, k: nat)
    requires Valid(s) && k + 1 < |s| && s[k] != s[k + 1]
    ensures Valid(Swapped(s, k)) <==> {DigitValue(s[k]), DigitValue(s[k + 1])} == {0, 9}
  {
    var a, b := DigitValue(s[k]), DigitValue(s[k + 1]);
    SwapDifference(s, k);
    SwapContribution(a, b);
    SwapContribution(b, a);
    assert {a, b} == {b, a};
    SmallShift(Formula(s, 0), Formula(Swapped(s, k), 0));
  }

  // ---------------------------------------------------------------------------------------------
  // The same sum, digit by digit from the left
  // ---------------------------------------------------------------------------------------------

  /** A digit with an odd number of digits after it counts twice, less nine if that is more than nine. */
  function Sum(s: Digits): nat {
    if s == "" then 0
    else
      var d := DigitValue(s[0]);
      (if |s| % 2 == 1 then d else if 2 * d > 9 then 2 * d - 9 else 2 * d) + Sum(s[1..])
  }

  lemma {:induction false} DoubledIff(n: nat, i: nat)
    requires i < n
    ensures Doubled(n, i) <==> (n - i) % 2 == 0
    decreases n - i
  {
    if i + 1 < n { DoubledIff(n, i + 1); }
  }

  lemma {:induction false} FormulaIsSum(s: Digits, i: nat)
    requires i <= |s|
    ensures Formula(s, i) == Sum(s[i..])
    decreases |s| - i
  {
    if i < |s| {
      DoubledIff(|s|, i);
      DoubledContribution(DigitValue(s[i]));
      FormulaIsSum(s, i + 1);
      assert s[i..][1..] == s[i + 1..];
    }
  }

  /** A number is valid exactly if that sum is a multiple of ten; so zeros in front change nothing. */
  lemma ValidIff(s: Digits)
    ensures Valid(s) <==> Sum(s) % 10 == 0
    ensures Valid("0" + s) <==> Valid(s)
  {
    FormulaIsSum(s, 0);
    assert s[0..] == s && ("0" + s)[0..] == "0" + s && ("0" + s)[1..] == s;
    FormulaIsSum("0" + s, 0);
  }

  lemma DigitHasValue(n: nat)
    requires n < 10
    ensures IsDigit(Digit(n)) && DigitValue(Digit(n)) == n
  {
  }

  /** The last digit is added as it is. */
  lemma LastDigitAdds(s: Digits, c: char)
    requires IsDigit(c)
    ensures Formula(s + [c], 0) == Formula(s + ['0'], 0) + DigitValue(c)
  {
    var t: Digits, zero: Digits := s + [c], s + ['0'];
    FormulaWindow(t, zero, 0, |s|);
  }

  /** Every number can be completed by exactly one check digit. */
  lemma CheckDigit(s: Digits) returns (c: char)
    ensures IsDigit(c) && Valid(s + [c]) && forall d :: IsDigit(d) && d != c ==> !Valid(s + [d])
  {
    var n := (10 - Formula(s + ['0'], 0) % 10) % 10;
    DigitHasValue(n);
    c := Digit(n);
    LastDigitAdds(s, c);
    forall d | IsDigit(d) && d != c ensures !Valid(s + [d]) {
      SingleDigitError(s + [c], |s|, d);
      assert (s + [c])[|s| := d] == s + [d];
    }
  }
}
