/**
 The Luhn check of the credit-card detector (src/sdi/detectors/CreditCardDetector.ts),
 the check-digit scheme of ISO/IEC 7812-1, Annex B.
 */
module Luhn {

  predicate IsDigit(c: char) {
    '0' <= c <= '9'
  }

  predicate AllDigits(s: string) {
    forall i :: 0 <= i < |s| ==> IsDigit(s[i])
  }

  /** What `parseInt(c, 10)` gives for a digit; `parseInt` of another character is NaN. */
  function Value(c: char): (n: nat)
    requires IsDigit(c)
    ensures n <= 9
  {
    c as int - '0' as int
  }

  /** A digit's share of the sum: doubled digits above nine lose nine. */
  function Share(n: nat, doubled: bool): nat
    requires n <= 9
  {
    if !doubled then n else if 2 * n > 9 then 2 * n - 9 else 2 * n
  }

  /** The sum defined from the last digit leftwards; `doubled` says whether the last digit is doubled. */
  function Sum(s: string, doubled: bool): nat
    requires AllDigits(s)
  {
    if |s| == 0 then 0
    else Share(Value(s[|s| - 1]), doubled) + Sum(s[..|s| - 1], !doubled)
  }

  /** A string is accepted when it consists of digits and its sum is a multiple of ten. */
  predicate Accepts(s: string) {
    AllDigits(s) && Sum(s, false) % 10 == 0
  }

  /** The right-to-left loop. `nan` records that `sum` has become NaN, which no later addition undoes. */
  method Luhn(digits: string) returns (ok: bool)
    ensures ok == Accepts(digits)
  {
    var sum := 0;
    var nan := false;
    var alternate := false;
    var i := |digits| - 1;
    assert digits[..i + 1] == digits;
    while i >= 0
      invariant -1 <= i < |digits|
      invariant nan <==> !AllDigits(digits[i + 1..])
      invariant AllDigits(digits) ==> Sum(digits, false) == sum + Sum(digits[..i + 1], alternate)
    {
      ghost var seen := digits[i + 1..];
      assert digits[i..] == [digits[i]] + seen;
      assert digits[..i + 1][..i] == digits[..i];
      if IsDigit(digits[i]) {
        var n := Value(digits[i]);
        if alternate {
          n := n * 2;
          if n > 9 {
            n := n - 9;
          }
        }
        sum := sum + n;
      } else {
        nan := true;
      }
      alternate := !alternate;
      i := i - 1;
    }
    assert digits[0..] == digits;
    ok := !nan && sum % 10 == 0;
  }

  /** What the digit at place `i` adds: every second digit, beginning next to the last, is doubled. */
  function Contribution(s: string, i: nat, shift: nat): nat
    requires AllDigits(s) && i < |s|
  {
    var n := s[i] as int - '0' as int;
    if (|s| - 1 - i + shift) % 2 == 0 then n else if n <= 4 then 2 * n else 2 * n - 9
  }

  function Total(s: string, n: nat, shift: nat): nat
    requires AllDigits(s) && n <= |s|
  {
    if n == 0 then 0 else Total(s, n - 1, shift) + Contribution(s, n - 1, shift)
  }

  lemma {:induction false} TotalOfPrefix(s: string, n: nat, shift: nat)
    requires AllDigits(s) && 1 <= |s| && n <= |s| - 1
    ensures Total(s[..|s| - 1], n, shift + 1) == Total(s, n, shift)
  {
    if n > 0 {
      TotalOfPrefix(s, n - 1, shift);
      assert s[..|s| - 1][n - 1] == s[n - 1];
    }
  }

  lemma {:induction false} TwoMore(s: string, n: nat, shift: nat)
    requires AllDigits(s) && n <= |s|
    ensures Total(s, n, shift + 2) == Total(s, n, shift)
  {
    if n > 0 {
      TwoMore(s, n - 1, shift);
      assert (|s| - n + shift + 2) % 2 == (|s| - n + shift) % 2;
    }
  }

  lemma {:induction false} SumByPlaces(s: string, doubled: bool)
    requires AllDigits(s)
    ensures Sum(s, doubled) == Total(s, |s|, if doubled then 1 else 0)
  {
    if s != "" {
      var n := |s| - 1;
      SumByPlaces(s[..n], !doubled);
      if doubled {
        TwoMore(s[..n], n, 0);
        TotalOfPrefix(s, n, 1);
      } else {
        TotalOfPrefix(s, n, 0);
      }
    }
  }

  /** A string is accepted exactly if it consists of digits and what its places add is a multiple of ten. */
  lemma AcceptedByPlaces(s: string)
    ensures Accepts(s) <==> AllDigits(s) && Total(s, |s|, 0) % 10 == 0
  {
    if AllDigits(s) {
      SumByPlaces(s, false);
    }
  }

  /** The flag after `n` alternations. */
  function Flip(doubled: bool, n: nat): bool
    decreases n
  {
    if n == 0 then doubled else Flip(!doubled, n - 1)
  }

  lemma {:induction false} FlipOnceMore(doubled: bool, n: nat)
    ensures Flip(doubled, n + 1) == !Flip(doubled, n)
    decreases n
  {
    if n > 0 {
      FlipOnceMore(!doubled, n - 1);
    }
  }

  /** Whether the digit at position `i` is doubled when the last digit's flag is `doubled`. */
  function DoubledAt(s: string, i: nat, doubled: bool): bool
    requires i < |s|
  {
    Flip(doubled, |s| - 1 - i)
  }

  /** Replacing one digit changes the sum by the difference of the two shares and by nothing else. */
  lemma {:induction false} ReplaceDigit(s: string, i: nat, c: char, doubled: bool)
    requires AllDigits(s) && i < |s| && IsDigit(c)
    ensures AllDigits(s[i := c])
    ensures Sum(s[i := c], doubled) ==
            Sum(s, doubled) - Share(Value(s[i]), DoubledAt(s, i, doubled)) + Share(Value(c), DoubledAt(s, i, doubled))
  {
    var t := s[i := c];
    var n := |s| - 1;
    if i == n {
      assert t[..n] == s[..n];
    } else {
      assert t[..n] == s[..n][i := c];
      ReplaceDigit(s[..n], i, c, !doubled);
    }
  }

  /** A single wrong digit never passes: changing one digit of an accepted string gives a rejected one. */
  lemma SingleDigitErrorIsDetected(s: string, i: nat, c: char)
    requires Accepts(s) && i < |s| && c != s[i]
    ensures !Accepts(s[i := c])
  {
    if IsDigit(c) {
      ReplaceDigit(s, i, c, false);
      var d := DoubledAt(s, i, false);
      assert Share(Value(c), d) != Share(Value(s[i]), d);
    } else {
      assert s[i := c][i] == c;
    }
  }

  /** `s` with the digits at positions `i` and `i + 1` exchanged. */
  function SwapAt(s: string, i: nat): string
    requires i + 1 < |s|
  {
    s[i := s[i + 1]][i + 1 := s[i]]
  }

  /** What the sum gains when neighbours `x` and `y` swap places, `doubled` being the flag of the first place. */
  function SwapGain(x: nat, y: nat, doubled: bool): int
    requires x <= 9 && y <= 9
  {
    Share(y, doubled) - Share(x, doubled) + Share(x, !doubled) - Share(y, !doubled)
  }

  lemma SwapChangesSum(s: string, i: nat)
    requires AllDigits(s) && i + 1 < |s|
    ensures AllDigits(SwapAt(s, i))
    ensures Sum(SwapAt(s, i), false) == Sum(s, false) + SwapGain(Value(s[i]), Value(s[i + 1]), DoubledAt(s, i, false))
  {
    var half := s[i := s[i + 1]];
    ReplaceDigit(s, i, s[i + 1], false);
    SecondHalfOfSwap(s, half, i);
  }

  lemma SecondHalfOfSwap(s: string, half: string, i: nat)
    requires AllDigits(s) && AllDigits(half) && i + 1 < |s| && half == s[i := s[i + 1]]
    ensures AllDigits(SwapAt(s, i))
    ensures var f := DoubledAt(s, i, false);
            Sum(SwapAt(s, i), false) == Sum(half, false) - Share(Value(s[i + 1]), !f) + Share(Value(s[i]), !f)
  {
    ReplaceDigit(half, i + 1, s[i], false);
    FlipOnceMore(false, |s| - 2 - i);
  }

  /** Swapping two different neighbours of an accepted string is caught, except for exactly the pair 0 and 9. */
  lemma AdjacentSwapIsDetected(s: string, i: nat)
    requires Accepts(s) && i + 1 < |s| && s[i] != s[i + 1]
    ensures Accepts(SwapAt(s, i)) <==> (s[i] == '0' && s[i + 1] == '9') || (s[i] == '9' && s[i + 1] == '0')
  {
    var gain := SwapGain(Value(s[i]), Value(s[i + 1]), DoubledAt(s, i, false));
    SwapChangesSum(s, i);
    SwapGainIsSmall(Value(s[i]), Value(s[i + 1]), DoubledAt(s, i, false));
    MultipleOfTenPlus(Sum(s, false), gain);
  }

  lemma MultipleOfTenPlus(m: int, d: int)
    requires m % 10 == 0 && -10 < d < 10
    ensures (m + d) % 10 == 0 <==> d == 0
  {
  }

  /** A swap gains less than ten either way, and nothing only for equal digits or for 0 and 9. */
  lemma SwapGainIsSmall(x: nat, y: nat, doubled: bool)
    requires x <= 9 && y <= 9 && x != y
    ensures -10 < SwapGain(x, y, doubled) < 10
    ensures SwapGain(x, y, doubled) == 0 <==> (x == 0 && y == 9) || (x == 9 && y == 0)
  {
  }

  /** The digit that completes a string of digits. */
  function CheckDigit(prefix: string): char
    requires AllDigits(prefix)
  {
    ('0' as int + (10 - Sum(prefix, true) % 10) % 10) as char
  }

  /** Each string of digits has exactly one accepted extension by one character. */
  lemma CheckDigitIsUnique(prefix: string, c: char)
    requires AllDigits(prefix)
    ensures Accepts(prefix + [c]) <==> c == CheckDigit(prefix)
  {
    var s := prefix + [c];
    assert s[|prefix|] == c && s[..|prefix|] == prefix;
    if IsDigit(c) {
      assert AllDigits(s);
      assert Sum(s, false) == Value(c) + Sum(prefix, true);
      assert Accepts(s) <==> (Value(c) + Sum(prefix, true)) % 10 == 0;
    }
  }
}
