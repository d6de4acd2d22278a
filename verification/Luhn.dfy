/** The card-number check of app/memory/privacy.py.

    The source walks the digits from left to right and doubles those whose index has the parity
    of the length.  Annex B of ISO/IEC 7812-1 walks from the check digit leftwards and doubles
    every second digit.  `LuhnValid` is the source's loop; `AnnexBSum` is the standard's walk. */
module Luhn {

  type Digit = d: int | 0 <= d < 10 witness 0

  /** What one digit adds to the total: itself, or the digit sum of its double. */
  function Contribution(d: Digit, doubled: bool): nat {
    if !doubled then d else if 2 * d > 9 then 2 * d - 9 else 2 * d
  }

  /** The digit sum of a number below 20, as a doubled digit is. */
  lemma ContributionIsDigitSum(d: Digit, doubled: bool)
    ensures var n := if doubled then 2 * d else d;
            Contribution(d, doubled) == n / 10 + n % 10
  {
  }

  /** The standard's right-to-left walk; `doubled` says what happens to the rightmost digit. */
  ghost function AnnexBSum(digits: seq<Digit>, doubled: bool): nat {
    if digits == [] then 0
    else
      var last := |digits| - 1;
      Contribution(digits[last], doubled) + AnnexBSum(digits[..last], !doubled)
  }

  ghost predicate AnnexBValid(digits: seq<Digit>) {
    AnnexBSum(digits, false) % 10 == 0
  }

  method LuhnValid(digits: seq<Digit>) returns (valid: bool)
    ensures valid <==> AnnexBValid(digits)
  {
    var total := 0;
    var parity := |digits| % 2;
    for index := 0 to |digits|
      invariant total == AnnexBSum(digits[..index], (|digits| - index) % 2 == 1)
    {
      var value: int := digits[index];
      if index % 2 == parity {
        value := value * 2;
        if value > 9 {
          value := value - 9;
        }
      }
      total := total + value;
      assert digits[..index + 1][..index] == digits[..index];
    }
    assert digits[..|digits|] == digits;
    return total % 10 == 0;
  }

  /** Is the digit at `index` doubled when the rightmost digit of `n` digits is treated by `doubled`? */
  ghost predicate DoubledAt(n: nat, index: nat, doubled: bool)
    requires index < n
  {
    ((n - 1 - index) % 2 == 1) != doubled
  }

  lemma {:induction false} SumAfterUpdate(digits: seq<Digit>, index: nat, d: Digit, doubled: bool)
    requires index < |digits|
    ensures AnnexBSum(digits[index := d], doubled) - Contribution(d, DoubledAt(|digits|, index, doubled))
         == AnnexBSum(digits, doubled) - Contribution(digits[index], DoubledAt(|digits|, index, doubled))
  {
    var last := |digits| - 1;
    if index == last {
      assert digits[index := d][..last] == digits[..last];
    } else {
      assert digits[index := d][..last] == digits[..last][index := d];
      SumAfterUpdate(digits[..last], index, d, !doubled);
    }
  }

  /** `check` is the one digit that completes `prefix` to a valid number. */
  ghost predicate CompletedOnlyBy(prefix: seq<Digit>, check: Digit) {
    forall d: Digit :: AnnexBValid(prefix + [d]) <==> d == check
  }

  lemma SumOfCompleted(prefix: seq<Digit>, d: Digit)
    ensures AnnexBSum(prefix + [d], false) == d + AnnexBSum(prefix, true)
  {
    assert (prefix + [d])[..|prefix|] == prefix;
  }

  lemma UniqueCheck(rest: nat, check: Digit, d: Digit)
    requires check == (10 - rest % 10) % 10
    ensures (d + rest) % 10 == 0 <==> d == check
  {
  }

  /** Every prefix is completed to a valid number by exactly one check digit. */
  lemma ExactlyOneCheckDigit(prefix: seq<Digit>)
    ensures exists check: Digit :: CompletedOnlyBy(prefix, check)
  {
    var rest := AnnexBSum(prefix, true);
    var check: Digit := (10 - rest % 10) % 10;
    forall d: Digit
      ensures AnnexBValid(prefix + [d]) <==> d == check
    {
      SumOfCompleted(prefix, d);
      UniqueCheck(rest, check, d);
    }
    assert CompletedOnlyBy(prefix, check);
  }

  lemma MultipleOfTenAfter(sum: nat, change: int, sum': nat)
    requires sum % 10 == 0 && sum' == sum + change
    ensures sum' % 10 == 0 <==> change % 10 == 0
  {
  }

  /** Changing any single digit of a valid number makes it invalid. */
  lemma SingleErrorDetected(digits: seq<Digit>, index: nat, d: Digit)
    requires index < |digits| && AnnexBValid(digits) && d != digits[index]
    ensures !AnnexBValid(digits[index := d])
  {
    SumAfterUpdate(digits, index, d, false);
    var doubled := DoubledAt(|digits|, index, false);
    var change := Contribution(d, doubled) - Contribution(digits[index], doubled);
    MultipleOfTenAfter(AnnexBSum(digits, false), change, AnnexBSum(digits[index := d], false));
    assert change != 0 && -10 < change < 10;
  }

  /** Swapping two unequal neighbours of a valid number keeps it valid exactly for 0 and 9. */
  lemma TranspositionDetected(digits: seq<Digit>, index: nat)
    requires index + 1 < |digits| && AnnexBValid(digits) && digits[index] != digits[index + 1]
    ensures AnnexBValid(digits[index := digits[index + 1]][index + 1 := digits[index]])
       <==> (digits[index] == 0 && digits[index + 1] == 9) || (digits[index] == 9 && digits[index + 1] == 0)
  {
    var a, b := digits[index], digits[index + 1];
    var half := digits[index := b];
    SumAfterUpdate(digits, index, b, false);
    SumAfterUpdate(half, index + 1, a, false);
    var change := Contribution(b, true) + a - Contribution(a, true) - b;
    if DoubledAt(|digits|, index, false) {
      MultipleOfTenAfter(AnnexBSum(digits, false), change, AnnexBSum(half[index + 1 := a], false));
    } else {
      MultipleOfTenAfter(AnnexBSum(digits, false), -change, AnnexBSum(half[index + 1 := a], false));
    }
    assert -10 < change < 10;
  }
}
