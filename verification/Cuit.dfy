/** The Argentine tax id and its check digit. */
module Cuit {

  const CHECK_DIGIT_MULTIPLIERS := [5, 4, 3, 2, 7, 6, 5, 4, 3, 2]

  predicate IsDigit(c: char) { '0' <= c <= '9' }

  function Digits(value: string): seq<int> {
    if value == "" then []
    else if IsDigit(value[0]) then [value[0] as int - '0' as int] + Digits(value[1..])
    else Digits(value[1..])
  }

  /** A candidate number: eleven digits. */
  predicate IsNumber(nums: seq<int>) { |nums| == 11 && forall i :: 0 <= i < 11 ==> 0 <= nums[i] <= 9 }

  /** The weighted sum of the first `n` of ten digits. */
  function WeightedSum(nums: seq<int>, n: nat): int
    requires n <= 10 && n <= |nums|
  {
    if n == 0 then 0 else WeightedSum(nums, n - 1) + CHECK_DIGIT_MULTIPLIERS[n - 1] * nums[n - 1]
  }

  function IsValid(nums: seq<int>): bool {
    |nums| == 11 &&
      var remainder := WeightedSum(nums, 10) % 11;
      var checkDigit := if remainder == 0 then 0 else 11 - remainder;
      checkDigit != 10 && checkDigit == nums[10]
  }

  method IsValidCuit(value: string) returns (valid: bool)
    ensures valid == IsValid(Digits(value))
  {
    var nums := Digits(value);
    if |nums| != 11 { return false; }
    var sum := 0;
    for i := 0 to 10
      invariant sum == WeightedSum(nums, i)
    {
      sum := sum + CHECK_DIGIT_MULTIPLIERS[i] * nums[i];
    }
    var remainder := sum % 11;
    var checkDigit := if remainder == 0 then 0 else 11 - remainder;
    if checkDigit == 10 { return false; }
    return checkDigit == nums[10];
  }

  // ----- one sum over all eleven --------------------------------------------

  /** The check digit counts with weight one. */
  function Weight(i: nat): int
    requires i < 11
  {
    if i == 10 then 1 else CHECK_DIGIT_MULTIPLIERS[i]
  }

  function FullSum(nums: seq<int>): int
    requires |nums| == 11
  {
    WeightedSum(nums, 10) + nums[10]
  }

  lemma {:induction false} DigitsAreDigits(value: string)
    ensures forall i :: 0 <= i < |Digits(value)| ==> 0 <= Digits(value)[i] <= 9
  {
    if value != "" { DigitsAreDigits(value[1..]); }
  }

  /** A number is valid exactly when the sum of all its weighted digits is a
      multiple of eleven. */
  lemma ValidIffMultipleOfEleven(nums: seq<int>)
    requires IsNumber(nums)
    ensures IsValid(nums) <==> FullSum(nums) % 11 == 0
  {
  }

  lemma {:induction false} SumAfterChange(nums: seq<int>, i: nat, d: int, n: nat)
    requires n <= 10 && |nums| == 11 && i < 11
    ensures WeightedSum(nums[i := d], n) == WeightedSum(nums, n) + if i < n
      then Weight(i) * d - Weight(i) * nums[i] else 0
  {
    if n > 0 { SumAfterChange(nums, i, d, n - 1); }
  }

  lemma FullSumAfterChange(nums: seq<int>, i: nat, d: int)
    requires |nums| == 11 && i < 11
    ensures FullSum(nums[i := d]) == FullSum(nums) + Weight(i) * d - Weight(i) * nums[i]
  {
    SumAfterChange(nums, i, d, 10);
  }

  /** Eleven is prime: a product of two numbers between -10 and 10 that are not
      zero is not a multiple of it. */
  lemma NoZeroDivisors(w: int, d: int)
    requires -10 <= w <= 10 && -10 <= d <= 10 && w != 0 && d != 0
    ensures (w * d) % 11 != 0
  {
    forall k | -10 <= k <= 10 && k != 0 ensures (k * d) % 11 != 0 { MultipleOfDigit(k, d); }
  }

  lemma MultipleOfDigit(k: int, d: int)
    requires -10 <= k <= 10 && k != 0 && -10 <= d <= 10 && d != 0
    ensures (k * d) % 11 != 0
  {
    if k == 1 { } else if k == 2 { } else if k == 3 { } else if k == 4 { } else if k == 5 { }
    else if k == 6 { } else if k == 7 { } else if k == 8 { } else if k == 9 { } else if k == 10 { }
    else if k == -1 { } else if k == -2 { } else if k == -3 { } else if k == -4 { } else if k == -5 { }
    else if k == -6 { } else if k == -7 { } else if k == -8 { } else if k == -9 { } else { }
  }

  // ----- main results -------------------------------------------------------

  lemma WeightsAreSmall(i: nat)
    requires i < 11
    ensures 1 <= Weight(i) <= 7
  {
  }

  lemma NonMultipleStays(sum: int, change: int)
    requires sum % 11 == 0 && change % 11 != 0
    ensures (sum + change) % 11 != 0
  {
  }

  lemma NotAMultiple(sum: int, w: int, d: int)
    requires sum % 11 == 0 && -10 <= w <= 10 && -10 <= d <= 10 && w != 0 && d != 0
    ensures (sum + w * d) % 11 != 0
  {
    NoZeroDivisors(w, d);
    NonMultipleStays(sum, w * d);
  }

  lemma Distribute(w: int, d: int, e: int)
    ensures w * d - w * e == w * (d - e)
  {
  }

  /** Every change of one digit of a valid number is rejected. */
  lemma SingleDigitChangeIsRejected(nums: seq<int>, i: nat, d: int)
    requires IsNumber(nums) && IsValid(nums) && i < 11 && 0 <= d <= 9 && d != nums[i]
    ensures !IsValid(nums[i := d])
  {
    FullSumAfterChange(nums, i, d);
    ValidIffMultipleOfEleven(nums);
    ValidIffMultipleOfEleven(nums[i := d]);
    Distribute(Weight(i), d, nums[i]);
    WeightsAreSmall(i);
    NotAMultiple(FullSum(nums), Weight(i), d - nums[i]);
  }

  /** Each ten-digit prefix has at most one check digit. */
  lemma CheckDigitIsUnique(nums: seq<int>, c: int, d: int)
    requires IsNumber(nums) && 0 <= c <= 9 && 0 <= d <= 9 && IsValid(nums[10 := c]) && IsValid(nums[10 := d])
    ensures c == d
  {
    assert nums[10 := c][10 := d] == nums[10 := d];
    if c != d { SingleDigitChangeIsRejected(nums[10 := c], 10, d); }
  }

  function Swapped(nums: seq<int>, i: nat, j: nat): seq<int>
    requires i < |nums| && j < |nums|
  {
    nums[i := nums[j]][j := nums[i]]
  }

  /** A swap of two digits of a valid number is rejected exactly when the
      digits differ and their weights differ. */
  lemma SwapIsRejectedIff(nums: seq<int>, i: nat, j: nat)
    requires IsNumber(nums) && IsValid(nums) && i < j < 11
    ensures !IsValid(Swapped(nums, i, j)) <==> nums[i] != nums[j] && Weight(i) != Weight(j)
  {
    var half, swapped := nums[i := nums[j]], Swapped(nums, i, j);
    var w, d := Weight(i) - Weight(j), nums[j] - nums[i];
    FullSumAfterChange(nums, i, nums[j]);
    FullSumAfterChange(half, j, nums[i]);
    ValidIffMultipleOfEleven(nums);
    ValidIffMultipleOfEleven(swapped);
    SwapMovesSum(Weight(i), Weight(j), nums[i], nums[j]);
    assert FullSum(swapped) == FullSum(nums) + w * d;
    WeightsAreSmall(i);
    WeightsAreSmall(j);
    if w == 0 || d == 0 { assert w * d == 0; } else { NotAMultiple(FullSum(nums), w, d); }
  }

  lemma SwapMovesSum(wi: int, wj: int, a: int, b: int)
    ensures (wi * b - wi * a) + (wj * a - wj * b) == (wi - wj) * (b - a)
  {
  }

  /** Hence every swap of unequal neighbours is rejected. */
  lemma AdjacentSwapIsRejected(nums: seq<int>, i: nat)
    requires IsNumber(nums) && IsValid(nums) && i < 10 && nums[i] != nums[i + 1]
    ensures !IsValid(Swapped(nums, i, i + 1))
  {
    SwapIsRejectedIff(nums, i, i + 1);
  }

  lemma {:induction false} SumOfTen(nums: seq<int>)
    requires |nums| >= 10
    ensures WeightedSum(nums, 10) == 5 * nums[0] + 4 * nums[1] + 3 * nums[2] + 2 * nums[3] + 7 * nums[4]
      + 6 * nums[5] + 5 * nums[6] + 4 * nums[7] + 3 * nums[8] + 2 * nums[9]
  {
    assert WeightedSum(nums, 1) == WeightedSum(nums, 0) + 5 * nums[0];
    assert WeightedSum(nums, 2) == WeightedSum(nums, 1) + 4 * nums[1];
    assert WeightedSum(nums, 4) == WeightedSum(nums, 2) + 3 * nums[2] + 2 * nums[3];
    assert WeightedSum(nums, 6) == WeightedSum(nums, 4) + 7 * nums[4] + 6 * nums[5];
    assert WeightedSum(nums, 8) == WeightedSum(nums, 6) + 5 * nums[6] + 4 * nums[7];
  }

  /** The rule, digit by digit: weights 5 4 3 2 7 6 5 4 3 2 and one for the last. */
  lemma RuleSpelledOut(nums: seq<int>)
    requires IsNumber(nums)
    ensures IsValid(nums) <==>
      (5 * nums[0] + 4 * nums[1] + 3 * nums[2] + 2 * nums[3] + 7 * nums[4] + 6 * nums[5] + 5 * nums[6]
        + 4 * nums[7] + 3 * nums[8] + 2 * nums[9] + nums[10]) % 11 == 0
  {
    SumOfTen(nums);
    ValidIffMultipleOfEleven(nums);
  }

  /** Not every transposition is: positions 0 and 6 carry the same weight. */
  lemma SomeSwapsPass()
    ensures var nums := [2, 0, 1, 2, 3, 4, 5, 6, 7, 8, 6];
      IsNumber(nums) && IsValid(nums) && nums[0] != nums[6] && IsValid(Swapped(nums, 0, 6))
  {
    var nums := [2, 0, 1, 2, 3, 4, 5, 6, 7, 8, 6];
    SumOfTen(nums);
    SwapIsRejectedIff(nums, 0, 6);
  }

  lemma {:induction false} DigitsOfParts(a: string, b: string)
    ensures Digits(a + b) == Digits(a) + Digits(b)
  {
    if a == "" {
      assert a + b == b;
    } else {
      assert (a + b)[1..] == a[1..] + b;
      DigitsOfParts(a[1..], b);
    }
  }

  /** A text of digits is read digit by digit. */
  lemma {:induction false} DigitsAreRead(value: string, i: nat)
    requires i < |value| && forall k :: 0 <= k < |value| ==> value[k] in "0123456789"
    ensures |Digits(value)| == |value| && 0 <= Digits(value)[i] <= 9
    ensures "0123456789"[Digits(value)[i]] == value[i]
  {
    if |value| > 1 { DigitsAreRead(value[1..], if i == 0 then 0 else i - 1); }
    else { assert value[1..] == ""; }
  }

  /** Dashes and other signs may stand anywhere. */
  lemma {:induction false} SeparatorsDoNotMatter(a: string, separators: string, b: string)
    requires forall i :: 0 <= i < |separators| ==> !IsDigit(separators[i])
    ensures Digits(a + separators + b) == Digits(a + b)
  {
    if separators == "" {
      assert a + separators + b == a + b;
    } else {
      SeparatorsDoNotMatter(a, separators[1..], b);
      DigitsOfParts(a + separators, b);
      DigitsOfParts(a, separators);
      DigitsOfParts(a + separators[1..], b);
      DigitsOfParts(a, separators[1..]);
    }
  }
}
