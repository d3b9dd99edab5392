/** Sums and inclusive running sums of integer sequences: the reference
    definitions behind the row-offset computation of the sparse match graph. */
module PrefixSums {

  /** The sum of all elements of `s`, peeled from the back. */
  function Sum(s: seq<int>): int
  {
    if s == [] then 0 else Sum(s[..|s| - 1]) + s[|s| - 1]
  }

  /** Inclusive running sums: element `i` is the sum of `s[0]` up to and including `s[i]`. */
  function RunningSums(s: seq<int>): (r: seq<int>)
    ensures |r| == |s|
  {
    seq(|s|, i requires 0 <= i < |s| => Sum(s[..i + 1]))
  }

  ghost predicate NonNegative(s: seq<int>)
  {
    forall i :: 0 <= i < |s| ==> s[i] >= 0
  }

  /** Each running sum is the previous one plus the current element. */
  lemma RunningSumsStep(s: seq<int>, i: nat)
    requires i < |s|
    ensures RunningSums(s)[i] == (if i == 0 then 0 else RunningSums(s)[i - 1]) + s[i]
  {
    assert s[..i + 1][..i] == s[..i];
    assert RunningSums(s)[i] == Sum(s[..i + 1]) == Sum(s[..i]) + s[i];
    if i == 0 {
      assert s[..0] == [];
    } else {
      assert RunningSums(s)[i - 1] == Sum(s[..i]);
    }
  }

  /** With non-negative elements, a longer prefix never has a smaller sum. */
  lemma {:induction false} SumPrefixMonotone(s: seq<int>, i: nat, j: nat)
    requires NonNegative(s)
    requires i <= j <= |s|
    ensures Sum(s[..i]) <= Sum(s[..j])
  {
    if i < j {
      SumPrefixMonotone(s, i, j - 1);
      assert s[..j][..j - 1] == s[..j - 1];
    }
  }

  /** Running sums of non-negative numbers are non-decreasing. */
  lemma RunningSumsNonDecreasing(s: seq<int>)
    requires NonNegative(s)
    ensures forall i, j :: 0 <= i <= j < |s| ==> RunningSums(s)[i] <= RunningSums(s)[j]
  {
    forall i, j | 0 <= i <= j < |s|
      ensures RunningSums(s)[i] <= RunningSums(s)[j]
    {
      SumPrefixMonotone(s, i + 1, j + 1);
    }
  }

  /** The last running sum is the total. */
  lemma RunningSumsLast(s: seq<int>)
    requires |s| > 0
    ensures RunningSums(s)[|s| - 1] == Sum(s)
  {
    assert s[..|s|] == s;
  }

  /** Row offsets built as `[0] + RunningSums(s)`: entry `r` is the sum of the first `r` elements. */
  lemma OffsetIsPrefixSum(s: seq<int>, r: nat)
    requires r <= |s|
    ensures ([0] + RunningSums(s))[r] == Sum(s[..r])
  {
    if r == 0 {
      assert s[..0] == [];
    }
  }
}
