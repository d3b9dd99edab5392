/** The tri-state label of a pair of items, the error the match graph reports
    for a bad index, and how a label evolves when one pair result or a batch
    of pair results is applied. */
module Labels {

  /** What is known about a pair of items. */
  datatype Label = Unknown | Similar | Dissimilar

  datatype Error = InvalidIndex

  datatype Result<T> = Ok(value: T) | Failure(error: Error)

  datatype Outcome = Pass | Fail(error: Error)

  /** Two distinct items of a graph over `dim` items. */
  predicate ValidPair(i: int, j: int, dim: int)
  {
    0 <= i < dim && 0 <= j < dim && i != j
  }

  /** `(x, y)` and `(a, b)` name the same unordered pair. */
  predicate SamePair(x: int, y: int, a: int, b: int)
  {
    (x == a && y == b) || (x == b && y == a)
  }

  /** The label of `(a, b)` after recording result `val` for the pair `(i, j)`
      when `(a, b)` was labelled `before`: only an unknown pair that is the
      recorded one changes, and only when `(i, j)` is a valid pair. */
  function Relabel(before: Label, a: int, b: int, i: int, j: int, val: bool, dim: int): (l: Label)
    ensures before != Unknown ==> l == before
    ensures !SamePair(i, j, a, b) ==> l == before
    ensures before == Unknown && ValidPair(i, j, dim) && SamePair(i, j, a, b) ==> l != Unknown
  {
    if before == Unknown && ValidPair(i, j, dim) && SamePair(i, j, a, b) then
      (if val then Similar else Dissimilar)
    else
      before
  }

  /** Every one of the first `k` pairs of a batch is a valid pair. */
  ghost predicate BatchInRange(idx1: seq<int>, idx2: seq<int>, k: int, dim: int)
    requires k <= |idx1| && k <= |idx2|
  {
    forall t :: 0 <= t < k ==> ValidPair(idx1[t], idx2[t], dim)
  }

  /** One of the first `n` results of the batch reports `(a, b)` similar
      (a non-zero result). */
  function ReportedSimilar(idx1: seq<int>, idx2: seq<int>, res: seq<int>, n: int, a: int, b: int): bool
    requires n <= |idx1| && n <= |idx2| && n <= |res|
    decreases if n < 0 then 0 else n
  {
    n > 0 &&
    (ReportedSimilar(idx1, idx2, res, n - 1, a, b) ||
     (res[n - 1] != 0 && SamePair(idx1[n - 1], idx2[n - 1], a, b)))
  }

  /** One of the first `n` results of the batch reports `(a, b)` dissimilar
      (a zero result). */
  function ReportedDissimilar(idx1: seq<int>, idx2: seq<int>, res: seq<int>, n: int, a: int, b: int): bool
    requires n <= |idx1| && n <= |idx2| && n <= |res|
    decreases if n < 0 then 0 else n
  {
    n > 0 &&
    (ReportedDissimilar(idx1, idx2, res, n - 1, a, b) ||
     (res[n - 1] == 0 && SamePair(idx1[n - 1], idx2[n - 1], a, b)))
  }

  /** `(a, b)` is one of the pairs `(xs[t], ys[t])`. */
  function AnyPairIn(xs: seq<int>, ys: seq<int>, a: int, b: int): bool
    requires |xs| == |ys|
  {
    |xs| > 0 &&
    (AnyPairIn(xs[..|xs| - 1], ys[..|ys| - 1], a, b) ||
     SamePair(xs[|xs| - 1], ys[|ys| - 1], a, b))
  }

  /** The label of `(a, b)` after the similar results of a batch's first `n`
      pairs are recorded. */
  function SimilarLabel(before: Label, a: int, b: int, idx1: seq<int>, idx2: seq<int>, res: seq<int>, n: int): Label
    requires n <= |idx1| && n <= |idx2| && n <= |res|
  {
    if before != Unknown then before
    else if ReportedSimilar(idx1, idx2, res, n, a, b) then Similar
    else Unknown
  }

  /** The label of `(a, b)` after the pairs `(xs[t], ys[t])` are recorded as
      dissimilar; pairs that are not valid are skipped. */
  function DissimilarLabel(before: Label, a: int, b: int, xs: seq<int>, ys: seq<int>, dim: int): Label
    requires |xs| == |ys|
  {
    if before != Unknown then before
    else if ValidPair(a, b, dim) && AnyPairIn(xs, ys, a, b) then Dissimilar
    else Unknown
  }

  /** The label of `(a, b)` after a whole batch of `k` results is applied: a
      known label stays; otherwise a similar report wins over a dissimilar one. */
  function BatchLabel(before: Label, a: int, b: int, idx1: seq<int>, idx2: seq<int>, res: seq<int>, k: int): Label
    requires k <= |idx1| && k <= |idx2| && k <= |res|
  {
    if before != Unknown then before
    else if ReportedSimilar(idx1, idx2, res, k, a, b) then Similar
    else if ReportedDissimilar(idx1, idx2, res, k, a, b) then Dissimilar
    else Unknown
  }

  /** The result of the batch's pair `t` is reported for that pair. */
  lemma {:induction false} ResultIsReported(idx1: seq<int>, idx2: seq<int>, res: seq<int>, n: int, t: int)
    requires n <= |idx1| && n <= |idx2| && n <= |res|
    requires 0 <= t < n
    ensures res[t] != 0 ==> ReportedSimilar(idx1, idx2, res, n, idx1[t], idx2[t])
    ensures res[t] == 0 ==> ReportedDissimilar(idx1, idx2, res, n, idx1[t], idx2[t])
    decreases n
  {
    if t < n - 1 {
      ResultIsReported(idx1, idx2, res, n - 1, t);
    }
  }

  /** Only pairs of the batch are reported. */
  lemma {:induction false} ReportedIsBatchPair(idx1: seq<int>, idx2: seq<int>, res: seq<int>, n: int, a: int, b: int)
    requires n <= |idx1| && n <= |idx2| && n <= |res|
    requires ReportedSimilar(idx1, idx2, res, n, a, b) || ReportedDissimilar(idx1, idx2, res, n, a, b)
    ensures exists t :: 0 <= t < n && SamePair(idx1[t], idx2[t], a, b)
    decreases n
  {
    if !SamePair(idx1[n - 1], idx2[n - 1], a, b) {
      ReportedIsBatchPair(idx1, idx2, res, n - 1, a, b);
    }
  }

  /** Applying a batch decides every one of its pairs: after the update none of
      the `k` pairs is still unknown, and each pair that was unknown gets a
      label the batch reported for it. */
  lemma BatchDecidesItsPairs(before: Label, idx1: seq<int>, idx2: seq<int>, res: seq<int>, k: int, t: int)
    requires k <= |idx1| && k <= |idx2| && k <= |res|
    requires 0 <= t < k
    ensures BatchLabel(before, idx1[t], idx2[t], idx1, idx2, res, k) != Unknown
    ensures before == Unknown && res[t] != 0 ==>
      BatchLabel(before, idx1[t], idx2[t], idx1, idx2, res, k) == Similar
  {
    ResultIsReported(idx1, idx2, res, k, t);
  }

  /** A pair that the batch does not mention keeps its label. */
  lemma BatchLeavesOtherPairs(before: Label, a: int, b: int, idx1: seq<int>, idx2: seq<int>, res: seq<int>, k: int)
    requires k <= |idx1| && k <= |idx2| && k <= |res|
    requires forall t :: 0 <= t < k ==> !SamePair(idx1[t], idx2[t], a, b)
    ensures BatchLabel(before, a, b, idx1, idx2, res, k) == before
  {
    if ReportedSimilar(idx1, idx2, res, k, a, b) || ReportedDissimilar(idx1, idx2, res, k, a, b) {
      ReportedIsBatchPair(idx1, idx2, res, k, a, b);
    }
  }

  /** Recording the similar result of pair `t` of a valid batch moves the
      similar-only labelling from `t` pairs to `t + 1`; a dissimilar result
      leaves it where it is. */
  lemma SimilarLabelStep(before: Label, a: int, b: int, idx1: seq<int>, idx2: seq<int>, res: seq<int>, t: int, dim: int)
    requires 0 <= t < |idx1| && t < |idx2| && t < |res|
    requires ValidPair(idx1[t], idx2[t], dim)
    ensures SimilarLabel(before, a, b, idx1, idx2, res, t + 1)
            == if res[t] != 0
               then Relabel(SimilarLabel(before, a, b, idx1, idx2, res, t), a, b, idx1[t], idx2[t], true, dim)
               else SimilarLabel(before, a, b, idx1, idx2, res, t)
  {
  }

  /** Appending one pair extends the pairs searched by `AnyPairIn`. */
  lemma AnyPairInSnoc(xs: seq<int>, ys: seq<int>, x: int, y: int, a: int, b: int)
    requires |xs| == |ys|
    ensures AnyPairIn(xs + [x], ys + [y], a, b) == (AnyPairIn(xs, ys, a, b) || SamePair(x, y, a, b))
  {
    assert (xs + [x])[..|xs|] == xs;
    assert (ys + [y])[..|ys|] == ys;
  }

  /** Recording one more pair as dissimilar is one `Relabel` step. */
  lemma DissimilarLabelStep(before: Label, a: int, b: int, xs: seq<int>, ys: seq<int>, x: int, y: int, dim: int)
    requires |xs| == |ys|
    ensures DissimilarLabel(before, a, b, xs + [x], ys + [y], dim)
            == Relabel(DissimilarLabel(before, a, b, xs, ys, dim), a, b, x, y, false, dim)
  {
    AnyPairInSnoc(xs, ys, x, y, a, b);
  }

  /** Applying a valid batch is applying its similar results first and then
      its dissimilar ones, gathered as the pairs `(xs[t], ys[t])`. */
  lemma BatchIsSimilarThenDissimilar(before: Label, a: int, b: int, idx1: seq<int>, idx2: seq<int>, res: seq<int>, k: int,
                                     xs: seq<int>, ys: seq<int>, dim: int)
    requires k <= |idx1| && k <= |idx2| && k <= |res|
    requires BatchInRange(idx1, idx2, k, dim)
    requires |xs| == |ys| && AnyPairIn(xs, ys, a, b) == ReportedDissimilar(idx1, idx2, res, k, a, b)
    ensures DissimilarLabel(SimilarLabel(before, a, b, idx1, idx2, res, k), a, b, xs, ys, dim)
            == BatchLabel(before, a, b, idx1, idx2, res, k)
  {
    if ReportedDissimilar(idx1, idx2, res, k, a, b) {
      ReportedIsBatchPair(idx1, idx2, res, k, a, b);
    }
  }
}
