/** The sparse match graph: which pairs of `dim` items are known similar,
    known dissimilar or still unknown.

    Similar pairs are stored symmetrically in a compressed-sparse-row layout:
    row `r` lists, in increasing order, the items known similar to `r` and
    `r` itself (its diagonal entry). `degrees[r]` is the length of row `r`,
    `rowPtr` holds the row offsets (`rowPtr[r]` is where row `r` starts in
    `colIdx`, `rowPtr[dim]` the number of stored entries), and `diagPos[r]`
    is the position of the diagonal entry inside row `r`. Dissimilar pairs
    are kept apart, in `dissimilarMap`, in both directions. */
module SparseGraph {
  import opened PrefixSums
  import opened Csr
  import opened Labels

  /** A similar pair is stored in both rows. */
  ghost predicate SymmetricRows(rows: seq<seq<int>>)
  {
    forall r, c :: 0 <= r < |rows| && 0 <= c < |rows| && c in rows[r] ==> r in rows[c]
  }

  /** Dissimilar pairs are pairs of distinct items, recorded in both
      directions, and never also similar. */
  ghost predicate DissimilarOK(m: map<int, set<int>>, rows: seq<seq<int>>)
  {
    forall r :: r in m ==>
      && 0 <= r < |rows|
      && forall c :: c in m[r] ==>
           && 0 <= c < |rows| && c != r
           && c in m && r in m[c]
           && c !in rows[r]
  }

  /** The similar pairs stored in the rows, each unordered pair once. */
  ghost function SimilarPairs(rows: seq<seq<int>>): set<(int, int)>
  {
    set a, b | 0 <= a < b < |rows| && b in rows[a] :: (a, b)
  }

  /** The rows after the new similar pair `(i, j)` is put in both of its rows. */
  function AddSimilarBoth(rows: seq<seq<int>>, i: int, j: int): (rows': seq<seq<int>>)
    requires 0 <= i < |rows| && 0 <= j < |rows| && i != j
    ensures |rows'| == |rows|
    ensures rows'[i] == InsertSorted(rows[i], j) && rows'[j] == InsertSorted(rows[j], i)
    ensures forall r :: 0 <= r < |rows| && r != i && r != j ==> rows'[r] == rows[r]
  {
    rows[i := InsertSorted(rows[i], j)][j := InsertSorted(rows[j], i)]
  }

  /** Storing a new similar pair adds exactly one unordered pair. */
  lemma AddSimilarPairCounts(rows: seq<seq<int>>, i: int, j: int)
    requires ValidPair(i, j, |rows|)
    requires StrictlySorted(rows[i]) && StrictlySorted(rows[j])
    requires j !in rows[i] && i !in rows[j]
    ensures |SimilarPairs(AddSimilarBoth(rows, i, j))| == |SimilarPairs(rows)| + 1
  {
    InsertSortedProps(rows[i], j);
    InsertSortedProps(rows[j], i);
    var rows' := AddSimilarBoth(rows, i, j);
    assert forall r, x :: 0 <= r < |rows| ==>
      (x in rows'[r] <==> x in rows[r] || (r == i && x == j) || (r == j && x == i));
    var pair := if i < j then (i, j) else (j, i);
    assert pair !in SimilarPairs(rows);
    assert SimilarPairs(rows') == SimilarPairs(rows) + {pair};
  }

  /** The label of `(a, b)` given the rows of similar items and the map of
      dissimilar ones. */
  ghost function PairLabel(rows: seq<seq<int>>, m: map<int, set<int>>, a: int, b: int): Label
  {
    if 0 <= a < |rows| && b in rows[a] then Similar
    else if a in m && b in m[a] then Dissimilar
    else Unknown
  }

  /** Storing a new similar pair `(i, j)` in both (sorted) rows keeps the
      rows symmetric and apart from the dissimilar pairs, and labels exactly
      that pair similar. */
  lemma AddSimilarPair(m: map<int, set<int>>, rows: seq<seq<int>>, i: int, j: int)
    requires SymmetricRows(rows) && DissimilarOK(m, rows)
    requires ValidPair(i, j, |rows|)
    requires StrictlySorted(rows[i]) && StrictlySorted(rows[j])
    requires PairLabel(rows, m, i, j) == Unknown && PairLabel(rows, m, j, i) == Unknown
    ensures SymmetricRows(AddSimilarBoth(rows, i, j)) && DissimilarOK(m, AddSimilarBoth(rows, i, j))
    ensures forall a, b ::
              PairLabel(AddSimilarBoth(rows, i, j), m, a, b)
              == if SamePair(i, j, a, b) then Similar else PairLabel(rows, m, a, b)
  {
    InsertSortedProps(rows[i], j);
    InsertSortedProps(rows[j], i);
    var rows' := AddSimilarBoth(rows, i, j);
    assert forall r, x :: 0 <= r < |rows| ==>
      (x in rows'[r] <==> x in rows[r] || (r == i && x == j) || (r == j && x == i));
  }

  /** The dissimilar map after recording `(i, j)` in both directions. */
  function AddDissimilarBoth(m: map<int, set<int>>, i: int, j: int): (m': map<int, set<int>>)
    ensures i in m' && j in m' && j in m'[i] && i in m'[j]
    ensures forall r :: r in m' <==> r in m || r == i || r == j
  {
    var m1 := m[i := (if i in m then m[i] else {}) + {j}];
    m1[j := (if j in m1 then m1[j] else {}) + {i}]
  }

  /** Recording a new dissimilar pair `(i, j)` in both directions keeps the
      dissimilar pairs apart from the similar ones and labels exactly that
      pair dissimilar. */
  lemma AddDissimilarPair(m: map<int, set<int>>, rows: seq<seq<int>>, i: int, j: int)
    requires DissimilarOK(m, rows)
    requires ValidPair(i, j, |rows|)
    requires PairLabel(rows, m, i, j) == Unknown && PairLabel(rows, m, j, i) == Unknown
    ensures DissimilarOK(AddDissimilarBoth(m, i, j), rows)
    ensures forall a, b ::
              PairLabel(rows, AddDissimilarBoth(m, i, j), a, b)
              == if SamePair(i, j, a, b) then Dissimilar else PairLabel(rows, m, a, b)
  {
  }

  /** Recording the pair `(data[t], data[num + t])` as dissimilar over fixed
      rows extends the run of dissimilar records of the pairs
      `(data[q], data[num + q])` for `q < t` by one. */
  lemma DissimilarRunStep(rows: seq<seq<int>>, m0: map<int, set<int>>, m1: map<int, set<int>>, m2: map<int, set<int>>,
                          data: seq<int>, num: int, t: int, dim: int)
    requires 0 <= t < num && 2 * num <= |data|
    requires forall a, b ::
               PairLabel(rows, m1, a, b) == DissimilarLabel(PairLabel(rows, m0, a, b), a, b, data[..t], data[num..num + t], dim)
    requires forall a, b ::
               PairLabel(rows, m2, a, b) == Relabel(PairLabel(rows, m1, a, b), a, b, data[t], data[num + t], false, dim)
    ensures forall a, b ::
              PairLabel(rows, m2, a, b)
              == DissimilarLabel(PairLabel(rows, m0, a, b), a, b, data[..t + 1], data[num..num + t + 1], dim)
  {
    assert data[..t + 1] == data[..t] + [data[t]];
    assert data[num..num + t + 1] == data[num..num + t] + [data[num + t]];
    forall a, b
      ensures PairLabel(rows, m2, a, b)
              == DissimilarLabel(PairLabel(rows, m0, a, b), a, b, data[..t + 1], data[num..num + t + 1], dim)
    {
      DissimilarLabelStep(PairLabel(rows, m0, a, b), a, b, data[..t], data[num..num + t], data[t], data[num + t], dim);
    }
  }

  class GPUSparse {
    const dim: nat
    const lambda: real
    /** The number of similar pairs: half the number of off-diagonal entries. */
    var numSimilar: nat

    var diagPos: seq<int>
    var degrees: seq<int>
    var rowPtr: seq<int>
    var colIdx: seq<int>

    var dissimilarMap: map<int, set<int>>

    /** The rows of the layout, diagonal entries included. */
    ghost var adj: seq<seq<int>>

    /** Every row is sorted, in range and holds its diagonal, and `colIdx`
        stores the rows back to back. */
    ghost predicate RowsOK()
      reads this
    {
      && WellFormedRows(adj, diagPos, dim)
      && colIdx == Flatten(adj)
    }

    /** The degrees are the row lengths and the row offsets their running sums. */
    ghost predicate OffsetsOK()
      reads this
    {
      && |adj| == dim
      && degrees == Lengths(adj)
      && rowPtr == [0] + RunningSums(degrees)
    }

    ghost predicate Valid()
      reads this
    {
      && RowsOK()
      && OffsetsOK()
      && SymmetricRows(adj)
      && DissimilarOK(dissimilarMap, adj)
      && 2 * numSimilar + dim == |colIdx|
      && numSimilar == |SimilarPairs(adj)|
    }

    /** The label of the pair `(a, b)`, read off the abstract rows. */
    ghost function LabelOf(a: int, b: int): Label
      reads this
    {
      PairLabel(adj, dissimilarMap, a, b)
    }

    /** A new graph: every row holds only its diagonal entry, nothing is known. */
    constructor (dimension: nat, lambda: real)
      ensures Valid()
      ensures dim == dimension && this.lambda == lambda
      ensures numSimilar == 0 && dissimilarMap == map[]
      ensures forall a, b :: a != b ==> LabelOf(a, b) == Unknown
    {
      dim := dimension;
      this.lambda := lambda;
      numSimilar := 0;
      degrees := seq(dimension, r => 1);
      diagPos := seq(dimension, r => 0);
      colIdx := seq(dimension, r => r);
      adj := seq(dimension, r => [r]);
      dissimilarMap := map[];
      rowPtr := [];
      new;
      FlattenSingletons(adj);
      assert colIdx == Flatten(adj);
      assert degrees == Lengths(adj);
      assert SimilarPairs(adj) == {};
      UpdateRowPtr();
    }

    /** Writes into `result` the inclusive running sums of the first
        `dimension` elements of `input`; `result` may be `input` itself. */
    static method PrefixSumGPU(result: array<int>, input: array<int>, dimension: int) returns (r: array<int>)
      requires 0 <= dimension <= result.Length && dimension <= input.Length
      modifies result
      ensures r == result
      ensures result[..dimension] == RunningSums(old(input[..dimension]))
      ensures result[dimension..] == old(result[dimension..])
    {
      ghost var s := input[..dimension];
      var acc := 0;
      var i := 0;
      while i < dimension
        invariant 0 <= i <= dimension
        invariant acc == Sum(s[..i])
        invariant forall t :: 0 <= t < i ==> result[t] == Sum(s[..t + 1])
        invariant forall t :: i <= t < dimension ==> input[t] == s[t]
        invariant forall t :: dimension <= t < result.Length ==> result[t] == old(result[t])
      {
        assert s[..i + 1][..i] == s[..i];
        acc := acc + input[i];
        result[i] := acc;
        i := i + 1;
      }
      r := result;
    }

    /** Rebuilds the row offsets from the degrees with a prefix sum. */
    method UpdateRowPtr()
      requires |degrees| == dim
      modifies this`rowPtr
      ensures rowPtr == [0] + RunningSums(degrees)
    {
      var d := degrees;
      var input := new int[dim](i => if 0 <= i < |d| then d[i] else 0);
      var result := new int[dim];
      var sums := PrefixSumGPU(result, input, dim);
      assert input[..dim] == d;
      assert result[..] == result[..dim];
      rowPtr := [0] + result[..];
    }

    /** Raises the degree of `row` by one and changes nothing else. */
    method IncrementDegree(row: int)
      requires 0 <= row < |degrees|
      modifies this`degrees
      ensures degrees == old(degrees)[row := old(degrees[row]) + 1]
    {
      degrees := degrees[row := degrees[row] + 1];
    }

    /** Inserts column `j` into row `row` at its sorted place, shifting every
        later entry of `colIdx` by one and the diagonal position of `row` when
        `j` comes before it. Degrees and offsets are left to the caller. */
    method AddNewToRow(row: int, j: int)
      requires RowsOK() && OffsetsOK()
      requires ValidPair(row, j, dim) && j !in adj[row]
      modifies this`colIdx, this`diagPos, this`adj
      ensures RowsOK()
      ensures adj == old(adj)[row := InsertSorted(old(adj[row]), j)]
      ensures forall x :: x in adj[row] <==> x in old(adj[row]) || x == j
      ensures |adj[row]| == |old(adj[row])| + 1
      ensures diagPos == old(diagPos)[row := old(diagPos[row]) + if j < row then 1 else 0]
      ensures |colIdx| == |old(colIdx)| + 1
    {
      var p := InsertPosition(row, j);
      assert rowPtr == Offsets(adj);
      InsertIntoRows(adj, diagPos, dim, colIdx, row, j, p);
      InsertSortedProps(adj[row], j);
      colIdx := colIdx[..p] + [j] + colIdx[p..];
      if j < row {
        diagPos := diagPos[row := diagPos[row] + 1];
      }
      adj := adj[row := InsertSorted(adj[row], j)];
    }

    /** The position in `colIdx` where `j` belongs in row `row`: after every
        smaller entry of the row and before every larger one. */
    method InsertPosition(row: int, j: int) returns (p: int)
      requires OffsetsOK() && colIdx == Flatten(adj) && 0 <= row < dim
      ensures 0 <= rowPtr[row] <= p <= rowPtr[row + 1] <= |colIdx|
      ensures forall q :: rowPtr[row] <= q < p ==> colIdx[q] < j
      ensures p < rowPtr[row + 1] ==> colIdx[p] >= j
    {
      RowLayout(row);
      p := rowPtr[row];
      while p < rowPtr[row + 1] && colIdx[p] < j
        invariant rowPtr[row] <= p <= rowPtr[row + 1]
        invariant forall q :: rowPtr[row] <= q < p ==> colIdx[q] < j
      {
        p := p + 1;
      }
    }

    /** Records `row` in the set of items dissimilar to `column` and changes
        nothing else. */
    method AddDissimilarToColumn(column: int, row: int)
      modifies this`dissimilarMap
      ensures dissimilarMap == old(dissimilarMap)[column :=
        (if column in old(dissimilarMap) then old(dissimilarMap[column]) else {}) + {row}]
    {
      var current := if column in dissimilarMap then dissimilarMap[column] else {};
      dissimilarMap := dissimilarMap[column := current + {row}];
    }

    /** Where row `r` lies in the layout, and that it reads back as the row. */
    lemma RowLayout(r: int)
      requires OffsetsOK() && colIdx == Flatten(adj) && 0 <= r < dim
      ensures 0 <= rowPtr[r] <= rowPtr[r + 1] <= |colIdx|
      ensures rowPtr[r + 1] - rowPtr[r] == degrees[r]
      ensures colIdx[rowPtr[r]..rowPtr[r + 1]] == adj[r]
    {
      RowSlice(adj, r);
    }

    /** The label of `(i, j)`; an index out of range or `i == j` is an error. */
    function GetVal(i: int, j: int): (r: Result<Label>)
      reads this
      requires Valid()
      ensures ValidPair(i, j, dim) ==> r == Ok(LabelOf(i, j))
      ensures !ValidPair(i, j, dim) ==> r == Failure(InvalidIndex)
    {
      if !ValidPair(i, j, dim) then Failure(InvalidIndex)
      else
        RowLayout(i);
        if j in colIdx[rowPtr[i]..rowPtr[i + 1]] then Ok(Similar)
        else if i in dissimilarMap && j in dissimilarMap[i] then Ok(Dissimilar)
        else Ok(Unknown)
    }

    /** Records the result of comparing items `i` and `j`: `val` similar or
        not. An out-of-range pair or `i == j` is rejected and changes nothing;
        a pair that is already labelled keeps its label. */
    method Set(i: int, j: int, val: bool) returns (status: Outcome)
      requires Valid()
      modifies this
      ensures Valid()
      ensures status == if ValidPair(i, j, dim) then Pass else Fail(InvalidIndex)
      ensures forall a, b :: LabelOf(a, b) == Relabel(old(LabelOf(a, b)), a, b, i, j, val, dim)
      ensures numSimilar == old(numSimilar) +
        if ValidPair(i, j, dim) && old(LabelOf(i, j)) == Unknown && val then 1 else 0
      ensures !val ==> adj == old(adj) && colIdx == old(colIdx) && rowPtr == old(rowPtr)
                       && degrees == old(degrees) && diagPos == old(diagPos)
      ensures val ==> dissimilarMap == old(dissimilarMap)
    {
      if !ValidPair(i, j, dim) {
        return Fail(InvalidIndex);
      }
      if GetVal(i, j) != Ok(Unknown) {
        return Pass;
      }
      assert LabelOf(i, j) == Unknown;
      assert LabelOf(j, i) == Unknown;
      if val {
        InsertSimilar(i, j);
      } else {
        InsertDissimilar(i, j);
      }
      status := Pass;
    }

    /** Stores a new similar pair in both rows and counts it. */
    method InsertSimilar(i: int, j: int)
      requires Valid() && ValidPair(i, j, dim)
      requires LabelOf(i, j) == Unknown && LabelOf(j, i) == Unknown
      modifies this
      ensures Valid()
      ensures adj == AddSimilarBoth(old(adj), i, j)
      ensures forall a, b :: LabelOf(a, b) == if SamePair(i, j, a, b) then Similar else old(LabelOf(a, b))
      ensures numSimilar == old(numSimilar) + 1
      ensures dissimilarMap == old(dissimilarMap)
    {
      ghost var adj0, size0 := adj, |colIdx|;
      AddSimilarPair(dissimilarMap, adj, i, j);
      AddSimilarPairCounts(adj, i, j);
      InsertIntoRow(i, j);
      InsertIntoRow(j, i);
      numSimilar := numSimilar + 1;
      assert adj == AddSimilarBoth(adj0, i, j);
      assert SymmetricRows(adj) && DissimilarOK(dissimilarMap, adj);
      assert numSimilar == |SimilarPairs(adj)|;
      assert 2 * numSimilar + dim == |colIdx| by {
        assert |colIdx| == size0 + 2;
      }
    }

    /** Records a new dissimilar pair in both directions. */
    method InsertDissimilar(i: int, j: int)
      requires Valid() && ValidPair(i, j, dim)
      requires LabelOf(i, j) == Unknown && LabelOf(j, i) == Unknown
      modifies this`dissimilarMap
      ensures Valid()
      ensures forall a, b :: LabelOf(a, b) == if SamePair(i, j, a, b) then Dissimilar else old(LabelOf(a, b))
    {
      ghost var m0 := dissimilarMap;
      AddDissimilarPair(dissimilarMap, adj, i, j);
      AddDissimilarToColumn(i, j);
      AddDissimilarToColumn(j, i);
      assert dissimilarMap == AddDissimilarBoth(m0, i, j);
    }

    /** One half of storing a similar pair: puts `j` into row `row` and brings
        the degree of the row and the row offsets up to date. */
    method InsertIntoRow(row: int, j: int)
      requires RowsOK() && OffsetsOK()
      requires ValidPair(row, j, dim) && j !in adj[row]
      modifies this`colIdx, this`diagPos, this`adj, this`degrees, this`rowPtr
      ensures RowsOK() && OffsetsOK()
      ensures adj == old(adj)[row := InsertSorted(old(adj[row]), j)]
      ensures |colIdx| == |old(colIdx)| + 1
      ensures dissimilarMap == old(dissimilarMap) && numSimilar == old(numSimilar)
    {
      ghost var adj0 := adj;
      AddNewToRow(row, j);
      IncrementDegree(row);
      LengthsUpdate(adj0, row, adj[row]);
      UpdateRowPtr();
    }
  
    /** Applies the `k` comparison results of a batch: pair `t` is
        `(idx1[t], idx2[t])`, and a non-zero `res[t]` means similar. A batch
        holding an invalid pair is rejected as a whole before anything
        changes. Otherwise the similar results are recorded first, one pair
        at a time, and the dissimilar pairs are then gathered into one buffer
        (first items, then second items) and recorded together. */
    method UpdateSparseStatus(idx1: seq<int>, idx2: seq<int>, res: seq<int>, k: int) returns (status: Outcome)
      requires Valid()
      requires 0 <= k <= |idx1| && k <= |idx2| && k <= |res|
      modifies this
      ensures Valid()
      ensures status == if BatchInRange(idx1, idx2, k, dim) then Pass else Fail(InvalidIndex)
      ensures forall a, b ::
                LabelOf(a, b)
                == if status == Pass then BatchLabel(old(LabelOf(a, b)), a, b, idx1, idx2, res, k) else old(LabelOf(a, b))
      ensures numSimilar >= old(numSimilar)
    {
      var t := 0;
      while t < k
        invariant 0 <= t <= k
        invariant forall u :: 0 <= u < t ==> ValidPair(idx1[u], idx2[u], dim)
      {
        if !ValidPair(idx1[t], idx2[t], dim) {
          return Fail(InvalidIndex);
        }
        t := t + 1;
      }
      RecordSimilar(idx1, idx2, res, k);
      label similarDone:
      var xs, ys := GatherDissimilar(idx1, idx2, res, k);
      assert (xs + ys)[..|xs|] == xs && (xs + ys)[|xs|..2 * |xs|] == ys;
      HandleDissimilar(xs + ys, |xs|);
      forall a, b
        ensures LabelOf(a, b) == BatchLabel(old(LabelOf(a, b)), a, b, idx1, idx2, res, k)
      {
        BatchIsSimilarThenDissimilar(old(LabelOf(a, b)), a, b, idx1, idx2, res, k, xs, ys, dim);
      }
      status := Pass;
    }

    /** Records the similar results of the first `k` pairs of a valid batch. */
    method RecordSimilar(idx1: seq<int>, idx2: seq<int>, res: seq<int>, k: int)
      requires Valid()
      requires 0 <= k <= |idx1| && k <= |idx2| && k <= |res|
      requires BatchInRange(idx1, idx2, k, dim)
      modifies this
      ensures Valid()
      ensures forall a, b :: LabelOf(a, b) == SimilarLabel(old(LabelOf(a, b)), a, b, idx1, idx2, res, k)
      ensures numSimilar >= old(numSimilar)
    {
      var t := 0;
      while t < k
        invariant 0 <= t <= k
        invariant Valid()
        invariant forall a, b :: LabelOf(a, b) == SimilarLabel(old(LabelOf(a, b)), a, b, idx1, idx2, res, t)
        invariant numSimilar >= old(numSimilar)
      {
        label before:
        if res[t] != 0 {
          var _ := Set(idx1[t], idx2[t], true);
        }
        forall a, b
          ensures LabelOf(a, b) == SimilarLabel(old(LabelOf(a, b)), a, b, idx1, idx2, res, t + 1)
        {
          SimilarLabelStep(old(LabelOf(a, b)), a, b, idx1, idx2, res, t, dim);
        }
        t := t + 1;
      }
    }

    /** The dissimilar pairs of the first `k` results, in batch order. */
    method GatherDissimilar(idx1: seq<int>, idx2: seq<int>, res: seq<int>, k: int) returns (xs: seq<int>, ys: seq<int>)
      requires 0 <= k <= |idx1| && k <= |idx2| && k <= |res|
      ensures |xs| == |ys| <= k
      ensures forall a, b :: AnyPairIn(xs, ys, a, b) == ReportedDissimilar(idx1, idx2, res, k, a, b)
    {
      xs, ys := [], [];
      var t := 0;
      while t < k
        invariant 0 <= t <= k
        invariant |xs| == |ys| <= t
        invariant forall a, b :: AnyPairIn(xs, ys, a, b) == ReportedDissimilar(idx1, idx2, res, t, a, b)
      {
        if res[t] == 0 {
          forall a, b
            ensures AnyPairIn(xs + [idx1[t]], ys + [idx2[t]], a, b) == ReportedDissimilar(idx1, idx2, res, t + 1, a, b)
          {
            AnyPairInSnoc(xs, ys, idx1[t], idx2[t], a, b);
          }
          xs, ys := xs + [idx1[t]], ys + [idx2[t]];
        }
        t := t + 1;
      }
    }

    /** Records as dissimilar the `num` pairs `(idxData[t], idxData[num + t])`
        held in one buffer; invalid pairs are skipped. */
    method HandleDissimilar(idxData: seq<int>, num: int)
      requires Valid()
      requires 0 <= num && 2 * num <= |idxData|
      modifies this
      ensures Valid()
      ensures forall a, b ::
                LabelOf(a, b) == DissimilarLabel(old(LabelOf(a, b)), a, b, idxData[..num], idxData[num..2 * num], dim)
      ensures adj == old(adj) && colIdx == old(colIdx) && rowPtr == old(rowPtr)
      ensures degrees == old(degrees) && diagPos == old(diagPos) && numSimilar == old(numSimilar)
    {
      ghost var m0 := dissimilarMap;
      var t := 0;
      while t < num
        invariant 0 <= t <= num
        invariant Valid()
        invariant adj == old(adj) && colIdx == old(colIdx) && rowPtr == old(rowPtr)
        invariant degrees == old(degrees) && diagPos == old(diagPos) && numSimilar == old(numSimilar)
        invariant forall a, b ::
                    PairLabel(adj, dissimilarMap, a, b)
                    == DissimilarLabel(PairLabel(adj, m0, a, b), a, b, idxData[..t], idxData[num..num + t], dim)
      {
        ghost var m1 := dissimilarMap;
        label BeforeSet:
        var _ := Set(idxData[t], idxData[num + t], false);
        forall a, b
          ensures PairLabel(adj, dissimilarMap, a, b)
                  == Relabel(PairLabel(adj, m1, a, b), a, b, idxData[t], idxData[num + t], false, dim)
        {
          assert LabelOf(a, b) == Relabel(old@BeforeSet(LabelOf(a, b)), a, b, idxData[t], idxData[num + t], false, dim);
        }
        DissimilarRunStep(adj, m0, m1, dissimilarMap, idxData, num, t, dim);
        t := t + 1;
      }
      assert forall a, b :: old(LabelOf(a, b)) == PairLabel(adj, m0, a, b);
    }

    /** The number of similar pairs, each unordered pair counted once. */
    function GetSimilarities(): (r: nat)
      reads this
      requires Valid()
      ensures r == |SimilarPairs(adj)|
      ensures 2 * r + dim == |colIdx|
    {
      numSimilar
    }

    /** The number of stored entries: the last row offset. */
    function GetNNZ(): (r: int)
      reads this
      requires Valid()
      ensures r == |colIdx|
      ensures r == 2 * |SimilarPairs(adj)| + dim
    {
      OffsetsLast(adj);
      rowPtr[dim]
    }

    function GetDimension(): nat
    {
      dim
    }

    /** The entry at the diagonal position of row `r` is `r` itself. */
    lemma RowHoldsDiagonal(r: int)
      requires Valid() && 0 <= r < dim
      ensures 0 <= rowPtr[r] <= rowPtr[r] + diagPos[r] < rowPtr[r + 1] <= |colIdx|
      ensures colIdx[rowPtr[r] + diagPos[r]] == r
    {
      RowLayout(r);
      assert adj[r][diagPos[r]] == r;
    }

    /** The row offsets never decrease, start at 0 and end at the number of
        stored entries. */
    lemma RowOffsetsNonDecreasing()
      requires Valid()
      ensures rowPtr[0] == 0 && rowPtr[dim] == |colIdx|
      ensures forall r, q :: 0 <= r <= q <= dim ==> rowPtr[r] <= rowPtr[q]
    {
      OffsetsLast(adj);
      assert NonNegative(degrees);
      RunningSumsNonDecreasing(degrees);
      forall r, q | 0 <= r <= q <= dim
        ensures rowPtr[r] <= rowPtr[q]
      {
        if r == 0 && q > 0 {
          RunningSumsStep(degrees, 0);
        }
      }
    }

    /** The degree of a row is its number of similar items plus its diagonal. */
    lemma DegreeCountsNeighbours(r: int)
      requires Valid() && 0 <= r < dim
      ensures degrees[r] == |set c | 0 <= c < dim && c != r && LabelOf(r, c) == Similar| + 1
    {
      var row := adj[r];
      DistinctCount(row);
      var neighbours := set c | 0 <= c < dim && c != r && LabelOf(r, c) == Similar;
      assert neighbours == (set x | x in row) - {r};
      assert r in row;
    }

    /** A pair reads the same in both orders. */
    lemma GetValSymmetric(i: int, j: int)
      requires Valid()
      ensures GetVal(i, j) == GetVal(j, i)
    {
      if ValidPair(i, j, dim) {
        assert LabelOf(i, j) == LabelOf(j, i);
      }
    }
  }
}
