/** Compressed-sparse-row layout: a list of rows stored back to back in one
    column-index sequence, with row offsets that are running sums of the row
    lengths; and sorted insertion of a column into one row. */
module Csr {
  import opened PrefixSums

  /** The rows stored back to back, as in a column-index array. */
  function Flatten(rows: seq<seq<int>>): seq<int>
  {
    if rows == [] then [] else Flatten(rows[..|rows| - 1]) + rows[|rows| - 1]
  }

  /** The length of every row: the per-row degrees of the layout. */
  function Lengths(rows: seq<seq<int>>): (r: seq<int>)
    ensures |r| == |rows|
  {
    seq(|rows|, i requires 0 <= i < |rows| => |rows[i]|)
  }

  /** Row offsets: `[0]` followed by the running sums of the row lengths. */
  function Offsets(rows: seq<seq<int>>): (r: seq<int>)
    ensures |r| == |rows| + 1
  {
    [0] + RunningSums(Lengths(rows))
  }

  ghost predicate StrictlySorted(s: seq<int>)
  {
    forall p, q :: 0 <= p < q < |s| ==> s[p] < s[q]
  }

  /** Row `r` of a graph over `dim` items: sorted column indices in range,
      holding the diagonal `r` at position `d`. */
  ghost predicate RowOK(row: seq<int>, r: int, d: int, dim: int)
  {
    && StrictlySorted(row)
    && (forall x :: x in row ==> 0 <= x < dim)
    && 0 <= d < |row|
    && row[d] == r
  }

  /** The rows of a graph over `dim` items, each well formed around its
      diagonal position in `diag`. */
  ghost predicate WellFormedRows(rows: seq<seq<int>>, diag: seq<int>, dim: int)
  {
    && |rows| == dim && |diag| == dim
    && forall r :: 0 <= r < dim ==> RowOK(rows[r], r, diag[r], dim)
  }

  /** Inserts `j` in front of the first element larger than it. */
  function InsertSorted(s: seq<int>, j: int): seq<int>
  {
    if s == [] then [j]
    else if j < s[0] then [j] + s
    else [s[0]] + InsertSorted(s[1..], j)
  }

  lemma LengthsPrefix(rows: seq<seq<int>>, r: nat)
    requires r <= |rows|
    ensures Lengths(rows[..r]) == Lengths(rows)[..r]
  {
  }

  lemma LengthsUpdate(rows: seq<seq<int>>, r: nat, x: seq<int>)
    requires r < |rows|
    ensures Lengths(rows[r := x]) == Lengths(rows)[r := |x|]
  {
  }

  /** The flattened layout is as long as the sum of the row lengths. */
  lemma {:induction false} FlattenLength(rows: seq<seq<int>>)
    ensures |Flatten(rows)| == Sum(Lengths(rows))
  {
    if rows != [] {
      var n := |rows|;
      FlattenLength(rows[..n - 1]);
      LengthsPrefix(rows, n - 1);
    }
  }

  /** The layout is the rows before `r`, row `r`, and the rows after it. */
  lemma {:induction false} FlattenSplit(rows: seq<seq<int>>, r: nat)
    requires r < |rows|
    ensures Flatten(rows) == Flatten(rows[..r]) + rows[r] + Flatten(rows[r + 1..])
  {
    var n := |rows|;
    if r == n - 1 {
      assert rows[r + 1..] == [];
      assert Flatten(rows[..r]) + rows[r] + [] == Flatten(rows[..r]) + rows[r];
    } else {
      var front, after := rows[..n - 1], rows[r + 1..];
      FlattenSplit(front, r);
      assert front[..r] == rows[..r] && front[r] == rows[r];
      assert front[r + 1..] == after[..|after| - 1] && after[|after| - 1] == rows[n - 1];
      assert Flatten(after) == Flatten(front[r + 1..]) + rows[n - 1];
    }
  }

  /** Offset `r` is where row `r` starts: the length of the rows before it. */
  lemma OffsetIsStart(rows: seq<seq<int>>, r: nat)
    requires r <= |rows|
    ensures Offsets(rows)[r] == |Flatten(rows[..r])|
  {
    OffsetIsPrefixSum(Lengths(rows), r);
    LengthsPrefix(rows, r);
    FlattenLength(rows[..r]);
  }

  /** The last offset is the number of stored entries. */
  lemma OffsetsLast(rows: seq<seq<int>>)
    ensures Offsets(rows)[|rows|] == |Flatten(rows)|
  {
    OffsetIsStart(rows, |rows|);
    assert rows[..|rows|] == rows;
  }

  /** Reading the layout between two consecutive offsets gives back the row. */
  lemma RowSlice(rows: seq<seq<int>>, r: nat)
    requires r < |rows|
    ensures 0 <= Offsets(rows)[r] <= Offsets(rows)[r + 1] <= |Flatten(rows)|
    ensures Offsets(rows)[r + 1] - Offsets(rows)[r] == |rows[r]|
    ensures Flatten(rows)[Offsets(rows)[r]..Offsets(rows)[r + 1]] == rows[r]
  {
    OffsetIsStart(rows, r);
    OffsetIsStart(rows, r + 1);
    FlattenSplit(rows, r);
    assert rows[..r + 1][..r] == rows[..r];
    assert Flatten(rows[..r + 1]) == Flatten(rows[..r]) + rows[r];
  }

  /** Splicing `j` into row `r` at position `m` splices it into the layout at
      the row's start plus `m`, shifting every later entry by one. */
  lemma SpliceRow(rows: seq<seq<int>>, r: nat, m: nat, j: int)
    requires r < |rows| && m <= |rows[r]|
    ensures var start := |Flatten(rows[..r])|;
      && start + m <= |Flatten(rows)|
      && Flatten(rows[r := rows[r][..m] + [j] + rows[r][m..]])
         == Flatten(rows)[..start + m] + [j] + Flatten(rows)[start + m..]
  {
    var row := rows[r];
    var rows' := rows[r := row[..m] + [j] + row[m..]];
    FlattenSplit(rows, r);
    FlattenSplit(rows', r);
    assert rows'[..r] == rows[..r];
    assert rows'[r + 1..] == rows[r + 1..];
    SpliceConcat(Flatten(rows[..r]), row, Flatten(rows[r + 1..]), m, j);
  }

  lemma SpliceConcat(a: seq<int>, row: seq<int>, b: seq<int>, m: nat, j: int)
    requires m <= |row|
    ensures (a + row + b)[..|a| + m] + [j] + (a + row + b)[|a| + m..]
            == a + (row[..m] + [j] + row[m..]) + b
  {
    var f := a + row + b;
    assert f[..|a| + m] == a + row[..m];
    assert f[|a| + m..] == row[m..] + b;
  }

  /** Where the sorted insertion puts `j`: after every smaller element. */
  lemma {:induction false} InsertSortedAt(s: seq<int>, m: nat, j: int)
    requires m <= |s|
    requires forall q :: 0 <= q < m ==> s[q] < j
    requires m < |s| ==> j < s[m]
    ensures InsertSorted(s, j) == s[..m] + [j] + s[m..]
  {
    if s == [] {
    } else if m == 0 {
      assert s[..0] == [] && s[0..] == s;
    } else {
      var t := s[1..];
      forall q | 0 <= q < m - 1
        ensures t[q] < j
      {
        assert t[q] == s[q + 1];
      }
      InsertSortedAt(t, m - 1, j);
      calc {
        InsertSorted(s, j);
        { assert s[0] < j; }
        [s[0]] + InsertSorted(t, j);
        [s[0]] + (t[..m - 1] + [j] + t[m - 1..]);
        { assert t[..m - 1] == s[1..m] && t[m - 1..] == s[m..]; }
        [s[0]] + (s[1..m] + [j] + s[m..]);
        { assert s[..m] == [s[0]] + s[1..m]; }
        s[..m] + [j] + s[m..];
      }
    }
  }

  /** Sorted insertion of a new column keeps the row strictly sorted, makes it
      one longer and adds exactly `j` to its elements. */
  lemma {:induction false} InsertSortedProps(s: seq<int>, j: int)
    requires StrictlySorted(s) && j !in s
    ensures |InsertSorted(s, j)| == |s| + 1
    ensures forall x :: x in InsertSorted(s, j) <==> x in s || x == j
    ensures StrictlySorted(InsertSorted(s, j))
  {
    if s != [] && j >= s[0] {
      var t := s[1..];
      assert forall x :: x in s <==> x == s[0] || x in t;
      InsertSortedProps(t, j);
      var it := InsertSorted(t, j);
      forall q | 0 <= q < |it| ensures s[0] < it[q] {
        assert it[q] in it;
      }
    }
  }

  /** Sorted insertion of a new column keeps a row well formed; the diagonal
      moves one place right exactly when the new column is smaller than it. */
  lemma {:induction false} InsertKeepsRowOK(s: seq<int>, r: int, d: int, dim: int, j: int)
    requires RowOK(s, r, d, dim)
    requires 0 <= j < dim && j != r && j !in s
    ensures RowOK(InsertSorted(s, j), r, d + (if j < r then 1 else 0), dim)
  {
    InsertSortedProps(s, j);
    if j < s[0] {
      assert s[0] <= s[d];
    } else if d > 0 {
      var t := s[1..];
      assert forall x :: x in t ==> x in s;
      assert StrictlySorted(t);
      InsertKeepsRowOK(t, r, d - 1, dim, j);
    }
  }

  /** Inserting a new column into one row keeps all rows well formed. */
  lemma InsertKeepsRowsWellFormed(rows: seq<seq<int>>, diag: seq<int>, dim: int, row: int, j: int)
    requires WellFormedRows(rows, diag, dim)
    requires 0 <= row < dim && 0 <= j < dim && j != row && j !in rows[row]
    ensures WellFormedRows(rows[row := InsertSorted(rows[row], j)],
                           diag[row := diag[row] + if j < row then 1 else 0], dim)
  {
    InsertKeepsRowOK(rows[row], row, diag[row], dim, j);
  }

  /** Inserting `j` into row `r` at its sorted place inserts it into the
      layout at the row's offset plus the number of smaller entries `m`. */
  lemma InsertIntoLayout(rows: seq<seq<int>>, r: nat, m: nat, j: int)
    requires r < |rows| && StrictlySorted(rows[r]) && m <= |rows[r]|
    requires forall q :: 0 <= q < m ==> rows[r][q] < j
    requires m < |rows[r]| ==> j < rows[r][m]
    ensures 0 <= Offsets(rows)[r] && Offsets(rows)[r] + m <= |Flatten(rows)|
    ensures Flatten(rows[r := InsertSorted(rows[r], j)])
            == Flatten(rows)[..Offsets(rows)[r] + m] + [j] + Flatten(rows)[Offsets(rows)[r] + m..]
  {
    InsertSortedAt(rows[r], m, j);
    OffsetIsStart(rows, r);
    SpliceRow(rows, r, m, j);
  }

  /** A position `p` of the flattened layout, inside row `row`, after every
      entry of the row below `j` and before the others, is position
      `p - Offsets(rows)[row]` of the row itself with the same property. */
  lemma PositionInRow(rows: seq<seq<int>>, cols: seq<int>, row: int, j: int, p: int)
    requires cols == Flatten(rows) && 0 <= row < |rows|
    requires 0 <= Offsets(rows)[row] <= p <= Offsets(rows)[row + 1] <= |cols|
    requires forall q :: Offsets(rows)[row] <= q < p ==> cols[q] < j
    requires p < Offsets(rows)[row + 1] ==> cols[p] >= j
    ensures p - Offsets(rows)[row] <= |rows[row]|
    ensures forall q :: 0 <= q < p - Offsets(rows)[row] ==> rows[row][q] < j
    ensures p - Offsets(rows)[row] < |rows[row]| ==> rows[row][p - Offsets(rows)[row]] >= j
  {
    RowSlice(rows, row);
    var start := Offsets(rows)[row];
    assert forall q :: 0 <= q < |rows[row]| ==> rows[row][q] == cols[start + q];
  }

  /** Inserting a new column `j` into row `row` of a well-formed layout
      `cols`, at the first position `p` of the row whose entry is not below
      `j`: the rows stay well formed, the diagonal of `row` moves right when
      `j` is below it, and the new layout is `cols` with `j` spliced in at `p`. */
  lemma InsertIntoRows(rows: seq<seq<int>>, diag: seq<int>, dim: int, cols: seq<int>, row: int, j: int, p: int)
    requires WellFormedRows(rows, diag, dim) && cols == Flatten(rows)
    requires 0 <= row < dim && 0 <= j < dim && j != row && j !in rows[row]
    requires 0 <= Offsets(rows)[row] <= p <= Offsets(rows)[row + 1] <= |cols|
    requires forall q :: Offsets(rows)[row] <= q < p ==> cols[q] < j
    requires p < Offsets(rows)[row + 1] ==> cols[p] >= j
    ensures WellFormedRows(rows[row := InsertSorted(rows[row], j)],
                           diag[row := diag[row] + if j < row then 1 else 0], dim)
    ensures cols[..p] + [j] + cols[p..] == Flatten(rows[row := InsertSorted(rows[row], j)])
  {
    PositionInRow(rows, cols, row, j, p);
    var m := p - Offsets(rows)[row];
    assert m < |rows[row]| ==> j < rows[row][m] by {
      assert m < |rows[row]| ==> rows[row][m] in rows[row];
    }
    InsertIntoLayout(rows, row, m, j);
    InsertKeepsRowsWellFormed(rows, diag, dim, row, j);
  }

  /** The elements of a strictly sorted row are pairwise distinct, so there
      are as many of them as the row is long. */
  lemma {:induction false} DistinctCount(s: seq<int>)
    requires StrictlySorted(s)
    ensures |set x | x in s| == |s|
  {
    if s != [] {
      var t := s[1..];
      DistinctCount(t);
      assert (set x | x in s) == {s[0]} + (set x | x in t);
      assert s[0] !in (set x | x in t);
    }
  }

  /** The identity layout: row `r` holds only `r`. */
  lemma {:induction false} FlattenSingletons(rows: seq<seq<int>>)
    requires forall r :: 0 <= r < |rows| ==> rows[r] == [r]
    ensures |Flatten(rows)| == |rows|
    ensures forall r :: 0 <= r < |rows| ==> Flatten(rows)[r] == r
  {
    if rows != [] {
      FlattenSingletons(rows[..|rows| - 1]);
    }
  }
}
