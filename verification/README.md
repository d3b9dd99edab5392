# MatchGraph: the sparse match graph and the driver loop

MatchGraph finds out which pairs of images are similar without comparing
every pair. It keeps a *match graph* over `dim` items, in which every pair
is labelled similar, dissimilar or unknown. Each round, an estimator picks
`k` unknown pairs, a comparator decides them, and the results are folded
back into the graph.

This project models two parts of that program in Dafny and proves
properties about them.

**The graph store, `GPUSparse`** (`gpu_sparse.dfy`, module `SparseGraph`).
It is a class whose fields the methods update in place:

- `numSimilar` counts the similar pairs.
- Similar pairs are stored symmetrically in a compressed-sparse-row layout:
  - `degrees` holds the row lengths;
  - `rowPtr` holds the row offsets: `[0]` followed by the running sums of
    the degrees;
  - `colIdx` holds the column indices; every row is strictly sorted and
    holds its own diagonal entry;
  - `diagPos` gives the position of that diagonal entry in each row.
- Dissimilar pairs are kept apart in `dissimilarMap`, recorded in both
  directions.
- A ghost field `adj` holds the rows as a sequence of sequences. `Valid()`
  ties the stored arrays to it and states the invariants:
  - symmetric storage;
  - offsets are the running sums of the degrees;
  - every row holds its diagonal;
  - `2 * numSimilar + dim` entries are stored;
  - `numSimilar` is the number of unordered similar pairs;
  - no pair is both similar and dissimilar.
- `LabelOf(a, b)` is the abstract label of a pair. Every mutator states how
  it changes `LabelOf`, using the pure label algebra in `labels.dfy`
  (module `Labels`).

Three modules support the store:

- `prefix_sums.dfy` (module `PrefixSums`) has the running-sum reference
  definitions.
- `csr.dfy` (module `Csr`) has the layout algebra: flattening rows,
  offsets, and sorted insertion spliced into the flat layout.
- `labels.dfy` (module `Labels`) has the label algebra used above.

**The driver, `main`** (`driver.dfy`, module `Driver`).

- Reading the command line: two modes, the argument cursor, defaults, and
  the fatal exits (plus the one warning that does not stop the run).
- Choosing the estimator.
- The main loop: the graph is seeded once in iteration 0. Every iteration
  then does one random or k-best selection, one comparison and one update.

`StartupOf` reads the command line by position and serves as the reference.
`ParseArguments` follows the program's cursor and is proved equal to it.
`Schedule` is the event trace of a run, and `RunIterations` is proved to
produce it. It is also proved to leave the graph labelled as if the initial
batch and then each iteration's batch were applied in order (`AppliedAll`
over `Played`), with the graph keeping its invariants.

The implementation of `GPUSparse` is not modelled. The behaviours below are
the model's choices, made from the header's declarations and comments:

- A row's degree counts its diagonal entry, so that the prefix sum of the
  degrees gives the row offsets.
- `set` on an out-of-range pair or on `i == j` reports `InvalidIndex` and
  changes nothing.
- `set` on a pair that is already labelled leaves it as it is. Labels are
  only ever added.
- `updateSparseStatus` treats a non-zero result as similar. It rejects a
  batch holding an invalid pair as a whole, before changing anything. When
  the same pair is reported both similar and dissimilar in one batch,
  similar wins.
- The dissimilar pairs of a batch reach `handleDissimilar` in one buffer:
  all first items, then all second items.

The model's constructor does not reject `dim < 2` or a lambda outside
`[0, 1]`. Those checks are made in `main` (`MatchGraph/src/Main.cpp:95-99`,
`:126-130`, `:169-173`).

## Model

| member | source | states |
|---|---|---|
| SparseGraph.GPUSparse.constructor | MatchGraph/src/GPUSparse.h:38 | a new graph is valid, keeps the given `dim` and `lambda` (both constant fields), has no similar pair, an empty dissimilar map, and every pair unknown |
| SparseGraph.GPUSparse.PrefixSumGPU | MatchGraph/src/GPUSparse.h:66 | the first `dimension` entries of `result` become the inclusive running sums of the old `input`; the rest of `result` is untouched; the returned pointer is `result`; works when `result` is `input` |
| SparseGraph.GPUSparse.UpdateRowPtr | MatchGraph/src/GPUSparse.h:26-27 | the row offsets become `[0]` followed by the running sums of the degrees, and nothing else changes |
| SparseGraph.GPUSparse.IncrementDegree | MatchGraph/src/GPUSparse.h:34 | only the degree of `row` changes, and it rises by one |
| SparseGraph.GPUSparse.AddNewToRow | MatchGraph/src/GPUSparse.h:32 | `j` is inserted at its sorted place in row `row` only; the layout stays well formed; the row and the layout grow by one; the diagonal position moves right exactly when `j` is below `row` |
| SparseGraph.GPUSparse.InsertPosition | MatchGraph/src/GPUSparse.h:32 | the position found lies inside row `row`, after every entry below `j` and before every other entry |
| SparseGraph.GPUSparse.AddDissimilarToColumn | MatchGraph/src/GPUSparse.h:33 | `row` is added to the dissimilar set of `column` (created if absent), and nothing else changes |
| SparseGraph.GPUSparse.GetVal | MatchGraph/src/GPUSparse.h:47 | for a valid pair, the stored label (similar if it is in the row, dissimilar if it is in the map, unknown otherwise); an index out of range or `i == j` is an `InvalidIndex` error |
| SparseGraph.GPUSparse.Set | MatchGraph/src/GPUSparse.h:43 | an invalid pair fails and changes nothing; otherwise only an unknown `(i, j)` changes, in both orders, to the reported label; the similar count rises by one exactly for a new similar pair; a dissimilar result leaves the sparse arrays untouched and a similar one leaves the map untouched; the invariant is kept |
| SparseGraph.GPUSparse.InsertSimilar | MatchGraph/src/GPUSparse.h:32-34 | a new similar pair goes into both rows; exactly that pair becomes similar; the count rises by one; the dissimilar map is untouched; the invariant is kept |
| SparseGraph.GPUSparse.InsertIntoRow | MatchGraph/src/GPUSparse.h:32-34 | adding to a row, raising its degree and rebuilding the offsets leaves the layout and the offsets consistent, with one more stored entry |
| SparseGraph.GPUSparse.InsertDissimilar | MatchGraph/src/GPUSparse.h:33 | recording a new dissimilar pair in both directions makes exactly that pair dissimilar and keeps the invariant |
| SparseGraph.GPUSparse.UpdateSparseStatus | MatchGraph/src/GPUSparse.h:39 | passes exactly when all `k` pairs are valid; then every pair's label becomes its batch label: known labels stay, a pair reported similar becomes similar, otherwise a pair reported dissimilar becomes dissimilar; on failure nothing changes; the similar count never falls; the invariant is kept |
| SparseGraph.GPUSparse.RecordSimilar | MatchGraph/src/GPUSparse.h:39 | after the loop, every label is the one the batch's similar results give it, and the count never falls |
| SparseGraph.GPUSparse.GatherDissimilar | MatchGraph/src/GPUSparse.h:39-40 | the gathered pairs are exactly the pairs the batch reports dissimilar, and there are at most `k` of them |
| SparseGraph.GPUSparse.HandleDissimilar | MatchGraph/src/GPUSparse.h:40 | every valid pair `(idxData[t], idxData[num + t])` that was unknown becomes dissimilar and no other label changes; the sparse arrays and the similar count are unchanged |
| SparseGraph.GPUSparse.GetSimilarities | MatchGraph/src/GPUSparse.h:23 | the result is the number of unordered similar pairs, and twice it plus `dim` is the number of stored entries |
| SparseGraph.GPUSparse.GetNNZ | MatchGraph/src/GPUSparse.h:63 | the last row offset is the number of stored entries: `2 * similarities + dim` |
| SparseGraph.GPUSparse.RowHoldsDiagonal | MatchGraph/src/GPUSparse.h:25-28 | the entry at the diagonal position of row `r` lies inside the row and is `r` |
| SparseGraph.GPUSparse.RowOffsetsNonDecreasing | MatchGraph/src/GPUSparse.h:26-27 | row offsets start at 0, never decrease, and end at the number of stored entries |
| SparseGraph.GPUSparse.DegreeCountsNeighbours | MatchGraph/src/GPUSparse.h:26 | the degree of a row is the number of items similar to it plus one (its diagonal) |
| SparseGraph.GPUSparse.GetValSymmetric | MatchGraph/src/GPUSparse.h:47 | `getVal(i, j)` equals `getVal(j, i)` |
| SparseGraph.GPUSparse.RowLayout | MatchGraph/src/GPUSparse.h:27-28 | row `r` lies between its two offsets in `colIdx`, which are the degree apart |
| SparseGraph.AddSimilarPair | MatchGraph/src/GPUSparse.h:23 | putting a new similar pair into both rows keeps storage symmetric and apart from the dissimilar pairs, and labels exactly that pair similar |
| SparseGraph.AddSimilarPairCounts | MatchGraph/src/GPUSparse.h:23 | a new similar pair adds exactly one unordered pair |
| SparseGraph.AddSimilarBoth | MatchGraph/src/GPUSparse.h:32 | only rows `i` and `j` change, each by the sorted insertion of the other |
| SparseGraph.AddDissimilarPair | MatchGraph/src/GPUSparse.h:30 | recording a new dissimilar pair both ways keeps dissimilar pairs apart from similar ones and labels exactly that pair dissimilar |
| SparseGraph.AddDissimilarBoth | MatchGraph/src/GPUSparse.h:30 | both directions of the pair are present afterwards, and only keys `i` and `j` can be added |
| Labels.Relabel | MatchGraph/src/GPUSparse.h:43 | a known label never changes; only the recorded pair changes; an unknown valid recorded pair becomes known |
| Labels.ResultIsReported | MatchGraph/src/GPUSparse.h:39 | the result of each batch pair is reported for that pair |
| Labels.ReportedIsBatchPair | MatchGraph/src/GPUSparse.h:39 | only pairs of the batch are reported |
| Labels.BatchDecidesItsPairs | MatchGraph/src/GPUSparse.h:39 | after a batch none of its pairs is unknown, and an unknown pair reported similar becomes similar |
| Labels.BatchLeavesOtherPairs | MatchGraph/src/GPUSparse.h:39 | a pair the batch does not mention keeps its label |
| Labels.SimilarLabelStep | MatchGraph/src/GPUSparse.h:39 | recording the similar result of one more valid pair is one `set(…, true)` step |
| Labels.DissimilarLabelStep | MatchGraph/src/GPUSparse.h:40 | recording one more pair as dissimilar is one `set(…, false)` step |
| Labels.BatchIsSimilarThenDissimilar | MatchGraph/src/GPUSparse.h:39-40 | for a valid batch, recording its similar results first and its dissimilar pairs afterwards gives the batch label |
| PrefixSums.RunningSums | MatchGraph/src/GPUSparse.h:66 | the running sums are as long as the input |
| PrefixSums.RunningSumsStep | MatchGraph/src/GPUSparse.h:66 | each running sum is the previous one plus the current element |
| PrefixSums.SumPrefixMonotone | MatchGraph/src/GPUSparse.h:26-27 | with non-negative elements, a longer prefix never has a smaller sum |
| PrefixSums.RunningSumsNonDecreasing | MatchGraph/src/GPUSparse.h:26-27 | running sums of non-negative degrees never decrease |
| PrefixSums.RunningSumsLast | MatchGraph/src/GPUSparse.h:63 | the last running sum is the total |
| PrefixSums.OffsetIsPrefixSum | MatchGraph/src/GPUSparse.h:27 | offset `r` is the sum of the first `r` degrees |
| Csr.FlattenLength | MatchGraph/src/GPUSparse.h:28 | the column array is as long as the sum of the row lengths |
| Csr.OffsetIsStart | MatchGraph/src/GPUSparse.h:27 | offset `r` is where row `r` starts in the column array |
| Csr.OffsetsLast | MatchGraph/src/GPUSparse.h:63 | the last offset is the number of stored entries |
| Csr.RowSlice | MatchGraph/src/GPUSparse.h:27-28 | the column array between offsets `r` and `r + 1` is row `r` |
| Csr.InsertSortedProps | MatchGraph/src/GPUSparse.h:32 | sorted insertion of a new column adds exactly that column, by one element, and keeps the row strictly sorted |
| Csr.InsertKeepsRowOK | MatchGraph/src/GPUSparse.h:25 | inserting a new in-range column keeps a row valid, with its diagonal one place further right when the column is below it |
| Csr.InsertIntoRows | MatchGraph/src/GPUSparse.h:32 | splicing `j` into the column array at the found position is the same as inserting it into the row, and the rows stay well formed |
| Csr.DistinctCount | MatchGraph/src/GPUSparse.h:26 | a strictly sorted row has as many distinct columns as entries |
| Csr.FlattenSingletons | MatchGraph/src/GPUSparse.h:38 | the initial layout of diagonal-only rows is `0, 1, …, dim - 1` |
| Driver.ParseArguments | MatchGraph/src/Main.cpp:64-173 | the cursor-based reading gives exactly the positional outcome `StartupOf`; the cursor never passes `argc`; a started run has consumed every argument of its mode (at most 7 in random mode, 9 in image mode) |
| Driver.Checked | MatchGraph/src/Main.cpp:164-173 | a run starts exactly when there is at least one iteration and lambda is in `[0, 1]`; too few iterations is reported first |
| Driver.FewArgumentsPrintUsage | MatchGraph/src/Main.cpp:64-68 | fewer than four arguments end in the usage exit |
| Driver.RandomModeExits | MatchGraph/src/Main.cpp:84-99 | random mode with fewer than five arguments is the usage exit, and a dimension below 2 is fatal |
| Driver.StartedConfigIsChecked | MatchGraph/src/Main.cpp:84-173 | every started run has at least one iteration, lambda in `[0, 1]` and at least two items; random mode has no random steps and warns exactly for `k` outside `[1, dim]`; image mode runs over the images found and never warns |
| Driver.KOutOfRangeOnlyWarns | MatchGraph/src/Main.cpp:101-107 | in random mode a `k` outside `[1, dim]` does not stop the run, which uses the given `k` |
| Driver.ImageModeDefaults | MatchGraph/src/Main.cpp:134-141 | image mode without `k` uses half the number of images, rounded down (at least 1), and every other default |
| Driver.RandomModeDefaults | MatchGraph/src/Main.cpp:76-82 | random mode with only the required arguments keeps lambda 1, the default log file, no random steps and estimator 0 |
| Driver.IterationsCheckedFirst | MatchGraph/src/Main.cpp:164-168 | an iteration count below 1 is fatal in both modes, with any number of arguments that reaches the check, whatever lambda is |
| Driver.EstimatorFor | MatchGraph/src/Main.cpp:215-218 | `est == 0` selects the OPT estimator, any other value the Max one |
| Driver.ScheduleLength | MatchGraph/src/Main.cpp:237-264 | a run of `n > 0` iterations has `3n + 1` events |
| Driver.ScheduleEvents | MatchGraph/src/Main.cpp:237-264 | the first event is the initialization with batch size `k`; iteration `i` is its selection, a comparison and an update with `k`, at positions `3i+1`, `3i+2` and `3i+3` |
| Driver.InitializeOnlyFirst | MatchGraph/src/Main.cpp:239-247 | initialization happens nowhere but first |
| Driver.RandomStepRule | MatchGraph/src/Main.cpp:257-260 | with random steps on, iteration 0 is a random step; with them off, every iteration is a k-best step |
| Driver.RunIterations | MatchGraph/src/Main.cpp:237-274 | the loop performs exactly the events of `Schedule`; every label ends as `AppliedAll` of its start label over the initial batch followed by the first `iterations` selected batches; the graph stays valid; labels once known never change; the similar count never falls |
| Driver.RunIteration | MatchGraph/src/Main.cpp:239-264 | one iteration performs exactly `IterationEvents(i)`; every label becomes `Applied` of the iteration's batch, after `Applied` of the initial batch when `i == 0`; the graph stays valid |
| Driver.ApplyBatch | MatchGraph/src/Main.cpp:264 | every label becomes the batch's `BatchLabel` when all `k` pairs are valid and stays as it was otherwise (`Applied`); the graph stays valid and the similar count never falls |
| Driver.Played | MatchGraph/src/Main.cpp:237-264 | the batches of `n > 0` iterations are the initial batch followed by the first `n` selected batches, `n + 1` in all; none for `n == 0` |
| Driver.PlayedStep | MatchGraph/src/Main.cpp:239-264 | one more iteration adds its own batch, preceded by the initial batch only for iteration 0 |
| Driver.AppliedAllSnoc | MatchGraph/src/Main.cpp:264 | applying one more batch is one `Applied` step after the earlier batches |
| Driver.PlayedApplied | MatchGraph/src/Main.cpp:239-264 | the labels after `n + 1` iterations are those after `n` iterations with the initial batch and then the selected batch applied for `n == 0`, the selected batch alone otherwise |
| Driver.PlayIteration | MatchGraph/src/Main.cpp:239-264 | an iteration run from labels that are `AppliedAll` over the first `n` iterations' batches leaves them `AppliedAll` over the first `n + 1`, performing `IterationEvents(n)` |
| Driver.AppliedAllKeepsKnown | MatchGraph/src/Main.cpp:237-264 | no sequence of batches changes a label that is already known |
| Driver.Run | MatchGraph/src/Main.cpp:41-264 | the program stops with the `StartupOf` outcome; a failed check runs nothing; a started run performs exactly the schedule for its iteration count, `k`, random-step period and chosen estimator |

## Left out

- The implementation file of `GPUSparse` is not part of this model. The
  behaviours listed above are modelled from the header's declarations and
  comments.
- Device memory: the arrays are sequences, so device pointers, host/device
  copies and the debug printers (`printGpuArray*`, `downloadGPUArray*`,
  `getColIdxDevice`, `getRowPtrDevice`) are left out.
- The floating-point value arrays and column extraction (`getValueArr`,
  `getValueArrDouble`, `getColumn`, `getColumnDouble`, `getConfMatrixF`).
  They feed the confidence solve of the estimators, which is not part of
  this model.
- `getMatrAsArray`, `getColIdx`, `getRowPtr`, `print` and `writeGML`:
  copies or exports of the stored state, and console or file output.
- `setRandom`: random filling of the graph. Randomness is not modelled.
- The default constructor `GPUSparse()`: it takes no dimension and its
  behaviour is not given.
- `getDimension` is modelled as `GetDimension` with no contract of its own.
  The dimension is a constant field fixed by the constructor.
- SparseGraph.GPUSparse.UpdateSparseStatus: the row offsets are rebuilt
  after each single row insertion, not once per batch. The final layout is
  the same, but the intermediate states of a per-batch rebuild are not
  modelled.
- SparseGraph.GPUSparse.UpdateSparseStatus: requires `k` to be non-negative
  and the three arrays to hold `k` entries. The program passes its `k` on
  unchecked.
- Driver.Run: requires a started run's `k` to be non-negative and the
  batches to hold `k` pairs. A negative `k` given in image mode, or in
  random mode after the warning, is not modelled.
- Unsigned and `int` wrap-around (`num_similar`, `dim`, row offsets) is not
  modelled: all counts are unbounded integers.
- `lambda` is a `float` in the program and a `real` here. It is only
  stored and range-checked. `Arg.asReal` stands for the value after `atof`'s
  double is narrowed to `float`, so an argument such as `1.00000005` that
  rounds to `1.0f` is modelled by its rounded value; the rounding itself is
  not modelled.
- Driver.StartedConfigIsChecked: "lambda in `[0, 1]`" holds of the
  real-valued model only. In the program `atof("nan")` gives NaN, both
  comparisons at `MatchGraph/src/Main.cpp:169` are false, and the run starts
  with a NaN lambda; NaN is not modelled.
- `atoi`/`atof`: each argument carries its converted values.
- `ImageHandler`: the number of images found in the directory is the
  parameter `numImages`. In random mode the handler is filled with `dim`
  empty images, so the graph has `dim` items.
- The initializer, the estimators and the comparator are collaborators
  whose code is not part of this model. Their effect on the graph is given
  as batches:
  - the initialization phase is one batch of `k` pairs applied through
    `updateSparseStatus`;
  - each iteration's selected and compared pairs are one batch.
- The comparator's random mode is not modelled.
- Clock reads and the runtime report, CUDA device setup and reset, `srand`,
  the usage and progress printing, and writing the log file
  (`logSimilarToFile`) are left out.
- The CPU branch of `main` (`#else`) is dead code with `GPU_VERSION 1` and
  is not modelled.
