/** The match-graph program's entry point: reading the command line into a
    configuration (or one of the exits that stop the program), and the
    fixed-count loop that seeds the graph once and then, every iteration,
    selects a batch of pairs, has them compared and folds the results into
    the graph.

    Command-line tokens are taken as already converted: each argument
    carries its text and the values `atoi` and `atof` give for it. The
    number of images the image loader finds, the initial batch the
    initializer compares and the batches the estimator selects and the
    comparator resolves are parameters. */
module Driver {
  import opened Labels
  import opened SparseGraph

  /** One command-line argument: its text, its value as read by `atoi`, and
      its value as read by `atof` once narrowed to the program's `float`. */
  datatype Arg = Arg(text: string, asInt: int, asReal: real)

  /** The confidence estimator that selects the pairs to compare. */
  datatype Estimator = Opt | Max

  /** The settings the program runs with. `kOutOfRange` records the
      warning that random mode prints for `k` outside `[1, dim]`, after
      which the run goes on. */
  datatype Config = Config(
    randomMode: bool,
    dir: string,
    ext: string,
    dim: int,
    iter: int,
    k: int,
    lambda: real,
    logFile: string,
    randStep: int,
    est: int,
    kOutOfRange: bool)

  /** How reading the command line ends: one of the failure exits, or the
      configuration to run with. */
  datatype Startup =
    | Usage                // too few arguments: the usage text is printed
    | DimensionTooSmall    // random mode with a dimension below 2
    | NoImages             // fewer than 2 images found
    | BadIterations        // an iteration count below 1
    | BadLambda            // lambda outside [0, 1]
    | Start(cfg: Config)

  const DefaultLogFile: string := "log/matchGraph.log"

  /** The exits shared by both modes, checked in this order once the
      mode-specific arguments are read. */
  function Checked(c: Config): (s: Startup)
    ensures s.Start? <==> c.iter >= 1 && 0.0 <= c.lambda <= 1.0
    ensures s.Start? ==> s.cfg == c
    ensures c.iter < 1 ==> s == BadIterations
  {
    if c.iter < 1 then BadIterations
    else if c.lambda < 0.0 || c.lambda > 1.0 then BadLambda
    else Start(c)
  }

  /** What the command line `argv` (program name first) leads to, read by
      position. Random mode (`-r <dim> <k> <iter> [<lambda>] [<est>]`) takes
      its dimension from the command line; image mode
      (`<path> <ext> <iter> [<k>] [<lambda>] [<logDir>] [<randStep>] [<est>]`)
      runs over the `numImages` images found. */
  function StartupOf(argv: seq<Arg>, numImages: int): Startup
  {
    var argc := |argv|;
    if argc < 4 then Usage
    else if argv[1].text == "-r" then
      if argc < 5 then Usage
      else if argv[2].asInt < 2 then DimensionTooSmall
      else
        var dim, k := argv[2].asInt, argv[3].asInt;
        Checked(Config(
          randomMode := true,
          dir := argv[1].text,
          ext := "",
          dim := dim,
          iter := argv[4].asInt,
          k := k,
          lambda := if argc > 5 then argv[5].asReal else 1.0,
          logFile := DefaultLogFile,
          randStep := 0,
          est := if argc > 6 then argv[6].asInt else 0,
          kOutOfRange := k > dim || k < 1))
    else if numImages < 2 then NoImages
    else
      Checked(Config(
        randomMode := false,
        dir := argv[1].text,
        ext := argv[2].text,
        dim := numImages,
        iter := argv[3].asInt,
        k := if argc > 4 then argv[4].asInt else numImages / 2,
        lambda := if argc > 5 then argv[5].asReal else 1.0,
        logFile := if argc > 6 then argv[6].text else DefaultLogFile,
        randStep := if argc > 7 then argv[7].asInt else 0,
        est := if argc > 8 then argv[8].asInt else 0,
        kOutOfRange := false))
  }

  /** Reads the command line with an argument cursor, the way the program
      does: each optional argument is taken only when `argc` shows it is
      there. Returns the outcome and the final cursor. */
  method ParseArguments(argv: seq<Arg>, numImages: int) returns (startup: Startup, acount: nat)
    ensures startup == StartupOf(argv, numImages)
    ensures acount <= |argv|
    ensures startup.Start? ==> acount == if startup.cfg.randomMode then Min(|argv|, 7) else Min(|argv|, 9)
  {
    var argc := |argv|;
    if argc < 4 {
      return Usage, Min(argc, 1);
    }
    acount := 1;
    var dir := argv[acount].text;
    acount := acount + 1;

    var randomMode := false;
    var ext := "";
    var dim := -1;
    var iter := 1;
    var k := 1;
    var lambdaArg := 1.0;
    var logFile := DefaultLogFile;
    var randStep := 0;
    var est := 0;
    var kOutOfRange := false;

    if dir == "-r" {
      if argc < 5 {
        return Usage, acount;
      }
      randomMode := true;
      dim := argv[acount].asInt;
      acount := acount + 1;
      if dim < 2 {
        return DimensionTooSmall, acount;
      }
      k := argv[acount].asInt;
      acount := acount + 1;
      if k > dim || k < 1 {
        kOutOfRange := true;
      }
      iter := argv[acount].asInt;
      acount := acount + 1;
      if argc > 5 {
        lambdaArg := argv[acount].asReal;
        acount := acount + 1;
      }
      if argc > 6 {
        est := argv[acount].asInt;
        acount := acount + 1;
      }
    } else {
      ext := argv[acount].text;
      acount := acount + 1;
      if numImages < 2 {
        return NoImages, acount;
      }
      dim := numImages;
      iter := argv[acount].asInt;
      acount := acount + 1;
      if argc > 4 {
        k := argv[acount].asInt;
        acount := acount + 1;
      } else {
        k := numImages / 2;
      }
      if argc > 5 {
        lambdaArg := argv[acount].asReal;
        acount := acount + 1;
      }
      if argc > 6 {
        logFile := argv[acount].text;
        acount := acount + 1;
      }
      if argc > 7 {
        randStep := argv[acount].asInt;
        acount := acount + 1;
      }
      if argc > 8 {
        est := argv[acount].asInt;
        acount := acount + 1;
      }
    }
    if iter < 1 {
      return BadIterations, acount;
    }
    if lambdaArg < 0.0 || lambdaArg > 1.0 {
      return BadLambda, acount;
    }
    startup := Start(Config(randomMode, dir, ext, dim, iter, k, lambdaArg, logFile, randStep, est, kOutOfRange));
  }

  function Min(a: int, b: int): int
  {
    if a < b then a else b
  }

  /** With fewer than four arguments (program name included) nothing else
      is looked at. */
  lemma FewArgumentsPrintUsage(argv: seq<Arg>, numImages: int)
    requires |argv| < 4
    ensures StartupOf(argv, numImages) == Usage
  {
  }

  /** Random mode needs at least five arguments and a dimension of at least 2. */
  lemma RandomModeExits(argv: seq<Arg>, numImages: int)
    requires |argv| >= 4 && argv[1].text == "-r"
    ensures |argv| < 5 ==> StartupOf(argv, numImages) == Usage
    ensures |argv| >= 5 && argv[2].asInt < 2 ==> StartupOf(argv, numImages) == DimensionTooSmall
  {
  }

  /** Every configuration the program runs with passed the checks: at
      least one iteration, lambda in `[0, 1]`, at least two items. Random
      mode never reads a random-step setting, and only random mode warns
      about `k`. */
  lemma StartedConfigIsChecked(argv: seq<Arg>, numImages: int)
    requires StartupOf(argv, numImages).Start?
    ensures var c := StartupOf(argv, numImages).cfg;
            && c.iter >= 1
            && 0.0 <= c.lambda <= 1.0
            && c.dim >= 2
            && (c.randomMode ==> c.randStep == 0 && (c.kOutOfRange <==> !(1 <= c.k <= c.dim)))
            && (!c.randomMode ==> c.dim == numImages && !c.kOutOfRange)
  {
  }

  /** In random mode a `k` outside `[1, dim]` does not stop the run: once
      the dimension, the iteration count and lambda pass, the program starts
      with the `k` it was given. */
  lemma KOutOfRangeOnlyWarns(argv: seq<Arg>, numImages: int)
    requires |argv| >= 5 && argv[1].text == "-r"
    requires argv[2].asInt >= 2 && argv[4].asInt >= 1
    requires |argv| > 5 ==> 0.0 <= argv[5].asReal <= 1.0
    ensures StartupOf(argv, numImages).Start?
    ensures StartupOf(argv, numImages).cfg.k == argv[3].asInt
  {
  }

  /** Image mode never range-checks `k`, and when `k` is not given it is
      half the number of images, rounded down; all other optional settings
      keep their defaults. */
  lemma ImageModeDefaults(argv: seq<Arg>, numImages: int)
    requires |argv| == 4 && argv[1].text != "-r"
    requires numImages >= 2 && argv[3].asInt >= 1
    ensures StartupOf(argv, numImages).Start?
    ensures var c := StartupOf(argv, numImages).cfg;
            && c.k == numImages / 2 && c.k >= 1
            && c.lambda == 1.0 && c.logFile == DefaultLogFile && c.randStep == 0 && c.est == 0
  {
  }

  /** Random mode with only the required arguments keeps the defaults. */
  lemma RandomModeDefaults(argv: seq<Arg>, numImages: int)
    requires |argv| == 5 && argv[1].text == "-r"
    requires argv[2].asInt >= 2 && argv[4].asInt >= 1
    ensures StartupOf(argv, numImages).Start?
    ensures var c := StartupOf(argv, numImages).cfg;
            c.lambda == 1.0 && c.logFile == DefaultLogFile && c.randStep == 0 && c.est == 0
  {
  }

  /** The iteration count is checked before lambda, in both modes. */
  lemma IterationsCheckedFirst(argv: seq<Arg>, numImages: int)
    requires |argv| >= 4
    requires argv[1].text == "-r" ==> |argv| >= 5 && argv[2].asInt >= 2 && argv[4].asInt < 1
    requires argv[1].text != "-r" ==> numImages >= 2 && argv[3].asInt < 1
    ensures StartupOf(argv, numImages) == BadIterations
  {
  }

  /** `est == 0` selects the OPT estimator, any other value the Max one. */
  function EstimatorFor(est: int): (e: Estimator)
    ensures e == Opt <==> est == 0
  {
    if est == 0 then Opt else Max
  }

  /** A step of the run, as the trace of a run records it. */
  datatype Event =
    | Initialize(batchSize: int)
    | RandomStep(est: Estimator, k: int)
    | KBestStep(est: Estimator, k: int)
    | Compare(k: int)
    | Update(k: int)

  /** Iteration `i` draws random pairs exactly when random steps are on and
      `i` is a multiple of the random-step period (`i` is never negative,
      so the remainder agrees with C's `%`). */
  predicate IsRandomStep(i: nat, randStep: int)
  {
    randStep > 0 && i % randStep == 0
  }

  function SelectEvent(i: nat, k: int, randStep: int, est: Estimator): Event
  {
    if IsRandomStep(i, randStep) then RandomStep(est, k) else KBestStep(est, k)
  }

  /** What iteration `i` does: the first one seeds the graph first, then
      every iteration selects, compares and updates, all with batch size `k`. */
  function IterationEvents(i: nat, k: int, randStep: int, est: Estimator): seq<Event>
  {
    (if i == 0 then [Initialize(k)] else []) + [SelectEvent(i, k, randStep, est), Compare(k), Update(k)]
  }

  /** The events of the first `n` iterations, in order. */
  function Schedule(n: nat, k: int, randStep: int, est: Estimator): seq<Event>
  {
    if n == 0 then [] else Schedule(n - 1, k, randStep, est) + IterationEvents(n - 1, k, randStep, est)
  }

  /** One initialization plus three events per iteration. */
  lemma {:induction false} ScheduleLength(n: nat, k: int, randStep: int, est: Estimator)
    ensures |Schedule(n, k, randStep, est)| == if n == 0 then 0 else 3 * n + 1
  {
    if n > 0 {
      ScheduleLength(n - 1, k, randStep, est);
    }
  }

  /** The run starts with the initialization, with batch size `k`, and
      iteration `i` is at positions `3i+1` (selection), `3i+2` (comparison)
      and `3i+3` (update). */
  lemma {:induction false} ScheduleEvents(n: nat, k: int, randStep: int, est: Estimator, i: nat)
    requires i < n
    ensures |Schedule(n, k, randStep, est)| == 3 * n + 1
    ensures Schedule(n, k, randStep, est)[0] == Initialize(k)
    ensures Schedule(n, k, randStep, est)[3 * i + 1] == SelectEvent(i, k, randStep, est)
    ensures Schedule(n, k, randStep, est)[3 * i + 2] == Compare(k)
    ensures Schedule(n, k, randStep, est)[3 * i + 3] == Update(k)
  {
    ScheduleLength(n, k, randStep, est);
    ScheduleLength(n - 1, k, randStep, est);
    if n > 1 {
      ScheduleEvents(n - 1, k, randStep, est, if i < n - 1 then i else 0);
    }
  }

  /** Initialization happens once: nowhere after the first event. */
  lemma {:induction false} InitializeOnlyFirst(n: nat, k: int, randStep: int, est: Estimator)
    ensures forall p :: 0 < p < |Schedule(n, k, randStep, est)| ==> !Schedule(n, k, randStep, est)[p].Initialize?
  {
    if n > 0 {
      InitializeOnlyFirst(n - 1, k, randStep, est);
      ScheduleLength(n - 1, k, randStep, est);
    }
  }

  /** With random steps on, the first iteration is a random one; with them
      off, no iteration is. */
  lemma RandomStepRule(n: nat, k: int, randStep: int, est: Estimator)
    requires n > 0
    ensures |Schedule(n, k, randStep, est)| == 3 * n + 1
    ensures randStep > 0 ==> Schedule(n, k, randStep, est)[1] == RandomStep(est, k)
    ensures randStep <= 0 ==> forall i :: 0 <= i < n ==> Schedule(n, k, randStep, est)[3 * i + 1] == KBestStep(est, k)
  {
    ScheduleEvents(n, k, randStep, est, 0);
    if randStep <= 0 {
      forall i | 0 <= i < n
        ensures Schedule(n, k, randStep, est)[3 * i + 1] == KBestStep(est, k)
      {
        ScheduleEvents(n, k, randStep, est, i);
      }
    }
  }

  /** The pairs of one batch and their comparison results (non-zero means
      similar). */
  datatype Batch = Batch(idx1: seq<int>, idx2: seq<int>, res: seq<int>)

  predicate Holds(b: Batch, k: int)
  {
    0 <= k <= |b.idx1| && k <= |b.idx2| && k <= |b.res|
  }

  /** The label of `(a, x)` after the graph over `dim` items is updated with
      the first `k` results of batch `b`: a batch holding an invalid pair is
      refused as a whole and changes nothing. */
  ghost function Applied(before: Label, a: int, x: int, b: Batch, k: int, dim: int): (l: Label)
    requires Holds(b, k)
  {
    if BatchInRange(b.idx1, b.idx2, k, dim) then BatchLabel(before, a, x, b.idx1, b.idx2, b.res, k) else before
  }

  /** Every batch of `bs` holds `k` pairs. */
  predicate AllHold(bs: seq<Batch>, k: int)
  {
    forall i :: 0 <= i < |bs| ==> Holds(bs[i], k)
  }

  /** The label of `(a, x)` after the batches `bs` are applied in order. */
  ghost function AppliedAll(before: Label, a: int, x: int, bs: seq<Batch>, k: int, dim: int): Label
    requires AllHold(bs, k)
  {
    if bs == [] then before
    else Applied(AppliedAll(before, a, x, bs[..|bs| - 1], k, dim), a, x, bs[|bs| - 1], k, dim)
  }

  /** The batches the first `n` iterations apply: the initial batch, then
      one selected batch per iteration. */
  function Played(initBatch: Batch, batches: seq<Batch>, n: nat): (bs: seq<Batch>)
    requires n <= |batches|
    ensures |bs| == if n == 0 then 0 else n + 1
    ensures n > 0 ==> bs[0] == initBatch && forall i :: 0 <= i < n ==> bs[i + 1] == batches[i]
  {
    if n == 0 then [] else [initBatch] + batches[..n]
  }

  /** Applying one more batch is one `Applied` step after the others. */
  lemma AppliedAllSnoc(before: Label, a: int, x: int, bs: seq<Batch>, b: Batch, k: int, dim: int)
    requires AllHold(bs, k) && Holds(b, k)
    ensures AllHold(bs + [b], k)
    ensures AppliedAll(before, a, x, bs + [b], k, dim) == Applied(AppliedAll(before, a, x, bs, k, dim), a, x, b, k, dim)
  {
    assert (bs + [b])[..|bs|] == bs;
  }

  /** The batches of `n + 1` iterations are those of `n` iterations and the
      batch of iteration `n`, preceded by the initial batch when `n` is 0. */
  lemma PlayedStep(initBatch: Batch, batches: seq<Batch>, n: nat)
    requires n < |batches|
    ensures Played(initBatch, batches, n + 1)
            == (if n == 0 then [initBatch] else Played(initBatch, batches, n)) + [batches[n]]
  {
    if n > 0 {
      assert batches[..n + 1] == batches[..n] + [batches[n]];
    }
  }

  /** The batches of one more iteration still hold `k` pairs each. */
  lemma PlayedHold(initBatch: Batch, batches: seq<Batch>, n: nat, k: int)
    requires n < |batches| && Holds(initBatch, k) && Holds(batches[n], k)
    requires AllHold(Played(initBatch, batches, n), k)
    ensures AllHold(Played(initBatch, batches, n + 1), k)
  {
    PlayedStep(initBatch, batches, n);
  }

  /** The labels after `n + 1` iterations are those after `n` iterations with
      iteration `n`'s batches applied: the initial batch and then the
      selected one when `n` is 0, the selected one alone otherwise. */
  lemma PlayedApplied(start: Label, before: Label, a: int, x: int, initBatch: Batch, batches: seq<Batch>, n: nat, k: int, dim: int)
    requires n < |batches| && Holds(initBatch, k) && Holds(batches[n], k)
    requires AllHold(Played(initBatch, batches, n), k)
    requires before == AppliedAll(start, a, x, Played(initBatch, batches, n), k, dim)
    ensures AllHold(Played(initBatch, batches, n + 1), k)
    ensures AppliedAll(start, a, x, Played(initBatch, batches, n + 1), k, dim)
            == if n == 0 then Applied(Applied(before, a, x, initBatch, k, dim), a, x, batches[n], k, dim)
               else Applied(before, a, x, batches[n], k, dim)
  {
    PlayedStep(initBatch, batches, n);
    if n == 0 {
      AppliedAllSnoc(start, a, x, [], initBatch, k, dim);
      assert [] + [initBatch] == [initBatch];
      AppliedAllSnoc(start, a, x, [initBatch], batches[0], k, dim);
    } else {
      AppliedAllSnoc(start, a, x, Played(initBatch, batches, n), batches[n], k, dim);
    }
  }

  /** Applying batches never changes a label that is already known. */
  lemma {:induction false} AppliedAllKeepsKnown(before: Label, a: int, x: int, bs: seq<Batch>, k: int, dim: int)
    requires AllHold(bs, k) && before != Unknown
    ensures AppliedAll(before, a, x, bs, k, dim) == before
  {
    if bs != [] {
      AppliedAllKeepsKnown(before, a, x, bs[..|bs| - 1], k, dim);
    }
  }

  /** The main loop: iteration 0 first seeds the graph with `initBatch`;
      every iteration `i` then selects `batches[i]` (randomly or by
      confidence), has it compared and applies it to the graph. The labels
      at the end are those of applying the initial batch and each
      iteration's batch in order; so labels only accumulate, and the number
      of similar pairs never falls. */
  method RunIterations(g: GPUSparse, iterations: nat, kBest: int, randStep: int, est: Estimator,
                       initBatch: Batch, batches: seq<Batch>) returns (trace: seq<Event>)
    requires g.Valid()
    requires Holds(initBatch, kBest)
    requires |batches| >= iterations && forall i :: 0 <= i < iterations ==> Holds(batches[i], kBest)
    modifies g
    ensures g.Valid()
    ensures trace == Schedule(iterations, kBest, randStep, est)
    ensures AllHold(Played(initBatch, batches, iterations), kBest)
    ensures forall a, x ::
              g.LabelOf(a, x) == AppliedAll(old(g.LabelOf(a, x)), a, x, Played(initBatch, batches, iterations), kBest, g.dim)
    ensures g.numSimilar >= old(g.numSimilar)
    ensures forall a, b :: old(g.LabelOf(a, b)) != Unknown ==> g.LabelOf(a, b) == old(g.LabelOf(a, b))
  {
    ghost var adj0, m0 := g.adj, g.dissimilarMap;
    trace := [];
    var i := 0;
    while i < iterations
      invariant 0 <= i <= iterations
      invariant g.Valid()
      invariant trace == Schedule(i, kBest, randStep, est)
      invariant AllHold(Played(initBatch, batches, i), kBest)
      invariant forall a, x ::
                  g.LabelOf(a, x) == AppliedAll(PairLabel(adj0, m0, a, x), a, x, Played(initBatch, batches, i), kBest, g.dim)
      invariant g.numSimilar >= old(g.numSimilar)
    {
      var events := PlayIteration(g, i, kBest, randStep, est, initBatch, batches, adj0, m0);
      trace := trace + events;
      i := i + 1;
    }
    forall a, b | old(g.LabelOf(a, b)) != Unknown
      ensures g.LabelOf(a, b) == old(g.LabelOf(a, b))
    {
      AppliedAllKeepsKnown(old(g.LabelOf(a, b)), a, b, Played(initBatch, batches, iterations), kBest, g.dim);
    }
  }

  /** Iteration `n` of the main loop, with its effect on the labels stated
      against the labels `(adj0, m0)` the loop started from. */
  method PlayIteration(g: GPUSparse, n: nat, kBest: int, randStep: int, est: Estimator,
                       initBatch: Batch, batches: seq<Batch>, ghost adj0: seq<seq<int>>, ghost m0: map<int, set<int>>)
    returns (events: seq<Event>)
    requires g.Valid() && n < |batches| && Holds(initBatch, kBest) && Holds(batches[n], kBest)
    requires AllHold(Played(initBatch, batches, n), kBest)
    requires forall a, x ::
               g.LabelOf(a, x) == AppliedAll(PairLabel(adj0, m0, a, x), a, x, Played(initBatch, batches, n), kBest, g.dim)
    modifies g
    ensures g.Valid()
    ensures events == IterationEvents(n, kBest, randStep, est)
    ensures AllHold(Played(initBatch, batches, n + 1), kBest)
    ensures forall a, x ::
              g.LabelOf(a, x) == AppliedAll(PairLabel(adj0, m0, a, x), a, x, Played(initBatch, batches, n + 1), kBest, g.dim)
    ensures g.numSimilar >= old(g.numSimilar)
  {
    events := RunIteration(g, n, kBest, randStep, est, initBatch, batches[n]);
    PlayedHold(initBatch, batches, n, kBest);
    forall a, x
      ensures g.LabelOf(a, x) == AppliedAll(PairLabel(adj0, m0, a, x), a, x, Played(initBatch, batches, n + 1), kBest, g.dim)
    {
      PlayedApplied(PairLabel(adj0, m0, a, x), old(g.LabelOf(a, x)), a, x, initBatch, batches, n, kBest, g.dim);
    }
  }

  /** Iteration `i` of the main loop, returning the events it performs: the
      initial batch is applied first when `i` is 0, then the iteration's
      batch. */
  method RunIteration(g: GPUSparse, i: nat, kBest: int, randStep: int, est: Estimator,
                      initBatch: Batch, batch: Batch) returns (events: seq<Event>)
    requires g.Valid() && Holds(initBatch, kBest) && Holds(batch, kBest)
    modifies g
    ensures g.Valid()
    ensures events == IterationEvents(i, kBest, randStep, est)
    ensures i == 0 ==> forall a, x ::
              g.LabelOf(a, x)
              == Applied(Applied(old(g.LabelOf(a, x)), a, x, initBatch, kBest, g.dim), a, x, batch, kBest, g.dim)
    ensures i != 0 ==> forall a, x :: g.LabelOf(a, x) == Applied(old(g.LabelOf(a, x)), a, x, batch, kBest, g.dim)
    ensures g.numSimilar >= old(g.numSimilar)
  {
    events := [];
    if i == 0 {
      ApplyBatch(g, initBatch, kBest);
      events := events + [Initialize(kBest)];
    }
    if IsRandomStep(i, randStep) {
      events := events + [RandomStep(est, kBest)];
    } else {
      events := events + [KBestStep(est, kBest)];
    }
    events := events + [Compare(kBest)];
    ApplyBatch(g, batch, kBest);
    events := events + [Update(kBest)];
  }

  /** Applies the first `k` results of a batch to the graph. */
  method ApplyBatch(g: GPUSparse, b: Batch, k: int)
    requires g.Valid() && Holds(b, k)
    modifies g
    ensures g.Valid()
    ensures forall a, x :: g.LabelOf(a, x) == Applied(old(g.LabelOf(a, x)), a, x, b, k, g.dim)
    ensures g.numSimilar >= old(g.numSimilar)
  {
    var _ := g.UpdateSparseStatus(b.idx1, b.idx2, b.res, k);
  }

  /** Everything a started run needs from its collaborators: batches of
      `k` pairs for the initialization and for each iteration. */
  predicate RunFits(c: Config, initBatch: Batch, batches: seq<Batch>)
  {
    && Holds(initBatch, c.k)
    && c.iter <= |batches|
    && forall i :: 0 <= i < c.iter ==> Holds(batches[i], c.k)
  }

  /** The program: read the command line, stop at a failed check, or build
      a graph over `dim` items with the given lambda, choose the estimator
      and run the configured number of iterations. */
  method Run(argv: seq<Arg>, numImages: int, initBatch: Batch, batches: seq<Batch>)
    returns (startup: Startup, trace: seq<Event>)
    requires StartupOf(argv, numImages).Start? ==> RunFits(StartupOf(argv, numImages).cfg, initBatch, batches)
    ensures startup == StartupOf(argv, numImages)
    ensures !startup.Start? ==> trace == []
    ensures startup.Start? ==>
      trace == Schedule(startup.cfg.iter, startup.cfg.k, startup.cfg.randStep, EstimatorFor(startup.cfg.est))
  {
    var acount;
    startup, acount := ParseArguments(argv, numImages);
    if !startup.Start? {
      return startup, [];
    }
    StartedConfigIsChecked(argv, numImages);
    var c := startup.cfg;
    var g := new GPUSparse(c.dim, c.lambda);
    var est := EstimatorFor(c.est);
    trace := RunIterations(g, c.iter, c.k, c.randStep, est, initBatch, batches);
  }
}
