/** time_algorithm and run_benchmarks of task_3.py: every (pattern, size, algorithm) cell
    is timed with timeit and becomes one row of the results table. Durations are not
    computed: the clock of the environment says what each repeat measured. */
module Benchmark {
  import opened Common
  import Datasets

  /** The entries of the ALGORITHMS dictionary, in its insertion order. */
  datatype Algorithm = Insertion | Merge | Timsort {
    /** The dictionary key, which is what a row records. */
    function Name(): (s: string)
      ensures s == "Insertion" <==> this == Insertion
    {
      match this
      case Insertion => "Insertion"
      case Merge => "Merge"
      case Timsort => "Timsort (built-in)"
    }
  }

  const ALGORITHMS: seq<Algorithm> := [Insertion, Merge, Timsort]

  /** Seeds of the small-size and the large-size datasets. */
  const SMALL_SEED: int := 123
  const LARGE_SEED: int := 777

  /** One row of the results table: {"pattern", "n", "algorithm", "time_sec"}. */
  datatype Row = Row(pattern: string, n: int, algorithm: string, time: real)

  /** What the outside world supplies: stream(seed) is random.Random(seed), and
      clock(c, k) is the duration (in seconds) that timeit measured for the k-th repeat
      of the c-th call of time_algorithm in a run. */
  datatype Env = Env(stream: int -> Datasets.Rng, clock: (nat, nat) -> real)

  /** min() of a non-empty list of durations. */
  function Min(s: seq<real>): real
    requires |s| > 0
  {
    if |s| == 1 then s[0]
    else
      var rest := Min(s[1..]);
      if s[0] <= rest then s[0] else rest
  }

  /** min() returns one of the durations, and none is smaller. */
  lemma {:induction false} MinIsLeast(s: seq<real>)
    requires |s| > 0
    ensures Min(s) in s
    ensures forall x :: x in s ==> Min(s) <= x
  {
    if |s| > 1 {
      MinIsLeast(s[1..]);
      assert forall x :: x in s ==> x == s[0] || x in s[1..];
    }
  }

  /** timer.repeat(repeat=repeats, number=1) for call c: one duration per repeat, none
      when repeats is not positive. */
  function Timings(env: Env, c: nat, repeats: int): seq<real> {
    seq(Datasets.Size(repeats), k requires 0 <= k => env.clock(c, k))
  }

  /** timer.repeat gives one duration per repeat, none when repeats < 1, and the k-th is
      the k-th repeat that call measured. */
  lemma TimingsAt(env: Env, c: nat, repeats: int)
    ensures |Timings(env, c, repeats)| == if repeats < 1 then 0 else repeats
    ensures forall k :: 0 <= k < |Timings(env, c, repeats)| ==> Timings(env, c, repeats)[k] == env.clock(c, k)
  {
  }

  /** time_algorithm as the c-th timing call of a run: the least of the measured
      durations; min() of the empty list raises. */
  function TimeAlgorithm(env: Env, c: nat, repeats: int): (r: Result<real, Error>)
    ensures r.Err? <==> repeats < 1
    ensures r.Err? ==> r.error == EmptyTimings
  {
    var ts := Timings(env, c, repeats);
    if |ts| == 0 then Err(EmptyTimings) else Ok(Min(ts))
  }

  /** time_algorithm reports the fastest of its repeats: a duration that some repeat
      measured, and no larger than any of them. */
  lemma TimeAlgorithmIsFastest(env: Env, c: nat, repeats: int)
    requires repeats >= 1
    ensures TimeAlgorithm(env, c, repeats).Ok?
    ensures exists k :: 0 <= k < repeats && TimeAlgorithm(env, c, repeats).value == env.clock(c, k)
    ensures forall k :: 0 <= k < repeats ==> TimeAlgorithm(env, c, repeats).value <= env.clock(c, k)
  {
    var ts := Timings(env, c, repeats);
    MinIsLeast(ts);
    forall k | 0 <= k < repeats
      ensures TimeAlgorithm(env, c, repeats).value <= env.clock(c, k)
    {
      assert ts[k] in ts && ts[k] == env.clock(c, k);
    }
    var k :| 0 <= k < |ts| && ts[k] == Min(ts);
    assert TimeAlgorithm(env, c, repeats).value == env.clock(c, k);
  }

  /** The algorithms of the dictionary whose key is not "Insertion", in order. */
  function WithoutInsertion(algs: seq<Algorithm>): seq<Algorithm> {
    if algs == [] then []
    else
      var last := algs[|algs| - 1];
      WithoutInsertion(algs[..|algs| - 1]) + (if last == Insertion then [] else [last])
  }

  /** The filter keeps every entry but insertion sort, and nothing else. */
  lemma {:induction false} WithoutInsertionMembers(algs: seq<Algorithm>)
    ensures forall a :: a in WithoutInsertion(algs) <==> a in algs && a != Insertion
  {
    if algs != [] {
      var init, last := algs[..|algs| - 1], algs[|algs| - 1];
      WithoutInsertionMembers(init);
      assert algs == init + [last];
    }
  }

  /** The algorithms timed on one dataset: all of them for a small size, all but
      insertion sort for a large one. */
  function Timed(large: bool, algs: seq<Algorithm>): seq<Algorithm> {
    if large then WithoutInsertion(algs) else algs
  }

  lemma LargeAlgorithms()
    ensures Timed(true, ALGORITHMS) == [Merge, Timsort]
    ensures Timed(false, ALGORITHMS) == [Insertion, Merge, Timsort]
  {
    assert ALGORITHMS[..2] == [Insertion, Merge];
    assert ALGORITHMS[..2][..1] == [Insertion];
    assert ALGORITHMS[..2][..1][..0] == [];
    assert WithoutInsertion([Insertion]) == [];
    assert WithoutInsertion([Insertion, Merge]) == [Merge];
  }

  /** The rows appended while one dataset is timed by each of algs in turn; the first
      of them is the c-th timing call of the run. */
  function AlgorithmRows(p: string, n: int, algs: seq<Algorithm>, repeats: int, env: Env, c: nat)
    : (r: Result<seq<Row>, Error>)
    ensures r.Ok? <==> algs == [] || repeats >= 1
    ensures r.Err? ==> r.error == EmptyTimings
    ensures r.Ok? ==> |r.value| == |algs|
  {
    if algs == [] then Ok([])
    else
      match AlgorithmRows(p, n, algs[..|algs| - 1], repeats, env, c)
      case Err(e) => Err(e)
      case Ok(prev) =>
        match TimeAlgorithm(env, c + |prev|, repeats)
        case Err(e) => Err(e)
        case Ok(t) => Ok(prev + [Row(p, n, algs[|algs| - 1].Name(), t)])
  }

  /** What make_dataset raises when it raises: a pattern it does not know, or else the
      empty randrange of "nearly_sorted". */
  function DatasetError(p: string): Error {
    if Datasets.KnownPattern(p) then EmptyRange else UnknownPattern
  }

  /** The rows of one pattern over a list of sizes: each size builds its dataset from
      the stream of seed, then times it; the first exception ends the run. */
  function SizeRows(p: string, sizes: seq<int>, large: bool, repeats: int, env: Env, c: nat)
    : Result<seq<Row>, Error>
  {
    if |sizes| == 0 then Ok([])
    else
      var init, n := sizes[..|sizes| - 1], sizes[|sizes| - 1];
      match SizeRows(p, init, large, repeats, env, c)
      case Err(e) => Err(e)
      case Ok(prev) =>
        if !Datasets.DatasetDefined(n, p) then Err(DatasetError(p))
        else
          match AlgorithmRows(p, n, Timed(large, ALGORITHMS), repeats, env, c + |prev|)
          case Err(e) => Err(e)
          case Ok(cell) => Ok(prev + cell)
  }

  /** One pattern runs through when each of its datasets can be built and, if anything
      is timed at all, repeats is positive. */
  predicate PatternFeasible(p: string, sizes: seq<int>, large: seq<int>, repeats: int) {
    (forall n :: n in sizes + large ==> Datasets.DatasetDefined(n, p))
    && (sizes + large == [] || repeats >= 1)
  }

  /** Rows of one pattern and of each size list. */
  function RowsPerPattern(sizes: seq<int>, large: seq<int>): nat {
    3 * |sizes| + 2 * |large|
  }

  /** The rows of one pattern: its small sizes, then its large sizes. */
  function PatternRows(p: string, sizes: seq<int>, large: seq<int>, repeats: int, env: Env, c: nat)
    : Result<seq<Row>, Error>
  {
    match SizeRows(p, sizes, false, repeats, env, c)
    case Err(e) => Err(e)
    case Ok(small) =>
      match SizeRows(p, large, true, repeats, env, c + |small|)
      case Err(e) => Err(e)
      case Ok(big) => Ok(small + big)
  }

  /** run_benchmarks returns its rows exactly when every pattern that has at least one
      size to run is known, no "nearly_sorted" size is below 1, and, if anything is timed
      at all, repeats is positive. With no sizes at all, no dataset is built, so even an
      unknown pattern raises nothing. */
  predicate Feasible(patterns: seq<string>, sizes: seq<int>, large: seq<int>, repeats: int) {
    forall p :: p in patterns ==> PatternFeasible(p, sizes, large, repeats)
  }

  /** What run_benchmarks(sizes, large_sizes, patterns, repeats) returns or raises. */
  function Benchmarks(patterns: seq<string>, sizes: seq<int>, large: seq<int>, repeats: int, env: Env)
    : Result<seq<Row>, Error>
  {
    if patterns == [] then Ok([])
    else
      var init, p := patterns[..|patterns| - 1], patterns[|patterns| - 1];
      match Benchmarks(init, sizes, large, repeats, env)
      case Err(e) => Err(e)
      case Ok(prev) =>
        match PatternRows(p, sizes, large, repeats, env, |prev|)
        case Err(e) => Err(e)
        case Ok(rows) => Ok(prev + rows)
  }

  /** run_benchmarks: for each pattern, the small sizes with every algorithm, then the
      large sizes with all but insertion sort; the first exception is passed on. */
  method RunBenchmarks(sizes: seq<int>, large: seq<int>, patterns: seq<string>, repeats: int, env: Env)
    returns (r: Result<seq<Row>, Error>)
    ensures r == Benchmarks(patterns, sizes, large, repeats, env)
  {
    var rows: seq<Row> := [];
    for q := 0 to |patterns|
      invariant Benchmarks(patterns[..q], sizes, large, repeats, env) == Ok(rows)
    {
      assert patterns[..q + 1] == patterns[..q] + [patterns[q]];
      var more := TimePattern(patterns[q], sizes, large, repeats, env, |rows|);
      if more.Err? {
        BenchmarksPatternFails(patterns[..q], patterns[q], sizes, large, repeats, env, rows);
        BenchmarksErrorPersists(patterns, sizes, large, repeats, env, q + 1);
        return Err(more.error);
      }
      BenchmarksSnoc(patterns[..q], patterns[q], sizes, large, repeats, env, rows, more.value);
      rows := rows + more.value;
    }
    assert patterns[..|patterns|] == patterns;
    return Ok(rows);
  }

  /** The body of the pattern loop of run_benchmarks: the small sizes, then the large
      ones. */
  method TimePattern(p: string, sizes: seq<int>, large: seq<int>, repeats: int, env: Env, c: nat)
    returns (r: Result<seq<Row>, Error>)
    ensures r == PatternRows(p, sizes, large, repeats, env, c)
  {
    var small := TimeSizes(p, sizes, false, repeats, env, c);
    if small.Err? {
      return Err(small.error);
    }
    var big := TimeSizes(p, large, true, repeats, env, c + |small.value|);
    if big.Err? {
      return Err(big.error);
    }
    return Ok(small.value + big.value);
  }

  /** The loop over one size list of run_benchmarks. */
  method TimeSizes(p: string, sizes: seq<int>, large: bool, repeats: int, env: Env, c: nat)
    returns (r: Result<seq<Row>, Error>)
    ensures r == SizeRows(p, sizes, large, repeats, env, c)
  {
    var rows: seq<Row> := [];
    for i := 0 to |sizes|
      invariant SizeRows(p, sizes[..i], large, repeats, env, c) == Ok(rows)
    {
      var next, _ := TimeSize(p, sizes, i, large, repeats, env, c, rows);
      if next.Err? {
        SizeRowsErrorPersists(p, sizes, large, repeats, env, c, i + 1);
        return next;
      }
      rows := next.value;
    }
    assert sizes[..|sizes|] == sizes;
    return Ok(rows);
  }

  /** One pass of the size loop: make_dataset for the i-th size, seeded 123 for the small
      sizes and 777 for the large ones, then every timed algorithm on it; rows are the rows
      of the sizes before it. */
  method TimeSize(p: string, sizes: seq<int>, i: nat, large: bool, repeats: int, env: Env, c: nat,
                  rows: seq<Row>)
    returns (r: Result<seq<Row>, Error>, data: Result<seq<int>, Error>)
    requires i < |sizes|
    requires SizeRows(p, sizes[..i], large, repeats, env, c) == Ok(rows)
    ensures r == SizeRows(p, sizes[..i + 1], large, repeats, env, c)
    ensures data == Datasets.Dataset(sizes[i], p, env.stream(if large then LARGE_SEED else SMALL_SEED))
  {
    assert sizes[..i + 1] == sizes[..i] + [sizes[i]];
    data := LoadDataset(sizes[i], p, env.stream(if large then LARGE_SEED else SMALL_SEED));
    if data.Err? {
      SizeRowsDatasetFails(p, sizes[..i], sizes[i], large, repeats, env, c, rows);
      return Err(data.error), data;
    }
    var cell := TimeAlgorithms(p, sizes[i], large, repeats, env, c + |rows|);
    if cell.Err? {
      SizeRowsTimingFails(p, sizes[..i], sizes[i], large, repeats, env, c, rows);
      return Err(cell.error), data;
    }
    SizeRowsSnoc(p, sizes[..i], sizes[i], large, repeats, env, c, rows, cell.value);
    return Ok(rows + cell.value), data;
  }

  /** data = make_dataset(n, pattern, seed=...): the list itself only feeds the timed
      statement, so the rows depend only on whether, and with which exception, it raises. */
  method LoadDataset(n: int, p: string, rng: Datasets.Rng) returns (data: Result<seq<int>, Error>)
    ensures data == Datasets.Dataset(n, p, rng)
    ensures data.Ok? <==> Datasets.DatasetDefined(n, p)
    ensures data.Err? ==> data.error == DatasetError(p)
  {
    data := Datasets.MakeDataset(n, p, rng);
  }

  /** The loop over the ALGORITHMS dictionary for one dataset; for a large size the
      "Insertion" entry is skipped. */
  method TimeAlgorithms(p: string, n: int, large: bool, repeats: int, env: Env, c: nat)
    returns (r: Result<seq<Row>, Error>)
    ensures r == AlgorithmRows(p, n, Timed(large, ALGORITHMS), repeats, env, c)
  {
    var rows: seq<Row> := [];
    for i := 0 to |ALGORITHMS|
      invariant AlgorithmRows(p, n, Timed(large, ALGORITHMS[..i]), repeats, env, c) == Ok(rows)
    {
      var alg := ALGORITHMS[i];
      TimedStep(large, i);
      if large && alg.Name() == "Insertion" {
        continue;
      }
      var t := TimeAlgorithm(env, c + |rows|, repeats);
      if t.Err? {
        LargeAlgorithms();
        return Err(t.error);
      }
      AlgorithmRowsSnoc(p, n, Timed(large, ALGORITHMS[..i]), alg, repeats, env, c, rows, t.value);
      rows := rows + [Row(p, n, alg.Name(), t.value)];
    }
    assert ALGORITHMS[..|ALGORITHMS|] == ALGORITHMS;
    return Ok(rows);
  }

  /** One more entry of the dictionary: skipped for a large size if it is insertion sort,
      timed otherwise. */
  lemma TimedStep(large: bool, i: nat)
    requires i < |ALGORITHMS|
    ensures Timed(large, ALGORITHMS[..i + 1])
         == Timed(large, ALGORITHMS[..i])
            + (if large && ALGORITHMS[i] == Insertion then [] else [ALGORITHMS[i]])
  {
    assert ALGORITHMS[..i + 1][..i] == ALGORITHMS[..i];
  }

  /** One more timed algorithm appends one row. */
  lemma AlgorithmRowsSnoc(p: string, n: int, algs: seq<Algorithm>, a: Algorithm, repeats: int, env: Env,
                          c: nat, rows: seq<Row>, t: real)
    requires AlgorithmRows(p, n, algs, repeats, env, c) == Ok(rows)
    requires TimeAlgorithm(env, c + |rows|, repeats) == Ok(t)
    ensures AlgorithmRows(p, n, algs + [a], repeats, env, c) == Ok(rows + [Row(p, n, a.Name(), t)])
  {
    assert (algs + [a])[..|algs|] == algs;
  }

  /** One more size whose dataset raises: the loop raises that. */
  lemma SizeRowsDatasetFails(p: string, sizes: seq<int>, n: int, large: bool, repeats: int, env: Env,
                             c: nat, rows: seq<Row>)
    requires SizeRows(p, sizes, large, repeats, env, c) == Ok(rows)
    requires !Datasets.DatasetDefined(n, p)
    ensures SizeRows(p, sizes + [n], large, repeats, env, c)
         == Err(DatasetError(p))
  {
    assert (sizes + [n])[..|sizes|] == sizes;
  }

  /** One more size whose timing raises: the loop raises that. */
  lemma SizeRowsTimingFails(p: string, sizes: seq<int>, n: int, large: bool, repeats: int, env: Env,
                            c: nat, rows: seq<Row>)
    requires SizeRows(p, sizes, large, repeats, env, c) == Ok(rows)
    requires Datasets.DatasetDefined(n, p)
    requires AlgorithmRows(p, n, Timed(large, ALGORITHMS), repeats, env, c + |rows|).Err?
    ensures SizeRows(p, sizes + [n], large, repeats, env, c)
         == AlgorithmRows(p, n, Timed(large, ALGORITHMS), repeats, env, c + |rows|)
  {
    assert (sizes + [n])[..|sizes|] == sizes;
  }

  /** One more size that runs through appends its rows. */
  lemma SizeRowsSnoc(p: string, sizes: seq<int>, n: int, large: bool, repeats: int, env: Env,
                     c: nat, rows: seq<Row>, cell: seq<Row>)
    requires SizeRows(p, sizes, large, repeats, env, c) == Ok(rows)
    requires Datasets.DatasetDefined(n, p)
    requires AlgorithmRows(p, n, Timed(large, ALGORITHMS), repeats, env, c + |rows|) == Ok(cell)
    ensures SizeRows(p, sizes + [n], large, repeats, env, c) == Ok(rows + cell)
  {
    assert (sizes + [n])[..|sizes|] == sizes;
  }

  /** One more pattern that raises: the run raises that. */
  lemma BenchmarksPatternFails(patterns: seq<string>, p: string, sizes: seq<int>, large: seq<int>, repeats: int,
                               env: Env, rows: seq<Row>)
    requires Benchmarks(patterns, sizes, large, repeats, env) == Ok(rows)
    requires PatternRows(p, sizes, large, repeats, env, |rows|).Err?
    ensures Benchmarks(patterns + [p], sizes, large, repeats, env)
         == Err(PatternRows(p, sizes, large, repeats, env, |rows|).error)
  {
    assert (patterns + [p])[..|patterns|] == patterns;
  }

  /** One more pattern that runs through appends its rows. */
  lemma BenchmarksSnoc(patterns: seq<string>, p: string, sizes: seq<int>, large: seq<int>, repeats: int,
                       env: Env, rows: seq<Row>, more: seq<Row>)
    requires Benchmarks(patterns, sizes, large, repeats, env) == Ok(rows)
    requires PatternRows(p, sizes, large, repeats, env, |rows|) == Ok(more)
    ensures Benchmarks(patterns + [p], sizes, large, repeats, env) == Ok(rows + more)
  {
    assert (patterns + [p])[..|patterns|] == patterns;
  }

  /** With no sizes at all, no dataset is built and nothing is timed: every list of
      patterns, unknown ones and all, gives an empty table and raises nothing. */
  lemma {:induction false} BenchmarksNoSizes(patterns: seq<string>, repeats: int, env: Env)
    ensures Benchmarks(patterns, [], [], repeats, env) == Ok([])
  {
    if patterns != [] {
      var init, p := patterns[..|patterns| - 1], patterns[|patterns| - 1];
      BenchmarksNoSizes(init, repeats, env);
      var none: seq<Row> := [];
      assert SizeRows(p, [], false, repeats, env, 0) == Ok(none);
      assert SizeRows(p, [], true, repeats, env, |none|) == Ok(none);
      assert PatternRows(p, [], [], repeats, env, |none|) == Ok(none + none);
      assert none + none == none;
    }
  }

  /** Once a prefix of the size list raises, the whole loop raises the same. */
  lemma {:induction false} SizeRowsErrorPersists(p: string, sizes: seq<int>, large: bool, repeats: int,
                                                 env: Env, c: nat, j: nat)
    requires j <= |sizes|
    requires SizeRows(p, sizes[..j], large, repeats, env, c).Err?
    ensures SizeRows(p, sizes, large, repeats, env, c) == SizeRows(p, sizes[..j], large, repeats, env, c)
    decreases |sizes| - j
  {
    if j < |sizes| {
      assert sizes[..j + 1][..j] == sizes[..j];
      SizeRowsErrorPersists(p, sizes, large, repeats, env, c, j + 1);
    } else {
      assert sizes[..j] == sizes;
    }
  }

  /** Once a prefix of the pattern list raises, the whole run raises the same. */
  lemma {:induction false} BenchmarksErrorPersists(patterns: seq<string>, sizes: seq<int>, large: seq<int>,
                                                   repeats: int, env: Env, j: nat)
    requires j <= |patterns|
    requires Benchmarks(patterns[..j], sizes, large, repeats, env).Err?
    ensures Benchmarks(patterns, sizes, large, repeats, env) == Benchmarks(patterns[..j], sizes, large, repeats, env)
    decreases |patterns| - j
  {
    if j < |patterns| {
      assert patterns[..j + 1][..j] == patterns[..j];
      BenchmarksErrorPersists(patterns, sizes, large, repeats, env, j + 1);
    } else {
      assert patterns[..j] == patterns;
    }
  }

  /** Each size contributes one row per algorithm timed on it. */
  lemma {:induction false} SizeRowsLength(p: string, sizes: seq<int>, large: bool, repeats: int, env: Env, c: nat)
    requires SizeRows(p, sizes, large, repeats, env, c).Ok?
    ensures |SizeRows(p, sizes, large, repeats, env, c).value| == Span(large, |sizes|)
  {
    if sizes != [] {
      var init := sizes[..|sizes| - 1];
      SizeRowsLength(p, init, large, repeats, env, c);
      LargeAlgorithms();
    }
  }

  /** The number of rows that k sizes of one list give: three each for small sizes, two
      each for large ones. */
  function Span(large: bool, k: nat): nat {
    if large then 2 * k else 3 * k
  }

  /** A pattern gives three rows per small size and two per large size. */
  lemma PatternRowsLength(p: string, sizes: seq<int>, large: seq<int>, repeats: int, env: Env, c: nat)
    requires PatternRows(p, sizes, large, repeats, env, c).Ok?
    ensures |PatternRows(p, sizes, large, repeats, env, c).value| == RowsPerPattern(sizes, large)
  {
    LargeAlgorithms();
    var small := SizeRows(p, sizes, false, repeats, env, c);
    assert small.Ok?;
    SizeRowsLength(p, sizes, false, repeats, env, c);
    var big := SizeRows(p, large, true, repeats, env, c + |small.value|);
    assert big.Ok?;
    SizeRowsLength(p, large, true, repeats, env, c + |small.value|);
  }

  /** run_benchmarks returns |patterns| * (3 * |sizes| + 2 * |large_sizes|) rows. */
  lemma {:induction false} BenchmarksLength(patterns: seq<string>, sizes: seq<int>, large: seq<int>,
                                            repeats: int, env: Env)
    requires Benchmarks(patterns, sizes, large, repeats, env).Ok?
    ensures |Benchmarks(patterns, sizes, large, repeats, env).value| == |patterns| * RowsPerPattern(sizes, large)
  {
    if patterns != [] {
      var init, p := patterns[..|patterns| - 1], patterns[|patterns| - 1];
      BenchmarksLength(init, sizes, large, repeats, env);
      var prev := Benchmarks(init, sizes, large, repeats, env).value;
      PatternRowsLength(p, sizes, large, repeats, env, |prev|);
      var w := RowsPerPattern(sizes, large);
      assert (|init| + 1) * w == |init| * w + w;
    }
  }

  /** The loop over a size list runs through exactly when every dataset of it can be
      built and, unless the list is empty, repeats is positive. */
  lemma {:induction false} SizeRowsSucceeds(p: string, sizes: seq<int>, large: bool, repeats: int, env: Env, c: nat)
    ensures SizeRows(p, sizes, large, repeats, env, c).Ok?
        <==> (forall n :: n in sizes ==> Datasets.DatasetDefined(n, p)) && (sizes == [] || repeats >= 1)
  {
    LargeAlgorithms();
    if sizes != [] {
      var init, n := sizes[..|sizes| - 1], sizes[|sizes| - 1];
      assert forall m :: m in sizes <==> m in init || m == n;
      SizeRowsSucceeds(p, init, large, repeats, env, c);
    }
  }

  /** One pattern runs through exactly when it is feasible. */
  lemma PatternRowsSucceeds(p: string, sizes: seq<int>, large: seq<int>, repeats: int, env: Env, c: nat)
    ensures PatternRows(p, sizes, large, repeats, env, c).Ok? <==> PatternFeasible(p, sizes, large, repeats)
  {
    assert forall n :: n in sizes + large <==> n in sizes || n in large;
    SizeRowsSucceeds(p, sizes, false, repeats, env, c);
    var small := SizeRows(p, sizes, false, repeats, env, c);
    if small.Ok? {
      SizeRowsSucceeds(p, large, true, repeats, env, c + |small.value|);
    }
  }

  /** run_benchmarks returns its rows exactly when the run is feasible, and raises
      otherwise. */
  lemma {:induction false} BenchmarksSucceeds(patterns: seq<string>, sizes: seq<int>, large: seq<int>,
                                              repeats: int, env: Env)
    ensures Benchmarks(patterns, sizes, large, repeats, env).Ok? <==> Feasible(patterns, sizes, large, repeats)
  {
    if patterns != [] {
      var init, p := patterns[..|patterns| - 1], patterns[|patterns| - 1];
      assert forall q :: q in patterns <==> q in init || q == p;
      BenchmarksSucceeds(init, sizes, large, repeats, env);
      var prev := Benchmarks(init, sizes, large, repeats, env);
      if prev.Ok? {
        PatternRowsSucceeds(p, sizes, large, repeats, env, |prev.value|);
      }
    }
  }

  /** The a-th row timed on a dataset is the a-th algorithm's, measured by the timing
      call that follows the rows before it. */
  lemma {:induction false} AlgorithmRowsAt(p: string, n: int, algs: seq<Algorithm>, repeats: int, env: Env,
                                           c: nat, a: nat)
    requires AlgorithmRows(p, n, algs, repeats, env, c).Ok?
    requires a < |algs|
    ensures repeats >= 1
    ensures AlgorithmRows(p, n, algs, repeats, env, c).value[a]
         == Row(p, n, algs[a].Name(), TimeAlgorithm(env, c + a, repeats).value)
  {
    var init := algs[..|algs| - 1];
    if a < |init| {
      AlgorithmRowsAt(p, n, init, repeats, env, c, a);
    }
  }

  /** Kept apart from the row lemmas: proving this product non-negative in their
      context, beside the unfolded run, costs the solver far more than here. */
  lemma NatProduct(x: nat, y: nat)
    ensures x * y >= 0
  {
  }

  lemma IndexBound(i: nat, m: nat, a: nat, w: nat)
    requires i < m && a < w
    ensures i * w + a < m * w
  {
    assert (i + 1) * w <= m * w;
  }

  /** Within one size list, the rows of the i-th size come i-th, one per timed
      algorithm, in dictionary order. */
  lemma {:induction false} SizeRowsAt(p: string, sizes: seq<int>, large: bool, repeats: int, env: Env,
                                      c: nat, i: nat, a: nat)
    requires SizeRows(p, sizes, large, repeats, env, c).Ok?
    requires i < |sizes| && a < |Timed(large, ALGORITHMS)|
    ensures Span(large, i) + a < |SizeRows(p, sizes, large, repeats, env, c).value|
    ensures SizeRows(p, sizes, large, repeats, env, c).value[Span(large, i) + a]
         == Row(p, sizes[i], Timed(large, ALGORITHMS)[a].Name(),
                TimeAlgorithm(env, c + Span(large, i) + a, repeats).value)
    decreases |sizes|, 1
  {
    var init, n := sizes[..|sizes| - 1], sizes[|sizes| - 1];
    assert sizes == init + [n];
    if i < |init| {
      SizeRowsAtInit(p, init, n, large, repeats, env, c, i, a);
    } else {
      SizeRowsAtLast(p, init, n, large, repeats, env, c, a);
    }
  }

  /** A row of an earlier size keeps its place when one more size is appended. */
  lemma {:induction false} SizeRowsAtInit(p: string, init: seq<int>, n: int, large: bool, repeats: int,
                                          env: Env, c: nat, i: nat, a: nat)
    requires SizeRows(p, init + [n], large, repeats, env, c).Ok?
    requires i < |init| && a < |Timed(large, ALGORITHMS)|
    ensures Span(large, i) + a < |SizeRows(p, init + [n], large, repeats, env, c).value|
    ensures SizeRows(p, init + [n], large, repeats, env, c).value[Span(large, i) + a]
         == Row(p, init[i], Timed(large, ALGORITHMS)[a].Name(),
                TimeAlgorithm(env, c + Span(large, i) + a, repeats).value)
    decreases |init| + 1, 0
  {
    SizeRowsSplit(p, init, n, large, repeats, env, c);
    SizeRowsAt(p, init, large, repeats, env, c, i, a);
  }

  /** The rows of the last size come right after the rows of the sizes before it. */
  lemma SizeRowsAtLast(p: string, init: seq<int>, n: int, large: bool, repeats: int, env: Env,
                       c: nat, a: nat)
    requires SizeRows(p, init + [n], large, repeats, env, c).Ok?
    requires a < |Timed(large, ALGORITHMS)|
    ensures Span(large, |init|) + a < |SizeRows(p, init + [n], large, repeats, env, c).value|
    ensures SizeRows(p, init + [n], large, repeats, env, c).value[Span(large, |init|) + a]
         == Row(p, n, Timed(large, ALGORITHMS)[a].Name(),
                TimeAlgorithm(env, c + Span(large, |init|) + a, repeats).value)
  {
    SizeRowsSplit(p, init, n, large, repeats, env, c);
    SizeRowsLength(p, init, large, repeats, env, c);
    var prev := SizeRows(p, init, large, repeats, env, c).value;
    AlgorithmRowsAt(p, n, Timed(large, ALGORITHMS), repeats, env, c + |prev|, a);
  }

  /** A size list that runs through is its init's rows followed by the rows of its last size. */
  lemma SizeRowsSplit(p: string, init: seq<int>, n: int, large: bool, repeats: int, env: Env, c: nat)
    requires SizeRows(p, init + [n], large, repeats, env, c).Ok?
    ensures SizeRows(p, init, large, repeats, env, c).Ok?
    ensures AlgorithmRows(p, n, Timed(large, ALGORITHMS), repeats, env,
                          c + |SizeRows(p, init, large, repeats, env, c).value|).Ok?
    ensures SizeRows(p, init + [n], large, repeats, env, c).value
         == SizeRows(p, init, large, repeats, env, c).value
            + AlgorithmRows(p, n, Timed(large, ALGORITHMS), repeats, env,
                            c + |SizeRows(p, init, large, repeats, env, c).value|).value
  {
    assert (init + [n])[..|init|] == init;
  }

  /** The rows of the q-th pattern form the q-th block of the run, each block as long as
      one pattern's rows. */
  lemma {:induction false} BenchmarksAt(patterns: seq<string>, sizes: seq<int>, large: seq<int>, repeats: int,
                                        env: Env, q: nat, k: nat)
    requires Benchmarks(patterns, sizes, large, repeats, env).Ok?
    requires q < |patterns| && k < RowsPerPattern(sizes, large)
    ensures var b := RowsPerPattern(sizes, large);
            var block := PatternRows(patterns[q], sizes, large, repeats, env, q * b);
            block.Ok? && k < |block.value|
            && q * b + k < |Benchmarks(patterns, sizes, large, repeats, env).value|
            && Benchmarks(patterns, sizes, large, repeats, env).value[q * b + k] == block.value[k]
  {
    var b := RowsPerPattern(sizes, large);
    var init, p := patterns[..|patterns| - 1], patterns[|patterns| - 1];
    BenchmarksSplit(patterns, sizes, large, repeats, env);
    var prev := Benchmarks(init, sizes, large, repeats, env);
    BenchmarksLength(init, sizes, large, repeats, env);
    var more := PatternRows(p, sizes, large, repeats, env, |prev.value|);
    PatternRowsLength(p, sizes, large, repeats, env, |prev.value|);
    if q < |init| {
      BenchmarksAt(init, sizes, large, repeats, env, q, k);
      IndexBound(q, |init|, k, b);
    }
  }

  /** A run that goes through is its init's rows followed by the rows of its last pattern. */
  lemma BenchmarksSplit(patterns: seq<string>, sizes: seq<int>, large: seq<int>, repeats: int, env: Env)
    requires patterns != [] && Benchmarks(patterns, sizes, large, repeats, env).Ok?
    ensures var prev := Benchmarks(patterns[..|patterns| - 1], sizes, large, repeats, env);
            var more := PatternRows(patterns[|patterns| - 1], sizes, large, repeats, env, |prev.value|);
            prev.Ok? && more.Ok?
            && Benchmarks(patterns, sizes, large, repeats, env).value == prev.value + more.value
  {
  }

  /** Within one pattern, the a-th algorithm at the i-th small size comes at 3 * i + a. */
  lemma PatternRowsSmallAt(p: string, sizes: seq<int>, large: seq<int>, repeats: int, env: Env,
                           c: nat, i: nat, a: nat)
    requires PatternRows(p, sizes, large, repeats, env, c).Ok?
    requires i < |sizes| && a < 3
    ensures var rows := PatternRows(p, sizes, large, repeats, env, c).value;
            3 * i + a < |rows|
            && rows[3 * i + a] == Row(p, sizes[i], ALGORITHMS[a].Name(), TimeAlgorithm(env, c + 3 * i + a, repeats).value)
  {
    LargeAlgorithms();
    var small := SizeRows(p, sizes, false, repeats, env, c);
    var big := SizeRows(p, large, true, repeats, env, c + |small.value|);
    assert PatternRows(p, sizes, large, repeats, env, c).value == small.value + big.value;
    SizeRowsAt(p, sizes, false, repeats, env, c, i, a);
  }

  /** Within one pattern, the a-th of merge sort and Timsort at the i-th large size comes
      at 3 * |sizes| + 2 * i + a, after all the small sizes. */
  lemma PatternRowsLargeAt(p: string, sizes: seq<int>, large: seq<int>, repeats: int, env: Env,
                           c: nat, i: nat, a: nat)
    requires PatternRows(p, sizes, large, repeats, env, c).Ok?
    requires i < |large| && a < 2
    ensures var rows := PatternRows(p, sizes, large, repeats, env, c).value;
            var j := 3 * |sizes| + 2 * i + a;
            j < |rows|
            && rows[j] == Row(p, large[i], [Merge, Timsort][a].Name(), TimeAlgorithm(env, c + j, repeats).value)
  {
    LargeAlgorithms();
    var small := SizeRows(p, sizes, false, repeats, env, c);
    SizeRowsLength(p, sizes, false, repeats, env, c);
    assert |small.value| == 3 * |sizes|;
    var big := SizeRows(p, large, true, repeats, env, c + |small.value|);
    assert PatternRows(p, sizes, large, repeats, env, c).value == small.value + big.value;
    SizeRowsAt(p, large, true, repeats, env, c + |small.value|, i, a);
  }

  /** Row q * (3 * |sizes| + 2 * |large_sizes|) + 3 * i + a of the run is the a-th
      algorithm of the dictionary on the q-th pattern at the i-th small size; its time is
      the fastest repeat of the timing call of that same number. */
  lemma SmallRowAt(patterns: seq<string>, sizes: seq<int>, large: seq<int>, repeats: int, env: Env,
                   q: nat, i: nat, a: nat)
    requires Benchmarks(patterns, sizes, large, repeats, env).Ok?
    requires q < |patterns| && i < |sizes| && a < 3
    ensures var k := q * RowsPerPattern(sizes, large) + 3 * i + a;
            var rows := Benchmarks(patterns, sizes, large, repeats, env).value;
            k < |rows|
            && rows[k] == Row(patterns[q], sizes[i], ALGORITHMS[a].Name(), TimeAlgorithm(env, k, repeats).value)
  {
    NatProduct(q, RowsPerPattern(sizes, large));
    var start := q * RowsPerPattern(sizes, large);
    BenchmarksAt(patterns, sizes, large, repeats, env, q, 3 * i + a);
    PatternRowsSmallAt(patterns[q], sizes, large, repeats, env, start, i, a);
  }

  /** Row q * (3 * |sizes| + 2 * |large_sizes|) + 3 * |sizes| + 2 * i + a of the run is
      merge sort (a = 0) or Timsort (a = 1) on the q-th pattern at the i-th large size:
      insertion sort is never timed on a large size. */
  lemma LargeRowAt(patterns: seq<string>, sizes: seq<int>, large: seq<int>, repeats: int, env: Env,
                   q: nat, i: nat, a: nat)
    requires Benchmarks(patterns, sizes, large, repeats, env).Ok?
    requires q < |patterns| && i < |large| && a < 2
    ensures var k := q * RowsPerPattern(sizes, large) + 3 * |sizes| + 2 * i + a;
            var rows := Benchmarks(patterns, sizes, large, repeats, env).value;
            k < |rows|
            && rows[k] == Row(patterns[q], large[i], [Merge, Timsort][a].Name(), TimeAlgorithm(env, k, repeats).value)
  {
    NatProduct(q, RowsPerPattern(sizes, large));
    var start := q * RowsPerPattern(sizes, large);
    BenchmarksAt(patterns, sizes, large, repeats, env, q, 3 * |sizes| + 2 * i + a);
    PatternRowsLargeAt(patterns[q], sizes, large, repeats, env, start, i, a);
  }

  /** A run over one pattern, one small and one large size, with one repeat: three rows
      for the small size, then merge sort and Timsort for the large one, each holding the
      single duration of its own timing call. */
  lemma ExampleRun(env: Env)
    ensures Benchmarks(["sorted"], [10], [100], 1, env)
         == Ok([Row("sorted", 10, "Insertion", env.clock(0, 0)),
                Row("sorted", 10, "Merge", env.clock(1, 0)),
                Row("sorted", 10, "Timsort (built-in)", env.clock(2, 0)),
                Row("sorted", 100, "Merge", env.clock(3, 0)),
                Row("sorted", 100, "Timsort (built-in)", env.clock(4, 0))])
  {
    assert Datasets.DatasetDefined(10, "sorted") && Datasets.DatasetDefined(100, "sorted");
    OneSizeEachRun(env, "sorted", 10, 100);
  }

  /** A run over one pattern with one small size n, one large size m and one repeat: the
      three algorithms on n, then merge sort and Timsort on m, each holding the single
      duration of its own timing call. */
  lemma OneSizeEachRun(env: Env, p: string, n: int, m: int)
    requires Datasets.DatasetDefined(n, p) && Datasets.DatasetDefined(m, p)
    ensures Benchmarks([p], [n], [m], 1, env)
         == Ok([Row(p, n, "Insertion", env.clock(0, 0)),
                Row(p, n, "Merge", env.clock(1, 0)),
                Row(p, n, "Timsort (built-in)", env.clock(2, 0)),
                Row(p, m, "Merge", env.clock(3, 0)),
                Row(p, m, "Timsort (built-in)", env.clock(4, 0))])
  {
    OneSizeEachSmall(env, p, n, m);
    OneSizeEachLarge(env, p, n, m);
    var rows := Benchmarks([p], [n], [m], 1, env).value;
    assert rows == [rows[0], rows[1], rows[2], rows[3], rows[4]];
  }

  /** Such a run goes through, gives five rows, and the first three are those of n. */
  lemma OneSizeEachSmall(env: Env, p: string, n: int, m: int)
    requires Datasets.DatasetDefined(n, p) && Datasets.DatasetDefined(m, p)
    ensures Benchmarks([p], [n], [m], 1, env).Ok?
    ensures var rows := Benchmarks([p], [n], [m], 1, env).value;
            |rows| == 5
            && rows[0] == Row(p, n, "Insertion", env.clock(0, 0))
            && rows[1] == Row(p, n, "Merge", env.clock(1, 0))
            && rows[2] == Row(p, n, "Timsort (built-in)", env.clock(2, 0))
  {
    OneSizeEachFeasible(p, n, m);
    BenchmarksSucceeds([p], [n], [m], 1, env);
    BenchmarksLength([p], [n], [m], 1, env);
    forall a | 0 <= a < 3
      ensures TimeAlgorithm(env, a, 1).value == env.clock(a, 0)
    {
      TimeAlgorithmIsFastest(env, a, 1);
    }
    SmallRowAt([p], [n], [m], 1, env, 0, 0, 0);
    SmallRowAt([p], [n], [m], 1, env, 0, 0, 1);
    SmallRowAt([p], [n], [m], 1, env, 0, 0, 2);
  }

  /** The last two rows of such a run are those of m. */
  lemma OneSizeEachLarge(env: Env, p: string, n: int, m: int)
    requires Datasets.DatasetDefined(n, p) && Datasets.DatasetDefined(m, p)
    ensures Benchmarks([p], [n], [m], 1, env).Ok?
    ensures var rows := Benchmarks([p], [n], [m], 1, env).value;
            |rows| == 5
            && rows[3] == Row(p, m, "Merge", env.clock(3, 0))
            && rows[4] == Row(p, m, "Timsort (built-in)", env.clock(4, 0))
  {
    OneSizeEachLargeRow(env, p, n, m, 0);
    OneSizeEachLargeRow(env, p, n, m, 1);
    assert [Merge, Timsort][0].Name() == "Merge";
    assert [Merge, Timsort][1].Name() == "Timsort (built-in)";
  }

  /** Row 3 + a of such a run is the a-th of merge sort and Timsort on m. */
  lemma OneSizeEachLargeRow(env: Env, p: string, n: int, m: int, a: nat)
    requires Datasets.DatasetDefined(n, p) && Datasets.DatasetDefined(m, p)
    requires a < 2
    ensures Benchmarks([p], [n], [m], 1, env).Ok?
    ensures var rows := Benchmarks([p], [n], [m], 1, env).value;
            |rows| == 5 && rows[3 + a] == Row(p, m, [Merge, Timsort][a].Name(), env.clock(3 + a, 0))
  {
    OneSizeEachFeasible(p, n, m);
    BenchmarksSucceeds([p], [n], [m], 1, env);
    BenchmarksLength([p], [n], [m], 1, env);
    TimeAlgorithmIsFastest(env, 3 + a, 1);
    LargeRowAt([p], [n], [m], 1, env, 0, 0, a);
  }

  lemma OneSizeEachFeasible(p: string, n: int, m: int)
    requires Datasets.DatasetDefined(n, p) && Datasets.DatasetDefined(m, p)
    ensures Feasible([p], [n], [m], 1)
  {
    assert [n] + [m] == [n, m];
  }

  /** The first exception of a run is the one reported: an unknown pattern before
      anything is timed, a "nearly_sorted" dataset of size 0 before a non-positive repeat
      count, and a non-positive repeat count once a dataset is built. */
  lemma ExampleErrors(env: Env)
    ensures Benchmarks(["bogus", "sorted"], [10], [], 0, env) == Err(UnknownPattern)
    ensures Benchmarks(["nearly_sorted"], [0], [], 0, env) == Err(EmptyRange)
    ensures Benchmarks(["sorted"], [10], [], 0, env) == Err(EmptyTimings)
  {
    ExampleUnknownPattern(env);
    ExampleEmptyRange(env);
    ExampleEmptyTimings(env);
  }

  lemma ExampleUnknownPattern(env: Env)
    ensures Benchmarks(["bogus", "sorted"], [10], [], 0, env) == Err(UnknownPattern)
  {
    var none: seq<int> := [];
    assert !Datasets.KnownPattern("bogus");
    SizeRowsDatasetFails("bogus", [], 10, false, 0, env, 0, []);
    assert [] + [10] == [10];
    BenchmarksPatternFails([], "bogus", [10], none, 0, env, []);
    assert [] + ["bogus"] == ["bogus"] == ["bogus", "sorted"][..1];
    BenchmarksErrorPersists(["bogus", "sorted"], [10], none, 0, env, 1);
  }

  lemma ExampleEmptyRange(env: Env)
    ensures Benchmarks(["nearly_sorted"], [0], [], 0, env) == Err(EmptyRange)
  {
    var none: seq<int> := [];
    SizeRowsDatasetFails("nearly_sorted", [], 0, false, 0, env, 0, []);
    assert [] + [0] == [0];
    BenchmarksPatternFails([], "nearly_sorted", [0], none, 0, env, []);
    assert [] + ["nearly_sorted"] == ["nearly_sorted"];
  }

  lemma ExampleEmptyTimings(env: Env)
    ensures Benchmarks(["sorted"], [10], [], 0, env) == Err(EmptyTimings)
  {
    var none: seq<int> := [];
    LargeAlgorithms();
    SizeRowsTimingFails("sorted", [], 10, false, 0, env, 0, []);
    assert [] + [10] == [10];
    BenchmarksPatternFails([], "sorted", [10], none, 0, env, []);
    assert [] + ["sorted"] == ["sorted"];
  }
}
