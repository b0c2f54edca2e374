/** compute_growth of task_3.py: for every (pattern, algorithm) of a fixed grid it looks up
    the fastest recorded time at 1k, 2k and 5k elements and emits the two neighbouring
    pairs whose ratio is the growth factor. The ratio itself is floating point and is not
    computed here: each row keeps the two looked-up times it is formed from. */
module Growth {
  import opened Common
  import Benchmark

  /** The size ladder, the patterns and the algorithm names of the growth table. */
  const LADDER: seq<int> := [1000, 2000, 5000]
  const GROWTH_PATTERNS: seq<string> := ["random", "reversed", "nearly_sorted"]
  const GROWTH_ALGORITHMS: seq<string> := ["Insertion", "Merge", "Timsort (built-in)"]
  const PAIR_LABELS: seq<string> := ["1k→2k", "2k→5k"]

  /** One row of the growth table: {"pattern", "algorithm", "pair", "growth"}, where
      growth = after / before, and a missing time stands for float("nan"). */
  datatype GrowthRow = GrowthRow(pattern: string, algorithm: string, pair: string,
                                 before: Option<real>, after: Option<real>)

  /** The filter of the list comprehension of one lookup. */
  predicate Matches(r: Benchmark.Row, pattern: string, n: int, algorithm: string) {
    r.pattern == pattern && r.n == n && r.algorithm == algorithm
  }

  /** [r["time_sec"] for r in rows if r matches (pattern, n, algorithm)], in row order. */
  function MatchingTimes(rows: seq<Benchmark.Row>, pattern: string, n: int, algorithm: string)
    : (vals: seq<real>)
    ensures |vals| <= |rows|
  {
    if rows == [] then []
    else
      var rest := MatchingTimes(rows[1..], pattern, n, algorithm);
      if Matches(rows[0], pattern, n, algorithm) then [rows[0].time] + rest else rest
  }

  /** One entry of ts: min(vals), or NaN (None) when nothing matches. */
  function Lookup(rows: seq<Benchmark.Row>, pattern: string, n: int, algorithm: string): Option<real> {
    var vals := MatchingTimes(rows, pattern, n, algorithm);
    if vals == [] then None else Some(Benchmark.Min(vals))
  }

  /** The k-th row of the table: patterns outermost, then algorithms, then the two pairs;
      "1k→2k" relates the 1k and 2k times, "2k→5k" the 2k and 5k times. */
  function GrowthAt(rows: seq<Benchmark.Row>, q: nat): GrowthRow
    requires q < 18
  {
    var p, a, k := GROWTH_PATTERNS[q / 6], GROWTH_ALGORITHMS[q / 2 % 3], q % 2;
    GrowthRow(p, a, PAIR_LABELS[k], Lookup(rows, p, LADDER[k], a), Lookup(rows, p, LADDER[k + 1], a))
  }

  /** The two rows of pattern i and algorithm j, as compute_growth builds them from the
      ladder lookups. */
  function PairRows(rows: seq<Benchmark.Row>, i: nat, j: nat): seq<GrowthRow>
    requires i < 3 && j < 3
  {
    var p, a := GROWTH_PATTERNS[i], GROWTH_ALGORITHMS[j];
    [GrowthRow(p, a, PAIR_LABELS[0], Lookup(rows, p, LADDER[0], a), Lookup(rows, p, LADDER[1], a)),
     GrowthRow(p, a, PAIR_LABELS[1], Lookup(rows, p, LADDER[1], a), Lookup(rows, p, LADDER[2], a))]
  }

  /** The rows of pattern i for its first j algorithms. */
  function PairsUpTo(rows: seq<Benchmark.Row>, i: nat, j: nat): seq<GrowthRow>
    requires i < 3 && j <= 3
  {
    if j == 0 then [] else PairsUpTo(rows, i, j - 1) + PairRows(rows, i, j - 1)
  }

  /** The rows of the first i patterns. */
  function BlocksUpTo(rows: seq<Benchmark.Row>, i: nat): seq<GrowthRow>
    requires i <= 3
  {
    if i == 0 then [] else BlocksUpTo(rows, i - 1) + PairsUpTo(rows, i - 1, 3)
  }

  /** compute_growth: three nested loops over patterns, algorithms and the ladder; each
      algorithm contributes two rows. */
  method ComputeGrowth(rows: seq<Benchmark.Row>) returns (result: seq<GrowthRow>)
    ensures |result| == 18
    ensures forall q :: 0 <= q < 18 ==> result[q] == GrowthAt(rows, q)
  {
    result := [];
    for i := 0 to 3
      invariant result == BlocksUpTo(rows, i)
    {
      var pattern := GROWTH_PATTERNS[i];
      for j := 0 to 3
        invariant result == BlocksUpTo(rows, i) + PairsUpTo(rows, i, j)
      {
        var algo := GROWTH_ALGORITHMS[j];
        var ts := LadderTimes(rows, pattern, algo);
        result := result + [GrowthRow(pattern, algo, PAIR_LABELS[0], ts[0], ts[1]),
                            GrowthRow(pattern, algo, PAIR_LABELS[1], ts[1], ts[2])];
      }
    }
    BlocksUpToAt(rows, 3);
  }

  /** The first j algorithms of pattern i fill rows 6 * i to 6 * i + 2 * j - 1 of the table. */
  lemma {:induction false} PairsUpToAt(rows: seq<Benchmark.Row>, i: nat, j: nat)
    requires i < 3 && j <= 3
    ensures |PairsUpTo(rows, i, j)| == 2 * j
    ensures forall m :: 0 <= m < 2 * j ==> PairsUpTo(rows, i, j)[m] == GrowthAt(rows, 6 * i + m)
  {
    if j > 0 {
      PairsUpToAt(rows, i, j - 1);
      PairRowsAt(rows, i, j - 1);
      var prev, pair := PairsUpTo(rows, i, j - 1), PairRows(rows, i, j - 1);
      forall m | 0 <= m < 2 * j
        ensures (prev + pair)[m] == GrowthAt(rows, 6 * i + m)
      {
        if m == 2 * j - 2 {
          assert (prev + pair)[m] == pair[0];
        } else if m == 2 * j - 1 {
          assert (prev + pair)[m] == pair[1];
        }
      }
    }
  }

  /** The two rows of pattern i and algorithm j are rows 6 * i + 2 * j and 6 * i + 2 * j + 1
      of the table. */
  lemma PairRowsAt(rows: seq<Benchmark.Row>, i: nat, j: nat)
    requires i < 3 && j < 3
    ensures PairRows(rows, i, j)[0] == GrowthAt(rows, 6 * i + 2 * j)
    ensures PairRows(rows, i, j)[1] == GrowthAt(rows, 6 * i + 2 * j + 1)
  {
    GrowthIndex(i, j);
  }

  /** The first i patterns fill rows 0 to 6 * i - 1 of the table. */
  lemma {:induction false} BlocksUpToAt(rows: seq<Benchmark.Row>, i: nat)
    requires i <= 3
    ensures |BlocksUpTo(rows, i)| == 6 * i
    ensures forall q :: 0 <= q < 6 * i ==> BlocksUpTo(rows, i)[q] == GrowthAt(rows, q)
  {
    if i > 0 {
      BlocksUpToAt(rows, i - 1);
      PairsUpToAt(rows, i - 1, 3);
      var prev, block := BlocksUpTo(rows, i - 1), PairsUpTo(rows, i - 1, 3);
      forall q | 0 <= q < 6 * i
        ensures (prev + block)[q] == GrowthAt(rows, q)
      {
        if q >= 6 * (i - 1) {
          assert (prev + block)[q] == block[q - 6 * (i - 1)];
        }
      }
    }
  }

  /** The loop over the ladder: ts holds one lookup per size, in ladder order. */
  method LadderTimes(rows: seq<Benchmark.Row>, pattern: string, algo: string) returns (ts: seq<Option<real>>)
    ensures |ts| == |LADDER|
    ensures forall m :: 0 <= m < |LADDER| ==> ts[m] == Lookup(rows, pattern, LADDER[m], algo)
  {
    ts := [];
    for k := 0 to |LADDER|
      invariant |ts| == k
      invariant forall m :: 0 <= m < k ==> ts[m] == Lookup(rows, pattern, LADDER[m], algo)
    {
      var vals := MatchingTimes(rows, pattern, LADDER[k], algo);
      if vals == [] {
        ts := ts + [None];
      } else {
        ts := ts + [Some(Benchmark.Min(vals))];
      }
    }
  }

  /** Where the two rows of pattern i and algorithm j sit in the table. */
  lemma GrowthIndex(i: nat, j: nat)
    requires i < 3 && j < 3
    ensures (6 * i + 2 * j) / 6 == i && (6 * i + 2 * j) / 2 % 3 == j && (6 * i + 2 * j) % 2 == 0
    ensures (6 * i + 2 * j + 1) / 6 == i && (6 * i + 2 * j + 1) / 2 % 3 == j && (6 * i + 2 * j + 1) % 2 == 1
  {
  }

  /** The comprehension keeps exactly the times of the matching rows. */
  lemma {:induction false} MatchingTimesMembers(rows: seq<Benchmark.Row>, pattern: string, n: int,
                                                algorithm: string, t: real)
    ensures t in MatchingTimes(rows, pattern, n, algorithm)
        <==> exists i :: 0 <= i < |rows| && Matches(rows[i], pattern, n, algorithm) && rows[i].time == t
  {
    if rows != [] {
      MatchingTimesMembers(rows[1..], pattern, n, algorithm, t);
      if exists i :: 0 <= i < |rows| && Matches(rows[i], pattern, n, algorithm) && rows[i].time == t {
        var i :| 0 <= i < |rows| && Matches(rows[i], pattern, n, algorithm) && rows[i].time == t;
        if i > 0 {
          assert rows[1..][i - 1] == rows[i];
        }
      }
      if exists i :: 0 <= i < |rows[1..]| && Matches(rows[1..][i], pattern, n, algorithm) && rows[1..][i].time == t {
        var i :| 0 <= i < |rows[1..]| && Matches(rows[1..][i], pattern, n, algorithm) && rows[1..][i].time == t;
        assert rows[i + 1] == rows[1..][i];
      }
    }
  }

  /** A lookup is NaN exactly when no row matches. */
  lemma {:induction false} LookupMissing(rows: seq<Benchmark.Row>, pattern: string, n: int, algorithm: string)
    ensures Lookup(rows, pattern, n, algorithm) == None
        <==> forall i :: 0 <= i < |rows| ==> !Matches(rows[i], pattern, n, algorithm)
  {
    var vals := MatchingTimes(rows, pattern, n, algorithm);
    if vals != [] {
      MatchingTimesMembers(rows, pattern, n, algorithm, vals[0]);
    } else {
      forall i | 0 <= i < |rows|
        ensures !Matches(rows[i], pattern, n, algorithm)
      {
        MatchingTimesMembers(rows, pattern, n, algorithm, rows[i].time);
      }
    }
  }

  /** A lookup that finds something returns the time of a matching row, and no matching
      row is faster. */
  lemma LookupIsFastest(rows: seq<Benchmark.Row>, pattern: string, n: int, algorithm: string)
    requires Lookup(rows, pattern, n, algorithm).Some?
    ensures var t := Lookup(rows, pattern, n, algorithm).value;
            (exists i :: 0 <= i < |rows| && Matches(rows[i], pattern, n, algorithm) && rows[i].time == t)
            && forall i :: 0 <= i < |rows| && Matches(rows[i], pattern, n, algorithm) ==> t <= rows[i].time
  {
    var vals := MatchingTimes(rows, pattern, n, algorithm);
    Benchmark.MinIsLeast(vals);
    MatchingTimesMembers(rows, pattern, n, algorithm, Benchmark.Min(vals));
    forall i | 0 <= i < |rows| && Matches(rows[i], pattern, n, algorithm)
      ensures Benchmark.Min(vals) <= rows[i].time
    {
      MatchingTimesMembers(rows, pattern, n, algorithm, rows[i].time);
    }
  }

  /** The two rows of a (pattern, algorithm) share the 2k time: "1k→2k" ends with the
      time that "2k→5k" starts from, and both carry the same pattern and algorithm. */
  lemma GrowthPairsChain(rows: seq<Benchmark.Row>, q: nat)
    requires q < 18 && q % 2 == 0
    ensures GrowthAt(rows, q).pair == "1k→2k" && GrowthAt(rows, q + 1).pair == "2k→5k"
    ensures GrowthAt(rows, q).after == GrowthAt(rows, q + 1).before
    ensures GrowthAt(rows, q).pattern == GrowthAt(rows, q + 1).pattern
    ensures GrowthAt(rows, q).algorithm == GrowthAt(rows, q + 1).algorithm
  {
    assert (q + 1) / 6 == q / 6 && (q + 1) / 2 == q / 2;
  }

  /** Every (pattern, algorithm) of the grid owns rows 6 * i + 2 * j and 6 * i + 2 * j + 1. */
  lemma GrowthGrid(rows: seq<Benchmark.Row>, i: nat, j: nat)
    requires i < 3 && j < 3
    ensures GrowthAt(rows, 6 * i + 2 * j).pattern == GROWTH_PATTERNS[i]
    ensures GrowthAt(rows, 6 * i + 2 * j).algorithm == GROWTH_ALGORITHMS[j]
    ensures GrowthAt(rows, 6 * i + 2 * j).before == Lookup(rows, GROWTH_PATTERNS[i], 1000, GROWTH_ALGORITHMS[j])
    ensures GrowthAt(rows, 6 * i + 2 * j + 1).after == Lookup(rows, GROWTH_PATTERNS[i], 5000, GROWTH_ALGORITHMS[j])
  {
    GrowthIndex(i, j);
  }

  /** A lookup finds something whenever some row matches, and it is no slower than that
      row. */
  lemma LookupBelowRow(rows: seq<Benchmark.Row>, pattern: string, n: int, algorithm: string, k: nat)
    requires k < |rows| && Matches(rows[k], pattern, n, algorithm)
    ensures Lookup(rows, pattern, n, algorithm).Some?
    ensures Lookup(rows, pattern, n, algorithm).value <= rows[k].time
  {
    LookupMissing(rows, pattern, n, algorithm);
    LookupIsFastest(rows, pattern, n, algorithm);
  }

  /** On the rows of a benchmark run, the lookup of a small size that was run finds a
      time no slower than the one the run recorded for it. */
  lemma LookupFindsSmallRow(patterns: seq<string>, sizes: seq<int>, large: seq<int>, repeats: int,
                            env: Benchmark.Env, q: nat, i: nat, a: nat)
    requires Benchmark.Benchmarks(patterns, sizes, large, repeats, env).Ok?
    requires q < |patterns| && i < |sizes| && a < 3
    ensures var rows := Benchmark.Benchmarks(patterns, sizes, large, repeats, env).value;
            var k := q * Benchmark.RowsPerPattern(sizes, large) + 3 * i + a;
            var found := Lookup(rows, patterns[q], sizes[i], Benchmark.ALGORITHMS[a].Name());
            found.Some? && found.value <= Benchmark.TimeAlgorithm(env, k, repeats).value
  {
    var rows := Benchmark.Benchmarks(patterns, sizes, large, repeats, env).value;
    assert q * Benchmark.RowsPerPattern(sizes, large) >= 0;
    var k := q * Benchmark.RowsPerPattern(sizes, large) + 3 * i + a;
    Benchmark.SmallRowAt(patterns, sizes, large, repeats, env, q, i, a);
    LookupBelowRow(rows, patterns[q], sizes[i], Benchmark.ALGORITHMS[a].Name(), k);
  }
}
