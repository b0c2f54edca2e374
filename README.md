# Sorting benchmark and file sorter, modelled in Dafny

This project models the algorithmic core of a small Python homework repository.

- `task_3.py` benchmarks three sorting algorithms:
  - a hand-written insertion sort;
  - a top-down merge sort;
  - the built-in `sorted` (Timsort).
- It times them on four kinds of input list ("random", "sorted", "reversed", "nearly_sorted") at several sizes.
- It then derives a table of growth factors between the sizes 1k, 2k and 5k.
- `task_1.py` copies files into sub-folders named after their extensions. It renames a file `name (1).ext`, `name (2).ext`, ... when its name is taken.

The modules follow the program's structure:

| file | module | models |
|---|---|---|
| `common.dfy` | `Common` | `Option`, `Result` and the three exceptions this model covers |
| `sorting.dfy` | `Sorting` | `insertion_sort` (in place on a buffer), `_merge` (two-index loop), `merge_sort` (recursive) |
| `datasets.dfy` | `Datasets` | `make_dataset`, with the random stream as a parameter and "nearly_sorted" swapped in place |
| `benchmark.dfy` | `Benchmark` | the `ALGORITHMS` dictionary, `time_algorithm`, `run_benchmarks` |
| `growth.dfy` | `Growth` | `compute_growth` up to, but not including, the float division |
| `file_names.dfy` | `FileNames` | `ext_folder_for` and `uniquify` |

The model treats the outside world as inputs:

- The random generator `random.Random(seed)` becomes `Datasets.Rng`, a function giving the value of the k-th draw.
- Timing becomes `Benchmark.Env.clock(c, k)`: the duration that the k-th repeat of the c-th `time_algorithm` call of a run measured.
- Within one run, the c-th timing call produces the c-th row.
- The existence check of `uniquify` is membership in a finite set of existing paths.
- pathlib's `suffixes`, `stem` and `suffix` are inputs.

Every loop of the source is a Dafny method with invariants, and each loop method's `ensures` give its result or its new state in terms of its inputs. Most are proved equal to a specification function: `Merge` to `Merged`, `MakeDataset` to `Dataset`, `RunBenchmarks` to `Benchmarks`, `ComputeGrowth` to `GrowthAt`. Lemmas then state the properties of those functions. The other loop methods state their result directly. `InsertionSort` returns a sorted permutation of its input. `InsertKey` gives the array after one pass. `Uniquify` returns the least free name.

## Model

| member | source | states |
|---|---|---|
| Sorting.InsertionSort | task_3.py:29-38 | the result is non-decreasing, is a permutation of the input, and equals merge sort's result; the input list is a value and is unchanged |
| Sorting.InsertKey | task_3.py:32-37 | one outer pass makes the first i + 1 elements non-decreasing and a permutation of what they were; the elements after position i stay where they are |
| Sorting.Merge | task_3.py:40-50 | the two-index loop, followed by the two extends once either list is used up, returns the merge of the two lists, whose properties the next rows state |
| Sorting.MergedPermutes | task_3.py:40-50 | the merge holds exactly the elements of both lists |
| Sorting.MergedSorted | task_3.py:43-49 | merging two non-decreasing lists gives a non-decreasing list |
| Sorting.MergeInterleaves | task_3.py:43-49 | the merge interleaves its inputs: read off by source, it gives back the left and the right list in their own order |
| Sorting.FromLeftIsInLeft | task_3.py:44-45 | an element taken from the left list belongs to the left list |
| Sorting.MergeLeftFirstOnTies | task_3.py:44-47 | stability: a right element precedes a left element only if strictly smaller, so equal values keep the left list first |
| Sorting.MergeSort | task_3.py:52-57 | the result is non-decreasing and a permutation of the input; lists of length at most one come back unchanged |
| Sorting.SortedPermutationUnique | task_3.py:52-60 | a non-decreasing permutation is unique, so all three algorithms agree on every input |
| Sorting.SortContractDetermines | task_3.py:59-60 | any sort meeting the sort contract, the built-in one included, returns what merge sort returns |
| Sorting.ReversedFiveSorts | task_3.py:52-57 | merge sort of [5, 4, 3, 2, 1] is [1, 2, 3, 4, 5] |
| Datasets.RandomValues | task_3.py:73-74 | "random" gives n values, each in [0, 1 000 000] |
| Datasets.SortedRange | task_3.py:75-76 | "sorted" is 0, 1, ..., n - 1 |
| Datasets.ReversedRange | task_3.py:77-78 | "reversed" is n, n - 1, ..., 1 |
| Datasets.SwapCount | task_3.py:81 | max(1, n // 100): at least 1 and at least n // 100, and one of the two; n // 100 from n = 100 on, 1 below n = 200 |
| Datasets.ApplySwaps | task_3.py:80-84 | after t swaps the list is a permutation of range(n), displaced only at indices the swaps named |
| Datasets.NearlySortedDisplacement | task_3.py:80-85 | "nearly_sorted" differs from range(n) in at most 2 * max(1, n // 100) positions |
| Datasets.Dataset | task_3.py:71-86 | make_dataset returns exactly for a known pattern, and for "nearly_sorted" only when n > 0; it returns max(n, 0) values; an unknown pattern raises ValueError, and "nearly_sorted" with n <= 0 raises the empty-range error |
| Datasets.MakeDataset | task_3.py:71-86 | the branching method computes make_dataset |
| Datasets.NearlySortedInPlace | task_3.py:79-85 | the in-place swap loop yields the "nearly_sorted" list, and raises for n <= 0 |
| Datasets.SwapStep | task_3.py:83-84 | one loop iteration performs the next seeded swap |
| Datasets.SwapInPlace | task_3.py:84 | the exchange a[i], a[j] = a[j], a[i] turns the buffer into Swap of its old contents |
| Datasets.Swap | task_3.py:84 | the swapped list has the same length and the same elements; position i holds the old a[j], position j the old a[i], and every other position is unchanged |
| Datasets.ReversedFive | task_3.py:77-78 | make_dataset(5, "reversed") is [5, 4, 3, 2, 1] for every seed |
| Benchmark.Algorithm.Name | task_3.py:62-66 | the key "Insertion" belongs to insertion sort and to no other entry |
| Benchmark.TimingsAt | task_3.py:95 | timer.repeat(repeat=repeats, number=1), modelled by the function Timings, gives one duration per repeat and none when repeats < 1; the k-th is the k-th measured repeat |
| Benchmark.TimeAlgorithm | task_3.py:91-96 | time_algorithm raises exactly when repeats < 1, because min of no timings raises |
| Benchmark.TimeAlgorithmIsFastest | task_3.py:95-96 | the reported time is one of the measured repeats and no larger than any of them |
| Benchmark.MinIsLeast | task_3.py:96 | min returns an element of the list that is no larger than any element |
| Benchmark.LargeAlgorithms | task_3.py:104-112 | small sizes time Insertion, Merge and Timsort in dictionary order; large sizes time Merge and Timsort only |
| Benchmark.AlgorithmRows | task_3.py:104-114 | timing one dataset succeeds exactly when nothing is timed or repeats >= 1, and gives one row per algorithm |
| Benchmark.RunBenchmarks | task_3.py:98-115 | the nested loops compute the specification of run_benchmarks, the first exception included |
| Benchmark.TimePattern | task_3.py:100-114 | the body of the pattern loop times the pattern's small sizes, then its large sizes, and equals PatternRows, the first exception included |
| Benchmark.TimeSizes | task_3.py:102-114 | the loop over one size list builds each dataset, then times it |
| Benchmark.TimeSize | task_3.py:102-114 | one pass of the size loop builds the dataset make_dataset gives with seed 123 for a small size and 777 for a large one, then extends the rows of the sizes before it by the rows of the next size, or raises the first exception of that size |
| Benchmark.LoadDataset | task_3.py:103 | the dataset is make_dataset's result for that seed; it returns exactly when the pattern is known and, for "nearly_sorted", n >= 1; otherwise it raises ValueError for an unknown pattern and the empty-range error for "nearly_sorted" |
| Benchmark.WithoutInsertionMembers | task_3.py:110-112 | skipping the "Insertion" key keeps every other entry of the dictionary and nothing else |
| Benchmark.TimeAlgorithms | task_3.py:104-114 | the loop over the dictionary times every entry, skipping "Insertion" for a large size |
| Benchmark.BenchmarksSucceeds | task_3.py:98-115 | run_benchmarks returns exactly when every pattern that has at least one size to run is known, no "nearly_sorted" size is below 1, and repeats >= 1 whenever anything is timed |
| Benchmark.BenchmarksLength | task_3.py:98-115 | a successful run has |patterns| * (3 * |sizes| + 2 * |large_sizes|) rows |
| Benchmark.BenchmarksNoSizes | task_3.py:98-115 | with both size lists empty the run returns no rows and raises nothing, whatever the patterns are, since make_dataset is never called |
| Benchmark.SmallRowAt | task_3.py:100-106 | row q * B + 3 * i + a is the a-th algorithm on pattern q at small size i; B is the number of rows per pattern; its time is the fastest repeat of its timing call |
| Benchmark.LargeRowAt | task_3.py:107-114 | row q * B + 3 * |sizes| + 2 * i + a is Merge (a = 0) or Timsort (a = 1) on pattern q at large size i |
| Benchmark.BenchmarksErrorPersists | task_3.py:98-115 | once a prefix of the patterns raises, the whole run raises the same exception |
| Benchmark.SizeRowsErrorPersists | task_3.py:102-114 | once a prefix of a size list raises, the whole loop raises the same exception |
| Benchmark.OneSizeEachRun | task_3.py:98-115 | a run over one pattern with one small size n, one large size m and one repeat gives five rows: Insertion, Merge and Timsort on n, then Merge and Timsort on m, each holding the single duration of its own timing call |
| Benchmark.ExampleRun | task_3.py:98-115 | one pattern, sizes [10] and [100], one repeat: five rows in the order Insertion, Merge, Timsort, Merge, Timsort |
| Benchmark.ExampleErrors | task_3.py:98-115 | the first exception wins: an unknown pattern, then the empty range of "nearly_sorted", then the empty timings |
| Growth.ComputeGrowth | task_3.py:134-152 | the table has 18 rows; row q holds the pattern, algorithm, pair label and the two looked-up times the growth factor divides |
| Growth.LadderTimes | task_3.py:140-145 | ts holds one lookup per ladder size 1000, 2000, 5000, in that order |
| Growth.MatchingTimesMembers | task_3.py:142-143 | the comprehension holds exactly the times of the rows that match pattern, n and algorithm |
| Growth.LookupMissing | task_3.py:144 | a lookup is NaN exactly when no row matches |
| Growth.LookupIsFastest | task_3.py:145 | a found lookup is the time of a matching row, and no matching row is faster |
| Growth.GrowthPairsChain | task_3.py:146-151 | the "1k→2k" row is followed by the "2k→5k" row of the same pattern and algorithm, and the two share the 2k time |
| Growth.GrowthGrid | task_3.py:135-151 | pattern i and algorithm j own rows 6 * i + 2 * j and 6 * i + 2 * j + 1; these span the 1k time to the 5k time |
| Growth.LookupBelowRow | task_3.py:142-145 | a lookup finds a time whenever some row matches, and that time is no slower than the matching row |
| Growth.LookupFindsSmallRow | task_3.py:142-145 | on the rows of a run, the lookup of a small size that was run finds a time, no slower than the one recorded |
| FileNames.Concat | task_1.py:63 | "".join of the suffixes starts with the first suffix |
| FileNames.ConcatSnoc | task_1.py:63 | joining one more suffix appends it to the join of the others |
| FileNames.LStripDots | task_1.py:63 | lstrip(".") drops exactly the leading dots |
| FileNames.LowerChar | task_1.py:63 | lower() leaves no upper-case ASCII letter, shifts each one to its lower-case letter and changes no other character (ASCII model) |
| FileNames.Lower | task_1.py:63 | lower() on the joined name keeps its length, leaves no upper-case ASCII letter and changes no other character (ASCII model) |
| FileNames.LowerIdempotent | task_1.py:63 | lower-casing twice is lower-casing once |
| FileNames.ExtFolderFor | task_1.py:53-64 | no suffix gives "_no_ext"; otherwise the name has no leading dot, no upper-case letter, and is no longer than the joined suffixes |
| FileNames.ExtFolderKeepsInnerDots | task_1.py:62-64 | for any list pathlib can report as suffixes, lstrip(".") drops the bare "." entries at the front and the first dot of the next entry, nothing more, so a multi-part type keeps its inner dots |
| FileNames.ExtFolderDropsFirstDot | task_1.py:62-64 | for suffixes whose first entry is more than a bare dot, exactly the first dot goes |
| FileNames.ExtFolderDoubledDot | task_1.py:62-64 | "file..txt", whose suffixes are [".", ".txt"], goes to "txt": two dots are stripped |
| FileNames.ExtFolderTarGz | task_1.py:57-58 | [".tar", ".GZ"] gives "tar.gz" |
| FileNames.ExtFolderNoExtClash | task_1.py:56-61 | a file with the extension "._NO_EXT" shares the "_no_ext" folder with files that have no extension |
| FileNames.ParseDec | task_1.py:76 | the decimal digits of the counter read back as the counter |
| FileNames.CandidateInjective | task_1.py:76 | distinct counters give distinct candidate names |
| FileNames.Uniquify | task_1.py:67-78 | a free name is returned unchanged; otherwise the result is free, has the form "stem (i)suffix" in the same directory, and uses the least such i >= 1; i is at most the number of existing paths plus one, so the probe loop ends |

## Left out

- Real timing is not modelled. That covers `timeit.Timer`, `Timer.repeat` and the statement that sorts a copy of the data and discards the result. Durations are the inputs `Env.clock`.
- The built-in `sorted` (Timsort) is not modelled. `Sorting.SortContractDetermines` shows that any sort with its contract returns what `Sorting.MergeSort` returns.
- The internals of `random.Random` are not modelled: the Mersenne Twister, seeding, and how `randint` and `randrange` map its bits to a range. `Datasets.Rng` takes the k-th draw as given and reduces it into the requested range.
- Benchmark.RunBenchmarks: the specification uses only whether and how `make_dataset` raises, not the dataset's contents. The contents only reach the measured durations, and those are inputs.
- Growth.ComputeGrowth: the growth factors `ts[1] / ts[0]` and `ts[2] / ts[1]` are floating-point divisions. They produce NaN when a time is missing and raise ZeroDivisionError when the divisor is 0.0. The model stops at the two looked-up times of each row.
- Report writing (CSV, plots, README generation), the command line, and `task_2.py` are not part of this model.
- In `task_1.py`, the directory walk, copying and error handling are not part of this model. That covers `is_subpath`, `safe_copy` and the CLI.
- FileNames.ExtFolderFor: `lower()` is modelled for ASCII letters only. Other Unicode case mappings are not modelled.
- FileNames.LowerChar: only `A` to `Z` are lowered. Python's `lower()` also maps non-ASCII capitals such as `É`, which this model leaves unchanged.
- FileNames.Lower: built from `LowerChar`, so it lowers only `A` to `Z` and keeps the length; Python's `lower()` on non-ASCII text can also change the length (`İ` becomes two characters).
- FileNames.ExtFolderFor: "_no_ext" is returned for every name without a suffix, but not only for those. `FileNames.ExtFolderNoExtClash` shows a suffixed name that maps to the same folder.
- FileNames.Uniquify: pathlib's split of the name into `stem` and `suffix` is taken as input. The existence check is a snapshot set, so files created during the search are not modelled.
- Datasets.NearlySortedInPlace: for n <= 0 the model raises before the swap loop. The source raises in the first `randrange(n)` of that loop, which always runs at least once.
