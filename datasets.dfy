/** make_dataset of task_3.py: closed-form "sorted" and "reversed" lists, "random" values
    drawn from a seeded stream, and "nearly_sorted", the identity list with a few seeded
    swaps done in place. */
module Datasets {
  import opened Common

  /** The seeded stream random.Random(seed). Every randint and randrange call in
      make_dataset comes down to one call of _randbelow(bound); draw(k, bound) stands for
      what the k-th such call yields. The generator's internals are not modelled. */
  datatype Rng = Rng(draw: (nat, nat) -> nat)

  /** The k-th call _randbelow(bound): a value in [0, bound). */
  function Below(rng: Rng, k: nat, bound: nat): (v: nat)
    requires bound > 0
    ensures v < bound
  {
    rng.draw(k, bound) % bound
  }

  /** Upper bound of rnd.randint(0, 1_000_000). */
  const RANDOM_MAX: int := 1_000_000

  /** Length of range(n): a negative count gives an empty range. */
  function Size(n: int): nat {
    if n < 0 then 0 else n
  }

  /** list(range(n)), counted up from 0. */
  function SortedRange(n: nat): (r: seq<int>)
    ensures |r| == n
    ensures forall k :: 0 <= k < n ==> r[k] == k
  {
    if n == 0 then [] else SortedRange(n - 1) + [n - 1]
  }

  /** list(range(n, 0, -1)), counted down from n. */
  function ReversedRange(n: nat): (r: seq<int>)
    ensures |r| == n
    ensures forall k :: 0 <= k < n ==> r[k] == n - k
  {
    if n == 0 then [] else [n] + ReversedRange(n - 1)
  }

  /** [rnd.randint(0, 1_000_000) for _ in range(n)]: the k-th value is the k-th draw. */
  function RandomValues(n: nat, rng: Rng): (r: seq<int>)
    ensures |r| == n
    ensures forall k :: 0 <= k < n ==> 0 <= r[k] <= RANDOM_MAX
  {
    seq(n, k requires 0 <= k < n => Below(rng, k, RANDOM_MAX + 1))
  }

  /** max(1, n // 100): the number of swaps of nearly_sorted (Python's // floors, as Dafny's
      division by a positive constant does). */
  function SwapCount(n: int): (c: int)
    ensures c >= 1 && c >= n / 100
    ensures c == 1 || c == n / 100
    ensures n >= 100 ==> c == n / 100
    ensures n < 200 ==> c == 1
  {
    if n / 100 > 1 then n / 100 else 1
  }

  /** a[i], a[j] = a[j], a[i] */
  function Swap(s: seq<int>, i: nat, j: nat): (r: seq<int>)
    requires i < |s| && j < |s|
    ensures |r| == |s|
    ensures multiset(r) == multiset(s)
    ensures r[i] == s[j] && r[j] == s[i]
    ensures forall k :: 0 <= k < |s| && k != i && k != j ==> r[k] == s[k]
  {
    s[i := s[j]][j := s[i]]
  }

  /** The two indices of swap number m: rnd.randrange(n) twice, i first. */
  function SwapLeft(n: nat, rng: Rng, m: nat): nat
    requires n > 0
  {
    Below(rng, 2 * m, n)
  }

  function SwapRight(n: nat, rng: Rng, m: nat): nat
    requires n > 0
  {
    Below(rng, 2 * m + 1, n)
  }

  /** range(n) after the first t swaps of nearly_sorted. */
  function ApplySwaps(n: nat, rng: Rng, t: nat): (r: seq<int>)
    requires n > 0
    ensures |r| == n
    ensures multiset(r) == multiset(SortedRange(n))
    ensures Displaced(r) <= Touched(n, rng, t)
  {
    if t == 0 then SortedRange(n)
    else
      var prev := ApplySwaps(n, rng, t - 1);
      var i, j := SwapLeft(n, rng, t - 1), SwapRight(n, rng, t - 1);
      DisplacedAfterSwap(prev, i, j);
      Swap(prev, i, j)
  }

  /** The "nearly_sorted" list of a positive length. */
  function NearlySorted(n: nat, rng: Rng): seq<int>
    requires n > 0
  {
    ApplySwaps(n, rng, SwapCount(n))
  }

  /** The four pattern names make_dataset knows. */
  predicate KnownPattern(pattern: string) {
    pattern == "random" || pattern == "sorted" || pattern == "reversed" || pattern == "nearly_sorted"
  }

  /** make_dataset returns (rather than raises) exactly for a known pattern, and for
      "nearly_sorted" only when n is positive: its first swap calls randrange(n). */
  predicate DatasetDefined(n: int, pattern: string) {
    KnownPattern(pattern) && (pattern == "nearly_sorted" ==> n > 0)
  }

  /** What make_dataset(n, pattern, seed) returns or raises, for the stream of that seed. */
  function Dataset(n: int, pattern: string, rng: Rng): (r: Result<seq<int>, Error>)
    ensures r.Ok? <==> DatasetDefined(n, pattern)
    ensures r.Ok? ==> |r.value| == Size(n)
    ensures r.Err? && !KnownPattern(pattern) ==> r.error == UnknownPattern
    ensures r.Err? && KnownPattern(pattern) ==> r.error == EmptyRange
  {
    if pattern == "random" then Ok(RandomValues(Size(n), rng))
    else if pattern == "sorted" then Ok(SortedRange(Size(n)))
    else if pattern == "reversed" then Ok(ReversedRange(Size(n)))
    else if pattern == "nearly_sorted" then
      if n <= 0 then Err(EmptyRange) else Ok(NearlySorted(n, rng))
    else Err(UnknownPattern)
  }

  /** make_dataset: the pure shapes are built directly; "nearly_sorted" swaps entries of a
      buffer holding range(n), drawing both indices of each swap from the stream. */
  method MakeDataset(n: int, pattern: string, rng: Rng) returns (r: Result<seq<int>, Error>)
    ensures r == Dataset(n, pattern, rng)
  {
    if pattern == "random" {
      return Ok(RandomValues(Size(n), rng));
    }
    if pattern == "sorted" {
      return Ok(SortedRange(Size(n)));
    }
    if pattern == "reversed" {
      return Ok(ReversedRange(Size(n)));
    }
    if pattern == "nearly_sorted" {
      r := NearlySortedInPlace(n, rng);
      return;
    }
    return Err(UnknownPattern);
  }

  /** The "nearly_sorted" branch: range(n) in a buffer, then max(1, n // 100) swaps. */
  method NearlySortedInPlace(n: int, rng: Rng) returns (r: Result<seq<int>, Error>)
    ensures n <= 0 ==> r == Err(EmptyRange)
    ensures n > 0 ==> r == Ok(NearlySorted(n, rng))
  {
    var a := new int[Size(n)](k => k);
    var swaps := SwapCount(n);
    if n <= 0 {
      // swaps is at least 1, so the first randrange(n) of the loop raises
      return Err(EmptyRange);
    }
    var t := 0;
    while t < swaps
      invariant 0 <= t <= swaps
      invariant a.Length == n
      invariant a[..] == ApplySwaps(n, rng, t)
    {
      SwapStep(a, n, rng, t);
      t := t + 1;
    }
    return Ok(a[..]);
  }

  /** Swap number t + 1: i = rnd.randrange(n), j = rnd.randrange(n), then the exchange. */
  method SwapStep(a: array<int>, n: nat, rng: Rng, t: nat)
    requires n > 0 && a.Length == n
    requires a[..] == ApplySwaps(n, rng, t)
    modifies a
    ensures a[..] == ApplySwaps(n, rng, t + 1)
  {
    var i := Below(rng, 2 * t, n);
    var j := Below(rng, 2 * t + 1, n);
    SwapInPlace(a, i, j);
    ApplySwapsStep(n, rng, t);
  }

  /** a[i], a[j] = a[j], a[i] on the buffer. */
  method SwapInPlace(a: array<int>, i: nat, j: nat)
    requires i < a.Length && j < a.Length
    modifies a
    ensures a[..] == Swap(old(a[..]), i, j)
  {
    var ai, aj := a[i], a[j];
    a[i] := aj;
    a[j] := ai;
  }

  /** Swap number t + 1 applied to the list after t swaps. */
  lemma ApplySwapsStep(n: nat, rng: Rng, t: nat)
    requires n > 0
    ensures ApplySwaps(n, rng, t + 1)
         == Swap(ApplySwaps(n, rng, t), SwapLeft(n, rng, t), SwapRight(n, rng, t))
  {
  }

  /** The positions where a list differs from range(|s|). */
  function Displaced(s: seq<int>): set<nat> {
    set k: nat | k < |s| && s[k] != k
  }

  /** The indices named by the first t swaps. */
  function Touched(n: nat, rng: Rng, t: nat): set<nat>
    requires n > 0
  {
    if t == 0 then {}
    else Touched(n, rng, t - 1) + {SwapLeft(n, rng, t - 1), SwapRight(n, rng, t - 1)}
  }

  /** A swap can put out of place only the two indices it names. */
  lemma DisplacedAfterSwap(s: seq<int>, i: nat, j: nat)
    requires i < |s| && j < |s|
    ensures Displaced(Swap(s, i, j)) <= Displaced(s) + {i, j}
  {
  }

  /** t swaps name at most 2t indices. */
  lemma {:induction false} TouchedCount(n: nat, rng: Rng, t: nat)
    requires n > 0
    ensures |Touched(n, rng, t)| <= 2 * t
  {
    if t > 0 {
      TouchedCount(n, rng, t - 1);
      var prev := Touched(n, rng, t - 1);
      var pair := {SwapLeft(n, rng, t - 1), SwapRight(n, rng, t - 1)};
      assert |pair| <= 2;
      assert |prev + pair| <= |prev| + |pair|;
    }
  }

  /** "nearly_sorted" differs from range(n) in at most 2 * max(1, n // 100) positions. */
  lemma NearlySortedDisplacement(n: nat, rng: Rng)
    requires n > 0
    ensures |Displaced(NearlySorted(n, rng))| <= 2 * SwapCount(n)
  {
    TouchedCount(n, rng, SwapCount(n));
    SubsetCard(Displaced(NearlySorted(n, rng)), Touched(n, rng, SwapCount(n)));
  }

  /** make_dataset(5, "reversed") == [5, 4, 3, 2, 1], whatever the seed. */
  lemma ReversedFive(rng: Rng)
    ensures Dataset(5, "reversed", rng) == Ok([5, 4, 3, 2, 1])
  {
    var r := ReversedRange(5);
    assert r[0] == 5 && r[1] == 4 && r[2] == 3 && r[3] == 2 && r[4] == 1;
    assert r == [5, 4, 3, 2, 1];
  }
}
