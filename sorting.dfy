/** The two hand-written sorting routines of task_3.py: insertion sort on a copy of the
    list, and top-down merge sort with a two-index merge that prefers the left list on ties. */
module Sorting {

  /** Non-decreasing order. */
  ghost predicate IsSorted(s: seq<int>) {
    forall p, q :: 0 <= p < q < |s| ==> s[p] <= s[q]
  }

  /** The first n elements of s are in non-decreasing order. */
  ghost predicate SortedPrefix(s: seq<int>, n: nat) {
    forall p, q :: 0 <= p < q < n && q < |s| ==> s[p] <= s[q]
  }

  /** Insertion sort: copies the list into a buffer and, for every position, shifts the
      larger elements of the sorted prefix one step right before dropping the key in. */
  method InsertionSort(lst: seq<int>) returns (r: seq<int>)
    ensures IsSorted(r)
    ensures multiset(r) == multiset(lst)
    ensures r == MergeSort(lst)
  {
    var a := new int[|lst|](k requires 0 <= k < |lst| => lst[k]);
    assert a[..] == lst;
    var i := 1;
    while i < a.Length
      invariant 1 <= i
      invariant SortedPrefix(a[..], i)
      invariant multiset(a[..]) == multiset(lst)
    {
      InsertKey(a, i);
      i := i + 1;
    }
    r := a[..];
    SortContractDetermines(lst, r);
  }

  /** One pass of the outer loop of insertion sort: with a[..i] sorted, the key a[i] is
      moved left past every larger element, each of which shifts one step right. */
  method InsertKey(a: array<int>, i: nat)
    requires i < a.Length
    requires SortedPrefix(a[..], i)
    modifies a
    ensures SortedPrefix(a[..], i + 1)
    ensures multiset(a[..i + 1]) == multiset(old(a[..i + 1]))
    ensures a[i + 1..] == old(a[i + 1..])
    ensures multiset(a[..]) == multiset(old(a[..]))
  {
    var key := a[i];
    var j := i - 1;
    ShiftStart(a[..], i);
    while j >= 0 && key < a[j]
      invariant ShiftState(a[..], i, j, key)
      invariant multiset(a[..][j + 1 := key]) == multiset(old(a[..]))
      invariant a[i + 1..] == old(a[i + 1..])
    {
      ShiftStep(a[..], i, j, key);
      a[j + 1] := a[j];
      j := j - 1;
    }
    ShiftDone(a[..], i, j, key);
    a[j + 1] := key;
    PrefixMultiset(a[..], old(a[..]), i + 1);
  }

  /** Two lists with the same elements and the same suffix have the same elements before it. */
  lemma PrefixMultiset(s: seq<int>, t: seq<int>, n: nat)
    requires n <= |s| == |t| && s[n..] == t[n..]
    requires multiset(s) == multiset(t)
    ensures multiset(s[..n]) == multiset(t[..n])
  {
    assert s == s[..n] + s[n..];
    assert t == t[..n] + t[n..];
    assert multiset(s) == multiset(s[..n]) + multiset(s[n..]);
    assert multiset(t) == multiset(t[..n]) + multiset(t[n..]);
    assert multiset(s[..n]) == multiset(s) - multiset(s[n..]);
    assert multiset(t[..n]) == multiset(t) - multiset(t[n..]);
  }

  /** The state of the shifting loop: slots 0..i other than the hole at j + 1 are in order,
      and every slot right of the hole holds a value larger than the key. */
  ghost predicate ShiftState(s: seq<int>, i: nat, j: int, key: int) {
    && -1 <= j < i < |s|
    && (forall p, q :: 0 <= p < q <= i && p != j + 1 && q != j + 1 ==> s[p] <= s[q])
    && (forall k :: j + 1 < k <= i ==> key < s[k])
  }

  lemma ShiftStart(s: seq<int>, i: nat)
    requires i < |s| && SortedPrefix(s, i)
    ensures ShiftState(s, i, i - 1, s[i])
    ensures s[i := s[i]] == s
  {
  }

  /** Shifting s[j] into the hole moves the hole one step left and keeps the elements. */
  lemma ShiftStep(s: seq<int>, i: nat, j: int, key: int)
    requires ShiftState(s, i, j, key) && j >= 0 && key < s[j]
    ensures ShiftState(s[j + 1 := s[j]], i, j - 1, key)
    ensures multiset(s[j + 1 := s[j]][j := key]) == multiset(s[j + 1 := key])
  {
    var t := s[j + 1 := key];
    assert s[j + 1 := s[j]][j := key] == t[j := t[j + 1]][j + 1 := t[j]];
  }

  lemma ShiftDone(s: seq<int>, i: nat, j: int, key: int)
    requires ShiftState(s, i, j, key) && (j < 0 || s[j] <= key)
    ensures SortedPrefix(s[j + 1 := key], i + 1)
  {
  }

  /** The merge of _merge, written as a recursive function: the smaller head goes first,
      and the left head goes first when the two heads are equal. */
  function Merged(left: seq<int>, right: seq<int>): (r: seq<int>)
    ensures |r| == |left| + |right|
    decreases |left| + |right|
  {
    if left == [] then right
    else if right == [] then left
    else if left[0] <= right[0] then [left[0]] + Merged(left[1..], right)
    else [right[0]] + Merged(left, right[1..])
  }

  /** The merge holds exactly the elements of both lists. */
  lemma {:induction false} MergedPermutes(left: seq<int>, right: seq<int>)
    ensures multiset(Merged(left, right)) == multiset(left) + multiset(right)
    decreases |left| + |right|
  {
    if left == [] || right == [] {
    } else if left[0] <= right[0] {
      MergedPermutes(left[1..], right);
      MultisetHead(left);
      MultisetHead(Merged(left, right));
    } else {
      MergedPermutes(left, right[1..]);
      MultisetHead(right);
      MultisetHead(Merged(left, right));
    }
  }

  lemma MultisetHead(s: seq<int>)
    requires s != []
    ensures multiset(s) == multiset{s[0]} + multiset(s[1..])
  {
    assert s == [s[0]] + s[1..];
  }

  /** Which list each element of Merged(left, right) was taken from. */
  datatype Side = FromLeft | FromRight

  function MergeSources(left: seq<int>, right: seq<int>): (r: seq<Side>)
    ensures |r| == |left| + |right|
    decreases |left| + |right|
  {
    if left == [] then seq(|right|, _ => FromRight)
    else if right == [] then seq(|left|, _ => FromLeft)
    else if left[0] <= right[0] then [FromLeft] + MergeSources(left[1..], right)
    else [FromRight] + MergeSources(left, right[1..])
  }

  /** The elements of `out` whose source is `side`, in order. */
  function Picked(out: seq<int>, src: seq<Side>, side: Side): seq<int>
    requires |out| == |src|
  {
    if out == [] then []
    else (if src[0] == side then [out[0]] else []) + Picked(out[1..], src[1..], side)
  }

  /** _merge: two indices walk the lists, appending the smaller head (the left one on a tie);
      whatever remains of either list is appended at the end. */
  method Merge(left: seq<int>, right: seq<int>) returns (res: seq<int>)
    ensures res == Merged(left, right)
  {
    res := [];
    var i, j := 0, 0;
    while i < |left| && j < |right|
      invariant 0 <= i <= |left| && 0 <= j <= |right|
      invariant Merged(left, right) == res + Merged(left[i..], right[j..])
      decreases |left| - i + |right| - j
    {
      MergeLoopStep(left, right, i, j, res);
      if left[i] <= right[j] {
        res := res + [left[i]];
        i := i + 1;
      } else {
        res := res + [right[j]];
        j := j + 1;
      }
    }
    MergeLoopDone(left, right, i, j, res);
    if i < |left| {
      res := res + left[i..];
    }
    if j < |right| {
      res := res + right[j..];
    }
  }

  /** The loop invariant of _merge survives appending the smaller head. */
  lemma MergeLoopStep(left: seq<int>, right: seq<int>, i: nat, j: nat, res: seq<int>)
    requires i < |left| && j < |right|
    requires Merged(left, right) == res + Merged(left[i..], right[j..])
    ensures left[i] <= right[j] ==> Merged(left, right) == (res + [left[i]]) + Merged(left[i + 1..], right[j..])
    ensures right[j] < left[i] ==> Merged(left, right) == (res + [right[j]]) + Merged(left[i..], right[j + 1..])
  {
    MergedStep(left, right, i, j);
    if left[i] <= right[j] {
      Assoc(res, [left[i]], Merged(left[i + 1..], right[j..]));
    } else {
      Assoc(res, [right[j]], Merged(left[i..], right[j + 1..]));
    }
  }

  /** Concatenation is associative; kept apart so the merge step sees only this instance. */
  lemma Assoc(a: seq<int>, b: seq<int>, c: seq<int>)
    ensures a + (b + c) == (a + b) + c
  {
  }

  /** When the loop of _merge stops, what remains of the lists completes the merge. */
  lemma MergeLoopDone(left: seq<int>, right: seq<int>, i: nat, j: nat, res: seq<int>)
    requires i <= |left| && j <= |right| && (i == |left| || j == |right|)
    requires Merged(left, right) == res + Merged(left[i..], right[j..])
    ensures i == |left| ==> Merged(left, right) == res + right[j..]
    ensures j == |right| ==> Merged(left, right) == res + left[i..]
    ensures i == |left| && j == |right| ==> Merged(left, right) == res
  {
    MergedRest(left[i..], right[j..]);
    if i == |left| {
      assert left[i..] == [];
    }
    if j == |right| {
      assert right[j..] == [];
    }
  }

  /** Once either list is used up, the merge is the rest of the other one. */
  lemma MergedRest(left: seq<int>, right: seq<int>)
    requires left == [] || right == []
    ensures Merged(left, right) == left + right
  {
  }

  /** One step of the merge loop, stated on the unmerged suffixes. */
  lemma MergedStep(left: seq<int>, right: seq<int>, i: nat, j: nat)
    requires i < |left| && j < |right|
    ensures left[i] <= right[j] ==>
      Merged(left[i..], right[j..]) == [left[i]] + Merged(left[i + 1..], right[j..])
    ensures right[j] < left[i] ==>
      Merged(left[i..], right[j..]) == [right[j]] + Merged(left[i..], right[j + 1..])
  {
    assert left[i..][1..] == left[i + 1..];
    assert right[j..][1..] == right[j + 1..];
  }

  /** Merging two non-decreasing lists gives a non-decreasing list. */
  lemma {:induction false} MergedSorted(left: seq<int>, right: seq<int>)
    requires IsSorted(left) && IsSorted(right)
    ensures IsSorted(Merged(left, right))
    decreases |left| + |right|
  {
    if left == [] || right == [] {
    } else if left[0] <= right[0] {
      MergedSorted(left[1..], right);
      MergedLowerBound(left[1..], right, left[0]);
      SortedCons(left[0], Merged(left[1..], right));
    } else {
      MergedSorted(left, right[1..]);
      MergedLowerBound(left, right[1..], right[0]);
      SortedCons(right[0], Merged(left, right[1..]));
    }
  }

  /** A lower bound of both lists is a lower bound of their merge. */
  lemma {:induction false} MergedLowerBound(left: seq<int>, right: seq<int>, x: int)
    requires forall k :: 0 <= k < |left| ==> x <= left[k]
    requires forall k :: 0 <= k < |right| ==> x <= right[k]
    ensures forall k :: 0 <= k < |left| + |right| ==> x <= Merged(left, right)[k]
    decreases |left| + |right|
  {
    if left == [] || right == [] {
    } else if left[0] <= right[0] {
      MergedLowerBound(left[1..], right, x);
    } else {
      MergedLowerBound(left, right[1..], x);
    }
  }

  /** Prepending a lower bound keeps a list non-decreasing. */
  lemma SortedCons(x: int, s: seq<int>)
    requires IsSorted(s)
    requires forall k :: 0 <= k < |s| ==> x <= s[k]
    ensures IsSorted([x] + s)
  {
    var t := [x] + s;
    forall p, q | 0 <= p < q < |t| ensures t[p] <= t[q] {
      if p > 0 {
        assert t[p] == s[p - 1] && t[q] == s[q - 1];
      }
    }
  }

  /** The merge is an interleaving: read off by source, it gives back the left list and the
      right list, each in its own order. */
  lemma {:induction false} MergeInterleaves(left: seq<int>, right: seq<int>)
    ensures Picked(Merged(left, right), MergeSources(left, right), FromLeft) == left
    ensures Picked(Merged(left, right), MergeSources(left, right), FromRight) == right
    decreases |left| + |right|
  {
    var out, src := Merged(left, right), MergeSources(left, right);
    if left == [] {
      PickedUniform(right, FromRight);
    } else if right == [] {
      PickedUniform(left, FromLeft);
    } else if left[0] <= right[0] {
      MergeInterleaves(left[1..], right);
      assert out[1..] == Merged(left[1..], right) && src[1..] == MergeSources(left[1..], right);
      assert left == [left[0]] + left[1..];
    } else {
      MergeInterleaves(left, right[1..]);
      assert out[1..] == Merged(left, right[1..]) && src[1..] == MergeSources(left, right[1..]);
      assert right == [right[0]] + right[1..];
    }
  }

  /** When every element has the same source, picking by that source gives everything back
      and picking by the other gives nothing. */
  lemma {:induction false} PickedUniform(s: seq<int>, side: Side)
    ensures Picked(s, seq(|s|, _ => side), side) == s
    ensures Picked(s, seq(|s|, _ => side), if side == FromLeft then FromRight else FromLeft) == []
  {
    if s != [] {
      PickedUniform(s[1..], side);
      assert seq(|s|, _ => side)[1..] == seq(|s| - 1, _ => side);
    }
  }

  /** An element taken from the left list is an element of the left list. */
  lemma {:induction false} FromLeftIsInLeft(left: seq<int>, right: seq<int>, q: nat)
    requires q < |left| + |right|
    requires MergeSources(left, right)[q] == FromLeft
    ensures Merged(left, right)[q] in left
    decreases |left| + |right|
  {
    if left == [] {
    } else if right == [] {
    } else if left[0] <= right[0] {
      if q > 0 {
        FromLeftIsInLeft(left[1..], right, q - 1);
      }
    } else {
      FromLeftIsInLeft(left, right[1..], q - 1);
    }
  }

  /** Stability of the merge: when both lists are non-decreasing, an element from the right
      list is placed before an element from the left list only if it is strictly smaller;
      so among equal values, every left element precedes every right element. */
  lemma {:induction false} MergeLeftFirstOnTies(left: seq<int>, right: seq<int>, p: nat, q: nat)
    requires IsSorted(left) && IsSorted(right)
    requires p < q < |left| + |right|
    requires MergeSources(left, right)[p] == FromRight
    requires MergeSources(left, right)[q] == FromLeft
    ensures Merged(left, right)[p] < Merged(left, right)[q]
    decreases |left| + |right|, 1
  {
    if left == [] || right == [] {
    } else if left[0] <= right[0] {
      TiesAfterLeftHead(left, right, p, q);
    } else {
      TiesAfterRightHead(left, right, p, q);
    }
  }

  /** The stability step when the merge takes the left head first. */
  lemma {:induction false} TiesAfterLeftHead(left: seq<int>, right: seq<int>, p: nat, q: nat)
    requires IsSorted(left) && IsSorted(right)
    requires left != [] && right != [] && left[0] <= right[0]
    requires p < q < |left| + |right|
    requires MergeSources(left, right)[p] == FromRight
    requires MergeSources(left, right)[q] == FromLeft
    ensures Merged(left, right)[p] < Merged(left, right)[q]
    decreases |left| + |right|, 0
  {
    var src, out := MergeSources(left[1..], right), Merged(left[1..], right);
    assert MergeSources(left, right) == [FromLeft] + src;
    assert Merged(left, right) == [left[0]] + out;
    assert 0 < p && src[p - 1] == FromRight && src[q - 1] == FromLeft;
    SortedTail(left);
    MergeLeftFirstOnTies(left[1..], right, p - 1, q - 1);
  }

  /** The stability step when the merge takes the right head first. */
  lemma {:induction false} TiesAfterRightHead(left: seq<int>, right: seq<int>, p: nat, q: nat)
    requires IsSorted(left) && IsSorted(right)
    requires left != [] && right != [] && right[0] < left[0]
    requires p < q < |left| + |right|
    requires MergeSources(left, right)[p] == FromRight
    requires MergeSources(left, right)[q] == FromLeft
    ensures Merged(left, right)[p] < Merged(left, right)[q]
    decreases |left| + |right|, 0
  {
    var src, out := MergeSources(left, right[1..]), Merged(left, right[1..]);
    assert MergeSources(left, right) == [FromRight] + src;
    assert Merged(left, right) == [right[0]] + out;
    assert src[q - 1] == FromLeft;
    if p == 0 {
      FromLeftAtLeastHead(left, right[1..], q - 1);
    } else {
      assert src[p - 1] == FromRight;
      SortedTail(right);
      MergeLeftFirstOnTies(left, right[1..], p - 1, q - 1);
    }
  }

  /** An element taken from a non-decreasing left list is at least its head. */
  lemma FromLeftAtLeastHead(left: seq<int>, right: seq<int>, q: nat)
    requires IsSorted(left) && left != []
    requires q < |left| + |right|
    requires MergeSources(left, right)[q] == FromLeft
    ensures left[0] <= Merged(left, right)[q]
  {
    FromLeftIsInLeft(left, right, q);
    var k :| 0 <= k < |left| && left[k] == Merged(left, right)[q];
    assert left[0] <= left[k];
  }

  lemma SortedTail(s: seq<int>)
    requires s != [] && IsSorted(s)
    ensures IsSorted(s[1..])
  {
  }

  /** merge_sort: lists of length at most one come back as they are; longer lists are split
      at the midpoint, both halves are sorted recursively and merged. */
  function MergeSort(arr: seq<int>): (r: seq<int>)
    ensures IsSorted(r)
    ensures multiset(r) == multiset(arr)
    ensures |arr| <= 1 ==> r == arr
    decreases |arr|
  {
    if |arr| <= 1 then arr
    else
      var mid := |arr| / 2;
      assert arr[..mid] + arr[mid..] == arr;
      var l, rr := MergeSort(arr[..mid]), MergeSort(arr[mid..]);
      MergedSorted(l, rr);
      MergedPermutes(l, rr);
      Merged(l, rr)
  }

  /** A non-decreasing permutation of a list is unique. */
  lemma {:induction false} SortedPermutationUnique(a: seq<int>, b: seq<int>)
    requires IsSorted(a) && IsSorted(b)
    requires multiset(a) == multiset(b)
    ensures a == b
  {
    assert |a| == |multiset(a)| == |multiset(b)| == |b|;
    if a != [] {
      SortedHeadIsLeast(b, a);
      SortedHeadIsLeast(a, b);
      MultisetTail(a);
      MultisetTail(b);
      SortedPermutationUnique(a[1..], b[1..]);
    }
  }

  /** The head of a non-empty non-decreasing list is at most the head of any permutation. */
  lemma SortedHeadIsLeast(s: seq<int>, t: seq<int>)
    requires IsSorted(s) && t != [] && multiset(s) == multiset(t)
    ensures s[0] <= t[0]
  {
    assert t[0] in multiset(t);
    var k :| 0 <= k < |s| && s[k] == t[0];
  }

  lemma MultisetTail(s: seq<int>)
    requires s != []
    ensures IsSorted(s) ==> IsSorted(s[1..])
    ensures multiset(s[1..]) == multiset(s) - multiset{s[0]}
  {
    assert s == [s[0]] + s[1..];
  }

  /** Any routine that honours the sort contract (non-decreasing and a permutation of its
      input, as the built-in sort does) returns exactly what merge sort returns. */
  lemma SortContractDetermines(s: seq<int>, r: seq<int>)
    requires IsSorted(r) && multiset(r) == multiset(s)
    ensures r == MergeSort(s)
  {
    SortedPermutationUnique(r, MergeSort(s));
  }

  /** Sorting the reversed list of five elements gives 1..5. */
  lemma ReversedFiveSorts()
    ensures MergeSort([5, 4, 3, 2, 1]) == [1, 2, 3, 4, 5]
  {
    var s, r := [5, 4, 3, 2, 1], [1, 2, 3, 4, 5];
    assert multiset(s) == multiset{5, 4, 3, 2, 1};
    assert multiset(r) == multiset{1, 2, 3, 4, 5};
    assert forall p, q :: 0 <= p < q < 5 ==> r[p] <= r[q];
    SortContractDetermines(s, r);
  }
}
