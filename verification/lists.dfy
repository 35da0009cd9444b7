/**
 * The `java.util` list operations the cluster code relies on: bounds-checked
 * `get`, `Collections.swap`, and the stable sort behind `Stream.sorted` with a
 * `Comparator.comparing` key.
 */
module Lists {
  import opened Wrappers

  /** `List.get(i)` fails with an index error outside `0 <= i < |xs|`. */
  datatype IndexError = IndexOutOfBounds(index: int, size: nat)

  function At<T>(xs: seq<T>, i: int): (r: Result<T, IndexError>)
    ensures r.Success? <==> 0 <= i < |xs|
    ensures r.Success? ==> r.value == xs[i]
    ensures r.Failure? ==> r.error == IndexOutOfBounds(i, |xs|)
  {
    if 0 <= i < |xs| then Success(xs[i]) else Failure(IndexOutOfBounds(i, |xs|))
  }

  /** `Collections.swap(list, i, j)`. */
  function Swap<T>(xs: seq<T>, i: nat, j: nat): (r: seq<T>)
    requires i < |xs| && j < |xs|
    ensures |r| == |xs|
    ensures r[i] == xs[j] && r[j] == xs[i]
    ensures forall k :: 0 <= k < |xs| && k != i && k != j ==> r[k] == xs[k]
    ensures multiset(r) == multiset(xs)
  {
    xs[i := xs[j]][j := xs[i]]
  }

  /** The three parts of a concatenation, cut back out by slicing. */
  lemma ConcatSlices<T>(xs: seq<T>, ys: seq<T>, zs: seq<T>)
    ensures (xs + ys + zs)[..|xs|] == xs
    ensures (xs + ys + zs)[|xs|..|xs| + |ys|] == ys
  {
    assert (xs + ys + zs)[..|xs|] == xs;
    assert (xs + ys + zs)[|xs|..|xs| + |ys|] == ys;
  }

  /** A sequence cut into three slices is their concatenation. */
  lemma SlicesConcat<T>(ns: seq<T>, xs: seq<T>, ys: seq<T>, zs: seq<T>)
    requires |ns| == |xs| + |ys| + |zs|
    requires ns[0..|xs|] == xs && ns[|xs|..|xs| + |ys|] == ys && ns[|xs| + |ys|..|xs| + |ys| + |zs|] == zs
    ensures ns == xs + ys + zs
  {
    assert ns == ns[0..|xs|] + ns[|xs|..|xs| + |ys|] + ns[|xs| + |ys|..|xs| + |ys| + |zs|];
  }

  /** A slice of length `n` agrees with a sequence that matches it index by index. */
  lemma SliceFromIndices<T>(ns: seq<T>, lo: int, n: int, ys: seq<T>)
    requires 0 <= lo && lo + n <= |ns| && |ys| == n
    requires forall k :: 0 <= k < n ==> ns[lo + k] == ys[k]
    ensures ns[lo..lo + n] == ys
  {
    forall k | 0 <= k < n
      ensures ns[lo..lo + n][k] == ys[k]
    {
      assert ns[lo..lo + n][k] == ns[lo + k];
    }
  }

  /** The three parts of a concatenation, by slice and by index. */
  lemma ConcatParts<T>(xs: seq<T>, ys: seq<T>, zs: seq<T>)
    ensures (xs + ys + zs)[..|xs|] == xs
    ensures (xs + ys + zs)[|xs|..|xs| + |ys|] == ys
    ensures (xs + ys + zs)[|xs| + |ys|..] == zs
    ensures forall i :: 0 <= i < |xs| ==> (xs + ys + zs)[i] == xs[i]
    ensures forall i :: |xs| <= i < |xs| + |ys| ==> (xs + ys + zs)[i] == ys[i - |xs|]
    ensures forall i :: |xs| + |ys| <= i < |xs| + |ys| + |zs| ==> (xs + ys + zs)[i] == zs[i - |xs| - |ys|]
  {
  }

  ghost predicate SortedBy<T>(xs: seq<T>, key: T -> nat)
  {
    forall i, j :: 0 <= i < j < |xs| ==> key(xs[i]) <= key(xs[j])
  }

  /** Two sorted runs, every key of the first at most every key of the second, make a sorted run. */
  lemma SortedAppend<T>(xs: seq<T>, ys: seq<T>, key: T -> nat)
    requires SortedBy(xs, key) && SortedBy(ys, key)
    requires forall i, j :: 0 <= i < |xs| && 0 <= j < |ys| ==> key(xs[i]) <= key(ys[j])
    ensures SortedBy(xs + ys, key)
  {
    var zs := xs + ys;
    forall i, j | 0 <= i < j < |zs|
      ensures key(zs[i]) <= key(zs[j])
    {
      if j < |xs| {
        assert zs[i] == xs[i] && zs[j] == xs[j];
      } else if i < |xs| {
        assert zs[i] == xs[i] && zs[j] == ys[j - |xs|];
      } else {
        assert zs[i] == ys[i - |xs|] && zs[j] == ys[j - |xs|];
      }
    }
  }

  /** The elements of `xs` whose key is `k`, in their order in `xs`. */
  function Select<T>(xs: seq<T>, key: T -> nat, k: nat): (r: seq<T>)
    ensures |r| <= |xs|
    ensures forall i :: 0 <= i < |r| ==> key(r[i]) == k
  {
    if xs == [] then []
    else (if key(xs[0]) == k then [xs[0]] else []) + Select(xs[1..], key, k)
  }

  lemma {:induction false} SelectAppend<T>(xs: seq<T>, ys: seq<T>, key: T -> nat, k: nat)
    ensures Select(xs + ys, key, k) == Select(xs, key, k) + Select(ys, key, k)
    decreases |xs|
  {
    if xs != [] {
      assert (xs + ys)[0] == xs[0];
      assert (xs + ys)[1..] == xs[1..] + ys;
      SelectAppend(xs[1..], ys, key, k);
    } else {
      assert xs + ys == ys;
    }
  }

  /** Places `x` before the first element whose key is not smaller. */
  function Insert<T>(x: T, xs: seq<T>, key: T -> nat): (r: seq<T>)
    ensures |r| == |xs| + 1
    ensures multiset(r) == multiset(xs) + multiset{x}
  {
    if xs == [] || key(x) <= key(xs[0]) then
      [x] + xs
    else
      assert xs == [xs[0]] + xs[1..];
      [xs[0]] + Insert(x, xs[1..], key)
  }

  lemma SortedTail<T>(xs: seq<T>, key: T -> nat)
    requires xs != [] && SortedBy(xs, key)
    ensures SortedBy(xs[1..], key)
    ensures forall j :: 0 <= j < |xs[1..]| ==> key(xs[0]) <= key(xs[1..][j])
  {
    forall i, j | 0 <= i < j < |xs[1..]|
      ensures key(xs[1..][i]) <= key(xs[1..][j])
    {
      assert xs[1..][i] == xs[i + 1] && xs[1..][j] == xs[j + 1];
    }
    forall j | 0 <= j < |xs[1..]|
      ensures key(xs[0]) <= key(xs[1..][j])
    {
      assert xs[1..][j] == xs[j + 1];
    }
  }

  /** A head no greater than any key of a sorted tail gives a sorted list. */
  lemma ConsSorted<T>(y: T, rest: seq<T>, key: T -> nat)
    requires SortedBy(rest, key)
    requires forall j :: 0 <= j < |rest| ==> key(y) <= key(rest[j])
    ensures SortedBy([y] + rest, key)
  {
    var r := [y] + rest;
    forall i, j | 0 <= i < j < |r|
      ensures key(r[i]) <= key(r[j])
    {
      assert r[j] == rest[j - 1];
      if i > 0 {
        assert r[i] == rest[i - 1];
      }
    }
  }

  /** Every element inserted into the tail of a sorted list keeps at least the head's key, given `x` does. */
  lemma InsertAboveHead<T>(x: T, xs: seq<T>, key: T -> nat)
    requires xs != [] && SortedBy(xs, key) && key(xs[0]) <= key(x)
    ensures forall j :: 0 <= j < |Insert(x, xs[1..], key)| ==> key(xs[0]) <= key(Insert(x, xs[1..], key)[j])
  {
    SortedTail(xs, key);
    var rest := Insert(x, xs[1..], key);
    forall j | 0 <= j < |rest|
      ensures key(xs[0]) <= key(rest[j])
    {
      assert rest[j] in multiset(rest);
      if rest[j] != x {
        assert rest[j] in multiset(xs[1..]);
        var m :| 0 <= m < |xs[1..]| && xs[1..][m] == rest[j];
      }
    }
  }

  /** Inserting into a sorted list keeps it sorted. */
  lemma {:induction false} InsertSorted<T>(x: T, xs: seq<T>, key: T -> nat)
    requires SortedBy(xs, key)
    ensures SortedBy(Insert(x, xs, key), key)
    decreases |xs|
  {
    if xs == [] || key(x) <= key(xs[0]) {
      forall j | 0 <= j < |xs|
        ensures key(x) <= key(xs[j])
      {
        if j > 0 {
          assert key(xs[0]) <= key(xs[j]);
        }
      }
      ConsSorted(x, xs, key);
    } else {
      SortedTail(xs, key);
      InsertSorted(x, xs[1..], key);
      InsertAboveHead(x, xs, key);
      ConsSorted(xs[0], Insert(x, xs[1..], key), key);
    }
  }

  /** Inserting an element adds it to its own key's selection and leaves the others alone. */
  lemma {:induction false} SelectInsert<T>(x: T, xs: seq<T>, key: T -> nat, k: nat)
    ensures Select(Insert(x, xs, key), key, k)
         == (if key(x) == k then [x] else []) + Select(xs, key, k)
    decreases |xs|
  {
    var r := Insert(x, xs, key);
    if xs == [] || key(x) <= key(xs[0]) {
      assert r == [x] + xs;
      assert r[1..] == xs;
    } else {
      var rest := Insert(x, xs[1..], key);
      assert r == [xs[0]] + rest;
      assert r[1..] == rest;
      SelectInsert(x, xs[1..], key, k);
    }
  }

  /**
   * Stable insertion sort by `key`: the model of `Stream.sorted` with
   * `Comparator.comparing(key)`, which keeps equal elements in encounter order.
   */
  function SortBy<T>(xs: seq<T>, key: T -> nat): (r: seq<T>)
    ensures |r| == |xs|
    ensures multiset(r) == multiset(xs)
    ensures SortedBy(r, key)
  {
    if xs == [] then []
    else
      assert xs == [xs[0]] + xs[1..];
      InsertSorted(xs[0], SortBy(xs[1..], key), key);
      Insert(xs[0], SortBy(xs[1..], key), key)
  }

  /** Sorting keeps the elements of every key in their original relative order. */
  lemma {:induction false} SortByIsStable<T>(xs: seq<T>, key: T -> nat, k: nat)
    ensures Select(SortBy(xs, key), key, k) == Select(xs, key, k)
    decreases |xs|
  {
    if xs != [] {
      SelectInsert(xs[0], SortBy(xs[1..], key), key, k);
      SortByIsStable(xs[1..], key, k);
    }
  }

  /** A list that is already in key order comes out of the sort unchanged. */
  lemma {:induction false} SortBySortedIsIdentity<T>(xs: seq<T>, key: T -> nat)
    requires SortedBy(xs, key)
    ensures SortBy(xs, key) == xs
    decreases |xs|
  {
    if xs != [] {
      assert SortedBy(xs[1..], key) by {
        forall i, j | 0 <= i < j < |xs[1..]|
          ensures key(xs[1..][i]) <= key(xs[1..][j])
        {
          assert xs[1..][i] == xs[i + 1] && xs[1..][j] == xs[j + 1];
        }
      }
      SortBySortedIsIdentity(xs[1..], key);
      if |xs| > 1 {
        assert key(xs[0]) <= key(xs[1..][0]);
      }
      assert [xs[0]] + xs[1..] == xs;
    }
  }
}
