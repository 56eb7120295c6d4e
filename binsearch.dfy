/** The sorting and searching helpers of the analysis tools over arrays of
    reals: an identity index array, an insertion sort of an inclusive index
    range that carries an index array along with the values, a bisection
    that brackets a key in a sorted range, and a linear scan that counts the
    slots it looks at.  Everywhere `direction >= 0` means ascending order and
    a negative `direction` descending order. */
module BinSearch {

  /** `rangeArray`: slot `i` of `ar` gets `i` for every `i` below `size`,
      which makes it the identity permutation the sort starts from. */
  method RangeArray(ar: array<int>, size: int)
    requires size <= ar.Length
    modifies ar
    ensures forall i :: 0 <= i < ar.Length ==> ar[i] == if i < size then i else old(ar[i])
  {
    var i := 0;
    while i < size
      invariant 0 <= i <= if size > 0 then size else 0
      invariant forall m :: 0 <= m < ar.Length ==> ar[m] == if m < i then m else old(ar[m])
    {
      ar[i] := i;
      i := i + 1;
    }
  }

  /** `s` with the entries at `x` and `y` traded. */
  function Exchange<T>(s: seq<T>, x: int, y: int): (r: seq<T>)
    requires 0 <= x < |s| && 0 <= y < |s|
    ensures |r| == |s|
  {
    s[x := s[y]][y := s[x]]
  }

  /** `Swap`: the values at `x` and `y` trade places. */
  method Swap(a: array<real>, x: int, y: int)
    requires 0 <= x < a.Length && 0 <= y < a.Length
    modifies a
    ensures a[..] == Exchange(old(a[..]), x, y)
  {
    var temp := a[x];
    a[x] := a[y];
    a[y] := temp;
  }

  /** `pswap`: the indices at `x` and `y` trade places. */
  method PSwap(a: array<int>, x: int, y: int)
    requires 0 <= x < a.Length && 0 <= y < a.Length
    modifies a
    ensures a[..] == Exchange(old(a[..]), x, y)
  {
    var temp := a[x];
    a[x] := a[y];
    a[y] := temp;
  }

  /** The test under which the sort exchanges a left neighbour `x` with `y`:
      `x > y` ascending, `x < y` descending.  Equal values are never out of
      order in either direction. */
  predicate OutOfOrder(direction: int, x: real, y: real)
  {
    if direction >= 0 then x > y else x < y
  }

  /** The inclusive range `lo..hi` is empty or lies inside `0..n-1`. */
  predicate Span(lo: int, hi: int, n: int)
  {
    lo > hi || (0 <= lo && hi < n)
  }

  /** No two entries of the inclusive range `lo..hi` of `s` are out of order. */
  ghost predicate Sorted(direction: int, s: seq<real>, lo: int, hi: int)
    requires Span(lo, hi, |s|)
  {
    forall k1, k2 :: lo <= k1 < k2 <= hi ==> !OutOfOrder(direction, s[k1], s[k2])
  }

  /** Equal values of `lo..hi` stand in the order of the slots they came from. */
  ghost predicate Stable(s: seq<real>, origin: seq<int>, lo: int, hi: int)
    requires Span(lo, hi, |s|) && |origin| == |s|
  {
    forall k1, k2 :: lo <= k1 < k2 <= hi && s[k1] == s[k2] ==> origin[k1] < origin[k2]
  }

  /** `a` and `p` are `a0` and `p0` with the slots of `lo..hi` rearranged as
      `origin` says: the value and the index now at `k` both came from slot
      `origin[k]` of the range, no slot is used twice, every slot outside the
      range keeps its entry, and `a` holds the same values as `a0`. */
  ghost predicate Rearranged(a: seq<real>, a0: seq<real>, p: seq<int>, p0: seq<int>, origin: seq<int>, lo: int, hi: int)
    requires |a| == |a0| == |origin| && |p| == |p0| && Span(lo, hi, |a|) && Span(lo, hi, |p|)
  {
    && multiset(a) == multiset(a0)
    && (forall k :: lo <= k <= hi ==> lo <= origin[k] <= hi && a[k] == a0[origin[k]] && p[k] == p0[origin[k]])
    && (forall k1, k2 :: lo <= k1 < k2 <= hi ==> origin[k1] != origin[k2])
    && (forall k :: 0 <= k < |a| && !(lo <= k <= hi) ==> a[k] == a0[k])
    && (forall k :: 0 <= k < |p| && !(lo <= k <= hi) ==> p[k] == p0[k])
  }

  /** Before outer step `i`: `lo..i-1` is sorted and stable and holds what
      came from `lo..i-1`, and `i..hi` is untouched. */
  ghost predicate Inserted(direction: int, a: seq<real>, origin: seq<int>, lo: int, i: int, hi: int)
    requires |origin| == |a| && lo <= i && Span(lo, i - 1, |a|) && Span(lo, hi, |a|)
  {
    && Sorted(direction, a, lo, i - 1) && Stable(a, origin, lo, i - 1)
    && (forall k :: lo <= k < i ==> origin[k] < i)
    && (forall k :: i <= k <= hi ==> origin[k] == k)
  }

  /** During outer step `i`, with the entry from slot `i` now at `j`: the
      other entries of `lo..i` are sorted and stable, came from below `i`,
      and those right of `j` are all strictly beyond the moving entry. */
  ghost predicate Sinking(direction: int, a: seq<real>, origin: seq<int>, lo: int, i: int, j: int, hi: int)
    requires |origin| == |a| && 0 <= lo <= j <= i <= hi < |a|
  {
    && origin[j] == i
    && (forall k :: lo <= k <= i && k != j ==> origin[k] < i)
    && (forall k :: i < k <= hi ==> origin[k] == k)
    && (forall k1, k2 :: lo <= k1 < k2 <= i && k1 != j && k2 != j ==> !OutOfOrder(direction, a[k1], a[k2]))
    && (forall k1, k2 :: lo <= k1 < k2 <= i && k1 != j && k2 != j && a[k1] == a[k2] ==> origin[k1] < origin[k2])
    && (forall k :: j < k <= i ==> OutOfOrder(direction, a[k], a[j]))
  }

  /** The whole state of the inner loop: the arrays are a rearrangement of
      where the sort started and the entry from slot `i` is sinking at `j`. */
  ghost predicate SinkState(direction: int, a: seq<real>, a0: seq<real>, p: seq<int>, p0: seq<int>,
                            origin: seq<int>, lo: int, i: int, j: int, hi: int)
    requires |a| == |a0| == |origin| && |p| == |p0| && 0 <= lo <= j <= i <= hi && hi < |a| && hi < |p|
  {
    Rearranged(a, a0, p, p0, origin, lo, hi) && Sinking(direction, a, origin, lo, i, j, hi)
  }

  /** One exchange at `j` carries the inner loop's state to `j - 1`. */
  lemma SinkStateStep(direction: int, a: seq<real>, a0: seq<real>, p: seq<int>, p0: seq<int>,
                      origin: seq<int>, lo: int, i: int, j: int, hi: int)
    requires |a| == |a0| == |origin| && |p| == |p0| && 0 <= lo < j <= i <= hi && hi < |a| && hi < |p|
    requires SinkState(direction, a, a0, p, p0, origin, lo, i, j, hi)
    requires OutOfOrder(direction, a[j - 1], a[j])
    ensures SinkState(direction, Exchange(a, j, j - 1), a0, Exchange(p, j, j - 1), p0, Exchange(origin, j, j - 1), lo, i, j - 1, hi)
  {
    SinkStep(direction, a, origin, lo, i, j, hi);
    RearrangedExchange(a, a0, p, p0, origin, lo, hi, j);
  }

  /** The state of the outer loop before step `i`: the arrays are a
      rearrangement of where the sort started and `lo..i-1` is done. */
  ghost predicate SortState(direction: int, a: seq<real>, a0: seq<real>, p: seq<int>, p0: seq<int>,
                            origin: seq<int>, lo: int, i: int, hi: int)
    requires |a| == |a0| == |origin| && |p| == |p0| && lo <= i && Span(lo, i - 1, |a|)
    requires Span(lo, hi, |a|) && Span(lo, hi, |p|)
  {
    Rearranged(a, a0, p, p0, origin, lo, hi) && Inserted(direction, a, origin, lo, i, hi)
  }

  /** Step `i` starts with its entry sinking from slot `i` itself. */
  lemma StartSink(direction: int, a: seq<real>, a0: seq<real>, p: seq<int>, p0: seq<int>,
                  origin: seq<int>, lo: int, i: int, hi: int)
    requires |a| == |a0| == |origin| && |p| == |p0| && 0 <= lo <= i <= hi && hi < |a| && hi < |p|
    requires SortState(direction, a, a0, p, p0, origin, lo, i, hi)
    ensures SinkState(direction, a, a0, p, p0, origin, lo, i, i, hi)
  {
  }

  /** The moving entry stops at the left end or behind a neighbour that is
      in order with it, and then `lo..i` is done. */
  lemma SinkDone(direction: int, a: seq<real>, a0: seq<real>, p: seq<int>, p0: seq<int>,
                 origin: seq<int>, lo: int, i: int, j: int, hi: int)
    requires |a| == |a0| == |origin| && |p| == |p0| && 0 <= lo <= j <= i <= hi && hi < |a| && hi < |p|
    requires SinkState(direction, a, a0, p, p0, origin, lo, i, j, hi)
    requires j == lo || !OutOfOrder(direction, a[j - 1], a[j])
    ensures SortState(direction, a, a0, p, p0, origin, lo, i + 1, hi)
  {
  }

  /** One exchange of the moving entry with an out-of-order left neighbour
      moves it one slot left and keeps the rest sorted and stable. */
  lemma SinkStep(direction: int, a: seq<real>, origin: seq<int>, lo: int, i: int, j: int, hi: int)
    requires |origin| == |a| && 0 <= lo < j <= i <= hi < |a|
    requires Sinking(direction, a, origin, lo, i, j, hi)
    requires OutOfOrder(direction, a[j - 1], a[j])
    ensures Sinking(direction, Exchange(a, j, j - 1), Exchange(origin, j, j - 1), lo, i, j - 1, hi)
  {
  }

  /** Exchanging two slots of the range in both arrays and in `origin`
      keeps the arrays a rearrangement of where the sort started. */
  lemma RearrangedExchange(a: seq<real>, a0: seq<real>, p: seq<int>, p0: seq<int>, origin: seq<int>, lo: int, hi: int, j: int)
    requires |a| == |a0| == |origin| && |p| == |p0| && Span(lo, hi, |a|) && Span(lo, hi, |p|)
    requires lo < j <= hi
    requires Rearranged(a, a0, p, p0, origin, lo, hi)
    ensures Rearranged(Exchange(a, j, j - 1), a0, Exchange(p, j, j - 1), p0, Exchange(origin, j, j - 1), lo, hi)
  {
    ExchangeKeepsValues(a, j, j - 1);
    var a1, p1, o1 := Exchange(a, j, j - 1), Exchange(p, j, j - 1), Exchange(origin, j, j - 1);
    ExchangeKeepsOrigins(a, a0, p, p0, origin, lo, hi, j, a1, p1, o1);
    ExchangeKeepsOutside(a, a0, p, p0, origin, lo, hi, j, a1, p1);
  }

  /** Trading two entries keeps the values of a sequence. */
  lemma ExchangeKeepsValues<T>(s: seq<T>, x: int, y: int)
    requires 0 <= x < |s| && 0 <= y < |s|
    ensures multiset(Exchange(s, x, y)) == multiset(s)
  {
  }

  /** Trading two slots of the range in both arrays and in `origin` keeps
      every slot of the range tied to the one slot it came from. */
  lemma ExchangeKeepsOrigins(a: seq<real>, a0: seq<real>, p: seq<int>, p0: seq<int>, origin: seq<int>, lo: int, hi: int, j: int,
                             a1: seq<real>, p1: seq<int>, o1: seq<int>)
    requires |a| == |a0| == |origin| && |p| == |p0| && Span(lo, hi, |a|) && Span(lo, hi, |p|)
    requires lo < j <= hi
    requires Rearranged(a, a0, p, p0, origin, lo, hi)
    requires a1 == Exchange(a, j, j - 1) && p1 == Exchange(p, j, j - 1) && o1 == Exchange(origin, j, j - 1)
    ensures forall k :: lo <= k <= hi ==> lo <= o1[k] <= hi && a1[k] == a0[o1[k]] && p1[k] == p0[o1[k]]
    ensures forall k1, k2 :: lo <= k1 < k2 <= hi ==> o1[k1] != o1[k2]
  {
  }

  /** Trading two slots of the range leaves every slot outside it alone. */
  lemma ExchangeKeepsOutside(a: seq<real>, a0: seq<real>, p: seq<int>, p0: seq<int>, origin: seq<int>, lo: int, hi: int, j: int,
                             a1: seq<real>, p1: seq<int>)
    requires |a| == |a0| == |origin| && |p| == |p0| && Span(lo, hi, |a|) && Span(lo, hi, |p|)
    requires lo < j <= hi
    requires Rearranged(a, a0, p, p0, origin, lo, hi)
    requires a1 == Exchange(a, j, j - 1) && p1 == Exchange(p, j, j - 1)
    ensures forall k :: 0 <= k < |a1| && !(lo <= k <= hi) ==> a1[k] == a0[k]
    ensures forall k :: 0 <= k < |p1| && !(lo <= k <= hi) ==> p1[k] == p0[k]
  {
  }

  /** The inner loop of `insertionSort` at outer step `i`: the entry at `i`
      trades places with its left neighbour while that neighbour is out of
      order with it, which inserts it into the sorted `lo..i-1`; then `i++`. */
  method Sink(arr: array<real>, perm: array<int>, lo: int, i: int, hi: int, direction: int,
              ghost a0: seq<real>, ghost p0: seq<int>, ghost origin0: seq<int>)
      returns (ghost origin: seq<int>, next: int)
    requires 0 <= lo <= i <= hi && hi < arr.Length && hi < perm.Length
    requires |a0| == arr.Length == |origin0| && |p0| == perm.Length
    requires SortState(direction, arr[..], a0, perm[..], p0, origin0, lo, i, hi)
    modifies arr, perm
    ensures next == i + 1 && |origin| == arr.Length
    ensures SortState(direction, arr[..], a0, perm[..], p0, origin, lo, next, hi)
  {
    ghost var a, p := arr[..], perm[..];
    origin := origin0;
    StartSink(direction, a, a0, p, p0, origin, lo, i, hi);
    var j := i;
    while j > lo && OutOfOrder(direction, arr[j - 1], arr[j])
      invariant lo <= j <= i
      invariant |origin| == arr.Length == |a| && |p| == perm.Length
      invariant arr[..] == a && perm[..] == p
      invariant SinkState(direction, a, a0, p, p0, origin, lo, i, j, hi)
      decreases j
    {
      a, p, origin, j := SinkOnce(arr, perm, lo, i, j, hi, direction, a0, p0, a, p, origin);
    }
    SinkDone(direction, a, a0, p, p0, origin, lo, i, j, hi);
    next := i + 1;
  }

  /** One pass of the inner loop: `Swap` and `pswap` of slots `j` and `j-1`,
      then `j--`.  The arrays' contents are tracked as `a` and `p`. */
  method SinkOnce(arr: array<real>, perm: array<int>, lo: int, i: int, j: int, hi: int, direction: int,
                  ghost a0: seq<real>, ghost p0: seq<int>, ghost a: seq<real>, ghost p: seq<int>, ghost origin: seq<int>)
      returns (ghost aOut: seq<real>, ghost pOut: seq<int>, ghost originOut: seq<int>, next: int)
    requires 0 <= lo < j <= i <= hi && hi < arr.Length && hi < perm.Length
    requires arr[..] == a && perm[..] == p
    requires |a0| == |a| == |origin| && |p0| == |p|
    requires SinkState(direction, a, a0, p, p0, origin, lo, i, j, hi)
    requires OutOfOrder(direction, a[j - 1], a[j])
    modifies arr, perm
    ensures next == j - 1 && |originOut| == |aOut| == |a| && |pOut| == |p|
    ensures arr[..] == aOut && perm[..] == pOut
    ensures SinkState(direction, aOut, a0, pOut, p0, originOut, lo, i, next, hi)
  {
    SinkStateStep(direction, a, a0, p, p0, origin, lo, i, j, hi);
    Swap(arr, j, j - 1);
    PSwap(perm, j, j - 1);
    aOut, pOut, originOut := Exchange(a, j, j - 1), Exchange(p, j, j - 1), Exchange(origin, j, j - 1);
    next := j - 1;
  }

  /** `insertionSort` of the inclusive range `startndx..endndx`: afterwards
      the range is sorted in `direction`, holds the same values, equal
      values keep their order, every index of `perm` moved with its value
      (the ghost `origin[k]` names the slot the entries at `k` came from),
      and nothing outside the range changed.  The two loops of the source
      differ only in the comparison, which `OutOfOrder` selects. */
  method InsertionSort(arr: array<real>, perm: array<int>, startndx: int, endndx: int, direction: int)
      returns (ghost origin: seq<int>)
    requires Span(startndx, endndx, arr.Length) && Span(startndx, endndx, perm.Length)
    modifies arr, perm
    ensures |origin| == arr.Length
    ensures Sorted(direction, arr[..], startndx, endndx)
    ensures Stable(arr[..], origin, startndx, endndx)
    ensures Rearranged(arr[..], old(arr[..]), perm[..], old(perm[..]), origin, startndx, endndx)
    ensures startndx <= endndx ==> multiset(arr[startndx..endndx + 1]) == multiset(old(arr[startndx..endndx + 1]))
  {
    ghost var a0, p0 := arr[..], perm[..];
    origin := seq(arr.Length, k => k);
    StartSort(direction, a0, p0, origin, startndx, endndx);
    var i := startndx;
    while i <= endndx
      invariant startndx <= i && (i == startndx || i <= endndx + 1)
      invariant |origin| == arr.Length
      invariant SortState(direction, arr[..], a0, perm[..], p0, origin, startndx, i, endndx)
    {
      origin, i := Sink(arr, perm, startndx, i, endndx, direction, a0, p0, origin);
    }
    SortDone(direction, arr[..], a0, perm[..], p0, origin, startndx, i, endndx);
  }

  /** Before the first step nothing has moved and nothing is done yet. */
  lemma StartSort(direction: int, a: seq<real>, p: seq<int>, origin: seq<int>, lo: int, hi: int)
    requires |origin| == |a| && Span(lo, hi, |a|) && Span(lo, hi, |p|)
    requires forall k :: 0 <= k < |a| ==> origin[k] == k
    ensures SortState(direction, a, a, p, p, origin, lo, lo, hi)
  {
    NothingMoved(a, p, origin, lo, hi);
    NothingInserted(direction, a, origin, lo, hi);
  }

  /** The identity rearrangement. */
  lemma NothingMoved(a: seq<real>, p: seq<int>, origin: seq<int>, lo: int, hi: int)
    requires |origin| == |a| && Span(lo, hi, |a|) && Span(lo, hi, |p|)
    requires forall k :: 0 <= k < |a| ==> origin[k] == k
    ensures Rearranged(a, a, p, p, origin, lo, hi)
  {
  }

  /** An empty sorted prefix, the rest of the range untouched. */
  lemma NothingInserted(direction: int, a: seq<real>, origin: seq<int>, lo: int, hi: int)
    requires |origin| == |a| && Span(lo, hi, |a|)
    requires forall k :: 0 <= k < |a| ==> origin[k] == k
    ensures Inserted(direction, a, origin, lo, lo, hi)
  {
  }

  /** After the last step the whole range is done. */
  lemma SortDone(direction: int, a: seq<real>, a0: seq<real>, p: seq<int>, p0: seq<int>,
                 origin: seq<int>, lo: int, i: int, hi: int)
    requires |a| == |a0| == |origin| && |p| == |p0| && Span(lo, hi, |a|) && Span(lo, hi, |p|)
    requires lo <= i && (i == lo || i <= hi + 1) && i > hi
    requires SortState(direction, a, a0, p, p0, origin, lo, i, hi)
    ensures Sorted(direction, a, lo, hi) && Stable(a, origin, lo, hi)
    ensures Rearranged(a, a0, p, p0, origin, lo, hi)
    ensures lo <= hi ==> multiset(a[lo..hi + 1]) == multiset(a0[lo..hi + 1])
  {
    if lo <= hi {
      RangeHoldsSameValues(a, a0, lo, hi);
    }
  }

  /** A range whose outside stays put while the whole sequence keeps its
      values keeps the values of the range. */
  lemma RangeHoldsSameValues(a: seq<real>, a0: seq<real>, lo: int, hi: int)
    requires |a| == |a0| && 0 <= lo <= hi < |a|
    requires multiset(a) == multiset(a0)
    requires forall k :: 0 <= k < |a| && !(lo <= k <= hi) ==> a[k] == a0[k]
    ensures multiset(a[lo..hi + 1]) == multiset(a0[lo..hi + 1])
  {
    SplitMultiset(a, lo, hi);
    SplitMultiset(a0, lo, hi);
    assert a[..lo] == a0[..lo];
    assert a[hi + 1..] == a0[hi + 1..];
    CancelOuter(multiset(a[lo..hi + 1]), multiset(a0[lo..hi + 1]), multiset(a[..lo]), multiset(a[hi + 1..]));
  }

  lemma SplitMultiset(s: seq<real>, lo: int, hi: int)
    requires 0 <= lo <= hi < |s|
    ensures multiset(s) == multiset(s[..lo]) + multiset(s[lo..hi + 1]) + multiset(s[hi + 1..])
  {
    assert s == s[..lo] + s[lo..hi + 1] + s[hi + 1..];
  }

  lemma CancelOuter(m: multiset<real>, m0: multiset<real>, x: multiset<real>, z: multiset<real>)
    requires x + m + z == x + m0 + z
    ensures m == m0
  {
    forall v
      ensures m[v] == m0[v]
    {
      assert (x + m + z)[v] == (x + m0 + z)[v];
    }
  }

  /** Sorted from the identity index array that `rangeArray` makes, `perm`
      records where each sorted value came from, `arr[k] == arr0[perm[k]]`,
      and equal values keep increasing indices. */
  lemma PermRecordsOrigin(a: seq<real>, a0: seq<real>, p: seq<int>, p0: seq<int>, origin: seq<int>, lo: int, hi: int)
    requires |a| == |a0| == |origin| && |p| == |p0| && Span(lo, hi, |a|) && Span(lo, hi, |p|)
    requires Rearranged(a, a0, p, p0, origin, lo, hi) && Stable(a, origin, lo, hi)
    requires forall k :: lo <= k <= hi ==> p0[k] == k
    ensures forall k :: lo <= k <= hi ==> lo <= p[k] <= hi && a[k] == a0[p[k]]
    ensures forall k1, k2 :: lo <= k1 < k2 <= hi ==> p[k1] != p[k2]
    ensures forall k1, k2 :: lo <= k1 < k2 <= hi && a[k1] == a[k2] ==> p[k1] < p[k2]
  {
    forall k | lo <= k <= hi
      ensures p[k] == origin[k]
    {
      assert p[k] == p0[origin[k]];
    }
  }

  /** `BinarySearch`: bisection over `iMin..iMax` with `iMin = low + 1`,
      `iMax = high + 2`, comparing the key with `arr[iMid - 1]`, so only
      `low+1..high` is ever read.  Ascending, the result `r` lies in
      `low+1..high+1` with `arr[r-1] <= key < arr[r]` where those slots
      are read; descending, it lies in `low..high` with
      `arr[r] >= key > arr[r+1]`.  On a sorted range that splits
      `low+1..high` at the key.  `(iMin + iMax) >> 1` is written `/ 2`: both
      round towards minus infinity. */
  method BinarySearch(arr: array<real>, low: int, high: int, key: real, direction: int) returns (r: int)
    requires Span(low + 1, high, arr.Length)
    ensures direction >= 0 ==> r == low + 1 || low + 1 < r <= high + 1
    ensures direction >= 0 && r <= high ==> key < arr[r]
    ensures direction >= 0 && r - 1 > low ==> arr[r - 1] <= key
    ensures direction >= 0 && Sorted(direction, arr[..], low + 1, high) ==>
              (forall k :: low + 1 <= k < r ==> arr[k] <= key) && (forall k :: r <= k <= high ==> key < arr[k])
    ensures direction < 0 ==> r == low || low < r <= high
    ensures direction < 0 && r > low ==> key <= arr[r]
    ensures direction < 0 && r + 1 <= high ==> key > arr[r + 1]
    ensures direction < 0 && Sorted(direction, arr[..], low + 1, high) ==>
              (forall k :: low + 1 <= k <= r ==> key <= arr[k]) && (forall k :: r < k <= high ==> key > arr[k])
  {
    var iMax := high + 2;
    var iMin := low + 1;
    if direction >= 0 {
      while iMax - iMin > 1
        invariant low + 1 <= iMin
        invariant iMin < iMax <= high + 2 || (iMin == low + 1 && iMax == high + 2)
        invariant iMin == low + 1 || arr[iMin - 1] <= key
        invariant iMax == high + 2 || key < arr[iMax - 1]
        decreases iMax - iMin
      {
        var iMid := (iMin + iMax) / 2;
        if key < arr[iMid - 1] {
          iMax := iMid;
        } else {
          iMin := iMid;
        }
      }
      r := iMin;
    } else {
      while iMax - iMin > 1
        invariant low + 1 <= iMin
        invariant iMin < iMax <= high + 2 || (iMin == low + 1 && iMax == high + 2)
        invariant iMin == low + 1 || key <= arr[iMin - 1]
        invariant iMax == high + 2 || key > arr[iMax - 1]
        decreases iMax - iMin
      {
        var iMid := (iMin + iMax) / 2;
        if key > arr[iMid - 1] {
          iMax := iMid;
        } else {
          iMin := iMid;
        }
      }
      r := iMin - 1;
    }
  }

  /** `start_binsearch`: sort `low..high` carrying `perm` along, then bracket
      the key in the sorted range. */
  method StartBinsearch(arr: array<real>, perm: array<int>, low: int, high: int, key: real, direction: int)
      returns (r: int, ghost origin: seq<int>)
    requires Span(low, high, arr.Length) && Span(low, high, perm.Length)
    modifies arr, perm
    ensures |origin| == arr.Length
    ensures Sorted(direction, arr[..], low, high) && Stable(arr[..], origin, low, high)
    ensures Rearranged(arr[..], old(arr[..]), perm[..], old(perm[..]), origin, low, high)
    ensures direction >= 0 ==>
              && (r == low + 1 || low + 1 < r <= high + 1)
              && (forall k :: low + 1 <= k < r ==> arr[k] <= key)
              && (forall k :: r <= k <= high ==> key < arr[k])
    ensures direction < 0 ==>
              && (r == low || low < r <= high)
              && (forall k :: low + 1 <= k <= r ==> key <= arr[k])
              && (forall k :: r < k <= high ==> key > arr[k])
  {
    origin := InsertionSort(arr, perm, low, high, direction);
    r := BinarySearch(arr, low, high, key, direction);
  }

  /** On an ascending range whose first value is not above the key, the
      bisection (run over `low..high`) and the linear scan (run over the
      same slots) agree: the scan stops one slot before the bisection's
      result.  `r` and `keyindex` are characterised by what the two methods
      ensure. */
  lemma SearchesAgree(s: seq<real>, low: int, high: int, key: real, r: int, keyindex: int)
    requires 0 <= low <= high < |s| && Sorted(0, s, low, high) && s[low] <= key
    requires low + 1 <= r <= high + 1
    requires forall k :: low + 1 <= k < r ==> s[k] <= key
    requires forall k :: r <= k <= high ==> key < s[k]
    requires low <= keyindex + 1 <= high && key < s[keyindex + 1]
    requires forall i :: low <= i <= keyindex ==> s[i] <= key
    ensures r == keyindex + 1
  {
    NotAboveAt(s, low + 1, r, key, keyindex + 1);
    NotAboveAt(s, low, keyindex + 1, key, r);
  }

  /** A slot of a range whose values are all at most `key` holds at most `key`. */
  lemma NotAboveAt(s: seq<real>, lo: int, hi: int, key: real, m: int)
    requires 0 <= lo && hi <= |s|
    requires forall k :: lo <= k < hi ==> s[k] <= key
    ensures lo <= m < hi ==> s[m] <= key
  {
  }

  /** Number of slots of the inclusive range `lo..hi`. */
  function Width(lo: int, hi: int): nat
  {
    if lo <= hi then hi - lo + 1 else 0
  }

  /** `LinearSearch`: ascending, the scan runs up from `startindx` and stops
      at the first value above the key, returning the slot before it;
      descending, it runs down from `stopindx` and returns the slot after the
      first value above the key.  Without such a value it returns -1.  The
      counter `*count` is passed in as `count` and comes back as `countOut`,
      raised by one for every slot looked at. */
  method LinearSearch(arr: array<real>, startindx: int, stopindx: int, key: real, count: int, direction: int)
      returns (keyindex: int, countOut: int)
    requires Span(startindx, stopindx, arr.Length)
    ensures direction >= 0 ==>
              || (&& keyindex == -1 && countOut == count + Width(startindx, stopindx)
                  && forall i :: startindx <= i <= stopindx ==> arr[i] <= key)
              || (&& startindx <= keyindex + 1 <= stopindx && key < arr[keyindex + 1]
                  && countOut == count + (keyindex + 2 - startindx)
                  && forall i :: startindx <= i <= keyindex ==> arr[i] <= key)
    ensures direction < 0 ==>
              || (&& keyindex == -1 && countOut == count + Width(startindx, stopindx)
                  && forall i :: startindx <= i <= stopindx ==> arr[i] <= key)
              || (&& startindx <= keyindex - 1 <= stopindx && key < arr[keyindex - 1]
                  && countOut == count + (stopindx + 2 - keyindex)
                  && forall i :: keyindex <= i <= stopindx ==> arr[i] <= key)
  {
    countOut := count;
    if direction >= 0 {
      var i := startindx;
      while i <= stopindx
        invariant startindx <= i && (i == startindx || i <= stopindx + 1)
        invariant countOut == count + (i - startindx)
        invariant forall m :: startindx <= m < i ==> arr[m] <= key
      {
        countOut := countOut + 1;
        if arr[i] > key {
          keyindex := i - 1;
          return;
        }
        i := i + 1;
      }
    } else {
      var i := stopindx;
      while i >= startindx
        invariant i <= stopindx && (i == stopindx || startindx - 1 <= i)
        invariant countOut == count + (stopindx - i)
        invariant forall m :: i < m <= stopindx ==> arr[m] <= key
      {
        countOut := countOut + 1;
        if arr[i] > key {
          keyindex := i + 1;
          return;
        }
        i := i - 1;
      }
    }
    keyindex := -1;
  }
}
