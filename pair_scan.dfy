/** The pairwise scan the source runs in three places (joint detection, tab-tab
    and slot-slot interference): for i in range(n), for j in range(i + 1, n),
    keep the result of a test on (xs[i], xs[j]) when it yields one. */
module PairScan {
  import opened Wrappers

  function Emit<R>(o: Option<R>): seq<R>
  {
    if o.Some? then [o.value] else []
  }

  /** What row i of the scan has kept after testing the partners i+1 .. j-1. */
  function Row<T, R>(xs: seq<T>, f: (T, T) -> Option<R>, i: nat, j: nat): seq<R>
    requires i < |xs| && j <= |xs|
    decreases j
  {
    if j <= i + 1 then [] else Row(xs, f, i, j - 1) + Emit(f(xs[i], xs[j - 1]))
  }

  /** What the scan has kept after finishing rows 0 .. i-1. */
  function Rows<T, R>(xs: seq<T>, f: (T, T) -> Option<R>, i: nat): seq<R>
    requires i <= |xs|
  {
    if i == 0 then [] else Rows(xs, f, i - 1) + Row(xs, f, i - 1, |xs|)
  }

  function Scan<T, R>(xs: seq<T>, f: (T, T) -> Option<R>): seq<R>
  {
    Rows(xs, f, |xs|)
  }

  lemma {:induction false} RowLength<T, R>(xs: seq<T>, f: (T, T) -> Option<R>, i: nat, j: nat)
    requires i < |xs| && j <= |xs|
    ensures |Row(xs, f, i, j)| <= if j <= i then 0 else j - i - 1
    decreases j
  {
    if j > i + 1 {
      RowLength(xs, f, i, j - 1);
    }
  }

  lemma {:induction false} RowsLength<T, R>(xs: seq<T>, f: (T, T) -> Option<R>, i: nat)
    requires i <= |xs|
    ensures 2 * |Rows(xs, f, i)| <= i * (2 * |xs| - i - 1)
  {
    if i > 0 {
      var n := |xs|;
      RowsLength(xs, f, i - 1);
      RowLength(xs, f, i - 1, n);
      assert |Row(xs, f, i - 1, n)| <= n - i;
      assert (i - 1) * (2 * n - (i - 1) - 1) + 2 * (n - i) == i * (2 * n - i - 1);
    }
  }

  /** The scan keeps at most one result per unordered pair: n(n-1)/2. */
  lemma ScanLength<T, R>(xs: seq<T>, f: (T, T) -> Option<R>)
    ensures 2 * |Scan(xs, f)| <= |xs| * (|xs| - 1)
  {
    RowsLength(xs, f, |xs|);
  }

  lemma {:induction false} RowMembers<T, R>(xs: seq<T>, f: (T, T) -> Option<R>, i: nat, j: nat, r: R)
    requires i < |xs| && j <= |xs|
    ensures r in Row(xs, f, i, j) <==> exists k :: i < k < j && f(xs[i], xs[k]) == Some(r)
    decreases j
  {
    if j > i + 1 {
      RowMembers(xs, f, i, j - 1, r);
      if f(xs[i], xs[j - 1]) == Some(r) {
        assert r in Row(xs, f, i, j);
      }
    }
  }

  lemma {:induction false} RowsMembers<T, R>(xs: seq<T>, f: (T, T) -> Option<R>, i: nat, r: R)
    requires i <= |xs|
    ensures r in Rows(xs, f, i) <==>
      exists p, k :: 0 <= p < i && p < k < |xs| && f(xs[p], xs[k]) == Some(r)
  {
    if i > 0 {
      RowsMembers(xs, f, i - 1, r);
      RowMembers(xs, f, i - 1, |xs|, r);
    }
  }

  /** A result is kept exactly when it comes from a pair (p, k) with p < k. */
  lemma ScanMembers<T, R>(xs: seq<T>, f: (T, T) -> Option<R>, r: R)
    ensures r in Scan(xs, f) <==>
      exists p, k :: 0 <= p < k < |xs| && f(xs[p], xs[k]) == Some(r)
  {
    RowsMembers(xs, f, |xs|, r);
  }

  /** The nested loop itself: for i in range(n), for j in range(i + 1, n),
      append the test's result on (xs[i], xs[j]) when there is one. */
  method ScanPairs<T, R>(xs: seq<T>, f: (T, T) -> Option<R>) returns (out: seq<R>)
    ensures out == Scan(xs, f)
  {
    out := [];
    var n := |xs|;
    var i := 0;
    while i < n
      invariant 0 <= i <= n
      invariant out == Rows(xs, f, i)
    {
      var j := i + 1;
      while j < n
        invariant i + 1 <= j <= n
        invariant out == Rows(xs, f, i) + Row(xs, f, i, j)
      {
        var r := f(xs[i], xs[j]);
        if r.Some? {
          out := out + [r.value];
        }
        j := j + 1;
      }
      i := i + 1;
    }
  }
}
