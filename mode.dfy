/** `mode(array)`: sort the array in place by how often each element occurs, then pop. */
module Mode {
  import opened Wrappers

  /** The elements of `s` appear in non-decreasing order of their number of occurrences in
      `counts` (the comparator `filter(v => v === a).length - filter(v => v === b).length`). */
  ghost predicate SortedByCount<T>(s: seq<T>, counts: multiset<T>) {
    forall p, q :: 0 <= p < q < |s| ==> counts[s[p]] <= counts[s[q]]
  }

  /** The last element of a permutation sorted by count occurs at least as often as any
      element of the original. */
  lemma LastIsMostFrequent<T>(s: seq<T>, orig: seq<T>)
    requires |s| > 0 && multiset(s) == multiset(orig)
    requires SortedByCount(s, multiset(orig))
    ensures s[|s| - 1] in orig
    ensures forall x :: x in orig ==> multiset(orig)[x] <= multiset(orig)[s[|s| - 1]]
  {
    assert s[|s| - 1] in multiset(s);
    forall x | x in orig
      ensures multiset(orig)[x] <= multiset(orig)[s[|s| - 1]]
    {
      assert x in multiset(s);
      var p :| 0 <= p < |s| && s[p] == x;
      if p < |s| - 1 {
        assert LastAtLeast(s, orig, p);
      }
    }
  }

  // names the sortedness fact at one index, so that the quantifier above is instantiated
  ghost predicate LastAtLeast<T>(s: seq<T>, orig: seq<T>, p: int)
    requires 0 <= p < |s| - 1
  {
    multiset(orig)[s[p]] <= multiset(orig)[s[|s| - 1]]
  }

  /** `array.filter(v => v === x).length`: the number of occurrences of `x`. */
  function Count<T(==)>(s: seq<T>, x: T): (n: nat)
    ensures n == multiset(s)[x]
  {
    if s == [] then 0
    else (assert s == s[..|s| - 1] + [s[|s| - 1]];
          Count(s[..|s| - 1], x) + (if s[|s| - 1] == x then 1 else 0))
  }

  /** `array.sort(byCount)`: a stable insertion sort by occurrence count. */
  method SortByCount<T(==)>(a: array<T>)
    modifies a
    ensures multiset(a[..]) == multiset(old(a[..]))
    ensures SortedByCount(a[..], multiset(old(a[..])))
  {
    // the comparator counts occurrences in the elements as they were when sorting began
    var snapshot := a[..];
    var i := 1;
    while i < a.Length
      invariant a.Length == 0 || 1 <= i <= a.Length
      invariant multiset(a[..]) == multiset(snapshot)
      invariant SortedByCount(a[..if i <= a.Length then i else a.Length], multiset(snapshot))
    {
      InsertByCount(a, i, snapshot);
      i := i + 1;
    }
    assert a.Length == 0 || a[..i] == a[..];
  }

  /** One insertion step: `a[i]` sinks into the sorted prefix `a[..i]`, passing only elements
      that occur strictly more often, so equally frequent elements keep their order. */
  method InsertByCount<T(==)>(a: array<T>, i: nat, snapshot: seq<T>)
    requires 0 < i < a.Length
    requires multiset(a[..]) == multiset(snapshot)
    requires SortedByCount(a[..i], multiset(snapshot))
    modifies a
    ensures multiset(a[..]) == multiset(snapshot)
    ensures SortedByCount(a[..i + 1], multiset(snapshot))
  {
    ghost var counts := multiset(snapshot);
    SinkStart(a[..], i, counts);
    var j := i;
    while j > 0 && Count(snapshot, a[j - 1]) > Count(snapshot, a[j])
      invariant j <= i
      invariant multiset(a[..]) == counts
      invariant Sinking(a[..], j, i, counts)
    {
      SinkStep(a[..], j, i, counts);
      SwapAdjacent(a, j);
      j := j - 1;
    }
    SinkDone(a[..], j, i, counts);
  }

  /** While `s[j]` sinks through `s[..i + 1]`: the rest is sorted by count, and `s[j]` occurs
      less often than everything it has passed. */
  ghost predicate Sinking<T>(s: seq<T>, j: nat, i: nat, counts: multiset<T>) {
    j <= i < |s| &&
    (forall p, q :: 0 <= p < q <= i && p != j && q != j ==> counts[s[p]] <= counts[s[q]]) &&
    (forall q :: j < q <= i ==> counts[s[j]] < counts[s[q]])
  }

  lemma SinkStart<T>(s: seq<T>, i: nat, counts: multiset<T>)
    requires i < |s| && SortedByCount(s[..i], counts)
    ensures Sinking(s, i, i, counts)
  {
    forall p, q | 0 <= p < q <= i && p != i && q != i
      ensures counts[s[p]] <= counts[s[q]]
    {
      assert s[p] == s[..i][p] && s[q] == s[..i][q];
    }
  }

  lemma SinkStep<T>(s: seq<T>, j: nat, i: nat, counts: multiset<T>)
    requires Sinking(s, j, i, counts) && 0 < j && counts[s[j - 1]] > counts[s[j]]
    ensures Sinking(s[j - 1 := s[j]][j := s[j - 1]], j - 1, i, counts)
  {
  }

  lemma SinkDone<T>(s: seq<T>, j: nat, i: nat, counts: multiset<T>)
    requires Sinking(s, j, i, counts) && (j == 0 || counts[s[j - 1]] <= counts[s[j]])
    ensures SortedByCount(s[..i + 1], counts)
  {
    forall p, q | 0 <= p < q <= i
      ensures counts[s[p]] <= counts[s[q]]
    {
      if q == j && p < j - 1 {
        assert counts[s[p]] <= counts[s[j - 1]];
      }
    }
  }

  /** Exchanges `a[j - 1]` and `a[j]`. */
  method SwapAdjacent<T>(a: array<T>, j: nat)
    requires 0 < j < a.Length
    modifies a
    ensures a[..] == old(a[..])[j - 1 := old(a[j])][j := old(a[j - 1])]
    ensures multiset(a[..]) == multiset(old(a[..]))
  {
    a[j - 1], a[j] := a[j], a[j - 1];
  }

  /** `mode(array)`: the array is sorted by count and its last element popped and returned.
      Dafny arrays cannot shrink; what remains in the array after the pop is
      `a[..a.Length - 1]`. An empty array pops `undefined`. */
  method Mode<T(==)>(a: array<T>) returns (m: Option<T>)
    modifies a
    ensures multiset(a[..]) == multiset(old(a[..]))
    ensures SortedByCount(a[..], multiset(old(a[..])))
    ensures a.Length == 0 <==> m == None
    ensures a.Length > 0 ==> m == Some(a[a.Length - 1])
    ensures m.Some? ==> m.value in old(a[..])
    ensures m.Some? ==>
      forall x :: x in old(a[..]) ==> multiset(old(a[..]))[x] <= multiset(old(a[..]))[m.value]
  {
    SortByCount(a);
    if a.Length == 0 {
      return None;
    }
    LastIsMostFrequent(a[..], old(a[..]));
    m := Some(a[a.Length - 1]);
  }

  /** `mode` on a sequence of values, as `processForecast` applies it to a day's conditions:
      a most frequent element of a non-empty sequence. */
  method MostFrequent<T(==)>(s: seq<T>) returns (m: T)
    requires |s| > 0
    ensures m in s
    ensures forall x :: x in s ==> multiset(s)[x] <= multiset(s)[m]
  {
    var a := new T[|s|](k requires 0 <= k < |s| => s[k]);
    assert a[..] == s;
    var r := Mode(a);
    m := r.value;
  }
}
