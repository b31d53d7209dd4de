/**
 * The descriptive statistics the aggregator reports, over non-empty lists
 * of numbers: `sum`, `statistics.mean`, `statistics.median` (which sorts and,
 * for an even count, averages the two middle values), `min` and `max`.
 */
module Statistics {

  function Sum(s: seq<real>): real
  {
    if |s| == 0 then 0.0 else Sum(s[..|s| - 1]) + s[|s| - 1]
  }

  /** `statistics.mean(s)`. */
  function Mean(s: seq<real>): real
    requires |s| > 0
  {
    Sum(s) / |s| as real
  }

  /** `min(s)`. */
  function MinOf(s: seq<real>): (m: real)
    requires |s| > 0
    ensures m in s
    ensures forall x | x in s :: m <= x
  {
    if |s| == 1 then s[0]
    else
      var rest := MinOf(s[1..]);
      assert forall x | x in s :: x == s[0] || x in s[1..];
      if rest < s[0] then rest else s[0]
  }

  /** `max(s)`. */
  function MaxOf(s: seq<real>): (m: real)
    requires |s| > 0
    ensures m in s
    ensures forall x | x in s :: x <= m
  {
    if |s| == 1 then s[0]
    else
      var rest := MaxOf(s[1..]);
      assert forall x | x in s :: x == s[0] || x in s[1..];
      if rest > s[0] then rest else s[0]
  }

  predicate Sorted(s: seq<real>)
  {
    forall i, j | 0 <= i < j < |s| :: s[i] <= s[j]
  }

  /** `x` put into the sorted list `s` before the first larger element. */
  function Insert(x: real, s: seq<real>): (r: seq<real>)
    ensures |r| == |s| + 1
    ensures multiset(r) == multiset(s) + multiset{x}
    ensures forall y | y in r :: y == x || y in s
    ensures Sorted(s) ==> Sorted(r)
  {
    if |s| == 0 then [x]
    else if x <= s[0] then [x] + s
    else
      var tail := Insert(x, s[1..]);
      assert s == [s[0]] + s[1..];
      InsertAfterHead(x, s, tail);
      [s[0]] + tail
  }

  /** Putting the head in front of the insertion into the tail keeps a sorted
      list sorted when `x` is larger than the head. */
  lemma InsertAfterHead(x: real, s: seq<real>, tail: seq<real>)
    requires |s| > 0 && s[0] < x
    requires forall y | y in tail :: y == x || y in s[1..]
    requires Sorted(s[1..]) ==> Sorted(tail)
    ensures Sorted(s) ==> Sorted([s[0]] + tail)
  {
    if Sorted(s) {
      var r := [s[0]] + tail;
      forall i, j | 0 <= i < j < |r| ensures r[i] <= r[j] {
        if i > 0 {
          assert r[i] == tail[i - 1] && r[j] == tail[j - 1];
        } else {
          assert r[j] == tail[j - 1];
          assert r[j] in tail;
          if r[j] != x {
            var k :| 0 <= k < |s[1..]| && s[1..][k] == r[j];
            assert s[k + 1] == r[j];
          }
        }
      }
    }
  }

  /** `sorted(s)`. */
  function Sort(s: seq<real>): (r: seq<real>)
    ensures |r| == |s|
  {
    if |s| == 0 then []
    else Insert(s[|s| - 1], Sort(s[..|s| - 1]))
  }

  /** `sorted(s)` is sorted and holds the same elements as `s`. */
  lemma {:induction false} SortIsSortedPermutation(s: seq<real>)
    ensures Sorted(Sort(s))
    ensures multiset(Sort(s)) == multiset(s)
  {
    if |s| > 0 {
      SortIsSortedPermutation(s[..|s| - 1]);
      assert s == s[..|s| - 1] + [s[|s| - 1]];
    }
  }

  /** The middle value of a sorted list, or the average of its two middle values. */
  function Middle(sorted: seq<real>): real
    requires |sorted| > 0
  {
    var half := |sorted| / 2;
    if |sorted| % 2 == 1 then sorted[half] else (sorted[half - 1] + sorted[half]) / 2.0
  }

  /** `statistics.median(s)`. */
  function Median(s: seq<real>): real
    requires |s| > 0
  {
    Middle(Sort(s))
  }

  /** n numbers within [lo, hi] sum to between n * lo and n * hi. */
  lemma {:induction false} SumBounds(s: seq<real>, lo: real, hi: real)
    requires forall x | x in s :: lo <= x <= hi
    ensures |s| as real * lo <= Sum(s) <= |s| as real * hi
  {
    if |s| > 0 {
      var prefix := s[..|s| - 1];
      assert forall x | x in prefix :: x in s;
      SumBounds(prefix, lo, hi);
      var n, last := |prefix| as real, s[|s| - 1];
      assert last in s;
      assert Sum(s) == Sum(prefix) + last;
      assert |s| as real * lo == n * lo + lo && |s| as real * hi == n * hi + hi;
    }
  }

  /** The mean of numbers within [lo, hi] is within [lo, hi]. */
  lemma MeanBounds(s: seq<real>, lo: real, hi: real)
    requires |s| > 0
    requires forall x | x in s :: lo <= x <= hi
    ensures lo <= Mean(s) <= hi
  {
    var n := |s| as real;
    SumBounds(s, lo, hi);
    DivideMonotone(n * lo, Sum(s), n);
    DivideMonotone(Sum(s), n * hi, n);
    Cancel(n, lo);
    Cancel(n, hi);
  }

  /** The mean lies between the minimum and the maximum. */
  lemma MeanBetweenMinAndMax(s: seq<real>)
    requires |s| > 0
    ensures MinOf(s) <= Mean(s) <= MaxOf(s)
  {
    MeanBounds(s, MinOf(s), MaxOf(s));
  }

  lemma Cancel(n: real, x: real)
    requires n > 0.0
    ensures (n * x) / n == x
  {
  }

  lemma DivideMonotone(a: real, b: real, d: real)
    requires a <= b && d > 0.0
    ensures a / d <= b / d
  {
    var qa, qb := a / d, b / d;
    assert qa * d == a && qb * d == b;
  }

  /** The median lies between the minimum and the maximum. */
  lemma MedianBetweenMinAndMax(s: seq<real>)
    requires |s| > 0
    ensures MinOf(s) <= Median(s) <= MaxOf(s)
  {
    var sorted := Sort(s);
    SortIsSortedPermutation(s);
    forall k | 0 <= k < |sorted| ensures MinOf(s) <= sorted[k] <= MaxOf(s) {
      assert sorted[k] in multiset(sorted);
      assert sorted[k] in s;
    }
    MiddleBounds(sorted, MinOf(s), MaxOf(s));
  }

  lemma MiddleBounds(sorted: seq<real>, lo: real, hi: real)
    requires |sorted| > 0
    requires forall k | 0 <= k < |sorted| :: lo <= sorted[k] <= hi
    ensures lo <= Middle(sorted) <= hi
  {
    var half := |sorted| / 2;
    assert lo <= sorted[half] <= hi;
    if |sorted| % 2 == 0 {
      assert lo <= sorted[half - 1] <= hi;
    }
  }

  /** The median of a list of one is its element. */
  lemma MedianOfOne(x: real)
    ensures Median([x]) == x
  {
    assert Sort([x]) == Insert(x, Sort([]));
  }

  /** The head of a sorted list is at most each of its elements. */
  lemma HeadIsLeast(a: seq<real>, x: real)
    requires Sorted(a) && x in multiset(a)
    ensures |a| > 0 && a[0] <= x
  {
    var k :| 0 <= k < |a| && a[k] == x;
  }

  /** Two sorted lists with the same elements are the same list. */
  lemma {:induction false} SortedPermutationUnique(a: seq<real>, b: seq<real>)
    requires Sorted(a) && Sorted(b) && multiset(a) == multiset(b)
    ensures a == b
    decreases |a|
  {
    assert |a| == |multiset(a)| == |multiset(b)| == |b|;
    if |a| > 0 {
      assert b[0] in multiset(b);
      HeadIsLeast(a, b[0]);
      assert a[0] in multiset(a);
      HeadIsLeast(b, a[0]);
      SortedTail(a);
      SortedTail(b);
      assert a[0] == b[0];
      assert multiset(a[1..]) == multiset(b[1..]);
      SortedPermutationUnique(a[1..], b[1..]);
      SameHeadSameTail(a, b);
    }
  }

  /** Lists with the same head and the same tail are equal. */
  lemma SameHeadSameTail(a: seq<real>, b: seq<real>)
    requires |a| > 0 && |b| > 0 && a[0] == b[0] && a[1..] == b[1..]
    ensures a == b
  {
    assert a == [a[0]] + a[1..];
    assert b == [b[0]] + b[1..];
  }

  /** The tail of a sorted list is sorted and holds one occurrence of the
      head fewer. */
  lemma SortedTail(a: seq<real>)
    requires Sorted(a) && |a| > 0
    ensures Sorted(a[1..])
    ensures multiset(a[1..]) == multiset(a) - multiset{a[0]}
  {
    assert a == [a[0]] + a[1..];
  }

  /** The median is the middle of any sorted rearrangement of the list: the
      middle value for an odd length, and for an even length the average of
      the two middle values, not one of them. */
  lemma MedianOfSortedRearrangement(s: seq<real>, t: seq<real>)
    requires |s| > 0 && Sorted(t) && multiset(t) == multiset(s)
    ensures |t| == |s|
    ensures |s| % 2 == 1 ==> Median(s) == t[|s| / 2]
    ensures |s| % 2 == 0 ==> Median(s) == (t[|s| / 2 - 1] + t[|s| / 2]) / 2.0
  {
    SortIsSortedPermutation(s);
    SortedPermutationUnique(Sort(s), t);
    assert Median(s) == Middle(t);
  }

  /** The median does not depend on the order of the list. */
  lemma MedianOrderIndependent(s: seq<real>, t: seq<real>)
    requires |s| > 0 && multiset(s) == multiset(t)
    ensures |t| > 0 && Median(s) == Median(t)
  {
    assert |s| == |multiset(s)| == |multiset(t)| == |t|;
    SortIsSortedPermutation(s);
    SortIsSortedPermutation(t);
    SortedPermutationUnique(Sort(s), Sort(t));
  }

  /** The median of an even-length list averages the two middle values of
      the sorted list, whatever the order of the input. */
  lemma MedianAveragesMiddlePair(s: seq<real>)
    requires |s| > 0 && |s| % 2 == 0
    ensures Median(s) == (Sort(s)[|s| / 2 - 1] + Sort(s)[|s| / 2]) / 2.0
    ensures forall t | multiset(t) == multiset(s) :: Median(t) == Median(s)
  {
    SortIsSortedPermutation(s);
    MedianOfSortedRearrangement(s, Sort(s));
    forall t | multiset(t) == multiset(s) ensures |t| > 0 && Median(t) == Median(s) {
      MedianOrderIndependent(s, t);
    }
  }
}
