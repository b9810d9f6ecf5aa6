/**
 * The word-count recommendation: `int((mean + median) / 2)` over the
 * collected per-article counts, in exact integer arithmetic, and the
 * fallback used when no article is available.
 */
module WordStats {
  import opened Collections

  /** The target used when the workspace holds no article. */
  const DefaultWordCount: nat := 3000

  function Sum(s: seq<nat>): nat
  {
    if s == [] then 0 else s[0] + Sum(s[1..])
  }

  ghost predicate Sorted(s: seq<nat>) {
    forall i, j :: 0 <= i <= j < |s| ==> s[i] <= s[j]
  }

  /** Places `x` into the sorted `s`. */
  function Insert(x: nat, s: seq<nat>): (r: seq<nat>)
    requires Sorted(s)
    ensures Sorted(r) && multiset(r) == multiset(s) + multiset{x}
  {
    if s == [] || x <= s[0] then
      SortedCons(x, s);
      [x] + s
    else
      SortedTail(s);
      var t := Insert(x, s[1..]);
      assert s == [s[0]] + s[1..];
      LowerBoundKept(t, s[1..], x, s[0]);
      SortedCons(s[0], t);
      [s[0]] + t
  }

  /** A bound below a sorted sequence can go in front of it. */
  lemma SortedCons(h: nat, t: seq<nat>)
    requires Sorted(t) && (t == [] || h <= t[0])
    ensures Sorted([h] + t)
  {
    var r := [h] + t;
    forall i, j | 0 <= i <= j < |r| ensures r[i] <= r[j] {
      if i > 0 {
        assert r[i] == t[i - 1] && r[j] == t[j - 1];
      } else if j > 0 {
        assert r[j] == t[j - 1] && t[0] <= t[j - 1];
      }
    }
  }

  /** A bound below every element of `s` and below `x` is below every
      element of a sequence holding `s` and `x`. */
  lemma LowerBoundKept(t: seq<nat>, s: seq<nat>, x: nat, b: nat)
    requires multiset(t) == multiset(s) + multiset{x}
    requires b <= x && forall i :: 0 <= i < |s| ==> b <= s[i]
    ensures forall j :: 0 <= j < |t| ==> b <= t[j]
  {
    forall j | 0 <= j < |t| ensures b <= t[j] {
      assert t[j] in multiset(t);
      if t[j] != x {
        assert t[j] in multiset(s);
      }
    }
  }

  /** What `statistics.median` sorts the data into: the same counts, in
      ascending order. */
  function SortCounts(s: seq<nat>): (r: seq<nat>)
    ensures Sorted(r) && multiset(r) == multiset(s)
  {
    if s == [] then []
    else
      assert s == [s[0]] + s[1..];
      Insert(s[0], SortCounts(s[1..]))
  }

  /** Twice the median, so that an even-length median stays an integer. */
  function TwiceMedian(s: seq<nat>): nat
    requires |s| > 0
  {
    var t := SortCounts(s);
    var n := |t|;
    assert |t| == |multiset(t)| == |multiset(s)| == |s|;
    if n % 2 == 1 then 2 * t[n / 2] else t[n / 2 - 1] + t[n / 2]
  }

  /** `int((statistics.mean(s) + statistics.median(s)) / 2)`:
      (sum/n + med2/2) / 2, rounded down, is (2*sum + n*med2) / (4*n). */
  function Recommend(counts: seq<nat>): nat
    requires |counts| > 0
  {
    var n: nat := |counts|;
    Quotient(2 * Sum(counts) + Product(n, TwiceMedian(counts)), 4 * n)
  }

  function Product(a: nat, b: nat): nat
  {
    a * b
  }

  function Quotient(x: nat, d: nat): nat
    requires d > 0
  {
    x / d
  }

  lemma MulMonotone(d: nat, a: int, b: int)
    requires a <= b
    ensures d * a <= d * b
  {
  }

  lemma MulCancel(d: nat, a: int, b: int)
    requires d > 0 && d * a < d * b
    ensures a < b
  {
  }

  lemma {:induction false} SumAppend(a: seq<nat>, b: seq<nat>)
    ensures Sum(a + b) == Sum(a) + Sum(b)
  {
    if a == [] {
      assert a + b == b;
    } else {
      assert (a + b)[1..] == a[1..] + b;
      SumAppend(a[1..], b);
    }
  }

  /** Taking out the element at `j`: the rest sums to the remainder and
      holds one occurrence of that element less. */
  lemma RemoveAt(b: seq<nat>, j: nat)
    requires j < |b|
    ensures Sum(b) == b[j] + Sum(b[..j] + b[j + 1..])
    ensures multiset(b[..j] + b[j + 1..]) == multiset(b) - multiset{b[j]}
  {
    SumRemoveAt(b, j);
    MultisetRemoveAt(b, j);
  }

  lemma SumRemoveAt(b: seq<nat>, j: nat)
    requires j < |b|
    ensures Sum(b) == b[j] + Sum(b[..j] + b[j + 1..])
  {
    var tail := b[j..];
    assert b == b[..j] + tail;
    SumAppend(b[..j], tail);
    SumAppend(b[..j], b[j + 1..]);
    assert tail[1..] == b[j + 1..];
  }

  /** The sum depends on the counts only, not on their order. */
  lemma {:induction false} SumOfPermutation(a: seq<nat>, b: seq<nat>)
    requires multiset(a) == multiset(b)
    ensures Sum(a) == Sum(b)
    decreases |a|
  {
    if a == [] {
      assert |b| == |multiset(b)| == 0;
    } else {
      assert a[0] in multiset(b);
      var j :| 0 <= j < |b| && b[j] == a[0];
      RemoveAt(b, j);
      TailMultiset(a);
      SumOfPermutation(a[1..], b[..j] + b[j + 1..]);
    }
  }

  lemma HeadIsLeast(a: seq<nat>, x: nat)
    requires Sorted(a) && x in multiset(a)
    ensures |a| > 0 && a[0] <= x
  {
    assert x in a;
    var i :| 0 <= i < |a| && a[i] == x;
  }

  lemma SortedTail(a: seq<nat>)
    requires Sorted(a) && |a| > 0
    ensures Sorted(a[1..])
  {
  }

  lemma SameTails(a: seq<nat>, b: seq<nat>)
    requires |a| > 0 && |b| > 0 && multiset(a) == multiset(b) && a[0] == b[0]
    ensures multiset(a[1..]) == multiset(b[1..])
  {
    assert a == [a[0]] + a[1..];
    assert b == [b[0]] + b[1..];
    assert multiset(a[1..]) == multiset(a) - multiset{a[0]};
    assert multiset(b[1..]) == multiset(b) - multiset{b[0]};
  }

  /** Two ascending orders of the same counts are the same sequence. */
  lemma {:induction false} SortedUnique(a: seq<nat>, b: seq<nat>)
    requires Sorted(a) && Sorted(b) && multiset(a) == multiset(b)
    ensures a == b
    decreases |a|
  {
    if a == [] {
      assert |b| == |multiset(b)| == 0;
    } else {
      HeadIsLeast(b, a[0]);
      HeadIsLeast(a, b[0]);
      SameTails(a, b);
      SortedTail(a);
      SortedTail(b);
      SortedUnique(a[1..], b[1..]);
      assert a == [a[0]] + a[1..] && b == [b[0]] + b[1..];
    }
  }

  /** The recommendation depends on the counts only, not on the order in
      which the articles were read. */
  lemma RecommendOfPermutation(a: seq<nat>, b: seq<nat>)
    requires |a| > 0 && multiset(a) == multiset(b)
    ensures |b| > 0 && Recommend(a) == Recommend(b)
  {
    assert |b| == |multiset(b)| == |multiset(a)| == |a|;
    SumOfPermutation(a, b);
    MedianOfPermutation(a, b);
  }

  lemma MedianOfPermutation(a: seq<nat>, b: seq<nat>)
    requires |a| > 0 && |b| > 0 && multiset(a) == multiset(b)
    ensures TwiceMedian(a) == TwiceMedian(b)
  {
    SortedUnique(SortCounts(a), SortCounts(b));
  }

  lemma {:induction false} SumBetween(s: seq<nat>, lo: nat, hi: nat)
    requires forall i :: 0 <= i < |s| ==> lo <= s[i] <= hi
    ensures |s| * lo <= Sum(s) <= |s| * hi
  {
    if s != [] {
      var n := |s| - 1;
      SumBetween(s[1..], lo, hi);
      assert |s| * lo == lo + n * lo && |s| * hi == hi + n * hi;
    }
  }

  lemma QuotientBetween(x: nat, d: nat, lo: nat, hi: nat)
    requires d > 0 && d * lo <= x <= d * hi
    ensures lo <= x / d <= hi
  {
    var q := x / d;
    assert x == d * q + x % d;
    assert d * lo < d * (q + 1);
    MulCancel(d, lo, q + 1);
    assert d * q <= d * hi;
    MulCancel(d, q, hi + 1);
  }

  lemma ScaledBetween(n: nat, s: nat, m: nat, lo: nat, hi: nat)
    requires n * lo <= s <= n * hi && 2 * lo <= m <= 2 * hi
    ensures 4 * n * lo <= 2 * s + Product(n, m) <= 4 * n * hi
  {
    MulMonotone(n, 2 * lo, m);
    MulMonotone(n, m, 2 * hi);
    assert 4 * n * lo == 2 * (n * lo) + n * (2 * lo);
    assert 4 * n * hi == 2 * (n * hi) + n * (2 * hi);
  }

  /** The recommendation lies between the smallest and the largest count. */
  lemma RecommendBetween(counts: seq<nat>, lo: nat, hi: nat)
    requires |counts| > 0
    requires forall i :: 0 <= i < |counts| ==> lo <= counts[i] <= hi
    ensures lo <= Recommend(counts) <= hi
  {
    var n := |counts|;
    var t := SortCounts(counts);
    assert |t| == |multiset(t)| == |multiset(counts)| == n;
    forall k | 0 <= k < n ensures lo <= t[k] <= hi {
      assert t[k] in multiset(counts);
    }
    var m := TwiceMedian(counts);
    assert 2 * lo <= m <= 2 * hi;
    SumBetween(counts, lo, hi);
    var s := Sum(counts);
    ScaledBetween(n, s, m, lo, hi);
    QuotientBetween(2 * s + Product(n, m), 4 * n, lo, hi);
  }

  lemma SortedExample()
    ensures SortCounts([1000, 2000, 3000]) == [1000, 2000, 3000]
  {
    var s3: seq<nat> := [3000];
    var s2: seq<nat> := [2000] + s3;
    var s1: seq<nat> := [1000] + s2;
    SortStep(3000, []);
    assert [3000] + [] == s3;
    SortStep(2000, s3);
    SortStep(1000, s2);
    assert s1 == [1000, 2000, 3000];
  }

  /** Sorting a sequence whose first count is at most the others, already
      in order, leaves it as it is. */
  lemma SortStep(x: nat, s: seq<nat>)
    requires SortCounts(s) == s && Sorted(s)
    requires s == [] || x <= s[0]
    ensures SortCounts([x] + s) == [x] + s && Sorted([x] + s)
  {
    assert ([x] + s)[1..] == s;
  }

  lemma MedianExample()
    ensures TwiceMedian([1000, 2000, 3000]) == 4000
  {
    var s := [1000, 2000, 3000];
    SortedExample();
    var t := SortCounts(s);
    assert t == s && |t| == 3 && t[1] == 2000;
  }

  lemma SumExample()
    ensures Sum([1000, 2000, 3000]) == 6000
  {
    var s := [1000, 2000, 3000];
    assert s[1..] == [2000, 3000] && s[1..][1..] == [3000] && s[1..][1..][1..] == [];
  }

  /** Three articles of 1,000, 2,000 and 3,000 words: mean and median are
      both 2,000, and so is the recommendation. */
  lemma RecommendExample()
    ensures Recommend([1000, 2000, 3000]) == 2000
  {
    MedianExample();
    SumExample();
    assert Product(3, 4000) == 12000;
    assert Quotient(24000, 12) == 2000;
  }
}
