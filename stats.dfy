/**
 The arithmetic behind the density statistics: C++ integer division, the
 sum and minimum of a list of densities, sorting and the median.
 */
module Stats {

  /** C++ `/` on `int`: the quotient truncated toward zero (Dafny's own `/`
      is Euclidean, which differs for a negative dividend). */
  function TruncDiv(n: int, d: int): (q: int)
    requires d > 0
    ensures Abs(q) == Abs(n) / d
    ensures 0 <= n ==> 0 <= q
    ensures n <= 0 ==> q <= 0
  {
    if n >= 0 then n / d else -((-n) / d)
  }

  /** The quotient times the divisor is the dividend rounded toward zero to
      a multiple of the divisor. */
  lemma TruncDivBounds(n: int, d: int)
    requires d > 0
    ensures 0 <= n ==> d * TruncDiv(n, d) <= n < d * TruncDiv(n, d) + d
    ensures n < 0 ==> d * TruncDiv(n, d) - d < n <= d * TruncDiv(n, d)
  {
    if n >= 0 {
      assert n == d * (n / d) + n % d;
    } else {
      var p := (-n) / d;
      assert -n == d * p + (-n) % d;
      assert d * (-p) == -(d * p);
    }
  }

  function Abs(n: int): nat
  {
    if n < 0 then -n else n
  }

  /** Sum of a list, accumulated left to right as a loop does. */
  function Sum(s: seq<int>): int
  {
    if s == [] then 0 else Sum(s[..|s| - 1]) + s[|s| - 1]
  }

  lemma SumAppend(s: seq<int>, x: int)
    ensures Sum(s + [x]) == Sum(s) + x
  {
    assert (s + [x])[..|s|] == s;
  }

  /** Smallest element, replacing the running minimum only by a strictly
      smaller value, as a left-to-right loop does. */
  function MinOf(s: seq<int>): (m: int)
    requires s != []
    ensures m in s
    ensures forall x :: x in s ==> m <= x
  {
    if |s| == 1 then s[0]
    else
      var init := s[..|s| - 1];
      var m := MinOf(init);
      assert forall x :: x in s ==> x in init || x == s[|s| - 1];
      if s[|s| - 1] < m then s[|s| - 1] else m
  }

  /** Largest element. */
  function MaxOf(s: seq<int>): (m: int)
    requires s != []
    ensures m in s
    ensures forall x :: x in s ==> x <= m
  {
    if |s| == 1 then s[0]
    else
      var init := s[..|s| - 1];
      var m := MaxOf(init);
      assert forall x :: x in s ==> x in init || x == s[|s| - 1];
      if s[|s| - 1] > m then s[|s| - 1] else m
  }

  predicate Sorted(s: seq<int>)
  {
    forall i, j :: 0 <= i < j < |s| ==> s[i] <= s[j]
  }

  /** Inserts x into a list before its first element that is not smaller. */
  function Insert(x: int, s: seq<int>): (r: seq<int>)
    ensures multiset(r) == multiset(s) + multiset{x}
    ensures Sorted(s) ==> Sorted(r)
  {
    if s == [] || x <= s[0] then [x] + s
    else
      var rest := Insert(x, s[1..]);
      assert s == [s[0]] + s[1..];
      InsertBelowHead(s[0], x, s[1..], rest);
      [s[0]] + rest
  }

  /** The step of Insert past a head h smaller than x: h stays below every
      element of the tail with x inserted. */
  lemma InsertBelowHead(h: int, x: int, tail: seq<int>, rest: seq<int>)
    requires h < x
    requires multiset(rest) == multiset(tail) + multiset{x}
    requires Sorted([h] + tail) ==> Sorted(rest)
    ensures Sorted([h] + tail) ==> Sorted([h] + rest)
  {
    if Sorted([h] + tail) {
      forall k | 0 <= k < |rest| ensures h <= rest[k] {
        assert rest[k] in multiset(rest);
        if rest[k] != x {
          assert rest[k] in multiset(tail);
          var m :| 0 <= m < |tail| && tail[m] == rest[k];
          assert ([h] + tail)[0] <= ([h] + tail)[m + 1];
        }
      }
    }
  }

  /** The ascending arrangement of a list: the reference for "sorted order". */
  function SortSpec(s: seq<int>): (r: seq<int>)
    ensures Sorted(r)
    ensures multiset(r) == multiset(s)
  {
    if s == [] then []
    else
      assert s == [s[0]] + s[1..];
      Insert(s[0], SortSpec(s[1..]))
  }

  /** Two ascending lists with the same elements are the same list; so any
      correct sort yields SortSpec. */
  lemma {:induction false} SortedUnique(a: seq<int>, b: seq<int>)
    requires Sorted(a) && Sorted(b)
    requires multiset(a) == multiset(b)
    ensures a == b
  {
    if a == [] {
      assert |b| == |multiset(b)| == 0;
    } else {
      assert |b| == |multiset(b)| == |multiset(a)| == |a|;
      HeadIsLeast(a, b[0]);
      HeadIsLeast(b, a[0]);
      assert a == [a[0]] + a[1..] && b == [b[0]] + b[1..];
      assert a[0] == b[0];
      assert multiset(a[1..]) == multiset(a) - multiset{a[0]};
      assert multiset(b[1..]) == multiset(b) - multiset{b[0]};
      SortedUnique(a[1..], b[1..]);
    }
  }

  /** The first element of an ascending list is its least. */
  lemma HeadIsLeast(a: seq<int>, x: int)
    requires Sorted(a) && x in multiset(a)
    ensures a[0] <= x
  {
    var i :| 0 <= i < |a| && a[i] == x;
  }

  /** Median of an ascending list: the middle element for an odd count, the
      truncated average of the two middle elements for an even count. */
  function MedianOfSorted(s: seq<int>): int
    requires s != []
  {
    var m := |s| / 2;
    if |s| % 2 == 0 then TruncDiv(s[m - 1] + s[m], 2) else s[m]
  }

  /** Median of a list taken in ascending order. */
  function Median(s: seq<int>): int
    requires s != []
  {
    MedianOfSorted(SortSpec(s))
  }

  /** For a list already in ascending order the median is read off directly. */
  lemma MedianOfAscending(s: seq<int>)
    requires s != [] && Sorted(s)
    ensures Median(s) == MedianOfSorted(s)
  {
    SortedUnique(s, SortSpec(s));
  }

  /** For an ascending list of odd length the median is its middle element. */
  lemma MedianOfOddCount(s: seq<int>)
    requires Sorted(s) && |s| % 2 == 1
    ensures Median(s) == s[|s| / 2]
  {
    MedianOfAscending(s);
  }

  /** The median lies between the smallest and the largest element. */
  lemma MedianWithinRange(s: seq<int>)
    requires s != []
    ensures MinOf(s) <= Median(s) <= MaxOf(s)
  {
    var t := SortSpec(s);
    assert |t| == |multiset(t)| == |multiset(s)| == |s|;
    forall k | 0 <= k < |t| ensures MinOf(s) <= t[k] <= MaxOf(s) {
      assert t[k] in multiset(t);
      assert t[k] in multiset(s);
      assert t[k] in s;
    }
    var m := |t| / 2;
    if |t| % 2 == 0 {
      var q := TruncDiv(t[m - 1] + t[m], 2);
      assert MinOf(s) <= t[m - 1] && t[m] <= MaxOf(s);
    }
  }

  /** Sorts an array in place into ascending order (the model of `std::sort`). */
  method InsertionSort(a: array<int>)
    modifies a
    ensures Sorted(a[..])
    ensures multiset(a[..]) == multiset(old(a[..]))
  {
    for i := 0 to a.Length
      invariant Sorted(a[..i])
      invariant multiset(a[..]) == multiset(old(a[..]))
    {
      SinkLast(a, i);
    }
  }

  /** Moves a[i] left past every larger element of the ascending prefix a[..i]. */
  method SinkLast(a: array<int>, i: nat)
    requires i < a.Length
    requires Sorted(a[..i])
    modifies a
    ensures Sorted(a[..i + 1])
    ensures multiset(a[..]) == multiset(old(a[..]))
    ensures a[i + 1..] == old(a[i + 1..])
  {
    var j := i;
    while j > 0 && a[j - 1] > a[j]
      invariant 0 <= j <= i
      invariant multiset(a[..]) == multiset(old(a[..]))
      invariant a[i + 1..] == old(a[i + 1..])
      invariant forall k, l :: 0 <= k < l <= i && k != j && l != j ==> a[k] <= a[l]
      invariant forall l :: j < l <= i ==> a[j] < a[l]
    {
      Swap(a, j - 1, j);
      j := j - 1;
    }
  }

  method Swap(a: array<int>, i: nat, j: nat)
    requires i < j < a.Length
    modifies a
    ensures a[..] == old(a[..])[i := old(a[j])][j := old(a[i])]
    ensures multiset(a[..]) == multiset(old(a[..]))
  {
    a[i], a[j] := a[j], a[i];
  }
}
