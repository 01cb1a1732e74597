/**
 The statistics query: which densities it reads from the buffer, and the
 minimum, truncated mean and median it reports for them.
 */
module Query {
  import opened Stats
  import opened Window

  /** The three figures the query writes through its output parameters. */
  datatype Summary = Summary(mean: int, min: int, median: int)

  /** The only failure: no record passed the filter, so the mean would
      divide by zero. */
  datatype QueryError = EmptyRange

  datatype Result<T> = Success(value: T) | Failure(error: QueryError)

  /** The filter of the query: position inside [minPos, maxPos] and timestamp
      inside [maxTime - 5 s, maxTime]. The lower bound is not clamped at
      zero, and an Absent position (-1) is compared like any other number. */
  predicate Selects(d: Data, minPos: int, maxPos: int, maxTime: int)
  {
    minPos <= d.positionInfo <= maxPos && maxTime - WindowUs <= d.timeUs <= maxTime
  }

  /** The densities of the records the filter selects, in buffer order. */
  function Selected(s: seq<Data>, minPos: int, maxPos: int, maxTime: int): seq<int>
  {
    if s == [] then []
    else
      var d := s[|s| - 1];
      Selected(s[..|s| - 1], minPos, maxPos, maxTime)
      + (if Selects(d, minPos, maxPos, maxTime) then [d.densityInfo] else [])
  }

  /** The densities of the records whose position alone is in range. */
  function SelectedByPosition(s: seq<Data>, minPos: int, maxPos: int): seq<int>
  {
    if s == [] then []
    else
      var d := s[|s| - 1];
      SelectedByPosition(s[..|s| - 1], minPos, maxPos)
      + (if minPos <= d.positionInfo <= maxPos then [d.densityInfo] else [])
  }

  /** The figures for a list of selected densities; an empty list is the
      error the source leaves as a division by zero. */
  function Statistics(values: seq<int>): (r: Result<Summary>)
    ensures r.Failure? <==> values == []
    ensures r.Success? ==> r.value.min in values
    ensures r.Success? ==> forall v :: v in values ==> r.value.min <= v
    ensures r.Success? ==> r.value.mean == TruncDiv(Sum(values), |values|)
    ensures r.Success? ==> r.value.median == MedianOfSorted(SortSpec(values))
  {
    if values == [] then Failure(EmptyRange)
    else Success(Summary(TruncDiv(Sum(values), |values|), MinOf(values), Median(values)))
  }

  /** One more record extends the selection by its density exactly when the
      filter accepts it. */
  lemma SelectedSnoc(s: seq<Data>, d: Data, minPos: int, maxPos: int, maxTime: int)
    ensures Selected(s + [d], minPos, maxPos, maxTime)
         == Selected(s, minPos, maxPos, maxTime)
            + (if Selects(d, minPos, maxPos, maxTime) then [d.densityInfo] else [])
  {
    assert (s + [d])[..|s + [d]| - 1] == s;
  }

  /** A density is selected exactly when some record passing the filter
      carries it. */
  lemma {:induction false} SelectedMembers(s: seq<Data>, minPos: int, maxPos: int, maxTime: int, v: int)
    ensures v in Selected(s, minPos, maxPos, maxTime)
        <==> exists i :: 0 <= i < |s| && Selects(s[i], minPos, maxPos, maxTime) && s[i].densityInfo == v
  {
    if s != [] {
      var init := s[..|s| - 1];
      SelectedMembers(init, minPos, maxPos, maxTime, v);
      assert forall i :: 0 <= i < |init| ==> s[i] == init[i];
    }
  }

  /** The selection keeps buffer order: selecting from a concatenation is
      the concatenation of the selections. */
  lemma {:induction false} SelectedAppend(s: seq<Data>, t: seq<Data>, minPos: int, maxPos: int, maxTime: int)
    ensures Selected(s + t, minPos, maxPos, maxTime)
         == Selected(s, minPos, maxPos, maxTime) + Selected(t, minPos, maxPos, maxTime)
  {
    if t == [] {
      assert s + t == s;
    } else {
      SelectedAppend(s, t[..|t| - 1], minPos, maxPos, maxTime);
      assert (s + t)[..|s + t| - 1] == s + t[..|t| - 1];
    }
  }

  /** In a buffer built by push, the time condition of the filter excludes
      nothing: every record already lies in the query's window. */
  lemma {:induction false} TimeFilterRedundant(st: Store, minPos: int, maxPos: int)
    requires Inv(st)
    ensures Selected(st.data, minPos, maxPos, st.maxTime) == SelectedByPosition(st.data, minPos, maxPos)
    decreases |st.data|
  {
    if st.data != [] {
      var init := st.data[..|st.data| - 1];
      assert Inv(Store(init, st.maxTime));
      TimeFilterRedundant(Store(init, st.maxTime), minPos, maxPos);
    }
  }

  /** The mean is bounded by the minimum and the maximum. */
  lemma MeanWithinRange(values: seq<int>)
    requires values != []
    ensures MinOf(values) <= TruncDiv(Sum(values), |values|) <= MaxOf(values)
  {
    var n, total := |values|, Sum(values);
    var q, lo, hi := TruncDiv(total, n), MinOf(values), MaxOf(values);
    SumBounds(values);
    TruncDivBounds(total, n);
    QuotientBetween(n, total, q, lo, hi);
  }

  /** A quotient rounded toward zero of a total between n * lo and n * hi
      lies between lo and hi. */
  lemma QuotientBetween(n: int, total: int, q: int, lo: int, hi: int)
    requires n > 0 && n * lo <= total <= n * hi
    requires 0 <= total ==> n * q <= total < n * q + n
    requires total < 0 ==> n * q - n < total <= n * q
    ensures lo <= q <= hi
  {
    if q > hi {
      MulMonotone(n, hi + 1, q);
    }
    if q < lo {
      MulMonotone(n, q + 1, lo);
    }
  }

  /** n times the minimum is at most the sum, which is at most n times the
      maximum. */
  lemma {:induction false} SumBounds(values: seq<int>)
    requires values != []
    ensures |values| * MinOf(values) <= Sum(values) <= |values| * MaxOf(values)
  {
    var n := |values|;
    if n > 1 {
      var init := values[..n - 1];
      var last := values[n - 1];
      SumBounds(init);
      assert values == init + [last];
      var lo, hi, lo', hi' := MinOf(values), MaxOf(values), MinOf(init), MaxOf(init);
      assert lo <= lo' && hi' <= hi by {
        assert lo' in values && hi' in values;
      }
      assert lo <= last <= hi;
      SumStep(n, lo, lo', hi', hi);
    }
  }

  /** The arithmetic of one SumBounds step, with the sum terms abstracted. */
  lemma SumStep(n: int, lo: int, lo': int, hi': int, hi: int)
    requires n > 1 && lo <= lo' && hi' <= hi
    ensures (n - 1) * lo <= (n - 1) * lo' && n * lo == (n - 1) * lo + lo
    ensures (n - 1) * hi' <= (n - 1) * hi && n * hi == (n - 1) * hi + hi
  {
    MulMonotone(n - 1, lo, lo');
    MulMonotone(n - 1, hi', hi);
  }

  lemma MulMonotone(n: nat, a: int, b: int)
    requires a <= b
    ensures n * a <= n * b
  {
    assert n * b - n * a == n * (b - a);
  }
}
