/**
 The object that takes the place of the process-wide buffer and readiness
 flags: the two producer entry points and the statistics query.
 */
module Monitor {
  import opened Stats
  import opened Window
  import opened Query

  /** The density-only record a density measurement becomes. */
  function DensityRecord(density: int, timeUs: int): (d: Data)
    ensures d.timeUs == timeUs && d.densityInfo == density && d.positionInfo == Absent
  {
    Data(timeUs, density, Absent)
  }

  /** The position-only record a position measurement becomes. */
  function PositionRecord(position: int, timeUs: int): (d: Data)
    ensures d.timeUs == timeUs && d.densityInfo == Absent && d.positionInfo == position
  {
    Data(timeUs, Absent, position)
  }

  /** The median step of the query: sort a copy of the values in place and
      read off the middle one, or the truncated average of the middle two. */
  method MedianBySorting(values: seq<int>) returns (median: int)
    requires values != []
    ensures median == Median(values)
  {
    var sorted := new int[|values|](k requires 0 <= k < |values| => values[k]);
    assert sorted[..] == values;
    InsertionSort(sorted);
    ghost var ascending := sorted[..];
    SortedUnique(ascending, SortSpec(values));
    assert Median(values) == MedianOfSorted(ascending);
    var middle := sorted.Length / 2;
    if sorted.Length % 2 == 0 {
      median := TruncDiv(sorted[middle - 1] + sorted[middle], 2);
    } else {
      median := sorted[middle];
    }
  }

  /** The filtering loop of the query: the selected densities in buffer
      order, their running minimum and their running sum. */
  method Collect(totalData: seq<Data>, minPos: int, maxPos: int, getMax: int)
    returns (values: seq<int>, min: int, sum: int)
    ensures values == Selected(totalData, minPos, maxPos, getMax)
    ensures sum == Sum(values)
    ensures values != [] ==> min == MinOf(values)
  {
    values, min, sum := [], 0, 0;
    var getMin := getMax - WindowUs;
    for i := 0 to |totalData|
      invariant values == Selected(totalData[..i], minPos, maxPos, getMax)
      invariant sum == Sum(values)
      invariant values != [] ==> min == MinOf(values)
    {
      var d := totalData[i];
      assert totalData[..i + 1] == totalData[..i] + [d];
      SelectedSnoc(totalData[..i], d, minPos, maxPos, getMax);
      if d.positionInfo >= minPos && d.positionInfo <= maxPos
         && d.timeUs >= getMin && d.timeUs <= getMax
      {
        if values == [] || d.densityInfo < min {
          min := d.densityInfo;
        }
        sum := sum + d.densityInfo;
        ghost var before := values;
        values := values + [d.densityInfo];
        assert values[..|values| - 1] == before;
      }
    }
    assert totalData[..|totalData|] == totalData;
  }

  class DensityMonitor {
    const buffer: CircularVector
    var dataDensityReady: bool
    var dataPositionReady: bool

    ghost predicate Valid()
      reads this, buffer
    {
      buffer.Valid()
    }

    constructor ()
      ensures Valid() && fresh(buffer)
      ensures buffer.Snapshot() == EmptyStore
      ensures !dataDensityReady && !dataPositionReady
    {
      buffer := new CircularVector();
      dataDensityReady := false;
      dataPositionReady := false;
    }

    /** A density producer reports a sample: it is pushed as a density-only
        record and the density flag is raised. */
    method MeasureDensityReady(density: int, timeUs: int)
      requires Valid()
      modifies this, buffer
      ensures Valid()
      ensures buffer.Snapshot() == Pushed(old(buffer.Snapshot()), DensityRecord(density, timeUs))
      ensures dataDensityReady && dataPositionReady == old(dataPositionReady)
    {
      var info := Data(0, Absent, Absent);
      info := info.(densityInfo := density);
      info := info.(timeUs := timeUs);
      buffer.Push(info);
      dataDensityReady := true;
    }

    /** A position producer reports a sample: it is pushed as a position-only
        record and the position flag is raised. */
    method MeasurePositionReady(position: int, timeUs: int)
      requires Valid()
      modifies this, buffer
      ensures Valid()
      ensures buffer.Snapshot() == Pushed(old(buffer.Snapshot()), PositionRecord(position, timeUs))
      ensures dataPositionReady && dataDensityReady == old(dataDensityReady)
    {
      var info := Data(0, Absent, Absent);
      info := info.(positionInfo := position);
      info := info.(timeUs := timeUs);
      buffer.Push(info);
      dataPositionReady := true;
    }

    /** Minimum, truncated mean and median of the densities of the records
        with position in [minPos, maxPos] and timestamp in the last five
        seconds; both flags are lowered. With no such record the result is
        EmptyRange and the flags stay as they were. */
    method CalculateDensityValues(minPos: int, maxPos: int) returns (r: Result<Summary>)
      requires Valid()
      modifies this
      ensures Valid()
      ensures buffer.Snapshot() == old(buffer.Snapshot())
      ensures r == Statistics(Selected(buffer.data, minPos, maxPos, buffer.maxTime))
      ensures r.Success? ==> !dataDensityReady && !dataPositionReady
      ensures r.Failure? ==>
                dataDensityReady == old(dataDensityReady) && dataPositionReady == old(dataPositionReady)
    {
      var totalData := buffer.GetData();
      var getMax := buffer.GetMaxTime();
      var values, min, sum := Collect(totalData, minPos, maxPos, getMax);
      if values == [] {
        return Failure(EmptyRange);
      }
      var mean := TruncDiv(sum, |values|);
      var median := MedianBySorting(values);
      dataDensityReady := false;
      dataPositionReady := false;
      r := Success(Summary(mean, min, median));
    }
  }
}
