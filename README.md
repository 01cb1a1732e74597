# Windowed density/position merge buffer: a Dafny model

This project models the core of a small C++ program that merges two
measurement streams, density samples and position samples, each stamped in
microseconds. The program keeps the records of the last five seconds and
answers one query over them: the minimum, mean and median density of the
records whose position lies in a given range.

The model follows the source file `Source3.cpp` part by part:

- `Window` holds the record type `Data`, with −1 (`Absent`) standing for a
  measurement not yet supplied. It holds the class `CircularVector`, which,
  despite its name, is a growable list plus the largest timestamp seen.
  `Push` merges a record into the one with the same timestamp. Otherwise it
  appends the record and sweeps out every record older than
  `max(0, maxTime − 5000000)`. The pure function `Pushed` specifies `Push`.
  The lemmas beside it prove the merge path, the append path and the sweep.
  They also prove the invariant that every push keeps: one record per
  timestamp, and every record inside the window. The invariant holds for
  any sequence of pushes from the empty buffer. A density report and a
  position report for one fresh timestamp end up in one record holding both, in
  either order and with any reports for other timestamps between them, as
  long as the timestamp is still inside the window when the second arrives.
- `Query` defines which densities the query reads (`Selected`: position
  range and time window, in buffer order). It also defines what the query
  reports for them (`Statistics`: minimum, mean truncated toward zero, and
  median). An empty selection is the error `EmptyRange`.
- `Stats` holds the arithmetic: C++ truncating division, sum, minimum,
  sorting (an in-place insertion sort standing in for `std::sort`, tied to a
  reference sort by uniqueness of sorted permutations) and the median.
- `Monitor` holds the class `DensityMonitor`. It replaces the global buffer
  and the two readiness flags with one constructed object. Its methods are
  the two producer entry points and `CalculateDensityValues`.
- `Scenario` replays the twenty reports and the query of the repository's
  driver against the class contracts. It proves the four surviving records
  and the results: mean 175, minimum 160, median 175.

The query's lower time bound is `maxTime − 5000000` and, unlike the sweep
bound in `push`, it is not clamped at zero (Source3.cpp:125).

One consequence proved here (`Query.TimeFilterRedundant`): in any buffer
built by pushes, every record already lies within the query's time window.
So the time test of the query never excludes a record, and only the
position test matters.

## Model

| member | source | states |
|---|---|---|
| Window.MinTime | Source3.cpp:31-34 | the sweep bound is never negative, never below maxTime − 5000000, and is one of those two values |
| Window.Merge | Source3.cpp:39-41 | definition: the stored record keeps its timestamp; each measurement is taken from the incoming record unless that one is −1 |
| Window.IndexOfTimeFrom | Source3.cpp:38-39 | finds the first record with the incoming timestamp, or reports that none has it |
| Window.IndexOfTime | Source3.cpp:38-39 | definition: the scan from the first record |
| Window.Evict | Source3.cpp:61-63 | definition: the records whose timestamp is not below the bound, in their order; its properties are the Evict lemmas below |
| Window.Sweep | Source3.cpp:61-63 | the sweep loop returns exactly Evict(records, bound) |
| Window.Pushed | Source3.cpp:23-65 | definition of push on values: maxTime update, then merge into the first record with the timestamp, else append and sweep with max(0, maxTime − 5000000); its properties are the Push lemmas below |
| Window.PushAll | Source3.cpp:23-65 | definition: a sequence of pushes, first to last |
| Window.LatestTime | Source3.cpp:26-28 | the largest of a starting maxTime and a sequence of timestamps: at least the start and each timestamp, and equal to the start or to one of them |
| Window.UniqueTimes | Source3.cpp:38-44 | definition: no two records share a timestamp |
| Window.InWindow | Source3.cpp:26-34 | definition: every record lies in [max(0, maxTime − 5000000), maxTime] |
| Window.Inv | Source3.cpp:23-65 | definition: the invariant every push keeps, UniqueTimes and InWindow |
| Window.EvictMembers | Source3.cpp:61-63 | a record survives the sweep exactly when it was present and its timestamp is not below the bound |
| Window.EvictAppend | Source3.cpp:61-63 | the sweep keeps relative order: sweeping a concatenation concatenates the sweeps |
| Window.EvictUniqueTimes | Source3.cpp:61-63 | the sweep keeps timestamps unique |
| Window.EvictKeepsAll | Source3.cpp:61-63 | when no record is older than the bound, nothing is removed |
| Window.EvictDropsAll | Source3.cpp:61-63 | when every record is older than the bound, everything is removed |
| Window.EvictIdempotent | Source3.cpp:61-63 | sweeping twice with one bound is sweeping once |
| Window.PushMaxTime | Source3.cpp:26-28 | after a push maxTime is max(old maxTime, incoming timestamp), so it never decreases |
| Window.PushMerges | Source3.cpp:38-43 | merge path: length and maxTime unchanged, every other record unchanged, timestamp kept, each measurement replaced exactly when the incoming one is not −1 |
| Window.PushMergesAt | Source3.cpp:38-43 | merge path as a whole new store: the first record with the timestamp is merged in place |
| Window.PushAppends | Source3.cpp:58-63 | append path: old records swept with the new bound, followed by the incoming record if it is not stale |
| Window.PushAppendsAfterPrefix | Source3.cpp:58-63 | append path over a time-ordered buffer: exactly the stale prefix is removed |
| Window.PushDropsStale | Source3.cpp:31-34 | a stale incoming record is dropped by the push that brings it |
| Window.PushPreservesInv | Source3.cpp:23-65 | push keeps unique timestamps and every record within [max(0, maxTime − 5000000), maxTime] |
| Window.PushAllInv | Source3.cpp:23-65 | every buffer reached from the empty one by any sequence of pushes satisfies that invariant |
| Window.PushAllPreservesInv | Source3.cpp:23-65 | from any store satisfying the invariant, every sequence of pushes keeps it |
| Window.PushAllMaxTime | Source3.cpp:26-28 | after a sequence of pushes maxTime is the latest timestamp seen, LatestTime |
| Window.PushKeeps | Source3.cpp:38-63 | a push for another timestamp keeps every record that is still inside the new window |
| Window.PushAllKeeps | Source3.cpp:38-63 | pushes for other timestamps keep a record that is still inside the window after the last of them |
| Window.PushMergesLater | Source3.cpp:36-63 | two reports for one fresh timestamp, with any reports for other timestamps between them, leave exactly one record for it, the first merged with the second, while the timestamp is still in the window when the second arrives |
| Window.PushPairsLater | Source3.cpp:36-44 | a density report and a position report for one fresh timestamp, in either order and with other reports between them, leave exactly one record for it holding both values, while it is still in the window |
| Window.PushCommutes | Source3.cpp:38-44 | a density-only and a position-only record with one timestamp give the same buffer in either order |
| Window.PushCommutesFresh | Source3.cpp:38-63 | the same when no record had that timestamp before |
| Window.PushPairs | Source3.cpp:36-44 | a density report immediately followed by a position report for a fresh, in-window timestamp leave exactly one record for it, holding both values |
| Window.CircularVector.constructor | Source3.cpp:18-21 | a new buffer is empty with maxTime 0 and satisfies the invariant |
| Window.CircularVector.Push | Source3.cpp:23-65 | the new buffer is Pushed(old buffer, info), and the invariant is kept |
| Window.CircularVector.GetData | Source3.cpp:68-70 | returns the records |
| Window.CircularVector.GetMaxTime | Source3.cpp:73-75 | returns maxTime |
| Query.Statistics | Source3.cpp:134-157 | fails exactly on an empty selection; otherwise min is an element not above any other, mean is the sum truncated-divided by the count, median is that of the sorted list |
| Query.Selects | Source3.cpp:131-132 | definition: position in [minPos, maxPos] and timestamp in [maxTime − 5000000, maxTime], −1 compared as a number |
| Query.Selected | Source3.cpp:130-141 | definition: the densities of the records Selects accepts, in buffer order |
| Query.SelectedByPosition | Source3.cpp:131 | definition: the densities of the records whose position alone is in range |
| Query.SelectedSnoc | Source3.cpp:130-141 | one more record extends the selection by its density exactly when the filter accepts it |
| Query.SelectedMembers | Source3.cpp:130-141 | a density is selected exactly when some record with position in range and timestamp in [maxTime − 5000000, maxTime] carries it; −1 compares as a number |
| Query.SelectedAppend | Source3.cpp:130-141 | the selection keeps buffer order |
| Query.TimeFilterRedundant | Source3.cpp:124-132 | in a buffer satisfying the push invariant the time test excludes nothing: the selection equals the position-only selection |
| Query.MeanWithinRange | Source3.cpp:138-145 | the truncated mean lies between the minimum and the maximum |
| Query.SumBounds | Source3.cpp:138 | count × minimum ≤ sum ≤ count × maximum |
| Stats.TruncDiv | Source3.cpp:145 | C++ integer division: magnitude is |n| / d, sign follows the dividend (rounds toward zero) |
| Stats.TruncDivBounds | Source3.cpp:153 | quotient × divisor is the dividend rounded toward zero to a multiple of the divisor |
| Stats.SumAppend | Source3.cpp:138 | the running sum grows by each appended value |
| Stats.Sum | Source3.cpp:138 | definition: the sum of the list, starting from 0 |
| Stats.MinOf | Source3.cpp:134-136 | the running minimum is an element of the list and not above any element |
| Stats.MaxOf | Source3.cpp:148-157 | the largest element, used to bound mean and median |
| Stats.Insert | Source3.cpp:148 | insertion keeps the elements (plus one) and keeps ascending order |
| Stats.InsertBelowHead | Source3.cpp:148 | a head smaller than the inserted value stays below every element after insertion, so Insert keeps ascending order |
| Stats.SortSpec | Source3.cpp:148 | the reference sort: ascending and a permutation of its input |
| Stats.SortedUnique | Source3.cpp:148 | two ascending permutations of one list are equal, so any correct sort gives SortSpec |
| Stats.InsertionSort | Source3.cpp:148 | sorts the array in place: ascending and a permutation of the old contents |
| Stats.SinkLast | Source3.cpp:148 | one insertion step: the prefix up to i becomes ascending, the array is a permutation of the old one, and the elements after i are unchanged |
| Stats.Swap | Source3.cpp:148 | exchanges two elements and nothing else; the array is a permutation of the old one |
| Stats.MedianOfSorted | Source3.cpp:149-157 | definition: the element at n/2 for an odd count, the truncated average of those at n/2 − 1 and n/2 for an even count |
| Stats.Median | Source3.cpp:148-157 | definition: MedianOfSorted of the ascending arrangement SortSpec |
| Stats.MedianOfAscending | Source3.cpp:149-157 | for a list already ascending the median is read off at n/2 (even: truncated average of n/2−1 and n/2) |
| Stats.MedianOfOddCount | Source3.cpp:155-157 | for an ascending list of odd length the median is its middle element |
| Stats.MedianWithinRange | Source3.cpp:148-157 | the median lies between the minimum and the maximum |
| Monitor.MedianBySorting | Source3.cpp:147-157 | sorting a copy in place and reading the middle gives Median(values) |
| Monitor.Collect | Source3.cpp:119-142 | the filtering loop returns exactly the Selected densities in buffer order, their Sum, and their MinOf when there are any |
| Monitor.DensityRecord | Source3.cpp:91-93 | a density report becomes a record with that timestamp and density and no position |
| Monitor.PositionRecord | Source3.cpp:103-105 | a position report becomes a record with that timestamp and position and no density |
| Monitor.DensityMonitor.constructor | Source3.cpp:80-85 | the object replacing the globals starts with an empty buffer and both flags false |
| Monitor.DensityMonitor.MeasureDensityReady | Source3.cpp:88-98 | pushes the density-only record, sets the density flag, leaves the position flag |
| Monitor.DensityMonitor.MeasurePositionReady | Source3.cpp:100-110 | pushes the position-only record, sets the position flag, leaves the density flag |
| Monitor.DensityMonitor.CalculateDensityValues | Source3.cpp:112-162 | returns Statistics of the selected densities, leaves the buffer unchanged, and clears both flags on success |
| Scenario.DriverScenario | Source3.cpp:164-197 | after the driver's twenty reports exactly four records remain, and the query over positions 20 to 55 gives mean 175, minimum 160, median 175 |
| Scenario.DensityPhase | Source3.cpp:165-174 | the ten density reports leave the four records from 7440560 on, without positions |
| Scenario.PositionPhase | Source3.cpp:176-185 | the six position reports for evicted timestamps are dropped, the other four complete their records |
| Scenario.Step01 | Source3.cpp:165 | density 100 at 1042350 is appended to the empty buffer |
| Scenario.Step02 | Source3.cpp:166 | density 110 at 2132470 is appended |
| Scenario.Step03 | Source3.cpp:167 | density 120 at 3326890 is appended |
| Scenario.Step04 | Source3.cpp:168 | density 130 at 4024450 is appended |
| Scenario.Step05 | Source3.cpp:169 | density 140 at 5012030 is appended |
| Scenario.Step06 | Source3.cpp:170 | density 150 at 6102330 is appended and the record at 1042350 is swept out |
| Scenario.Step07 | Source3.cpp:171 | density 160 at 7440560 is appended and the record at 2132470 is swept out |
| Scenario.Step08 | Source3.cpp:172 | density 170 at 8032010 is appended; nothing is swept |
| Scenario.Step09 | Source3.cpp:173 | density 180 at 9320350 is appended and the records at 3326890 and 4024450 are swept out |
| Scenario.Step10 | Source3.cpp:174 | density 190 at 12030765 is appended and the records at 5012030 and 6102330 are swept out, leaving four |
| Scenario.Step11 | Source3.cpp:176 | position 10 at 1042350 is older than 7030765 and is dropped; the buffer is unchanged |
| Scenario.Step12 | Source3.cpp:177 | position 15 at 2132470 is older than 7030765 and is dropped; the buffer is unchanged |
| Scenario.Step13 | Source3.cpp:178 | position 20 at 3326890 is older than 7030765 and is dropped; the buffer is unchanged |
| Scenario.Step14 | Source3.cpp:179 | position 25 at 4024450 is older than 7030765 and is dropped; the buffer is unchanged |
| Scenario.Step15 | Source3.cpp:180 | position 30 at 5012030 is older than 7030765 and is dropped; the buffer is unchanged |
| Scenario.Step16 | Source3.cpp:181 | position 35 at 6102330 is older than 7030765 and is dropped; the buffer is unchanged |
| Scenario.Step17 | Source3.cpp:182 | position 40 at 7440560 is merged into the record with that timestamp, which keeps density 160 |
| Scenario.Step18 | Source3.cpp:183 | position 45 at 8032010 is merged into the record with that timestamp, which keeps density 170 |
| Scenario.Step19 | Source3.cpp:184 | position 50 at 9320350 is merged into the record with that timestamp, which keeps density 180 |
| Scenario.Step20 | Source3.cpp:185 | position 55 at 12030765 is merged into the record with that timestamp, which keeps density 190 |
| Scenario.DriverStatistics | Source3.cpp:197 | the driver's query yields Success(mean 175, min 160, median 175) |
| Scenario.DriverSelection | Source3.cpp:130-141 | all four final records pass the filter for positions 20 to 55 |
| Scenario.DriverSum | Source3.cpp:138 | their densities sum to 700 |
| Scenario.DriverMedian | Source3.cpp:148-157 | their median is (170 + 180) / 2 = 175 |
| Scenario.MedianOddExample | Source3.cpp:155-157 | an odd count takes the middle value: 100..140 gives 120 |
| Scenario.MedianEvenExample | Source3.cpp:152-153 | an even count averages the two middle values: 100..130 gives 115 |
| Scenario.MeanExample | Source3.cpp:145 | the mean truncates: 331 / 3 gives 110 |

## Left out

- Mutex, lock guards and the condition variable (Source3.cpp:82-83, 89, 97, 101, 109, 114): every operation is a sequential method on one object. The condition variable is notified but never waited on in the source.
- Readiness flags: nothing in the source reads them. The model only states how each operation sets or clears them.
- Console output of the driver and `main` (Source3.cpp:187-191, 199-201, 204-207): I/O. The push and query sequence is kept as `Scenario`.
- The commented-out slot-reuse code (Source3.cpp:47-57): it is dead code.
- Machine integers: timestamps, measurements, the sum and the median's `values[middle-1] + values[middle]` are mathematical integers. 32-bit overflow is not modelled.
- Monitor.DensityMonitor.CalculateDensityValues: the running minimum starts from the first selected density instead of `INT_MAX` (Source3.cpp:119). This gives the same result for every value a C++ `int` can hold, and the two differ only on the empty selection.
- Monitor.DensityMonitor.CalculateDensityValues: on an empty selection the source writes `INT_MAX` to the minimum and then divides by zero (Source3.cpp:144-145). The model returns `Failure(EmptyRange)` instead and leaves the flags as they were, since the source never reaches the lines that clear them.
- Query.Statistics: the mean divides by `values.size()`, a `size_t`, so a negative `int` sum is converted to unsigned first (Source3.cpp:145). The model uses signed truncating division throughout (`Stats.TruncDiv`). This agrees whenever the sum is not negative.
- Stats.InsertionSort: it stands in for `std::sort`. Only its result is modelled (ascending, a permutation), not the library's algorithm.
