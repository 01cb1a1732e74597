/**
 The demonstration sequence of the repository's driver: ten density samples,
 then ten position samples with the same timestamps, then one query over
 positions 20 to 55.
 */
module Scenario {
  import opened Stats
  import opened Window
  import opened Query
  import opened Monitor

  /** The buffer after the ten density reports: only the last four lie in
      the five seconds before 12030765, still without positions. */
  const AfterDensities: Store := Store([Data(7440560, 160, Absent), Data(8032010, 170, Absent), Data(9320350, 180, Absent), Data(12030765, 190, Absent)], 12030765)

  /** The four records left at the end, each holding both measurements. */
  const FinalRecords: seq<Data> := [Data(7440560, 160, 40), Data(8032010, 170, 45), Data(9320350, 180, 50), Data(12030765, 190, 55)]

  /** The buffer after all twenty reports. */
  const AfterPositions: Store := Store(FinalRecords, 12030765)

  /** The driver end to end: after the twenty reports only the four records
      of the last five seconds remain, and the query over positions 20 to 55
      gives mean 175, minimum 160 and median 175. */
  method DriverScenario() returns (records: seq<Data>, r: Result<Summary>)
    ensures records == FinalRecords
    ensures r == Success(Summary(175, 160, 175))
  {
    var m := new DensityMonitor();
    DensityPhase(m);
    PositionPhase(m);
    records := m.buffer.GetData();
    r := m.CalculateDensityValues(20, 55);
    DriverStatistics();
  }

  /** The ten density reports; the sweep drops the six oldest on the way. */
  method DensityPhase(m: DensityMonitor)
    requires m.Valid() && m.buffer.Snapshot() == EmptyStore
    modifies m, m.buffer
    ensures m.Valid() && m.buffer.Snapshot() == AfterDensities
  {
    m.MeasureDensityReady(100, 1042350);
    Step01();
    m.MeasureDensityReady(110, 2132470);
    Step02();
    m.MeasureDensityReady(120, 3326890);
    Step03();
    m.MeasureDensityReady(130, 4024450);
    Step04();
    m.MeasureDensityReady(140, 5012030);
    Step05();
    m.MeasureDensityReady(150, 6102330);
    Step06();
    m.MeasureDensityReady(160, 7440560);
    Step07();
    m.MeasureDensityReady(170, 8032010);
    Step08();
    m.MeasureDensityReady(180, 9320350);
    Step09();
    m.MeasureDensityReady(190, 12030765);
    Step10();
  }

  /** The ten position reports: those for the six evicted timestamps are
      dropped at once, the other four complete their records. */
  method PositionPhase(m: DensityMonitor)
    requires m.Valid() && m.buffer.Snapshot() == AfterDensities
    modifies m, m.buffer
    ensures m.Valid() && m.buffer.Snapshot() == AfterPositions
  {
    m.MeasurePositionReady(10, 1042350);
    Step11();
    m.MeasurePositionReady(15, 2132470);
    Step12();
    m.MeasurePositionReady(20, 3326890);
    Step13();
    m.MeasurePositionReady(25, 4024450);
    Step14();
    m.MeasurePositionReady(30, 5012030);
    Step15();
    m.MeasurePositionReady(35, 6102330);
    Step16();
    m.MeasurePositionReady(40, 7440560);
    Step17();
    m.MeasurePositionReady(45, 8032010);
    Step18();
    m.MeasurePositionReady(50, 9320350);
    Step19();
    m.MeasurePositionReady(55, 12030765);
    Step20();
  }

  /** Minimum 160, mean 700 / 4 = 175, median (170 + 180) / 2 = 175. */
  lemma DriverStatistics()
    ensures Statistics(Selected(FinalRecords, 20, 55, 12030765)) == Success(Summary(175, 160, 175))
  {
    DriverSelection();
    DriverSum();
    DriverMedian();
    assert MinOf([160, 170, 180, 190]) == 160;
    assert TruncDiv(700, 4) == 175;
  }

  /** All four final records pass the filter for positions 20 to 55. */
  lemma DriverSelection()
    ensures Selected(FinalRecords, 20, 55, 12030765) == [160, 170, 180, 190]
  {
    var s := FinalRecords;
    assert s[..3][..2] == s[..2] && s[..2][..1] == s[..1] && s[..1][..0] == [];
    assert Selected(s[..1], 20, 55, 12030765) == [160];
    assert Selected(s[..2], 20, 55, 12030765) == [160, 170];
    assert Selected(s[..3], 20, 55, 12030765) == [160, 170, 180];
  }

  lemma DriverSum()
    ensures Sum([160, 170, 180, 190]) == 700
  {
    assert [160, 170, 180, 190] == [160, 170, 180] + [190];
    assert [160, 170, 180] == [160, 170] + [180];
    assert [160, 170] == [160] + [170];
    assert [160] == [] + [160];
    SumAppend([], 160);
    SumAppend([160], 170);
    SumAppend([160, 170], 180);
    SumAppend([160, 170, 180], 190);
  }

  lemma DriverMedian()
    ensures Median([160, 170, 180, 190]) == 175
  {
    MedianOfAscending([160, 170, 180, 190]);
    assert TruncDiv(350, 2) == 175;
  }

  /** An odd count takes the middle value. */
  lemma MedianOddExample()
    ensures Median([100, 110, 120, 130, 140]) == 120
  {
    AscendingFive(100, 110, 120, 130, 140);
    MedianOfOddCount([100, 110, 120, 130, 140]);
  }

  /** Five values in ascending order form a sorted list. */
  lemma AscendingFive(a: int, b: int, c: int, d: int, e: int)
    requires a <= b <= c <= d <= e
    ensures Sorted([a, b, c, d, e])
  {
  }

  /** An even count takes the truncated average of the middle two values. */
  lemma MedianEvenExample()
    ensures Median([100, 110, 120, 130]) == 115
  {
    MedianOfAscending([100, 110, 120, 130]);
    assert TruncDiv(230, 2) == 115;
  }

  /** The mean truncates: 331 / 3 is 110. */
  lemma MeanExample()
    ensures TruncDiv(Sum([100, 110, 121]), 3) == 110
  {
    assert [100, 110, 121] == [100, 110] + [121];
    assert [100, 110] == [100] + [110];
    assert [100] == [] + [100];
    SumAppend([], 100);
    SumAppend([100], 110);
    SumAppend([100, 110], 121);
  }

  // One lemma per report of the driver: the buffer before and after it.

  // The buffer after each report that changes it.
  const AfterReport01: Store := Store([Data(1042350, 100, Absent)], 1042350)
  const AfterReport02: Store := Store([Data(1042350, 100, Absent), Data(2132470, 110, Absent)], 2132470)
  const AfterReport03: Store := Store([Data(1042350, 100, Absent), Data(2132470, 110, Absent), Data(3326890, 120, Absent)], 3326890)
  const AfterReport04: Store := Store([Data(1042350, 100, Absent), Data(2132470, 110, Absent), Data(3326890, 120, Absent), Data(4024450, 130, Absent)], 4024450)
  const AfterReport05: Store := Store([Data(1042350, 100, Absent), Data(2132470, 110, Absent), Data(3326890, 120, Absent), Data(4024450, 130, Absent), Data(5012030, 140, Absent)], 5012030)
  const AfterReport06: Store := Store([Data(2132470, 110, Absent), Data(3326890, 120, Absent), Data(4024450, 130, Absent), Data(5012030, 140, Absent), Data(6102330, 150, Absent)], 6102330)
  const AfterReport07: Store := Store([Data(3326890, 120, Absent), Data(4024450, 130, Absent), Data(5012030, 140, Absent), Data(6102330, 150, Absent), Data(7440560, 160, Absent)], 7440560)
  const AfterReport08: Store := Store([Data(3326890, 120, Absent), Data(4024450, 130, Absent), Data(5012030, 140, Absent), Data(6102330, 150, Absent), Data(7440560, 160, Absent), Data(8032010, 170, Absent)], 8032010)
  const AfterReport09: Store := Store([Data(5012030, 140, Absent), Data(6102330, 150, Absent), Data(7440560, 160, Absent), Data(8032010, 170, Absent), Data(9320350, 180, Absent)], 9320350)
  const AfterReport17: Store := Store([Data(7440560, 160, 40), Data(8032010, 170, Absent), Data(9320350, 180, Absent), Data(12030765, 190, Absent)], 12030765)
  const AfterReport18: Store := Store([Data(7440560, 160, 40), Data(8032010, 170, 45), Data(9320350, 180, Absent), Data(12030765, 190, Absent)], 12030765)
  const AfterReport19: Store := Store([Data(7440560, 160, 40), Data(8032010, 170, 45), Data(9320350, 180, 50), Data(12030765, 190, Absent)], 12030765)

  lemma Step01()
    ensures Pushed(EmptyStore, DensityRecord(100, 1042350)) == AfterReport01
  {
    PushAppendsAfterPrefix(EmptyStore, DensityRecord(100, 1042350), 0);
  }

  lemma Step02()
    ensures Pushed(AfterReport01, DensityRecord(110, 2132470)) == AfterReport02
  {
    PushAppendsAfterPrefix(AfterReport01, DensityRecord(110, 2132470), 0);
  }

  lemma Step03()
    ensures Pushed(AfterReport02, DensityRecord(120, 3326890)) == AfterReport03
  {
    PushAppendsAfterPrefix(AfterReport02, DensityRecord(120, 3326890), 0);
  }

  lemma Step04()
    ensures Pushed(AfterReport03, DensityRecord(130, 4024450)) == AfterReport04
  {
    PushAppendsAfterPrefix(AfterReport03, DensityRecord(130, 4024450), 0);
  }

  lemma Step05()
    ensures Pushed(AfterReport04, DensityRecord(140, 5012030)) == AfterReport05
  {
    PushAppendsAfterPrefix(AfterReport04, DensityRecord(140, 5012030), 0);
  }

  lemma Step06()
    ensures Pushed(AfterReport05, DensityRecord(150, 6102330)) == AfterReport06
  {
    PushAppendsAfterPrefix(AfterReport05, DensityRecord(150, 6102330), 1);
  }

  lemma Step07()
    ensures Pushed(AfterReport06, DensityRecord(160, 7440560)) == AfterReport07
  {
    PushAppendsAfterPrefix(AfterReport06, DensityRecord(160, 7440560), 1);
  }

  lemma Step08()
    ensures Pushed(AfterReport07, DensityRecord(170, 8032010)) == AfterReport08
  {
    PushAppendsAfterPrefix(AfterReport07, DensityRecord(170, 8032010), 0);
  }

  lemma Step09()
    ensures Pushed(AfterReport08, DensityRecord(180, 9320350)) == AfterReport09
  {
    PushAppendsAfterPrefix(AfterReport08, DensityRecord(180, 9320350), 2);
  }

  lemma Step10()
    ensures Pushed(AfterReport09, DensityRecord(190, 12030765)) == AfterDensities
  {
    PushAppendsAfterPrefix(AfterReport09, DensityRecord(190, 12030765), 2);
  }

  lemma Step11()
    ensures Pushed(AfterDensities, PositionRecord(10, 1042350)) == AfterDensities
  {
    PushAppendsAfterPrefix(AfterDensities, PositionRecord(10, 1042350), 0);
  }

  lemma Step12()
    ensures Pushed(AfterDensities, PositionRecord(15, 2132470)) == AfterDensities
  {
    PushAppendsAfterPrefix(AfterDensities, PositionRecord(15, 2132470), 0);
  }

  lemma Step13()
    ensures Pushed(AfterDensities, PositionRecord(20, 3326890)) == AfterDensities
  {
    PushAppendsAfterPrefix(AfterDensities, PositionRecord(20, 3326890), 0);
  }

  lemma Step14()
    ensures Pushed(AfterDensities, PositionRecord(25, 4024450)) == AfterDensities
  {
    PushAppendsAfterPrefix(AfterDensities, PositionRecord(25, 4024450), 0);
  }

  lemma Step15()
    ensures Pushed(AfterDensities, PositionRecord(30, 5012030)) == AfterDensities
  {
    PushAppendsAfterPrefix(AfterDensities, PositionRecord(30, 5012030), 0);
  }

  lemma Step16()
    ensures Pushed(AfterDensities, PositionRecord(35, 6102330)) == AfterDensities
  {
    PushAppendsAfterPrefix(AfterDensities, PositionRecord(35, 6102330), 0);
  }

  lemma Step17()
    ensures Pushed(AfterDensities, PositionRecord(40, 7440560)) == AfterReport17
  {
    PushMergesAt(AfterDensities, PositionRecord(40, 7440560), 0);
  }

  lemma Step18()
    ensures Pushed(AfterReport17, PositionRecord(45, 8032010)) == AfterReport18
  {
    PushMergesAt(AfterReport17, PositionRecord(45, 8032010), 1);
  }

  lemma Step19()
    ensures Pushed(AfterReport18, PositionRecord(50, 9320350)) == AfterReport19
  {
    PushMergesAt(AfterReport18, PositionRecord(50, 9320350), 2);
  }

  lemma Step20()
    ensures Pushed(AfterReport19, PositionRecord(55, 12030765)) == AfterPositions
  {
    PushMergesAt(AfterReport19, PositionRecord(55, 12030765), 3);
  }
}
