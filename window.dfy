/**
 The merge-and-window buffer: measurement records keyed by their timestamp,
 merged field by field when a second measurement arrives for the same
 timestamp, and swept of every record older than five seconds before the
 newest timestamp ever seen.
 */
module Window {

  /** Width of the trailing window, in microseconds. */
  const WindowUs: int := 5000000

  /** The value a measurement field holds while it has not been supplied. */
  const Absent: int := -1

  /** One timestamped record; either measurement may still be Absent. */
  datatype Data = Data(timeUs: int, densityInfo: int, positionInfo: int)

  datatype Option<T> = None | Some(value: T)

  /** The buffer's contents and the largest timestamp it has been given. */
  datatype Store = Store(data: seq<Data>, maxTime: int)

  const EmptyStore: Store := Store([], 0)

  function Max(a: int, b: int): int
  {
    if a < b then b else a
  }

  /** Oldest timestamp the sweep keeps: five seconds before maxTime, never
      below zero. */
  function MinTime(maxTime: int): (b: int)
    ensures 0 <= b && maxTime - WindowUs <= b
    ensures b == 0 || b == maxTime - WindowUs
  {
    Max(0, maxTime - WindowUs)
  }

  /** The existing record cur after an incoming record with the same
      timestamp has been merged into it. */
  function Merge(cur: Data, info: Data): Data
  {
    Data(cur.timeUs,
         if info.densityInfo != Absent then info.densityInfo else cur.densityInfo,
         if info.positionInfo != Absent then info.positionInfo else cur.positionInfo)
  }

  /** Index of the first record at or after index i with timestamp t. */
  function IndexOfTimeFrom(s: seq<Data>, t: int, i: nat): (r: Option<nat>)
    requires i <= |s|
    ensures r.Some? ==> i <= r.value < |s| && s[r.value].timeUs == t
    ensures r.Some? ==> forall k :: i <= k < r.value ==> s[k].timeUs != t
    ensures r.None? <==> forall k :: i <= k < |s| ==> s[k].timeUs != t
    decreases |s| - i
  {
    if i == |s| then None
    else if s[i].timeUs == t then Some(i)
    else IndexOfTimeFrom(s, t, i + 1)
  }

  /** Index of the first record with timestamp t, if there is one. */
  function IndexOfTime(s: seq<Data>, t: int): Option<nat>
  {
    IndexOfTimeFrom(s, t, 0)
  }

  /** The records of s with timestamp at least bound, in their order in s:
      what the erase/remove_if sweep leaves. */
  function Evict(s: seq<Data>, bound: int): seq<Data>
  {
    if s == [] then []
    else
      Evict(s[..|s| - 1], bound)
      + (if s[|s| - 1].timeUs >= bound then [s[|s| - 1]] else [])
  }

  /** The buffer after push(info). */
  function Pushed(st: Store, info: Data): Store
  {
    var maxTime := if info.timeUs > st.maxTime then info.timeUs else st.maxTime;
    match IndexOfTime(st.data, info.timeUs)
    case Some(k) => Store(st.data[k := Merge(st.data[k], info)], maxTime)
    case None => Store(Evict(st.data + [info], MinTime(maxTime)), maxTime)
  }

  /** The buffer after a sequence of pushes, first to last. */
  function PushAll(st: Store, infos: seq<Data>): Store
  {
    if infos == [] then st
    else Pushed(PushAll(st, infos[..|infos| - 1]), infos[|infos| - 1])
  }

  /** The largest of m and the timestamps of infos: the maxTime a store with
      maxTime m has after pushing infos. */
  function LatestTime(m: int, infos: seq<Data>): (r: int)
    ensures m <= r
    ensures forall j :: 0 <= j < |infos| ==> infos[j].timeUs <= r
    ensures r == m || exists j :: 0 <= j < |infos| && r == infos[j].timeUs
  {
    if infos == [] then m
    else Max(LatestTime(m, infos[..|infos| - 1]), infos[|infos| - 1].timeUs)
  }

  ghost predicate UniqueTimes(s: seq<Data>)
  {
    forall i, j :: 0 <= i < j < |s| ==> s[i].timeUs != s[j].timeUs
  }

  ghost predicate InWindow(s: seq<Data>, maxTime: int)
  {
    forall i :: 0 <= i < |s| ==> MinTime(maxTime) <= s[i].timeUs <= maxTime
  }

  /** What every push keeps true: one record per timestamp, and every record
      inside the window that ends at maxTime. */
  ghost predicate Inv(st: Store)
  {
    UniqueTimes(st.data) && InWindow(st.data, st.maxTime)
  }

  // ---------------------------------------------------------------------
  // The sweep

  /** A record survives the sweep exactly when it was there and is not older
      than the bound. */
  lemma {:induction false} EvictMembers(s: seq<Data>, bound: int, d: Data)
    ensures d in Evict(s, bound) <==> d in s && d.timeUs >= bound
  {
    if s != [] {
      var init := s[..|s| - 1];
      EvictMembers(init, bound, d);
      assert s == init + [s[|s| - 1]];
    }
  }

  /** The sweep keeps relative order: sweeping a concatenation is the
      concatenation of the sweeps. */
  lemma {:induction false} EvictAppend(s: seq<Data>, t: seq<Data>, bound: int)
    ensures Evict(s + t, bound) == Evict(s, bound) + Evict(t, bound)
  {
    if t == [] {
      assert s + t == s;
    } else {
      var init := t[..|t| - 1];
      EvictAppend(s, init, bound);
      assert (s + t)[..|s + t| - 1] == s + init;
    }
  }

  /** The sweep never puts two records with one timestamp side by side. */
  lemma {:induction false} EvictUniqueTimes(s: seq<Data>, bound: int)
    requires UniqueTimes(s)
    ensures UniqueTimes(Evict(s, bound))
  {
    if s != [] {
      var init := s[..|s| - 1];
      var last := s[|s| - 1];
      EvictUniqueTimes(init, bound);
      if last.timeUs >= bound {
        var e := Evict(init, bound);
        forall i | 0 <= i < |e| ensures e[i].timeUs != last.timeUs {
          EvictMembers(init, bound, e[i]);
          var k :| 0 <= k < |init| && init[k] == e[i];
        }
      }
    }
  }

  // ---------------------------------------------------------------------
  // Properties of push

  /** maxTime never decreases and covers the pushed timestamp. */
  lemma PushMaxTime(st: Store, info: Data)
    ensures Pushed(st, info).maxTime == Max(st.maxTime, info.timeUs)
    ensures st.maxTime <= Pushed(st, info).maxTime
  {
  }

  /** Merge path: when a record with the incoming timestamp exists, only that
      record changes, it keeps its timestamp, and each of its measurements is
      replaced exactly when the incoming one is not Absent. */
  lemma PushMerges(st: Store, info: Data, k: nat)
    requires Inv(st)
    requires k < |st.data| && st.data[k].timeUs == info.timeUs
    ensures Pushed(st, info).maxTime == st.maxTime
    ensures |Pushed(st, info).data| == |st.data|
    ensures forall j :: 0 <= j < |st.data| && j != k ==> Pushed(st, info).data[j] == st.data[j]
    ensures Pushed(st, info).data[k].timeUs == info.timeUs
    ensures Pushed(st, info).data[k].densityInfo
         == if info.densityInfo != Absent then info.densityInfo else st.data[k].densityInfo
    ensures Pushed(st, info).data[k].positionInfo
         == if info.positionInfo != Absent then info.positionInfo else st.data[k].positionInfo
  {
  }

  /** Append path: with no record at the incoming timestamp, the result is
      the old records followed by the incoming one, swept with the bound of
      the new maxTime. */
  lemma PushAppends(st: Store, info: Data)
    requires forall j :: 0 <= j < |st.data| ==> st.data[j].timeUs != info.timeUs
    ensures Pushed(st, info).data
         == Evict(st.data, MinTime(Pushed(st, info).maxTime))
            + (if info.timeUs >= MinTime(Pushed(st, info).maxTime) then [info] else [])
  {
    var b := MinTime(Pushed(st, info).maxTime);
    EvictAppend(st.data, [info], b);
    assert Evict([info], b) == Evict([], b) + (if info.timeUs >= b then [info] else []);
  }

  /** A record older than the window is dropped by the very push that
      brings it: afterwards no record has its timestamp. */
  lemma PushDropsStale(st: Store, info: Data)
    requires forall j :: 0 <= j < |st.data| ==> st.data[j].timeUs != info.timeUs
    requires info.timeUs < MinTime(Pushed(st, info).maxTime)
    ensures forall j :: 0 <= j < |Pushed(st, info).data| ==> Pushed(st, info).data[j].timeUs != info.timeUs
  {
    var r := Pushed(st, info);
    forall j | 0 <= j < |r.data| ensures r.data[j].timeUs != info.timeUs {
      EvictMembers(st.data + [info], MinTime(r.maxTime), r.data[j]);
    }
  }

  /** push keeps the invariant. */
  lemma PushPreservesInv(st: Store, info: Data)
    requires Inv(st)
    ensures Inv(Pushed(st, info))
  {
    var r := Pushed(st, info);
    match IndexOfTime(st.data, info.timeUs)
    case Some(k) =>
      assert r.maxTime == st.maxTime;
    case None =>
      var s := st.data + [info];
      var b := MinTime(r.maxTime);
      assert MinTime(st.maxTime) <= b;
      assert UniqueTimes(s);
      EvictUniqueTimes(s, b);
      forall i | 0 <= i < |r.data| ensures b <= r.data[i].timeUs <= r.maxTime {
        EvictMembers(s, b, r.data[i]);
      }
  }

  /** Every store reached from the empty one by pushes satisfies the
      invariant. */
  lemma PushAllInv(infos: seq<Data>)
    ensures Inv(PushAll(EmptyStore, infos))
  {
    PushAllPreservesInv(EmptyStore, infos);
  }

  /** A density-only and a position-only record for one timestamp give the
      same buffer whichever arrives first. */
  lemma PushCommutes(st: Store, t: int, density: int, position: int)
    ensures Pushed(Pushed(st, Data(t, density, Absent)), Data(t, Absent, position))
         == Pushed(Pushed(st, Data(t, Absent, position)), Data(t, density, Absent))
  {
    match IndexOfTime(st.data, t)
    case Some(k) =>
      var dr, pr := Data(t, density, Absent), Data(t, Absent, position);
      IndexOfTimeUpdate(st.data, t, k, Merge(st.data[k], dr));
      IndexOfTimeUpdate(st.data, t, k, Merge(st.data[k], pr));
    case None =>
      PushCommutesFresh(st, t, density, position);
  }

  /** PushCommutes when no record has the timestamp yet: the first push
      appends (or drops) its record and the second merges into it (or is
      dropped as well). */
  lemma PushCommutesFresh(st: Store, t: int, density: int, position: int)
    requires forall j :: 0 <= j < |st.data| ==> st.data[j].timeUs != t
    ensures Pushed(Pushed(st, Data(t, density, Absent)), Data(t, Absent, position))
         == Pushed(Pushed(st, Data(t, Absent, position)), Data(t, density, Absent))
  {
    var dr, pr := Data(t, density, Absent), Data(t, Absent, position);
    var b := MinTime(Max(st.maxTime, t));
    var e := Evict(st.data, b);
    PushAppends(st, dr);
    PushAppends(st, pr);
    assert forall j :: 0 <= j < |e| ==> e[j].timeUs != t by {
      forall j | 0 <= j < |e| ensures e[j].timeUs != t {
        EvictMembers(st.data, b, e[j]);
      }
    }
    if t >= b {
      IndexOfTimeLast(e, dr);
      IndexOfTimeLast(e, pr);
    } else {
      PushAppends(Pushed(st, dr), pr);
      PushAppends(Pushed(st, pr), dr);
      EvictIdempotent(st.data, b);
    }
  }

  /** A record appended after records of other timestamps is the first
      record with its timestamp. */
  lemma IndexOfTimeLast(s: seq<Data>, x: Data)
    requires forall j :: 0 <= j < |s| ==> s[j].timeUs != x.timeUs
    ensures IndexOfTime(s + [x], x.timeUs) == Some(|s|)
  {
    assert (s + [x])[|s|].timeUs == x.timeUs;
  }

  /** Overwriting the first record with timestamp t by another record with
      timestamp t leaves it the first. */
  lemma IndexOfTimeUpdate(s: seq<Data>, t: int, k: nat, x: Data)
    requires IndexOfTime(s, t) == Some(k)
    requires x.timeUs == t
    ensures IndexOfTime(s[k := x], t) == Some(k)
  {
    var r := IndexOfTime(s[k := x], t);
    assert s[k := x][k].timeUs == t;
    assert forall j :: 0 <= j < k ==> s[k := x][j] == s[j];
  }

  /** Sweeping twice with one bound is sweeping once. */
  lemma EvictIdempotent(s: seq<Data>, bound: int)
    ensures Evict(Evict(s, bound), bound) == Evict(s, bound)
  {
    var e := Evict(s, bound);
    forall j | 0 <= j < |e| ensures bound <= e[j].timeUs {
      EvictMembers(s, bound, e[j]);
    }
    EvictKeepsAll(e, bound);
  }

  /** A density-only record followed by a position-only record for one fresh,
      in-window timestamp leave exactly one record for it, holding both. */
  lemma PushPairs(st: Store, t: int, density: int, position: int)
    requires Inv(st)
    requires forall j :: 0 <= j < |st.data| ==> st.data[j].timeUs != t
    requires t >= MinTime(Max(st.maxTime, t))
    ensures var r := Pushed(Pushed(st, Data(t, density, Absent)), Data(t, Absent, position));
      Data(t, density, position) in r.data
      && forall j :: 0 <= j < |r.data| && r.data[j].timeUs == t ==> r.data[j] == Data(t, density, position)
  {
    var dr, pr := Data(t, density, Absent), Data(t, Absent, position);
    var s1 := Pushed(st, dr);
    PushAppends(st, dr);
    PushPreservesInv(st, dr);
    var k := |s1.data| - 1;
    assert s1.data[k] == dr;
    PushMerges(s1, pr, k);
    var r := Pushed(s1, pr);
    assert r.data[k] == Data(t, density, position);
    PushPreservesInv(s1, pr);
  }

  /** maxTime after a sequence of pushes is the latest timestamp seen. */
  lemma {:induction false} PushAllMaxTime(st: Store, infos: seq<Data>)
    ensures PushAll(st, infos).maxTime == LatestTime(st.maxTime, infos)
  {
    if infos != [] {
      var init := infos[..|infos| - 1];
      PushAllMaxTime(st, init);
      PushMaxTime(PushAll(st, init), infos[|infos| - 1]);
    }
  }

  /** Any sequence of pushes keeps the invariant. */
  lemma {:induction false} PushAllPreservesInv(st: Store, infos: seq<Data>)
    requires Inv(st)
    ensures Inv(PushAll(st, infos))
  {
    if infos != [] {
      PushAllPreservesInv(st, infos[..|infos| - 1]);
      PushPreservesInv(PushAll(st, infos[..|infos| - 1]), infos[|infos| - 1]);
    }
  }

  /** A push for another timestamp keeps a record that is still inside the
      window afterwards. */
  lemma PushKeeps(st: Store, info: Data, d: Data)
    requires d in st.data && d.timeUs != info.timeUs
    requires d.timeUs >= MinTime(Pushed(st, info).maxTime)
    ensures d in Pushed(st, info).data
  {
    var i :| 0 <= i < |st.data| && st.data[i] == d;
    match IndexOfTime(st.data, info.timeUs)
    case Some(k) =>
      assert Pushed(st, info).data[i] == d;
    case None =>
      PushAppends(st, info);
      EvictMembers(st.data, MinTime(Pushed(st, info).maxTime), d);
  }

  /** Pushes for other timestamps keep a record that is still inside the
      window after the last of them. */
  lemma {:induction false} PushAllKeeps(st: Store, mid: seq<Data>, d: Data)
    requires d in st.data
    requires forall j :: 0 <= j < |mid| ==> mid[j].timeUs != d.timeUs
    requires d.timeUs >= MinTime(PushAll(st, mid).maxTime)
    ensures d in PushAll(st, mid).data
  {
    if mid != [] {
      var init, last := mid[..|mid| - 1], mid[|mid| - 1];
      var p := PushAll(st, init);
      PushMaxTime(p, last);
      assert MinTime(p.maxTime) <= MinTime(Pushed(p, last).maxTime);
      PushAllKeeps(st, init, d);
      PushKeeps(p, last, d);
    }
  }

  /** Two reports for one fresh timestamp with reports for other timestamps
      between them: if the timestamp is still inside the window when the
      second arrives, exactly one record has it, the first merged with the
      second. */
  lemma PushMergesLater(st: Store, first: Data, mid: seq<Data>, second: Data)
    requires Inv(st)
    requires first.timeUs == second.timeUs
    requires forall j :: 0 <= j < |st.data| ==> st.data[j].timeUs != first.timeUs
    requires forall j :: 0 <= j < |mid| ==> mid[j].timeUs != first.timeUs
    requires first.timeUs >= MinTime(LatestTime(Max(st.maxTime, first.timeUs), mid))
    ensures var r := Pushed(PushAll(Pushed(st, first), mid), second);
      Merge(first, second) in r.data
      && forall j :: 0 <= j < |r.data| && r.data[j].timeUs == first.timeUs ==> r.data[j] == Merge(first, second)
  {
    var t := first.timeUs;
    var s1 := Pushed(st, first);
    PushMaxTime(st, first);
    PushAppends(st, first);
    PushPreservesInv(st, first);
    var s2 := PushAll(s1, mid);
    PushAllMaxTime(s1, mid);
    assert MinTime(s1.maxTime) <= MinTime(s2.maxTime);
    assert first in s1.data;
    PushAllKeeps(s1, mid, first);
    PushAllPreservesInv(s1, mid);
    var k :| 0 <= k < |s2.data| && s2.data[k] == first;
    PushMerges(s2, second, k);
    var r := Pushed(s2, second);
    assert r.data[k] == Merge(first, second);
    forall j | 0 <= j < |r.data| && r.data[j].timeUs == t ensures r.data[j] == Merge(first, second) {
      assert j == k;
    }
  }

  /** A density report and a position report for one fresh timestamp, in
      either order and with any reports for other timestamps between them,
      leave one record for it holding both values, as long as the timestamp
      is still inside the window when the second report arrives. */
  lemma PushPairsLater(st: Store, mid: seq<Data>, t: int, density: int, position: int)
    requires Inv(st)
    requires forall j :: 0 <= j < |st.data| ==> st.data[j].timeUs != t
    requires forall j :: 0 <= j < |mid| ==> mid[j].timeUs != t
    requires t >= MinTime(LatestTime(Max(st.maxTime, t), mid))
    ensures var r := Pushed(PushAll(Pushed(st, Data(t, density, Absent)), mid), Data(t, Absent, position));
      Data(t, density, position) in r.data
      && forall j :: 0 <= j < |r.data| && r.data[j].timeUs == t ==> r.data[j] == Data(t, density, position)
    ensures var r := Pushed(PushAll(Pushed(st, Data(t, Absent, position)), mid), Data(t, density, Absent));
      Data(t, density, position) in r.data
      && forall j :: 0 <= j < |r.data| && r.data[j].timeUs == t ==> r.data[j] == Data(t, density, position)
  {
    var dr, pr := Data(t, density, Absent), Data(t, Absent, position);
    PushMergesLater(st, dr, mid, pr);
    PushMergesLater(st, pr, mid, dr);
    assert Merge(dr, pr) == Data(t, density, position);
    assert Merge(pr, dr) == Data(t, density, position);
  }

  /** The sweep keeps every record when none is older than the bound. */
  lemma {:induction false} EvictKeepsAll(s: seq<Data>, bound: int)
    requires forall j :: 0 <= j < |s| ==> bound <= s[j].timeUs
    ensures Evict(s, bound) == s
  {
    if s != [] {
      EvictKeepsAll(s[..|s| - 1], bound);
    }
  }

  /** The sweep drops every record when all are older than the bound. */
  lemma {:induction false} EvictDropsAll(s: seq<Data>, bound: int)
    requires forall j :: 0 <= j < |s| ==> s[j].timeUs < bound
    ensures Evict(s, bound) == []
  {
    if s != [] {
      EvictDropsAll(s[..|s| - 1], bound);
    }
  }

  /** Append path over a buffer in timestamp order: the first n records are
      the ones older than the new bound, so the sweep removes exactly them
      (and the incoming record if it is older too). */
  lemma PushAppendsAfterPrefix(st: Store, info: Data, n: nat)
    requires n <= |st.data|
    requires forall j :: 0 <= j < |st.data| ==> st.data[j].timeUs != info.timeUs
    requires forall j :: 0 <= j < n ==> st.data[j].timeUs < MinTime(Max(st.maxTime, info.timeUs))
    requires forall j :: n <= j < |st.data| ==> MinTime(Max(st.maxTime, info.timeUs)) <= st.data[j].timeUs
    ensures Pushed(st, info)
         == Store(st.data[n..] + (if info.timeUs >= MinTime(Max(st.maxTime, info.timeUs)) then [info] else []),
                  Max(st.maxTime, info.timeUs))
  {
    var b := MinTime(Max(st.maxTime, info.timeUs));
    var front, back := st.data[..n], st.data[n..];
    PushAppends(st, info);
    assert Pushed(st, info).maxTime == Max(st.maxTime, info.timeUs);
    assert st.data == front + back;
    EvictAppend(front, back, b);
    EvictDropsAll(front, b);
    EvictKeepsAll(back, b);
    assert Evict(st.data, b) == back;
  }

  /** Merge path stated as the whole new store. */
  lemma PushMergesAt(st: Store, info: Data, k: nat)
    requires k < |st.data| && st.data[k].timeUs == info.timeUs
    requires forall j :: 0 <= j < k ==> st.data[j].timeUs != info.timeUs
    ensures Pushed(st, info) == Store(st.data[k := Merge(st.data[k], info)], Max(st.maxTime, info.timeUs))
  {
  }

  /** The erase/remove_if step of push: keeps, in order, the records whose
      timestamp is not below bound. */
  method Sweep(s: seq<Data>, bound: int) returns (kept: seq<Data>)
    ensures kept == Evict(s, bound)
  {
    kept := [];
    for j := 0 to |s|
      invariant kept == Evict(s[..j], bound)
    {
      assert s[..j + 1][..j] == s[..j];
      if s[j].timeUs >= bound {
        kept := kept + [s[j]];
      }
    }
    assert s[..|s|] == s;
  }

  // ---------------------------------------------------------------------
  // The buffer object

  /** The buffer: a growable list of records (not a ring, despite the name)
      and the largest timestamp pushed so far. */
  class CircularVector {
    var data: seq<Data>
    var maxTime: int

    ghost predicate Valid()
      reads this
    {
      Inv(Snapshot())
    }

    function Snapshot(): Store
      reads this
    {
      Store(data, maxTime)
    }

    constructor ()
      ensures Valid()
      ensures Snapshot() == EmptyStore
    {
      data := [];
      maxTime := 0;
    }

    /** Merges info into the record with its timestamp, or appends it and
        sweeps out the records older than the window. */
    method Push(info: Data)
      requires Valid()
      modifies this
      ensures Valid()
      ensures Snapshot() == Pushed(old(Snapshot()), info)
    {
      ghost var before := Snapshot();
      PushPreservesInv(before, info);
      if info.timeUs > maxTime {
        maxTime := info.timeUs;
      }
      var minTime := maxTime - WindowUs;
      if minTime < 0 {
        minTime := 0;
      }
      for i := 0 to |data|
        invariant data == before.data
        invariant forall k :: 0 <= k < i ==> data[k].timeUs != info.timeUs
      {
        if data[i].timeUs == info.timeUs {
          assert IndexOfTime(data, info.timeUs) == Some(i);
          var it := data[i];
          if info.densityInfo != Absent {
            it := it.(densityInfo := info.densityInfo);
          }
          if info.positionInfo != Absent {
            it := it.(positionInfo := info.positionInfo);
          }
          data := data[i := it];
          return;
        }
      }
      data := data + [info];
      data := Sweep(data, minTime);
    }

    /** A copy of the records. */
    method GetData() returns (r: seq<Data>)
      ensures r == data
    {
      r := data;
    }

    method GetMaxTime() returns (r: int)
      ensures r == maxTime
    {
      r := maxTime;
    }
  }
}
