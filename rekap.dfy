/** `computeRekapAllDirections` of js/SpeedLogger.js: per origin-destination table, the speed
    statistics of the finished trips by vehicle class, the observed average, the mean entry-exit
    distance and the delay against free flow. */
module SpeedRekap {
  import opened Wrappers
  import opened Numeric
  import opened Text
  import opened Geometry
  import Routing
  import opened SpeedLogger

  /** `initStat` and its accumulators. */
  datatype Stat = Stat(count: nat, sum: real, sumKmh: real, ffsSum: real, ffsCount: nat)

  const EmptyStat: Stat := Stat(0, 0.0, 0.0, 0.0, 0)

  /** `add`: one more trip of speed `v`, with its km/h speed and free-flow speed when known. */
  function Add(st: Stat, v: real, vK: Option<real>, ffs: Option<real>): (r: Stat)
    ensures r.count == st.count + 1 && r.sum == st.sum + v
    ensures r.sumKmh == st.sumKmh + vK.GetOr(0.0)
    ensures r.ffsCount == st.ffsCount + (if ffs.Some? then 1 else 0)
    ensures r.ffsSum == st.ffsSum + ffs.GetOr(0.0)
  {
    Stat(st.count + 1, st.sum + v, if vK.Some? then st.sumKmh + vK.value else st.sumKmh,
         if ffs.Some? then st.ffsSum + ffs.value else st.ffsSum,
         if ffs.Some? then st.ffsCount + 1 else st.ffsCount)
  }

  datatype Class = Motor | Mobil | Truk

  /** The class of a trip by its lower-cased `jenis`: a "motor…" or "mc" is a motorcycle, a
      "truk…" or "hv" a truck, anything else a car. */
  function ClassOf(jenis: string): (c: Class)
    ensures c == Motor <==> StartsWith(ToLower(jenis), "motor") || ToLower(jenis) == "mc"
    ensures c == Truk <==> !(StartsWith(ToLower(jenis), "motor") || ToLower(jenis) == "mc")
                           && (StartsWith(ToLower(jenis), "truk") || ToLower(jenis) == "hv")
  {
    var t := ToLower(jenis);
    if StartsWith(t, "motor") || t == "mc" then Motor
    else if StartsWith(t, "truk") || t == "hv" then Truk
    else Mobil
  }

  /** The class names the vehicle model uses land in their own class. */
  lemma ClassOfVehicleTypes()
    ensures ClassOf("motor") == Motor && ClassOf("mobil") == Mobil && ClassOf("truk") == Truk
  {
    assert ToLower("motor") == "motor";
    assert ToLower("mobil") == "mobil";
    assert ToLower("truk") == "truk";
  }

  /** The traffic-engineering codes MC (motorcycle), HV (heavy vehicle) and LV (light vehicle)
      land in the class they abbreviate. */
  lemma ClassOfCodes()
    ensures ClassOf("MC") == Motor && ClassOf("HV") == Truk && ClassOf("LV") == Mobil
  {
    assert ToLower("MC") == "mc";
    assert ToLower("HV") == "hv";
    assert ToLower("LV") == "lv";
  }

  datatype DirStats = DirStats(motor: Stat, mobil: Stat, truk: Stat, all: Stat)

  const EmptyDirStats: DirStats := DirStats(EmptyStat, EmptyStat, EmptyStat, EmptyStat)

  /** The statistics of one table after one more trip of class `c`. */
  function AddTrip(d: DirStats, c: Class, v: real, vK: Option<real>, ffs: Option<real>): DirStats {
    var d1 := match c
      case Motor => d.(motor := Add(d.motor, v, vK, ffs))
      case Truk => d.(truk := Add(d.truk, v, vK, ffs))
      case Mobil => d.(mobil := Add(d.mobil, v, vK, ffs));
    d1.(all := Add(d.all, v, vK, ffs))
  }

  /** The tables before any trip: one per label of `Directions12`. */
  function InitialTables(): (r: map<string, DirStats>)
    ensures r.Keys == set k | 0 <= k < |Directions12| :: Directions12[k]
    ensures forall d :: d in r ==> r[d] == EmptyDirStats
  {
    map d | d in Directions12 :: EmptyDirStats
  }

  /** The tables after the accumulation loop over `entries`, written from the last trip back: a
      trip without a measured speed, or whose label is no table, is skipped. */
  function Accumulated(entries: seq<FinishedEntry>): (r: map<string, DirStats>)
    ensures r.Keys == InitialTables().Keys
  {
    if entries == [] then InitialTables()
    else
      var out := Accumulated(entries[..|entries| - 1]);
      var e := entries[|entries| - 1];
      if e.arah == "" || e.arah !in out || e.vIndividu.None? then out
      else out[e.arah := AddTrip(out[e.arah], ClassOf(e.jenis), e.vIndividu.value, e.vKmh, e.freeFlowKmh)]
  }

  /** The accumulation loop of `computeRekapAllDirections`. */
  method AccumulateFinished(entries: seq<FinishedEntry>) returns (out: map<string, DirStats>)
    ensures out == Accumulated(entries)
  {
    out := map d | d in Directions12 :: EmptyDirStats;
    var i := 0;
    while i < |entries|
      invariant 0 <= i <= |entries|
      invariant out == Accumulated(entries[..i])
    {
      assert entries[..i + 1][..i] == entries[..i];
      var e := entries[i];
      if e.arah != "" && e.arah in out && e.vIndividu.Some? {
        out := out[e.arah := AddTrip(out[e.arah], ClassOf(e.jenis), e.vIndividu.value, e.vKmh, e.freeFlowKmh)];
      }
      i := i + 1;
    }
    assert entries[..|entries|] == entries;
  }

  /** The number of trips with a measured speed filed under `dir`. */
  function Measured(entries: seq<FinishedEntry>, dir: string): nat {
    if entries == [] then 0
    else
      var e := entries[|entries| - 1];
      Measured(entries[..|entries| - 1], dir) + (if e.arah == dir && e.vIndividu.Some? then 1 else 0)
  }

  /** The aggregate of a table is the sum of its three classes. */
  predicate Balanced(d: DirStats) {
    && d.all.count == d.motor.count + d.mobil.count + d.truk.count
    && d.all.sum == d.motor.sum + d.mobil.sum + d.truk.sum
    && d.all.sumKmh == d.motor.sumKmh + d.mobil.sumKmh + d.truk.sumKmh
    && d.all.ffsCount == d.motor.ffsCount + d.mobil.ffsCount + d.truk.ffsCount
    && d.all.ffsSum == d.motor.ffsSum + d.mobil.ffsSum + d.truk.ffsSum
  }

  /** A trip goes to one class and to the aggregate. */
  lemma AddTripBalanced(d: DirStats, c: Class, v: real, vK: Option<real>, ffs: Option<real>)
    requires Balanced(d)
    ensures Balanced(AddTrip(d, c, v, vK, ffs))
    ensures AddTrip(d, c, v, vK, ffs).all.count == d.all.count + 1
  {
  }

  /** Every trip goes to exactly one class and to the aggregate, so every table stays balanced,
      and the aggregate of a table counts exactly the measured trips filed under it. */
  lemma {:induction false} AccumulatedBalanced(entries: seq<FinishedEntry>, dir: string)
    requires dir in Directions12
    ensures dir in Accumulated(entries)
    ensures Balanced(Accumulated(entries)[dir])
    ensures Accumulated(entries)[dir].all.count == Measured(entries, dir)
  {
    assert dir in InitialTables();
    if entries != [] {
      var prev := entries[..|entries| - 1];
      var e := entries[|entries| - 1];
      AccumulatedBalanced(prev, dir);
      var out := Accumulated(prev);
      if e.arah == dir && e.vIndividu.Some? {
        AddTripBalanced(out[dir], ClassOf(e.jenis), e.vIndividu.value, e.vKmh, e.freeFlowKmh);
      }
    }
  }

  /** A trip without a measured speed leaves every table as it was. */
  lemma UnmeasuredTripIgnored(entries: seq<FinishedEntry>, e: FinishedEntry)
    requires e.vIndividu.None?
    ensures Accumulated(entries + [e]) == Accumulated(entries)
  {
    assert (entries + [e])[..|entries|] == entries;
  }

  /** `s.count > 0 ? s.sum / s.count : null`. */
  function Avg(sum: real, count: nat): (r: Option<real>)
    ensures r.Some? <==> count > 0
    ensures r.Some? ==> r.value * count as real == sum
  {
    if count > 0 then Some(sum / count as real) else None
  }

  datatype StatAvg = StatAvg(avg: Option<real>, avgKmh: Option<real>, ffsAvg: Option<real>)

  /** The three averages of a class. */
  function AveragesOf(s: Stat): (r: StatAvg)
    ensures r.avg.Some? <==> s.count > 0
    ensures r.avgKmh.Some? <==> s.count > 0
    ensures r.ffsAvg.Some? <==> s.ffsCount > 0
  {
    StatAvg(Avg(s.sum, s.count), Avg(s.sumKmh, s.count), Avg(s.ffsSum, s.ffsCount))
  }

  /** The sum and the number of the present values among three. */
  function PresentSum(m: Option<real>, c: Option<real>, t: Option<real>): real {
    m.GetOr(0.0) + c.GetOr(0.0) + t.GetOr(0.0)
  }

  function PresentCount(m: Option<real>, c: Option<real>, t: Option<real>): nat {
    (if m.Some? then 1 else 0) + (if c.Some? then 1 else 0) + (if t.Some? then 1 else 0)
  }

  /** `customAvg`: the mean of the class averages that are present, or null when none is. */
  function CustomAvg(m: Option<real>, c: Option<real>, t: Option<real>): (r: Option<real>)
    ensures r.None? <==> m.None? && c.None? && t.None?
    ensures r.Some? ==> r.value * PresentCount(m, c, t) as real == PresentSum(m, c, t)
  {
    var n := PresentCount(m, c, t);
    if n > 0 then Some(PresentSum(m, c, t) / n as real) else None
  }

  /** The mean of the class averages lies between the smallest and the largest of them. */
  lemma CustomAvgBetween(m: Option<real>, c: Option<real>, t: Option<real>, lo: real, hi: real)
    requires m.Some? ==> lo <= m.value <= hi
    requires c.Some? ==> lo <= c.value <= hi
    requires t.Some? ==> lo <= t.value <= hi
    requires CustomAvg(m, c, t).Some?
    ensures lo <= CustomAvg(m, c, t).value <= hi
  {
    var n := PresentCount(m, c, t);
    var r := CustomAvg(m, c, t).value;
    assert r * n as real == PresentSum(m, c, t);
    assert lo * n as real <= PresentSum(m, c, t) <= hi * n as real;
    if r < lo {
      MulStrict(r, lo, n as real);
    }
    if r > hi {
      MulStrict(hi, r, n as real);
    }
  }

  // ---------- the entry-exit distance ----------

  /** `dirNameToKey`: the arm name a label begins with, by its first letter. */
  function DirNameToKey(name: string): (r: Option<string>)
    ensures r.Some? ==> exists a :: r.value == Routing.ArmName(a)
  {
    if name == "" then None
    else
      var c := ToLowerChar(name[0]);
      if c == 'u' then Some(Routing.ArmName(Routing.Utara))
      else if c == 't' then Some(Routing.ArmName(Routing.Timur))
      else if c == 's' then Some(Routing.ArmName(Routing.Selatan))
      else if c == 'b' then Some(Routing.ArmName(Routing.Barat))
      else None
  }

  lemma DirNameToKeyOfLabel(a: Routing.Arm)
    ensures DirNameToKey(Label(a)) == Some(Routing.ArmName(a))
  {
  }

  /** A slot whose key starts with `key + "_"` and whose value is a numeric point. */
  predicate KeptSlot(s: Routing.ExitSlot, key: string) {
    StartsWith(s.key, key + "_") && s.point.Some?
  }

  /** The points of a table of lane points whose key starts with `key + "_"`, in key order; an
      entry without a point is left out. */
  function PointsOf(slots: seq<Routing.ExitSlot>, key: string): (r: seq<Vec>)
    ensures |r| <= |slots|
    ensures forall p :: p in r <==> exists i :: 0 <= i < |slots| && KeptSlot(slots[i], key) && slots[i].point == Some(p)
  {
    if slots == [] then []
    else
      var rest := PointsOf(slots[..|slots| - 1], key);
      var s := slots[|slots| - 1];
      assert forall i :: 0 <= i < |slots| - 1 ==> slots[..|slots| - 1][i] == slots[i];
      if StartsWith(s.key, key + "_") && s.point.Some? then rest + [s.point.value] else rest
  }

  /** The points keep the order of the slots: the points of two runs of slots are the points of
      the first run followed by those of the second. */
  lemma {:induction false} PointsOfAppend(a: seq<Routing.ExitSlot>, b: seq<Routing.ExitSlot>, key: string)
    ensures PointsOf(a + b, key) == PointsOf(a, key) + PointsOf(b, key)
    decreases |b|
  {
    if b == [] {
      assert a + b == a;
    } else {
      var b' := b[..|b| - 1];
      PointsOfAppend(a, b', key);
      assert (a + b)[..|a + b| - 1] == a + b';
      assert (a + b)[|a + b| - 1] == b[|b| - 1];
    }
  }

  /** The distance in metres between two lane points, at `PX_PER_M_DEFAULT` pixels a metre. */
  function PointDistance(m: MathLib, a: Vec, b: Vec): real {
    m.hypot(a.x - b.x, a.y - b.y) / PxPerMDefault
  }

  /** The positive distances from `a` to the first `j` exits, and how many there are. */
  function RowSum(m: MathLib, a: Vec, exits: seq<Vec>, j: nat): real
    requires j <= |exits|
  {
    if j == 0 then 0.0
    else
      var d := PointDistance(m, a, exits[j - 1]);
      RowSum(m, a, exits, j - 1) + (if d > 0.0 then d else 0.0)
  }

  function RowCount(m: MathLib, a: Vec, exits: seq<Vec>, j: nat): nat
    requires j <= |exits|
  {
    if j == 0 then 0
    else RowCount(m, a, exits, j - 1) + (if PointDistance(m, a, exits[j - 1]) > 0.0 then 1 else 0)
  }

  /** The same over the first `i` entries and all exits. */
  function GridSum(m: MathLib, entries: seq<Vec>, exits: seq<Vec>, i: nat): real
    requires i <= |entries|
  {
    if i == 0 then 0.0 else GridSum(m, entries, exits, i - 1) + RowSum(m, entries[i - 1], exits, |exits|)
  }

  function GridCount(m: MathLib, entries: seq<Vec>, exits: seq<Vec>, i: nat): nat
    requires i <= |entries|
  {
    if i == 0 then 0 else GridCount(m, entries, exits, i - 1) + RowCount(m, entries[i - 1], exits, |exits|)
  }

  /** The nested loop of `computeAvgDistanceMeters`: the sum of the positive distances over
      every entry-exit pair, and their number. */
  method PairDistances(m: MathLib, entries: seq<Vec>, exits: seq<Vec>) returns (sum: real, cnt: nat)
    ensures sum == GridSum(m, entries, exits, |entries|)
    ensures cnt == GridCount(m, entries, exits, |entries|)
  {
    sum, cnt := 0.0, 0;
    var i := 0;
    while i < |entries|
      invariant 0 <= i <= |entries|
      invariant sum == GridSum(m, entries, exits, i) && cnt == GridCount(m, entries, exits, i)
    {
      var a := entries[i];
      var j := 0;
      var rowSum, rowCnt := 0.0, 0;
      while j < |exits|
        invariant 0 <= j <= |exits|
        invariant rowSum == RowSum(m, a, exits, j) && rowCnt == RowCount(m, a, exits, j)
      {
        var d := PointDistance(m, a, exits[j]);
        if d > 0.0 {
          rowSum := rowSum + d;
          rowCnt := rowCnt + 1;
        }
        j := j + 1;
      }
      sum := sum + rowSum;
      cnt := cnt + rowCnt;
      i := i + 1;
    }
  }

  /** Each counted distance is positive, so a grid with a counted pair has a positive sum. */
  lemma {:induction false} RowSumPositive(m: MathLib, a: Vec, exits: seq<Vec>, j: nat)
    requires j <= |exits|
    ensures RowSum(m, a, exits, j) >= 0.0
    ensures RowCount(m, a, exits, j) > 0 ==> RowSum(m, a, exits, j) > 0.0
  {
    if j > 0 {
      RowSumPositive(m, a, exits, j - 1);
    }
  }

  lemma {:induction false} GridSumPositive(m: MathLib, entries: seq<Vec>, exits: seq<Vec>, i: nat)
    requires i <= |entries|
    ensures GridSum(m, entries, exits, i) >= 0.0
    ensures GridCount(m, entries, exits, i) > 0 ==> GridSum(m, entries, exits, i) > 0.0
  {
    if i > 0 {
      GridSumPositive(m, entries, exits, i - 1);
      RowSumPositive(m, entries[i - 1], exits, |exits|);
    }
  }

  /** The lane points: the entry table and the exit table, in key order, when they exist. */
  type LanePoints = Option<(seq<Routing.ExitSlot>, seq<Routing.ExitSlot>)>

  /** `computeAvgDistanceMeters(fromName, toName)`: the mean positive distance from the entry
      points of the origin to the exit points of the destination; null without lane points, for
      a name that is no arm, without points, or when no pair is apart. */
  method AvgDistanceMeters(m: MathLib, lc: LanePoints, fromName: string, toName: string) returns (r: Option<real>)
    ensures r == AvgDistanceOf(m, lc, fromName, toName)
    ensures r.Some? ==> r.value > 0.0
  {
    if lc.None? {
      return None;
    }
    var fromKey := DirNameToKey(fromName);
    var toKey := DirNameToKey(toName);
    if fromKey.None? || toKey.None? {
      return None;
    }
    var entries := PointsOf(lc.value.0, fromKey.value);
    var exits := PointsOf(lc.value.1, toKey.value);
    if |entries| == 0 || |exits| == 0 {
      return None;
    }
    var sum, cnt := PairDistances(m, entries, exits);
    if cnt == 0 {
      return None;
    }
    GridSumPositive(m, entries, exits, |entries|);
    r := Some(sum / cnt as real);
  }

  /** The value `AvgDistanceMeters` computes. */
  function AvgDistanceOf(m: MathLib, lc: LanePoints, fromName: string, toName: string): (r: Option<real>)
    ensures r.Some? ==> lc.Some? && DirNameToKey(fromName).Some? && DirNameToKey(toName).Some?
  {
    if lc.None? || DirNameToKey(fromName).None? || DirNameToKey(toName).None? then None
    else
      var entries := PointsOf(lc.value.0, DirNameToKey(fromName).value);
      var exits := PointsOf(lc.value.1, DirNameToKey(toName).value);
      if |entries| == 0 || |exits| == 0 then None
      else
        var cnt := GridCount(m, entries, exits, |entries|);
        if cnt == 0 then None else Some(GridSum(m, entries, exits, |entries|) / cnt as real)
  }

  // ---------- the delay ----------

  /** The delay of a table: the time to cover the distance at the observed speed minus the time
      at the free-flow speed (km/h); null unless all three are present and positive; a result
      just below zero (above -1e-6) is read as 0. */
  function DelaySeconds(vObs: Option<real>, ffsKmh: Option<real>, dist: Option<real>): (r: Option<real>)
    ensures r.Some? <==> vObs.Some? && ffsKmh.Some? && dist.Some? && dist.value > 0.0
                         && vObs.value > 0.0 && ffsKmh.value > 0.0
  {
    if vObs.None? || ffsKmh.None? || dist.None? || dist.value <= 0.0 then None
    else
      var vFf := ffsKmh.value / 3.6;
      if vObs.value <= 0.0 || vFf <= 0.0 then None
      else
        var l := dist.value;
        var delay := l / vObs.value - l / vFf;
        Some(if delay < 0.0 && delay > -0.000001 then 0.0 else delay)
  }

  /** Travelling no faster than free flow means a delay of at least zero, and exactly free flow
      means none. */
  lemma DelayAtLeastZero(vObs: real, ffsKmh: real, dist: real)
    requires dist > 0.0 && vObs > 0.0 && ffsKmh > 0.0 && vObs <= ffsKmh / 3.6
    ensures DelaySeconds(Some(vObs), Some(ffsKmh), Some(dist)).value >= 0.0
    ensures vObs == ffsKmh / 3.6 ==> DelaySeconds(Some(vObs), Some(ffsKmh), Some(dist)).value == 0.0
  {
    var vFf := ffsKmh / 3.6;
    assert dist / vObs >= dist / vFf by {
      assert dist / vObs * vObs == dist && dist / vFf * vFf == dist;
      if dist / vObs < dist / vFf {
        MulStrict(dist / vObs, dist / vFf, vObs);
        MulMonotone(vObs, vFf, dist / vFf);
      }
    }
  }

  /** A negative delay means the observed speed exceeds free flow. */
  lemma NegativeDelayMeansFaster(vObs: real, ffsKmh: real, dist: real)
    requires DelaySeconds(Some(vObs), Some(ffsKmh), Some(dist)).Some?
    requires DelaySeconds(Some(vObs), Some(ffsKmh), Some(dist)).value < 0.0
    ensures vObs > ffsKmh / 3.6
  {
    if vObs <= ffsKmh / 3.6 {
      DelayAtLeastZero(vObs, ffsKmh, dist);
    }
  }

  // ---------- the tables ----------

  datatype DirRecord = DirRecord(
    motor: StatAvg, mobil: StatAvg, truk: StatAvg, all: StatAvg, stats: DirStats,
    customAvg: Option<real>, customAvgKmh: Option<real>,
    distanceMeters: Option<real>, delaySeconds: Option<real>)

  /** `ffsKmh`: the aggregate free-flow average, else the first class that has one. */
  function FreeFlowOf(all: StatAvg, motor: StatAvg, mobil: StatAvg, truk: StatAvg): (r: Option<real>)
    ensures r.None? <==> all.ffsAvg.None? && motor.ffsAvg.None? && mobil.ffsAvg.None? && truk.ffsAvg.None?
    ensures all.ffsAvg.Some? ==> r == all.ffsAvg
  {
    if all.ffsAvg.Some? then all.ffsAvg
    else if motor.ffsAvg.Some? then motor.ffsAvg
    else if mobil.ffsAvg.Some? then mobil.ffsAvg
    else truk.ffsAvg
  }

  /** The record of table `from → to` with statistics `d` and entry-exit distance `dist`. */
  function RecordOf(d: DirStats, dist: Option<real>): (r: DirRecord)
    ensures r.stats == d && r.distanceMeters == dist
    ensures r.customAvg.Some? <==> d.motor.count > 0 || d.mobil.count > 0 || d.truk.count > 0
    ensures r.customAvgKmh.Some? <==> r.customAvg.Some?
    ensures r.customAvgKmh.Some? ==> r.customAvgKmh.value == r.customAvg.value * 3.6
  {
    var motor, mobil, truk, all := AveragesOf(d.motor), AveragesOf(d.mobil), AveragesOf(d.truk), AveragesOf(d.all);
    var custom := CustomAvg(motor.avg, mobil.avg, truk.avg);
    var vObs := if custom.Some? then custom else all.avg;
    var ffs := FreeFlowOf(all, motor, mobil, truk);
    DirRecord(motor, mobil, truk, all, d, custom, if custom.Some? then Some(custom.value * 3.6) else None,
              dist, DelaySeconds(vObs, ffs, dist))
  }

  /** A table with a measured trip has an observed speed, and then a delay exactly when its
      free-flow speed and distance are present and positive. */
  lemma RecordHasObservedSpeed(d: DirStats, dist: Option<real>)
    requires Balanced(d) && d.all.count > 0
    ensures RecordOf(d, dist).customAvg.Some?
  {
  }

  /** The rekap: one record per table of `Directions12`, with the distance between the two arms
      its label names. */
  method ComputeRekapAllDirections(m: MathLib, finished: seq<FinishedEntry>, lc: LanePoints)
    returns (out: map<string, DirRecord>)
    ensures forall key :: key in out <==> key in Directions12
    ensures forall a, b :: a != b ==>
      DirLabel(a, b) in out
      && out[DirLabel(a, b)] == RecordOf(Accumulated(finished)[DirLabel(a, b)], AvgDistanceOf(m, lc, Label(a), Label(b)))
  {
    var tables := AccumulateFinished(finished);
    out := map[];
    var k := 0;
    while k < |Directions12|
      invariant 0 <= k <= |Directions12|
      invariant forall key :: key in out <==> key in Directions12[..k]
      invariant forall j :: 0 <= j < k ==> out[Directions12[j]] == RecordAt(m, tables, lc, j)
    {
      out := FileRecord(m, tables, lc, out, k);
      k := k + 1;
    }
    assert Directions12[..k] == Directions12;
    RecordsByPair(m, tables, lc, out);
  }

  /** One turn of the rekap loop: the record of table `k`, filed under its label. */
  method FileRecord(m: MathLib, tables: map<string, DirStats>, lc: LanePoints,
                    out: map<string, DirRecord>, k: nat) returns (out': map<string, DirRecord>)
    requires tables.Keys == InitialTables().Keys && k < |Directions12|
    requires forall key :: key in out <==> key in Directions12[..k]
    requires forall j :: 0 <= j < k ==> out[Directions12[j]] == RecordAt(m, tables, lc, j)
    ensures forall key :: key in out' <==> key in Directions12[..k + 1]
    ensures forall j :: 0 <= j < k + 1 ==> out'[Directions12[j]] == RecordAt(m, tables, lc, j)
  {
    var p := DirectionPairOf(k);
    var a, b := p.0, p.1;
    assert Directions12[k] in tables;
    var dist := AvgDistanceMeters(m, lc, Label(a), Label(b));
    var rec := RecordOf(tables[Directions12[k]], dist);
    ghost var recs := seq(|Directions12|, j requires 0 <= j < |Directions12| => RecordAt(m, tables, lc, j));
    assert rec == recs[k];
    DistinctBefore(k);
    ExtendKeyed(Directions12, recs, out, k);
    out' := out[Directions12[k] := rec];
  }

  /** The records filed by table index are the records of the arm pairs the labels name. */
  lemma RecordsByPair(m: MathLib, tables: map<string, DirStats>, lc: LanePoints, out: map<string, DirRecord>)
    requires tables.Keys == InitialTables().Keys
    requires forall key :: key in out <==> key in Directions12
    requires forall j :: 0 <= j < |Directions12| ==> out[Directions12[j]] == RecordAt(m, tables, lc, j)
    ensures forall a, b :: a != b ==>
      DirLabel(a, b) in out && DirLabel(a, b) in tables
      && out[DirLabel(a, b)] == RecordOf(tables[DirLabel(a, b)], AvgDistanceOf(m, lc, Label(a), Label(b)))
  {
    forall a, b | a != b
      ensures DirLabel(a, b) in out && DirLabel(a, b) in tables
      ensures out[DirLabel(a, b)] == RecordOf(tables[DirLabel(a, b)], AvgDistanceOf(m, lc, Label(a), Label(b)))
    {
      var j := DirectionIndex(a, b);
      var p := DirectionPairOf(j);
      LabelsDetermineArms(a, b, p.0, p.1);
    }
  }

  /** Filing value `k` under key `k` keeps the values filed under the keys before it, when
      those keys differ from key `k`. */
  lemma {:induction false} ExtendKeyed<V>(keys: seq<string>, vals: seq<V>, out: map<string, V>, k: nat)
    requires |vals| == |keys| && k < |keys|
    requires forall j :: 0 <= j < k ==> keys[j] != keys[k]
    requires forall key :: key in out <==> key in keys[..k]
    requires forall j :: 0 <= j < k ==> out[keys[j]] == vals[j]
    ensures var out' := out[keys[k] := vals[k]];
      forall key :: key in out' <==> key in keys[..k + 1]
    ensures var out' := out[keys[k] := vals[k]];
      forall j :: 0 <= j < k + 1 ==> out'[keys[j]] == vals[j]
  {
    assert keys[..k + 1] == keys[..k] + [keys[k]];
  }

  /** No table label repeats an earlier one. */
  lemma DistinctBefore(k: nat)
    requires k < |Directions12|
    ensures forall j :: 0 <= j < k ==> Directions12[j] != Directions12[k]
  {
    forall j | 0 <= j < k
      ensures Directions12[j] != Directions12[k]
    {
      DirectionsDistinct(j, k);
    }
  }

  /** The record the rekap files for table `j`. */
  function RecordAt(m: MathLib, tables: map<string, DirStats>, lc: LanePoints, j: nat): DirRecord
    requires j < |Directions12|
  {
    var p := DirectionPairOf(j);
    RecordOf(if Directions12[j] in tables then tables[Directions12[j]] else EmptyDirStats,
             AvgDistanceOf(m, lc, Label(p.0), Label(p.1)))
  }
}
