/** The intersection summary of js/Summary.js: signal timing, saturation flow, capacity and queue
    length per lane, and the per-direction totals over the lanes a direction actually has. */
module Summary {
  import opened Wrappers
  import opened Numeric
  import opened Text
  import Siklus

  const LaneWidthM: real := 3.0
  const MaxLanes: nat := 5

  /** `hitungWaktuHijau`: a quarter of the cycle per phase for "searah", half of it otherwise,
      less the clearance intervals. */
  function HitungWaktuHijau(fase: string, siklus: real, allRed: real, yellow: real): (g: real)
    ensures g + allRed + yellow == Siklus.GroupBase(fase, siklus)
  {
    if fase == "searah" then siklus / 4.0 - allRed - yellow else siklus / 2.0 - allRed - yellow
  }

  /** `hitungWaktuMerah`: the time the other phases hold a lane at red. */
  function HitungWaktuMerah(fase: string, siklus: real): (r: real)
    ensures r == siklus - Siklus.GroupBase(fase, siklus)
  {
    if fase == "searah" then (3.0 / 4.0) * siklus else (1.0 / 2.0) * siklus
  }

  /** Green, the clearance intervals and red together make up one whole cycle, in every mode. */
  lemma TimingFillsCycle(fase: string, siklus: real, allRed: real, yellow: real)
    ensures HitungWaktuHijau(fase, siklus, allRed, yellow) + allRed + yellow + HitungWaktuMerah(fase, siklus) == siklus
  {
  }

  /** The cycle diagram's green time is this green time with negatives cut off at zero. */
  lemma GreenAgreesWithCycleDiagram(fase: string, siklus: real, allRed: real, yellow: real)
    ensures Siklus.ComputeGreen(fase, siklus, allRed, yellow) == Max(0.0, HitungWaktuHijau(fase, siklus, allRed, yellow))
  {
  }

  /** `hitungArusJenuhPerLajur`: the base flow 1900 with the lane width factor 0.92, the heavy
      vehicle factor 1 / (1 + truck fraction) and the site factor 0.9. */
  function HitungArusJenuh(persenTruk: real): (s: real)
    requires persenTruk > -100.0
    ensures s > 0.0
  {
    var frac := OrElse(persenTruk, 0.0) / 100.0;
    assert 1.0 + frac * 1.0 > 0.0;
    assert 1.0 / (1.0 + frac * 1.0) > 0.0;
    1900.0 * 0.92 * (1.0 / (1.0 + frac * 1.0)) * 1.0 * 1.0 * 1.0 * 0.9
  }

  lemma ArusJenuhWithoutTrucks()
    ensures HitungArusJenuh(0.0) == 1573.2
  {
  }

  /** More trucks, less saturation flow. */
  lemma ArusJenuhDecreasing(p: real, q: real)
    requires -100.0 < p < q
    ensures HitungArusJenuh(q) < HitungArusJenuh(p)
  {
    var a := 1.0 + p / 100.0;
    var b := 1.0 + q / 100.0;
    assert 0.0 < a < b;
    InverseDecreasing(a, b);
  }

  lemma InverseDecreasing(a: real, b: real)
    requires 0.0 < a < b
    ensures 1.0 / b < 1.0 / a
  {
    MulStrict(a, b, 1.0 / a);
    assert a * (1.0 / a) == 1.0;
    MulStrict(1.0 / b, 1.0 / a, b);
  }

  /** `hitungQPerLajur`: passenger car units, with a truck worth 1.3 and a motorcycle 0.2. */
  function HitungQ(mc: real, lv: real, hv: real): (q: real)
    ensures mc >= 0.0 && lv >= 0.0 && hv >= 0.0 ==> q >= 0.0
  {
    lv + 1.3 * hv + 0.2 * mc
  }

  /** Passenger car units add up, and one vehicle of each kind weighs its factor. */
  lemma QWeights(mc1: real, lv1: real, hv1: real, mc2: real, lv2: real, hv2: real)
    ensures HitungQ(mc1 + mc2, lv1 + lv2, hv1 + hv2) == HitungQ(mc1, lv1, hv1) + HitungQ(mc2, lv2, hv2)
    ensures HitungQ(0.0, 1.0, 0.0) == 1.0 && HitungQ(0.0, 0.0, 1.0) == 1.3 && HitungQ(1.0, 0.0, 0.0) == 0.2
  {
  }

  /** `hitungSmpHijauPerLajur`: the units arriving during red, from an hourly flow. */
  function HitungSmpHijau(totalArus: real, waktuMerah: real): (smp: real)
    ensures smp * 3600.0 == totalArus * waktuMerah
  {
    (totalArus * waktuMerah) / 3600.0
  }

  /** `hitungKapasitasPerLajur`: the saturation flow scaled by the green share of the cycle; 0
      for a cycle that is missing or not positive. */
  function HitungKapasitas(s: real, waktuHijau: real, siklus: real): (c: real)
    ensures siklus <= 0.0 ==> c == 0.0
    ensures siklus > 0.0 ==> c * siklus == s * waktuHijau
  {
    if siklus <= 0.0 then 0.0 else (s * waktuHijau) / siklus
  }

  /** A lane cannot carry more than its saturation flow, and carries nothing without green. */
  lemma KapasitasBounded(s: real, waktuHijau: real, siklus: real)
    requires s >= 0.0 && 0.0 <= waktuHijau <= siklus && siklus > 0.0
    ensures 0.0 <= HitungKapasitas(s, waktuHijau, siklus) <= s
  {
    var c := HitungKapasitas(s, waktuHijau, siklus);
    MulMonotone(waktuHijau, siklus, s);
    MulMonotone(0.0, waktuHijau, s);
    if c > s {
      MulStrict(s, c, siklus);
    }
    if c < 0.0 {
      MulStrict(c, 0.0, siklus);
    }
  }

  /** `hitungPanjangAntrianPerLajur`: 20 units of length per queued unit spread over the lane
      width; 0 for a missing width. */
  function HitungPanjangAntrian(smpHijau: real, lebarLajur: real): (p: real)
    ensures lebarLajur == 0.0 ==> p == 0.0
    ensures lebarLajur != 0.0 ==> p * lebarLajur == smpHijau * 20.0
  {
    if lebarLajur == 0.0 then 0.0 else (smpHijau * 20.0) / lebarLajur
  }

  /** `roundNum(v, 2)`: Math.round(v * 100) / 100. */
  function RoundNum(v: real): (r: real)
    ensures v - 0.005 < r <= v + 0.005
  {
    Round(v * 100.0) as real / 100.0
  }

  /** Rounding to hundredths keeps a value inside [0, 100]. */
  lemma RoundNumPercent(v: real)
    requires 0.0 <= v <= 100.0
    ensures 0.0 <= RoundNum(v) <= 100.0
  {
    var k := Round(v * 100.0);
    assert k as real <= v * 100.0 + 0.5 <= 10000.5;
    assert k as real > -0.5;
  }

  /** What a lane's inputs hold: the three counts (0 when missing) and the optional total flow
      (None when the field is absent or not a number). */
  datatype LaneInput = LaneInput(mc: real, lv: real, hv: real, arus: Option<real>)

  datatype LaneRow = LaneRow(
    lajur: nat, active: bool, mc: real, lv: real, hv: real, totalArus: real, persenTruk: real,
    s: real, smpHijau: real, kapasitas: real, arusLL: real, panjang: real)

  datatype DirectionRow = DirectionRow(
    jumlahLajur: Option<nat>, waktuHijau: real, waktuMerah: real, lanes: seq<LaneRow>,
    totalKapasitas: real, totalArusLL: real)

  /** `Math.max(0, parseInt(value || 0))`; None is the NaN that a non-numeric choice gives, and
      with it no lane counts as present. */
  function JumlahLajur(value: string): (r: Option<nat>)
    ensures value == "" ==> r == Some(0)
    ensures AllDigits(value) && value != "" ==> r == Some(DigitsValue(value))
  {
    if value == "" then Some(0)
    else
      var n := ParseInt(value);
      if n.None? then None else Some(if n.value < 0 then 0 else n.value)
  }

  /** `i <= jumlahLajur`. */
  predicate Present(i: nat, jumlah: Option<nat>) {
    jumlah.Some? && i <= jumlah.value
  }

  /** The green time a direction uses for its lanes: never zero or less. */
  function EffectiveGreen(fase: string, siklus: real, allRed: real, yellow: real): (g: real)
    ensures g > 0.0
    ensures HitungWaktuHijau(fase, siklus, allRed, yellow) > 0.0 ==> g == HitungWaktuHijau(fase, siklus, allRed, yellow)
  {
    var g := HitungWaktuHijau(fase, siklus, allRed, yellow);
    if g <= 0.0 then 0.001 else g
  }

  /** The truck share of the counted vehicles in percent, rounded to hundredths; 0 without
      vehicles. */
  function PersenTruk(x: LaneInput): (p: real)
    ensures x.mc >= 0.0 && x.lv >= 0.0 && x.hv >= 0.0 ==> 0.0 <= p <= 100.0
  {
    var compSum := x.mc + x.lv + x.hv;
    if compSum > 0.0 then
      if x.mc >= 0.0 && x.lv >= 0.0 && x.hv >= 0.0 then
        ShareAtMostWhole(x.hv, compSum);
        RoundNumPercent((x.hv / compSum) * 100.0);
        RoundNum((x.hv / compSum) * 100.0)
      else
        RoundNum((x.hv / compSum) * 100.0)
    else 0.0
  }

  lemma ShareAtMostWhole(part: real, whole: real)
    requires 0.0 <= part <= whole && whole > 0.0
    ensures 0.0 <= (part / whole) * 100.0 <= 100.0
  {
    assert part / whole <= 1.0;
  }

  /** The lane's total flow: the entered total unless it is missing or zero, else the sum of
      the counts when that is positive, else 0. */
  function TotalArus(x: LaneInput): (t: real)
    ensures x.arus.Some? && x.arus.value != 0.0 ==> t == x.arus.value
    ensures !(x.arus.Some? && x.arus.value != 0.0) ==> t >= 0.0
  {
    if x.arus.Some? && x.arus.value != 0.0 then x.arus.value
    else
      var sumComp := x.mc + x.lv + x.hv;
      if sumComp > 0.0 then sumComp else 0.0
  }

  /** The row of lane `i` (1-based). */
  function LaneRowOf(i: nat, jumlah: Option<nat>, x: LaneInput, green: real, red: real, siklus: real): (row: LaneRow)
    ensures row.lajur == i && row.active == Present(i, jumlah)
  {
    var persen := PersenTruk(x);
    var s := HitungArusJenuh(OrNonNegative(persen));
    var total := TotalArus(x);
    var smp := HitungSmpHijau(total, red);
    LaneRow(i, Present(i, jumlah), x.mc, x.lv, x.hv, total, persen, s, smp,
            HitungKapasitas(s, green, siklus), HitungQ(x.mc, x.lv, x.hv), HitungPanjangAntrian(smp, LaneWidthM))
  }

  /** Negative counts can make the truck share fall below -100 %, where the heavy-vehicle factor
      is undefined; such a share is read as 0. */
  function OrNonNegative(p: real): (r: real)
    ensures r > -100.0
    ensures p > -100.0 ==> r == p
  {
    if p > -100.0 then p else 0.0
  }

  /** The rows of lanes 1 .. |xs|, in order. */
  function Rows(xs: seq<LaneInput>, jumlah: Option<nat>, green: real, red: real, siklus: real): (rows: seq<LaneRow>)
    ensures |rows| == |xs|
  {
    if xs == [] then []
    else Rows(xs[..|xs| - 1], jumlah, green, red, siklus) + [LaneRowOf(|xs|, jumlah, xs[|xs| - 1], green, red, siklus)]
  }

  /** Row `k` is lane `k + 1` computed from its own inputs. */
  lemma {:induction false} RowsAt(xs: seq<LaneInput>, jumlah: Option<nat>, green: real, red: real, siklus: real, k: nat)
    requires k < |xs|
    ensures Rows(xs, jumlah, green, red, siklus)[k] == LaneRowOf(k + 1, jumlah, xs[k], green, red, siklus)
  {
    if k < |xs| - 1 {
      RowsAt(xs[..|xs| - 1], jumlah, green, red, siklus, k);
    }
  }

  /** The capacity summed over the present lanes. */
  function KapasitasOfPresent(rows: seq<LaneRow>): real {
    if rows == [] then 0.0
    else KapasitasOfPresent(rows[..|rows| - 1]) + (if rows[|rows| - 1].active then rows[|rows| - 1].kapasitas else 0.0)
  }

  /** The flow in passenger car units summed over the present lanes. */
  function ArusOfPresent(rows: seq<LaneRow>): real {
    if rows == [] then 0.0
    else ArusOfPresent(rows[..|rows| - 1]) + (if rows[|rows| - 1].active then rows[|rows| - 1].arusLL else 0.0)
  }

  /** Whatever is entered for a lane beyond the direction's lane count does not change its
      totals. */
  lemma {:induction false} AbsentLanesIgnored(xs: seq<LaneInput>, ys: seq<LaneInput>, jumlah: Option<nat>,
                                              green: real, red: real, siklus: real)
    requires |xs| == |ys|
    requires forall k :: 0 <= k < |xs| && Present(k + 1, jumlah) ==> xs[k] == ys[k]
    ensures KapasitasOfPresent(Rows(xs, jumlah, green, red, siklus)) == KapasitasOfPresent(Rows(ys, jumlah, green, red, siklus))
    ensures ArusOfPresent(Rows(xs, jumlah, green, red, siklus)) == ArusOfPresent(Rows(ys, jumlah, green, red, siklus))
  {
    if xs != [] {
      var n := |xs|;
      AbsentLanesIgnored(xs[..n - 1], ys[..n - 1], jumlah, green, red, siklus);
      var rx := Rows(xs, jumlah, green, red, siklus);
      var ry := Rows(ys, jumlah, green, red, siklus);
      assert rx[..n - 1] == Rows(xs[..n - 1], jumlah, green, red, siklus);
      assert ry[..n - 1] == Rows(ys[..n - 1], jumlah, green, red, siklus);
    }
  }

  /** A direction whose lane count is not a number has zero totals. */
  lemma {:induction false} NoLanesNoTotals(xs: seq<LaneInput>, green: real, red: real, siklus: real)
    ensures KapasitasOfPresent(Rows(xs, None, green, red, siklus)) == 0.0
    ensures ArusOfPresent(Rows(xs, None, green, red, siklus)) == 0.0
  {
    if xs != [] {
      var n := |xs|;
      NoLanesNoTotals(xs[..n - 1], green, red, siklus);
      assert Rows(xs, None, green, red, siklus)[..n - 1] == Rows(xs[..n - 1], None, green, red, siklus);
    }
  }

  /** The `for (let i = 1; i <= MAX_LANES; i++)` loop of `updateSummaryTable` for one direction:
      one row per lane, and the totals of the present lanes rounded to hundredths. */
  method SummariseDirection(jumlahValue: string, xs: seq<LaneInput>, fase: string, siklus: real,
                            allRed: real, yellow: real) returns (d: DirectionRow)
    requires |xs| == MaxLanes
    ensures d.jumlahLajur == JumlahLajur(jumlahValue)
    ensures d.waktuHijau == EffectiveGreen(fase, siklus, allRed, yellow)
    ensures d.waktuMerah == HitungWaktuMerah(fase, siklus)
    ensures d.lanes == Rows(xs, d.jumlahLajur, d.waktuHijau, d.waktuMerah, siklus)
    ensures d.totalKapasitas == RoundNum(KapasitasOfPresent(d.lanes))
    ensures d.totalArusLL == RoundNum(ArusOfPresent(d.lanes))
  {
    var jumlah := JumlahLajur(jumlahValue);
    var green := EffectiveGreen(fase, siklus, allRed, yellow);
    var red := HitungWaktuMerah(fase, siklus);
    var lanes: seq<LaneRow> := [];
    var totalKapasitas := 0.0;
    var totalArus := 0.0;
    var i := 1;
    while i <= MaxLanes
      invariant 1 <= i <= MaxLanes + 1
      invariant lanes == Rows(xs[..i - 1], jumlah, green, red, siklus)
      invariant totalKapasitas == KapasitasOfPresent(lanes)
      invariant totalArus == ArusOfPresent(lanes)
    {
      var row := LaneRowOf(i, jumlah, xs[i - 1], green, red, siklus);
      if Present(i, jumlah) {
        totalKapasitas := totalKapasitas + row.kapasitas;
        totalArus := totalArus + row.arusLL;
      }
      assert xs[..i][..i - 1] == xs[..i - 1];
      lanes := lanes + [row];
      assert lanes[..|lanes| - 1] == Rows(xs[..i - 1], jumlah, green, red, siklus);
      i := i + 1;
    }
    assert xs[..MaxLanes] == xs;
    d := DirectionRow(jumlah, green, red, lanes, RoundNum(totalKapasitas), RoundNum(totalArus));
  }
}
