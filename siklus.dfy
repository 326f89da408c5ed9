/** The cycle diagram arithmetic of js/SiklusLampu.js: the green time of one phase group, the
    closure state kept by the setters, and the position in the cycle that `update` computes,
    either from a traffic light's snapshot or from an internal timer. Durations are milliseconds. */
module Siklus {
  import opened Wrappers
  import opened Numeric

  /** The length of one phase group: a quarter of the cycle when every arm has its own phase
      ("searah"), half of it when two arms share one. */
  function GroupBase(mode: string, total: real): real {
    if mode == "searah" then total / 4.0 else total / 2.0
  }

  /** `computeGreen`: what is left of a group after the all-red and yellow intervals, never
      negative. */
  function ComputeGreen(mode: string, total: real, allRed: real, yellow: real): (g: real)
    ensures g >= 0.0
    ensures g >= GroupBase(mode, total) - allRed - yellow
    ensures g == 0.0 || g + allRed + yellow == GroupBase(mode, total)
  {
    var g := GroupBase(mode, total) - allRed - yellow;
    if g < 0.0 then 0.0 else g
  }

  /** When the clearance intervals fit in a group, all-red, green and yellow fill the group
      exactly, so the groups of all phases fill the cycle. */
  lemma GreenFillsCycle(mode: string, total: real, allRed: real, yellow: real)
    requires allRed + yellow <= GroupBase(mode, total)
    ensures mode == "searah" ==> 4.0 * (allRed + ComputeGreen(mode, total, allRed, yellow) + yellow) == total
    ensures mode != "searah" ==> 2.0 * (allRed + ComputeGreen(mode, total, allRed, yellow) + yellow) == total
  {
  }

  /** A longer cycle never shortens the green time. */
  lemma GreenMonotoneInCycle(mode: string, t1: real, t2: real, allRed: real, yellow: real)
    requires t1 <= t2
    ensures ComputeGreen(mode, t1, allRed, yellow) <= ComputeGreen(mode, t2, allRed, yellow)
  {
  }

  /** `(Number(sec) || 0) * 1000`: None stands for input that is not a number. */
  function SecondsToMs(sec: Option<real>): (ms: real)
    ensures sec.None? ==> ms == 0.0
    ensures sec.Some? ==> ms / 1000.0 == sec.value
  {
    if sec.None? then 0.0 else sec.value * 1000.0
  }

  predicate IsPhaseMode(mode: string) {
    mode == "searah" || mode == "berhadapan" || mode == "berseberangan"
  }

  /** `v || 1`: a missing (None) or zero speed factor becomes 1. */
  function SimSpeedOf(v: Option<real>): (s: real)
    ensures s != 0.0
    ensures v.Some? && v.value != 0.0 ==> s == v.value
  {
    if v.Some? then OrElse(v.value, 1.0) else 1.0
  }

  /** The durations a traffic light publishes as `durasi`; `total` is None when it is not a
      number. */
  datatype Durasi = Durasi(hijau: real, kuning: real, allRed: real, total: Option<real>)

  /** What `update` reads from the attached traffic light. None stands for a missing
      (undefined) property; `urutanLength` is the length of `urutan` when it is an array, and
      `fase` and `phaseMode` are "" when missing. */
  datatype LampSnapshot = LampSnapshot(
    durasi: Option<Durasi>,
    urutanLength: Option<nat1>,
    indexAktif: Option<int>,
    fase: string,
    waktuFase: Option<real>,
    phaseMode: string)

  type nat1 = n: nat | n > 0 witness 1

  /** The branch condition of `update`: a lamp with durations, an index and a phase time. */
  predicate Synchronised(l: Option<LampSnapshot>) {
    l.Some? && l.value.durasi.Some? && l.value.indexAktif.Some? && l.value.waktuFase.Some?
  }

  function GroupCount(l: LampSnapshot, mode: string): (n: nat1) {
    if l.urutanLength.Some? then l.urutanLength.value else if mode == "searah" then 4 else 2
  }

  /** The length of one group: the lamp's total split evenly, or the sum of its three intervals
      when there is no positive total. */
  function PerGroupTotal(d: Durasi, groups: nat1): real {
    if d.total.Some? && d.total.value > 0.0 then d.total.value / groups as real
    else d.allRed + d.hijau + d.kuning
  }

  /** The number of whole groups before the active one: `Number(indexAktif) || 0`, and a loop
      that runs that many times (none for a negative index). */
  function GroupsBefore(idx: Option<int>): (n: nat)
    ensures idx.Some? && idx.value >= 0 ==> n == idx.value
  {
    if idx.Some? && idx.value > 0 then idx.value else 0
  }

  /** The time taken by `n` whole groups of length `p`. */
  function GroupsTime(n: nat, p: real): real {
    n as real * p
  }

  /** The offset within the active group: the all-red interval comes first, then green, then
      yellow; any other phase name counts against the whole group. */
  function PhaseOffset(fase: string, wf: real, d: Durasi, perGroup: real): real {
    var f := if fase == "" then "allRed" else fase;
    if f == "allRed" then Min(wf, d.allRed)
    else if f == "hijau" then d.allRed + Min(wf, d.hijau)
    else if f == "kuning" then d.allRed + d.hijau + Min(wf, d.kuning)
    else Min(wf, perGroup)
  }

  /** With non-negative durations and phase time, the phases follow each other in the group:
      every all-red offset lies in [0, allRed], every green offset in [allRed, allRed + hijau],
      every yellow offset in [allRed + hijau, allRed + hijau + kuning]. */
  lemma PhaseOffsetsOrdered(wf: real, d: Durasi, perGroup: real)
    requires wf >= 0.0 && d.allRed >= 0.0 && d.hijau >= 0.0 && d.kuning >= 0.0
    ensures 0.0 <= PhaseOffset("allRed", wf, d, perGroup) <= d.allRed
    ensures PhaseOffset("", wf, d, perGroup) == PhaseOffset("allRed", wf, d, perGroup)
    ensures d.allRed <= PhaseOffset("hijau", wf, d, perGroup) <= d.allRed + d.hijau
    ensures d.allRed + d.hijau <= PhaseOffset("kuning", wf, d, perGroup) <= d.allRed + d.hijau + d.kuning
  {
  }

  /** `dur.total || cycleTotal`. */
  function CycleLength(d: Durasi, cycleTotal: real): real {
    if d.total.Some? then OrElse(d.total.value, cycleTotal) else cycleTotal
  }

  /** `e % (dur.total || cycleTotal)`; None is the NaN of a remainder by zero. */
  function Wrap(e: real, len: real): (r: Option<real>)
    ensures r.None? <==> len == 0.0
    ensures len > 0.0 && e >= 0.0 ==> r.Some? && 0.0 <= r.value < len
    ensures 0.0 <= e < len ==> r == Some(e)
  {
    if len == 0.0 then None else Some(JsRem(e, len))
  }

  /** The position in the cycle read from a lamp snapshot: the whole groups before the active
      one, plus the offset in the active group, taken modulo the cycle. */
  function ElapsedFromLamp(l: LampSnapshot, mode: string, cycleTotal: real): (r: Option<real>)
    requires l.durasi.Some? && l.indexAktif.Some? && l.waktuFase.Some?
  {
    var d := l.durasi.value;
    var p := PerGroupTotal(d, GroupCount(l, mode));
    var e := GroupsTime(GroupsBefore(l.indexAktif), p) + PhaseOffset(l.fase, l.waktuFase.value, d, p);
    Wrap(e, CycleLength(d, cycleTotal))
  }

  /** At the start of its all-red interval the group with index `idx` sits at `idx` parts of the
      cycle split into as many parts as the lamp has groups. */
  lemma GroupStartPosition(l: LampSnapshot, mode: string, cycleTotal: real)
    requires l.durasi.Some? && l.indexAktif.Some? && l.waktuFase.Some?
    requires l.durasi.value.total.Some? && l.durasi.value.total.value > 0.0
    requires l.durasi.value.allRed >= 0.0
    requires 0 <= l.indexAktif.value < GroupCount(l, mode)
    requires l.fase == "allRed" && l.waktuFase.value == 0.0
    ensures ElapsedFromLamp(l, mode, cycleTotal)
         == Some(GroupsTime(l.indexAktif.value, l.durasi.value.total.value / GroupCount(l, mode) as real))
  {
    var d := l.durasi.value;
    var p := PerGroupTotal(d, GroupCount(l, mode));
    assert PhaseOffset(l.fase, 0.0, d, p) == 0.0;
    GroupsBeforeCycle(l.indexAktif.value, GroupCount(l, mode), d.total.value);
  }

  /** `idx` whole groups out of `groups` take less than the cycle. */
  lemma GroupsBeforeCycle(idx: nat, groups: nat1, total: real)
    requires idx < groups && total > 0.0
    ensures 0.0 <= GroupsTime(idx, total / groups as real) < total
  {
    var g := groups as real;
    var i := idx as real;
    assert i + 1.0 <= g;
    MulMonotone(i + 1.0, g, total / g);
    assert g * (total / g) == total;
    assert (i + 1.0) * (total / g) == i * (total / g) + total / g;
  }

  /** The product `deltaMs * simSpeed`. */
  function TimerStep(deltaMs: real, simSpeed: real): real {
    deltaMs * simSpeed
  }

  /** The fallback timer: advance by `deltaMs * simSpeed`, then take the remainder by the cycle
      when the cycle is positive; None (NaN) stays None. */
  function FallbackElapsed(elapsed: Option<real>, deltaMs: real, simSpeed: real, cycleTotal: real): (r: Option<real>)
    ensures elapsed.None? ==> r.None?
    ensures cycleTotal > 0.0 && elapsed.Some? && elapsed.value + TimerStep(deltaMs, simSpeed) >= 0.0
            ==> r.Some? && 0.0 <= r.value < cycleTotal
  {
    if elapsed.None? then None
    else
      var e := elapsed.value + TimerStep(deltaMs, simSpeed);
      if cycleTotal > 0.0 then Some(JsRem(e, cycleTotal)) else Some(e)
  }

  /** A non-negative position keeps moving forward inside the cycle while it has not wrapped. */
  lemma FallbackAdvances(e: real, deltaMs: real, simSpeed: real, cycleTotal: real)
    requires cycleTotal > 0.0 && 0.0 <= e && TimerStep(deltaMs, simSpeed) >= 0.0
    requires e + TimerStep(deltaMs, simSpeed) < cycleTotal
    ensures FallbackElapsed(Some(e), deltaMs, simSpeed, cycleTotal) == Some(e + TimerStep(deltaMs, simSpeed))
  {
  }

  /** Settings passed to `createSiklusLampu`; None or 0 stands for a missing option. */
  datatype SiklusOptions = SiklusOptions(
    cycleTotalSec: real, allRedSec: real, yellowSec: real, phaseMode: string,
    lampuRef: Option<LampSnapshot>)

  /** The `for (let i = 0; i < idx; i++) e += perGroupTotal` loop. */
  method SumGroups(n: nat, perGroup: real) returns (e: real)
    ensures e == GroupsTime(n, perGroup)
  {
    e := 0.0;
    var i := 0;
    while i < n
      invariant 0 <= i <= n
      invariant e == GroupsTime(i, perGroup)
    {
      assert GroupsTime(i + 1, perGroup) == GroupsTime(i, perGroup) + perGroup;
      e := e + perGroup;
      i := i + 1;
    }
  }

  /** The closure state of `createSiklusLampu`. */
  class SiklusLampu {
    var cycleTotal: real
    var allRedDur: real
    var yellowDur: real
    var elapsed: Option<real>
    var simSpeed: real
    var phaseMode: string
    var lampuRef: Option<LampSnapshot>
    var justReset: bool

    constructor (opts: SiklusOptions)
      ensures cycleTotal == OrElse(opts.cycleTotalSec, 120.0) * 1000.0
      ensures allRedDur == OrElse(opts.allRedSec, 2.0) * 1000.0
      ensures yellowDur == OrElse(opts.yellowSec, 3.0) * 1000.0
      ensures elapsed == Some(0.0) && simSpeed == 1.0 && !justReset
      ensures phaseMode == (if opts.phaseMode == "" then "searah" else opts.phaseMode)
      ensures lampuRef == opts.lampuRef
    {
      cycleTotal := OrElse(opts.cycleTotalSec, 120.0) * 1000.0;
      allRedDur := OrElse(opts.allRedSec, 2.0) * 1000.0;
      yellowDur := OrElse(opts.yellowSec, 3.0) * 1000.0;
      elapsed := Some(0.0);
      simSpeed := 1.0;
      phaseMode := if opts.phaseMode == "" then "searah" else opts.phaseMode;
      lampuRef := opts.lampuRef;
      justReset := false;
    }

    /** `computeGreen()` with the current settings. */
    function Green(): (g: real)
      reads this
      ensures g >= 0.0
    {
      ComputeGreen(phaseMode, cycleTotal, allRedDur, yellowDur)
    }

    /** `setParams`: seconds to milliseconds, non-numbers as 0. */
    method SetParams(totalSec: Option<real>, allRedSec: Option<real>, yellowSec: Option<real>)
      modifies this
      ensures cycleTotal == SecondsToMs(totalSec)
      ensures allRedDur == SecondsToMs(allRedSec)
      ensures yellowDur == SecondsToMs(yellowSec)
      ensures elapsed == old(elapsed) && simSpeed == old(simSpeed) && phaseMode == old(phaseMode)
      ensures lampuRef == old(lampuRef) && justReset == old(justReset)
    {
      cycleTotal := SecondsToMs(totalSec);
      allRedDur := SecondsToMs(allRedSec);
      yellowDur := SecondsToMs(yellowSec);
    }

    /** `setPhaseMode`: an unknown mode is refused and the mode stays as it was. */
    method SetPhaseMode(mode: string)
      modifies this
      ensures phaseMode == (if IsPhaseMode(mode) then mode else old(phaseMode))
      ensures cycleTotal == old(cycleTotal) && allRedDur == old(allRedDur) && yellowDur == old(yellowDur)
      ensures elapsed == old(elapsed) && simSpeed == old(simSpeed)
      ensures lampuRef == old(lampuRef) && justReset == old(justReset)
    {
      if IsPhaseMode(mode) {
        phaseMode := mode;
      }
    }

    method SetSimSpeed(v: Option<real>)
      modifies this
      ensures simSpeed == SimSpeedOf(v)
      ensures cycleTotal == old(cycleTotal) && allRedDur == old(allRedDur) && yellowDur == old(yellowDur)
      ensures elapsed == old(elapsed) && phaseMode == old(phaseMode)
      ensures lampuRef == old(lampuRef) && justReset == old(justReset)
    {
      simSpeed := SimSpeedOf(v);
    }

    /** `syncWithLampu`: attach a lamp and take over its numeric durations that are non-zero. */
    method SyncWithLampu(instance: Option<LampSnapshot>)
      modifies this
      ensures lampuRef == instance
      ensures instance.Some? && instance.value.durasi.Some? ==>
        var d := instance.value.durasi.value;
        && cycleTotal == CycleLength(d, old(cycleTotal))
        && allRedDur == OrElse(d.allRed, old(allRedDur))
        && yellowDur == OrElse(d.kuning, old(yellowDur))
      ensures !(instance.Some? && instance.value.durasi.Some?) ==>
        cycleTotal == old(cycleTotal) && allRedDur == old(allRedDur) && yellowDur == old(yellowDur)
      ensures elapsed == old(elapsed) && simSpeed == old(simSpeed) && phaseMode == old(phaseMode)
      ensures justReset == old(justReset)
    {
      lampuRef := instance;
      if instance.Some? && instance.value.durasi.Some? {
        var d := instance.value.durasi.value;
        cycleTotal := CycleLength(d, cycleTotal);
        allRedDur := OrElse(d.allRed, allRedDur);
        yellowDur := OrElse(d.kuning, yellowDur);
      }
    }

    method ResetCycleDiagram()
      modifies this
      ensures elapsed == Some(0.0) && justReset
      ensures cycleTotal == old(cycleTotal) && allRedDur == old(allRedDur) && yellowDur == old(yellowDur)
      ensures simSpeed == old(simSpeed) && phaseMode == old(phaseMode) && lampuRef == old(lampuRef)
    {
      elapsed := Some(0.0);
      justReset := true;
    }

    /** `update(deltaMs)`: follow the attached lamp when it publishes its phase, otherwise run
        the internal timer. */
    method Update(deltaMs: real)
      modifies this
      ensures Synchronised(old(lampuRef)) ==>
        var l := old(lampuRef).value;
        var d := l.durasi.value;
        && elapsed == ElapsedFromLamp(l, old(phaseMode), old(cycleTotal))
        && cycleTotal == CycleLength(d, old(cycleTotal))
        && allRedDur == OrElse(d.allRed, old(allRedDur))
        && yellowDur == OrElse(d.kuning, old(yellowDur))
        && phaseMode == (if l.phaseMode == "" then old(phaseMode) else l.phaseMode)
      ensures !Synchronised(old(lampuRef)) ==>
        && elapsed == FallbackElapsed(old(elapsed), deltaMs, old(simSpeed), old(cycleTotal))
        && cycleTotal == old(cycleTotal) && allRedDur == old(allRedDur) && yellowDur == old(yellowDur)
        && phaseMode == old(phaseMode)
      ensures simSpeed == old(simSpeed) && lampuRef == old(lampuRef) && justReset == old(justReset)
    {
      if Synchronised(lampuRef) {
        var l := lampuRef.value;
        var d := l.durasi.value;
        var p := PerGroupTotal(d, GroupCount(l, phaseMode));
        var e := SumGroups(GroupsBefore(l.indexAktif), p);
        e := e + PhaseOffset(l.fase, l.waktuFase.value, d, p);
        elapsed := Wrap(e, CycleLength(d, cycleTotal));
        cycleTotal := CycleLength(d, cycleTotal);
        allRedDur := OrElse(d.allRed, allRedDur);
        yellowDur := OrElse(d.kuning, yellowDur);
        phaseMode := if l.phaseMode == "" then phaseMode else l.phaseMode;
      } else {
        elapsed := FallbackElapsed(elapsed, deltaMs, simSpeed, cycleTotal);
      }
    }
  }
}
