/** The overlap pass and the frame of js/vehicles/antrian.js: each vehicle's speed is scaled by
    the largest part of its move that no nearby box blocks, `updateAntrian` chains the passes,
    and `countStoppedVehicles` counts the stopped vehicles per arm. */
module AntrianPass {
  import opened Wrappers
  import opened Numeric
  import opened Geometry
  import opened Routing
  import opened AntrianGeom
  import opened Antrian
  import opened AntrianTl
  import Lampu

  // ---------- neighbours ----------

  function Sq(x: real): real {
    x * x
  }

  /** Half the diagonal of a vehicle's box: `hypot(halfL ?? length/2, halfW ?? (widthPx || 10)/2)`. */
  function Diag(m: MathLib, c: Car): real
    requires c.box.Some?
  {
    var b := c.box.value;
    m.hypot(b.halfL.GetOr(VehicleLengthPx(c) / 2.0), b.halfW.GetOr(OrElse(c.widthPx.GetOr(0.0), 10.0) / 2.0))
  }

  /** The centres lie within the two half diagonals plus 80 px. */
  predicate Near(m: MathLib, a: Car, b: Car)
    requires a.box.Some? && b.box.Some?
  {
    var d := Sub(b.box.value.center, a.box.value.center);
    Sq(d.x) + Sq(d.y) <= Sq(Diag(m, a) + Diag(m, b) + 80.0)
  }

  /** The mover `computeMaxNonOverlapScale` sees: box, `vx || 0`, `vy || 0` and the speed (a
      missing speed taken as 0). */
  function MoverOf(c: Car): Mover {
    Mover(c.box, c.vx, c.vy, c.speed.GetOr(0.0))
  }

  /** Vehicle `k` takes part in vehicle `i`'s scan: another vehicle with a box, near enough. */
  predicate Counted(m: MathLib, cs: seq<Car>, i: nat, k: nat)
    requires i < |cs| && k < |cs| && cs[i].box.Some?
  {
    k != i && cs[k].box.Some? && Near(m, cs[i], cs[k])
  }

  /** What neighbour `k` means for vehicle `i`'s scan: nothing (not counted), a box that overlaps
      already, or the non-overlap scale of the two moves. */
  datatype Verdict = Skip | Blocked(id: string) | Scaled(s: real, id: string)

  function VerdictOf(m: MathLib, cs: seq<Car>, i: nat, k: nat, dt: real): (v: Verdict)
    requires i < |cs| && k < |cs| && cs[i].box.Some?
    ensures v.Skip? <==> !Counted(m, cs, i, k)
    ensures v.Scaled? ==> 0.0 <= v.s <= 1.0
  {
    if !Counted(m, cs, i, k) then Skip
    else if Overlaps(m, cs[i].box, cs[k].box) then Blocked(cs[k].id)
    else Scaled(ScaleOf(m, MoverOf(cs[i]), MoverOf(cs[k]), dt), cs[k].id)
  }

  /** The verdicts of all vehicles for vehicle `i`. */
  function Verdicts(m: MathLib, cs: seq<Car>, i: nat, dt: real): (vs: seq<Verdict>)
    requires i < |cs| && cs[i].box.Some?
    ensures |vs| == |cs|
    ensures forall k :: 0 <= k < |cs| ==> vs[k] == VerdictOf(m, cs, i, k, dt)
  {
    seq(|cs|, k requires 0 <= k < |cs| => VerdictOf(m, cs, i, k, dt))
  }

  /** The scale a verdict allows: 0 for an overlapping box. */
  function Allowed(v: Verdict): real
    requires !v.Skip?
  {
    if v.Blocked? then 0.0 else v.s
  }

  predicate ScalesInRange(vs: seq<Verdict>) {
    forall k :: 0 <= k < |vs| && vs[k].Scaled? ==> 0.0 <= vs[k].s <= 1.0
  }

  /** The `for (let j = 0; j < all.length; j++)` scan from `j` with the best scale and its
      candidate so far; it stops at an overlapping box or a scale of 0. */
  function ScanFrom(vs: seq<Verdict>, j: nat, best: real, cand: Option<string>): (r: (real, Option<string>))
    requires j <= |vs|
    decreases |vs| - j
  {
    if j == |vs| then (best, cand)
    else match vs[j]
      case Skip => ScanFrom(vs, j + 1, best, cand)
      case Blocked(id) => (0.0, Some(id))
      case Scaled(s, id) =>
        if s < best then
          if s <= 0.0 then (s, Some(id)) else ScanFrom(vs, j + 1, s, Some(id))
        else ScanFrom(vs, j + 1, best, cand)
  }

  /** The scan's result is no more than the best so far, at least 0, and names a candidate
      whenever it improved on the best. */
  lemma {:induction false} ScanBounds(vs: seq<Verdict>, j: nat, best: real, cand: Option<string>)
    requires j <= |vs| && ScalesInRange(vs)
    requires 0.0 <= best <= 1.0
    ensures var r := ScanFrom(vs, j, best, cand);
      && 0.0 <= r.0 <= best
      && (r.0 < best ==> r.1.Some?)
      && (r.0 == best && 0.0 < best ==> r.1 == cand)
    decreases |vs| - j
  {
    if j < |vs| {
      match vs[j]
      case Skip => ScanBounds(vs, j + 1, best, cand);
      case Blocked(_) =>
      case Scaled(s, id) =>
        if s < best {
          if s > 0.0 {
            ScanBounds(vs, j + 1, s, Some(id));
          }
        } else {
          ScanBounds(vs, j + 1, best, cand);
        }
    }
  }

  /** The scan's result is at most what any counted neighbour `k` ahead of it allows. */
  lemma {:induction false} ScanBelowNeighbour(vs: seq<Verdict>, j: nat, best: real, cand: Option<string>, k: nat)
    requires j <= k < |vs| && ScalesInRange(vs)
    requires 0.0 <= best <= 1.0
    requires !vs[k].Skip?
    ensures ScanFrom(vs, j, best, cand).0 <= Allowed(vs[k])
    decreases k - j
  {
    match vs[j]
    case Skip => ScanBelowNeighbour(vs, j + 1, best, cand, k);
    case Blocked(_) =>
    case Scaled(s, id) =>
      if j == k {
        if s < best && s > 0.0 {
          ScanBounds(vs, j + 1, s, Some(id));
        } else if s >= best {
          ScanBounds(vs, j + 1, best, cand);
        }
      } else if s < best {
        if s > 0.0 {
          ScanBelowNeighbour(vs, j + 1, s, Some(id), k);
        }
      } else {
        ScanBelowNeighbour(vs, j + 1, best, cand, k);
      }
  }

  /** What vehicle `i`'s scan finds: `bestScale` and `candidate` of the overlap pass. */
  function BestScaleOf(m: MathLib, cs: seq<Car>, i: nat, dt: real): (r: (real, Option<string>))
    requires i < |cs| && cs[i].box.Some?
  {
    ScanFrom(Verdicts(m, cs, i, dt), 0, 1.0, None)
  }

  /** The scan finds the smallest scale any counted neighbour allows (0 when a box overlaps
      already), and names a candidate exactly when that is below 1. */
  lemma ScanIsMinimum(m: MathLib, cs: seq<Car>, i: nat, dt: real)
    requires i < |cs| && cs[i].box.Some?
    ensures var r := BestScaleOf(m, cs, i, dt);
      && 0.0 <= r.0 <= 1.0
      && (r.0 < 1.0 <==> r.1.Some?)
      && forall k :: 0 <= k < |cs| && Counted(m, cs, i, k) ==>
           r.0 <= (if Overlaps(m, cs[i].box, cs[k].box) then 0.0 else ScaleOf(m, MoverOf(cs[i]), MoverOf(cs[k]), dt))
  {
    var vs := Verdicts(m, cs, i, dt);
    ScanBounds(vs, 0, 1.0, None);
    forall k | 0 <= k < |cs| && Counted(m, cs, i, k)
      ensures BestScaleOf(m, cs, i, dt).0 <=
        (if Overlaps(m, cs[i].box, cs[k].box) then 0.0 else ScaleOf(m, MoverOf(cs[i]), MoverOf(cs[k]), dt))
    {
      ScanBelowNeighbour(vs, 0, 1.0, None, k);
    }
  }

  /** Whether the centres are near, computed. */
  method IsNear(m: MathLib, a: Car, b: Car) returns (r: bool)
    requires a.box.Some? && b.box.Some?
    ensures r == Near(m, a, b)
  {
    var d := Sub(b.box.value.center, a.box.value.center);
    r := Sq(d.x) + Sq(d.y) <= Sq(Diag(m, a) + Diag(m, b) + 80.0);
  }

  /** One step of the inner loop: the verdict on vehicle `j`, computed. */
  method NeighbourVerdict(m: MathLib, cs: seq<Car>, i: nat, j: nat, dt: real) returns (v: Verdict)
    requires i < |cs| && j < |cs| && cs[i].box.Some?
    ensures v == VerdictOf(m, cs, i, j, dt)
  {
    if j == i || cs[j].box.None? {
      return Skip;
    }
    var near := IsNear(m, cs[i], cs[j]);
    if !near {
      return Skip;
    }
    var overlap := ObbOverlapSAT(m, cs[i].box, cs[j].box);
    if overlap {
      return Blocked(cs[j].id);
    }
    var s := MaxNonOverlapScale(m, MoverOf(cs[i]), MoverOf(cs[j]), dt);
    return Scaled(s, cs[j].id);
  }

  /** The inner loop of the overlap pass: the best scale for vehicle `i` and the id of the vehicle
      that set it. */
  method BestScale(m: MathLib, cs: seq<Car>, i: nat, dt: real) returns (best: real, cand: Option<string>)
    requires i < |cs| && cs[i].box.Some?
    ensures (best, cand) == BestScaleOf(m, cs, i, dt)
  {
    best, cand := 1.0, None;
    ghost var vs := Verdicts(m, cs, i, dt);
    ghost var target := ScanFrom(vs, 0, 1.0, None);
    var j := 0;
    while j < |cs|
      invariant j <= |cs|
      invariant ScanFrom(vs, j, best, cand) == target
    {
      var v := NeighbourVerdict(m, cs, i, j, dt);
      assert vs[j] == v;
      match v {
        case Skip =>
        case Blocked(id) =>
          best, cand := 0.0, Some(id);
          break;
        case Scaled(s, id) =>
          if s < best {
            best, cand := s, Some(id);
            if best <= 0.0 {
              break;
            }
          }
      }
      j := j + 1;
    }
  }

  // ---------- the speed cap ----------

  /** The speed the cap starts from: `_idm.cappedSpeed`, else `maxSpeed`, else `speed` (None when
      none of them is a number). */
  function Intended(c: Car): Option<real> {
    if c.idm.prov.Some? then Some(c.idm.prov.value.cappedSpeed)
    else if c.maxSpeed.Some? then c.maxSpeed
    else c.speed
  }

  /** The capped speed `max(0, min(max(0, intended·s), max(0, (speed || 0)·s)))`; None stands for
      the NaN of a missing intended speed. */
  function CapSpeed(s: real, intended: Option<real>, speed: Option<real>): (r: Option<real>)
    ensures r.Some? <==> intended.Some?
    ensures r.Some? ==> r.value >= 0.0
    ensures r.Some? ==> r.value <= Max(0.0, Part(intended.value, s)) && r.value <= Max(0.0, Part(speed.GetOr(0.0), s))
    ensures r.Some? ==> r.value == Max(0.0, Part(intended.value, s)) || r.value == Max(0.0, Part(speed.GetOr(0.0), s))
  {
    if intended.None? then None
    else Some(Max(0.0, Min(Max(0.0, Part(intended.value, s)), Max(0.0, Part(speed.GetOr(0.0), s)))))
  }

  /** A scale below 1 never raises a non-negative speed. */
  lemma CapNeverSpeedsUp(s: real, intended: Option<real>, speed: real)
    requires 0.0 <= s < 1.0 && speed >= 0.0 && intended.Some?
    ensures 0.0 <= CapSpeed(s, intended, Some(speed)).value <= speed
  {
    MulMonotone(s, 1.0, speed);
    assert Part(speed, s) == s * speed;
  }

  /** One vehicle's turn in the overlap pass over the current vehicles `cs`. */
  function OverlapOne(m: MathLib, cs: seq<Car>, i: nat, now: real, dt: real): (r: Car)
    requires i < |cs|
  {
    var v := cs[i];
    if InGrace(v.createdAt, now) then v.(idm := v.idm.(overlap := OverlapInfo(1.0, None, v.speed)))
    else if v.box.None? then v.(idm := v.idm.(overlap := v.idm.overlap.(scale := 1.0, candidate := None)))
    else
      var sc := BestScaleOf(m, cs, i, dt);
      if sc.0 < 1.0 then
        var ns := CapSpeed(sc.0, Intended(v), v.speed);
        v.(speed := ns, idm := v.idm.(overlap := OverlapInfo(sc.0, sc.1, ns)))
      else v.(idm := v.idm.(overlap := OverlapInfo(1.0, None, v.speed)))
  }

  /** The overlap pass never raises a numeric, non-negative speed or makes it negative, keeps the
      speed when nothing blocks, and records a scale in [0, 1]. */
  lemma OverlapNeverSpeedsUp(m: MathLib, cs: seq<Car>, i: nat, now: real, dt: real)
    requires i < |cs|
    ensures var r := OverlapOne(m, cs, i, now, dt);
      && 0.0 <= r.idm.overlap.scale <= 1.0
      && (r.idm.overlap.scale == 1.0 ==> r.speed == cs[i].speed)
      && (cs[i].speed.Some? && cs[i].speed.value >= 0.0 ==>
            r.speed.Some? && 0.0 <= r.speed.value <= cs[i].speed.value)
      && r == cs[i].(speed := r.speed, idm := cs[i].idm.(overlap := r.idm.overlap))
  {
    var v := cs[i];
    if !InGrace(v.createdAt, now) && v.box.Some? {
      var sc := BestScaleOf(m, cs, i, dt);
      ScanIsMinimum(m, cs, i, dt);
      if sc.0 < 1.0 && v.speed.Some? && v.speed.value >= 0.0 {
        assert Intended(v).Some?;
        CapNeverSpeedsUp(sc.0, Intended(v), v.speed.value);
      }
    }
  }

  /** Vehicle `i` of the overlap pass, computed. */
  method OverlapStep(m: MathLib, cs: seq<Car>, i: nat, now: real, dt: real) returns (r: Car)
    requires i < |cs|
    ensures r == OverlapOne(m, cs, i, now, dt)
  {
    var v := cs[i];
    if InGrace(v.createdAt, now) {
      return v.(idm := v.idm.(overlap := OverlapInfo(1.0, None, v.speed)));
    }
    if v.box.None? {
      return v.(idm := v.idm.(overlap := v.idm.overlap.(scale := 1.0, candidate := None)));
    }
    var best, cand := BestScale(m, cs, i, dt);
    if best < 1.0 {
      var ns := CapSpeed(best, Intended(v), v.speed);
      r := v.(speed := ns, idm := v.idm.(overlap := OverlapInfo(best, cand, ns)));
    } else {
      r := v.(idm := v.idm.(overlap := OverlapInfo(1.0, None, v.speed)));
    }
  }

  /** The first `n` turns of the overlap pass; each sees the speeds earlier turns have set. */
  function OverlapUpTo(m: MathLib, cs: seq<Car>, n: nat, now: real, dt: real): (r: seq<Car>)
    requires n <= |cs|
    ensures |r| == |cs|
  {
    if n == 0 then cs
    else
      var p := OverlapUpTo(m, cs, n - 1, now, dt);
      p[n - 1 := OverlapOne(m, p, n - 1, now, dt)]
  }

  /** After the overlap pass no numeric, non-negative speed has grown. */
  lemma {:induction false} OverlapPassNeverSpeedsUp(m: MathLib, cs: seq<Car>, n: nat, now: real, dt: real)
    requires n <= |cs|
    ensures var r := OverlapUpTo(m, cs, n, now, dt);
      forall k :: 0 <= k < |cs| && cs[k].speed.Some? && cs[k].speed.value >= 0.0 ==>
        r[k].speed.Some? && 0.0 <= r[k].speed.value <= cs[k].speed.value
  {
    if n > 0 {
      OverlapPassNeverSpeedsUp(m, cs, n - 1, now, dt);
      var p := OverlapUpTo(m, cs, n - 1, now, dt);
      OverlapNeverSpeedsUp(m, p, n - 1, now, dt);
    }
  }

  /** The overlap pass `for (let i = 0; i < all.length; i++)`, in place. */
  method OverlapPass(m: MathLib, cars: array<Car>, now: real, dt: real)
    modifies cars
    ensures cars[..] == OverlapUpTo(m, old(cars[..]), cars.Length, now, dt)
  {
    ghost var cs := cars[..];
    for i := 0 to cars.Length
      invariant cars[..] == OverlapUpTo(m, cs, i, now, dt)
    {
      var r := OverlapStep(m, cars[..], i, now, dt);
      cars[i] := r;
    }
  }

  // ---------- the frame ----------

  /** `updateAntrian` on the vehicles `cs`: nothing without vehicles or for a frame of no
      positive length, and otherwise the prepare loop, the IDM pass over the lanes, the
      traffic-light pass and the overlap pass in turn. */
  function AntrianFrame(m: MathLib, cs: seq<Car>, lanes: seq<seq<nat>>, gapOf: (Car, Car) -> Option<real>,
                        entry: Option<map<string, Vec>>, status: Option<map<Arm, Lampu.Color>>,
                        timeLeft: map<string, real>, draws: seq<real>, now: real, dt: real): (r: seq<Car>)
    requires RootPositive(m) && LanesIn(lanes, |cs|)
    requires |draws| == |cs| && forall k :: 0 <= k < |draws| ==> 0.0 <= draws[k] < 1.0
    ensures |r| == |cs|
  {
    if |cs| == 0 || dt <= 0.0 then cs
    else
      var prepared := PrepareAll(cs, draws);
      var provisional := ProvisionLanes(m, prepared, lanes, |lanes|, gapOf, dt);
      var lit := TlPass(m, provisional, status, entry, timeLeft, now, dt);
      OverlapUpTo(m, lit, |lit|, now, dt)
  }

  /** `updateAntrian`, in place on the vehicles array. */
  method UpdateAntrian(m: MathLib, cars: array<Car>, lanes: seq<seq<nat>>, gapOf: (Car, Car) -> Option<real>,
                       entry: Option<map<string, Vec>>, status: Option<map<Arm, Lampu.Color>>,
                       timeLeft: map<string, real>, draws: seq<real>, now: real, dt: real)
    requires RootPositive(m) && LanesIn(lanes, cars.Length)
    requires |draws| == cars.Length && forall k :: 0 <= k < |draws| ==> 0.0 <= draws[k] < 1.0
    modifies cars
    ensures cars[..] == AntrianFrame(m, old(cars[..]), lanes, gapOf, entry, status, timeLeft, draws, now, dt)
  {
    if cars.Length == 0 || dt <= 0.0 {
      return;
    }
    PrepareVehicles(cars, draws);
    ProvisionalSpeeds(m, cars, lanes, gapOf, dt);
    EnforceTrafficLights(m, cars, status, entry, timeLeft, now, dt);
    OverlapPass(m, cars, now, dt);
  }

  // ---------- stopped vehicles ----------

  /** The counter starts at 0 for the four arms. */
  const ArmCounts: map<string, Option<nat>> :=
    map["utara" := Some(0), "timur" := Some(0), "selatan" := Some(0), "barat" := Some(0)]

  /** A vehicle with a direction and a numeric speed below the threshold. */
  predicate IsStopped(c: Car, threshold: real) {
    c.direction != "" && c.speed.Some? && c.speed.value < threshold
  }

  /** `counts[direction]++`; a direction without a counter gets NaN (None), and NaN stays NaN. */
  function Bump(counts: map<string, Option<nat>>, d: string): (r: map<string, Option<nat>>)
    ensures r.Keys == counts.Keys + {d}
    ensures forall k :: k in counts && k != d ==> r[k] == counts[k]
  {
    if d in counts then (if counts[d].Some? then counts[d := Some(counts[d].value + 1)] else counts)
    else counts[d := None]
  }

  /** The counts after the vehicles `cs`. */
  function StoppedCounts(cs: seq<Car>, threshold: real): map<string, Option<nat>> {
    if cs == [] then ArmCounts
    else
      var p := StoppedCounts(cs[..|cs| - 1], threshold);
      if IsStopped(cs[|cs| - 1], threshold) then Bump(p, cs[|cs| - 1].direction) else p
  }

  /** The number of stopped vehicles of direction `d`. */
  function NumStopped(cs: seq<Car>, d: string, threshold: real): nat {
    if cs == [] then 0
    else NumStopped(cs[..|cs| - 1], d, threshold)
         + (if IsStopped(cs[|cs| - 1], threshold) && cs[|cs| - 1].direction == d then 1 else 0)
  }

  /** Every arm's count is the number of its stopped vehicles; any other key holds NaN. */
  lemma {:induction false} CountsPerArm(cs: seq<Car>, threshold: real)
    ensures ArmCounts.Keys <= StoppedCounts(cs, threshold).Keys
    ensures forall a: Arm :: StoppedCounts(cs, threshold)[ArmName(a)] == Some(NumStopped(cs, ArmName(a), threshold))
    ensures forall d :: d in StoppedCounts(cs, threshold) && d !in ArmCounts ==> StoppedCounts(cs, threshold)[d] == None
  {
    if cs != [] {
      CountsPerArm(cs[..|cs| - 1], threshold);
    }
  }

  /** A direction is counted exactly when it is an arm or some vehicle of it is stopped. */
  lemma {:induction false} CountedDirections(cs: seq<Car>, threshold: real, d: string)
    ensures d in StoppedCounts(cs, threshold) <==>
      d in ArmCounts || exists k :: 0 <= k < |cs| && IsStopped(cs[k], threshold) && cs[k].direction == d
  {
    if cs != [] {
      var init := cs[..|cs| - 1];
      CountedDirections(init, threshold, d);
      if exists k :: 0 <= k < |init| && IsStopped(init[k], threshold) && init[k].direction == d {
        var k :| 0 <= k < |init| && IsStopped(init[k], threshold) && init[k].direction == d;
        assert cs[k] == init[k];
      }
      if exists k :: 0 <= k < |cs| && IsStopped(cs[k], threshold) && cs[k].direction == d {
        var k :| 0 <= k < |cs| && IsStopped(cs[k], threshold) && cs[k].direction == d;
        if k < |init| {
          assert init[k] == cs[k];
        }
      }
    }
  }

  /** `countStoppedVehicles(vehicles, threshold)` (threshold 0.001 by default). */
  method CountStoppedVehicles(cars: seq<Car>, threshold: real) returns (counts: map<string, Option<nat>>)
    ensures counts == StoppedCounts(cars, threshold)
  {
    counts := ArmCounts;
    if |cars| == 0 {
      return;
    }
    for i := 0 to |cars|
      invariant counts == StoppedCounts(cars[..i], threshold)
    {
      assert cars[..i + 1][..i] == cars[..i];
      if IsStopped(cars[i], threshold) {
        counts := Bump(counts, cars[i].direction);
      }
    }
    assert cars[..|cars|] == cars;
  }

  const DefaultStoppedThreshold: real := 0.001
}
