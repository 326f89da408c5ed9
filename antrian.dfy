/** The vehicle record and the car-following step of js/vehicles/antrian.js: the constants, the
    unit conversions, the vehicle length, the missing-speed fallback and the provisional speeds of
    the Intelligent Driver Model (IDM) pass over the lanes. */
module Antrian {
  import opened Wrappers
  import opened Numeric
  import opened Geometry
  import opened AntrianGeom
  import Vehicles

  // ---------- constants ----------

  const PxPerM: real := 10.0
  const DefaultVehicleLengthM: real := 4.5
  const DefaultMinGapM: real := 2.0
  const LaserSafeStopPx: real := 15.0
  const SpawnGraceMs: real := 3500.0

  /** IDM_PARAMS: maximum acceleration `a` and comfortable braking `b` (px/ms²), time headway
      `T_s` (s) and the minimum gap `s0_m` (m). The exponent `delta` is 4. */
  const IdmA: real := 0.00018
  const IdmB: real := 0.00035
  const IdmTs: real := 1.2
  const IdmS0M: real := DefaultMinGapM

  const SafetyBufferM: real := 0.3
  const SafetyBufferPx: real := SafetyBufferM * PxPerM
  const StopLookaheadM: real := 10.0
  const StopLookaheadPx: real := StopLookaheadM * PxPerM
  const TlComfortDecel: real := 0.0006
  const TlRampExp: real := 1.6
  const YellowCommitDistanceM: real := 4.0
  const YellowCommitDistancePx: real := YellowCommitDistanceM * PxPerM
  const YellowTimeMarginMs: real := 300.0
  const YellowMinSpeedForTimeCheck: real := 0.00005

  /** The acceleration clamp `[-6b, 4a]`, the margin over the desired speed, the smallest provisional
      speed and the gap assumed without a leader. */
  const MaxAcc: real := IdmA * 4.0
  const MaxDec: real := -IdmB * 6.0
  const SpeedMargin: real := 0.0005
  const EpsMinSpeed: real := 0.00000001
  const FarGap: real := 1000000000.0

  // ---------- units ----------

  /** `kmhToPxPerMs`: km/h to pixels per millisecond at 10 px per metre. */
  function KmhToPxPerMs(kmh: real): (r: real)
    ensures r * 360.0 == kmh
  {
    (((kmh * 1000.0) / 3600.0) * PxPerM) / 1000.0
  }

  /** The same speed as `kmhToMs` of js/vehicle.js, in pixels per millisecond. */
  lemma PxPerMsFromMetresPerSecond(kmh: real)
    ensures KmhToPxPerMs(kmh) == Vehicles.KmhToMs(kmh) * PxPerM / 1000.0
  {
  }

  // ---------- the vehicle ----------

  /** The causes `_idm.trafficLight.reason` records. */
  datatype Reason =
    | AlreadyPastEntry | CommittedOnYellow | YellowCommitClose | YellowCommitTime
    | StopOnYellow | RedStop | Green | OutOfLookahead

  /** `_idm.trafficLight`: the yellow commitment, whether the front has passed the entry, whether
      the light is enforced and why, whether the vehicle was skipped in its spawn grace period, and
      the speed the light allowed. */
  datatype TlState = TlState(
    committedOnYellow: bool, passedEntry: bool, enforced: Option<bool>, reason: Option<Reason>,
    skipped: bool, allowed: Option<real>)

  /** The leader as the IDM step records it: its id and its speed (None when not a number). */
  datatype Leader = Leader(id: string, speed: Option<real>)

  /** The `_idm` fields of the provisional pass. */
  datatype IdmOut = IdmOut(
    acc: real, gap: real, sStar: real, v: real, v0: real, deltaV: real,
    leader: Option<Leader>, leaderMove: real, maxMoveAllowed: real, maxAllowedSpeed: real,
    cappedSpeed: real, finalAllowedSpeed: real)

  /** `_idm.overlapScale`, `_idm.overlapCandidateId` and `_idm.overlapAllowedSpeed`. */
  datatype OverlapInfo = OverlapInfo(scale: real, candidate: Option<string>, allowedSpeed: Option<real>)

  /** A vehicle's `_idm` object. Its fields persist from frame to frame; `prov` is None until the
      vehicle has been through an IDM step. */
  datatype Idm = Idm(prov: Option<IdmOut>, tl: TlState, overlap: OverlapInfo)

  /** The fields of a vehicle object the speed limiter reads or writes. A number field that is
      absent or not a number is None; `direction` is "" when missing, and `vx`/`vy` already hold
      `vx || 0` and `vy || 0`. `front`/`rear`/`pos` are the numeric `frontX`/`frontY`,
      `rearX`/`rearY` and `x`/`y` pairs. */
  datatype Car = Car(
    id: string, vtype: string,
    lengthPx: Option<real>, lengthM: Option<real>, length: Option<real>, widthPx: Option<real>,
    speed: Option<real>, desiredSpeed: Option<real>, maxSpeed: Option<real>,
    box: Option<Box>, front: Option<Vec>, rear: Option<Vec>, pos: Option<Vec>,
    vx: real, vy: real,
    direction: string, laneIndex: Option<nat>, createdAt: Option<real>,
    idm: Idm)

  /** `vehicleLengthPx`: the first numeric one of `lengthPx`, `length_m`·10 and `length`·10,
      else 2 m for a motorcycle, 12 m for a truck and 4.5 m for anything else. */
  function VehicleLengthPx(c: Car): (r: real)
    ensures c.lengthPx.Some? ==> r == c.lengthPx.value
    ensures c.lengthPx.None? && c.lengthM.Some? ==> r == c.lengthM.value * PxPerM
    ensures c.lengthPx.None? && c.lengthM.None? && c.length.Some? ==> r == c.length.value * PxPerM
  {
    if c.lengthPx.Some? then c.lengthPx.value
    else if c.lengthM.Some? then c.lengthM.value * PxPerM
    else if c.length.Some? then c.length.value * PxPerM
    else if c.vtype == "motor" then 2.0 * PxPerM
    else if c.vtype == "truk" then 12.0 * PxPerM
    else DefaultVehicleLengthM * PxPerM
  }

  /** Without a numeric length the type decides, and every length is positive when the numeric
      ones are. */
  lemma LengthByType(c: Car)
    ensures c.lengthPx.None? && c.lengthM.None? && c.length.None? ==>
      VehicleLengthPx(c) == (if c.vtype == "motor" then 20.0 else if c.vtype == "truk" then 120.0 else 45.0)
    ensures ((c.lengthPx.None? || c.lengthPx.value > 0.0) && (c.lengthM.None? || c.lengthM.value > 0.0)
             && (c.length.None? || c.length.value > 0.0)) ==> VehicleLengthPx(c) > 0.0
  {
  }

  // ---------- the missing-speed fallback ----------

  /** The km/h range `fallbackSetDesiredSpeedIfMissing` draws a maximum speed from. */
  function FallbackRangeKmh(vtype: string): (r: (real, real))
    ensures 0.0 < r.0 <= r.1
  {
    if vtype == "motor" then (25.0, 35.0)
    else if vtype == "truk" then (15.0, 20.0)
    else (20.0, 30.0)
  }

  /** `fallbackSetDesiredSpeedIfMissing` for a draw `u` of Math.random: a vehicle without a truthy
      `maxSpeed` gets one drawn from its type's range, and then a speed of 0 if it had none. */
  function Prepare(c: Car, u: real): (r: Car)
    requires 0.0 <= u < 1.0
    ensures c.maxSpeed.Some? && c.maxSpeed.value != 0.0 ==> r == c
    ensures !(c.maxSpeed.Some? && c.maxSpeed.value != 0.0) ==>
      var range := FallbackRangeKmh(c.vtype);
      && r.maxSpeed.Some?
      && KmhToPxPerMs(range.0) <= r.maxSpeed.value <= KmhToPxPerMs(range.1)
      && r.speed == (if c.speed.None? then Some(0.0) else c.speed)
      && r == c.(maxSpeed := r.maxSpeed, speed := r.speed)
  {
    if c.maxSpeed.Some? && c.maxSpeed.value != 0.0 then c
    else
      var range := FallbackRangeKmh(c.vtype);
      var kmh := Vehicles.RandBetween(u, range.0, range.1);
      c.(maxSpeed := Some(KmhToPxPerMs(kmh)), speed := if c.speed.None? then Some(0.0) else c.speed)
  }

  /** A prepared vehicle that had no maximum speed has a positive one. */
  lemma PreparedMaxSpeedPositive(c: Car, u: real)
    requires 0.0 <= u < 1.0
    requires c.maxSpeed.None? || c.maxSpeed.value == 0.0
    ensures Prepare(c, u).maxSpeed.Some? && Prepare(c, u).maxSpeed.value > 0.0
    ensures Prepare(c, u).speed.Some?
  {
    var range := FallbackRangeKmh(c.vtype);
    assert KmhToPxPerMs(range.0) > 0.0;
  }

  /** The prepare loop's effect on every vehicle, one draw each. */
  function PrepareAll(cs: seq<Car>, draws: seq<real>): (r: seq<Car>)
    requires |draws| == |cs|
    requires forall k :: 0 <= k < |draws| ==> 0.0 <= draws[k] < 1.0
    ensures |r| == |cs|
    ensures forall k :: 0 <= k < |cs| ==> r[k] == Prepare(cs[k], draws[k])
  {
    seq(|cs|, k requires 0 <= k < |cs| => Prepare(cs[k], draws[k]))
  }

  /** The prepare loop of `updateAntrian`, in place. */
  method PrepareVehicles(cars: array<Car>, draws: seq<real>)
    requires |draws| == cars.Length
    requires forall k :: 0 <= k < |draws| ==> 0.0 <= draws[k] < 1.0
    modifies cars
    ensures cars[..] == PrepareAll(old(cars[..]), draws)
  {
    ghost var cs := cars[..];
    for i := 0 to cars.Length
      invariant forall k :: 0 <= k < i ==> cars[k] == Prepare(cs[k], draws[k])
      invariant forall k :: i <= k < cars.Length ==> cars[k] == cs[k]
    {
      cars[i] := Prepare(cars[i], draws[i]);
    }
  }

  // ---------- the IDM step ----------

  /** The square root in the interaction term, `sqrt(max(1e-12, a·b))`, is not zero (the
      oracle's value of a positive root). */
  predicate RootPositive(m: MathLib) {
    m.sqrt(Max(0.000000000001, IdmA * IdmB)) > 0.0
  }

  /** The desired gap `s*` = s0 + v·T + v·Δv / (2·sqrt(a·b)). */
  function DesiredGap(m: MathLib, currentV: real, deltaV: real): real
    requires RootPositive(m)
  {
    var root := m.sqrt(Max(0.000000000001, IdmA * IdmB));
    IdmS0M * PxPerM + Part(currentV, IdmTs * 1000.0) + Part(currentV, deltaV) / (2.0 * root)
  }

  /** The unclamped IDM acceleration a·(1 − (v/v0)^4 − (s* / gap)^2), each ratio at least 1e-8 and the
      gap at least 1. */
  function RawAcceleration(m: MathLib, currentV: real, v0: real, sStar: real, gap: real): real {
    var safeGap := Max(1.0, gap);
    var freeTerm := 1.0 - m.pow(Max(0.00000001, currentV / Max(v0, 0.00000001)), 4.0);
    var interactionTerm := m.pow(Max(0.00000001, sStar / safeGap), 2.0);
    IdmA * (freeTerm - interactionTerm)
  }

  /** The acceleration clamp: `if (acc > MAX_ACC) acc = MAX_ACC; if (acc < MAX_DEC) acc = MAX_DEC`. */
  function ClampAcceleration(acc: real): (r: real)
    ensures MaxDec <= r <= MaxAcc
    ensures MaxDec <= acc <= MaxAcc ==> r == acc
  {
    if acc > MaxAcc then MaxAcc else if acc < MaxDec then MaxDec else acc
  }

  /** The new speed after one frame of acceleration, not below 0, capped at the desired speed plus
      the margin. */
  function CappedSpeed(currentV: real, acc: real, v0: real, dt: real): (r: real)
    ensures r <= v0 + SpeedMargin
    ensures v0 + SpeedMargin >= 0.0 ==> r >= 0.0
  {
    Min(Max(0.0, currentV + Part(acc, dt)), v0 + SpeedMargin)
  }

  /** The longest move the gap allows in the frame: the gap plus the leader's move less the safety
      buffer, at least 0, and 0 with no gap. */
  function MaxMoveAllowed(gap: real, leaderMove: real): (r: real)
    ensures r >= 0.0 && (gap <= 0.0 ==> r == 0.0)
    ensures gap > 0.0 ==> r >= gap + leaderMove - SafetyBufferPx
  {
    if gap <= 0.0 then 0.0 else Max(0.0, gap + leaderMove - SafetyBufferPx)
  }

  /** A distance per frame as a speed: `d / dt`. */
  function PerFrame(d: real, dt: real): (r: real)
    requires dt > 0.0
    ensures Part(r, dt) == d
    ensures d >= 0.0 ==> r >= 0.0
  {
    d / dt
  }

  /** The provisional speed: 0 within half the safety buffer, and otherwise the smaller of the
      capped and the gap-allowed speeds, at least 1e-8. */
  function FinalAllowedSpeed(gap: real, capped: real, maxAllowed: real): (r: real)
    ensures gap <= SafetyBufferPx * 0.5 ==> r == 0.0
    ensures gap > SafetyBufferPx * 0.5 ==> EpsMinSpeed <= r <= Max(EpsMinSpeed, Min(capped, maxAllowed))
  {
    if gap <= SafetyBufferPx * 0.5 then 0.0
    else Max(0.0, Max(EpsMinSpeed, Min(capped, maxAllowed)))
  }

  /** The IDM block for one vehicle: its speed `currentV` (0 when not a number), desired speed
      `v0`, leader and gap to the leader. */
  function IdmStep(m: MathLib, currentV: real, v0: real, leader: Option<Leader>, gap: real, dt: real): (o: IdmOut)
    requires RootPositive(m) && dt > 0.0
    ensures MaxDec <= o.acc <= MaxAcc
    ensures o.cappedSpeed <= v0 + SpeedMargin
    ensures v0 + SpeedMargin >= 0.0 ==> o.cappedSpeed >= 0.0
    ensures o.maxMoveAllowed >= 0.0 && (gap <= 0.0 ==> o.maxMoveAllowed == 0.0)
    ensures Part(o.maxAllowedSpeed, dt) == o.maxMoveAllowed
    ensures gap <= SafetyBufferPx * 0.5 ==> o.finalAllowedSpeed == 0.0
    ensures gap > SafetyBufferPx * 0.5 ==>
      EpsMinSpeed <= o.finalAllowedSpeed <= Max(EpsMinSpeed, Min(o.cappedSpeed, o.maxAllowedSpeed))
    ensures o.v == currentV && o.v0 == v0 && o.gap == gap && o.leader == leader
  {
    var leaderSpeed := if leader.Some? && leader.value.speed.Some? then Some(leader.value.speed.value) else None;
    var deltaV := currentV - leaderSpeed.GetOr(currentV);
    var sStar := DesiredGap(m, currentV, deltaV);
    var acc := ClampAcceleration(RawAcceleration(m, currentV, v0, sStar, gap));
    var cappedSpeed := CappedSpeed(currentV, acc, v0, dt);
    var leaderMove := if leaderSpeed.Some? then Part(leaderSpeed.value, dt) else 0.0;
    var maxMove := MaxMoveAllowed(gap, leaderMove);
    var maxAllowed := PerFrame(maxMove, dt);
    var final := FinalAllowedSpeed(gap, cappedSpeed, maxAllowed);
    IdmOut(acc, gap, sStar, currentV, v0, deltaV, leader, leaderMove, maxMove, maxAllowed, cappedSpeed, final)
  }

  /** A speed in [0, max(1e-8, a)] for a speed `a` that covers `move` in a frame covers at most
      max(move, 1e-8·dt). */
  lemma MoveWithinBound(f: real, a: real, move: real, dt: real)
    requires dt > 0.0 && Part(a, dt) == move
    requires 0.0 <= f <= Max(EpsMinSpeed, a)
    ensures 0.0 <= f * dt <= Max(move, EpsMinSpeed * dt)
  {
    MulMonotone(0.0, f, dt);
    MulMonotone(f, Max(EpsMinSpeed, a), dt);
  }

  /** In one frame at the provisional speed a vehicle moves no further than its gap plus the
      leader's move less the safety buffer, unless it crawls at the smallest speed 1e-8. */
  lemma IdmRespectsGap(m: MathLib, currentV: real, v0: real, leader: Option<Leader>, gap: real, dt: real)
    requires RootPositive(m) && dt > 0.0
    ensures var o := IdmStep(m, currentV, v0, leader, gap, dt);
      0.0 <= o.finalAllowedSpeed * dt <= Max(o.maxMoveAllowed, EpsMinSpeed * dt)
  {
    var o := IdmStep(m, currentV, v0, leader, gap, dt);
    OutWithinBound(o, gap, dt);
  }

  /** The bound of `IdmRespectsGap` for any output with the speed facts `IdmStep` ensures. */
  lemma OutWithinBound(o: IdmOut, gap: real, dt: real)
    requires dt > 0.0 && Part(o.maxAllowedSpeed, dt) == o.maxMoveAllowed
    requires gap <= SafetyBufferPx * 0.5 ==> o.finalAllowedSpeed == 0.0
    requires gap > SafetyBufferPx * 0.5 ==>
      EpsMinSpeed <= o.finalAllowedSpeed <= Max(EpsMinSpeed, Min(o.cappedSpeed, o.maxAllowedSpeed))
    ensures 0.0 <= o.finalAllowedSpeed * dt <= Max(o.maxMoveAllowed, EpsMinSpeed * dt)
  {
    MoveWithinBound(o.finalAllowedSpeed, o.maxAllowedSpeed, o.maxMoveAllowed, dt);
  }

  /** The desired speed `v0` of the IDM block: `desiredSpeed`, else `maxSpeed`, else the current
      speed (at least 1e-6). */
  function DesiredSpeed(c: Car, currentV: real): (v0: real)
    ensures c.desiredSpeed.Some? ==> v0 == c.desiredSpeed.value
    ensures c.desiredSpeed.None? && c.maxSpeed.Some? ==> v0 == c.maxSpeed.value
    ensures c.desiredSpeed.None? && c.maxSpeed.None? ==> v0 >= currentV && v0 > 0.0
  {
    if c.desiredSpeed.Some? then c.desiredSpeed.value
    else if c.maxSpeed.Some? then c.maxSpeed.value
    else Max(currentV, 0.000001)
  }

  /** The gap to the leader as `computeLongitudinalGapUsingSamples` measures it, given as `gapOf`
      (None for a value that is not finite). */
  function GapTo(gapOf: (Car, Car) -> Option<real>, c: Car, leader: Option<Car>): (g: real)
    ensures leader.None? ==> g == FarGap
  {
    if leader.None? then FarGap else gapOf(c, leader.value).GetOr(FarGap)
  }

  /** One vehicle's IDM step: its provisional speed becomes its speed and the step's values are
      kept in `_idm`. */
  function ApplyIdm(m: MathLib, c: Car, leader: Option<Car>, gapOf: (Car, Car) -> Option<real>, dt: real): (r: Car)
    requires RootPositive(m) && dt > 0.0
    ensures Provisioned(r)
    ensures r == c.(speed := r.speed, idm := c.idm.(prov := r.idm.prov))
    ensures r.idm.prov.value.v == c.speed.GetOr(0.0)
    ensures r.idm.prov.value.leader == (if leader.Some? then Some(Leader(leader.value.id, leader.value.speed)) else None)
  {
    var currentV := c.speed.GetOr(0.0);
    var l := if leader.Some? then Some(Leader(leader.value.id, leader.value.speed)) else None;
    var o := IdmStep(m, currentV, DesiredSpeed(c, currentV), l, GapTo(gapOf, c, leader), dt);
    c.(speed := Some(o.finalAllowedSpeed), idm := c.idm.(prov := Some(o)))
  }

  /** A vehicle the IDM pass has reached: a numeric, non-negative speed equal to its provisional
      speed. */
  predicate Provisioned(c: Car) {
    && c.idm.prov.Some?
    && c.speed == Some(c.idm.prov.value.finalAllowedSpeed)
    && c.idm.prov.value.finalAllowedSpeed >= 0.0
  }

  /** The lane lists: indices into the vehicles array, each list ordered front to back. */
  predicate LanesIn(lanes: seq<seq<nat>>, n: nat) {
    forall k, i :: 0 <= k < |lanes| && 0 <= i < |lanes[k]| ==> lanes[k][i] < n
  }

  /** The first `n` vehicles of one lane after the IDM pass, each following the vehicle ahead of it
      as that vehicle was just updated. */
  function ProvisionLane(m: MathLib, cs: seq<Car>, lane: seq<nat>, n: nat, gapOf: (Car, Car) -> Option<real>, dt: real): (r: seq<Car>)
    requires RootPositive(m) && dt > 0.0
    requires n <= |lane| && forall i :: 0 <= i < |lane| ==> lane[i] < |cs|
    ensures |r| == |cs|
  {
    if n == 0 then cs
    else
      var p := ProvisionLane(m, cs, lane, n - 1, gapOf, dt);
      var leader := if n - 1 > 0 then Some(p[lane[n - 2]]) else None;
      p[lane[n - 1] := ApplyIdm(m, p[lane[n - 1]], leader, gapOf, dt)]
  }

  /** The IDM pass over the first `n` lanes. */
  function ProvisionLanes(m: MathLib, cs: seq<Car>, lanes: seq<seq<nat>>, n: nat, gapOf: (Car, Car) -> Option<real>, dt: real): (r: seq<Car>)
    requires RootPositive(m) && dt > 0.0
    requires n <= |lanes| && LanesIn(lanes, |cs|)
    ensures |r| == |cs|
  {
    if n == 0 then cs
    else
      var p := ProvisionLanes(m, cs, lanes, n - 1, gapOf, dt);
      ProvisionLane(m, p, lanes[n - 1], |lanes[n - 1]|, gapOf, dt)
  }

  /** Vehicle `j` is none of the first `n` of the lane. */
  predicate OffLane(lane: seq<nat>, n: nat, j: nat)
    requires n <= |lane|
  {
    forall i :: 0 <= i < n ==> lane[i] != j
  }

  /** Vehicle `j` is in none of the first `n` lanes. */
  predicate OffLanes(lanes: seq<seq<nat>>, n: nat, j: nat)
    requires n <= |lanes|
  {
    forall k, i :: 0 <= k < n && 0 <= i < |lanes[k]| ==> lanes[k][i] != j
  }

  /** A lane's pass leaves a vehicle outside the lane unchanged. */
  lemma {:induction false} ProvisionLaneFrame(m: MathLib, cs: seq<Car>, lane: seq<nat>, n: nat, gapOf: (Car, Car) -> Option<real>, dt: real, j: nat)
    requires RootPositive(m) && dt > 0.0
    requires n <= |lane| && forall i :: 0 <= i < |lane| ==> lane[i] < |cs|
    requires j < |cs| && OffLane(lane, n, j)
    ensures ProvisionLane(m, cs, lane, n, gapOf, dt)[j] == cs[j]
  {
    if n > 0 {
      assert lane[n - 1] != j;
      ProvisionLaneFrame(m, cs, lane, n - 1, gapOf, dt, j);
    }
  }

  /** A lane's pass keeps a provisioned vehicle provisioned. */
  lemma {:induction false} ProvisionLaneKeeps(m: MathLib, cs: seq<Car>, lane: seq<nat>, n: nat, gapOf: (Car, Car) -> Option<real>, dt: real, j: nat)
    requires RootPositive(m) && dt > 0.0
    requires n <= |lane| && forall i :: 0 <= i < |lane| ==> lane[i] < |cs|
    requires j < |cs| && Provisioned(cs[j])
    ensures Provisioned(ProvisionLane(m, cs, lane, n, gapOf, dt)[j])
  {
    if n > 0 {
      ProvisionLaneKeeps(m, cs, lane, n - 1, gapOf, dt, j);
    }
  }

  /** A lane's pass provisions each of the first `n` vehicles of the lane. */
  lemma {:induction false} ProvisionLaneReaches(m: MathLib, cs: seq<Car>, lane: seq<nat>, n: nat, gapOf: (Car, Car) -> Option<real>, dt: real, i: nat)
    requires RootPositive(m) && dt > 0.0
    requires n <= |lane| && forall i :: 0 <= i < |lane| ==> lane[i] < |cs|
    requires i < n
    ensures Provisioned(ProvisionLane(m, cs, lane, n, gapOf, dt)[lane[i]])
  {
    if i < n - 1 {
      ProvisionLaneReaches(m, cs, lane, n - 1, gapOf, dt, i);
      var p := ProvisionLane(m, cs, lane, n - 1, gapOf, dt);
      ProvisionLaneKeeps(m, p, lane, n - 1, gapOf, dt, lane[i]);
    }
  }

  /** After a lane's pass every vehicle of the lane is provisioned, one provisioned before stays so,
      and a vehicle outside the lane is unchanged. */
  lemma ProvisionLaneEffect(m: MathLib, cs: seq<Car>, lane: seq<nat>, n: nat, gapOf: (Car, Car) -> Option<real>, dt: real)
    requires RootPositive(m) && dt > 0.0
    requires n <= |lane| && forall i :: 0 <= i < |lane| ==> lane[i] < |cs|
    ensures var r := ProvisionLane(m, cs, lane, n, gapOf, dt);
      && (forall i :: 0 <= i < n ==> Provisioned(r[lane[i]]))
      && (forall j :: 0 <= j < |cs| && Provisioned(cs[j]) ==> Provisioned(r[j]))
      && (forall j :: 0 <= j < |cs| && OffLane(lane, n, j) ==> r[j] == cs[j])
  {
    forall i | 0 <= i < n
      ensures Provisioned(ProvisionLane(m, cs, lane, n, gapOf, dt)[lane[i]])
    {
      ProvisionLaneReaches(m, cs, lane, n, gapOf, dt, i);
    }
    forall j | 0 <= j < |cs| && Provisioned(cs[j])
      ensures Provisioned(ProvisionLane(m, cs, lane, n, gapOf, dt)[j])
    {
      ProvisionLaneKeeps(m, cs, lane, n, gapOf, dt, j);
    }
    forall j | 0 <= j < |cs| && OffLane(lane, n, j)
      ensures ProvisionLane(m, cs, lane, n, gapOf, dt)[j] == cs[j]
    {
      ProvisionLaneFrame(m, cs, lane, n, gapOf, dt, j);
    }
  }

  /** The IDM pass leaves a vehicle in no lane unchanged. */
  lemma {:induction false} ProvisionLanesFrame(m: MathLib, cs: seq<Car>, lanes: seq<seq<nat>>, n: nat, gapOf: (Car, Car) -> Option<real>, dt: real, j: nat)
    requires RootPositive(m) && dt > 0.0
    requires n <= |lanes| && LanesIn(lanes, |cs|)
    requires j < |cs| && OffLanes(lanes, n, j)
    ensures ProvisionLanes(m, cs, lanes, n, gapOf, dt)[j] == cs[j]
  {
    if n > 0 {
      ProvisionLanesFrame(m, cs, lanes, n - 1, gapOf, dt, j);
      var p := ProvisionLanes(m, cs, lanes, n - 1, gapOf, dt);
      var lane := lanes[n - 1];
      assert OffLane(lane, |lane|, j) by {
        forall i | 0 <= i < |lane| ensures lane[i] != j {
          assert lanes[n - 1][i] != j;
        }
      }
      ProvisionLaneFrame(m, p, lane, |lane|, gapOf, dt, j);
    }
  }

  /** The IDM pass provisions vehicle `i` of lane `k`. */
  lemma {:induction false} ProvisionLanesReach(m: MathLib, cs: seq<Car>, lanes: seq<seq<nat>>, n: nat, gapOf: (Car, Car) -> Option<real>, dt: real, k: nat, i: nat)
    requires RootPositive(m) && dt > 0.0
    requires n <= |lanes| && LanesIn(lanes, |cs|)
    requires k < n && i < |lanes[k]|
    ensures Provisioned(ProvisionLanes(m, cs, lanes, n, gapOf, dt)[lanes[k][i]])
  {
    var p := ProvisionLanes(m, cs, lanes, n - 1, gapOf, dt);
    var lane := lanes[n - 1];
    if k < n - 1 {
      ProvisionLanesReach(m, cs, lanes, n - 1, gapOf, dt, k, i);
      ProvisionLaneKeeps(m, p, lane, |lane|, gapOf, dt, lanes[k][i]);
    } else {
      ProvisionLaneReaches(m, p, lane, |lane|, gapOf, dt, i);
    }
  }

  /** After the IDM pass every vehicle of every lane has a numeric, non-negative speed, and a
      vehicle in no lane keeps its state. */
  lemma ProvisionLanesEffect(m: MathLib, cs: seq<Car>, lanes: seq<seq<nat>>, n: nat, gapOf: (Car, Car) -> Option<real>, dt: real)
    requires RootPositive(m) && dt > 0.0
    requires n <= |lanes| && LanesIn(lanes, |cs|)
    ensures var r := ProvisionLanes(m, cs, lanes, n, gapOf, dt);
      && (forall k, i :: 0 <= k < n && 0 <= i < |lanes[k]| ==> Provisioned(r[lanes[k][i]]))
      && (forall j :: 0 <= j < |cs| && OffLanes(lanes, n, j) ==> r[j] == cs[j])
  {
    forall k, i | 0 <= k < n && 0 <= i < |lanes[k]|
      ensures Provisioned(ProvisionLanes(m, cs, lanes, n, gapOf, dt)[lanes[k][i]])
    {
      ProvisionLanesReach(m, cs, lanes, n, gapOf, dt, k, i);
    }
    forall j | 0 <= j < |cs| && OffLanes(lanes, n, j)
      ensures ProvisionLanes(m, cs, lanes, n, gapOf, dt)[j] == cs[j]
    {
      ProvisionLanesFrame(m, cs, lanes, n, gapOf, dt, j);
    }
  }

  /** One lane's IDM loop, `for (let i = 0; i < list.length; i++)`, in place. */
  method ProvisionalLane(m: MathLib, cars: array<Car>, lane: seq<nat>, gapOf: (Car, Car) -> Option<real>, dt: real)
    requires RootPositive(m) && dt > 0.0
    requires forall i :: 0 <= i < |lane| ==> lane[i] < cars.Length
    modifies cars
    ensures cars[..] == ProvisionLane(m, old(cars[..]), lane, |lane|, gapOf, dt)
  {
    ghost var cs := cars[..];
    for i := 0 to |lane|
      invariant cars[..] == ProvisionLane(m, cs, lane, i, gapOf, dt)
    {
      var leader := if i > 0 then Some(cars[lane[i - 1]]) else None;
      cars[lane[i]] := ApplyIdm(m, cars[lane[i]], leader, gapOf, dt);
    }
  }

  /** The IDM pass over all lanes in order, in place. */
  method ProvisionalSpeeds(m: MathLib, cars: array<Car>, lanes: seq<seq<nat>>, gapOf: (Car, Car) -> Option<real>, dt: real)
    requires RootPositive(m) && dt > 0.0
    requires LanesIn(lanes, cars.Length)
    modifies cars
    ensures cars[..] == ProvisionLanes(m, old(cars[..]), lanes, |lanes|, gapOf, dt)
  {
    ghost var cs := cars[..];
    for k := 0 to |lanes|
      invariant cars[..] == ProvisionLanes(m, cs, lanes, k, gapOf, dt)
    {
      ProvisionalLane(m, cars, lanes[k], gapOf, dt);
    }
  }
}
