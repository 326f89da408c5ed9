/** The vehicle rules of js/vehicle.js: the vehicle type table, the maneuvers a lane arrow allows,
    origin and destination of a maneuver, Poisson arrival times drawn from a random stream, the
    weighted type pick and the list of vehicles spawned from the arrivals. */
module Vehicles {
  import opened Wrappers
  import opened Numeric
  import opened Text
  import Routing

  /** An entry of `vehicleTypes`: size in metres and the speed range in km/h. */
  datatype VehicleType = VehicleType(name: string, lengthM: real, widthM: real, speedMinKmh: real, speedMaxKmh: real)

  /** `vehicleTypes[type]`: None for a type the table does not have. */
  function TypeInfo(t: string): (r: Option<VehicleType>)
    ensures r.Some? ==> r.value.name == t && 0.0 < r.value.speedMinKmh <= r.value.speedMaxKmh
  {
    if t == "motor" then Some(VehicleType("motor", 1.75, 0.7, 25.0, 35.0))
    else if t == "mobil" then Some(VehicleType("mobil", 5.8, 2.1, 20.0, 30.0))
    else if t == "truk" then Some(VehicleType("truk", 12.0, 2.5, 15.0, 20.0))
    else None
  }

  /** `kmhToMs`. */
  function KmhToMs(kmh: real): (ms: real)
    ensures ms * 3.6 == kmh
    ensures kmh > 0.0 ==> 0.0 < ms < kmh
  {
    (kmh * 1000.0) / 3600.0
  }

  /** `randBetween(min, max)` for a draw `u` of Math.random. */
  function RandBetween(u: real, min: real, max: real): (r: real)
    requires 0.0 <= u < 1.0 && min <= max
    ensures min <= r <= max
  {
    var span := max - min;
    MulMonotone(0.0, u, span);
    MulMonotone(u, 1.0, span);
    assert 0.0 <= u * span <= span;
    u * span + min
  }

  // ---------- movement rules ----------

  /** The maneuvers a lane arrow allows, in the order left, straight, right. */
  function AllowedMovements(arrowString: string): (r: seq<string>)
    ensures "left" in r <==> Includes(ToUpper(arrowString), "L")
    ensures "straight" in r <==> Includes(ToUpper(arrowString), "S")
    ensures "right" in r <==> Includes(ToUpper(arrowString), "R")
    ensures forall i, j :: 0 <= i < j < |r| ==> r[i] != r[j]
    ensures forall i, j :: 0 <= i < j < |r| ==> MovementRank(r[i]) < MovementRank(r[j])
  {
    var s := ToUpper(arrowString);
    (if Includes(s, "L") then ["left"] else [])
      + (if Includes(s, "S") then ["straight"] else [])
      + (if Includes(s, "R") then ["right"] else [])
  }

  /** The position of a maneuver in the order left, straight, right. */
  function MovementRank(m: string): nat {
    if m == "left" then 0 else if m == "straight" then 1 else 2
  }

  /** `getAllowedMovements`: three checks, each pushing one maneuver. */
  method GetAllowedMovements(arrowString: string) returns (allowed: seq<string>)
    ensures allowed == AllowedMovements(arrowString)
  {
    var s := ToUpper(arrowString);
    allowed := [];
    if Includes(s, "L") {
      allowed := allowed + ["left"];
    }
    if Includes(s, "S") {
      allowed := allowed + ["straight"];
    }
    if Includes(s, "R") {
      allowed := allowed + ["right"];
    }
  }

  /** An entry of the lane configuration. */
  datatype LaneConfig = LaneConfig(laneIndex: int, arrows: string)

  /** `mapLaneToMovements`, written from the last assignment back. */
  function LaneMovements(lanes: seq<LaneConfig>): (r: map<int, seq<string>>)
  {
    if lanes == [] then map[]
    else
      var last := lanes[|lanes| - 1];
      LaneMovements(lanes[..|lanes| - 1])[last.laneIndex := AllowedMovements(last.arrows)]
  }

  /** The map has a key for exactly the lane indices that occur in the configuration. */
  lemma {:induction false} LaneMovementsKeys(lanes: seq<LaneConfig>)
    ensures LaneMovements(lanes).Keys == set i | 0 <= i < |lanes| :: lanes[i].laneIndex
  {
    if lanes != [] {
      var front := lanes[..|lanes| - 1];
      LaneMovementsKeys(front);
      var ks := set i | 0 <= i < |lanes| :: lanes[i].laneIndex;
      var fs := set i | 0 <= i < |front| :: front[i].laneIndex;
      assert forall i :: 0 <= i < |front| ==> front[i] == lanes[i];
      assert ks == fs + {lanes[|lanes| - 1].laneIndex};
    }
  }

  /** A lane index is mapped to the movements of the LAST lane that has it: a later lane with the
      same index overrides an earlier one. */
  lemma {:induction false} LaterLaneOverrides(lanes: seq<LaneConfig>, i: nat)
    requires i < |lanes|
    requires forall j :: i < j < |lanes| ==> lanes[j].laneIndex != lanes[i].laneIndex
    ensures lanes[i].laneIndex in LaneMovements(lanes)
    ensures LaneMovements(lanes)[lanes[i].laneIndex] == AllowedMovements(lanes[i].arrows)
  {
    LaneMovementsKeys(lanes);
    if i < |lanes| - 1 {
      var front := lanes[..|lanes| - 1];
      assert front[i] == lanes[i];
      LaterLaneOverrides(front, i);
    }
  }

  /** The `for (const lane of lanesConfig)` loop. */
  method MapLaneToMovements(lanes: seq<LaneConfig>) returns (m: map<int, seq<string>>)
    ensures m == LaneMovements(lanes)
  {
    m := map[];
    var i := 0;
    while i < |lanes|
      invariant 0 <= i <= |lanes|
      invariant m == LaneMovements(lanes[..i])
    {
      assert lanes[..i + 1][..i] == lanes[..i];
      var allowed := GetAllowedMovements(lanes[i].arrows);
      m := m[lanes[i].laneIndex := allowed];
      i := i + 1;
    }
    assert lanes[..|lanes|] == lanes;
  }

  // ---------- origin and destination ----------

  const Dirs: seq<string> := ["utara", "timur", "selatan", "barat"]

  const DirectionError: string := "direction harus salah satu dari: utara,timur,selatan,barat"
  const MovementError: string := "movement harus left/straight/right"

  /** `assignOriginDestination`: the arm reached from `direction` by `movement`, or the error the
      source throws. */
  function AssignOriginDestination(direction: string, movement: string): (r: Result<(string, string)>)
    ensures r.Failure? ==> r.error == DirectionError || r.error == MovementError
    ensures r.Success? ==> r.value.0 == direction
  {
    var i := IndexOf(Dirs, direction);
    if i == -1 then Failure(DirectionError)
    else if movement == "straight" then Success((direction, Dirs[(i + 2) % 4]))
    else if movement == "left" then Success((direction, Dirs[(i + 1) % 4]))
    else if movement == "right" then Success((direction, Dirs[(i + 3) % 4]))
    else Failure(MovementError)
  }

  /** The origin-destination rule agrees with the controller's rotation table: it succeeds
      exactly when `exitDirectionFor` knows the arm and the turn, and then names the same exit
      arm; an unknown arm is reported before an unknown maneuver. */
  lemma DestinationMatchesRotation(direction: string, movement: string)
    ensures AssignOriginDestination(direction, movement).Success?
        <==> Routing.ExitDirectionFor(direction, movement).Some?
    ensures AssignOriginDestination(direction, movement).Success?
        ==> AssignOriginDestination(direction, movement).value.1 == Routing.ExitDirectionFor(direction, movement).value
    ensures Routing.ParseArm(direction).None? ==> AssignOriginDestination(direction, movement) == Failure(DirectionError)
  {
    if Routing.ParseArm(direction).Some? {
      DestinationForArm(Routing.ParseArm(direction).value, movement);
    } else {
      assert direction !in Dirs;
    }
  }

  /** The origin-destination rule from an arm's name: the exit `exitDirectionFor` gives, or the
      movement error for an unknown maneuver. */
  lemma DestinationForArm(a: Routing.Arm, movement: string)
    ensures var od := AssignOriginDestination(Routing.ArmName(a), movement);
      var ex := Routing.ExitDirectionFor(Routing.ArmName(a), movement);
      && (od.Success? <==> ex.Some?)
      && (od.Success? ==> od.value.1 == ex.value)
  {
    Routing.ParseArmName(a);
    DirsIndex(a);
    var direction := Routing.ArmName(a);
    var t := Routing.ParseTurn(movement);
    if t.Some? {
      DirsExit(a, t.value);
      var k := Routing.ArmIndex(a);
      assert AssignOriginDestination(direction, movement)
          == Success((direction, Dirs[(k + Routing.TurnOffset(t.value)) % 4]));
    } else {
      assert AssignOriginDestination(direction, movement) == Failure(MovementError);
    }
  }

  /** `dirOrder.indexOf` finds an arm's name at the arm's index. */
  lemma DirsIndex(a: Routing.Arm)
    ensures IndexOf(Dirs, Routing.ArmName(a)) == Routing.ArmIndex(a)
  {
    assert Dirs[Routing.ArmIndex(a)] == Routing.ArmName(a);
    assert forall j :: 0 <= j < 4 && j != Routing.ArmIndex(a) ==> Dirs[j] != Routing.ArmName(a);
  }

  /** The name `k` places further along `dirOrder` is the name of the exit arm of the turn. */
  lemma DirsExit(a: Routing.Arm, t: Routing.Turn)
    ensures Dirs[(Routing.ArmIndex(a) + Routing.TurnOffset(t)) % 4] == Routing.ArmName(Routing.ExitArm(a, t))
  {
    var e := Routing.ExitArm(a, t);
    assert Dirs[Routing.ArmIndex(e)] == Routing.ArmName(e);
  }

  // ---------- Poisson arrivals ----------

  /** `-Math.log(1 - u) / lambda_per_sec`: the gap to the next arrival for the draw `u`. */
  function Gap(m: MathLib, lambdaPerSec: real, u: real): real
    requires lambdaPerSec > 0.0
  {
    -m.log(1.0 - u) / lambdaPerSec
  }

  lemma GapNonNegative(m: MathLib, lambdaPerSec: real, u: real)
    requires Sound(m) && lambdaPerSec > 0.0 && 0.0 <= u < 1.0
    ensures Gap(m, lambdaPerSec, u) >= 0.0
  {
    assert m.log(1.0 - u) <= 0.0;
  }

  /** The time of the `n`-th candidate arrival: the sum of the first `n` gaps. */
  function ArrivalTime(m: MathLib, lambdaPerSec: real, draws: seq<real>, n: nat): real
    requires lambdaPerSec > 0.0 && n <= |draws|
  {
    if n == 0 then 0.0 else ArrivalTime(m, lambdaPerSec, draws, n - 1) + Gap(m, lambdaPerSec, draws[n - 1])
  }

  /** Arrival times never go backwards. */
  lemma {:induction false} ArrivalTimesMonotone(m: MathLib, lambdaPerSec: real, draws: seq<real>, i: nat, j: nat)
    requires Sound(m) && lambdaPerSec > 0.0 && i <= j <= |draws|
    requires forall k :: 0 <= k < |draws| ==> 0.0 <= draws[k] < 1.0
    ensures ArrivalTime(m, lambdaPerSec, draws, i) <= ArrivalTime(m, lambdaPerSec, draws, j)
    decreases j
  {
    if i < j {
      ArrivalTimesMonotone(m, lambdaPerSec, draws, i, j - 1);
      GapNonNegative(m, lambdaPerSec, draws[j - 1]);
    }
  }

  /** `generatePoissonArrivals` with the `Math.random` draws given as `draws`: the arrival times
      up to `durationSeconds`. `complete` is false when the draws ran out before an arrival fell
      after the duration. */
  method GeneratePoissonArrivals(m: MathLib, lambdaPerHour: real, durationSeconds: real, draws: seq<real>)
    returns (arrivals: seq<real>, complete: bool)
    requires Sound(m)
    requires forall k :: 0 <= k < |draws| ==> 0.0 <= draws[k] < 1.0
    ensures lambdaPerHour <= 0.0 ==> arrivals == [] && complete
    ensures lambdaPerHour > 0.0 ==>
      && |arrivals| <= |draws|
      && (forall i :: 0 <= i < |arrivals| ==> arrivals[i] == ArrivalTime(m, lambdaPerHour / 3600.0, draws, i + 1))
      && (complete <==> |arrivals| < |draws|)
      && (complete ==> ArrivalTime(m, lambdaPerHour / 3600.0, draws, |arrivals| + 1) > durationSeconds)
    ensures forall i :: 0 <= i < |arrivals| ==> arrivals[i] <= durationSeconds
    ensures forall i, j :: 0 <= i <= j < |arrivals| ==> arrivals[i] <= arrivals[j]
  {
    var lambdaPerSec := lambdaPerHour / 3600.0;
    arrivals := [];
    if lambdaPerSec <= 0.0 {
      return arrivals, true;
    }
    var t := 0.0;
    var k := 0;
    complete := false;
    while k < |draws|
      invariant 0 <= k <= |draws| && |arrivals| == k
      invariant t == ArrivalTime(m, lambdaPerSec, draws, k)
      invariant forall i :: 0 <= i < k ==> arrivals[i] == ArrivalTime(m, lambdaPerSec, draws, i + 1)
      invariant forall i :: 0 <= i < k ==> arrivals[i] <= durationSeconds
      invariant forall i, j :: 0 <= i <= j < k ==> arrivals[i] <= arrivals[j]
      invariant k > 0 ==> arrivals[k - 1] == t
    {
      var u := draws[k];
      var inter := Gap(m, lambdaPerSec, u);
      GapNonNegative(m, lambdaPerSec, u);
      t := t + inter;
      if t > durationSeconds {
        complete := true;
        break;
      }
      arrivals := arrivals + [t];
      k := k + 1;
    }
  }

  // ---------- the weighted type pick ----------

  /** `probs.map(p => p / s)`. */
  function Normalise(ps: seq<real>, s: real): (r: seq<real>)
    requires s != 0.0
    ensures |r| == |ps| && forall i :: 0 <= i < |ps| ==> r[i] == ps[i] / s
  {
    if ps == [] then [] else Normalise(ps[..|ps| - 1], s) + [ps[|ps| - 1] / s]
  }

  /** The normalised weights sum to one. */
  lemma {:induction false} NormaliseSum(ps: seq<real>, s: real)
    requires s != 0.0
    ensures Sum(Normalise(ps, s)) == Sum(ps) / s
  {
    if ps != [] {
      var n := Normalise(ps, s);
      var front := ps[..|ps| - 1];
      NormaliseSum(front, s);
      assert n[..|n| - 1] == Normalise(front, s);
      assert Sum(ps) == Sum(front) + ps[|ps| - 1];
      DivideSum(Sum(front), ps[|ps| - 1], s);
    }
  }

  /** The running sum `acc` after adding weight `j`. */
  function Acc(norm: seq<real>, j: nat): real
    requires j < |norm|
  {
    Sum(norm[..j + 1])
  }

  lemma DivideSum(a: real, b: real, s: real)
    requires s != 0.0
    ensures a / s + b / s == (a + b) / s
  {
    assert (a / s) * s == a && (b / s) * s == b;
    assert (a / s + b / s) * s == a + b;
  }

  /** The `pickType` loop as a function: the first index whose running sum of weights reaches
      `r`, or the last index when none does. */
  function PickIndex(norm: seq<real>, r: real): (k: nat)
    requires |norm| > 0
    ensures k < |norm|
    ensures forall j :: 0 <= j < k ==> r > Acc(norm, j)
    ensures r <= Acc(norm, k) || k == |norm| - 1
  {
    PickFrom(norm, r, 0)
  }

  function PickFrom(norm: seq<real>, r: real, i: nat): (k: nat)
    requires i < |norm|
    requires forall j :: 0 <= j < i ==> r > Acc(norm, j)
    ensures i <= k < |norm|
    ensures forall j :: 0 <= j < k ==> r > Acc(norm, j)
    ensures r <= Acc(norm, k) || k == |norm| - 1
    decreases |norm| - i
  {
    if r <= Acc(norm, i) || i == |norm| - 1 then i else PickFrom(norm, r, i + 1)
  }

  /** `pickType` for the draw `r`: the running sum `acc` of the weights. */
  method PickType(types: seq<string>, norm: seq<real>, r: real) returns (t: string)
    requires |types| == |norm| > 0
    ensures t == types[PickIndex(norm, r)]
  {
    var acc := 0.0;
    var i := 0;
    while i < |types|
      invariant 0 <= i <= |types|
      invariant acc == Sum(norm[..i])
      invariant forall j :: 0 <= j < i ==> r > Acc(norm, j)
    {
      assert norm[..i + 1][..i] == norm[..i];
      acc := acc + norm[i];
      if r <= acc {
        assert i == PickIndex(norm, r) by { PickIndexUnique(norm, r, i); }
        return types[i];
      }
      i := i + 1;
    }
    assert PickIndex(norm, r) == |norm| - 1 by { PickIndexUnique(norm, r, |norm| - 1); }
    t := types[|types| - 1];
  }

  /** The pick is determined by its characterisation. */
  lemma PickIndexUnique(norm: seq<real>, r: real, k: nat)
    requires k < |norm|
    requires forall j :: 0 <= j < k ==> r > Acc(norm, j)
    requires r <= Acc(norm, k) || k == |norm| - 1
    ensures PickIndex(norm, r) == k
  {
  }

  // ---------- spawning ----------

  /** What `laneAssignment[i]` holds. */
  datatype LaneInfo = LaneInfo(laneIndex: int, direction: string, movement: string)

  /** The fields a spawned `Vehicle` is constructed with, and those it derives from its type. */
  datatype VehicleData = VehicleData(
    id: string, vtype: string, speedMS: real, origin: string, destination: string,
    laneIndex: int, direction: string, movement: string, spawnTime: real,
    lengthM: real, widthM: real)

  const DistributionError: string := "vehicleTypeDistribution harus punya total > 0"
  const UnknownTypeError: string := "vehicle type is not in vehicleTypes"

  function LaneError(i: nat): string {
    "laneAssignment tidak tersedia untuk spawn index " + NatToString(i)
  }

  /** `idPrefix + String(i + 1).padStart(4, '0')`. */
  function SpawnId(idPrefix: string, i: nat): string {
    idPrefix + PadStart(NatToString(i + 1), 4, '0')
  }

  /** Spawned vehicles with the same prefix never share an id. */
  lemma SpawnIdsDistinct(idPrefix: string, i: nat, j: nat)
    requires i != j
    ensures SpawnId(idPrefix, i) != SpawnId(idPrefix, j)
  {
    PaddedDistinct(i + 1, j + 1);
    PrefixCancel(idPrefix, PadStart(NatToString(i + 1), 4, '0'), PadStart(NatToString(j + 1), 4, '0'));
  }

  /** Different numbers have different four-digit numerals. */
  lemma PaddedDistinct(x: nat, y: nat)
    requires x != y
    ensures PadStart(NatToString(x), 4, '0') != PadStart(NatToString(y), 4, '0')
  {
    PaddedNumeralValue(x, 4);
    PaddedNumeralValue(y, 4);
  }

  /** Two strings with the same prefix differ when their rests do. */
  lemma PrefixCancel(p: string, a: string, b: string)
    requires a != b
    ensures p + a != p + b
  {
    assert (p + a)[|p|..] == a;
    assert (p + b)[|p|..] == b;
  }

  /** `laneAssignment[i] || laneAssignment[laneAssignment.length - 1]`. */
  function LaneFor(lanes: seq<Option<LaneInfo>>, i: nat): Option<LaneInfo> {
    if i < |lanes| && lanes[i].Some? then lanes[i]
    else if |lanes| > 0 then lanes[|lanes| - 1]
    else None
  }

  /** The speed of a vehicle of type `vt`: a draw from its range, or its midpoint. */
  function SpawnSpeedKmh(vt: VehicleType, speedRandomness: bool, u: real): (s: real)
    requires 0.0 <= u < 1.0
    ensures vt.speedMinKmh <= vt.speedMaxKmh ==> vt.speedMinKmh <= s <= vt.speedMaxKmh
  {
    if speedRandomness && vt.speedMinKmh <= vt.speedMaxKmh then RandBetween(u, vt.speedMinKmh, vt.speedMaxKmh)
    else if speedRandomness then u * (vt.speedMaxKmh - vt.speedMinKmh) + vt.speedMinKmh
    else (vt.speedMinKmh + vt.speedMaxKmh) / 2.0
  }

  /** One step of the spawn loop: the vehicle of arrival `i`, or the error it throws. */
  function SpawnOne(types: seq<string>, norm: seq<real>, arrivals: seq<real>, lanes: seq<Option<LaneInfo>>,
                    idPrefix: string, speedRandomness: bool, pick: real, speedDraw: real, i: nat): (r: Result<VehicleData>)
    requires |types| == |norm| > 0 && i < |arrivals| && 0.0 <= speedDraw < 1.0
    ensures r.Success? ==>
      && r.value.id == SpawnId(idPrefix, i)
      && r.value.spawnTime == arrivals[i]
      && r.value.vtype == types[PickIndex(norm, pick)]
      && LaneFor(lanes, i).Some?
      && AssignOriginDestination(LaneFor(lanes, i).value.direction, LaneFor(lanes, i).value.movement)
           == Success((r.value.origin, r.value.destination))
  {
    var laneInfo := LaneFor(lanes, i);
    if laneInfo.None? then Failure(LaneError(i))
    else
      var t := types[PickIndex(norm, pick)];
      var vt := TypeInfo(t);
      if vt.None? then Failure(UnknownTypeError)
      else
        var speed := KmhToMs(SpawnSpeedKmh(vt.value, speedRandomness, speedDraw));
        var li := laneInfo.value;
        var od := AssignOriginDestination(li.direction, li.movement);
        if od.Failure? then Failure(od.error)
        else Success(VehicleData(SpawnId(idPrefix, i), t, speed, od.value.0, od.value.1,
                                 li.laneIndex, li.direction, li.movement, arrivals[i],
                                 vt.value.lengthM, vt.value.widthM))
  }

  /** `spawnVehiclesFromPoisson` with the lane assignment as an array and the `Math.random`
      draws given: one pick draw and one speed draw per arrival. The distribution is the list
      of its (type, weight) entries in key order. */
  method SpawnVehiclesFromPoisson(arrivals: seq<real>, lanes: seq<Option<LaneInfo>>,
                                  distribution: seq<(string, real)>, idPrefix: string,
                                  speedRandomness: bool, picks: seq<real>, speedDraws: seq<real>)
    returns (r: Result<seq<VehicleData>>)
    requires |picks| >= |arrivals| && |speedDraws| >= |arrivals|
    requires forall k :: 0 <= k < |speedDraws| ==> 0.0 <= speedDraws[k] < 1.0
    ensures Sum(Weights(distribution)) <= 0.0 ==> r == Failure(DistributionError)
    ensures Sum(Weights(distribution)) > 0.0 ==>
      var types := Keys(distribution);
      var norm := Normalise(Weights(distribution), Sum(Weights(distribution)));
      && (r.Success? ==>
            && |r.value| == |arrivals|
            && forall i :: 0 <= i < |arrivals| ==>
                 SpawnOne(types, norm, arrivals, lanes, idPrefix, speedRandomness, picks[i], speedDraws[i], i)
                   == Success(r.value[i]))
      && (r.Failure? ==>
            exists i :: 0 <= i < |arrivals| &&
              SpawnOne(types, norm, arrivals, lanes, idPrefix, speedRandomness, picks[i], speedDraws[i], i)
                == Failure(r.error))
  {
    var types := Keys(distribution);
    var probs := Weights(distribution);
    var s := Sum(probs);
    if s <= 0.0 {
      return Failure(DistributionError);
    }
    assert |types| > 0;
    var norm := Normalise(probs, s);
    r := SpawnAll(types, norm, arrivals, lanes, idPrefix, speedRandomness, picks, speedDraws);
  }

  /** The loop of `spawnVehiclesFromPoisson`: one vehicle per arrival, stopping at the first
      arrival that cannot be spawned. */
  method SpawnAll(types: seq<string>, norm: seq<real>, arrivals: seq<real>, lanes: seq<Option<LaneInfo>>,
                  idPrefix: string, speedRandomness: bool, picks: seq<real>, speedDraws: seq<real>)
    returns (r: Result<seq<VehicleData>>)
    requires |types| == |norm| > 0
    requires |picks| >= |arrivals| && |speedDraws| >= |arrivals|
    requires forall k :: 0 <= k < |speedDraws| ==> 0.0 <= speedDraws[k] < 1.0
    ensures r.Success? ==>
      && |r.value| == |arrivals|
      && forall i :: 0 <= i < |arrivals| ==>
           SpawnOne(types, norm, arrivals, lanes, idPrefix, speedRandomness, picks[i], speedDraws[i], i)
             == Success(r.value[i])
    ensures r.Failure? ==>
      exists i :: 0 <= i < |arrivals| &&
        SpawnOne(types, norm, arrivals, lanes, idPrefix, speedRandomness, picks[i], speedDraws[i], i)
          == Failure(r.error)
  {
    var one := k requires 0 <= k < |arrivals| =>
      SpawnOne(types, norm, arrivals, lanes, idPrefix, speedRandomness, picks[k], speedDraws[k], k);
    r := CollectAll(|arrivals|, one);
  }

  /** `for (let i = 0; i < n; i++)` over a step that may fail: every result when all succeed,
      and otherwise the error of the first failing step. */
  method CollectAll<T>(n: nat, one: nat --> Result<T>) returns (r: Result<seq<T>>)
    requires forall k :: 0 <= k < n ==> one.requires(k)
    ensures r.Success? ==> |r.value| == n && forall i :: 0 <= i < n ==> one(i) == Success(r.value[i])
    ensures r.Failure? ==> exists i :: 0 <= i < n && one(i) == Failure(r.error)
  {
    var xs: seq<T> := [];
    var i := 0;
    while i < n
      invariant 0 <= i <= n && |xs| == i
      invariant forall k :: 0 <= k < i ==> one(k) == Success(xs[k])
    {
      var o := one(i);
      if o.Failure? {
        return Failure(o.error);
      }
      xs := xs + [o.value];
      i := i + 1;
    }
    r := Success(xs);
  }

  /** A vehicle list spawned without error has pairwise distinct ids and keeps the arrival
      order. */
  lemma SpawnedInArrivalOrder(types: seq<string>, norm: seq<real>, arrivals: seq<real>,
                              lanes: seq<Option<LaneInfo>>, idPrefix: string, speedRandomness: bool,
                              picks: seq<real>, speedDraws: seq<real>, vs: seq<VehicleData>, i: nat, j: nat)
    requires |types| == |norm| > 0 && |vs| == |arrivals| <= |picks| && |arrivals| <= |speedDraws|
    requires forall k :: 0 <= k < |speedDraws| ==> 0.0 <= speedDraws[k] < 1.0
    requires forall k :: 0 <= k < |arrivals| ==>
      SpawnOne(types, norm, arrivals, lanes, idPrefix, speedRandomness, picks[k], speedDraws[k], k) == Success(vs[k])
    requires i < j < |vs|
    ensures vs[i].id != vs[j].id
    ensures vs[i].spawnTime == arrivals[i] && vs[j].spawnTime == arrivals[j]
  {
    assert SpawnOne(types, norm, arrivals, lanes, idPrefix, speedRandomness, picks[i], speedDraws[i], i) == Success(vs[i]);
    assert SpawnOne(types, norm, arrivals, lanes, idPrefix, speedRandomness, picks[j], speedDraws[j], j) == Success(vs[j]);
    SpawnIdsDistinct(idPrefix, i, j);
  }

  function Keys(d: seq<(string, real)>): (r: seq<string>)
    ensures |r| == |d| && forall i :: 0 <= i < |d| ==> r[i] == d[i].0
  {
    if d == [] then [] else Keys(d[..|d| - 1]) + [d[|d| - 1].0]
  }

  function Weights(d: seq<(string, real)>): (r: seq<real>)
    ensures |r| == |d| && forall i :: 0 <= i < |d| ==> r[i] == d[i].1
  {
    if d == [] then [] else Weights(d[..|d| - 1]) + [d[|d| - 1].1]
  }

  // ---------- the Vehicle class ----------

  /** The product `speed_m_s * dt`. */
  function Displacement(speedMS: real, dt: real): real {
    speedMS * dt
  }

  /** The distance covered by a run of `update` calls with the time steps `dts`. */
  function DistanceOver(speedMS: real, dts: seq<real>): real {
    if dts == [] then 0.0 else DistanceOver(speedMS, dts[..|dts| - 1]) + Displacement(speedMS, dts[|dts| - 1])
  }

  class Vehicle {
    const id: string
    const vtype: string
    var speedMS: real
    const origin: string
    const destination: string
    const laneIndex: int
    const direction: string
    const movement: string
    const spawnTime: real
    var position: Option<(real, real)>
    const lengthM: real
    const widthM: real
    var state: string
    /** `_moved_m`; it is undefined until the first `update`, which reads it as 0, so it
        starts at 0 here. */
    var movedM: real

    /** The constructor looks the type up in `vehicleTypes` and fails for a type it lacks. */
    constructor (d: VehicleData, position: Option<(real, real)>)
      requires TypeInfo(d.vtype).Some?
      ensures id == d.id && vtype == d.vtype && speedMS == d.speedMS
      ensures origin == d.origin && destination == d.destination && laneIndex == d.laneIndex
      ensures direction == d.direction && movement == d.movement && spawnTime == d.spawnTime
      ensures this.position == position
      ensures lengthM == TypeInfo(d.vtype).value.lengthM && widthM == TypeInfo(d.vtype).value.widthM
      ensures state == "waiting" && movedM == 0.0
    {
      id := d.id;
      vtype := d.vtype;
      speedMS := d.speedMS;
      origin := d.origin;
      destination := d.destination;
      laneIndex := d.laneIndex;
      direction := d.direction;
      movement := d.movement;
      spawnTime := d.spawnTime;
      this.position := position;
      lengthM := TypeInfo(d.vtype).value.lengthM;
      widthM := TypeInfo(d.vtype).value.widthM;
      state := "waiting";
      movedM := 0.0;
    }

    method SetPosition(pos: Option<(real, real)>)
      modifies this
      ensures position == pos
      ensures speedMS == old(speedMS) && state == old(state) && movedM == old(movedM)
    {
      position := pos;
    }

    /** `update(dt)`: the distance moved grows by `speed_m_s * dt`. */
    method Update(dt: real)
      modifies this
      ensures movedM == old(movedM) + Displacement(speedMS, dt)
      ensures speedMS == old(speedMS) && position == old(position) && state == old(state)
    {
      movedM := OrElse(movedM, 0.0) + Displacement(speedMS, dt);
    }

    /** A run of updates from a fresh vehicle. */
    method UpdateAll(dts: seq<real>)
      requires movedM == 0.0
      modifies this
      ensures movedM == DistanceOver(speedMS, dts)
      ensures speedMS == old(speedMS) && position == old(position) && state == old(state)
    {
      var i := 0;
      while i < |dts|
        invariant 0 <= i <= |dts|
        invariant movedM == DistanceOver(speedMS, dts[..i])
        invariant speedMS == old(speedMS) && position == old(position) && state == old(state)
      {
        assert dts[..i + 1][..i] == dts[..i];
        Update(dts[i]);
        i := i + 1;
      }
      assert dts[..|dts|] == dts;
    }
  }

  /** Moving forward for non-negative time steps never decreases the distance moved: the
      distance after any first `k` steps is at most the distance after all of them, and never
      negative. */
  lemma {:induction false} DistanceMonotone(speedMS: real, dts: seq<real>, k: nat)
    requires speedMS >= 0.0 && k <= |dts|
    requires forall j :: 0 <= j < |dts| ==> dts[j] >= 0.0
    ensures 0.0 <= DistanceOver(speedMS, dts[..k]) <= DistanceOver(speedMS, dts)
    decreases |dts|
  {
    if dts == [] {
      assert dts[..k] == [];
    } else if k == |dts| {
      assert dts[..k] == dts;
      DistanceMonotone(speedMS, dts[..|dts| - 1], |dts| - 1);
      assert dts[..|dts| - 1][..|dts| - 1] == dts[..|dts| - 1];
      MulMonotone(0.0, dts[|dts| - 1], speedMS);
    } else {
      var front := dts[..|dts| - 1];
      DistanceMonotone(speedMS, front, k);
      assert front[..k] == dts[..k];
      MulMonotone(0.0, dts[|dts| - 1], speedMS);
    }
  }
}
