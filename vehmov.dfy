/** The vehicle-movement controller of js/vehmov.js: vehicle creation with route choice and axle
    placement, and the per-frame movement that spends each vehicle's budget through the states
    approaching, blending, following a path and free motion. */
module VehMov {
  import opened Wrappers
  import opened Numeric
  import opened Text
  import opened Geometry
  import opened Routing

  /** A pending glide of the vehicle centre onto its path. */
  datatype Blend = Blend(
    targetRearD: real, targetRear: Vec, targetFront: Vec, centerTarget: Vec,
    remaining: real, total: real, pendingTurnTraveled: real, pendingTurnLength: real)

  /** A vehicle object of the controller. `rear` and `front` are the two axle points. */
  datatype Veh = Veh(
    id: nat,
    x: real, y: real, vx: real, vy: real,
    direction: string, laneIndex: nat, vehicleType: string, exitLane: LanePref,
    speed: real,
    turning: bool, approachingTurn: bool, route: string,
    turnProgress: real, turnEntry: Option<Vec>, turnExit: Option<Vec>,
    angle: real, turnLength: real, turnTraveled: real,
    wheelbase: real, lengthPx: real,
    blend: Option<Blend>,
    rear: Vec, front: Vec,
    path: Option<Path>)

  /** `findClosestDistanceOnPathToPoint`: the distance along the path and the point of the path
      nearest to a given point. */
  datatype ClosestPoint = ClosestPoint(pathD: real, pt: Vec)

  const Eps: real := 0.000001
  const AngleAdjust: real := Pi
  const RemovalMargin: real := 60.0

  predicate PathOk(v: Veh) {
    v.path.Some? ==> WellFormed(v.path.value)
  }

  /** What movement never changes. */
  predicate SameIdentity(a: Veh, b: Veh) {
    && a.id == b.id && a.direction == b.direction && a.laneIndex == b.laneIndex
    && a.vehicleType == b.vehicleType && a.speed == b.speed && a.wheelbase == b.wheelbase
  }

  /** The branch of the movement loop a vehicle is in: 3 approaching a path, 2 blending onto
      it, 1 following it, 0 free. Every branch that goes round the loop again lowers it. */
  function Rank(v: Veh): nat {
    if v.approachingTurn && v.path.Some? then 3
    else if v.blend.Some? then 2
    else if v.turning && v.path.Some? then 1
    else 0
  }

  function AngleFromHeading(heading: real): real {
    heading - Pi / 2.0 + AngleAdjust
  }

  /** The rear axle estimated from the centre and the drawn angle. */
  function EstimatedRear(m: MathLib, v: Veh): Vec {
    var co := v.wheelbase * 0.5;
    var h := v.angle + Pi / 2.0 - AngleAdjust;
    Vec(v.x - co * m.cos(h), v.y - co * m.sin(h))
  }

  /** How far the path lies from the estimated rear axle. */
  function ApproachOffset(m: MathLib, closest: (Path, Vec) -> ClosestPoint, v: Veh): real
    requires v.path.Some?
  {
    var est := EstimatedRear(m, v);
    var c := closest(v.path.value, est);
    m.hypot(c.pt.x - est.x, c.pt.y - est.y)
  }

  /** The approaching branch: snap onto the path when within 1 px of it, otherwise start a blend
      of 2 .. max(20, wheelbase/2) px towards it. */
  function ApproachStep(m: MathLib, closest: (Path, Vec) -> ClosestPoint, v: Veh): (r: Veh)
    requires v.approachingTurn && v.path.Some? && PathOk(v)
    ensures !r.approachingTurn && r.path == v.path && SameIdentity(v, r)
    ensures ApproachOffset(m, closest, v) <= 1.0 ==>
      && r.turning && r.blend == v.blend
      && r.rear == closest(v.path.value, EstimatedRear(m, v)).pt
      && r.turnTraveled == closest(v.path.value, EstimatedRear(m, v)).pathD
    ensures ApproachOffset(m, closest, v) > 1.0 ==>
      && r.blend.Some? && r.blend.value.remaining == r.blend.value.total
      && 2.0 <= r.blend.value.remaining <= Max(20.0, v.wheelbase * 0.5)
      && r.blend.value.targetRear == closest(v.path.value, EstimatedRear(m, v)).pt
    ensures Rank(r) < Rank(v)
  {
    var p := v.path.value;
    var co := v.wheelbase * 0.5;
    var est := EstimatedRear(m, v);
    var c := closest(p, est);
    var targetD := c.pathD;
    var pStart := c.pt;
    var offsetDist := ApproachOffset(m, closest, v);
    var maxBlend := Max(20.0, v.wheelbase * 0.5);
    var blendLen := Max(2.0, Min(offsetDist, maxBlend));
    if offsetDist <= 1.0 then
      var frontD := Min(targetD + v.wheelbase, p.totalLength);
      var frontPt := PathPointAndTangentAtDistance(v.path, frontD).p;
      var unit := Normalize(m, PathPointAndTangentAtDistance(v.path, targetD).tan);
      var heading := m.atan2(unit.y, unit.x);
      v.(rear := pStart, turnTraveled := targetD, turnLength := OrElse(p.totalLength, 1.0),
         turning := true, approachingTurn := false, front := frontPt,
         x := pStart.x + co * unit.x, y := pStart.y + co * unit.y, angle := AngleFromHeading(heading))
    else
      var unit := Normalize(m, PathPointAndTangentAtDistance(v.path, targetD).tan);
      var centerTarget := Vec(pStart.x + co * unit.x, pStart.y + co * unit.y);
      var frontD := Min(targetD + v.wheelbase, p.totalLength);
      var frontPt := PathPointAndTangentAtDistance(v.path, frontD).p;
      v.(blend := Some(Blend(targetD, pStart, frontPt, centerTarget, blendLen, blendLen, targetD, OrElse(p.totalLength, 1.0))),
         approachingTurn := false)
  }

  /** The end of a blend: the centre and both axles take their targets and the vehicle starts
      following the path. */
  function SettleBlend(m: MathLib, v: Veh, b: Blend): (r: Veh)
    ensures r.blend.None? && r.turning && SameIdentity(v, r)
    ensures r.x == b.centerTarget.x && r.y == b.centerTarget.y
    ensures r.rear == b.targetRear && r.front == b.targetFront
    ensures r.path == v.path && r.approachingTurn == v.approachingTurn
  {
    var tt := OrElse(b.pendingTurnTraveled, 0.0);
    var tl := OrElse(b.pendingTurnLength, 1.0);
    var d := Sub(b.targetFront, b.targetRear);
    v.(x := b.centerTarget.x, y := b.centerTarget.y, rear := b.targetRear, front := b.targetFront,
       turnTraveled := tt, turnLength := tl, turnProgress := if tl > 0.0 then tt / tl else 0.0,
       blend := None, turning := true, angle := AngleFromHeading(m.atan2(d.y, d.x)))
  }

  /** The outcome of one pass of the movement loop: the new vehicle, the budget left, and whether
      the loop goes round again (`continue`) or stops (`break`). */
  datatype StepOutcome = StepOutcome(v: Veh, budget: real, again: bool)

  /** The blending branch: move the centre towards its target by at most the budget, the distance
      and the blend left; settle when the blend is used up or within 1 px. */
  function BlendStep(m: MathLib, v: Veh, budget: real): (r: StepOutcome)
    requires v.blend.Some? && !(v.approachingTurn && v.path.Some?)
    ensures SameIdentity(v, r.v) && r.v.path == v.path
    ensures r.again ==> r.v.blend.None? && r.v.turning && Rank(r.v) < Rank(v)
    ensures !r.again ==>
      && r.v.blend.Some?
      && r.v.blend.value.remaining == v.blend.value.remaining - (budget - r.budget)
      && r.v.blend.value.remaining > Eps
  {
    var b := v.blend.value;
    var ct := b.centerTarget;
    var dx := ct.x - v.x;
    var dy := ct.y - v.y;
    var dist := m.hypot(dx, dy);
    if dist < Eps then StepOutcome(SettleBlend(m, v, b), budget, true)
    else
      var move := Min(budget, Min(dist, b.remaining));
      var ux := dx / dist;
      var uy := dy / dist;
      var b' := b.(remaining := b.remaining - move);
      var v1 := v.(x := v.x + ux * move, y := v.y + uy * move,
                   angle := AngleFromHeading(m.atan2(uy, ux)), blend := Some(b'));
      if b'.remaining <= Eps || m.hypot(ct.x - v1.x, ct.y - v1.y) <= 1.0 then
        StepOutcome(SettleBlend(m, v1, b'), budget - move, true)
      else
        StepOutcome(v1, budget - move, false)
  }

  /** The path length a following vehicle uses: its own, or the path's (1 when that is 0) when
      its own is not positive. */
  function EffectiveTurnLength(v: Veh): real
    requires v.path.Some?
  {
    if v.turnLength <= 0.0 then OrElse(v.path.value.totalLength, 1.0) else v.turnLength
  }

  /** The end of a path: both axles at the end of the path, heading along rear -> front, and the
      vehicle released into free motion along that heading. */
  function FinishPath(m: MathLib, v: Veh): (r: Veh)
    requires v.path.Some? && PathOk(v)
    ensures !r.turning && r.path.None? && r.blend.None? && !r.approachingTurn
    ensures Rank(r) == 0 && SameIdentity(v, r)
    ensures r.turnTraveled == v.turnTraveled && r.turnLength == v.turnLength
  {
    var p := v.path.value;
    var rearD := v.turnLength;
    var frontD := Min(rearD + v.wheelbase, p.totalLength);
    var rearPt := PathPointAndTangentAtDistance(v.path, rearD).p;
    var frontPt := PathPointAndTangentAtDistance(v.path, frontD).p;
    var h := m.atan2(frontPt.y - rearPt.y, frontPt.x - rearPt.x);
    var vx := m.cos(h);
    var vy := m.sin(h);
    var co := v.wheelbase * 0.5;
    v.(turning := false, rear := rearPt, front := frontPt, vx := vx, vy := vy,
       angle := AngleFromHeading(m.atan2(vy, vx)),
       x := rearPt.x + co * m.cos(h), y := rearPt.y + co * m.sin(h),
       path := None, approachingTurn := false, blend := None)
  }

  /** The following branch: advance the rear axle along the path by min(budget, remaining),
      place the front axle one wheelbase further on, and finish the path when it is used up. */
  function FollowStep(m: MathLib, v: Veh, budget: real): (r: StepOutcome)
    requires v.turning && v.path.Some? && PathOk(v) && v.blend.None? && !v.approachingTurn
    requires budget > Eps
    ensures SameIdentity(v, r.v)
    ensures r.again ==> !r.v.turning && r.v.path.None? && r.v.blend.None? && Rank(r.v) == 0
    ensures !r.again ==> r.v.turning && r.v.path == v.path && r.v.blend.None? && !r.v.approachingTurn
    ensures var tl := EffectiveTurnLength(v);
      var remaining := Max(0.0, tl - v.turnTraveled);
      remaining > 0.001 ==>
        && r.v.turnTraveled == v.turnTraveled + Min(budget, remaining)
        && r.budget == budget - Min(budget, remaining)
    ensures var tl := EffectiveTurnLength(v);
      0.0 <= v.turnTraveled <= tl ==> v.turnTraveled <= r.v.turnTraveled <= tl
  {
    var p := v.path.value;
    var tl := EffectiveTurnLength(v);
    var v0 := v.(turnLength := tl);
    var remaining := Max(0.0, tl - v.turnTraveled);
    if remaining <= 0.001 then
      StepOutcome(FinishPath(m, v0.(turnTraveled := tl, turnProgress := 1.0)), budget, true)
    else
      var use := Min(budget, remaining);
      var tt := v.turnTraveled + use;
      var rearD := tt;
      var frontD := Min(rearD + v.wheelbase, p.totalLength);
      var rear := PathPointAndTangentAtDistance(v.path, rearD).p;
      var front := PathPointAndTangentAtDistance(v.path, frontD).p;
      var d := Sub(front, rear);
      var co := v.wheelbase * 0.5;
      var unit := Normalize(m, d);
      var v1 := v0.(turnTraveled := tt, turnProgress := tt / Max(Eps, tl), rear := rear, front := front,
                    x := rear.x + co * unit.x, y := rear.y + co * unit.y,
                    angle := AngleFromHeading(m.atan2(d.y, d.x)));
      if use >= remaining - Eps then StepOutcome(FinishPath(m, v1), budget - use, true)
      else StepOutcome(v1, budget - use, false)
  }

  /** Free motion: the centre moves along (vx, vy) by the whole budget. */
  function FreeStep(m: MathLib, v: Veh, budget: real): (r: Veh)
    ensures r.x == v.x + v.vx * budget && r.y == v.y + v.vy * budget
    ensures r == v.(x := r.x, y := r.y, angle := r.angle)
    ensures v.vx == 0.0 && v.vy == 0.0 ==> r.angle == v.angle
  {
    var v1 := v.(x := v.x + v.vx * budget, y := v.y + v.vy * budget);
    if v.vx != 0.0 || v.vy != 0.0 then v1.(angle := AngleFromHeading(m.atan2(v.vy, v.vx))) else v1
  }

  /** One pass of `while (moveBudget > EPS)`. */
  function Step(m: MathLib, closest: (Path, Vec) -> ClosestPoint, v: Veh, budget: real): (r: StepOutcome)
    requires PathOk(v) && budget > Eps
    ensures PathOk(r.v) && SameIdentity(v, r.v)
    ensures r.again ==> Rank(r.v) < Rank(v)
  {
    if v.approachingTurn && v.path.Some? then StepOutcome(ApproachStep(m, closest, v), budget, true)
    else if v.blend.Some? then BlendStep(m, v, budget)
    else if v.turning && v.path.Some? then
      var r := FollowStep(m, v, budget);
      r
    else StepOutcome(FreeStep(m, v, budget), 0.0, false)
  }

  /** The whole movement of one vehicle in one frame: passes of the loop while the budget
      exceeds EPS and the last pass asked to go round again. */
  function Advance(m: MathLib, closest: (Path, Vec) -> ClosestPoint, v: Veh, budget: real): (r: Veh)
    requires PathOk(v)
    ensures PathOk(r) && SameIdentity(v, r)
    ensures Rank(r) <= Rank(v)
    decreases Rank(v), 1
  {
    if budget <= Eps then v else AdvancePass(m, closest, v, budget)
  }

  /** One pass of the loop body followed by the rest of the loop. */
  function AdvancePass(m: MathLib, closest: (Path, Vec) -> ClosestPoint, v: Veh, budget: real): (r: Veh)
    requires PathOk(v) && budget > Eps
    ensures PathOk(r) && SameIdentity(v, r)
    ensures Rank(r) <= Rank(v)
    decreases Rank(v), 0
  {
    var s := Step(m, closest, v, budget);
    if s.again then Advance(m, closest, s.v, s.budget) else s.v
  }

  /** A free vehicle moves by its velocity times the whole budget, and stays free. */
  lemma AdvanceFree(m: MathLib, closest: (Path, Vec) -> ClosestPoint, v: Veh, budget: real)
    requires PathOk(v) && Rank(v) == 0 && budget > Eps
    ensures var r := Advance(m, closest, v, budget);
      r.x == v.x + v.vx * budget && r.y == v.y + v.vy * budget && Rank(r) == 0
  {
  }

  /** A budget of at most EPS moves nothing. */
  lemma AdvanceWithoutBudget(m: MathLib, closest: (Path, Vec) -> ClosestPoint, v: Veh, budget: real)
    requires PathOk(v) && budget <= Eps
    ensures Advance(m, closest, v, budget) == v
  {
  }

  /** A vehicle following its path that has more budget than path left finishes the path within
      the frame and leaves it in free motion. */
  lemma {:induction false} FollowerFinishesPath(m: MathLib, closest: (Path, Vec) -> ClosestPoint, v: Veh, budget: real)
    requires PathOk(v) && Rank(v) == 1 && !v.approachingTurn && budget > Eps
    requires budget >= Max(0.0, EffectiveTurnLength(v) - v.turnTraveled)
    ensures var r := Advance(m, closest, v, budget);
      r.path.None? && !r.turning && r.blend.None?
  {
    var s := Step(m, closest, v, budget);
    assert s == FollowStep(m, v, budget);
    assert s.again && s.v.path.None? && !s.v.turning && s.v.blend.None?;
    assert Advance(m, closest, v, budget) == Advance(m, closest, s.v, s.budget);
    if s.budget > Eps {
      assert Advance(m, closest, s.v, s.budget) == FreeStep(m, s.v, s.budget);
    }
  }

  /** How far a vehicle may travel in a frame of `deltaMs`. */
  function MoveBudget(v: Veh, deltaMs: real): real {
    v.speed * deltaMs
  }

  /** The per-vehicle `while (moveBudget > EPS)` loop of `update`. */
  method AdvanceVehicle(m: MathLib, closest: (Path, Vec) -> ClosestPoint, v: Veh, deltaMs: real) returns (w: Veh)
    requires PathOk(v)
    ensures w == Advance(m, closest, v, MoveBudget(v, deltaMs))
  {
    var moveBudget := MoveBudget(v, deltaMs);
    w := v;
    while moveBudget > Eps
      invariant PathOk(w)
      invariant Advance(m, closest, w, moveBudget) == Advance(m, closest, v, MoveBudget(v, deltaMs))
      decreases Rank(w)
    {
      var s := Step(m, closest, w, moveBudget);
      w := s.v;
      moveBudget := s.budget;
      if !s.again {
        break;
      }
    }
  }

  // ---------- removal ----------

  /** The centre lies inside the canvas extended by 60 px on every side. */
  predicate Inside(v: Veh, width: real, height: real) {
    !(v.x < -RemovalMargin || v.x > width + RemovalMargin || v.y < -RemovalMargin || v.y > height + RemovalMargin)
  }

  /** The vehicles `update` keeps, in their order. */
  function Survivors(vs: seq<Veh>, width: real, height: real): (r: seq<Veh>)
    ensures |r| <= |vs|
  {
    if vs == [] then []
    else (if Inside(vs[0], width, height) then [vs[0]] else []) + Survivors(vs[1..], width, height)
  }

  /** A vehicle survives exactly when it was there and its centre is inside the margin. */
  lemma {:induction false} SurvivorsSpec(vs: seq<Veh>, width: real, height: real)
    ensures forall v :: v in Survivors(vs, width, height) <==> v in vs && Inside(v, width, height)
  {
    if vs != [] {
      SurvivorsSpec(vs[1..], width, height);
      assert vs == [vs[0]] + vs[1..];
      var head := if Inside(vs[0], width, height) then [vs[0]] else [];
      assert Survivors(vs, width, height) == head + Survivors(vs[1..], width, height);
    }
  }

  /** When every centre is inside the margin, every vehicle survives, in its order. */
  lemma {:induction false} SurvivorsKeepAll(vs: seq<Veh>, width: real, height: real)
    requires forall i :: 0 <= i < |vs| ==> Inside(vs[i], width, height)
    ensures Survivors(vs, width, height) == vs
  {
    if vs != [] {
      assert forall i :: 0 <= i < |vs[1..]| ==> Inside(vs[1..][i], width, height) by {
        forall i | 0 <= i < |vs[1..]| ensures Inside(vs[1..][i], width, height) {
          assert vs[1..][i] == vs[i + 1];
        }
      }
      SurvivorsKeepAll(vs[1..], width, height);
      assert vs == [vs[0]] + vs[1..];
    }
  }

  /** Ids strictly increase along the sequence. */
  predicate IdsIncreasing(vs: seq<Veh>) {
    forall i, j :: 0 <= i < j < |vs| ==> vs[i].id < vs[j].id
  }

  /** Removing vehicles keeps the ids in strictly increasing order. */
  lemma {:induction false} SurvivorsKeepIdOrder(vs: seq<Veh>, width: real, height: real)
    requires IdsIncreasing(vs)
    ensures IdsIncreasing(Survivors(vs, width, height))
  {
    if vs != [] {
      var tail := vs[1..];
      assert IdsIncreasing(tail) by {
        forall i, j | 0 <= i < j < |tail| ensures tail[i].id < tail[j].id {
          assert tail[i] == vs[i + 1] && tail[j] == vs[j + 1];
        }
      }
      SurvivorsKeepIdOrder(tail, width, height);
      var rest := Survivors(tail, width, height);
      if Inside(vs[0], width, height) {
        assert forall k :: 0 <= k < |tail| ==> vs[0].id < tail[k].id by {
          forall k | 0 <= k < |tail| ensures vs[0].id < tail[k].id {
            assert tail[k] == vs[k + 1];
          }
        }
        SurvivorsAbove(tail, vs[0].id, width, height);
        var r := [vs[0]] + rest;
        forall i, j | 0 <= i < j < |r| ensures r[i].id < r[j].id {
          assert r[j] == rest[j - 1];
          if i > 0 {
            assert r[i] == rest[i - 1];
          }
        }
      }
    }
  }

  /** A lower bound on every id survives removal. */
  lemma {:induction false} SurvivorsAbove(vs: seq<Veh>, bound: int, width: real, height: real)
    requires forall k :: 0 <= k < |vs| ==> bound < vs[k].id
    ensures forall k :: 0 <= k < |Survivors(vs, width, height)| ==> bound < Survivors(vs, width, height)[k].id
  {
    if vs != [] {
      var tail := vs[1..];
      assert forall k :: 0 <= k < |tail| ==> bound < tail[k].id by {
        forall k | 0 <= k < |tail| ensures bound < tail[k].id {
          assert tail[k] == vs[k + 1];
        }
      }
      SurvivorsAbove(tail, bound, width, height);
    }
  }

  /** Every vehicle after its movement in a frame of `deltaMs`. */
  function AdvanceAll(m: MathLib, closest: (Path, Vec) -> ClosestPoint, vs: seq<Veh>, deltaMs: real): (r: seq<Veh>)
    requires forall i :: 0 <= i < |vs| ==> PathOk(vs[i])
    ensures |r| == |vs|
  {
    if vs == [] then [] else [Advance(m, closest, vs[0], MoveBudget(vs[0], deltaMs))] + AdvanceAll(m, closest, vs[1..], deltaMs)
  }

  /** Position `i` of the moved list is vehicle `i` moved. */
  lemma {:induction false} AdvanceAllAt(m: MathLib, closest: (Path, Vec) -> ClosestPoint, vs: seq<Veh>, deltaMs: real, i: nat)
    requires forall k :: 0 <= k < |vs| ==> PathOk(vs[k])
    requires i < |vs|
    ensures AdvanceAll(m, closest, vs, deltaMs)[i] == Advance(m, closest, vs[i], MoveBudget(vs[i], deltaMs))
  {
    if i > 0 {
      assert vs[1..][i - 1] == vs[i];
      AdvanceAllAt(m, closest, vs[1..], deltaMs, i - 1);
    } else {
      assert AdvanceAll(m, closest, vs, deltaMs)
        == [Advance(m, closest, vs[0], MoveBudget(vs[0], deltaMs))] + AdvanceAll(m, closest, vs[1..], deltaMs);
    }
  }

  /** Moving then filtering keeps the controller's invariant: increasing ids, all below the
      counter, well-formed paths. */
  lemma {:induction false} UpdateKeepsOrder(m: MathLib, closest: (Path, Vec) -> ClosestPoint, vs: seq<Veh>,
                                            deltaMs: real, width: real, height: real, nextId: nat)
    requires forall i :: 0 <= i < |vs| ==> PathOk(vs[i]) && vs[i].id < nextId
    requires IdsIncreasing(vs)
    ensures var r := Survivors(AdvanceAll(m, closest, vs, deltaMs), width, height);
      && IdsIncreasing(r)
      && (forall i :: 0 <= i < |r| ==> PathOk(r[i]) && r[i].id < nextId)
  {
    var moved := AdvanceAll(m, closest, vs, deltaMs);
    MovedKeepIds(m, closest, vs, deltaMs);
    RelabelledKeepOrder(vs, moved, width, height, nextId);
  }

  /** Filtering a list whose ids and well-formed paths are the ones of `vs`, position by
      position, keeps the controller's invariant. */
  lemma RelabelledKeepOrder(vs: seq<Veh>, moved: seq<Veh>, width: real, height: real, nextId: nat)
    requires |moved| == |vs|
    requires forall i :: 0 <= i < |vs| ==> vs[i].id < nextId
    requires forall k :: 0 <= k < |vs| ==> moved[k].id == vs[k].id && PathOk(moved[k])
    requires IdsIncreasing(vs)
    ensures var r := Survivors(moved, width, height);
      && IdsIncreasing(r)
      && (forall i :: 0 <= i < |r| ==> PathOk(r[i]) && r[i].id < nextId)
  {
    assert IdsIncreasing(moved) by {
      forall i, j | 0 <= i < j < |moved| ensures moved[i].id < moved[j].id {
        assert moved[i].id == vs[i].id && moved[j].id == vs[j].id;
      }
    }
    SurvivorsKeepIdOrder(moved, width, height);
    SurvivorsSpec(moved, width, height);
    var r := Survivors(moved, width, height);
    forall i | 0 <= i < |r| ensures PathOk(r[i]) && r[i].id < nextId {
      assert r[i] in moved;
      var k :| 0 <= k < |moved| && moved[k] == r[i];
      assert moved[k].id == vs[k].id;
    }
  }

  /** Moving keeps each vehicle's id and a well-formed path. */
  lemma MovedKeepIds(m: MathLib, closest: (Path, Vec) -> ClosestPoint, vs: seq<Veh>, deltaMs: real)
    requires forall k :: 0 <= k < |vs| ==> PathOk(vs[k])
    ensures var moved := AdvanceAll(m, closest, vs, deltaMs);
      forall k :: 0 <= k < |vs| ==> moved[k].id == vs[k].id && PathOk(moved[k])
  {
    forall k | 0 <= k < |vs|
      ensures AdvanceAll(m, closest, vs, deltaMs)[k].id == vs[k].id && PathOk(AdvanceAll(m, closest, vs, deltaMs)[k])
    {
      AdvanceAllAt(m, closest, vs, deltaMs, k);
    }
  }

  /** One pass of the removal loop: replacing position `i - 1` by its moved vehicle, or deleting
      it when that vehicle left the margin, extends the filtered suffix by one position. */
  lemma FilterStep(vs: seq<Veh>, moved: seq<Veh>, list: seq<Veh>, i: nat, w: Veh, width: real, height: real)
    requires 0 < i <= |vs| == |moved| && moved[i - 1] == w
    requires list == vs[..i] + Survivors(moved[i..], width, height)
    ensures list[i - 1] == vs[i - 1]
    ensures (if Inside(w, width, height) then list[..i - 1] + [w] + list[i..] else list[..i - 1] + list[i..])
            == vs[..i - 1] + Survivors(moved[i - 1..], width, height)
  {
    assert moved[i - 1..][1..] == moved[i..];
    assert list[..i - 1] == vs[..i - 1];
    assert list[i..] == Survivors(moved[i..], width, height);
  }

  /** The loop of `update` over a snapshot of the vehicle list, last to first: each vehicle is
      moved, then kept in place or spliced out. */
  method MoveAndRemove(m: MathLib, closest: (Path, Vec) -> ClosestPoint, vs: seq<Veh>, deltaMs: real,
                       width: real, height: real) returns (list: seq<Veh>)
    requires forall i :: 0 <= i < |vs| ==> PathOk(vs[i])
    ensures list == Survivors(AdvanceAll(m, closest, vs, deltaMs), width, height)
  {
    ghost var moved := AdvanceAll(m, closest, vs, deltaMs);
    list := vs;
    var i := |list|;
    assert moved[i..] == [];
    assert vs[..i] == vs;
    while i > 0
      invariant 0 <= i <= |vs|
      invariant list == vs[..i] + Survivors(moved[i..], width, height)
    {
      FilterStep(vs, moved, list, i, moved[i - 1], width, height);
      var w := AdvanceVehicle(m, closest, list[i - 1], deltaMs);
      AdvanceAllAt(m, closest, vs, deltaMs, i - 1);
      if Inside(w, width, height) {
        list := list[..i - 1] + [w] + list[i..];
      } else {
        list := list[..i - 1] + list[i..];
      }
      i := i - 1;
    }
    assert moved[0..] == moved;
  }

  // ---------- creation ----------

  /** `spawnPositionFor`: the spawn point 20 px outside the arm's canvas edge, offset across the
      road by (lane + 0.5) lane widths, and the unit velocity into the canvas. */
  datatype Spawn = Spawn(x: real, y: real, vx: real, vy: real)

  function LaneWidthPx(skalaPx: real): real {
    OrElse(skalaPx, 10.0) * 3.0
  }

  function SpawnPositionFor(skalaPx: real, width: real, height: real, arah: string, lane0: nat): (r: Spawn)
    ensures (r.vx == 0.0 && (r.vy == 1.0 || r.vy == -1.0)) || (r.vy == 0.0 && (r.vx == 1.0 || r.vx == -1.0))
    ensures r.vy == 1.0 ==> r.y == -20.0
    ensures r.vy == -1.0 ==> r.y == height + 20.0
    ensures r.vx == 1.0 ==> r.x == -20.0
    ensures r.vx == -1.0 ==> r.x == width + 20.0
  {
    var offset := (lane0 as real + 0.5) * LaneWidthPx(skalaPx);
    if arah == "utara" then Spawn(width / 2.0 + offset, -20.0, 0.0, 1.0)
    else if arah == "timur" then Spawn(width + 20.0, height / 2.0 + offset, -1.0, 0.0)
    else if arah == "selatan" then Spawn(width / 2.0 - offset, height + 20.0, 0.0, -1.0)
    else if arah == "barat" then Spawn(-20.0, height / 2.0 - offset, 1.0, 0.0)
    else Spawn(width / 2.0, -20.0, 0.0, 1.0)
  }

  /** Different lanes of one arm spawn at different points. */
  lemma LanesSpawnApart(skalaPx: real, width: real, height: real, arah: string, lane0: nat, lane1: nat)
    requires IsArmName(arah) && lane0 != lane1
    ensures SpawnPositionFor(skalaPx, width, height, arah, lane0) != SpawnPositionFor(skalaPx, width, height, arah, lane1)
  {
    var s := LaneWidthPx(skalaPx);
    var o0 := (lane0 as real + 0.5) * s;
    var o1 := (lane1 as real + 0.5) * s;
    assert o0 - o1 == (lane0 as real - lane1 as real) * s;
    ProductNonZero(lane0 as real - lane1 as real, s);
  }

  lemma ProductNonZero(a: real, b: real)
    requires a != 0.0 && b != 0.0
    ensures a * b != 0.0
  {
    if a > 0.0 && b > 0.0 { MulStrict(0.0, a, b); }
    if a < 0.0 && b > 0.0 { MulStrict(a, 0.0, b); }
    if a > 0.0 && b < 0.0 { MulStrict(0.0, a, -b); assert a * (-b) == -(a * b); }
    if a < 0.0 && b < 0.0 { MulStrict(0.0, -a, -b); assert (-a) * (-b) == a * b; }
  }

  predicate IsArmName(d: string) {
    d == "utara" || d == "timur" || d == "selatan" || d == "barat"
  }

  /** The lane arrow of a lane: "straight" when the arm or the lane has none. */
  function ArrowFor(laneArrows: map<string, seq<string>>, arah: string, lane0: nat): string {
    if arah in laneArrows && lane0 < |laneArrows[arah]| && laneArrows[arah][lane0] != [] then laneArrows[arah][lane0]
    else "straight"
  }

  /** The position of a maneuver in the order the allowed list is built: straight, left, right. */
  function RouteRank(route: string): nat {
    if route == "straight" then 0 else if route == "left" then 1 else 2
  }

  /** The maneuvers a lane arrow allows: those whose names occur in it, in the order straight,
      left, right, and straight alone when none does. */
  function AllowedRoutes(arrow: string): (r: seq<string>)
    ensures r != []
    ensures "straight" in r <==> Includes(arrow, "straight") || (!Includes(arrow, "left") && !Includes(arrow, "right"))
    ensures "left" in r <==> Includes(arrow, "left")
    ensures "right" in r <==> Includes(arrow, "right")
    ensures forall i, j :: 0 <= i < j < |r| ==> r[i] != r[j]
    ensures forall x :: x in r ==> x == "straight" || x == "left" || x == "right"
    ensures forall i, j :: 0 <= i < j < |r| ==> RouteRank(r[i]) < RouteRank(r[j])
  {
    var a := (if Includes(arrow, "straight") then ["straight"] else [])
      + (if Includes(arrow, "left") then ["left"] else [])
      + (if Includes(arrow, "right") then ["right"] else []);
    if a == [] then ["straight"] else a
  }

  /** `allowed[Math.floor(Math.random() * allowed.length)]` for a draw in [0,1). */
  function ChooseRoute(allowed: seq<string>, draw: real): (r: string)
    requires allowed != [] && 0.0 <= draw < 1.0
    ensures r in allowed
  {
    var k := (draw * |allowed| as real).Floor;
    MulStrict(draw, 1.0, |allowed| as real);
    MulMonotone(0.0, draw, |allowed| as real);
    allowed[k]
  }

  /** `offCanvasPointForDirAlongTangent`: a point far beyond the canvas along the exit tangent. */
  function OffCanvasPoint(m: MathLib, exitPoint: Vec, exitTan: Vec, width: real, height: real): Vec {
    var unit := Normalize(m, exitTan);
    var offDist := m.hypot(width, height) * 1.5 + 200.0;
    Vec(exitPoint.x + unit.x * offDist, exitPoint.y + unit.y * offDist)
  }

  /** The maneuver segment from the entry to the exit point: a cubic for straight on, a
      quadratic for a turn, a line when no control points can be built. */
  function ManeuverSegment(m: MathLib, route: string, entry: Vec, exitPoint: Vec, entryDir: string, exitDir: string): (r: Segment)
    ensures StartPoint(r) == entry && EndPoint(r) == exitPoint && !r.Unknown?
  {
    if route == "straight" then
      var cps := ComputeCubicForStraight(m, entry, exitPoint);
      if cps.Some? then Cubic(entry, cps.value.0, cps.value.1, exitPoint) else Line(entry, exitPoint)
    else
      var cp := ComputeQuadraticControlPoint(entry, exitPoint, entryDir, exitDir);
      if cp.Some? then Quadratic(entry, cp.value, exitPoint) else Line(entry, exitPoint)
  }

  function ExitTangent(seg: Segment): Vec {
    match seg
    case Cubic(p0, p1, p2, p3) => CubicTangent(1.0, p0, p1, p2, p3)
    case Quadratic(p0, p1, p2) => BezierTangent(1.0, p0, p1, p2)
    case Line(p0, p1) => LineTangent(p0, p1)
    case Unknown => Vec(0.0, -1.0)
  }

  /** The first exit key whose arm differs from `dir`, with that arm. */
  function FirstOtherArmExit(exits: seq<ExitSlot>, dir: string): (r: Option<(Option<Vec>, string)>)
    ensures r.Some? ==> r.value.1 != dir && r.value.1 != []
  {
    if exits == [] then None
    else
      var d := DirFromKey(exits[0].key);
      if d.Some? && d.value != [] && d.value != dir then Some((exits[0].point, d.value))
      else FirstOtherArmExit(exits[1..], dir)
  }

  /** The exit point for a vehicle and the arm it exits by: the exit of its own lane number, else
      `findExitPoint`, else the first exit of any other arm. */
  function ChooseExit(lc: LaneCoords, v: Veh, exitDir: string): Option<(Vec, string)> {
    var own := ExitLookup(lc.exit, LaneKey(exitDir, v.laneIndex));
    if own.Some? then Some((own.value, exitDir))
    else
      var found := FindExitPoint(lc.exit, exitDir, v.exitLane, Some(v.laneIndex as int));
      if found.Some? then Some((found.value, exitDir))
      else
        var other := FirstOtherArmExit(lc.exit, v.direction);
        if other.Some? && other.value.0.Some? then Some((other.value.0.value, other.value.1)) else None
  }

  /** `v.route || 'straight'`. */
  function RouteOf(v: Veh): string {
    if v.route == [] then "straight" else v.route
  }

  /** `assignExitAndControlForVehicle`: the three-segment path rear -> entry, entry -> exit,
      exit -> off canvas. A vehicle already turning or blending keeps its state; one whose lane
      has no entry, whose route has no exit arm, or whose exit cannot be found loses its path. */
  function AssignExitAndControl(m: MathLib, lc: LaneCoords, width: real, height: real, v: Veh): (r: Veh)
    ensures v.turning || v.blend.Some? ==> r == v
    ensures SameIdentity(v, r)
    ensures !v.turning && v.blend.None? ==> r.blend.None? && !r.turning
    ensures r.path.Some? && !(v.turning || v.blend.Some?) ==>
      && r.approachingTurn && r.turnTraveled == 0.0
      && |r.path.value.segments| == 3
      && r.path.value == PathOf(m, r.path.value.segments)
      && StartPoint(r.path.value.segments[0]) == v.rear
      && r.turnEntry.Some? && r.turnExit.Some?
      && EndPoint(r.path.value.segments[0]) == StartPoint(r.path.value.segments[1]) == r.turnEntry.value
      && EndPoint(r.path.value.segments[1]) == StartPoint(r.path.value.segments[2]) == r.turnExit.value
    ensures !v.turning && v.blend.None? ==>
      (r.path.Some? <==>
        && LaneKey(v.direction, v.laneIndex) in lc.entry
        && ExitDirectionFor(v.direction, RouteOf(v)).Some?
        && ChooseExit(lc, v, ExitDirectionFor(v.direction, RouteOf(v)).value).Some?)
    ensures !v.turning && v.blend.None? && r.path.None? ==> r == v.(path := None)
    ensures r.path.Some? && !(v.turning || v.blend.Some?) ==>
      var entry := lc.entry[LaneKey(v.direction, v.laneIndex)];
      var chosen := ChooseExit(lc, v, ExitDirectionFor(v.direction, RouteOf(v)).value).value;
      var maneuver := ManeuverSegment(m, RouteOf(v), entry, chosen.0, v.direction, chosen.1);
      && r.turnEntry == Some(entry) && r.turnExit == Some(chosen.0)
      && r.path.value.segments ==
           [Line(v.rear, entry), maneuver, Line(chosen.0, OffCanvasPoint(m, chosen.0, ExitTangent(maneuver), width, height))]
    ensures Sound(m) ==> PathOk(r) || r == v
  {
    if v.turning || v.blend.Some? then v
    else
      var v0 := v.(path := None);
      var entryKey := LaneKey(v.direction, v.laneIndex);
      if entryKey !in lc.entry then v0
      else
        var entry := lc.entry[entryKey];
        var route := RouteOf(v);
        var exitDir := ExitDirectionFor(v.direction, route);
        if exitDir.None? then v0
        else
          var chosen := ChooseExit(lc, v, exitDir.value);
          if chosen.None? then v0
          else
            var exitPoint := chosen.value.0;
            var maneuver := ManeuverSegment(m, route, entry, exitPoint, v.direction, chosen.value.1);
            var off := OffCanvasPoint(m, exitPoint, ExitTangent(maneuver), width, height);
            var segs := [Line(v.rear, entry), maneuver, Line(exitPoint, off)];
            var built := PathOf(m, segs);
            PathTable(m, segs);
            v0.(path := Some(built), turnEntry := Some(entry), turnExit := Some(exitPoint),
                approachingTurn := true, turnLength := OrElse(built.totalLength, 0.0), turnTraveled := 0.0)
  }

  /** Body length in pixels: 12 m for a truck, 2 m for a motorcycle, 4.5 m otherwise. */
  function BodyLengthPx(vehicleType: string): real {
    if vehicleType == "truk" then TruckLengthMeters * PxPerM
    else if vehicleType == "motor" then 2.0 * PxPerM
    else 4.5 * PxPerM
  }

  /** The wheelbase a new vehicle gets: a truck's front-to-first-rear axle spacing, otherwise
      `wheelbaseForType`. */
  function InitialWheelbase(vehicleType: string): real {
    if vehicleType == "truk" then TruckFrontToFirstRearMeters * PxPerM else WheelbaseForType(vehicleType)
  }

  const TruckLengthMeters: real := 12.0
  const TruckFrontToFirstRearMeters: real := 5.8

  /** Every body is longer than its wheelbase, so both axles lie under it. */
  lemma AxlesWithinBody(vehicleType: string)
    ensures 0.0 < InitialWheelbase(vehicleType) < BodyLengthPx(vehicleType)
  {
  }

  /** The vehicle `createVehicle` builds before routing: at its spawn point, heading into the
      canvas, rear axle half a wheelbase behind the centre and front axle a wheelbase ahead of the
      rear. */
  function SpawnedVehicle(m: MathLib, skalaPx: real, width: real, height: real, baseSpeed: real,
                          id: nat, arah: string, lane0: nat, vehicleType: string, exitLane: LanePref): (r: Veh)
    ensures r.id == id && r.laneIndex == lane0 + 1 && r.direction == arah && r.path.None?
    ensures !r.turning && !r.approachingTurn && r.blend.None?
    ensures r.speed == OrElse(baseSpeed, 0.10)
  {
    var sp := SpawnPositionFor(skalaPx, width, height, arah, lane0);
    var heading := m.atan2(sp.vy, sp.vx);
    var wb := InitialWheelbase(vehicleType);
    var co := wb * 0.5;
    var rear := Vec(sp.x - co * m.cos(heading), sp.y - co * m.sin(heading));
    var front := Vec(rear.x + wb * m.cos(heading), rear.y + wb * m.sin(heading));
    var lane := match exitLane
      case NumPref(n) => if n == 0 then NoPref else exitLane
      case StrPref(s) => if s == [] then NoPref else exitLane
      case NoPref => NoPref;
    Veh(id, sp.x, sp.y, sp.vx, sp.vy, arah, lane0 + 1, vehicleType, lane,
        OrElse(baseSpeed, 0.10), false, false, "straight", 0.0, None, None,
        AngleFromHeading(heading), 0.0, 0.0, wb, BodyLengthPx(vehicleType), None, rear, front, None)
  }

  /** `createVehicle`: with an entry point for its lane, the vehicle draws a route its lane arrow
      allows and is routed; without one it drives straight on along a 200 px line. */
  function NewVehicle(m: MathLib, lc: LaneCoords, laneArrows: map<string, seq<string>>, skalaPx: real,
                      width: real, height: real, baseSpeed: real,
                      id: nat, arah: string, lane0: nat, vehicleType: string, exitLane: LanePref, draw: real): (r: Veh)
    requires 0.0 <= draw < 1.0
    ensures r.id == id && r.laneIndex == lane0 + 1 && r.direction == arah
    ensures LaneKey(arah, lane0 + 1) in lc.entry ==> r.route in AllowedRoutes(ArrowFor(laneArrows, arah, lane0))
    ensures LaneKey(arah, lane0 + 1) !in lc.entry ==> r.turning && !r.approachingTurn && r.path.Some?
    ensures Sound(m) ==> PathOk(r)
  {
    var v := SpawnedVehicle(m, skalaPx, width, height, baseSpeed, id, arah, lane0, vehicleType, exitLane);
    if LaneKey(arah, v.laneIndex) in lc.entry then
      var route := ChooseRoute(AllowedRoutes(ArrowFor(laneArrows, arah, lane0)), draw);
      AssignExitAndControl(m, lc, width, height, v.(route := route))
    else
      var off := Vec(v.x + v.vx * 200.0, v.y + v.vy * 200.0);
      var path := PathOf(m, [Line(v.rear, off)]);
      PathTable(m, [Line(v.rear, off)]);
      v.(path := Some(path), turnLength := path.totalLength, turnTraveled := 0.0,
         approachingTurn := false, turning := true)
  }

  // ---------- the controller ----------

  /** The state of `createVehMovController`: its vehicles in creation order and the id counter. */
  class Controller {
    const m: MathLib
    const closest: (Path, Vec) -> ClosestPoint
    const laneArrows: map<string, seq<string>>
    const skalaPx: real
    const baseSpeed: real
    var laneCoordinates: LaneCoords
    var width: real
    var height: real
    var vehicles: seq<Veh>
    var nextId: nat

    /** Ids are below the counter and strictly increase along `vehicles`; every path is a
        well-formed table. */
    ghost predicate Valid()
      reads this
    {
      && Sound(m)
      && nextId >= 1
      && IdsIncreasing(vehicles)
      && (forall i :: 0 <= i < |vehicles| ==> vehicles[i].id < nextId)
      && (forall i :: 0 <= i < |vehicles| ==> PathOk(vehicles[i]))
    }

    constructor (m: MathLib, closest: (Path, Vec) -> ClosestPoint, laneCoordinates: LaneCoords,
                 laneArrows: map<string, seq<string>>, skalaPx: real, baseSpeed: real, width: real, height: real)
      requires Sound(m)
      ensures Valid()
      ensures vehicles == [] && nextId == 1
      ensures this.m == m && this.closest == closest && this.laneCoordinates == laneCoordinates
      ensures this.laneArrows == laneArrows && this.skalaPx == skalaPx && this.baseSpeed == baseSpeed
      ensures this.width == width && this.height == height
    {
      this.m := m;
      this.closest := closest;
      this.laneCoordinates := laneCoordinates;
      this.laneArrows := laneArrows;
      this.skalaPx := skalaPx;
      this.baseSpeed := baseSpeed;
      this.width := width;
      this.height := height;
      vehicles := [];
      nextId := 1;
    }

    /** `createVehicle`, with the route draw `Math.random()` as the parameter `draw`. */
    method CreateVehicle(arah: string, lane0: nat, vehicleType: string, exitLane: LanePref, draw: real) returns (v: Veh)
      requires Valid() && 0.0 <= draw < 1.0
      modifies this
      ensures Valid()
      ensures v == NewVehicle(m, laneCoordinates, laneArrows, skalaPx, width, height, baseSpeed,
                              old(nextId), arah, lane0, vehicleType, exitLane, draw)
      ensures vehicles == old(vehicles) + [v] && nextId == old(nextId) + 1
      ensures laneCoordinates == old(laneCoordinates) && width == old(width) && height == old(height)
    {
      var id := nextId;
      nextId := nextId + 1;
      v := NewVehicle(m, laneCoordinates, laneArrows, skalaPx, width, height, baseSpeed,
                      id, arah, lane0, vehicleType, exitLane, draw);
      vehicles := vehicles + [v];
    }

    /** `update(deltaMs)`: moves every vehicle, last to first, and removes those that left the
        canvas margin. */
    method Update(deltaMs: real)
      requires Valid()
      modifies this
      ensures Valid()
      ensures nextId == old(nextId) && laneCoordinates == old(laneCoordinates)
      ensures width == old(width) && height == old(height)
      ensures deltaMs <= 0.0 ==> vehicles == old(vehicles)
      ensures deltaMs > 0.0 ==> vehicles == Survivors(AdvanceAll(m, closest, old(vehicles), deltaMs), width, height)
    {
      if deltaMs <= 0.0 {
        return;
      }
      UpdateKeepsOrder(m, closest, vehicles, deltaMs, width, height, nextId);
      var list := MoveAndRemove(m, closest, vehicles, deltaMs, width, height);
      vehicles := list;
    }

    /** `clear`: no vehicles, and ids start again at 1. */
    method Clear()
      requires Valid()
      modifies this
      ensures Valid() && vehicles == [] && nextId == 1
      ensures laneCoordinates == old(laneCoordinates) && width == old(width) && height == old(height)
    {
      vehicles := [];
      nextId := 1;
    }

    /** `setCanvasSize`: both sizes must be given and non-zero. */
    method SetCanvasSize(w: real, h: real)
      requires Valid()
      modifies this
      ensures Valid() && vehicles == old(vehicles) && nextId == old(nextId)
      ensures w != 0.0 && h != 0.0 ==> width == w && height == h
      ensures !(w != 0.0 && h != 0.0) ==> width == old(width) && height == old(height)
    {
      if w != 0.0 && h != 0.0 {
        width := w;
        height := h;
      }
    }

    /** `setLaneCoordinates`: replaces the entry and exit maps that are given and re-routes every
        vehicle that is neither turning nor blending. */
    method SetLaneCoordinates(newEntry: Option<map<string, Vec>>, newExit: Option<seq<ExitSlot>>)
      requires Valid()
      modifies this
      ensures Valid() && nextId == old(nextId)
      ensures laneCoordinates.entry == (if newEntry.Some? then newEntry.value else old(laneCoordinates).entry)
      ensures laneCoordinates.exit == (if newExit.Some? then newExit.value else old(laneCoordinates).exit)
      ensures |vehicles| == |old(vehicles)|
      ensures forall i :: 0 <= i < |vehicles| ==>
        vehicles[i] == AssignExitAndControl(m, laneCoordinates, width, height, old(vehicles)[i])
    {
      laneCoordinates := LaneCoords(
        if newEntry.Some? then newEntry.value else laneCoordinates.entry,
        if newExit.Some? then newExit.value else laneCoordinates.exit);
      var lc := laneCoordinates;
      var vs := vehicles;
      var list := vs;
      var i := 0;
      while i < |list|
        invariant 0 <= i <= |list| == |vs|
        invariant forall j :: 0 <= j < i ==> list[j] == AssignExitAndControl(m, lc, width, height, vs[j])
        invariant forall j :: i <= j < |vs| ==> list[j] == vs[j]
      {
        list := list[i := AssignExitAndControl(m, lc, width, height, list[i])];
        i := i + 1;
      }
      forall j | 0 <= j < |list| ensures SameIdentity(vs[j], list[j]) && PathOk(list[j]) {
        assert list[j] == AssignExitAndControl(m, lc, width, height, vs[j]);
      }
      vehicles := list;
    }
  }
}
