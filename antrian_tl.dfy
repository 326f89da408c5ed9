/** The traffic-light enforcement pass of js/vehicles/antrian.js: a vehicle's front and rear
    points, its signed distance to its lane's entry point, the release of a yellow commitment,
    and the reaction to the light of its arm (commit or stop on yellow, stop on red, nothing on
    green). */
module AntrianTl {
  import opened Wrappers
  import opened Numeric
  import opened Geometry
  import opened Routing
  import opened AntrianGeom
  import opened Antrian
  import Lampu

  // ---------- front, rear and heading ----------

  /** The half length used along the box heading: `halfExtents.halfL`, else half the vehicle
      length. */
  function HalfLength(c: Car, b: Box): real {
    b.halfL.GetOr(VehicleLengthPx(c) * 0.5)
  }

  /** The point `center + side·len·(cos θ, sin θ)` of a box with angle θ. */
  function AlongAngle(m: MathLib, b: Box, theta: real, side: real, len: real): Vec {
    Vec(b.center.x + side * (m.cos(theta) * len), b.center.y + side * (m.sin(theta) * len))
  }

  /** `getVehicleFrontPoint`: the box's front point, else `frontX`/`frontY`, else half a length
      ahead of the box centre along its angle, else `x`/`y`. */
  function FrontPoint(m: MathLib, c: Car): (r: Option<Vec>)
    ensures c.box.Some? && c.box.value.front.Some? ==> r == c.box.value.front
    ensures r.None? ==> c.front.None? && c.pos.None?
  {
    if c.box.Some? && c.box.value.front.Some? then c.box.value.front
    else if c.front.Some? then c.front
    else if c.box.Some? && c.box.value.angle.Some? then
      Some(AlongAngle(m, c.box.value, c.box.value.angle.value, 1.0, HalfLength(c, c.box.value)))
    else c.pos
  }

  /** `getVehicleRearPoint`: the box's rear point, else `rearX`/`rearY`, else half a length behind
      the box centre, else the box centre, else `x`/`y`. */
  function RearPoint(m: MathLib, c: Car): (r: Option<Vec>)
    ensures c.box.Some? ==> r.Some?
    ensures c.box.Some? && c.box.value.rear.Some? ==> r == c.box.value.rear
  {
    if c.box.Some? && c.box.value.rear.Some? then c.box.value.rear
    else if c.rear.Some? then c.rear
    else if c.box.Some? && c.box.value.angle.Some? then
      Some(AlongAngle(m, c.box.value, c.box.value.angle.value, -1.0, HalfLength(c, c.box.value)))
    else if c.box.Some? then Some(c.box.value.center)
    else c.pos
  }

  /** Derived from the box angle alone, the front and rear points lie symmetrically about the box
      centre. */
  lemma FrontRearSymmetric(m: MathLib, c: Car)
    requires c.box.Some? && c.box.value.angle.Some?
    requires c.box.value.front.None? && c.box.value.rear.None? && c.front.None? && c.rear.None?
    ensures FrontPoint(m, c).Some? && RearPoint(m, c).Some?
    ensures Add(FrontPoint(m, c).value, RearPoint(m, c).value) == Scale(2.0, c.box.value.center)
  {
  }

  /** The unit vector of the box angle. */
  function AngleHeading(m: MathLib, theta: real): Vec {
    Vec(m.cos(theta), m.sin(theta))
  }

  /** The heading of the centre-line samples, from the first sample to the last, normalised. */
  function CenterlineHeading(m: MathLib, cl: seq<Vec>): Vec
    requires |cl| >= 2
  {
    Normalize(m, Sub(cl[|cl| - 1], cl[0]))
  }

  /** The heading `signedDistFrontToEntryAlongHeading` projects onto: the box angle, else the
      centre line (two samples or more), else rear to front; None when there is none of these. */
  function FrontHeading(m: MathLib, c: Car): (r: Option<Vec>)
    ensures r.None? <==> (c.box.None? || (c.box.value.angle.None? && |c.box.value.centerline| < 2))
                         && (c.front.None? || c.rear.None?)
  {
    if c.box.Some? && c.box.value.angle.Some? then Some(AngleHeading(m, c.box.value.angle.value))
    else if c.box.Some? && |c.box.value.centerline| >= 2 then Some(CenterlineHeading(m, c.box.value.centerline))
    else if c.front.Some? && c.rear.Some? then Some(Normalize(m, Sub(c.front.value, c.rear.value)))
    else None
  }

  /** The heading used to release a yellow commitment: the box angle, else the centre line; None
      otherwise. */
  function RearHeading(m: MathLib, c: Car): (r: Option<Vec>)
    ensures r.None? <==> c.box.None? || (c.box.value.angle.None? && |c.box.value.centerline| < 2)
    ensures r.Some? ==> FrontHeading(m, c) == r
  {
    if c.box.Some? && c.box.value.angle.Some? then Some(AngleHeading(m, c.box.value.angle.value))
    else if c.box.Some? && |c.box.value.centerline| >= 2 then Some(CenterlineHeading(m, c.box.value.centerline))
    else None
  }

  /** The component of `e - p` along `h`: positive while `e` lies ahead of `p`. */
  function Toward(p: Vec, e: Vec, h: Vec): real {
    (e.x - p.x) * h.x + (e.y - p.y) * h.y
  }

  /** `signedDistFrontToEntryAlongHeading`: how far the entry lies ahead of the front along the
      heading, or, without a heading, the plain distance front to entry. */
  function SignedDistFront(m: MathLib, c: Car, e: Vec): (r: Option<real>)
    ensures r.Some? <==> FrontPoint(m, c).Some?
    ensures r.Some? && FrontHeading(m, c).Some? ==> r.value == Toward(FrontPoint(m, c).value, e, FrontHeading(m, c).value)
  {
    match FrontPoint(m, c)
    case None => None
    case Some(front) =>
      match FrontHeading(m, c)
      case Some(h) => Some(Toward(front, e, h))
      case None => Some(m.hypot(e.x - front.x, e.y - front.y))
  }

  /** Without a heading a vehicle counts as past the entry only with its front exactly on it. */
  lemma NoHeadingNotPast(m: MathLib, c: Car, e: Vec)
    requires Sound(m)
    requires FrontHeading(m, c).None? && FrontPoint(m, c).Some?
    ensures SignedDistFront(m, c, e).value >= 0.0
  {
  }

  // ---------- the gate and the release ----------

  /** A vehicle in its spawn grace period: a truthy `createdAt` less than 3.5 s ago. */
  predicate InGrace(createdAt: Option<real>, now: real) {
    createdAt.Some? && createdAt.value != 0.0 && now - createdAt.value < SpawnGraceMs
  }

  /** The front is at or past the entry. */
  predicate PassedEntry(m: MathLib, c: Car, e: Vec) {
    var sd := SignedDistFront(m, c, e);
    sd.Some? && sd.value <= 0.0
  }

  /** The rear has cleared the entry along the heading, which releases a yellow commitment. */
  predicate RearCleared(m: MathLib, c: Car, e: Vec) {
    var rear := RearPoint(m, c);
    var h := RearHeading(m, c);
    rear.Some? && h.Some? && Toward(rear.value, e, h.value) <= 0.0
  }

  /** Still committed after the release check. */
  predicate StillCommitted(m: MathLib, c: Car, e: Vec) {
    c.idm.tl.committedOnYellow && !RearCleared(m, c, e)
  }

  /** The distance from the front to the entry. */
  function FrontDist(m: MathLib, c: Car, e: Vec): real
    requires FrontPoint(m, c).Some?
  {
    var front := FrontPoint(m, c).value;
    m.hypot(e.x - front.x, e.y - front.y)
  }

  function WithTl(c: Car, tl: TlState): Car {
    c.(idm := c.idm.(tl := tl))
  }

  // ---------- the light's allowance ----------

  /** The distance left to stop in: the front distance less the laser stop margin and the safety
      buffer, at least 0. */
  function StoppingDist(dist: real): (r: real)
    ensures r >= 0.0 && r >= dist - LaserSafeStopPx - SafetyBufferPx
  {
    Max(0.0, dist - LaserSafeStopPx - SafetyBufferPx)
  }

  /** The speed the ramp allows: `desiredSpeed || maxSpeed || 0.0001` times
      (stoppingDist / lookahead)^1.6. */
  function DesiredRampSpeed(m: MathLib, c: Car, stoppingDist: real): real {
    var rampRaw := Max(0.0, Min(1.0, stoppingDist / StopLookaheadPx));
    var v0 := OrElse(c.desiredSpeed.GetOr(0.0), OrElse(c.maxSpeed.GetOr(0.0), 0.0001));
    Part(v0, m.pow(rampRaw, TlRampExp))
  }

  /** `allowedFromTL`: the least of the speed a comfortable deceleration could still stop from,
      the speed covering the stopping distance in one frame and the ramp speed; 0 within half the
      safety buffer. */
  function AllowedFromTl(m: MathLib, c: Car, dist: real, dt: real): (r: real)
    requires dt > 0.0
    ensures StoppingDist(dist) <= SafetyBufferPx * 0.5 ==> r == 0.0
    ensures r <= StoppingDist(dist) / dt
  {
    var sd := StoppingDist(dist);
    var allowedByDecel := m.sqrt(2.0 * Max(0.000000001, TlComfortDecel) * Max(0.0, sd));
    var allowedByMove := sd / dt;
    if sd <= SafetyBufferPx * 0.5 then 0.0
    else Min(Min(allowedByDecel, allowedByMove), DesiredRampSpeed(m, c, sd))
  }

  /** At the allowed speed the front reaches at most the stopping point within one frame. */
  lemma AllowedStopsInTime(m: MathLib, c: Car, dist: real, dt: real)
    requires dt > 0.0
    ensures AllowedFromTl(m, c, dist, dt) * dt <= StoppingDist(dist)
  {
    var r := AllowedFromTl(m, c, dist, dt);
    MulMonotone(r, StoppingDist(dist) / dt, dt);
  }

  // ---------- stopping ----------

  /** The stop speed before the final `Math.min`: the target min(intended, allowed), but no lower
      than one frame of comfortable deceleration below `currentV`. */
  function StopTarget(speed: Option<real>, idmV: Option<real>, allowed: real, dt: real): (r: real)
    ensures r >= 0.0
  {
    var currentV := if idmV.Some? then idmV.value else speed.GetOr(0.0);
    var intended := speed.GetOr(0.0);
    var target := Min(intended, allowed);
    var maxDecelPerFrame := Part(Max(0.000000001, TlComfortDecel), dt);
    if target < currentV - maxDecelPerFrame then Max(0.0, currentV - maxDecelPerFrame)
    else Max(0.0, target)
  }

  /** The stopping rule as written: `v.speed = Math.min(v.speed || newSpeed, newSpeed)`, and 0 when
      the light allows nothing. A prior speed of 0 is falsy and so does not bound the result. */
  function StopSpeedAsWritten(speed: Option<real>, idmV: Option<real>, allowed: real, dt: real): (r: real)
    ensures allowed == 0.0 ==> r == 0.0
    ensures speed.None? || speed.value >= 0.0 ==> r >= 0.0
    ensures speed.Some? && speed.value > 0.0 ==> r <= speed.value
  {
    var newSpeed := StopTarget(speed, idmV, allowed, dt);
    if allowed == 0.0 then 0.0 else Min(OrElse(speed.GetOr(0.0), newSpeed), newSpeed)
  }

  /** A vehicle the IDM pass stopped (speed 0, previous speed 1 px/ms) is given a positive speed by
      the red-light rule as written. */
  lemma StopSpeedAsWrittenRestarts()
    ensures StopSpeedAsWritten(Some(0.0), Some(1.0), 1.0, 1.0) == 0.9994
  {
  }

  /** The stopping rule with the evidently intended `v.speed ?? newSpeed`: the light only ever
      lowers a numeric speed, never below 0, and to 0 when it allows nothing. */
  function StopSpeed(speed: Option<real>, idmV: Option<real>, allowed: real, dt: real): (r: real)
    ensures allowed == 0.0 ==> r == 0.0
    ensures speed.None? || speed.value >= 0.0 ==> r >= 0.0
    ensures speed.Some? && speed.value >= 0.0 ==> r <= speed.value
    ensures r <= StopTarget(speed, idmV, allowed, dt)
  {
    var newSpeed := StopTarget(speed, idmV, allowed, dt);
    if allowed == 0.0 then 0.0 else Min(speed.GetOr(newSpeed), newSpeed)
  }

  /** The two rules agree except on a prior speed of exactly 0. */
  lemma StopSpeedAgrees(speed: Option<real>, idmV: Option<real>, allowed: real, dt: real)
    requires speed.None? || speed.value != 0.0
    ensures StopSpeed(speed, idmV, allowed, dt) == StopSpeedAsWritten(speed, idmV, allowed, dt)
  {
  }

  /** An enforced stop (red, or yellow without commitment): the stop speed and the reason. */
  function Stop(c: Car, tl: TlState, allowed: real, dt: real, why: Reason): (r: Car)
    ensures r.idm.tl == tl.(enforced := Some(true), allowed := Some(allowed), reason := Some(why))
    ensures r.speed == Some(StopSpeed(c.speed, if c.idm.prov.Some? then Some(c.idm.prov.value.v) else None, allowed, dt))
    ensures r == c.(speed := r.speed, idm := c.idm.(tl := r.idm.tl))
  {
    var idmV := if c.idm.prov.Some? then Some(c.idm.prov.value.v) else None;
    WithTl(c, tl.(enforced := Some(true), allowed := Some(allowed), reason := Some(why)))
      .(speed := Some(StopSpeed(c.speed, idmV, allowed, dt)))
  }

  // ---------- the yellow decision ----------

  /** `canReachBeforeEnd`: with a positive time left on yellow, the front reaches the entry at the
      current speed (at least 5e-5 px/ms) no later than 300 ms before the end. */
  predicate CanReachBeforeEnd(c: Car, dist: real, timeLeft: Option<real>) {
    var currentSpeed := if c.speed.Some? then c.speed.value
      else if c.idm.prov.Some? then c.idm.prov.value.v else 0.0;
    var speedForEst := Max(currentSpeed, YellowMinSpeedForTimeCheck);
    timeLeft.Some? && timeLeft.value > 0.0
      && dist / speedForEst <= Max(0.0, timeLeft.value - YellowTimeMarginMs)
  }

  /** The reaction within the lookahead to the light of the vehicle's arm. */
  function React(m: MathLib, c: Car, tl: TlState, dist: real, light: Option<Lampu.Color>, timeLeft: Option<real>, dt: real): Car
    requires dt > 0.0
  {
    var allowed := AllowedFromTl(m, c, dist, dt);
    if light.None? then WithTl(c, tl)
    else if light.value.Hijau? then WithTl(c, tl.(enforced := Some(false), reason := Some(Green)))
    else if light.value.Merah? then Stop(c, tl, allowed, dt, RedStop)
    else
      var within := dist <= YellowCommitDistancePx;
      if within || CanReachBeforeEnd(c, dist, timeLeft) then
        WithTl(c, tl.(committedOnYellow := true, enforced := Some(false),
                      reason := Some(if within then YellowCommitClose else YellowCommitTime)))
      else Stop(c, tl, allowed, dt, StopOnYellow)
  }

  /** The pass for a vehicle whose lane has the entry point `e`. */
  function TlAt(m: MathLib, c: Car, e: Vec, light: Option<Lampu.Color>, timeLeft: Option<real>, dt: real): Car
    requires dt > 0.0
  {
    var passed := PassedEntry(m, c, e);
    var committed := StillCommitted(m, c, e);
    var tl := c.idm.tl.(passedEntry := passed, committedOnYellow := committed);
    if passed || committed then
      WithTl(c, tl.(enforced := Some(false), reason := Some(if passed then AlreadyPastEntry else CommittedOnYellow)))
    else if FrontPoint(m, c).None? then WithTl(c, tl)
    else
      var dist := FrontDist(m, c, e);
      if dist <= StopLookaheadPx then React(m, c, tl, dist, light, timeLeft, dt)
      else WithTl(c, tl.(enforced := Some(false), reason := Some(OutOfLookahead)))
  }

  /** `lampu.status[v.direction]`. */
  function LightOf(status: map<Arm, Lampu.Color>, direction: string): Option<Lampu.Color> {
    match ParseArm(direction)
    case None => None
    case Some(a) => if a in status then Some(status[a]) else None
  }

  /** The entry point of the vehicle's lane, `entry[`${direction}_${laneIndex}`]`. */
  function EntryOf(entry: map<string, Vec>, c: Car): Option<Vec> {
    if c.laneIndex.None? then None
    else
      var key := LaneKey(c.direction, c.laneIndex.value);
      if key in entry then Some(entry[key]) else None
  }

  /** One vehicle's turn in the traffic-light loop: vehicles without direction or lane index are
      skipped, those in the spawn grace period only marked, and those whose lane has no entry
      point left alone. `timeLeft` holds the time left on yellow per direction. */
  function TlStep(m: MathLib, c: Car, status: map<Arm, Lampu.Color>, entry: map<string, Vec>,
                  timeLeft: map<string, real>, now: real, dt: real): (r: Car)
    requires dt > 0.0
  {
    if c.direction == "" || c.laneIndex.None? then c
    else if InGrace(c.createdAt, now) then WithTl(c, c.idm.tl.(skipped := true))
    else
      match EntryOf(entry, c)
      case None => c
      case Some(e) =>
        TlAt(m, c, e, LightOf(status, c.direction),
             if c.direction in timeLeft then Some(timeLeft[c.direction]) else None, dt)
  }

  // ---------- what the pass promises ----------

  /** The reaction changes only the speed and `_idm.trafficLight`, and never raises a numeric,
      non-negative speed nor makes it negative. */
  lemma ReactEffect(m: MathLib, c: Car, tl: TlState, dist: real, light: Option<Lampu.Color>, timeLeft: Option<real>, dt: real)
    requires dt > 0.0
    ensures var r := React(m, c, tl, dist, light, timeLeft, dt);
      && r == c.(speed := r.speed, idm := c.idm.(tl := r.idm.tl))
      && (c.speed.Some? && c.speed.value >= 0.0 ==> r.speed.Some? && 0.0 <= r.speed.value <= c.speed.value)
  {
  }

  /** The same for the pass of a vehicle with an entry point. */
  lemma TlAtEffect(m: MathLib, c: Car, e: Vec, light: Option<Lampu.Color>, timeLeft: Option<real>, dt: real)
    requires dt > 0.0
    ensures var r := TlAt(m, c, e, light, timeLeft, dt);
      && r == c.(speed := r.speed, idm := c.idm.(tl := r.idm.tl))
      && (c.speed.Some? && c.speed.value >= 0.0 ==> r.speed.Some? && 0.0 <= r.speed.value <= c.speed.value)
  {
    var passed := PassedEntry(m, c, e);
    var committed := StillCommitted(m, c, e);
    var tl := c.idm.tl.(passedEntry := passed, committedOnYellow := committed);
    if !passed && !committed && FrontPoint(m, c).Some? {
      ReactEffect(m, c, tl, FrontDist(m, c, e), light, timeLeft, dt);
    }
  }

  /** Everything but the speed and `_idm.trafficLight` is left as it was. */
  lemma TlStepKeepsVehicle(m: MathLib, c: Car, status: map<Arm, Lampu.Color>, entry: map<string, Vec>,
                           timeLeft: map<string, real>, now: real, dt: real)
    requires dt > 0.0
    ensures var r := TlStep(m, c, status, entry, timeLeft, now, dt);
      r == c.(speed := r.speed, idm := c.idm.(tl := r.idm.tl))
  {
    TlStepEffect(m, c, status, entry, timeLeft, now, dt);
  }

  /** The light never raises a numeric, non-negative speed and never makes it negative. */
  lemma TlNeverSpeedsUp(m: MathLib, c: Car, status: map<Arm, Lampu.Color>, entry: map<string, Vec>,
                        timeLeft: map<string, real>, now: real, dt: real)
    requires dt > 0.0
    requires c.speed.Some? && c.speed.value >= 0.0
    ensures var r := TlStep(m, c, status, entry, timeLeft, now, dt);
      r.speed.Some? && 0.0 <= r.speed.value <= c.speed.value
  {
    TlStepEffect(m, c, status, entry, timeLeft, now, dt);
  }

  /** Both facts for one vehicle's turn, by cases on its guards. */
  lemma TlStepEffect(m: MathLib, c: Car, status: map<Arm, Lampu.Color>, entry: map<string, Vec>,
                     timeLeft: map<string, real>, now: real, dt: real)
    requires dt > 0.0
    ensures var r := TlStep(m, c, status, entry, timeLeft, now, dt);
      && r == c.(speed := r.speed, idm := c.idm.(tl := r.idm.tl))
      && (c.speed.Some? && c.speed.value >= 0.0 ==> r.speed.Some? && 0.0 <= r.speed.value <= c.speed.value)
  {
    if c.direction != "" && c.laneIndex.Some? && !InGrace(c.createdAt, now) && EntryOf(entry, c).Some? {
      TlAtEffect(m, c, EntryOf(entry, c).value, LightOf(status, c.direction),
                 if c.direction in timeLeft then Some(timeLeft[c.direction]) else None, dt);
    }
  }

  /** A vehicle whose front is past its entry, or which is still committed on yellow, is not
      enforced and keeps its speed. */
  lemma PastOrCommittedNotEnforced(m: MathLib, c: Car, e: Vec, light: Option<Lampu.Color>, timeLeft: Option<real>, dt: real)
    requires dt > 0.0
    requires PassedEntry(m, c, e) || StillCommitted(m, c, e)
    ensures var r := TlAt(m, c, e, light, timeLeft, dt);
      && r.speed == c.speed
      && r.idm.tl.enforced == Some(false)
      && r.idm.tl.passedEntry == PassedEntry(m, c, e)
      && r.idm.tl.reason == Some(if PassedEntry(m, c, e) then AlreadyPastEntry else CommittedOnYellow)
  {
  }

  /** On yellow within the lookahead a vehicle neither past its entry nor committed commits exactly
      when it is within 40 px of the entry or can reach it 300 ms before the end; committing leaves
      its speed alone, and otherwise it is stopped. */
  lemma YellowCommitRule(m: MathLib, c: Car, e: Vec, timeLeft: Option<real>, dt: real)
    requires dt > 0.0
    requires !PassedEntry(m, c, e) && !StillCommitted(m, c, e)
    requires FrontPoint(m, c).Some? && FrontDist(m, c, e) <= StopLookaheadPx
    ensures var r := TlAt(m, c, e, Some(Lampu.Kuning), timeLeft, dt);
      var dist := FrontDist(m, c, e);
      var commit := dist <= YellowCommitDistancePx || CanReachBeforeEnd(c, dist, timeLeft);
      && (r.idm.tl.committedOnYellow <==> commit)
      && (commit ==> r.speed == c.speed && r.idm.tl.enforced == Some(false))
      && (!commit ==> r.idm.tl.enforced == Some(true) && r.idm.tl.reason == Some(StopOnYellow))
  {
  }

  /** Without a time left on yellow the only reason to commit is being within 40 px. */
  lemma YellowWithoutTimeLeft(m: MathLib, c: Car, e: Vec, dt: real)
    requires dt > 0.0
    requires !PassedEntry(m, c, e) && !StillCommitted(m, c, e)
    requires FrontPoint(m, c).Some? && FrontDist(m, c, e) <= StopLookaheadPx
    ensures TlAt(m, c, e, Some(Lampu.Kuning), None, dt).idm.tl.committedOnYellow
            <==> FrontDist(m, c, e) <= YellowCommitDistancePx
  {
    YellowCommitRule(m, c, e, None, dt);
  }

  /** A yellow commitment is dropped only once the rear has cleared the vehicle's entry along its
      heading. */
  lemma CommitReleasedOnlyPastRear(m: MathLib, c: Car, status: map<Arm, Lampu.Color>, entry: map<string, Vec>,
                                   timeLeft: map<string, real>, now: real, dt: real)
    requires dt > 0.0
    ensures var r := TlStep(m, c, status, entry, timeLeft, now, dt);
      c.idm.tl.committedOnYellow && !r.idm.tl.committedOnYellow ==>
        EntryOf(entry, c).Some? && RearCleared(m, c, EntryOf(entry, c).value)
  {
  }

  /** Red within the lookahead: the vehicle is stopped to a non-negative speed no higher than
      before, and to 0 when its stopping distance is at most half the safety buffer. */
  lemma RedStops(m: MathLib, c: Car, e: Vec, timeLeft: Option<real>, dt: real)
    requires dt > 0.0
    requires !PassedEntry(m, c, e) && !StillCommitted(m, c, e)
    requires FrontPoint(m, c).Some? && FrontDist(m, c, e) <= StopLookaheadPx
    requires c.speed.None? || c.speed.value >= 0.0
    ensures var r := TlAt(m, c, e, Some(Lampu.Merah), timeLeft, dt);
      && r.idm.tl.enforced == Some(true) && r.idm.tl.reason == Some(RedStop)
      && r.speed.Some? && r.speed.value >= 0.0
      && (c.speed.Some? ==> r.speed.value <= c.speed.value)
      && (StoppingDist(FrontDist(m, c, e)) <= SafetyBufferPx * 0.5 ==> r.speed == Some(0.0))
  {
  }

  // ---------- the pass ----------

  /** The pass over all vehicles: nothing without a light or without entry points. */
  function TlPass(m: MathLib, cs: seq<Car>, status: Option<map<Arm, Lampu.Color>>, entry: Option<map<string, Vec>>,
                  timeLeft: map<string, real>, now: real, dt: real): (r: seq<Car>)
    requires dt > 0.0
    ensures |r| == |cs|
  {
    if status.None? || entry.None? then cs
    else seq(|cs|, k requires 0 <= k < |cs| => TlStep(m, cs[k], status.value, entry.value, timeLeft, now, dt))
  }

  /** The traffic-light loop `for (const v of vehicles)`, in place. */
  method EnforceTrafficLights(m: MathLib, cars: array<Car>, status: Option<map<Arm, Lampu.Color>>,
                              entry: Option<map<string, Vec>>, timeLeft: map<string, real>, now: real, dt: real)
    requires dt > 0.0
    modifies cars
    ensures cars[..] == TlPass(m, old(cars[..]), status, entry, timeLeft, now, dt)
  {
    if status.None? || entry.None? {
      return;
    }
    ghost var cs := cars[..];
    for i := 0 to cars.Length
      invariant forall k :: 0 <= k < i ==> cars[k] == TlStep(m, cs[k], status.value, entry.value, timeLeft, now, dt)
      invariant forall k :: i <= k < cars.Length ==> cars[k] == cs[k]
    {
      cars[i] := TlStep(m, cars[i], status.value, entry.value, timeLeft, now, dt);
    }
  }
}
