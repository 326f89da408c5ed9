/** The box geometry of js/vehicles/antrian.js: the separating-axis overlap test of two vehicle
    boxes, a box moved by an offset, and the bisection for the largest part of a frame's motion
    two vehicles can make without their boxes overlapping. */
module AntrianGeom {
  import opened Wrappers
  import opened Numeric
  import opened Geometry

  /** A vehicle's `debugBox`: its corners (None when they are not an array), centre, heading
      angle, half extents, centre-line samples and front and rear points, each None or empty when
      missing. */
  datatype Box = Box(
    corners: Option<seq<Vec>>, center: Vec, angle: Option<real>,
    halfL: Option<real>, halfW: Option<real>,
    centerline: seq<Vec>, front: Option<Vec>, rear: Option<Vec>)

  /** `projectPointOntoAxis`. */
  function Project(p: Vec, axis: Vec): real {
    p.x * axis.x + p.y * axis.y
  }

  /** The axis of edge `i` (from corner `i` to the next), unless the edge has no length. */
  function EdgeAxis(m: MathLib, cs: seq<Vec>, i: nat): (r: seq<Vec>)
    requires 2 <= |cs| && i < 2
    ensures |r| <= 1
  {
    var e := Sub(cs[(i + 1) % |cs|], cs[i]);
    var l := m.hypot(e.x, e.y);
    if l <= 0.000000001 then [] else [Vec(e.x / l, e.y / l)]
  }

  /** `pushAxes`: the axes of the first two edges of a box with at least two corners. */
  function EdgeAxes(m: MathLib, cs: seq<Vec>): (r: seq<Vec>)
    ensures |r| <= 2
    ensures |cs| < 2 ==> r == []
  {
    if |cs| < 2 then [] else EdgeAxis(m, cs, 0) + EdgeAxis(m, cs, 1)
  }

  /** The interval `[minA, maxA]` of the projections, `Empty` while it is still
      `[Infinity, -Infinity]`. */
  datatype Extent = Empty | Span(lo: real, hi: real)

  /** One more projection `p`. */
  function Widen(e: Extent, p: real): (r: Extent)
    ensures r.Span? && r.lo <= p <= r.hi
    ensures e.Span? ==> r.lo <= e.lo && e.hi <= r.hi
    ensures e.Span? ==> (r.lo == e.lo || r.lo == p) && (r.hi == e.hi || r.hi == p)
  {
    match e
    case Empty => Span(p, p)
    case Span(lo, hi) => Span(if p < lo then p else lo, if p > hi then p else hi)
  }

  /** The extent of the corners' projections onto `axis`. */
  function ExtentOf(cs: seq<Vec>, axis: Vec): (r: Extent)
    ensures r.Span? <==> |cs| > 0
  {
    if cs == [] then Empty else Widen(ExtentOf(cs[..|cs| - 1], axis), Project(cs[|cs| - 1], axis))
  }

  /** The extent holds every projection and is attained at both ends. */
  lemma {:induction false} ExtentBounds(cs: seq<Vec>, axis: Vec)
    requires |cs| > 0
    ensures forall i :: 0 <= i < |cs| ==> ExtentOf(cs, axis).lo <= Project(cs[i], axis) <= ExtentOf(cs, axis).hi
    ensures exists i :: 0 <= i < |cs| && ExtentOf(cs, axis).lo == Project(cs[i], axis)
    ensures exists i :: 0 <= i < |cs| && ExtentOf(cs, axis).hi == Project(cs[i], axis)
  {
    var n := |cs|;
    if n > 1 {
      var init := cs[..n - 1];
      ExtentBounds(init, axis);
      assert forall i :: 0 <= i < n - 1 ==> init[i] == cs[i];
      var i0 :| 0 <= i0 < n - 1 && ExtentOf(init, axis).lo == Project(init[i0], axis);
      var i1 :| 0 <= i1 < n - 1 && ExtentOf(init, axis).hi == Project(init[i1], axis);
      if ExtentOf(cs, axis).lo == ExtentOf(init, axis).lo {
        assert ExtentOf(cs, axis).lo == Project(cs[i0], axis);
      } else {
        assert ExtentOf(cs, axis).lo == Project(cs[n - 1], axis);
      }
      if ExtentOf(cs, axis).hi == ExtentOf(init, axis).hi {
        assert ExtentOf(cs, axis).hi == Project(cs[i1], axis);
      } else {
        assert ExtentOf(cs, axis).hi == Project(cs[n - 1], axis);
      }
    } else {
      assert cs[..0] == [];
      assert ExtentOf(cs, axis).lo == Project(cs[0], axis);
    }
  }

  /** The `for (const p of corners)` loop keeping `min` and `max` of the projections. */
  method ProjectExtent(cs: seq<Vec>, axis: Vec) returns (e: Extent)
    ensures e == ExtentOf(cs, axis)
  {
    e := Empty;
    var i := 0;
    while i < |cs|
      invariant 0 <= i <= |cs|
      invariant e == ExtentOf(cs[..i], axis)
    {
      assert cs[..i + 1][..i] == cs[..i];
      var pr := Project(cs[i], axis);
      if e.Empty? {
        e := Span(pr, pr);
      } else {
        var minA, maxA := e.lo, e.hi;
        if pr < minA {
          minA := pr;
        }
        if pr > maxA {
          maxA := pr;
        }
        e := Span(minA, maxA);
      }
      i := i + 1;
    }
    assert cs[..|cs|] == cs;
  }

  /** `maxA < minB - 1e-6 || maxB < minA - 1e-6`, where an empty extent separates. */
  predicate Separated(a: Extent, b: Extent) {
    a.Empty? || b.Empty? || a.hi < b.lo - 0.000001 || b.hi < a.lo - 0.000001
  }

  /** The axes the test tries: those of the first box, then those of the second. */
  function AxesOf(m: MathLib, ca: seq<Vec>, cb: seq<Vec>): seq<Vec> {
    EdgeAxes(m, ca) + EdgeAxes(m, cb)
  }

  /** `obbOverlapSAT`: both boxes have corners and no tried axis separates their projections. */
  predicate Overlaps(m: MathLib, a: Option<Box>, b: Option<Box>) {
    && a.Some? && b.Some? && a.value.corners.Some? && b.value.corners.Some?
    && CornersOverlap(m, a.value.corners.value, b.value.corners.value)
  }

  /** No tried axis separates the projections of the two corner lists. */
  predicate CornersOverlap(m: MathLib, ca: seq<Vec>, cb: seq<Vec>) {
    forall axis :: axis in AxesOf(m, ca, cb) ==> !Separated(ExtentOf(ca, axis), ExtentOf(cb, axis))
  }

  /** The axis loop of `obbOverlapSAT`, returning at the first separating axis. */
  method ObbOverlapSAT(m: MathLib, a: Option<Box>, b: Option<Box>) returns (r: bool)
    ensures r == Overlaps(m, a, b)
  {
    if a.None? || b.None? || a.value.corners.None? || b.value.corners.None? {
      return false;
    }
    var ca, cb := a.value.corners.value, b.value.corners.value;
    var axes := AxesOf(m, ca, cb);
    ghost var seps := SeparationsOf(ca, cb, axes);
    var k := 0;
    while k < |axes|
      invariant 0 <= k <= |axes|
      invariant forall j :: 0 <= j < k ==> !seps[j]
    {
      var ea := ProjectExtent(ca, axes[k]);
      var eb := ProjectExtent(cb, axes[k]);
      assert seps[k] == Separated(ea, eb);
      if Separated(ea, eb) {
        SeparationsWitness(m, ca, cb, k);
        return false;
      }
      k := k + 1;
    }
    SeparationsNone(m, ca, cb);
    return true;
  }

  /** Whether each of `axes` separates the projections of the two corner lists. */
  function SeparationsOf(ca: seq<Vec>, cb: seq<Vec>, axes: seq<Vec>): (r: seq<bool>)
    ensures |r| == |axes|
    ensures forall j :: 0 <= j < |axes| ==> r[j] == Separated(ExtentOf(ca, axes[j]), ExtentOf(cb, axes[j]))
  {
    seq(|axes|, j requires 0 <= j < |axes| => Separated(ExtentOf(ca, axes[j]), ExtentOf(cb, axes[j])))
  }

  /** A separating tried axis: the corner lists do not overlap. */
  lemma SeparationsWitness(m: MathLib, ca: seq<Vec>, cb: seq<Vec>, k: nat)
    requires k < |AxesOf(m, ca, cb)| && SeparationsOf(ca, cb, AxesOf(m, ca, cb))[k]
    ensures !CornersOverlap(m, ca, cb)
  {
    assert AxesOf(m, ca, cb)[k] in AxesOf(m, ca, cb);
  }

  /** No separating tried axis: the corner lists overlap. */
  lemma SeparationsNone(m: MathLib, ca: seq<Vec>, cb: seq<Vec>)
    requires forall j :: 0 <= j < |AxesOf(m, ca, cb)| ==> !SeparationsOf(ca, cb, AxesOf(m, ca, cb))[j]
    ensures CornersOverlap(m, ca, cb)
  {
    var axes := AxesOf(m, ca, cb);
    forall axis | axis in axes
      ensures !Separated(ExtentOf(ca, axis), ExtentOf(cb, axis))
    {
      var j :| 0 <= j < |axes| && axes[j] == axis;
      assert !SeparationsOf(ca, cb, axes)[j];
    }
  }

  /** The test does not depend on the order of the two boxes. */
  lemma OverlapSymmetric(m: MathLib, a: Option<Box>, b: Option<Box>)
    ensures Overlaps(m, a, b) == Overlaps(m, b, a)
  {
    if a.Some? && b.Some? && a.value.corners.Some? && b.value.corners.Some? {
      var ca, cb := a.value.corners.value, b.value.corners.value;
      assert forall axis :: axis in AxesOf(m, ca, cb) <==> axis in AxesOf(m, cb, ca);
    }
  }

  // ---------- moving a box ----------

  function ShiftPoints(cs: seq<Vec>, d: Vec): (r: seq<Vec>)
    ensures |r| == |cs|
    ensures forall i :: 0 <= i < |cs| ==> r[i] == Add(cs[i], d)
  {
    seq(|cs|, i requires 0 <= i < |cs| => Add(cs[i], d))
  }

  /** `shiftedDebugBox`: the corners and the centre moved by `(dx, dy)`, with the same angle and
      half extents and none of the samples or end points; null without a box or corners. */
  function ShiftedDebugBox(db: Option<Box>, dx: real, dy: real): (r: Option<Box>)
    ensures r.Some? <==> db.Some? && db.value.corners.Some?
    ensures r.Some? ==> r.value.corners == Some(ShiftPoints(db.value.corners.value, Vec(dx, dy)))
    ensures r.Some? ==> r.value.center == Add(db.value.center, Vec(dx, dy))
    ensures r.Some? ==> r.value.angle == db.value.angle && r.value.halfL == db.value.halfL && r.value.halfW == db.value.halfW
  {
    if db.None? || db.value.corners.None? then None
    else
      var b := db.value;
      Some(Box(Some(ShiftPoints(b.corners.value, Vec(dx, dy))), Add(b.center, Vec(dx, dy)), b.angle,
               b.halfL, b.halfW, [], None, None))
  }

  /** Moving points moves their projections by the projection of the offset. */
  lemma ProjectShift(p: Vec, d: Vec, axis: Vec)
    ensures Project(Add(p, d), axis) == Project(p, axis) + Project(d, axis)
  {
    calc {
      Project(Add(p, d), axis);
      (p.x + d.x) * axis.x + (p.y + d.y) * axis.y;
      p.x * axis.x + d.x * axis.x + p.y * axis.y + d.y * axis.y;
    }
  }

  function ShiftExtent(e: Extent, c: real): Extent {
    match e
    case Empty => Empty
    case Span(lo, hi) => Span(lo + c, hi + c)
  }

  lemma {:induction false} ExtentOfShift(cs: seq<Vec>, d: Vec, axis: Vec)
    ensures ExtentOf(ShiftPoints(cs, d), axis) == ShiftExtent(ExtentOf(cs, axis), Project(d, axis))
  {
    if cs != [] {
      var n := |cs|;
      assert ShiftPoints(cs, d)[..n - 1] == ShiftPoints(cs[..n - 1], d);
      ExtentOfShift(cs[..n - 1], d, axis);
      ProjectShift(cs[n - 1], d, axis);
    }
  }

  lemma EdgeAxesOfShift(m: MathLib, cs: seq<Vec>, d: Vec)
    ensures EdgeAxes(m, ShiftPoints(cs, d)) == EdgeAxes(m, cs)
  {
    if |cs| >= 2 {
      var s := ShiftPoints(cs, d);
      assert Sub(s[1 % |cs|], s[0]) == Sub(cs[1 % |cs|], cs[0]);
      assert Sub(s[2 % |cs|], s[1]) == Sub(cs[2 % |cs|], cs[1]);
    }
  }

  /** Moving both boxes by the same offset does not change whether they overlap. */
  lemma OverlapTranslationInvariant(m: MathLib, a: Option<Box>, b: Option<Box>, dx: real, dy: real)
    ensures Overlaps(m, ShiftedDebugBox(a, dx, dy), ShiftedDebugBox(b, dx, dy)) == Overlaps(m, a, b)
  {
    if a.Some? && b.Some? && a.value.corners.Some? && b.value.corners.Some? {
      var d := Vec(dx, dy);
      var ca, cb := a.value.corners.value, b.value.corners.value;
      var sa, sb := ShiftPoints(ca, d), ShiftPoints(cb, d);
      EdgeAxesOfShift(m, ca, d);
      EdgeAxesOfShift(m, cb, d);
      assert AxesOf(m, sa, sb) == AxesOf(m, ca, cb);
      forall axis | axis in AxesOf(m, ca, cb)
        ensures Separated(ExtentOf(sa, axis), ExtentOf(sb, axis)) == Separated(ExtentOf(ca, axis), ExtentOf(cb, axis))
      {
        ExtentOfShift(ca, d, axis);
        ExtentOfShift(cb, d, axis);
      }
    }
  }

  // ---------- the bisection ----------

  /** What `computeMaxNonOverlapScale` reads from a vehicle: its box, heading components
      (`vx || 0`, `vy || 0`) and speed. */
  datatype Mover = Mover(box: Option<Box>, vx: real, vy: real, speed: real)

  /** Speed times time: a move's length along one axis. */
  function Travel(c: real, speed: real, dt: real): real {
    c * speed * dt
  }

  /** A fraction `t` of the frame's motion. */
  function Part(x: real, t: real): real {
    x * t
  }

  /** The two boxes after the fraction `t` of the frame's motion. */
  predicate OverlapsAt(m: MathLib, f: Mover, l: Mover, dt: real, t: real) {
    Overlaps(m,
      ShiftedDebugBox(f.box, Part(Travel(f.vx, f.speed, dt), t), Part(Travel(f.vy, f.speed, dt), t)),
      ShiftedDebugBox(l.box, Part(Travel(l.vx, l.speed, dt), t), Part(Travel(l.vy, l.speed, dt), t)))
  }

  /** The bisection state: the interval `[lo, hi]` and the best scale found. */
  datatype Bisection = Bisection(lo: real, hi: real, best: real)

  /** One bisection step, given whether the boxes are apart at the midpoint: the midpoint becomes
      the new `lo` (and `best`) when they are, and the new `hi` otherwise. */
  function StepWith(b: Bisection, apartAtMid: bool): (r: Bisection)
    ensures r.lo == b.lo || r.hi == b.hi
  {
    var mid := (b.lo + b.hi) / 2.0;
    if apartAtMid then Bisection(mid, b.hi, mid) else Bisection(b.lo, mid, b.best)
  }

  /** The bisection from state `b` at iteration `iter`, until 22 iterations or an interval
      narrower than 1e-4, where `apart(t)` says whether the boxes are apart at fraction `t`. */
  function BisectFrom(apart: real -> bool, b: Bisection, iter: nat): real
    decreases 22 - iter
  {
    if iter >= 22 then b.best
    else
      var n := StepWith(b, apart((b.lo + b.hi) / 2.0));
      if n.hi - n.lo < 0.0001 then n.best else BisectFrom(apart, n, iter + 1)
  }

  /** The bisection ends on its starting `lo` or on a scale inside the starting interval where
      the boxes are apart. */
  lemma {:induction false} BisectFromBounds(apart: real -> bool, b: Bisection, iter: nat)
    requires 0.0 <= b.lo < b.hi <= 1.0 && b.best == b.lo
    ensures var r := BisectFrom(apart, b, iter);
      b.lo <= r < b.hi && (r == b.lo || apart(r))
    decreases 22 - iter
  {
    if iter < 22 {
      var n := StepWith(b, apart((b.lo + b.hi) / 2.0));
      if n.hi - n.lo >= 0.0001 {
        BisectFromBounds(apart, n, iter + 1);
      }
    }
  }

  /** One bisection step decided by `a`, the verdict at the midpoint. */
  lemma BisectFromStep(apart: real -> bool, b: Bisection, iter: nat, mid: real, a: bool)
    requires iter < 22 && mid == (b.lo + b.hi) / 2.0 && a == apart(mid)
    ensures var n := StepWith(b, a);
      BisectFrom(apart, b, iter) == if n.hi - n.lo < 0.0001 then n.best else BisectFrom(apart, n, iter + 1)
  {
  }

  /** Whether the two movers' boxes are apart at fraction `t` of the frame. */
  function ApartAt(m: MathLib, f: Mover, l: Mover, dt: real): (apart: real -> bool)
    ensures forall t :: apart(t) == !OverlapsAt(m, f, l, dt, t)
  {
    t => !OverlapsAt(m, f, l, dt, t)
  }

  /** The value of `computeMaxNonOverlapScale`. */
  function ScaleOf(m: MathLib, f: Mover, l: Mover, dt: real): (s: real)
    ensures 0.0 <= s <= 1.0
    ensures f.box.None? || l.box.None? ==> s == 1.0
    ensures f.box.Some? && l.box.Some? && !OverlapsAt(m, f, l, dt, 1.0) ==> s == 1.0
    ensures f.box.Some? && l.box.Some? && OverlapsAt(m, f, l, dt, 1.0) && Overlaps(m, f.box, l.box) ==> s == 0.0
    ensures f.box.Some? && l.box.Some? && OverlapsAt(m, f, l, dt, 1.0) ==> s < 1.0
    ensures s == 0.0 || s == 1.0 || !OverlapsAt(m, f, l, dt, s)
  {
    if f.box.None? || l.box.None? || !OverlapsAt(m, f, l, dt, 1.0) then 1.0
    else if Overlaps(m, f.box, l.box) then 0.0
    else
      var apart := ApartAt(m, f, l, dt);
      BisectFromBounds(apart, Bisection(0.0, 1.0, 0.0), 0);
      BisectFrom(apart, Bisection(0.0, 1.0, 0.0), 0)
  }

  /** Whether the two boxes overlap after the fraction `t` of the frame's motion (the full moves
      when `t` is 1). */
  method OverlapsAfter(m: MathLib, f: Mover, l: Mover, dt: real, t: real) returns (r: bool)
    ensures r == OverlapsAt(m, f, l, dt, t)
  {
    var fx, fy := Travel(f.vx, f.speed, dt), Travel(f.vy, f.speed, dt);
    var lx, ly := Travel(l.vx, l.speed, dt), Travel(l.vy, l.speed, dt);
    var fMid := ShiftedDebugBox(f.box, Part(fx, t), Part(fy, t));
    var lMid := ShiftedDebugBox(l.box, Part(lx, t), Part(ly, t));
    r := ObbOverlapSAT(m, fMid, lMid);
  }

  /** The bisection loop of `computeMaxNonOverlapScale`: up to 22 halvings of [0, 1], keeping the
      largest midpoint where the boxes are apart. */
  method Bisect(m: MathLib, f: Mover, l: Mover, dt: real) returns (best: real)
    ensures best == BisectFrom(ApartAt(m, f, l, dt), Bisection(0.0, 1.0, 0.0), 0)
  {
    var lo, hi := 0.0, 1.0;
    best := 0.0;
    ghost var apart := ApartAt(m, f, l, dt);
    ghost var target := BisectFrom(apart, Bisection(lo, hi, best), 0);
    var iter := 0;
    while iter < 22
      invariant 0 <= iter <= 22
      invariant 0.0 <= lo < hi <= 1.0 && best == lo
      invariant BisectFrom(apart, Bisection(lo, hi, best), iter) == target
    {
      ghost var before := Bisection(lo, hi, best);
      var mid := (lo + hi) / 2.0;
      var o := OverlapsAfter(m, f, l, dt, mid);
      assert apart(mid) == !o;
      BisectFromStep(apart, before, iter, mid, !o);
      if !o {
        best := mid;
        lo := mid;
      } else {
        hi := mid;
      }
      assert Bisection(lo, hi, best) == StepWith(before, !o);
      if hi - lo < 0.0001 {
        break;
      }
      iter := iter + 1;
    }
  }

  /** `computeMaxNonOverlapScale`: 1 without both boxes or when the full moves do not overlap, 0
      when the boxes overlap already, and otherwise the largest midpoint the bisection found
      free of overlap (0 if none was). */
  method MaxNonOverlapScale(m: MathLib, f: Mover, l: Mover, dt: real) returns (s: real)
    ensures s == ScaleOf(m, f, l, dt)
  {
    if f.box.None? || l.box.None? {
      return 1.0;
    }
    var full := OverlapsAfter(m, f, l, dt, 1.0);
    if !full {
      return 1.0;
    }
    var now := ObbOverlapSAT(m, f.box, l.box);
    if now {
      return 0.0;
    }
    var best := Bisect(m, f, l, dt);
    BisectFromBounds(ApartAt(m, f, l, dt), Bisection(0.0, 1.0, 0.0), 0);
    s := Max(0.0, Min(1.0, best));
  }
}
