/** Points, line / quadratic / cubic segments, and the path-of-segments table of js/vehmov.js. */
module Geometry {
  import opened Numeric
  import opened Wrappers

  datatype Vec = Vec(x: real, y: real)

  function Add(a: Vec, b: Vec): Vec { Vec(a.x + b.x, a.y + b.y) }
  function Sub(a: Vec, b: Vec): Vec { Vec(a.x - b.x, a.y - b.y) }
  function Scale(k: real, a: Vec): Vec { Vec(k * a.x, k * a.y) }

  /** `normalize`: the unit vector along `v`, or (1, 0) for a vector of length at most 1e-9. */
  function Normalize(m: MathLib, v: Vec): Vec {
    var len := m.hypot(v.x, v.y);
    if len <= 0.000000001 then Vec(1.0, 0.0) else Vec(v.x / len, v.y / len)
  }

  /** A path piece. `Unknown` stands for a segment object of any other type. */
  datatype Segment =
    | Line(p0: Vec, p1: Vec)
    | Quadratic(p0: Vec, p1: Vec, p2: Vec)
    | Cubic(p0: Vec, p1: Vec, p2: Vec, p3: Vec)
    | Unknown

  datatype PointTangent = PointTangent(p: Vec, tan: Vec)

  function LinePointAt(t: real, p0: Vec, p1: Vec): (r: Vec)
    ensures t == 0.0 ==> r == p0
    ensures t == 1.0 ==> r == p1
  {
    Vec(p0.x + (p1.x - p0.x) * t, p0.y + (p1.y - p0.y) * t)
  }

  function LineTangent(p0: Vec, p1: Vec): Vec { Sub(p1, p0) }

  function BezierPoint(t: real, p0: Vec, p1: Vec, p2: Vec): (r: Vec)
    ensures t == 0.0 ==> r == p0
    ensures t == 1.0 ==> r == p2
  {
    var u := 1.0 - t;
    Vec(u * u * p0.x + 2.0 * u * t * p1.x + t * t * p2.x,
        u * u * p0.y + 2.0 * u * t * p1.y + t * t * p2.y)
  }

  function BezierTangent(t: real, p0: Vec, p1: Vec, p2: Vec): (r: Vec)
    ensures t == 0.0 ==> r == Scale(2.0, Sub(p1, p0))
    ensures t == 1.0 ==> r == Scale(2.0, Sub(p2, p1))
  {
    Vec(2.0 * (1.0 - t) * (p1.x - p0.x) + 2.0 * t * (p2.x - p1.x),
        2.0 * (1.0 - t) * (p1.y - p0.y) + 2.0 * t * (p2.y - p1.y))
  }

  function CubicPoint(t: real, p0: Vec, p1: Vec, p2: Vec, p3: Vec): (r: Vec)
    ensures t == 0.0 ==> r == p0
    ensures t == 1.0 ==> r == p3
  {
    var u := 1.0 - t;
    var u3 := u * u * u;
    var t3 := t * t * t;
    Vec(u3 * p0.x + 3.0 * u * u * t * p1.x + 3.0 * u * t * t * p2.x + t3 * p3.x,
        u3 * p0.y + 3.0 * u * u * t * p1.y + 3.0 * u * t * t * p2.y + t3 * p3.y)
  }

  function CubicTangent(t: real, p0: Vec, p1: Vec, p2: Vec, p3: Vec): (r: Vec)
    ensures t == 0.0 ==> r == Scale(3.0, Sub(p1, p0))
    ensures t == 1.0 ==> r == Scale(3.0, Sub(p3, p2))
  {
    var u := 1.0 - t;
    Vec(3.0 * u * u * (p1.x - p0.x) + 6.0 * u * t * (p2.x - p1.x) + 3.0 * t * t * (p3.x - p2.x),
        3.0 * u * u * (p1.y - p0.y) + 6.0 * u * t * (p2.y - p1.y) + 3.0 * t * t * (p3.y - p2.y))
  }

  /** `segmentPointAndTangentAt`; an unknown segment gives the origin and a zero tangent. */
  function SegmentPointAndTangentAt(seg: Segment, t: real): PointTangent {
    match seg
    case Line(p0, p1) => PointTangent(LinePointAt(t, p0, p1), LineTangent(p0, p1))
    case Quadratic(p0, p1, p2) => PointTangent(BezierPoint(t, p0, p1, p2), BezierTangent(t, p0, p1, p2))
    case Cubic(p0, p1, p2, p3) => PointTangent(CubicPoint(t, p0, p1, p2, p3), CubicTangent(t, p0, p1, p2, p3))
    case Unknown => PointTangent(Vec(0.0, 0.0), Vec(0.0, 0.0))
  }

  function StartPoint(seg: Segment): Vec {
    match seg
    case Line(p0, _) => p0
    case Quadratic(p0, _, _) => p0
    case Cubic(p0, _, _, _) => p0
    case Unknown => Vec(0.0, 0.0)
  }

  function EndPoint(seg: Segment): Vec {
    match seg
    case Line(_, p1) => p1
    case Quadratic(_, _, p2) => p2
    case Cubic(_, _, _, p3) => p3
    case Unknown => Vec(0.0, 0.0)
  }

  /** Every segment runs from its first control point at t = 0 to its last one at t = 1. */
  lemma SegmentEndpoints(seg: Segment)
    requires !seg.Unknown?
    ensures SegmentPointAndTangentAt(seg, 0.0).p == StartPoint(seg)
    ensures SegmentPointAndTangentAt(seg, 1.0).p == EndPoint(seg)
  {
  }

  /** Sum of the chords between the sample points t = 1/n, 2/n, ..., k/n of a curve, starting
      from its first control point. */
  function ChordSum(m: MathLib, seg: Segment, n: nat, k: nat): real
    requires 0 < n
  {
    if k == 0 then 0.0
    else
      var prev := if k == 1 then StartPoint(seg) else SegmentPointAndTangentAt(seg, (k - 1) as real / n as real).p;
      var pt := SegmentPointAndTangentAt(seg, k as real / n as real).p;
      ChordSum(m, seg, n, k - 1) + m.hypot(pt.x - prev.x, pt.y - prev.y)
  }

  lemma {:induction false} ChordSumNonNegative(m: MathLib, seg: Segment, n: nat, k: nat)
    requires 0 < n
    ensures Sound(m) ==> ChordSum(m, seg, n, k) >= 0.0
  {
    if k > 0 {
      ChordSumNonNegative(m, seg, n, k - 1);
    }
  }

  /** `bezierLength` / `cubicLength`: the length of a curve approximated by `n` chords. */
  method SampledLength(m: MathLib, seg: Segment, n: nat) returns (length: real)
    requires 0 < n
    ensures length == ChordSum(m, seg, n, n)
  {
    length := 0.0;
    var prev := StartPoint(seg);
    var i := 1;
    while i <= n
      invariant 1 <= i <= n + 1
      invariant length == ChordSum(m, seg, n, i - 1)
      invariant prev == if i == 1 then StartPoint(seg) else SegmentPointAndTangentAt(seg, (i - 1) as real / n as real).p
    {
      var t := i as real / n as real;
      var pt := SegmentPointAndTangentAt(seg, t).p;
      length := length + m.hypot(pt.x - prev.x, pt.y - prev.y);
      prev := pt;
      i := i + 1;
    }
  }

  const BezierSamples: nat := 40
  const CubicSamples: nat := 80

  /** `segmentLength`: exact for a line, 40 chords for a quadratic, 80 for a cubic, 0 otherwise. */
  function SegmentLength(m: MathLib, seg: Segment): (r: real)
    ensures Sound(m) ==> r >= 0.0
  {
    ChordSumNonNegative(m, seg, BezierSamples, BezierSamples);
    ChordSumNonNegative(m, seg, CubicSamples, CubicSamples);
    match seg
    case Line(p0, p1) => m.hypot(p1.x - p0.x, p1.y - p0.y)
    case Quadratic(_, _, _) => ChordSum(m, seg, BezierSamples, BezierSamples)
    case Cubic(_, _, _, _) => ChordSum(m, seg, CubicSamples, CubicSamples)
    case Unknown => 0.0
  }

  // ---------- path of segments ----------

  /** A path as `buildPathFromSegments` builds it. */
  datatype Path = Path(segments: seq<Segment>, segLens: seq<real>, totalLength: real, cumStart: seq<real>)

  /** The table a path lookup relies on: one length and one start per segment, starts the
      running sums of the lengths, the total their sum, no negative length. */
  predicate WellFormed(p: Path) {
    && |p.segLens| == |p.segments|
    && |p.cumStart| == |p.segments|
    && (forall i :: 0 <= i < |p.segLens| ==> p.segLens[i] >= 0.0)
    && (forall i :: 0 <= i < |p.cumStart| ==> p.cumStart[i] == Sum(p.segLens[..i]))
    && p.totalLength == Sum(p.segLens)
  }

  function SegmentLengths(m: MathLib, segs: seq<Segment>): (r: seq<real>)
    ensures |r| == |segs|
    ensures forall i :: 0 <= i < |segs| ==> r[i] == SegmentLength(m, segs[i])
  {
    seq(|segs|, i requires 0 <= i < |segs| => SegmentLength(m, segs[i]))
  }

  function PrefixSums(xs: seq<real>): (r: seq<real>)
    ensures |r| == |xs|
    ensures forall i :: 0 <= i < |xs| ==> r[i] == Sum(xs[..i])
  {
    seq(|xs|, i requires 0 <= i < |xs| => Sum(xs[..i]))
  }

  /** The path `buildPathFromSegments(segs)` returns. */
  function PathOf(m: MathLib, segs: seq<Segment>): Path {
    var lens := SegmentLengths(m, segs);
    Path(segs, lens, Sum(lens), PrefixSums(lens))
  }

  /** `buildPathFromSegments`: the segment lengths, their total, and the running starts `cum`
      accumulated in a loop. */
  method BuildPathFromSegments(m: MathLib, segs: seq<Segment>) returns (path: Path)
    ensures path == PathOf(m, segs)
  {
    var segLens := SegmentLengths(m, segs);
    var total := Sum(segLens);
    var cum: seq<real> := [];
    var s := 0.0;
    var i := 0;
    while i < |segLens|
      invariant 0 <= i <= |segLens|
      invariant |cum| == i
      invariant forall j :: 0 <= j < i ==> cum[j] == Sum(segLens[..j])
      invariant s == Sum(segLens[..i])
    {
      cum := cum + [s];
      assert segLens[..i + 1][..i] == segLens[..i];
      s := s + segLens[i];
      i := i + 1;
    }
    path := Path(segs, segLens, total, cum);
  }

  /** The path table: `cumStart[0] = 0`, each start is the previous start plus the previous
      length, the total is the last start plus the last length, and with a sound `hypot` the
      table is well formed. */
  lemma PathTable(m: MathLib, segs: seq<Segment>)
    ensures var p := PathOf(m, segs);
      && |p.cumStart| == |p.segLens| == |segs|
      && (|segs| > 0 ==> p.cumStart[0] == 0.0)
      && (forall i :: 0 <= i < |segs| - 1 ==> p.cumStart[i + 1] == p.cumStart[i] + p.segLens[i])
      && (|segs| > 0 ==> p.totalLength == p.cumStart[|segs| - 1] + p.segLens[|segs| - 1])
      && (|segs| == 0 ==> p.totalLength == 0.0)
    ensures Sound(m) ==> WellFormed(PathOf(m, segs)) && PathOf(m, segs).totalLength >= 0.0
  {
    var p := PathOf(m, segs);
    forall i | 0 <= i < |segs| - 1
      ensures p.cumStart[i + 1] == p.cumStart[i] + p.segLens[i]
    {
      assert p.segLens[..i + 1][..i] == p.segLens[..i];
    }
    if |segs| > 0 {
      assert p.segLens[..|segs|] == p.segLens;
      assert p.segLens[..|segs|][..|segs| - 1] == p.segLens[..|segs| - 1];
    }
    if Sound(m) {
      SumNonNegative(p.segLens);
    }
  }

  /** The first segment, from `i` on, whose end lies at or beyond `d`; the last one when none does. */
  function SegmentIndex(p: Path, d: real, i: nat): (k: nat)
    requires WellFormed(p) && i < |p.segments|
    ensures i <= k < |p.segments|
    ensures d <= p.cumStart[k] + p.segLens[k] || k == |p.segments| - 1
    ensures forall j :: i <= j < k ==> d > p.cumStart[j] + p.segLens[j]
    decreases |p.segments| - i
  {
    if d <= p.cumStart[i] + p.segLens[i] || i == |p.segments| - 1 then i
    else SegmentIndex(p, d, i + 1)
  }

  /** The search loop of `pathPointAndTangentAtDistance`. */
  method LocateSegment(p: Path, d: real) returns (segIdx: nat)
    requires WellFormed(p) && |p.segments| > 0
    ensures segIdx == SegmentIndex(p, d, 0)
  {
    segIdx := |p.segments| - 1;
    var i := 0;
    while i < |p.segments|
      invariant 0 <= i <= |p.segments|
      invariant i < |p.segments| ==> SegmentIndex(p, d, i) == SegmentIndex(p, d, 0)
      invariant i == |p.segments| ==> segIdx == SegmentIndex(p, d, 0)
    {
      if d <= p.cumStart[i] + p.segLens[i] || i == |p.segments| - 1 {
        segIdx := i;
        break;
      }
      i := i + 1;
    }
  }

  /** The clamped distance and local parameter `pathPointAndTangentAtDistance` evaluates. */
  function ClampedDistance(p: Path, dist: real): real
    requires p.totalLength > 0.0
  {
    Max(0.0, Min(dist, p.totalLength))
  }

  /** The local parameter of distance `d` on a segment that starts at `start` and is `len` long
      (a zero length reads as 1). */
  function LocalParameter(d: real, start: real, len: real): real {
    var segLen := OrElse(len, 1.0);
    if segLen > 0.0 then (d - start) / segLen else 0.0
  }

  lemma NonEmptyWhenLong(p: Path)
    requires WellFormed(p) && p.totalLength > 0.0
    ensures |p.segments| > 0
  {
  }

  /** `pathPointAndTangentAtDistance`: a missing or empty path gives (0,0) with tangent (1,0);
      otherwise the point of the segment that holds the clamped distance. */
  function PathPointAndTangentAtDistance(path: Option<Path>, dist: real): PointTangent
    requires path.Some? ==> WellFormed(path.value)
  {
    if path.None? || path.value.totalLength <= 0.0 then PointTangent(Vec(0.0, 0.0), Vec(1.0, 0.0))
    else
      var p := path.value;
      NonEmptyWhenLong(p);
      var d := ClampedDistance(p, dist);
      var k := SegmentIndex(p, d, 0);
      SegmentPointAndTangentAt(p.segments[k], Clamp(LocalParameter(d, p.cumStart[k], p.segLens[k]), 0.0, 1.0))
  }

  /** The segment the lookup picks holds the clamped distance: it starts at or before it and ends
      at or after it, so the local parameter already lies in [0,1] before it is clamped. */
  lemma LookupSegmentHoldsDistance(p: Path, dist: real)
    requires WellFormed(p) && p.totalLength > 0.0
    ensures |p.segments| > 0
    ensures var d := ClampedDistance(p, dist);
      var k := SegmentIndex(p, d, 0);
      && 0.0 <= d <= p.totalLength
      && p.cumStart[k] <= d <= p.cumStart[k] + p.segLens[k]
      && 0.0 <= LocalParameter(d, p.cumStart[k], p.segLens[k]) <= 1.0
  {
    NonEmptyWhenLong(p);
    var d := ClampedDistance(p, dist);
    assert 0.0 <= d <= p.totalLength;
    var k := SegmentIndex(p, d, 0);
    SegmentHolds(p, d, k);
    LocalParameterInRange(d, p.cumStart[k], p.segLens[k]);
  }

  lemma SegmentHolds(p: Path, d: real, k: nat)
    requires WellFormed(p) && 0.0 <= d <= p.totalLength
    requires k < |p.segments| && (d <= p.cumStart[k] + p.segLens[k] || k == |p.segments| - 1)
    requires forall j :: 0 <= j < k ==> d > p.cumStart[j] + p.segLens[j]
    ensures p.cumStart[k] <= d <= p.cumStart[k] + p.segLens[k]
  {
    var n := |p.segments|;
    assert p.segLens[..0] == [];
    if k > 0 {
      assert d > p.cumStart[k - 1] + p.segLens[k - 1];
      assert p.segLens[..k][..k - 1] == p.segLens[..k - 1];
    }
    if k == n - 1 {
      assert p.segLens[..n] == p.segLens;
      assert p.segLens[..n][..n - 1] == p.segLens[..n - 1];
    }
  }

  /** On a segment that holds `d`, the local parameter lies in [0,1] and maps back to `d`. */
  lemma LocalParameterInRange(d: real, start: real, len: real)
    requires start <= d <= start + len
    ensures 0.0 <= LocalParameter(d, start, len) <= 1.0
    ensures len > 0.0 ==> start + LocalParameter(d, start, len) * len == d
  {
    if len > 0.0 {
      var t := (d - start) / len;
      assert t * len == d - start;
      if t > 1.0 {
        MulStrict(1.0, t, len);
      }
      if t < 0.0 {
        MulStrict(t, 0.0, len);
      }
    }
  }

  /** Distances below zero read the start of the path and distances beyond its end read its end. */
  lemma LookupClamps(p: Path, dist: real)
    requires WellFormed(p) && p.totalLength > 0.0
    ensures dist <= 0.0 ==> PathPointAndTangentAtDistance(Some(p), dist) == PathPointAndTangentAtDistance(Some(p), 0.0)
    ensures dist >= p.totalLength ==>
      PathPointAndTangentAtDistance(Some(p), dist) == PathPointAndTangentAtDistance(Some(p), p.totalLength)
  {
  }
}
