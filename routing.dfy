/** Route rules of js/vehmov.js: the compass rotation, exit-point selection and the Bézier control
    points of a maneuver. */
module Routing {
  import opened Wrappers
  import opened Numeric
  import opened Text
  import opened Geometry

  /** The four arms, in the clockwise order of `dirOrder`. */
  datatype Arm = Utara | Timur | Selatan | Barat

  datatype Turn = Left | Straight | Right

  function ArmIndex(a: Arm): (i: nat)
    ensures i < 4
  {
    match a
    case Utara => 0
    case Timur => 1
    case Selatan => 2
    case Barat => 3
  }

  function ArmAt(i: nat): (a: Arm)
    requires i < 4
    ensures ArmIndex(a) == i
  {
    if i == 0 then Utara else if i == 1 then Timur else if i == 2 then Selatan else Barat
  }

  function ArmName(a: Arm): string {
    match a
    case Utara => "utara"
    case Timur => "timur"
    case Selatan => "selatan"
    case Barat => "barat"
  }

  /** `dirOrder.indexOf(d)` read as an arm: None for anything that is not one of the four names. */
  function ParseArm(d: string): (r: Option<Arm>)
    ensures r.Some? ==> ArmName(r.value) == d
  {
    if d == "utara" then Some(Utara)
    else if d == "timur" then Some(Timur)
    else if d == "selatan" then Some(Selatan)
    else if d == "barat" then Some(Barat)
    else None
  }

  lemma ParseArmName(a: Arm)
    ensures ParseArm(ArmName(a)) == Some(a)
  {
  }

  function ParseTurn(turn: string): Option<Turn> {
    if turn == "left" then Some(Left)
    else if turn == "right" then Some(Right)
    else if turn == "straight" then Some(Straight)
    else None
  }

  /** How many quarter turns clockwise the exit arm lies from the entry arm. */
  function TurnOffset(t: Turn): nat {
    match t
    case Left => 1
    case Straight => 2
    case Right => 3
  }

  /** The next arm of `dirOrder`, wrapping from barat to utara. */
  function Next(a: Arm): (r: Arm)
    ensures ArmIndex(r) == (ArmIndex(a) + 1) % 4
  {
    match a
    case Utara => Timur
    case Timur => Selatan
    case Selatan => Barat
    case Barat => Utara
  }

  /** The arm a vehicle entering from `a` leaves by when it turns `t`: `dirOrder[(i + k) % 4]`
      with k = 1 for left, 2 for straight and 3 for right. */
  function ExitArm(a: Arm, t: Turn): (r: Arm)
    ensures r != a
    ensures ArmIndex(r) == (ArmIndex(a) + TurnOffset(t)) % 4
  {
    match t
    case Left => Next(a)
    case Straight => Next(Next(a))
    case Right => Next(Next(Next(a)))
  }

  /** `exitDirectionFor`: the arm a vehicle entering from `entryDir` leaves by when it turns
      `turn`; null for an unknown arm or turn. */
  function ExitDirectionFor(entryDir: string, turn: string): (r: Option<string>)
    ensures r.Some? <==> ParseArm(entryDir).Some? && ParseTurn(turn).Some?
    ensures r.Some? ==> r == Some(ArmName(ExitArm(ParseArm(entryDir).value, ParseTurn(turn).value)))
    ensures r.Some? ==> r.value != entryDir
  {
    var a := ParseArm(entryDir);
    var t := ParseTurn(turn);
    if a.None? || t.None? then None
    else
      var e := ExitArm(a.value, t.value);
      ArmNamesDistinct(e, a.value);
      Some(ArmName(e))
  }

  lemma ArmNamesDistinct(a: Arm, b: Arm)
    requires a != b
    ensures ArmName(a) != ArmName(b)
  {
    ParseArmName(a);
    ParseArmName(b);
  }

  /** The rotation table is a group action: a left turn is undone by a right turn, a straight
      crossing by another straight crossing, and four left turns come back to the start. */
  lemma RotationInverses(a: Arm)
    ensures ExitArm(ExitArm(a, Left), Right) == a
    ensures ExitArm(ExitArm(a, Right), Left) == a
    ensures ExitArm(ExitArm(a, Straight), Straight) == a
    ensures ExitArm(ExitArm(ExitArm(ExitArm(a, Left), Left), Left), Left) == a
  {
  }

  /** Different turns from the same arm lead to different arms. */
  lemma TurnsReachDistinctArms(a: Arm, t1: Turn, t2: Turn)
    requires t1 != t2
    ensures ExitArm(a, t1) != ExitArm(a, t2)
  {
  }

  /** `dirFromKey`: the arm named by a lane key such as "utara_2"; null for an empty key. */
  function DirFromKey(key: string): (r: Option<string>)
    ensures r.Some? <==> key != []
    ensures r.Some? ==> StartsWith(key, r.value) && '_' !in r.value
  {
    if key == [] then None else Some(BeforeFirst(key, '_'))
  }

  lemma {:induction false} BeforeFirstOfJoin(a: string, b: string, sep: char)
    requires sep !in a
    ensures BeforeFirst(a + [sep] + b, sep) == a
    decreases |a|
  {
    if a == [] {
    } else {
      assert (a + [sep] + b)[1..] == a[1..] + [sep] + b;
      BeforeFirstOfJoin(a[1..], b, sep);
    }
  }

  /** The lane key `${dir}_${n}` of a lane, as the lane-coordinate maps use it. */
  function LaneKey(dir: string, lane: nat): string {
    dir + "_" + NatToString(lane)
  }

  /** `dirFromKey` recovers the arm of every lane key. */
  lemma DirFromLaneKey(dir: string, lane: nat)
    requires '_' !in dir
    ensures DirFromKey(LaneKey(dir, lane)) == Some(dir)
  {
    BeforeFirstOfJoin(dir, NatToString(lane), '_');
    assert LaneKey(dir, lane) == dir + ['_'] + NatToString(lane);
  }

  // ---------- lane coordinates and exit selection ----------

  /** One entry of the exit-point map, in insertion order; `point` is None when the stored value
      is not a numeric point. */
  datatype ExitSlot = ExitSlot(key: string, point: Option<Vec>)

  datatype LaneCoords = LaneCoords(entry: map<string, Vec>, exit: seq<ExitSlot>)

  /** `laneCoordinates.exit[key]`: the point of the first slot stored under `key`, null when no
      slot has that key. */
  function ExitLookup(exits: seq<ExitSlot>, key: string): (r: Option<Vec>)
    ensures r.Some? ==> exists i :: 0 <= i < |exits| && exits[i].key == key && exits[i].point == r
    ensures (forall i :: 0 <= i < |exits| ==> exits[i].key != key) ==> r.None?
    ensures forall i :: 0 <= i < |exits| && exits[i].key == key && (forall j :: 0 <= j < i ==> exits[j].key != key)
                        ==> r == exits[i].point
  {
    if exits == [] then None
    else if exits[0].key == key then exits[0].point
    else
      var r := ExitLookup(exits[1..], key);
      assert r.Some? ==> exists i :: 0 <= i < |exits[1..]| && exits[1..][i].key == key && exits[1..][i].point == r;
      assert forall i :: 1 <= i < |exits| ==> exits[i] == exits[1..][i - 1];
      r
  }

  /** The preferred exit lane a vehicle carries: none, a key string, or a lane number. */
  datatype LanePref = NoPref | StrPref(s: string) | NumPref(n: int)

  datatype Candidate = Candidate(key: string, idx: Option<int>, point: Vec)

  /** The exit keys of one arm, each with its lane number parsed from the key (None for NaN). */
  function ArmSlots(exits: seq<ExitSlot>, exitDir: string): (r: seq<ExitSlot>)
    ensures forall s :: s in r <==> s in exits && StartsWith(s.key, exitDir + "_")
  {
    if exits == [] then []
    else (if StartsWith(exits[0].key, exitDir + "_") then [exits[0]] else []) + ArmSlots(exits[1..], exitDir)
  }

  function LaneNumberOfKey(key: string): Option<int> {
    var part := SecondField(key, '_');
    if part.None? then None else ParseInt(part.value)
  }

  /** The candidates of `findExitPoint`: the arm's keys whose value is a numeric point. */
  function Candidates(slots: seq<ExitSlot>): (r: seq<Candidate>)
    ensures |r| <= |slots|
    ensures forall c :: c in r ==> ExitSlot(c.key, Some(c.point)) in slots
    ensures (exists i :: 0 <= i < |slots| && slots[i].point.Some?) <==> r != []
  {
    if slots == [] then []
    else
      var rest := Candidates(slots[1..]);
      assert forall c :: c in rest ==> ExitSlot(c.key, Some(c.point)) in slots;
      assert (exists i :: 0 <= i < |slots[1..]| && slots[1..][i].point.Some?) <==> rest != [];
      if slots[0].point.Some? then [Candidate(slots[0].key, LaneNumberOfKey(slots[0].key), slots[0].point.value)] + rest
      else
        assert (exists i :: 0 <= i < |slots| && slots[i].point.Some?) ==> (exists i :: 0 <= i < |slots[1..]| && slots[1..][i].point.Some?) by {
          if exists i :: 0 <= i < |slots| && slots[i].point.Some? {
            var i :| 0 <= i < |slots| && slots[i].point.Some?;
            assert i > 0 && slots[1..][i - 1] == slots[i];
          }
        }
        rest
  }

  /** The first candidate whose lane number equals `n`. */
  function FirstWithIndex(cands: seq<Candidate>, n: int): (r: Option<Candidate>)
    ensures r.Some? ==> r.value in cands && r.value.idx == Some(n)
    ensures r.None? ==> forall c :: c in cands ==> c.idx != Some(n)
  {
    if cands == [] then None
    else if cands[0].idx == Some(n) then Some(cands[0])
    else FirstWithIndex(cands[1..], n)
  }

  /** `|(c.idx || 0) - from|` */
  function LaneDistance(c: Candidate, from: int): nat {
    Abs((if c.idx.Some? then c.idx.value else 0) - from)
  }

  /** The best-so-far scan of `findExitPoint`: `best` is replaced only by a strictly nearer
      candidate. */
  function NearestFrom(cands: seq<Candidate>, from: int, i: nat, best: nat): (k: nat)
    requires i <= |cands| && best < |cands|
    ensures k < |cands|
    decreases |cands| - i
  {
    if i == |cands| then best
    else if LaneDistance(cands[i], from) < LaneDistance(cands[best], from) then NearestFrom(cands, from, i + 1, i)
    else NearestFrom(cands, from, i + 1, best)
  }

  /** The scan picks the candidate with the smallest lane distance, and the first of several
      that tie. */
  lemma {:induction false} NearestIsFirstMinimum(cands: seq<Candidate>, from: int, i: nat, best: nat)
    requires i <= |cands| && best < |cands| && (best < i || (i == 0 && best == 0))
    requires forall j :: 0 <= j < i ==> LaneDistance(cands[best], from) <= LaneDistance(cands[j], from)
    requires forall j :: 0 <= j < best ==> LaneDistance(cands[j], from) > LaneDistance(cands[best], from)
    ensures var k := NearestFrom(cands, from, i, best);
      && (forall j :: 0 <= j < |cands| ==> LaneDistance(cands[k], from) <= LaneDistance(cands[j], from))
      && (forall j :: 0 <= j < k ==> LaneDistance(cands[j], from) > LaneDistance(cands[k], from))
    decreases |cands| - i
  {
    if i < |cands| {
      if LaneDistance(cands[i], from) < LaneDistance(cands[best], from) {
        NearestIsFirstMinimum(cands, from, i + 1, i);
      } else {
        NearestIsFirstMinimum(cands, from, i + 1, best);
      }
    }
  }

  /** The `for (const c of candidates)` loop of `findExitPoint`. */
  method NearestCandidate(cands: seq<Candidate>, from: int) returns (best: nat)
    requires cands != []
    ensures best == NearestFrom(cands, from, 0, 0)
    ensures forall j :: 0 <= j < |cands| ==> LaneDistance(cands[best], from) <= LaneDistance(cands[j], from)
    ensures forall j :: 0 <= j < best ==> LaneDistance(cands[j], from) > LaneDistance(cands[best], from)
  {
    NearestIsFirstMinimum(cands, from, 0, 0);
    best := 0;
    var bestDist := LaneDistance(cands[0], from);
    var i := 0;
    while i < |cands|
      invariant 0 <= i <= |cands| && best < |cands|
      invariant bestDist == LaneDistance(cands[best], from)
      invariant NearestFrom(cands, from, i, best) == NearestFrom(cands, from, 0, 0)
    {
      var d := LaneDistance(cands[i], from);
      if d < bestDist {
        best := i;
        bestDist := d;
      }
      i := i + 1;
    }
  }

  /** `Number(preferredExitLaneIndex)` for a lane preference that is not null. */
  function PrefNumber(pref: LanePref): Option<int>
    requires !pref.NoPref?
  {
    match pref
    case StrPref(s) => ToNumber(s)
    case NumPref(n) => Some(n)
  }

  /** `findExitPoint`: a string preference naming an exit key, else the exact preferred lane,
      else the source lane, else the nearest lane number, else the first candidate; null when the
      arm has no key or no key with a numeric point. */
  function FindExitPoint(exits: seq<ExitSlot>, exitDir: string, pref: LanePref, from: Option<int>): (r: Option<Vec>)
    ensures Candidates(ArmSlots(exits, exitDir)) == [] <==> r.None?
    ensures r.Some? ==>
      (pref.StrPref? && r == ExitLookup(exits, pref.s)) || exists c :: c in Candidates(ArmSlots(exits, exitDir)) && c.point == r.value
  {
    var keys := ArmSlots(exits, exitDir);
    if keys == [] then None
    else
      var cands := Candidates(keys);
      if cands == [] then None
      else if pref.StrPref? && ExitLookup(exits, pref.s).Some? then ExitLookup(exits, pref.s)
      else
        var exact := if !pref.NoPref? && PrefNumber(pref).Some? then FirstWithIndex(cands, PrefNumber(pref).value) else None;
        if exact.Some? then Some(exact.value.point)
        else if from.Some? then
          var same := FirstWithIndex(cands, from.value);
          if same.Some? then Some(same.value.point)
          else Some(cands[NearestFrom(cands, from.value, 0, 0)].point)
        else Some(cands[0].point)
  }

  /** Without a usable preference, a source lane number that names a candidate wins; otherwise
      the candidate nearest to it, the first of a tie. */
  lemma FindExitPointFallsBack(exits: seq<ExitSlot>, exitDir: string, from: int)
    requires Candidates(ArmSlots(exits, exitDir)) != []
    ensures var cands := Candidates(ArmSlots(exits, exitDir));
      var r := FindExitPoint(exits, exitDir, NoPref, Some(from));
      && r.Some?
      && (FirstWithIndex(cands, from).Some? ==> r.value == FirstWithIndex(cands, from).value.point)
      && (FirstWithIndex(cands, from).None? ==>
            exists k :: 0 <= k < |cands| && r.value == cands[k].point && IsFirstNearest(cands, from, k))
  {
    var cands := Candidates(ArmSlots(exits, exitDir));
    assert ArmSlots(exits, exitDir) != [];
    NearestIsFirstMinimum(cands, from, 0, 0);
    var k := NearestFrom(cands, from, 0, 0);
    assert IsFirstNearest(cands, from, k);
  }

  /** Candidate `k` has the smallest lane distance to `from`, and every earlier one is farther. */
  predicate IsFirstNearest(cands: seq<Candidate>, from: int, k: nat)
    requires k < |cands|
  {
    && (forall j :: 0 <= j < |cands| ==> LaneDistance(cands[k], from) <= LaneDistance(cands[j], from))
    && (forall j :: 0 <= j < k ==> LaneDistance(cands[j], from) > LaneDistance(cands[k], from))
  }

  /** A string preference naming a stored exit point wins once the arm has a candidate, whatever
      arm that point belongs to. */
  lemma FindExitPointPrefersKey(exits: seq<ExitSlot>, exitDir: string, key: string, from: Option<int>)
    requires Candidates(ArmSlots(exits, exitDir)) != [] && ExitLookup(exits, key).Some?
    ensures FindExitPoint(exits, exitDir, StrPref(key), from) == ExitLookup(exits, key)
  {
    assert ArmSlots(exits, exitDir) != [];
  }

  /** Without a source lane, and with no preference that names a key or an exact lane number,
      the first candidate is chosen. */
  lemma FindExitPointFirstCandidate(exits: seq<ExitSlot>, exitDir: string, pref: LanePref)
    requires Candidates(ArmSlots(exits, exitDir)) != []
    requires pref.StrPref? ==> ExitLookup(exits, pref.s).None?
    requires !pref.NoPref? && PrefNumber(pref).Some? ==>
      FirstWithIndex(Candidates(ArmSlots(exits, exitDir)), PrefNumber(pref).value).None?
    ensures FindExitPoint(exits, exitDir, pref, None) == Some(Candidates(ArmSlots(exits, exitDir))[0].point)
  {
    assert ArmSlots(exits, exitDir) != [];
  }

  /** An exact preferred lane number wins over the source lane. */
  lemma FindExitPointPrefersExact(exits: seq<ExitSlot>, exitDir: string, n: int, from: Option<int>)
    requires FirstWithIndex(Candidates(ArmSlots(exits, exitDir)), n).Some?
    ensures FindExitPoint(exits, exitDir, NumPref(n), from) ==
      Some(FirstWithIndex(Candidates(ArmSlots(exits, exitDir)), n).value.point)
  {
  }

  // ---------- control points ----------

  /** `computeCubicForStraight`: two control points on the perpendicular mid-line of the longer
      axis, so that the curve leaves along the entry's axis and arrives along the exit's; null
      when the points are closer than 1e-3. */
  function ComputeCubicForStraight(m: MathLib, entry: Vec, exit: Vec): (r: Option<(Vec, Vec)>)
    ensures m.hypot(exit.x - entry.x, exit.y - entry.y) < 0.001 <==> r.None?
    ensures r.Some? && Abs2(exit.x - entry.x) >= Abs2(exit.y - entry.y) ==>
      && r.value.0.x == r.value.1.x == (entry.x + exit.x) / 2.0
      && r.value.0.y == entry.y && r.value.1.y == exit.y
    ensures r.Some? && Abs2(exit.x - entry.x) < Abs2(exit.y - entry.y) ==>
      && r.value.0.y == r.value.1.y == (entry.y + exit.y) / 2.0
      && r.value.0.x == entry.x && r.value.1.x == exit.x
  {
    var dx := exit.x - entry.x;
    var dy := exit.y - entry.y;
    if m.hypot(dx, dy) < 0.001 then None
    else if Abs2(dx) >= Abs2(dy) then
      var midX := (entry.x + exit.x) / 2.0;
      Some((Vec(midX, entry.y), Vec(midX, exit.y)))
    else
      var midY := (entry.y + exit.y) / 2.0;
      Some((Vec(entry.x, midY), Vec(exit.x, midY)))
  }

  function Abs2(x: real): (r: real)
    ensures r >= 0.0 && (r == x || r == -x)
  {
    if x < 0.0 then -x else x
  }

  /** Running the straight curve backwards gives the same control points in reverse order. */
  lemma CubicForStraightReverses(m: MathLib, entry: Vec, exit: Vec)
    requires SymmetricHypot(m)
    ensures var fwd := ComputeCubicForStraight(m, entry, exit);
      var bwd := ComputeCubicForStraight(m, exit, entry);
      fwd.Some? <==> bwd.Some?
    ensures var fwd := ComputeCubicForStraight(m, entry, exit);
      var bwd := ComputeCubicForStraight(m, exit, entry);
      fwd.Some? ==> bwd.value == (fwd.value.1, fwd.value.0)
  {
    assert m.hypot(entry.x - exit.x, entry.y - exit.y) == m.hypot(-(exit.x - entry.x), -(exit.y - entry.y));
  }

  /** Math.hypot ignores the signs of its arguments. */
  ghost predicate SymmetricHypot(m: MathLib) {
    forall x, y :: m.hypot(-x, -y) == m.hypot(x, y)
  }

  predicate IsNorthSouth(d: string) { d == "utara" || d == "selatan" }

  /** `computeQuadraticControlPoint`: null when the arms coincide; a north/south entry fixes the
      control point's x to the entry's, an east/west one its y; the exit arm then fixes its own
      axis from the exit point; an axis left free takes the entry's coordinate. */
  function ComputeQuadraticControlPoint(entry: Vec, exit: Vec, entryDir: string, exitDir: string): (r: Option<Vec>)
    ensures r.None? <==> entryDir == exitDir
    ensures r.Some? && IsNorthSouth(exitDir) ==> r.value.x == exit.x
    ensures r.Some? && !IsNorthSouth(exitDir) ==> r.value.y == exit.y
    ensures r.Some? && IsNorthSouth(entryDir) && !IsNorthSouth(exitDir) ==> r.value.x == entry.x
    ensures r.Some? && !IsNorthSouth(entryDir) && IsNorthSouth(exitDir) ==> r.value.y == entry.y
    ensures r.Some? && !IsNorthSouth(entryDir) && !IsNorthSouth(exitDir) ==> r.value.x == entry.x
    ensures r.Some? && IsNorthSouth(entryDir) && IsNorthSouth(exitDir) ==> r.value.y == entry.y
  {
    if entryDir == exitDir then None
    else
      var px: Option<real> := if IsNorthSouth(entryDir) then Some(entry.x) else None;
      var py: Option<real> := if IsNorthSouth(entryDir) then None else Some(entry.y);
      var px' := if IsNorthSouth(exitDir) then Some(exit.x) else px;
      var py' := if IsNorthSouth(exitDir) then py else Some(exit.y);
      Some(Vec(px'.GetOr(entry.x), py'.GetOr(entry.y)))
  }

  /** A turn between a north/south arm and an east/west arm puts the control point at the corner
      of the two lanes: the curve leaves the entry along the entry's axis and meets the exit along
      the exit's axis. */
  lemma QuadraticTurnIsTangentToBothLanes(entry: Vec, exit: Vec, entryDir: string, exitDir: string)
    requires IsNorthSouth(entryDir) != IsNorthSouth(exitDir)
    ensures var cp := ComputeQuadraticControlPoint(entry, exit, entryDir, exitDir).value;
      var startTan := BezierTangent(0.0, entry, cp, exit);
      var endTan := BezierTangent(1.0, entry, cp, exit);
      && (IsNorthSouth(entryDir) ==> startTan.x == 0.0 && endTan.y == 0.0)
      && (!IsNorthSouth(entryDir) ==> startTan.y == 0.0 && endTan.x == 0.0)
  {
  }

  /** `wheelbaseForType`, in pixels: 5.8 m for a truck, 1.3 m for a motorcycle, 2.65 m otherwise. */
  function WheelbaseForType(vehicleType: string): (r: real)
    ensures r > 0.0
    ensures vehicleType == "truk" ==> r == 58.0
    ensures vehicleType == "motor" ==> r == 13.0
    ensures vehicleType != "truk" && vehicleType != "motor" ==> r == 26.5
  {
    if vehicleType == "truk" then TruckWheelbaseMeters * PxPerM
    else if vehicleType == "motor" then 1.3 * PxPerM
    else 2.65 * PxPerM
  }

  const PxPerM: real := 10.0
  const TruckWheelbaseMeters: real := 5.8
}
