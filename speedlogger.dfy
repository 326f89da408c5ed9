/** The trip logger of js/SpeedLogger.js: direction and maneuver labels, the bounded buffer of
    position samples per vehicle, and the rows, distance and speed of a finished trip. */
module SpeedLogger {
  import opened Wrappers
  import opened Numeric
  import opened Text
  import Routing

  const PxPerMDefault: real := 10.0
  const MaxSamples: nat := 30
  const SampleMinRows: nat := 10

  /** The capitalised label of an arm. */
  function Label(a: Routing.Arm): string {
    match a
    case Utara => "Utara"
    case Timur => "Timur"
    case Selatan => "Selatan"
    case Barat => "Barat"
  }

  /** `normalizeDirection`: the arm named by the first letter, case-insensitively; "-" for an
      empty value or any other letter. (`startsWith` of one letter on the lower-cased string
      tests its first character.) */
  function NormalizeDirection(d: string): (r: string)
    ensures r == "-" || exists a :: r == Label(a)
    ensures r != "-" <==> d != "" && ToLowerChar(d[0]) in {'u', 't', 's', 'b'}
  {
    if d == "" then "-"
    else
      var c := ToLowerChar(d[0]);
      if c == 'u' then Label(Routing.Utara)
      else if c == 't' then Label(Routing.Timur)
      else if c == 's' then Label(Routing.Selatan)
      else if c == 'b' then Label(Routing.Barat)
      else "-"
  }

  /** The arm whose label `name` is, if any. */
  function ArmOfLabel(name: string): (r: Option<Routing.Arm>)
    ensures r.Some? ==> Label(r.value) == name
    ensures r.None? ==> forall a :: Label(a) != name
  {
    if name == "Utara" then Some(Routing.Utara)
    else if name == "Timur" then Some(Routing.Timur)
    else if name == "Selatan" then Some(Routing.Selatan)
    else if name == "Barat" then Some(Routing.Barat)
    else None
  }

  /** Normalising a name or a label of an arm gives its label back. */
  lemma NormalizeArmNames(a: Routing.Arm)
    ensures NormalizeDirection(Routing.ArmName(a)) == Label(a)
    ensures NormalizeDirection(Label(a)) == Label(a)
  {
  }

  /** `mapExitDirForManeuver`: the normalised exit arm when it is an arm other than the
      normalised origin; "-" otherwise. */
  function MapExitDirForManeuver(from: string, exitDirCanvas: string): (r: string)
    ensures r != "-" <==>
      && from != "" && exitDirCanvas != ""
      && NormalizeDirection(from) != "-" && NormalizeDirection(exitDirCanvas) != "-"
      && NormalizeDirection(from) != NormalizeDirection(exitDirCanvas)
    ensures r != "-" ==> r == NormalizeDirection(exitDirCanvas)
  {
    if from == "" || exitDirCanvas == "" then "-"
    else
      var f := NormalizeDirection(from);
      var e := NormalizeDirection(exitDirCanvas);
      var fa := ArmOfLabel(f);
      var ea := ArmOfLabel(e);
      if fa.None? || ea.None? || fa.value == ea.value then "-" else Label(ea.value)
  }

  /** `determineManeuver`: the turn from one arm to another by their lower-cased names; None for
      a missing name, the same arm twice or anything that is not an arm. */
  function DetermineManeuver(from: string, to: string): (r: Option<string>)
    ensures r.Some? ==> r.value == "straight" || r.value == "right" || r.value == "left"
  {
    if from == "" || to == "" then None else TurnBetween(ToLower(from), ToLower(to))
  }

  /** The turn between two lower-cased arm names, by the clockwise order of the arms. */
  function TurnBetween(f: string, t: string): (r: Option<string>)
    ensures r.Some? ==> r.value == "straight" || r.value == "right" || r.value == "left"
  {
    if (f == "utara" && t == "selatan") || (f == "selatan" && t == "utara")
       || (f == "timur" && t == "barat") || (f == "barat" && t == "timur") then Some("straight")
    else if (f == "utara" && t == "barat") || (f == "barat" && t == "selatan")
       || (f == "selatan" && t == "timur") || (f == "timur" && t == "utara") then Some("right")
    else if (f == "utara" && t == "timur") || (f == "timur" && t == "selatan")
       || (f == "selatan" && t == "barat") || (f == "barat" && t == "utara") then Some("left")
    else None
  }

  function TurnName(t: Routing.Turn): string {
    match t
    case Left => "left"
    case Straight => "straight"
    case Right => "right"
  }

  lemma LowerLabel(a: Routing.Arm)
    ensures ToLower(Label(a)) == Routing.ArmName(a)
    ensures ToLower(Routing.ArmName(a)) == Routing.ArmName(a)
  {
    var l := ToLower(Label(a));
    var n := ToLower(Routing.ArmName(a));
    assert l == Routing.ArmName(a);
    assert n == Routing.ArmName(a);
  }

  /** The turn between two arms' lower-case names is the turn of the rotation table that leads
      from one to the other. */
  lemma TurnBetweenArms(a: Routing.Arm, t: Routing.Turn)
    ensures TurnBetween(Routing.ArmName(a), Routing.ArmName(Routing.ExitArm(a, t))) == Some(TurnName(t))
  {
    match a
    case Utara => {
      match t
      case Left => assert TurnBetween("utara", "timur") == Some("left");
      case Straight => assert TurnBetween("utara", "selatan") == Some("straight");
      case Right => assert TurnBetween("utara", "barat") == Some("right");
    }
    case Timur => {
      match t
      case Left => assert TurnBetween("timur", "selatan") == Some("left");
      case Straight => assert TurnBetween("timur", "barat") == Some("straight");
      case Right => assert TurnBetween("timur", "utara") == Some("right");
    }
    case Selatan => {
      match t
      case Left => assert TurnBetween("selatan", "barat") == Some("left");
      case Straight => assert TurnBetween("selatan", "utara") == Some("straight");
      case Right => assert TurnBetween("selatan", "timur") == Some("right");
    }
    case Barat => {
      match t
      case Left => assert TurnBetween("barat", "utara") == Some("left");
      case Straight => assert TurnBetween("barat", "timur") == Some("straight");
      case Right => assert TurnBetween("barat", "selatan") == Some("right");
    }
  }

  /** The maneuver between two arms written as names or as labels is the turn between their
      lower-case names. */
  lemma ManeuverOfArms(a: Routing.Arm, b: Routing.Arm)
    ensures DetermineManeuver(Routing.ArmName(a), Routing.ArmName(b)) == TurnBetween(Routing.ArmName(a), Routing.ArmName(b))
    ensures DetermineManeuver(Label(a), Label(b)) == TurnBetween(Routing.ArmName(a), Routing.ArmName(b))
  {
    LowerLabel(a);
    LowerLabel(b);
    assert Label(a) != "" && Label(b) != "" && Routing.ArmName(a) != "" && Routing.ArmName(b) != "";
  }

  /** The maneuver read back from origin and exit agrees with the controller's rotation table,
      whether the arms are written as names or as labels, for all twelve origin-exit pairs. */
  lemma ManeuverMatchesRotation(a: Routing.Arm, t: Routing.Turn)
    ensures Routing.ExitDirectionFor(Routing.ArmName(a), TurnName(t)).Some?
    ensures DetermineManeuver(Routing.ArmName(a), Routing.ExitDirectionFor(Routing.ArmName(a), TurnName(t)).value)
         == Some(TurnName(t))
    ensures DetermineManeuver(Label(a), Label(Routing.ExitArm(a, t))) == Some(TurnName(t))
  {
    Routing.ParseArmName(a);
    assert Routing.ParseTurn(TurnName(t)) == Some(t);
    TurnBetweenArms(a, t);
    ManeuverOfArms(a, Routing.ExitArm(a, t));
  }

  /** No maneuver leads from an arm back to itself. */
  lemma NoManeuverToSameArm(d: string)
    ensures DetermineManeuver(d, d).None?
  {
  }

  const Arrow: string := " → "

  /** The label of the origin-destination pair `(a, b)`, such as "Utara → Selatan". */
  function DirLabel(a: Routing.Arm, b: Routing.Arm): string {
    Label(a) + Arrow + Label(b)
  }

  /** `DIRECTIONS_12`: the origin-destination labels of the rekap tables. */
  const Directions12: seq<string> := [
    DirLabel(Routing.Utara, Routing.Selatan), DirLabel(Routing.Utara, Routing.Timur), DirLabel(Routing.Utara, Routing.Barat),
    DirLabel(Routing.Timur, Routing.Barat), DirLabel(Routing.Timur, Routing.Selatan), DirLabel(Routing.Timur, Routing.Utara),
    DirLabel(Routing.Selatan, Routing.Utara), DirLabel(Routing.Selatan, Routing.Barat), DirLabel(Routing.Selatan, Routing.Timur),
    DirLabel(Routing.Barat, Routing.Timur), DirLabel(Routing.Barat, Routing.Utara), DirLabel(Routing.Barat, Routing.Selatan)]

  /** The arm a label starts with, by its capital letter. */
  function InitialCode(c: char): int {
    if c == 'U' then 0 else if c == 'T' then 1 else if c == 'S' then 2 else if c == 'B' then 3 else -1
  }

  /** The arm a label ends with, by its last letter. */
  function FinalCode(c: char): int {
    if c == 'a' then 0 else if c == 'r' then 1 else if c == 'n' then 2 else if c == 't' then 3 else -2
  }

  /** The first and last letters of a pair's label name its origin and its destination. */
  lemma DirLabelEnds(a: Routing.Arm, b: Routing.Arm)
    ensures var s := DirLabel(a, b);
      InitialCode(s[0]) == Routing.ArmIndex(a) && FinalCode(s[|s| - 1]) == Routing.ArmIndex(b)
  {
    var s := DirLabel(a, b);
    assert s[0] == Label(a)[0];
    assert s[|s| - 1] == Label(b)[|Label(b)| - 1];
  }

  /** The arms of table `k`. */
  function DirectionPairOf(k: nat): (r: (Routing.Arm, Routing.Arm))
    requires k < |Directions12|
    ensures Directions12[k] == DirLabel(r.0, r.1) && r.0 != r.1
  {
    [(Routing.Utara, Routing.Selatan), (Routing.Utara, Routing.Timur), (Routing.Utara, Routing.Barat),
     (Routing.Timur, Routing.Barat), (Routing.Timur, Routing.Selatan), (Routing.Timur, Routing.Utara),
     (Routing.Selatan, Routing.Utara), (Routing.Selatan, Routing.Barat), (Routing.Selatan, Routing.Timur),
     (Routing.Barat, Routing.Timur), (Routing.Barat, Routing.Utara), (Routing.Barat, Routing.Selatan)][k]
  }

  /** A pair's label names its arms. */
  lemma LabelsDetermineArms(a: Routing.Arm, b: Routing.Arm, x: Routing.Arm, y: Routing.Arm)
    requires DirLabel(a, b) == DirLabel(x, y)
    ensures a == x && b == y
  {
    DirLabelEnds(a, b);
    DirLabelEnds(x, y);
  }

  /** `DirectionIndex` finds the table of each pair back. */
  lemma PairIndex(k: nat)
    requires k < |Directions12|
    ensures DirectionIndex(DirectionPairOf(k).0, DirectionPairOf(k).1) == k
  {
  }

  /** The twelve labels are distinct. */
  lemma DirectionsDistinct(j: nat, k: nat)
    requires j < |Directions12| && k < |Directions12| && j != k
    ensures Directions12[j] != Directions12[k]
  {
    var p, q := DirectionPairOf(j), DirectionPairOf(k);
    if Directions12[j] == Directions12[k] {
      LabelsDetermineArms(p.0, p.1, q.0, q.1);
      PairIndex(j);
      PairIndex(k);
    }
  }

  /** The table of a pair of different arms. */
  function DirectionIndex(a: Routing.Arm, b: Routing.Arm): (k: nat)
    requires a != b
    ensures k < |Directions12| && Directions12[k] == DirLabel(a, b)
  {
    match (a, b)
    case (Utara, Selatan) => 0 case (Utara, Timur) => 1 case (Utara, Barat) => 2
    case (Timur, Barat) => 3 case (Timur, Selatan) => 4 case (Timur, Utara) => 5
    case (Selatan, Utara) => 6 case (Selatan, Barat) => 7 case (Selatan, Timur) => 8
    case (Barat, Timur) => 9 case (Barat, Utara) => 10 case (Barat, Selatan) => 11
  }

  /** Every pair of different arms has its table, and no table joins an arm with itself. */
  lemma DirectionsCoverPairs(a: Routing.Arm, b: Routing.Arm)
    ensures DirLabel(a, b) in Directions12 <==> a != b
  {
    if a == b {
      DirLabelEnds(a, b);
      forall k | 0 <= k < |Directions12|
        ensures Directions12[k] != DirLabel(a, b)
      {
        var p := DirectionPairOf(k);
        DirLabelEnds(p.0, p.1);
      }
    } else {
      var k := DirectionIndex(a, b);
    }
  }

  // ---------- the vehicle as the logger sees it ----------

  /** The properties the logger reads from a vehicle; None stands for a missing or null value,
      "" for a missing direction. */
  datatype VehicleView = VehicleView(
    displayId: Option<string>, id: Option<string>, vehicleId: Option<string>,
    x: Option<real>, frontX: Option<real>, y: Option<real>, frontY: Option<real>,
    vtype: Option<string>, jenis: Option<string>,
    direction: string, exitDir: string, freeFlowKmh: Option<real>)

  /** `vehKeyOf`: the first id that is present, or "veh_" and the clock reading `now`. */
  function VehKeyOf(v: VehicleView, now: nat): string {
    if v.displayId.Some? then v.displayId.value
    else if v.id.Some? then v.id.value
    else if v.vehicleId.Some? then v.vehicleId.value
    else "veh_" + NatToString(now)
  }

  datatype Meta = Meta(id: string, jenis: string, arah: string, maneuver: Option<string>)

  /** `buildMetaFromVehicle`. */
  function BuildMetaFromVehicle(v: VehicleView, now: nat): (meta: Meta)
    ensures meta.id == VehKeyOf(v, now)
    ensures meta.maneuver.Some? ==> meta.arah in Directions12
  {
    var from := NormalizeDirection(v.direction);
    var to := MapExitDirForManeuver(from, v.exitDir);
    var jenis := if v.vtype.Some? then v.vtype.value else if v.jenis.Some? then v.jenis.value else "-";
    var maneuver := DetermineManeuver(from, to);
    MetaDirection(from, to);
    Meta(VehKeyOf(v, now), jenis, from + Arrow + to, maneuver)
  }

  /** A trip with a maneuver is filed under one of the twelve origin-destination tables. */
  lemma MetaDirection(from: string, to: string)
    requires from == "-" || exists a :: from == Label(a)
    requires to == "-" || exists a :: to == Label(a)
    ensures DetermineManeuver(from, to).Some? ==> from + Arrow + to in Directions12
  {
    if from != "-" && to != "-" {
      MetaDirectionArms(ArmOfLabel(from).value, ArmOfLabel(to).value);
    } else {
      NoManeuverFromDash(from, to);
    }
  }

  /** Between two arms' labels a maneuver exists only for a pair with its own table. */
  lemma MetaDirectionArms(a: Routing.Arm, b: Routing.Arm)
    ensures DetermineManeuver(Label(a), Label(b)).Some? ==> DirLabel(a, b) in Directions12
  {
    ManeuverOfArms(a, b);
    if a != b {
      DirectionsCoverPairs(a, b);
    } else {
      assert TurnBetween(Routing.ArmName(a), Routing.ArmName(a)).None?;
    }
  }

  /** "-" on either side has no maneuver. */
  lemma NoManeuverFromDash(from: string, to: string)
    requires from == "-" || to == "-"
    ensures DetermineManeuver(from, to).None?
  {
    if from == "-" {
      assert ToLower(from) == "-";
    } else {
      assert ToLower(to) == "-";
    }
  }

  // ---------- the sample buffer ----------

  datatype Sample = Sample(timestamp: real, xPx: Option<real>, yPx: Option<real>)

  datatype ActiveLog = ActiveLog(samples: seq<Sample>, meta: Meta)

  /** `typeof v.x === 'number' ? v.x : (typeof v.frontX === 'number' ? v.frontX : null)`. */
  function FirstNumber(a: Option<real>, b: Option<real>): Option<real> {
    if a.Some? then a else b
  }

  /** Appending a sample and cutting the buffer to its last `MaxSamples` entries. */
  function KeepRecent(samples: seq<Sample>, s: Sample): (r: seq<Sample>)
    ensures |r| == Min((|samples| + 1) as real, MaxSamples as real) as int
    ensures r[|r| - 1] == s
    ensures exists k :: 0 <= k <= |samples| + 1 && r == (samples + [s])[k..]
    ensures |samples| < MaxSamples ==> r == samples + [s]
  {
    var arr := samples + [s];
    var k := if |arr| > MaxSamples then |arr| - MaxSamples else 0;
    assert arr[k..] == (samples + [s])[k..];
    arr[k..]
  }

  /** A full buffer drops its oldest sample for each new one. */
  lemma KeepRecentSlides(samples: seq<Sample>, s: Sample)
    requires |samples| == MaxSamples
    ensures KeepRecent(samples, s) == samples[1..] + [s]
  {
  }

  // ---------- finalising a trip ----------

  datatype Row = Row(
    timestamp: Option<real>, xPx: Option<real>, yPx: Option<real>, xM: Option<real>, yM: Option<real>,
    dx: Option<real>, dy: Option<real>, vFrame: Option<real>)

  const EmptyRow: Row := Row(None, None, None, None, None, None, None, None)

  /** Pixels to metres, or null. */
  function ToMetres(p: Option<real>, pxPerMeter: real): Option<real>
    requires pxPerMeter > 0.0
  {
    if p.None? then None else Some(p.value / pxPerMeter)
  }

  /** The first loop of `finalizeVehicle`: a row per sample, with no deltas yet. */
  function SampleRow(s: Sample, pxPerMeter: real): (row: Row)
    requires pxPerMeter > 0.0
    ensures row.dx.None? && row.dy.None? && row.vFrame.None?
  {
    Row(Some(s.timestamp), s.xPx, s.yPx, ToMetres(s.xPx, pxPerMeter), ToMetres(s.yPx, pxPerMeter), None, None, None)
  }

  function SampleRows(samples: seq<Sample>, pxPerMeter: real): (rows: seq<Row>)
    requires pxPerMeter > 0.0
    ensures |rows| == |samples|
    ensures forall i :: 0 <= i < |samples| ==> rows[i] == SampleRow(samples[i], pxPerMeter)
  {
    if samples == [] then []
    else SampleRows(samples[..|samples| - 1], pxPerMeter) + [SampleRow(samples[|samples| - 1], pxPerMeter)]
  }

  /** The product `d * d`. */
  function Square(d: real): real {
    d * d
  }

  /** The step to `cur` from the previous row's position `(px, py)` in metres: null unless
      both rows have an x coordinate; a missing y coordinate counts as 0, as JavaScript's
      `null - y` does. */
  function FrameStep(m: MathLib, px: Option<real>, py: Option<real>, cur: Row): (r: Row)
    ensures r.xM == cur.xM && r.yM == cur.yM && r.timestamp == cur.timestamp
    ensures r.vFrame.Some? <==> px.Some? && cur.xM.Some?
  {
    if px.None? || cur.xM.None? then cur.(dx := None, dy := None, vFrame := None)
    else
      var dx := cur.xM.value - px.value;
      var dy := cur.yM.GetOr(0.0) - py.GetOr(0.0);
      cur.(dx := Some(dx), dy := Some(dy), vFrame := Some(m.sqrt(Square(dx) + Square(dy))))
  }

  /** Row `k` once the distance loop has passed it. */
  function StepAt(m: MathLib, rows: seq<Row>, k: nat): Row
    requires k < |rows|
  {
    if k == 0 then rows[0] else FrameStep(m, rows[k - 1].xM, rows[k - 1].yM, rows[k])
  }

  /** The rows after the distance loop has passed the first `n`: row k of them, k > 0,
      carries its step from row k - 1. */
  function StepsUpTo(m: MathLib, rows: seq<Row>, n: nat): (r: seq<Row>)
    ensures |r| == |rows|
  {
    seq(|rows|, k requires 0 <= k < |rows| => if k < n then StepAt(m, rows, k) else rows[k])
  }

  /** The rows after the whole distance loop. */
  function WithSteps(m: MathLib, rows: seq<Row>): (r: seq<Row>)
    ensures |r| == |rows|
  {
    StepsUpTo(m, rows, |rows|)
  }

  /** The distance travelled over the first `n` rows: the sum of their steps. */
  function Distance(m: MathLib, rows: seq<Row>, n: nat): real
    requires n <= |rows|
  {
    if n <= 1 then 0.0
    else
      var step := StepAt(m, rows, n - 1);
      Distance(m, rows, n - 1) + (if step.vFrame.Some? then step.vFrame.value else 0.0)
  }

  /** The trip distance is never negative. */
  lemma {:induction false} DistanceNonNegative(m: MathLib, rows: seq<Row>, n: nat)
    requires Sound(m) && n <= |rows|
    ensures Distance(m, rows, n) >= 0.0
  {
    if n > 1 {
      DistanceNonNegative(m, rows, n - 1);
    }
  }

  /** Rows without x coordinates add nothing to the distance. */
  lemma {:induction false} DistanceWithoutPositions(m: MathLib, rows: seq<Row>, n: nat)
    requires n <= |rows| && forall i :: 0 <= i < |rows| ==> rows[i].xM.None?
    ensures Distance(m, rows, n) == 0.0
  {
    if n > 1 {
      DistanceWithoutPositions(m, rows, n - 1);
    }
  }

  /** The `for (let i = 1; i < rows.length; i++)` loop: fill in the steps and sum them. */
  method FillSteps(m: MathLib, rows0: seq<Row>) returns (rows: seq<Row>, totalDist: real)
    ensures rows == WithSteps(m, rows0)
    ensures totalDist == Distance(m, rows0, |rows0|)
  {
    rows := rows0;
    totalDist := 0.0;
    if |rows0| == 0 {
      assert rows == WithSteps(m, rows0);
      return;
    }
    var i := 1;
    assert rows == StepsUpTo(m, rows0, 1);
    while i < |rows|
      invariant 1 <= i <= |rows0|
      invariant rows == StepsUpTo(m, rows0, i)
      invariant totalDist == Distance(m, rows0, i)
    {
      var prev := rows[i - 1];
      var cur := rows[i];
      var next := FrameStep(m, prev.xM, prev.yM, cur);
      assert next == StepAt(m, rows0, i);
      rows := rows[i := next];
      if next.vFrame.Some? {
        totalDist := totalDist + next.vFrame.value;
      }
      i := i + 1;
    }
  }

  /** The `while (rows.length < SAMPLE_MIN_ROWS)` loop. */
  method PadRows(rows0: seq<Row>) returns (rows: seq<Row>)
    ensures |rows| == if |rows0| >= SampleMinRows then |rows0| else SampleMinRows
    ensures rows[..|rows0|] == rows0
    ensures forall k :: |rows0| <= k < |rows| ==> rows[k] == EmptyRow
  {
    rows := rows0;
    while |rows| < SampleMinRows
      invariant |rows| >= |rows0|
      invariant |rows0| >= SampleMinRows ==> rows == rows0
      invariant |rows0| < SampleMinRows ==> |rows| <= SampleMinRows
      invariant rows[..|rows0|] == rows0
      invariant forall k :: |rows0| <= k < |rows| ==> rows[k] == EmptyRow
      decreases SampleMinRows - |rows|
    {
      rows := rows + [EmptyRow];
    }
  }

  /** A timestamp counts only when it is truthy (not 0). */
  function Truthy(t: real): Option<real> {
    if t != 0.0 then Some(t) else None
  }

  /** `v_individu`: the distance over the duration from the first to the last timestamp, when the
      last comes after the first; null otherwise. */
  function TripSpeed(samples: seq<Sample>, totalDist: real): (v: Option<real>)
    requires |samples| > 0
    ensures v.Some? <==> Truthy(samples[0].timestamp).Some? && Truthy(samples[|samples| - 1].timestamp).Some?
                          && samples[|samples| - 1].timestamp > samples[0].timestamp
    ensures v.Some? ==> v.value * (samples[|samples| - 1].timestamp - samples[0].timestamp) == totalDist
  {
    var t0 := Truthy(samples[0].timestamp);
    var t1 := Truthy(samples[|samples| - 1].timestamp);
    var dur: Option<real> := if t0.Some? && t1.Some? && t1.value > t0.value then Some(t1.value - t0.value) else None;
    if dur.Some? && dur.value > 0.0 then Some(totalDist / dur.value) else None
  }

  /** `v_kmh`. */
  function ToKmh(v: Option<real>): (k: Option<real>)
    ensures k.Some? <==> v.Some?
    ensures k.Some? ==> k.value / 3.6 == v.value
  {
    if v.Some? then Some(v.value * 3.6) else None
  }

  datatype FinishedEntry = FinishedEntry(
    id: string, jenis: string, arah: string, vIndividu: Option<real>, vKmh: Option<real>,
    freeFlowKmh: Option<real>, data: seq<Row>)

  /** The record `finalizeVehicle` files for a trip with samples. */
  function FinishedFor(m: MathLib, log: ActiveLog, v: VehicleView, pxPerMeter: real, rows: seq<Row>): (e: FinishedEntry)
    requires |log.samples| > 0 && pxPerMeter > 0.0
  {
    var dist := Distance(m, SampleRows(log.samples, pxPerMeter), |log.samples|);
    var vi := TripSpeed(log.samples, dist);
    FinishedEntry(log.meta.id, log.meta.jenis, log.meta.arah, vi, ToKmh(vi), v.freeFlowKmh, rows)
  }

  /** The logger's state: the open logs by vehicle key and the finished trips in order. */
  class Logger {
    var activeLogs: map<string, ActiveLog>
    var finished: seq<FinishedEntry>

    constructor ()
      ensures activeLogs == map[] && finished == []
    {
      activeLogs := map[];
      finished := [];
    }

    /** `logFrame`: open a log with the vehicle's meta data when there is none, then append a
        sample at time `t` and keep the last `MaxSamples`. */
    method LogFrame(v: VehicleView, t: real, now: nat)
      modifies this
      ensures var key := VehKeyOf(v, now);
        key == "" ==> activeLogs == old(activeLogs)
      ensures var key := VehKeyOf(v, now);
        var s := Sample(t, FirstNumber(v.x, v.frontX), FirstNumber(v.y, v.frontY));
        var before := if key in old(activeLogs) then old(activeLogs)[key]
                      else ActiveLog([], BuildMetaFromVehicle(v, now));
        key != "" ==> activeLogs == old(activeLogs)[key := before.(samples := KeepRecent(before.samples, s))]
      ensures finished == old(finished)
    {
      var key := VehKeyOf(v, now);
      if key == "" {
        return;
      }
      if key !in activeLogs {
        activeLogs := activeLogs[key := ActiveLog([], BuildMetaFromVehicle(v, now))];
      }
      var log := activeLogs[key];
      var s := Sample(t, FirstNumber(v.x, v.frontX), FirstNumber(v.y, v.frontY));
      activeLogs := activeLogs[key := log.(samples := KeepRecent(log.samples, s))];
    }

    /** `finalizeVehicle`: close the vehicle's log; a log with samples becomes a finished trip
        with its rows (padded to `SampleMinRows`), distance and speed. */
    method FinalizeVehicle(m: MathLib, v: VehicleView, pxPerMeter: real, now: nat)
      requires pxPerMeter > 0.0
      modifies this
      ensures var key := VehKeyOf(v, now);
        key != "" ==> activeLogs == old(activeLogs) - {key}
      ensures var key := VehKeyOf(v, now);
        key == "" ==> activeLogs == old(activeLogs)
      ensures var key := VehKeyOf(v, now);
        if key != "" && key in old(activeLogs) && |old(activeLogs)[key].samples| > 0 then
          && |finished| == |old(finished)| + 1
          && finished[..|old(finished)|] == old(finished)
          && var e := finished[|old(finished)|];
             var log := old(activeLogs)[key];
             && e == FinishedFor(m, log, v, pxPerMeter, e.data)
             && |e.data| == (if |log.samples| >= SampleMinRows then |log.samples| else SampleMinRows)
             && e.data[..|log.samples|] == WithSteps(m, SampleRows(log.samples, pxPerMeter))
             && forall k :: |log.samples| <= k < |e.data| ==> e.data[k] == EmptyRow
        else finished == old(finished)
    {
      var key := VehKeyOf(v, now);
      if key == "" {
        return;
      }
      if key !in activeLogs || |activeLogs[key].samples| == 0 {
        activeLogs := activeLogs - {key};
        return;
      }
      var log := activeLogs[key];
      activeLogs := activeLogs - {key};
      var base := SampleRows(log.samples, pxPerMeter);
      var rows, totalDist := FillSteps(m, base);
      var padded := PadRows(rows);
      var vi := TripSpeed(log.samples, totalDist);
      var e := FinishedEntry(log.meta.id, log.meta.jenis, log.meta.arah, vi, ToKmh(vi), v.freeFlowKmh, padded);
      finished := finished + [e];
    }
  }
}
