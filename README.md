# Traffic-intersection simulator: a verified model of its engine

This project models the engine of a browser simulator of a four-arm signalised intersection. The
arms are Utara, Timur, Selatan and Barat. Vehicles arrive per lane, follow Bézier routes through the
junction and are slowed by a car-following rule, by the traffic lights and by a box-overlap cap. A
trip logger records their speeds, and the summary tables compute signal timing, capacity and queue
length. The model is written in Dafny 4.11 and proved by Dafny's verifier.

The project has one module per source file:

| module | file | what it models |
|---|---|---|
| `Routing` | routing.dfy | js/vehmov.js: the compass rotation table, lane keys, exit-lane choice, Bézier control points, wheelbases |
| `Geometry` | geometry.dfy | js/vehmov.js: line, quadratic and cubic point and tangent, the path table, the distance-to-segment lookup |
| `VehMov` | vehmov.dfy | js/vehmov.js: spawn positions, route choice, the vehicle controller (`createVehicle`, and `update`'s movement budget spent through approaching, blending, following and free motion, with removal) |
| `Vehicles` | vehicles.dfy | js/vehicle.js: speeds, allowed maneuvers, origin and destination, Poisson arrivals, the weighted type pick, spawning, `Vehicle` |
| `Antrian` | antrian.dfy | js/vehicles/antrian.js: unit conversion, vehicle length, the desired-speed fallback, the IDM pass over lanes |
| `AntrianGeom` | antrian_geom.dfy | js/vehicles/antrian.js: the separating-axis overlap test and the bisection for the largest non-overlapping scale |
| `AntrianTl` | antrian_tl.dfy | js/vehicles/antrian.js: the traffic-light enforcement block |
| `AntrianPass` | antrian_pass.dfy | js/vehicles/antrian.js: the overlap speed cap, the whole `updateAntrian` frame, the stopped-vehicle counter |
| `SpeedLogger` | speedlogger.dfy | js/SpeedLogger.js: direction and maneuver labels, the sample buffer, trip finalisation |
| `SpeedRekap` | rekap.dfy | js/SpeedLogger.js: `computeRekapAllDirections` |
| `Summary` | summary.dfy | js/Summary.js: the signal-timing, capacity and queue formulas and the per-lane accumulation |
| `Siklus` | siklus.dfy | js/SiklusLampu.js: the cycle parameters and the elapsed-in-cycle clock |
| `Lampu` | lampu.dfy | js/LampuLaluLintas.js: the phase cycle green, yellow, all red, next arm |
| `LampuLama` | lampu_lama.dfy | LampuLaluLintas.js: the older cycle green, yellow, red and next arm, with no all-red interval |
| `Wrappers`, `Numeric`, `Text` | wrappers.dfy, numeric.dfy, text.dfy | shared helpers: `Option`, JavaScript's truncating `%` and `||` on numbers, rounding, string operations |

Objects whose fields the source updates in place are classes: the vehicle controller
(`VehMov.Controller`), `Vehicles.Vehicle`, the trip logger (`SpeedLogger.Logger`), the cycle clock and
both lamps. Loops become methods with loop invariants, each proved equal to a specification function.
The properties the source promises are then proved as lemmas about that function.

Everything outside Dafny's real arithmetic is a parameter:
- `Math.sqrt`, `Math.hypot`, `Math.atan2`, `Math.cos`, `Math.sin`, `Math.pow` and `Math.log` are a
  `Numeric.MathLib` value. Its predicate `Sound` states the few facts the proofs use, such as
  non-negative square roots.
- Every `Math.random()` draw is an argument.
- The clock is an argument.
- The nearest-point search on a path (`findClosestDistanceOnPathToPoint`) is a function argument
  `closest`.
- The longitudinal gap between two vehicles is a function argument `gapOf`.

## Source and specification

Where the prose description of the system and the code disagree, the model follows the code:
- `SiklusLampu.update` reads `durasi` and `waktuFase` from its lamp, but js/LampuLaluLintas.js keeps
  neither. The lamp branch is still modelled, on a snapshot of those fields.
- `mapExitDirForManeuver` does not map a canvas direction to another arm: its table maps every
  exit to itself, so the result is the normalised exit arm whenever that differs from the origin.

One place where the model departs from the code: a prior speed of exactly 0 does not bound the
red and stop-on-yellow rules of js/vehicles/antrian.js:561 and 581 (see Findings). The rule as
written is `AntrianTl.StopSpeedAsWritten`; the traffic-light pass and the frame use the corrected
`AntrianTl.StopSpeed`, and the members built on it are listed under "Left out".

## Model

| member | source | states |
|---|---|---|
| Lampu.SetAll | js/LampuLaluLintas.js:137-139 | after painting a list of arms one colour, the map holds the old arms plus the painted ones; each painted arm has that colour and every other arm keeps its colour |
| Lampu.Paint | js/LampuLaluLintas.js:137-139 | the `for (let arah of this.urutan)` loop leaves exactly the map `SetAll` describes |
| Lampu.PaintAllRed | js/LampuLaluLintas.js:136-139 | painting the whole clockwise order red turns any four-arm status into all red |
| Lampu.PhaseNonRed | js/LampuLaluLintas.js:141-150 | while green or yellow only the active arm is not red; in the all-red interval no arm is |
| Lampu.NextIndex | js/LampuLaluLintas.js:153 | the next index stays in range and names the clockwise successor of the active arm |
| Lampu.FourPhasesCycle | js/LampuLaluLintas.js:153 | four phase changes bring back the same arm, and the four active arms are all four arms |
| Lampu.Lampu.AtMostOneNonRed | js/LampuLaluLintas.js:132-160 | in every state of the phase machine at most one arm shows anything but red, and it is the active arm |
| Lampu.Lampu.constructor | js/LampuLaluLintas.js:28-38 | starts with every arm red and utara, index 0, next to go green |
| Lampu.Lampu.Update | js/LampuLaluLintas.js:132-143 | keeps the active index, paints every arm red and then the active arm green, so exactly the active arm is non-red; the green timer is pending |
| Lampu.Lampu.GreenElapsed | js/LampuLaluLintas.js:143-145 | only the active arm changes, from green to yellow; the yellow timer is pending |
| Lampu.Lampu.YellowElapsed | js/LampuLaluLintas.js:146-150 | every arm red and none non-red; the all-red timer is pending |
| Lampu.Lampu.AllRedElapsed | js/LampuLaluLintas.js:151-155 | the active index advances modulo 4 to the clockwise next arm, which turns green |
| LampuLama.LampuLama.AtMostOneNonRed | LampuLaluLintas.js:76-95 | in every state of the older phase machine at most one arm is not red, and it is the active arm |
| LampuLama.LampuLama.constructor | LampuLaluLintas.js:32-42 | starts with every arm red and utara, index 0, next to go green |
| LampuLama.LampuLama.Update | LampuLaluLintas.js:76-87 | keeps the active index, paints every arm red and then the active arm green; the green timer is pending |
| LampuLama.LampuLama.GreenElapsed | LampuLaluLintas.js:87-88 | only the active arm changes, to yellow; the yellow timer is pending |
| LampuLama.LampuLama.YellowElapsed | LampuLaluLintas.js:89-93 | the active arm turns red and the clockwise next arm goes green at once, with no all-red interval |
| Siklus.ComputeGreen | js/SiklusLampu.js:26-32 | the green time is never negative; it is the group length (a quarter of the cycle for "searah", else half) less the all-red and yellow intervals whenever that difference is not negative |
| Siklus.GreenFillsCycle | js/SiklusLampu.js:26-32 | when the clearance intervals fit in a group, all-red, green and yellow fill each group exactly, and 4 (or 2) groups fill the cycle |
| Siklus.GreenMonotoneInCycle | js/SiklusLampu.js:26-32 | a longer cycle never gives a shorter green |
| Siklus.SecondsToMs | js/SiklusLampu.js:36-38 | a non-number becomes 0 ms; a number of seconds becomes that many thousand ms |
| Siklus.SimSpeedOf | js/SiklusLampu.js:57-59 | the speed factor is never 0, and a given non-zero factor is kept |
| Siklus.GroupsBefore | js/SiklusLampu.js:95-99 | the loop over groups runs for exactly the active index when it is not negative |
| Siklus.PhaseOffsetsOrdered | js/SiklusLampu.js:102-115 | with non-negative durations the all-red offset lies in [0, allRed], a missing phase counts as all-red, the green offset follows it and the yellow offset follows green |
| Siklus.Wrap | js/SiklusLampu.js:118 | the remainder is NaN (None) exactly for a zero cycle, lies in [0, cycle) for a non-negative position and positive cycle, and leaves a position already inside the cycle unchanged |
| Siklus.GroupStartPosition | js/SiklusLampu.js:90-118 | at the start of its all-red interval, group `idx` of a lamp with a positive total sits at `idx` equal parts of the cycle |
| Siklus.GroupsBeforeCycle | js/SiklusLampu.js:92-99 | fewer whole groups than the lamp has take less than the whole cycle |
| Siklus.FallbackElapsed | js/SiklusLampu.js:125-127 | NaN stays NaN; with a positive cycle a non-negative advanced position is wrapped into [0, cycle) |
| Siklus.FallbackAdvances | js/SiklusLampu.js:125-127 | before it wraps, the internal timer moves forward by exactly `deltaMs * simSpeed` |
| Siklus.SumGroups | js/SiklusLampu.js:96-99 | the summing loop adds `perGroupTotal` exactly `n` times |
| Siklus.SiklusLampu.constructor | js/SiklusLampu.js:10-23 | cycle, all-red and yellow default to 120 s, 2 s and 3 s (in ms), the mode to "searah", the timer starts at 0 with speed 1 |
| Siklus.SiklusLampu.Green | js/SiklusLampu.js:26-32 | the green time with the current settings is never negative |
| Siklus.SiklusLampu.SetParams | js/SiklusLampu.js:35-38 | sets the three durations from seconds, non-numbers as 0, and nothing else |
| Siklus.SiklusLampu.SetPhaseMode | js/SiklusLampu.js:49-55 | takes one of the three known modes and refuses any other, changing nothing else |
| Siklus.SiklusLampu.SetSimSpeed | js/SiklusLampu.js:57-59 | sets the speed factor to `v || 1` and nothing else |
| Siklus.SiklusLampu.SyncWithLampu | js/SiklusLampu.js:62-73 | attaches the lamp and, when it publishes durations, takes its non-zero total, all-red and yellow; otherwise the durations stay |
| Siklus.SiklusLampu.ResetCycleDiagram | js/SiklusLampu.js:77-81 | the timer goes back to 0 and the reset flag is set |
| Siklus.SiklusLampu.Update | js/SiklusLampu.js:85-129 | with a synchronised lamp the position is the lamp's groups-plus-offset modulo its cycle, and its durations and mode are taken over; otherwise the internal timer advances and wraps |
| Summary.HitungWaktuHijau | js/Summary.js:126-129 | green plus the all-red and yellow intervals is one phase group: a quarter of the cycle for "searah", else half |
| Summary.HitungWaktuMerah | js/Summary.js:137-140 | red is the cycle less one phase group |
| Summary.TimingFillsCycle | js/Summary.js:126-140 | in every mode green, all-red, yellow and red add up to the cycle |
| Summary.GreenAgreesWithCycleDiagram | js/Summary.js:126-129 | the cycle diagram's `computeGreen` (js/SiklusLampu.js:26-32) is this green time with negatives cut to zero |
| Summary.HitungArusJenuh | js/Summary.js:146-149 | the saturation flow is positive for every truck share the formula is defined for |
| Summary.ArusJenuhWithoutTrucks | js/Summary.js:146-149 | without trucks the flow is 1900 · 0.92 · 0.9 = 1573.2 |
| Summary.ArusJenuhDecreasing | js/Summary.js:146-149 | a larger truck share gives a strictly smaller saturation flow |
| Summary.HitungQ | js/Summary.js:154-156 | non-negative counts give non-negative passenger car units |
| Summary.QWeights | js/Summary.js:154-156 | passenger car units add up over counts, with weights 1 (car), 1.3 (truck) and 0.2 (motorcycle) |
| Summary.HitungSmpHijau | js/Summary.js:161-163 | the units arriving in red, times 3600, are the hourly flow times the red time |
| Summary.HitungKapasitas | js/Summary.js:168-171 | 0 for a cycle that is not positive; otherwise capacity times cycle is saturation flow times green |
| Summary.KapasitasBounded | js/Summary.js:168-171 | with a green inside the cycle the capacity lies between 0 and the saturation flow |
| Summary.HitungPanjangAntrian | js/Summary.js:176-179 | 0 for a zero lane width; otherwise length times width is 20 per queued unit |
| Summary.RoundNum | js/Summary.js:101-104 | rounding to hundredths moves a value by at most half a hundredth |
| Summary.RoundNumPercent | js/Summary.js:101-104 | rounding keeps a percentage inside [0, 100] |
| Summary.JumlahLajur | js/Summary.js:212 | an empty choice gives 0 lanes and a numeral gives its value |
| Summary.EffectiveGreen | js/Summary.js:215-216 | the green used is always positive, and is the computed green whenever that is positive |
| Summary.PersenTruk | js/Summary.js:256-257 | with non-negative counts the truck share lies in [0, 100] |
| Summary.TotalArus | js/Summary.js:239-249 | a present non-zero entered total is used; otherwise the total is the positive sum of the counts or 0 |
| Summary.LaneRowOf | js/Summary.js:259-292 | the row carries its lane number and is active exactly when the lane number is within the lane count |
| Summary.OrNonNegative | js/Summary.js:257-261 | a truck share above -100 % is passed on unchanged |
| Summary.Rows | js/Summary.js:227-293 | one row per lane input |
| Summary.RowsAt | js/Summary.js:227-293 | row `k` is lane `k + 1` computed from its own inputs |
| Summary.AbsentLanesIgnored | js/Summary.js:275-279 | inputs of lanes beyond the lane count never change a direction's capacity or flow totals |
| Summary.NoLanesNoTotals | js/Summary.js:212-279 | a lane count that is not a number gives zero totals |
| Summary.SummariseDirection | js/Summary.js:211-308 | one direction's record: its lane count, green and red, the rows of all five lanes, and the rounded totals over the present lanes |
| Vehicles.TypeInfo | js/vehicle.js:2-24 | a known type carries its own name and a positive speed range whose lower end is at most its upper end |
| Vehicles.KmhToMs | js/vehicle.js:32-34 | the m/s value times 3.6 is the km/h value, and a positive speed shrinks |
| Vehicles.RandBetween | js/vehicle.js:27-29 | a draw in [0, 1) gives a value in [min, max] |
| Vehicles.AllowedMovements | js/vehicle.js:102-109 | "left", "straight" and "right" are allowed exactly when the upper-cased arrow string holds L, S and R; no maneuver repeats and the order is left, straight, right |
| Vehicles.GetAllowedMovements | js/vehicle.js:102-109 | the three checks build exactly `AllowedMovements` |
| Vehicles.LaneMovementsKeys | js/vehicle.js:111-117 | the map has a key for exactly the lane indices of the configuration |
| Vehicles.LaterLaneOverrides | js/vehicle.js:111-117 | a lane index maps to the movements of the last lane with that index |
| Vehicles.MapLaneToMovements | js/vehicle.js:111-117 | the loop builds exactly the map `LaneMovements` describes |
| Vehicles.AssignOriginDestination | js/vehicle.js:120-135 | fails only with one of the two messages the source throws; on success the origin is the given direction |
| Vehicles.DestinationMatchesRotation | js/vehicle.js:120-135 | succeeds exactly when the controller's `exitDirectionFor` (js/vehmov.js:202-209) knows the arm and the maneuver, and then names the same exit arm; an unknown arm is reported first |
| Vehicles.DestinationForArm | js/vehicle.js:120-135 | for a known arm the destination is the exit of the rotation table, and an unknown maneuver is the only failure |
| Vehicles.GapNonNegative | js/vehicle.js:93 | for a draw in [0, 1) the gap to the next arrival is never negative |
| Vehicles.ArrivalTimesMonotone | js/vehicle.js:90-97 | the running arrival times never go backwards |
| Vehicles.GeneratePoissonArrivals | js/vehicle.js:86-99 | no arrivals for a rate that is not positive; otherwise arrival `i` is the sum of the first `i + 1` gaps, every arrival is within the duration, arrivals are ordered, and a complete run stops at the first time past the duration |
| Vehicles.Normalise | js/vehicle.js:143 | each weight is divided by the total |
| Vehicles.NormaliseSum | js/vehicle.js:141-143 | the normalised weights sum to the old sum divided by the total, that is to 1 |
| Vehicles.PickIndex | js/vehicle.js:145-153 | the pick lies in range; every earlier running sum is below the draw; the picked running sum reaches the draw, or the pick is the last type |
| Vehicles.PickType | js/vehicle.js:145-153 | the `pickType` loop returns the type at `PickIndex` |
| Vehicles.PickIndexUnique | js/vehicle.js:145-153 | the pick is the only index with that characterisation |
| Vehicles.SpawnIdsDistinct | js/vehicle.js:173 | two spawn indices give two different ids with the same prefix |
| Vehicles.PaddedDistinct | js/vehicle.js:173 | different numbers have different four-digit padded numerals |
| Vehicles.SpawnSpeedKmh | js/vehicle.js:165-166 | the speed lies in the type's range, drawn or at its midpoint |
| Vehicles.SpawnOne | js/vehicle.js:157-184 | a spawned vehicle has the padded id of its index, its arrival time as spawn time, the picked type, and the origin and destination of its lane's maneuver |
| Vehicles.SpawnVehiclesFromPoisson | js/vehicle.js:138-187 | fails for weights whose total is not positive; otherwise yields exactly one vehicle per arrival, each the one `SpawnOne` describes, or the error of an arrival that cannot be spawned |
| Vehicles.SpawnAll | js/vehicle.js:155-186 | every vehicle is `SpawnOne` of its arrival, or the error is that of a failing arrival |
| Vehicles.CollectAll | js/vehicle.js:156-185 | the loop yields all the step results when every step succeeds, and otherwise the error of a failing step |
| Vehicles.SpawnedInArrivalOrder | js/vehicle.js:155-187 | spawned vehicles have pairwise distinct ids and keep the arrival times in order of spawn |
| Vehicles.Keys | js/vehicle.js:139 | the types of the distribution, in entry order |
| Vehicles.Weights | js/vehicle.js:140 | the weights of the distribution, in entry order |
| Vehicles.Vehicle.constructor | js/vehicle.js:46-61 | copies the given fields, takes length and width from the type table, and starts waiting at distance 0 |
| Vehicles.Vehicle.SetPosition | js/vehicle.js:63-65 | sets the position and nothing else |
| Vehicles.Vehicle.Update | js/vehicle.js:67-69 | the distance moved grows by speed times `dt`, and nothing else changes |
| Vehicles.Vehicle.UpdateAll | js/vehicle.js:67-69 | a run of updates from a fresh vehicle covers the summed displacements |
| Vehicles.DistanceMonotone | js/vehicle.js:67-69 | with a non-negative speed and non-negative time steps the moved distance is never negative and never shrinks from one frame to the next: every prefix of the steps moves no further than the whole |
| Routing.ArmAt | js/vehmov.js:201 | the arm at a position of `dirOrder` has that position |
| Routing.ParseArm | js/vehmov.js:203-204 | a recognised name is the name of the arm it gives |
| Routing.ParseArmName | js/vehmov.js:201-204 | every arm's own name is recognised as that arm |
| Routing.Next | js/vehmov.js:205 | the next arm is one position further along `dirOrder`, modulo 4 |
| Routing.ExitArm | js/vehmov.js:205-207 | the exit arm lies 1 (left), 2 (straight) or 3 (right) positions further along `dirOrder`, and is never the entry arm |
| Routing.ExitDirectionFor | js/vehmov.js:202-209 | null exactly for an unknown arm or turn; otherwise the name of the rotated arm, which differs from the entry |
| Routing.ArmNamesDistinct | js/vehmov.js:201 | different arms have different names |
| Routing.RotationInverses | js/vehmov.js:205-207 | a right turn undoes a left turn and vice versa, two straight crossings cancel, and four left turns come back |
| Routing.TurnsReachDistinctArms | js/vehmov.js:205-207 | different turns from one arm lead to different arms |
| Routing.DirFromKey | js/vehmov.js:210 | null exactly for an empty key; otherwise a prefix of the key with no underscore |
| Routing.DirFromLaneKey | js/vehmov.js:210 | the arm of every lane key `${dir}_${n}` is recovered |
| Routing.ExitLookup | js/vehmov.js:222-223 | null exactly when no slot has the key; otherwise the point of the first slot stored under it |
| Routing.ArmSlots | js/vehmov.js:213-214 | exactly the entries whose key starts with the arm and an underscore |
| Routing.Candidates | js/vehmov.js:216-221 | every candidate is an entry with a numeric point, and there are candidates exactly when some entry has one |
| Routing.FirstWithIndex | js/vehmov.js:227-232 | a found candidate has that lane number; none is found only when no candidate has it |
| Routing.NearestFrom | js/vehmov.js:233-237 | the scan's pick is a candidate position |
| Routing.NearestIsFirstMinimum | js/vehmov.js:233-237 | the scan picks a candidate with the smallest lane distance, and the first of a tie |
| Routing.NearestCandidate | js/vehmov.js:233-238 | the loop picks the position `NearestFrom` gives: the first candidate with the smallest lane distance |
| Routing.FindExitPoint | js/vehmov.js:212-241 | null exactly when the arm has no candidate; a found point is the one a string preference names or a candidate's point |
| Routing.FindExitPointPrefersKey | js/vehmov.js:222-224 | when the arm has a candidate, a string preference naming a stored point returns that point, whatever the source lane |
| Routing.FindExitPointFirstCandidate | js/vehmov.js:240 | without a source lane, and with no preference that names a stored key or an existing lane number, the first candidate's point is chosen |
| Routing.FindExitPointFallsBack | js/vehmov.js:230-239 | without a preference a candidate with the source lane's number wins; otherwise the first nearest candidate |
| Routing.FindExitPointPrefersExact | js/vehmov.js:225-229 | an exact preferred lane number wins over the source lane |
| Routing.ComputeCubicForStraight | js/vehmov.js:244-263 | null exactly when the points are closer than 1e-3; otherwise both control points sit on the mid-line of the longer axis, level with the entry and the exit |
| Routing.CubicForStraightReverses | js/vehmov.js:244-263 | running the crossing backwards gives the same control points in reverse order |
| Routing.ComputeQuadraticControlPoint | js/vehmov.js:265-274 | null exactly when the arms coincide; the exit arm fixes its own axis from the exit point, the entry arm fixes the other axis, and a free axis takes the entry's coordinate |
| Routing.QuadraticTurnIsTangentToBothLanes | js/vehmov.js:265-274 | for a turn between a north/south and an east/west arm the curve leaves the entry along the entry's axis and meets the exit along the exit's axis |
| Routing.WheelbaseForType | js/vehmov.js:276-280 | 58 px for a truck, 13 px for a motorcycle, 26.5 px otherwise |
| Geometry.LinePointAt | js/vehmov.js:54 | the line is at its first point for t = 0 and at its second for t = 1 |
| Geometry.BezierPoint | js/vehmov.js:59-65 | the quadratic curve starts at its first control point and ends at its last |
| Geometry.BezierTangent | js/vehmov.js:66-71 | the quadratic tangent at the ends is twice the first and the last control leg |
| Geometry.CubicPoint | js/vehmov.js:84-92 | the cubic curve starts at its first control point and ends at its last |
| Geometry.CubicTangent | js/vehmov.js:93-99 | the cubic tangent at the ends is three times the first and the last control leg |
| Geometry.SegmentEndpoints | js/vehmov.js:118-135 | every known segment evaluates to its start point at t = 0 and its end point at t = 1 |
| Geometry.SampledLength | js/vehmov.js:72-109 | the sampling loop returns the sum of the chords between the `n` sample points |
| Geometry.ChordSumNonNegative | js/vehmov.js:72-81 | with a `hypot` that never returns a negative value the chord sum is not negative |
| Geometry.SegmentLength | js/vehmov.js:112-117 | a segment's length is never negative |
| Geometry.BuildPathFromSegments | js/vehmov.js:137-144 | the loop builds the path whose starts are the running sums of the segment lengths |
| Geometry.PathTable | js/vehmov.js:137-144 | the first start is 0, each start is the previous start plus the previous length, the total is the last start plus the last length (0 for no segment), and the table is well formed |
| Geometry.SegmentIndex | js/vehmov.js:149-152 | the first segment whose end lies at or beyond the distance, or the last segment |
| Geometry.LocateSegment | js/vehmov.js:149-152 | the search loop with its `break` finds that first segment |
| Geometry.LookupSegmentHoldsDistance | js/vehmov.js:146-157 | the chosen segment starts at or before the clamped distance and ends at or after it, so the local parameter already lies in [0,1] |
| Geometry.LocalParameterInRange | js/vehmov.js:154-156 | on a segment holding the distance the local parameter lies in [0,1] and maps back to the distance |
| Geometry.LookupClamps | js/vehmov.js:147-148 | a distance below zero reads the start of the path and one beyond its end reads its end |
| VehMov.ApproachStep | js/vehmov.js:485-543 | within 1 px of the path the rear axle snaps to the nearest path point and the vehicle follows from that distance; farther away a blend of 2 .. max(20, wheelbase/2) px towards that point starts; either way the vehicle leaves the approaching state |
| VehMov.SettleBlend | js/vehmov.js:551-588 | the centre and both axles take their blend targets, the blend is dropped and the vehicle follows the path |
| VehMov.BlendStep | js/vehmov.js:546-592 | either the blend settles and the loop goes on in the following state, or the blend left shrinks by exactly the budget spent and stays above EPS |
| VehMov.FinishPath | js/vehmov.js:598-666 | at the end of the path the vehicle stops turning and drops its path and blend, keeping its identity and path progress |
| VehMov.FollowStep | js/vehmov.js:595-670 | the path progress grows by min(budget, remaining) and the budget falls by the same amount; the progress never passes the path length; reaching the end releases the vehicle into free motion |
| VehMov.FreeStep | js/vehmov.js:672-678 | the centre moves by velocity times budget and nothing but the position and the drawn angle changes; a vehicle at rest keeps its angle |
| VehMov.Step | js/vehmov.js:483-679 | one pass of the loop keeps identity and well-formed paths, and a pass that goes round again moves on to a later state |
| VehMov.Advance | js/vehmov.js:480-679 | the whole loop terminates, keeps identity and well-formed paths, and never moves a vehicle back to an earlier state |
| VehMov.AdvanceFree | js/vehmov.js:672-678 | a free vehicle moves by its velocity times the whole budget and stays free |
| VehMov.AdvanceWithoutBudget | js/vehmov.js:483 | a budget of at most EPS moves nothing |
| VehMov.FollowerFinishesPath | js/vehmov.js:595-670 | a following vehicle with at least as much budget as path left ends the frame in free motion without path or blend |
| VehMov.AdvanceVehicle | js/vehmov.js:480-679 | the `while (moveBudget > EPS)` loop with its `continue` and `break` computes `Advance` of the budget speed × deltaMs |
| VehMov.Survivors | js/vehmov.js:681-685 | removal never lengthens the list |
| VehMov.SurvivorsSpec | js/vehmov.js:681-685 | a vehicle survives exactly when it was in the list and its centre lies within the canvas extended by 60 px |
| VehMov.SurvivorsKeepAll | js/vehmov.js:681-685 | when every centre lies within the margin every vehicle stays, in its order |
| VehMov.SurvivorsKeepIdOrder | js/vehmov.js:684 | removing vehicles keeps the ids strictly increasing |
| VehMov.UpdateKeepsOrder | js/vehmov.js:475-687 | after moving and removal the ids still strictly increase, stay below the counter, and every path is well formed |
| VehMov.MoveAndRemove | js/vehmov.js:478-686 | the last-to-first loop with `splice` leaves exactly the moved vehicles that stay within the margin, in their order |
| VehMov.SpawnPositionFor | js/vehmov.js:39-51 | the velocity is a unit vector along one axis, and the spawn point lies 20 px outside the canvas edge the vehicle enters from |
| VehMov.LanesSpawnApart | js/vehmov.js:41-47 | different lanes of one arm spawn at different points |
| VehMov.AllowedRoutes | js/vehmov.js:429-434 | the allowed list holds "left" or "right" exactly when the arrow names it, "straight" when the arrow names it or names no turn, in the order straight, left, right, without repeats, and is never empty |
| VehMov.ChooseRoute | js/vehmov.js:436 | the drawn route is one of the allowed routes |
| VehMov.ManeuverSegment | js/vehmov.js:316-328 | the maneuver runs from the entry to the exit point and is a line, a quadratic or a cubic |
| VehMov.FirstOtherArmExit | js/vehmov.js:307-313 | the fallback exit belongs to an arm other than the vehicle's own |
| VehMov.AssignExitAndControl | js/vehmov.js:291-366 | a turning or blending vehicle is unchanged; otherwise a path is built exactly when the entry key is stored, the route gives an exit arm and an exit point is chosen (the vehicle is otherwise unchanged but for a cleared path); a built path is the entry line from the rear axle, the manoeuvre and the line from the chosen exit off the canvas, has three joined segments from the rear axle through the entry and the exit points, is the table `buildPathFromSegments` gives, and starts with zero progress in the approaching state |
| VehMov.AxlesWithinBody | js/vehmov.js:388-415 | every vehicle's wheelbase is positive and shorter than its body |
| VehMov.SpawnedVehicle | js/vehmov.js:369-396 | the new vehicle has the given id, lane number lane + 1, no path, is neither turning nor blending, and moves at the base speed (0.10 by default) |
| VehMov.NewVehicle | js/vehmov.js:369-450 | with an entry point the route is one the lane arrow allows; without one the vehicle follows a straight line path; every path is well formed |
| VehMov.Controller.constructor | js/vehmov.js:2-20 | no vehicles and the id counter at 1 |
| VehMov.Controller.CreateVehicle | js/vehmov.js:369-450 | the vehicle takes the counter as its id, the counter grows by one and the vehicle is appended, so ids keep strictly increasing |
| VehMov.Controller.Update | js/vehmov.js:475-687 | nothing changes for deltaMs ≤ 0; otherwise the list becomes the moved vehicles that stay within the margin, in their order |
| VehMov.Controller.Clear | js/vehmov.js:691 | no vehicles and the counter back at 1 |
| VehMov.Controller.SetCanvasSize | js/vehmov.js:693 | the size changes only when both values are given and non-zero |
| VehMov.Controller.SetLaneCoordinates | js/vehmov.js:695-702 | the given maps replace the old ones and every vehicle is re-routed in place |
| Antrian.KmhToPxPerMs | js/vehicles/antrian.js:40-42 | 360 px/ms-per-km/h: the result times 360 is the speed in km/h |
| Antrian.PxPerMsFromMetresPerSecond | js/vehicles/antrian.js:40-42 | the pixel speed is the metre-per-second speed of `kmhToMs` at 10 px per metre, per millisecond |
| Antrian.VehicleLengthPx | js/vehicles/antrian.js:43-51 | the first numeric one of `lengthPx`, `length_m`·10 and `length`·10 wins, in that order |
| Antrian.LengthByType | js/vehicles/antrian.js:48-50 | without a numeric length a motorcycle is 20 px, a truck 120 px and anything else 45 px; every length is positive when the given ones are |
| Antrian.FallbackRangeKmh | js/vehicles/antrian.js:56-58 | every type's range is positive and not empty |
| Antrian.Prepare | js/vehicles/antrian.js:52-60 | a vehicle with a truthy maximum speed is unchanged; any other gets a maximum speed inside its type's range and speed 0 when it had none, and nothing else changes |
| Antrian.PreparedMaxSpeedPositive | js/vehicles/antrian.js:54-59 | after the fallback the maximum speed is positive and the speed numeric |
| Antrian.PrepareVehicles | js/vehicles/antrian.js:333-338 | the prepare loop applies the fallback to every vehicle of the array, one draw each |
| Antrian.ClampAcceleration | js/vehicles/antrian.js:390-393 | the acceleration lies in [−6b, 4a] and an acceleration already inside is kept |
| Antrian.CappedSpeed | js/vehicles/antrian.js:395-398 | the new speed is at most v0 + 0.0005, and not negative when that cap is not |
| Antrian.MaxMoveAllowed | js/vehicles/antrian.js:400-402 | the allowed move is not negative, 0 without a gap, and otherwise at least gap + leader move − safety buffer |
| Antrian.PerFrame | js/vehicles/antrian.js:403 | the speed covers exactly the distance in one frame |
| Antrian.FinalAllowedSpeed | js/vehicles/antrian.js:404-406 | exactly 0 for a gap of at most 1.5 px, otherwise in [1e-8, max(1e-8, min(capped, allowed))] |
| Antrian.IdmStep | js/vehicles/antrian.js:374-421 | the acceleration lies in [−6b, 4a], the capped speed in [0, v0 + 0.0005], the provisional speed is 0 for a gap of at most 1.5 px and otherwise in [1e-8, max(1e-8, min(capped, allowed))], and the recorded inputs are the step's |
| Antrian.IdmRespectsGap | js/vehicles/antrian.js:400-406 | in one frame at the provisional speed a vehicle moves no farther than its gap plus the leader's move less the safety buffer, unless it crawls at 1e-8 |
| Antrian.DesiredSpeed | js/vehicles/antrian.js:375 | `desiredSpeed`, else `maxSpeed`, else a positive speed not below the current one |
| Antrian.GapTo | js/vehicles/antrian.js:378-379 | without a leader the gap is 1e9 |
| Antrian.ApplyIdm | js/vehicles/antrian.js:372-423 | the vehicle's speed becomes its provisional speed, which is not negative; the `_idm` values record the current speed and the leader; nothing else changes |
| Antrian.ProvisionLaneEffect | js/vehicles/antrian.js:371-424 | after one lane's pass each of its vehicles has a numeric non-negative speed, one that had stays so, and a vehicle outside the lane is unchanged |
| Antrian.ProvisionLanesEffect | js/vehicles/antrian.js:366-426 | after the IDM pass every vehicle of every lane has a numeric non-negative provisional speed and a vehicle in no lane is unchanged |
| Antrian.ProvisionalLane | js/vehicles/antrian.js:371-424 | the in-place loop over one lane gives the lane's pass, each vehicle following the vehicle ahead as just updated |
| Antrian.ProvisionalSpeeds | js/vehicles/antrian.js:366-426 | the in-place loop over all lanes gives the IDM pass |
| AntrianGeom.EdgeAxis | js/vehicles/antrian.js:124-128 | an edge gives at most one axis, none when it is shorter than 1e-9 |
| AntrianGeom.EdgeAxes | js/vehicles/antrian.js:121-130 | a box gives at most two axes, none with fewer than two corners |
| AntrianGeom.Widen | js/vehicles/antrian.js:136-138 | the widened interval holds the new projection and the old interval, and each end is the old end or the new projection |
| AntrianGeom.ExtentOf | js/vehicles/antrian.js:134-139 | the interval is empty exactly when there are no corners |
| AntrianGeom.ExtentBounds | js/vehicles/antrian.js:134-139 | the interval holds every projection and both its ends are projections of corners |
| AntrianGeom.ProjectExtent | js/vehicles/antrian.js:134-145 | the min/max loop computes the interval of the projections |
| AntrianGeom.ObbOverlapSAT | js/vehicles/antrian.js:118-149 | false when either box or its corners are missing or when a tried edge axis of either box separates the projections, true otherwise |
| AntrianGeom.SeparationsWitness | js/vehicles/antrian.js:146 | one separating axis means no overlap |
| AntrianGeom.SeparationsNone | js/vehicles/antrian.js:133-148 | with no separating axis the boxes overlap |
| AntrianGeom.OverlapSymmetric | js/vehicles/antrian.js:118-149 | the verdict does not depend on the order of the two boxes |
| AntrianGeom.ShiftPoints | js/vehicles/antrian.js:152 | every corner moves by the offset |
| AntrianGeom.ShiftedDebugBox | js/vehicles/antrian.js:150-154 | null exactly without a box or corners; otherwise the corners and the centre move by the offset and the angle and half extents stay |
| AntrianGeom.ProjectShift | js/vehicles/antrian.js:61 | projecting a moved point adds the projection of the offset |
| AntrianGeom.ExtentOfShift | js/vehicles/antrian.js:134-152 | moving the corners moves their interval by the projection of the offset |
| AntrianGeom.EdgeAxesOfShift | js/vehicles/antrian.js:121-152 | moving a box does not change its edge axes |
| AntrianGeom.OverlapTranslationInvariant | js/vehicles/antrian.js:118-154 | moving both boxes by the same offset does not change whether they overlap |
| AntrianGeom.StepWith | js/vehicles/antrian.js:168-176 | a bisection step keeps one end of the interval |
| AntrianGeom.BisectFromBounds | js/vehicles/antrian.js:166-178 | the bisection ends on its starting lower end or on a fraction inside the interval where the boxes are apart |
| AntrianGeom.BisectFromStep | js/vehicles/antrian.js:167-178 | one step of the loop continues the recursive bisection |
| AntrianGeom.ApartAt | js/vehicles/antrian.js:169-171 | at a fraction `t` the verdict is that the moved boxes do not overlap |
| AntrianGeom.ScaleOf | js/vehicles/antrian.js:155-180 | the scale lies in [0,1]; it is 1 without both boxes or when the full moves do not overlap, 0 when the boxes overlap already, below 1 when the full moves overlap, and otherwise a fraction at which the boxes are apart |
| AntrianGeom.OverlapsAfter | js/vehicles/antrian.js:157-171 | whether the boxes overlap after the given fraction of the frame's motion |
| AntrianGeom.Bisect | js/vehicles/antrian.js:166-178 | the loop with its early `break` computes the recursive bisection |
| AntrianGeom.MaxNonOverlapScale | js/vehicles/antrian.js:155-180 | the method returns the scale `ScaleOf` describes |
| AntrianTl.FrontPoint | js/vehicles/antrian.js:270-283 | the box's own front point wins; there is no front point only without `frontX`/`frontY` and `x`/`y` |
| AntrianTl.RearPoint | js/vehicles/antrian.js:284-299 | the box's own rear point wins, and a vehicle with a box always has a rear point |
| AntrianTl.FrontRearSymmetric | js/vehicles/antrian.js:274-294 | derived from the box angle alone, front and rear lie symmetrically about the box centre |
| AntrianTl.FrontHeading | js/vehicles/antrian.js:306-316 | there is no heading exactly when the box has neither an angle nor two centre-line samples and the vehicle lacks front or rear coordinates |
| AntrianTl.RearHeading | js/vehicles/antrian.js:470-478 | the release heading exists exactly when the box has an angle or two centre-line samples, and then it is the front's heading |
| AntrianTl.SignedDistFront | js/vehicles/antrian.js:302-323 | null exactly without a front point; with a heading it is the component of front → entry along the heading |
| AntrianTl.NoHeadingNotPast | js/vehicles/antrian.js:316-319 | without a heading the distance is not negative, so only a front exactly on the entry counts as past it |
| AntrianTl.StoppingDist | js/vehicles/antrian.js:506 | the stopping distance is not negative and at least the front distance less 15 px and the safety buffer |
| AntrianTl.AllowedFromTl | js/vehicles/antrian.js:506-516 | 0 when the stopping distance is at most 1.5 px, and never more than the speed covering the stopping distance in one frame |
| AntrianTl.AllowedStopsInTime | js/vehicles/antrian.js:514-516 | at the allowed speed the front moves at most the stopping distance in one frame |
| AntrianTl.StopTarget | js/vehicles/antrian.js:554-580 | the stop target is not negative |
| AntrianTl.StopSpeedAsWritten | js/vehicles/antrian.js:561-582 | 0 when the light allows nothing, not negative, and at most a positive prior speed |
| AntrianTl.StopSpeedAsWrittenRestarts | js/vehicles/antrian.js:581 | a vehicle the IDM pass stopped (speed 0) gets the positive speed 0.9994 from the rule as written |
| AntrianTl.StopSpeed | js/vehicles/antrian.js:554-582 | with `??`: 0 when the light allows nothing, never negative, never above a numeric prior speed, never above the stop target |
| AntrianTl.StopSpeedAgrees | js/vehicles/antrian.js:561-581 | both rules agree unless the prior speed is exactly 0 |
| AntrianTl.Stop | js/vehicles/antrian.js:544-583 | an enforced stop records enforced, the allowance and the reason, sets the stop speed and changes nothing else |
| AntrianTl.ReactEffect | js/vehicles/antrian.js:518-587 | the reaction changes only the speed and the light record and never raises a non-negative speed nor makes it negative |
| AntrianTl.TlAtEffect | js/vehicles/antrian.js:456-591 | the same for the whole pass of a vehicle with an entry point |
| AntrianTl.TlStepKeepsVehicle | js/vehicles/antrian.js:441-592 | one vehicle's turn changes only its speed and its light record |
| AntrianTl.TlNeverSpeedsUp | js/vehicles/antrian.js:441-592 | the light never raises a non-negative speed and never makes it negative |
| AntrianTl.TlStepEffect | js/vehicles/antrian.js:441-592 | both facts for every vehicle, whichever guard applies |
| AntrianTl.PastOrCommittedNotEnforced | js/vehicles/antrian.js:460-496 | a vehicle whose front is at or past the entry, or which is still committed, is not enforced, keeps its speed and records `already_past_entry` or `committed_on_yellow` |
| AntrianTl.YellowCommitRule | js/vehicles/antrian.js:521-564 | on yellow within the lookahead the vehicle commits exactly when within 40 px or able to arrive 300 ms before the end with time left; a commit keeps the speed, otherwise it stops with `stop_on_yellow` |
| AntrianTl.YellowWithoutTimeLeft | js/vehicles/antrian.js:525-537 | without a time left only the 40 px rule commits |
| AntrianTl.CommitReleasedOnlyPastRear | js/vehicles/antrian.js:464-489 | a commitment is dropped only when the rear has cleared the entry along the heading |
| AntrianTl.RedStops | js/vehicles/antrian.js:565-583 | on red within the lookahead the vehicle is enforced with `red_stop` and gets a non-negative speed no higher than before, exactly 0 when the stopping distance is at most 1.5 px |
| AntrianTl.TlPass | js/vehicles/antrian.js:430 | the pass does nothing without a light or entry points, and keeps the number of vehicles |
| AntrianTl.EnforceTrafficLights | js/vehicles/antrian.js:429-597 | the in-place loop applies one vehicle's turn to every vehicle |
| AntrianPass.VerdictOf | js/vehicles/antrian.js:720-737 | a neighbour is skipped exactly when it is the vehicle itself, has no box or is too far; a scale it allows lies in [0,1] |
| AntrianPass.Verdicts | js/vehicles/antrian.js:719-744 | one verdict per vehicle |
| AntrianPass.ScanBounds | js/vehicles/antrian.js:717-744 | the scan ends between 0 and the best scale so far, and names a candidate whenever it improved on it |
| AntrianPass.ScanBelowNeighbour | js/vehicles/antrian.js:719-744 | the scan ends no higher than what any counted neighbour allows, in spite of its early `break`s |
| AntrianPass.ScanIsMinimum | js/vehicles/antrian.js:717-744 | the best scale lies in [0,1], is the minimum over the counted neighbours (0 for one overlapping already), and has a candidate exactly when it is below 1 |
| AntrianPass.IsNear | js/vehicles/antrian.js:723-729 | whether the squared centre distance is within the squared sum of both half diagonals plus 80 px |
| AntrianPass.NeighbourVerdict | js/vehicles/antrian.js:720-737 | one pass of the inner loop computes the neighbour's verdict |
| AntrianPass.BestScale | js/vehicles/antrian.js:717-744 | the inner loop with its two `break`s computes the scan's best scale and candidate |
| AntrianPass.CapSpeed | js/vehicles/antrian.js:747-754 | the capped speed is not negative, at most both scaled speeds and equal to one of them; NaN exactly when the intended speed is missing |
| AntrianPass.CapNeverSpeedsUp | js/vehicles/antrian.js:746-754 | a scale below 1 never raises a non-negative speed |
| AntrianPass.OverlapNeverSpeedsUp | js/vehicles/antrian.js:700-760 | a vehicle's turn records a scale in [0,1], keeps the speed when the scale is 1, never raises a non-negative speed nor makes it negative, and changes nothing but the speed and the overlap record |
| AntrianPass.OverlapStep | js/vehicles/antrian.js:701-759 | one turn of the outer loop, computed |
| AntrianPass.OverlapUpTo | js/vehicles/antrian.js:699-760 | the pass keeps the number of vehicles |
| AntrianPass.OverlapPassNeverSpeedsUp | js/vehicles/antrian.js:699-760 | after the whole pass no non-negative speed has grown and none has become negative, even though each turn sees the speeds earlier turns set |
| AntrianPass.OverlapPass | js/vehicles/antrian.js:699-760 | the in-place loop carries out the pass |
| AntrianPass.AntrianFrame | js/vehicles/antrian.js:326-761 | the frame keeps the number of vehicles |
| AntrianPass.UpdateAntrian | js/vehicles/antrian.js:326-761 | nothing without vehicles or for a non-positive frame; otherwise the prepare, IDM, traffic-light and overlap passes in turn |
| AntrianPass.Bump | js/vehicles/antrian.js:769 | incrementing adds the direction as a key and leaves every other count alone |
| AntrianPass.CountsPerArm | js/vehicles/antrian.js:764-772 | each arm's count is the number of its vehicles with a numeric speed below the threshold, and any other key holds NaN |
| AntrianPass.CountedDirections | js/vehicles/antrian.js:764-772 | a key is present exactly when it is an arm or some vehicle of that direction is stopped |
| AntrianPass.CountStoppedVehicles | js/vehicles/antrian.js:764-772 | the loop computes the counts |
| SpeedLogger.NormalizeDirection | js/SpeedLogger.js:53-61 | "-" for an empty value; otherwise the arm label whose letter the value starts with, case-insensitively, and "-" exactly when the first letter is none of u, t, s, b |
| SpeedLogger.ArmOfLabel | js/SpeedLogger.js:80-85 | a found arm has exactly that label; nothing is found only for a string that is no arm's label |
| SpeedLogger.NormalizeArmNames | js/SpeedLogger.js:53-61 | both the controller's lower-case arm name and the capitalised label normalise to the label |
| SpeedLogger.MapExitDirForManeuver | js/SpeedLogger.js:73-89 | the destination label exactly when both sides are present, both normalise to arms and the arms differ; "-" in every other case |
| SpeedLogger.DetermineManeuver | js/SpeedLogger.js:117-145 | null for a missing side; any maneuver found is "straight", "right" or "left" |
| SpeedLogger.TurnBetween | js/SpeedLogger.js:120-144 | the comparison chain only ever yields "straight", "right" or "left" or null |
| SpeedLogger.TurnBetweenArms | js/SpeedLogger.js:123-142 | for every arm and turn, the chain names the turn that the controller's rotation table applies to reach that exit arm (rotation table at js/vehmov.js:205-207) |
| SpeedLogger.ManeuverOfArms | js/SpeedLogger.js:117-121 | lower-casing makes the arm names and the capitalised labels give the same maneuver |
| SpeedLogger.ManeuverMatchesRotation | js/SpeedLogger.js:117-145 | the logger's maneuver read back from a vehicle's origin and exit is the turn the controller chose, for all twelve origin-turn pairs (`exitDirectionFor` at js/vehmov.js:202-209) |
| SpeedLogger.NoManeuverToSameArm | js/SpeedLogger.js:117-145 | no maneuver leads from a direction back to itself |
| SpeedLogger.DirLabelEnds | js/SpeedLogger.js:12-17 | the first letter of a pair's label names its origin and the last letter its destination |
| SpeedLogger.DirectionPairOf | js/SpeedLogger.js:12-17 | every one of the twelve tables is the label of two different arms |
| SpeedLogger.LabelsDetermineArms | js/SpeedLogger.js:12-17 | equal pair labels have equal origins and equal destinations |
| SpeedLogger.PairIndex | js/SpeedLogger.js:12-17 | the position of a table's arms is that table |
| SpeedLogger.DirectionsDistinct | js/SpeedLogger.js:12-17 | the twelve table labels are pairwise distinct |
| SpeedLogger.DirectionIndex | js/SpeedLogger.js:12-17 | every pair of different arms has a table carrying its label |
| SpeedLogger.DirectionsCoverPairs | js/SpeedLogger.js:12-17 | a pair's label is among the twelve exactly when its arms differ |
| SpeedLogger.BuildMetaFromVehicle | js/SpeedLogger.js:95-112 | the meta id is the vehicle's key, and a trip with a maneuver is filed under one of the twelve tables |
| SpeedLogger.MetaDirection | js/SpeedLogger.js:103-109 | whenever origin and mapped exit give a maneuver, "origin → exit" is one of the twelve tables |
| SpeedLogger.MetaDirectionArms | js/SpeedLogger.js:108-109 | between two arm labels a maneuver exists only for a pair that has its table |
| SpeedLogger.NoManeuverFromDash | js/SpeedLogger.js:117-145 | "-" on either side never gives a maneuver |
| SpeedLogger.KeepRecent | js/SpeedLogger.js:45-46 | the buffer ends with the new sample, holds min(n + 1, 30) samples, is a suffix of the old buffer plus the sample, and is the plain append below 30 |
| SpeedLogger.KeepRecentSlides | js/SpeedLogger.js:45-46 | a full buffer drops exactly its oldest sample for each new one |
| SpeedLogger.SampleRow | js/SpeedLogger.js:163-169 | a fresh row carries no step and no frame speed yet |
| SpeedLogger.SampleRows | js/SpeedLogger.js:160-170 | one row per sample, in order, each the row of its sample |
| SpeedLogger.FrameStep | js/SpeedLogger.js:174-179 | position and time are kept, and a frame speed is filled in exactly when both rows have an x coordinate |
| SpeedLogger.DistanceNonNegative | js/SpeedLogger.js:172-181 | the summed trip distance is never negative |
| SpeedLogger.DistanceWithoutPositions | js/SpeedLogger.js:172-181 | rows with no x coordinate add nothing to the distance |
| SpeedLogger.FillSteps | js/SpeedLogger.js:172-181 | the loop leaves every row after the first with its step from the previous row, and its total is the summed trip distance |
| SpeedLogger.PadRows | js/SpeedLogger.js:183-185 | the rows are kept as a prefix and padded with empty rows to at least 10 |
| SpeedLogger.TripSpeed | js/SpeedLogger.js:187-192 | a speed exists exactly when both end timestamps are non-zero and the last comes after the first, and it times the duration to the distance |
| SpeedLogger.ToKmh | js/SpeedLogger.js:195 | null exactly for a null speed; otherwise the speed in m/s times 3.6 |
| SpeedLogger.Logger.constructor | js/SpeedLogger.js:9-10 | no open logs and no finished trips |
| SpeedLogger.Logger.LogFrame | js/SpeedLogger.js:37-47 | an empty key changes nothing; otherwise the vehicle's log (opened with its meta data when missing) gets the sample appended and cut to the last 30; finished trips are untouched |
| SpeedLogger.Logger.FinalizeVehicle | js/SpeedLogger.js:151-211 | the vehicle's log is closed; a log with samples appends exactly one finished trip carrying the meta data, the stepped rows padded to 10, the distance-based speed in m/s and km/h and the free-flow speed; otherwise nothing is filed |
| SpeedRekap.Add | js/SpeedLogger.js:380-385 | one more trip: the count grows by one and the speed sum by the trip's speed; the km/h sum and the free-flow sum and count grow only when those values are known |
| SpeedRekap.ClassOf | js/SpeedLogger.js:373-393 | a lower-cased type starting with "motor" or equal to "mc" is a motorcycle; otherwise one starting with "truk" or equal to "hv" is a truck; everything else is a car |
| SpeedRekap.ClassOfVehicleTypes | js/SpeedLogger.js:387-393 | the vehicle model's types "motor", "mobil" and "truk" land in their own classes |
| SpeedRekap.ClassOfCodes | js/SpeedLogger.js:373-393 | the upper-case codes MC, HV and LV land in the motorcycle, truck and car classes |
| SpeedRekap.InitialTables | js/SpeedLogger.js:354-366 | exactly one table per label of the twelve, each with empty statistics |
| SpeedRekap.Accumulated | js/SpeedLogger.js:369-397 | accumulating never adds or removes a table |
| SpeedRekap.AccumulateFinished | js/SpeedLogger.js:369-397 | the loop over the finished trips leaves exactly the tables `Accumulated` describes |
| SpeedRekap.AddTripBalanced | js/SpeedLogger.js:387-396 | a trip goes to one class and to the aggregate, so the aggregate stays the sum of the classes and counts one more trip |
| SpeedRekap.AccumulatedBalanced | js/SpeedLogger.js:369-397 | every table stays balanced, and its aggregate counts exactly the trips with a measured speed filed under it |
| SpeedRekap.UnmeasuredTripIgnored | js/SpeedLogger.js:378 | a trip without a measured speed changes no table |
| SpeedRekap.Avg | js/SpeedLogger.js:471-473 | null exactly when the count is 0; otherwise the mean, which times the count gives the sum |
| SpeedRekap.AveragesOf | js/SpeedLogger.js:469-474 | the speed averages exist exactly for a class with trips, the free-flow average exactly for one with free-flow values |
| SpeedRekap.CustomAvg | js/SpeedLogger.js:477-486 | null exactly when no class average is present; otherwise the mean of the present ones |
| SpeedRekap.CustomAvgBetween | js/SpeedLogger.js:477-481 | the mean of the class averages lies between any bounds of all of them |
| SpeedRekap.DirNameToKey | js/SpeedLogger.js:401-409 | a found key is the lower-case name of an arm |
| SpeedRekap.DirNameToKeyOfLabel | js/SpeedLogger.js:401-409 | each arm's label maps to that arm's lane-coordinate key |
| SpeedRekap.PointsOf | js/SpeedLogger.js:426-434 | the points gathered for a key are no more than the table's entries, and a point is gathered exactly when some entry whose key starts with `key + "_"` holds it |
| SpeedRekap.PointsOfAppend | js/SpeedLogger.js:426-434 | the points are gathered in the table's order: for two parts of the table they are the first part's points followed by the second's |
| SpeedRekap.PairDistances | js/SpeedLogger.js:439-455 | the nested loop's sum and count are the positive entry-exit distances summed and counted over the whole grid |
| SpeedRekap.RowSumPositive | js/SpeedLogger.js:442-454 | an exit row's sum is never negative, and positive once it counts a distance |
| SpeedRekap.GridSumPositive | js/SpeedLogger.js:441-455 | the grid's sum is never negative, and positive once it counts a distance |
| SpeedRekap.AvgDistanceMeters | js/SpeedLogger.js:412-462 | the mean distance `AvgDistanceOf` gives, and a found mean is positive |
| SpeedRekap.AvgDistanceOf | js/SpeedLogger.js:416-420 | a distance exists only with lane coordinates and two names that map to arms |
| SpeedRekap.DelaySeconds | js/SpeedLogger.js:512-525 | a delay exists exactly when observed speed, free-flow speed and a positive distance are known and both speeds are positive |
| SpeedRekap.DelayAtLeastZero | js/SpeedLogger.js:515-524 | travelling no faster than free flow gives a delay of at least zero, and exactly free flow gives zero |
| SpeedRekap.NegativeDelayMeansFaster | js/SpeedLogger.js:515-524 | a negative delay means the observed speed is above free flow |
| SpeedRekap.FreeFlowOf | js/SpeedLogger.js:506-510 | null exactly when no free-flow average is present; the aggregate's wins when present |
| SpeedRekap.RecordOf | js/SpeedLogger.js:465-526 | the record keeps the statistics and the distance; its observed average exists exactly when some class has trips, and the km/h value is that average times 3.6 |
| SpeedRekap.RecordHasObservedSpeed | js/SpeedLogger.js:476-486 | a balanced table with a measured trip always has an observed average |
| SpeedRekap.FileRecord | js/SpeedLogger.js:465-527 | one turn of the rekap loop files table k's record and keeps every record filed before it |
| SpeedRekap.RecordsByPair | js/SpeedLogger.js:488-498 | the records filed by table position are the records of the arm pairs whose labels split on the arrow |
| SpeedRekap.ComputeRekapAllDirections | js/SpeedLogger.js:341-530 | exactly one record per label of the twelve; the record of each origin-destination pair carries its accumulated statistics and the mean distance between those two arms |

## Left out

- Canvas drawing, DOM, HTML, CSV and XLSX output: the render and export functions of js/SpeedLogger.js, the debug drawing of js/vehmov.js (705-772), `draw`, `updatePosition` and `start` of the lamps and the cycle clock. They carry no stated behaviour beyond pixels and files.
- Timers and clocks (`setTimeout`, `requestAnimationFrame`, `performance.now`, `Date.now`) become explicit step calls and time arguments.
- `spawnRandomVehicle`, `scheduleNextSpawn`, `getExponentialInterval`, `nowMs`, `getVehicles` and `setTrafficConfig` of js/vehmov.js are timer and accessor glue. They are not modelled; the controller's spawning is modelled through `createVehicle`.
- `Math.random` becomes explicit draws. Nothing is claimed about their distribution.
- Floating point: Dafny `real` is exact. NaN and non-numeric values become `None`. Infinity is not modelled, and neither are rounding effects in `toFixed`, `roundNum` or the Bézier length sampling.
- `Math.sqrt`, `hypot`, `atan2`, `cos`, `sin`, `pow` and `log` are the uninterpreted `MathLib` oracle. Properties that depend on their exact values (the axle distance along curves, for instance) are not stated.
- The sampling and refinement inside `findClosestDistanceOnPathToPoint` is the `closest` argument. The model only requires its answer to lie on the path.
- `computeLongitudinalGapUsingSamples` and the renderer's debug boxes are inputs: the `gapOf` argument and the vehicles' box corners.
- The laser ray-casting block of js/vehicles/antrian.js (599-696) is not modelled. It only ever lowers a speed, floating-point ray intersection aside.
- The grouping of vehicles into lanes and the in-place sort of each lane (js/vehicles/antrian.js:341-358) are not modelled. The lanes are given as ordered lists of vehicle positions.
- The building of centre-line and perimeter samples (js/vehicles/antrian.js:64-117) is not modelled; they only feed the gap and the boxes above.
- try/catch blocks that swallow errors (js/vehicles/antrian.js:594-597, `setLaneCoordinates`, `computeAvgDistanceMeters`): only the path without an exception is modelled.
- `getYellowTimeLeftMs` of the lamp is the `timeLeft` map argument of the enforcement block.
- The diagnostic `_idm` and `trafficLight` fields (`reason`, `allowedByDecel`, `rampFactor` and so on) are not kept. The only ones modelled are those later code reads: `passedEntry`, `committedOnYellow` and the provisional speed.
- Vehicle objects that are shared between the controller, the limiter and the logger are separate values here. Aliasing between those modules is not modelled.
- A lane index is a `nat`; keys built from a negative or fractional index are not modelled.
- `Summary.HitungArusJenuh` requires a truck share above -100 %. At -100 % the source divides by zero; below it a negative flow would result. The row builder passes the share through `Summary.OrNonNegative`, which reads a share at or below -100 % (possible only with negative counts) as 0, so the model's saturation flow for such a row differs from the source's.
- `Antrian.IdmStep` and the members of the IDM pass require `RootPositive`: the oracle's square root of the constant `max(1e-12, a·b)` is not zero, so the desired gap's division is defined. They also require a positive frame time, which `updateAntrian` checks on entry (js/vehicles/antrian.js:328).
- `SpeedLogger.Logger.LogFrame`: the `pxPerMeter` argument is unused in the source and is not modelled.
- `SpeedRekap.PointsOf`: the order of `Object.keys` is modelled as the order of the given entries, and "has numeric x and y" as a present point.
- `AntrianTl.Stop`: models the evidently intended rule `v.speed ?? newSpeed` in place of `v.speed || newSpeed` at js/vehicles/antrian.js:561 and 581. For every prior speed other than exactly 0 the two agree (`AntrianTl.StopSpeedAgrees`); the code as written can raise a prior speed of 0 (`AntrianTl.StopSpeedAsWrittenRestarts`).
- `AntrianTl.React`, `AntrianTl.TlAt` and `AntrianTl.TlStep`: apply the corrected stop rule of `AntrianTl.Stop`.
- `AntrianTl.ReactEffect`: "never raises a non-negative speed" is proved for the corrected stop rule, as for `AntrianTl.Stop`; for the code as written it holds only for a positive prior speed (`AntrianTl.StopSpeedAsWritten`).
- `AntrianTl.TlAtEffect`: the same: proved with the corrected stop rule.
- `AntrianTl.TlNeverSpeedsUp`: the same: proved with the corrected stop rule; as written, a vehicle the IDM pass stopped can be given a positive speed by the light.
- `AntrianTl.TlStepEffect`: the same: proved with the corrected stop rule.
- `AntrianTl.RedStops`: the bound "no higher than before" is proved with the corrected stop rule; as written it holds only for a positive prior speed.
- `AntrianTl.EnforceTrafficLights`: applies the corrected stop rule of `AntrianTl.Stop` to every vehicle.
- `AntrianPass.AntrianFrame`: uses the traffic-light pass with the corrected stop rule of `AntrianTl.Stop`.
- `AntrianPass.UpdateAntrian`: the same: the traffic-light pass it runs uses the corrected stop rule.
- `Vehicles.SpawnVehiclesFromPoisson`: `laneAssignment` may be a function `laneAssignment(i, t)` in the source (js/vehicle.js:159); only the array form is modelled, as the `lanes` argument.
- `VehMov.Controller.CreateVehicle`: the default `type = 'mobil'` (js/vehmov.js:369) is not modelled; every caller passes the type.
- `Text.ToNumber`: surrounding white space, which `Number` ignores, is not stripped, and a fractional string is read as no lane number; keys and preferences are built from integers.

## Findings

| source | as written | input that shows it | evidently intended | confidence | as-written member | corrected member |
|---|---|---|---|---|---|---|
| js/vehicles/antrian.js:561, js/vehicles/antrian.js:581 | `v.speed = Math.min(v.speed \|\| newSpeed, newSpeed)`: a prior speed of 0 is falsy, so it does not bound the result | red light, `v.speed` 0 after the IDM pass, `_idm.v` 1 px/ms, allowed speed 1, frame 1 ms: the vehicle gets 0.9994 px/ms | `v.speed ?? newSpeed`: the light only ever lowers the speed | not executed | AntrianTl.StopSpeedAsWritten | AntrianTl.StopSpeed |
