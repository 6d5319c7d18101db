# jsorrery orbital elements, in Dafny

This project models the orbit-propagation mixin of jsorrery
(`js/jsorrery/algorithm/OrbitalElements.js`). The mixin turns a body's Keplerian
elements into a position and a velocity at a time `t`, in seconds since J2000,
relative to the body it orbits.

The model covers the bookkeeping and control flow under the trigonometry:

- how the element record is assembled (secular drift, literal copy, calculator,
  derived `w` and `M`, kilometres to metres);
- how angles are normalised with JavaScript's `%`;
- the shape of the Kepler do-while loop;
- the null and zero-vector guards and the tilt gate;
- the clamp and reflection on the vis-viva path, and the 60-second finite difference;
- which branch `calculatePeriod` takes.

Numbers are Dafny `real`s. `sin`, `cos`, `sqrt`, `acos`, `atan2`, `pow` and the
THREE.js calls `length`, `setLength` and `makeRotationX`/`applyMatrix4` are
function-valued fields of a `Runtime` value passed in. Nothing is assumed about
them except that a cosine lies in [-1, 1].

Files, one module each:

- `options.dfy`: `Option`. `None` stands for JavaScript's `null`, and for NaN in a result.
- `numerics.dfy`: the namespace constants, `Vec3`, `Sub`, `Scale`, and `Runtime`.
- `angles.dfy`: the `Deg` helpers, JavaScript `% 360` (`Mod360`) and the
  normalisation of lines 150-159.
- `elements.dfy`: the element propagator. It contains the `for…in` loop over `base`
  (`PropagateBase`), proved against `Propagated`.
- `kepler.dfy`: the do-while loop (`SolveEccentricAnomaly`). It is proved against
  the specification functions `Seed`, `Correction`, `Iterate`, `Stops` and `PassesFrom`.
- `orbit.dfy`: `calculateElements`, `getPositionFromElements`, `calculatePosition`,
  `calculateVelocity` and `calculatePeriod`. Each method that runs source code is
  proved against a specification function: `ElementsAt`, `PositionAt`, `VelocityAt`.

Where the code departs from the conventions one might expect of it, the model follows the code:

- Angles are often normalised into [0, 360). Here `%` truncates toward zero, so
  normalised angles keep their sign and lie in (-360, 360) degrees.
- `calculateElements` dereferences the reference body without checking it exists,
  so a missing one is an error rather than a skipped tilt. The model therefore
  requires a named reference body to be in the registry.
- `calculatePeriod` reports no failure when neither branch applies: it yields NaN.
  The model returns `None` for that case.

## Model

| member | source | states |
|---|---|---|
| `Angles.DegSin` | js/jsorrery/algorithm/OrbitalElements.js:13-16 | defines `Deg.sin`: the library sine of the angle in degrees times DEG_TO_RAD |
| `Angles.DegCos` | js/jsorrery/algorithm/OrbitalElements.js:17-19 | defines `Deg.cos`: the library cosine of the angle in degrees times DEG_TO_RAD |
| `Angles.Mod360` | js/jsorrery/algorithm/OrbitalElements.js:150-154 | `x % 360` lies in (-360, 360), has the sign of `x` (or is 0), differs from `x` by a whole number of turns, and leaves values already in (-360, 360) unchanged |
| `Angles.Mod360Idempotent` | js/jsorrery/algorithm/OrbitalElements.js:150-154 | normalising an already normalised angle changes nothing |
| `Angles.Mod360KeepsSign` | js/jsorrery/algorithm/OrbitalElements.js:150-154 | -90 stays -90 (not 270), -450 becomes -90, 720 becomes 0 |
| `Angles.ToRadians` | js/jsorrery/algorithm/OrbitalElements.js:155-159 | degrees to radians keeps the sign, inverts RAD_TO_DEG, and maps (-360, 360) into (-2π, 2π) |
| `Angles.NormalizeAngles` | js/jsorrery/algorithm/OrbitalElements.js:150-159 | each of E, i, o, w, M becomes `DEG_TO_RAD · (x % 360)` (one reduction, one scaling), lies in (-2π, 2π) and keeps its sign; all other fields are unchanged |
| `Elements.Centuries` | js/jsorrery/algorithm/OrbitalElements.js:100-101 | defines T, the time in Julian centuries: seconds / DAY / CENTURY |
| `Elements.Rate` | js/jsorrery/algorithm/OrbitalElements.js:117-118 | the rate is `cy[el]` when a `cy` table exists, else `day[el]·CENTURY`; a missing entry gives 0 |
| `Elements.Drifted` | js/jsorrery/algorithm/OrbitalElements.js:119 | defines one element's value after T centuries: `base[el] + rate·T`; its properties are stated by the lemmas below |
| `Elements.Propagated` | js/jsorrery/algorithm/OrbitalElements.js:103-120 | defines the record of the `base` path, `{t}` overlaid by every drifted base element; `PropagateBase` is proved equal to it |
| `Elements.PropagateBase` | js/jsorrery/algorithm/OrbitalElements.js:100-120 | the `for…in` loop over `base` builds `{t} + {el: base[el] + rate·T}` with `T = t/DAY/CENTURY`, whatever order the keys come in |
| `Elements.PropagatedAtEpoch` | js/jsorrery/algorithm/OrbitalElements.js:112-120 | at t = 0 every propagated element equals its `base` value |
| `Elements.ZeroRatesKeepBase` | js/jsorrery/algorithm/OrbitalElements.js:112-120 | with all-zero or absent rates every base value is unchanged at any time |
| `Elements.DayRateIsPerDay` | js/jsorrery/algorithm/OrbitalElements.js:100-119 | a per-day rate drifts the element by `day[el]` per day since J2000 |
| `Elements.DriftIsLinear` | js/jsorrery/algorithm/OrbitalElements.js:112-120 | the drift over `s + t` is the drift over `s` plus the drift over `t` |
| `Elements.DeriveAngles` | js/jsorrery/algorithm/OrbitalElements.js:125-131 | a missing `w` is set so that `w + o = lp`, and a missing `M` so that `M + lp = l`; supplied values are never overwritten; no other key is added |
| `Elements.DeriveMissing` | js/jsorrery/algorithm/OrbitalElements.js:125-131 | filling in `w`, then `M`, where missing yields exactly `DeriveAngles` |
| `Elements.DeriveAnglesIdempotent` | js/jsorrery/algorithm/OrbitalElements.js:125-131 | deriving a second time changes nothing |
| `Elements.Raw` | js/jsorrery/algorithm/OrbitalElements.js:112-123 | before derivation the record has the keys of `base` plus `t`, or exactly the literal set's keys (no `t`) |
| `Elements.Assemble` | js/jsorrery/algorithm/OrbitalElements.js:112-133 | the assembled record has `a` in metres (1000 × the km value) and every other propagated or copied value unchanged, plus `w` and `M` |
| `Elements.AssembleSet` | js/jsorrery/algorithm/OrbitalElements.js:112-133 | propagating (or copying), deriving and scaling step by step yields `Assemble` |
| `Elements.LiteralSetIgnoresTime` | js/jsorrery/algorithm/OrbitalElements.js:121-123 | without `base` the set is copied verbatim: the result does not depend on `t` and carries no `t` of its own |
| `Kepler.Seed` | js/jsorrery/algorithm/OrbitalElements.js:136-137 | for a circular orbit the seed is M itself |
| `Kepler.Correction` | js/jsorrery/algorithm/OrbitalElements.js:145-146 | for a circular orbit one correction lands exactly on M |
| `Kepler.DenominatorPositive` | js/jsorrery/algorithm/OrbitalElements.js:146 | for a bound orbit the Newton denominator `1 − e·cos E` is positive, so the division is defined |
| `Kepler.Iterate` | js/jsorrery/algorithm/OrbitalElements.js:144-146 | defines the estimate after j passes' corrections have been added to the seed |
| `Kepler.Stops` | js/jsorrery/algorithm/OrbitalElements.js:148 | defines the loop's exit test after pass j: the correction is within 1e-15 or the counter exceeds 10 |
| `Kepler.PassesFrom` | js/jsorrery/algorithm/OrbitalElements.js:143-148 | the pass the loop stops at is the first pass whose correction is within 1e-15 or whose counter exceeds 10, and it is at most 11 |
| `Kepler.PassesUnique` | js/jsorrery/algorithm/OrbitalElements.js:143-148 | a loop that stops at pass k and at no earlier pass makes exactly k passes |
| `Kepler.Passes` | js/jsorrery/algorithm/OrbitalElements.js:143-148 | defines the number of passes: the first stopping pass from pass 1 |
| `Kepler.EccentricAnomaly` | js/jsorrery/algorithm/OrbitalElements.js:143-148 | defines the estimate the loop leaves in `En`: the seed plus one correction fewer than the passes made |
| `Kepler.SolveEccentricAnomaly` | js/jsorrery/algorithm/OrbitalElements.js:136-148 | the body runs 1 to 11 times and stops as soon as `|dE| ≤ 1e-15`; after k passes exactly k − 1 corrections have been added to the seed; the last `dE` is returned but never added |
| `Kepler.CircularOrbitOnePass` | js/jsorrery/algorithm/OrbitalElements.js:136-148 | with e = 0 the loop makes one pass and E equals M |
| `Kepler.ConvergedSeedKept` | js/jsorrery/algorithm/OrbitalElements.js:137-148 | a seed whose first correction is within tolerance is returned unchanged after one pass |
| `Orbit.ElementSetInUse` | js/jsorrery/algorithm/OrbitalElements.js:75 | forced elements, when given, take precedence over the body's own |
| `Orbit.UsesCalculator` | js/jsorrery/algorithm/OrbitalElements.js:107 | the calculator is used only when the body has one and no elements are forced |
| `Orbit.AssembledElements` | js/jsorrery/algorithm/OrbitalElements.js:72-134 | the record is null exactly when there are neither forced nor own elements |
| `Orbit.KeplerStage` | js/jsorrery/algorithm/OrbitalElements.js:136-159 | E is set to the loop's eccentric anomaly reduced mod 360 and converted to radians; i, o, w, M are normalised the same way; other fields are untouched |
| `Orbit.InPlanePosition` | js/jsorrery/algorithm/OrbitalElements.js:162 | the in-plane position has z = 0, and it is the origin when a = 0 |
| `Orbit.NamesReference` | js/jsorrery/algorithm/OrbitalElements.js:166 | a reference body is named (an empty name is falsy) |
| `Orbit.TiltApplies` | js/jsorrery/algorithm/OrbitalElements.js:168 | the named reference body has a truthy (non-zero) tilt |
| `Orbit.WithTilt` | js/jsorrery/algorithm/OrbitalElements.js:166-171 | `tilt` becomes `−tilt·DEG_TO_RAD` only when `relativeTo` is given and that body's tilt is non-zero; otherwise the record is unchanged |
| `Orbit.SnapshotFrom` | js/jsorrery/algorithm/OrbitalElements.js:136-172 | the snapshot has E, i, o, w, M, a and e, and both r and v set |
| `Orbit.ElementsAt` | js/jsorrery/algorithm/OrbitalElements.js:72-173 | `calculateElements` returns null exactly when neither forced nor own elements exist; otherwise a snapshot with r and v set |
| `Orbit.AssembleRecord` | js/jsorrery/algorithm/OrbitalElements.js:100-134 | the field-by-field assembly (calculator merge, or propagation/copy with derivation and km→m) yields `AssembledElements` |
| `Orbit.FinishSnapshot` | js/jsorrery/algorithm/OrbitalElements.js:136-172 | running the Kepler loop, normalising, placing in the plane and tilting yields `SnapshotFrom` |
| `Orbit.CalculateElements` | js/jsorrery/algorithm/OrbitalElements.js:72-173 | null exactly without forced or own elements; otherwise the snapshot `ElementsAt` describes |
| `Orbit.ForcedElementsTakePrecedence` | js/jsorrery/algorithm/OrbitalElements.js:73-110 | with forced elements the result is that of a body whose own elements are the forced ones and that has no calculator |
| `Orbit.CalculatorValuesKept` | js/jsorrery/algorithm/OrbitalElements.js:107-109 | on the calculator path every returned value is kept as returned: no km→m scaling, no derived `w` or `M`; only `t` is added |
| `Orbit.LiteralOrbitIgnoresTime` | js/jsorrery/algorithm/OrbitalElements.js:121-123 | with a literal set and no calculator the whole snapshot is the same at every time |
| `Orbit.FillPolar` | js/jsorrery/algorithm/OrbitalElements.js:178-179 | r and v are taken from the record unless null; a null r is `pos.length()`, a null v is `atan2(pos.y, pos.x)` |
| `Orbit.FrameRotation` | js/jsorrery/algorithm/OrbitalElements.js:181-187 | a point at distance 0 rotates to the origin |
| `Orbit.Tilted` | js/jsorrery/algorithm/OrbitalElements.js:189 | the record carries a truthy (present and non-zero) tilt |
| `Orbit.GetPositionFromElements` | js/jsorrery/algorithm/OrbitalElements.js:175-193 | a null record gives the zero vector |
| `Orbit.RecordedPolarIgnoresPos` | js/jsorrery/algorithm/OrbitalElements.js:178-179 | when r and v are recorded, `pos` plays no part in the result |
| `Orbit.NullPolarFromPos` | js/jsorrery/algorithm/OrbitalElements.js:178-179 | null r and v give the same result as recording `pos`'s length and plane angle |
| `Orbit.TiltOnlyWhenNonZero` | js/jsorrery/algorithm/OrbitalElements.js:189-191 | a zero or missing tilt gives the untilted position; a non-zero tilt rotates the untilted position about X by that tilt |
| `Orbit.PositionAt` | js/jsorrery/algorithm/OrbitalElements.js:65-70 | a body without elements is at the origin |
| `Orbit.CalculatePosition` | js/jsorrery/algorithm/OrbitalElements.js:65-70 | the zero vector without elements; otherwise the position of the snapshot at `t` |
| `Orbit.FiniteDifference` | js/jsorrery/algorithm/OrbitalElements.js:38-40 | 60 s times the velocity equals the displacement `pos(t+60) − pos(t)` |
| `Orbit.TangentCosine` | js/jsorrery/algorithm/OrbitalElements.js:47-50 | the acos argument is at most 1; it is the geometric value when that is ≤ 1 and exactly 1 when it overshoots |
| `Orbit.CircularTangentCosine` | js/jsorrery/algorithm/OrbitalElements.js:47-50 | on a circular orbit (e = 0, r = a) the argument is exactly 1 |
| `Orbit.TangentAngle` | js/jsorrery/algorithm/OrbitalElements.js:51-52 | `alpha = π − acos(o)` when v ≥ 0, and `π + acos(o)` (that is, `2π − alpha`) exactly when v < 0 |
| `Orbit.TangentAngleReflects` | js/jsorrery/algorithm/OrbitalElements.js:51-52 | the inbound and outbound flight angles add up to 2π |
| `Orbit.VelocityAngle` | js/jsorrery/algorithm/OrbitalElements.js:53 | defines the velocity direction as the true anomaly plus half the flight angle |
| `Orbit.CircularVelocityPerpendicular` | js/jsorrery/algorithm/OrbitalElements.js:47-53 | on a circular orbit, given acos(1) = 0, the velocity direction is a quarter turn ahead of the true anomaly, for every v, on the inbound half (v < 0, where line 52 reflects alpha) as well as the outbound |
| `Orbit.VisVivaSpeed` | js/jsorrery/algorithm/OrbitalElements.js:44 | at r = a the vis-viva speed is `sqrt(G·mass/a)` |
| `Orbit.VelocityRecord` | js/jsorrery/algorithm/OrbitalElements.js:43-56 | the velocity record keeps every element field, has r and v null, and its `pos` is the unit vector at the velocity angle set to the vis-viva length |
| `Orbit.VelocityAt` | js/jsorrery/algorithm/OrbitalElements.js:32-63 | a body without elements has zero velocity |
| `Orbit.CalculateVelocity` | js/jsorrery/algorithm/OrbitalElements.js:32-63 | zero without elements; on the finite-difference path 60 × velocity equals `pos(t+60) − pos(t)`; otherwise the vis-viva velocity rotated into the frame |
| `Orbit.DailyMeanMotion` | js/jsorrery/algorithm/OrbitalElements.js:197 | the body's own `day.M`, 0 when it is absent (both falsy) |
| `Orbit.KeplerBranch` | js/jsorrery/algorithm/OrbitalElements.js:199 | the reference body exists with a truthy `k` and elements with `a` are given |
| `Orbit.KeplerPeriodDays` | js/jsorrery/algorithm/OrbitalElements.js:200 | defines line 200's period in days, `2π·sqrt((a/(AU·1000))³) / k`; what it means is stated by `CalculatePeriod`'s k-branch clause and `PeriodSquaredIsAxisCubed` |
| `Orbit.CalculatePeriod` | js/jsorrery/algorithm/OrbitalElements.js:195-204 | a truthy own `day.M` wins whatever `k` is: period × `day.M` = 360 days, in seconds; otherwise, when the reference body has `k` and `a` is given, period × k = 2π·sqrt((a/(AU·1000))³) days; NaN (None) exactly when neither applies |
| `Orbit.PeriodSquaredIsAxisCubed` | js/jsorrery/algorithm/OrbitalElements.js:199-202 | Kepler's third law on the k branch: where `pow` cubes and `sqrt` squares back exactly, (period·k)² = (2π·DAY)²·(a/(AU·1000))³, so the period's square grows as the cube of the semi-major axis |
| `Orbit.PeriodTurnsMeanAnomalyOnce` | js/jsorrery/algorithm/OrbitalElements.js:195-198 | over one period, day-rate propagation advances M by exactly 360 degrees |

## Left out

- `setDefaultOrbit` and `setName` are not modelled; they are plain field setters. A body is a `Body` value holding its element set and its calculator.
- The numerical accuracy of the Kepler solution, the quality of the seed, the vis-viva speed and the geometry of the orbital-plane rotation are not modelled. These are floating-point trigonometry over opaque library functions. Arithmetic is exact `real` arithmetic without rounding.
- THREE.js `length`, `setLength` and the X rotation (`makeRotationX` with `applyMatrix4`) are opaque `Runtime` functions. `sub` and `multiplyScalar` are modelled as `Sub` and `Scale`.
- jQuery `$.extend` is modelled as map merge on the calculator path and as a copy of the set's numeric fields on the literal path. Non-numeric fields that the literal copy also carries (`relativeTo`, the rate tables) are not part of the numeric record.
- `ns.U.getBody` is a `Registry` map. A reference body's tilt or `k` of 0 stands for an absent one, since both are falsy.
- `NameSpace.js` is not part of this model. DAY (86400 s), CENTURY (36525 days), KM (1000) and Math.PI are constants, and DEG_TO_RAD and RAD_TO_DEG are taken as PI/180 and 180/PI exactly, so that their product is 1 (`ToRadians` relies on that). G and AU are configuration values in `Runtime`.
- NaN, `undefined` and TypeError paths are preconditions, not modelled values. They are missing elements (`Propagatable`, `KeplerReady`), a missing `day` table when `cy` is absent and `base` is non-empty (`RatesAvailable`), a named reference body missing from the registry, a division by zero on the vis-viva path (`VisVivaReady`), and AU = 0 in `calculatePeriod`.
- Kepler.SolveEccentricAnomaly: requires |e| < 1 and a cosine in [-1, 1] (`Solvable`), which keeps `1 − e·cos E` non-zero. For |e| ≥ 1 the source's loop still runs, possibly without converging; its denominator is zero only where e·cos E is exactly 1 (e = 1 at E ≡ 0°, say). What fails for |e| > 1 is line 162's `Math.sqrt(1 - e*e)`, which yields NaN; `KeplerReady` excludes those inputs too.
- Orbit.CalculatePeriod: an `elements` record without `a` enters the `k` branch in the source and produces NaN. The model folds that into `None`, like the case where no branch applies.
- Orbit.GetPositionFromElements: the source writes r and v back into its argument. The model computes the filled record as a new value (`FillPolar`), because every caller passes a fresh record and the write is never observed.
- "M = 720° gives the same E as M = 0°" is not proved. It needs the periodicity of `sin`/`cos`, which the model does not assume. Also, with a truncating `%`, negative angles do not reduce to the same value as their positive equivalents.
