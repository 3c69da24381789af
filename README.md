# Celestial mechanics orbit calculator — Dafny model

This project models the computational core of a small browser orbit calculator. For a body on a Keplerian orbit around the sun, the calculator works out the following.

**Physics kernel.** The focus-to-body distance from the polar equation of a conic section. The vis-viva orbital speed, rounded to whole metres per second and given in km/s. The Newtonian pull of the sun. The body's surface gravity and escape velocity. Its orbital period from Kepler's third law. The work needed to lift 1000 kg by 75 km.

**Orbit view.** The orbit is sampled into a list of angle/radius points, and the samples are scaled onto the canvas. A hover probe reports angle, distance, speed and force under the mouse cursor.

**Charts.** Two charts sample speed and force against the angle, each dropping the values above its ceiling.

**Saved orbits.** Orbits can be saved to the browser's local storage, reloaded, removed one by one from the end, or cleared.

**Parameters.** The planet's parameters come either from four sliders or from a table of seventeen solar-system presets.

**Views.** Two arrows cycle the main area through four panels.

How each part is modelled:

- **Numbers.** Floating-point numbers are modelled as `real`.
- **Library functions.** `cos`, `sqrt` and `atan2` are fields of a `Libm.Math` record. The only thing assumed of them is `Libm.Valid`:
  - cosine lies in [-1, 1], with cos 0 = 1 and cos π = -1;
  - sqrt is non-negative and squares back to its argument;
  - atan2 lies in [-π, π], with atan2(0, 0) = 0.
- **Rounding.** `f64::round` is defined exactly (`Libm.Round`).
- **Pure code.** The formulas are functions.
- **Loops.** The sampling loops are methods with `while` loops, each proved equal to a recursive specification.
- **In-place normalisation.** The normaliser rescales the live samples (an `array`) and every stored series (an `array` of series) in place.
- **Stateful parts.** The planet's parameters, the local storage and the panel classes are classes with mutable fields.

Modules, one per source file:

- `Radius`, `OrbitalVelocity`, `GravitationalForceSun`, `GravitationalAcceleration`, `EscapeVelocity`, `OrbitalPeriod` and `LiftObject` model `src/utils/*.rs`.
- `OrbitVisualization` models the sampler, the normaliser and the probe.
- `ChartSampling`, `VelocityChart` and `ForceChart` model the two chart samplers.
- `StoredOrbits` models the stored-orbit list.
- `Presets` models the preset table.
- `Planet` models the parameter handling.
- `SwitchView` models the panel cycling.
- `Int8Cast` models Rust's `as i8`.
- `Libm` holds the library functions and `RealArith` the arithmetic helper lemmas.

## Model

| member | source | states |
|---|---|---|
| Libm.Round | src/utils/orbital_velocity.rs:5 | f64::round: an integer within 1/2 of x, strictly above x - 1/2 for x >= 0 and strictly below x + 1/2 for x < 0 (halves go away from zero) |
| Radius.ConicRadius | src/utils/radius.rs:3 | a(1-e²)/(1+e·c) for a cosine c has the sign of a: positive on a bound orbit |
| Radius.CalculateRadius | src/utils/radius.rs:2-3 | calculate_radius has the sign of a for 0 <= e < 1 |
| Radius.ConicDenominator | src/utils/radius.rs:3 | 1 - e <= 1 + e·cos θ <= 1 + e, so the denominator never vanishes |
| Radius.SemiLatusRectumPositive | src/utils/radius.rs:3 | a(1-e²) = a(1-e)(1+e), with the sign of a |
| Radius.CircularRadius | src/utils/radius.rs:3 | with e = 0 the radius is a at every angle |
| Radius.ConicPeriapsis | src/utils/radius.rs:3 | cosine 1 gives a(1-e) |
| Radius.ConicApoapsis | src/utils/radius.rs:3 | cosine -1 gives a(1+e) |
| Radius.PeriapsisRadius | src/utils/radius.rs:3 | at angle 0 the radius is the periapsis a(1-e) |
| Radius.ApoapsisRadius | src/utils/radius.rs:3 | at angle π the radius is the apoapsis a(1+e) |
| Radius.ConicRadiusAntitone | src/utils/radius.rs:3 | on a bound orbit the radius shrinks as the cosine grows |
| Radius.RadiusBounds | src/utils/radius.rs:3 | every radius of a bound orbit lies in [a(1-e), a(1+e)] |
| Radius.PeriapsisIsClosest | src/utils/radius.rs:3 | r(0) <= r(θ) <= r(π) for every angle θ |
| Radius.RadiusThroughCosine | src/utils/radius.rs:3 | two angles with equal cosine give equal radii |
| OrbitalVelocity.CalculateOrbitalVelocity | src/utils/orbital_velocity.rs:4-5 | the result times 1000 is a whole number within 1/2 of sqrt(G M (2/r - 1/a)) with r the radius at the same angle, and it is non-negative on a bound orbit with G M >= 0 |
| OrbitalVelocity.RoundedToMetres | src/utils/orbital_velocity.rs:5 | rounding in m/s before dividing by 1000 yields whole metres per second within half a metre per second of the speed |
| OrbitalVelocity.ReciprocalBelowTwiceAxis | src/utils/orbital_velocity.rs:5 | 0 < r < 2a implies 2/r - 1/a > 0 |
| OrbitalVelocity.VisVivaFactorPositive | src/utils/orbital_velocity.rs:5 | on a bound orbit 2/r - 1/a > 0 at every point, so the square root is taken of a non-negative number |
| OrbitalVelocity.SpeedSquaredNonNegative | src/utils/orbital_velocity.rs:5 | G M (2/r - 1/a) >= 0 on a bound orbit with G M >= 0 |
| OrbitalVelocity.SpeedSquaredAntitone | src/utils/orbital_velocity.rs:5 | a smaller radius gives a larger squared speed |
| OrbitalVelocity.SpeedSquaredMonotone | src/utils/orbital_velocity.rs:5 | the squared speed grows with the cosine of the angle |
| OrbitalVelocity.PeriapsisFastest | src/utils/orbital_velocity.rs:4-5 | v(π) <= v(θ) <= v(0): slowest at apoapsis, fastest at periapsis |
| OrbitalVelocity.CircularVelocity | src/utils/orbital_velocity.rs:4-5 | with e = 0 the speed is round(sqrt(G M / a))/1000 at every angle |
| GravitationalForceSun.NewtonForce | src/utils/gravitational_force_sun.rs:7 | G m M / r² is 0 for a massless object and non-negative when G m M is |
| GravitationalForceSun.CalculateGravitationalForceWithSun | src/utils/gravitational_force_sun.rs:4-7 | the force with object mass ratio·m_earth at the conic radius: 0 for ratio 0, non-negative for non-negative inputs |
| GravitationalForceSun.NewtonForceLinear | src/utils/gravitational_force_sun.rs:7 | a mass k times as large feels k times the force: F(k·m) = k·F(m) |
| GravitationalForceSun.ForceLinearInMass | src/utils/gravitational_force_sun.rs:5-7 | the force is linear in the mass ratio |
| GravitationalForceSun.NewtonForceAntitone | src/utils/gravitational_force_sun.rs:7 | a closer body feels a stronger pull |
| GravitationalForceSun.ForceStrongestAtPeriapsis | src/utils/gravitational_force_sun.rs:7 | F(π) <= F(θ) <= F(0) on a bound orbit |
| GravitationalForceSun.CircularForce | src/utils/gravitational_force_sun.rs:7 | with e = 0 the force does not depend on the angle |
| GravitationalAcceleration.SurfaceRadius | src/utils/gravitational_acceleration.rs:5 | d·12742.46·1000/2 = d·6 371 230 m, with the sign of d |
| GravitationalAcceleration.CalculateGravitationalAcceleration | src/utils/gravitational_acceleration.rs:2-7 | G M / R² with the literal G: zero exactly when m·m_earth is zero, positive exactly when it is positive |
| GravitationalAcceleration.AccelerationLinearInMass | src/utils/gravitational_acceleration.rs:4-7 | surface gravity is linear in the mass ratio |
| GravitationalAcceleration.AccelerationInverseSquare | src/utils/gravitational_acceleration.rs:5-7 | scaling the diameter by k != 0 divides surface gravity by k² |
| EscapeVelocity.CalculateEscapeVelocity | src/utils/escape_velocity.rs:4-8 | sqrt(2 g R)/1000 is non-negative for non-negative mass and positive diameter, and 0 for a massless body |
| EscapeVelocity.TwiceGravityTimesRadius | src/utils/escape_velocity.rs:6-8 | 2 g R = 2 G M / R with the same radius conversion |
| EscapeVelocity.EscapeVelocityFromMass | src/utils/escape_velocity.rs:6-8 | the result equals sqrt(2 G M / R)/1000 |
| EscapeVelocity.EscapeVelocitySquared | src/utils/escape_velocity.rs:8 | (1000 v)² = 2 G M / R |
| OrbitalPeriod.Cube | src/utils/orbital_period.rs:6 | a.powi(3) is positive for positive a |
| OrbitalPeriod.CubeStrictlyMonotone | src/utils/orbital_period.rs:6 | the cube grows strictly on non-negative reals |
| OrbitalPeriod.KeplerQuotientSign | src/utils/orbital_period.rs:6 | a³ / (G (m_obj + M)) is non-negative, and positive for a > 0 |
| OrbitalPeriod.CalculateOrbitalPeriod | src/utils/orbital_period.rs:4-7 | the period in years is positive for a > 0 and G (m_obj + M) > 0; it takes no eccentricity or angle |
| OrbitalPeriod.PeriodInSeconds | src/utils/orbital_period.rs:7 | the result times 60·60·24·365.25 is 2π sqrt(a³ / (G (m_obj + M))) |
| OrbitalPeriod.KeplerThirdLaw | src/utils/orbital_period.rs:6 | (period in seconds)² = 4π² a³ / (G (m_obj + M)) |
| OrbitalPeriod.PeriodStrictlyIncreasing | src/utils/orbital_period.rs:6-7 | a wider orbit takes strictly longer |
| LiftObject.StartRadius | src/utils/lift_object.rs:3-8 | r_initial is 500 m per km of diameter (d_ratio·d_earth), positive exactly when the diameter is, and zero exactly when it is zero |
| LiftObject.CalculateLiftEnergy | src/utils/lift_object.rs:2-11 | the work is 0 for a massless body and positive for positive mass and radius |
| LiftObject.LiftEnergyClosedForm | src/utils/lift_object.rs:8-11 | the work equals G·1000·M·75000 / (r (r + 75000)) |
| LiftObject.LiftEnergyLinearInMass | src/utils/lift_object.rs:4-11 | the work is linear in the mass ratio |
| Int8Cast.AsI8 | src/utils/orbits.rs:11 | `as i8` keeps the value modulo 256 in [-128, 128) |
| Int8Cast.AsI8Examples | src/utils/orbits.rs:11 | 0..127 are unchanged, 128 becomes -128, 255 becomes -1 and 256 becomes 0 |
| Int8Cast.AsI8Periodic | src/utils/orbits.rs:11 | the cast depends only on n modulo 256 |
| Presets.LoadPresets | src/utils/presets.rs:11-132 | 17 entries, each with a > 0, 0 <= e < 1, d > 0 and m >= 0; m = 0 exactly for the last three; entry 2 is the Earth (1, 1, 1.00, 0.017) |
| Presets.MaxEccentricity | src/utils/presets.rs:13-131 | every eccentricity is at most 0.983, attained by 2014 FE72 |
| Presets.DistinctNames | src/utils/presets.rs:13-131 | no two presets share a name |
| Planet.NewPlanetUnits | src/components/planet.rs:21-38 | a is stored in metres (a_input·1.496e11) while a_input keeps AU; m_sun, m_earth, d_earth and g are fixed constants |
| Planet.NewPlanetValues | src/components/planet.rs:21-38 | a new planet holds its arguments, with the axis kept in AU and stored consistently in metres (a = a_input·1.496e11, positive exactly when a_input is) |
| Planet.Updated | src/components/planet.rs:48-57 | a slider update never changes m_sun, m_earth, d_earth or g, and keeps the axis in metres consistent with the axis in AU |
| Planet.UpdateOutOfRange | src/components/planet.rs:48-58 | an index outside 0..3 changes no field |
| Planet.UpdateChangesOneField | src/components/planet.rs:48-57 | each index sets exactly its field (index 0 sets a_input and a together) and leaves every other field unchanged |
| Planet.UpdateOverrides | src/components/planet.rs:48-57 | a second update of the same slider overrides the first |
| Planet.UpdatesCommute | src/components/planet.rs:48-57 | updates of different sliders commute |
| Planet.UpdateOfNewPlanet | src/components/planet.rs:21-57 | moving a slider on a fresh planet gives the planet built with that value |
| Planet.PlanetData.constructor | src/components/planet.rs:21-38 | PlanetData::new stores the values of NewPlanetValues |
| Planet.PlanetData.UpdatePlanetData | src/components/planet.rs:46-59 | the fields become Updated(old values, parsed value or 0, index), and the planet is published once more whatever the index |
| Planet.CreatePlanet | src/components/planet.rs:41-44 | create_planet returns a fresh planet with the constructor's values |
| Planet.PlanetSignal.Set | src/components/planet.rs:58 | publishing replaces the planet and bumps the version |
| Planet.PresetFor | src/components/planet.rs:89-95 | option k in 1..17 is preset k-1, and a later option is the all-zero preset with an empty name |
| Planet.PresetForIsBound | src/components/planet.rs:89-95 | every offered option yields a bound orbit with a positive diameter; the fallback has a = d = 0 |
| Planet.ChosenParameters | src/components/planet.rs:70-96 | option 0 or unparseable text gives the slider values; option k in 1..17 gives preset k-1, a bound orbit with positive diameter; a later option gives the all-zero preset |
| Planet.PresetIgnoresSliders | src/components/planet.rs:84-96 | an option k >= 1 ignores the slider values |
| Planet.PresetSelector.SelectPreset | src/components/planet.rs:69-97 | option 0 (or unparseable text) re-enables the sliders and builds from them; any other option greys them out and builds from the preset; the planet is published |
| OrbitVisualization.RemainingDecreases | src/components/orbit_visualization.rs:58-61 | each step of the loop leaves fewer samples, so it terminates for step > 0 |
| OrbitVisualization.SampleAngles | src/components/orbit_visualization.rs:57-61 | the sampled angles are empty exactly when start >= end, and otherwise start with start |
| OrbitVisualization.SampleAnglesInRange | src/components/orbit_visualization.rs:58 | every sampled angle lies in [start, end) |
| OrbitVisualization.SampleAnglesStep | src/components/orbit_visualization.rs:61 | consecutive angles differ by exactly step |
| OrbitVisualization.SampleAnglesIncreasing | src/components/orbit_visualization.rs:57-62 | the angles are strictly increasing |
| OrbitVisualization.OrbitPoints | src/components/orbit_visualization.rs:59-60 | point i carries angle i and calculate_radius at that angle |
| OrbitVisualization.SampleStep | src/components/orbit_visualization.rs:58-61 | one loop step emits the next sample and its orbit point |
| OrbitVisualization.GetRadiusPoints | src/components/orbit_visualization.rs:55-64 | the loop returns the orbit points of exactly the sampled angles, in order |
| OrbitVisualization.Min | src/components/orbit_visualization.rs:41 | f64::min is the smaller of its two arguments |
| OrbitVisualization.MaxRadius | src/components/orbit_visualization.rs:33-36 | the maximum radius of a non-empty series is attained and bounds every radius |
| OrbitVisualization.NormalizeRadiusPoints | src/components/orbit_visualization.rs:31-52 | the scale is the largest radius of the live samples alone (stored series do not contribute); with no live samples: returns 0 and changes nothing; otherwise returns the live maximum and rescales every live and every stored radius by it, keeping angles, counts, order and series indices |
| OrbitVisualization.ScaleInPlace | src/components/orbit_visualization.rs:40-42 | the inner loop rescales one stored series point by point |
| OrbitVisualization.Scale | src/components/orbit_visualization.rs:41 | radius 0 maps to the centre, the maximum (or its negative) to ±min(h, w)/2 |
| OrbitVisualization.ScaleSeries | src/components/orbit_visualization.rs:44-45 | a scaled series has the same points in the same order, every angle kept and every radius scaled |
| OrbitVisualization.ScaleStored | src/components/orbit_visualization.rs:39-42 | every stored series is scaled with the one scale, keeping its index, its length and the order of the series |
| OrbitVisualization.PeakOnEdge | src/components/orbit_visualization.rs:44-45 | a live point of maximal radius lands exactly on min(h, w)/2 |
| OrbitVisualization.ScaledWithinCanvas | src/components/orbit_visualization.rs:44-45 | with a positive maximum, every scaled live radius is at most min(h, w)/2, and non-negative radii stay non-negative |
| OrbitVisualization.ScaleBounds | src/components/orbit_visualization.rs:45 | 0 <= radius <= max maps into [0, min(h, w)/2] |
| OrbitVisualization.ScaleRoundTrip | src/components/orbit_visualization.rs:41 | multiplying a scaled radius by 2·max/min(h, w) restores it |
| OrbitVisualization.MouseProbe | src/components/orbit_visualization.rs:71-94 | off the closed canvas rectangle the probe is (false, 0, 0, 0, 0); on it, the angle is atan2 of the cursor's offset (y - h/2, x - w/2) from the canvas centre, lies in [-π, π], and radius, speed and force are computed at that same angle |
| OrbitVisualization.ProbeWithinOrbit | src/components/orbit_visualization.rs:76-77 | the probed radius lies between periapsis and apoapsis |
| OrbitVisualization.ProbeAtCentre | src/components/orbit_visualization.rs:74-77 | at the canvas centre the angle is 0 and the radius is the periapsis distance |
| ChartSampling.Filtered | src/components/orbital_velocity_chart.rs:24-30 | the kept points are at most as many as the samples |
| ChartSampling.FilteredMembership | src/components/orbital_velocity_chart.rs:26-27 | a point is kept exactly when it is a sample and passes the ceiling |
| ChartSampling.FilteredIncreasing | src/components/orbital_velocity_chart.rs:22-30 | filtering keeps increasing x values increasing |
| ChartSampling.FilteredAll | src/components/orbital_velocity_chart.rs:26-27 | when every value passes, nothing is dropped |
| VelocityChart.VelocityPoints | src/components/orbital_velocity_chart.rs:25 | sample i pairs angle i with the orbital speed there |
| VelocityChart.WalkIsFiltered | src/components/orbital_velocity_chart.rs:24-30 | the step-by-step walk keeps exactly the sampled speeds <= 40, in order |
| VelocityChart.WalkStep | src/components/orbital_velocity_chart.rs:24-29 | one loop step pushes (angle, speed) exactly when the speed is <= 40 |
| VelocityChart.GetChartData | src/components/orbital_velocity_chart.rs:21-32 | the loop returns the sampled (angle, speed) pairs with speed <= 40.0 (inclusive), in order |
| VelocityChart.VelocityChartPoints | src/components/orbital_velocity_chart.rs:26-27 | (x, y) is on the chart iff x is a sampled angle, y is the speed at x, and y <= 40 |
| VelocityChart.VelocityChartOrdered | src/components/orbital_velocity_chart.rs:22-30 | the charted angles are strictly increasing |
| VelocityChart.VelocityChartComplete | src/components/orbital_velocity_chart.rs:26 | if the periapsis speed is <= 40 on a bound orbit, no sample is dropped |
| ForceChart.ForcePoints | src/components/gravitational_force_with_sun_chart.rs:25 | sample i pairs angle i with the force there |
| ForceChart.WalkIsFiltered | src/components/gravitational_force_with_sun_chart.rs:24-30 | the step-by-step walk keeps exactly the sampled forces < 4.6e23, in order |
| ForceChart.WalkStep | src/components/gravitational_force_with_sun_chart.rs:24-29 | one loop step pushes (angle, force) exactly when the force is < 4.6e23 |
| ForceChart.GetChartData | src/components/gravitational_force_with_sun_chart.rs:21-32 | the loop returns the sampled (angle, force) pairs with force < 4.6e23 (strict), in order |
| ForceChart.ForceChartPoints | src/components/gravitational_force_with_sun_chart.rs:26-27 | (x, y) is on the chart iff x is a sampled angle, y is the force at x, and y < 4.6e23 |
| ForceChart.ForceChartOrdered | src/components/gravitational_force_with_sun_chart.rs:22-30 | the charted angles are strictly increasing |
| ForceChart.ForceChartComplete | src/components/gravitational_force_with_sun_chart.rs:26 | if the periapsis force is below the limit on a bound orbit, no sample is dropped |
| ForceChart.MasslessChart | src/components/gravitational_force_with_sun_chart.rs:25-27 | with mass ratio 0 every sample is charted at 0 N |
| StoredOrbits.LoadOrbitsSpec | src/utils/orbits.rs:24-44 | load never invents data: a non-empty result is the parsed stored list, and unreachable storage, a missing key or unparseable text give [] |
| StoredOrbits.AddOrbitSpec | src/utils/orbits.rs:5-22 | add either yields a parsed list or leaves the value alone, and a parsed list grows strictly, keeping its old entries as a prefix |
| StoredOrbits.RemoveLast | src/utils/orbits.rs:46-60 | a parsed list stays parsed and keeps a prefix of its entries; a missing key (line 49), unparseable text (line 55) and unreachable storage (lines 47-48) are left exactly as they are |
| StoredOrbits.ClearSpec | src/utils/orbits.rs:62-68 | clear writes the empty list when storage is reachable |
| StoredOrbits.LoadAfterAdd | src/utils/orbits.rs:9-18 | on a parsed or missing value, the loaded list gains (previous length as i8, points) at its end; on unparseable text or without storage, nothing changes |
| StoredOrbits.RemoveKeepsUnparsed | src/utils/orbits.rs:8-55 | remove leaves a missing or unparseable value unchanged, so a following add still starts a fresh list for a missing key and keeps unparseable text |
| StoredOrbits.RemoveDropsFinal | src/utils/orbits.rs:49-53 | remove drops exactly the last loaded entry and keeps the rest in order |
| StoredOrbits.RemoveUndoesAdd | src/utils/orbits.rs:5-60 | removing after adding restores what load returns |
| StoredOrbits.LoadAfterClear | src/utils/orbits.rs:62-68 | load after clear returns [] |
| StoredOrbits.Numbered | src/utils/orbits.rs:11 | the numbered list pairs series i with i as i8 |
| StoredOrbits.AddAllNumbers | src/utils/orbits.rs:11-18 | saving series one after another into an empty or missing list loads back as [(0, s0), (1, s1), ...] numbered as i8 |
| StoredOrbits.IndexWraps | src/utils/orbits.rs:11 | the 129th saved orbit gets the index -128 |
| StoredOrbits.RemoveLastAsWritten | src/utils/orbits.rs:46-60 | the code as written panics exactly on a reachable, parsed, empty list, and leaves a missing key, unparseable text or unreachable storage untouched |
| StoredOrbits.RemoveAfterClearPanics | src/utils/orbits.rs:52-65 | remove after clear panics as written, while the corrected remove leaves [] |
| StoredOrbits.RemoveLastAgrees | src/utils/orbits.rs:49-55 | wherever the code as written does not panic, it agrees with the corrected remove |
| StoredOrbits.BrowserStorage.AddOrbit | src/utils/orbits.rs:5-22 | the stored value becomes AddOrbitSpec of the old one |
| StoredOrbits.BrowserStorage.LoadOrbits | src/utils/orbits.rs:24-44 | returns LoadOrbitsSpec of the stored value: the parsed list when storage is reachable and the value parses, and [] otherwise |
| StoredOrbits.BrowserStorage.RemoveLastOrbit | src/utils/orbits.rs:46-60 | the stored value becomes RemoveLast of the old one |
| StoredOrbits.BrowserStorage.ClearOrbits | src/utils/orbits.rs:62-68 | the stored value becomes ClearSpec of the old one |
| SwitchView.NewActiveIndex | src/components/switch_view.rs:15-27 | the new index lies in [0, 4): left is (i + 3) mod 4 and right is (i + 1) mod 4 |
| SwitchView.ClickMoves | src/components/switch_view.rs:15-27 | a click always selects another panel |
| SwitchView.LeftRightInverse | src/components/switch_view.rs:15-27 | left then right, or right then left, restores the index |
| SwitchView.FourClicksCycle | src/components/switch_view.rs:15-27 | four clicks in one direction visit all four panels and return to the start |
| SwitchView.FirstVisible | src/components/switch_view.rs:11-13 | the found panel carries visible_element, and no panel before it in document order does |
| SwitchView.FirstVisibleIsOnly | src/components/switch_view.rs:11-13 | when a single panel is visible, it is the one found |
| SwitchView.SwapVisibility | src/components/switch_view.rs:36-41 | only the old and new panels change: the old panel ends with invisible_element and without visible_element, the new one the reverse, other classes untouched |
| SwitchView.SwapKeepsOneVisible | src/components/switch_view.rs:36-41 | if only the old panel was visible, afterwards only the new one is, and the old is marked invisible |
| SwitchView.Views.SwitchView | src/components/switch_view.rs:8-42 | swaps the classes of the found panel and its neighbour; redraws the canvas when the new index is 0 and otherwise hides the hover probe; a single visible panel stays single |

## Left out

- Rendering. Drawing on the canvas is not modelled: grid lines, stored and live orbits, labels, line dashes, the red probe ray in mouse_hover, and the draw_scene body. These are side effects on a browser 2D context. A canvas redraw is counted (`Views.redraws`) but not described.
- DOM and event plumbing. `get_mouse_position`, the mousemove closure and its `forget()`, `set_attribute`, the Leptos signals, effects, `view!` markup and the chart configuration are browser and framework calls.
- JSON serialisation. `serde_json` text in local storage is left out. The stored value is abstract: missing, unparseable, or a parsed list.
  - A `get_item` error is read like a missing key.
  - A failing `set_item(...).unwrap()` (for example a full quota) is not modelled.
  - `clear_orbits` writes an empty list typed `Vec<Vec<...>>`. It reads back as an empty list of orbits, which is how the model treats it.
- Floating point. Every number is an exact real.
  - NaN, infinities, f64 rounding of the formulas and the exact count of samples produced by repeated float addition are not modelled.
  - The constants 1.496e11, 1.988416e30, 5.972168e24, 6.6743e-11 and 4.6e23 are exact reals.
  - A division by r² is written as two divisions by r (equal over the reals).
- Division by zero. Where the code would divide by zero and produce NaN or infinity, the model requires instead:
  - a != 0 and 0 <= e < 1 for the radius, speed, force and charts;
  - d != 0 for surface gravity and escape velocity;
  - a non-zero G (m_obj + M) for the period;
  - non-zero r_initial and r_final for the lift energy;
  - a non-zero live maximum for the normaliser;
  - step > 0 for every sampling loop, since with step <= 0 the code's loop does not end.
- Library functions. `cos`, `sqrt` and `atan2` are assumed only through `Libm.Valid`; their values are not computed.
- OrbitVisualization.MouseProbe: the probe's placement of the info box and the red ray are not modelled. The probe is stated as the (shown, angle, radius, velocity, force) tuple the mousemove handler publishes.
- OrbitVisualization.NormalizeRadiusPoints: `max_by` with `partial_cmp(...).unwrap_or(Equal)` is modelled as the mathematical maximum, because NaN radii are not modelled. The argument order at draw_scene (width and height passed into the (height, width) parameters) is harmless because only min(h, w) is used.
- SwitchView.Views.SwitchView: the canvas redraw on the new index 0 is a counter, and draw_scene itself is not modelled. The method requires a panel carrying `visible_element` and panels found by their container ids, because the code unwraps both lookups. In the markup shown, the canvas and speed-chart panels carry neither class initially, so the first click relies on markup this model does not include.
- The preset `<select>` options and their labels are not modelled. Only the handler's choice of parameters is.

## Findings

| source | as written | input that shows it | evidently intended | confidence | as-written member | corrected member |
|---|---|---|---|---|---|---|
| src/utils/orbits.rs:52 | remove_last_orbit computes `vec.len() - 1` also when the parsed list is empty; the unsigned subtraction underflows, which panics in a debug build and in a release build passes `usize::MAX` to `remove`, which panics on the index | clear_orbits followed by remove_last_orbit (stored list []) | removing from an empty list leaves it empty: the "Remove last Orbit" button (src/components/orbit_visualization_options.rs:23-27) stays enabled after "Clear Orbits" (lines 28-31), so an empty list is a reachable state the button is offered in | not executed | StoredOrbits.RemoveLastAsWritten | StoredOrbits.RemoveLast |
