# A verified model of the PerculiarPardigm particle toy

PerculiarPardigm is a browser toy. It keeps a field of up to 30 000 particles
moving under one of three force models, "zen", "fluid" and "glitch". Pointer
presses, drags and taps inject bursts of particles, and a control panel edits
the simulation parameters live. This project models the simulation and
interaction core in Dafny and proves properties of it:

- `particle.js`: the particle's constructor, `update`, `getLifeRatio` and
  `getAlpha`.
- `particle-system.js`: `emit`, `update`, `updateGeometry`,
  `clearParticles`, `gentleClear`, and the sizing of the four render buffers.
- `app.js`: the three parameter sets, `switchMode`, `applyGlitchForce`, the
  trail-emission throttle, the pointer handlers' tap classifier, and the
  frame clock.
- `ui.js`: `updateParameter` and `toggleControls`.

The model is built from these modules, leaf first:

- `JsNum` (js_num.dfy) models JavaScript numbers as `Real(r) | NaN`. NaN
  propagates through arithmetic, and comparisons with NaN are false. It also
  holds the three.js vectors and colours, and `Slots`, the trip count of a
  `for (i = 0; i < n; i++)` loop.
- `JsText` (js_text.dfy) models `String.prototype.includes` and
  `parseFloat`.
- `Params` (params.dfy) models the parameter objects as maps from names to
  values. The three shipped sets are built by overlaying, as `app.js` builds
  them with object spread. They are addressed by identity (`SetId`), so
  every write through the shared reference `particleParams` lands in exactly
  one object.
- `ParticleModel` (particle.dfy) has one particle, its three force models,
  expiry and alpha.
- `ParticleSystem` (particle_system.dfy) has emission, the update loop, the
  geometry pass over the render buffers, and the two clears.
- `App` (app.dfy) has the driver: mode switching, the glitch pull, the
  pointer handlers and the frame delta.
- `Ui` (ui.dfy) has the control panel.

Clocks and `Math.random`, `Math.sin`, `Math.cos`, `Math.sqrt` and `Math.pow`
are explicit inputs. The clock is a real number of milliseconds, random draws
are a stream `nat -> real`, and the maths functions are functions
`real -> real`. Where a proof needs a property of them, such as
`sin² + cos² = 1` or `sqrt(x)² = x`, that property is a precondition. The
point under the pointer is likewise an input, since raycasting is left out.

## Model

| member | source | states |
|---|---|---|
| `Params.ShippedSetsHaveColours` | app.js:37-89 | every shipped set owns a `startColor` and an `endColor` colour, so the colour pass can read them |
| `Params.ZenHasColours` | app.js:55-66 | the zen set keeps the base set's two colours, since its own fields override neither |
| `Params.OverlayKeepsColours` | app.js:56 | spreading a set and then adding fields that leave both colour keys alone keeps both colours |
| `Params.AnchorKeyAbsent` | app.js:80-89 | the shipped glitch set has no `anchorStrength` key |
| `Params.JitterKeyAbsent` | app.js:80-89 | the shipped glitch set has no `glitchJitter` key |
| `Params.GlitchSetLacksForceKeys` | app.js:80-89 | the glitch set names its coefficients `attractionForce` and `jitter`, so the two keys the glitch model reads are NaN as numbers |
| `ParticleModel.New` | modules/particle.js:2-13 | a new particle starts with life and maxLife both `lifespan`, not clearing, with no recorded start life, at the given position and velocity, bound to the given parameter object, with a real turbulence phase |
| `ParticleModel.NewParticleShape` | modules/particle.js:5-8 | a new particle's size lies within half the size variation of the base size, and with a non-zero lifespan its life ratio is exactly one |
| `ParticleModel.EnterClearing` | modules/particle.js:16-20 | clearing starts exactly when `clearingMode` is truthy and the particle is not clearing yet; it records the current life and clamps life to `min(life, 5)`, and otherwise nothing changes |
| `ParticleModel.ClearingIsOneShot` | modules/particle.js:16-20 | entering clearing is idempotent and never raises life; a fresh clamp leaves at most 5 s |
| `ParticleModel.ClearingIsSticky` | modules/particle.js:16-20 | over any run of updates a clearing particle stays clearing, and its recorded start life is never overwritten |
| `ParticleModel.Step` | modules/particle.js:15-74 | one update: the clearing transition, then the mode's force, then `position += velocity * dt` and `life -= dt`, with no other field changed; the result is alive exactly when the mode's expiry test passes |
| `ParticleModel.StepLife` | modules/particle.js:65-66 | each update lowers a real life by exactly `dt`, after the one-shot clamp when clearing starts |
| `ParticleModel.ExpiryByMode` | modules/particle.js:68-73 | "zen" keeps a particle while `life > -ghostDuration`, and any NaN ghost duration kills it; every other mode string keeps it while `life > 0`; unknown mode strings use the zen forces |
| `ParticleModel.SurvivesRunIff` | modules/particle.js:65-73 | without a clearing clamp and with non-negative steps, a particle's life after a run is its life minus the elapsed time, and it survives the run exactly when that is above the mode's threshold |
| `ParticleModel.ZenGhostTailScenario` | modules/particle.js:68-70 | in zen mode with a 1 s ghost duration, a particle with 2 s of life left is still alive after up to 2 s of updates and gone after 3 s or more |
| `ParticleModel.FluidNoOp` | modules/particle.js:25-33 | fluid mode with no buoyancy, viscosity 1, no diffusion and no swirl leaves the velocity unchanged |
| `ParticleModel.GlitchZeroDampingStops` | modules/particle.js:36-47 | glitch damping 0 stops a particle with real velocity and position dead, whatever the jitter draws, provided the two coefficients the model reads are numbers |
| `ParticleModel.GlitchSetPoisonsMotion` | modules/particle.js:39-44 | under the shipped glitch set, one update turns every velocity and position component into NaN |
| `ParticleModel.ZenOrder` | modules/particle.js:52-61 | without turbulence, zen is the affine map that adds gravity, then scales by `1 - airResistance*dt`, then adds wind, in that order |
| `ParticleModel.LiftStep` | modules/particle.js:54 | gravity adds `gravity * dt` to the vertical velocity only |
| `ParticleModel.DragStep` | modules/particle.js:55 | air resistance multiplies each velocity component by `1 - airResistance * dt` |
| `ParticleModel.WindStep` | modules/particle.js:56-58 | wind adds `(windX, windY, windZ) * dt` component-wise |
| `ParticleModel.SwirlNone` | modules/particle.js:59-61 | a zero turbulence coefficient adds nothing, for a particle with a real phase |
| `ParticleModel.ZenGravityOnly` | modules/particle.js:52-61 | with no air resistance, wind or turbulence, zen changes only the vertical velocity, by `gravity * dt` |
| `ParticleModel.NonZenAlpha` | modules/particle.js:83-85 | outside zen mode, alpha is `opacity * lifeRatio` for a positive ratio and 0 otherwise, so it is never negative |
| `ParticleModel.ZenAlphaPieces` | modules/particle.js:87-96 | zen alpha is full opacity above ratio 0.2, a linear fade that meets full opacity at 0.2, and the dimmed ghost value once life is spent |
| `ParticleModel.ZenAlphaJumpsAtDeath` | modules/particle.js:89-96 | at `life == 0`, zen alpha is `0.6 * opacity` although the fade above tends to 0 |
| `ParticleModel.Force` | modules/particle.js:22-63 | the velocity update dispatches on `mode`: "fluid" and "glitch" pick their models and every other value, missing or not, picks zen; defined, with the dispatch proved in `ParticleModel.ExpiryByMode` and `ParticleModel.Step` |
| `ParticleModel.ZenForce` | modules/particle.js:52-61 | gravity, drag, wind, then swirl; defined, with its properties in `ParticleModel.ZenOrder` and `ParticleModel.ZenGravityOnly` |
| `ParticleModel.FluidForce` | modules/particle.js:25-34 | buoyancy, viscous drag `1 - (1 - viscosity) * dt`, diffusion from three draws, then swirl; defined, with its neutral case in `ParticleModel.FluidNoOp` |
| `ParticleModel.GlitchForce` | modules/particle.js:36-50 | anchoring towards the origin, jitter from three draws, then damping; defined, with its properties in `ParticleModel.GlitchZeroDampingStops` and `ParticleModel.GlitchSetPoisonsMotion` |
| `ParticleModel.Lift` | modules/particle.js:54 | the vertical push; defined, with its effect in `ParticleModel.LiftStep` |
| `ParticleModel.Drag` | modules/particle.js:55 | the velocity scaling; defined, with its effect in `ParticleModel.DragStep` |
| `ParticleModel.Wind` | modules/particle.js:56-58 | the wind push; defined, with its effect in `ParticleModel.WindStep` |
| `ParticleModel.Swirl` | modules/particle.js:59-61 | the sine/cosine swirl; defined, with its neutral case in `ParticleModel.SwirlNone` |
| `ParticleModel.LifeRatio` | modules/particle.js:76-78 | `life / maxLife`; defined, with its value for a fresh particle in `ParticleModel.NewParticleShape` |
| `ParticleModel.Alpha` | modules/particle.js:80-97 | `getAlpha`; defined, with each branch stated in `ParticleModel.NonZenAlpha`, `ParticleModel.ZenAlphaPieces` and `ParticleModel.ZenAlphaJumpsAtDeath` |
| `ParticleModel.Survives` | modules/particle.js:68-73 | the expiry test; defined, with its meaning in `ParticleModel.ExpiryByMode` and `ParticleModel.SurvivesRunIff` |
| `JsNum.Slots` | modules/particle-system.js:112 | a counter passes the loop test `i < n` exactly when it is below the trip count |
| `JsNum.LerpEnds` | modules/particle-system.js:126 | the colour lerp gives the start colour at factor 0 and the end colour at factor 1 |
| `ParticleSystem.Create` | modules/particle-system.js:4-12 | a system starts empty, bound to its parameter object, with four zero-filled buffers (sizes as long as alphas, positions as long as colours); construction fails with a RangeError exactly when `count` is a number at or below -1/3, so that `count * 3` truncates to a negative length |
| `ParticleSystem.CreateSizes` | modules/particle-system.js:9-12 | a whole `count` gives `3 * count` position floats and `count` sizes |
| `ParticleSystem.ArrayLength` | modules/particle-system.js:9-12 | the length of `new Float32Array(n)`: a RangeError exactly for numbers at or below -1, the whole part of a non-negative number, and 0 for NaN and for numbers strictly between -1 and 1 |
| `ParticleSystem.Emitted` | modules/particle-system.js:77-92 | emission keeps the old particles as a prefix, appends exactly `Admitted` new ones, the `j`-th of them the `Spawn` from draws `5j` to `5j + 4`, and touches no buffer |
| `ParticleSystem.Emit` | modules/particle-system.js:77-92 | the loop with its early capacity break appends exactly the particles `Emitted` describes, in draw order |
| `ParticleSystem.EmitCount` | modules/particle-system.js:78-79 | for whole numbers, `emit(n)` adds `min(max(n, 0), max(0, count - length))` particles |
| `ParticleSystem.EmitCapacity` | modules/particle-system.js:78-79 | a full list gains nothing; a list within capacity stays within it and is filled exactly to capacity when enough are requested; at most `Slots(n)`, the ceiling of `n`, are added (`emit(2.5)` adds 3); a NaN `count` admits all `Slots(n)` |
| `ParticleSystem.Admitted` | modules/particle-system.js:78-79 | how many particles the capacity break lets through; defined, with its closed form in `ParticleSystem.EmitCount` and its bounds in `ParticleSystem.EmitCapacity` |
| `ParticleSystem.FractionalCountRoundsUp` | modules/particle-system.js:78-79 | a `count` with a fractional part lets the list grow to one more than its whole part |
| `ParticleSystem.SpawnShape` | modules/particle-system.js:80-90 | every emitted particle starts at the requested origin, with the constructor's life and clearing state, under the system's parameter object, and its heading takes angle and elevation from two separate draws |
| `ParticleSystem.Spawn` | modules/particle-system.js:80-90 | one new particle from five draws; defined, with its properties in `ParticleSystem.SpawnShape`, `ParticleSystem.SpawnSpeed` and `ParticleSystem.AimRange` |
| `ParticleSystem.AimRange` | modules/particle-system.js:81-82 | each of the angle and the elevation lies within `±spreadAngle / 2` degrees, in radians |
| `ParticleSystem.LaunchSpeedRange` | modules/particle-system.js:88 | the launch speed lies in `[initialSpeed/2, initialSpeed]`, and below `initialSpeed` when that is positive |
| `ParticleSystem.DirectionIsUnit` | modules/particle-system.js:84-87 | the launch direction has unit length, given `sin² + cos² = 1` |
| `ParticleSystem.SpawnSpeed` | modules/particle-system.js:81-88 | an emitted particle's squared speed is its launch speed squared |
| `ParticleSystem.Advance` | modules/particle-system.js:96-99 | every particle present at the start of the update is advanced exactly once, under its own parameter object |
| `ParticleSystem.SurvivorsAreTheAlive` | modules/particle-system.js:96-100 | the kept particles are exactly those whose update returned true, in their original order |
| `ParticleSystem.Update` | modules/particle-system.js:94-104 | the back-to-front splice loop keeps exactly the survivors, and then the geometry pass runs |
| `ParticleSystem.DrawSlotExtends` | modules/particle-system.js:113-142 | drawing slot `i` extends a drawing of the first `i` slots to the first `i + 1` |
| `ParticleSystem.UpdateGeometry` | modules/particle-system.js:106-149 | after the pass, each of the first `count` slots shows its live particle's position, colour, size and alpha, or zero position, size and alpha past the live list; writes past a buffer's end are dropped; later slots keep their contents |
| `ParticleSystem.ColourFactorRange` | modules/particle-system.js:122-125 | the colour factor is 0 from ratio 0.3 up and for NaN, 1 at ratio 0, in (0, 1] in between, and above 1 for negative ratios |
| `ParticleSystem.ColourFactor` | modules/particle-system.js:122-125 | the colour lerp factor; defined, with its ranges in `ParticleSystem.ColourFactorRange` |
| `ParticleSystem.SizeMultiplierIsOne` | modules/particle-system.js:132 | the size multiplier is 1 for every non-zero real ratio; at 0 it is 1 exactly when the ghost duration is a non-zero number, and otherwise NaN |
| `ParticleSystem.SizeMultiplier` | modules/particle-system.js:132 | the size multiplier; defined, with its values in `ParticleSystem.SizeMultiplierIsOne` |
| `ParticleSystem.Clear` | modules/particle-system.js:171-183 | clearing empties the list and zeroes positions and alphas for slots below `count`; colours, sizes and later slots are untouched |
| `ParticleSystem.ClearIdempotent` | modules/particle-system.js:171-183 | clearing twice is clearing once |
| `ParticleSystem.ClearMatchesEmptyRender` | modules/particle-system.js:135-142 | a geometry pass over an empty list leaves exactly the positions and alphas a clear leaves |
| `ParticleSystem.GentleClear` | modules/particle-system.js:161-164 | a gentle clear sets `clearingMode` on the system's current parameter object, adds no key, and changes no other key and no other object |
| `ParticleSystem.GentleClearThenStep` | modules/particle-system.js:161-164 | after a gentle clear, a particle's next update leaves it clearing; one not clearing before records its life and keeps at most `5 - dt` |
| `JsText.ContainsInfix` | modules/ui.js:74 | a string includes every one of its infixes |
| `JsText.ContainsIffOccurs` | modules/ui.js:74 | `includes` holds exactly when the part occurs at some index |
| `JsText.Contains` | modules/ui.js:74 | `String.prototype.includes`; defined, with its meaning in `JsText.ContainsIffOccurs` |
| `JsText.ParseFloat` | modules/ui.js:72 | `parseFloat`; defined, with its values in `JsText.ParseDecimal`, `JsText.ParseNatString`, `JsText.ParseScientific` and `JsText.ParseFloatOfWord` |
| `JsText.ParseFloatOfWord` | modules/ui.js:72 | `parseFloat` of a string whose first non-space character cannot start a number (not a digit, sign, point, or the `I` of `Infinity`) is NaN |
| `JsText.ParseDecimal` | modules/ui.js:72 | `parseFloat("d.f")` is the decimal value of the digits |
| `JsText.ParseNatString` | modules/ui.js:72 | `parseFloat` inverts the decimal numeral of every natural number |
| `JsText.ParseScientific` | modules/ui.js:72 | `parseFloat` of digits, `e` and a numeral `k` is the digits' value times `10^k` |
| `App.Init` | app.js:91-105 | when start-up succeeds, the app is in zen mode with the shipped sets, and app and system read the same object |
| `App.ZenCount` | app.js:55-66 | the zen set inherits `count` 30000 from the base set |
| `App.InitSucceeds` | app.js:91-105 | start-up always succeeds, with 30000 slots, 90000 position floats and no particles |
| `App.SetFor` | app.js:121-135 | "fluid" and "glitch" select their sets, and every other string selects zen |
| `App.SwitchMode` | app.js:117-141 | switching installs the selected object, by reference, on app and system, clears the particles, and keeps every set, the colour and size buffers, the throttle, the pointer and the clock |
| `App.SwitchRoundTrip` | app.js:117-141 | switching away and back returns the very same parameter object, edits intact, with no particles |
| `App.ApplyGlitchForce` | app.js:408-421 | outside glitch mode nothing changes; in glitch mode only velocities change: a particle strictly inside the influence radius gains `normalize(target - position) * snapSpeed`, and every other particle is untouched |
| `App.GlitchRadiusIsStrict` | app.js:414-416 | a particle exactly on the influence sphere is not pulled |
| `App.SnapForceLength` | app.js:417 | the pull on a particle at a positive distance has squared length `snapSpeed²` |
| `App.SnapForce` | app.js:417 | the pull on one particle; defined, with its length in `App.SnapForceLength` |
| `App.Nudge` | app.js:413-419 | the per-particle radius test and pull; defined, with its effect in `App.ApplyGlitchForce` and the strict boundary in `App.GlitchRadiusIsStrict` |
| `App.EmitAtPosition` | app.js:236-245 | more than 50 ms after the last emission, a trail emits `min(trailDensity, emissionRate)` particles and restarts the throttle; otherwise nothing changes |
| `App.ThrottleSpacing` | app.js:238-243 | two trail emissions no more than 50 ms apart emit once |
| `App.ZenTrailBurst` | app.js:239 | a zen trail asks for 33 particles |
| `App.TapBySquares` | app.js:288-293 | with a true square root, a tap is a press under 300 ms whose squared movement is under 25 |
| `App.IsTap` | app.js:288-293 | the tap classifier; defined, with its squared form in `App.TapBySquares` |
| `App.Press` | app.js:310-315 | a touch press records the position and start time and changes nothing else |
| `App.MouseDown` | app.js:267-283 | a mouse press records the press; outside glitch mode it is exactly a touch press, and in glitch mode it is a touch press followed by the glitch pull towards the world point |
| `App.TouchMove` | app.js:326-340 | a drag is the throttled trail emission (which alone moves the system and `lastEmission`) with the recorded position moved to the finger, and nothing else changes; with no press, nothing changes |
| `App.MouseMove` | app.js:251-252 | the mouse trails only in fluid mode while pressed |
| `App.Release` | app.js:285-304 | a release ends the press and keeps the recorded position, start time, sets, mode, clock and throttle; it bursts `burstSize` particles exactly when it classifies as a tap, and otherwise leaves the system alone |
| `App.PressThenRelease` | app.js:285-304 | a press released within 300 ms and under 5 px away bursts, and any other release emits nothing |
| `App.FingersDown` | app.js:316-320 | a multi-finger touch start or move moves the recorded pointer position to the first finger and changes nothing else |
| `App.SecondFingerResetsTapOrigin` | app.js:341-353 | a press that a second finger drags elsewhere, lifted there within 300 ms, still bursts: the tap test measures from the overwritten position |
| `App.TapBurstsNinetyNine` | app.js:293-296 | a quick still click on the zen set with room to spare adds exactly 99 particles |
| `App.HandlersKeepConsistent` | app.js:117-141 | every handler leaves app and system reading the same parameter object |
| `App.EmissionKeepsCapacity` | app.js:236-245 | trails and taps never take a list within capacity past it |
| `App.FirstFrameIsStill` | app.js:428-429 | the first frame advances by nothing, and so does a frame after a clock reading of exactly 0, which counts as unset |
| `App.FrameDelta` | app.js:428-429 | the frame delta in seconds; defined, with its properties in `App.FirstFrameIsStill` and `App.DeltasTelescope` |
| `App.DeltasTelescope` | app.js:428-430 | frame deltas add up to the elapsed seconds between the first and last frame, provided no clock reading is exactly 0 |
| `App.Frame` | app.js:423-434 | one frame advances the system by the frame delta and records the clock; the pointer, throttle, mode, sets and active set are unchanged |
| `Ui.NewPanel` | modules/ui.js:2-5 | a new panel has its controls hidden |
| `Ui.Stored` | modules/ui.js:72-80 | an edit stores something exactly when the id contains "Color", is "zenMode", or is an own key; a "Color" id stores the parsed colour whether or not the key exists, "zenMode" stores whether the value is the text `true`, and an owned ordinary id stores the raw text for a colour input and `parseFloat` of the value otherwise |
| `Ui.UpdateParameter` | modules/ui.js:71-93 | an edit writes only the active object, and in it only `id`; keys appear only for `id`; the label of `id` starts with the value and other labels are unchanged |
| `Ui.EditStores` | modules/ui.js:74-80 | afterwards `id` is present exactly when it was before or names a colour or the zen flag, and an ignored id leaves the object as it was |
| `Ui.UnknownIdIgnored` | modules/ui.js:78-80 | an unknown ordinary id changes nothing but its label |
| `Ui.EditKeepsColours` | modules/ui.js:74-75 | no edit can leave either colour key holding something other than a colour |
| `Ui.WordSelectStoresNaN` | modules/ui.js:72-79 | a select whose value is a word stores NaN under an existing key |
| `Ui.NoColourWithoutC` | modules/ui.js:74 | an id with no capital `C` never takes the `includes('Color')` branch |
| `Ui.BlendModeBecomesNaN` | modules/ui.js:72-79 | choosing any blend mode whose name starts with a lower-case letter (such as "additive") stores NaN under `blendMode` |
| `Ui.ShippedSetsHaveBlendMode` | app.js:50 | every shipped set owns `blendMode` |
| `Ui.RangeStoresNumber` | modules/ui.js:72-79 | a slider's whole-number value is stored as that number |
| `Ui.RangeStoresDecimal` | modules/ui.js:72-79 | a slider's decimal value is stored as its decimal value |
| `Ui.EditSurvivesModeRoundTrip` | modules/ui.js:75-79 | an edit made in one mode is still there after switching away and back |
| `Ui.LabelText` | modules/ui.js:82-88 | a label reads the value followed by "s" for the three durations, the two-character degree sign for the spread angle, and nothing otherwise |
| `Ui.Suffix` | modules/ui.js:82-87 | the unit appended to a label; defined, with its values in `Ui.LabelText` |
| `Ui.ToggleControls` | modules/ui.js:102-115 | a toggle flips visibility and changes nothing else |
| `Ui.ToggleTwice` | modules/ui.js:104 | two toggles restore the panel |

## Left out

- Rendering is left out: the shader material, the point texture, the
  gradient sphere, the camera and its orbit, and `updateBlendMode`. These
  configure the renderer. The model stops at the buffer contents.
- `getWorldPosition` raycasting is left out; the world point under the
  pointer is an input.
- `ParticleSystem.Update`, `ParticleSystem.UpdateGeometry` and `App.Frame`
  require `Renderable`. This rules out the TypeError that `updateGeometry`
  throws when a drawn particle's set lacks `startColor` or `endColor`, so
  that throw is not modelled. The shipped sets carry both colours
  (`Params.ShippedSetsHaveColours`), and `Ui.EditKeepsColours` shows that
  parameter edits keep them. No single lemma chains these facts over every
  reachable state.
- DOM wiring is left out: `setupControls`, `updateModeUI`, the collapsible
  headers, the FPS and particle counters, and the toggle button's dimming.
  A label is always written, although the source skips a missing label
  element.
- Timers are left out: the 6 s reset of `gentleClear` and the UI dimming
  timers. They are wall-clock callbacks; a gentle clear is modelled up to
  setting the flag.
- The camera rotation in the multi-finger `touchmove` branch is left out.
  The branch's other effect, and that of the multi-finger `touchstart`
  branch, is modelled by `App.FingersDown`: both overwrite the recorded
  pointer position that the `touchend` tap test and burst read. Also left
  out: the `mousemove` glitch target, which the next `mousedown` overwrites
  before it is read, and the note-playback timestamps of the disabled audio
  code.
- Floating point is left out: numbers are exact reals plus NaN.
  - There are no infinities, signed zeros or rounding.
  - Typed-array stores do not round to 32 bits.
  - Division by zero gives NaN where JavaScript gives ±Infinity for a
    non-zero dividend.
  - `Math.PI` is the 16-digit decimal constant.
- Typed arrays too large to allocate are not modelled. `new
  Float32Array(n)` modelling covers NaN, truncation and the RangeError for
  negative lengths.
- `ParticleSystem.DirectionIsUnit`: holds for an exact sine/cosine pair,
  while `Math.sin` and `Math.cos` satisfy `sin² + cos² = 1` only up to
  rounding.
- `ParticleSystem.SpawnSpeed`: the same assumption on sine and cosine; the
  speed is otherwise unconstrained.
- `App.SnapForceLength`: assumes an exact square root, so the pull's length
  equals `snapSpeed` only up to rounding in the source.
- `App.TapBySquares`: assumes an exact square root; with `Math.sqrt`, the
  squared-movement form agrees only up to rounding at the 5-pixel boundary.
- `App.PressThenRelease`: the same square-root assumption as
  `App.TapBySquares`.
- `JsText.ParseFloat`: the `Infinity` literal is not read, because `Num`
  has no infinities; `parseFloat("Infinity")` and strings starting with a
  signed `Infinity` give NaN in the model.
- Numeric strings are not coerced: a string stored in a parameter object
  counts as NaN in arithmetic. The strings the application stores are
  words from the shipped sets and `#rrggbb` colour values, none numeric.
- `ParticleModel.SurvivesRunIff`: stated only for runs with no clearing
  clamp and non-negative steps; `ParticleModel.StepLife` covers the clamped
  step.

## Quirks

These behaviours of the code are modelled as written, and each has a lemma
that shows it. Several run against what the code's own comments or names
suggest (a "consistent" size, a gentle fade); the model follows the code.

- The glitch force model reads `anchorStrength` and `glitchJitter`. The
  glitch set defines `attractionForce` and `jitter` instead, so under the
  shipped glitch set every update turns velocity and position into NaN.
  Lemmas: `Params.GlitchSetLacksForceKeys`,
  `ParticleModel.GlitchSetPoisonsMotion`.
- The ghost-phase size multiplier
  `max(0.3, |lifeRatio| > 0 ? 1 : 1 + lifeRatio / ghostDuration)` is 1 for
  every non-zero ratio. At exactly 0 it is 1 as well, or NaN when the ghost
  duration is 0 or NaN, so particles never shrink. Lemma:
  `ParticleSystem.SizeMultiplierIsOne`.
- The colour factor `1 - lifeRatio / 0.3` is not clamped. In the zen ghost
  tail the ratio is negative, so the factor exceeds 1 and the lerp
  overshoots past the end colour. Lemma: `ParticleSystem.ColourFactorRange`.
- Zen alpha is not continuous at death. The fade tends to 0 as the ratio
  falls to 0, but at `life == 0` the ghost branch gives `0.6 * opacity`.
  Lemma: `ParticleModel.ZenAlphaJumpsAtDeath`.
- Every select value other than a colour goes through `parseFloat`. A
  blend-mode or shape choice therefore stores NaN. Lemmas:
  `Ui.WordSelectStoresNaN`, `Ui.BlendModeBecomesNaN`.
- The buffers are sized from `count` once, at construction. The geometry
  and clear loops run to the current `count`, and stores past a buffer's end
  are dropped. Raising `count` later draws nothing beyond the original
  length. Lemmas: `ParticleSystem.UpdateGeometry`, `ParticleSystem.Clear`.
- `clearParticles` zeroes positions and alphas only; colours and sizes keep
  their old values. Lemma: `ParticleSystem.Clear`.
- The capacity test is `length >= count`. A NaN `count` never stops
  emission, and a fractional `count` admits up to its ceiling. Lemmas:
  `ParticleSystem.EmitCapacity` (the NaN case) and
  `ParticleSystem.FractionalCountRoundsUp`.
- Emission directions take angle and elevation from two separate draws,
  each within `±spreadAngle/2` degrees. The headings fill a patch that is
  square in angle and elevation, not a cone. Lemmas:
  `ParticleSystem.SpawnShape` (the two draws) and `ParticleSystem.AimRange`
  (the range of each).
- The frame delta tests `lastTime` for truthiness, so a clock reading of
  exactly 0 counts as "no previous frame". Lemma: `App.FirstFrameIsStill`;
  this is also why `App.DeltasTelescope` needs non-zero readings.
- The degree suffix is written in the source as the two characters U+00C2
  U+00B0, a UTF-8 degree sign read as Latin-1. Lemma: `Ui.LabelText`.
- The throttle, tap burst and trail sizes read the application's
  `particleParams`. The capacity check inside `emit` reads the system's.
  The two agree whenever the handlers keep them consistent (lemma
  `App.HandlersKeepConsistent`), and the model keeps the two reads apart.
- A second finger overwrites the pointer position that the `touchend` tap
  test measures from, so a press dragged by a second finger can still
  count as a tap. Lemma: `App.SecondFingerResetsTapOrigin`.
