/** The application driver (app.js): the three parameter objects, the
    physics mode, the pointer handlers' emission logic and the frame clock.
    Rendering, the camera, raycasting and the DOM are outside the model:
    the world position under the pointer arrives as an input. */
module App {
  import opened JsNum
  import opened Params
  import opened ParticleModel
  import opened ParticleSystem

  /** The state shared by the pointer handlers (app.js:170-174): whether a
      press is in progress, the last recorded pointer position and the time
      the press started, in milliseconds. */
  datatype Pointer = Pointer(dragging: bool, x: real, y: real, startTime: real)

  /** `active` is `this.particleParams`; `lastEmission` is the throttle's
      `lastEmissionTime`; `lastTime` is the frame clock, `undefined` (None)
      before the first frame. */
  datatype App = App(
    physicsMode: string,
    sets: ParamSets,
    active: SetId,
    system: System,
    lastEmission: real,
    pointer: Pointer,
    lastTime: Option<real>)

  /** The application and the particle system read the same parameter object. */
  predicate Consistent(app: App) {
    app.active == app.system.params
  }

  /** The constructor and `init` (app.js:4-91, 94-105): zen mode, the
      shipped sets, and a system built on the zen set. */
  function Init(): (r: Option<App>)
    ensures r.Some? ==> Consistent(r.value) && r.value.physicsMode == "zen" && r.value.sets == ShippedSets()
  {
    match Create(ShippedSets(), ZenSet)
    case Some(sys) => Some(App("zen", ShippedSets(), ZenSet, sys, 0.0, Pointer(false, 0.0, 0.0, 0.0), None))
    case None => None
  }

  lemma ZenCount()
    ensures NumParam(ZenParams(), "count") == Real(30000.0)
  {
    assert BaseParams()["count"] == N(30000.0);
  }

  /** Start-up always succeeds: thirty thousand slots, ninety thousand
      position floats, and no particles yet. */
  lemma InitSucceeds()
    ensures var r := Init();
      && r.Some?
      && |r.value.system.buffers.sizes| == 30000
      && |r.value.system.buffers.positions| == 90000
      && r.value.system.particles == []
  {
    ZenCount();
    CreateSizes(ShippedSets(), ZenSet, 30000);
  }

  /** The set `switchMode` selects: strict comparison, zen otherwise. */
  function SetFor(mode: string): (id: SetId)
    ensures id == FluidSet <==> mode == "fluid"
    ensures id == GlitchSet <==> mode == "glitch"
    ensures id == ZenSet <==> mode != "fluid" && mode != "glitch"
  {
    if mode == "fluid" then FluidSet
    else if mode == "glitch" then GlitchSet
    else ZenSet
  }

  /** `switchMode(mode)` (app.js:117-141): swap in the selected object by
      reference, install it on the system and clear the particles. */
  function SwitchMode(app: App, mode: string): (r: App)
    ensures r.physicsMode == mode && r.active == SetFor(mode) && Consistent(r)
    ensures r.sets == app.sets
    ensures r.system.particles == []
    ensures r.system.buffers.colors == app.system.buffers.colors && r.system.buffers.sizes == app.system.buffers.sizes
    ensures r.lastEmission == app.lastEmission && r.pointer == app.pointer && r.lastTime == app.lastTime
  {
    var id := SetFor(mode);
    app.(physicsMode := mode, active := id, system := Clear(app.system.(params := id), app.sets))
  }

  /** Switching away and back returns the very same parameter object,
      with every edit made to it before intact, and an empty system. */
  lemma SwitchRoundTrip(app: App, away: string, back: string)
    ensures var r := SwitchMode(SwitchMode(app, away), back);
      && r.sets == app.sets
      && r.sets.Get(r.active) == app.sets.Get(SetFor(back))
      && (SetFor(back) == app.active ==> r.sets.Get(r.active) == app.sets.Get(app.active))
      && r.system.particles == []
  {
  }

  /** `target.clone().sub(position).normalize().multiplyScalar(snapSpeed)` */
  function SnapForce(target: Vec3, position: Vec3, snap: Num, sqrt: real -> real): Vec3 {
    VScale(Normalize(VSub(target, position), sqrt), snap)
  }

  /** The per-particle body of `applyGlitchForce`: a strict radius test. */
  function Nudge(pt: Particle, target: Vec3, radiusSq: Num, snap: Num, sqrt: real -> real): Particle {
    if Lt(DistSq(pt.position, target), radiusSq) then
      pt.(velocity := VAdd(pt.velocity, SnapForce(target, pt.position, snap, sqrt)))
    else pt
  }

  /** `applyGlitchForce(target)` (app.js:408-421). */
  function ApplyGlitchForce(app: App, target: Vec3, sqrt: real -> real): (r: App)
    ensures app.physicsMode != "glitch" ==> r == app
    ensures r.(system := app.system) == app && r.system.(particles := app.system.particles) == app.system
    ensures |r.system.particles| == |app.system.particles|
    ensures forall i :: 0 <= i < |app.system.particles| ==>
      r.system.particles[i] == app.system.particles[i].(velocity := r.system.particles[i].velocity)
    ensures forall i :: 0 <= i < |app.system.particles| ==>
      (!Lt(DistSq(app.system.particles[i].position, target), RadiusSq(app.sets.Get(app.active))) ==>
         r.system.particles[i] == app.system.particles[i])
    ensures app.physicsMode == "glitch" ==>
      var p := app.sets.Get(app.active);
      forall i :: 0 <= i < |app.system.particles| && Lt(DistSq(app.system.particles[i].position, target), RadiusSq(p)) ==>
        r.system.particles[i].velocity ==
          VAdd(app.system.particles[i].velocity, SnapForce(target, app.system.particles[i].position, NumParam(p, "snapSpeed"), sqrt))
  {
    if app.physicsMode != "glitch" then app
    else
      var p := app.sets.Get(app.active);
      var ps := app.system.particles;
      app.(system := app.system.(particles :=
        seq(|ps|, i requires 0 <= i < |ps| => Nudge(ps[i], target, RadiusSq(p), NumParam(p, "snapSpeed"), sqrt))))
  }

  /** `influenceRadius * influenceRadius` */
  function RadiusSq(p: Params): Num {
    Mul(NumParam(p, "influenceRadius"), NumParam(p, "influenceRadius"))
  }

  /** A particle exactly on the influence sphere is not pulled. */
  lemma GlitchRadiusIsStrict(pt: Particle, target: Vec3, radius: real, snap: Num, sqrt: real -> real)
    requires DistSq(pt.position, target) == Real(radius * radius)
    ensures Nudge(pt, target, Mul(Real(radius), Real(radius)), snap, sqrt) == pt
  {
  }

  /** Given a square root, the pull on a real particle at a positive distance
      from a real target has length `snapSpeed`: its squared length is
      `snapSpeed²`. */
  lemma SnapForceLength(target: Vec3, position: Vec3, snap: real, sqrt: real -> real)
    requires IsSqrt(sqrt)
    requires IsReal(target) && IsReal(position) && DistSq(target, position) != Zero
    ensures LenSq(SnapForce(target, position, Real(snap), sqrt)) == Real(snap * snap)
  {
    var d := VSub(target, position);
    NormalizeIsUnit(d, sqrt);
    var u := Normalize(d, sqrt);
    assert IsReal(u);
    LenSqScale(u, Real(snap));
    MulReal(snap, snap);
  }

  /** `emitAtPosition(worldPos)` (app.js:236-245) at clock reading `now`:
      more than 50 ms after the last emission, request
      `min(trailDensity, emissionRate)` particles and restart the throttle. */
  function EmitAtPosition(app: App, world: Vec3, now: real, rand: nat -> real, trig: Trig): (r: App)
    ensures !(now - app.lastEmission > 50.0) ==> r == app
    ensures now - app.lastEmission > 50.0 ==>
      var p := app.sets.Get(app.active);
      && r == app.(system := r.system, lastEmission := now)
      && r.system == Emitted(app.system, app.sets, Min(NumParam(p, "trailDensity"), NumParam(p, "emissionRate")), world, rand, trig)
  {
    if now - app.lastEmission > 50.0 then
      var p := app.sets.Get(app.active);
      var burst := Min(NumParam(p, "trailDensity"), NumParam(p, "emissionRate"));
      app.(system := Emitted(app.system, app.sets, burst, world, rand, trig), lastEmission := now)
    else app
  }

  /** Two calls of `emitAtPosition` no more than 50 ms apart emit at most
      once: the second finds the throttle closed. */
  lemma ThrottleSpacing(app: App, w1: Vec3, w2: Vec3, t1: real, t2: real, rand1: nat -> real, rand2: nat -> real, trig: Trig)
    requires t1 - app.lastEmission > 50.0 && t2 - t1 <= 50.0
    ensures var once := EmitAtPosition(app, w1, t1, rand1, trig);
      EmitAtPosition(once, w2, t2, rand2, trig) == once
  {
  }

  /** Under the shipped sets a trail burst asks for 33 particles
      (`trailDensity` 33 is below `emissionRate` 69). */
  lemma ZenTrailBurst()
    ensures Min(NumParam(ZenParams(), "trailDensity"), NumParam(ZenParams(), "emissionRate")) == Real(33.0)
  {
  }

  /** The tap classifier of `mouseup` and `touchend` (app.js:288-293,
      361-367): shorter than 300 ms and moved less than 5 pixels. */
  predicate IsTap(duration: real, dx: real, dy: real, sqrt: real -> real) {
    duration < 300.0 && sqrt(dx * dx + dy * dy) < 5.0
  }

  /** With a real square root, a tap is a press under 300 ms whose squared
      movement is under 25. */
  lemma TapBySquares(duration: real, dx: real, dy: real, sqrt: real -> real)
    requires IsSqrt(sqrt)
    ensures IsTap(duration, dx, dy, sqrt) <==> duration < 300.0 && dx * dx + dy * dy < 25.0
  {
    var q := dx * dx + dy * dy;
    SquareSign(dx);
    SquareSign(dy);
    var m := sqrt(q);
    assert m >= 0.0 && m * m == q;
    if m < 5.0 {
      assert m * m <= m * 5.0 by { NonNegativeProduct(m, 5.0 - m); }
    } else {
      assert m * m >= 25.0 by { NonNegativeProduct(m - 5.0, m + 5.0); }
    }
  }

  /** A single-finger `touchstart` (app.js:310-315): start a press at
      `(x, y)` at clock reading `now`, and nothing else. */
  function Press(app: App, x: real, y: real, now: real): (r: App)
    ensures r.pointer == Pointer(true, x, y, now)
    ensures r.(pointer := app.pointer) == app
  {
    app.(pointer := Pointer(true, x, y, now))
  }

  /** `mousedown` (app.js:267-283): a press that, in glitch mode, also pulls
      particles towards the world point under the pointer. */
  function MouseDown(app: App, x: real, y: real, now: real, world: Vec3, sqrt: real -> real): (r: App)
    ensures r.pointer == Pointer(true, x, y, now)
    ensures r.sets == app.sets && r.active == app.active && r.physicsMode == app.physicsMode
    ensures |r.system.particles| == |app.system.particles|
    ensures app.physicsMode != "glitch" ==> r == Press(app, x, y, now)
    ensures app.physicsMode == "glitch" ==> r == ApplyGlitchForce(Press(app, x, y, now), world, sqrt)
  {
    var pressed := Press(app, x, y, now);
    if app.physicsMode == "glitch" then ApplyGlitchForce(pressed, world, sqrt) else pressed
  }

  /** A single-finger `touchmove` while pressed (app.js:326-340): a
      throttled trail emission, then the recorded position follows the finger. */
  function TouchMove(app: App, x: real, y: real, now: real, world: Vec3, rand: nat -> real, trig: Trig): (r: App)
    ensures !app.pointer.dragging ==> r == app
    ensures app.pointer.dragging ==> r.pointer == app.pointer.(x := x, y := y)
    ensures app.pointer.dragging ==>
      r.system == EmitAtPosition(app, world, now, rand, trig).system
    ensures app.pointer.dragging ==>
      r.(pointer := app.pointer) == EmitAtPosition(app, world, now, rand, trig)
  {
    if app.pointer.dragging then
      EmitAtPosition(app, world, now, rand, trig).(pointer := app.pointer.(x := x, y := y))
    else app
  }

  /** `mousemove` (app.js:251-252): a trail only in fluid mode while pressed. */
  function MouseMove(app: App, world: Vec3, now: real, rand: nat -> real, trig: Trig): (r: App)
    ensures app.physicsMode == "fluid" && app.pointer.dragging ==> r == EmitAtPosition(app, world, now, rand, trig)
    ensures !(app.physicsMode == "fluid" && app.pointer.dragging) ==> r == app
  {
    if app.physicsMode == "fluid" && app.pointer.dragging then EmitAtPosition(app, world, now, rand, trig) else app
  }

  /** `mouseup` and the last finger's `touchend` (app.js:285-304, 357-377):
      a press ends, and a tap bursts `burstSize` particles at the world point
      of the recorded position. */
  function Release(app: App, x: real, y: real, now: real, world: Vec3, rand: nat -> real, trig: Trig, sqrt: real -> real): (r: App)
    ensures !app.pointer.dragging ==> r == app
    ensures app.pointer.dragging ==> !r.pointer.dragging && r.sets == app.sets && r.lastEmission == app.lastEmission
    ensures app.pointer.dragging ==> r.(system := app.system) == app.(pointer := app.pointer.(dragging := false))
    ensures app.pointer.dragging && !IsTap(now - app.pointer.startTime, x - app.pointer.x, y - app.pointer.y, sqrt) ==>
      r.system == app.system
    ensures app.pointer.dragging && IsTap(now - app.pointer.startTime, x - app.pointer.x, y - app.pointer.y, sqrt) ==>
      r.system == Emitted(app.system, app.sets, NumParam(app.sets.Get(app.active), "burstSize"), world, rand, trig)
  {
    if !app.pointer.dragging then app
    else
      var released := app.(pointer := app.pointer.(dragging := false));
      if IsTap(now - app.pointer.startTime, x - app.pointer.x, y - app.pointer.y, sqrt) then
        var burst := NumParam(app.sets.Get(app.active), "burstSize");
        released.(system := Emitted(app.system, app.sets, burst, world, rand, trig))
      else released
  }

  /** A press at `(x, y)` released at `(x + dx, y + dy)`: the press always
      ends, and the burst is emitted exactly when the press lasted under
      300 ms and moved under 5 pixels (squared movement under 25). */
  lemma PressThenRelease(app: App, x: real, y: real, t0: real, dx: real, dy: real, t1: real,
                         world: Vec3, rand: nat -> real, trig: Trig, sqrt: real -> real)
    requires IsSqrt(sqrt)
    ensures var r := Release(Press(app, x, y, t0), x + dx, y + dy, t1, world, rand, trig, sqrt);
      && !r.pointer.dragging && r.sets == app.sets
      && (t1 - t0 < 300.0 && dx * dx + dy * dy < 25.0 ==>
            r.system == Emitted(app.system, app.sets, NumParam(app.sets.Get(app.active), "burstSize"), world, rand, trig))
      && (!(t1 - t0 < 300.0 && dx * dx + dy * dy < 25.0) ==> r.system == app.system)
  {
    TapBySquares(t1 - t0, dx, dy, sqrt);
    assert x + dx - x == dx && y + dy - y == dy;
  }

  /** A `touchstart` or `touchmove` with two or more fingers (app.js:316-320
      and 341-353): the recorded pointer position becomes the first finger's,
      whether or not a press is under way; the press flag and start time are
      kept. The camera rotation the move branch also applies is not modelled. */
  function FingersDown(app: App, x: real, y: real): (r: App)
    ensures r.pointer == app.pointer.(x := x, y := y)
    ensures r.(pointer := app.pointer) == app
  {
    app.(pointer := app.pointer.(x := x, y := y))
  }

  /** Because a second finger overwrites the recorded position, the release
      test measures movement from wherever the first finger last was: a
      press that a second finger drags to `(x2, y2)`, lifted there within
      300 ms, bursts, however far `(x2, y2)` is from the press point. */
  lemma SecondFingerResetsTapOrigin(app: App, x: real, y: real, t0: real, x2: real, y2: real, t1: real,
                                    world: Vec3, rand: nat -> real, trig: Trig, sqrt: real -> real)
    requires IsSqrt(sqrt)
    requires t1 - t0 < 300.0
    ensures var r := Release(FingersDown(Press(app, x, y, t0), x2, y2), x2, y2, t1, world, rand, trig, sqrt);
      && !r.pointer.dragging
      && r.system == Emitted(app.system, app.sets, NumParam(app.sets.Get(app.active), "burstSize"), world, rand, trig)
  {
    TapBySquares(t1 - t0, 0.0, 0.0, sqrt);
    assert x2 - x2 == 0.0 && y2 - y2 == 0.0;
  }

  /** A quick, still click on the shipped zen set with room to spare adds
      the whole burst of 99 particles. */
  lemma TapBurstsNinetyNine(app: App, x: real, y: real, now: real, world: Vec3, rand: nat -> real, trig: Trig, sqrt: real -> real)
    requires IsSqrt(sqrt)
    requires Consistent(app) && app.sets.Get(app.active) == ZenParams()
    requires app.pointer.dragging && app.pointer.x == x && app.pointer.y == y && now - app.pointer.startTime < 300.0
    requires |app.system.particles| + 99 <= 30000
    ensures |Release(app, x, y, now, world, rand, trig, sqrt).system.particles| == |app.system.particles| + 99
  {
    TapBySquares(now - app.pointer.startTime, 0.0, 0.0, sqrt);
    ZenCount();
    assert NumParam(ZenParams(), "burstSize") == Real(99 as real);
    EmitCount(99, 30000, |app.system.particles|);
  }

  /** Every handler leaves the application and its system reading the
      same parameter object. */
  lemma HandlersKeepConsistent(app: App, mode: string, x: real, y: real, now: real, world: Vec3, rand: nat -> real, trig: Trig, sqrt: real -> real)
    requires Consistent(app)
    ensures Consistent(SwitchMode(app, mode))
    ensures Consistent(ApplyGlitchForce(app, world, sqrt))
    ensures Consistent(EmitAtPosition(app, world, now, rand, trig))
    ensures Consistent(Press(app, x, y, now))
    ensures Consistent(MouseDown(app, x, y, now, world, sqrt))
    ensures Consistent(TouchMove(app, x, y, now, world, rand, trig))
    ensures Consistent(MouseMove(app, world, now, rand, trig))
    ensures Consistent(Release(app, x, y, now, world, rand, trig, sqrt))
    ensures Consistent(FingersDown(app, x, y))
  {
  }

  /** Emission never takes a list that is within capacity past it. */
  lemma EmissionKeepsCapacity(app: App, x: real, y: real, now: real, world: Vec3, rand: nat -> real, trig: Trig, sqrt: real -> real)
    requires NumParam(app.sets.Get(app.system.params), "count").Real?
    requires |app.system.particles| <= Slots(NumParam(app.sets.Get(app.system.params), "count"))
    ensures var cap := Slots(NumParam(app.sets.Get(app.system.params), "count"));
      && |EmitAtPosition(app, world, now, rand, trig).system.particles| <= cap
      && |Release(app, x, y, now, world, rand, trig, sqrt).system.particles| <= cap
  {
    var (p, a) := (app.sets.Get(app.system.params), app.sets.Get(app.active));
    EmitCapacity(Min(NumParam(a, "trailDensity"), NumParam(a, "emissionRate")), NumParam(p, "count"), |app.system.particles|);
    EmitCapacity(NumParam(a, "burstSize"), NumParam(p, "count"), |app.system.particles|);
  }

  /** `deltaTime` in `animate` (app.js:428-429), in seconds: zero while
      `lastTime` is unset or zero, the elapsed milliseconds over 1000 after. */
  function FrameDelta(lastTime: Option<real>, now: real): real {
    (if lastTime.Some? && lastTime.value != 0.0 then now - lastTime.value else 0.0) / 1000.0
  }

  /** The first frame advances the simulation by nothing, and so does a
      frame after one whose clock read exactly 0: `lastTime` is checked for
      truthiness, so 0 counts as unset. */
  lemma FirstFrameIsStill(now: real)
    ensures FrameDelta(None, now) == 0.0
    ensures FrameDelta(Some(0.0), now) == 0.0
  {
  }

  /** The deltas of a run of frames at clock readings `times`, the first
      one after the frame at `lastTime`. */
  function Deltas(lastTime: Option<real>, times: seq<real>): seq<real>
    decreases |times|
  {
    if times == [] then [] else [FrameDelta(lastTime, times[0])] + Deltas(Some(times[0]), times[1..])
  }

  function Sum(xs: seq<real>): real
    decreases |xs|
  {
    if xs == [] then 0.0 else xs[0] + Sum(xs[1..])
  }

  predicate NonZero(times: seq<real>) {
    forall k :: 0 <= k < |times| ==> times[k] != 0.0
  }

  /** Frame deltas telescope: from the first frame on, as long as no clock
      reading is exactly zero, they add up to the elapsed seconds between
      the first and the last frame. */
  lemma {:induction false} DeltasTelescope(lastTime: Option<real>, times: seq<real>)
    requires times != [] && NonZero(times)
    requires lastTime.Some? ==> lastTime.value != 0.0
    ensures Sum(Deltas(lastTime, times)) ==
      FrameDelta(lastTime, times[0]) + (times[|times| - 1] - times[0]) / 1000.0
    decreases |times|
  {
    if |times| > 1 {
      var rest := times[1..];
      assert NonZero(rest) by {
        forall k | 0 <= k < |rest| ensures rest[k] != 0.0 {
          assert rest[k] == times[k + 1];
        }
      }
      DeltasTelescope(Some(times[0]), rest);
      assert rest[|rest| - 1] == times[|times| - 1];
    } else {
      assert Deltas(Some(times[0]), times[1..]) == [];
    }
  }

  /** One `animate` frame (app.js:423-434) at clock reading `now`: the
      system advances by the frame delta and the clock is recorded. */
  method Frame(app: App, now: real, envs: nat -> StepEnv, trig: Trig, pow: real -> real) returns (r: App, dt: real)
    requires var d := FrameDelta(app.lastTime, now);
      Renderable(Survivors(Advance(app.system.particles, app.sets, d, envs, trig)), app.sets.Get(app.system.params))
    ensures dt == FrameDelta(app.lastTime, now)
    ensures r.lastTime == Some(now) && r.sets == app.sets && r.active == app.active
    ensures r == app.(system := r.system, lastTime := Some(now))
    ensures r.system.params == app.system.params
    ensures r.system.particles == Survivors(Advance(app.system.particles, app.sets, dt, envs, trig))
    ensures Rendered(app.system.buffers, r.system.buffers, r.system.particles, app.sets, app.system.params, pow,
                     Slots(NumParam(app.sets.Get(app.system.params), "count")))
  {
    dt := FrameDelta(app.lastTime, now);
    var sys := Update(app.system, app.sets, dt, envs, trig, pow);
    r := app.(system := sys, lastTime := Some(now));
  }
}
