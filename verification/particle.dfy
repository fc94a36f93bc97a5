/** One particle's kinematic state and life cycle (modules/particle.js).
    A particle is an immutable record; `Step` is one call of `update`, and
    the clock, `Math.random`, `Math.sin`/`Math.cos` and `Math.pow(., 0.33)`
    arrive as explicit inputs. */
module ParticleModel {
  import opened JsNum
  import opened Params

  /** `Math.sin` and `Math.cos`. */
  datatype Trig = Trig(sin: real -> real, cos: real -> real)

  /** What one `update` call reads from outside: `Date.now()` in milliseconds
      and the three `Math.random()` draws the fluid and glitch models consume
      for the x, y and z jitter (the zen model draws none). */
  datatype StepEnv = StepEnv(now: real, rx: real, ry: real, rz: real)

  /** `clearStartLife` is `null` until clearing starts. `params` is the
      identity of the parameter object the particle was created with: every
      later `update` reads that object, whatever it holds by then. */
  datatype Particle = Particle(
    position: Vec3,
    velocity: Vec3,
    life: Num,
    maxLife: Num,
    size: Num,
    turbulenceOffset: Num,
    clearing: bool,
    clearStartLife: Option<Num>,
    params: SetId)

  /** The result of `update`: the advanced particle and whether it is still alive. */
  datatype Outcome = Outcome(particle: Particle, alive: bool)

  /** The Particle constructor, given the two `Math.random()` draws it makes
      (for the size variation and for the turbulence phase). */
  function New(position: Vec3, velocity: Vec3, p: Params, id: SetId, rSize: real, rPhase: real): (pt: Particle)
    ensures pt.life == pt.maxLife == NumParam(p, "lifespan")
    ensures !pt.clearing && pt.clearStartLife == None
    ensures pt.position == position && pt.velocity == velocity && pt.params == id
    ensures pt.turbulenceOffset.Real?
  {
    Particle(
      position,
      velocity,
      NumParam(p, "lifespan"),
      NumParam(p, "lifespan"),
      Add(NumParam(p, "size"), Mul(Sub(Real(rSize), Real(0.5)), NumParam(p, "sizeVariation"))),
      Real(rPhase * 1000.0),
      false,
      None,
      id)
  }

  /** A new particle's size lies within half the size variation of the base
      size, and a new particle with a non-zero lifespan has life ratio one. */
  lemma NewParticleShape(position: Vec3, velocity: Vec3, p: Params, id: SetId, rSize: real, rPhase: real,
                         base: real, variation: real, lifespan: real)
    requires 0.0 <= rSize < 1.0
    requires NumParam(p, "size") == Real(base) && NumParam(p, "sizeVariation") == Real(variation)
    requires variation >= 0.0
    requires NumParam(p, "lifespan") == Real(lifespan) && lifespan != 0.0
    ensures var pt := New(position, velocity, p, id, rSize, rPhase);
      && pt.size.Real?
      && base - variation / 2.0 <= pt.size.r <= base + variation / 2.0
      && LifeRatio(pt) == One
  {
    var pt := New(position, velocity, p, id, rSize, rPhase);
    HalfSpread(rSize - 0.5, variation);
    DivSelf(lifespan);
  }

  /** An offset within half a unit of zero, scaled by a non-negative amount,
      stays within half that amount of zero. */
  lemma HalfSpread(d: real, v: real)
    requires -0.5 <= d < 0.5 && v >= 0.0
    ensures Mul(Real(d), Real(v)).Real? && -v / 2.0 <= Mul(Real(d), Real(v)).r <= v / 2.0
  {
    NonNegativeProduct(d + 0.5, v);
    NonNegativeProduct(0.5 - d, v);
  }

  /** The one-shot clearing transition at the head of `update`
      (modules/particle.js:16-20). */
  function EnterClearing(pt: Particle, p: Params): (q: Particle)
    ensures q.clearing <==> pt.clearing || TruthyParam(p, "clearingMode")
    ensures pt.clearing || !TruthyParam(p, "clearingMode") ==> q == pt
    ensures !pt.clearing && TruthyParam(p, "clearingMode") ==>
      q == pt.(clearing := true, clearStartLife := Some(pt.life), life := Min(pt.life, Real(5.0)))
  {
    if TruthyParam(p, "clearingMode") && !pt.clearing then
      pt.(clearing := true, clearStartLife := Some(pt.life), life := Min(pt.life, Real(5.0)))
    else
      pt
  }

  /** Clearing is entered at most once: a second application changes nothing,
      and the clamp leaves at most five seconds of life, never more than before. */
  lemma ClearingIsOneShot(pt: Particle, p: Params)
    ensures EnterClearing(EnterClearing(pt, p), p) == EnterClearing(pt, p)
    ensures pt.life.Real? ==> EnterClearing(pt, p).life.Real? && EnterClearing(pt, p).life.r <= pt.life.r
    ensures pt.life.Real? && !pt.clearing && TruthyParam(p, "clearingMode") ==>
      EnterClearing(pt, p).life.r <= 5.0
  {
  }

  /** The sine and cosine turbulence (or swirl) terms of one particle at clock
      reading `time` seconds: `sin(time + offset)` and `cos(time + 1.1 * offset)`. */
  function SinTerm(trig: Trig, time: real, offset: Num): Num {
    Apply(trig.sin, Add(Real(time), offset))
  }

  function CosTerm(trig: Trig, time: real, offset: Num): Num {
    Apply(trig.cos, Add(Real(time), Mul(offset, Real(1.1))))
  }

  /** `(Math.random() - 0.5) * coefficient * deltaTime` */
  function Jitter(r: real, coefficient: Num, dt: real): Num {
    Mul(Mul(Sub(Real(r), Real(0.5)), coefficient), Real(dt))
  }

  /** The turbulence (zen) or swirl (fluid) terms: `sin(time + offset) * c * dt`
      added to x and `cos(time + 1.1 * offset) * c * dt` added to z. */
  function Swirl(v: Vec3, c: Num, dt: real, time: real, offset: Num, trig: Trig): Vec3 {
    v.(x := Add(v.x, Mul(Mul(SinTerm(trig, time, offset), c), Real(dt))),
       z := Add(v.z, Mul(Mul(CosTerm(trig, time, offset), c), Real(dt))))
  }

  /** `velocity.y += coefficient * dt` */
  function Lift(v: Vec3, coefficient: Num, dt: real): Vec3 {
    v.(y := Add(v.y, Mul(coefficient, Real(dt))))
  }

  /** `velocity.multiplyScalar(1 - loss * dt)` */
  function Drag(v: Vec3, loss: Num, dt: real): Vec3 {
    VScale(v, Sub(One, Mul(loss, Real(dt))))
  }

  /** The zen wind: `(windX, windY, windZ) * dt` added component-wise. */
  function Wind(v: Vec3, p: Params, dt: real): Vec3 {
    var d := Real(dt);
    Vec3(Add(v.x, Mul(NumParam(p, "windX"), d)),
         Add(v.y, Mul(NumParam(p, "windY"), d)),
         Add(v.z, Mul(NumParam(p, "windZ"), d)))
  }

  /** Independent random jitter `(r - 0.5) * coefficient * dt` on each axis. */
  function Scatter(v: Vec3, coefficient: Num, dt: real, env: StepEnv): Vec3 {
    Vec3(Add(v.x, Jitter(env.rx, coefficient, dt)),
         Add(v.y, Jitter(env.ry, coefficient, dt)),
         Add(v.z, Jitter(env.rz, coefficient, dt)))
  }

  /** The zen force model, also used for every mode string other than
      "fluid" and "glitch" (modules/particle.js:52-61): gravity, then air
      resistance, then wind, then turbulence. */
  function ZenForce(v: Vec3, p: Params, dt: real, time: real, offset: Num, trig: Trig): Vec3 {
    var lifted := Lift(v, NumParam(p, "gravity"), dt);
    var dragged := Drag(lifted, NumParam(p, "airResistance"), dt);
    Swirl(Wind(dragged, p, dt), NumParam(p, "turbulence"), dt, time, offset, trig)
  }

  /** The fluid force model (modules/particle.js:25-33): buoyancy, then
      viscous drag `1 - (1 - viscosity) * dt`, then diffusion, then swirl. */
  function FluidForce(v: Vec3, p: Params, dt: real, time: real, offset: Num, env: StepEnv, trig: Trig): Vec3 {
    var lifted := Lift(v, NumParam(p, "buoyancy"), dt);
    var dragged := Drag(lifted, Sub(One, NumParam(p, "viscosity")), dt);
    var diffused := Scatter(dragged, NumParam(p, "diffusionRate"), dt, env);
    Swirl(diffused, NumParam(p, "swirlIntensity"), dt, time, offset, trig)
  }

  /** The glitch force model (modules/particle.js:36-47): a pull towards the
      world origin, jitter, then damping. It reads `anchorStrength` and
      `glitchJitter`. */
  function GlitchForce(v: Vec3, position: Vec3, p: Params, dt: real, env: StepEnv): Vec3 {
    var anchored := VAdd(v, VScale(VNeg(position), Mul(NumParam(p, "anchorStrength"), Real(dt))));
    var jittered := Scatter(anchored, NumParam(p, "glitchJitter"), dt, env);
    VScale(jittered, NumParam(p, "damping"))
  }

  /** The mode switch (modules/particle.js:24-63): strict string comparison,
      with every other value falling through to the zen model. */
  function Force(pt: Particle, p: Params, dt: real, env: StepEnv, trig: Trig): Vec3 {
    var time := env.now * 0.001;
    if TextIs(p, "mode", "fluid") then FluidForce(pt.velocity, p, dt, time, pt.turbulenceOffset, env, trig)
    else if TextIs(p, "mode", "glitch") then GlitchForce(pt.velocity, pt.position, p, dt, env)
    else ZenForce(pt.velocity, p, dt, time, pt.turbulenceOffset, trig)
  }

  /** The expiry test (modules/particle.js:68-73): only the exact mode "zen"
      keeps a particle through its ghost tail. */
  predicate Survives(life: Num, p: Params) {
    if TextIs(p, "mode", "zen") then Gt(life, Neg(NumParam(p, "ghostDuration")))
    else Gt(life, Zero)
  }

  /** `update(deltaTime)` (modules/particle.js:15-74). */
  function Step(pt: Particle, p: Params, dt: real, env: StepEnv, trig: Trig): (o: Outcome)
    ensures var c := EnterClearing(pt, p);
      && o.particle.velocity == Force(c, p, dt, env, trig)
      && o.particle.position == VAdd(c.position, VScale(o.particle.velocity, Real(dt)))
      && o.particle.life == Sub(c.life, Real(dt))
      && o.particle.(position := c.position, velocity := c.velocity, life := c.life) == c
    ensures o.alive <==> Survives(o.particle.life, p)
  {
    var c := EnterClearing(pt, p);
    var v := Force(c, p, dt, env, trig);
    var q := c.(velocity := v, position := VAdd(c.position, VScale(v, Real(dt))), life := Sub(c.life, Real(dt)));
    Outcome(q, Survives(q.life, p))
  }

  /** Each update lowers a real life by exactly `deltaTime`, after the
      one-shot clamp to five seconds when clearing starts; the value of
      life when clearing started is recorded once and never overwritten. */
  lemma StepLife(pt: Particle, p: Params, dt: real, env: StepEnv, trig: Trig)
    requires pt.life.Real?
    ensures var q := Step(pt, p, dt, env, trig).particle;
      && q.life.Real?
      && (pt.clearing || !TruthyParam(p, "clearingMode") ==>
            q.life.r == pt.life.r - dt && q.clearStartLife == pt.clearStartLife && q.clearing == pt.clearing)
      && (!pt.clearing && TruthyParam(p, "clearingMode") ==>
            q.clearing && q.clearStartLife == Some(pt.life)
            && q.life.r == (if pt.life.r < 5.0 then pt.life.r else 5.0) - dt)
  {
  }

  /** Expiry depends only on the mode string: "zen" keeps a particle while its
      life is above minus the ghost duration, and every other value, including
      strings the force switch sends to the zen model, while it is positive. */
  lemma ExpiryByMode(pt: Particle, p: Params, dt: real, env: StepEnv, trig: Trig)
    requires pt.life.Real?
    ensures var o := Step(pt, p, dt, env, trig);
      && (TextIs(p, "mode", "zen") && NumParam(p, "ghostDuration").Real? ==>
            (o.alive <==> o.particle.life.r > -NumParam(p, "ghostDuration").r))
      && (TextIs(p, "mode", "zen") && NumParam(p, "ghostDuration").NaN? ==> !o.alive)
      && (!TextIs(p, "mode", "zen") ==> (o.alive <==> o.particle.life.r > 0.0))
      && (!TextIs(p, "mode", "zen") && !TextIs(p, "mode", "fluid") && !TextIs(p, "mode", "glitch") ==>
            o.particle.velocity == ZenForce(EnterClearing(pt, p).velocity, p, dt, env.now * 0.001, pt.turbulenceOffset, trig))
  {
    StepLife(pt, p, dt, env, trig);
  }

  /** With no buoyancy, viscosity one, no diffusion and no swirl, the fluid
      model leaves the velocity as it was. */
  lemma FluidNoOp(v: Vec3, p: Params, dt: real, time: real, offset: Num, env: StepEnv, trig: Trig)
    requires offset.Real?
    requires NumParam(p, "buoyancy") == Zero && NumParam(p, "viscosity") == One
    requires NumParam(p, "diffusionRate") == Zero && NumParam(p, "swirlIntensity") == Zero
    ensures FluidForce(v, p, dt, time, offset, env, trig) == v
  {
  }

  /** Glitch damping of zero stops a real particle dead, whatever its prior
      velocity, its position, the anchor strength or the jitter draws. */
  lemma GlitchZeroDampingStops(v: Vec3, position: Vec3, p: Params, dt: real, env: StepEnv)
    requires IsReal(v) && IsReal(position)
    requires NumParam(p, "anchorStrength").Real? && NumParam(p, "glitchJitter").Real?
    requires NumParam(p, "damping") == Zero
    ensures GlitchForce(v, position, p, dt, env) == Origin
  {
  }

  /** Under the shipped glitch parameter set the anchor and jitter
      coefficients are missing, so one update turns every velocity component
      into NaN, and the position with it. */
  lemma GlitchSetPoisonsMotion(pt: Particle, dt: real, env: StepEnv, trig: Trig)
    ensures var q := Step(pt, GlitchParams(), dt, env, trig).particle;
      q.velocity == Vec3(NaN, NaN, NaN) && q.position == Vec3(NaN, NaN, NaN)
  {
    GlitchSetLacksForceKeys();
    assert TextIs(GlitchParams(), "mode", "glitch");
    assert !TextIs(GlitchParams(), "mode", "fluid");
  }

  /** Zen order of operations: gravity joins the vertical velocity before the
      air-resistance factor `keep = 1 - airResistance * dt` scales it, and
      wind is added after the scaling. Without turbulence the step is exactly
      this affine map; `lifted` names the vertical velocity after gravity. */
  lemma ZenOrder(v: Vec3, p: Params, dt: real, time: real, offset: Num, trig: Trig,
                 g: real, air: real, wx: real, wy: real, wz: real, keep: real, lifted: real)
    requires IsReal(v) && offset.Real?
    requires NumParam(p, "gravity") == Real(g) && NumParam(p, "airResistance") == Real(air)
    requires NumParam(p, "windX") == Real(wx) && NumParam(p, "windY") == Real(wy) && NumParam(p, "windZ") == Real(wz)
    requires NumParam(p, "turbulence") == Zero
    requires keep == 1.0 - air * dt && lifted == v.y.r + g * dt
    ensures ZenForce(v, p, dt, time, offset, trig) ==
      Vec3(Real(v.x.r * keep + wx * dt), Real(lifted * keep + wy * dt), Real(v.z.r * keep + wz * dt))
  {
    assert v == Vec3(Real(v.x.r), Real(v.y.r), Real(v.z.r));
    LiftStep(v.x, v.y, v.z, g, dt);
    var up := Vec3(v.x, Real(lifted), v.z);
    assert Lift(v, NumParam(p, "gravity"), dt) == up;
    DragStep(v.x, Real(lifted), v.z, air, dt, keep);
    MulReal(v.x.r, keep);
    MulReal(lifted, keep);
    MulReal(v.z.r, keep);
    var dragged := Vec3(Real(v.x.r * keep), Real(lifted * keep), Real(v.z.r * keep));
    assert Drag(up, NumParam(p, "airResistance"), dt) == dragged;
    WindStep(dragged.x, dragged.y, dragged.z, p, dt, wx, wy, wz);
    var blown := Vec3(Real(v.x.r * keep + wx * dt), Real(lifted * keep + wy * dt), Real(v.z.r * keep + wz * dt));
    assert Wind(dragged, p, dt) == blown;
    SwirlNone(blown, dt, time, offset, trig);
  }

  /** The zen stages one at a time, each stated on the numbers it produces. */
  lemma LiftStep(a: Num, b: Num, c: Num, coefficient: real, dt: real)
    ensures Lift(Vec3(a, b, c), Real(coefficient), dt) == Vec3(a, Add(b, Real(coefficient * dt)), c)
  {
    MulReal(coefficient, dt);
  }

  lemma DragStep(a: Num, b: Num, c: Num, loss: real, dt: real, keep: real)
    requires keep == 1.0 - loss * dt
    ensures Drag(Vec3(a, b, c), Real(loss), dt) == Vec3(Mul(a, Real(keep)), Mul(b, Real(keep)), Mul(c, Real(keep)))
  {
    MulReal(loss, dt);
  }

  lemma WindStep(a: Num, b: Num, c: Num, p: Params, dt: real, wx: real, wy: real, wz: real)
    requires NumParam(p, "windX") == Real(wx) && NumParam(p, "windY") == Real(wy) && NumParam(p, "windZ") == Real(wz)
    ensures Wind(Vec3(a, b, c), p, dt) == Vec3(Add(a, Real(wx * dt)), Add(b, Real(wy * dt)), Add(c, Real(wz * dt)))
  {
    MulReal(wx, dt);
    MulReal(wy, dt);
    MulReal(wz, dt);
  }

  /** A zero coefficient removes the turbulence or swirl term for a particle with a real phase. */
  lemma SwirlNone(v: Vec3, dt: real, time: real, offset: Num, trig: Trig)
    requires offset.Real?
    ensures Swirl(v, Zero, dt, time, offset, trig) == v
  {
    assert Mul(Mul(SinTerm(trig, time, offset), Zero), Real(dt)) == Zero;
    assert Mul(Mul(CosTerm(trig, time, offset), Zero), Real(dt)) == Zero;
  }

  /** With no air resistance, wind or turbulence, zen adds `gravity * dt` to
      the vertical velocity and leaves the other two components alone. */
  lemma ZenGravityOnly(v: Vec3, p: Params, dt: real, time: real, offset: Num, trig: Trig)
    requires offset.Real?
    requires NumParam(p, "gravity").Real?
    requires NumParam(p, "airResistance") == Zero && NumParam(p, "turbulence") == Zero
    requires NumParam(p, "windX") == Zero && NumParam(p, "windY") == Zero && NumParam(p, "windZ") == Zero
    ensures ZenForce(v, p, dt, time, offset, trig) == v.(y := Add(v.y, Real(NumParam(p, "gravity").r * dt)))
  {
  }

  /** `getLifeRatio()` */
  function LifeRatio(pt: Particle): Num {
    Div(pt.life, pt.maxLife)
  }

  /** `getAlpha()` (modules/particle.js:80-97), given `x => Math.pow(x, 0.33)`. */
  function Alpha(pt: Particle, p: Params, pow: real -> real): Num {
    var ratio := LifeRatio(pt);
    var opacity := NumParam(p, "opacity");
    if !TextIs(p, "mode", "zen") then
      Mul(opacity, Max(Zero, ratio))
    else if Gt(ratio, Real(0.2)) then
      opacity
    else if Gt(ratio, Zero) then
      Mul(opacity, Div(ratio, Real(0.2)))
    else
      var ghostRatio := Max(Zero, Add(One, Div(pt.life, NumParam(p, "ghostDuration"))));
      Mul(Mul(opacity, Real(0.6)), Apply(pow, ghostRatio))
  }

  /** Outside zen mode alpha is the opacity scaled by the life ratio clamped
      at zero, so it is never negative and is zero once life has run out. */
  lemma NonZenAlpha(pt: Particle, p: Params, pow: real -> real)
    requires !TextIs(p, "mode", "zen")
    requires NumParam(p, "opacity").Real? && NumParam(p, "opacity").r >= 0.0
    requires LifeRatio(pt).Real?
    ensures var a := Alpha(pt, p, pow);
      && a.Real? && a.r >= 0.0
      && (LifeRatio(pt).r <= 0.0 ==> a.r == 0.0)
      && (LifeRatio(pt).r > 0.0 ==> a.r == NumParam(p, "opacity").r * LifeRatio(pt).r)
  {
  }

  /** Zen alpha is piecewise: full opacity above a life ratio of 0.2, a
      linear fade on (0, 0.2] that meets full opacity at 0.2, and the dimmed
      ghost value `0.6 * opacity * pow(max(0, 1 + life / ghostDuration))` once
      life is spent. */
  lemma ZenAlphaPieces(pt: Particle, p: Params, pow: real -> real)
    requires TextIs(p, "mode", "zen")
    requires NumParam(p, "opacity").Real? && LifeRatio(pt).Real?
    ensures var (a, o, lr) := (Alpha(pt, p, pow), NumParam(p, "opacity").r, LifeRatio(pt).r);
      && (lr > 0.2 ==> a == Real(o))
      && (0.0 < lr <= 0.2 ==> a == Real(o * (lr / 0.2)))
      && (lr == 0.2 ==> a == Real(o))
      && (lr <= 0.0 ==> a == Mul(Real(o * 0.6), Apply(pow, Max(Zero, Add(One, Div(pt.life, NumParam(p, "ghostDuration")))))))
  {
  }

  /** At the moment of nominal death (`life == 0`) zen alpha jumps from the
      linear fade, which tends to zero, to `0.6 * opacity`, given that
      `Math.pow(1, 0.33)` is one and the ghost duration is a non-zero number. */
  lemma ZenAlphaJumpsAtDeath(pt: Particle, p: Params, pow: real -> real)
    requires TextIs(p, "mode", "zen")
    requires NumParam(p, "opacity").Real?
    requires pt.life == Zero && pt.maxLife.Real? && pt.maxLife.r != 0.0
    requires NumParam(p, "ghostDuration").Real? && NumParam(p, "ghostDuration").r != 0.0
    requires pow(1.0) == 1.0
    ensures Alpha(pt, p, pow) == Real(NumParam(p, "opacity").r * 0.6)
  {
    assert LifeRatio(pt) == Zero;
    assert Div(pt.life, NumParam(p, "ghostDuration")) == Zero;
  }

  /** A run of consecutive updates under one parameter object; the outcome
      is alive when every update in the run returned true. */
  datatype Tick = Tick(dt: real, env: StepEnv)

  function Run(pt: Particle, p: Params, ticks: seq<Tick>, trig: Trig): Outcome
    decreases |ticks|
  {
    if ticks == [] then Outcome(pt, true)
    else
      var o := Step(pt, p, ticks[0].dt, ticks[0].env, trig);
      var rest := Run(o.particle, p, ticks[1..], trig);
      Outcome(rest.particle, o.alive && rest.alive)
  }

  function Elapsed(ticks: seq<Tick>): real
    decreases |ticks|
  {
    if ticks == [] then 0.0 else ticks[0].dt + Elapsed(ticks[1..])
  }

  predicate NonNegative(ticks: seq<Tick>) {
    forall i :: 0 <= i < |ticks| ==> ticks[i].dt >= 0.0
  }

  /** Once a particle is clearing, no later update re-clamps it or overwrites
      the life recorded when clearing started. */
  lemma {:induction false} ClearingIsSticky(pt: Particle, p: Params, ticks: seq<Tick>, trig: Trig)
    requires pt.clearing
    ensures Run(pt, p, ticks, trig).particle.clearing
    ensures Run(pt, p, ticks, trig).particle.clearStartLife == pt.clearStartLife
    decreases |ticks|
  {
    if ticks != [] {
      var o := Step(pt, p, ticks[0].dt, ticks[0].env, trig);
      ClearingIsSticky(o.particle, p, ticks[1..], trig);
    }
  }

  /** The life still to run below which a particle expires in a mode. */
  function Threshold(p: Params): real
    requires TextIs(p, "mode", "zen") ==> NumParam(p, "ghostDuration").Real?
  {
    if TextIs(p, "mode", "zen") then -NumParam(p, "ghostDuration").r else 0.0
  }

  /** Without a clearing clamp, and with time never running backwards, a
      particle survives a run exactly when its life minus the elapsed time is
      still above the mode's threshold, and that is its remaining life. */
  lemma {:induction false} SurvivesRunIff(pt: Particle, p: Params, ticks: seq<Tick>, trig: Trig)
    requires pt.life.Real?
    requires pt.clearing || !TruthyParam(p, "clearingMode")
    requires TextIs(p, "mode", "zen") ==> NumParam(p, "ghostDuration").Real?
    requires NonNegative(ticks)
    ensures Run(pt, p, ticks, trig).particle.life == Real(pt.life.r - Elapsed(ticks))
    ensures ticks != [] ==> (Run(pt, p, ticks, trig).alive <==> pt.life.r - Elapsed(ticks) > Threshold(p))
    decreases |ticks|
  {
    if ticks != [] {
      var o := Step(pt, p, ticks[0].dt, ticks[0].env, trig);
      StepLife(pt, p, ticks[0].dt, ticks[0].env, trig);
      assert o.particle.clearing == pt.clearing;
      assert NonNegative(ticks[1..]) by {
        forall i | 0 <= i < |ticks[1..]| ensures ticks[1..][i].dt >= 0.0 {
          assert ticks[1..][i] == ticks[i + 1];
        }
      }
      SurvivesRunIff(o.particle, p, ticks[1..], trig);
      assert o.alive <==> pt.life.r - ticks[0].dt > Threshold(p);
      if ticks[1..] != [] {
        assert Elapsed(ticks[1..]) >= 0.0 by { ElapsedNonNegative(ticks[1..]); }
      }
    }
  }

  lemma {:induction false} ElapsedNonNegative(ticks: seq<Tick>)
    requires NonNegative(ticks)
    ensures Elapsed(ticks) >= 0.0
    decreases |ticks|
  {
    if ticks != [] {
      assert NonNegative(ticks[1..]) by {
        forall i | 0 <= i < |ticks[1..]| ensures ticks[1..][i].dt >= 0.0 {
          assert ticks[1..][i] == ticks[i + 1];
        }
      }
      ElapsedNonNegative(ticks[1..]);
    }
  }

  /** The zen ghost tail with a lifespan of 2 s and a ghost duration of 1 s:
      a newborn particle is still alive after 2 s of updates and gone by 3 s. */
  lemma ZenGhostTailScenario(pt: Particle, p: Params, ticks: seq<Tick>, trig: Trig)
    requires TextIs(p, "mode", "zen") && NumParam(p, "ghostDuration") == One
    requires !TruthyParam(p, "clearingMode")
    requires pt.life == Real(2.0)
    requires NonNegative(ticks) && ticks != []
    ensures Elapsed(ticks) <= 2.0 ==> Run(pt, p, ticks, trig).alive
    ensures Elapsed(ticks) >= 3.0 ==> !Run(pt, p, ticks, trig).alive
  {
    SurvivesRunIff(pt, p, ticks, trig);
  }
}
