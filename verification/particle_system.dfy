/** The particle collection and its render buffers
    (modules/particle-system.js). The four buffers are typed arrays whose
    lengths are fixed when the system is created; every later loop runs to
    the current `count` parameter, and a write past the end of a typed array
    is silently dropped. */
module ParticleSystem {
  import opened JsNum
  import opened Params
  import opened ParticleModel

  /** `positions` and `colors` hold three numbers per slot, `sizes` and
      `alphas` one. */
  datatype Buffers = Buffers(positions: seq<Num>, colors: seq<Num>, sizes: seq<Num>, alphas: seq<Num>)

  /** `params` is the identity of the parameter object the system currently
      reads (`this.particleParams`). */
  datatype System = System(params: SetId, particles: seq<Particle>, buffers: Buffers)

  /** The length of `new Float32Array(n)`: `ToIndex` turns NaN into zero and
      truncates towards zero, and a value that truncates below zero is a
      RangeError (None). Arrays too large to allocate are not modelled. */
  function ArrayLength(n: Num): (r: Option<nat>)
    ensures r.None? <==> n.Real? && n.r <= -1.0
    ensures n.Real? && n.r >= 0.0 ==> r.Some? && r.value as real <= n.r < r.value as real + 1.0
    ensures n.NaN? || (n.Real? && -1.0 < n.r < 1.0) ==> r == Some(0)
  {
    if n.NaN? then Some(0)
    else if n.r <= -1.0 then None
    else if n.r < 0.0 then Some(0)
    else Some(n.r.Floor)
  }

  function Zeros(n: nat): (z: seq<Num>)
    ensures |z| == n && forall k :: 0 <= k < n ==> z[k] == Zero
  {
    seq(n, _ => Zero)
  }

  /** The constructor (modules/particle-system.js:4-12): no particles and
      four zero-filled buffers sized from `count` once. */
  function Create(sets: ParamSets, id: SetId): (r: Option<System>)
    ensures var c := NumParam(sets.Get(id), "count");
      r.Some? <==> c.NaN? || c.r > -1.0 / 3.0
    ensures r.Some? ==>
      && r.value.params == id && r.value.particles == []
      && |r.value.buffers.sizes| == |r.value.buffers.alphas|
      && |r.value.buffers.positions| == |r.value.buffers.colors|
      && (forall k :: 0 <= k < |r.value.buffers.positions| ==> r.value.buffers.positions[k] == Zero)
      && (forall k :: 0 <= k < |r.value.buffers.colors| ==> r.value.buffers.colors[k] == Zero)
      && (forall k :: 0 <= k < |r.value.buffers.sizes| ==> r.value.buffers.sizes[k] == Zero)
      && (forall k :: 0 <= k < |r.value.buffers.alphas| ==> r.value.buffers.alphas[k] == Zero)
  {
    var c := NumParam(sets.Get(id), "count");
    match (ArrayLength(Mul(c, Real(3.0))), ArrayLength(c))
    case (Some(triple), Some(single)) =>
      Some(System(id, [], Buffers(Zeros(triple), Zeros(triple), Zeros(single), Zeros(single))))
    case _ => None
  }

  /** A whole, non-negative `count` gives three floats per slot for
      positions and colours and one for sizes and alphas. */
  lemma CreateSizes(sets: ParamSets, id: SetId, k: nat)
    requires NumParam(sets.Get(id), "count") == Real(k as real)
    ensures var r := Create(sets, id);
      r.Some? && |r.value.buffers.positions| == 3 * k && |r.value.buffers.sizes| == k
  {
    assert (3 * k) as real == 3.0 * (k as real);
    assert Mul(Real(k as real), Real(3.0)) == Real((3 * k) as real);
  }

  // ---------------------------------------------------------------- emit

  /** `(Math.random() - 0.5) * spreadAngle * Math.PI / 180` */
  function Aim(r: real, spread: Num): Num {
    Div(Mul(Mul(Sub(Real(r), Real(0.5)), spread), Real(Pi)), Real(180.0))
  }

  /** `(sin(angle) cos(elevation), sin(elevation), cos(angle) cos(elevation))` */
  function Direction(trig: Trig, angle: Num, elevation: Num): Vec3 {
    Vec3(Mul(Apply(trig.sin, angle), Apply(trig.cos, elevation)),
         Apply(trig.sin, elevation),
         Mul(Apply(trig.cos, angle), Apply(trig.cos, elevation)))
  }

  /** `initialSpeed * (0.5 + Math.random() * 0.5)` */
  function LaunchSpeed(p: Params, r: real): Num {
    Mul(NumParam(p, "initialSpeed"), Add(Real(0.5), Mul(Real(r), Real(0.5))))
  }

  /** One particle of `emit` (modules/particle-system.js:81-90), drawing the
      random numbers `rand(k)` .. `rand(k + 4)` in the order the source
      draws them: angle, elevation, speed, then size and phase inside the
      Particle constructor. */
  function Spawn(origin: Vec3, p: Params, id: SetId, rand: nat -> real, k: nat, trig: Trig): Particle {
    var dir := Direction(trig, Aim(rand(k), NumParam(p, "spreadAngle")), Aim(rand(k + 1), NumParam(p, "spreadAngle")));
    New(origin, VScale(dir, LaunchSpeed(p, rand(k + 2))), p, id, rand(k + 3), rand(k + 4))
  }

  /** How many particles `emit(n)` adds to a list of `before` particles under
      the capacity `cap`: the loop runs while `i < n` and breaks as soon as
      `length >= cap`, which never holds when `cap` is NaN. */
  function Admitted(n: Num, cap: Num, before: nat): nat {
    if cap.NaN? then Slots(n)
    else if Slots(cap) <= before then 0
    else if Slots(n) < Slots(cap) - before then Slots(n)
    else Slots(cap) - before
  }

  /** The particles `emit` appends, in order: the j-th draws
      `rand(5 * j)` .. `rand(5 * j + 4)`. */
  function Fresh(origin: Vec3, p: Params, id: SetId, rand: nat -> real, trig: Trig, k: nat): (added: seq<Particle>)
    ensures |added| == k
    ensures forall j :: 0 <= j < k ==> added[j] == Spawn(origin, p, id, rand, 5 * j, trig)
  {
    seq(k, j requires 0 <= j < k => Spawn(origin, p, id, rand, 5 * j, trig))
  }

  /** One more round of the `emit` loop appends the next spawn. */
  lemma FreshGrows(origin: Vec3, p: Params, id: SetId, rand: nat -> real, trig: Trig, k: nat)
    ensures Fresh(origin, p, id, rand, trig, k + 1) == Fresh(origin, p, id, rand, trig, k) + [Spawn(origin, p, id, rand, 5 * k, trig)]
  {
    var longer := Fresh(origin, p, id, rand, trig, k + 1);
    var shorter := Fresh(origin, p, id, rand, trig, k);
    assert forall j :: 0 <= j < k ==> longer[j] == shorter[j];
  }

  /** The system after `emit(n, origin)`: the old list with `Admitted`
      spawned particles appended, buffers untouched. */
  function Emitted(sys: System, sets: ParamSets, n: Num, origin: Vec3, rand: nat -> real, trig: Trig): (r: System)
    ensures r.params == sys.params && r.buffers == sys.buffers
    ensures |r.particles| == |sys.particles| + Admitted(n, NumParam(sets.Get(sys.params), "count"), |sys.particles|)
    ensures r.particles[..|sys.particles|] == sys.particles
    ensures forall j :: |sys.particles| <= j < |r.particles| ==>
      r.particles[j] == Spawn(origin, sets.Get(sys.params), sys.params, rand, 5 * (j - |sys.particles|), trig)
  {
    var p := sets.Get(sys.params);
    sys.(particles := sys.particles + Fresh(origin, p, sys.params, rand, trig, Admitted(n, NumParam(p, "count"), |sys.particles|)))
  }

  /** `emit(count, position)` (modules/particle-system.js:77-92), with
      `Math.random()` as the stream `rand`: the loop with its early break
      appends exactly the particles `Emitted` describes. */
  method Emit(sys: System, sets: ParamSets, n: Num, origin: Vec3, rand: nat -> real, trig: Trig) returns (r: System)
    ensures r == Emitted(sys, sets, n, origin, rand, trig)
  {
    var p := sets.Get(sys.params);
    var cap := NumParam(p, "count");
    var before := |sys.particles|;
    var ps := sys.particles;
    var i: nat := 0;
    while Below(i, n)
      invariant i <= Admitted(n, cap, before)
      invariant ps == sys.particles + Fresh(origin, p, sys.params, rand, trig, i)
      decreases Slots(n) - i
    {
      EmitCapacity(n, cap, before);
      if Ge(Real(|ps| as real), cap) {
        AdmittedStops(n, cap, before, i);
        break;
      }
      AdmittedContinues(n, cap, before, i);
      FreshGrows(origin, p, sys.params, rand, trig, i);
      ps := ps + [Spawn(origin, p, sys.params, rand, 5 * i, trig)];
      i := i + 1;
    }
    if !Below(i, n) {
      AdmittedStops(n, cap, before, i);
    }
    r := sys.(particles := ps);
  }

  /** The loop in `emit` stops after exactly `Admitted` particles: either
      its counter reaches `n` or the capacity test fires. */
  lemma AdmittedStops(n: Num, cap: Num, before: nat, i: nat)
    requires i <= Admitted(n, cap, before)
    requires !Below(i, n) || Ge(Real((before + i) as real), cap)
    ensures i == Admitted(n, cap, before)
  {
    if Ge(Real((before + i) as real), cap) {
      assert !Below(before + i, cap);
    }
  }

  /** While neither test in `emit` fires, another particle is admitted. */
  lemma AdmittedContinues(n: Num, cap: Num, before: nat, i: nat)
    requires i <= Admitted(n, cap, before)
    requires Below(i, n) && !Ge(Real((before + i) as real), cap)
    ensures i + 1 <= Admitted(n, cap, before)
  {
    assert Below(before + i, cap) || cap.NaN?;
  }

  /** For whole-number arguments, `emit(n)` adds
      `min(max(n, 0), max(0, count - before))` particles. */
  lemma EmitCount(n: int, cap: int, before: nat)
    ensures var added := Admitted(Real(n as real), Real(cap as real), before);
      Real(added as real) == Min(Max(Real(n as real), Zero), Max(Zero, Real((cap - before) as real)))
  {
    SlotsOfWhole(n);
    SlotsOfWhole(cap);
  }

  /** A loop `i < n` over a whole `n` runs `n` times, or not at all. */
  lemma SlotsOfWhole(n: int)
    ensures Slots(Real(n as real)) == if n > 0 then n else 0
  {
    if n > 0 {
      assert (n as real).Floor == n;
    }
  }

  /** Once the list holds `count` particles, `emit` adds none; a list within
      capacity stays within it (capacity rounded up to a whole slot count). */
  lemma EmitCapacity(n: Num, cap: Num, before: nat)
    ensures Ge(Real(before as real), cap) ==> Admitted(n, cap, before) == 0
    ensures cap.Real? && before <= Slots(cap) ==> before + Admitted(n, cap, before) <= Slots(cap)
    ensures Admitted(n, cap, before) <= Slots(n)
    ensures cap.NaN? ==> Admitted(n, cap, before) == Slots(n)
    ensures cap.Real? && before <= Slots(cap) && Slots(cap) - before <= Slots(n) ==>
      before + Admitted(n, cap, before) == Slots(cap)
  {
    if Ge(Real(before as real), cap) {
      assert !Below(before, cap);
    }
  }

  /** A fractional `count` admits one particle more than its whole part:
      the test `length >= count` first fails to stop emission at the
      whole part itself. */
  lemma FractionalCountRoundsUp(n: Num, whole: nat, fraction: real, before: nat)
    requires 0.0 < fraction < 1.0
    requires before <= whole && whole + 1 - before <= Slots(n)
    ensures before + Admitted(n, Real(whole as real + fraction), before) == whole + 1
  {
    var cap := Real(whole as real + fraction);
    assert Below(whole, cap) && !Below(whole + 1, cap);
    assert Slots(cap) == whole + 1;
    EmitCapacity(n, cap, before);
  }

  /** Every emitted particle starts at the requested origin, with the
      constructor's life and clearing state, under the system's object; its
      heading takes the angle and the elevation from two separate draws. */
  lemma SpawnShape(origin: Vec3, p: Params, id: SetId, rand: nat -> real, k: nat, trig: Trig)
    ensures var pt := Spawn(origin, p, id, rand, k, trig);
      && pt.position == origin
      && pt.life == pt.maxLife == NumParam(p, "lifespan")
      && !pt.clearing && pt.clearStartLife == None && pt.params == id
    ensures var spread := NumParam(p, "spreadAngle");
      Spawn(origin, p, id, rand, k, trig).velocity ==
        VScale(Direction(trig, Aim(rand(k), spread), Aim(rand(k + 1), spread)), LaunchSpeed(p, rand(k + 2)))
  {
  }

  /** Each of the angle and the elevation lies within half the spread angle
      of straight ahead, converted to radians. As the two are drawn
      independently, the headings fill a patch that is square in angle and
      elevation, not a cone of half-angle `spreadAngle / 2`. */
  lemma AimRange(r: real, spread: real)
    requires 0.0 <= r < 1.0 && spread >= 0.0
    ensures var a := Aim(r, Real(spread));
      && a.Real?
      && -(spread / 2.0) * Pi / 180.0 <= a.r <= (spread / 2.0) * Pi / 180.0
  {
    HalfSpread(r - 0.5, spread);
    var h := Mul(Real(r - 0.5), Real(spread)).r;
    assert Aim(r, Real(spread)) == Real(h * Pi / 180.0);
  }

  /** For a draw in `[0, 1)` the launch speed lies between half the initial
      speed and the full initial speed, and below the full speed when that
      is positive. */
  lemma LaunchSpeedRange(p: Params, r: real)
    requires 0.0 <= r < 1.0
    requires NumParam(p, "initialSpeed").Real? && NumParam(p, "initialSpeed").r >= 0.0
    ensures var (v, s) := (NumParam(p, "initialSpeed").r, LaunchSpeed(p, r));
      && s.Real? && 0.5 * v <= s.r <= v
      && (v > 0.0 ==> s.r < v)
  {
    var v := NumParam(p, "initialSpeed").r;
    var (lo, hi) := (r * 0.5, 0.5 - r * 0.5);
    assert LaunchSpeed(p, r) == Real(v * (0.5 + lo));
    assert v * (0.5 + lo) == 0.5 * v + v * lo;
    assert v * (0.5 + lo) == v - v * hi;
    NonNegativeProduct(v, lo);
    NonNegativeProduct(v, hi);
    if v > 0.0 {
      PositiveProduct(v, hi);
    }
  }

  /** `Math.sin` and `Math.cos` satisfy `sin² + cos² = 1`. */
  ghost predicate Pythagorean(trig: Trig) {
    forall x: real {:trigger trig.sin(x)} :: trig.sin(x) * trig.sin(x) + trig.cos(x) * trig.cos(x) == 1.0
  }

  /** Given `sin² + cos² = 1`, every launch direction has unit length. */
  lemma DirectionIsUnit(trig: Trig, a: real, e: real)
    requires Pythagorean(trig)
    ensures LenSq(Direction(trig, Real(a), Real(e))) == One
  {
    var (sa, ca, se, ce) := (trig.sin(a), trig.cos(a), trig.sin(e), trig.cos(e));
    assert sa * sa + ca * ca == 1.0;
    assert se * se + ce * ce == 1.0;
    var d := Direction(trig, Real(a), Real(e));
    assert d.x == Real(sa * ce);
    assert d.y == Real(se);
    assert d.z == Real(ca * ce);
    assert LenSq(d) == Real(sa * ce * (sa * ce) + se * se + ca * ce * (ca * ce));
    calc {
      sa * ce * (sa * ce) + se * se + ca * ce * (ca * ce);
      (sa * sa + ca * ca) * (ce * ce) + se * se;
      ce * ce + se * se;
      1.0;
    }
  }

  /** Scaling a real vector by `s` scales its squared length by `s²`; a unit
      vector scaled by `s` has squared length `s²`. */
  lemma LenSqScale(d: Vec3, s: Num)
    requires IsReal(d) && s.Real?
    ensures LenSq(VScale(d, s)) == Mul(Mul(s, s), LenSq(d))
    ensures LenSq(d) == One ==> LenSq(VScale(d, s)) == Mul(s, s)
  {
    var (a, b, c, k) := (d.x.r, d.y.r, d.z.r, s.r);
    var v := VScale(d, s);
    assert v.x == Real(a * k);
    assert v.y == Real(b * k);
    assert v.z == Real(c * k);
    assert LenSq(d) == Real(a * a + b * b + c * c);
    assert a * k * (a * k) + b * k * (b * k) + c * k * (c * k) == k * k * (a * a + b * b + c * c);
  }

  /** Given `sin² + cos² = 1` and a real spread angle, an emitted particle's
      speed is exactly its launch speed: the squared length of its velocity
      is the launch speed squared. */
  lemma SpawnSpeed(origin: Vec3, p: Params, id: SetId, rand: nat -> real, k: nat, trig: Trig)
    requires Pythagorean(trig)
    requires NumParam(p, "spreadAngle").Real? && NumParam(p, "initialSpeed").Real?
    ensures var s := LaunchSpeed(p, rand(k + 2));
      s.Real? && LenSq(Spawn(origin, p, id, rand, k, trig).velocity) == Mul(s, s)
  {
    var spread := NumParam(p, "spreadAngle");
    var a := Aim(rand(k), spread);
    var e := Aim(rand(k + 1), spread);
    assert a.Real? && e.Real?;
    DirectionIsUnit(trig, a.r, e.r);
    var d := Direction(trig, a, e);
    var s := LaunchSpeed(p, rand(k + 2));
    assert s.Real?;
    LenSqScale(d, s);
  }

  // -------------------------------------------------------------- update

  /** Every particle present when `update` starts, advanced by exactly one
      call of its own `update`; the particle at index `i` reads the clock and
      random draws `envs(i)`. */
  function Advance(ps: seq<Particle>, sets: ParamSets, dt: real, envs: nat -> StepEnv, trig: Trig): (os: seq<Outcome>)
    ensures |os| == |ps|
    ensures forall i :: 0 <= i < |ps| ==> os[i] == Step(ps[i], sets.Get(ps[i].params), dt, envs(i), trig)
  {
    seq(|ps|, i requires 0 <= i < |ps| => Step(ps[i], sets.Get(ps[i].params), dt, envs(i), trig))
  }

  /** The advanced particles whose update returned true, in order. */
  function Survivors(os: seq<Outcome>): seq<Particle> {
    if os == [] then []
    else (if os[0].alive then [os[0].particle] else []) + Survivors(os[1..])
  }

  /** The indices of the outcomes that are alive, in increasing order. */
  function AliveIndices(os: seq<Outcome>): seq<nat> {
    if os == [] then []
    else (if os[0].alive then [0] else []) + Shift(AliveIndices(os[1..]))
  }

  function Shift(ix: seq<nat>): (r: seq<nat>)
    ensures |r| == |ix| && forall k :: 0 <= k < |ix| ==> r[k] == ix[k] + 1
  {
    seq(|ix|, k requires 0 <= k < |ix| => ix[k] + 1)
  }

  /** The survivors are exactly the outcomes that returned true, in their
      original relative order: the k-th survivor is outcome `AliveIndices[k]`,
      those indices increase strictly, and an index is listed exactly when
      its outcome is alive. */
  lemma SurvivorsAreTheAlive(os: seq<Outcome>)
    ensures var ix := AliveIndices(os);
      && |Survivors(os)| == |ix|
      && (forall k :: 0 <= k < |ix| ==> ix[k] < |os| && Survivors(os)[k] == os[ix[k]].particle)
      && (forall k, l :: 0 <= k < l < |ix| ==> ix[k] < ix[l])
      && (forall i :: 0 <= i < |os| ==> (os[i].alive <==> i in ix))
  {
    SurvivorsPick(os);
    AliveIndicesIncrease(os);
    AliveIndicesExact(os);
  }

  /** `sv` lists the particles of the outcomes at the indices `ix`, in order. */
  predicate Picks(os: seq<Outcome>, ix: seq<nat>, sv: seq<Particle>) {
    |sv| == |ix| && forall k :: 0 <= k < |ix| ==> ix[k] < |os| && sv[k] == os[ix[k]].particle
  }

  lemma {:induction false} SurvivorsPick(os: seq<Outcome>)
    ensures var ix := AliveIndices(os);
      && |Survivors(os)| == |ix|
      && (forall k :: 0 <= k < |ix| ==> ix[k] < |os| && Survivors(os)[k] == os[ix[k]].particle)
  {
    if os != [] {
      var tail := os[1..];
      SurvivorsPick(tail);
      assert Picks(tail, AliveIndices(tail), Survivors(tail));
      if os[0].alive {
        PicksAlive(os, AliveIndices(tail), Survivors(tail));
      } else {
        PicksDead(os, AliveIndices(tail), Survivors(tail));
      }
      assert Picks(os, AliveIndices(os), Survivors(os));
    }
  }

  /** A live first outcome is picked first; the tail's picks follow, shifted. */
  lemma PicksAlive(os: seq<Outcome>, tx: seq<nat>, st: seq<Particle>)
    requires |os| > 0 && Picks(os[1..], tx, st)
    ensures Picks(os, [0] + Shift(tx), [os[0].particle] + st)
  {
    var ix := [0] + Shift(tx);
    var sv := [os[0].particle] + st;
    forall k | 1 <= k < |ix|
      ensures ix[k] < |os| && sv[k] == os[ix[k]].particle
    {
      assert ix[k] == tx[k - 1] + 1;
      assert os[ix[k]] == os[1..][tx[k - 1]];
    }
  }

  /** A dead first outcome is skipped; the tail's picks are shifted by one. */
  lemma PicksDead(os: seq<Outcome>, tx: seq<nat>, st: seq<Particle>)
    requires |os| > 0 && Picks(os[1..], tx, st)
    ensures Picks(os, Shift(tx), st)
  {
    forall k | 0 <= k < |tx|
      ensures Shift(tx)[k] < |os| && st[k] == os[Shift(tx)[k]].particle
    {
      assert os[tx[k] + 1] == os[1..][tx[k]];
    }
  }

  lemma {:induction false} AliveIndicesIncrease(os: seq<Outcome>)
    ensures forall k, l :: 0 <= k < l < |AliveIndices(os)| ==> AliveIndices(os)[k] < AliveIndices(os)[l]
  {
    if os != [] {
      AliveIndicesIncrease(os[1..]);
      var tx := AliveIndices(os[1..]);
      var head := if os[0].alive then [0] else [];
      var ix := head + Shift(tx);
      assert AliveIndices(os) == ix;
      forall k, l | 0 <= k < l < |ix|
        ensures ix[k] < ix[l]
      {
        assert ix[l] == Shift(tx)[l - |head|] == tx[l - |head|] + 1;
        if k >= |head| {
          assert ix[k] == Shift(tx)[k - |head|] == tx[k - |head|] + 1;
          assert tx[k - |head|] < tx[l - |head|];
        } else {
          assert ix[k] == 0;
        }
      }
    }
  }

  lemma {:induction false} AliveIndicesExact(os: seq<Outcome>)
    ensures var ix := AliveIndices(os);
      forall i :: 0 <= i < |os| ==> (os[i].alive <==> i in ix)
  {
    if os != [] {
      var tail := os[1..];
      AliveIndicesExact(tail);
      var tx := AliveIndices(tail);
      var head := if os[0].alive then [0] else [];
      var ix := head + Shift(tx);
      assert AliveIndices(os) == ix;
      forall i | 0 <= i < |os|
        ensures os[i].alive <==> i in ix
      {
        assert (i in ix) <==> (i in head || i in Shift(tx));
        ShiftMembership(tx, i);
        if i > 0 {
          assert os[i] == tail[i - 1];
        }
      }
    }
  }

  lemma ShiftMembership(ix: seq<nat>, i: nat)
    ensures (i in Shift(ix)) <==> (i > 0 && i - 1 in ix)
  {
    if i in Shift(ix) {
      var k :| 0 <= k < |ix| && Shift(ix)[k] == i;
      assert ix[k] == i - 1;
    }
    if i > 0 && i - 1 in ix {
      var k :| 0 <= k < |ix| && ix[k] == i - 1;
      assert Shift(ix)[k] == i;
    }
  }

  /** Walking the outcomes back to front, each one either joins the front of
      the survivors or is dropped. */
  lemma SurvivorsFrom(os: seq<Outcome>, i: nat)
    requires i < |os|
    ensures Survivors(os[i..]) == (if os[i].alive then [os[i].particle] else []) + Survivors(os[i + 1..])
  {
    assert os[i..][1..] == os[i + 1..];
  }

  /** `update(deltaTime)` (modules/particle-system.js:94-104): the
      back-to-front loop that updates each particle and splices out the ones
      that returned false, then the geometry pass. */
  method Update(sys: System, sets: ParamSets, dt: real, envs: nat -> StepEnv, trig: Trig, pow: real -> real) returns (r: System)
    requires Renderable(Survivors(Advance(sys.particles, sets, dt, envs, trig)), sets.Get(sys.params))
    ensures r.params == sys.params
    ensures r.particles == Survivors(Advance(sys.particles, sets, dt, envs, trig))
    ensures Rendered(sys.buffers, r.buffers, r.particles, sets, sys.params, pow, Slots(NumParam(sets.Get(sys.params), "count")))
  {
    var ps := sys.particles;
    var outcomes := Advance(ps, sets, dt, envs, trig);
    var kept: seq<Particle> := [];
    var i := |ps|;
    while i > 0
      invariant 0 <= i <= |ps|
      invariant kept == Survivors(outcomes[i..])
      decreases i
    {
      i := i - 1;
      var o := Step(ps[i], sets.Get(ps[i].params), dt, envs(i), trig);
      SurvivorsFrom(outcomes, i);
      if o.alive {
        kept := [o.particle] + kept;
      }
    }
    assert outcomes[0..] == outcomes;
    r := UpdateGeometry(sys.(particles := kept), sets, pow);
  }

  // ------------------------------------------------------------ geometry

  /** Index of component `j` of slot `i` in a three-wide buffer. */
  function Flat(i: nat, j: nat): nat {
    3 * i + j
  }

  function Coord(v: Vec3, j: nat): Num {
    if j == 0 then v.x else if j == 1 then v.y else v.z
  }

  function Channel(c: Rgb, j: nat): Num {
    if j == 0 then c.r else if j == 1 then c.g else c.b
  }

  /** The colour-lerp factor (modules/particle-system.js:122-125). */
  function ColourFactor(lifeRatio: Num): Num {
    if Lt(lifeRatio, Real(0.3)) then Sub(One, Div(lifeRatio, Real(0.3))) else Zero
  }

  /** `Math.max(0.3, Math.abs(lifeRatio) > 0 ? 1 : 1 + lifeRatio / ghostDuration)` */
  function SizeMultiplier(lifeRatio: Num, ghostDuration: Num): Num {
    Max(Real(0.3), if Gt(Abs(lifeRatio), Zero) then One else Add(One, Div(lifeRatio, ghostDuration)))
  }

  /** A particle's colour: the system's start colour moved towards its end colour. */
  function Tint(pt: Particle, p: Params): Rgb
    requires HasColours(p)
  {
    Lerp(ColourParam(p, "startColor"), ColourParam(p, "endColor"), ColourFactor(LifeRatio(pt)))
  }

  /** The colour pass reads both colour objects, but only when some live
      particle is drawn. */
  predicate Renderable(ps: seq<Particle>, p: Params) {
    Slots(NumParam(p, "count")) == 0 || |ps| == 0 || HasColours(p)
  }

  /** What a slot shows: a live particle's position, size and own alpha,
      or zero for a slot past the live list. */
  function ShownPosition(ps: seq<Particle>, i: nat): Vec3 {
    if i < |ps| then ps[i].position else Origin
  }

  function ShownSize(ps: seq<Particle>, i: nat, p: Params): Num {
    if i < |ps| then Mul(ps[i].size, SizeMultiplier(LifeRatio(ps[i]), NumParam(p, "ghostDuration"))) else Zero
  }

  function ShownAlpha(ps: seq<Particle>, i: nat, sets: ParamSets, pow: real -> real): Num {
    if i < |ps| then Alpha(ps[i], sets.Get(ps[i].params), pow) else Zero
  }

  /** Positions after drawing the first `slots` slots: each drawn slot shows
      its particle's position, or the origin past the live list. */
  predicate PositionsDrawn(before: seq<Num>, after: seq<Num>, ps: seq<Particle>, slots: nat) {
    && |after| == |before|
    && forall i: nat, j: nat {:trigger Flat(i, j)} :: i < |after| && j < 3 && Flat(i, j) < |after| ==>
         after[Flat(i, j)] == if i < slots then Coord(ShownPosition(ps, i), j) else before[Flat(i, j)]
  }

  /** Colours after drawing the first `slots` slots: only live slots are written. */
  predicate ColoursDrawn(before: seq<Num>, after: seq<Num>, ps: seq<Particle>, p: Params, slots: nat) {
    && |after| == |before|
    && forall i: nat, j: nat {:trigger Flat(i, j)} :: i < |after| && j < 3 && Flat(i, j) < |after| ==>
         after[Flat(i, j)] ==
           if i < slots && i < |ps| && HasColours(p) then Channel(Tint(ps[i], p), j) else before[Flat(i, j)]
  }

  /** A one-wide buffer after drawing the first `slots` slots with `shown`. */
  predicate ScalarsDrawn(before: seq<Num>, after: seq<Num>, shown: nat -> Num, slots: nat) {
    && |after| == |before|
    && forall i: nat :: i < |after| ==> after[i] == if i < slots then shown(i) else before[i]
  }

  /** The buffers `after` are `before` with the first `slots` slots drawn
      from `ps` under the system's parameter object `id`: lengths never
      change, slots from `slots` on keep their contents, and colours are
      written for live slots only. Sizes use the system's ghost duration,
      alphas each particle's own parameter object. */
  predicate Rendered(before: Buffers, after: Buffers, ps: seq<Particle>, sets: ParamSets, id: SetId, pow: real -> real, slots: nat) {
    var p := sets.Get(id);
    && PositionsDrawn(before.positions, after.positions, ps, slots)
    && ColoursDrawn(before.colors, after.colors, ps, p, slots)
    && ScalarsDrawn(before.sizes, after.sizes, (i: nat) => ShownSize(ps, i, p), slots)
    && ScalarsDrawn(before.alphas, after.alphas, (i: nat) => ShownAlpha(ps, i, sets, pow), slots)
  }

  /** A typed-array store: ignored past the end. */
  function Write(buf: seq<Num>, at: nat, v: Num): (r: seq<Num>)
    ensures |r| == |buf|
    ensures forall k :: 0 <= k < |r| ==> r[k] == if k == at then v else buf[k]
  {
    if at < |buf| then buf[at := v] else buf
  }

  /** Three stores into slot `i` of a three-wide buffer. */
  function WriteSlot(buf: seq<Num>, i: nat, a: Num, b: Num, c: Num): (r: seq<Num>)
    ensures |r| == |buf|
    ensures forall k :: 0 <= k < |r| ==>
      r[k] == if k == Flat(i, 0) then a else if k == Flat(i, 1) then b else if k == Flat(i, 2) then c else buf[k]
  {
    Write(Write(Write(buf, Flat(i, 0), a), Flat(i, 1), b), Flat(i, 2), c)
  }

  /** One pass of the geometry loop body (modules/particle-system.js:113-142). */
  function DrawSlot(b: Buffers, ps: seq<Particle>, sets: ParamSets, id: SetId, pow: real -> real, i: nat): Buffers
    requires i < |ps| ==> HasColours(sets.Get(id))
  {
    var p := sets.Get(id);
    if i < |ps| then
      var pt := ps[i];
      var tint := Tint(pt, p);
      Buffers(
        WriteSlot(b.positions, i, pt.position.x, pt.position.y, pt.position.z),
        WriteSlot(b.colors, i, tint.r, tint.g, tint.b),
        Write(b.sizes, i, Mul(pt.size, SizeMultiplier(LifeRatio(pt), NumParam(p, "ghostDuration")))),
        Write(b.alphas, i, Alpha(pt, sets.Get(pt.params), pow)))
    else
      b.(positions := WriteSlot(b.positions, i, Zero, Zero, Zero),
         sizes := Write(b.sizes, i, Zero),
         alphas := Write(b.alphas, i, Zero))
  }

  lemma PositionsStep(before: seq<Num>, b: seq<Num>, ps: seq<Particle>, i: nat, v: Vec3)
    requires PositionsDrawn(before, b, ps, i)
    requires v == ShownPosition(ps, i)
    ensures PositionsDrawn(before, WriteSlot(b, i, v.x, v.y, v.z), ps, i + 1)
  {
    var after := WriteSlot(b, i, v.x, v.y, v.z);
    forall i': nat, j: nat | i' < |after| && j < 3 && Flat(i', j) < |after|
      ensures after[Flat(i', j)] == if i' < i + 1 then Coord(ShownPosition(ps, i'), j) else before[Flat(i', j)]
    {
      if i' != i {
        assert Flat(i', j) != Flat(i, 0) && Flat(i', j) != Flat(i, 1) && Flat(i', j) != Flat(i, 2);
      }
    }
  }

  lemma ColoursStep(before: seq<Num>, b: seq<Num>, ps: seq<Particle>, p: Params, i: nat)
    requires ColoursDrawn(before, b, ps, p, i)
    requires i < |ps| && HasColours(p)
    ensures var t := Tint(ps[i], p);
      ColoursDrawn(before, WriteSlot(b, i, t.r, t.g, t.b), ps, p, i + 1)
  {
    var t := Tint(ps[i], p);
    var after := WriteSlot(b, i, t.r, t.g, t.b);
    forall i': nat, j: nat | i' < |after| && j < 3 && Flat(i', j) < |after|
      ensures after[Flat(i', j)] ==
        if i' < i + 1 && i' < |ps| && HasColours(p) then Channel(Tint(ps[i'], p), j) else before[Flat(i', j)]
    {
      if i' != i {
        assert Flat(i', j) != Flat(i, 0) && Flat(i', j) != Flat(i, 1) && Flat(i', j) != Flat(i, 2);
      }
    }
  }

  lemma ColoursSkip(before: seq<Num>, b: seq<Num>, ps: seq<Particle>, p: Params, i: nat)
    requires ColoursDrawn(before, b, ps, p, i)
    requires i >= |ps|
    ensures ColoursDrawn(before, b, ps, p, i + 1)
  {
  }

  lemma ScalarsStep(before: seq<Num>, b: seq<Num>, shown: nat -> Num, i: nat)
    requires ScalarsDrawn(before, b, shown, i)
    ensures ScalarsDrawn(before, Write(b, i, shown(i)), shown, i + 1)
  {
  }

  /** Drawing slot `i` extends a drawing of the first `i` slots by one. */
  lemma DrawSlotExtends(before: Buffers, b: Buffers, ps: seq<Particle>, sets: ParamSets, id: SetId, pow: real -> real, i: nat)
    requires i < |ps| ==> HasColours(sets.Get(id))
    requires Rendered(before, b, ps, sets, id, pow, i)
    ensures Rendered(before, DrawSlot(b, ps, sets, id, pow, i), ps, sets, id, pow, i + 1)
  {
    var p := sets.Get(id);
    var d := DrawSlot(b, ps, sets, id, pow, i);
    var v := ShownPosition(ps, i);
    if i < |ps| {
      assert d.positions == WriteSlot(b.positions, i, v.x, v.y, v.z);
      ColoursStep(before.colors, b.colors, ps, p, i);
    } else {
      assert d.positions == WriteSlot(b.positions, i, v.x, v.y, v.z);
      ColoursSkip(before.colors, b.colors, ps, p, i);
    }
    PositionsStep(before.positions, b.positions, ps, i, v);
    var size := (i: nat) => ShownSize(ps, i, p);
    var alpha := (i: nat) => ShownAlpha(ps, i, sets, pow);
    assert d.sizes == Write(b.sizes, i, size(i));
    assert d.alphas == Write(b.alphas, i, alpha(i));
    ScalarsStep(before.sizes, b.sizes, size, i);
    ScalarsStep(before.alphas, b.alphas, alpha, i);
  }

  /** `updateGeometry()` (modules/particle-system.js:106-149). */
  method UpdateGeometry(sys: System, sets: ParamSets, pow: real -> real) returns (r: System)
    requires Renderable(sys.particles, sets.Get(sys.params))
    ensures r.params == sys.params && r.particles == sys.particles
    ensures Rendered(sys.buffers, r.buffers, sys.particles, sets, sys.params, pow, Slots(NumParam(sets.Get(sys.params), "count")))
  {
    var count := NumParam(sets.Get(sys.params), "count");
    var b := sys.buffers;
    var i: nat := 0;
    while Below(i, count)
      invariant i <= Slots(count)
      invariant Rendered(sys.buffers, b, sys.particles, sets, sys.params, pow, i)
      decreases Slots(count) - i
    {
      DrawSlotExtends(sys.buffers, b, sys.particles, sets, sys.params, pow, i);
      b := DrawSlot(b, sys.particles, sets, sys.params, pow, i);
      i := i + 1;
    }
    assert i == Slots(count);
    r := sys.(buffers := b);
  }

  /** The colour factor is zero from a life ratio of 0.3 up (and for a NaN
      ratio), one at a ratio of zero, between zero and one in between, and
      it is not clamped: below zero, in the ghost tail, it exceeds one. */
  lemma ColourFactorRange(lr: real)
    ensures lr >= 0.3 ==> ColourFactor(Real(lr)) == Zero
    ensures ColourFactor(NaN) == Zero
    ensures ColourFactor(Zero) == One
    ensures 0.0 <= lr < 0.3 ==> 0.0 < ColourFactor(Real(lr)).r <= 1.0
    ensures lr < 0.0 ==> ColourFactor(Real(lr)).r > 1.0
  {
  }

  /** The size multiplier is one for every real life ratio except exactly
      zero, and at zero it is one exactly when the ghost duration is a
      non-zero number; otherwise it is NaN. It never shrinks a particle. */
  lemma SizeMultiplierIsOne(lr: Num, ghostDuration: Num)
    ensures lr.Real? && lr.r != 0.0 ==> SizeMultiplier(lr, ghostDuration) == One
    ensures lr == Zero ==> (SizeMultiplier(lr, ghostDuration) == One <==> ghostDuration.Real? && ghostDuration.r != 0.0)
    ensures SizeMultiplier(lr, ghostDuration) == One || SizeMultiplier(lr, ghostDuration) == NaN
  {
    if lr.Real? && lr.r != 0.0 {
      assert Gt(Abs(lr), Zero);
    }
  }

  // -------------------------------------------------------------- clears

  /** `buf` with its first `n` entries zeroed. */
  function ZeroPrefix(buf: seq<Num>, n: nat): (r: seq<Num>)
    ensures |r| == |buf|
    ensures forall k :: 0 <= k < |r| ==> r[k] == if k < n then Zero else buf[k]
  {
    seq(|buf|, k requires 0 <= k < |buf| => if k < n then Zero else buf[k])
  }

  /** `clearParticles()` (modules/particle-system.js:171-183): no particles,
      and position and alpha zeroed for every slot below `count`. */
  function Clear(sys: System, sets: ParamSets): (r: System)
    ensures r.particles == [] && r.params == sys.params
    ensures var slots := Slots(NumParam(sets.Get(sys.params), "count"));
      && |r.buffers.positions| == |sys.buffers.positions| && |r.buffers.alphas| == |sys.buffers.alphas|
      && (forall i: nat, j: nat {:trigger Flat(i, j)} :: j < 3 && Flat(i, j) < |r.buffers.positions| ==>
            r.buffers.positions[Flat(i, j)] == if i < slots then Zero else sys.buffers.positions[Flat(i, j)])
      && (forall i: nat :: i < |r.buffers.alphas| ==>
            r.buffers.alphas[i] == if i < slots then Zero else sys.buffers.alphas[i])
    ensures r.buffers.colors == sys.buffers.colors && r.buffers.sizes == sys.buffers.sizes
  {
    var slots := Slots(NumParam(sets.Get(sys.params), "count"));
    System(sys.params, [], sys.buffers.(positions := ZeroPrefix(sys.buffers.positions, 3 * slots),
                                        alphas := ZeroPrefix(sys.buffers.alphas, slots)))
  }

  /** Clearing twice is clearing once. */
  lemma ClearIdempotent(sys: System, sets: ParamSets)
    ensures Clear(Clear(sys, sets), sets) == Clear(sys, sets)
  {
    var once := Clear(sys, sets);
    var twice := Clear(once, sets);
    assert twice.buffers.positions == once.buffers.positions;
    assert twice.buffers.alphas == once.buffers.alphas;
  }

  /** A geometry pass over an empty list leaves exactly the positions and
      alphas a clear leaves. */
  lemma ClearMatchesEmptyRender(sys: System, sets: ParamSets, after: Buffers, pow: real -> real)
    requires Rendered(sys.buffers, after, [], sets, sys.params, pow, Slots(NumParam(sets.Get(sys.params), "count")))
    ensures after.positions == Clear(sys, sets).buffers.positions
    ensures after.alphas == Clear(sys, sets).buffers.alphas
  {
    var c := Clear(sys, sets);
    forall k | 0 <= k < |after.positions|
      ensures after.positions[k] == c.buffers.positions[k]
    {
      var (i, j) := (k / 3, k % 3);
      assert k == Flat(i, j);
    }
  }

  /** `gentleClear()` without its timer (modules/particle-system.js:161-164):
      `clearingMode := true` on the system's current parameter object. */
  function GentleClear(sys: System, sets: ParamSets): (r: ParamSets)
    ensures TruthyParam(r.Get(sys.params), "clearingMode")
    ensures forall key :: key in sets.Get(sys.params) && key != "clearingMode" ==>
      key in r.Get(sys.params) && r.Get(sys.params)[key] == sets.Get(sys.params)[key]
    ensures forall other: SetId :: other != sys.params ==> r.Get(other) == sets.Get(other)
    ensures r.Get(sys.params).Keys == sets.Get(sys.params).Keys + {"clearingMode"}
  {
    sets.Put(sys.params, sets.Get(sys.params)["clearingMode" := Flag(true)])
  }

  /** After a gentle clear every particle born under the system's current
      parameter object is clearing after its next update; one that was not
      clearing yet records its life and keeps at most five seconds of it. */
  lemma GentleClearThenStep(sys: System, sets: ParamSets, pt: Particle, dt: real, env: StepEnv, trig: Trig)
    requires pt.params == sys.params && pt.life.Real?
    ensures var sets' := GentleClear(sys, sets);
      var q := Step(pt, sets'.Get(pt.params), dt, env, trig).particle;
      && q.clearing
      && q.life.Real?
      && (!pt.clearing ==> q.clearStartLife == Some(pt.life) && q.life.r <= 5.0 - dt)
  {
    var sets' := GentleClear(sys, sets);
    StepLife(pt, sets'.Get(pt.params), dt, env, trig);
  }
}
