/** JavaScript numbers as this model sees them: an exact real value, or NaN.
    Arithmetic propagates NaN and every comparison involving NaN is false,
    as in JavaScript. Infinities, signed zero and floating-point rounding
    are not modelled; a division by zero yields NaN. */
module JsNum {

  datatype Num = Real(r: real) | NaN

  /** A value or JavaScript's `null`. */
  datatype Option<T> = None | Some(value: T)

  const Zero: Num := Real(0.0)
  const One: Num := Real(1.0)

  /** `Math.PI`, written out as the decimal of the double it denotes. */
  const Pi: real := 3.141592653589793

  function Add(a: Num, b: Num): Num {
    if a.Real? && b.Real? then Real(a.r + b.r) else NaN
  }

  function Sub(a: Num, b: Num): Num {
    if a.Real? && b.Real? then Real(a.r - b.r) else NaN
  }

  function Mul(a: Num, b: Num): Num {
    if a.Real? && b.Real? then Real(a.r * b.r) else NaN
  }

  /** Multiplication of two real numbers, as a fact to instantiate. */
  lemma MulReal(a: real, b: real)
    ensures Mul(Real(a), Real(b)) == Real(a * b)
  {
  }

  function Div(a: Num, b: Num): Num {
    if a.Real? && b.Real? && b.r != 0.0 then Real(a.r / b.r) else NaN
  }

  /** Sign facts about products of reals, as facts to instantiate. */
  lemma NonNegativeProduct(a: real, b: real)
    requires a >= 0.0 && b >= 0.0
    ensures a * b >= 0.0
  {
  }

  lemma PositiveProduct(a: real, b: real)
    requires a > 0.0 && b > 0.0
    ensures a * b > 0.0
  {
  }

  lemma SquareSign(a: real)
    ensures a * a >= 0.0 && (a != 0.0 ==> a * a > 0.0)
  {
    if a > 0.0 {
      PositiveProduct(a, a);
    } else if a < 0.0 {
      PositiveProduct(-a, -a);
    }
  }

  /** A non-zero number divided by itself is one. */
  lemma DivSelf(a: real)
    requires a != 0.0
    ensures Div(Real(a), Real(a)) == One
  {
  }

  function Neg(a: Num): Num {
    if a.Real? then Real(-a.r) else NaN
  }

  function Abs(a: Num): Num {
    if a.Real? then Real(if a.r < 0.0 then -a.r else a.r) else NaN
  }

  /** `a < b` */
  predicate Lt(a: Num, b: Num) {
    a.Real? && b.Real? && a.r < b.r
  }

  /** `a > b` */
  predicate Gt(a: Num, b: Num) {
    Lt(b, a)
  }

  /** `a >= b` */
  predicate Ge(a: Num, b: Num) {
    a.Real? && b.Real? && a.r >= b.r
  }

  /** `Math.max(a, b)`: NaN when either argument is NaN. */
  function Max(a: Num, b: Num): Num {
    if a.Real? && b.Real? then Real(if a.r < b.r then b.r else a.r) else NaN
  }

  /** `Math.min(a, b)`: NaN when either argument is NaN. */
  function Min(a: Num, b: Num): Num {
    if a.Real? && b.Real? then Real(if a.r < b.r then a.r else b.r) else NaN
  }

  /** A numeric library function (`Math.sin`, `Math.sqrt`, ...) applied to a number. */
  function Apply(f: real -> real, a: Num): Num {
    if a.Real? then Real(f(a.r)) else NaN
  }

  /** The loop test `i < n` for a loop counter `i`. */
  predicate Below(i: nat, n: Num) {
    Lt(Real(i as real), n)
  }

  /** The least integer not below `x`. */
  function Ceil(x: real): int {
    if x.Floor as real == x then x.Floor else x.Floor + 1
  }

  /** How many counters `0, 1, 2, ...` pass the test `i < n`: the iteration
      count of `for (let i = 0; i < n; i++)` when nothing breaks out. */
  function Slots(n: Num): (k: nat)
    ensures forall i: nat {:trigger Below(i, n)} :: Below(i, n) <==> i < k
  {
    if n.Real? && n.r > 0.0 then Ceil(n.r) else 0
  }

  /** A `THREE.Vector3`. */
  datatype Vec3 = Vec3(x: Num, y: Num, z: Num)

  const Origin: Vec3 := Vec3(Zero, Zero, Zero)

  predicate IsReal(v: Vec3) {
    v.x.Real? && v.y.Real? && v.z.Real?
  }

  /** `a.add(b)` */
  function VAdd(a: Vec3, b: Vec3): Vec3 {
    Vec3(Add(a.x, b.x), Add(a.y, b.y), Add(a.z, b.z))
  }

  /** `a.sub(b)` */
  function VSub(a: Vec3, b: Vec3): Vec3 {
    Vec3(Sub(a.x, b.x), Sub(a.y, b.y), Sub(a.z, b.z))
  }

  /** `v.multiplyScalar(s)` */
  function VScale(v: Vec3, s: Num): Vec3 {
    Vec3(Mul(v.x, s), Mul(v.y, s), Mul(v.z, s))
  }

  /** `v.negate()` */
  function VNeg(v: Vec3): Vec3 {
    Vec3(Neg(v.x), Neg(v.y), Neg(v.z))
  }

  /** `v.lengthSq()` */
  function LenSq(v: Vec3): Num {
    Add(Add(Mul(v.x, v.x), Mul(v.y, v.y)), Mul(v.z, v.z))
  }

  /** `a.distanceToSquared(b)` */
  function DistSq(a: Vec3, b: Vec3): Num {
    LenSq(VSub(a, b))
  }

  /** `v.normalize()`, given `Math.sqrt`: divides by `v.length() || 1`, so a
      zero or NaN length divides by one. */
  function Normalize(v: Vec3, sqrt: real -> real): Vec3 {
    var len := Apply(sqrt, LenSq(v));
    var divisor := if len.Real? && len.r != 0.0 then len else One;
    VScale(v, Div(One, divisor))
  }

  /** A `THREE.Color`. */
  datatype Rgb = Rgb(r: Num, g: Num, b: Num)

  /** `c.clone().lerp(e, t)`: each channel moves by `(e - c) * t`. */
  function Lerp(c: Rgb, e: Rgb, t: Num): Rgb {
    Rgb(Add(c.r, Mul(Sub(e.r, c.r), t)),
        Add(c.g, Mul(Sub(e.g, c.g), t)),
        Add(c.b, Mul(Sub(e.b, c.b), t)))
  }

  const Black: Rgb := Rgb(Zero, Zero, Zero)

  /** `Math.sqrt` is a square root: non-negative, and squares back to its argument. */
  ghost predicate IsSqrt(sqrt: real -> real) {
    forall x: real {:trigger sqrt(x)} :: x >= 0.0 ==> sqrt(x) >= 0.0 && sqrt(x) * sqrt(x) == x
  }

  /** A normalised non-zero real vector has length one. */
  lemma NormalizeIsUnit(v: Vec3, sqrt: real -> real)
    requires IsSqrt(sqrt)
    requires IsReal(v) && LenSq(v) != Zero
    ensures LenSq(Normalize(v, sqrt)) == One
  {
    var (a, b, c) := (v.x.r, v.y.r, v.z.r);
    var q := a * a + b * b + c * c;
    assert LenSq(v) == Real(q);
    var l := sqrt(q);
    assert l * l == q && l != 0.0;
    var k := 1.0 / l;
    assert Apply(sqrt, LenSq(v)) == Real(l);
    assert Div(One, Real(l)) == Real(k);
    assert Mul(v.x, Real(k)) == Real(a * k);
    assert Mul(v.y, Real(k)) == Real(b * k);
    assert Mul(v.z, Real(k)) == Real(c * k);
    assert Normalize(v, sqrt) == Vec3(Real(a * k), Real(b * k), Real(c * k));
    calc {
      a * k * (a * k) + b * k * (b * k) + c * k * (c * k);
      q * (k * k);
      { assert k * k * (l * l) == 1.0; }
      1.0;
    }
  }

  /** Lerp reaches each end of the colour range. */
  lemma LerpEnds(c: Rgb, e: Rgb)
    requires c.r.Real? && c.g.Real? && c.b.Real?
    requires e.r.Real? && e.g.Real? && e.b.Real?
    ensures Lerp(c, e, Zero) == c
    ensures Lerp(c, e, One) == e
  {
  }
}
