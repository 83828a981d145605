/**
 * The physics kernel: pure transforms of a velocity (sometimes reading a
 * position) under friction, gravity, turbulence, a speed cap, a pull toward a
 * centre line and a half-elastic bounce at the top and bottom edges.
 */
module Physics {
  import opened RealArith

  datatype Vec = Vec(x: real, y: real)

  const ZERO: Vec := Vec(0.0, 0.0)

  function SqMagnitude(v: Vec): real {
    v.x * v.x + v.y * v.y
  }

  function Scale(v: Vec, k: real): Vec {
    Vec(v.x * k, v.y * k)
  }

  lemma SqMagnitudeScale(v: Vec, k: real)
    ensures SqMagnitude(Scale(v, k)) == k * k * SqMagnitude(v)
  {
    calc {
      SqMagnitude(Scale(v, k));
      (v.x * k) * (v.x * k) + (v.y * k) * (v.y * k);
      k * k * (v.x * v.x) + k * k * (v.y * v.y);
    }
  }

  lemma SqMagnitudePositive(v: Vec)
    ensures SqMagnitude(v) >= 0.0
    ensures v != ZERO ==> SqMagnitude(v) > 0.0
  {
    SquareSign(v.x);
    SquareSign(v.y);
    assert SqMagnitude(v) == Mul(v.x, v.x) + Mul(v.y, v.y);
  }

  // ---------------------------------------------------------------------------

  /** `applyFriction`: with a friction in (0,1) a moving body loses speed. */
  function ApplyFriction(velocity: Vec, friction: real): (r: Vec)
    ensures r == Scale(velocity, friction)
    ensures 0.0 < friction < 1.0 && velocity != ZERO ==>
              r != ZERO && SqMagnitude(r) < SqMagnitude(velocity)
  {
    FrictionShrinks(velocity, friction);
    Vec(velocity.x * friction, velocity.y * friction)
  }

  lemma FrictionShrinks(v: Vec, f: real)
    ensures 0.0 < f < 1.0 && v != ZERO ==> Scale(v, f) != ZERO && SqMagnitude(Scale(v, f)) < SqMagnitude(v)
  {
    if 0.0 < f < 1.0 && v != ZERO {
      SqMagnitudeScale(v, f);
      SqMagnitudePositive(v);
      assert f * f < 1.0;
      assert (1.0 - f * f) * SqMagnitude(v) > 0.0;
      if v.x != 0.0 { assert v.x * f != 0.0; } else { assert v.y * f != 0.0; }
    }
  }

  /** `n` frames of friction. */
  function FrictionIterate(v: Vec, friction: real, n: nat): Vec
    decreases n
  {
    if n == 0 then v else ApplyFriction(FrictionIterate(v, friction, n - 1), friction)
  }

  /** Every further frame of friction strictly lowers the speed, and the body never quite stops. */
  lemma {:induction false} FrictionKeepsDecaying(v: Vec, friction: real, n: nat)
    requires 0.0 < friction < 1.0 && v != ZERO
    ensures FrictionIterate(v, friction, n) != ZERO
    ensures SqMagnitude(FrictionIterate(v, friction, n + 1)) < SqMagnitude(FrictionIterate(v, friction, n))
  {
    if n > 0 {
      FrictionKeepsDecaying(v, friction, n - 1);
    }
  }

  /** `applyGravity`: only the vertical component moves, down by `gravity` (up when inverted). */
  function ApplyGravity(velocity: Vec, gravity: real, inverted: bool := false): (r: Vec)
    ensures r.x == velocity.x
    ensures !inverted && gravity > 0.0 ==> r.y > velocity.y
    ensures inverted && gravity > 0.0 ==> r.y < velocity.y
  {
    Vec(velocity.x, velocity.y + (if inverted then -gravity else gravity))
  }

  /** Inverted gravity undoes normal gravity of the same strength. */
  lemma GravityInverts(v: Vec, gravity: real)
    ensures ApplyGravity(ApplyGravity(v, gravity, false), gravity, true) == v
    ensures ApplyGravity(ApplyGravity(v, gravity, true), gravity, false) == v
  {
  }

  lemma GravityScenario()
    ensures ApplyGravity(ZERO, 0.3) == Vec(0.0, 0.3)
    ensures ApplyGravity(ZERO, 0.3, true) == Vec(0.0, -0.3)
  {
  }

  /**
   * `applyTurbulence`, given the two `Math.random()` draws `rx`, `ry` in [0,1).
   * Each component moves by less than half the strength.
   */
  function ApplyTurbulence(velocity: Vec, strength: real, rx: real, ry: real): (r: Vec)
    requires 0.0 <= rx < 1.0 && 0.0 <= ry < 1.0
    ensures strength <= 0.0 ==> r == velocity
    ensures strength > 0.0 ==>
      && -strength / 2.0 <= r.x - velocity.x < strength / 2.0
      && -strength / 2.0 <= r.y - velocity.y < strength / 2.0
  {
    if strength <= 0.0 then velocity
    else
      var noise := Vec(NoiseOffset(rx, strength), NoiseOffset(ry, strength));
      Vec(velocity.x + noise.x, velocity.y + noise.y)
  }

  /** One centred random offset `(r - 0.5) * s`. */
  function NoiseOffset(r: real, s: real): (d: real)
    requires 0.0 <= r < 1.0 && s > 0.0
    ensures -s / 2.0 <= d < s / 2.0
  {
    assert (r - 0.5) * s == r * s - s / 2.0;
    MulNonNeg(r, s);
    MulStrictMonotone(r, 1.0, s);
    (r - 0.5) * s
  }

  /**
   * `clampSpeed`; `speed` is the length of `velocity` (the source takes a square
   * root). Above the cap the velocity is rescaled to length |maxSpeed|: by a
   * factor in [0,1) for a cap >= 0, and reversed for a negative cap. A zero
   * velocity under a negative cap (a division by zero giving NaN in the source)
   * is excluded.
   */
  function ClampSpeed(velocity: Vec, maxSpeed: real, speed: real): (r: Vec)
    requires speed >= 0.0 && speed * speed == SqMagnitude(velocity)
    requires speed > maxSpeed ==> speed > 0.0
    ensures speed <= maxSpeed ==> r == velocity
    ensures speed > maxSpeed ==>
      && SqMagnitude(r) == maxSpeed * maxSpeed
      && r == Scale(velocity, maxSpeed / speed)
      && maxSpeed / speed < 1.0
    ensures speed > maxSpeed && maxSpeed >= 0.0 ==> 0.0 <= maxSpeed / speed
    ensures speed > maxSpeed && maxSpeed < 0.0 ==> maxSpeed / speed < 0.0
  {
    if speed > maxSpeed then
      var scale := maxSpeed / speed;
      ClampHitsCap(velocity, maxSpeed, speed);
      Vec(velocity.x * scale, velocity.y * scale)
    else
      velocity
  }

  lemma ClampHitsCap(v: Vec, maxSpeed: real, speed: real)
    requires speed > 0.0 && speed * speed == SqMagnitude(v)
    ensures SqMagnitude(Scale(v, maxSpeed / speed)) == maxSpeed * maxSpeed
    ensures maxSpeed < speed ==> maxSpeed / speed < 1.0
  {
    var k := maxSpeed / speed;
    assert k * speed == maxSpeed;
    SqMagnitudeScale(v, k);
    calc {
      k * k * SqMagnitude(v);
      k * k * (speed * speed);
      (k * speed) * (k * speed);
      maxSpeed * maxSpeed;
    }
    if maxSpeed < speed && k >= 1.0 {
      assert false;
    }
  }

  /** `stabilizeY`: a pull on the vertical velocity toward the centre line `targetY`. */
  function StabilizeY(position: Vec, velocity: Vec, targetY: real, stabilityFactor: real): (r: Vec)
    ensures r.x == velocity.x
    ensures position.y == targetY ==> r == velocity
    ensures stabilityFactor > 0.0 && position.y < targetY ==> r.y > velocity.y
    ensures stabilityFactor > 0.0 && position.y > targetY ==> r.y < velocity.y
  {
    var diff := targetY - position.y;
    var stabilizationForce := diff * stabilityFactor * 0.01;
    Vec(velocity.x, velocity.y + stabilizationForce)
  }

  /** `applyForceField`: a placeholder that returns the velocity whatever the fields are. */
  function ApplyForceField<F>(position: Vec, velocity: Vec, forceFields: seq<F>): (r: Vec)
    ensures r == velocity
  {
    velocity
  }

  /**
   * `d` is the distance between `p1` and `p2` (the source takes a square root):
   * the non-negative root of the squared difference.
   */
  ghost predicate IsDistance(p1: Vec, p2: Vec, d: real) {
    d >= 0.0 && d * d == (p2.x - p1.x) * (p2.x - p1.x) + (p2.y - p1.y) * (p2.y - p1.y)
  }

  /** The distance is symmetric, unique, and zero exactly between equal points. */
  lemma DistanceProperties(p1: Vec, p2: Vec, d: real, e: real)
    requires IsDistance(p1, p2, d)
    ensures IsDistance(p2, p1, d)
    ensures IsDistance(p1, p2, e) ==> e == d
    ensures d == 0.0 <==> p1 == p2
  {
    assert (p1.x - p2.x) * (p1.x - p2.x) == (p2.x - p1.x) * (p2.x - p1.x);
    assert (p1.y - p2.y) * (p1.y - p2.y) == (p2.y - p1.y) * (p2.y - p1.y);
    if IsDistance(p1, p2, e) {
      SquareRootUnique(d, e);
    }
    ZeroDistance(p1, p2, d);
  }

  /** A distance is zero exactly between equal points. */
  lemma ZeroDistance(p1: Vec, p2: Vec, d: real)
    requires IsDistance(p1, p2, d)
    ensures d == 0.0 <==> p1 == p2
  {
    var v := Vec(p2.x - p1.x, p2.y - p1.y);
    assert d * d == SqMagnitude(v);
    RootOfZeroVector(d, v);
    assert p1 == p2 <==> v == ZERO;
  }

  /** A non-negative root of a squared magnitude is zero exactly for the zero vector. */
  lemma RootOfZeroVector(d: real, v: Vec)
    requires d >= 0.0 && d * d == SqMagnitude(v)
    ensures d == 0.0 <==> v == ZERO
  {
    RootOfZero(d, SqMagnitude(v));
    SqMagnitudeZero(v);
  }

  /** Only the zero vector has squared magnitude zero. */
  lemma SqMagnitudeZero(v: Vec)
    ensures SqMagnitude(v) == 0.0 <==> v == ZERO
  {
    SqMagnitudePositive(v);
    if v == ZERO {
      assert SqMagnitude(v) == 0.0 * 0.0 + 0.0 * 0.0;
    }
  }

  /** `lerp`: hits both endpoints (and, below, stays between them for t in [0,1]). */
  function Lerp(a: real, b: real, t: real): (r: real)
    ensures t == 0.0 ==> r == a
    ensures t == 1.0 ==> r == b
  {
    a + (b - a) * t
  }

  lemma LerpBetween(a: real, b: real, t: real)
    ensures 0.0 <= t <= 1.0 && a <= b ==> a <= Lerp(a, b, t) <= b
    ensures 0.0 <= t <= 1.0 && b <= a ==> b <= Lerp(a, b, t) <= a
  {
    if 0.0 <= t <= 1.0 {
      assert (b - a) * t == (b - a) - (b - a) * (1.0 - t);
      if a <= b {
        MulNonNeg(b - a, t);
        MulNonNeg(b - a, 1.0 - t);
      } else {
        MulNonNeg(a - b, t);
        MulNonNeg(a - b, 1.0 - t);
      }
    }
  }

  /**
   * `checkBounds`: near the top edge the vertical velocity turns downward-into-
   * the-screen at half its size, near the bottom upward at half its size;
   * elsewhere, and always horizontally, nothing changes.
   */
  function CheckBounds(position: Vec, velocity: Vec, width: real, height: real, padding: real := DEFAULT_PADDING): (r: Vec)
    ensures r.x == velocity.x
    ensures position.y < padding ==> r.y >= 0.0 && Abs(r.y) == Abs(velocity.y) / 2.0
    ensures padding <= position.y && position.y > height - padding ==>
              r.y <= 0.0 && Abs(r.y) == Abs(velocity.y) / 2.0
    ensures padding <= position.y <= height - padding ==> r == velocity
  {
    if position.y < padding then velocity.(y := Abs(velocity.y) * 0.5)
    else if position.y > height - padding then velocity.(y := -Abs(velocity.y) * 0.5)
    else velocity
  }

  const DEFAULT_PADDING: real := 50.0
}
