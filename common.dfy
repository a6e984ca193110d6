/**
 * Shared vocabulary of the archery model: 3-vectors over the reals,
 * optional values, the JavaScript rounding operators the game relies on,
 * and the bundle of foreign vector operations (length, normalisation)
 * that the model receives as uninterpreted functions.
 */
module Common {

  datatype Option<T> = None | Some(value: T)

  /** A THREE.Vector3 position, direction or normal. */
  datatype Vec3 = Vec3(x: real, y: real, z: real)

  const Zero: Vec3 := Vec3(0.0, 0.0, 0.0)

  function Add(a: Vec3, b: Vec3): Vec3 { Vec3(a.x + b.x, a.y + b.y, a.z + b.z) }

  function Sub(a: Vec3, b: Vec3): Vec3 { Vec3(a.x - b.x, a.y - b.y, a.z - b.z) }

  function Scale(a: Vec3, k: real): Vec3 { Vec3(a.x * k, a.y * k, a.z * k) }

  /** `Vector3.lengthSq`: the only length the game computes without a square root. */
  function LengthSq(a: Vec3): real { a.x * a.x + a.y * a.y + a.z * a.z }

  /** `Vector3.lerp(b, alpha)`: a + (b - a)·alpha, componentwise. */
  function Lerp(a: Vec3, b: Vec3, alpha: real): Vec3 { Add(a, Scale(Sub(b, a), alpha)) }

  /**
   * The foreign, square-root based vector operations of three.js
   * (`length`, `distanceTo`, `normalize`).  The model never looks inside
   * them; they are handed to the operations that use them.
   */
  datatype Geometry = Geometry(length: Vec3 -> real, normalize: Vec3 -> Vec3)

  function Distance(g: Geometry, a: Vec3, b: Vec3): real { g.length(Sub(a, b)) }

  function Min(a: real, b: real): real { if a <= b then a else b }

  function Max(a: real, b: real): real { if a >= b then a else b }

  function Abs(a: real): real { if a < 0.0 then -a else a }

  function IMax(a: int, b: int): int { if a >= b then a else b }

  /** `Math.max(lo, Math.min(hi, v))`: the clamp idiom the game writes out. */
  function Clamp(v: real, lo: real, hi: real): (r: real)
    ensures lo <= hi ==> lo <= r <= hi
    ensures lo <= v <= hi ==> r == v
  {
    Max(lo, Min(hi, v))
  }

  /** `Math.floor` on a finite number. */
  function JsFloor(v: real): (r: int)
    ensures r as real <= v < r as real + 1.0
  {
    v.Floor
  }

  /**
   * `Math.round` on a finite number: the nearest integer, halves rounded
   * towards +infinity, i.e. floor(v + 0.5).
   */
  function JsRound(v: real): (r: int)
    ensures v - 0.5 < r as real <= v + 0.5
  {
    (v + 0.5).Floor
  }

  /** A `Math.random()` draw. */
  predicate IsDraw(r: real) { 0.0 <= r < 1.0 }

  /** `Math.floor(draw · n)` indexes a non-empty list of length n. */
  lemma DrawIndex(d: real, n: nat)
    requires IsDraw(d) && n > 0
    ensures 0 <= JsFloor(d * n as real) < n
  {
    var m := n as real;
    ProductNonNeg(d, m);
    ProductPos(1.0 - d, m);
    SubMul(d, m);
    FloorBelow(d * m, n);
  }

  lemma SubMul(d: real, m: real)
    ensures (1.0 - d) * m == m - d * m
  {
  }

  lemma FloorBelow(v: real, n: nat)
    requires 0.0 <= v < n as real
    ensures 0 <= JsFloor(v) < n
  {
  }

  lemma ProductNonNeg(a: real, b: real)
    requires a >= 0.0 && b >= 0.0
    ensures a * b >= 0.0
  {
  }

  lemma ProductPos(a: real, b: real)
    requires a > 0.0 && b > 0.0
    ensures a * b > 0.0
  {
  }
}
