/** Three-dimensional vectors over exact reals: the subset of `mathutils.Vector` the scripts use. */
module Geometry {

  datatype Vec3 = Vec3(x: real, y: real, z: real)

  const Zero: Vec3 := Vec3(0.0, 0.0, 0.0)

  function Add(a: Vec3, b: Vec3): Vec3 { Vec3(a.x + b.x, a.y + b.y, a.z + b.z) }

  function Sub(a: Vec3, b: Vec3): Vec3 { Vec3(a.x - b.x, a.y - b.y, a.z - b.z) }

  function Scale(k: real, a: Vec3): Vec3 { Vec3(k * a.x, k * a.y, k * a.z) }

  function Cross(a: Vec3, b: Vec3): Vec3
  {
    Vec3(a.y * b.z - a.z * b.y, a.z * b.x - a.x * b.z, a.x * b.y - a.y * b.x)
  }

  /** The squared Euclidean length. */
  function NormSq(a: Vec3): real { a.x * a.x + a.y * a.y + a.z * a.z }

  /** `len` is the Euclidean length of `v`: the non-negative root of the squared length,
      zero exactly for the zero vector. Blender computes it with a square root, which the
      reals of this model lack, so callers supply it. */
  predicate IsNorm(v: Vec3, len: real)
  {
    0.0 <= len && len * len == NormSq(v) && (len == 0.0 <==> v == Zero)
  }

  /** `v.normalized()`: `v` divided by its length `len`; the zero vector stays zero. */
  function Normalized(v: Vec3, len: real): (u: Vec3)
    requires IsNorm(v, len)
    ensures v == Zero <==> u == Zero
  {
    if len == 0.0 then
      Zero
    else
      DivideAndScale(v, len);
      Scale(1.0 / len, v)
  }

  /** Normalising keeps the direction and, away from zero, gives unit length. */
  lemma NormalizedSpec(v: Vec3, len: real)
    requires IsNorm(v, len)
    ensures Scale(len, Normalized(v, len)) == v
    ensures v != Zero ==> NormSq(Normalized(v, len)) == 1.0
  {
    if len != 0.0 {
      DivideAndScale(v, len);
      UnitAfterDivision(v, len);
    }
  }

  lemma ProductCancel(len: real, x: real)
    requires len != 0.0
    ensures len * ((1.0 / len) * x) == x
    ensures (1.0 / len) * x == 0.0 ==> x == 0.0
  {
    var k := 1.0 / len;
    assert len * k == 1.0;
    assert len * (k * x) == (len * k) * x;
  }

  /** Dividing a non-zero vector by a non-zero length and scaling back is the identity. */
  lemma DivideAndScale(v: Vec3, len: real)
    requires len != 0.0 && v != Zero
    ensures Scale(len, Scale(1.0 / len, v)) == v && Scale(1.0 / len, v) != Zero
  {
    assert Zero == Vec3(0.0, 0.0, 0.0);
    ProductCancel(len, v.x);
    ProductCancel(len, v.y);
    ProductCancel(len, v.z);
  }

  lemma {:induction false} NormSqScale(k: real, a: Vec3)
    ensures NormSq(Scale(k, a)) == k * k * NormSq(a)
  {
    calc {
      NormSq(Scale(k, a));
      (k * a.x) * (k * a.x) + (k * a.y) * (k * a.y) + (k * a.z) * (k * a.z);
      k * k * (a.x * a.x + a.y * a.y + a.z * a.z);
    }
  }

  lemma InverseSquare(len: real, n: real)
    requires len != 0.0 && len * len == n
    ensures (1.0 / len) * (1.0 / len) * n == 1.0
  {
    var k := 1.0 / len;
    assert k * len == 1.0;
    assert k * k * (len * len) == (k * len) * (k * len);
  }

  /** A vector divided by its non-zero length has unit length. */
  lemma UnitAfterDivision(v: Vec3, len: real)
    requires len != 0.0 && len * len == NormSq(v)
    ensures NormSq(Scale(1.0 / len, v)) == 1.0
  {
    NormSqScale(1.0 / len, v);
    InverseSquare(len, NormSq(v));
  }

  /** Scaling a unit vector by `k` gives a vector of squared length `k * k`. */
  lemma ScaledUnitLength(k: real, u: Vec3)
    requires NormSq(u) == 1.0
    ensures NormSq(Scale(k, u)) == k * k
  {
    NormSqScale(k, u);
  }

  /** Vectors whose cross product is non-zero are both non-zero and differ. */
  lemma NonParallel(a: Vec3, b: Vec3)
    requires Cross(a, b) != Zero
    ensures a != Zero && b != Zero && Sub(a, b) != Zero
  {
  }

  /** A vector's cross product with itself is zero. */
  lemma CrossSelf(a: Vec3)
    ensures Cross(a, a) == Zero
  {
  }

  /** Adding the negation of a vector cancels it. */
  lemma AddNegated(a: Vec3)
    ensures Add(a, Scale(-1.0, a)) == Zero
  {
  }

  /** Any multiple of the zero vector is zero, and adding zero changes nothing. */
  lemma ScaleZero(k: real, a: Vec3)
    ensures Scale(k, Zero) == Zero && Add(a, Zero) == a
  {
  }

  /** The zero vector normalises to itself. */
  lemma NormalizedZero(v: Vec3, len: real)
    requires IsNorm(v, len) && v == Zero
    ensures Normalized(v, len) == Zero
  {
  }
}
