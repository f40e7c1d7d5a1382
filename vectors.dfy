/** Three-component vectors over exact reals, standing for the parts of
    Babylon's `Vector3` that the flock uses: `add`, `subtract`, `scale`,
    `lengthSquared`, `length` and `normalize`. Every operation returns a
    new value; the in-place variants of the original (`addInPlace`,
    `scaleInPlace`, `copyFrom`) become reassignments of the field that holds
    the vector. */
module Vectors {

  datatype Vec = Vec(x: real, y: real, z: real)

  const ZERO := Vec(0.0, 0.0, 0.0)

  function Add(a: Vec, b: Vec): Vec {
    Vec(a.x + b.x, a.y + b.y, a.z + b.z)
  }

  function Sub(a: Vec, b: Vec): Vec {
    Vec(a.x - b.x, a.y - b.y, a.z - b.z)
  }

  function Scale(v: Vec, k: real): Vec {
    Vec(v.x * k, v.y * k, v.z * k)
  }

  function Dot(a: Vec, b: Vec): real {
    a.x * b.x + a.y * b.y + a.z * b.z
  }

  // Squares are written through Mul so that the solver keeps a fact such as
  // `0 < Sq(a)` as a fact about one term instead of rewriting it to `a != 0`.
  function Mul(a: real, b: real): real {
    a * b
  }

  function Sq(a: real): real {
    Mul(a, a)
  }

  lemma MulPositive(a: real, b: real)
    requires 0.0 < a && 0.0 < b
    ensures 0.0 < Mul(a, b)
  {
  }

  lemma MulNonNegative(a: real, b: real)
    requires 0.0 <= a && 0.0 <= b
    ensures 0.0 <= Mul(a, b)
  {
    if 0.0 < a && 0.0 < b {
      MulPositive(a, b);
    }
  }

  lemma MulZero(a: real, b: real)
    ensures Mul(a, b) == 0.0 ==> a == 0.0 || b == 0.0
  {
  }

  /** A square is never negative, and is zero only for zero. */
  lemma SqSign(a: real)
    ensures 0.0 <= Sq(a)
    ensures a != 0.0 ==> 0.0 < Sq(a)
  {
    if a > 0.0 {
      MulPositive(a, a);
    } else if a < 0.0 {
      MulPositive(-a, -a);
      assert Mul(-a, -a) == Mul(a, a);
    }
  }

  lemma SqProduct(a: real, k: real)
    ensures Sq(a * k) == Sq(k) * Sq(a)
  {
  }

  /** The squared Euclidean length: never negative, and zero only for the zero vector. */
  function LengthSquared(v: Vec): (r: real)
    ensures 0.0 <= r
    ensures r == 0.0 <==> v == ZERO
  {
    SqSign(v.x);
    SqSign(v.y);
    SqSign(v.z);
    Sq(v.x) + Sq(v.y) + Sq(v.z)
  }

  /** `sqrt` is a square root on the non-negative reals (the role Math.sqrt
      plays inside `length()`); exact reals have no computable square root,
      so the model takes one as a parameter and relies only on this. */
  ghost predicate IsSqrt(sqrt: real -> real) {
    forall x :: RootAt(sqrt, x)
  }

  /** `sqrt` gives the non-negative square root of `x`, when `x` is not negative. */
  ghost predicate RootAt(sqrt: real -> real, x: real) {
    0.0 <= x ==> 0.0 <= sqrt(x) && Sq(sqrt(x)) == x
  }

  /** The Euclidean length: the non-negative root of the squared length. */
  function Length(v: Vec, sqrt: real -> real): (r: real)
    requires IsSqrt(sqrt)
    ensures 0.0 <= r
    ensures r == 0.0 <==> v == ZERO
  {
    var ls := LengthSquared(v);
    assert RootAt(sqrt, ls);
    var r := sqrt(ls);
    SqSign(r);
    r
  }

  /** The length squared is the squared length. */
  lemma LengthSquares(v: Vec, sqrt: real -> real)
    requires IsSqrt(sqrt)
    ensures Sq(Length(v, sqrt)) == LengthSquared(v)
  {
    assert RootAt(sqrt, LengthSquared(v));
  }

  /** Two non-negative reals with the same square are equal. */
  lemma SqInjective(r: real, a: real)
    requires 0.0 <= r && 0.0 <= a && Sq(r) == Sq(a)
    ensures r == a
  {
    assert Mul(a - r, a + r) == Sq(a) - Sq(r);
    MulZero(a - r, a + r);
  }

  /** The length of a vector along the first axis is the absolute value of
      its component. */
  lemma LengthOnAxis(v: Vec, sqrt: real -> real)
    requires IsSqrt(sqrt)
    requires v.y == 0.0 && v.z == 0.0
    ensures Length(v, sqrt) == if v.x < 0.0 then -v.x else v.x
  {
    var abs := if v.x < 0.0 then -v.x else v.x;
    assert LengthSquared(v) == Sq(abs);
    LengthSquares(v, sqrt);
    SqInjective(Length(v, sqrt), abs);
  }

  /** Scaling multiplies the squared length by the square of the factor. */
  lemma LengthSquaredScale(v: Vec, k: real)
    ensures LengthSquared(Scale(v, k)) == Sq(k) * LengthSquared(v)
  {
    SqProduct(v.x, k);
    SqProduct(v.y, k);
    SqProduct(v.z, k);
  }

  /** Babylon's `normalize`: a vector of length zero is returned unchanged,
      any other is divided by its length. The result has length one and
      scaling it back by the original length gives the original vector. */
  function Normalize(v: Vec, sqrt: real -> real): (u: Vec)
    requires IsSqrt(sqrt)
    ensures v == ZERO ==> u == ZERO
    ensures v != ZERO ==> LengthSquared(u) == 1.0 && Scale(u, Length(v, sqrt)) == v
  {
    var len := Length(v, sqrt);
    if len == 0.0 then v
    else
      LengthSquares(v, sqrt);
      LengthSquaredScale(v, 1.0 / len);
      SqProduct(len, 1.0 / len);
      assert len * (1.0 / len) == 1.0;
      Scale(v, 1.0 / len)
  }

  /** The squared length of a difference does not depend on its order. */
  lemma LengthSquaredSubSymmetric(a: Vec, b: Vec)
    ensures LengthSquared(Sub(a, b)) == LengthSquared(Sub(b, a))
  {
    assert Sq(a.x - b.x) == Sq(b.x - a.x);
    assert Sq(a.y - b.y) == Sq(b.y - a.y);
    assert Sq(a.z - b.z) == Sq(b.z - a.z);
  }

  /** Projecting a scaled vector on the vector itself gives the factor times its squared length. */
  lemma DotScaleSelf(w: Vec, k: real)
    ensures Dot(Scale(w, k), w) == Mul(k, LengthSquared(w))
  {
  }

  /** Adding three zero vectors in front of `d` leaves `d`. */
  lemma AddZerosFirst(a: Vec, b: Vec, c: Vec, d: Vec)
    requires a == ZERO && b == ZERO && c == ZERO
    ensures Add(Add(Add(a, b), c), d) == d
  {
  }

  /** Scaling twice does not depend on the order of the factors. */
  lemma ScaleSwap(u: Vec, a: real, b: real)
    ensures Scale(Scale(u, a), b) == Scale(Scale(u, b), a)
  {
    assert u.x * a * b == u.x * b * a;
    assert u.y * a * b == u.y * b * a;
    assert u.z * a * b == u.z * b * a;
  }

  /** A scaled vector is zero exactly when the factor or the vector is. */
  lemma ScaleIsZero(v: Vec, k: real)
    ensures Scale(v, k) == ZERO <==> k == 0.0 || v == ZERO
  {
    if Scale(v, k) == ZERO && k != 0.0 {
      assert v.x == v.x * k / k;
      assert v.y == v.y * k / k;
      assert v.z == v.z * k / k;
    }
  }
}
