/**
  The glm vector algebra the simulator is written against, over exact reals.

  glm::length rests on a floating-point square root, which Dafny cannot define.
  Every operation that measures a vector therefore receives the measure as a
  parameter `norm`; `IsEuclidean(norm)` states that it is the Euclidean norm
  (non-negative, zero only at the origin, squaring to the dot product), and
  the geometric lemmas below are proved from that property alone.
 */
module Vectors {

  datatype Vec3 = Vec3(x: real, y: real, z: real)

  const Zero: Vec3 := Vec3(0.0, 0.0, 0.0)

  function Add(a: Vec3, b: Vec3): Vec3 {
    Vec3(a.x + b.x, a.y + b.y, a.z + b.z)
  }

  function Sub(a: Vec3, b: Vec3): Vec3 {
    Vec3(a.x - b.x, a.y - b.y, a.z - b.z)
  }

  function Scale(k: real, v: Vec3): Vec3 {
    Vec3(k * v.x, k * v.y, k * v.z)
  }

  /** Component-wise division by a scalar (glm's `v / s`). */
  function Div(v: Vec3, s: real): Vec3
    requires s != 0.0
  {
    Vec3(v.x / s, v.y / s, v.z / s)
  }

  function Dot(a: Vec3, b: Vec3): real {
    a.x * b.x + a.y * b.y + a.z * b.z
  }

  function Cross(a: Vec3, b: Vec3): Vec3 {
    Vec3(a.y * b.z - a.z * b.y, a.z * b.x - a.x * b.z, a.x * b.y - a.y * b.x)
  }

  function Abs(r: real): real {
    if r < 0.0 then -r else r
  }

  /** The measure that stands for glm::length. */
  type Norm = Vec3 -> real

  /** `norm` is the Euclidean norm: non-negative, zero exactly on the zero
      vector, and squaring to the dot product of a vector with itself. */
  ghost predicate IsEuclidean(norm: Norm) {
    forall v ::
      && norm(v) >= 0.0
      && (norm(v) == 0.0 <==> v == Zero)
      && norm(v) * norm(v) == Dot(v, v)
  }

  /** glm::normalize. glm divides by a zero length for the zero vector (NaN
      components); the model returns the zero vector there. */
  function Normalize(norm: Norm, v: Vec3): Vec3 {
    if norm(v) == 0.0 then Zero else Div(v, norm(v))
  }

  /** glm::distance(p0, p1) is norm(p1 - p0). */
  function Distance(norm: Norm, p0: Vec3, p1: Vec3): real {
    norm(Sub(p1, p0))
  }

  lemma ProductPositive(x: real, y: real)
    requires x > 0.0 && y > 0.0
    ensures x * y > 0.0
  {
  }

  lemma SquareMonotone(a: real, b: real)
    requires a > b >= 0.0
    ensures a * a > b * b
  {
    var d, s := a - b, a + b;
    ProductPositive(d, s);
    assert d * s == a * a - b * b;
  }

  lemma SquareRootUnique(a: real, b: real)
    requires a >= 0.0 && b >= 0.0 && a * a == b * b
    ensures a == b
  {
    if a > b {
      SquareMonotone(a, b);
    } else if b > a {
      SquareMonotone(b, a);
    }
  }

  lemma DotScale(k: real, v: Vec3)
    ensures Dot(Scale(k, v), Scale(k, v)) == (k * k) * Dot(v, v)
  {
  }

  lemma AbsSquare(k: real, l: real)
    ensures (Abs(k) * l) * (Abs(k) * l) == (k * k) * (l * l)
  {
    if k < 0.0 {
      assert Abs(k) == -k;
    }
  }

  lemma ProductNonNegative(a: real, b: real)
    requires a >= 0.0 && b >= 0.0
    ensures a * b >= 0.0
  {
    if a > 0.0 && b > 0.0 {
      ProductPositive(a, b);
    }
  }

  /** The non-negative square root of k^2 * l^2 is |k| * l. */
  lemma RootOfScaledSquare(r: real, k: real, l: real)
    requires r >= 0.0 && l >= 0.0 && r * r == (k * k) * (l * l)
    ensures r == Abs(k) * l
  {
    AbsSquare(k, l);
    ProductNonNegative(Abs(k), l);
    SquareRootUnique(r, Abs(k) * l);
  }

  /** norm(k * v) == |k| * norm(v). */
  lemma LengthScale(norm: Norm, k: real, v: Vec3)
    requires IsEuclidean(norm)
    ensures norm(Scale(k, v)) == Abs(k) * norm(v)
  {
    var w := Scale(k, v);
    DotScale(k, v);
    MultiplyEqual(k * k, Dot(v, v), norm(v) * norm(v));
    RootOfScaledSquare(norm(w), k, norm(v));
  }

  lemma MultiplyEqual(a: real, b: real, c: real)
    requires b == c
    ensures a * b == a * c
  {
  }

  lemma ScaleDiv(v: Vec3, s: real)
    requires s != 0.0
    ensures Div(v, s) == Scale(1.0 / s, v)
  {
  }

  /** A normalized non-zero vector has length one, and scaling it back by the
      original length returns the original vector. */
  lemma NormalizeUnit(norm: Norm, v: Vec3)
    requires IsEuclidean(norm) && v != Zero
    ensures norm(v) > 0.0
    ensures Normalize(norm, v) == Scale(1.0 / norm(v), v)
    ensures norm(Normalize(norm, v)) == 1.0
    ensures Scale(norm(v), Normalize(norm, v)) == v
  {
    var l := norm(v);
    ScaleDiv(v, l);
    LengthScale(norm, 1.0 / l, v);
    assert Abs(1.0 / l) * l == 1.0;
  }

  /** norm(k * u) == |k| for a unit vector u. */
  lemma LengthOfScaledUnit(norm: Norm, k: real, u: Vec3)
    requires IsEuclidean(norm) && norm(u) == 1.0
    ensures norm(Scale(k, u)) == Abs(k)
  {
    LengthScale(norm, k, u);
  }

  /** Distance is symmetric, so the argument order glm uses does not matter. */
  lemma DistanceSymmetric(norm: Norm, a: Vec3, b: Vec3)
    requires IsEuclidean(norm)
    ensures Distance(norm, a, b) == Distance(norm, b, a)
  {
    assert Sub(a, b) == Scale(-1.0, Sub(b, a));
    LengthScale(norm, -1.0, Sub(b, a));
  }

  /** The cross product is orthogonal to both factors. */
  lemma CrossOrthogonal(a: Vec3, b: Vec3)
    ensures Dot(Cross(a, b), a) == 0.0
    ensures Dot(Cross(a, b), b) == 0.0
  {
  }
}
