/**
 * Numbers the simulation uses without computing them itself: the library
 * maths (square root, sine and cosine of an angle given in degrees, atan2
 * converted to degrees) and uniform random draws.
 */
module Numerics {

  /** A position in the plane. */
  datatype Point = Point(x: real, y: real)

  /** `-a`, named so that the law about it applies only where a negation is written. */
  function Neg(a: real): real
  {
    -a
  }

  /** The library functions, as values. */
  datatype MathsLib = MathsLib(
    sqrt: real -> real,
    square: real -> real,
    sinDeg: real -> real,
    cosDeg: real -> real,
    atan2Deg: (real, real) -> real)
  {
    /**
     * The only laws the model relies on: `x ** 2` is 0 at 0, positive
     * elsewhere, and the same for `x` and `-x`; a square root is 0 at 0 and
     * positive on positive numbers; and `degrees(atan2(y, x))` lies in
     * (-180, 180]. Nothing is assumed of sine and cosine.
     */
    ghost predicate Lawful() {
      && square(0.0) == 0.0
      && (forall a :: a != 0.0 ==> square(a) > 0.0)
      && (forall a :: square(Neg(a)) == square(a))
      && sqrt(0.0) == 0.0
      && (forall v :: v > 0.0 ==> sqrt(v) > 0.0)
      && (forall y, x :: -180.0 < atan2Deg(y, x) <= 180.0)
    }
  }

  /** Library maths that obeys the laws. */
  type Maths = m: MathsLib | m.Lawful()
    witness MathsLib(
      v => if v > 0.0 then v else 0.0,
      a => if a < 0.0 then -a else a,
      a => 0.0, a => 0.0, (y, x) => 0.0)

  lemma SqrtNonNegative(m: Maths, v: real)
    requires v >= 0.0
    ensures m.sqrt(v) >= 0.0
  {
    if v == 0.0 {
    } else {
      assert v > 0.0;
    }
  }

  /** `x ** 2` is never negative, and is the same for `x` and `-x`. */
  lemma SquareLaws(m: Maths, a: real)
    ensures m.square(a) >= 0.0
    ensures m.square(a) == m.square(-a)
  {
    if a != 0.0 {
      assert m.square(a) > 0.0;
    }
    assert m.square(Neg(a)) == m.square(a);
  }

  /** `sqrt(a ** 2 + b ** 2)`: the length of the vector `(a, b)`. */
  function Length(m: Maths, a: real, b: real): real
  {
    m.sqrt(m.square(a) + m.square(b))
  }

  /** A length is never negative, is 0 exactly for the zero vector, and is the same for the opposite vector. */
  lemma LengthLaws(m: Maths, a: real, b: real)
    ensures Length(m, a, b) >= 0.0
    ensures Length(m, a, b) == 0.0 <==> a == 0.0 && b == 0.0
    ensures Length(m, a, b) == Length(m, -a, -b)
  {
    SquareLaws(m, a);
    SquareLaws(m, b);
    if a != 0.0 || b != 0.0 {
      assert m.square(a) + m.square(b) > 0.0;
    }
  }

  lemma ProductPositive(a: real, b: real)
    requires a > 0.0 && b > 0.0
    ensures a * b > 0.0
  {
  }

  /** `abs(a)`. */
  function Abs(a: real): (r: real)
    ensures r >= 0.0 && (r == a || r == -a)
  {
    if a < 0.0 then -a else a
  }

  /** A value of `random()`: a draw from [0, 1). */
  type Unit = u: real | 0.0 <= u < 1.0

  /** `uniform(lo, hi)`, computed as `lo + (hi - lo) * random()`. */
  function Uniform(lo: real, hi: real, u: Unit): (r: real)
    requires lo < hi
    ensures lo <= r < hi
  {
    ScaleBounds(hi - lo, u);
    lo + Scale(hi - lo, u)
  }

  /** `w * u`: a width scaled by a draw. */
  function Scale(w: real, u: real): real
  {
    w * u
  }

  /** A positive width scaled by a draw from [0, 1) stays in [0, width). */
  lemma ScaleBounds(w: real, u: real)
    requires w > 0.0 && 0.0 <= u < 1.0
    ensures 0.0 <= Scale(w, u) < w
  {
    if u > 0.0 {
      ProductPositive(w, u);
    }
    ProductPositive(w, 1.0 - u);
    assert w * (1.0 - u) == w - w * u;
  }

  /** Python's `a % 360` on floats: the result lies in [0, 360). */
  function Mod360(a: real): (r: real)
    ensures 0.0 <= r < 360.0
  {
    a - 360.0 * Turns(a) as real
  }

  /** The number of whole turns that `a % 360` takes off `a`. */
  function Turns(a: real): int
  {
    (a / 360.0).Floor
  }

  lemma Mod360OfAngle(a: real)
    requires 0.0 <= a < 360.0
    ensures Mod360(a) == a
  {
    assert Turns(a) == 0;
  }
}
