/** Real-number helpers shared by every module: absolute value, min/max, Python's
    `int()` on a float, and the square root the source takes from `math.sqrt`. */
module Numeric {

  /** A coordinate triple (x, y, z) in mm, the source's Tuple[float, float, float]. */
  datatype Vec3 = Vec3(x: real, y: real, z: real)

  function Abs(x: real): (r: real)
    ensures 0.0 <= r && (r == x || r == -x)
  {
    if x < 0.0 then -x else x
  }

  function Min(a: real, b: real): (r: real)
    ensures r <= a && r <= b && (r == a || r == b)
  {
    if a <= b then a else b
  }

  function Max(a: real, b: real): (r: real)
    ensures a <= r && b <= r && (r == a || r == b)
  {
    if a >= b then a else b
  }

  /** Python's `int(x)` on a float: truncation toward zero. */
  function Trunc(x: real): (n: int)
    ensures 0.0 <= x ==> n as real <= x < n as real + 1.0
    ensures x < 0.0 ==> n as real - 1.0 < x <= n as real
  {
    if x >= 0.0 then x.Floor else -((-x).Floor)
  }

  /** `sqrt` is a square root on the non-negative reals. Operations that call
      `math.sqrt` take the root as a parameter; lemmas that depend on what it
      computes require this. */
  ghost predicate IsSqrt(sqrt: real -> real)
  {
    forall x: real :: 0.0 <= x ==> 0.0 <= sqrt(x) && sqrt(x) * sqrt(x) == x
  }

  lemma SquareStrictMono(s: real, r: real)
    requires 0.0 <= s < r
    ensures s * s < r * r
  {
    var ss, sr, rr := s * s, s * r, r * r;
    assert ss <= sr;
    assert sr < rr;
  }

  /** The root of a square is the non-negative base: the root is unique. */
  lemma SqrtOfSquare(sqrt: real -> real, r: real)
    requires IsSqrt(sqrt)
    requires 0.0 <= r
    ensures sqrt(r * r) == r
  {
    var s := sqrt(r * r);
    assert 0.0 <= s && s * s == r * r;
    if s < r {
      SquareStrictMono(s, r);
    } else if r < s {
      SquareStrictMono(r, s);
    }
  }

  /** The root is monotone: a smaller radicand never has a larger root. */
  lemma SqrtMono(sqrt: real -> real, x: real, y: real)
    requires IsSqrt(sqrt)
    requires 0.0 <= x <= y
    ensures sqrt(x) <= sqrt(y)
  {
    var sx, sy := sqrt(x), sqrt(y);
    assert 0.0 <= sx && sx * sx == x;
    assert 0.0 <= sy && sy * sy == y;
    if sy < sx {
      SquareStrictMono(sy, sx);
    }
  }

  /** A product of reals is zero only when a factor is. */
  lemma ProductZero(x: real, y: real)
    requires x * y == 0.0
    ensures x == 0.0 || y == 0.0
  {
  }
}
