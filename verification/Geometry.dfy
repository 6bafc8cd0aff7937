/** Plane geometry shared by the motion and the collision code: the model uses exact reals. */
module Geometry {

  datatype Point = Point(x: real, y: real)

  datatype Vec = Vec(x: real, y: real)

  /** Headings of a dog. The vertical axis points down: North decreases `y`. */
  datatype Direction = North | South | West | East | NoDirection

  function Abs(r: real): (a: real)
    ensures a == r || a == -r
    ensures a >= 0.0
  {
    if r < 0.0 then -r else r
  }

  function Min(a: real, b: real): (m: real)
    ensures m <= a && m <= b && (m == a || m == b)
  {
    if a <= b then a else b
  }

  function Max(a: real, b: real): (m: real)
    ensures m >= a && m >= b && (m == a || m == b)
  {
    if a >= b then a else b
  }

  /** The number a fraction `t` of the way from `a` to `b`. */
  function Mix(a: real, b: real, t: real): real { a + t * (b - a) }

  /** The point a fraction `t` of the way from `a` to `b`. */
  function Between(a: Point, b: Point, t: real): Point {
    Point(Mix(a.x, b.x, t), Mix(a.y, b.y, t))
  }

  /** Length of a segment parallel to an axis; for such segments it is the Euclidean distance. */
  function Distance(p: Point, q: Point): (d: real)
    requires p.x == q.x || p.y == q.y
    ensures d >= 0.0
    ensures d * d == (p.x - q.x) * (p.x - q.x) + (p.y - q.y) * (p.y - q.y)
  {
    Abs(p.x - q.x) + Abs(p.y - q.y)
  }

  /** A convex combination of two numbers of an interval stays in the interval. */
  lemma ConvexCombination(a: real, b: real, t: real, lo: real, hi: real)
    requires lo <= a <= hi && lo <= b <= hi
    requires 0.0 <= t <= 1.0
    ensures lo <= Mix(a, b, t) <= hi
  {
    if a <= b {
      ProductIsNonNegative(t, b - a);
      ProductIsNonNegative(1.0 - t, b - a);
    } else {
      ProductIsNonNegative(t, a - b);
      ProductIsNonNegative(1.0 - t, a - b);
    }
  }

  lemma ProductIsNonNegative(a: real, b: real)
    requires a >= 0.0 && b >= 0.0
    ensures a * b >= 0.0
  {
  }

  lemma ProductIsPositive(a: real, b: real)
    requires a > 0.0 && b > 0.0
    ensures a * b > 0.0
  {
  }

  function Product(a: real, b: real): real { a * b }

  lemma ProductIsMonotone(a: real, b: real, c: real)
    requires a <= b && c >= 0.0
    ensures Product(a, c) <= Product(b, c)
  {
    ProductIsNonNegative(b - a, c);
    assert (b - a) * c == b * c - a * c;
  }

  /** Every number between the ends of an interval is a convex combination of them. */
  lemma FractionOf(a: real, b: real, c: real) returns (t: real)
    requires Min(a, b) <= c <= Max(a, b)
    ensures 0.0 <= t <= 1.0
    ensures Mix(a, b, t) == c
  {
    if a == b {
      t := 0.0;
    } else {
      t := (c - a) / (b - a);
      assert t * (b - a) == c - a;
      if b > a {
        DivisionBounds(c - a, b - a);
      } else {
        DivisionBounds(a - c, a - b);
        assert t == (a - c) / (a - b) by {
          var s := (a - c) / (a - b);
          assert s * (a - b) == a - c;
          assert (t - s) * (a - b) == 0.0;
        }
      }
    }
  }

  lemma DivisionBounds(n: real, d: real)
    requires 0.0 <= n <= d && d > 0.0
    ensures 0.0 <= n / d <= 1.0
  {
    assert (n / d) * d == n;
    assert (n / d - 1.0) * d == n - d;
  }
}
