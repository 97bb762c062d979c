/**
 * Two-dimensional points as values, after the paper.js `Point` operations the
 * flocking code uses: add, subtract, multiply and divide by a scalar, dot,
 * length, getDistance, normalize.  Coordinates are real numbers; the length
 * (a square root) is left uninterpreted and tied to the coordinates by
 * `LengthLaw`, which the lemmas below take as a precondition.
 */
module Vectors {

  datatype Vec = Vec(x: real, y: real)

  const Zero: Vec := Vec(0.0, 0.0)

  function Add(a: Vec, b: Vec): Vec { Vec(a.x + b.x, a.y + b.y) }

  function Sub(a: Vec, b: Vec): Vec { Vec(a.x - b.x, a.y - b.y) }

  /** `multiply` with a number */
  function Scale(a: Vec, k: real): Vec { Vec(a.x * k, a.y * k) }

  /** `divide` by a number; every call site in the flocking code divides by a positive value */
  function Div(a: Vec, k: real): Vec
    requires k != 0.0
  {
    Vec(a.x / k, a.y / k)
  }

  function Dot(a: Vec, b: Vec): real { a.x * b.x + a.y * b.y }

  /** the squared length, `x*x + y*y` */
  function LengthSq(a: Vec): real { a.x * a.x + a.y * a.y }

  type NonNeg = r: real | r >= 0.0

  /** `point.length`: the square root of `LengthSq`, left uninterpreted */
  const Length: Vec -> NonNeg

  /** the one fact assumed about `Length`: it squares to `LengthSq` */
  ghost predicate LengthLaw()
  {
    forall v: Vec {:trigger LengthSq(v)} :: Length(v) * Length(v) == LengthSq(v)
  }

  /** `p.getDistance(q)` */
  function Distance(p: Vec, q: Vec): NonNeg { Length(Sub(q, p)) }

  /** `p.getDistance(q, true)` */
  function DistanceSq(p: Vec, q: Vec): real { LengthSq(Sub(q, p)) }

  /**
   * `v.normalize(len)`: the vector scaled to length `len`; paper.js uses
   * scale factor 0 for a vector of length 0, which gives the zero vector.
   */
  function Normalize(v: Vec, len: real): Vec
  {
    if Length(v) == 0.0 then Zero else Scale(v, len / Length(v))
  }

  /** the clamp written out at every use: `if (v.length > max) v = v.normalize(max)` */
  function Limit(v: Vec, max: real): Vec
  {
    if Length(v) > max then Normalize(v, max) else v
  }

  function Abs(k: real): real { if k < 0.0 then -k else k }

  function Sq(a: real): real { a * a }

  function Mul(a: real, b: real): real { a * b }

  // ---------------------------------------------------------------------
  // Arithmetic facts about squares, stated through Sq and Mul.

  lemma SqNonNeg(a: real)
    ensures Sq(a) >= 0.0
  {
    calc {
      Sq(a);
      a * a;
    >= 0.0;
    }
  }

  lemma SqOfNonZero(a: real)
    requires a != 0.0
    ensures Sq(a) > 0.0
  {
    calc {
      Sq(a);
      a * a;
    > 0.0;
    }
  }

  lemma MulStrictLeft(a: real, b: real, c: real)
    requires c > 0.0 && a < b
    ensures c * a < c * b
  {
  }

  lemma MulLeft(a: real, b: real, c: real)
    requires c >= 0.0 && a <= b
    ensures c * a <= c * b
  {
  }

  lemma SqStrictMonotone(a: real, b: real)
    requires 0.0 <= a < b
    ensures Sq(a) < Sq(b)
  {
    calc {
      Sq(a);
      a * a;
    <= { MulLeft(a, b, a); }
      a * b;
    < { MulStrictLeft(a, b, b); }
      b * b;
      Sq(b);
    }
  }

  /** non-negative square roots are unique */
  lemma SqInjective(a: real, b: real)
    requires a >= 0.0 && b >= 0.0 && Sq(a) == Sq(b)
    ensures a == b
  {
    if a < b {
      SqStrictMonotone(a, b);
    } else if b < a {
      SqStrictMonotone(b, a);
    }
  }

  lemma SumOfSquaresZero(a: real, b: real)
    ensures Sq(a) + Sq(b) == 0.0 <==> a == 0.0 && b == 0.0
  {
    SqNonNeg(a);
    SqNonNeg(b);
    if a != 0.0 {
      SqOfNonZero(a);
    }
    if b != 0.0 {
      SqOfNonZero(b);
    }
  }

  lemma SqOfProduct(a: real, b: real)
    ensures Sq(Mul(a, b)) == Mul(Sq(a), Sq(b))
  {
    calc {
      Sq(Mul(a, b));
      (a * b) * (a * b);
      (a * a) * (b * b);
      Mul(Sq(a), Sq(b));
    }
  }

  lemma SqOfAbs(k: real)
    ensures Sq(Abs(k)) == Sq(k)
  {
    if k < 0.0 {
      calc {
        Sq(Abs(k));
        (-k) * (-k);
        k * k;
        Sq(k);
      }
    }
  }

  lemma MulNonNeg(a: real, b: real)
    requires a >= 0.0 && b >= 0.0
    ensures Mul(a, b) >= 0.0
  {
    calc {
      Mul(a, b);
      a * b;
    >= 0.0;
    }
  }

  // ---------------------------------------------------------------------
  // Facts about length.

  lemma LengthSqOfScale(v: Vec, k: real)
    ensures LengthSq(Scale(v, k)) == Mul(Sq(k), LengthSq(v))
  {
    calc {
      LengthSq(Scale(v, k));
      (v.x * k) * (v.x * k) + (v.y * k) * (v.y * k);
      (k * k) * (v.x * v.x + v.y * v.y);
      Mul(Sq(k), LengthSq(v));
    }
  }

  lemma SquareOfLength(v: Vec)
    requires LengthLaw()
    ensures Sq(Length(v)) == LengthSq(v) == Sq(v.x) + Sq(v.y)
  {
    assert Length(v) * Length(v) == LengthSq(v);
  }

  /** only the zero vector has length 0 */
  lemma LengthZero(v: Vec)
    requires LengthLaw()
    ensures Length(v) == 0.0 <==> v == Zero
  {
    SquareOfLength(v);
    SumOfSquaresZero(v.x, v.y);
    if Length(v) != 0.0 {
      SqOfNonZero(Length(v));
    }
  }

  /** `|k v| == |k| |v|` */
  lemma LengthOfScale(v: Vec, k: real)
    requires LengthLaw()
    ensures Length(Scale(v, k)) == Abs(k) * Length(v)
  {
    var n := Length(v);
    var m := Length(Scale(v, k));
    SquareOfLength(v);
    SquareOfLength(Scale(v, k));
    LengthSqOfScale(v, k);
    SqOfProduct(Abs(k), n);
    SqOfAbs(k);
    MulNonNeg(Abs(k), n);
    SqInjective(m, Mul(Abs(k), n));
  }

  /** `normalize(len)` has length `len`, except on the zero vector */
  lemma NormalizeLength(v: Vec, len: real)
    requires LengthLaw() && len >= 0.0
    ensures Length(Normalize(v, len)) == if v == Zero then 0.0 else len
  {
    LengthZero(v);
    LengthZero(Zero);
    if v != Zero {
      var n := Length(v);
      LengthOfScale(v, len / n);
      assert Abs(len / n) * n == len;
    }
  }

  /** the speed and force clamp never leaves a vector longer than the bound */
  lemma LimitBound(v: Vec, max: real)
    requires LengthLaw() && max >= 0.0
    ensures Length(Limit(v, max)) <= max
  {
    if Length(v) > max {
      NormalizeLength(v, max);
    }
  }

  /** scaling by a positive factor before normalising has no effect */
  lemma NormalizeScaled(v: Vec, c: real, len: real)
    requires LengthLaw() && c > 0.0
    ensures Normalize(Scale(v, c), len) == Normalize(v, len)
  {
    LengthOfScale(v, c);
    LengthZero(v);
    LengthZero(Scale(v, c));
    if Length(v) != 0.0 {
      var n := Length(v);
      assert Length(Scale(v, c)) == c * n;
      assert c * (len / (c * n)) == len / n;
      assert Scale(Scale(v, c), len / (c * n)) == Scale(v, len / n);
    }
  }

  /** `p.getDistance(q) == q.getDistance(p)`, and a point is at distance 0 from itself */
  lemma DistanceSymmetric(p: Vec, q: Vec)
    requires LengthLaw()
    ensures Distance(p, q) == Distance(q, p)
    ensures Distance(p, p) == 0.0
  {
    assert Sub(p, q) == Scale(Sub(q, p), -1.0);
    LengthOfScale(Sub(q, p), -1.0);
    assert Sub(p, p) == Zero;
    LengthZero(Zero);
  }

  /** the squared form of getDistance is the square of the plain one */
  lemma DistanceSqIsSquare(p: Vec, q: Vec)
    requires LengthLaw()
    ensures DistanceSq(p, q) == Sq(Distance(p, q))
  {
    SquareOfLength(Sub(q, p));
  }
}
