/** Two-dimensional vectors over the reals, standing in for glm::vec2.
    Squared lengths replace `distance`, `length` and `pow(..., 2)` so that no
    square root is needed; the lemmas at the end relate the two views. */
module Vectors {

  datatype Vec = Vec(x: real, y: real)

  const Zero := Vec(0.0, 0.0)

  function Add(a: Vec, b: Vec): Vec { Vec(a.x + b.x, a.y + b.y) }

  function Sub(a: Vec, b: Vec): Vec { Vec(a.x - b.x, a.y - b.y) }

  function Neg(a: Vec): Vec { Vec(-a.x, -a.y) }

  /** `a * k` for a vector `a` and a scalar `k`. */
  function Scale(a: Vec, k: real): Vec { Vec(a.x * k, a.y * k) }

  function Dot(a: Vec, b: Vec): real { a.x * b.x + a.y * b.y }

  function Sq(r: real): real { r * r }

  /** The squared Euclidean length, `pow(length(a), 2)` in exact arithmetic. */
  function NormSq(a: Vec): real { Sq(a.x) + Sq(a.y) }

  function Abs(r: real): real { if r < 0.0 then -r else r }

  lemma SqPositive(r: real)
    requires r != 0.0
    ensures Sq(r) > 0.0
  {
    if r > 0.0 {
      calc { Sq(r); == r * r; > 0.0; }
    } else {
      calc { Sq(r); == (-r) * (-r); > 0.0; }
    }
  }

  lemma SqNonNegative(r: real)
    ensures Sq(r) >= 0.0
  {
    if r != 0.0 {
      SqPositive(r);
    }
  }

  lemma SqNeg(r: real)
    ensures Sq(-r) == Sq(r)
  {
    calc { Sq(-r); == (-r) * (-r); == r * r; == Sq(r); }
  }

  /** A squared length is never negative, and is positive for every vector but zero. */
  lemma NormSqPositive(a: Vec)
    ensures NormSq(a) >= 0.0
    ensures a != Zero ==> NormSq(a) > 0.0
  {
    SqNonNegative(a.x);
    SqNonNegative(a.y);
    if a.x != 0.0 {
      SqPositive(a.x);
    } else if a.y != 0.0 {
      SqPositive(a.y);
    }
  }

  /** The distance from `a` to `b` is the distance from `b` to `a`. */
  lemma NormSqSubSymmetric(a: Vec, b: Vec)
    ensures NormSq(Sub(a, b)) == NormSq(Sub(b, a))
  {
    SqNeg(a.x - b.x);
    SqNeg(a.y - b.y);
  }

  /** Expanding the squared length of `v - d * k`. */
  lemma NormSqTakeAway(v: Vec, d: Vec, k: real)
    ensures NormSq(Sub(v, Scale(d, k))) == NormSq(v) - 2.0 * k * Dot(v, d) + k * k * NormSq(d)
  {
    SqTakeAway(v.x, d.x, k);
    SqTakeAway(v.y, d.y, k);
    assert 2.0 * k * Dot(v, d) == 2.0 * k * (v.x * d.x) + 2.0 * k * (v.y * d.y);
    assert k * k * NormSq(d) == k * k * Sq(d.x) + k * k * Sq(d.y);
  }

  /** Expanding the squared length of `v - (-d) * k`. */
  lemma NormSqAddAlong(v: Vec, d: Vec, k: real)
    ensures NormSq(Sub(v, Scale(Neg(d), k))) == NormSq(v) + 2.0 * k * Dot(v, d) + k * k * NormSq(d)
  {
    SqAddAlong(v.x, d.x, k);
    SqAddAlong(v.y, d.y, k);
    assert 2.0 * k * Dot(v, d) == 2.0 * k * (v.x * d.x) + 2.0 * k * (v.y * d.y);
    assert k * k * NormSq(d) == k * k * Sq(d.x) + k * k * Sq(d.y);
  }

  lemma SqAddAlong(v: real, e: real, k: real)
    ensures Sq(v - -e * k) == Sq(v) + 2.0 * k * (v * e) + k * k * Sq(e)
  {
    calc {
      Sq(v - -e * k);
      (v + e * k) * (v + e * k);
      v * v + 2.0 * k * (v * e) + k * k * (e * e);
    }
  }

  lemma SqTakeAway(v: real, e: real, k: real)
    ensures Sq(v - e * k) == Sq(v) - 2.0 * k * (v * e) + k * k * Sq(e)
  {
    calc {
      Sq(v - e * k);
      (v - e * k) * (v - e * k);
      v * v - 2.0 * k * (v * e) + k * k * (e * e);
    }
  }

  lemma SqOrdered(u: real, v: real)
    requires 0.0 <= u <= v
    ensures Sq(u) <= Sq(v)
  {
    var low, mid, high := u * u, u * v, v * v;
    assert low <= mid;
    assert mid <= high;
  }

  lemma SqStrictlyOrdered(u: real, v: real)
    requires 0.0 <= u < v
    ensures Sq(u) < Sq(v)
  {
    var low, mid, high := u * u, u * v, v * v;
    assert low <= mid;
    assert mid < high;
  }

  /** On non-negative reals, comparing squares is comparing the numbers. */
  lemma SqCompare(u: real, v: real)
    requires u >= 0.0 && v >= 0.0
    ensures u <= v <==> Sq(u) <= Sq(v)
    ensures u < v <==> Sq(u) < Sq(v)
  {
    if u < v {
      SqStrictlyOrdered(u, v);
    } else if u == v {
    } else {
      SqStrictlyOrdered(v, u);
    }
  }
}
