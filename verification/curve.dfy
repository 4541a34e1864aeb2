/**
 * Points of the prime-order subgroup of Ed25519, each represented by its
 * discrete logarithm with respect to the base point g, that is, by a scalar
 * in [0, L). Under this representation point addition is addition modulo L,
 * `times(k)` is multiplication by k modulo L, the identity (`infinity`) is 0
 * and the base point is 1; every equation between points in the protocol code
 * becomes an equation between residues modulo L.
 */
module Curve {
  import opened ModArith

  type Point = p: int | 0 <= p < L

  /** The base point `Point.g`. */
  const G: Point := 1

  /** The identity element `Point.infinity`. */
  const Infinity: Point := 0

  /** `p.add(q)` */
  function Add(p: Point, q: Point): Point
  {
    (p + q) % L
  }

  /** `p.times(k)` for any integer k, negative ones included */
  function Times(p: Point, k: int): Point
  {
    (p * k) % L
  }

  /** `ps.reduce((sum, next) => sum.add(next), Point.infinity)` */
  function Sum(ps: seq<Point>): Point
  {
    if |ps| == 0 then Infinity else Add(Sum(ps[..|ps| - 1]), ps[|ps| - 1])
  }

  /** `ps.reduce((sum, next, i) => sum.add(next.times(ws[i])), Point.infinity)` */
  function WeightedSum(ps: seq<Point>, ws: seq<int>): Point
    requires |ws| == |ps|
  {
    if |ps| == 0 then Infinity
    else Add(WeightedSum(ps[..|ps| - 1], ws[..|ws| - 1]), Times(ps[|ps| - 1], ws[|ws| - 1]))
  }

  /** The plain integer sum, the reference for the sums above. */
  function IntSum(xs: seq<int>): int
  {
    if |xs| == 0 then 0 else IntSum(xs[..|xs| - 1]) + xs[|xs| - 1]
  }

  /** The plain integer dot product. */
  function Dot(xs: seq<int>, ws: seq<int>): int
    requires |ws| == |xs|
  {
    if |xs| == 0 then 0 else Dot(xs[..|xs| - 1], ws[..|ws| - 1]) + xs[|xs| - 1] * ws[|ws| - 1]
  }

  lemma ResidueOfPoint(p: Point)
    ensures p % L == p
  {
    DivModUnique(p, L, 0, p);
  }

  /** Summing points is summing their logarithms modulo L. */
  lemma {:induction false} SumIsResidue(ps: seq<Point>)
    ensures Sum(ps) == IntSum(ps) % L
  {
    if |ps| > 0 {
      var init, last := ps[..|ps| - 1], ps[|ps| - 1];
      SumIsResidue(init);
      ModAdd(IntSum(init), last, L);
      ModOfResidue(IntSum(init), L);
      ResidueOfPoint(last);
    }
  }

  /** A weighted sum of points is the dot product of logarithms and weights modulo L. */
  lemma {:induction false} WeightedSumIsResidue(ps: seq<Point>, ws: seq<int>)
    requires |ws| == |ps|
    ensures WeightedSum(ps, ws) == Dot(ps, ws) % L
  {
    if |ps| > 0 {
      var n := |ps| - 1;
      var d, t := Dot(ps[..n], ws[..n]), ps[n] * ws[n];
      assert Dot(ps, ws) == d + t;
      WeightedSumIsResidue(ps[..n], ws[..n]);
      assert WeightedSum(ps, ws) == (d % L + t % L) % L;
      ModAdd(d, t, L);
    }
  }

  /** The dot product does not depend on which side holds the weights. */
  lemma {:induction false} DotSymmetric(xs: seq<int>, ws: seq<int>)
    requires |ws| == |xs|
    ensures Dot(xs, ws) == Dot(ws, xs)
  {
    if |xs| > 0 {
      var n := |xs| - 1;
      DotSymmetric(xs[..n], ws[..n]);
    }
  }

  /** Replacing each term by a congruent one keeps the dot product congruent. */
  lemma {:induction false} DotCongTermwise(xs: seq<int>, ys: seq<int>, ws: seq<int>)
    requires |xs| == |ws| && |ys| == |ws|
    requires forall i :: 0 <= i < |ws| ==> Cong(xs[i], ys[i], L)
    ensures Cong(Dot(xs, ws), Dot(ys, ws), L)
  {
    if |ws| > 0 {
      var n := |ws| - 1;
      DotCongTermwise(xs[..n], ys[..n], ws[..n]);
      CongMul(xs[n], ys[n], ws[n], ws[n], L);
      CongAdd(Dot(xs[..n], ws[..n]), Dot(ys[..n], ws[..n]), xs[n] * ws[n], ys[n] * ws[n], L);
    }
  }

  /** The multiples of b by every scalar of ss. */
  function Multiples(b: Point, ss: seq<int>): (ps: seq<Point>)
    ensures |ps| == |ss| && forall i :: 0 <= i < |ss| ==> ps[i] == Times(b, ss[i])
  {
    seq(|ss|, i requires 0 <= i < |ss| => Times(b, ss[i]))
  }

  lemma {:induction false} DotScaled(b: int, ss: seq<int>, ws: seq<int>, ts: seq<int>)
    requires |ss| == |ws| && |ts| == |ws|
    requires forall i :: 0 <= i < |ws| ==> ts[i] == b * ss[i]
    ensures Dot(ts, ws) == b * Dot(ss, ws)
  {
    if |ws| > 0 {
      var n := |ws| - 1;
      DotScaled(b, ss[..n], ws[..n], ts[..n]);
      assert ts[n] * ws[n] == b * (ss[n] * ws[n]);
    }
  }

  /**
   * Weighting the multiples b*s_i by w_i and adding them up gives b times the
   * weighted sum of the scalars: a threshold of parties that each multiply a
   * point by their share can have their results combined into one multiple.
   */
  lemma WeightedSumOfMultiples(b: Point, ss: seq<int>, ws: seq<int>)
    requires |ws| == |ss|
    ensures WeightedSum(Multiples(b, ss), ws) == Times(b, Dot(ss, ws))
  {
    var ps := Multiples(b, ss);
    var ts := seq(|ss|, i requires 0 <= i < |ss| => b * ss[i]);
    WeightedSumIsResidue(ps, ws);
    forall i | 0 <= i < |ss|
      ensures Cong(ps[i], ts[i], L)
    {
      CongResidue(b * ss[i], L);
    }
    DotCongTermwise(ps, ts, ws);
    DotScaled(b, ss, ws, ts);
  }

  /** Replacing each term by a congruent one keeps the sum congruent. */
  lemma {:induction false} IntSumCongTermwise(xs: seq<int>, ys: seq<int>)
    requires |xs| == |ys|
    requires forall i :: 0 <= i < |xs| ==> Cong(xs[i], ys[i], L)
    ensures Cong(IntSum(xs), IntSum(ys), L)
  {
    if |xs| > 0 {
      var n := |xs| - 1;
      IntSumCongTermwise(xs[..n], ys[..n]);
      CongAdd(IntSum(xs[..n]), IntSum(ys[..n]), xs[n], ys[n], L);
    }
  }

  /** Scaling every term scales the sum. */
  lemma {:induction false} IntSumScaled(b: int, ss: seq<int>, ts: seq<int>)
    requires |ts| == |ss|
    requires forall i :: 0 <= i < |ss| ==> ts[i] == b * ss[i]
    ensures IntSum(ts) == b * IntSum(ss)
  {
    if |ss| > 0 {
      var n := |ss| - 1;
      IntSumScaled(b, ss[..n], ts[..n]);
      assert b * IntSum(ss) == b * IntSum(ss[..n]) + b * ss[n];
    }
  }

  /**
   * Adding up the multiples b·s_i is multiplying b by the sum of the s_i:
   * parties that each multiply a point by their own scalar together multiply
   * it by the sum of the scalars.
   */
  lemma SumOfMultiples(b: Point, ss: seq<int>)
    ensures Sum(Multiples(b, ss)) == Times(b, IntSum(ss))
  {
    var ps := Multiples(b, ss);
    var ts := seq(|ss|, i requires 0 <= i < |ss| => b * ss[i]);
    SumIsResidue(ps);
    forall i | 0 <= i < |ss|
      ensures Cong(ps[i], ts[i], L)
    {
      CongResidue(b * ss[i], L);
    }
    IntSumCongTermwise(ps, ts);
    IntSumScaled(b, ss, ts);
  }

  /** Multiplying by a and then by b is multiplying by a·b. */
  lemma TimesTimes(p: Point, a: int, b: int)
    ensures Times(Times(p, a), b) == Times(p, a * b)
  {
    CongResidue(p * a, L);
    CongMul((p * a) % L, p * a, b, b, L);
    assert p * a * b == p * (a * b);
  }

  /** Scalars congruent modulo L give the same multiple. */
  lemma TimesCong(p: Point, a: int, b: int)
    requires Cong(a, b, L)
    ensures Times(p, a) == Times(p, b)
  {
    CongMul(p, p, a, b, L);
  }

  /** The order of two scalar multiplications does not matter: (p·a)·b == (p·b)·a. */
  lemma TimesCommute(p: Point, a: int, b: int)
    ensures Times(Times(p, a), b) == Times(Times(p, b), a)
  {
    TimesTimes(p, a, b);
    TimesTimes(p, b, a);
    assert a * b == b * a;
  }

  /** Multiplying by r and then by an inverse of r gives back the point. */
  lemma Unblind(p: Point, r: int, rInv: int)
    requires IsInverse(r, rInv, L)
    ensures Times(Times(p, r), rInv) == p
  {
    CongResidue(p * r, L);
    CongMul((p * r) % L, p * r, rInv, rInv, L);
    InverseCancels(p, r, rInv, L);
    ResidueOfPoint(p);
  }

  /** The inverse of the cofactor 8 modulo L (L is 5 modulo 8). */
  const Inv8: int := (3 * L + 1) / 8

  lemma CofactorInvertible()
    ensures IsInverse(8, Inv8, L)
  {
    assert 8 * Inv8 == 1 + 3 * L;
    ModAddMultiple(1, 3, L);
  }

  /**
   * Multiplying both sides by the cofactor 8 neither adds nor removes
   * solutions in the prime-order subgroup: the cofactored equations of the
   * protocol are equivalent to the plain ones.
   */
  lemma CofactorCancels(a: int, b: int)
    ensures (8 * a) % L == (8 * b) % L <==> a % L == b % L
  {
    if (8 * a) % L == (8 * b) % L {
      CofactorInvertible();
      CongMul(8 * a, 8 * b, Inv8, Inv8, L);
      InverseCancels(a, 8, Inv8, L);
      InverseCancels(b, 8, Inv8, L);
      assert a * 8 * Inv8 == 8 * a * Inv8;
      assert b * 8 * Inv8 == 8 * b * Inv8;
    }
    if a % L == b % L {
      CongMul(a, b, 8, 8, L);
    }
  }

  /** Multiplying a sum by k is adding the multiples. */
  lemma TimesAdd(a: Point, b: Point, k: int)
    ensures Times(Add(a, b), k) == Add(Times(a, k), Times(b, k))
  {
    CongResidue(a + b, L);
    CongMul((a + b) % L, a + b, k, k, L);
    CongResidue(a * k, L);
    CongResidue(b * k, L);
    CongAdd((a * k) % L, a * k, (b * k) % L, b * k, L);
    assert (a + b) * k == a * k + b * k;
    CongResidue((a * k) % L + (b * k) % L, L);
  }

  /** The cofactored equation 8·S·g == 8·R + 8·T holds exactly when S·g == R + T. */
  lemma CofactoredEquation(S: Point, R: Point, T: Point)
    ensures Times(Times(G, S), 8) == Add(Times(R, 8), Times(T, 8)) <==> Times(G, S) == Add(R, T)
  {
    ResidueOfPoint(S);
    assert Times(G, S) == S;
    CongResidue(8 * R, L);
    CongResidue(8 * T, L);
    CongAdd((R * 8) % L, 8 * R, (T * 8) % L, 8 * T, L);
    CongResidue((R * 8) % L + (T * 8) % L, L);
    CongTrans(Add(Times(R, 8), Times(T, 8)), (R * 8) % L + (T * 8) % L, 8 * (R + T), L);
    assert Add(Times(R, 8), Times(T, 8)) == (8 * (R + T)) % L;
    CofactorCancels(S, R + T);
  }
}
