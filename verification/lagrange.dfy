/**
 * Why the coefficients of `GetLi` are the right weights: for ids whose
 * pairwise differences are invertible, the sum over the ids of
 * coefficient(x_i) * f(x_i) is congruent to f(0) for every polynomial f with
 * fewer coefficients than there are ids. This is the reconstruction the
 * protocol relies on when it adds up Lagrange-weighted shares, for example
 * the CVK in `Prism.Authenticate`.
 *
 * Polynomials are coefficient lists, lowest degree first. The proof is by
 * induction on the ids: with xs = ys + [z], the coefficient of an old id gains
 * one factor z / (z - y_i) and the new id gets the product over ys. Synthetic
 * division by (X - z) reduces f to a shorter polynomial on ys.
 */
module Lagrange {
  import opened Wrappers
  import opened ModArith
  import opened Curve
  import opened SecretShare

  // ---------------------------------------------------------------------------
  // Polynomials

  /** c[0] + c[1] x + c[2] x^2 + ..., by Horner's rule. */
  function Eval(c: seq<int>, x: int): int
  {
    if |c| == 0 then 0 else c[0] + x * Eval(c[1..], x)
  }

  /** The quotient of c by (X - y). */
  function Quot(c: seq<int>, y: int): (q: seq<int>)
    ensures |q| == if |c| == 0 then 0 else |c| - 1
  {
    if |c| <= 1 then [] else [Eval(c[1..], y)] + Quot(c[1..], y)
  }

  /** Synthetic division: c(x) = c(y) + (x - y) q(x). */
  lemma {:induction false} QuotientIdentity(c: seq<int>, x: int, y: int)
    ensures Eval(c, x) == Eval(c, y) + (x - y) * Eval(Quot(c, y), x)
  {
    if |c| == 1 {
      assert c[1..] == [];
    } else if |c| >= 2 {
      var t := c[1..];
      QuotientIdentity(t, x, y);
      assert Quot(c, y)[1..] == Quot(t, y);
      HornerStep(c[0], x, y, Eval(t, x), Eval(t, y), Eval(Quot(t, y), x),
        Eval(c, x), Eval(c, y), Eval(Quot(c, y), x));
    }
  }

  /** One step of synthetic division, on the values involved. */
  lemma HornerStep(c0: int, x: int, y: int, ex: int, ey: int, eq: int, cx: int, cy: int, qx: int)
    requires ex == ey + (x - y) * eq
    requires cx == c0 + x * ex && cy == c0 + y * ey && qx == ey + x * eq
    ensures cx == cy + (x - y) * qx
  {
    assert x * ex == x * ey + (x - y) * (x * eq);
    assert x * ey - y * ey == (x - y) * ey;
  }

  /** p with k added to its constant coefficient. */
  function AddConst(p: seq<int>, k: int): (r: seq<int>)
    requires |p| >= 1
    ensures |r| == |p|
  {
    [p[0] + k] + p[1..]
  }

  /** The coefficients of (X - a) c(X). */
  function MulLinear(c: seq<int>, a: int): (r: seq<int>)
    requires |c| >= 1
    ensures |r| == |c| + 1
  {
    if |c| == 1 then [-a * c[0], c[0]]
    else [-a * c[0]] + AddConst(MulLinear(c[1..], a), c[0])
  }

  lemma {:induction false} MulLinearEval(c: seq<int>, a: int, x: int)
    requires |c| >= 1
    ensures Eval(MulLinear(c, a), x) == (x - a) * Eval(c, x)
  {
    var r := MulLinear(c, a);
    if |c| == 1 {
      assert r[1..][1..] == [] && c[1..] == [];
    } else {
      var t := c[1..];
      MulLinearEval(t, a, x);
      var p := MulLinear(t, a);
      var e := Eval(t, x);
      assert r[1..] == AddConst(p, c[0]);
      assert AddConst(p, c[0])[1..] == p[1..];
      assert Eval(r, x) == -a * c[0] + x * (Eval(p, x) + c[0]);
      assert x * ((x - a) * e) == (x - a) * (x * e);
    }
  }

  /** The product of (x - y) over the ids y of ys. */
  function ProdDiff(ys: seq<int>, x: int): int
  {
    if |ys| == 0 then 1 else ProdDiff(ys[..|ys| - 1], x) * (x - ys[|ys| - 1])
  }

  /** The coefficients of the product of (X - y) over ys. */
  function ProdPoly(ys: seq<int>): (r: seq<int>)
    ensures |r| == |ys| + 1
  {
    if |ys| == 0 then [1] else MulLinear(ProdPoly(ys[..|ys| - 1]), ys[|ys| - 1])
  }

  lemma {:induction false} ProdPolyEval(ys: seq<int>, x: int)
    ensures Eval(ProdPoly(ys), x) == ProdDiff(ys, x)
  {
    if |ys| == 0 {
      assert [1][1..] == [];
    } else {
      var n := |ys| - 1;
      ProdPolyEval(ys[..n], x);
      MulLinearEval(ProdPoly(ys[..n]), ys[n], x);
    }
  }

  lemma {:induction false} ProdDiffVanishes(ys: seq<int>, k: int)
    requires 0 <= k < |ys|
    ensures ProdDiff(ys, ys[k]) == 0
  {
    var n := |ys| - 1;
    if k < n {
      ProdDiffVanishes(ys[..n], k);
    }
  }

  // ---------------------------------------------------------------------------
  // The ids

  /** Every two different positions hold ids whose difference is invertible. */
  predicate Separated(xs: seq<int>, m: int)
    requires m > 0
  {
    forall i, j :: 0 <= i < |xs| && 0 <= j < |xs| && i != j ==> InvertibleGap(xs, i, j, m)
  }

  /** The difference of the ids at positions i and j is invertible. */
  predicate InvertibleGap(xs: seq<int>, i: int, j: int, m: int)
    requires m > 0 && 0 <= i < |xs| && 0 <= j < |xs|
  {
    Invertible(xs[i] - xs[j], m)
  }

  lemma SeparatedAt(xs: seq<int>, i: int, j: int, m: int)
    requires m > 0 && Separated(xs, m) && 0 <= i < |xs| && 0 <= j < |xs| && i != j
    ensures Invertible(xs[i] - xs[j], m)
  {
    assert InvertibleGap(xs, i, j, m);
  }

  lemma SeparatedPrefix(xs: seq<int>, n: int, m: int)
    requires m > 0 && Separated(xs, m) && 0 <= n <= |xs|
    ensures Separated(xs[..n], m)
  {
    var ys := xs[..n];
    forall i, j | 0 <= i < |ys| && 0 <= j < |ys| && i != j
      ensures InvertibleGap(ys, i, j, m)
    {
      SeparatedAt(xs, i, j, m);
    }
  }

  lemma ZeroNotInvertible(m: int)
    requires m > 1
    ensures !Invertible(0, m)
  {
    DivModUnique(1, m, 0, 1);
    forall y ensures !IsInverse(0, y, m) {
      assert 0 * y == 0;
    }
  }

  /** For a modulus above 1, separated ids are distinct (0 has no inverse). */
  lemma SeparatedDistinct(xs: seq<int>, i: int, j: int, m: int)
    requires m > 1 && Separated(xs, m) && 0 <= i < |xs| && 0 <= j < |xs| && i != j
    ensures xs[i] != xs[j]
  {
    SeparatedAt(xs, i, j, m);
    ZeroNotInvertible(m);
  }

  // ---------------------------------------------------------------------------
  // The coefficients

  /**
   * The Lagrange coefficient at zero of every id of xs: the product over the
   * other ids xj of xj * (xj - xi)^-1, built up one id at a time.
   */
  function Coeffs(xs: seq<int>, m: int): (cs: seq<int>)
    requires m > 0
    ensures |cs| == |xs|
  {
    if |xs| == 0 then []
    else
      var n := |xs| - 1;
      var ys, z := xs[..n], xs[n];
      var prev := Coeffs(ys, m);
      seq(n, i requires 0 <= i < n => prev[i] * Term(ys[i], z, m, m)) + [TermProd(z, ys, m, m)]
  }

  /** The values of f at the ids. */
  function Values(f: seq<int>, xs: seq<int>): (vs: seq<int>)
    ensures |vs| == |xs|
  {
    seq(|xs|, i requires 0 <= i < |xs| => Eval(f, xs[i]))
  }

  /** The factor z / (z - y) times (y - z) is -z. */
  lemma TermGap(y: int, z: int, m: int)
    requires m > 0 && Invertible(z - y, m)
    ensures Cong(Term(y, z, m, m) * (y - z), -z, m)
  {
    var inv := InvOf(z - y, m);
    var t := Term(y, z, m, m);
    CongResidue(inv * z, m);
    CongMul(t, inv * z, y - z, y - z, m);
    InverseCancels(z, z - y, inv, m);
    CongNeg(z * (z - y) * inv, z, m);
    assert inv * z * (y - z) == -(z * (z - y) * inv);
  }

  lemma InverseOfProduct(a: int, ia: int, b: int, ib: int, m: int)
    requires m > 0 && IsInverse(a, ia, m) && IsInverse(b, ib, m)
    ensures IsInverse(a * b, ia * ib, m)
  {
    CongMul(a * ia, 1, b * ib, 1, m);
    assert a * b * (ia * ib) == (a * ia) * (b * ib);
  }

  /** The product of the inverses of (z - y) over ys. */
  function ProdInv(ys: seq<int>, z: int, m: int): int
    requires m > 0
  {
    if |ys| == 0 then 1 else ProdInv(ys[..|ys| - 1], z, m) * InvOf(z - ys[|ys| - 1], m)
  }

  lemma {:induction false} ProdDiffInvertible(ys: seq<int>, z: int, m: int)
    requires m > 0 && forall j :: 0 <= j < |ys| ==> Invertible(z - ys[j], m)
    ensures IsInverse(ProdDiff(ys, z), ProdInv(ys, z, m), m)
  {
    if |ys| > 0 {
      var n := |ys| - 1;
      ProdDiffInvertible(ys[..n], z, m);
      InverseOfProduct(ProdDiff(ys[..n], z), ProdInv(ys[..n], z, m), z - ys[n], InvOf(z - ys[n], m), m);
    }
  }

  lemma Rearrange4(a: int, b: int, c: int, d: int)
    ensures (a * b) * (c * d) == (a * c) * (d * b)
  {
  }

  /** (prod (z - y)) * coefficient(z) is congruent to prod (0 - y). */
  lemma {:induction false} LastCoeff(ys: seq<int>, z: int, m: int)
    requires m > 0 && forall j :: 0 <= j < |ys| ==> Invertible(ys[j] - z, m)
    ensures Cong(ProdDiff(ys, z) * TermProd(z, ys, m, m), ProdDiff(ys, 0), m)
  {
    if |ys| > 0 {
      var n := |ys| - 1;
      var init, y := ys[..n], ys[n];
      assert Invertible(y - z, m);
      LastCoeff(init, z, m);
      var p, t, p0 := ProdDiff(init, z), TermProd(z, init, m, m), ProdDiff(init, 0);
      var g := Term(z, y, m, m);
      TermGap(z, y, m);
      CongMul(p * t, p0, g * (z - y), -y, m);
      assert ProdDiff(ys, z) == p * (z - y);
      assert TermProd(z, ys, m, m) == t * g;
      assert ProdDiff(ys, 0) == p0 * (-y);
      Rearrange4(p, z - y, t, g);
    }
  }

  lemma Cancel(w: int, winv: int, a: int, b: int, m: int)
    requires m > 0 && IsInverse(w, winv, m) && Cong(w * a, w * b, m)
    ensures Cong(a, b, m)
  {
    CongMul(w * a, w * b, winv, winv, m);
    InverseCancels(a, w, winv, m);
    InverseCancels(b, w, winv, m);
    assert w * a * winv == a * w * winv;
    assert w * b * winv == b * w * winv;
  }

  // ---------------------------------------------------------------------------
  // Sums

  lemma {:induction false} DotSplitCong(a: seq<int>, b: seq<int>, c: seq<int>, d: seq<int>, w: int, k: int, m: int)
    requires m > 0 && |b| == |a| && |c| == |a| && |d| == |a|
    requires forall i :: 0 <= i < |a| ==> Cong(a[i] * b[i], w * a[i] + k * (c[i] * d[i]), m)
    ensures Cong(Dot(a, b), w * IntSum(a) + k * Dot(c, d), m)
  {
    if |a| > 0 {
      var n := |a| - 1;
      var a', b', c', d' := a[..n], b[..n], c[..n], d[..n];
      forall i | 0 <= i < n
        ensures Cong(a'[i] * b'[i], w * a'[i] + k * (c'[i] * d'[i]), m)
      {
        SplitTermShift(a[i], b[i], c[i], d[i], a'[i], b'[i], c'[i], d'[i], w, k, m);
      }
      DotSplitCong(a', b', c', d', w, k, m);
      assert Dot(a, b) == Dot(a', b') + a[n] * b[n] && IntSum(a) == IntSum(a') + a[n] by {
        DotLast(a, b);
      }
      assert Dot(c, d) == Dot(c', d') + c[n] * d[n] by {
        DotLast(c, d);
      }
      SplitStep(Dot(a, b), IntSum(a), Dot(c, d), Dot(a', b'), IntSum(a'), Dot(c', d'),
        a[n] * b[n], a[n], c[n] * d[n], w, k, m);
    }
  }

  lemma SplitTermShift(a: int, b: int, c: int, d: int, a': int, b': int, c': int, d': int, w: int, k: int, m: int)
    requires m > 0 && a' == a && b' == b && c' == c && d' == d
    requires Cong(a * b, w * a + k * (c * d), m)
    ensures Cong(a' * b', w * a' + k * (c' * d'), m)
  {
  }

  /** Adding one term to each of the three sums keeps the split. */
  lemma SplitStep(dab: int, sa: int, scd: int, d0: int, s0: int, e0: int, p: int, x: int, q: int, w: int, k: int, m: int)
    requires m > 0 && Cong(d0, w * s0 + k * e0, m) && Cong(p, w * x + k * q, m)
    requires dab == d0 + p && sa == s0 + x && scd == e0 + q
    ensures Cong(dab, w * sa + k * scd, m)
  {
    CongAdd(d0, w * s0 + k * e0, p, w * x + k * q, m);
    assert w * s0 + k * e0 + (w * x + k * q) == w * sa + k * scd;
  }

  lemma {:induction false} SumScaleCong(a: seq<int>, c: seq<int>, d: seq<int>, w: int, k: int, m: int)
    requires m > 0 && |c| == |a| && |d| == |a|
    requires forall i :: 0 <= i < |a| ==> Cong(w * a[i], k * (c[i] * d[i]), m)
    ensures Cong(w * IntSum(a), k * Dot(c, d), m)
  {
    if |a| > 0 {
      var n := |a| - 1;
      var a', c', d' := a[..n], c[..n], d[..n];
      forall i | 0 <= i < n
        ensures Cong(w * a'[i], k * (c'[i] * d'[i]), m)
      {
        ScaleTermShift(a[i], c[i], d[i], a'[i], c'[i], d'[i], w, k, m);
      }
      SumScaleCong(a', c', d', w, k, m);
      assert IntSum(a) == IntSum(a') + a[n] by {
        DotLast(a, a);
      }
      assert Dot(c, d) == Dot(c', d') + c[n] * d[n] by {
        DotLast(c, d);
      }
      ScaleStep(IntSum(a), Dot(c, d), IntSum(a'), Dot(c', d'), a[n], c[n] * d[n], w, k, m);
    }
  }

  lemma ScaleTermShift(a: int, c: int, d: int, a': int, c': int, d': int, w: int, k: int, m: int)
    requires m > 0 && a' == a && c' == c && d' == d
    requires Cong(w * a, k * (c * d), m)
    ensures Cong(w * a', k * (c' * d'), m)
  {
  }

  lemma ScaleStep(sa: int, scd: int, s0: int, e0: int, x: int, q: int, w: int, k: int, m: int)
    requires m > 0 && Cong(w * s0, k * e0, m) && Cong(w * x, k * q, m)
    requires sa == s0 + x && scd == e0 + q
    ensures Cong(w * sa, k * scd, m)
  {
    CongAdd(w * s0, k * e0, w * x, k * q, m);
    Distribute(w, s0, x);
    Distribute(k, e0, q);
  }

  lemma Distribute(w: int, a: int, b: int)
    ensures w * (a + b) == w * a + w * b
  {
  }

  /** One term of the interpolation sum, split along f(y) = f(z) + (y - z) q(y). */
  lemma TermSplit(t: int, c: int, y: int, z: int, k: int, fy: int, fz: int, qy: int, m: int)
    requires m > 0 && Invertible(z - y, m) && fy == fz + (y - z) * qy && t == c * Term(y, z, m, m) && k == -z
    ensures Cong(t * fy, fz * t + k * (c * qy), m)
  {
    var g := Term(y, z, m, m);
    TermGap(y, z, m);
    CongMul(c * qy, c * qy, g * (y - z), k, m);
    assert t * fy == fz * t + (c * qy) * (g * (y - z));
    CongAdd(fz * t, fz * t, (c * qy) * (g * (y - z)), (c * qy) * k, m);
    assert (c * qy) * k == k * (c * qy);
  }

  /** One term of the coefficient sum, against h(y) where (z - y) h(y) = w. */
  lemma TermSumOne(t: int, c: int, y: int, z: int, hy: int, w: int, m: int)
    requires m > 0 && Invertible(z - y, m) && 0 == w + (y - z) * hy && t == c * Term(y, z, m, m)
    ensures Cong(w * t, z * (c * hy), m)
  {
    var g := Term(y, z, m, m);
    TermGap(y, z, m);
    CongMul(-(c * hy), -(c * hy), g * (y - z), -z, m);
    assert w * t == -(c * hy) * (g * (y - z));
    assert -(c * hy) * (-z) == z * (c * hy);
  }

  lemma Combine(d: int, s: int, e: int, cn: int, fz: int, k: int, q0: int, m: int)
    requires m > 0 && Cong(d, fz * s + k * e, m) && Cong(e, q0, m) && Cong(s + cn, 1, m)
    ensures Cong(d + cn * fz, fz + k * q0, m)
  {
    CongMul(fz, fz, s + cn, 1, m);
    CongMul(k, k, e, q0, m);
    CongAdd(fz * (s + cn), fz * 1, k * e, k * q0, m);
    CongAdd(d, fz * s + k * e, cn * fz, cn * fz, m);
    assert fz * s + k * e + cn * fz == fz * (s + cn) + k * e;
  }

  lemma CombineSum(wz: int, s: int, cn: int, e: int, h0: int, w0: int, z: int, winv: int, m: int)
    requires m > 0 && Cong(wz * s, z * e, m) && Cong(e, h0, m) && w0 == wz + (0 - z) * h0
    requires Cong(wz * cn, w0, m) && IsInverse(wz, winv, m)
    ensures Cong(s + cn, 1, m)
  {
    CongMul(z, z, e, h0, m);
    CongAdd(wz * s, z * h0, wz * cn, w0, m);
    assert z * h0 + w0 == wz * 1;
    assert wz * s + wz * cn == wz * (s + cn);
    Cancel(wz, winv, s + cn, 1, m);
  }

  // ---------------------------------------------------------------------------
  // The theorem

  lemma ConstantPolynomial(f: seq<int>, x: int)
    requires |f| <= 1
    ensures Eval(f, x) == Eval(f, 0)
  {
    if |f| == 1 {
      assert f[1..] == [];
    }
  }

  lemma DotLast(a: seq<int>, b: seq<int>)
    requires |a| == |b| && |a| > 0
    ensures Dot(a, b) == Dot(a[..|a| - 1], b[..|b| - 1]) + a[|a| - 1] * b[|b| - 1]
    ensures IntSum(a) == IntSum(a[..|a| - 1]) + a[|a| - 1]
  {
  }

  /** Adding the id z to ys multiplies each old coefficient by z / (z - y). */
  lemma CoeffsStep(xs: seq<int>, m: int)
    requires m > 0 && |xs| >= 1
    ensures var n := |xs| - 1;
      && (forall i :: 0 <= i < n ==>
            Coeffs(xs, m)[i] == Coeffs(xs[..n], m)[i] * Term(xs[i], xs[n], m, m))
      && Coeffs(xs, m)[n] == TermProd(xs[n], xs[..n], m, m)
  {
  }

  /** The last id is separated from each of the ids before it. */
  lemma InvertibleToLast(xs: seq<int>, m: int, ys: seq<int>, z: int)
    requires m > 0 && Separated(xs, m) && |xs| >= 1
    requires ys == xs[..|xs| - 1] && z == xs[|xs| - 1]
    ensures forall j :: 0 <= j < |ys| ==> Invertible(ys[j] - z, m) && Invertible(z - ys[j], m)
  {
    forall j | 0 <= j < |ys|
      ensures Invertible(ys[j] - z, m) && Invertible(z - ys[j], m)
    {
      SeparatedAt(xs, j, |xs| - 1, m);
      SeparatedAt(xs, |xs| - 1, j, m);
    }
  }

  /**
   * One term of the coefficient sum, for W the product of (X - y) over ys and
   * h = W / (X - z); the terms are passed in as the caller names them.
   */
  lemma SumOneTerm(xs: seq<int>, i: int, m: int, t: int, c: int, hy: int, wz: int, z: int)
    requires m > 0 && Separated(xs, m) && 0 <= i < |xs| - 1
    requires z == xs[|xs| - 1] && wz == ProdDiff(xs[..|xs| - 1], z)
    requires t == Coeffs(xs, m)[i] && c == Coeffs(xs[..|xs| - 1], m)[i]
    requires hy == Eval(Quot(ProdPoly(xs[..|xs| - 1]), z), xs[i])
    ensures Cong(wz * t, z * (c * hy), m)
  {
    var n := |xs| - 1;
    var ys := xs[..n];
    var w := ProdPoly(ys);
    assert 0 == wz + (xs[i] - z) * hy by {
      QuotientIdentity(w, xs[i], z);
      ProdPolyEval(ys, xs[i]);
      ProdPolyEval(ys, z);
      assert ys[i] == xs[i];
      ProdDiffVanishes(ys, i);
    }
    assert Invertible(z - xs[i], m) by {
      SeparatedAt(xs, n, i, m);
    }
    assert t == c * Term(xs[i], z, m, m) by {
      CoeffsStep(xs, m);
    }
    TermSumOne(t, c, xs[i], z, hy, wz, m);
  }

  /** The old coefficients, scaled by W(z), against the weighted values of h = W / (X - z) on ys. */
  lemma SumOfOldCoeffs(xs: seq<int>, m: int, ps: seq<int>, cys: seq<int>, hs: seq<int>, wz: int, z: int)
    requires m > 0 && Separated(xs, m) && |xs| >= 2
    requires z == xs[|xs| - 1] && wz == ProdDiff(xs[..|xs| - 1], z)
    requires ps == Coeffs(xs, m)[..|xs| - 1] && cys == Coeffs(xs[..|xs| - 1], m)
    requires hs == Values(Quot(ProdPoly(xs[..|xs| - 1]), z), xs[..|xs| - 1])
    ensures Cong(wz * IntSum(ps), z * Dot(cys, hs), m)
  {
    forall i | 0 <= i < |xs| - 1
      ensures Cong(wz * ps[i], z * (cys[i] * hs[i]), m)
    {
      SumOneTerm(xs, i, m, ps[i], cys[i], hs[i], wz, z);
    }
    SumScaleCong(ps, cys, hs, wz, z, m);
  }

  /** W(0) = W(z) + (0 - z) h(0) for W the product of (X - y) over ys and h = W / (X - z). */
  lemma ProdAtZero(ys: seq<int>, z: int, h: seq<int>, wz: int, w0: int)
    requires h == Quot(ProdPoly(ys), z) && wz == ProdDiff(ys, z) && w0 == ProdDiff(ys, 0)
    ensures w0 == wz + (0 - z) * Eval(h, 0)
  {
    ProdPolyEval(ys, z);
    ProdPolyEval(ys, 0);
    QuotientIdentity(ProdPoly(ys), 0, z);
  }

  /** W(z) times the new coefficient is W(0), and W(z) is invertible. */
  lemma NewCoeff(xs: seq<int>, m: int, ys: seq<int>, z: int, cn: int, wz: int)
    requires m > 0 && Separated(xs, m) && |xs| >= 1
    requires ys == xs[..|xs| - 1] && z == xs[|xs| - 1] && cn == Coeffs(xs, m)[|xs| - 1]
    requires wz == ProdDiff(ys, z)
    ensures Cong(wz * cn, ProdDiff(ys, 0), m)
    ensures IsInverse(wz, ProdInv(ys, z, m), m)
  {
    InvertibleToLast(xs, m, ys, z);
    assert cn == TermProd(z, ys, m, m) by {
      CoeffsStep(xs, m);
    }
    assert Cong(ProdDiff(ys, z) * TermProd(z, ys, m, m), ProdDiff(ys, 0), m) by {
      LastCoeff(ys, z, m);
    }
    SubstituteProduct(wz, cn, ProdDiff(ys, z), TermProd(z, ys, m, m), ProdDiff(ys, 0), m);
    ProdDiffInvertible(ys, z, m);
  }

  lemma SubstituteProduct(a: int, b: int, a': int, b': int, c: int, m: int)
    requires m > 0 && a == a' && b == b' && Cong(a' * b', c, m)
    ensures Cong(a * b, c, m)
  {
  }

  /** The coefficients of separated ids add up to 1: they interpolate the constant 1. */
  lemma {:induction false} CoefficientsSumToOne(xs: seq<int>, m: int)
    requires m > 0 && Separated(xs, m) && |xs| >= 1
    ensures Cong(IntSum(Coeffs(xs, m)), 1, m)
    decreases |xs|, 0
  {
    var n := |xs| - 1;
    var cs := Coeffs(xs, m);
    assert IntSum(cs) == IntSum(cs[..n]) + cs[n] by {
      DotLast(cs, cs);
    }
    if n == 0 {
      assert cs[n] == TermProd(xs[n], xs[..n], m, m) by {
        CoeffsStep(xs, m);
      }
      assert xs[..n] == [];
    } else {
      var ys, z := xs[..n], xs[n];
      var h := Quot(ProdPoly(ys), z);
      var cys, hs := Coeffs(ys, m), Values(h, ys);
      var wz, w0 := ProdDiff(ys, z), ProdDiff(ys, 0);
      assert Cong(Dot(cys, hs), Eval(h, 0), m) by {
        SeparatedPrefix(xs, n, m);
        Interpolation(ys, h, m);
      }
      SumOfOldCoeffs(xs, m, cs[..n], cys, hs, wz, z);
      ProdAtZero(ys, z, h, wz, w0);
      NewCoeff(xs, m, ys, z, cs[n], wz);
      CombineSum(wz, IntSum(cs[..n]), cs[n], Dot(cys, hs), Eval(h, 0), w0, z, ProdInv(ys, z, m), m);
    }
  }

  /** One term of the interpolation sum, split along f(y) = f(z) + (y - z) q(y) for q = f / (X - z). */
  lemma InterpolationTerm(xs: seq<int>, f: seq<int>, i: int, m: int,
                          t: int, c: int, fy: int, fz: int, qy: int, z: int, k: int)
    requires m > 0 && Separated(xs, m) && 0 <= i < |xs| - 1
    requires z == xs[|xs| - 1] && fz == Eval(f, z) && fy == Eval(f, xs[i])
    requires t == Coeffs(xs, m)[i] && c == Coeffs(xs[..|xs| - 1], m)[i]
    requires qy == Eval(Quot(f, z), xs[i]) && k == -z
    ensures Cong(t * fy, fz * t + k * (c * qy), m)
  {
    var n := |xs| - 1;
    assert fy == fz + (xs[i] - z) * qy by {
      QuotientIdentity(f, xs[i], z);
    }
    assert Invertible(z - xs[i], m) by {
      SeparatedAt(xs, n, i, m);
    }
    assert t == c * Term(xs[i], z, m, m) by {
      CoeffsStep(xs, m);
    }
    TermSplit(t, c, xs[i], z, k, fy, fz, qy, m);
  }

  /** The old ids' part of the interpolation sum, split into f(z) times their coefficients and the sum for q. */
  lemma InterpolationOldIds(xs: seq<int>, f: seq<int>, m: int,
                            ps: seq<int>, fs: seq<int>, cys: seq<int>, qs: seq<int>, fz: int, z: int, k: int)
    requires m > 0 && Separated(xs, m) && |xs| >= 2
    requires z == xs[|xs| - 1] && fz == Eval(f, z)
    requires ps == Coeffs(xs, m)[..|xs| - 1] && fs == Values(f, xs[..|xs| - 1])
    requires cys == Coeffs(xs[..|xs| - 1], m) && qs == Values(Quot(f, z), xs[..|xs| - 1]) && k == -z
    ensures Cong(Dot(ps, fs), fz * IntSum(ps) + k * Dot(cys, qs), m)
  {
    forall i | 0 <= i < |xs| - 1
      ensures Cong(ps[i] * fs[i], fz * ps[i] + k * (cys[i] * qs[i]), m)
    {
      InterpolationTerm(xs, f, i, m, ps[i], cys[i], fs[i], fz, qs[i], z, k);
    }
    DotSplitCong(ps, fs, cys, qs, fz, k, m);
  }

  /** f(0) = f(z) + (0 - z) q(0) for q = f / (X - z). */
  lemma QuotientAtZero(f: seq<int>, z: int, k: int, q: seq<int>, fz: int)
    requires q == Quot(f, z) && fz == Eval(f, z) && k == -z
    ensures Eval(f, 0) == fz + k * Eval(q, 0)
  {
    QuotientIdentity(f, 0, z);
  }

  /**
   * Lagrange interpolation at zero: for separated ids and a polynomial f with
   * at most as many coefficients as ids, the coefficient-weighted sum of the
   * values f(x_i) is congruent to f(0).
   */
  lemma {:induction false} Interpolation(xs: seq<int>, f: seq<int>, m: int)
    requires m > 0 && Separated(xs, m) && 1 <= |xs| && |f| <= |xs|
    ensures Cong(Dot(Coeffs(xs, m), Values(f, xs)), Eval(f, 0), m)
    decreases |xs|, 1
  {
    var n := |xs| - 1;
    var cs, vs := Coeffs(xs, m), Values(f, xs);
    var ps, fs := cs[..n], Values(f, xs[..n]);
    var fz := Eval(f, xs[n]);
    assert Dot(cs, vs) == Dot(ps, fs) + cs[n] * fz by {
      DotLast(cs, vs);
      assert vs[..n] == fs;
    }
    if n == 0 {
      assert cs[n] == TermProd(xs[n], xs[..n], m, m) by {
        CoeffsStep(xs, m);
      }
      assert xs[..n] == [];
      ConstantPolynomial(f, xs[0]);
    } else {
      var ys, z := xs[..n], xs[n];
      var q := Quot(f, z);
      var cys, qs := Coeffs(ys, m), Values(q, ys);
      assert Cong(IntSum(ps) + cs[n], 1, m) by {
        CoefficientsSumToOne(xs, m);
        DotLast(cs, cs);
      }
      assert Cong(Dot(cys, qs), Eval(q, 0), m) by {
        SeparatedPrefix(xs, n, m);
        Interpolation(ys, q, m);
      }
      var k := -z;
      InterpolationOldIds(xs, f, m, ps, fs, cys, qs, fz, z, k);
      QuotientAtZero(f, z, k, q, fz);
      Combine(Dot(ps, fs), IntSum(ps), Dot(cys, qs), cs[n], fz, k, Eval(q, 0), m);
    }
  }

  // ---------------------------------------------------------------------------
  // The coefficients GetLi computes

  /** xs without its i-th element. */
  function Without(xs: seq<int>, i: int): (r: seq<int>)
    requires 0 <= i < |xs|
    ensures |r| == |xs| - 1
  {
    xs[..i] + xs[i + 1..]
  }

  /** The coefficient of the i-th id is the product of the factors over every other id, in order. */
  lemma {:induction false} CoeffIsProduct(xs: seq<int>, i: int, m: int)
    requires m > 0 && 0 <= i < |xs|
    ensures Coeffs(xs, m)[i] == TermProd(xs[i], Without(xs, i), m, m)
  {
    var n := |xs| - 1;
    var ys, z := xs[..n], xs[n];
    if i == n {
      assert Without(xs, i) == ys;
      CoeffsStep(xs, m);
    } else {
      var w := Without(ys, i);
      var g := Term(xs[i], z, m, m);
      assert Without(xs, i) == w + [z];
      assert TermProd(xs[i], w + [z], m, m) == TermProd(xs[i], w, m, m) * g by {
        assert (w + [z])[..|w|] == w;
      }
      assert Coeffs(ys, m)[i] == TermProd(xs[i], w, m, m) by {
        CoeffIsProduct(ys, i, m);
        assert ys[i] == xs[i];
      }
      assert Coeffs(xs, m)[i] == Coeffs(ys, m)[i] * g by {
        CoeffsStep(xs, m);
      }
      MulSubstitute(Coeffs(ys, m)[i], g, TermProd(xs[i], w, m, m), g);
    }
  }

  lemma MulSubstitute(a: int, b: int, a': int, b': int)
    requires a == a' && b == b'
    ensures a * b == a' * b'
  {
  }

  /** Removing an id that does not occur changes nothing. */
  lemma {:induction false} OthersOfAbsent(x: int, s: seq<int>)
    requires forall k :: 0 <= k < |s| ==> s[k] != x
    ensures Others(x, s) == s
  {
    if |s| > 0 {
      var n := |s| - 1;
      OthersOfAbsent(x, s[..n]);
      assert s[..n] + [s[n]] == s;
    }
  }

  /** When the i-th id occurs only once, the other ids are the list without it. */
  lemma {:induction false} OthersWithout(xs: seq<int>, i: int)
    requires 0 <= i < |xs|
    requires forall k :: 0 <= k < |xs| && k != i ==> xs[k] != xs[i]
    ensures Others(xs[i], xs) == Without(xs, i)
  {
    var n := |xs| - 1;
    var ys, z := xs[..n], xs[n];
    if i == n {
      OthersOfAbsent(z, ys);
      assert Without(xs, i) == ys;
    } else {
      assert ys[i] == xs[i];
      OthersWithout(ys, i);
      assert Without(xs, i) == Without(ys, i) + [z];
    }
  }

  /**
   * For at least two separated ids, the intended coefficient of every id is
   * defined and is the reduced interpolation weight of that id.
   */
  lemma GetLiFixedIsCoeff(xs: seq<int>, i: int, m: int)
    requires m > 1 && Separated(xs, m) && |xs| >= 2 && 0 <= i < |xs|
    ensures GetLiFixed(xs[i], xs, m) == Success(Coeffs(xs, m)[i] % m)
  {
    var xi := xs[i];
    var r := GetLiFixed(xi, xs, m);
    assert r != Failure(EmptyReduce) by {
      var j := if i == 0 then 1 else 0;
      SeparatedDistinct(xs, j, i, m);
    }
    assert r != Failure(NotInvertible) by {
      forall k | 0 <= k < |xs| && xs[k] != xi
        ensures Invertible(xs[k] - xi, m)
      {
        SeparatedAt(xs, k, i, m);
      }
    }
    assert Others(xi, xs) == Without(xs, i) by {
      forall k | 0 <= k < |xs| && k != i
        ensures xs[k] != xi
      {
        SeparatedDistinct(xs, k, i, m);
      }
      OthersWithout(xs, i);
    }
    CoeffIsProduct(xs, i, m);
  }

  /** `GetLi` as written, at the modulus L the protocol passes, gives the reduced weight of each id. */
  lemma GetLiIsCoeff(xs: seq<int>, i: int)
    requires Separated(xs, L) && |xs| >= 2 && 0 <= i < |xs|
    ensures GetLi(xs[i], xs, L) == Success(Coeffs(xs, L)[i] % L)
  {
    GetLiFixedIsCoeff(xs, i, L);
    GetLiAtOrder(xs[i], xs);
  }

  /** The interpolation weights of the ids, reduced modulo L. */
  function Weights(xs: seq<int>): (ws: seq<int>)
    ensures |ws| == |xs|
  {
    seq(|xs|, i requires 0 <= i < |xs| => Coeffs(xs, L)[i] % L)
  }

  /** The list of all the weights, as `Lis` computes it. */
  lemma LisAreWeights(xs: seq<int>)
    requires Separated(xs, L) && |xs| >= 2
    ensures Lis(xs, L) == Success(Weights(xs))
  {
    var ls := Weights(xs);
    var r := Lis(xs, L);
    forall i | 0 <= i < |xs|
      ensures GetLi(xs[i], xs, L) == Success(ls[i])
    {
      GetLiIsCoeff(xs, i);
    }
    assert r.Success?;
    assert r.value == ls by {
      forall i | 0 <= i < |xs|
        ensures r.value[i] == ls[i]
      {
        assert GetLi(xs[i], xs, L) == Success(r.value[i]);
      }
    }
  }

  /** The weights recover f(0) from the values f(x_i). */
  lemma WeightedValues(xs: seq<int>, f: seq<int>)
    requires Separated(xs, L) && |xs| >= 1 && |f| <= |xs|
    ensures Cong(Dot(Values(f, xs), Weights(xs)), Eval(f, 0), L)
  {
    var ls, cs, vs := Weights(xs), Coeffs(xs, L), Values(f, xs);
    forall i | 0 <= i < |xs|
      ensures Cong(ls[i], cs[i], L)
    {
      CongResidue(cs[i], L);
    }
    DotCongTermwise(ls, cs, vs);
    Interpolation(xs, f, L);
    DotSymmetric(ls, vs);
    DotSymmetric(cs, vs);
    CongTrans(Dot(ls, vs), Dot(cs, vs), Eval(f, 0), L);
  }

  /**
   * Reconstruction as the protocol performs it: for at least two ids whose
   * differences are invertible modulo L, every `GetLi(id, ids, L)` is defined,
   * and the shares f(id) weighted by them add up to the secret f(0) modulo L,
   * for every polynomial f with no more coefficients than there are ids.
   */
  lemma Reconstruction(xs: seq<int>, f: seq<int>)
    requires Separated(xs, L) && |xs| >= 2 && |f| <= |xs|
    ensures Lis(xs, L).Success?
    ensures Cong(Dot(Values(f, xs), Lis(xs, L).value), Eval(f, 0), L)
  {
    LisAreWeights(xs);
    WeightedValues(xs, f);
  }
}
