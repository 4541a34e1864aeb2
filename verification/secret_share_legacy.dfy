/**
 * The older Lagrange coefficient, `SecretShare.getLi` / `basisPoly`, written
 * against an arbitrary-precision integer library whose `mod` keeps the sign
 * of the dividend and whose `modInv` negates the inverse of |d| for a
 * negative d. A final fix-up adds m to a negative result.
 */
module SecretShareLegacy {
  import opened Wrappers
  import opened ModArith
  import SecretShare

  /** The library's `a.mod(m)`: the remainder takes the sign of a. */
  function TMod(a: int, m: int): (r: int)
    requires m > 0
    ensures -m < r < m && Cong(r, a, m)
  {
    if a < 0 then
      var q := (-a) % m;
      CongResidue(-a, m);
      CongNeg(q, -a, m);
      assert -(-a) == a;
      -q
    else
      CongResidue(a, m);
      a % m
  }

  lemma NoInverseNeg(d: int, e: int, m: int)
    requires m > 0 && e == -d && forall y :: !IsInverse(e, y, m)
    ensures forall y :: !IsInverse(d, y, m)
  {
    forall y | IsInverse(d, y, m) ensures false {
      InverseNeg(d, y, m);
    }
  }

  lemma NegatedInverse(d: int, y: int, m: int)
    requires m > 0 && 0 <= y < m && IsInverse(-d, y, m)
    ensures -m < -y < m && IsInverse(d, -y, m)
  {
    InverseNeg(-d, y, m);
    assert -(-d) == d;
  }

  /**
   * The library's `d.modInv(m)`: the inverse of |d| in [0, m), negated when d
   * is negative; None where the library throws because d and m are not
   * co-prime.
   */
  function SignedModInv(d: int, m: int): (r: Option<int>)
    requires m > 0
    ensures r.Some? ==> -m < r.value < m && IsInverse(d, r.value, m)
    ensures r.None? ==> forall y :: !IsInverse(d, y, m)
  {
    if d < 0 then
      match ModInv(-d, m)
      case None =>
        NoInverseNeg(d, -d, m);
        None
      case Some(y) =>
        var inv: int := y;
        NegatedInverse(d, inv, m);
        Some(-inv)
    else ModInv(d, m)
  }

  /** The library throws exactly where the newer code's `mod_inv` finds no inverse. */
  lemma SignedModInvDefined(d: int, m: int)
    requires m > 0
    ensures SignedModInv(d, m).Some? <==> SecretShare.Invertible(d, m)
  {
    var r := SignedModInv(d, m);
    if r.Some? {
      assert IsInverse(d, r.value, m);
    }
    if ModInv(d, m).Some? {
      assert IsInverse(d, ModInv(d, m).value, m);
    }
  }

  /** The `map` step: `xj.minus(xi).modInv(m).times(xj).mod(m)` for each id, failing at the first throw. */
  function Factors(xi: int, os: seq<int>, m: int): (r: Result<seq<int>>)
    requires m > 0
    ensures r.Success? <==> SecretShare.AllInvertible(xi, os, m)
    ensures r.Failure? ==> r.error == NotInvertible
    ensures r.Success? ==> |r.value| == |os| && forall k :: 0 <= k < |os| ==>
      -m < r.value[k] < m && Cong(r.value[k], SecretShare.Term(xi, os[k], m, m), m)
  {
    if |os| == 0 then Success([])
    else
      var init, last := os[..|os| - 1], os[|os| - 1];
      match Factors(xi, init, m)
      case Failure(e) => Failure(e)
      case Success(fs) =>
        SignedModInvDefined(last - xi, m);
        match SignedModInv(last - xi, m)
        case None => Failure(NotInvertible)
        case Some(y) =>
          FactorCong(xi, last, y, m);
          Success(fs + [TMod(y * last, m)])
  }

  lemma FactorCong(xi: int, xj: int, y: int, m: int)
    requires m > 0 && IsInverse(xj - xi, y, m) && SecretShare.Invertible(xj - xi, m)
    ensures Cong(TMod(y * xj, m), SecretShare.Term(xi, xj, m, m), m)
  {
    var z := SecretShare.InvOf(xj - xi, m);
    InverseUnique(xj - xi, y, z, m);
    CongMul(y, z, xj, xj, m);
    CongResidue(z * xj, m);
  }

  /** The fold `fs.reduce((li, num) => li.times(num).mod(m))` of a non-empty list. */
  function FoldTMod(fs: seq<int>, m: int): int
    requires m > 0 && |fs| >= 1
  {
    if |fs| == 1 then fs[0] else TMod(FoldTMod(fs[..|fs| - 1], m) * fs[|fs| - 1], m)
  }

  /** The fold stays strictly between -m and m and is congruent to the product. */
  lemma {:induction false} FoldTModMeans(fs: seq<int>, m: int)
    requires m > 0 && |fs| >= 1
    requires forall k :: 0 <= k < |fs| ==> -m < fs[k] < m
    ensures -m < FoldTMod(fs, m) < m
    ensures Cong(FoldTMod(fs, m), SecretShare.IntProd(fs), m)
  {
    var init, last := fs[..|fs| - 1], fs[|fs| - 1];
    if |fs| == 1 {
      assert SecretShare.IntProd(fs) == SecretShare.IntProd(init) * last;
    } else {
      FoldTModMeans(init, m);
      CongMul(FoldTMod(init, m), SecretShare.IntProd(init), last, last, m);
    }
  }

  lemma {:induction false} ProductCong(xi: int, os: seq<int>, fs: seq<int>, m: int)
    requires m > 0 && |fs| == |os|
    requires forall k :: 0 <= k < |os| ==> Cong(fs[k], SecretShare.Term(xi, os[k], m, m), m)
    ensures Cong(SecretShare.IntProd(fs), SecretShare.TermProd(xi, os, m, m), m)
  {
    if |os| > 0 {
      var n := |os| - 1;
      ProductCong(xi, os[..n], fs[..n], m);
      CongMul(SecretShare.IntProd(fs[..n]), SecretShare.TermProd(xi, os[..n], m, m),
        fs[n], SecretShare.Term(xi, os[n], m, m), m);
    }
  }

  /** `basisPoly(xi, xs, m)` */
  function BasisPoly(xi: int, xs: seq<int>, m: int): (r: Result<int>)
    requires m > 0
    ensures r == Failure(EmptyReduce) <==> forall k :: 0 <= k < |xs| ==> xs[k] == xi
    ensures r == Failure(NotInvertible) <==>
      exists k :: 0 <= k < |xs| && xs[k] != xi && !SecretShare.Invertible(xs[k] - xi, m)
    ensures r.Success? ==> 0 <= r.value < m
    ensures r.Success? ==> Cong(r.value, SecretShare.TermProd(xi, SecretShare.Others(xi, xs), m, m), m)
  {
    var os := SecretShare.Others(xi, xs);
    SecretShare.OthersNonEmpty(xi, xs);
    SecretShare.OthersInvertible(xi, xs, m);
    match Factors(xi, os, m)
    case Failure(e) => Failure(e)
    case Success(fs) =>
      if |fs| == 0 then Failure(EmptyReduce)
      else
        FoldTModMeans(fs, m);
        ProductCong(xi, os, fs, m);
        var li := FoldTMod(fs, m);
        CongTrans(li, SecretShare.IntProd(fs), SecretShare.TermProd(xi, os, m, m), m);
        SignFix(li, SecretShare.TermProd(xi, os, m, m), m);
        Success(if li < 0 then m + li else li)
  }

  /** `li.sign ? m.plus(li) : li` moves a result in (-m, m) into [0, m) without changing it modulo m. */
  lemma SignFix(li: int, t: int, m: int)
    requires m > 0 && -m < li < m && Cong(li, t, m)
    ensures var r := if li < 0 then m + li else li; 0 <= r < m && Cong(r, t, m)
  {
    ModAddMultiple(li, 1, m);
  }

  /** `SecretShare.getLi(xi, xs, m)` */
  function GetLi(xi: int, xs: seq<int>, m: int): Result<int>
    requires m > 0
  {
    BasisPoly(xi, xs, m)
  }

  /**
   * The older coefficient equals the newer one with the factor reduced as
   * intended, for every modulus, and equals the newer one as written for the
   * modulus L that the protocol uses.
   */
  lemma GetLiAgrees(xi: int, xs: seq<int>, m: int)
    requires m > 0
    ensures GetLi(xi, xs, m) == SecretShare.GetLiFixed(xi, xs, m)
    ensures GetLi(xi, xs, L) == SecretShare.GetLi(xi, xs, L)
  {
    var a, b := GetLi(xi, xs, m), SecretShare.GetLiFixed(xi, xs, m);
    if a.Success? && b.Success? {
      var t := SecretShare.TermProd(xi, SecretShare.Others(xi, xs), m, m);
      CongResidue(t, m);
      CongResidues(a.value, b.value, m);
    }
    var c, d := GetLi(xi, xs, L), SecretShare.GetLiFixed(xi, xs, L);
    if c.Success? && d.Success? {
      var t := SecretShare.TermProd(xi, SecretShare.Others(xi, xs), L, L);
      CongResidue(t, L);
      CongResidues(c.value, d.value, L);
    }
    SecretShare.GetLiAtOrder(xi, xs);
  }
}
