/**
 * Lagrange basis coefficients at zero, `GetLi(xi, xs, m)`: the weight that
 * the share of the participant with id xi gets when a secret shared among the
 * ids xs is reconstructed. The code filters xi out of xs, maps every other id
 * xj to a factor xj * (xj - xi)^-1 and multiplies the factors together modulo
 * m with a `reduce` that has no initial value.
 */
module SecretShare {
  import opened Wrappers
  import opened ModArith

  // ---------------------------------------------------------------------------
  // The reference: the product of the factors

  /** `xs.filter(xj => xj != xi)`: every id except xi, with its multiplicity, in order. */
  function Others(xi: int, xs: seq<int>): (r: seq<int>)
    ensures multiset(r) == multiset(xs)[xi := 0]
  {
    if |xs| == 0 then []
    else
      var init, last := xs[..|xs| - 1], xs[|xs| - 1];
      assert xs == init + [last];
      if last == xi then Others(xi, init) else Others(xi, init) + [last]
  }

  /** d has an inverse modulo m. */
  predicate Invertible(d: int, m: int)
    requires m > 0
  {
    ModInv(d, m).Some?
  }

  lemma InvertibleMeans(d: int, m: int)
    requires m > 0
    ensures Invertible(d, m) <==> exists y :: IsInverse(d, y, m)
  {
  }

  /** The inverse of d in [0, m), or 0 when there is none. */
  function InvOf(d: int, m: int): (r: nat)
    requires m > 0
    ensures r < m
    ensures Invertible(d, m) ==> IsInverse(d, r, m)
  {
    match ModInv(d, m)
    case Some(y) => y
    case None => 0
  }

  /** Every id of os differs from xi by an invertible amount. */
  predicate AllInvertible(xi: int, os: seq<int>, m: int)
    requires m > 0
  {
    forall k :: 0 <= k < |os| ==> Invertible(os[k] - xi, m)
  }

  /** The factor for xj: xj * (xj - xi)^-1, with the product reduced modulo n. */
  function Term(xi: int, xj: int, m: int, n: int): int
    requires m > 0 && n > 0
  {
    (InvOf(xj - xi, m) * xj) % n
  }

  /** The product of the factors over os, as an integer. */
  function TermProd(xi: int, os: seq<int>, m: int, n: int): int
    requires m > 0 && n > 0
  {
    if |os| == 0 then 1
    else TermProd(xi, os[..|os| - 1], m, n) * Term(xi, os[|os| - 1], m, n)
  }

  /** The product of a list of integers. */
  function IntProd(fs: seq<int>): int
  {
    if |fs| == 0 then 1 else IntProd(fs[..|fs| - 1]) * fs[|fs| - 1]
  }

  // ---------------------------------------------------------------------------
  // The code: filter, map, reduce

  /**
   * The `map` step: each factor in id order, or NotInvertible from the first
   * id whose difference to xi has no inverse modulo m.
   */
  function Factors(xi: int, os: seq<int>, m: int, n: int): (r: Result<seq<int>>)
    requires m > 0 && n > 0
    ensures r.Success? <==> AllInvertible(xi, os, m)
    ensures r.Failure? ==> r.error == NotInvertible
    ensures r.Success? ==> |r.value| == |os|
    ensures r.Success? ==> forall k :: 0 <= k < |os| ==> r.value[k] == Term(xi, os[k], m, n)
  {
    if |os| == 0 then Success([])
    else
      var init, last := os[..|os| - 1], os[|os| - 1];
      match Factors(xi, init, m, n)
      case Failure(e) => Failure(e)
      case Success(fs) =>
        match ModInv(last - xi, m)
        case None => Failure(NotInvertible)
        case Some(y) => Success(fs + [(y * last) % n])
  }

  /** The left fold `fs.reduce((li, num) => mod(li * num, m))` of a non-empty list. */
  function FoldMulMod(fs: seq<int>, m: int): int
    requires m > 0 && |fs| >= 1
  {
    if |fs| == 1 then fs[0] else (FoldMulMod(fs[..|fs| - 1], m) * fs[|fs| - 1]) % m
  }

  /** Once two factors have been multiplied, the fold is the product reduced modulo m. */
  lemma {:induction false} FoldIsProduct(fs: seq<int>, m: int)
    requires m > 0 && |fs| >= 2
    ensures FoldMulMod(fs, m) == IntProd(fs) % m
  {
    var init, last := fs[..|fs| - 1], fs[|fs| - 1];
    if |fs| == 2 {
      assert init == [fs[0]] && init[..0] == [];
      assert IntProd(init) == fs[0];
    } else {
      FoldIsProduct(init, m);
      ModMul(IntProd(init), last, m);
      ModMul(IntProd(init) % m, last, m);
      ModOfResidue(IntProd(init), m);
    }
  }

  /** `reduce` without an initial value: EmptyReduce on [], the one element unchanged on a singleton. */
  function ReduceMulMod(fs: seq<int>, m: int): (r: Result<int>)
    requires m > 0
    ensures r.Failure? <==> |fs| == 0
    ensures r.Failure? ==> r.error == EmptyReduce
    ensures |fs| == 1 ==> r == Success(fs[0])
    ensures |fs| >= 2 ==> r == Success(IntProd(fs) % m)
  {
    if |fs| == 0 then Failure(EmptyReduce)
    else if |fs| == 1 then Success(FoldMulMod(fs, m))
    else
      FoldIsProduct(fs, m);
      Success(FoldMulMod(fs, m))
  }

  /** The filter-map-reduce chain with the factors reduced modulo n. */
  function Chain(xi: int, xs: seq<int>, m: int, n: int): Result<int>
    requires m > 0 && n > 0
  {
    match Factors(xi, Others(xi, xs), m, n)
    case Failure(e) => Failure(e)
    case Success(fs) => ReduceMulMod(fs, m)
  }

  lemma OthersMembers(xi: int, xs: seq<int>)
    ensures forall x :: x in Others(xi, xs) <==> x in xs && x != xi
  {
    forall x ensures x in Others(xi, xs) <==> x in xs && x != xi {
      assert x in Others(xi, xs) <==> x in multiset(Others(xi, xs));
      assert x in xs <==> x in multiset(xs);
    }
  }

  lemma {:induction false} IntProdOfTerms(xi: int, os: seq<int>, m: int, n: int, fs: seq<int>)
    requires m > 0 && n > 0 && |fs| == |os|
    requires forall k :: 0 <= k < |os| ==> fs[k] == Term(xi, os[k], m, n)
    ensures IntProd(fs) == TermProd(xi, os, m, n)
  {
    if |os| > 0 {
      IntProdOfTerms(xi, os[..|os| - 1], m, n, fs[..|fs| - 1]);
    }
  }

  /** What the chain computes, in terms of the ids. */
  lemma ChainMeans(xi: int, xs: seq<int>, m: int, n: int)
    requires m > 0 && n > 0
    ensures var os := Others(xi, xs);
      && (Chain(xi, xs, m, n) == Failure(EmptyReduce) <==> |os| == 0)
      && (Chain(xi, xs, m, n) == Failure(NotInvertible) <==> |os| > 0 && !AllInvertible(xi, os, m))
      && (Chain(xi, xs, m, n).Success? ==> AllInvertible(xi, os, m) && |os| > 0)
      && (Chain(xi, xs, m, n).Success? && |os| == 1 ==> Chain(xi, xs, m, n).value == Term(xi, os[0], m, n))
      && (Chain(xi, xs, m, n).Success? && |os| >= 2 ==> Chain(xi, xs, m, n).value == TermProd(xi, os, m, n) % m)
  {
    var os := Others(xi, xs);
    var f := Factors(xi, os, m, n);
    if f.Success? {
      IntProdOfTerms(xi, os, m, n, f.value);
    }
  }

  /**
   * `GetLi(xi, xs, m)` as written. The `m` after the factor expression is an
   * argument of `map`, not of `mod`, so each factor is reduced modulo L (the
   * default modulus of `mod`) while the fold reduces modulo m.
   */
  function GetLi(xi: int, xs: seq<int>, m: int): (r: Result<int>)
    requires m > 0
    ensures r == Failure(EmptyReduce) <==> forall k :: 0 <= k < |xs| ==> xs[k] == xi
    ensures r == Failure(NotInvertible) <==>
      exists k :: 0 <= k < |xs| && xs[k] != xi && !Invertible(xs[k] - xi, m)
    ensures r.Failure? ==> r.error == EmptyReduce || r.error == NotInvertible
    ensures r.Success? ==> 0 <= r.value
    ensures r.Success? && |Others(xi, xs)| == 1 ==> r.value < L
    ensures r.Success? && |Others(xi, xs)| >= 2 ==> r.value < m
  {
    ChainMeans(xi, xs, m, L);
    OthersNonEmpty(xi, xs);
    OthersInvertible(xi, xs, m);
    Chain(xi, xs, m, L)
  }

  /** `GetLi` with the factor reduced modulo m as intended. */
  function GetLiFixed(xi: int, xs: seq<int>, m: int): (r: Result<int>)
    requires m > 0
    ensures r == Failure(EmptyReduce) <==> forall k :: 0 <= k < |xs| ==> xs[k] == xi
    ensures r == Failure(NotInvertible) <==>
      exists k :: 0 <= k < |xs| && xs[k] != xi && !Invertible(xs[k] - xi, m)
    ensures r.Failure? ==> r.error == EmptyReduce || r.error == NotInvertible
    ensures r.Success? ==>
      AllInvertible(xi, Others(xi, xs), m) && r.value == TermProd(xi, Others(xi, xs), m, m) % m
  {
    ChainMeans(xi, xs, m, m);
    OthersNonEmpty(xi, xs);
    OthersInvertible(xi, xs, m);
    SingleTermReduced(xi, Others(xi, xs), m);
    Chain(xi, xs, m, m)
  }

  /**
   * `ids.map(id => GetLi(id, ids, m))`, the coefficient of every participant;
   * the first id whose coefficient throws makes the whole map throw.
   */
  function Lis(ids: seq<int>, m: int): (r: Result<seq<int>>)
    requires m > 0
    ensures r.Success? ==> |r.value| == |ids|
    ensures r.Success? ==> forall i :: 0 <= i < |ids| ==> GetLi(ids[i], ids, m) == Success(r.value[i])
    ensures r.Failure? ==> exists i :: 0 <= i < |ids| && GetLi(ids[i], ids, m) == Failure(r.error)
  {
    All(seq(|ids|, i requires 0 <= i < |ids| => GetLi(ids[i], ids, m)))
  }

  lemma SingleTermReduced(xi: int, os: seq<int>, m: int)
    requires m > 0
    ensures |os| == 1 && AllInvertible(xi, os, m) ==>
      Term(xi, os[0], m, m) == TermProd(xi, os, m, m) % m
  {
    if |os| == 1 && AllInvertible(xi, os, m) {
      assert os[..0] == [];
      ModOfResidue(InvOf(os[0] - xi, m) * os[0], m);
    }
  }

  lemma OthersNonEmpty(xi: int, xs: seq<int>)
    ensures |Others(xi, xs)| == 0 <==> forall k :: 0 <= k < |xs| ==> xs[k] == xi
  {
    OthersMembers(xi, xs);
    if |Others(xi, xs)| > 0 {
      var o := Others(xi, xs)[0];
      assert o in Others(xi, xs);
    }
  }

  lemma OthersInvertible(xi: int, xs: seq<int>, m: int)
    requires m > 0
    ensures AllInvertible(xi, Others(xi, xs), m) <==>
      forall k :: 0 <= k < |xs| && xs[k] != xi ==> Invertible(xs[k] - xi, m)
  {
    if AllInvertible(xi, Others(xi, xs), m) {
      OthersInvertibleIfAll(xi, xs, m);
    }
    if forall k :: 0 <= k < |xs| && xs[k] != xi ==> Invertible(xs[k] - xi, m) {
      OthersInvertibleIfEach(xi, xs, m);
    }
  }

  lemma OthersInvertibleIfAll(xi: int, xs: seq<int>, m: int)
    requires m > 0 && AllInvertible(xi, Others(xi, xs), m)
    ensures forall k :: 0 <= k < |xs| && xs[k] != xi ==> Invertible(xs[k] - xi, m)
  {
    var os := Others(xi, xs);
    OthersMembers(xi, xs);
    forall k | 0 <= k < |xs| && xs[k] != xi ensures Invertible(xs[k] - xi, m) {
      assert xs[k] in os;
    }
  }

  lemma OthersInvertibleIfEach(xi: int, xs: seq<int>, m: int)
    requires m > 0 && forall k :: 0 <= k < |xs| && xs[k] != xi ==> Invertible(xs[k] - xi, m)
    ensures AllInvertible(xi, Others(xi, xs), m)
  {
    var os := Others(xi, xs);
    OthersMembers(xi, xs);
    forall k | 0 <= k < |os| ensures Invertible(os[k] - xi, m) {
      assert os[k] in xs;
    }
  }

  /** With the modulus the protocol always passes, L, the code computes the intended value. */
  lemma GetLiAtOrder(xi: int, xs: seq<int>)
    ensures GetLi(xi, xs, L) == GetLiFixed(xi, xs, L)
    ensures GetLi(xi, xs, L).Success? ==>
      GetLi(xi, xs, L).value == TermProd(xi, Others(xi, xs), L, L) % L
  {
  }

  /**
   * With another modulus a single factor escapes the final reduction:
   * for ids [1, 3] and m = 3 the coefficient of id 1 comes out as 6, outside
   * [0, 3), where the intended value is 6 mod 3 = 0.
   */
  lemma GetLiSingleFactorUnreduced()
    ensures GetLi(1, [1, 3], 3) == Success(6)
    ensures GetLiFixed(1, [1, 3], 3) == Success(0)
  {
    OthersOfPair();
    InverseOfTwo();
  }

  lemma OthersOfPair()
    ensures Others(1, [1, 3]) == [3]
  {
    assert [1, 3][..1] == [1];
    assert [1][..0] == [];
  }

  lemma InverseOfTwo()
    ensures ModInv(2, 3) == Some(2)
  {
    assert IsInverse(2, 2, 3);
  }

  // ---------------------------------------------------------------------------
  // Order independence

  lemma {:induction false} TermProdRemove(xi: int, os: seq<int>, m: int, n: int, k: nat)
    requires m > 0 && n > 0 && k < |os|
    ensures TermProd(xi, os, m, n) == TermProd(xi, os[..k] + os[k + 1..], m, n) * Term(xi, os[k], m, n)
  {
    var rest := os[..k] + os[k + 1..];
    if k < |os| - 1 {
      var init, last := os[..|os| - 1], os[|os| - 1];
      var restInit := init[..k] + init[k + 1..];
      assert rest == restInit + [last];
      assert rest[..|rest| - 1] == restInit;
      assert init[k] == os[k];
      TermProdRemove(xi, init, m, n, k);
      var a, b, c := TermProd(xi, restInit, m, n), Term(xi, os[k], m, n), Term(xi, last, m, n);
      assert TermProd(xi, os, m, n) == TermProd(xi, init, m, n) * c;
      assert TermProd(xi, rest, m, n) == a * c;
      Rearrange(a, b, c);
    } else {
      assert rest == os[..|os| - 1];
    }
  }

  lemma Rearrange(a: int, b: int, c: int)
    ensures a * b * c == a * c * b
  {
  }

  /** The product does not depend on the order of the ids. */
  lemma {:induction false} TermProdPermutation(xi: int, a: seq<int>, b: seq<int>, m: int, n: int)
    requires m > 0 && n > 0 && multiset(a) == multiset(b)
    ensures TermProd(xi, a, m, n) == TermProd(xi, b, m, n)
  {
    if |b| == 0 {
      assert |a| == |multiset(a)| == 0;
    } else {
      var binit, x := b[..|b| - 1], b[|b| - 1];
      assert b == binit + [x];
      assert x in multiset(a) by { assert x in multiset(b); }
      var k :| 0 <= k < |a| && a[k] == x;
      var rest := a[..k] + a[k + 1..];
      assert a == a[..k] + [x] + a[k + 1..];
      assert multiset(a) == multiset(rest) + multiset{x};
      assert multiset(b) == multiset(binit) + multiset{x};
      assert multiset(rest) == multiset(binit) by {
        assert multiset(rest) == multiset(a) - multiset{x};
        assert multiset(binit) == multiset(b) - multiset{x};
      }
      TermProdPermutation(xi, rest, binit, m, n);
      TermProdRemove(xi, a, m, n, k);
      assert TermProd(xi, b, m, n) == TermProd(xi, binit, m, n) * Term(xi, x, m, n);
    }
  }

  lemma AllInvertibleFromMultiset(xi: int, a: seq<int>, b: seq<int>, m: int)
    requires m > 0 && multiset(a) == multiset(b) && AllInvertible(xi, a, m)
    ensures AllInvertible(xi, b, m)
  {
    forall k | 0 <= k < |b| ensures Invertible(b[k] - xi, m) {
      assert b[k] in multiset(a);
      var j :| 0 <= j < |a| && a[j] == b[k];
    }
  }

  /** What the chain yields for the other ids os, case by case. */
  function ChainOutcome(xi: int, os: seq<int>, m: int, n: int): Result<int>
    requires m > 0 && n > 0
  {
    if !AllInvertible(xi, os, m) then Failure(NotInvertible)
    else if |os| == 0 then Failure(EmptyReduce)
    else if |os| == 1 then Success(Term(xi, os[0], m, n))
    else Success(TermProd(xi, os, m, n) % m)
  }

  lemma ChainIsOutcome(xi: int, xs: seq<int>, m: int, n: int)
    requires m > 0 && n > 0
    ensures Chain(xi, xs, m, n) == ChainOutcome(xi, Others(xi, xs), m, n)
  {
    ChainMeans(xi, xs, m, n);
  }

  /** The outcome is the same for any reordering of the other ids. */
  lemma OutcomePermutation(xi: int, a: seq<int>, b: seq<int>, m: int, n: int)
    requires m > 0 && n > 0 && multiset(a) == multiset(b)
    ensures ChainOutcome(xi, a, m, n) == ChainOutcome(xi, b, m, n)
  {
    assert |a| == |b| by {
      assert |a| == |multiset(a)| && |b| == |multiset(b)|;
    }
    if AllInvertible(xi, a, m) {
      AllInvertibleFromMultiset(xi, a, b, m);
    }
    if AllInvertible(xi, b, m) {
      AllInvertibleFromMultiset(xi, b, a, m);
    }
    if |a| == 1 {
      assert a == b by {
        assert a[0] in multiset(b);
      }
    }
    if |a| >= 2 {
      TermProdPermutation(xi, a, b, m, n);
    }
  }

  /** The filter-map-reduce chain does not depend on the order of the ids. */
  lemma ChainOrderIndependent(xi: int, xs: seq<int>, ys: seq<int>, m: int, n: int)
    requires m > 0 && n > 0 && multiset(xs) == multiset(ys)
    ensures Chain(xi, xs, m, n) == Chain(xi, ys, m, n)
  {
    ChainIsOutcome(xi, xs, m, n);
    ChainIsOutcome(xi, ys, m, n);
    OutcomePermutation(xi, Others(xi, xs), Others(xi, ys), m, n);
  }

  /** Reordering the ids does not change any coefficient, nor whether and how the call fails. */
  lemma GetLiOrderIndependent(xi: int, xs: seq<int>, ys: seq<int>, m: int)
    requires m > 0 && multiset(xs) == multiset(ys)
    ensures GetLi(xi, xs, m) == GetLi(xi, ys, m)
  {
    ChainOrderIndependent(xi, xs, ys, m, L);
  }
}
