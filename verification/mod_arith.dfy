/**
 * Modular integer arithmetic: the `mod` and `mod_inv` helpers the protocol code
 * imports from its utilities module, and the laws of congruence the proofs use.
 * Dafny's `%` is Euclidean, so `x % m` is already the non-negative residue that
 * the utilities' `mod` returns for negative `x`.
 */
module ModArith {
  import opened Wrappers

  /** The order of the Ed25519 base point, section 5.1 of RFC 8032. */
  const L: nat := 0x1000000000000000000000000000000014def9dea2f79cd65812631a5cf5d3ed

  /** `a` and `b` are congruent modulo `m`. */
  predicate Cong(a: int, b: int, m: int)
    requires m > 0
  {
    a % m == b % m
  }

  // ---------------------------------------------------------------------------
  // Euclidean division

  lemma MulAtLeast(d: int, m: int)
    requires d >= 1 && m > 0
    ensures d * m >= m
  {
    assert d * m == (d - 1) * m + m;
    assert (d - 1) * m >= 0;
  }

  /** Quotient and remainder are unique. */
  lemma DivModUnique(a: int, m: int, q: int, r: int)
    requires m > 0 && 0 <= r < m && a == q * m + r
    ensures a / m == q && a % m == r
  {
    var q0, r0 := a / m, a % m;
    assert q * m - q0 * m == r0 - r;
    assert (q - q0) * m == q * m - q0 * m;
    if q > q0 {
      MulAtLeast(q - q0, m);
    } else if q < q0 {
      MulAtLeast(q0 - q, m);
    }
  }

  lemma ModAddMultiple(a: int, k: int, m: int)
    requires m > 0
    ensures (a + k * m) % m == a % m
  {
    assert a + k * m == (a / m + k) * m + a % m;
    DivModUnique(a + k * m, m, a / m + k, a % m);
  }

  lemma ModOfResidue(a: int, m: int)
    requires m > 0
    ensures (a % m) % m == a % m
  {
    DivModUnique(a % m, m, 0, a % m);
  }

  lemma ModAdd(a: int, b: int, m: int)
    requires m > 0
    ensures (a + b) % m == (a % m + b % m) % m
  {
    assert a + b == (a % m + b % m) + (a / m + b / m) * m;
    ModAddMultiple(a % m + b % m, a / m + b / m, m);
  }

  lemma ModMul(a: int, b: int, m: int)
    requires m > 0
    ensures (a * b) % m == ((a % m) * (b % m)) % m
  {
    var qa, ra, qb, rb := a / m, a % m, b / m, b % m;
    calc {
      a * b;
      (qa * m + ra) * (qb * m + rb);
      ra * rb + (qa * qb * m + qa * rb + ra * qb) * m;
    }
    ModAddMultiple(ra * rb, qa * qb * m + qa * rb + ra * qb, m);
  }

  // ---------------------------------------------------------------------------
  // Congruence is a congruence for + , - and *

  lemma CongAdd(a: int, b: int, c: int, d: int, m: int)
    requires m > 0 && Cong(a, b, m) && Cong(c, d, m)
    ensures Cong(a + c, b + d, m)
  {
    ModAdd(a, c, m);
    ModAdd(b, d, m);
  }

  lemma CongMul(a: int, b: int, c: int, d: int, m: int)
    requires m > 0 && Cong(a, b, m) && Cong(c, d, m)
    ensures Cong(a * c, b * d, m)
  {
    ModMul(a, c, m);
    ModMul(b, d, m);
  }

  lemma CongNeg(a: int, b: int, m: int)
    requires m > 0 && Cong(a, b, m)
    ensures Cong(-a, -b, m)
  {
    assert -a == -(a % m) + (-(a / m)) * m;
    assert -b == -(b % m) + (-(b / m)) * m;
    ModAddMultiple(-(a % m), -(a / m), m);
    ModAddMultiple(-(b % m), -(b / m), m);
  }

  lemma CongResidue(a: int, m: int)
    requires m > 0
    ensures Cong(a % m, a, m)
  {
    ModOfResidue(a, m);
  }

  lemma CongSym(a: int, b: int, m: int)
    requires m > 0 && Cong(a, b, m)
    ensures Cong(b, a, m)
  {
  }

  lemma CongTrans(a: int, b: int, c: int, m: int)
    requires m > 0 && Cong(a, b, m) && Cong(b, c, m)
    ensures Cong(a, c, m)
  {
  }

  /** Two residues in [0, m) that are congruent are equal. */
  lemma CongResidues(a: int, b: int, m: int)
    requires m > 0 && 0 <= a < m && 0 <= b < m && Cong(a, b, m)
    ensures a == b
  {
    DivModUnique(a, m, 0, a);
    DivModUnique(b, m, 0, b);
  }

  // ---------------------------------------------------------------------------
  // Extended Euclid and the modular inverse

  /**
   * Extended Euclid on (a, b): Bezout coefficients x, y with a*x + b*y == g,
   * and cofactors ca, cb with a == g*ca and b == g*cb, so g divides both.
   */
  function ExtGcd(a: nat, b: nat): (r: (int, int, nat, int, int))
    ensures a * r.0 + b * r.1 == r.2
    ensures a == r.2 * r.3 && b == r.2 * r.4
    decreases b
  {
    if b == 0 then (1, 0, a, 1, 0)
    else
      var (x, y, g, c1, c2) := ExtGcd(b, a % b);
      var q := a / b;
      EuclidStep(a, b, q, a % b, x, y, g, c1, c2);
      (y, x - q * y, g, q * c1 + c2, c1)
  }

  /** One division step of extended Euclid keeps the Bezout identity and the cofactors. */
  lemma EuclidStep(a: int, b: int, q: int, r: int, x: int, y: int, g: int, c1: int, c2: int)
    requires a == q * b + r && b * x + r * y == g && b == g * c1 && r == g * c2
    ensures a * y + b * (x - q * y) == g && a == g * (q * c1 + c2)
  {
    assert a * y + b * (x - q * y) == b * x + (a - q * b) * y;
    assert q * b == g * (q * c1);
  }

  /** `y` is an inverse of `x` modulo `m`. */
  predicate IsInverse(x: int, y: int, m: int)
    requires m > 0
  {
    (x * y) % m == 1 % m
  }

  lemma ProductNotOne(g: int, t: int)
    requires g >= 2
    ensures g * t != 1
  {
    if t >= 1 {
      MulAtLeast(t, g);
    } else {
      assert g * (-t) >= 0;
    }
  }

  /** Bezout coefficients with gcd 1 give an inverse. */
  lemma InverseFromBezout(x: int, s: int, t: int, m: int)
    requires m > 0 && (x % m) * s + m * t == 1
    ensures IsInverse(x, s % m, m)
  {
    var a := x % m;
    CongResidue(x, m);
    CongResidue(s, m);
    CongMul(x, a, s % m, s, m);
    assert a * s == 1 + (-t) * m;
    ModAddMultiple(1, -t, m);
  }

  /** A common factor g >= 2 of x and m rules out every inverse. */
  lemma NoInverseWithCommonFactor(x: int, g: int, ca: int, cm: int, m: int)
    requires m > 0 && g >= 2 && x % m == g * ca && m == g * cm
    ensures forall y :: !IsInverse(x, y, m)
  {
    forall y
      ensures !IsInverse(x, y, m)
    {
      NotInverseWithCommonFactor(x, y, g, ca, cm, m);
    }
  }

  lemma NotInverseWithCommonFactor(x: int, y: int, g: int, ca: int, cm: int, m: int)
    requires m > 0 && g >= 2 && x % m == g * ca && m == g * cm
    ensures !IsInverse(x, y, m)
  {
    ProductNotOne(g, cm);
    assert 1 % m == 1 by {
      DivModUnique(1, m, 0, 1);
    }
    var k, qx := (x * y) / m, x / m;
    var b := qx * cm + ca;
    assert x == g * b by {
      assert x == qx * m + x % m;
      assert qx * m == g * (qx * cm);
    }
    var c := b * y - k * cm;
    assert x * y - k * m == g * c by {
      assert x * y == g * (b * y);
      assert k * m == g * (k * cm);
    }
    ProductNotOne(g, c);
    assert (x * y) % m == x * y - k * m;
  }

  /**
   * `mod_inv(x, m)`: the inverse of `x` modulo `m` in [0, m), or None when
   * `x` and `m` share a factor and no inverse exists.
   */
  function ModInv(x: int, m: int): (r: Option<nat>)
    requires m > 0
    ensures r.Some? ==> r.value < m && IsInverse(x, r.value, m)
    ensures r.None? ==> forall y :: !IsInverse(x, y, m)
  {
    var (s, t, g, ca, cm) := ExtGcd(x % m, m);
    if g == 1 then
      InverseFromBezout(x, s, t, m);
      Some(s % m)
    else
      assert g != 0 by { assert m == g * cm; }
      NoInverseWithCommonFactor(x, g, ca, cm, m);
      None
  }

  /** Inverses modulo m are unique up to congruence. */
  lemma InverseUnique(x: int, y: int, z: int, m: int)
    requires m > 0 && IsInverse(x, y, m) && IsInverse(x, z, m)
    ensures Cong(y, z, m)
  {
    // y == y * (x * z) == (y * x) * z == z  (mod m)
    CongMul(y, y, x * z, 1, m);
    CongMul(x * y, 1, z, z, m);
    assert y * (x * z) == (x * y) * z;
  }

  /** The inverse of -x is the negation of the inverse of x. */
  lemma InverseNeg(x: int, y: int, m: int)
    requires m > 0 && IsInverse(x, y, m)
    ensures IsInverse(-x, -y, m)
  {
    assert (-x) * (-y) == x * y;
  }

  /** Multiplying by the inverse undoes multiplying by x. */
  lemma InverseCancels(a: int, x: int, y: int, m: int)
    requires m > 0 && IsInverse(x, y, m)
    ensures Cong(a * x * y, a, m)
  {
    CongMul(a, a, x * y, 1, m);
    assert a * x * y == a * (x * y);
  }
}
