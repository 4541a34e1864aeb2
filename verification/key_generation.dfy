/**
 * The client's side of distributed key generation: `GenShardReply` gathers
 * every ork's shares, partial nonce, timestamp, multiplied points and
 * partial public key; `SendShardReply` adds up the orks' partial signatures
 * and checks the Schnorr signature they form before anything is committed.
 */
module KeyGeneration {
  import opened Wrappers
  import opened ModArith
  import opened Curve
  import opened JsUtil
  import opened Primitives

  // ---------------------------------------------------------------------------
  // SortShares: the share matrix, transposed

  /** `row[i]`: undefined past the end of the row. */
  function Cell(row: seq<string>, i: nat): (c: Option<string>)
    ensures c.Some? <==> i < |row|
  {
    if i < |row| then Some(row[i]) else None
  }

  /**
   * `SortShares(sharesEncrypted)`: one row per response, row i holding the
   * i-th share of every response in response order, so that ork i receives
   * the shares the others made for it.
   */
  function SortShares(shares: seq<seq<string>>): (sorted: seq<seq<Option<string>>>)
    ensures |sorted| == |shares|
    ensures forall i :: 0 <= i < |sorted| ==> |sorted[i]| == |shares|
    ensures forall i, j :: 0 <= i < |shares| && 0 <= j < |shares| ==> sorted[i][j] == Cell(shares[j], i)
  {
    seq(|shares|, i requires 0 <= i < |shares| => seq(|shares|, j requires 0 <= j < |shares| => Cell(shares[j], i)))
  }

  /** Every response carries one share per ork. */
  predicate Square<T>(m: seq<seq<T>>)
  {
    forall j :: 0 <= j < |m| ==> |m[j]| == |m|
  }

  /** The matrix as JavaScript sees it when every entry is defined. */
  function Lift(m: seq<seq<string>>): seq<seq<Option<string>>>
  {
    seq(|m|, i requires 0 <= i < |m| => seq(|m[i]|, j requires 0 <= j < |m[i]| => Some(m[i][j])))
  }

  /** The entries of a matrix with nothing undefined in it. */
  function Defined(m: seq<seq<Option<string>>>): Option<seq<seq<string>>>
  {
    Present(seq(|m|, i requires 0 <= i < |m| => Present(m[i])))
  }

  /** A response with fewer shares than there are orks leaves some ork an undefined share. */
  lemma SortSharesShortRow(shares: seq<seq<string>>, j: nat)
    requires j < |shares| && |shares[j]| < |shares|
    ensures SortShares(shares)[|shares[j]|][j] == None
  {
  }

  /**
   * On a square matrix SortShares defines every share and is its own
   * inverse: sorting the sorted shares gives the responses' lists back.
   */
  lemma SortSharesTwice(shares: seq<seq<string>>)
    requires Square(shares)
    ensures Defined(SortShares(shares)).Some?
    ensures SortShares(Defined(SortShares(shares)).value) == Lift(shares)
  {
    var n := |shares|;
    var sorted := SortShares(shares);
    var t := seq(n, i requires 0 <= i < n => seq(n, j requires 0 <= j < n => shares[j][i]));
    forall i | 0 <= i < n
      ensures Present(sorted[i]) == Some(t[i])
    {
      var row := Present(sorted[i]);
      assert row.Some?;
      assert |row.value| == n;
      assert forall j :: 0 <= j < n ==> row.value[j] == t[i][j];
      assert row.value == t[i];
    }
    var rows := seq(n, i requires 0 <= i < n => Present(sorted[i]));
    var d := Present(rows);
    assert d.Some?;
    assert |d.value| == n;
    assert forall i :: 0 <= i < n ==> d.value[i] == t[i];
    assert d.value == t;
    var back := SortShares(t);
    forall i | 0 <= i < n
      ensures back[i] == Lift(shares)[i]
    {
      forall j | 0 <= j < n
        ensures back[i][j] == Some(shares[i][j])
      {
      }
    }
  }

  // ---------------------------------------------------------------------------
  // GenShardReply

  datatype GenShardResult = GenShardResult(
    sortedShares: seq<seq<Option<string>>>,
    timestamp: int,
    r2: Point,
    gMultiplied: seq<Option<Point>>,
    gK1: Point)

  function ShareLists(rs: seq<GenShardResponse>): (ss: seq<seq<string>>)
    ensures |ss| == |rs| && forall j :: 0 <= j < |rs| ==> ss[j] == rs[j].yijCiphers
  {
    seq(|rs|, j requires 0 <= j < |rs| => rs[j].yijCiphers)
  }

  function GenTimestamps(rs: seq<GenShardResponse>): (ts: seq<int>)
    ensures |ts| == |rs| && forall j :: 0 <= j < |rs| ==> ts[j] == rs[j].timestamp
  {
    seq(|rs|, j requires 0 <= j < |rs| => rs[j].timestamp)
  }

  function PartialNonces(rs: seq<GenShardResponse>): (ps: seq<Point>)
    ensures |ps| == |rs| && forall j :: 0 <= j < |rs| ==> ps[j] == rs[j].gR
  {
    seq(|rs|, j requires 0 <= j < |rs| => rs[j].gR)
  }

  function PartialPublics(rs: seq<GenShardResponse>): (ps: seq<Point>)
    ensures |ps| == |rs| && forall j :: 0 <= j < |rs| ==> ps[j] == rs[j].gK1
  {
    seq(|rs|, j requires 0 <= j < |rs| => rs[j].gK1)
  }

  /** `next.GMultiplied[i]` of every response: None where it is null or past the end. */
  function Column(rs: seq<GenShardResponse>, i: nat): (c: seq<Option<Point>>)
    ensures |c| == |rs|
    ensures forall j :: 0 <= j < |rs| ==> (c[j].Some? <==> i < |rs[j].gMultiplied| && rs[j].gMultiplied[i].Some?)
  {
    seq(|rs|, j requires 0 <= j < |rs| =>
      if i < |rs[j].gMultiplied| then rs[j].gMultiplied[i] else None)
  }

  /** Every response has a point at position i. */
  predicate ColumnComplete(rs: seq<GenShardResponse>, i: nat)
  {
    forall j :: 0 <= j < |rs| ==> i < |rs[j].gMultiplied| && rs[j].gMultiplied[i].Some?
  }

  /**
   * `genShardResponses.reduce((sum, next) => sum.add(next.GMultiplied[i]), infinity)`:
   * adding a null or undefined entry throws.
   */
  function ColumnSum(rs: seq<GenShardResponse>, i: nat): (r: Result<Point>)
    ensures r.Success? <==> ColumnComplete(rs, i)
  {
    match Present(Column(rs, i))
    case None => Failure(UndefinedValue)
    case Some(ps) => Success(Sum(ps))
  }

  /** Position i of the first response decides whether position i of the result is null. */
  function MultipliedAt(rs: seq<GenShardResponse>, i: nat): (r: Result<Option<Point>>)
    requires |rs| > 0 && i < |rs[0].gMultiplied|
    ensures r.Success? <==> (rs[0].gMultiplied[i].Some? ==> ColumnComplete(rs, i))
    ensures r.Success? ==> (r.value.None? <==> rs[0].gMultiplied[i].None?)
    ensures r.Success? && r.value.Some? ==> Present(Column(rs, i)).Some? && r.value.value == Sum(Present(Column(rs, i)).value)
  {
    if rs[0].gMultiplied[i].None? then Success(None)
    else
      var s :- ColumnSum(rs, i);
      Success(Some(s))
  }

  /** Every position the first response fills is filled by every response. */
  predicate MultipliedComplete(rs: seq<GenShardResponse>)
    requires |rs| > 0
  {
    forall i :: 0 <= i < |rs[0].gMultiplied| && rs[0].gMultiplied[i].Some? ==> ColumnComplete(rs, i)
  }

  /**
   * `GenShardReply(genShardResponses)`. An empty list has no median and no
   * first response; a response missing a point that the first response has
   * makes the addition throw.
   */
  function GenShardReply(rs: seq<GenShardResponse>): (r: Result<GenShardResult>)
    ensures r.Success? <==> |rs| > 0 && MultipliedComplete(rs)
    ensures r.Success? ==> Median(GenTimestamps(rs)) == Some(r.value.timestamp)
    ensures r.Success? ==> |r.value.sortedShares| == |rs|
    ensures r.Success? ==> |r.value.gMultiplied| == |rs[0].gMultiplied|
    ensures r.Success? ==> forall i :: 0 <= i < |rs[0].gMultiplied| ==>
      (r.value.gMultiplied[i].None? <==> rs[0].gMultiplied[i].None?)
    ensures r.Success? ==> forall i :: 0 <= i < |rs[0].gMultiplied| && rs[0].gMultiplied[i].Some? ==>
      Present(Column(rs, i)).Some? && r.value.gMultiplied[i] == Some(Sum(Present(Column(rs, i)).value))
    ensures r.Success? ==> r.value.sortedShares == SortShares(ShareLists(rs))
    ensures r.Success? ==> r.value.r2 == Sum(PartialNonces(rs)) && r.value.gK1 == Sum(PartialPublics(rs))
  {
    var sorted := SortShares(ShareLists(rs));
    var t :- MedianTime(GenTimestamps(rs));
    var r2 := Sum(PartialNonces(rs));
    var first := rs[0].gMultiplied;
    var ms := seq(|first|, i requires 0 <= i < |first| => MultipliedAt(rs, i));
    forall i | 0 <= i < |first|
      ensures ms[i].Success? <==> (first[i].Some? ==> ColumnComplete(rs, i))
    {
      assert ms[i] == MultipliedAt(rs, i);
    }
    assert All(ms).Success? <==> MultipliedComplete(rs);
    var gm :- All(ms);
    Success(GenShardResult(sorted, t, r2, gm, Sum(PartialPublics(rs))))
  }

  /** What ork j returns at position i when it multiplies the requested point (if any) by its secret k_j. */
  predicate MultipliedBy(rs: seq<GenShardResponse>, gMultipliers: seq<Option<Point>>, ks: seq<int>)
    requires |ks| == |rs|
  {
    forall j :: 0 <= j < |rs| ==>
      && |rs[j].gMultiplied| == |gMultipliers|
      && forall i :: 0 <= i < |gMultipliers| ==>
           rs[j].gMultiplied[i] == if gMultipliers[i].None? then None else Some(Times(gMultipliers[i].value, ks[j]))
  }

  /** The requested points, each multiplied by k. */
  function MultipliedPoints(gMultipliers: seq<Option<Point>>, k: int): seq<Option<Point>>
  {
    seq(|gMultipliers|, i requires 0 <= i < |gMultipliers| =>
      if gMultipliers[i].None? then None else Some(Times(gMultipliers[i].value, k)))
  }

  /**
   * When every ork j contributes its own secret k_j to each multiplied
   * point, its share k1_j to the public key and a nonce, the result holds
   * each requested point multiplied by Σ k_j, the key g·Σ k1_j and the
   * nonce g·Σ nonce_j: the keys are the sums of the orks' contributions,
   * not a Lagrange interpolation.
   */
  lemma GenShardJointKey(rs: seq<GenShardResponse>, gMultipliers: seq<Option<Point>>,
                         ks: seq<int>, k1s: seq<int>, nonces: seq<int>)
    requires |rs| > 0 && |ks| == |rs| && |k1s| == |rs| && |nonces| == |rs|
    requires MultipliedBy(rs, gMultipliers, ks)
    requires forall j :: 0 <= j < |rs| ==> rs[j].gK1 == Times(G, k1s[j]) && rs[j].gR == Times(G, nonces[j])
    ensures GenShardReply(rs).Success?
    ensures var v := GenShardReply(rs).value;
      && v.gMultiplied == MultipliedPoints(gMultipliers, IntSum(ks))
      && v.gK1 == Times(G, IntSum(k1s))
      && v.r2 == Times(G, IntSum(nonces))
  {
    JointMultiplied(rs, gMultipliers, ks);
    assert PartialPublics(rs) == Multiples(G, k1s);
    assert PartialNonces(rs) == Multiples(G, nonces);
    SumOfMultiples(G, k1s);
    SumOfMultiples(G, nonces);
  }

  lemma JointMultiplied(rs: seq<GenShardResponse>, gMultipliers: seq<Option<Point>>, ks: seq<int>)
    requires |rs| > 0 && |ks| == |rs|
    requires MultipliedBy(rs, gMultipliers, ks)
    ensures GenShardReply(rs).Success?
    ensures GenShardReply(rs).value.gMultiplied == MultipliedPoints(gMultipliers, IntSum(ks))
  {
    forall i | 0 <= i < |gMultipliers| && gMultipliers[i].Some?
      ensures ColumnComplete(rs, i)
      ensures Sum(Present(Column(rs, i)).value) == Times(gMultipliers[i].value, IntSum(ks))
    {
      HonestColumn(rs, gMultipliers[i].value, ks, i);
    }
    assert |rs[0].gMultiplied| == |gMultipliers|;
    assert MultipliedComplete(rs);
    var v := GenShardReply(rs).value;
    var want := MultipliedPoints(gMultipliers, IntSum(ks));
    assert |v.gMultiplied| == |want|;
    assert forall i :: 0 <= i < |want| ==> v.gMultiplied[i] == want[i];
  }

  /** A column in which every ork multiplied the same point b by its own k_j adds up to b·Σ k_j. */
  lemma HonestColumn(rs: seq<GenShardResponse>, b: Point, ks: seq<int>, i: nat)
    requires |ks| == |rs|
    requires forall j :: 0 <= j < |rs| ==> i < |rs[j].gMultiplied| && rs[j].gMultiplied[i] == Some(Times(b, ks[j]))
    ensures ColumnComplete(rs, i)
    ensures Present(Column(rs, i)) == Some(Multiples(b, ks))
    ensures Sum(Present(Column(rs, i)).value) == Times(b, IntSum(ks))
  {
    var c := Present(Column(rs, i));
    assert c.Some?;
    assert |c.value| == |ks| && forall j :: 0 <= j < |ks| ==> c.value[j] == Multiples(b, ks)[j];
    assert c.value == Multiples(b, ks);
    SumOfMultiples(b, ks);
  }

  // ---------------------------------------------------------------------------
  // SendShardReply

  function PartialSignatures(rs: seq<SendShardResponse>): (ss: seq<int>)
    ensures |ss| == |rs| && forall j :: 0 <= j < |rs| ==> ss[j] == rs[j].si
  {
    seq(|rs|, j requires 0 <= j < |rs| => rs[j].si)
  }

  /** `ps.reduce((sum, next) => sum.add(next))` with no initial value: it throws on []. */
  function ReduceAdd(ps: seq<Point>): (r: Result<Point>)
    ensures r.Success? <==> |ps| > 0
    ensures r.Success? ==> r.value == Sum(ps)
  {
    if |ps| == 0 then Failure(EmptyReduce)
    else if |ps| == 1 then
      assert Sum(ps) == Add(Infinity, ps[0]);
      Success(ps[0])
    else
      var init := ReduceAdd(ps[..|ps| - 1]);
      Success(Add(init.value, ps[|ps| - 1]))
  }

  /** M = SHA256(gK1 ‖ timestamp in decimal ‖ keyId) */
  function KeyMessage(p: Primitives, keyId: string, timestamp: int, gK1: Point): Bytes
  {
    p.sha256(p.encode(gK1) + p.utf8(p.decimal(timestamp)) + p.utf8(keyId))
  }

  /** H = SHA512(R ‖ gK1 ‖ M) mod order */
  function KeyChallenge(p: Primitives, keyId: string, timestamp: int, R: Point, gK1: Point): Point
  {
    ScalarOf(p, p.sha512(p.encode(R) + p.encode(gK1) + KeyMessage(p, keyId, timestamp, gK1)))
  }

  /**
   * `SendShardReply(keyId, sendShardResponses, mgORKi, timestamp, R2, gK1)`:
   * S is the sum of the partial signatures, R the sum of the ork publics and
   * R2, and the reply is S only when S·g == R + H·gK1.
   */
  function SendShardReply(p: Primitives, keyId: string, rs: seq<SendShardResponse>, mgORKi: seq<Point>,
                          timestamp: int, R2: Point, gK1: Point): (r: Result<int>)
    ensures |mgORKi| == 0 ==> r == Failure(EmptyReduce)
    ensures r.Success? ==> 0 <= r.value < L && Cong(r.value, IntSum(PartialSignatures(rs)), L)
    ensures |mgORKi| > 0 ==>
      var S := IntSum(PartialSignatures(rs)) % L;
      var R := Add(Sum(mgORKi), R2);
      (r.Success? <==> Times(G, S) == Add(R, Times(gK1, KeyChallenge(p, keyId, timestamp, R, gK1))))
    ensures r.Failure? && |mgORKi| > 0 ==> r.error == Thrown("SendShard: Signature test failed")
  {
    var S := IntSum(PartialSignatures(rs)) % L;
    CongResidue(IntSum(PartialSignatures(rs)), L);
    var orkSum :- ReduceAdd(mgORKi);
    var R := Add(orkSum, R2);
    var H := KeyChallenge(p, keyId, timestamp, R, gK1);
    if Times(G, S) != Add(R, Times(gK1, H)) then Failure(Thrown("SendShard: Signature test failed"))
    else Success(S)
  }

  /** Term by term, the partial signatures add up to the publics, the nonces and H times the key shares. */
  lemma {:induction false} SignatureTerms(ss: seq<int>, pubs: seq<Point>, gRs: seq<Point>, gK1s: seq<Point>, h: int)
    requires |pubs| == |ss| && |gRs| == |ss| && |gK1s| == |ss|
    requires forall j :: 0 <= j < |ss| ==> Cong(ss[j], pubs[j] + gRs[j] + h * gK1s[j], L)
    ensures Cong(IntSum(ss), IntSum(pubs) + IntSum(gRs) + h * IntSum(gK1s), L)
  {
    if |ss| > 0 {
      var n := |ss| - 1;
      SignatureTerms(ss[..n], pubs[..n], gRs[..n], gK1s[..n], h);
      var a := IntSum(pubs[..n]) + IntSum(gRs[..n]) + h * IntSum(gK1s[..n]);
      CongAdd(IntSum(ss[..n]), a, ss[n], pubs[n] + gRs[n] + h * gK1s[n], L);
      assert a + (pubs[n] + gRs[n] + h * gK1s[n]) == IntSum(pubs) + IntSum(gRs) + h * IntSum(gK1s);
    }
  }

  /** The Schnorr check from the three sums: S·g == (Σpubs + Σnonces) + H·Σkeys. */
  lemma KeySchnorrFromSums(total: int, a: int, b: int, c: int, h: Point, R: Point, K: Point)
    requires Cong(total, a + b + h * c, L)
    requires R == Add(a % L, b % L) && K == c % L
    ensures Times(G, total % L) == Add(R, Times(K, h))
  {
    assert R == (a + b) % L by {
      ModAdd(a, b, L);
    }
    assert Times(K, h) == (c * h) % L by {
      ResidueOfPoint(h);
      ModMul(c, h, L);
      ModOfResidue(c, L);
      ModMul(c % L, h, L);
    }
    assert Add(R, Times(K, h)) == (a + b + h * c) % L by {
      ModAdd(a + b, c * h, L);
      assert a + b + c * h == a + b + h * c;
    }
    assert Times(G, total % L) == total % L by {
      ResidueOfPoint(total % L);
    }
  }

  /** Honest partial signatures add up to an S with S·g == (Σpubs + Σnonces) + H·Σkeys. */
  lemma HonestSignatureSums(ss: seq<int>, orkPubs: seq<Point>, gRs: seq<Point>, gK1s: seq<Point>, H: Point)
    requires |orkPubs| == |ss| && |gRs| == |ss| && |gK1s| == |ss|
    requires forall j :: 0 <= j < |ss| ==> Cong(ss[j], orkPubs[j] + gRs[j] + H * gK1s[j], L)
    ensures Times(G, IntSum(ss) % L) == Add(Add(Sum(orkPubs), Sum(gRs)), Times(Sum(gK1s), H))
  {
    var a, b, c := IntSum(orkPubs), IntSum(gRs), IntSum(gK1s);
    assert Cong(IntSum(ss), a + b + H * c, L) by {
      SignatureTerms(ss, orkPubs, gRs, gK1s, H);
    }
    assert Sum(orkPubs) == a % L && Sum(gRs) == b % L && Sum(gK1s) == c % L by {
      SumIsResidue(orkPubs);
      SumIsResidue(gRs);
      SumIsResidue(gK1s);
    }
    KeySchnorrFromSums(IntSum(ss), a, b, c, H, Add(Sum(orkPubs), Sum(gRs)), Sum(gK1s));
  }

  /** Ork j's partial signature is its public's scalar plus its nonce plus H times its key share. */
  predicate HonestShardSignatures(rs: seq<SendShardResponse>, orkPubs: seq<Point>, gRs: seq<Point>,
                                  gK1s: seq<Point>, H: Point)
  {
    && |orkPubs| == |rs| && |gRs| == |rs| && |gK1s| == |rs|
    && forall j :: 0 <= j < |rs| ==> Cong(rs[j].si, orkPubs[j] + gRs[j] + H * gK1s[j], L)
  }

  /**
   * When every ork signs honestly, the assembled signature passes the
   * check and the reply is the summed S.
   */
  lemma HonestSendShardPasses(p: Primitives, keyId: string, rs: seq<SendShardResponse>,
                              orkPubs: seq<Point>, gRs: seq<Point>, gK1s: seq<Point>, timestamp: int, H: Point)
    requires |orkPubs| > 0
    requires H == KeyChallenge(p, keyId, timestamp, Add(Sum(orkPubs), Sum(gRs)), Sum(gK1s))
    requires HonestShardSignatures(rs, orkPubs, gRs, gK1s, H)
    ensures SendShardReply(p, keyId, rs, orkPubs, timestamp, Sum(gRs), Sum(gK1s))
      == Success(IntSum(PartialSignatures(rs)) % L)
  {
    var R := Add(Sum(orkPubs), Sum(gRs));
    var K := Sum(gK1s);
    var ss := PartialSignatures(rs);
    var total := IntSum(ss);
    HonestSignatureSums(ss, orkPubs, gRs, gK1s, H);
    var r := SendShardReply(p, keyId, rs, orkPubs, timestamp, Sum(gRs), K);
    assert r.Success?;
    assert r.value == total % L by {
      CongResidue(total, L);
      CongTrans(r.value, total, total % L, L);
      CongResidues(r.value, total % L, L);
    }
  }
}
