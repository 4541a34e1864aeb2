/**
 * The client's side of signing in: combining the replies of the CMK orks
 * (the key that protects the user) and of the CVK orks (the key that signs
 * the session token). Each step unblinds a Lagrange-weighted or plain sum of
 * the orks' partial points, derives the next step's keys from it, and checks
 * or assembles a signature.
 */
module KeyAuthentication {
  import opened Wrappers
  import opened ModArith
  import opened Curve
  import opened JsUtil
  import opened Primitives
  import TideJwt
  import EdDsa
  import SecretShare
  import Lagrange

  // ---------------------------------------------------------------------------
  // Shared steps

  /** `mod_inv(x)` modulo the order, failing where x has no inverse. */
  function InverseOf(x: int): (r: Result<nat>)
    ensures r.Success? <==> ModInv(x, L).Some?
    ensures r.Success? ==> r.value < L && IsInverse(x, r.value, L)
  {
    match ModInv(x, L)
    case None => Failure(NotInvertible)
    case Some(y) => Success(y)
  }

  /**
   * `ws[i]` read for every i below n, as the reducers over the responses do:
   * a shorter list leaves some `ws[i]` undefined and the arithmetic on it throws.
   */
  function LookupAll(ws: seq<int>, n: nat): (r: Result<seq<int>>)
    ensures r.Success? <==> n <= |ws|
    ensures r.Success? ==> r.value == ws[..n]
  {
    if n <= |ws| then Success(ws[..n]) else Failure(UndefinedValue)
  }

  /** `AES.decryptData(ct, keys[i])` followed by the message's `from`. */
  function DecryptWith<T>(p: Primitives, ct: string, keys: seq<Bytes>, i: nat, parse: string -> Option<T>): Result<T>
  {
    if i >= |keys| then Failure(UndefinedValue)
    else
      var text :- AesDecrypt(p, ct, keys[i]);
      match parse(text)
      case None => Failure(Malformed)
      case Some(v) => Success(v)
  }

  /**
   * `Promise.all(cts.map((ct, i) => from(decryptData(ct, keys[i]))))`: the
   * i-th ciphertext is opened with the i-th key.
   */
  function DecryptAll<T>(p: Primitives, cts: seq<string>, keys: seq<Bytes>, parse: string -> Option<T>)
    : (r: Result<seq<T>>)
    ensures r.Success? ==> |r.value| == |cts| && |cts| <= |keys|
    ensures r.Success? ==> forall i :: 0 <= i < |cts| ==> DecryptWith(p, cts[i], keys, i, parse) == Success(r.value[i])
  {
    var r := All(seq(|cts|, i requires 0 <= i < |cts| => DecryptWith(p, cts[i], keys, i, parse)));
    assert r.Success? && |cts| > 0 ==> DecryptWith(p, cts[|cts| - 1], keys, |cts| - 1, parse).Success?;
    r
  }

  /** Each ciphertext sealed under the key of the same index opens to its message. */
  lemma DecryptAllRoundTrip<T>(p: Primitives, cts: seq<string>, texts: seq<string>, keys: seq<Bytes>,
                               ivs: seq<Bytes>, parse: string -> Option<T>, vs: seq<T>)
    requires Base64Codec(p) && AesRoundTrip(p)
    requires |cts| == |texts| == |keys| == |ivs| == |vs|
    requires forall i :: 0 <= i < |cts| ==>
      && cts[i] == AesEncrypt(p, p.utf8(texts[i]), keys[i], ivs[i])
      && |ivs[i]| == 12 && parse(texts[i]) == Some(vs[i])
    ensures DecryptAll(p, cts, keys, parse) == Success(vs)
  {
    forall i | 0 <= i < |cts|
      ensures DecryptWith(p, cts[i], keys, i, parse) == Success(vs[i])
    {
      AesWrapperRoundTrip(p, texts[i], keys[i], ivs[i]);
    }
    var rs := seq(|cts|, i requires 0 <= i < |cts| => DecryptWith(p, cts[i], keys, i, parse));
    assert forall i :: 0 <= i < |rs| ==> rs[i].Success?;
    var r := DecryptAll(p, cts, keys, parse);
    assert r.Success?;
    assert r.value == vs;
  }

  /** The two halves of SHA512(gUserCMK): CMKMul from the first 32 bytes and the VUID from the last 32. */
  datatype UserKeys = UserKeys(cmkMul: Point, vuid: string)

  /** The derivation shared by sign-in and sign-up. */
  function DeriveUserKeys(p: Primitives, gUserCmk: Point): (k: UserKeys)
    ensures k.cmkMul == ScalarOf(p, Take(p.sha512(p.encode(gUserCmk)), 32))
    ensures k.vuid == p.hex(TakeLast(p.sha512(p.encode(gUserCmk)), 32))
  {
    var h := p.sha512(p.encode(gUserCmk));
    UserKeys(ScalarOf(p, Take(h, 32)), p.hex(TakeLast(h, 32)))
  }

  /** A key that the client derives as SHA256(pub·k) and the holder of pub's secret x as SHA256((g·k)·x). */
  function SharedKey(p: Primitives, pub: Point, k: int): Bytes
  {
    p.sha256(p.encode(Times(pub, k)))
  }

  /** Both ends of a Diffie–Hellman exchange derive the same key. */
  lemma SharedKeyAgrees(p: Primitives, x: int, k: int)
    ensures SharedKey(p, Times(G, x), k) == SharedKey(p, Times(G, k), x)
  {
    TimesCommute(G, x, k);
  }

  /** One key per ork public, in ork order, all from the same scalar k. */
  function SharedKeys(p: Primitives, pubs: seq<Point>, k: int): (keys: seq<Bytes>)
    ensures |keys| == |pubs| && forall i :: 0 <= i < |pubs| ==> keys[i] == SharedKey(p, pubs[i], k)
  {
    seq(|pubs|, i requires 0 <= i < |pubs| => SharedKey(p, pubs[i], k))
  }

  /**
   * `ps.reduce((sum, next, i) => sum.add(next.times(lis[i])), infinity).times(mod_inv(r))`:
   * the Lagrange-weighted sum of the orks' blurred points, unblinded by r^-1.
   */
  function UnblindedSum(ps: seq<Point>, lis: seq<int>, r: int): (u: Result<Point>)
    ensures u.Success? <==> |ps| <= |lis| && ModInv(r, L).Some?
  {
    var ws :- LookupAll(lis, |ps|);
    var inv :- InverseOf(r);
    Success(Times(WeightedSum(ps, ws), inv))
  }

  // ---------------------------------------------------------------------------
  // Threshold unblinding

  /**
   * The orks hold shares f(x_i) of a secret f(0) and each returns its share
   * times the point the client blinded with r. Weighting the replies by the
   * Lagrange coefficients of the ids and multiplying by r^-1 gives the
   * secret times the unblinded point.
   */
  lemma ThresholdUnblind(q: Point, r: int, xs: seq<int>, f: seq<int>)
    requires Lagrange.Separated(xs, L) && |xs| >= 2 && |f| <= |xs|
    requires ModInv(r, L).Some?
    ensures SecretShare.Lis(xs, L).Success?
    ensures UnblindedSum(Multiples(Times(q, r), Lagrange.Values(f, xs)), SecretShare.Lis(xs, L).value, r)
      == Success(Times(q, Lagrange.Eval(f, 0)))
  {
    var ps := Multiples(Times(q, r), Lagrange.Values(f, xs));
    var rInv := ModInv(r, L).value;
    UnblindPoints(q, r, rInv, xs, f);
    var ws := SecretShare.Lis(xs, L).value;
    UnblindedSumIs(ps, ws, r, rInv);
  }

  lemma UnblindedSumIs(ps: seq<Point>, ws: seq<int>, r: int, rInv: int)
    requires |ps| == |ws| && ModInv(r, L) == Some(rInv)
    ensures UnblindedSum(ps, ws, r) == Success(Times(WeightedSum(ps, ws), rInv))
  {
    assert ws[..|ps|] == ws;
  }

  /** The arithmetic of ThresholdUnblind, for a given inverse of r. */
  lemma UnblindPoints(q: Point, r: int, rInv: int, xs: seq<int>, f: seq<int>)
    requires Lagrange.Separated(xs, L) && |xs| >= 2 && |f| <= |xs|
    requires IsInverse(r, rInv, L)
    ensures SecretShare.Lis(xs, L).Success?
    ensures Times(WeightedSum(Multiples(Times(q, r), Lagrange.Values(f, xs)), SecretShare.Lis(xs, L).value), rInv)
      == Times(q, Lagrange.Eval(f, 0))
  {
    var vs := Lagrange.Values(f, xs);
    Lagrange.Reconstruction(xs, f);
    var ws := SecretShare.Lis(xs, L).value;
    var d := Dot(vs, ws);
    var f0 := Lagrange.Eval(f, 0);
    WeightedSumOfMultiples(Times(q, r), vs, ws);
    TimesTimes(q, r, d);
    var rd := r * d;
    TimesTimes(q, rd, rInv);
    ScaleBack(d, r, rInv, rd, f0);
    TimesCong(q, rd * rInv, f0);
  }

  lemma ScaleBack(d: int, r: int, rInv: int, rd: int, f0: int)
    requires IsInverse(r, rInv, L) && rd == r * d && Cong(d, f0, L)
    ensures Cong(rd * rInv, f0, L)
  {
    InverseCancels(d, r, rInv, L);
    assert rd * rInv == d * r * rInv;
    CongTrans(rd * rInv, d, f0, L);
  }

  // ---------------------------------------------------------------------------
  // PrismConvertReply

  function BlurPassPoints(rs: seq<ConvertResponse>): (ps: seq<Point>)
    ensures |ps| == |rs| && forall i :: 0 <= i < |rs| ==> ps[i] == rs[i].gBlurPassPrism
  {
    seq(|rs|, i requires 0 <= i < |rs| => rs[i].gBlurPassPrism)
  }

  function ConvertTimestamps(rs: seq<ConvertResponse>): (ts: seq<int>)
    ensures |ts| == |rs| && forall i :: 0 <= i < |rs| ==> ts[i] == rs[i].timestamp
  {
    seq(|rs|, i requires 0 <= i < |rs| => rs[i].timestamp)
  }

  datatype PrismConvertResult = PrismConvertResult(prismAuthis: seq<Bytes>, deltaTime: int)

  /** The scalar every prismAuth is derived with: SHA256(gPassPRISM) mod order. */
  function PrismScalar(p: Primitives, gPassPrism: Point): Point
  {
    ScalarOf(p, p.sha256(p.encode(gPassPrism)))
  }

  /** `PrismConvertReply(convertResponses, lis, mgORKi, r1, startTime)` */
  function PrismConvertReply(p: Primitives, rs: seq<ConvertResponse>, lis: seq<int>, orkPubs: seq<Point>,
                             r1: int, startTime: int): (r: Result<PrismConvertResult>)
    ensures r.Success? <==> |rs| > 0 && |rs| <= |lis| && ModInv(r1, L).Some?
    ensures r.Success? ==> |r.value.prismAuthis| == |orkPubs|
    ensures r.Success? ==> Median(ConvertTimestamps(rs)) == Some(r.value.deltaTime + startTime)
  {
    var gPassPrism :- UnblindedSum(BlurPassPoints(rs), lis, r1);
    var auths := SharedKeys(p, orkPubs, PrismScalar(p, gPassPrism));
    var t :- MedianTime(ConvertTimestamps(rs));
    Success(PrismConvertResult(auths, t - startTime))
  }

  /**
   * When the orks answer with their shares of PRISM times the blurred
   * password point g_pass·r1, ork i's prismAuth is the key it shares with
   * the client: SHA256 of g·(hash of g_pass·PRISM) times its secret.
   */
  lemma PrismAuthsAgree(p: Primitives, rs: seq<ConvertResponse>, xs: seq<int>, f: seq<int>, gPass: Point,
                        r1: int, orkSecrets: seq<int>, startTime: int)
    requires Lagrange.Separated(xs, L) && |xs| >= 2 && |f| <= |xs| && |rs| == |xs|
    requires ModInv(r1, L).Some?
    requires BlurPassPoints(rs) == Multiples(Times(gPass, r1), Lagrange.Values(f, xs))
    ensures SecretShare.Lis(xs, L).Success?
    ensures var r := PrismConvertReply(p, rs, SecretShare.Lis(xs, L).value, Multiples(G, orkSecrets), r1, startTime);
      && r.Success?
      && forall i :: 0 <= i < |orkSecrets| ==>
           r.value.prismAuthis[i] == SharedKey(p, Times(G, PrismScalar(p, Times(gPass, Lagrange.Eval(f, 0)))), orkSecrets[i])
  {
    ThresholdUnblind(gPass, r1, xs, f);
    var k := PrismScalar(p, Times(gPass, Lagrange.Eval(f, 0)));
    var pubs := Multiples(G, orkSecrets);
    forall i | 0 <= i < |orkSecrets|
      ensures SharedKey(p, pubs[i], k) == SharedKey(p, Times(G, k), orkSecrets[i])
    {
      SharedKeyAgrees(p, orkSecrets[i], k);
    }
  }

  // ---------------------------------------------------------------------------
  // CmkConvertReply

  function EncryptedPayloads(rs: seq<ConvertResponse>): (cts: seq<string>)
    ensures |cts| == |rs| && forall i :: 0 <= i < |rs| ==> cts[i] == rs[i].encryptedData
  {
    seq(|rs|, i requires 0 <= i < |rs| => rs[i].encryptedData)
  }

  function BlurUserPoints(ds: seq<EncryptedConvertResponse>): (ps: seq<Point>)
    ensures |ps| == |ds| && forall i :: 0 <= i < |ds| ==> ps[i] == ds[i].gBlurUserCmk
  {
    seq(|ds|, i requires 0 <= i < |ds| => ds[i].gBlurUserCmk)
  }

  function CmkRPoints(ds: seq<EncryptedConvertResponse>): (ps: seq<Point>)
    ensures |ps| == |ds| && forall i :: 0 <= i < |ds| ==> ps[i] == ds[i].gCmkR
  {
    seq(|ds|, i requires 0 <= i < |ds| => ds[i].gCmkR)
  }

  function Challenges(ds: seq<EncryptedConvertResponse>): (cs: seq<string>)
    ensures |cs| == |ds| && forall i :: 0 <= i < |ds| ==> cs[i] == ds[i].challenge
  {
    seq(|ds|, i requires 0 <= i < |ds| => ds[i].challenge)
  }

  /** `mod(H * CMKMul * r4 * li)` for each li: ork i's share of the blinded challenge. */
  function BlurHCmkMuls(h: int, cmkMul: int, r4: int, lis: seq<int>): (bs: seq<int>)
    ensures |bs| == |lis|
    ensures forall i :: 0 <= i < |lis| ==> 0 <= bs[i] < L && Cong(bs[i], h * cmkMul * r4 * lis[i], L)
  {
    seq(|lis|, i requires 0 <= i < |lis| => (h * cmkMul * r4 * lis[i]) % L)
  }

  /**
   * The i-th authentication request: the JSON of the user id and
   * `BlurHCMKMuli[i]` in base64, sealed under `prismAuthis[i]`; one per
   * prismAuth, with `BlurHCMKMuli[i]` undefined past the end of the lis.
   */
  function AuthRequests(p: Primitives, id: string, blurs: seq<int>, prismAuthis: seq<Bytes>, iv: nat -> Bytes)
    : (r: Result<seq<string>>)
    ensures r.Success? <==> |prismAuthis| <= |blurs|
    ensures r.Success? ==> |r.value| == |prismAuthis|
  {
    if |blurs| < |prismAuthis| then Failure(UndefinedValue)
    else Success(seq(|prismAuthis|, i requires 0 <= i < |prismAuthis| =>
      AesEncrypt(p, p.utf8(AuthRequestText(p, id, blurs[i])), prismAuthis[i], iv(i))))
  }

  function AuthRequestText(p: Primitives, id: string, blur: int): string
  {
    p.authRequestJson(id, p.base64(p.bigToBytes(blur)))
  }

  /** Ork i opens the i-th request with its prismAuth and finds the user id and its share of the challenge. */
  lemma AuthRequestsOpen(p: Primitives, id: string, blurs: seq<int>, prismAuthis: seq<Bytes>, iv: nat -> Bytes)
    requires Base64Codec(p) && AesRoundTrip(p)
    requires |prismAuthis| <= |blurs| && forall i :: 0 <= i < |prismAuthis| ==> |iv(i)| == 12
    ensures var r := AuthRequests(p, id, blurs, prismAuthis, iv);
      && r.Success?
      && forall i :: 0 <= i < |prismAuthis| ==>
           AesDecrypt(p, r.value[i], prismAuthis[i]) == Success(AuthRequestText(p, id, blurs[i]))
  {
    forall i | 0 <= i < |prismAuthis|
      ensures AesDecrypt(p, AesEncrypt(p, p.utf8(AuthRequestText(p, id, blurs[i])), prismAuthis[i], iv(i)), prismAuthis[i])
        == Success(AuthRequestText(p, id, blurs[i]))
    {
      AesWrapperRoundTrip(p, AuthRequestText(p, id, blurs[i]), prismAuthis[i], iv(i));
    }
  }

  /** What `PreSignInCVKReply` needs from this step. */
  datatype PreSignInData = PreSignInData(
    prismAuthis: seq<Bytes>, r4: int, gRMul: Point, H: Point, gCMKAuth: Point, sessKey: int)

  datatype CmkConvertResult = CmkConvertResult(
    vuid: string, encAuthRequests: seq<string>, timestamp2: int, jwt: string, gSessKeyPub: Point,
    forPreSignIn: PreSignInData, decChallengei: seq<string>)

  /** The challenge H = SHA512(gRMul ‖ gCMKAuth ‖ M) mod order, M = SHA256(timestamp2 ‖ gSessKeyPub in base64). */
  function AuthChallenge(p: Primitives, gRMul: Point, gCMKAuth: Point, timestamp2: int, gSessKeyPub: Point): Point
  {
    var m := Sha256Text(p, p.decimal(timestamp2) + PointToBase64(p, gSessKeyPub));
    ScalarOf(p, p.sha512(p.encode(gRMul) + p.encode(gCMKAuth) + m))
  }

  /**
   * `CmkConvertReply(id, convertResponses, lis, prismAuthis, gCMK, r2,
   * deltaTime, gVVK)`, with the two `RandomBigInt()` values (SessKey, r4),
   * `Date.now()` and the AES ivs as parameters.
   */
  function CmkConvertReply(p: Primitives, id: string, rs: seq<ConvertResponse>, lis: seq<int>,
                           prismAuthis: seq<Bytes>, gCMK: Point, r2: int, deltaTime: int, gVVK: string,
                           sessKey: int, r4: int, nowMs: nat, iv: nat -> Bytes)
    : (r: Result<CmkConvertResult>)
    ensures r.Success? ==> |rs| <= |prismAuthis| && |rs| <= |lis| && |prismAuthis| <= |lis|
    ensures r.Success? ==> ModInv(r2, L).Some? && ModInv(r4, L).Some?
    ensures r.Success? ==> |r.value.encAuthRequests| == |prismAuthis| && |r.value.decChallengei| == |rs|
    ensures r.Success? ==> r.value.forPreSignIn.prismAuthis == prismAuthis && r.value.forPreSignIn.r4 == r4
    ensures r.Success? ==> r.value.gSessKeyPub == Times(G, sessKey) && r.value.forPreSignIn.sessKey == sessKey
  {
    var decData :- DecryptAll(p, EncryptedPayloads(rs), prismAuthis, p.parseEncryptedConvert);
    var gUserCmk :- UnblindedSum(BlurUserPoints(decData), lis, r2);
    CmkConvertFrom(p, id, decData, gUserCmk, lis, prismAuthis, gCMK, deltaTime, gVVK, sessKey, r4, nowMs, iv)
  }

  /** The rest of `CmkConvertReply` once gUserCMK is known: keys, challenge, requests and token. */
  function CmkConvertFrom(p: Primitives, id: string, decData: seq<EncryptedConvertResponse>, gUserCmk: Point,
                          lis: seq<int>, prismAuthis: seq<Bytes>, gCMK: Point, deltaTime: int, gVVK: string,
                          sessKey: int, r4: int, nowMs: nat, iv: nat -> Bytes)
    : (r: Result<CmkConvertResult>)
    ensures r.Success? <==> ModInv(r4, L).Some? && |prismAuthis| <= |lis|
    ensures r.Success? ==> |r.value.encAuthRequests| == |prismAuthis| && |r.value.decChallengei| == |decData|
    ensures r.Success? ==> r.value.forPreSignIn.prismAuthis == prismAuthis && r.value.forPreSignIn.r4 == r4
    ensures r.Success? ==> r.value.gSessKeyPub == Times(G, sessKey) && r.value.forPreSignIn.sessKey == sessKey
    ensures r.Success? ==> var keys := DeriveUserKeys(p, gUserCmk);
      r.value.vuid == keys.vuid && r.value.forPreSignIn.gCMKAuth == Times(gCMK, keys.cmkMul)
  {
    var keys := DeriveUserKeys(p, gUserCmk);
    var gCMKAuth := Times(gCMK, keys.cmkMul);
    var gSessKeyPub := Times(G, sessKey);
    var inv4 :- InverseOf(r4);
    var gRMul := Times(Sum(CmkRPoints(decData)), inv4);
    var timestamp2 := nowMs / 1000 + deltaTime;
    var h := AuthChallenge(p, gRMul, gCMKAuth, timestamp2, gSessKeyPub);
    var blurs := BlurHCmkMuls(h, keys.cmkMul, r4, lis);
    var requests :- AuthRequests(p, id, blurs, prismAuthis, iv);
    var jwt := TideJwt.New(p, keys.vuid, 30, gSessKeyPub, gVVK, nowMs);
    Success(CmkConvertResult(keys.vuid, requests, timestamp2, jwt, gSessKeyPub,
      PreSignInData(prismAuthis, r4, gRMul, h, gCMKAuth, sessKey), Challenges(decData)))
  }

  /**
   * When the orks return their shares of the user's CMK times the point the
   * client blinded with r2, the user keys (CMKMul and the VUID) come from
   * g_user·CMK, and the step fails only for want of an inverse of r4 or of
   * a coefficient for every prismAuth.
   */
  lemma CmkConvertUnblinds(p: Primitives, id: string, rs: seq<ConvertResponse>, xs: seq<int>, f: seq<int>,
                           gUser: Point, prismAuthis: seq<Bytes>, gCMK: Point, r2: int, deltaTime: int,
                           gVVK: string, sessKey: int, r4: int, nowMs: nat, iv: nat -> Bytes,
                           ds: seq<EncryptedConvertResponse>)
    requires Lagrange.Separated(xs, L) && |xs| >= 2 && |f| <= |xs| && |rs| == |xs|
    requires ModInv(r2, L).Some?
    requires DecryptAll(p, EncryptedPayloads(rs), prismAuthis, p.parseEncryptedConvert) == Success(ds)
    requires BlurUserPoints(ds) == Multiples(Times(gUser, r2), Lagrange.Values(f, xs))
    ensures SecretShare.Lis(xs, L).Success?
    ensures var r := CmkConvertReply(p, id, rs, SecretShare.Lis(xs, L).value, prismAuthis, gCMK, r2, deltaTime,
                                     gVVK, sessKey, r4, nowMs, iv);
      var keys := DeriveUserKeys(p, Times(gUser, Lagrange.Eval(f, 0)));
      && (r.Success? <==> ModInv(r4, L).Some? && |prismAuthis| <= |xs|)
      && (r.Success? ==> r.value.vuid == keys.vuid && r.value.forPreSignIn.gCMKAuth == Times(gCMK, keys.cmkMul))
  {
    ThresholdUnblind(gUser, r2, xs, f);
    var lis := SecretShare.Lis(xs, L).value;
    assert UnblindedSum(BlurUserPoints(ds), lis, r2) == Success(Times(gUser, Lagrange.Eval(f, 0)));
    assert CmkConvertReply(p, id, rs, lis, prismAuthis, gCMK, r2, deltaTime, gVVK, sessKey, r4, nowMs, iv)
      == CmkConvertFrom(p, id, ds, Times(gUser, Lagrange.Eval(f, 0)), lis, prismAuthis, gCMK, deltaTime, gVVK,
                        sessKey, r4, nowMs, iv);
  }

  /** The session token of a successful conversion carries the VUID as its uid. */
  lemma CmkConvertTokenUid(p: Primitives, id: string, rs: seq<ConvertResponse>, lis: seq<int>,
                           prismAuthis: seq<Bytes>, gCMK: Point, r2: int, deltaTime: int, gVVK: string,
                           sessKey: int, r4: int, nowMs: nat, iv: nat -> Bytes)
    requires Base64Codec(p) && Base64UrlCodec(p) && AsciiLatin1(p) && PayloadCodec(p) && HexAscii(p)
    requires IsAscii(gVVK)
    ensures var r := CmkConvertReply(p, id, rs, lis, prismAuthis, gCMK, r2, deltaTime, gVVK, sessKey, r4, nowMs, iv);
      r.Success? ==> TideJwt.GetUid(p, r.value.jwt) == Success(Some(r.value.vuid))
  {
    var r := CmkConvertReply(p, id, rs, lis, prismAuthis, gCMK, r2, deltaTime, gVVK, sessKey, r4, nowMs, iv);
    if r.Success? {
      TideJwt.GetUidOfNew(p, r.value.vuid, 30, Times(G, sessKey), gVVK, nowMs);
    }
  }

  // ---------------------------------------------------------------------------
  // PreSignInCVKReply

  function PartialScalars(rs: seq<AuthenticateResponse>): (ss: seq<int>)
    ensures |ss| == |rs| && forall i :: 0 <= i < |rs| ==> ss[i] == rs[i].si
  {
    seq(|rs|, i requires 0 <= i < |rs| => rs[i].si)
  }

  function BlindHPoints(rs: seq<AuthenticateResponse>): (ps: seq<Point>)
    ensures |ps| == |rs| && forall i :: 0 <= i < |rs| ==> ps[i] == rs[i].gBlindH
  {
    seq(|rs|, i requires 0 <= i < |rs| => rs[i].gBlindH)
  }

  function FirstNonces(rs: seq<PreSignInResponse>): (ps: seq<Point>)
    ensures |ps| == |rs| && forall i :: 0 <= i < |rs| ==> ps[i] == rs[i].gR1
  {
    seq(|rs|, i requires 0 <= i < |rs| => rs[i].gR1)
  }

  function SecondNonces(rs: seq<PreSignInResponse>): (os: seq<Option<Point>>)
    ensures |os| == |rs| && forall i :: 0 <= i < |rs| ==> os[i] == rs[i].gR2
  {
    seq(|rs|, i requires 0 <= i < |rs| => rs[i].gR2)
  }

  /** The scalar `mod(SHA256("CMK authentication"))` that weights gBlindH. */
  function CmkAuthHash(p: Primitives): Point
  {
    ScalarOf(p, Sha256Text(p, "CMK authentication"))
  }

  /** The cofactored check 8·S·g == 8·gRMul + 8·H·gCMKAuth + 8·hash·gBlindH on the blind signature. */
  predicate BlindSignatureValid(S: int, gRMul: Point, H: int, gCMKAuth: Point, gBlindH: Point, hash: int)
  {
    Times(Times(G, S), 8)
      == Add(Add(Times(gRMul, 8), Times(Times(gCMKAuth, H), 8)), Times(Times(gBlindH, hash), 8))
  }

  /** The cofactored check is the plain equation S·g == gRMul + H·gCMKAuth + hash·gBlindH. */
  lemma BlindSignatureIsPlain(S: Point, gRMul: Point, H: int, gCMKAuth: Point, gBlindH: Point, hash: int)
    ensures BlindSignatureValid(S, gRMul, H, gCMKAuth, gBlindH, hash)
      <==> Times(G, S) == Add(Add(gRMul, Times(gCMKAuth, H)), Times(gBlindH, hash))
  {
    var a, b, c := gRMul, Times(gCMKAuth, H), Times(gBlindH, hash);
    TimesAdd(a, b, 8);
    CofactoredEquation(S, Add(a, b), c);
  }

  /** The model signing nonce: the sum of every second nonce when all orks sent one, else null. */
  function ModelNonce(os: seq<Option<Point>>): (r: Option<Point>)
    ensures r.Some? <==> forall i :: 0 <= i < |os| ==> os[i].Some?
  {
    match Present(os)
    case None => None
    case Some(ps) => Some(Sum(ps))
  }

  datatype PreSignInResult = PreSignInResult(
    gCVKR: Point, modelGR: Option<Point>, S: Point, ecdhi: seq<Bytes>, gBlindH: Point)

  /**
   * `PreSignInCVKReply(encSig, encGRData, data_for_PreSignInCVK, vgORKi)`.
   * The CMK orks' replies are opened with the prismAuths, the blind
   * signature is unblinded by r4^-1 and checked, and the CVK orks' nonces
   * are opened with the keys shared through SessKey.
   */
  function PreSignInCVKReply(p: Primitives, encSig: seq<string>, encGRData: seq<string>, data: PreSignInData,
                             vgORKi: seq<Point>): (r: Result<PreSignInResult>)
    ensures r.Success? ==> |encSig| <= |data.prismAuthis| && |encGRData| <= |vgORKi| && ModInv(data.r4, L).Some?
    ensures r.Success? ==> BlindSignatureValid(r.value.S, data.gRMul, data.H, data.gCMKAuth, r.value.gBlindH, CmkAuthHash(p))
    ensures r.Success? ==> r.value.ecdhi == SharedKeys(p, vgORKi, data.sessKey)
  {
    var authResp :- DecryptAll(p, encSig, data.prismAuthis, p.parseAuthenticate);
    var inv4 :- InverseOf(data.r4);
    var S := (IntSum(PartialScalars(authResp)) * inv4) % L;
    var gBlindH := Times(Sum(BlindHPoints(authResp)), inv4);
    if !BlindSignatureValid(S, data.gRMul, data.H, data.gCMKAuth, gBlindH, CmkAuthHash(p)) then
      Failure(Thrown("Blind signature failed"))
    else
      var ecdhi := SharedKeys(p, vgORKi, data.sessKey);
      var gRs :- DecryptAll(p, encGRData, ecdhi, p.parsePreSignIn);
      Success(PreSignInResult(Sum(FirstNonces(gRs)), ModelNonce(SecondNonces(gRs)), S, ecdhi, gBlindH))
  }

  // ---------------------------------------------------------------------------
  // The blind signature of honest CMK orks passes the check

  /**
   * The reply of a CMK ork that holds the share `share` of CMK, committed to
   * the nonce point gCMKR (a point is its own discrete logarithm here) and
   * blinds with gBlindH: its scalar is nonce + blurH·share + hash·blind.
   */
  predicate HonestAuthReply(reply: AuthenticateResponse, gCmkR: Point, blur: int, share: int, hash: int)
  {
    Cong(reply.si, gCmkR + blur * share + hash * reply.gBlindH, L)
  }

  /** Every ork's reply is honest, ork i holding the share vs[i] and blurred by blurs[i]. */
  predicate HonestAuthReplies(authResp: seq<AuthenticateResponse>, cmkRs: seq<Point>, blurs: seq<int>, vs: seq<int>,
                              hash: int)
  {
    && |cmkRs| == |authResp| && |blurs| == |authResp| && |vs| == |authResp|
    && forall i :: 0 <= i < |authResp| ==> HonestAuthReply(authResp[i], cmkRs[i], blurs[i], vs[i], hash)
  }

  /** Adding up the replies term by term. */
  lemma {:induction false} SumOfReplies(ss: seq<int>, rs: seq<int>, us: seq<int>, ws: seq<int>, bs: seq<int>, h: int)
    requires |rs| == |ss| && |us| == |ss| && |ws| == |ss| && |bs| == |ss|
    requires forall i :: 0 <= i < |ss| ==> Cong(ss[i], rs[i] + us[i] * ws[i] + h * bs[i], L)
    ensures Cong(IntSum(ss), IntSum(rs) + Dot(us, ws) + h * IntSum(bs), L)
  {
    if |ss| > 0 {
      var n := |ss| - 1;
      SumOfReplies(ss[..n], rs[..n], us[..n], ws[..n], bs[..n], h);
      var prev := IntSum(rs[..n]) + Dot(us[..n], ws[..n]) + h * IntSum(bs[..n]);
      CongAdd(IntSum(ss[..n]), prev, ss[n], rs[n] + us[n] * ws[n] + h * bs[n], L);
      assert prev + (rs[n] + us[n] * ws[n] + h * bs[n])
        == IntSum(rs) + Dot(us, ws) + h * IntSum(bs);
    }
  }

  /** The blurred challenge shares, weighted by the orks' shares, add up to H·CMKMul·r4·CMK. */
  lemma BlurredSharesCombine(h: int, cmkMul: int, r4: int, xs: seq<int>, f: seq<int>)
    requires Lagrange.Separated(xs, L) && |xs| >= 2 && |f| <= |xs|
    ensures SecretShare.Lis(xs, L).Success?
    ensures Cong(Dot(BlurHCmkMuls(h, cmkMul, r4, SecretShare.Lis(xs, L).value), Lagrange.Values(f, xs)),
                 h * cmkMul * r4 * Lagrange.Eval(f, 0), L)
  {
    Lagrange.Reconstruction(xs, f);
    var lis := SecretShare.Lis(xs, L).value;
    var vs := Lagrange.Values(f, xs);
    var c := h * cmkMul * r4;
    var bs := BlurHCmkMuls(h, cmkMul, r4, lis);
    ScaledWeights(c, lis, vs, bs);
    CongMul(c, c, Dot(vs, lis), Lagrange.Eval(f, 0), L);
    CongTrans(Dot(bs, vs), c * Dot(vs, lis), c * Lagrange.Eval(f, 0), L);
  }

  /** Weights congruent to c times the coefficients give c times the coefficients' dot product. */
  lemma ScaledWeights(c: int, lis: seq<int>, vs: seq<int>, bs: seq<int>)
    requires |lis| == |vs| && |bs| == |vs|
    requires forall i :: 0 <= i < |lis| ==> Cong(bs[i], c * lis[i], L)
    ensures Cong(Dot(bs, vs), c * Dot(vs, lis), L)
  {
    var cl := seq(|lis|, i requires 0 <= i < |lis| => c * lis[i]);
    DotCongTermwise(bs, cl, vs);
    DotScaled(c, lis, vs, cl);
    DotSymmetric(vs, lis);
  }

  /** Unblinding the summed scalar by r4^-1, with the challenge part reduced to H·CMKMul·CMK. */
  lemma UnblindScalar(sum: int, R: int, D: int, B: int, hash: int, c: int, r4: int, inv4: int, f0: int)
    requires IsInverse(r4, inv4, L)
    requires Cong(sum, R + D + hash * B, L) && Cong(D, c * r4 * f0, L)
    ensures Cong(sum * inv4, R * inv4 + c * f0 + hash * (B * inv4), L)
  {
    CongAdd(R + hash * B, R + hash * B, D, c * r4 * f0, L);
    assert R + D + hash * B == (R + hash * B) + D;
    CongTrans(sum, (R + hash * B) + D, (R + hash * B) + c * r4 * f0, L);
    CongMul(sum, (R + hash * B) + c * r4 * f0, inv4, inv4, L);
    InverseCancels(c * f0, r4, inv4, L);
    assert c * r4 * f0 * inv4 == (c * f0) * r4 * inv4;
    CongAdd(R * inv4 + hash * (B * inv4), R * inv4 + hash * (B * inv4), c * r4 * f0 * inv4, c * f0, L);
    assert ((R + hash * B) + c * r4 * f0) * inv4 == R * inv4 + hash * (B * inv4) + c * r4 * f0 * inv4;
  }

  /** The right-hand side of the check, as a scalar. */
  lemma CheckRightSide(gRMul: Point, R: int, gCMKAuth: Point, f0: int, cmkMul: int, H: int,
                       gBlindH: Point, B: int, hash: int, inv4: int)
    requires gRMul == Times(R % L, inv4) && gCMKAuth == Times(Times(G, f0), cmkMul)
    requires gBlindH == Times(B % L, inv4)
    ensures Cong(Add(Add(gRMul, Times(gCMKAuth, H)), Times(gBlindH, hash)),
                 R * inv4 + H * cmkMul * f0 + hash * (B * inv4), L)
  {
    var y := Times(gCMKAuth, H);
    var z := Times(gBlindH, hash);
    assert Cong(gRMul, R * inv4, L) by {
      ResidueTimes(R, inv4);
    }
    assert Cong(y, H * cmkMul * f0, L) by {
      TimesTimes(G, f0, cmkMul);
      TimesTimes(G, f0 * cmkMul, H);
      assert f0 * cmkMul * H == H * cmkMul * f0;
      CongResidue(H * cmkMul * f0, L);
    }
    assert Cong(z, hash * (B * inv4), L) by {
      ResidueTimes(B, inv4);
      CongMul(gBlindH, B * inv4, hash, hash, L);
      CongResidue(gBlindH * hash, L);
      assert gBlindH * hash == hash * gBlindH;
      assert (B * inv4) * hash == hash * (B * inv4);
    }
    AddCong(gRMul, y, z, R * inv4, H * cmkMul * f0, hash * (B * inv4));
  }

  /** Reducing a before multiplying by k does not change the product modulo L. */
  lemma ResidueTimes(a: int, k: int)
    ensures Cong(Times(a % L, k), a * k, L)
  {
    CongResidue(a, L);
    CongMul(a % L, a, k, k, L);
    CongResidue((a % L) * k, L);
  }

  /** Adding three points is adding their logarithms modulo L. */
  lemma AddCong(x: Point, y: Point, z: Point, a: int, b: int, c: int)
    requires Cong(x, a, L) && Cong(y, b, L) && Cong(z, c, L)
    ensures Cong(Add(Add(x, y), z), a + b + c, L)
  {
    var xy: int := Add(x, y);
    CongResidue(x + y, L);
    CongAdd(x, a, y, b, L);
    CongResidue(xy + z, L);
    CongAdd(xy, a + b, z, c, L);
  }

  /**
   * Replies from CMK orks that hold shares f(x_i) of CMK (with g·CMK the
   * gCMK the client started from) and answer honestly make the blind
   * signature check of `PreSignInCVKReply` pass.
   */
  lemma HonestBlindSignatureValid(authResp: seq<AuthenticateResponse>, cmkRs: seq<Point>, xs: seq<int>,
                                  f: seq<int>, lis: seq<int>, data: PreSignInData, cmkMul: int, inv4: int,
                                  hash: int)
    requires Lagrange.Separated(xs, L) && |xs| >= 2 && |f| <= |xs|
    requires SecretShare.Lis(xs, L) == Success(lis)
    requires |authResp| == |xs| && |cmkRs| == |xs|
    requires ModInv(data.r4, L) == Some(inv4)
    requires data.gRMul == Times(Sum(cmkRs), inv4)
    requires data.gCMKAuth == Times(Times(G, Lagrange.Eval(f, 0)), cmkMul)
    requires HonestAuthReplies(authResp, cmkRs, BlurHCmkMuls(data.H, cmkMul, data.r4, lis), Lagrange.Values(f, xs), hash)
    ensures BlindSignatureValid((IntSum(PartialScalars(authResp)) * inv4) % L, data.gRMul, data.H, data.gCMKAuth,
                                Times(Sum(BlindHPoints(authResp)), inv4), hash)
  {
    var blurs, vs := BlurHCmkMuls(data.H, cmkMul, data.r4, lis), Lagrange.Values(f, xs);
    var sum, R, B := IntSum(PartialScalars(authResp)), IntSum(cmkRs), IntSum(BlindHPoints(authResp));
    var D, f0 := Dot(blurs, vs), Lagrange.Eval(f, 0);
    var gBlindH := Times(Sum(BlindHPoints(authResp)), inv4);
    RepliesCombine(authResp, cmkRs, blurs, vs, hash, sum, R, D, B);
    SharesCombine(data.H, cmkMul, data.r4, xs, f, lis, D, f0);
    SumTimes(cmkRs, R, inv4);
    SumTimes(BlindHPoints(authResp), B, inv4);
    CheckFromSums(sum, R, B, D, f0, cmkMul, data, inv4, hash, gBlindH);
  }

  lemma SharesCombine(h: int, cmkMul: int, r4: int, xs: seq<int>, f: seq<int>, lis: seq<int>, D: int, f0: int)
    requires Lagrange.Separated(xs, L) && |xs| >= 2 && |f| <= |xs|
    requires SecretShare.Lis(xs, L) == Success(lis)
    requires D == Dot(BlurHCmkMuls(h, cmkMul, r4, lis), Lagrange.Values(f, xs)) && f0 == Lagrange.Eval(f, 0)
    ensures Cong(D, h * cmkMul * r4 * f0, L)
  {
    BlurredSharesCombine(h, cmkMul, r4, xs, f);
  }

  lemma SumTimes(ps: seq<Point>, R: int, k: int)
    requires R == IntSum(ps)
    ensures Times(Sum(ps), k) == Times(R % L, k)
  {
    SumIsResidue(ps);
  }

  lemma RepliesCombine(authResp: seq<AuthenticateResponse>, cmkRs: seq<Point>, blurs: seq<int>, vs: seq<int>, hash: int,
                       sum: int, R: int, D: int, B: int)
    requires HonestAuthReplies(authResp, cmkRs, blurs, vs, hash)
    requires sum == IntSum(PartialScalars(authResp)) && R == IntSum(cmkRs) && D == Dot(blurs, vs)
    requires B == IntSum(BlindHPoints(authResp))
    ensures Cong(sum, R + D + hash * B, L)
  {
    SumOfReplies(PartialScalars(authResp), cmkRs, blurs, vs, BlindHPoints(authResp), hash);
  }

  /** The check holds once the summed scalar and the summed points are known up to congruence. */
  lemma CheckFromSums(sum: int, R: int, B: int, D: int, f0: int, cmkMul: int, data: PreSignInData, inv4: int, hash: int,
                      gBlindH: Point)
    requires ModInv(data.r4, L) == Some(inv4)
    requires Cong(sum, R + D + hash * B, L) && Cong(D, data.H * cmkMul * data.r4 * f0, L)
    requires data.gRMul == Times(R % L, inv4)
    requires data.gCMKAuth == Times(Times(G, f0), cmkMul) && gBlindH == Times(B % L, inv4)
    ensures BlindSignatureValid((sum * inv4) % L, data.gRMul, data.H, data.gCMKAuth, gBlindH, hash)
  {
    UnblindScalar(sum, R, D, B, hash, data.H * cmkMul, data.r4, inv4, f0);
    CheckRightSide(data.gRMul, R, data.gCMKAuth, f0, cmkMul, data.H, gBlindH, B, hash, inv4);
    var S := (sum * inv4) % L;
    var rhs := Add(Add(data.gRMul, Times(data.gCMKAuth, data.H)), Times(gBlindH, hash));
    CongResidue(sum * inv4, L);
    CongResidues(S, rhs, L);
    ResidueOfPoint(S);
    BlindSignatureIsPlain(S, data.gRMul, data.H, data.gCMKAuth, gBlindH, hash);
  }

  /**
   * With honest CMK orks, `PreSignInCVKReply` never throws "Blind signature
   * failed": it fails only if a CVK ork's nonce reply does not open.
   */
  lemma HonestPreSignInPasses(p: Primitives, encSig: seq<string>, encGRData: seq<string>, data: PreSignInData,
                              vgORKi: seq<Point>, authResp: seq<AuthenticateResponse>, cmkRs: seq<Point>,
                              xs: seq<int>, f: seq<int>, lis: seq<int>, cmkMul: int, inv4: int)
    requires Lagrange.Separated(xs, L) && |xs| >= 2 && |f| <= |xs|
    requires SecretShare.Lis(xs, L) == Success(lis)
    requires |authResp| == |xs| && |cmkRs| == |xs|
    requires ModInv(data.r4, L) == Some(inv4)
    requires data.gRMul == Times(Sum(cmkRs), inv4)
    requires data.gCMKAuth == Times(Times(G, Lagrange.Eval(f, 0)), cmkMul)
    requires HonestAuthReplies(authResp, cmkRs, BlurHCmkMuls(data.H, cmkMul, data.r4, lis), Lagrange.Values(f, xs),
                               CmkAuthHash(p))
    requires DecryptAll(p, encSig, data.prismAuthis, p.parseAuthenticate) == Success(authResp)
    ensures PreSignInCVKReply(p, encSig, encGRData, data, vgORKi).Success?
      <==> DecryptAll(p, encGRData, SharedKeys(p, vgORKi, data.sessKey), p.parsePreSignIn).Success?
  {
    HonestBlindSignatureValid(authResp, cmkRs, xs, f, lis, data, cmkMul, inv4, CmkAuthHash(p));
    assert InverseOf(data.r4) == Success(inv4);
  }

  // ---------------------------------------------------------------------------
  // SignInCVKReply

  function FirstScalars(rs: seq<SignInResponse>): (ss: seq<int>)
    ensures |ss| == |rs| && forall i :: 0 <= i < |rs| ==> ss[i] == rs[i].s1
  {
    seq(|rs|, i requires 0 <= i < |rs| => rs[i].s1)
  }

  function SecondScalars(rs: seq<SignInResponse>): (os: seq<Option<int>>)
    ensures |os| == |rs| && forall i :: 0 <= i < |rs| ==> os[i] == rs[i].s2
  {
    seq(|rs|, i requires 0 <= i < |rs| => rs[i].s2)
  }

  /** The model scalar: the weighted sum of every second scalar when all orks sent one, else null. */
  function ModelScalar(os: seq<Option<int>>, ws: seq<int>): (r: Option<Point>)
    requires |ws| == |os|
    ensures r.Some? <==> forall i :: 0 <= i < |os| ==> os[i].Some?
  {
    match Present(os)
    case None => None
    case Some(ss) => Some(Dot(ss, ws) % L)
  }

  datatype SignInResult = SignInResult(jwt: string, modelSig: Option<string>)

  /**
   * `SignInCVKReply(encSigs, gCVKR, modelR, jwt, ECDHi, vLis)`: the CVK
   * orks' partial signatures, opened with the shared keys, weighted by the
   * Lagrange coefficients vLis and added up, sign the token; the second
   * scalars, when every ork sent one, sign the model nonce the same way.
   * `modelR.toArray()` on a null modelR throws.
   */
  function SignInCVKReply(p: Primitives, encSigs: seq<string>, gCVKR: Point, modelR: Option<Point>, jwt: string,
                          ecdhi: seq<Bytes>, vLis: seq<int>): (r: Result<SignInResult>)
    ensures r.Success? ==> |encSigs| <= |ecdhi| && |encSigs| <= |vLis|
    ensures r.Success? ==> r.value.modelSig.None? || modelR.Some?
  {
    var sigs :- DecryptAll(p, encSigs, ecdhi, p.parseSignIn);
    var ws :- LookupAll(vLis, |sigs|);
    var cvkS := Dot(FirstScalars(sigs), ws) % L;
    var modelS := ModelScalar(SecondScalars(sigs), ws);
    var modelSig :- match (modelS, modelR)
      case (None, _) => Success(None)
      case (Some(_), None) => Failure(UndefinedValue)
      case (Some(s), Some(R)) => Success(Some(p.base64(p.encode(R) + p.bigToBytes(s))));
    Success(SignInResult(TideJwt.AddSignature(p, jwt, cvkS, gCVKR), modelSig))
  }

  /**
   * Once the partial signatures open, the step fails only when an ork has
   * no coefficient, or when every ork sent a model scalar but there is no
   * model nonce; the model signature is there exactly when every ork sent
   * a model scalar.
   */
  lemma SignInCVKOutcome(p: Primitives, encSigs: seq<string>, gCVKR: Point, modelR: Option<Point>, jwt: string,
                         ecdhi: seq<Bytes>, vLis: seq<int>, sigs: seq<SignInResponse>)
    requires DecryptAll(p, encSigs, ecdhi, p.parseSignIn) == Success(sigs)
    ensures var r := SignInCVKReply(p, encSigs, gCVKR, modelR, jwt, ecdhi, vLis);
      && (r.Success? <==> |sigs| <= |vLis| && (modelR.Some? || exists i :: 0 <= i < |sigs| && sigs[i].s2.None?))
      && (r.Success? ==> (r.value.modelSig.Some? <==> forall i :: 0 <= i < |sigs| ==> sigs[i].s2.Some?))
  {
    var os := SecondScalars(sigs);
    assert (forall i :: 0 <= i < |sigs| ==> sigs[i].s2.Some?) <==> (forall i :: 0 <= i < |os| ==> os[i].Some?);
  }

  /**
   * A CVK ork that holds the share `share` of CVK, weighted by li, and
   * committed to the nonce point gR1 signs with challenge k so that
   * li·S1 == gR1 + k·li·share.
   */
  predicate HonestSignatures(sigs: seq<SignInResponse>, gR1s: seq<Point>, vLis: seq<int>, vs: seq<int>, k: int)
  {
    && |gR1s| == |sigs| && |vLis| == |sigs| && |vs| == |sigs|
    && forall i :: 0 <= i < |sigs| ==> Cong(sigs[i].s1 * vLis[i], gR1s[i] + k * (vLis[i] * vs[i]), L)
  }

  lemma {:induction false} SumOfSignatures(ss: seq<int>, rs: seq<int>, ws: seq<int>, vs: seq<int>, k: int)
    requires |rs| == |ss| && |ws| == |ss| && |vs| == |ss|
    requires forall i :: 0 <= i < |ss| ==> Cong(ss[i] * ws[i], rs[i] + k * (ws[i] * vs[i]), L)
    ensures Cong(Dot(ss, ws), IntSum(rs) + k * Dot(ws, vs), L)
  {
    if |ss| > 0 {
      var n := |ss| - 1;
      SumOfSignatures(ss[..n], rs[..n], ws[..n], vs[..n], k);
      var prev := IntSum(rs[..n]) + k * Dot(ws[..n], vs[..n]);
      CongAdd(Dot(ss[..n], ws[..n]), prev, ss[n] * ws[n], rs[n] + k * (ws[n] * vs[n]), L);
      assert prev + (rs[n] + k * (ws[n] * vs[n])) == IntSum(rs) + k * Dot(ws, vs);
    }
  }

  lemma SignaturesCombine(sigs: seq<SignInResponse>, gR1s: seq<Point>, vLis: seq<int>, vs: seq<int>, k: int,
                          S: int, R: int, C: int)
    requires HonestSignatures(sigs, gR1s, vLis, vs, k)
    requires S == Dot(FirstScalars(sigs), vLis) && R == IntSum(gR1s) && C == Dot(vLis, vs)
    ensures Cong(S, R + k * C, L)
  {
    SumOfSignatures(FirstScalars(sigs), gR1s, vLis, vs, k);
  }

  lemma WeightsCombine(xs: seq<int>, f: seq<int>, vLis: seq<int>, C: int, f0: int)
    requires Lagrange.Separated(xs, L) && |xs| >= 2 && |f| <= |xs|
    requires SecretShare.Lis(xs, L) == Success(vLis)
    requires C == Dot(vLis, Lagrange.Values(f, xs)) && f0 == Lagrange.Eval(f, 0)
    ensures Cong(C, f0, L)
  {
    Lagrange.Reconstruction(xs, f);
    DotSymmetric(Lagrange.Values(f, xs), vLis);
  }

  /** The combined scalar satisfies the Schnorr equation CVKS·g == gCVKR + k·gCVK. */
  lemma SchnorrFromSums(S: int, R: int, C: int, f0: int, k: int, gCVKR: Point)
    requires Cong(S, R + k * C, L) && Cong(C, f0, L) && gCVKR == R % L
    ensures Times(G, S % L) == Add(gCVKR, Times(Times(G, f0), k))
  {
    var a: int := Times(Times(G, f0), k);
    assert Cong(a, k * C, L) by {
      TimesTimes(G, f0, k);
      CongResidue(f0 * k, L);
      CongMul(f0, C, k, k, L);
      assert f0 * k == 1 * f0 * k && C * k == k * C;
    }
    CongResidue(R, L);
    CongAdd(gCVKR, R, a, k * C, L);
    CongResidue(gCVKR + a, L);
    CongResidue(S, L);
    CongResidues(S % L, Add(gCVKR, a), L);
    ResidueOfPoint(S % L);
  }

  /**
   * Threshold EdDSA: when CVK orks holding shares f(x_i) of CVK sign the
   * token honestly, the token that `SignInCVKReply` returns verifies under
   * gCVK = g·CVK (unless the combined scalar is 0).
   */
  lemma HonestSignInVerifies(p: Primitives, encSigs: seq<string>, gR1s: seq<Point>, modelR: Option<Point>,
                             jwt: string, ecdhi: seq<Bytes>, xs: seq<int>, f: seq<int>, vLis: seq<int>,
                             sigs: seq<SignInResponse>)
    requires PointCodec(p) && ScalarCodec(p) && Base64Codec(p) && Base64UrlCodec(p)
    requires |Split(jwt, '.')| == 2
    requires Lagrange.Separated(xs, L) && |xs| >= 2 && |f| <= |xs|
    requires SecretShare.Lis(xs, L) == Success(vLis)
    requires DecryptAll(p, encSigs, ecdhi, p.parseSignIn) == Success(sigs)
    requires HonestSignatures(sigs, gR1s, vLis, Lagrange.Values(f, xs),
      EdDsa.Challenge(p, p.encode(Sum(gR1s)), p.encode(Times(G, Lagrange.Eval(f, 0))), p.utf8(jwt)))
    requires Dot(FirstScalars(sigs), vLis) % L != 0
    ensures var r := SignInCVKReply(p, encSigs, Sum(gR1s), modelR, jwt, ecdhi, vLis);
      r.Success? ==> TideJwt.Verify(p, r.value.jwt, Times(G, Lagrange.Eval(f, 0))) == Success(true)
  {
    var f0 := Lagrange.Eval(f, 0);
    var gCVK := Times(G, f0);
    var gCVKR := Sum(gR1s);
    var k := EdDsa.Challenge(p, p.encode(gCVKR), p.encode(gCVK), p.utf8(jwt));
    var vs := Lagrange.Values(f, xs);
    var S, R, C := Dot(FirstScalars(sigs), vLis), IntSum(gR1s), Dot(vLis, vs);
    SignaturesCombine(sigs, gR1s, vLis, vs, k, S, R, C);
    WeightsCombine(xs, f, vLis, C, f0);
    SumIsResidue(gR1s);
    SchnorrFromSums(S, R, C, f0, k, gCVKR);
    var cvkS := S % L;
    SignInToken(p, encSigs, gCVKR, modelR, jwt, ecdhi, vLis, sigs, cvkS);
    TokenVerifies(p, jwt, cvkS, gCVKR, gCVK, k);
  }

  /** The token the step returns is the input token signed with (gCVKR, the combined scalar). */
  lemma SignInToken(p: Primitives, encSigs: seq<string>, gCVKR: Point, modelR: Option<Point>, jwt: string,
                    ecdhi: seq<Bytes>, vLis: seq<int>, sigs: seq<SignInResponse>, cvkS: int)
    requires DecryptAll(p, encSigs, ecdhi, p.parseSignIn) == Success(sigs) && |sigs| == |vLis|
    requires cvkS == Dot(FirstScalars(sigs), vLis) % L
    ensures var r := SignInCVKReply(p, encSigs, gCVKR, modelR, jwt, ecdhi, vLis);
      r.Success? ==> r.value.jwt == TideJwt.AddSignature(p, jwt, cvkS, gCVKR)
  {
    assert LookupAll(vLis, |sigs|) == Success(vLis) by {
      assert vLis[..|sigs|] == vLis;
    }
  }

  /** A two-segment token signed with a scalar that satisfies the Schnorr equation verifies. */
  lemma TokenVerifies(p: Primitives, jwt: string, S: int, R: Point, A: Point, k: int)
    requires PointCodec(p) && ScalarCodec(p) && Base64Codec(p) && Base64UrlCodec(p)
    requires |Split(jwt, '.')| == 2 && 0 < S < L
    requires k == EdDsa.Challenge(p, p.encode(R), p.encode(A), p.utf8(jwt))
    requires Times(G, S) == Add(R, Times(A, k))
    ensures TideJwt.Verify(p, TideJwt.AddSignature(p, jwt, S, R), A) == Success(true)
  {
    TideJwt.VerifySignedChecksUnsigned(p, jwt, S, R, A);
    EdDsa.VerifyAccepts(p, R, S, A, EdDsa.Raw(p.utf8(jwt)));
  }
}
