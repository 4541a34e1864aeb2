/**
 * `dKeyAuthenticationFlow`: sign-in against the CMK orks (which hold the
 * user's CMK and PRISM shares) and the CVK orks (which hold the shares of
 * the key that signs the token). The first two rounds call every ork, keep
 * the ones that answered in their original order and fail when fewer than
 * the threshold did; the ork list is then replaced by the survivors, so the
 * Lagrange coefficients, the ork publics and the replies stay index-aligned.
 */
module KeyAuthenticationFlow {
  import opened Wrappers
  import opened ModArith
  import opened Curve
  import opened JsUtil
  import opened Primitives
  import opened Remote
  import opened Quorum
  import opened SecretShare
  import opened KeyAuthentication
  import opened KeyGeneration
  import opened KeyGenerationFlow
  import Lagrange
  import EdDsa
  import TideJwt

  const CmkOrksDown: string := "CMK Orks for this account are down"
  const CvkOrksDown: string := "CVK Orks for this account are down"

  /** The random and clock values `CmkConvertReply` draws: SessKey, r4, `Date.now()` and the AES ivs. */
  datatype Session = Session(sessKey: int, r4: int, nowMs: nat, iv: nat -> Bytes)

  /** `ids.map(id => GetLi(id, ids, Point.order))` over the orks' ids. */
  function OrkLis(orks: seq<OrkInfo>): (r: Result<seq<int>>)
    ensures r.Success? ==> |r.value| == |orks|
    ensures r.Success? ==> forall k :: 0 <= k < |orks| ==> GetLi(orks[k].id, OrkIds(orks), L) == Success(r.value[k])
  {
    Lis(OrkIds(orks), L)
  }

  // ---------------------------------------------------------------------------
  // Convert

  function ConvertCalls(net: Network, orks: seq<OrkInfo>, uid: string, gBlurUser: Point, gBlurPass: Point)
    : seq<Settled<ConvertResponse>>
  {
    seq(|orks|, i requires 0 <= i < |orks| => net.convert(ConvertRequest(orks[i].url, uid, gBlurUser, gBlurPass)))
  }

  /**
   * What `Convert` computes from the surviving orks and their replies: their
   * Lagrange coefficients, then `PrismConvertReply` and `CmkConvertReply`.
   */
  function ConvertFrom(p: Primitives, active: seq<OrkInfo>, responses: seq<ConvertResponse>, uid: string,
                       r1: int, r2: int, startTime: int, gCMK: Point, gVVK: string, s: Session)
    : (r: Result<CmkConvertResult>)
    ensures r.Success? ==> OrkLis(active).Success? && |responses| > 0 && |responses| <= |active|
    ensures r.Success? ==> ModInv(r1, L).Some? && ModInv(r2, L).Some? && ModInv(s.r4, L).Some?
    ensures r.Success? ==> |r.value.encAuthRequests| == |active| && |r.value.decChallengei| == |responses|
    ensures r.Success? ==> r.value.gSessKeyPub == Times(G, s.sessKey)
  {
    var lis :- OrkLis(active);
    var prism :- PrismConvertReply(p, responses, lis, OrkPublics(active), r1, startTime);
    CmkConvertReply(p, uid, responses, lis, prism.prismAuthis, gCMK, r2, prism.deltaTime, gVVK,
                    s.sessKey, s.r4, s.nowMs, s.iv)
  }

  /**
   * The survivors of the Convert round, their replies and their Lagrange
   * coefficients line up: the k-th of each belongs to the ork at the k-th
   * fulfilled position, and that ork's coefficient is taken over exactly the
   * surviving ids.
   */
  lemma ConvertAligned(net: Network, orks: seq<OrkInfo>, uid: string, gBlurUser: Point, gBlurPass: Point)
    ensures var settled := ConvertCalls(net, orks, uid, gBlurUser, gBlurPass);
      var idx := FulfilledIndices(settled);
      var active := Survivors(orks, settled);
      var responses := FulfilledValues(settled);
      && |active| == |idx| && |responses| == |idx|
      && (forall k :: 0 <= k < |idx| ==>
            && active[k] == orks[idx[k]]
            && net.convert(ConvertRequest(orks[idx[k]].url, uid, gBlurUser, gBlurPass)) == Fulfilled(responses[k]))
      && (OrkLis(active).Success? ==> forall k :: 0 <= k < |idx| ==>
            GetLi(orks[idx[k]].id, OrkIds(active), L) == Success(OrkLis(active).value[k]))
  {
    var settled := ConvertCalls(net, orks, uid, gBlurUser, gBlurPass);
    SurvivorsAligned(orks, settled);
  }

  /**
   * When the CMK orks return their shares of the CMK times the blurred user
   * point g_user·r2, the VUID of a successful Convert is the one derived
   * from g_user·CMK, whatever the random values and the clock.
   */
  lemma ConvertDerivesVuid(p: Primitives, active: seq<OrkInfo>, responses: seq<ConvertResponse>, uid: string,
                           r1: int, r2: int, startTime: int, gCMK: Point, gVVK: string, s: Session, lis: seq<int>,
                           prism: PrismConvertResult, ds: seq<EncryptedConvertResponse>, gUser: Point, f: seq<int>)
    requires Lagrange.Separated(OrkIds(active), L) && |active| >= 2 && |f| <= |active| && |responses| == |active|
    requires ModInv(r2, L).Some? && OrkLis(active) == Success(lis)
    requires PrismConvertReply(p, responses, lis, OrkPublics(active), r1, startTime) == Success(prism)
    requires DecryptAll(p, EncryptedPayloads(responses), prism.prismAuthis, p.parseEncryptedConvert) == Success(ds)
    requires BlurUserPoints(ds) == Multiples(Times(gUser, r2), Lagrange.Values(f, OrkIds(active)))
    ensures var r := ConvertFrom(p, active, responses, uid, r1, r2, startTime, gCMK, gVVK, s);
      r.Success? ==> r.value.vuid == DeriveUserKeys(p, Times(gUser, Lagrange.Eval(f, 0))).vuid
  {
    CmkConvertUnblinds(p, uid, responses, OrkIds(active), f, gUser, prism.prismAuthis, gCMK, r2, prism.deltaTime,
                       gVVK, s.sessKey, s.r4, s.nowMs, s.iv, ds);
  }

  // ---------------------------------------------------------------------------
  // Authenticate_and_PreSignInCVK

  function AuthenticateCalls(net: Network, orks: seq<OrkInfo>, uid: string, decryptedChallengei: seq<string>,
                             encryptedAuthRequest: seq<string>): (calls: seq<Settled<string>>)
    ensures |calls| == |orks|
    ensures forall i :: 0 <= i < |orks| ==>
      calls[i] == net.authenticate(AuthenticateRequest(orks[i].url, uid, Cell(decryptedChallengei, i), Cell(encryptedAuthRequest, i)))
  {
    seq(|orks|, i requires 0 <= i < |orks| =>
      net.authenticate(AuthenticateRequest(orks[i].url, uid, Cell(decryptedChallengei, i), Cell(encryptedAuthRequest, i))))
  }

  function PreSignInCalls(net: Network, orks: seq<OrkInfo>, vuid: string, gSessKeyPub: Point, modelRequested: bool)
    : seq<Settled<string>>
  {
    seq(|orks|, i requires 0 <= i < |orks| => net.preSignIn(PreSignInRequest(orks[i].url, vuid, gSessKeyPub, modelRequested)))
  }

  /** The reply of `PreSignInCVKReply` spread together with `vlis`. */
  datatype PreSignInOutcome = PreSignInOutcome(reply: PreSignInResult, vlis: seq<int>)

  /**
   * What `Authenticate_and_PreSignInCVK` computes from the CMK orks'
   * signatures and the surviving CVK orks' nonce data: the CVK
   * coefficients, then `PreSignInCVKReply` against the CVK ork publics.
   */
  function PreSignInFrom(p: Primitives, active: seq<OrkInfo>, encSig: seq<string>, encGRData: seq<string>,
                         data: PreSignInData): (r: Result<PreSignInOutcome>)
    ensures r.Success? ==> OrkLis(active) == Success(r.value.vlis)
    ensures r.Success? ==> r.value.reply.ecdhi == SharedKeys(p, OrkPublics(active), data.sessKey)
    ensures r.Success? ==>
      BlindSignatureValid(r.value.reply.S, data.gRMul, data.H, data.gCMKAuth, r.value.reply.gBlindH, CmkAuthHash(p))
  {
    var vlis :- OrkLis(active);
    var reply :- PreSignInCVKReply(p, encSig, encGRData, data, OrkPublics(active));
    Success(PreSignInOutcome(reply, vlis))
  }

  // ---------------------------------------------------------------------------
  // SignInCVK

  /** `vlis[i]`: CVK ork i's coefficient, undefined past the end. */
  function Coefficient(vlis: seq<int>, i: nat): (li: Option<int>)
    ensures li.Some? <==> i < |vlis|
    ensures li.Some? ==> li.value == vlis[i]
  {
    if i < |vlis| then Some(vlis[i]) else None
  }

  function SignInRequests(orks: seq<OrkInfo>, vuid: string, jwt: string, vlis: seq<int>, timestamp2: int,
                          gRMul: Point, gCVKR: Point, S: int, gBlindH: Point, mode: string,
                          modelToSign: Option<string>, gR2: Option<Point>): (reqs: seq<SignInRequest>)
    ensures |reqs| == |orks|
    ensures forall i :: 0 <= i < |orks| ==> reqs[i].url == orks[i].url && reqs[i].li == Coefficient(vlis, i)
    ensures forall i :: 0 <= i < |orks| ==>
      reqs[i] == SignInRequest(orks[i].url, vuid, jwt, timestamp2, gRMul, S, gCVKR, Coefficient(vlis, i), gBlindH,
                               mode, modelToSign, gR2)
  {
    seq(|orks|, i requires 0 <= i < |orks| =>
      SignInRequest(orks[i].url, vuid, jwt, timestamp2, gRMul, S, gCVKR, Coefficient(vlis, i), gBlindH,
                    mode, modelToSign, gR2))
  }

  function SignInCalls(net: Network, reqs: seq<SignInRequest>): seq<Settled<string>>
  {
    seq(|reqs|, i requires 0 <= i < |reqs| => SignInCall(net, reqs[i]))
  }

  /**
   * The bound parameters of `SignInCVKReply(encSigs, gCVKR, jwt, ECDHi,
   * vlis)` as the flow calls it: modelR receives the token text, jwt the
   * shared keys, ECDHi the coefficients and vLis nothing. The partial
   * signatures are opened with the coefficients' bytes as keys; past that,
   * a non-empty list fails reading `vLis[i]` and an empty one fails calling
   * `toArray` on the token text, both with a TypeError.
   */
  function MisboundSignInReply(p: Primitives, encSigs: seq<string>, vlis: seq<int>): (r: Result<SignInResult>)
    ensures r.Failure?
    ensures (exists ks :: DecryptAll(p, encSigs, seq(|vlis|, i requires 0 <= i < |vlis| => p.bigToBytes(vlis[i])), p.parseSignIn) == Success(ks))
      ==> r == Failure(UndefinedValue)
  {
    var keys := seq(|vlis|, i requires 0 <= i < |vlis| => p.bigToBytes(vlis[i]));
    var _ :- DecryptAll(p, encSigs, keys, p.parseSignIn);
    Failure(UndefinedValue)
  }

  /**
   * The SignInCVK round over a given list of CVK orks, with the reply
   * assembled as `SignInCVKReply` declares its parameters: ork i is sent
   * vlis[i], and the model nonce gR2 is the reply's modelR.
   */
  function SignInCvkOver(p: Primitives, net: Network, orks: seq<OrkInfo>, vuid: string, jwt: string, vlis: seq<int>,
                         timestamp2: int, gRMul: Point, gCVKR: Point, S: int, ecdhi: seq<Bytes>, gBlindH: Point,
                         mode: string, modelToSign: Option<string>, gR2: Option<Point>): (r: Result<SignInResult>)
    ensures var calls := SignInCalls(net, SignInRequests(orks, vuid, jwt, vlis, timestamp2, gRMul, gCVKR, S,
                                                         gBlindH, mode, modelToSign, gR2));
      && ((exists i :: 0 <= i < |calls| && calls[i].Rejected?) ==> r.Failure?)
      && (r.Success? ==> AwaitAll(calls).Success? && r == SignInCVKReply(p, AwaitAll(calls).value, gCVKR, gR2, jwt, ecdhi, vlis))
  {
    var reqs := SignInRequests(orks, vuid, jwt, vlis, timestamp2, gRMul, gCVKR, S, gBlindH, mode, modelToSign, gR2);
    var encSigs :- AwaitAll(SignInCalls(net, reqs));
    SignInCVKReply(p, encSigs, gCVKR, gR2, jwt, ecdhi, vlis)
  }

  /**
   * The SignInCVK round over a given list of CVK orks as its last line is
   * written: the same requests, but the replies go to `SignInCVKReply` with
   * five arguments for its six parameters, so the round never succeeds.
   */
  function SignInCvkOverAsWritten(p: Primitives, net: Network, orks: seq<OrkInfo>, vuid: string, jwt: string,
                                  vlis: seq<int>, timestamp2: int, gRMul: Point, gCVKR: Point, S: int,
                                  gBlindH: Point, mode: string, modelToSign: Option<string>, gR2: Option<Point>)
    : (r: Result<SignInResult>)
    ensures r.Failure?
    ensures var calls := SignInCalls(net, SignInRequests(orks, vuid, jwt, vlis, timestamp2, gRMul, gCVKR, S,
                                                         gBlindH, mode, modelToSign, gR2));
      AwaitAll(calls).Success? ==> r == MisboundSignInReply(p, AwaitAll(calls).value, vlis)
  {
    var reqs := SignInRequests(orks, vuid, jwt, vlis, timestamp2, gRMul, gCVKR, S, gBlindH, mode, modelToSign, gR2);
    var encSigs :- AwaitAll(SignInCalls(net, reqs));
    MisboundSignInReply(p, encSigs, vlis)
  }

  /**
   * When every CVK ork answers with its share of a threshold signature over
   * the token, the token the round returns verifies under g·CVK.
   */
  lemma HonestSignInCvkVerifies(p: Primitives, net: Network, orks: seq<OrkInfo>, vuid: string, jwt: string,
                                vlis: seq<int>, timestamp2: int, gRMul: Point, S: int, ecdhi: seq<Bytes>,
                                gBlindH: Point, mode: string, modelToSign: Option<string>, gR2: Option<Point>,
                                gR1s: seq<Point>, encSigs: seq<string>, sigs: seq<SignInResponse>,
                                xs: seq<int>, f: seq<int>)
    requires PointCodec(p) && ScalarCodec(p) && Base64Codec(p) && Base64UrlCodec(p)
    requires |Split(jwt, '.')| == 2
    requires Lagrange.Separated(xs, L) && |xs| >= 2 && |f| <= |xs| && Lis(xs, L) == Success(vlis)
    requires AwaitAll(SignInCalls(net, SignInRequests(orks, vuid, jwt, vlis, timestamp2, gRMul, Sum(gR1s), S, gBlindH,
                                                      mode, modelToSign, gR2))) == Success(encSigs)
    requires DecryptAll(p, encSigs, ecdhi, p.parseSignIn) == Success(sigs)
    requires HonestSignatures(sigs, gR1s, vlis, Lagrange.Values(f, xs),
      EdDsa.Challenge(p, p.encode(Sum(gR1s)), p.encode(Times(G, Lagrange.Eval(f, 0))), p.utf8(jwt)))
    requires Dot(FirstScalars(sigs), vlis) % L != 0
    ensures var r := SignInCvkOver(p, net, orks, vuid, jwt, vlis, timestamp2, gRMul, Sum(gR1s), S, ecdhi, gBlindH,
                                   mode, modelToSign, gR2);
      r.Success? ==> TideJwt.Verify(p, r.value.jwt, Times(G, Lagrange.Eval(f, 0))) == Success(true)
  {
    HonestSignInVerifies(p, encSigs, gR1s, gR2, jwt, ecdhi, xs, f, vlis, sigs);
  }

  /** The reply count both ork rounds of sign-in need. */
  const Threshold: nat := 2

  class KeyAuthenticationFlow {
    var cmkOrks: seq<OrkInfo>
    /** Undefined until the caller assigns it. */
    var cvkOrks: Option<seq<OrkInfo>>
    const threshold: nat

    constructor(cmkOrks: seq<OrkInfo>)
      ensures this.cmkOrks == cmkOrks && cvkOrks.None? && threshold == Threshold
    {
      this.cmkOrks := cmkOrks;
      cvkOrks := None;
      threshold := Threshold;
    }

    /**
     * `Convert(uid, gBlurUser, gBlurPass, r1, r2, startTime, gCMK, gVVK)`.
     * Too few answers: the reasoned error and no change. Otherwise the
     * CMK ork list becomes the survivors and the reply is computed over them.
     */
    method Convert(p: Primitives, net: Network, uid: string, gBlurUser: Point, gBlurPass: Point, r1: int, r2: int,
                   startTime: int, gCMK: Point, gVVK: string, s: Session) returns (r: Result<CmkConvertResult>)
      modifies this
      ensures cvkOrks == old(cvkOrks)
      ensures var settled := ConvertCalls(net, old(cmkOrks), uid, gBlurUser, gBlurPass);
        var active := Survivors(old(cmkOrks), settled);
        && (|active| < threshold ==> r == Failure(ThresholdError(settled, CmkOrksDown)) && cmkOrks == old(cmkOrks))
        && (|active| >= threshold ==>
              cmkOrks == active && r == ConvertFrom(p, active, FulfilledValues(settled), uid, r1, r2, startTime, gCMK, gVVK, s))
    {
      var settled := ConvertCalls(net, cmkOrks, uid, gBlurUser, gBlurPass);
      var active := KeepFulfilled(cmkOrks, settled);
      if |active| < threshold {
        return Failure(ThresholdError(settled, CmkOrksDown));
      }
      cmkOrks := active;
      var responses := FulfilledValues(settled);
      r := ConvertFrom(p, active, responses, uid, r1, r2, startTime, gCMK, gVVK, s);
    }

    /**
     * `Authenticate_and_PreSignInCVK(uid, vuid, decryptedChallengei,
     * encryptedAuthRequest, gSessKeyPub, data, modelRequested)`: every CMK
     * ork must sign (CMK ork i is sent the i-th challenge and request); the
     * CVK orks go through the quorum filter, and the CVK ork list becomes
     * the survivors before the coefficients are computed.
     */
    method AuthenticateAndPreSignIn(p: Primitives, net: Network, uid: string, vuid: string,
                                    decryptedChallengei: seq<string>, encryptedAuthRequest: seq<string>,
                                    gSessKeyPub: Point, data: PreSignInData, modelRequested: bool)
      returns (r: Result<PreSignInOutcome>)
      modifies this
      ensures cmkOrks == old(cmkOrks)
      ensures old(cvkOrks).None? ==> r == Failure(UndefinedValue) && cvkOrks == old(cvkOrks)
      ensures old(cvkOrks).Some? ==>
        var signed := AwaitAll(AuthenticateCalls(net, cmkOrks, uid, decryptedChallengei, encryptedAuthRequest));
        var settled := PreSignInCalls(net, old(cvkOrks).value, vuid, gSessKeyPub, modelRequested);
        var active := Survivors(old(cvkOrks).value, settled);
        && (signed.Failure? ==> r == Failure(signed.error) && cvkOrks == old(cvkOrks))
        && (signed.Success? && |active| < threshold ==>
              r == Failure(ThresholdError(settled, CvkOrksDown)) && cvkOrks == old(cvkOrks))
        && (signed.Success? && |active| >= threshold ==>
              cvkOrks == Some(active) && r == PreSignInFrom(p, active, signed.value, FulfilledValues(settled), data))
    {
      if cvkOrks.None? {
        return Failure(UndefinedValue);
      }
      var signed := AwaitAll(AuthenticateCalls(net, cmkOrks, uid, decryptedChallengei, encryptedAuthRequest));
      var settled := PreSignInCalls(net, cvkOrks.value, vuid, gSessKeyPub, modelRequested);
      if signed.Failure? {
        return Failure(signed.error);
      }
      var active := KeepFulfilled(cvkOrks.value, settled);
      if |active| < threshold {
        return Failure(ThresholdError(settled, CvkOrksDown));
      }
      cvkOrks := Some(active);
      r := PreSignInFrom(p, active, signed.value, FulfilledValues(settled), data);
    }

    /**
     * `SignInCVK(vuid, jwt, vlis, ...)` with the reply assembled as
     * `SignInCVKReply` declares its parameters: CVK ork i is sent vlis[i],
     * and the model nonce gR2 is the reply's modelR.
     */
    function SignInCvk(p: Primitives, net: Network, vuid: string, jwt: string, vlis: seq<int>, timestamp2: int,
                       gRMul: Point, gCVKR: Point, S: int, ecdhi: seq<Bytes>, gBlindH: Point, mode: string,
                       modelToSign: Option<string>, gR2: Option<Point>): (r: Result<SignInResult>)
      reads this
      ensures cvkOrks.None? ==> r == Failure(UndefinedValue)
      ensures cvkOrks.Some? ==>
        r == SignInCvkOver(p, net, cvkOrks.value, vuid, jwt, vlis, timestamp2, gRMul, gCVKR, S, ecdhi, gBlindH, mode,
                           modelToSign, gR2)
    {
      match cvkOrks
      case None => Failure(UndefinedValue)
      case Some(orks) =>
        SignInCvkOver(p, net, orks, vuid, jwt, vlis, timestamp2, gRMul, gCVKR, S, ecdhi, gBlindH, mode, modelToSign, gR2)
    }

    /**
     * `SignInCVK` as its last line is written: the five arguments are bound
     * to the first five of `SignInCVKReply`'s six parameters, and the step
     * never succeeds.
     */
    function SignInCvkAsWritten(p: Primitives, net: Network, vuid: string, jwt: string, vlis: seq<int>,
                                timestamp2: int, gRMul: Point, gCVKR: Point, S: int, ecdhi: seq<Bytes>,
                                gBlindH: Point, mode: string, modelToSign: Option<string>, gR2: Option<Point>)
      : (r: Result<SignInResult>)
      reads this
      ensures r.Failure?
      ensures cvkOrks.Some? ==>
        r == SignInCvkOverAsWritten(p, net, cvkOrks.value, vuid, jwt, vlis, timestamp2, gRMul, gCVKR, S, gBlindH,
                                    mode, modelToSign, gR2)
    {
      match cvkOrks
      case None => Failure(UndefinedValue)
      case Some(orks) =>
        SignInCvkOverAsWritten(p, net, orks, vuid, jwt, vlis, timestamp2, gRMul, gCVKR, S, gBlindH, mode, modelToSign, gR2)
    }
  }

  /**
   * Where every CVK ork answers and its partial signature opens, the step
   * as written fails with a TypeError while the step as declared returns
   * the reply of `SignInCVKReply`.
   */
  lemma SignInCvkAsWrittenFails(p: Primitives, net: Network, flow: KeyAuthenticationFlow, vuid: string, jwt: string,
                                vlis: seq<int>, timestamp2: int, gRMul: Point, gCVKR: Point, S: int,
                                ecdhi: seq<Bytes>, gBlindH: Point, mode: string, modelToSign: Option<string>,
                                gR2: Option<Point>, encSigs: seq<string>, sigs: seq<SignInResponse>)
    requires flow.cvkOrks.Some?
    requires AwaitAll(SignInCalls(net, SignInRequests(flow.cvkOrks.value, vuid, jwt, vlis, timestamp2, gRMul, gCVKR,
                                                      S, gBlindH, mode, modelToSign, gR2))) == Success(encSigs)
    requires DecryptAll(p, encSigs, seq(|vlis|, i requires 0 <= i < |vlis| => p.bigToBytes(vlis[i])), p.parseSignIn)
      == Success(sigs)
    ensures flow.SignInCvkAsWritten(p, net, vuid, jwt, vlis, timestamp2, gRMul, gCVKR, S, ecdhi, gBlindH, mode,
                                    modelToSign, gR2) == Failure(UndefinedValue)
    ensures flow.SignInCvk(p, net, vuid, jwt, vlis, timestamp2, gRMul, gCVKR, S, ecdhi, gBlindH, mode,
                           modelToSign, gR2) == SignInCVKReply(p, encSigs, gCVKR, gR2, jwt, ecdhi, vlis)
  {
  }
}
