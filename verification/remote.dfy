/**
 * The calls the flows make to the orks (`NodeClient`) and to the simulator
 * (`SimulatorClient`). HTTP, form encoding and response parsing are not
 * modelled: each call is a function from the request it carries to how its
 * promise settles. Two client-side behaviours are kept because the flows
 * depend on them: `SignInCVK` refuses a non-default mode without a model,
 * and `Commit` accepts any reply.
 */
module Remote {
  import opened Wrappers
  import opened Curve
  import opened Primitives

  /** One entry of `Promise.allSettled`: the value, or what the promise was rejected with. */
  datatype Settled<+T> = Fulfilled(value: T) | Rejected(reason: Error)

  /** `await call`: the value, or the rejection thrown onwards. */
  function Await<T>(s: Settled<T>): (r: Result<T>)
    ensures r.Success? <==> s.Fulfilled?
    ensures r.Success? ==> r.value == s.value
    ensures r.Failure? ==> r.error == s.reason
  {
    match s
    case Fulfilled(v) => Success(v)
    case Rejected(e) => Failure(e)
  }

  /** `await Promise.all(calls)`: every value in order, or the first rejection by index. */
  function AwaitAll<T>(ss: seq<Settled<T>>): (r: Result<seq<T>>)
    ensures r.Success? <==> forall i :: 0 <= i < |ss| ==> ss[i].Fulfilled?
    ensures r.Success? ==> |r.value| == |ss| && forall i :: 0 <= i < |ss| ==> ss[i] == Fulfilled(r.value[i])
    ensures r.Failure? ==> exists i :: 0 <= i < |ss| && ss[i] == Rejected(r.error)
  {
    var rs := seq(|ss|, i requires 0 <= i < |ss| => Await(ss[i]));
    assert forall i :: 0 <= i < |ss| ==> (rs[i].Success? <==> ss[i].Fulfilled?);
    All(rs)
  }

  /** When every call fulfilled, `Promise.all` yields their values in order. */
  lemma AwaitAllFulfilled<T>(ss: seq<Settled<T>>, vs: seq<T>)
    requires |ss| == |vs| && forall i :: 0 <= i < |ss| ==> ss[i] == Fulfilled(vs[i])
    ensures AwaitAll(ss) == Success(vs)
  {
    var r := AwaitAll(ss);
    assert r.Success?;
    assert r.value == vs;
  }

  // ---------------------------------------------------------------------------
  // What each call sends (the ork's URL first)

  datatype ConvertRequest = ConvertRequest(url: string, uid: string, gBlurUser: Point, gBlurPass: Point)
  datatype PrismConvertRequest = PrismConvertRequest(url: string, uid: string, gBlurPass: Point)
  datatype AuthenticateRequest = AuthenticateRequest(
    url: string, uid: string, decryptedChallenge: Option<string>, encAuthRequest: Option<string>)
  datatype PreSignInRequest = PreSignInRequest(url: string, vuid: string, gSessKeyPub: Point, modelRequested: bool)
  datatype SignInRequest = SignInRequest(
    url: string, vuid: string, jwt: string, timestamp2: int, gRMul: Point, S: int, gCVKR: Point,
    li: Option<int>, gBlindH: Point, mode: string, modelToSign: Option<string>, gR2: Option<Point>)
  datatype GenShardRequest = GenShardRequest(
    url: string, uid: string, ids: seq<int>, numKeys: int, gMultipliers: seq<Option<Point>>)
  datatype UpdateShardRequest = UpdateShardRequest(
    url: string, uid: string, ids: seq<int>, decryptedChallenge: Option<string>, gMultiplier: Point)
  datatype SendShardRequest = SendShardRequest(
    url: string, uid: string, shares: Option<seq<Option<string>>>, R2: Point, auth: Point, keyType: string)
  datatype CommitRequest = CommitRequest(url: string, uid: string, S: int, keyType: string)
  datatype ApplyPrismRequest = ApplyPrismRequest(url: string, uid: string, point: Point)
  datatype ApplyAuthDataRequest = ApplyAuthDataRequest(url: string, uid: string, authData: string)

  /** How every remote call settles, as a function of what it sends. */
  datatype Network = Network(
    convert: ConvertRequest -> Settled<ConvertResponse>,
    authenticate: AuthenticateRequest -> Settled<string>,
    preSignIn: PreSignInRequest -> Settled<string>,
    signIn: SignInRequest -> Settled<string>,
    genShard: GenShardRequest -> Settled<GenShardResponse>,
    updateShard: UpdateShardRequest -> Settled<GenShardResponse>,
    sendShard: SendShardRequest -> Settled<SendShardResponse>,
    commit: CommitRequest -> Settled<string>,
    applyPrism: ApplyPrismRequest -> Settled<Point>,
    applyAuthData: ApplyAuthDataRequest -> Settled<string>,
    userOrks: string -> Settled<seq<OrkInfo>>,     // SimulatorClient.GetUserORKs
    keyPublic: string -> Settled<Point>)           // SimulatorClient.GetKeyPublic

  /**
   * `NodeClient.SignInCVK`: a mode other than "default" without a model to
   * sign or without its nonce is refused before anything is sent, and so is
   * a missing coefficient (`li.toString()` on undefined).
   */
  function SignInCall(net: Network, req: SignInRequest): (s: Settled<string>)
    ensures req.mode != "default" && (req.modelToSign.None? || req.gR2.None?) ==>
      s == Rejected(Thrown("Model to sign expected"))
    ensures (req.mode == "default" || (req.modelToSign.Some? && req.gR2.Some?)) && req.li.None? ==>
      s == Rejected(UndefinedValue)
    ensures (req.mode == "default" || (req.modelToSign.Some? && req.gR2.Some?)) && req.li.Some? ==>
      s == net.signIn(req)
  {
    if req.mode != "default" && (req.modelToSign.None? || req.gR2.None?) then
      Rejected(Thrown("Model to sign expected"))
    else if req.li.None? then Rejected(UndefinedValue)
    else net.signIn(req)
  }

  /**
   * `NodeClient.Commit`: a reply other than "Account Created" builds a
   * rejected promise that nobody returns, so any reply counts as success.
   */
  function CommitCall(net: Network, req: CommitRequest): (s: Settled<()>)
    ensures s.Fulfilled? <==> net.commit(req).Fulfilled?
    ensures s.Rejected? ==> s.reason == net.commit(req).reason
  {
    match net.commit(req)
    case Fulfilled(_) => Fulfilled(())
    case Rejected(e) => Rejected(e)
  }
}
