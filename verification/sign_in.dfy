/**
 * `SignIn`: the two-step sign-in a web page drives. `Start` turns username
 * and password into the blurred points, runs the Convert round against the
 * user's CMK orks and looks up the user's CVK public; `Continue` runs the
 * CMK authentication and CVK pre-sign-in rounds and gathers the CVK orks'
 * signatures over the session token. Neither step throws: every failure is
 * returned as a not-ok reply carrying the error.
 */
module SignIn {
  import opened Wrappers
  import opened Curve
  import opened Primitives
  import opened Remote
  import opened Quorum
  import opened KeyAuthentication
  import opened KeyAuthenticationFlow

  const NoSimulatorUrl: string := "Simulator Url has not been included in config"
  const ValuesUndefined: string := "Values must be defined before hand"
  const DefaultMode: string := "default"

  /** The page's config object: each key present or absent. */
  datatype Config = Config(simulatorUrl: Option<string>, mode: Option<string>, modelToSign: Option<string>)

  /** `{ok: true, dataType: "userData", publicKey, uid}` or `{ok: false, message}` */
  datatype StartReply = UserData(publicKey: string, uid: string) | StartFailed(message: Error)

  /** `{ok: true, dataType: "completed", TideJWT, modelSig}` or `{ok: false, message}` */
  datatype ContinueReply = Completed(tideJwt: string, modelSig: Option<string>) | ContinueFailed(message: Error)

  /** `Bytes2Hex(SHA256_Digest(username.toLowerCase()))` */
  function UserId(p: Primitives, username: string): string
  {
    p.hex(Sha256Text(p, p.lower(username)))
  }

  /** `HashToPoint(username.toLowerCase() + gVVK)`: the user point, bound to the vendor. */
  function UserPoint(p: Primitives, username: string, gVVK: string): Point
  {
    p.hashToPoint(p.lower(username) + gVVK)
  }

  /** What a successful `Start` keeps: the uid, the CMK orks that answered, the Convert result and gCVK. */
  datatype Started = Started(uid: string, cmkOrks: seq<OrkInfo>, convertData: CmkConvertResult, cvkPub: Point)

  /**
   * `start(username, password, gVVK)` as a value, with `Date.now()`, r1, r2
   * and the Convert round's draws as parameters: the ork list and the CMK
   * public are awaited in that order before anything else can fail.
   */
  function StartFrom(p: Primitives, net: Network, username: string, password: string, gVVK: string,
                     r1: int, r2: int, nowMs: nat, s: Session): (r: Result<Started>)
    ensures r.Success? ==> r.value.uid == UserId(p, username) && |r.value.cmkOrks| >= Threshold
    ensures r.Success? ==> net.userOrks(UserId(p, username)).Fulfilled? && net.keyPublic(UserId(p, username)).Fulfilled?
    ensures r.Success? ==>
      r == StartWith(p, net, UserId(p, username), net.userOrks(UserId(p, username)).value,
                     net.keyPublic(UserId(p, username)).value, Times(UserPoint(p, username, gVVK), r2),
                     Times(p.hashToPoint(password), r1), r1, r2, nowMs / 1000, gVVK, s)
  {
    var uid := UserId(p, username);
    var cmkOrkInfo :- Await(net.userOrks(uid));
    var cmkPub :- Await(net.keyPublic(uid));
    StartWith(p, net, uid, cmkOrkInfo, cmkPub, Times(UserPoint(p, username, gVVK), r2),
              Times(p.hashToPoint(password), r1), r1, r2, nowMs / 1000, gVVK, s)
  }

  /**
   * The rest of `start` once the CMK orks and their public are known: the
   * Convert round through the quorum filter, then the CVK public of the VUID.
   */
  function StartWith(p: Primitives, net: Network, uid: string, cmkOrkInfo: seq<OrkInfo>, cmkPub: Point,
                     gBlurUser: Point, gBlurPass: Point, r1: int, r2: int, startTime: int, gVVK: string, s: Session)
    : (r: Result<Started>)
    ensures var settled := ConvertCalls(net, cmkOrkInfo, uid, gBlurUser, gBlurPass);
      r.Success? ==>
        && r.value.uid == uid
        && r.value.cmkOrks == Survivors(cmkOrkInfo, settled) && |r.value.cmkOrks| >= Threshold
        && Success(r.value.convertData)
             == ConvertFrom(p, r.value.cmkOrks, FulfilledValues(settled), uid, r1, r2, startTime, cmkPub, gVVK, s)
        && net.keyPublic(r.value.convertData.vuid) == Fulfilled(r.value.cvkPub)
  {
    var settled := ConvertCalls(net, cmkOrkInfo, uid, gBlurUser, gBlurPass);
    var active := Survivors(cmkOrkInfo, settled);
    if |active| < Threshold then Failure(ThresholdError(settled, CmkOrksDown))
    else
      var convertData :- ConvertFrom(p, active, FulfilledValues(settled), uid, r1, r2, startTime, cmkPub, gVVK, s);
      var cvkPub :- Await(net.keyPublic(convertData.vuid));
      Success(Started(uid, active, convertData, cvkPub))
  }

  /**
   * `modelRequested` and `modelToSign` of `continue`: the config's model
   * wins over the argument, and the orks are asked for a model nonce
   * exactly when there is a model to sign.
   */
  function ModelToSign(configModel: Option<string>, argModel: Option<string>): (m: Option<string>)
    ensures m.Some? <==> !(configModel.None? && argModel.None?)
    ensures configModel.Some? ==> m == configModel
    ensures configModel.None? ==> m == argModel
  {
    if configModel.None? then argModel else configModel
  }

  /**
   * What `continue` computes once the CMK orks have signed and enough CVK
   * orks have answered: `PreSignInCVKReply`, then the SignInCVK round over
   * the same CVK orks as `dKeyAuthenticationFlow.SignInCVK` is written, with
   * its misbound reply, so it never succeeds.
   */
  function SignInFrom(p: Primitives, net: Network, active: seq<OrkInfo>, cd: CmkConvertResult, encSig: seq<string>,
                      encGRData: seq<string>, mode: string, modelToSign: Option<string>): (r: Result<SignInResult>)
    ensures r.Failure?
    ensures var o := PreSignInFrom(p, active, encSig, encGRData, cd.forPreSignIn);
      o.Success? ==>
        r == SignInCvkOverAsWritten(p, net, active, cd.vuid, cd.jwt, o.value.vlis, cd.timestamp2,
                                    cd.forPreSignIn.gRMul, o.value.reply.gCVKR, o.value.reply.S, o.value.reply.gBlindH,
                                    mode, modelToSign, o.value.reply.modelGR)
  {
    var o :- PreSignInFrom(p, active, encSig, encGRData, cd.forPreSignIn);
    SignInCvkOverAsWritten(p, net, active, cd.vuid, cd.jwt, o.vlis, cd.timestamp2, cd.forPreSignIn.gRMul,
                           o.reply.gCVKR, o.reply.S, o.reply.gBlindH, mode, modelToSign, o.reply.modelGR)
  }

  /**
   * The same step with the SignInCVK reply bound as `SignInCVKReply`
   * declares its parameters: the session token signed by the CVK orks.
   */
  function SignInFromIntended(p: Primitives, net: Network, active: seq<OrkInfo>, cd: CmkConvertResult,
                              encSig: seq<string>, encGRData: seq<string>, mode: string, modelToSign: Option<string>)
    : (r: Result<SignInResult>)
    ensures r.Success? ==>
      var o := PreSignInFrom(p, active, encSig, encGRData, cd.forPreSignIn);
      && o.Success?
      && r == SignInCvkOver(p, net, active, cd.vuid, cd.jwt, o.value.vlis, cd.timestamp2, cd.forPreSignIn.gRMul,
                            o.value.reply.gCVKR, o.value.reply.S, o.value.reply.ecdhi, o.value.reply.gBlindH, mode,
                            modelToSign, o.value.reply.modelGR)
  {
    var o :- PreSignInFrom(p, active, encSig, encGRData, cd.forPreSignIn);
    SignInCvkOver(p, net, active, cd.vuid, cd.jwt, o.vlis, cd.timestamp2, cd.forPreSignIn.gRMul, o.reply.gCVKR,
                  o.reply.S, o.reply.ecdhi, o.reply.gBlindH, mode, modelToSign, o.reply.modelGR)
  }

  function ReplyOf(r: Result<SignInResult>): (reply: ContinueReply)
    ensures reply.Completed? <==> r.Success?
    ensures r.Success? ==> reply.tideJwt == r.value.jwt && reply.modelSig == r.value.modelSig
    ensures r.Failure? ==> reply.message == r.error
  {
    match r
    case Success(v) => Completed(v.jwt, v.modelSig)
    case Failure(e) => ContinueFailed(e)
  }

  class SignIn {
    const mode: string
    const modelToSign: Option<string>
    const simulatorUrl: string
    var authFlow: KeyAuthenticationFlow?
    var convertData: Option<CmkConvertResult>
    var uid: Option<string>

    constructor(simulatorUrl: string, config: Config)
      ensures this.simulatorUrl == simulatorUrl
      ensures mode == (if config.mode.Some? then config.mode.value else DefaultMode)
      ensures modelToSign == config.modelToSign
      ensures authFlow == null && convertData.None? && uid.None?
    {
      this.simulatorUrl := simulatorUrl;
      mode := if config.mode.Some? then config.mode.value else DefaultMode;
      modelToSign := config.modelToSign;
      authFlow := null;
      convertData := None;
      uid := None;
    }

    /** `new SignIn(config)`, which throws when the config names no simulator. */
    static method Create(config: Config) returns (r: Result<SignIn>)
      ensures r.Failure? <==> config.simulatorUrl.None?
      ensures r.Failure? ==> r.error == Thrown(NoSimulatorUrl)
      ensures r.Success? ==>
        && fresh(r.value) && r.value.simulatorUrl == config.simulatorUrl.value
        && r.value.mode == (if config.mode.Some? then config.mode.value else DefaultMode)
        && r.value.modelToSign == config.modelToSign
        && r.value.authFlow == null && r.value.convertData.None? && r.value.uid.None?
    {
      if config.simulatorUrl.None? {
        return Failure(Thrown(NoSimulatorUrl));
      }
      var s := new SignIn(config.simulatorUrl.value, config);
      r := Success(s);
    }

    /**
     * `start(username, password, gVVK)`: on success the flow, the Convert
     * result and the uid are kept and the reply carries gCVK in base64 and
     * the VUID; on failure nothing is kept.
     */
    method Start(p: Primitives, net: Network, username: string, password: string, gVVK: string,
                 r1: int, r2: int, nowMs: nat, s: Session) returns (reply: StartReply)
      modifies this
      ensures var o := StartFrom(p, net, username, password, gVVK, r1, r2, nowMs, s);
        && (o.Failure? ==>
              reply == StartFailed(o.error) && authFlow == old(authFlow) && convertData == old(convertData) && uid == old(uid))
        && (o.Success? ==> Kept(p, o.value, reply) && fresh(authFlow))
    {
      var id := UserId(p, username);
      var cmkOrkInfo := Await(net.userOrks(id));
      if cmkOrkInfo.Failure? {
        return StartFailed(cmkOrkInfo.error);
      }
      var cmkPub := Await(net.keyPublic(id));
      if cmkPub.Failure? {
        return StartFailed(cmkPub.error);
      }
      var flow := new KeyAuthenticationFlow(cmkOrkInfo.value);
      var cd := flow.Convert(p, net, id, Times(UserPoint(p, username, gVVK), r2), Times(p.hashToPoint(password), r1),
                             r1, r2, nowMs / 1000, cmkPub.value, gVVK, s);
      if cd.Failure? {
        return StartFailed(cd.error);
      }
      var cvkPub := Await(net.keyPublic(cd.value.vuid));
      if cvkPub.Failure? {
        return StartFailed(cvkPub.error);
      }
      reply := UserData(PointToBase64(p, cvkPub.value), cd.value.vuid);
      Keep(flow, Started(id, flow.cmkOrks, cd.value, cvkPub.value));
    }

    /** `this.authFlow = authFlow; this.convertData = convertData; this.uid = uid` */
    method Keep(flow: KeyAuthenticationFlow, st: Started)
      modifies this
      ensures authFlow == flow && convertData == Some(st.convertData) && uid == Some(st.uid)
    {
      convertData := Some(st.convertData);
      uid := Some(st.uid);
      authFlow := flow;
    }

    /** What a successful `start` replies and keeps: a flow over the CMK orks that answered, not yet given CVK orks. */
    ghost predicate Kept(p: Primitives, st: Started, reply: StartReply)
      reads this, authFlow
    {
      && reply == UserData(PointToBase64(p, st.cvkPub), st.convertData.vuid)
      && uid == Some(st.uid) && convertData == Some(st.convertData)
      && authFlow != null
      && authFlow.cmkOrks == st.cmkOrks && authFlow.cvkOrks.None? && authFlow.threshold == Threshold
    }

    /**
     * `continue(modelToSign_p)`: without the values `start` keeps it fails.
     * Otherwise the CVK ork list is fetched for the VUID and handed to the
     * flow, the CMK orks sign and the CVK orks pre-sign through the quorum
     * filter, and the surviving CVK orks are asked to sign the session token.
     * The last step goes through `SignInCVK` as it is written, so `continue`
     * never completes: every reply is a failure.
     */
    method Continue(p: Primitives, net: Network, modelToSignArg: Option<string>) returns (reply: ContinueReply)
      modifies authFlow
      ensures reply.ContinueFailed?
      ensures old(convertData).None? || old(uid).None? || old(authFlow) == null ==>
        reply == ContinueFailed(Thrown(ValuesUndefined))
      ensures convertData.Some? && uid.Some? && authFlow != null ==>
        var cd := convertData.value;
        var vOrks := Await(net.userOrks(cd.vuid));
        && authFlow.cmkOrks == old(authFlow.cmkOrks)
        && (vOrks.Failure? ==> reply == ContinueFailed(vOrks.error) && authFlow.cvkOrks == old(authFlow.cvkOrks))
        && (vOrks.Success? ==>
              var signed := AwaitAll(AuthenticateCalls(net, authFlow.cmkOrks, uid.value, cd.decChallengei,
                                                       cd.encAuthRequests));
              var settled := PreSignInCalls(net, vOrks.value, cd.vuid, cd.gSessKeyPub,
                                            ModelToSign(modelToSign, modelToSignArg).Some?);
              var active := Survivors(vOrks.value, settled);
              && (signed.Failure? ==> reply == ContinueFailed(signed.error) && authFlow.cvkOrks == Some(vOrks.value))
              && (signed.Success? && |active| < authFlow.threshold ==>
                    reply == ContinueFailed(ThresholdError(settled, CvkOrksDown)) && authFlow.cvkOrks == Some(vOrks.value))
              && (signed.Success? && |active| >= authFlow.threshold ==>
                    && authFlow.cvkOrks == Some(active)
                    && reply == ReplyOf(SignInFrom(p, net, active, cd, signed.value, FulfilledValues(settled), mode,
                                                   ModelToSign(modelToSign, modelToSignArg)))))
    {
      if convertData.None? || uid.None? || authFlow == null {
        return ContinueFailed(Thrown(ValuesUndefined));
      }
      var cd := convertData.value;
      var model := ModelToSign(modelToSign, modelToSignArg);
      var vOrks := Await(net.userOrks(cd.vuid));
      if vOrks.Failure? {
        return ContinueFailed(vOrks.error);
      }
      authFlow.cvkOrks := Some(vOrks.value);
      var authData := authFlow.AuthenticateAndPreSignIn(p, net, uid.value, cd.vuid, cd.decChallengei,
                                                        cd.encAuthRequests, cd.gSessKeyPub, cd.forPreSignIn,
                                                        model.Some?);
      if authData.Failure? {
        return ContinueFailed(authData.error);
      }
      var o := authData.value;
      var signedIn := authFlow.SignInCvkAsWritten(p, net, cd.vuid, cd.jwt, o.vlis, cd.timestamp2,
                                                  cd.forPreSignIn.gRMul, o.reply.gCVKR, o.reply.S, o.reply.ecdhi,
                                                  o.reply.gBlindH, mode, model, o.reply.modelGR);
      reply := ReplyOf(signedIn);
    }

    /**
     * `continue(modelToSign_p)` with the SignInCVK reply bound as
     * `SignInCVKReply` declares its parameters. Without the values `start`
     * keeps it fails. Otherwise the CVK ork list is fetched for the VUID and
     * handed to the flow, the CMK orks sign and the CVK orks pre-sign through
     * the quorum filter, and the surviving CVK orks sign the session token.
     */
    method ContinueIntended(p: Primitives, net: Network, modelToSignArg: Option<string>) returns (reply: ContinueReply)
      modifies authFlow
      ensures old(convertData).None? || old(uid).None? || old(authFlow) == null ==>
        reply == ContinueFailed(Thrown(ValuesUndefined))
      ensures convertData.Some? && uid.Some? && authFlow != null ==>
        var cd := convertData.value;
        var vOrks := Await(net.userOrks(cd.vuid));
        && authFlow.cmkOrks == old(authFlow.cmkOrks)
        && (vOrks.Failure? ==> reply == ContinueFailed(vOrks.error) && authFlow.cvkOrks == old(authFlow.cvkOrks))
        && (vOrks.Success? ==>
              var signed := AwaitAll(AuthenticateCalls(net, authFlow.cmkOrks, uid.value, cd.decChallengei,
                                                       cd.encAuthRequests));
              var settled := PreSignInCalls(net, vOrks.value, cd.vuid, cd.gSessKeyPub,
                                            ModelToSign(modelToSign, modelToSignArg).Some?);
              var active := Survivors(vOrks.value, settled);
              && (signed.Failure? ==> reply == ContinueFailed(signed.error) && authFlow.cvkOrks == Some(vOrks.value))
              && (signed.Success? && |active| < authFlow.threshold ==>
                    reply == ContinueFailed(ThresholdError(settled, CvkOrksDown)) && authFlow.cvkOrks == Some(vOrks.value))
              && (signed.Success? && |active| >= authFlow.threshold ==>
                    && authFlow.cvkOrks == Some(active)
                    && reply == ReplyOf(SignInFromIntended(p, net, active, cd, signed.value, FulfilledValues(settled), mode,
                                                   ModelToSign(modelToSign, modelToSignArg)))))
    {
      if convertData.None? || uid.None? || authFlow == null {
        return ContinueFailed(Thrown(ValuesUndefined));
      }
      var cd := convertData.value;
      var model := ModelToSign(modelToSign, modelToSignArg);
      var vOrks := Await(net.userOrks(cd.vuid));
      if vOrks.Failure? {
        return ContinueFailed(vOrks.error);
      }
      authFlow.cvkOrks := Some(vOrks.value);
      var authData := authFlow.AuthenticateAndPreSignIn(p, net, uid.value, cd.vuid, cd.decChallengei,
                                                        cd.encAuthRequests, cd.gSessKeyPub, cd.forPreSignIn,
                                                        model.Some?);
      if authData.Failure? {
        return ContinueFailed(authData.error);
      }
      var o := authData.value;
      var signedIn := authFlow.SignInCvk(p, net, cd.vuid, cd.jwt, o.vlis, cd.timestamp2, cd.forPreSignIn.gRMul,
                                         o.reply.gCVKR, o.reply.S, o.reply.ecdhi, o.reply.gBlindH, mode, model,
                                         o.reply.modelGR);
      reply := ReplyOf(signedIn);
    }
  }
}
