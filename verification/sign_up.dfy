/**
 * `SignUp`: registering a user. The CMK orks generate the user's CMK and
 * PRISM for the blurred user and password points; the client unblinds what
 * they return into the VUID, the CMK auth point and the PRISM auth point;
 * the CVK orks then generate the CVK for that VUID; a test sign-in must
 * produce a token the new CVK public verifies; only then are both key sets
 * committed.
 */
module SignUp {
  import opened Wrappers
  import opened ModArith
  import opened Curve
  import opened Primitives
  import opened KeyAuthentication
  import TideJwt
  import SignIn
  import KeyGeneration

  const NoCmkOrkInfo: string := "CMK OrkInfo has not been included in config"
  const NoCvkOrkInfo: string := "CVK OrkInfo has not been included in config"
  const TestSignInFailed: string := "Test sign in failed"

  /** The page's config object: each key present or absent. */
  datatype Config = Config(cmkOrkInfo: Option<seq<OrkInfo>>, cvkOrkInfo: Option<seq<OrkInfo>>,
                           simulatorUrl: Option<string>)

  /** `{VUID, gCMKAuth, gPRISMAuth}` */
  datatype KeyPoints = KeyPoints(vuid: string, gCmkAuth: Point, gPrismAuth: Point)

  /**
   * `getKeyPoints(gMultiplied, [r1, r2], gCMK)`: gMultiplied[0] unblinded
   * by r1 is the user point times the CMK, gMultiplied[1] unblinded by r2 the
   * password point times the PRISM. A missing point throws before the
   * inverse it is multiplied by is taken.
   */
  function GetKeyPoints(p: Primitives, gMultiplied: seq<Option<Point>>, r1: int, r2: int, gCmk: Point)
    : (r: Result<KeyPoints>)
    ensures r.Success? <==>
      && |gMultiplied| >= 2 && gMultiplied[0].Some? && gMultiplied[1].Some?
      && ModInv(r1, L).Some? && ModInv(r2, L).Some?
    ensures |gMultiplied| == 0 || gMultiplied[0].None? ==> r == Failure(UndefinedValue)
    ensures |gMultiplied| > 0 && gMultiplied[0].Some? && ModInv(r1, L).None? ==> r == Failure(NotInvertible)
  {
    if |gMultiplied| == 0 || gMultiplied[0].None? then Failure(UndefinedValue)
    else
      var inv1 :- InverseOf(r1);
      var gUserCmk := Times(gMultiplied[0].value, inv1);
      if |gMultiplied| < 2 || gMultiplied[1].None? then Failure(UndefinedValue)
      else
        var inv2 :- InverseOf(r2);
        var gPassPrism := Times(gMultiplied[1].value, inv2);
        var keys := DeriveUserKeys(p, gUserCmk);
        Success(KeyPoints(keys.vuid, Times(gCmk, keys.cmkMul),
                          Times(G, p.bigFromBytes(p.sha256(p.encode(gPassPrism))))))
  }

  /**
   * When the CMK orks multiplied the blurred user point by the CMK and the
   * blurred password point by the PRISM, sign-up derives exactly the keys
   * sign-in later derives from the same user, password and secrets: the
   * VUID and CMKMul of `DeriveUserKeys`, and the PRISM auth point for the
   * scalar `PrismScalar` of the password point times the PRISM.
   */
  lemma SignUpKeysMatchSignIn(p: Primitives, gUser: Point, gPass: Point, r1: int, r2: int, cmk: int, prism: int,
                              gCmk: Point)
    requires ModInv(r1, L).Some? && ModInv(r2, L).Some?
    ensures var keys := DeriveUserKeys(p, Times(gUser, cmk));
      GetKeyPoints(p, [Some(Times(Times(gUser, r1), cmk)), Some(Times(Times(gPass, r2), prism))], r1, r2, gCmk)
        == Success(KeyPoints(keys.vuid, Times(gCmk, keys.cmkMul), Times(G, PrismScalar(p, Times(gPass, prism)))))
  {
    TimesCommute(gUser, r1, cmk);
    Unblind(Times(gUser, cmk), r1, ModInv(r1, L).value);
    TimesCommute(gPass, r2, prism);
    Unblind(Times(gPass, prism), r2, ModInv(r2, L).value);
    var k := p.bigFromBytes(p.sha256(p.encode(Times(gPass, prism))));
    CongResidue(k, L);
    TimesCong(G, k, k % L);
  }

  /** What `start` reads of a key-generation round: the multiplied points, the key's public and the joint signature. */
  datatype ShardData = ShardData(gMultiplied: seq<Option<Point>>, gK1: Point, S: int)

  /**
   * The rounds `start` runs against the orks, each as how it ends for the
   * arguments it is given: CMK generation for the uid and the two blurred
   * points, CVK generation for the VUID under the CMK auth point, the test
   * sign-in up to the `{jwt, modelSig}` reply of `SignInCVK`, and the two
   * commits.
   */
  datatype SignUpRounds = SignUpRounds(
    cmkGen: (seq<OrkInfo>, string, Point, Point) -> Result<ShardData>,
    cvkGen: (seq<OrkInfo>, string, Point) -> Result<ShardData>,
    testSignIn: (string, string, string, Point, Point) -> Result<SignInResult>,
    cmkCommit: (seq<OrkInfo>, string, int, Point) -> Result<()>,
    cvkCommit: (seq<OrkInfo>, string, int) -> Result<()>)

  /** One round `start` started, with what it was given. */
  datatype Round =
    | CmkKeyGen(uid: string, gBlurUser: Point, gBlurPass: Point)
    | CvkKeyGen(vuid: string, gCmkAuth: Point)
    | TestSignIn(cmkPub: Point, cvkPub: Point)
    | CmkCommit(uid: string, S: int, gPrismAuth: Point)
    | CvkCommit(vuid: string, S: int)

  predicate IsCommit(round: Round)
  {
    round.CmkCommit? || round.CvkCommit?
  }

  /** Whether any commit round was started. */
  predicate Committed(trace: seq<Round>)
  {
    exists k :: 0 <= k < |trace| && IsCommit(trace[k])
  }

  /** `uid`, gBlurUser = Point.fromString(lower(username) + gVVK)·r1 and gBlurPass = Point.fromString(password)·r2 */
  function BlurUser(p: Primitives, username: string, gVVK: string, r1: int): Point
  {
    Times(p.fromString(p.lower(username) + gVVK), r1)
  }

  function BlurPass(p: Primitives, password: string, r2: int): Point
  {
    Times(p.fromString(password), r2)
  }

  /** `if(!(await TideJWT.verify(jwt, cvkPub))) throw Error("Test sign in failed")` */
  function TestPassed(p: Primitives, jwt: string, cvkPub: Point): (r: Result<()>)
    ensures r.Success? <==> TideJwt.Verify(p, jwt, cvkPub) == Success(true)
    ensures TideJwt.Verify(p, jwt, cvkPub) == Success(false) ==> r == Failure(Thrown(TestSignInFailed))
  {
    var verified :- TideJwt.Verify(p, jwt, cvkPub);
    if verified then Success(()) else Failure(Thrown(TestSignInFailed))
  }

  /**
   * A key-generation round of `start` as written. `start` hands its
   * `[orkID, orkURL, orkPublic]` arrays to `dKeyGenerationFlow`, whose
   * `GenShard` reads `ork.orkID` from each: `BigInt(undefined)` throws a
   * TypeError before any request is sent. With no orks, `GenShardReply` has
   * no responses to reduce.
   */
  function ArrayOrksKeyGen(orks: seq<OrkInfo>): (r: Result<ShardData>)
    ensures r.Failure?
    ensures |orks| > 0 ==> r == Failure(UndefinedValue)
  {
    if |orks| > 0 then Failure(UndefinedValue) else Failure(KeyGeneration.GenShardReply([]).error)
  }

  /**
   * `start(username, password, gVVK)` as written, with the orks' rounds as
   * parameters: the outcome, and the rounds started in order. It never
   * succeeds (see `FromKeyPoints`).
   */
  function StartFrom(p: Primitives, rounds: SignUpRounds, cmkOrks: seq<OrkInfo>, cvkOrks: seq<OrkInfo>,
                     username: string, password: string, gVVK: string, r1: int, r2: int)
    : (out: (Result<SignInResult>, seq<Round>))
    ensures out.0.Failure?
    ensures 1 <= |out.1| <= 3
  {
    var uid := SignIn.UserId(p, username);
    var gBlurUser := BlurUser(p, username, gVVK, r1);
    var gBlurPass := BlurPass(p, password, r2);
    var cmk := rounds.cmkGen(cmkOrks, uid, gBlurUser, gBlurPass);
    if cmk.Failure? then (Failure(cmk.error), [CmkKeyGen(uid, gBlurUser, gBlurPass)])
    else
      var rest := FromKeyPoints(p, rounds, cmkOrks, cvkOrks, username, password, gVVK, uid, cmk.value,
                                GetKeyPoints(p, cmk.value.gMultiplied, r1, r2, cmk.value.gK1));
      (rest.0, [CmkKeyGen(uid, gBlurUser, gBlurPass)] + rest.1)
  }

  /**
   * `start` as written once CMK generation returned `cmk` and `getKeyPoints`
   * ended in `kp`: CVK generation, then the test sign-in. `testSignIn` binds
   * the whole `{jwt, modelSig}` reply of `SignInCVK` and passes it to
   * `TideJWT.verify`, which calls `split` on it: an object has no `split`,
   * so a test round that yields always ends in a TypeError, "Test sign in
   * failed" is never thrown and the commits are never started.
   */
  function FromKeyPoints(p: Primitives, rounds: SignUpRounds, cmkOrks: seq<OrkInfo>, cvkOrks: seq<OrkInfo>,
                         username: string, password: string, gVVK: string, uid: string, cmk: ShardData,
                         kp: Result<KeyPoints>)
    : (out: (Result<SignInResult>, seq<Round>))
    ensures out.0.Failure?
    ensures |out.1| <= 2 && forall k :: 0 <= k < |out.1| ==> !IsCommit(out.1[k])
  {
    if kp.Failure? then (Failure(kp.error), [])
    else
      var t1 := [CvkKeyGen(kp.value.vuid, kp.value.gCmkAuth)];
      var cvk := rounds.cvkGen(cvkOrks, kp.value.vuid, kp.value.gCmkAuth);
      if cvk.Failure? then (Failure(cvk.error), t1)
      else
        var t2 := t1 + [TestSignIn(cmk.gK1, cvk.value.gK1)];
        var reply := rounds.testSignIn(username, password, gVVK, cmk.gK1, cvk.value.gK1);
        if reply.Failure? then (Failure(reply.error), t2)
        else (Failure(UndefinedValue), t2)
  }

  /**
   * `start` with the test round reading the token out of the reply, as
   * `SignIn.continue` does: the outcome, and the rounds started in order.
   */
  function StartFromIntended(p: Primitives, rounds: SignUpRounds, cmkOrks: seq<OrkInfo>, cvkOrks: seq<OrkInfo>,
                             username: string, password: string, gVVK: string, r1: int, r2: int)
    : (out: (Result<string>, seq<Round>))
    ensures 1 <= |out.1| <= 5
  {
    var uid := SignIn.UserId(p, username);
    var gBlurUser := BlurUser(p, username, gVVK, r1);
    var gBlurPass := BlurPass(p, password, r2);
    var cmk := rounds.cmkGen(cmkOrks, uid, gBlurUser, gBlurPass);
    if cmk.Failure? then (Failure(cmk.error), [CmkKeyGen(uid, gBlurUser, gBlurPass)])
    else
      var rest := FromKeyPointsIntended(p, rounds, cmkOrks, cvkOrks, username, password, gVVK, uid, cmk.value,
                                        GetKeyPoints(p, cmk.value.gMultiplied, r1, r2, cmk.value.gK1));
      (rest.0, [CmkKeyGen(uid, gBlurUser, gBlurPass)] + rest.1)
  }

  /**
   * The rounds after `getKeyPoints` with the token read out of the test
   * reply: CVK generation, the test sign-in and the commits. The commits are
   * both started before either is awaited, and the CMK commit's rejection
   * is the one seen when both fail.
   */
  function FromKeyPointsIntended(p: Primitives, rounds: SignUpRounds, cmkOrks: seq<OrkInfo>, cvkOrks: seq<OrkInfo>,
                                 username: string, password: string, gVVK: string, uid: string, cmk: ShardData,
                                 kp: Result<KeyPoints>)
    : (out: (Result<string>, seq<Round>))
    ensures |out.1| <= 4
  {
    if kp.Failure? then (Failure(kp.error), [])
    else
      var t1 := [CvkKeyGen(kp.value.vuid, kp.value.gCmkAuth)];
      var cvk := rounds.cvkGen(cvkOrks, kp.value.vuid, kp.value.gCmkAuth);
      if cvk.Failure? then (Failure(cvk.error), t1)
      else
        var t2 := t1 + [TestSignIn(cmk.gK1, cvk.value.gK1)];
        var reply := rounds.testSignIn(username, password, gVVK, cmk.gK1, cvk.value.gK1);
        if reply.Failure? then (Failure(reply.error), t2)
        else
          var passed := TestPassed(p, reply.value.jwt, cvk.value.gK1);
          if passed.Failure? then (Failure(passed.error), t2)
          else
            var t3 := t2 + [CmkCommit(uid, cmk.S, kp.value.gPrismAuth), CvkCommit(kp.value.vuid, cvk.value.S)];
            var cmkCommitted := rounds.cmkCommit(cmkOrks, uid, cmk.S, kp.value.gPrismAuth);
            var cvkCommitted := rounds.cvkCommit(cvkOrks, kp.value.vuid, cvk.value.S);
            if cmkCommitted.Failure? then (Failure(cmkCommitted.error), t3)
            else if cvkCommitted.Failure? then (Failure(cvkCommitted.error), t3)
            else (Success(reply.value.jwt), t3)
  }

  // ---------------------------------------------------------------------------
  // Properties of `start` as written

  /** A commit in a trace that starts with a round other than a commit lies in its tail. */
  lemma CommittedTail(head: Round, rest: seq<Round>)
    requires !IsCommit(head)
    ensures Committed([head] + rest) <==> Committed(rest)
  {
    if Committed([head] + rest) {
      var k :| 0 <= k < |[head] + rest| && IsCommit(([head] + rest)[k]);
      assert IsCommit(rest[k - 1]);
    }
    if Committed(rest) {
      var k :| 0 <= k < |rest| && IsCommit(rest[k]);
      assert IsCommit(([head] + rest)[k + 1]);
    }
  }

  /** As written, `start` never commits either key set, whatever the rounds return. */
  lemma StartNeverCommits(p: Primitives, rounds: SignUpRounds, cmkOrks: seq<OrkInfo>, cvkOrks: seq<OrkInfo>,
                          username: string, password: string, gVVK: string, r1: int, r2: int)
    ensures !Committed(StartFrom(p, rounds, cmkOrks, cvkOrks, username, password, gVVK, r1, r2).1)
  {
    var trace := StartFrom(p, rounds, cmkOrks, cvkOrks, username, password, gVVK, r1, r2).1;
    var uid := SignIn.UserId(p, username);
    var head := CmkKeyGen(uid, BlurUser(p, username, gVVK, r1), BlurPass(p, password, r2));
    var cmk := rounds.cmkGen(cmkOrks, uid, BlurUser(p, username, gVVK, r1), BlurPass(p, password, r2));
    if cmk.Success? {
      var kp := GetKeyPoints(p, cmk.value.gMultiplied, r1, r2, cmk.value.gK1);
      var rest := FromKeyPoints(p, rounds, cmkOrks, cvkOrks, username, password, gVVK, uid, cmk.value, kp).1;
      assert trace == [head] + rest;
      CommittedTail(head, rest);
    } else {
      assert trace == [head];
    }
  }

  /**
   * As written, once both generations and `getKeyPoints` succeed and the
   * test round yields its reply, `start` throws a TypeError after exactly
   * the two generations and the test sign-in.
   */
  lemma TestSignInThrows(p: Primitives, rounds: SignUpRounds, cmkOrks: seq<OrkInfo>, cvkOrks: seq<OrkInfo>,
                         username: string, password: string, gVVK: string, r1: int, r2: int,
                         cmk: ShardData, kp: KeyPoints, cvk: ShardData, reply: SignInResult)
    requires rounds.cmkGen(cmkOrks, SignIn.UserId(p, username), BlurUser(p, username, gVVK, r1),
                           BlurPass(p, password, r2)) == Success(cmk)
    requires GetKeyPoints(p, cmk.gMultiplied, r1, r2, cmk.gK1) == Success(kp)
    requires rounds.cvkGen(cvkOrks, kp.vuid, kp.gCmkAuth) == Success(cvk)
    requires rounds.testSignIn(username, password, gVVK, cmk.gK1, cvk.gK1) == Success(reply)
    ensures StartFrom(p, rounds, cmkOrks, cvkOrks, username, password, gVVK, r1, r2)
      == (Failure(UndefinedValue),
          [CmkKeyGen(SignIn.UserId(p, username), BlurUser(p, username, gVVK, r1), BlurPass(p, password, r2)),
           CvkKeyGen(kp.vuid, kp.gCmkAuth), TestSignIn(cmk.gK1, cvk.gK1)])
  {
    var uid := SignIn.UserId(p, username);
    var head := CmkKeyGen(uid, BlurUser(p, username, gVVK, r1), BlurPass(p, password, r2));
    var rest := FromKeyPoints(p, rounds, cmkOrks, cvkOrks, username, password, gVVK, uid, cmk, Success(kp));
    assert rest.0 == Failure(UndefinedValue);
    assert rest.1 == [CvkKeyGen(kp.vuid, kp.gCmkAuth), TestSignIn(cmk.gK1, cvk.gK1)];
    assert StartFrom(p, rounds, cmkOrks, cvkOrks, username, password, gVVK, r1, r2) == (rest.0, [head] + rest.1);
    assert [head] + rest.1 == [head, CvkKeyGen(kp.vuid, kp.gCmkAuth), TestSignIn(cmk.gK1, cvk.gK1)];
  }

  /**
   * When the CMK round is the one `start` builds over its ork arrays,
   * sign-up stops after that round with its error, as written and with the
   * test round corrected alike; over a non-empty ork list the error is a
   * TypeError.
   */
  lemma ArrayOrksStopSignUp(p: Primitives, rounds: SignUpRounds, cmkOrks: seq<OrkInfo>, cvkOrks: seq<OrkInfo>,
                            username: string, password: string, gVVK: string, r1: int, r2: int)
    requires rounds.cmkGen(cmkOrks, SignIn.UserId(p, username), BlurUser(p, username, gVVK, r1),
                           BlurPass(p, password, r2)) == ArrayOrksKeyGen(cmkOrks)
    ensures var head := CmkKeyGen(SignIn.UserId(p, username), BlurUser(p, username, gVVK, r1),
                                  BlurPass(p, password, r2));
      && StartFrom(p, rounds, cmkOrks, cvkOrks, username, password, gVVK, r1, r2)
         == (Failure(ArrayOrksKeyGen(cmkOrks).error), [head])
      && StartFromIntended(p, rounds, cmkOrks, cvkOrks, username, password, gVVK, r1, r2)
         == (Failure(ArrayOrksKeyGen(cmkOrks).error), [head])
    ensures |cmkOrks| > 0 ==>
      StartFrom(p, rounds, cmkOrks, cvkOrks, username, password, gVVK, r1, r2).0 == Failure(UndefinedValue)
  {
  }

  /** After the CMK round, CVK generation is the first round, for the keys `getKeyPoints` returned. */
  lemma CvkGenUsesCmkKeysFrom(p: Primitives, rounds: SignUpRounds, cmkOrks: seq<OrkInfo>, cvkOrks: seq<OrkInfo>,
                              username: string, password: string, gVVK: string, uid: string, cmk: ShardData,
                              kp: Result<KeyPoints>)
    ensures var rest := FromKeyPoints(p, rounds, cmkOrks, cvkOrks, username, password, gVVK, uid, cmk, kp).1;
      forall k :: 0 <= k < |rest| && rest[k].CvkKeyGen? ==>
        k == 0 && kp.Success? && rest[k].vuid == kp.value.vuid && rest[k].gCmkAuth == kp.value.gCmkAuth
  {
  }

  /**
   * CVK generation runs strictly after CMK generation, for the VUID and
   * CMK auth point that the CMK round's multiplied points unblind to.
   */
  lemma CvkGenUsesCmkKeys(p: Primitives, rounds: SignUpRounds, cmkOrks: seq<OrkInfo>, cvkOrks: seq<OrkInfo>,
                          username: string, password: string, gVVK: string, r1: int, r2: int)
    ensures var trace := StartFrom(p, rounds, cmkOrks, cvkOrks, username, password, gVVK, r1, r2).1;
      forall k :: 0 <= k < |trace| && trace[k].CvkKeyGen? ==>
        var cmk := rounds.cmkGen(cmkOrks, SignIn.UserId(p, username), BlurUser(p, username, gVVK, r1),
                                 BlurPass(p, password, r2));
        && k == 1 && trace[0].CmkKeyGen? && cmk.Success?
        && var kp := GetKeyPoints(p, cmk.value.gMultiplied, r1, r2, cmk.value.gK1);
           kp.Success? && trace[k].vuid == kp.value.vuid && trace[k].gCmkAuth == kp.value.gCmkAuth
  {
    var uid := SignIn.UserId(p, username);
    var cmk := rounds.cmkGen(cmkOrks, uid, BlurUser(p, username, gVVK, r1), BlurPass(p, password, r2));
    if cmk.Success? {
      var kp := GetKeyPoints(p, cmk.value.gMultiplied, r1, r2, cmk.value.gK1);
      CvkGenUsesCmkKeysFrom(p, rounds, cmkOrks, cvkOrks, username, password, gVVK, uid, cmk.value, kp);
    }
  }

  // ---------------------------------------------------------------------------
  // Properties of `start` with the test round corrected

  /** After the CMK round, a commit is preceded by CVK generation and a test sign-in whose token verified. */
  lemma CommitsFollowVerifiedTestFrom(p: Primitives, rounds: SignUpRounds, cmkOrks: seq<OrkInfo>,
                                      cvkOrks: seq<OrkInfo>, username: string, password: string, gVVK: string,
                                      uid: string, cmk: ShardData, kp: Result<KeyPoints>)
    ensures var rest := FromKeyPointsIntended(p, rounds, cmkOrks, cvkOrks, username, password, gVVK, uid, cmk, kp).1;
      Committed(rest) ==>
        && kp.Success? && |rest| == 4 && rest[0].CvkKeyGen? && rest[1].TestSignIn?
        && rest[1].cmkPub == cmk.gK1 && !IsCommit(rest[0]) && !IsCommit(rest[1])
        && var reply := rounds.testSignIn(username, password, gVVK, cmk.gK1, rest[1].cvkPub);
           reply.Success? && TestPassed(p, reply.value.jwt, rest[1].cvkPub).Success?
  {
    var rest := FromKeyPointsIntended(p, rounds, cmkOrks, cvkOrks, username, password, gVVK, uid, cmk, kp).1;
    if Committed(rest) {
      var k :| 0 <= k < |rest| && IsCommit(rest[k]);
    }
  }

  /**
   * Nothing is committed unless the test sign-in produced a token that the
   * new CVK public verifies: every commit is preceded by both generation
   * rounds and the test sign-in, in that order.
   */
  lemma CommitsFollowVerifiedTest(p: Primitives, rounds: SignUpRounds, cmkOrks: seq<OrkInfo>, cvkOrks: seq<OrkInfo>,
                                  username: string, password: string, gVVK: string, r1: int, r2: int)
    ensures var trace := StartFromIntended(p, rounds, cmkOrks, cvkOrks, username, password, gVVK, r1, r2).1;
      Committed(trace) ==>
        && |trace| == 5 && trace[0].CmkKeyGen? && trace[1].CvkKeyGen? && trace[2].TestSignIn?
        && !IsCommit(trace[0]) && !IsCommit(trace[1]) && !IsCommit(trace[2])
        && var reply := rounds.testSignIn(username, password, gVVK, trace[2].cmkPub, trace[2].cvkPub);
           reply.Success? && TideJwt.Verify(p, reply.value.jwt, trace[2].cvkPub) == Success(true)
  {
    var trace := StartFromIntended(p, rounds, cmkOrks, cvkOrks, username, password, gVVK, r1, r2).1;
    var uid := SignIn.UserId(p, username);
    var cmk := rounds.cmkGen(cmkOrks, uid, BlurUser(p, username, gVVK, r1), BlurPass(p, password, r2));
    if cmk.Success? && Committed(trace) {
      var kp := GetKeyPoints(p, cmk.value.gMultiplied, r1, r2, cmk.value.gK1);
      var rest := FromKeyPointsIntended(p, rounds, cmkOrks, cvkOrks, username, password, gVVK, uid, cmk.value, kp).1;
      var head := CmkKeyGen(uid, BlurUser(p, username, gVVK, r1), BlurPass(p, password, r2));
      assert trace == [head] + rest;
      CommittedTail(head, rest);
      CommitsFollowVerifiedTestFrom(p, rounds, cmkOrks, cvkOrks, username, password, gVVK, uid, cmk.value, kp);
    }
  }

  /** A test token the CVK public does not verify fails sign-up with "Test sign in failed", before any commit. */
  lemma FailedTestCommitsNothing(p: Primitives, rounds: SignUpRounds, cmkOrks: seq<OrkInfo>, cvkOrks: seq<OrkInfo>,
                                 username: string, password: string, gVVK: string, r1: int, r2: int,
                                 cmk: ShardData, kp: KeyPoints, cvk: ShardData, reply: SignInResult)
    requires rounds.cmkGen(cmkOrks, SignIn.UserId(p, username), BlurUser(p, username, gVVK, r1),
                           BlurPass(p, password, r2)) == Success(cmk)
    requires GetKeyPoints(p, cmk.gMultiplied, r1, r2, cmk.gK1) == Success(kp)
    requires rounds.cvkGen(cvkOrks, kp.vuid, kp.gCmkAuth) == Success(cvk)
    requires rounds.testSignIn(username, password, gVVK, cmk.gK1, cvk.gK1) == Success(reply)
    requires TideJwt.Verify(p, reply.jwt, cvk.gK1) == Success(false)
    ensures var (r, trace) := StartFromIntended(p, rounds, cmkOrks, cvkOrks, username, password, gVVK, r1, r2);
      r == Failure(Thrown(TestSignInFailed)) && !Committed(trace)
  {
    var (r, trace) := StartFromIntended(p, rounds, cmkOrks, cvkOrks, username, password, gVVK, r1, r2);
    assert |trace| == 3 && !IsCommit(trace[0]) && !IsCommit(trace[1]) && !IsCommit(trace[2]);
  }

  /** After the CMK round, success means every later round succeeded and the test token verified. */
  lemma StartSucceedsFrom(p: Primitives, rounds: SignUpRounds, cmkOrks: seq<OrkInfo>, cvkOrks: seq<OrkInfo>,
                          username: string, password: string, gVVK: string, uid: string, cmk: ShardData,
                          kp: Result<KeyPoints>)
    ensures var (r, rest) := FromKeyPointsIntended(p, rounds, cmkOrks, cvkOrks, username, password, gVVK, uid, cmk, kp);
      r.Success? ==>
        && kp.Success?
        && var cvk := rounds.cvkGen(cvkOrks, kp.value.vuid, kp.value.gCmkAuth);
           && cvk.Success?
           && var reply := rounds.testSignIn(username, password, gVVK, cmk.gK1, cvk.value.gK1);
              && reply.Success? && reply.value.jwt == r.value
              && TideJwt.Verify(p, r.value, cvk.value.gK1) == Success(true)
              && rounds.cmkCommit(cmkOrks, uid, cmk.S, kp.value.gPrismAuth).Success?
              && rounds.cvkCommit(cvkOrks, kp.value.vuid, cvk.value.S).Success?
              && rest == [CvkKeyGen(kp.value.vuid, kp.value.gCmkAuth), TestSignIn(cmk.gK1, cvk.value.gK1),
                          CmkCommit(uid, cmk.S, kp.value.gPrismAuth), CvkCommit(kp.value.vuid, cvk.value.S)]
  {
  }

  /**
   * Sign-up succeeds only when every round did and the test token
   * verified; it then returns that token, after all five rounds.
   */
  lemma StartSucceeds(p: Primitives, rounds: SignUpRounds, cmkOrks: seq<OrkInfo>, cvkOrks: seq<OrkInfo>,
                      username: string, password: string, gVVK: string, r1: int, r2: int)
    ensures var (r, trace) := StartFromIntended(p, rounds, cmkOrks, cvkOrks, username, password, gVVK, r1, r2);
      var uid := SignIn.UserId(p, username);
      var cmk := rounds.cmkGen(cmkOrks, uid, BlurUser(p, username, gVVK, r1), BlurPass(p, password, r2));
      r.Success? ==>
        && cmk.Success?
        && var kp := GetKeyPoints(p, cmk.value.gMultiplied, r1, r2, cmk.value.gK1);
           && kp.Success?
           && var cvk := rounds.cvkGen(cvkOrks, kp.value.vuid, kp.value.gCmkAuth);
              && cvk.Success?
              && var reply := rounds.testSignIn(username, password, gVVK, cmk.value.gK1, cvk.value.gK1);
                 && reply.Success? && reply.value.jwt == r.value
                 && TideJwt.Verify(p, r.value, cvk.value.gK1) == Success(true)
                 && rounds.cmkCommit(cmkOrks, uid, cmk.value.S, kp.value.gPrismAuth).Success?
                 && rounds.cvkCommit(cvkOrks, kp.value.vuid, cvk.value.S).Success?
                 && trace == [CmkKeyGen(uid, BlurUser(p, username, gVVK, r1), BlurPass(p, password, r2)),
                              CvkKeyGen(kp.value.vuid, kp.value.gCmkAuth), TestSignIn(cmk.value.gK1, cvk.value.gK1),
                              CmkCommit(uid, cmk.value.S, kp.value.gPrismAuth), CvkCommit(kp.value.vuid, cvk.value.S)]
  {
    var uid := SignIn.UserId(p, username);
    var cmk := rounds.cmkGen(cmkOrks, uid, BlurUser(p, username, gVVK, r1), BlurPass(p, password, r2));
    if cmk.Success? {
      var kp := GetKeyPoints(p, cmk.value.gMultiplied, r1, r2, cmk.value.gK1);
      var head := CmkKeyGen(uid, BlurUser(p, username, gVVK, r1), BlurPass(p, password, r2));
      var rest := FromKeyPointsIntended(p, rounds, cmkOrks, cvkOrks, username, password, gVVK, uid, cmk.value, kp);
      assert StartFromIntended(p, rounds, cmkOrks, cvkOrks, username, password, gVVK, r1, r2)
        == (rest.0, [head] + rest.1);
      StartSucceedsFrom(p, rounds, cmkOrks, cvkOrks, username, password, gVVK, uid, cmk.value, kp);
    }
  }

  /**
   * Conversely, when every round succeeds and the test token verifies,
   * sign-up returns that token after all five rounds.
   */
  lemma StartSucceedsWhen(p: Primitives, rounds: SignUpRounds, cmkOrks: seq<OrkInfo>, cvkOrks: seq<OrkInfo>,
                          username: string, password: string, gVVK: string, r1: int, r2: int,
                          cmk: ShardData, kp: KeyPoints, cvk: ShardData, reply: SignInResult)
    requires rounds.cmkGen(cmkOrks, SignIn.UserId(p, username), BlurUser(p, username, gVVK, r1),
                           BlurPass(p, password, r2)) == Success(cmk)
    requires GetKeyPoints(p, cmk.gMultiplied, r1, r2, cmk.gK1) == Success(kp)
    requires rounds.cvkGen(cvkOrks, kp.vuid, kp.gCmkAuth) == Success(cvk)
    requires rounds.testSignIn(username, password, gVVK, cmk.gK1, cvk.gK1) == Success(reply)
    requires TideJwt.Verify(p, reply.jwt, cvk.gK1) == Success(true)
    requires rounds.cmkCommit(cmkOrks, SignIn.UserId(p, username), cmk.S, kp.gPrismAuth).Success?
    requires rounds.cvkCommit(cvkOrks, kp.vuid, cvk.S).Success?
    ensures var (r, trace) := StartFromIntended(p, rounds, cmkOrks, cvkOrks, username, password, gVVK, r1, r2);
      r == Success(reply.jwt) && |trace| == 5 && trace[3].CmkCommit? && trace[4].CvkCommit?
  {
  }

  /**
   * Wherever the corrected `start` signs the user up, the `start` as
   * written throws a TypeError at the test sign-in instead, after the same
   * first three rounds.
   */
  lemma TestSignInDiverges(p: Primitives, rounds: SignUpRounds, cmkOrks: seq<OrkInfo>, cvkOrks: seq<OrkInfo>,
                           username: string, password: string, gVVK: string, r1: int, r2: int)
    requires StartFromIntended(p, rounds, cmkOrks, cvkOrks, username, password, gVVK, r1, r2).0.Success?
    ensures var written := StartFrom(p, rounds, cmkOrks, cvkOrks, username, password, gVVK, r1, r2);
      var intended := StartFromIntended(p, rounds, cmkOrks, cvkOrks, username, password, gVVK, r1, r2);
      written.0 == Failure(UndefinedValue) && written.1 == intended.1[..3]
  {
    StartSucceeds(p, rounds, cmkOrks, cvkOrks, username, password, gVVK, r1, r2);
    var uid := SignIn.UserId(p, username);
    var cmk := rounds.cmkGen(cmkOrks, uid, BlurUser(p, username, gVVK, r1), BlurPass(p, password, r2)).value;
    var kp := GetKeyPoints(p, cmk.gMultiplied, r1, r2, cmk.gK1).value;
    var cvk := rounds.cvkGen(cvkOrks, kp.vuid, kp.gCmkAuth).value;
    var reply := rounds.testSignIn(username, password, gVVK, cmk.gK1, cvk.gK1).value;
    TestSignInThrows(p, rounds, cmkOrks, cvkOrks, username, password, gVVK, r1, r2, cmk, kp, cvk, reply);
  }

  class SignUp {
    const cmkOrkInfo: seq<OrkInfo>
    const cvkOrkInfo: seq<OrkInfo>
    const simulatorUrl: string

    constructor(cmkOrkInfo: seq<OrkInfo>, cvkOrkInfo: seq<OrkInfo>, simulatorUrl: string)
      ensures this.cmkOrkInfo == cmkOrkInfo && this.cvkOrkInfo == cvkOrkInfo && this.simulatorUrl == simulatorUrl
    {
      this.cmkOrkInfo := cmkOrkInfo;
      this.cvkOrkInfo := cvkOrkInfo;
      this.simulatorUrl := simulatorUrl;
    }

    /** `new SignUp(config)`: each missing key throws its own error, checked in the order CMK orks, CVK orks, simulator. */
    static method Create(config: Config) returns (r: Result<SignUp>)
      ensures config.cmkOrkInfo.None? ==> r == Failure(Thrown(NoCmkOrkInfo))
      ensures config.cmkOrkInfo.Some? && config.cvkOrkInfo.None? ==> r == Failure(Thrown(NoCvkOrkInfo))
      ensures config.cmkOrkInfo.Some? && config.cvkOrkInfo.Some? && config.simulatorUrl.None? ==>
        r == Failure(Thrown(SignIn.NoSimulatorUrl))
      ensures r.Success? <==> config.cmkOrkInfo.Some? && config.cvkOrkInfo.Some? && config.simulatorUrl.Some?
      ensures r.Success? ==>
        && fresh(r.value)
        && r.value.cmkOrkInfo == config.cmkOrkInfo.value && r.value.cvkOrkInfo == config.cvkOrkInfo.value
        && r.value.simulatorUrl == config.simulatorUrl.value
    {
      if config.cmkOrkInfo.None? {
        return Failure(Thrown(NoCmkOrkInfo));
      }
      if config.cvkOrkInfo.None? {
        return Failure(Thrown(NoCvkOrkInfo));
      }
      if config.simulatorUrl.None? {
        return Failure(Thrown(SignIn.NoSimulatorUrl));
      }
      var s := new SignUp(config.cmkOrkInfo.value, config.cvkOrkInfo.value, config.simulatorUrl.value);
      r := Success(s);
    }

    /**
     * `start(username, password, gVVK)` as written: the rounds in order,
     * stopping at the first that throws; `trace` is the rounds started.
     */
    method Start(p: Primitives, rounds: SignUpRounds, username: string, password: string, gVVK: string,
                 r1: int, r2: int) returns (r: Result<SignInResult>, trace: seq<Round>)
      ensures r.Failure? && !Committed(trace)
      ensures (r, trace) == StartFrom(p, rounds, cmkOrkInfo, cvkOrkInfo, username, password, gVVK, r1, r2)
    {
      var uid := SignIn.UserId(p, username);
      var gBlurUser := BlurUser(p, username, gVVK, r1);
      var gBlurPass := BlurPass(p, password, r2);
      trace := [CmkKeyGen(uid, gBlurUser, gBlurPass)];
      var cmk := rounds.cmkGen(cmkOrkInfo, uid, gBlurUser, gBlurPass);
      if cmk.Failure? {
        StartNeverCommits(p, rounds, cmkOrkInfo, cvkOrkInfo, username, password, gVVK, r1, r2);
        return Failure(cmk.error), trace;
      }
      var kp := GetKeyPoints(p, cmk.value.gMultiplied, r1, r2, cmk.value.gK1);
      var rest;
      r, rest := StartFromKeyPoints(p, rounds, username, password, gVVK, uid, cmk.value, kp);
      trace := trace + rest;
      StartNeverCommits(p, rounds, cmkOrkInfo, cvkOrkInfo, username, password, gVVK, r1, r2);
    }

    /**
     * The rounds of `start` after `getKeyPoints`, as written: a test round
     * that yields its reply ends in the TypeError of verifying the object.
     */
    method StartFromKeyPoints(p: Primitives, rounds: SignUpRounds, username: string, password: string, gVVK: string,
                              uid: string, cmk: ShardData, kp: Result<KeyPoints>)
      returns (r: Result<SignInResult>, trace: seq<Round>)
      ensures r.Failure?
      ensures (r, trace) == FromKeyPoints(p, rounds, cmkOrkInfo, cvkOrkInfo, username, password, gVVK, uid, cmk, kp)
    {
      if kp.Failure? {
        return Failure(kp.error), [];
      }
      trace := [CvkKeyGen(kp.value.vuid, kp.value.gCmkAuth)];
      var cvk := rounds.cvkGen(cvkOrkInfo, kp.value.vuid, kp.value.gCmkAuth);
      if cvk.Failure? {
        return Failure(cvk.error), trace;
      }
      trace := trace + [TestSignIn(cmk.gK1, cvk.value.gK1)];
      var reply := rounds.testSignIn(username, password, gVVK, cmk.gK1, cvk.value.gK1);
      if reply.Failure? {
        return Failure(reply.error), trace;
      }
      r := Failure(UndefinedValue);
    }

    /** `start` with the test round reading the token out of the reply. */
    method StartIntended(p: Primitives, rounds: SignUpRounds, username: string, password: string, gVVK: string,
                         r1: int, r2: int) returns (r: Result<string>, trace: seq<Round>)
      ensures (r, trace) == StartFromIntended(p, rounds, cmkOrkInfo, cvkOrkInfo, username, password, gVVK, r1, r2)
    {
      var uid := SignIn.UserId(p, username);
      var gBlurUser := BlurUser(p, username, gVVK, r1);
      var gBlurPass := BlurPass(p, password, r2);
      trace := [CmkKeyGen(uid, gBlurUser, gBlurPass)];
      var cmk := rounds.cmkGen(cmkOrkInfo, uid, gBlurUser, gBlurPass);
      if cmk.Failure? {
        return Failure(cmk.error), trace;
      }
      var kp := GetKeyPoints(p, cmk.value.gMultiplied, r1, r2, cmk.value.gK1);
      var rest;
      r, rest := StartFromKeyPointsIntended(p, rounds, username, password, gVVK, uid, cmk.value, kp);
      trace := trace + rest;
    }

    /** The rounds after `getKeyPoints` with the token read out of the test reply, stopping at the first that throws. */
    method StartFromKeyPointsIntended(p: Primitives, rounds: SignUpRounds, username: string, password: string,
                                      gVVK: string, uid: string, cmk: ShardData, kp: Result<KeyPoints>)
      returns (r: Result<string>, trace: seq<Round>)
      ensures (r, trace)
        == FromKeyPointsIntended(p, rounds, cmkOrkInfo, cvkOrkInfo, username, password, gVVK, uid, cmk, kp)
    {
      if kp.Failure? {
        return Failure(kp.error), [];
      }
      trace := [CvkKeyGen(kp.value.vuid, kp.value.gCmkAuth)];
      var cvk := rounds.cvkGen(cvkOrkInfo, kp.value.vuid, kp.value.gCmkAuth);
      if cvk.Failure? {
        return Failure(cvk.error), trace;
      }
      trace := trace + [TestSignIn(cmk.gK1, cvk.value.gK1)];
      var reply := rounds.testSignIn(username, password, gVVK, cmk.gK1, cvk.value.gK1);
      if reply.Failure? {
        return Failure(reply.error), trace;
      }
      var passed := TestPassed(p, reply.value.jwt, cvk.value.gK1);
      if passed.Failure? {
        return Failure(passed.error), trace;
      }
      trace := trace + [CmkCommit(uid, cmk.S, kp.value.gPrismAuth), CvkCommit(kp.value.vuid, cvk.value.S)];
      var cmkCommitted := rounds.cmkCommit(cmkOrkInfo, uid, cmk.S, kp.value.gPrismAuth);
      var cvkCommitted := rounds.cvkCommit(cvkOrkInfo, kp.value.vuid, cvk.value.S);
      if cmkCommitted.Failure? {
        return Failure(cmkCommitted.error), trace;
      }
      if cvkCommitted.Failure? {
        return Failure(cvkCommitted.error), trace;
      }
      r := Success(reply.value.jwt);
    }
  }
}
