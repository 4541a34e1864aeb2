/**
 * `dChangePassFlow`: changing a user's password re-randomises the CMK orks'
 * PRISM shares. The client first authenticates with the old password
 * (`Authenticate`), then has the orks generate new PRISM shares for the new
 * password and sign the result (`ChangePrism`), and finally tells them to
 * keep the new shares (`CommitPrism`).
 */
module ChangePassFlow {
  import opened Wrappers
  import opened ModArith
  import opened Curve
  import opened Primitives
  import opened Remote
  import opened Quorum
  import opened KeyAuthentication
  import opened KeyGeneration
  import opened KeyGenerationFlow
  import opened KeyAuthenticationFlow

  const NoSavedState: string := "No saved state"

  /** The key type the new PRISM shares are signed and committed under. */
  const PrismKeyType: string := "Prism"

  /** `PrismConvert(uid, gBlurPass, true)` sent to every ork, with the reply type left open. */
  function PrismConvertCalls<T>(prismConvert: PrismConvertRequest -> Settled<T>, orks: seq<OrkInfo>, uid: string,
                                gBlurPass: Point): (calls: seq<Settled<T>>)
    ensures |calls| == |orks|
    ensures forall i :: 0 <= i < |orks| ==> calls[i] == prismConvert(PrismConvertRequest(orks[i].url, uid, gBlurPass))
  {
    seq(|orks|, i requires 0 <= i < |orks| => prismConvert(PrismConvertRequest(orks[i].url, uid, gBlurPass)))
  }

  /**
   * The decrypted challenges, computed over the surviving orks: their
   * Lagrange coefficients, their publics, and their replies in order.
   */
  function ChallengesFrom<T>(getDecryptedChallenge: (seq<T>, seq<int>, seq<Point>, int) -> Result<seq<string>>,
                             active: seq<OrkInfo>, responses: seq<T>, r1: int): (r: Result<seq<string>>)
    ensures OrkLis(active).Failure? ==> r == Failure(OrkLis(active).error)
    ensures OrkLis(active).Success? ==> r == getDecryptedChallenge(responses, OrkLis(active).value, OrkPublics(active), r1)
  {
    var lis :- OrkLis(active);
    getDecryptedChallenge(responses, lis, OrkPublics(active), r1)
  }

  /**
   * `gMultiplied[0].times(mod_inv(r2))` hashed into `g·SHA256(gNewPassPRISM)`:
   * the public the orks will check the new password's prismAuth against. A
   * missing or null first point throws before the inverse is taken.
   */
  function NewPrismAuth(p: Primitives, gMultiplied: seq<Option<Point>>, r2: int): (r: Result<Point>)
    ensures r.Success? <==> |gMultiplied| > 0 && gMultiplied[0].Some? && ModInv(r2, L).Some?
  {
    if |gMultiplied| == 0 || gMultiplied[0].None? then Failure(UndefinedValue)
    else
      var inv :- InverseOf(r2);
      var gNewPassPrism := Times(gMultiplied[0].value, inv);
      Success(Times(G, p.bigFromBytes(p.sha256(p.encode(gNewPassPrism)))))
  }

  /**
   * When the first multiplied point is the blurred new password point
   * g_newPass·r2 times the new PRISM, the auth point is g times the scalar
   * that sign-in derives from g_newPass·PRISM (`PrismScalar`): the orks'
   * prismAuth keys for the new password agree with what sign-in computes.
   */
  lemma NewPrismAuthMatchesSignIn(p: Primitives, gNewPass: Point, r2: int, prism: int, rest: seq<Option<Point>>)
    requires ModInv(r2, L).Some?
    ensures NewPrismAuth(p, [Some(Times(Times(gNewPass, r2), prism))] + rest, r2)
      == Success(Times(G, PrismScalar(p, Times(gNewPass, prism))))
  {
    var inv := ModInv(r2, L).value;
    TimesCommute(gNewPass, r2, prism);
    Unblind(Times(gNewPass, prism), r2, inv);
    var k := p.bigFromBytes(p.sha256(p.encode(Times(gNewPass, prism))));
    CongResidue(k, L);
    TimesCong(G, k, k % L);
  }

  /**
   * `ChangePrism` up to the saved state: new shares for the blurred new
   * password, its auth point, and the orks' joint signature over them.
   */
  function ChangePrismFrom(p: Primitives, net: Network, orks: seq<OrkInfo>, uid: string, gBlurNewPass: Point, r2: int,
                           decryptedChallenges: seq<string>): (r: Result<int>)
    ensures r.Success? ==>
      var flow := KeyGenFlow(orks);
      var data := flow.UpdateShard(net, uid, decryptedChallenges, gBlurNewPass);
      && data.Success?
      && NewPrismAuth(p, data.value.gMultiplied, r2).Success?
      && r == flow.SendShard(p, net, uid, data.value.sortedShares, data.value.r2, data.value.timestamp,
                             NewPrismAuth(p, data.value.gMultiplied, r2).value, PrismKeyType, data.value.gK1)
  {
    var flow := KeyGenFlow(orks);
    var data :- flow.UpdateShard(net, uid, decryptedChallenges, gBlurNewPass);
    var auth :- NewPrismAuth(p, data.gMultiplied, r2);
    flow.SendShard(p, net, uid, data.sortedShares, data.r2, data.timestamp, auth, PrismKeyType, data.gK1)
  }

  /**
   * `ChangePrism` as written, up to the saved state. The flow holds its orks
   * as `[orkID, orkURL, orkPublic]` arrays, the form `Authenticate` indexes,
   * and hands them to `dKeyGenerationFlow`, whose `UpdateShard` reads
   * `ork.orkID` from each: an array has no such property, and
   * `BigInt(undefined)` throws a TypeError before any request is sent. With
   * no orks at all the round reaches `GenShardReply` with nothing to reduce.
   */
  function ChangePrismFromTuples(p: Primitives, net: Network, orks: seq<OrkInfo>, uid: string, gBlurNewPass: Point,
                                 r2: int, decryptedChallenges: seq<string>): (r: Result<int>)
    ensures r.Failure?
    ensures |orks| > 0 ==> r == Failure(UndefinedValue)
  {
    if |orks| > 0 then Failure(UndefinedValue)
    else
      var flow := KeyGenFlow(orks);
      assert |flow.UpdateShardCalls(net, uid, decryptedChallenges, gBlurNewPass)| == 0;
      ChangePrismFrom(p, net, orks, uid, gBlurNewPass, r2, decryptedChallenges)
  }

  /**
   * Wherever the round over ork records would produce the new PRISM
   * signature, the round as written over the arrays throws instead.
   */
  lemma ChangePrismTuplesDiverge(p: Primitives, net: Network, orks: seq<OrkInfo>, uid: string, gBlurNewPass: Point,
                                 r2: int, decryptedChallenges: seq<string>)
    requires ChangePrismFrom(p, net, orks, uid, gBlurNewPass, r2, decryptedChallenges).Success?
    ensures |orks| > 0
    ensures ChangePrismFromTuples(p, net, orks, uid, gBlurNewPass, r2, decryptedChallenges) == Failure(UndefinedValue)
  {
  }

  /** What `ChangePrism` keeps for `CommitPrism`: the joint signature and the flow that produced it. */
  datatype SavedState = SavedState(prismSig: int, genFlow: KeyGenFlow)

  class ChangePassFlow {
    var cmkOrkInfo: seq<OrkInfo>
    var savedState: Option<SavedState>
    /** Never assigned, so undefined: no reply count is ever below it. */
    const threshold: Option<nat>

    constructor(cmkOrkInfo: seq<OrkInfo>)
      ensures this.cmkOrkInfo == cmkOrkInfo && savedState.None? && threshold.None?
    {
      this.cmkOrkInfo := cmkOrkInfo;
      savedState := None;
      threshold := None;
    }

    /**
     * `Authenticate(uid, gBlurPass, r1)`: the quorum filter over the PRISM
     * convert round, then the decrypted challenges from the survivors. The
     * reply type and `GetDecryptedChallenge` are parameters.
     */
    method Authenticate<T>(prismConvert: PrismConvertRequest -> Settled<T>,
                           getDecryptedChallenge: (seq<T>, seq<int>, seq<Point>, int) -> Result<seq<string>>,
                           uid: string, gBlurPass: Point, r1: int) returns (r: Result<seq<string>>)
      modifies this
      ensures savedState == old(savedState)
      ensures var settled := PrismConvertCalls(prismConvert, old(cmkOrkInfo), uid, gBlurPass);
        var active := Survivors(old(cmkOrkInfo), settled);
        && (BelowThreshold(|active|, threshold) ==>
              r == Failure(ThresholdError(settled, CmkOrksDown)) && cmkOrkInfo == old(cmkOrkInfo))
        && (!BelowThreshold(|active|, threshold) ==>
              cmkOrkInfo == active && r == ChallengesFrom(getDecryptedChallenge, active, FulfilledValues(settled), r1))
    {
      var settled := PrismConvertCalls(prismConvert, cmkOrkInfo, uid, gBlurPass);
      var active := KeepFulfilled(cmkOrkInfo, settled);
      if BelowThreshold(|active|, threshold) {
        return Failure(ThresholdError(settled, CmkOrksDown));
      }
      cmkOrkInfo := active;
      r := ChallengesFrom(getDecryptedChallenge, active, FulfilledValues(settled), r1);
    }

    /**
     * `ChangePrism(uid, gBlurNewPass, r2, decryptedChallenges)`: the state
     * is saved only when the signature round succeeded.
     */
    method ChangePrism(p: Primitives, net: Network, uid: string, gBlurNewPass: Point, r2: int,
                       decryptedChallenges: seq<string>) returns (r: Result<()>)
      modifies this
      ensures cmkOrkInfo == old(cmkOrkInfo)
      ensures var s := ChangePrismFrom(p, net, old(cmkOrkInfo), uid, gBlurNewPass, r2, decryptedChallenges);
        && (s.Failure? ==> r == Failure(s.error) && savedState == old(savedState))
        && (s.Success? ==> r == Success(()) && savedState == Some(SavedState(s.value, KeyGenFlow(old(cmkOrkInfo)))))
    {
      var s := ChangePrismFrom(p, net, cmkOrkInfo, uid, gBlurNewPass, r2, decryptedChallenges);
      if s.Failure? {
        return Failure(s.error);
      }
      savedState := Some(SavedState(s.value, KeyGenFlow(cmkOrkInfo)));
      r := Success(());
    }

    /**
     * `ChangePrism(uid, gBlurNewPass, r2, decryptedChallenges)` as written:
     * the ork arrays make the signature round throw, so the saved state is
     * never set and `CommitPrism` keeps failing with "No saved state".
     */
    method ChangePrismAsWritten(p: Primitives, net: Network, uid: string, gBlurNewPass: Point, r2: int,
                                decryptedChallenges: seq<string>) returns (r: Result<()>)
      ensures r.Failure?
      ensures r == Failure(ChangePrismFromTuples(p, net, cmkOrkInfo, uid, gBlurNewPass, r2, decryptedChallenges).error)
    {
      var s := ChangePrismFromTuples(p, net, cmkOrkInfo, uid, gBlurNewPass, r2, decryptedChallenges);
      r := Failure(s.error);
    }

    /**
     * `CommitPrism(uid)`: without a saved state it throws; otherwise every
     * ork that took part is told to commit under the saved signature.
     */
    function CommitPrism(net: Network, uid: string): (r: Result<()>)
      reads this
      ensures savedState.None? ==> r == Failure(Thrown(NoSavedState))
      ensures savedState.Some? ==>
        var st := savedState.value;
        (r.Success? <==> forall i :: 0 <= i < |st.genFlow.orks| ==>
                           net.commit(CommitRequest(st.genFlow.orks[i].url, uid, st.prismSig, PrismKeyType)).Fulfilled?)
    {
      match savedState
      case None => Failure(Thrown(NoSavedState))
      case Some(st) => st.genFlow.Commit(net, uid, st.prismSig, PrismKeyType)
    }
  }
}
