/**
 * `dKeyGenerationFlow`: the four rounds of distributed key generation over
 * a fixed list of orks. Each round sends one request per ork, waits for
 * all of them (one rejection fails the round: there is no quorum here) and
 * hands the replies, in ork order, to the aggregation of `KeyGeneration`.
 * The ork list is never changed, so the flow is a value.
 */
module KeyGenerationFlow {
  import opened Wrappers
  import opened ModArith
  import opened Curve
  import opened Primitives
  import opened Remote
  import opened KeyGeneration

  /** `orks.map(ork => BigInt(ork.orkID))` */
  function OrkIds(orks: seq<OrkInfo>): (ids: seq<int>)
    ensures |ids| == |orks| && forall i :: 0 <= i < |orks| ==> ids[i] == orks[i].id
  {
    seq(|orks|, i requires 0 <= i < |orks| => orks[i].id)
  }

  /** `orks.map(ork => ork.orkPublic)` */
  function OrkPublics(orks: seq<OrkInfo>): (pubs: seq<Point>)
    ensures |pubs| == |orks| && forall i :: 0 <= i < |orks| ==> pubs[i] == orks[i].pub
  {
    seq(|orks|, i requires 0 <= i < |orks| => orks[i].pub)
  }

  /** `YijCipher[i]`: ork i's row of the sorted shares, undefined past the last row. */
  function Row(m: seq<seq<Option<string>>>, i: nat): (row: Option<seq<Option<string>>>)
    ensures row.Some? <==> i < |m|
    ensures row.Some? ==> row.value == m[i]
  {
    if i < |m| then Some(m[i]) else None
  }

  datatype KeyGenFlow = KeyGenFlow(orks: seq<OrkInfo>)
  {
    // -------------------------------------------------------------------------
    // GenShard: every ork is sent the same list of every ork's id

    function GenShardRequests(uid: string, numKeys: int, gMultipliers: seq<Option<Point>>)
      : (reqs: seq<GenShardRequest>)
      ensures |reqs| == |orks|
      ensures forall i :: 0 <= i < |reqs| ==> reqs[i].url == orks[i].url && reqs[i].uid == uid
      ensures forall i :: 0 <= i < |reqs| ==> reqs[i].numKeys == numKeys && reqs[i].gMultipliers == gMultipliers
      ensures forall i, j :: 0 <= i < |reqs| && 0 <= j < |reqs| ==> reqs[i].ids == reqs[j].ids
      ensures forall i, k :: 0 <= i < |reqs| && 0 <= k < |orks| ==> |reqs[i].ids| == |orks| && reqs[i].ids[k] == orks[k].id
    {
      var ids := OrkIds(orks);
      seq(|orks|, i requires 0 <= i < |orks| => GenShardRequest(orks[i].url, uid, ids, numKeys, gMultipliers))
    }

    function GenShardCalls(net: Network, uid: string, numKeys: int, gMultipliers: seq<Option<Point>>)
      : seq<Settled<GenShardResponse>>
    {
      var reqs := GenShardRequests(uid, numKeys, gMultipliers);
      seq(|reqs|, i requires 0 <= i < |reqs| => net.genShard(reqs[i]))
    }

    /** `GenShard(uid, numKeys, gMultipliers)` */
    function GenShard(net: Network, uid: string, numKeys: int, gMultipliers: seq<Option<Point>>)
      : (r: Result<GenShardResult>)
      ensures var calls := GenShardCalls(net, uid, numKeys, gMultipliers);
        && ((exists i :: 0 <= i < |calls| && calls[i].Rejected?) ==> r.Failure?)
        && (r.Success? ==> AwaitAll(calls).Success? && r == GenShardReply(AwaitAll(calls).value))
    {
      var responses :- AwaitAll(GenShardCalls(net, uid, numKeys, gMultipliers));
      GenShardReply(responses)
    }

    /**
     * When every ork answers with its multiples of the agreed points and
     * its own public and nonce points, the round yields the joint key: the
     * points multiplied by the sum of the orks' secrets.
     */
    lemma GenShardYieldsJointKey(net: Network, uid: string, numKeys: int, gMultipliers: seq<Option<Point>>,
                                 rs: seq<GenShardResponse>, ks: seq<int>, k1s: seq<int>, nonces: seq<int>)
      requires |orks| > 0 && |rs| == |orks| && |ks| == |rs| && |k1s| == |rs| && |nonces| == |rs|
      requires forall i :: 0 <= i < |orks| ==>
        net.genShard(GenShardRequests(uid, numKeys, gMultipliers)[i]) == Fulfilled(rs[i])
      requires MultipliedBy(rs, gMultipliers, ks)
      requires forall j :: 0 <= j < |rs| ==> rs[j].gK1 == Times(G, k1s[j]) && rs[j].gR == Times(G, nonces[j])
      ensures var r := GenShard(net, uid, numKeys, gMultipliers);
        && r.Success?
        && r.value.gMultiplied == MultipliedPoints(gMultipliers, IntSum(ks))
        && r.value.gK1 == Times(G, IntSum(k1s)) && r.value.r2 == Times(G, IntSum(nonces))
    {
      AwaitAllFulfilled(GenShardCalls(net, uid, numKeys, gMultipliers), rs);
      GenShardJointKey(rs, gMultipliers, ks, k1s, nonces);
    }

    // -------------------------------------------------------------------------
    // UpdateShard: ork i is sent the i-th decrypted challenge

    function UpdateShardRequests(uid: string, decryptedChallenges: seq<string>, gMultiplier: Point)
      : (reqs: seq<UpdateShardRequest>)
      ensures |reqs| == |orks|
      ensures forall i :: 0 <= i < |reqs| ==> reqs[i].url == orks[i].url && reqs[i].uid == uid
      ensures forall i :: 0 <= i < |reqs| ==> reqs[i].ids == OrkIds(orks) && reqs[i].gMultiplier == gMultiplier
      ensures forall i :: 0 <= i < |reqs| ==>
        (reqs[i].decryptedChallenge.Some? <==> i < |decryptedChallenges|)
        && (i < |decryptedChallenges| ==> reqs[i].decryptedChallenge == Some(decryptedChallenges[i]))
    {
      var ids := OrkIds(orks);
      seq(|orks|, i requires 0 <= i < |orks| =>
        UpdateShardRequest(orks[i].url, uid, ids, Cell(decryptedChallenges, i), gMultiplier))
    }

    function UpdateShardCalls(net: Network, uid: string, decryptedChallenges: seq<string>, gMultiplier: Point)
      : seq<Settled<GenShardResponse>>
    {
      var reqs := UpdateShardRequests(uid, decryptedChallenges, gMultiplier);
      seq(|reqs|, i requires 0 <= i < |reqs| => net.updateShard(reqs[i]))
    }

    /** `UpdateShard(uid, decryptedChallenges, gMultiplier)` */
    function UpdateShard(net: Network, uid: string, decryptedChallenges: seq<string>, gMultiplier: Point)
      : (r: Result<GenShardResult>)
      ensures var calls := UpdateShardCalls(net, uid, decryptedChallenges, gMultiplier);
        && ((exists i :: 0 <= i < |calls| && calls[i].Rejected?) ==> r.Failure?)
        && (r.Success? ==> AwaitAll(calls).Success? && r == GenShardReply(AwaitAll(calls).value))
    {
      var responses :- AwaitAll(UpdateShardCalls(net, uid, decryptedChallenges, gMultiplier));
      GenShardReply(responses)
    }

    /**
     * `UpdateShard` as written. It hands the single point `gMultiplier` to
     * `NodeClient.UpdateShard`, which maps over its `gMultipliers` argument
     * as a list of points: a point has no `map`, so every call rejects with
     * a TypeError before anything is sent. With no orks, `GenShardReply` has
     * no responses to reduce. (`UpdateShard` above sends the point as the
     * one-element list `[gMultiplier]`.)
     */
    function UpdateShardAsWritten(uid: string, decryptedChallenges: seq<string>, gMultiplier: Point)
      : (r: Result<GenShardResult>)
      ensures r.Failure?
      ensures |orks| > 0 ==> r == Failure(UndefinedValue)
    {
      var calls: seq<Settled<GenShardResponse>> := seq(|orks|, i => Rejected(UndefinedValue));
      var responses :- AwaitAll(calls);
      GenShardReply(responses)
    }

    /** Wherever the round with the point sent as a list succeeds, the round as written throws instead. */
    lemma UpdateShardAsWrittenDiverges(net: Network, uid: string, decryptedChallenges: seq<string>, gMultiplier: Point)
      requires UpdateShard(net, uid, decryptedChallenges, gMultiplier).Success?
      ensures |orks| > 0
      ensures UpdateShardAsWritten(uid, decryptedChallenges, gMultiplier) == Failure(UndefinedValue)
    {
      var calls := UpdateShardCalls(net, uid, decryptedChallenges, gMultiplier);
      assert |calls| == |orks|;
    }

    // -------------------------------------------------------------------------
    // SendShard: ork i is sent row i of the sorted shares

    function SendShardRequests(uid: string, yijCipher: seq<seq<Option<string>>>, R2: Point, auth: Point,
                               keyType: string): (reqs: seq<SendShardRequest>)
      ensures |reqs| == |orks|
      ensures forall i :: 0 <= i < |reqs| ==> reqs[i].url == orks[i].url && reqs[i].uid == uid
      ensures forall i :: 0 <= i < |reqs| ==> reqs[i].R2 == R2 && reqs[i].auth == auth && reqs[i].keyType == keyType
      ensures forall i :: 0 <= i < |reqs| ==>
        (reqs[i].shares.Some? <==> i < |yijCipher|) && (i < |yijCipher| ==> reqs[i].shares == Some(yijCipher[i]))
    {
      seq(|orks|, i requires 0 <= i < |orks| => SendShardRequest(orks[i].url, uid, Row(yijCipher, i), R2, auth, keyType))
    }

    function SendShardCalls(net: Network, uid: string, yijCipher: seq<seq<Option<string>>>, R2: Point, auth: Point,
                            keyType: string): seq<Settled<SendShardResponse>>
    {
      var reqs := SendShardRequests(uid, yijCipher, R2, auth, keyType);
      seq(|reqs|, i requires 0 <= i < |reqs| => net.sendShard(reqs[i]))
    }

    /**
     * `SendShard(uid, YijCipher, R2, timestamp, auth, keyType, gK1)`: the
     * replies are checked against the ork publics in the same order as the
     * requests went out.
     */
    function SendShard(p: Primitives, net: Network, uid: string, yijCipher: seq<seq<Option<string>>>, R2: Point,
                       timestamp: int, auth: Point, keyType: string, gK1: Point): (r: Result<int>)
      ensures var calls := SendShardCalls(net, uid, yijCipher, R2, auth, keyType);
        && ((exists i :: 0 <= i < |calls| && calls[i].Rejected?) ==> r.Failure?)
        && (r.Success? ==>
              AwaitAll(calls).Success? && r == SendShardReply(p, uid, AwaitAll(calls).value, OrkPublics(orks), timestamp, R2, gK1))
    {
      var responses :- AwaitAll(SendShardCalls(net, uid, yijCipher, R2, auth, keyType));
      SendShardReply(p, uid, responses, OrkPublics(orks), timestamp, R2, gK1)
    }

    /**
     * When every ork answers with its partial signature over its own public
     * key, nonce and key point, the round succeeds with the sum of the
     * partial signatures.
     */
    lemma HonestSendShardSucceeds(p: Primitives, net: Network, uid: string, yijCipher: seq<seq<Option<string>>>,
                                  auth: Point, keyType: string, timestamp: int, rs: seq<SendShardResponse>,
                                  gRs: seq<Point>, gK1s: seq<Point>, H: Point)
      requires |orks| > 0 && |rs| == |orks| && |gRs| == |orks| && |gK1s| == |orks|
      requires forall i :: 0 <= i < |orks| ==>
        net.sendShard(SendShardRequests(uid, yijCipher, Sum(gRs), auth, keyType)[i]) == Fulfilled(rs[i])
      requires H == KeyChallenge(p, uid, timestamp, Add(Sum(OrkPublics(orks)), Sum(gRs)), Sum(gK1s))
      requires HonestShardSignatures(rs, OrkPublics(orks), gRs, gK1s, H)
      ensures SendShard(p, net, uid, yijCipher, Sum(gRs), timestamp, auth, keyType, Sum(gK1s))
        == Success(IntSum(PartialSignatures(rs)) % L)
    {
      SendShardFromReplies(p, net, uid, yijCipher, Sum(gRs), timestamp, auth, keyType, Sum(gK1s), rs);
      HonestSendShardPasses(p, uid, rs, OrkPublics(orks), gRs, gK1s, timestamp, H);
    }

    /** When every ork's call fulfilled, the round is the aggregation of the replies. */
    lemma SendShardFromReplies(p: Primitives, net: Network, uid: string, yijCipher: seq<seq<Option<string>>>,
                               R2: Point, timestamp: int, auth: Point, keyType: string, gK1: Point,
                               rs: seq<SendShardResponse>)
      requires |rs| == |orks|
      requires forall i :: 0 <= i < |orks| ==>
        net.sendShard(SendShardRequests(uid, yijCipher, R2, auth, keyType)[i]) == Fulfilled(rs[i])
      ensures SendShard(p, net, uid, yijCipher, R2, timestamp, auth, keyType, gK1)
        == SendShardReply(p, uid, rs, OrkPublics(orks), timestamp, R2, gK1)
    {
      AwaitAllFulfilled(SendShardCalls(net, uid, yijCipher, R2, auth, keyType), rs);
    }

    // -------------------------------------------------------------------------
    // Commit: every ork is sent the same signature and key type

    function CommitRequests(uid: string, S: int, keyType: string): (reqs: seq<CommitRequest>)
      ensures |reqs| == |orks|
      ensures forall i :: 0 <= i < |reqs| ==> reqs[i] == CommitRequest(orks[i].url, uid, S, keyType)
    {
      seq(|orks|, i requires 0 <= i < |orks| => CommitRequest(orks[i].url, uid, S, keyType))
    }

    /**
     * `Commit(uid, S, keyType)`: succeeds exactly when no ork's call is
     * rejected, whatever text the orks reply with.
     */
    function Commit(net: Network, uid: string, S: int, keyType: string): (r: Result<()>)
      ensures r.Success? <==> forall i :: 0 <= i < |orks| ==> net.commit(CommitRequest(orks[i].url, uid, S, keyType)).Fulfilled?
      ensures r.Failure? ==> exists i :: 0 <= i < |orks| && net.commit(CommitRequest(orks[i].url, uid, S, keyType)) == Rejected(r.error)
    {
      var reqs := CommitRequests(uid, S, keyType);
      var calls := seq(|reqs|, i requires 0 <= i < |reqs| => CommitCall(net, reqs[i]));
      assert forall i :: 0 <= i < |orks| ==> calls[i] == CommitCall(net, CommitRequest(orks[i].url, uid, S, keyType));
      var _ :- AwaitAll(calls);
      Success(())
    }
  }
}
