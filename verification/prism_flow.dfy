/**
 * `PrismFlow`: the password round against the CMK orks. The client blinds
 * its password point with a random r, each ork multiplies it by its share
 * of PRISM, and the client recombines the shares and removes r to obtain
 * the password point times PRISM. Hashing that point gives the scalar from
 * which each ork's `prismAuth` key is derived by Diffie–Hellman with the
 * ork's public; the client proves it holds the keys by encrypting
 * "Authenticated" under them, and each ork answers with its CVK share
 * encrypted under the same key.
 */
module PrismFlow {
  import opened Wrappers
  import opened ModArith
  import opened Curve
  import opened JsUtil
  import opened Primitives
  import opened Remote
  import opened Quorum
  import opened KeyAuthentication
  import opened KeyGenerationFlow
  import opened KeyAuthenticationFlow
  import Lagrange

  const OrksDown: string := "Orks for this account are down"

  /** The text the client encrypts to prove it derived the right keys. */
  const AuthenticatedText: string := "Authenticated"

  function ApplyPrismCalls(net: Network, orks: seq<OrkInfo>, uid: string, point: Point): seq<Settled<Point>>
  {
    seq(|orks|, i requires 0 <= i < |orks| => net.applyPrism(ApplyPrismRequest(orks[i].url, uid, point)))
  }

  function ApplyAuthDataCalls(net: Network, orks: seq<OrkInfo>, uid: string, authData: seq<string>)
    : seq<Settled<string>>
    requires |authData| == |orks|
  {
    seq(|orks|, i requires 0 <= i < |orks| => net.applyAuthData(ApplyAuthDataRequest(orks[i].url, uid, authData[i])))
  }

  /** `BigIntFromByteArray(SHA256_Digest(keyPoint.toBase64()))` */
  function PrismHash(p: Primitives, keyPoint: Point): nat
  {
    p.bigFromBytes(Sha256Text(p, PointToBase64(p, keyPoint)))
  }

  /** One `prismAuth` per ork: SHA256 of the ork's public times the hashed key point. */
  function PrismAuths(p: Primitives, orks: seq<OrkInfo>, keyPoint: Point): (keys: seq<Bytes>)
    ensures |keys| == |orks|
  {
    SharedKeys(p, OrkPublics(orks), PrismHash(p, keyPoint))
  }

  /** `encryptData("Authenticated", prismAuth)` for every key, ivs drawn by position. */
  function AuthData(p: Primitives, keys: seq<Bytes>, iv: nat -> Bytes): (data: seq<string>)
    ensures |data| == |keys|
  {
    seq(|keys|, i requires 0 <= i < |keys| => AesEncrypt(p, p.utf8(AuthenticatedText), keys[i], iv(i)))
  }

  /** `BigInt(text)`, which throws a SyntaxError on text that is not an integer. */
  function ParseShare(p: Primitives, text: string): (r: Result<int>)
    ensures r.Success? <==> p.parseBigInt(text).Some?
    ensures r.Success? ==> r.value == p.parseBigInt(text).value
  {
    match p.parseBigInt(text)
    case None => Failure(Malformed)
    case Some(v) => Success(v)
  }

  /** `decryptData(encCVK, prismAuthi[i])` for every encrypted CVK share. */
  function DecryptShares(p: Primitives, encCvks: seq<string>, keys: seq<Bytes>): (rs: seq<Result<string>>)
    requires |keys| == |encCvks|
    ensures |rs| == |encCvks|
  {
    seq(|encCvks|, i requires 0 <= i < |encCvks| => AesDecrypt(p, encCvks[i], keys[i]))
  }

  function ParseShares(p: Primitives, texts: seq<string>): (rs: seq<Result<int>>)
    ensures |rs| == |texts|
  {
    seq(|texts|, i requires 0 <= i < |texts| => ParseShare(p, texts[i]))
  }

  /** Decrypt every encrypted CVK share with its ork's key and read it as an integer. */
  function OpenShares(p: Primitives, encCvks: seq<string>, keys: seq<Bytes>): (r: Result<seq<int>>)
    requires |keys| == |encCvks|
    ensures r.Success? ==> |r.value| == |encCvks|
  {
    var texts :- All(DecryptShares(p, encCvks, keys));
    All(ParseShares(p, texts))
  }

  /**
   * `cvks.reduce((sum, next, i) => mod(sum + next * lis[i]), 0)`: reducing
   * after every step gives the Lagrange combination of the shares modulo
   * the group order.
   */
  function CombineShares(vs: seq<int>, lis: seq<int>): (cvk: int)
    requires |lis| == |vs|
    ensures 0 <= cvk < L
    ensures cvk == Dot(vs, lis) % L
  {
    if |vs| == 0 then 0
    else
      var n := |vs| - 1;
      var prev := CombineShares(vs[..n], lis[..n]);
      Lagrange.DotLast(vs, lis);
      ModAdd(Dot(vs[..n], lis[..n]), vs[n] * lis[n], L);
      ModAdd(prev, vs[n] * lis[n], L);
      ModOfResidue(Dot(vs[..n], lis[..n]), L);
      (prev + vs[n] * lis[n]) % L
  }

  /** The shares of a polynomial's values at distinct ids combine to its value at 0. */
  lemma CombineSharesReconstructs(xs: seq<int>, g: seq<int>)
    requires Lagrange.Separated(xs, L) && |xs| >= 2 && |g| <= |xs|
    ensures SecretShare.Lis(xs, L).Success?
    ensures CombineShares(Lagrange.Values(g, xs), SecretShare.Lis(xs, L).value) == Lagrange.Eval(g, 0) % L
  {
    Lagrange.Reconstruction(xs, g);
  }

  /**
   * Everything `Authenticate` does once the quorum is met, over the
   * surviving orks and their applied points.
   */
  function AuthenticateFrom(p: Primitives, net: Network, uid: string, active: seq<OrkInfo>, applied: seq<Point>,
                            random: int, iv: nat -> Bytes): (r: Result<int>)
    ensures r.Success? ==> OrkLis(active).Success? && |applied| <= |active| && ModInv(random, L).Some?
    ensures r.Success? ==> 0 <= r.value < L
  {
    var lis :- OrkLis(active);
    var keyPoint :- UnblindedSum(applied, lis, random);
    var keys := PrismAuths(p, active, keyPoint);
    var encCvks :- AwaitAll(ApplyAuthDataCalls(net, active, uid, AuthData(p, keys, iv)));
    var cvks :- OpenShares(p, encCvks, keys);
    Success(CombineShares(cvks, lis))
  }

  /** What honest CVK orks send back: ork i's share g(id), in decimal, encrypted under its key. */
  function HonestReplies(p: Primitives, active: seq<OrkInfo>, keys: seq<Bytes>, g: seq<int>, replyIv: nat -> Bytes)
    : (cts: seq<string>)
    requires |keys| == |active|
    ensures |cts| == |active|
  {
    seq(|active|, i requires 0 <= i < |active| =>
      AesEncrypt(p, p.utf8(p.decimal(Lagrange.Eval(g, active[i].id))), keys[i], replyIv(i)))
  }

  /**
   * An honest CVK ork answers the authentication data it was sent with its
   * share of the CVK encrypted under its own key.
   */
  ghost predicate HonestCvkReplies(p: Primitives, net: Network, uid: string, active: seq<OrkInfo>, keys: seq<Bytes>,
                                   authData: seq<string>, g: seq<int>, replyIv: nat -> Bytes)
    requires |keys| == |active| && |authData| == |active|
  {
    forall i :: 0 <= i < |active| ==>
      && |replyIv(i)| == 12
      && net.applyAuthData(ApplyAuthDataRequest(active[i].url, uid, authData[i]))
           == Fulfilled(HonestReplies(p, active, keys, g, replyIv)[i])
  }

  /** How `AuthenticateFrom` unfolds once each step is known to succeed. */
  lemma AuthenticateFromSteps(p: Primitives, net: Network, uid: string, active: seq<OrkInfo>, applied: seq<Point>,
                              random: int, iv: nat -> Bytes, lis: seq<int>, keyPoint: Point, encCvks: seq<string>,
                              cvks: seq<int>)
    requires OrkLis(active) == Success(lis)
    requires UnblindedSum(applied, lis, random) == Success(keyPoint)
    requires AwaitAll(ApplyAuthDataCalls(net, active, uid, AuthData(p, PrismAuths(p, active, keyPoint), iv)))
      == Success(encCvks)
    requires |encCvks| == |active| && OpenShares(p, encCvks, PrismAuths(p, active, keyPoint)) == Success(cvks)
    ensures |cvks| == |lis| && AuthenticateFrom(p, net, uid, active, applied, random, iv) == Success(CombineShares(cvks, lis))
  {
  }

  /**
   * When the orks apply their PRISM shares honestly, the key point is the
   * password point times PRISM, and when they answer with their CVK shares
   * the flow returns the CVK itself.
   */
  lemma HonestAuthenticate(p: Primitives, net: Network, uid: string, active: seq<OrkInfo>, random: int,
                           iv: nat -> Bytes, passwordPoint: Point, f: seq<int>, g: seq<int>, replyIv: nat -> Bytes)
    requires Base64Codec(p) && AesRoundTrip(p) && DecimalCodec(p)
    requires Lagrange.Separated(OrkIds(active), L) && |active| >= 2 && |f| <= |active| && |g| <= |active|
    requires ModInv(random, L).Some?
    requires var keys := PrismAuths(p, active, Times(passwordPoint, Lagrange.Eval(f, 0)));
      HonestCvkReplies(p, net, uid, active, keys, AuthData(p, keys, iv), g, replyIv)
    ensures AuthenticateFrom(p, net, uid, active,
                             Multiples(Times(passwordPoint, random), Lagrange.Values(f, OrkIds(active))), random, iv)
      == Success(Lagrange.Eval(g, 0) % L)
  {
    var xs := OrkIds(active);
    var applied := Multiples(Times(passwordPoint, random), Lagrange.Values(f, xs));
    ThresholdUnblind(passwordPoint, random, xs, f);
    var lis := OrkLis(active).value;
    var keyPoint := Times(passwordPoint, Lagrange.Eval(f, 0));
    var keys := PrismAuths(p, active, keyPoint);
    var encCvks := HonestReplies(p, active, keys, g, replyIv);
    HonestRepliesArrive(p, net, uid, active, keys, AuthData(p, keys, iv), g, replyIv);
    var shares := Lagrange.Values(g, xs);
    HonestRepliesOpen(p, active, keys, g, replyIv, xs);
    AuthenticateFromSteps(p, net, uid, active, applied, random, iv, lis, keyPoint, encCvks, shares);
    CombineSharesReconstructs(xs, g);
  }

  lemma HonestRepliesArrive(p: Primitives, net: Network, uid: string, active: seq<OrkInfo>, keys: seq<Bytes>,
                            authData: seq<string>, g: seq<int>, replyIv: nat -> Bytes)
    requires |keys| == |active| && |authData| == |active|
    requires HonestCvkReplies(p, net, uid, active, keys, authData, g, replyIv)
    ensures AwaitAll(ApplyAuthDataCalls(net, active, uid, authData)) == Success(HonestReplies(p, active, keys, g, replyIv))
  {
    AwaitAllFulfilled(ApplyAuthDataCalls(net, active, uid, authData), HonestReplies(p, active, keys, g, replyIv));
  }

  lemma HonestRepliesOpen(p: Primitives, active: seq<OrkInfo>, keys: seq<Bytes>, g: seq<int>, replyIv: nat -> Bytes,
                          xs: seq<int>)
    requires Base64Codec(p) && AesRoundTrip(p) && DecimalCodec(p)
    requires |keys| == |active| && xs == OrkIds(active) && forall i :: 0 <= i < |active| ==> |replyIv(i)| == 12
    ensures OpenShares(p, HonestReplies(p, active, keys, g, replyIv), keys) == Success(Lagrange.Values(g, xs))
  {
    OpenHonestShares(p, HonestReplies(p, active, keys, g, replyIv), keys, replyIv, Lagrange.Values(g, xs));
  }

  /** Shares encrypted under the matching keys open back to the shares. */
  lemma OpenHonestShares(p: Primitives, encCvks: seq<string>, keys: seq<Bytes>, replyIv: nat -> Bytes,
                         shares: seq<int>)
    requires Base64Codec(p) && AesRoundTrip(p) && DecimalCodec(p)
    requires |encCvks| == |keys| == |shares| && forall i :: 0 <= i < |keys| ==> |replyIv(i)| == 12
    requires forall i :: 0 <= i < |encCvks| ==> encCvks[i] == AesEncrypt(p, p.utf8(p.decimal(shares[i])), keys[i], replyIv(i))
    ensures OpenShares(p, encCvks, keys) == Success(shares)
  {
    var texts := seq(|shares|, i requires 0 <= i < |shares| => p.decimal(shares[i]));
    DecryptHonestShares(p, encCvks, keys, replyIv, texts);
    ParseDecimalShares(p, texts, shares);
  }

  lemma DecryptHonestShares(p: Primitives, encCvks: seq<string>, keys: seq<Bytes>, replyIv: nat -> Bytes,
                            texts: seq<string>)
    requires Base64Codec(p) && AesRoundTrip(p)
    requires |encCvks| == |keys| == |texts| && forall i :: 0 <= i < |keys| ==> |replyIv(i)| == 12
    requires forall i :: 0 <= i < |encCvks| ==> encCvks[i] == AesEncrypt(p, p.utf8(texts[i]), keys[i], replyIv(i))
    ensures All(DecryptShares(p, encCvks, keys)) == Success(texts)
  {
    var decrypted := DecryptShares(p, encCvks, keys);
    forall i | 0 <= i < |encCvks|
      ensures decrypted[i] == Success(texts[i])
    {
      AesWrapperRoundTrip(p, texts[i], keys[i], replyIv(i));
    }
    AllSucceed(decrypted, texts);
  }

  lemma ParseDecimalShares(p: Primitives, texts: seq<string>, shares: seq<int>)
    requires DecimalCodec(p)
    requires |texts| == |shares| && forall i :: 0 <= i < |texts| ==> texts[i] == p.decimal(shares[i])
    ensures All(ParseShares(p, texts)) == Success(shares)
  {
    var parsed := ParseShares(p, texts);
    forall i | 0 <= i < |texts|
      ensures parsed[i] == Success(shares[i])
    {
      DecimalRoundTrip(p, shares[i]);
    }
    AllSucceed(parsed, shares);
  }

  class PrismFlow {
    /** Every ork of this user: id, URL and public. */
    var orks: seq<OrkInfo>
    const threshold: nat

    constructor(orks: seq<OrkInfo>)
      ensures this.orks == orks && threshold == 3
    {
      this.orks := orks;
      threshold := 3;
    }

    /**
     * `Authenticate(uid, passwordPoint)` with the random blinding scalar and
     * the AES ivs as parameters. Too few answers: the reasoned error and no
     * change. Otherwise the ork list becomes the survivors and the CVK is
     * recovered from them.
     */
    method Authenticate(p: Primitives, net: Network, uid: string, passwordPoint: Point, random: int, iv: nat -> Bytes)
      returns (r: Result<int>)
      modifies this
      ensures var settled := ApplyPrismCalls(net, old(orks), uid, Times(passwordPoint, random));
        var active := Survivors(old(orks), settled);
        && (|active| < threshold ==> r == Failure(ThresholdError(settled, OrksDown)) && orks == old(orks))
        && (|active| >= threshold ==>
              orks == active && r == AuthenticateFrom(p, net, uid, active, FulfilledValues(settled), random, iv))
    {
      var passwordPointR := Times(passwordPoint, random);
      var settled := ApplyPrismCalls(net, orks, uid, passwordPointR);
      var active := KeepFulfilled(orks, settled);
      if |active| < threshold {
        return Failure(ThresholdError(settled, OrksDown));
      }
      orks := active;
      r := AuthenticateFrom(p, net, uid, active, FulfilledValues(settled), random, iv);
    }

    /** `GetPrismAuths(passwordPoint_R, random)`: unblind, hash, and derive one key per ork. */
    function GetPrismAuths(p: Primitives, passwordPointR: Point, random: int): (r: Result<seq<Bytes>>)
      reads this
      ensures r.Success? <==> ModInv(random, L).Some?
      ensures r.Success? ==> |r.value| == |orks|
    {
      var inv :- InverseOf(random);
      Success(PrismAuths(p, orks, Times(passwordPointR, inv)))
    }

    /** `GetGPrismAuth(passwordPoint_R, random)`: g times the hashed, unblinded key point. */
    function GetGPrismAuth(p: Primitives, passwordPointR: Point, random: int): (r: Result<Point>)
      ensures r.Success? <==> ModInv(random, L).Some?
    {
      var inv :- InverseOf(random);
      Success(Times(G, PrismHash(p, Times(passwordPointR, inv))))
    }
  }

  /**
   * Blinding with r and unblinding with its inverse cancel: both getters
   * see the key point itself.
   */
  lemma GettersUnblind(p: Primitives, flow: PrismFlow, keyPoint: Point, random: int)
    requires ModInv(random, L).Some?
    ensures flow.GetPrismAuths(p, Times(keyPoint, random), random) == Success(PrismAuths(p, flow.orks, keyPoint))
    ensures flow.GetGPrismAuth(p, Times(keyPoint, random), random) == Success(Times(G, PrismHash(p, keyPoint)))
  {
    var inv := ModInv(random, L).value;
    Unblind(keyPoint, random, inv);
  }

  /**
   * `gPrismAuth` works like a Diffie–Hellman public: ork i, holding the
   * secret behind its public, derives from it the same key the client
   * derived for it.
   */
  lemma GPrismAuthAgrees(p: Primitives, flow: PrismFlow, passwordPointR: Point, random: int, orkSecrets: seq<int>)
    requires ModInv(random, L).Some?
    requires |orkSecrets| == |flow.orks|
    requires forall i :: 0 <= i < |orkSecrets| ==> flow.orks[i].pub == Times(G, orkSecrets[i])
    ensures forall i :: 0 <= i < |orkSecrets| ==>
      flow.GetPrismAuths(p, passwordPointR, random).value[i]
        == SharedKey(p, flow.GetGPrismAuth(p, passwordPointR, random).value, orkSecrets[i])
  {
    var inv := ModInv(random, L).value;
    var k := PrismHash(p, Times(passwordPointR, inv));
    forall i | 0 <= i < |orkSecrets|
      ensures SharedKey(p, Times(G, orkSecrets[i]), k) == SharedKey(p, Times(G, k), orkSecrets[i])
    {
      SharedKeyAgrees(p, orkSecrets[i], k);
    }
  }
}
