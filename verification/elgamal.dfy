/**
 * `ElGamal.encryptData`: a hashed ElGamal encryption of a short secret to a
 * public point. The ciphertext is c1 = encode(g·r) followed by c2, where c2
 * masks the secret with SHA256(encode(pub·r)): a version byte, a length byte
 * and 32 masked bytes for secrets up to 32 bytes, the AES-GCM wrapper keyed
 * by the same digest for longer ones.
 */
module ElGamal {
  import opened Wrappers
  import opened ModArith
  import opened Curve
  import opened JsUtil
  import opened Primitives

  /** The key both branches use: SHA256 of the encoded shared point pub·r. */
  function Mask(p: Primitives, shared: Point): Bytes
  {
    p.sha256(p.encode(shared))
  }

  /**
   * The second half: `[0] ‖ [len] ‖ (PadRight(secret, 32) XOR mask)` for a
   * secret of at most 32 bytes, else the bytes of the AES wrapper's base64
   * output (which `base64ToBytes` may refuse), with the random iv as a
   * parameter.
   */
  function C2(p: Primitives, secret: Bytes, shared: Point, iv: Bytes): Result<Bytes>
  {
    if |secret| <= 32 then
      Success([0 as bv8, |secret| as bv8] + Xor(PadRight(secret, 32), Mask(p, shared)))
    else
      match p.unbase64(AesEncrypt(p, secret, Mask(p, shared), iv))
      case None => Failure(Malformed)
      case Some(b) => Success(b)
  }

  /** `ElGamal.encryptData(secretData, publicKey)` with the values of `RandomBigInt()` and of the AES iv as parameters. */
  function EncryptData(p: Primitives, secret: Bytes, pub: Point, r: int, iv: Bytes): Result<string>
  {
    var c2 :- C2(p, secret, Times(pub, r), iv);
    Success(p.base64(p.encode(Times(G, r)) + c2))
  }

  /**
   * What the holder of the private key does with a short ciphertext: read c1,
   * recompute the mask from c1·priv, unmask and keep `length` bytes. Not part
   * of the client; it is the reference the short format is checked against.
   */
  function OpenShort(p: Primitives, data: Bytes, priv: int): Option<Bytes>
  {
    if |data| != 66 || data[32] != 0 || data[33] > 32 then None
    else
      match p.decode(data[..32])
      case None => None
      case Some(c1) => Some(Take(Xor(data[34..], Mask(p, Times(c1, priv))), data[33] as nat))
  }

  // ---------------------------------------------------------------------------
  // Properties

  /**
   * A secret of at most 32 bytes gives 66 bytes: c1, the version byte 0, the
   * length byte and the 32 masked bytes.
   */
  lemma ShortLayout(p: Primitives, secret: Bytes, pub: Point, r: int, iv: Bytes)
    requires PointCodec(p) && DigestLengths(p) && Base64Codec(p)
    requires |secret| <= 32
    ensures EncryptData(p, secret, pub, r, iv).Success?
    ensures var data := p.unbase64(EncryptData(p, secret, pub, r, iv).value);
      && data.Some? && |data.value| == 66
      && data.value[..32] == p.encode(Times(G, r))
      && data.value[32] == 0 && data.value[33] as int == |secret|
      && data.value[34..] == Xor(PadRight(secret, 32), Mask(p, Times(pub, r)))
  {
    var c1 := p.encode(Times(G, r));
    var c2 := C2(p, secret, Times(pub, r), iv).value;
    assert |c1| == 32;
    assert |Mask(p, Times(pub, r))| == 32;
    var data := c1 + c2;
    assert p.unbase64(p.base64(data)) == Some(data);
    assert data[..32] == c1 && data[32] == c2[0] && data[33] == c2[1] && data[34..] == c2[2..];
  }

  /** A longer secret is sealed with AES-GCM under the same mask, behind c1. */
  lemma LongLayout(p: Primitives, secret: Bytes, pub: Point, r: int, iv: Bytes)
    requires PointCodec(p) && Base64Codec(p)
    requires |secret| > 32
    ensures EncryptData(p, secret, pub, r, iv).Success?
    ensures p.unbase64(EncryptData(p, secret, pub, r, iv).value)
      == Some(p.encode(Times(G, r)) + iv + p.aesSeal(Mask(p, Times(pub, r)), iv, secret))
  {
    var sealed := iv + p.aesSeal(Mask(p, Times(pub, r)), iv, secret);
    assert p.unbase64(p.base64(sealed)) == Some(sealed);
    assert C2(p, secret, Times(pub, r), iv) == Success(sealed);
    var data := p.encode(Times(G, r)) + sealed;
    assert p.unbase64(p.base64(data)) == Some(data);
    assert data == p.encode(Times(G, r)) + iv + p.aesSeal(Mask(p, Times(pub, r)), iv, secret);
  }

  /** The holder of priv recovers every secret of at most 32 bytes sent to g·priv. */
  lemma OpenShortRecovers(p: Primitives, secret: Bytes, priv: int, r: int, iv: Bytes)
    requires PointCodec(p) && DigestLengths(p) && Base64Codec(p)
    requires |secret| <= 32
    ensures EncryptData(p, secret, Times(G, priv), r, iv).Success?
    ensures OpenShort(p, p.unbase64(EncryptData(p, secret, Times(G, priv), r, iv).value).value, priv) == Some(secret)
  {
    var pub := Times(G, priv);
    ShortLayout(p, secret, pub, r, iv);
    var data := p.unbase64(EncryptData(p, secret, pub, r, iv).value).value;
    assert p.decode(data[..32]) == Some(Times(G, r));
    TimesCommute(G, priv, r);
    var mask := Mask(p, Times(pub, r));
    assert Mask(p, Times(Times(G, r), priv)) == mask;
    XorTwice(PadRight(secret, 32), mask);
  }
}
