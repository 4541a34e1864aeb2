/**
 * What the protocol code takes from libraries outside this model: hashes,
 * the point encoding, integer/byte conversions, text and base64 encodings,
 * AES-GCM and the JSON (de)serialisers of its messages. None of them is
 * modelled bit for bit; each is a total function in a `Primitives` record
 * that every operation receives, and the few facts the proofs need about them
 * are predicates on that record that only the round-trip lemmas require.
 */
module Primitives {
  import opened Wrappers
  import opened ModArith
  import opened Curve
  import opened JsUtil

  // ---------------------------------------------------------------------------
  // Messages (the Models classes, with JSON.parse and Point.fromB64 abstracted)

  /** One ork's public record `[orkID, orkURL, orkPublic]`, the id already a BigInt. */
  datatype OrkInfo = OrkInfo(id: int, url: string, pub: Point)

  datatype ConvertResponse = ConvertResponse(encryptedData: string, gBlurPassPrism: Point, timestamp: int)
  datatype EncryptedConvertResponse = EncryptedConvertResponse(challenge: string, gBlurUserCmk: Point, gCmkR: Point)
  datatype AuthenticateResponse = AuthenticateResponse(si: int, gBlindH: Point)
  datatype PreSignInResponse = PreSignInResponse(gR1: Point, gR2: Option<Point>)
  datatype SignInResponse = SignInResponse(s1: int, s2: Option<int>)
  datatype GenShardResponse = GenShardResponse(
    yijCiphers: seq<string>, gR: Point, timestamp: int, gMultiplied: seq<Option<Point>>, gK1: Point)
  datatype SendShardResponse = SendShardResponse(si: int)

  /** The payload object of a JWT before `JSON.stringify`. */
  datatype JwtPayload = JwtPayload(uid: string, exp: int, gSessKeyPub: string, gVVK: string)

  // ---------------------------------------------------------------------------
  // The primitives

  datatype Primitives = Primitives(
    sha256: Bytes -> Bytes,                       // SHA256_Digest
    sha512: Bytes -> Bytes,                       // SHA512_Digest
    encode: Point -> Bytes,                       // Point.toArray / compress
    decode: Bytes -> Option<Point>,               // Point.from, None where it throws
    bigFromBytes: Bytes -> nat,                   // BigIntFromByteArray
    bigToBytes: int -> Bytes,                     // BigIntToByteArray
    utf8: string -> Bytes,                        // StringToUint8Array / TextEncoder
    utf8Decode: Bytes -> string,                  // TextDecoder
    latin1: Bytes -> string,                      // the byte-to-character step of atob
    base64: Bytes -> string,                      // bytesToBase64
    unbase64: string -> Option<Bytes>,            // base64ToBytes, None where it throws
    toUrl: string -> string,                      // base64ToBase64Url
    fromUrl: string -> string,                    // base64UrlToBase64
    hex: Bytes -> string,                         // Bytes2Hex
    decimal: int -> string,                       // BigInt.prototype.toString
    parseBigInt: string -> Option<int>,           // BigInt(text), None where it throws
    lower: string -> string,                      // String.prototype.toLowerCase
    hashToPoint: string -> Point,                 // HashToPoint
    fromString: string -> Point,                  // Point.fromString
    aesSeal: (Bytes, Bytes, Bytes) -> Bytes,      // AES-GCM encryption (key, iv, plaintext)
    aesOpen: (Bytes, Bytes, Bytes) -> Option<Bytes>, // AES-GCM decryption, None on a bad tag
    payloadJson: JwtPayload -> string,            // JSON.stringify of a JWT payload
    parseUid: string -> Option<Option<string>>,   // JSON.parse(text).uid: None when not JSON
    authRequestJson: (string, string) -> string,  // JSON.stringify({UserId, BlurHCMKMuli})
    parseEncryptedConvert: string -> Option<EncryptedConvertResponse>,
    parseAuthenticate: string -> Option<AuthenticateResponse>,
    parsePreSignIn: string -> Option<PreSignInResponse>,
    parseSignIn: string -> Option<SignInResponse>
  )

  /** `SHA256_Digest` of a string, which hashes its UTF-8 bytes. */
  function Sha256Text(p: Primitives, s: string): Bytes
  {
    p.sha256(p.utf8(s))
  }

  /** `point.toBase64()` */
  function PointToBase64(p: Primitives, q: Point): string
  {
    p.base64(p.encode(q))
  }

  /** `mod(BigIntFromByteArray(bytes))` */
  function ScalarOf(p: Primitives, b: Bytes): Point
  {
    p.bigFromBytes(b) % L
  }

  /** The JSON text of the fixed JWT header `{alg: "EdDSA", typ: "JWT"}`. */
  const HeaderJson: string := "{\"alg\":\"EdDSA\",\"typ\":\"JWT\"}"

  // ---------------------------------------------------------------------------
  // The AES-GCM wrapper: a 12-byte iv in front of the ciphertext, all in base64

  /** `AES.encryptData(plaintext, key)` with the random iv as a parameter. */
  function AesEncrypt(p: Primitives, plaintext: Bytes, key: Bytes, iv: Bytes): string
  {
    p.base64(iv + p.aesSeal(key, iv, plaintext))
  }

  /** `AES.decryptData(data, key)`: the first 12 bytes are the iv, the rest the ciphertext. */
  function AesDecrypt(p: Primitives, data: string, key: Bytes): Result<string>
  {
    match p.unbase64(data)
    case None => Failure(Malformed)
    case Some(buf) =>
      match p.aesOpen(key, Take(buf, 12), buf[Min(12, |buf|)..])
      case None => Failure(DecryptFailed)
      case Some(plain) => Success(p.utf8Decode(plain))
  }

  // ---------------------------------------------------------------------------
  // What the proofs assume of the primitives

  ghost predicate DigestLengths(p: Primitives)
  {
    forall b :: |p.sha256(b)| == 32 && |p.sha512(b)| == 64
  }

  /** A point's encoding is 32 bytes and decodes back to the point. */
  ghost predicate PointCodec(p: Primitives)
  {
    forall q: Point :: |p.encode(q)| == 32 && p.decode(p.encode(q)) == Some(q)
  }

  /** A scalar below L is written in 32 bytes and read back unchanged. */
  ghost predicate ScalarCodec(p: Primitives)
  {
    forall n :: 0 <= n < L ==> |p.bigToBytes(n)| == 32 && p.bigFromBytes(p.bigToBytes(n)) == n
  }

  /** Base64 text decodes back to its bytes and is plain ASCII (section 4 of RFC 4648). */
  ghost predicate Base64Codec(p: Primitives)
  {
    forall b :: p.unbase64(p.base64(b)) == Some(b) && IsAscii(p.base64(b))
  }

  /** The url-safe alphabet maps back to the standard one and never contains a '.' (section 5 of RFC 4648). */
  ghost predicate Base64UrlCodec(p: Primitives)
  {
    forall b :: p.fromUrl(p.toUrl(p.base64(b))) == p.base64(b) && '.' !in p.toUrl(p.base64(b))
  }

  ghost predicate AesRoundTrip(p: Primitives)
  {
    && (forall k, iv, m :: p.aesOpen(k, iv, p.aesSeal(k, iv, m)) == Some(m))
    && (forall s :: p.utf8Decode(p.utf8(s)) == s)
  }

  predicate IsAscii(s: string)
  {
    forall i :: 0 <= i < |s| ==> s[i] < 128 as char
  }

  /** Hexadecimal text is plain ASCII. */
  ghost predicate HexAscii(p: Primitives)
  {
    forall b :: IsAscii(p.hex(b))
  }

  /** `BigInt(n.toString())` gives back n. */
  ghost predicate DecimalCodec(p: Primitives)
  {
    forall n: int :: p.parseBigInt(p.decimal(n)) == Some(n)
  }

  lemma DecimalRoundTrip(p: Primitives, n: int)
    requires DecimalCodec(p)
    ensures p.parseBigInt(p.decimal(n)) == Some(n)
  {
  }

  /** UTF-8 bytes of ASCII text read back as Latin-1 give the same text. */
  ghost predicate AsciiLatin1(p: Primitives)
  {
    forall s :: IsAscii(s) ==> p.latin1(p.utf8(s)) == s
  }

  /** The payload JSON is ASCII when its strings are, and parsing it finds the uid. */
  ghost predicate PayloadCodec(p: Primitives)
  {
    forall pl: JwtPayload ::
      && p.parseUid(p.payloadJson(pl)) == Some(Some(pl.uid))
      && (IsAscii(pl.uid) && IsAscii(pl.gSessKeyPub) && IsAscii(pl.gVVK) ==> IsAscii(p.payloadJson(pl)))
  }

  /** What the AES wrapper promises: decrypting with the same key gives back the text. */
  lemma AesWrapperRoundTrip(p: Primitives, s: string, key: Bytes, iv: Bytes)
    requires Base64Codec(p) && AesRoundTrip(p) && |iv| == 12
    ensures AesDecrypt(p, AesEncrypt(p, p.utf8(s), key, iv), key) == Success(s)
  {
    var ct := p.aesSeal(key, iv, p.utf8(s));
    var buf := iv + ct;
    assert p.unbase64(p.base64(buf)) == Some(buf);
    assert Take(buf, 12) == iv && buf[Min(12, |buf|)..] == ct;
    assert p.aesOpen(key, iv, ct) == Some(p.utf8(s));
  }
}
