/**
 * The session token: a JWS compact serialisation (section 7.1 of RFC 7515)
 * of a fixed EdDSA header and a small JSON payload, each segment in
 * base64url (section 5 of RFC 4648), with the signature added as a third
 * segment once the threshold signature is assembled.
 */
module TideJwt {
  import opened Wrappers
  import opened ModArith
  import opened Curve
  import opened JsUtil
  import opened Primitives
  import EdDsa

  /** One segment: the base64url text of the UTF-8 bytes of a JSON text. */
  function Segment(p: Primitives, json: string): string
  {
    p.toUrl(p.base64(p.utf8(json)))
  }

  /** The payload object, with the expiry `floor(now / 1000) + minutes·60` in seconds. */
  function Payload(p: Primitives, uid: string, minutesToExpiry: int, gSessKeyPub: Point, gVVK: string, nowMs: nat)
    : (pl: JwtPayload)
    ensures pl.uid == uid && pl.gVVK == gVVK && pl.gSessKeyPub == PointToBase64(p, gSessKeyPub)
    ensures pl.exp * 1000 <= nowMs + minutesToExpiry * 60000 < pl.exp * 1000 + 1000
  {
    JwtPayload(uid, nowMs / 1000 + minutesToExpiry * 60, PointToBase64(p, gSessKeyPub), gVVK)
  }

  /** `TideJWT.new(uid, minutesToExpiry, gSessKeyPub, gVVK)`, with `Date.now()` as the parameter nowMs. */
  function New(p: Primitives, uid: string, minutesToExpiry: int, gSessKeyPub: Point, gVVK: string, nowMs: nat): string
  {
    Segment(p, HeaderJson) + "." + Segment(p, p.payloadJson(Payload(p, uid, minutesToExpiry, gSessKeyPub, gVVK, nowMs)))
  }

  /** `TideJWT.getUID(jwt)`: the `uid` of the second segment's JSON, None where it is undefined. */
  function GetUid(p: Primitives, jwt: string): Result<Option<string>>
  {
    var parts := Split(jwt, '.');
    if |parts| < 2 then Failure(UndefinedValue)
    else
      match p.unbase64(p.fromUrl(parts[1]))
      case None => Failure(Malformed)
      case Some(bytes) =>
        match p.parseUid(p.latin1(bytes))
        case None => Failure(Malformed)
        case Some(uid) => Success(uid)
  }

  /** The third segment: base64url of R ‖ S. */
  function SignatureSegment(p: Primitives, S: int, R: Point): string
  {
    p.toUrl(p.base64(p.encode(R) + p.bigToBytes(S)))
  }

  /** `TideJWT.addSignature(jwt, S, R)`: the token is kept whole, followed by "." and the signature. */
  function AddSignature(p: Primitives, jwt: string, S: int, R: Point): (signed: string)
    ensures |signed| > |jwt| && signed[..|jwt|] == jwt && signed[|jwt|] == '.'
  {
    jwt + "." + SignatureSegment(p, S, R)
  }

  /**
   * `TideJWT.verify(jwt, pub)`: EdDSA verification of the third segment over
   * the bytes of the first two joined by "."; a token with fewer than three
   * segments makes `base64UrlToBase64(undefined)` throw.
   */
  function Verify(p: Primitives, jwt: string, pub: Point): (r: Result<bool>)
    ensures r.Failure? <==> |Split(jwt, '.')| < 3
  {
    var parts := Split(jwt, '.');
    if |parts| < 3 then Failure(UndefinedValue)
    else
      var data := p.utf8(parts[0] + "." + parts[1]);
      Success(EdDsa.Verify(p, p.fromUrl(parts[2]), EdDsa.Decoded(pub), EdDsa.Raw(data)))
  }

  // ---------------------------------------------------------------------------
  // Properties

  /** A new token has exactly two segments, the header and the payload. */
  lemma NewSegments(p: Primitives, uid: string, minutesToExpiry: int, gSessKeyPub: Point, gVVK: string, nowMs: nat)
    requires Base64UrlCodec(p)
    ensures var pl := Payload(p, uid, minutesToExpiry, gSessKeyPub, gVVK, nowMs);
      Split(New(p, uid, minutesToExpiry, gSessKeyPub, gVVK, nowMs), '.')
        == [Segment(p, HeaderJson), Segment(p, p.payloadJson(pl))]
  {
    var pl := Payload(p, uid, minutesToExpiry, gSessKeyPub, gVVK, nowMs);
    var h, b := Segment(p, HeaderJson), Segment(p, p.payloadJson(pl));
    assert '.' !in h && '.' !in b;
    SplitAround(h, b, '.');
    SplitWithoutSeparator(h, '.');
    SplitWithoutSeparator(b, '.');
  }

  /** Reading the uid back from a new token gives the uid it was made with. */
  lemma GetUidOfNew(p: Primitives, uid: string, minutesToExpiry: int, gSessKeyPub: Point, gVVK: string, nowMs: nat)
    requires Base64Codec(p) && Base64UrlCodec(p) && AsciiLatin1(p) && PayloadCodec(p)
    requires IsAscii(uid) && IsAscii(gVVK)
    ensures GetUid(p, New(p, uid, minutesToExpiry, gSessKeyPub, gVVK, nowMs)) == Success(Some(uid))
  {
    var pl := Payload(p, uid, minutesToExpiry, gSessKeyPub, gVVK, nowMs);
    var json := p.payloadJson(pl);
    NewSegments(p, uid, minutesToExpiry, gSessKeyPub, gVVK, nowMs);
    assert p.fromUrl(Segment(p, json)) == p.base64(p.utf8(json));
    assert p.unbase64(p.base64(p.utf8(json))) == Some(p.utf8(json));
    assert IsAscii(pl.gSessKeyPub);
    assert IsAscii(json);
    assert p.latin1(p.utf8(json)) == json;
  }

  /** A token with two segments, once signed, splits into those two and the signature. */
  lemma SignedSegments(p: Primitives, jwt: string, S: int, R: Point)
    requires Base64UrlCodec(p) && |Split(jwt, '.')| == 2
    ensures Split(AddSignature(p, jwt, S, R), '.') == Split(jwt, '.') + [SignatureSegment(p, S, R)]
  {
    var sig := SignatureSegment(p, S, R);
    assert '.' !in sig;
    SplitAround(jwt, sig, '.');
    SplitWithoutSeparator(sig, '.');
  }

  /**
   * Verifying a signed two-segment token checks the signature over exactly
   * the unsigned token's bytes.
   */
  lemma VerifySignedChecksUnsigned(p: Primitives, jwt: string, S: int, R: Point, pub: Point)
    requires Base64UrlCodec(p) && |Split(jwt, '.')| == 2
    ensures Verify(p, AddSignature(p, jwt, S, R), pub)
      == Success(EdDsa.Verify(p, p.base64(p.encode(R) + p.bigToBytes(S)), EdDsa.Decoded(pub), EdDsa.Raw(p.utf8(jwt))))
  {
    var parts := Split(jwt, '.');
    SignedSegments(p, jwt, S, R);
    SplitThenJoin(jwt, '.');
    assert Join(parts, '.') == parts[0] + "." + parts[1];
    assert p.fromUrl(SignatureSegment(p, S, R)) == p.base64(p.encode(R) + p.bigToBytes(S));
  }

  /**
   * A new token signed with (R, S) satisfying the EdDSA equation over the
   * token's bytes verifies under the signing key.
   */
  lemma SignedNewVerifies(p: Primitives, uid: string, minutesToExpiry: int, gSessKeyPub: Point, gVVK: string,
                          nowMs: nat, S: int, R: Point, A: Point)
    requires PointCodec(p) && ScalarCodec(p) && Base64Codec(p) && Base64UrlCodec(p)
    requires 0 < S < L
    requires var msg := p.utf8(New(p, uid, minutesToExpiry, gSessKeyPub, gVVK, nowMs));
      Times(G, S) == Add(R, Times(A, EdDsa.Challenge(p, p.encode(R), p.encode(A), msg)))
    ensures Verify(p, AddSignature(p, New(p, uid, minutesToExpiry, gSessKeyPub, gVVK, nowMs), S, R), A) == Success(true)
  {
    var jwt := New(p, uid, minutesToExpiry, gSessKeyPub, gVVK, nowMs);
    NewSegments(p, uid, minutesToExpiry, gSessKeyPub, gVVK, nowMs);
    VerifySignedChecksUnsigned(p, jwt, S, R, A);
    EdDsa.VerifyAccepts(p, R, S, A, EdDsa.Raw(p.utf8(jwt)));
  }
}
