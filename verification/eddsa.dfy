/**
 * Ed25519 signatures as the protocol code produces and checks them: `sign`
 * with a caller-supplied nonce, `sign_deterministic` with a nonce derived
 * from the key, and a cofactored `verify` that answers false instead of
 * throwing (section 5.1.6 and section 5.1.7 of RFC 8032, with the
 * departures noted on each member).
 */
module EdDsa {
  import opened Wrappers
  import opened ModArith
  import opened Curve
  import opened JsUtil
  import opened Primitives

  /** A message argument: a string, which is signed as its UTF-8 bytes, or raw bytes. */
  datatype Message = Text(text: string) | Raw(bytes: Bytes)

  /** A public key argument: base64 text read with `Point.fromB64`, or a point. */
  datatype PublicKey = Encoded(b64: string) | Decoded(point: Point)

  function MessageBytes(p: Primitives, msg: Message): Bytes
  {
    match msg
    case Text(s) => p.utf8(s)
    case Raw(b) => b
  }

  /** `Point.fromB64`, None where it throws. */
  function PublicPoint(p: Primitives, pub: PublicKey): Option<Point>
  {
    match pub
    case Decoded(q) => Some(q)
    case Encoded(s) =>
      match p.unbase64(s)
      case None => None
      case Some(b) => p.decode(b)
  }

  /** The challenge SHA512(R ‖ A ‖ msg) read as an integer, not yet reduced. */
  function Challenge(p: Primitives, r: Bytes, a: Bytes, msg: Bytes): nat
  {
    p.bigFromBytes(p.sha512(r + a + msg))
  }

  /** The scalar half of a signature by secret s with nonce r: (r + k·s) mod order, k reduced. */
  function SignScalar(p: Primitives, msg: Bytes, s: int, r: int): Point
  {
    var k := Challenge(p, p.encode(Times(G, r)), p.encode(Times(G, s)), msg) % L;
    (r + k * s) % L
  }

  /** The 64 signature bytes R ‖ S shared by both signing functions. */
  function SignatureBytes(p: Primitives, msg: Bytes, s: int, r: int): Bytes
  {
    p.encode(Times(G, r)) + p.bigToBytes(SignScalar(p, msg, s, r))
  }

  /** `sign(msg, priv)`, with the value of `RandomBigInt()` as the parameter r. */
  function Sign(p: Primitives, msg: Message, priv: int, r: int): string
  {
    p.base64(SignatureBytes(p, MessageBytes(p, msg), priv, r))
  }

  /** The secret scalar of `sign_deterministic`: the first 32 bytes of SHA512(priv), unclamped. */
  function DeterministicSecret(p: Primitives, priv: int): nat
  {
    p.bigFromBytes(Take(p.sha512(p.bigToBytes(priv)), 32))
  }

  /** The nonce of `sign_deterministic`: SHA512(last 32 bytes of SHA512(priv) ‖ msg) mod order. */
  function DeterministicNonce(p: Primitives, priv: int, msg: Bytes): Point
  {
    ScalarOf(p, p.sha512(TakeLast(p.sha512(p.bigToBytes(priv)), 32) + msg))
  }

  /** `sign_deterministic(msg, priv)` */
  function SignDeterministic(p: Primitives, msg: Message, priv: int): string
  {
    var m := MessageBytes(p, msg);
    p.base64(SignatureBytes(p, m, DeterministicSecret(p, priv), DeterministicNonce(p, priv, m)))
  }

  /**
   * `verify(sig, pub, msg)`. Every throw inside it is caught and answered
   * with false, so the result is a plain boolean. It accepts only a 64-byte
   * signature whose scalar lies strictly between 0 and the order: S == 0 is
   * refused, which section 5.1.7 of RFC 8032 allows.
   */
  function Verify(p: Primitives, sig: string, pub: PublicKey, msg: Message): (ok: bool)
    ensures ok ==> p.unbase64(sig).Some? && |p.unbase64(sig).value| == 64
    ensures ok ==> var S := p.bigFromBytes(p.unbase64(sig).value[32..]); 0 < S < L
    ensures ok ==> p.decode(p.unbase64(sig).value[..32]).Some? && PublicPoint(p, pub).Some?
  {
    match p.unbase64(sig)
    case None => false
    case Some(sb) =>
      if |sb| != 64 then false
      else
        match p.decode(sb[..32])
        case None => false
        case Some(R) =>
          var S := p.bigFromBytes(sb[32..]);
          if S <= 0 || S >= L then false
          else
            match PublicPoint(p, pub)
            case None => false
            case Some(A) =>
              var k := Challenge(p, p.encode(R), p.encode(A), MessageBytes(p, msg));
              Times(Times(G, S), 8) == Add(Times(R, 8), Times(Times(A, k), 8))
  }

  // ---------------------------------------------------------------------------
  // What verification means

  /**
   * For a signature that decodes, the cofactored check of `verify` is the
   * plain check S·g == R + k·A of the prime-order group, with k the
   * unreduced challenge.
   */
  lemma VerifyIsPlainCheck(p: Primitives, sig: string, pub: PublicKey, msg: Message,
                           sb: Bytes, R: Point, A: Point)
    requires p.unbase64(sig) == Some(sb) && |sb| == 64
    requires p.decode(sb[..32]) == Some(R) && PublicPoint(p, pub) == Some(A)
    ensures var S := p.bigFromBytes(sb[32..]);
      var k := Challenge(p, p.encode(R), p.encode(A), MessageBytes(p, msg));
      Verify(p, sig, pub, msg) <==> 0 < S < L && Times(G, S) == Add(R, Times(A, k))
  {
    var S := p.bigFromBytes(sb[32..]);
    var k := Challenge(p, p.encode(R), p.encode(A), MessageBytes(p, msg));
    if 0 < S < L {
      CofactoredEquation(S, R, Times(A, k));
    }
  }

  /** A signature R ‖ S that satisfies the plain equation verifies. */
  lemma VerifyAccepts(p: Primitives, R: Point, S: int, A: Point, msg: Message)
    requires PointCodec(p) && ScalarCodec(p) && Base64Codec(p)
    requires 0 < S < L
    requires Times(G, S) == Add(R, Times(A, Challenge(p, p.encode(R), p.encode(A), MessageBytes(p, msg))))
    ensures Verify(p, p.base64(p.encode(R) + p.bigToBytes(S)), Decoded(A), msg)
  {
    var sb := p.encode(R) + p.bigToBytes(S);
    assert p.unbase64(p.base64(sb)) == Some(sb);
    assert |p.encode(R)| == 32 && p.decode(p.encode(R)) == Some(R);
    assert |p.bigToBytes(S)| == 32 && p.bigFromBytes(p.bigToBytes(S)) == S;
    assert sb[..32] == p.encode(R) && sb[32..] == p.bigToBytes(S);
    VerifyIsPlainCheck(p, p.base64(sb), Decoded(A), msg, sb, R, A);
  }

  /** Reducing the challenge before multiplying by s gives the same point as multiplying by it unreduced. */
  lemma SigningEquation(r: int, s: int, k: int, S: int)
    requires S == (r + (k % L) * s) % L
    ensures 0 <= S < L && Times(G, S) == Add(r % L, Times(s % L, k))
  {
    var a := s % L;
    CongResidue(s, L);
    CongResidue(k, L);
    CongMul(a, s, k, k % L, L);
    var t := (a * k) % L;
    CongResidue(a * k, L);
    CongTrans(t, a * k, s * (k % L), L);
    CongResidue(r, L);
    CongAdd(r % L, r, t, (k % L) * s, L);
    var sum := r % L + t;
    CongResidue(sum, L);
    CongTrans(sum % L, sum, r + (k % L) * s, L);
    CongResidue(r + (k % L) * s, L);
    CongSym(S, r + (k % L) * s, L);
    CongTrans(sum % L, r + (k % L) * s, S, L);
    CongResidues(sum % L, S, L);
    ResidueOfPoint(S);
  }

  /** Signatures made by SignatureBytes verify under s·g, unless their scalar is 0. */
  lemma SignatureVerifies(p: Primitives, msg: Message, s: int, r: int)
    requires PointCodec(p) && ScalarCodec(p) && Base64Codec(p)
    requires SignScalar(p, MessageBytes(p, msg), s, r) != 0
    ensures Verify(p, p.base64(SignatureBytes(p, MessageBytes(p, msg), s, r)), Decoded(Times(G, s)), msg)
  {
    var m := MessageBytes(p, msg);
    var R, A := Times(G, r), Times(G, s);
    var k := Challenge(p, p.encode(R), p.encode(A), m);
    var S := SignScalar(p, m, s, r);
    assert R == r % L && A == s % L;
    SigningEquation(r, s, k, S);
    VerifyAccepts(p, R, S, A, msg);
  }

  /** `verify(sign(msg, priv), g·priv, msg)` is true whenever the produced scalar is nonzero. */
  lemma SignThenVerify(p: Primitives, msg: Message, priv: int, r: int)
    requires PointCodec(p) && ScalarCodec(p) && Base64Codec(p)
    requires SignScalar(p, MessageBytes(p, msg), priv, r) != 0
    ensures Verify(p, Sign(p, msg, priv, r), Decoded(Times(G, priv)), msg)
  {
    SignatureVerifies(p, msg, priv, r);
  }

  /**
   * A deterministic signature verifies under g times the hashed secret
   * (not under g·priv), unless its scalar is 0.
   */
  lemma SignDeterministicThenVerify(p: Primitives, msg: Message, priv: int)
    requires PointCodec(p) && ScalarCodec(p) && Base64Codec(p)
    requires var m := MessageBytes(p, msg);
      SignScalar(p, m, DeterministicSecret(p, priv), DeterministicNonce(p, priv, m)) != 0
    ensures Verify(p, SignDeterministic(p, msg, priv), Decoded(Times(G, DeterministicSecret(p, priv))), msg)
  {
    var m := MessageBytes(p, msg);
    SignatureVerifies(p, msg, DeterministicSecret(p, priv), DeterministicNonce(p, priv, m));
  }
}
