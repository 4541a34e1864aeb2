# Tide threshold password authentication — client core in Dafny

This project models the client side of Tide's threshold password-authentication
protocol on Ed25519 (the `modules/TideJS` library) and proves properties of it.
A user's keys are never held by one server. They are shared among "orks", and
each ork holds a Shamir share of:

- the user's CMK, the key that turns the username into a vendor-unique id (VUID);
- the PRISM, the key that hardens the password;
- the CVK, the key that signs the session token.

The client blinds the user point and the password point with random scalars. It
then gathers the orks' multiplied points, unblinds them with modular inverses and
combines them with Lagrange coefficients. From there it:

- derives the VUID and the authentication keys;
- proves knowledge of them with a blind Schnorr signature;
- has the CVK orks sign a JWT with a threshold EdDSA signature.

Sign-up generates the CMK and CVK with a distributed key generation, tests a
sign-in, and commits. A password change re-randomises the PRISM shares.

## Representation

A curve point is represented by its discrete logarithm, a scalar in `[0, L)`,
where L = 2^252 + 27742317777372353535851937790883648493 is the group order of
section 5.1 of RFC 8032 (`Curve`). Under this representation:

- point addition is `+` modulo L;
- `times(k)` is `·k` modulo L;
- the identity is 0 and the generator `g` is 1.

Every aggregation and every verification equation of the code thereby becomes
modular integer arithmetic that the verifier checks. The cofactor-8 checks are
kept as written, and `Curve.CofactorCancels` shows that they coincide with the
plain equations.

Hashes, point and scalar encodings, base64 and base64url, hex, UTF-8, decimal
text, AES-GCM and the JSON (de)serialisers are fields of one `Primitives`
record of total functions, passed as a parameter. The round-trip lemmas state
what they assume of these functions as predicates on that record (for example
`PointCodec`, `AesRoundTrip`).

The following are parameters:

- the random draws (`RandomBigInt`);
- the clock (`Date.now`);
- the AES ivs.

Each network call is a function from a request to `Settled<T>`, that is
`Fulfilled(v)` or `Rejected(reason)`:

- `Promise.allSettled` is the sequence of settled calls in ork order;
- `Promise.all` is `Remote.AwaitAll`, which yields every value in order or the
  first rejection by index.

A thrown error is the `Failure` of a `Result` (`Wrappers`). The flows whose
objects change state are classes:

- `KeyAuthenticationFlow` (`dKeyAuthenticationFlow.js`);
- `PrismFlow` (`Prism.js`);
- `ChangePassFlow` (`dChangePassFlow.js`);
- `SignIn` and `SignUp`.

Their methods are proved against functions that state what they compute. The
pure modules are:

- `SecretShare` and `SecretShareLegacy` (the two versions of `GetLi`);
- `Lagrange` (the interpolation theorem behind the reconstruction);
- `KeyGeneration`, `KeyAuthentication`, `EdDsa`, `TideJwt` and `ElGamal`.

## Model

| member | source | states |
|---|---|---|
| `SecretShare.Others` | modules/TideJS/Math/SecretShare.js:27 | the filter removes every occurrence of xi and keeps every other id with its multiplicity |
| `SecretShare.GetLi` | modules/TideJS/Math/SecretShare.js:26-31 | throws (empty `reduce`) exactly when every id equals xi; fails exactly when some other id differs from xi by an amount with no inverse; otherwise the result is non-negative, below m for two or more factors and below L for a single factor |
| `SecretShare.GetLiFixed` | modules/TideJS/Math/SecretShare.js:26-31 | the intended coefficient: the same two failure conditions, else the product of xj·(xj−xi)^-1 over the other ids, reduced modulo m |
| `SecretShare.GetLiAtOrder` | modules/TideJS/Math/SecretShare.js:28 | with the modulus the callers pass (L), the code as written equals the intended coefficient |
| `SecretShare.GetLiSingleFactorUnreduced` | modules/TideJS/Math/SecretShare.js:28 | `GetLi(1, [1, 3], 3)` is 6, outside [0, 3), where the intended value is 0 |
| `SecretShare.GetLiOrderIndependent` | modules/TideJS/Math/SecretShare.js:27-29 | reordering the ids changes neither the coefficient nor whether and how the call fails |
| `SecretShare.Lis` | modules/TideJS/Flow/dKeyAuthenticationFlow.js:66-67 | one coefficient per id, in id order, each equal to `GetLi(id, ids)`; a failure is the failure of some id's coefficient |
| `Lagrange.Interpolation` | modules/TideJS/Math/SecretShare.js:26-31 | for ids whose differences are invertible modulo m, the interpolation weights applied to the values of any polynomial f with no more coefficients than ids give f(0) modulo m |
| `Lagrange.GetLiIsCoeff` | modules/TideJS/Math/SecretShare.js:26-31 | for two or more such ids, `GetLi(id, ids, L)` is defined and equals that id's interpolation weight reduced modulo L |
| `Lagrange.Reconstruction` | modules/TideJS/Math/SecretShare.js:26-31 | the shares f(x_i) weighted by `GetLi(x_i, xs, L)` add up to the secret f(0) modulo L |
| `SecretShareLegacy.TMod` | modules/TideJS/Tools/SecretShare.js:32 | the library's signed remainder lies strictly between −m and m and is congruent to its argument |
| `SecretShareLegacy.SignedModInv` | modules/TideJS/Tools/SecretShare.js:32 | `modInv` yields a signed inverse in (−m, m) when one exists and throws exactly when none exists |
| `SecretShareLegacy.Factors` | modules/TideJS/Tools/SecretShare.js:31-32 | the map succeeds exactly when every other id differs from xi invertibly, and each factor is congruent to xj·(xj−xi)^-1 |
| `SecretShareLegacy.BasisPoly` | modules/TideJS/Tools/SecretShare.js:30-35 | the same two failure conditions as `GetLi`; a result in [0, m) congruent to the product of the factors |
| `SecretShareLegacy.SignFix` | modules/TideJS/Tools/SecretShare.js:34 | adding m to a negative fold result moves it into [0, m) without changing it modulo m |
| `SecretShareLegacy.GetLiAgrees` | modules/TideJS/Tools/SecretShare.js:24-26 | `getLi` equals the intended `GetLiFixed` for every modulus, and equals the newer `GetLi` as written at L |
| `KeyGeneration.SortShares` | modules/TideJS/Math/KeyGeneration.js:58-67 | a transpose: one row per response, and row i, column j is response j's i-th share (undefined past the end of that response) |
| `KeyGeneration.SortSharesShortRow` | modules/TideJS/Math/KeyGeneration.js:66 | a response with fewer shares than there are responses leaves some ork an undefined share |
| `KeyGeneration.SortSharesTwice` | modules/TideJS/Math/KeyGeneration.js:58-67 | on a square matrix every share is defined and sorting twice gives the input back |
| `KeyGeneration.ColumnSum` | modules/TideJS/Math/KeyGeneration.js:18 | the per-position reduce succeeds exactly when every response has a point at that position |
| `KeyGeneration.MultipliedAt` | modules/TideJS/Math/KeyGeneration.js:18 | position i is null exactly when the first response's is null, and otherwise is the plain sum of every response's point there |
| `KeyGeneration.GenShardReply` | modules/TideJS/Math/KeyGeneration.js:12-24 | succeeds exactly on a non-empty list whose responses fill every position the first one fills; then the timestamp is the median, R2 and gK1 are the unweighted sums, gMultiplied follows the first response's nulls and the shares are transposed |
| `KeyGeneration.HonestColumn` | modules/TideJS/Math/KeyGeneration.js:18 | a position where every ork multiplied the same point b by its own k_j adds up to b·Σk_j |
| `KeyGeneration.GenShardJointKey` | modules/TideJS/Math/KeyGeneration.js:12-24 | when every ork contributes its own secrets, the reply holds each requested point times the sum of the secrets, gK1 = g·Σk1_j and R2 = g·Σnonce_j: sums, not an interpolation |
| `KeyGeneration.ReduceAdd` | modules/TideJS/Math/KeyGeneration.js:42 | the reduce without an initial value throws on an empty list and otherwise is the sum |
| `KeyGeneration.SendShardReply` | modules/TideJS/Math/KeyGeneration.js:34-52 | no ork publics: throws; otherwise succeeds exactly when S·g == R + H·gK1 and fails with "SendShard: Signature test failed" when not; S lies in [0, L) and is congruent to the sum of the partial signatures |
| `KeyGeneration.HonestSignatureSums` | modules/TideJS/Math/KeyGeneration.js:37-49 | honest partial signatures add up to an S with S·g == (Σpublics + Σnonces) + H·Σkeys |
| `KeyGeneration.HonestSendShardPasses` | modules/TideJS/Math/KeyGeneration.js:34-52 | when every ork signs honestly, the check passes and the reply is the summed S modulo L |
| `JsUtil.MedianTime` | modules/TideJS/Math/KeyGeneration.js:14 | the median exists exactly for a non-empty list |
| `JsUtil.MedianOrderIndependent` | modules/TideJS/Math/KeyGeneration.js:14 | the median depends only on the values, not on the order the orks answered in |
| `JsUtil.MedianBetween` | modules/TideJS/Math/KeyAuthentication.js:48 | the median of a non-empty list lies between its least and greatest value |
| `JsUtil.MedianOddIsElement` | modules/TideJS/Math/KeyAuthentication.js:48 | for an odd number of values the median is one of them |
| `JsUtil.Take` | modules/TideJS/Math/KeyAuthentication.js:70 | `slice(0, n)` is a prefix of length min(n, size) |
| `JsUtil.TakeLast` | modules/TideJS/Math/KeyAuthentication.js:71 | `slice(-n)` is the last min(n, size) elements |
| `JsUtil.TakeTakeLast` | modules/TideJS/Math/KeyAuthentication.js:70-71 | the two slices of a concatenation give back its two halves |
| `JsUtil.PadRight` | modules/TideJS/Tools/ElGamal.js:34 | the input followed by zero bytes up to the length; a longer input is kept whole |
| `JsUtil.Xor` | modules/TideJS/Tools/ElGamal.js:37 | byte-wise xor over the common length |
| `JsUtil.XorTwice` | modules/TideJS/Tools/ElGamal.js:37 | masking twice with the same mask gives the data back |
| `JsUtil.SplitThenJoin` | modules/TideJS/Models/TideJWT.js:65-66 | no piece contains the separator, and joining the pieces gives the string back |
| `JsUtil.JoinThenSplit` | modules/TideJS/Models/TideJWT.js:41 | splitting the join of separator-free pieces gives the pieces back |
| `Primitives.AesWrapperRoundTrip` | modules/TideJS/Tools/AES.js:66-119 | under the AES round-trip assumption, decrypting the 12-byte-iv framing with the same key gives back the text |
| `KeyAuthentication.InverseOf` | modules/TideJS/Math/KeyAuthentication.js:42 | `mod_inv` succeeds exactly when an inverse modulo L exists and returns it in [0, L) |
| `KeyAuthentication.LookupAll` | modules/TideJS/Math/KeyAuthentication.js:42 | reading `lis[i]` for every response succeeds exactly when there are enough coefficients |
| `KeyAuthentication.DecryptAll` | modules/TideJS/Math/KeyAuthentication.js:64-65 | the i-th ciphertext is opened with the i-th key; a success has one value per ciphertext |
| `KeyAuthentication.DecryptAllRoundTrip` | modules/TideJS/Math/KeyAuthentication.js:64-65 | ciphertexts sealed under the keys of the same index open to their messages |
| `KeyAuthentication.DeriveUserKeys` | modules/TideJS/Math/KeyAuthentication.js:68-71 | CMKMul is the first 32 bytes of SHA512(gUserCMK) modulo L, and the VUID the hex of its last 32 bytes |
| `KeyAuthentication.SharedKeyAgrees` | modules/TideJS/Math/KeyAuthentication.js:45 | SHA256(pub·k) for pub = g·x equals SHA256((g·k)·x): both ends derive the same key |
| `KeyAuthentication.SharedKeys` | modules/TideJS/Math/KeyAuthentication.js:130-131 | one key per ork public, in ork order |
| `KeyAuthentication.UnblindedSum` | modules/TideJS/Math/KeyAuthentication.js:42 | the weighted sum and unblinding succeed exactly when every point has a coefficient and r is invertible |
| `KeyAuthentication.ThresholdUnblind` | modules/TideJS/Math/KeyAuthentication.js:42 | when the orks return their shares of a secret times the blinded point q·r, the weighted sum unblinded by r^-1 is q times the secret |
| `KeyAuthentication.PrismConvertReply` | modules/TideJS/Math/KeyAuthentication.js:41-51 | succeeds exactly for a non-empty response list with enough coefficients and an invertible r1; one prismAuth per ork public; deltaTime is the median timestamp minus the start time |
| `KeyAuthentication.PrismAuthsAgree` | modules/TideJS/Math/KeyAuthentication.js:41-51 | with honest PRISM shares, ork i's prismAuth is the key it shares with the client through g·hash(g_pass·PRISM) |
| `KeyAuthentication.BlurHCmkMuls` | modules/TideJS/Math/KeyAuthentication.js:81 | one value per li, each in [0, L) and congruent to H·CMKMul·r4·li |
| `KeyAuthentication.AuthRequests` | modules/TideJS/Math/KeyAuthentication.js:83-88 | one request per prismAuth, succeeding exactly when each has a blurred challenge share |
| `KeyAuthentication.AuthRequestsOpen` | modules/TideJS/Math/KeyAuthentication.js:83-88 | ork i opens the i-th request with its prismAuth and finds the user id and its own share |
| `KeyAuthentication.CmkConvertReply` | modules/TideJS/Math/KeyAuthentication.js:63-103 | on success r2 and r4 were invertible and the lists long enough; one request per prismAuth and one challenge per response; gSessKeyPub = g·SessKey; the data for pre-sign-in carries the prismAuths, r4 and SessKey |
| `KeyAuthentication.CmkConvertFrom` | modules/TideJS/Math/KeyAuthentication.js:67-102 | once gUserCMK is known, succeeds exactly when r4 is invertible and every prismAuth has a coefficient; the VUID and gCMKAuth = gCMK·CMKMul come from gUserCMK |
| `KeyAuthentication.CmkConvertUnblinds` | modules/TideJS/Math/KeyAuthentication.js:67-72 | with honest CMK shares of the blurred user point, the VUID and gCMKAuth come from g_user·CMK |
| `KeyAuthentication.CmkConvertTokenUid` | modules/TideJS/Math/KeyAuthentication.js:91 | the session token's uid is the VUID |
| `KeyAuthentication.BlindSignatureIsPlain` | modules/TideJS/Math/KeyAuthentication.js:124-128 | the cofactored check is the plain equation S·g == gRMul + H·gCMKAuth + hash·gBlindH |
| `KeyAuthentication.ModelNonce` | modules/TideJS/Math/KeyAuthentication.js:136 | model_gR is present exactly when every GR2 is |
| `KeyAuthentication.PreSignInCVKReply` | modules/TideJS/Math/KeyAuthentication.js:111-139 | a success passed the blind-signature check, had an invertible r4, and its ECDH keys are SHA256(vgORKi·SessKey) in ork order |
| `KeyAuthentication.HonestBlindSignatureValid` | modules/TideJS/Math/KeyAuthentication.js:120-128 | CMK orks holding shares of CMK and answering honestly make the blind signature check pass |
| `KeyAuthentication.HonestPreSignInPasses` | modules/TideJS/Math/KeyAuthentication.js:111-139 | with honest CMK orks the step never throws "Blind signature failed"; it fails only where a CVK ork's nonce data does not open |
| `KeyAuthentication.ModelScalar` | modules/TideJS/Math/KeyAuthentication.js:154 | model_S is present exactly when every S2 is |
| `KeyAuthentication.SignInCVKReply` | modules/TideJS/Math/KeyAuthentication.js:150-158 | a success had a key and a coefficient per signature, and a model signature only with a model nonce |
| `KeyAuthentication.SignInCVKOutcome` | modules/TideJS/Math/KeyAuthentication.js:150-158 | once the signatures open, the step succeeds exactly when every ork has a coefficient and a model nonce is present or some S2 is missing; modelSig is present exactly when every S2 is |
| `KeyAuthentication.SignInToken` | modules/TideJS/Math/KeyAuthentication.js:153-157 | the returned token is the input token signed with (gCVKR, Σ S1_i·vLis[i] mod L) |
| `KeyAuthentication.TokenVerifies` | modules/TideJS/Math/KeyAuthentication.js:157 | a two-segment token signed with a scalar satisfying the Schnorr equation verifies |
| `KeyAuthentication.HonestSignInVerifies` | modules/TideJS/Math/KeyAuthentication.js:150-158 | threshold EdDSA: CVK orks holding shares of CVK and signing honestly give a token that verifies under g·CVK, unless the combined S is 0 |
| `EdDsa.Verify` | modules/TideJS/Tools/EdDSA.js:82-104 | acceptance implies a 64-byte signature, 0 < S < L, a decodable R and public; never throws |
| `EdDsa.VerifyIsPlainCheck` | modules/TideJS/Tools/EdDSA.js:88-100 | for a decodable signature, acceptance is exactly 0 < S < L and S·g == R + k·A with the unreduced challenge k |
| `EdDsa.VerifyAccepts` | modules/TideJS/Tools/EdDSA.js:82-104 | a signature R‖S satisfying the equation with 0 < S < L verifies |
| `EdDsa.SigningEquation` | modules/TideJS/Tools/EdDSA.js:68-69 | reducing the challenge before signing yields an S in [0, L) that satisfies the equation with the unreduced challenge |
| `EdDsa.SignatureVerifies` | modules/TideJS/Tools/EdDSA.js:63-72 | R‖S made from secret s verifies under g·s unless S is 0 |
| `EdDsa.SignThenVerify` | modules/TideJS/Tools/EdDSA.js:58-73 | `verify(sign(msg, priv), g·priv, msg)` holds unless the produced S is 0 |
| `EdDsa.SignDeterministicThenVerify` | modules/TideJS/Tools/EdDSA.js:30-50 | a deterministic signature verifies under g times the unclamped hashed secret, not under g·priv, unless S is 0 |
| `TideJwt.Payload` | modules/TideJS/Models/TideJWT.js:35-40 | the payload carries the uid, gVVK and gSessKeyPub in base64, and exp = floor(now/1000) + minutes·60 |
| `TideJwt.AddSignature` | modules/TideJS/Models/TideJWT.js:56-58 | the token is a prefix of the result, followed by "." |
| `TideJwt.Verify` | modules/TideJS/Models/TideJWT.js:64-69 | throws exactly for a token with fewer than three segments |
| `TideJwt.NewSegments` | modules/TideJS/Models/TideJWT.js:30-43 | a new token is exactly the header and payload segments |
| `TideJwt.GetUidOfNew` | modules/TideJS/Models/TideJWT.js:45-48 | reading the uid of a new token gives the uid it was made with |
| `TideJwt.SignedSegments` | modules/TideJS/Models/TideJWT.js:57 | a signed two-segment token splits into those two segments and the signature |
| `TideJwt.VerifySignedChecksUnsigned` | modules/TideJS/Models/TideJWT.js:64-69 | verifying a signed two-segment token checks the signature over exactly the unsigned token's bytes |
| `TideJwt.SignedNewVerifies` | modules/TideJS/Models/TideJWT.js:64-69 | a new token signed with a scalar satisfying the EdDSA equation verifies under the signing key |
| `ElGamal.ShortLayout` | modules/TideJS/Tools/ElGamal.js:29-43 | a secret of at most 32 bytes gives 66 bytes: c1 = encode(g·r), version 0, the length, and PadRight(secret, 32) xor SHA256(pub·r) |
| `ElGamal.LongLayout` | modules/TideJS/Tools/ElGamal.js:39-42 | a longer secret is AES-sealed under SHA256(pub·r) behind c1 |
| `ElGamal.OpenShortRecovers` | modules/TideJS/Tools/ElGamal.js:30-37 | the holder of priv recomputes the mask from c1·priv and recovers every short secret sent to g·priv |
| `Remote.Await` | modules/TideJS/Functions/SignIn.js:89-90 | awaiting yields the value of a fulfilled call and rethrows a rejection's reason |
| `Remote.AwaitAll` | modules/TideJS/Flow/dKeyGenerationFlow.js:44 | `Promise.all` succeeds exactly when every call fulfilled, with the values in order; a failure is some call's rejection |
| `Remote.AwaitAllFulfilled` | modules/TideJS/Flow/dKeyGenerationFlow.js:44 | when every call fulfilled, the values come back in ork order |
| `Remote.SignInCall` | modules/TideJS/Clients/NodeClient.js:131-139 | a non-default mode without a model or gR2 is rejected with "Model to sign expected" before anything is sent; a missing li is rejected too |
| `Remote.CommitCall` | modules/TideJS/Clients/NodeClient.js:223-233 | any reply text counts as success; only a failed request rejects |
| `Quorum.FulfilledIndices` | modules/TideJS/Flow/dKeyAuthenticationFlow.js:55-57 | the fulfilled positions, ascending, and all of them |
| `Quorum.SurvivorsAligned` | modules/TideJS/Flow/dKeyAuthenticationFlow.js:54-71 | the k-th survivor and the k-th fulfilled value are both at the k-th fulfilled position |
| `Quorum.AllFulfilledKeepsAll` | modules/TideJS/Flow/dKeyAuthenticationFlow.js:54-57 | nothing is dropped when every call fulfilled |
| `Quorum.KeepFulfilled` | modules/TideJS/Flow/dKeyAuthenticationFlow.js:54-57 | the `forEach`/`push` loop yields exactly `Survivors`: the items at the fulfilled positions, in their original order (`Quorum.SurvivorsAligned`) |
| `Quorum.ThresholdError` | modules/TideJS/Flow/dKeyAuthenticationFlow.js:58-62 | "Too many attempts" exactly when some call was rejected with that reason, else the flow's own message |
| `KeyGenerationFlow.KeyGenFlow.GenShardRequests` | modules/TideJS/Flow/dKeyGenerationFlow.js:42-43 | every ork is sent the same full list of ork ids in ork order, with the same uid, count and points |
| `KeyGenerationFlow.KeyGenFlow.GenShard` | modules/TideJS/Flow/dKeyGenerationFlow.js:39-47 | any rejected ork fails the step; a success is `GenShardReply` of every reply in order |
| `KeyGenerationFlow.KeyGenFlow.GenShardYieldsJointKey` | modules/TideJS/Flow/dKeyGenerationFlow.js:39-47 | with every ork contributing its secrets, the round yields the points times the sum of the secrets and the summed key |
| `KeyGenerationFlow.KeyGenFlow.UpdateShardRequests` | modules/TideJS/Flow/dKeyGenerationFlow.js:59-60 | ork i is sent the i-th decrypted challenge (undefined past the end) and every ork id |
| `KeyGenerationFlow.KeyGenFlow.UpdateShard` | modules/TideJS/Flow/dKeyGenerationFlow.js:56-64 | with the multiplier sent as the list `[gMultiplier]`: any rejected ork fails the step; a success is `GenShardReply` of every reply in order |
| `KeyGenerationFlow.KeyGenFlow.UpdateShardAsWritten` | modules/TideJS/Flow/dKeyGenerationFlow.js:56-64 | as written, never succeeds: over a non-empty ork list every call rejects with a TypeError |
| `KeyGenerationFlow.KeyGenFlow.UpdateShardAsWrittenDiverges` | modules/TideJS/Clients/NodeClient.js:182-186 | wherever the round with the point sent as a list succeeds, the round as written throws a TypeError |
| `KeyGenerationFlow.KeyGenFlow.SendShardRequests` | modules/TideJS/Flow/dKeyGenerationFlow.js:78 | ork i is sent row i of the sorted shares, with the same R2, auth and key type |
| `KeyGenerationFlow.KeyGenFlow.SendShard` | modules/TideJS/Flow/dKeyGenerationFlow.js:75-82 | any rejected ork fails the step; a success is `SendShardReply` of the replies against the ork publics in the same order |
| `KeyGenerationFlow.KeyGenFlow.SendShardFromReplies` | modules/TideJS/Flow/dKeyGenerationFlow.js:78-81 | when every ork answered, the round is exactly the aggregation of the replies |
| `KeyGenerationFlow.KeyGenFlow.HonestSendShardSucceeds` | modules/TideJS/Flow/dKeyGenerationFlow.js:75-82 | with honest partial signatures the round succeeds with their sum modulo L |
| `KeyGenerationFlow.KeyGenFlow.CommitRequests` | modules/TideJS/Flow/dKeyGenerationFlow.js:93 | every ork is sent the same S and key type |
| `KeyGenerationFlow.KeyGenFlow.Commit` | modules/TideJS/Flow/dKeyGenerationFlow.js:90-95 | succeeds exactly when no ork's commit is rejected; a failure is some ork's rejection |
| `KeyAuthenticationFlow.OrkLis` | modules/TideJS/Flow/dKeyAuthenticationFlow.js:66-67 | one coefficient per ork, each `GetLi` of that ork's id over exactly the given orks' ids |
| `KeyAuthenticationFlow.ConvertFrom` | modules/TideJS/Flow/dKeyAuthenticationFlow.js:66-74 | on success the coefficients exist, r1, r2 and r4 are invertible, there is one auth request per surviving ork and one challenge per reply |
| `KeyAuthenticationFlow.ConvertAligned` | modules/TideJS/Flow/dKeyAuthenticationFlow.js:52-71 | the k-th survivor, the k-th reply and the k-th coefficient all belong to the ork at the k-th fulfilled position |
| `KeyAuthenticationFlow.ConvertDerivesVuid` | modules/TideJS/Flow/dKeyAuthenticationFlow.js:73-74 | with honest CMK orks the VUID of a successful Convert is derived from g_user·CMK, whatever the random values and the clock |
| `KeyAuthenticationFlow.AuthenticateCalls` | modules/TideJS/Flow/dKeyAuthenticationFlow.js:92 | CMK ork i is sent the i-th challenge and the i-th auth request |
| `KeyAuthenticationFlow.PreSignInFrom` | modules/TideJS/Flow/dKeyAuthenticationFlow.js:110-121 | vlis are the coefficients over the surviving CVK orks, the ECDH keys come from their publics in order, and the blind signature passed |
| `KeyAuthenticationFlow.SignInRequests` | modules/TideJS/Flow/dKeyAuthenticationFlow.js:143 | CVK ork i is sent vlis[i] (undefined past the end) with the shared signing data |
| `KeyAuthenticationFlow.SignInCvkOver` | modules/TideJS/Flow/dKeyAuthenticationFlow.js:140-147 | the round with the reply bound as `SignInCVKReply` declares its parameters: any rejected CVK ork fails it; a success is `SignInCVKReply` over the replies in order |
| `KeyAuthenticationFlow.SignInCvkOverAsWritten` | modules/TideJS/Flow/dKeyAuthenticationFlow.js:140-147 | the round as written never succeeds: a rejected CVK ork fails it, and when all answer the misbound `SignInCVKReply` call fails |
| `KeyAuthenticationFlow.HonestSignInCvkVerifies` | modules/TideJS/Flow/dKeyAuthenticationFlow.js:140-147 | with honest CVK orks the returned token verifies under g·CVK |
| `KeyAuthenticationFlow.MisboundSignInReply` | modules/TideJS/Flow/dKeyAuthenticationFlow.js:146 | the five arguments bound to the first five parameters always fail, with a TypeError once the signatures open |
| `KeyAuthenticationFlow.KeyAuthenticationFlow.constructor` | modules/TideJS/Flow/dKeyAuthenticationFlow.js:28-34 | the CMK orks as given, no CVK orks yet, threshold 2 |
| `KeyAuthenticationFlow.KeyAuthenticationFlow.Convert` | modules/TideJS/Flow/dKeyAuthenticationFlow.js:48-75 | too few survivors: the reasoned error and the CMK orks unchanged; otherwise the CMK orks become the survivors and the reply is computed over them |
| `KeyAuthenticationFlow.KeyAuthenticationFlow.AuthenticateAndPreSignIn` | modules/TideJS/Flow/dKeyAuthenticationFlow.js:88-122 | without CVK orks it fails; every CMK ork must sign; the CVK orks pass the quorum filter ("CVK Orks for this account are down") and are replaced by the survivors only on success |
| `KeyAuthenticationFlow.KeyAuthenticationFlow.SignInCvk` | modules/TideJS/Flow/dKeyAuthenticationFlow.js:140-147 | the round over the current CVK orks, with the reply bound as `SignInCVKReply` declares its parameters |
| `KeyAuthenticationFlow.KeyAuthenticationFlow.SignInCvkAsWritten` | modules/TideJS/Flow/dKeyAuthenticationFlow.js:146 | as written, the step never succeeds |
| `KeyAuthenticationFlow.SignInCvkAsWrittenFails` | modules/TideJS/Flow/dKeyAuthenticationFlow.js:146 | where every CVK ork answers and the replies open under the coefficients' bytes, the step as written fails with a TypeError, while the declared binding over the same replies returns `SignInCVKReply` |
| `PrismFlow.ParseShare` | modules/TideJS/Flow/Prism.js:87 | `BigInt(text)` succeeds exactly on integer text |
| `PrismFlow.OpenShares` | modules/TideJS/Flow/Prism.js:86-87 | a success has one share per encrypted reply |
| `PrismFlow.CombineShares` | modules/TideJS/Flow/Prism.js:87 | reducing at every step gives Σ cvk_i·lis[i] modulo L, in [0, L) |
| `PrismFlow.CombineSharesReconstructs` | modules/TideJS/Flow/Prism.js:87 | the CVK shares of distinct orks combine to the CVK itself |
| `PrismFlow.OpenHonestShares` | modules/TideJS/Flow/Prism.js:86-87 | shares encrypted under the matching prismAuths open back to the shares |
| `PrismFlow.AuthenticateFrom` | modules/TideJS/Flow/Prism.js:68-88 | on success the coefficients exist, every applied point has one, the random is invertible, and the CVK is in [0, L) |
| `PrismFlow.AuthenticateFromSteps` | modules/TideJS/Flow/Prism.js:76-87 | once each step succeeds, the result is the combination of the opened shares with the survivors' coefficients |
| `PrismFlow.HonestAuthenticate` | modules/TideJS/Flow/Prism.js:49-89 | with orks applying their PRISM shares and answering with their CVK shares, the flow returns the CVK |
| `PrismFlow.PrismFlow.constructor` | modules/TideJS/Flow/Prism.js:35-41 | the orks as given, threshold 3 |
| `PrismFlow.PrismFlow.Authenticate` | modules/TideJS/Flow/Prism.js:49-89 | too few survivors: "Too many attempts" or "Orks for this account are down" and no change; otherwise the orks become the survivors and the CVK is recovered from them |
| `PrismFlow.PrismFlow.GetPrismAuths` | modules/TideJS/Flow/Prism.js:96-102 | succeeds exactly when the random is invertible, with one key per ork |
| `PrismFlow.PrismFlow.GetGPrismAuth` | modules/TideJS/Flow/Prism.js:108-113 | succeeds exactly when the random is invertible |
| `PrismFlow.GettersUnblind` | modules/TideJS/Flow/Prism.js:96-113 | blinding by r and unblinding by r^-1 cancel: both getters see the key point itself |
| `PrismFlow.GPrismAuthAgrees` | modules/TideJS/Flow/Prism.js:108-113 | ork i derives from gPrismAuth and its own secret the same prismAuth the client derived for it |
| `ChangePassFlow.PrismConvertCalls` | modules/TideJS/Flow/dChangePassFlow.js:24 | one `PrismConvert(uid, gBlurPass, true)` per CMK ork, in ork order |
| `ChangePassFlow.ChallengesFrom` | modules/TideJS/Flow/dChangePassFlow.js:38-45 | the coefficients over the survivors fail first; otherwise the challenges come from the replies, coefficients and publics of the survivors |
| `ChangePassFlow.NewPrismAuth` | modules/TideJS/Flow/dChangePassFlow.js:58-59 | succeeds exactly when the first multiplied point is present and r2 is invertible |
| `ChangePassFlow.NewPrismAuthMatchesSignIn` | modules/TideJS/Flow/dChangePassFlow.js:58-59 | the new auth point is g times the scalar that sign-in derives from g_newPass·PRISM |
| `ChangePassFlow.ChangePrismFrom` | modules/TideJS/Flow/dChangePassFlow.js:55-61 | with the orks handed over as records: a success is `SendShard` of the `UpdateShard` result with the new auth point under key type "Prism" |
| `ChangePassFlow.ChangePassFlow.constructor` | modules/TideJS/Flow/dChangePassFlow.js:16-19 | the CMK orks as given, no saved state, the threshold undefined |
| `ChangePassFlow.ChangePassFlow.Authenticate` | modules/TideJS/Flow/dChangePassFlow.js:20-46 | below the threshold: the quorum error and the ork list unchanged; otherwise the survivors replace the ork list and the challenges are computed over them; the saved state is untouched |
| `ChangePassFlow.ChangePrismFromTuples` | modules/TideJS/Flow/dChangePassFlow.js:54-56 | as written, never succeeds: over a non-empty ork list `UpdateShard` throws a TypeError before any request |
| `ChangePassFlow.ChangePrismTuplesDiverge` | modules/TideJS/Flow/dKeyGenerationFlow.js:57-59 | wherever the round over ork records succeeds, the round over the arrays throws |
| `ChangePassFlow.ChangePassFlow.ChangePrismAsWritten` | modules/TideJS/Flow/dChangePassFlow.js:54-66 | as written, always fails with the error of `ChangePrismFromTuples`, so the saved state is never set |
| `ChangePassFlow.ChangePassFlow.ChangePrism` | modules/TideJS/Flow/dChangePassFlow.js:54-66 | with the orks handed over as records: the saved state {prismSig, genFlow} is set only when `SendShard` succeeded, and is otherwise unchanged |
| `ChangePassFlow.ChangePassFlow.CommitPrism` | modules/TideJS/Flow/dChangePassFlow.js:81-84 | "No saved state" before a successful `ChangePrism`; otherwise succeeds exactly when every ork of the saved flow commits the saved signature under "Prism" |
| `SignIn.StartFrom` | modules/TideJS/Functions/SignIn.js:69-99 | a success has uid = hex(SHA256(lower(username))), at least two CMK orks, and both directory lookups fulfilled; the password point is blinded by r1 and the user point by r2 |
| `SignIn.StartWith` | modules/TideJS/Functions/SignIn.js:92-95 | a success kept the Convert survivors and their result, and the CVK public was looked up for the VUID |
| `SignIn.ModelToSign` | modules/TideJS/Functions/SignIn.js:121-122 | a model is requested exactly when one of the two is set, and the config's model wins |
| `SignIn.SignInFrom` | modules/TideJS/Functions/SignIn.js:128-130 | as written, always fails: a failed pre-sign is returned as is, otherwise the outcome is the as-written SignInCVK round over the same CVK orks with the pre-sign data |
| `SignIn.SignInFromIntended` | modules/TideJS/Functions/SignIn.js:128-130 | with the declared binding, a success pre-signed and then ran SignInCVK over the same CVK orks with the pre-sign data |
| `SignIn.ReplyOf` | modules/TideJS/Functions/SignIn.js:132-143 | {ok: true, "completed", TideJWT, modelSig} exactly on success, else {ok: false, message} |
| `SignIn.SignIn.constructor` | modules/TideJS/Functions/SignIn.js:40-61 | mode defaults to "default" and modelToSign to null; the session fields start undefined |
| `SignIn.SignIn.Create` | modules/TideJS/Functions/SignIn.js:40-61 | throws exactly when the config names no simulator |
| `SignIn.SignIn.Start` | modules/TideJS/Functions/SignIn.js:69-114 | never throws: on failure the reply carries the error and no field changes; on success the flow, the Convert data and the uid are kept and the reply carries gCVK in base64 and the VUID |
| `SignIn.SignIn.Keep` | modules/TideJS/Functions/SignIn.js:97-99 | the three session fields are set together |
| `SignIn.SignIn.Continue` | modules/TideJS/Functions/SignIn.js:117-144 | as written, never completes: every reply is {ok: false, message}; "Values must be defined before hand" without a prior successful start; otherwise the CVK orks are fetched and filtered and the reply is that of the as-written `SignInFrom` over the survivors |
| `SignIn.SignIn.ContinueIntended` | modules/TideJS/Functions/SignIn.js:117-144 | with the declared binding at `dKeyAuthenticationFlow.js:146`: the same guard, and the reply is the SignInCVK outcome over the survivors, "completed" with the token on success |
| `SignUp.GetKeyPoints` | modules/TideJS/Functions/SignUp.js:142-154 | succeeds exactly when both multiplied points are present and r1 and r2 are invertible; a missing first point throws before any inverse |
| `SignUp.SignUpKeysMatchSignIn` | modules/TideJS/Functions/SignUp.js:142-154 | with honest CMK and PRISM shares, sign-up derives the VUID, gCMKAuth and PRISM auth point that sign-in later derives |
| `SignUp.TestPassed` | modules/TideJS/Functions/SignUp.js:132 | with the token read out of the test reply: passes exactly when the token verifies under the CVK public; a token that does not verify gives "Test sign in failed" |
| `SignUp.ArrayOrksKeyGen` | modules/TideJS/Functions/SignUp.js:79-80 | a key-generation round over the `[id, url, public]` arrays never succeeds; over a non-empty list it throws a TypeError before any request |
| `SignUp.StartFrom` | modules/TideJS/Functions/SignUp.js:65-99 | as written, `start` never succeeds; it starts the CMK generation and at most three rounds |
| `SignUp.FromKeyPoints` | modules/TideJS/Functions/SignUp.js:83-98 | as written, the rounds after CMK generation never succeed and are at most CVK generation and the test sign-in, never a commit |
| `SignUp.StartFromIntended` | modules/TideJS/Functions/SignUp.js:65-99 | with the token read out of the test reply: at most five rounds are started, and at least the CMK generation |
| `SignUp.FromKeyPointsIntended` | modules/TideJS/Functions/SignUp.js:83-98 | with the token read out of the test reply: at most four rounds after CMK generation |
| `SignUp.StartNeverCommits` | modules/TideJS/Functions/SignUp.js:89-96 | as written, no commit round is ever started, whatever the other rounds return |
| `SignUp.TestSignInThrows` | modules/TideJS/Functions/SignUp.js:131-132 | as written, when both generations succeed and the test round yields its `{jwt, modelSig}` reply, verifying that object throws a TypeError after exactly three rounds |
| `SignUp.ArrayOrksStopSignUp` | modules/TideJS/Functions/SignUp.js:79-80 | with the CMK round built over the ork arrays, sign-up stops after that one round with its error, as written and corrected alike; a TypeError for any non-empty list |
| `SignUp.CvkGenUsesCmkKeysFrom` | modules/TideJS/Functions/SignUp.js:83-87 | after CMK generation, CVK generation is the first round, for the VUID and gCMKAuth that `getKeyPoints` returned |
| `SignUp.CvkGenUsesCmkKeys` | modules/TideJS/Functions/SignUp.js:83-87 | CVK generation runs second, after CMK generation, for the VUID and gCMKAuth unblinded from the CMK round |
| `SignUp.CommitsFollowVerifiedTestFrom` | modules/TideJS/Functions/SignUp.js:89-96 | with the token read out of the test reply: after CMK generation, a commit is preceded by CVK generation and a test sign-in whose token verified |
| `SignUp.CommitsFollowVerifiedTest` | modules/TideJS/Functions/SignUp.js:89-96 | with the token read out of the test reply: nothing is committed unless both generations and a verified test sign-in came first, in that order |
| `SignUp.FailedTestCommitsNothing` | modules/TideJS/Functions/SignUp.js:90-96 | with the token read out of the test reply: a token that does not verify fails sign-up with "Test sign in failed" and nothing is committed |
| `SignUp.StartSucceedsFrom` | modules/TideJS/Functions/SignUp.js:83-98 | with the token read out of the test reply: after CMK generation, success means CVK generation, the test sign-in and both commits succeeded, the token verified, and the four rounds ran in that order |
| `SignUp.StartSucceeds` | modules/TideJS/Functions/SignUp.js:65-99 | with the token read out of the test reply: sign-up succeeds only when every round did and the token verified; it returns that token after exactly the five rounds |
| `SignUp.StartSucceedsWhen` | modules/TideJS/Functions/SignUp.js:65-99 | with the token read out of the test reply: when every round succeeds and the token verifies, sign-up returns that token after the five rounds, ending with the two commits |
| `SignUp.TestSignInDiverges` | modules/TideJS/Functions/SignUp.js:131-133 | wherever the corrected `start` signs the user up, the `start` as written throws a TypeError at the test sign-in, after the same first three rounds |
| `SignUp.SignUp.constructor` | modules/TideJS/Functions/SignUp.js:40-57 | the three config values as given |
| `SignUp.SignUp.Create` | modules/TideJS/Functions/SignUp.js:40-57 | a distinct error for each missing key, checked in the order CMK orks, CVK orks, simulator; success exactly when all three are present |
| `SignUp.SignUp.Start` | modules/TideJS/Functions/SignUp.js:65-99 | as written: never succeeds and never commits; the outcome and the rounds started are those of `StartFrom` |
| `SignUp.SignUp.StartFromKeyPoints` | modules/TideJS/Functions/SignUp.js:83-98 | as written: never succeeds; the rounds after `getKeyPoints` are those of `FromKeyPoints` |
| `SignUp.SignUp.StartIntended` | modules/TideJS/Functions/SignUp.js:65-99 | with the token read out of the test reply: the outcome and the rounds started are those of `StartFromIntended` |
| `SignUp.SignUp.StartFromKeyPointsIntended` | modules/TideJS/Functions/SignUp.js:83-98 | with the token read out of the test reply: the rounds after `getKeyPoints` are those of `FromKeyPointsIntended` |

## Left out

- `Ed25519/point.js`, `Tools/Utils.js`, `Tools/Hash.js` and `H2P.js` are not part of this model.
  - Points are discrete logs (see above).
  - `mod`, `mod_inv` and `median` are the specified functions `%` on L, `ModArith.ModInv` and `JsUtil.Median`.
  - Hashes, encodings and `HashToPoint`/`Point.fromString` are uninterpreted fields of `Primitives`.
  - Whether `Point.fromString` (sign-up) and `HashToPoint` (sign-in) map a string to the same point is unknown. The model keeps them as two separate functions, so `SignUp.SignUpKeysMatchSignIn` is stated for given user and password points.
- Concurrency and timing are not modelled. `Promise.all` is the first rejection by index, not by time. The two commits of sign-up are started together; the model takes the CMK commit's rejection when both fail.
- Randomness (`RandomBigInt`, `getRandomValues`), `Date.now` and the AES ivs are parameters.
- The HTTP clients (`NodeClient`, `SimulatorClient`, `VendorClient`, `SimulatorFlow`, `Simulator`) are network functions of the `Network` record. Two of their behaviours are kept:
  - `Remote.SignInCall` refuses a non-default mode without a model.
  - `Remote.CommitCall` accepts any commit reply.
- `js/main.js` and the minified `dist` build are DOM form handling and are left out.
- `Functions/ChangePassword.js` is an unfinished stub and is left out. So is `Functions/TestSignIn.js`, which reads fields that are never set.
- `Flow/dDecryptionFlow.js` and `Flow/dDecryptionTestFlow.js` are left out. They import an ElGamal function that `ElGamal.js` does not export.
- `dChangePassFlow.Test` is left out. It only forwards to `TestSignIn`.
- `Models/*.js` are replaced by plain datatypes with `Option` fields for `GR2`/`S2`.
- `Prism.js` calls `ApplyPRISM` and `ApplyAuthData`, which `NodeClient` lacks. They are network functions of the model.
- `dChangePassFlow.js` imports `GetDecryptedChallenge`, which `KeyAuthentication.js` lacks. It is a parameter of `ChangePassFlow.ChangePassFlow.Authenticate`. The `PrismConvert` reply type is left open too.
- The "Wrong password" branch at `KeyAuthentication.js:113-117` cannot fire. Decryption failures surface from `Promise.all`, as modelled.
- Sign-up's calls do not match the signatures of the flows they call:
  - `SignUp.js:80-81, 86-87` call `GenShard`/`SendShard` with argument lists and result fields that `dKeyGenerationFlow.js:39, 75` do not have.
  - `SignUp.js:92-93` call `Commit` with four and three arguments against `dKeyGenerationFlow.js:90`.
  - `testSignIn` (`SignUp.js:110-131`) calls `Convert` without gVVK, `Authenticate_and_PreSignInCVK` without a model flag, and `SignInCVK` without the remaining arguments.
  - The five rounds (CMK and CVK generation, test sign-in, the two commits) are therefore parameters of `SignUp` (the `SignUpRounds` record). The model fixes their order, their inputs and what `start` does with the test reply at `SignUp.js:132`, not what is inside each round.
  - As written none of these rounds can succeed. The CMK round stops on the ork arrays (see Findings). The test round's `SignInCVK` call at `SignUp.js:131` leaves out `gBlindH`, which `NodeClient.js:140` dereferences, so every CVK call rejects. The test round also goes through the misbound reply at `dKeyAuthenticationFlow.js:146`. Because the rounds are parameters, the model admits any outcome for them. So the `StartSucceeds*`, `CommitsFollowVerifiedTest*` and `FailedTestCommitsNothing` lemmas are about the intended program, with the test round corrected too.
- `Remote.ConvertRequest` carries no committed flags, and the Convert reply is modelled as a list of `PrismConvert` responses. As written the call does not fit:
  - `dKeyAuthenticationFlow.js:52` passes `test` (default false) as the fourth argument, which is `cmkCommitted` at `NodeClient.js:63`; `prismCommitted` keeps its default. Both flags are dropped here.
  - `NodeClient.js:72-75` returns an object `{CMKConvertResponse, PrismConvertResponse}` built by model classes that are not part of this model.
  - `PrismConvertReply` reads `GBlurPassPRISMi` and `Timestampi` from each reply (`KeyAuthentication.js:42, 48`). Both are undefined on that object, so as written `.times` throws a TypeError. The model follows the fields `PrismConvertReply` reads.
- `SignUp.StartFromIntended`: its own contract states only the bounds on the number of rounds. The ordering and success properties are the lemmas beside it.
- `Quorum.Survivors` has no row of its own. Its alignment with the replies is `Quorum.SurvivorsAligned`.
- `PrismFlow.PrismAuths` has no row of its own. Its content is stated through `PrismFlow.GettersUnblind`.
- AES-GCM, PBKDF2 and key import (`Tools/AES.js`) are uninterpreted. The only assumption is that opening a sealed text with the same key and iv gives it back (`Primitives.AesRoundTrip`).

## Findings

| source | as written | input that shows it | evidently intended | confidence | as-written member | corrected member |
|---|---|---|---|---|---|---|
| modules/TideJS/Math/SecretShare.js:28 | the `m` after the factor expression is `map`'s thisArg, so each factor is reduced by `mod`'s default modulus L, and a single factor never meets the fold's `mod(…, m)` | `GetLi(1, [1, 3], 3)` gives 6, outside [0, 3) | every factor reduced modulo m, giving 0 | not executed | `SecretShare.GetLi` (shown by `SecretShare.GetLiSingleFactorUnreduced`) | `SecretShare.GetLiFixed` |
| modules/TideJS/Flow/dKeyAuthenticationFlow.js:146 | `SignInCVKReply(encSigs, gCVKR, jwt, ECDHi, vlis)` binds five arguments to the six parameters at `KeyAuthentication.js:150`. The token lands in `modelR`, the keys in `jwt` and the coefficients in `ECDHi`, so the signatures are decrypted with the coefficients' bytes and `vLis[i]` is undefined | any round where every CVK ork answers and its reply opens with the coefficient bytes fails with a TypeError | `SignInCVKReply(encSigs, gCVKR, gR2, jwt, ECDHi, vlis)` | not executed | `KeyAuthenticationFlow.KeyAuthenticationFlow.SignInCvkAsWritten` (shown by `KeyAuthenticationFlow.SignInCvkAsWrittenFails`) | `KeyAuthenticationFlow.KeyAuthenticationFlow.SignInCvk` |
| modules/TideJS/Functions/SignIn.js:126-131 | `continue` reaches `SignInCVK` through the misbound call above, so its reply is never "completed" | any session after a successful `start` | the token and model signature returned with "completed" | not executed | `SignIn.SignIn.Continue` (over `SignIn.SignInFrom`) | `SignIn.SignIn.ContinueIntended` (over `SignIn.SignInFromIntended`) |
| modules/TideJS/Flow/dChangePassFlow.js:55 | the flow's orks are `[orkID, orkURL, orkPublic]` arrays (indexed at lines 21, 38 and 45) but go to `dKeyGenerationFlow`, whose `UpdateShard` reads `ork.orkURL` and `BigInt(ork.orkID)` (`dKeyGenerationFlow.js:57-59`); `BigInt(undefined)` throws a TypeError | any non-empty CMK ork list | the orks handed over as `{orkID, orkURL, orkPublic}` records | not executed | `ChangePassFlow.ChangePassFlow.ChangePrismAsWritten` (over `ChangePassFlow.ChangePrismFromTuples`, shown by `ChangePassFlow.ChangePrismTuplesDiverge`) | `ChangePassFlow.ChangePassFlow.ChangePrism` (over `ChangePassFlow.ChangePrismFrom`) |
| modules/TideJS/Functions/SignUp.js:131-132 | `jwt` is bound to the whole `{jwt, modelSig}` reply of `SignInCVK` (`KeyAuthentication.js:157`), and `TideJWT.verify` calls `split` on it (`Models/TideJWT.js:65`). An object has no `split`, so "Test sign in failed" is never thrown and the commits at lines 92-93 are never reached | any test round that yields its reply | `const {jwt} = await authFlow.SignInCVK(...)`, as `SignIn.js:130` does | not executed | `SignUp.FromKeyPoints` (shown by `SignUp.TestSignInThrows`, `SignUp.StartNeverCommits` and `SignUp.TestSignInDiverges`) | `SignUp.FromKeyPointsIntended` (with `SignUp.TestPassed`, `SignUp.StartSucceeds` and `SignUp.StartSucceedsWhen`) |
| modules/TideJS/Functions/SignUp.js:79 | `cmkOrkInfo` holds `[id, url, public]` arrays (JSDoc at lines 46-52), but it goes to `dKeyGenerationFlow`, whose `GenShard` runs `BigInt(ork.orkID)` (`dKeyGenerationFlow.js:42`) and throws a TypeError; line 85 does the same with the CVK orks | any non-empty CMK ork list | the orks handed over as `{orkID, orkURL, orkPublic}` records | not executed | `SignUp.ArrayOrksKeyGen` (shown by `SignUp.ArrayOrksStopSignUp`) | `SignUp.StartFromIntended` (rounds as parameters) |
| modules/TideJS/Flow/dKeyGenerationFlow.js:60 | the single point `gMultiplier` is passed where `NodeClient.UpdateShard` maps over a list (`NodeClient.js:182-186`). A point has no `map`, so every call rejects with a TypeError, on the corrected `ChangePrism` path too | any non-empty ork list | `client.UpdateShard(uid, ids, decryptedChallenges[i], [gMultiplier])` | not executed | `KeyGenerationFlow.KeyGenFlow.UpdateShardAsWritten` (shown by `KeyGenerationFlow.KeyGenFlow.UpdateShardAsWrittenDiverges`) | `KeyGenerationFlow.KeyGenFlow.UpdateShard` |
