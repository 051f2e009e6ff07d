# FIDO CCU2F credential wrapping, modelled in Dafny

This project models the credential-wrapping core of the CCU2F Java Card U2F
authenticator, the class `FIDOCCImplementation`. The core holds four fixed
16-byte secrets: the derivation seeds `drngSeed1`/`drngSeed2` and the MAC keys
`macKey1`/`macKey2`. It also owns a 32-byte transient `scratch` buffer, a SHA-256
`MessageDigest` and an EC key pair. With these it does two things:

- `generateKeyAndWrap` issues a credential for a 32-byte application
  parameter. It writes a fresh nonce into the caller's key-handle buffer and
  derives the private scalar `SHA-256(seed1 ‖ app ‖ nonce ‖ seed2)` into
  `scratch`. It loads that scalar into the key pair, writes the public point,
  and erases the scalar from `scratch` and from the key pair. Last, it appends
  the tag `SHA-256(mac1 ‖ app ‖ nonce ‖ mac2)`, so the handle is `nonce ‖ tag`
  (64 bytes).
- `unwrap` recomputes the tag for the handle's nonce and compares it with the
  handle's second half. Only on a match does it re-derive the scalar, and only
  into a non-null output key. It then zeroes `scratch`.

The project has three modules:

- `JavaCard` (javacard.dfy) covers the platform objects the core drives. These
  are Java's signed `byte`, `AESKey.getKey`, the stateful
  `MessageDigest` (`reset`/`update`/`doFinal`), `ECPrivateKey.setS`,
  `RandomData.generateData`, and `Util.arrayFillNonAtomic`/`arrayCopyNonAtomic`/`arrayCompare`.
  Every buffer write is described by `Splice`: the old contents with one range
  replaced.
- `Credential` (credential.dfy) holds the protocol as values: `Derive`, `Mac`,
  `WrapHandle`, `PublicPoint`, `Verify` and `Unwrap`, with the lemmas that
  relate them.
- `FIDOCC` (fidocc.dfy) holds the class `FIDOCCImplementation`. Its `scratch`
  array, AES key objects, digest object and private key are fields. Its methods
  are proved to leave exactly the `Credential` values in the caller's buffers,
  in `scratch` and in the private keys.

SHA-256 and the point multiplication by the secp256r1 generator are
uninterpreted. They are function-valued fields (`MessageDigest.hash`,
`FIDOCCImplementation.ecMultiply`) fixed when the object is built, so every
result holds for any such functions. The random nonce is a parameter of
`GenerateKeyAndWrap`.

Behaviour of the code worth knowing:

- `unwrap` never reads `keyHandleLength`. There is no check that the handle is
  64 bytes long: the 64 bytes at the offset are checked, whatever the stated length.
- A rejected handle leaves `scratch` holding the recomputed tag, not zeros. Only
  the success path zeroes `scratch`. The derived scalar is never in `scratch` on
  the rejection path.
- `unwrap` is not free of side effects. It overwrites `scratch`, and on success
  it sets the output key's S.
- `generateKeyAndWrap` takes a `generatedPrivateKey` parameter and never uses
  it. The public point is computed with the object's own key pair, whose S is
  left all zeros.
- The raw digest is used as the private scalar, with no reduction or
  rejection of values at or above the curve order.
- The tag comparison is `Util.arrayCompare`, an ordinary byte comparison, not a
  constant-time one.

## Model

| member | source | states |
|---|---|---|
| `FIDOCC.FIDOCCImplementation.constructor` | CCU2F/src/de/tsenger/u2f/FIDOCCImplementation.java:49-85 | The four 16-byte secrets, the hash and the point function are fixed by construction (for a single instance, see Left out). Afterwards `scratch` holds random bytes in [0,16) and zeros in [16,32), and no key bytes. |
| `FIDOCC.FIDOCCImplementation.GeneratePublicKeyPoint` | CCU2F/src/de/tsenger/u2f/FIDOCCImplementation.java:93-96 | Writes the point of the key pair's current S at the offset. Returns 65. No other byte of the buffer changes. |
| `FIDOCC.FIDOCCImplementation.GeneratePrivateKey` | CCU2F/src/de/tsenger/u2f/FIDOCCImplementation.java:98-108 | Afterwards `scratch` is `H(seed1 ‖ app[ao,ao+32) ‖ nonce[no,no+32) ‖ seed2)`. This depends only on those 64 input bytes and the fixed seeds, so equal inputs give equal scratch. |
| `FIDOCC.FIDOCCImplementation.CalcMAC` | CCU2F/src/de/tsenger/u2f/FIDOCCImplementation.java:110-118 | Afterwards `scratch` is `H(mac1 ‖ app[ao,ao+32) ‖ nonce[no,no+32) ‖ mac2)`. Only those 32 + 32 caller bytes are read. |
| `FIDOCC.FIDOCCImplementation.GenerateKeyAndWrap` | CCU2F/src/de/tsenger/u2f/FIDOCCImplementation.java:120-140 | Returns 64. `keyHandle[off,off+64)` is the nonce followed by the MAC over (app, nonce). `publicKey[off,off+65)` is the point of the derived scalar. No other byte of either buffer changes, even when both are one array, and the application parameter is unchanged. The key pair's S ends as 32 zeros, and `scratch` ends holding the tag, not the scalar. |
| `FIDOCC.FIDOCCImplementation.Unwrap` | CCU2F/src/de/tsenger/u2f/FIDOCCImplementation.java:142-161 | Returns true exactly when the handle's bytes [32,64) equal the MAC over (app, handle bytes [0,32)). On false, the output key is untouched and `scratch` holds the recomputed tag. On true, a non-null key's S is the scalar derived from (app, nonce), and `scratch` is all zeros. Neither caller buffer is written. The outcome and the key's new S are exactly what `Credential.Unwrap` gives for the handle, the application parameter and whether a key was passed. |
| `FIDOCC.RegisterThenAuthenticate` | CCU2F/src/de/tsenger/u2f/FIDOCCImplementation.java:120-161 | Unwrapping the handle that wrapping wrote, with the same application parameter, returns true. It sets the key's S to the derived scalar, whose point is the public key wrapping wrote, and leaves `scratch` zeroed. |
| `FIDOCC.SharedBufferLayout` | CCU2F/src/de/tsenger/u2f/FIDOCCImplementation.java:122-137 | Writing the nonce, then the public point, then the tag into one array leaves the same bytes as writing the 64-byte handle and then the point. The handle reads back intact. |
| `Credential.Verify` | CCU2F/src/de/tsenger/u2f/FIDOCCImplementation.java:145-150 | A handle passes the tag comparison exactly when it equals the handle that wrapping issues for that application parameter and the handle's own nonce. |
| `Credential.Unwrap` | CCU2F/src/de/tsenger/u2f/FIDOCCImplementation.java:142-160 | A handle is accepted exactly when its bytes [32,64) equal the MAC over the application parameter and its bytes [0,32). An accepted request with a key carries the scalar derived for that nonce. An accepted request without one carries no key. |
| `Credential.UnwrapAcceptsExactlyWrapped` | CCU2F/src/de/tsenger/u2f/FIDOCCImplementation.java:142-160 | Unwrap accepts a handle exactly when some nonce wraps to it under that application parameter. An accepted request for a key yields the scalar derived for the handle's nonce. A request without a key yields none. |
| `Credential.RoundTrip` | CCU2F/src/de/tsenger/u2f/FIDOCCImplementation.java:120-160 | Unwrapping a wrapped handle with the same application parameter is accepted, with the scalar derived for the handle's nonce. |
| `Credential.HashInputInjective` | CCU2F/src/de/tsenger/u2f/FIDOCCImplementation.java:98-118 | The hashed message `k1 ‖ app ‖ nonce ‖ k2` determines each of its four fixed-width fields. |
| `Credential.DerivationNeverHashesMacInput` | CCU2F/src/de/tsenger/u2f/FIDOCCImplementation.java:98-118 | When the seed pair differs from the MAC key pair, no derivation hashes the same message as any MAC computation. |
| `JavaCard.ArrayCompare` | CCU2F/src/de/tsenger/u2f/FIDOCCImplementation.java:148 | `Util.arrayCompare` returns -1, 0 or 1. It returns 0 exactly when the two ranges are equal. |
| `JavaCard.ArrayFillNonAtomic` | CCU2F/src/de/tsenger/u2f/FIDOCCImplementation.java:99 | The range becomes the fill value. The rest of the buffer is unchanged. |
| `JavaCard.ArrayCopyNonAtomic` | CCU2F/src/de/tsenger/u2f/FIDOCCImplementation.java:137 | The destination range becomes the source range. The rest of the destination is unchanged. |
| `JavaCard.GenerateData` | CCU2F/src/de/tsenger/u2f/FIDOCCImplementation.java:122 | The random bytes land at the offset. The rest of the buffer is unchanged. |
| `JavaCard.AESKey.GetKey` | CCU2F/src/de/tsenger/u2f/FIDOCCImplementation.java:100 | The 16 key bytes land at the offset. The rest of the buffer is unchanged. |
| `JavaCard.MessageDigest.Reset` | CCU2F/src/de/tsenger/u2f/FIDOCCImplementation.java:101 | The pending message becomes empty (also at line 112). |
| `JavaCard.MessageDigest.Update` | CCU2F/src/de/tsenger/u2f/FIDOCCImplementation.java:102-104 | The input range is appended to the pending message. |
| `JavaCard.MessageDigest.DoFinal` | CCU2F/src/de/tsenger/u2f/FIDOCCImplementation.java:106 | The hash of the pending message plus the input range lands at the output offset, and the digest resets. The input is read before the output is written. |
| `JavaCard.ECPrivateKey.SetS` | CCU2F/src/de/tsenger/u2f/FIDOCCImplementation.java:128 | S becomes a copy of the given range. |

## Left out

- SHA-256 internals, EC point multiplication on secp256r1 and the uncompressed point encoding: these are uninterpreted functions (a 32-byte digest, a 65-byte point).
- Randomness: the nonce and the constructor's final random overwrite of `scratch` are parameters. The four secrets are constructor parameters, and their generation through `scratch` is not modelled.
- Constructor mechanics: `KeyBuilder`/`KeyBuilderX` objects, `setKey`, the `Secp256r1` parameter setup, and `CLEAR_ON_DESELECT` clearing of `scratch`.
- Java Card exceptions: offsets or lengths out of range would raise `ArrayIndexOutOfBoundsException`. Every method instead requires its ranges to lie inside its arrays. `setS` with an invalid scalar is not modelled either.
- Java `short` arithmetic: offsets are unbounded integers. `(short)(keyHandleOffset + 32)` cannot wrap for an in-range handle, because Java Card arrays hold at most 32767 bytes.
- Caller arrays are required to be distinct from `scratch`, which is private to the class.
- FIDOCC.FIDOCCImplementation.GenerateKeyAndWrap: the application parameter must lie in a different array from the key handle and the public key. The code would also work with it in the same array outside the written ranges; that case is not modelled. The key handle and the public key may share one array when their ranges do not overlap. Overlapping output ranges are not modelled.
- Static state: in the code every field (the key pair, the four secrets, `random`, `scratch`, the key-agreement helper and `sha256`) is `static`. So constructing a second object generates new secrets for all instances and invalidates every handle already issued. The model gives each object its own fields and assumes the applet builds a single instance.
- Timing: the comparison is not constant-time in the code, and timing is not modelled.
- Cryptographic claims (cross-party rejection, tamper detection, key separation beyond the distinct hashed messages): these rest on hash assumptions, not on code behaviour.
