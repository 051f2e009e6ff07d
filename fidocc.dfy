/** The authenticator object: its private `scratch` buffer, the four 16-byte
    secrets, the SHA-256 engine and the key pair's private key, and the four
    operations that drive them step by step over the caller's byte arrays. */
module FIDOCC {
  import opened JavaCard
  import opened Credential

  /** Two byte ranges do not overlap, or lie in different arrays. */
  predicate Separate(a: array<byte>, aOff: int, aLen: int, b: array<byte>, bOff: int, bLen: int)
  {
    a != b || aOff + aLen <= bOff || bOff + bLen <= aOff
  }

  class FIDOCCImplementation {
    /** The 32-byte transient working buffer shared by every operation. */
    const scratch: array<byte>
    const drngSeed1: AESKey
    const drngSeed2: AESKey
    const macKey1: AESKey
    const macKey2: AESKey
    const sha256: MessageDigest
    /** The private key of the key pair used to compute public points. */
    const privateKey: ECPrivateKey
    /** Multiplication of the curve's generator by a private scalar, giving the
        uncompressed public point (left uninterpreted). */
    const ecMultiply: seq<byte> -> Point

    ghost predicate Valid()
    {
      scratch.Length == 32
    }

    /** The protocol values this object computes with. */
    function Identity(): Device
    {
      Device(sha256.hash, ecMultiply, drngSeed1.key, drngSeed2.key, macKey1.key, macKey2.key)
    }

    /** Creates the object with four fixed secrets. `wipe` stands for the random
        bytes written over the part of `scratch` that last held a key. */
    constructor (hash: seq<byte> -> Bytes32, ecMultiply: seq<byte> -> Point,
                 seed1: Key16, seed2: Key16, mac1: Key16, mac2: Key16, wipe: Key16)
      ensures Valid() && fresh(scratch) && fresh(sha256) && fresh(privateKey)
      ensures Identity().hash == hash && Identity().ecMultiply == ecMultiply
      ensures Identity().seed1 == seed1 && Identity().seed2 == seed2
      ensures Identity().mac1 == mac1 && Identity().mac2 == mac2
      ensures scratch[..] == wipe + Zeros(16)
    {
      var buffer := new byte[32](_ => 0);
      Write(buffer, 0, wipe);
      scratch := buffer;
      privateKey := new ECPrivateKey();
      drngSeed1 := new AESKey(seed1);
      drngSeed2 := new AESKey(seed2);
      macKey1 := new AESKey(mac1);
      macKey2 := new AESKey(mac2);
      this.ecMultiply := ecMultiply;
      sha256 := new MessageDigest(hash);
      new;
      assert scratch[..] == scratch[..16] + scratch[16..];
    }

    /** Writes the public point of the key pair's current private key S at
        `offset` and returns its length. */
    method GeneratePublicKeyPoint(pointOutputBuffer: array<byte>, offset: int) returns (len: int)
      requires 0 <= offset && offset + 65 <= pointOutputBuffer.Length
      modifies pointOutputBuffer
      ensures len == 65
      ensures pointOutputBuffer[..] == Splice(old(pointOutputBuffer[..]), offset, ecMultiply(privateKey.s))
    {
      var point := ecMultiply(privateKey.s);
      Write(pointOutputBuffer, offset, point);
      len := 65;
    }

    /** Leaves in `scratch` the private scalar derived from the 32 bytes of the
        application parameter and the 32 bytes of the nonce at the given offsets.
        The result depends on nothing else, so equal inputs give equal scalars. */
    method GeneratePrivateKey(nonceBuffer: array<byte>, nonceBufferOffset: int,
                              applicationParameter: array<byte>, applicationParameterOffset: int)
      requires Valid()
      requires nonceBuffer != scratch && applicationParameter != scratch
      requires 0 <= nonceBufferOffset && nonceBufferOffset + 32 <= nonceBuffer.Length
      requires 0 <= applicationParameterOffset && applicationParameterOffset + 32 <= applicationParameter.Length
      modifies scratch, sha256
      ensures scratch[..] == Derive(Identity(),
                                    applicationParameter[applicationParameterOffset..applicationParameterOffset + 32],
                                    nonceBuffer[nonceBufferOffset..nonceBufferOffset + 32])
      ensures sha256.pending == []
    {
      ghost var app: Bytes32 := applicationParameter[applicationParameterOffset..applicationParameterOffset + 32];
      ghost var nonce: Bytes32 := nonceBuffer[nonceBufferOffset..nonceBufferOffset + 32];
      var _ := ArrayFillNonAtomic(scratch, 0, 32, 0);
      var _ := drngSeed1.GetKey(scratch, 0);
      sha256.Reset();
      sha256.Update(scratch, 0, 16);
      sha256.Update(applicationParameter, applicationParameterOffset, 32);
      sha256.Update(nonceBuffer, nonceBufferOffset, 32);
      assert sha256.pending == drngSeed1.key + app + nonce;
      var _ := drngSeed2.GetKey(scratch, 0);
      var _ := sha256.DoFinal(scratch, 0, 16, scratch, 0);
      assert scratch[..] == scratch[0..32];
    }

    /** Leaves in `scratch` the MAC tag over the 32 bytes of the application
        parameter and the 32 bytes of the nonce at the given offsets. */
    method CalcMAC(applicationParameter: array<byte>, applicationParameterOffset: int,
                   nonceBuffer: array<byte>, nonceBufferOffset: int)
      requires Valid()
      requires nonceBuffer != scratch && applicationParameter != scratch
      requires 0 <= nonceBufferOffset && nonceBufferOffset + 32 <= nonceBuffer.Length
      requires 0 <= applicationParameterOffset && applicationParameterOffset + 32 <= applicationParameter.Length
      modifies scratch, sha256
      ensures scratch[..] == Mac(Identity(),
                                 applicationParameter[applicationParameterOffset..applicationParameterOffset + 32],
                                 nonceBuffer[nonceBufferOffset..nonceBufferOffset + 32])
      ensures sha256.pending == []
    {
      ghost var app: Bytes32 := applicationParameter[applicationParameterOffset..applicationParameterOffset + 32];
      ghost var nonce: Bytes32 := nonceBuffer[nonceBufferOffset..nonceBufferOffset + 32];
      var _ := macKey1.GetKey(scratch, 0);
      sha256.Reset();
      sha256.Update(scratch, 0, 16);
      sha256.Update(applicationParameter, applicationParameterOffset, 32);
      sha256.Update(nonceBuffer, nonceBufferOffset, 32);
      assert sha256.pending == macKey1.key + app + nonce;
      var _ := macKey2.GetKey(scratch, 0);
      var _ := sha256.DoFinal(scratch, 0, 16, scratch, 0);
      assert scratch[..] == scratch[0..32];
    }

    /** Issues a credential for the application parameter at
        `applicationParameterOffset`: the handle `nonce ‖ tag` lands at
        `keyHandleOffset`, the public point of the derived scalar at
        `publicKeyOffset`, and the returned length is 64. Afterwards the key
        pair's S is all zeros and `scratch` holds the tag, not the scalar.
        `nonce` stands for the 32 bytes the secure random generator produces.
        `generatedPrivateKey` is accepted and never used. */
    method GenerateKeyAndWrap(applicationParameter: array<byte>, applicationParameterOffset: int,
                              generatedPrivateKey: ECPrivateKey?,
                              publicKey: array<byte>, publicKeyOffset: int,
                              keyHandle: array<byte>, keyHandleOffset: int,
                              nonce: Bytes32)
      returns (len: int)
      requires Valid()
      requires applicationParameter != scratch && publicKey != scratch && keyHandle != scratch
      requires 0 <= applicationParameterOffset && applicationParameterOffset + 32 <= applicationParameter.Length
      requires 0 <= publicKeyOffset && publicKeyOffset + 65 <= publicKey.Length
      requires 0 <= keyHandleOffset && keyHandleOffset + 64 <= keyHandle.Length
      requires Separate(keyHandle, keyHandleOffset, 64, publicKey, publicKeyOffset, 65)
      requires applicationParameter != keyHandle && applicationParameter != publicKey
      modifies scratch, sha256, privateKey, publicKey, keyHandle
      ensures len == 64
      ensures keyHandle[keyHandleOffset..keyHandleOffset + 64]
              == WrapHandle(Identity(), old(applicationParameter[applicationParameterOffset..applicationParameterOffset + 32]), nonce)
      ensures publicKey[publicKeyOffset..publicKeyOffset + 65]
              == PublicPoint(Identity(), old(applicationParameter[applicationParameterOffset..applicationParameterOffset + 32]), nonce)
      ensures keyHandle != publicKey ==>
                keyHandle[..] == Splice(old(keyHandle[..]), keyHandleOffset, keyHandle[keyHandleOffset..keyHandleOffset + 64]) &&
                publicKey[..] == Splice(old(publicKey[..]), publicKeyOffset, publicKey[publicKeyOffset..publicKeyOffset + 65])
      ensures keyHandle == publicKey ==>
                keyHandle[..] == Splice(Splice(old(keyHandle[..]), keyHandleOffset, keyHandle[keyHandleOffset..keyHandleOffset + 64]),
                                        publicKeyOffset, publicKey[publicKeyOffset..publicKeyOffset + 65])
      ensures unchanged(applicationParameter)
      ensures privateKey.s == Zeros(32)
      ensures scratch[..] == Mac(Identity(), old(applicationParameter[applicationParameterOffset..applicationParameterOffset + 32]), nonce)
      ensures sha256.pending == []
    {
      ghost var app: Bytes32 := applicationParameter[applicationParameterOffset..applicationParameterOffset + 32];
      ghost var handle0 := keyHandle[..];

      // the nonce goes in the first half of the handle
      GenerateData(keyHandle, keyHandleOffset, nonce);
      assert keyHandle[keyHandleOffset..keyHandleOffset + 32] == nonce by {
        assert keyHandle[keyHandleOffset..keyHandleOffset + 32] == keyHandle[..][keyHandleOffset..keyHandleOffset + 32];
      }

      // derive the scalar and write its public point
      GeneratePrivateKey(keyHandle, keyHandleOffset, applicationParameter, applicationParameterOffset);
      assert scratch[0..32] == Derive(Identity(), app, nonce) by {
        assert scratch[0..32] == scratch[..];
      }
      privateKey.SetS(scratch, 0, 32);
      ghost var point := ecMultiply(privateKey.s);
      ghost var handle1 := keyHandle[..];
      var _ := GeneratePublicKeyPoint(publicKey, publicKeyOffset);
      assert keyHandle[keyHandleOffset..keyHandleOffset + 32] == nonce by {
        if keyHandle == publicKey {
          SpliceKeeps(handle1, publicKeyOffset, point, keyHandleOffset, keyHandleOffset + 32);
        }
      }

      // erase the scalar from scratch and from the key pair
      var _ := ArrayFillNonAtomic(scratch, 0, 32, 0);
      privateKey.SetS(scratch, 0, 32);

      // the tag goes in the second half of the handle
      CalcMAC(applicationParameter, applicationParameterOffset, keyHandle, keyHandleOffset);
      ghost var tag := scratch[..];
      assert scratch[0..32] == tag;
      assert WrapHandle(Identity(), app, nonce) == nonce + tag;
      var _ := ArrayCopyNonAtomic(scratch, 0, keyHandle, keyHandleOffset + 32, 32);
      if keyHandle == publicKey {
        SharedBufferLayout(handle0, keyHandleOffset, nonce, tag, publicKeyOffset, point);
      } else {
        SpliceAdjacent(handle0, keyHandleOffset, nonce, tag);
      }
      len := 64;
    }

    /** Checks the key handle at `keyHandleOffset` against the application
        parameter at `applicationParameterOffset`. Returns true exactly when the
        handle's last 32 bytes are the MAC over the application parameter and its
        first 32 bytes; only then, and only for a non-null key, is the scalar
        re-derived into `unwrappedPrivateKey`, and only then is `scratch` zeroed.
        `keyHandleLength` is never consulted. */
    method Unwrap(keyHandle: array<byte>, keyHandleOffset: int, keyHandleLength: int,
                  applicationParameter: array<byte>, applicationParameterOffset: int,
                  unwrappedPrivateKey: ECPrivateKey?)
      returns (ok: bool)
      requires Valid()
      requires keyHandle != scratch && applicationParameter != scratch
      requires 0 <= keyHandleOffset && keyHandleOffset + 64 <= keyHandle.Length
      requires 0 <= applicationParameterOffset && applicationParameterOffset + 32 <= applicationParameter.Length
      modifies scratch, sha256, unwrappedPrivateKey
      ensures ok <==> Verify(Identity(), applicationParameter[applicationParameterOffset..applicationParameterOffset + 32],
                             keyHandle[keyHandleOffset..keyHandleOffset + 64])
      ensures ok ==> scratch[..] == Zeros(32)
      ensures !ok ==> scratch[..] == Mac(Identity(), applicationParameter[applicationParameterOffset..applicationParameterOffset + 32],
                                         keyHandle[keyHandleOffset..keyHandleOffset + 32])
      ensures ok && unwrappedPrivateKey != null ==>
                unwrappedPrivateKey.s == Derive(Identity(), applicationParameter[applicationParameterOffset..applicationParameterOffset + 32],
                                                keyHandle[keyHandleOffset..keyHandleOffset + 32])
      ensures !ok && unwrappedPrivateKey != null ==> unwrappedPrivateKey.s == old(unwrappedPrivateKey.s)
      ensures Credential.Unwrap(Identity(), applicationParameter[applicationParameterOffset..applicationParameterOffset + 32],
                                keyHandle[keyHandleOffset..keyHandleOffset + 64], unwrappedPrivateKey != null)
              == if !ok then Rejected
                 else if unwrappedPrivateKey != null then Accepted(Some(unwrappedPrivateKey.s))
                 else Accepted(None)
      ensures sha256.pending == []
    {
      ghost var handle: Handle := keyHandle[keyHandleOffset..keyHandleOffset + 64];
      assert handle[..32] == keyHandle[keyHandleOffset..keyHandleOffset + 32];
      assert handle[32..] == keyHandle[keyHandleOffset + 32..keyHandleOffset + 64];

      CalcMAC(applicationParameter, applicationParameterOffset, keyHandle, keyHandleOffset);

      if ArrayCompare(scratch[0..32], keyHandle[keyHandleOffset + 32..keyHandleOffset + 64]) != 0 {
        assert scratch[0..32] == scratch[..];
        return false;
      }
      assert scratch[0..32] == scratch[..];

      if unwrappedPrivateKey != null {
        GeneratePrivateKey(keyHandle, keyHandleOffset, applicationParameter, applicationParameterOffset);
        unwrappedPrivateKey.SetS(scratch, 0, 32);
      }
      var _ := ArrayFillNonAtomic(scratch, 0, 32, 0);
      ok := true;
    }
  }

  /** The handle and the public point written into one buffer: the nonce, then
      the point, then the tag leave the buffer as writing the whole handle and
      then the point would, and the handle's 64 bytes read back intact. */
  lemma SharedBufferLayout(buffer: seq<byte>, handleOffset: nat, nonce: seq<byte>, tag: seq<byte>,
                           pointOffset: nat, point: seq<byte>)
    requires |nonce| == 32 && |tag| == 32 && |point| == 65
    requires handleOffset + 64 <= |buffer| && pointOffset + 65 <= |buffer|
    requires handleOffset + 64 <= pointOffset || pointOffset + 65 <= handleOffset
    ensures Splice(Splice(Splice(buffer, handleOffset, nonce), pointOffset, point), handleOffset + 32, tag)
            == Splice(Splice(buffer, handleOffset, nonce + tag), pointOffset, point)
    ensures Splice(Splice(buffer, handleOffset, nonce + tag), pointOffset, point)[handleOffset..handleOffset + 64] == nonce + tag
  {
    var withNonce := Splice(buffer, handleOffset, nonce);
    SpliceCommute(withNonce, pointOffset, point, handleOffset + 32, tag);
    SpliceAdjacent(buffer, handleOffset, nonce, tag);
    SpliceCommute(buffer, handleOffset, nonce + tag, pointOffset, point);
    SpliceKeeps(Splice(buffer, handleOffset, nonce + tag), pointOffset, point, handleOffset, handleOffset + 64);
  }

  /** Registration followed by authentication, as the surrounding applet drives
      them: the handle that wrapping writes is accepted by unwrapping with the
      same application parameter, and the key it re-derives is the scalar whose
      public point wrapping wrote. */
  method RegisterThenAuthenticate(fido: FIDOCCImplementation,
                                  applicationParameter: array<byte>, applicationParameterOffset: int,
                                  publicKey: array<byte>, publicKeyOffset: int,
                                  keyHandle: array<byte>, keyHandleOffset: int,
                                  nonce: Bytes32, signingKey: ECPrivateKey)
    returns (ok: bool)
    requires fido.Valid()
    requires applicationParameter != fido.scratch && publicKey != fido.scratch && keyHandle != fido.scratch
    requires 0 <= applicationParameterOffset && applicationParameterOffset + 32 <= applicationParameter.Length
    requires 0 <= publicKeyOffset && publicKeyOffset + 65 <= publicKey.Length
    requires 0 <= keyHandleOffset && keyHandleOffset + 64 <= keyHandle.Length
    requires Separate(keyHandle, keyHandleOffset, 64, publicKey, publicKeyOffset, 65)
    requires applicationParameter != keyHandle && applicationParameter != publicKey
    modifies fido.scratch, fido.sha256, fido.privateKey, publicKey, keyHandle, signingKey
    ensures ok
    ensures signingKey.s == Derive(fido.Identity(), old(applicationParameter[applicationParameterOffset..applicationParameterOffset + 32]), nonce)
    ensures fido.ecMultiply(signingKey.s) == publicKey[publicKeyOffset..publicKeyOffset + 65]
    ensures fido.scratch[..] == Zeros(32)
  {
    ghost var app: Bytes32 := applicationParameter[applicationParameterOffset..applicationParameterOffset + 32];
    var _ := fido.GenerateKeyAndWrap(applicationParameter, applicationParameterOffset, null,
                                     publicKey, publicKeyOffset, keyHandle, keyHandleOffset, nonce);
    ghost var point := publicKey[publicKeyOffset..publicKeyOffset + 65];
    RoundTrip(fido.Identity(), app, nonce);
    ok := fido.Unwrap(keyHandle, keyHandleOffset, 64, applicationParameter, applicationParameterOffset, signingKey);
    assert keyHandle[keyHandleOffset..keyHandleOffset + 32] == nonce;
    if signingKey == fido.privateKey {
      assert publicKey[publicKeyOffset..publicKeyOffset + 65] == point;
    }
  }
}
