/** The pieces of the Java Card platform that FIDOCCImplementation drives: Java's
    signed byte, AES key objects used as 16-byte secret holders, the stateful
    SHA-256 MessageDigest, the EC private key's S component, and the array
    utilities of javacard.framework.Util.

    The hash primitive itself is not modelled: a MessageDigest is given its hash
    function when it is created, so every property proved here holds for any
    function that maps a message to 32 bytes. */
module JavaCard {

  /** Java's `byte`: a signed 8-bit value. */
  newtype byte = x: int | -128 <= x < 128

  /** Key material and digests of fixed width. */
  type Key16 = s: seq<byte> | |s| == 16 witness seq(16, _ => 0)
  type Bytes32 = s: seq<byte> | |s| == 32 witness seq(32, _ => 0)

  /** `n` zero bytes, the value `Util.arrayFillNonAtomic(…, (byte)0x00)` writes. */
  function Zeros(n: nat): seq<byte>
  {
    seq(n, _ => 0)
  }

  /** The result of `Util.arrayCompare` on two equally long byte ranges: 0 when
      they are identical, otherwise -1 or 1 as the first differing byte of
      `src` is smaller or larger (bytes compare as signed values). */
  function ArrayCompare(src: seq<byte>, dest: seq<byte>): (r: int)
    requires |src| == |dest|
    ensures -1 <= r <= 1
    ensures r == 0 <==> src == dest
    decreases |src|
  {
    if |src| == 0 then 0
    else if src[0] < dest[0] then -1
    else if src[0] > dest[0] then 1
    else ArrayCompare(src[1..], dest[1..])
  }

  /** `s` with the bytes at [off, off + |piece|) replaced by `piece`: the new
      contents of a buffer after a write of `piece` at `off`. */
  function Splice(s: seq<byte>, off: nat, piece: seq<byte>): (r: seq<byte>)
    requires off + |piece| <= |s|
    ensures |r| == |s|
    ensures r[off..off + |piece|] == piece
    ensures r[..off] == s[..off] && r[off + |piece|..] == s[off + |piece|..]
  {
    s[..off] + piece + s[off + |piece|..]
  }

  /** A write leaves every range that it does not overlap as it was. */
  lemma SpliceKeeps(s: seq<byte>, off: nat, piece: seq<byte>, lo: nat, hi: nat)
    requires off + |piece| <= |s| && lo <= hi <= |s|
    requires hi <= off || off + |piece| <= lo
    ensures Splice(s, off, piece)[lo..hi] == s[lo..hi]
  {
  }

  /** Two writes to ranges that do not overlap give the same buffer in either
      order. */
  lemma SpliceCommute(s: seq<byte>, off1: nat, p1: seq<byte>, off2: nat, p2: seq<byte>)
    requires off1 + |p1| <= |s| && off2 + |p2| <= |s|
    requires off1 + |p1| <= off2 || off2 + |p2| <= off1
    ensures Splice(Splice(s, off1, p1), off2, p2) == Splice(Splice(s, off2, p2), off1, p1)
  {
  }

  /** Writing `p1` and then `p2` right after it is writing `p1 + p2`. */
  lemma SpliceAdjacent(s: seq<byte>, off: nat, p1: seq<byte>, p2: seq<byte>)
    requires off + |p1| + |p2| <= |s|
    ensures Splice(Splice(s, off, p1), off + |p1|, p2) == Splice(s, off, p1 + p2)
  {
  }

  /** `Util.arrayFillNonAtomic`: bytes [off, off + len) of `buffer` become `value`;
      the returned offset is `off + len`. */
  method ArrayFillNonAtomic(buffer: array<byte>, off: int, len: int, value: byte) returns (end: int)
    requires 0 <= off && 0 <= len && off + len <= buffer.Length
    modifies buffer
    ensures end == off + len
    ensures buffer[..] == Splice(old(buffer[..]), off, seq(len, _ => value))
  {
    Write(buffer, off, seq(len, _ => value));
    end := off + len;
  }

  /** `Util.arrayCopyNonAtomic`: bytes [srcOff, srcOff + len) of `src`, as they were
      before the call, land at [destOff, destOff + len) of `dest`; the returned
      offset is `destOff + len`. Overlapping ranges of one array copy as if
      through a temporary buffer. */
  method ArrayCopyNonAtomic(src: array<byte>, srcOff: int, dest: array<byte>, destOff: int, len: int)
    returns (end: int)
    requires 0 <= srcOff && 0 <= len && srcOff + len <= src.Length
    requires 0 <= destOff && destOff + len <= dest.Length
    modifies dest
    ensures end == destOff + len
    ensures dest[..] == Splice(old(dest[..]), destOff, old(src[srcOff..srcOff + len]))
  {
    Write(dest, destOff, src[srcOff..srcOff + len]);
    end := destOff + len;
  }

  /** The byte-by-byte write underneath every platform call that fills a
      caller's buffer: `bytes` land at `offset` of `buffer`. */
  method Write(buffer: array<byte>, offset: int, bytes: seq<byte>)
    requires 0 <= offset && offset + |bytes| <= buffer.Length
    modifies buffer
    ensures buffer[..] == Splice(old(buffer[..]), offset, bytes)
  {
    forall i | 0 <= i < |bytes| {
      buffer[offset + i] := bytes[i];
    }
  }

  /** `RandomData.generateData`: `|bytes|` random bytes land at `offset` of
      `buffer`. The random bytes are a parameter; randomness is not modelled. */
  method GenerateData(buffer: array<byte>, offset: int, bytes: seq<byte>)
    requires 0 <= offset && offset + |bytes| <= buffer.Length
    modifies buffer
    ensures buffer[..] == Splice(old(buffer[..]), offset, bytes)
  {
    Write(buffer, offset, bytes);
  }

  /** A 128-bit AES key object, used by the authenticator only as a holder of 16
      secret bytes that `getKey` copies out. */
  class AESKey {
    const key: Key16

    constructor (key: Key16)
      ensures this.key == key
    {
      this.key := key;
    }

    /** `AESKey.getKey`: the 16 key bytes land at `kOff` of `keyData`. */
    method GetKey(keyData: array<byte>, kOff: int) returns (n: int)
      requires 0 <= kOff && kOff + 16 <= keyData.Length
      modifies keyData
      ensures n == 16
      ensures keyData[..] == Splice(old(keyData[..]), kOff, key)
    {
      Write(keyData, kOff, key);
      n := 16;
    }
  }

  /** A SHA-256 `MessageDigest`: `pending` is the message accumulated since the
      last reset. */
  class MessageDigest {
    const hash: seq<byte> -> Bytes32
    var pending: seq<byte>

    constructor (hash: seq<byte> -> Bytes32)
      ensures this.hash == hash && pending == []
    {
      this.hash := hash;
      pending := [];
    }

    method Reset()
      modifies this
      ensures pending == []
    {
      pending := [];
    }

    method Update(inBuff: array<byte>, inOffset: int, inLength: int)
      requires 0 <= inOffset && 0 <= inLength && inOffset + inLength <= inBuff.Length
      modifies this
      ensures pending == old(pending) + inBuff[inOffset..inOffset + inLength]
    {
      pending := pending + inBuff[inOffset..inOffset + inLength];
    }

    /** `MessageDigest.doFinal`: hashes the pending message followed by the input
        range, writes the 32-byte digest at `outOffset` and resets the object.
        The input range is read before the output is written, so the two may
        overlap. */
    method DoFinal(inBuff: array<byte>, inOffset: int, inLength: int, outBuff: array<byte>, outOffset: int)
      returns (n: int)
      requires 0 <= inOffset && 0 <= inLength && inOffset + inLength <= inBuff.Length
      requires 0 <= outOffset && outOffset + 32 <= outBuff.Length
      modifies this, outBuff
      ensures n == 32 && pending == []
      ensures outBuff[..] == Splice(old(outBuff[..]), outOffset, hash(old(pending) + old(inBuff[inOffset..inOffset + inLength])))
    {
      var digest := hash(pending + inBuff[inOffset..inOffset + inLength]);
      Write(outBuff, outOffset, digest);
      pending := [];
      n := 32;
    }
  }

  /** The private half of an EC key pair; only its secret value S is modelled. */
  class ECPrivateKey {
    var s: seq<byte>

    constructor ()
      ensures s == []
    {
      s := [];
    }

    /** `ECPrivateKey.setS`: S becomes a copy of the given byte range. */
    method SetS(buffer: array<byte>, offset: int, length: int)
      requires 0 <= offset && 0 <= length && offset + length <= buffer.Length
      modifies this
      ensures s == buffer[offset..offset + length]
    {
      s := buffer[offset..offset + length];
    }
  }
}
