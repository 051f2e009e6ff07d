/** The credential-wrapping protocol of the authenticator, as values: what the
    private-key derivation and the key-handle MAC compute, what a key handle
    looks like, and when a presented handle is accepted. The imperative class
    in module FIDOCC is proved to compute exactly these values in its buffers. */
module Credential {
  import opened JavaCard

  /** An uncompressed EC point as KeyAgreement writes it: 65 bytes. */
  type Point = s: seq<byte> | |s| == 65 witness seq(65, _ => 0)

  /** A key handle: the nonce followed by the MAC tag. */
  type Handle = s: seq<byte> | |s| == 64 witness seq(64, _ => 0)

  datatype Option<T> = None | Some(value: T)

  /** What a device holds for its whole life: the SHA-256 and point-multiplication
      primitives (left uninterpreted) and the four 16-byte secrets created at
      construction, the derivation seed pair and the MAC key pair. */
  datatype Device = Device(
    hash: seq<byte> -> Bytes32,
    ecMultiply: seq<byte> -> Point,
    seed1: Key16, seed2: Key16,
    mac1: Key16, mac2: Key16)

  /** The message hashed by both derivation and MAC: a 16-byte secret, the
      application parameter, the nonce and a second 16-byte secret. */
  function HashInput(first: Key16, app: Bytes32, nonce: Bytes32, last: Key16): seq<byte>
  {
    first + app + nonce + last
  }

  /** The private scalar of the credential for (`app`, `nonce`). */
  function Derive(d: Device, app: Bytes32, nonce: Bytes32): Bytes32
  {
    d.hash(HashInput(d.seed1, app, nonce, d.seed2))
  }

  /** The MAC tag binding `nonce` to `app`. */
  function Mac(d: Device, app: Bytes32, nonce: Bytes32): Bytes32
  {
    d.hash(HashInput(d.mac1, app, nonce, d.mac2))
  }

  /** The public point of the credential for (`app`, `nonce`). */
  function PublicPoint(d: Device, app: Bytes32, nonce: Bytes32): Point
  {
    d.ecMultiply(Derive(d, app, nonce))
  }

  /** The key handle issued for (`app`, `nonce`): the nonce in bytes [0, 32),
      the MAC tag over (`app`, `nonce`) in bytes [32, 64). */
  function WrapHandle(d: Device, app: Bytes32, nonce: Bytes32): Handle
  {
    nonce + Mac(d, app, nonce)
  }

  /** A presented handle passes the MAC check when its last 32 bytes are the tag
      recomputed over `app` and its first 32 bytes; that is exactly when it is
      the handle that wrapping would issue for `app` and that nonce. */
  function Verify(d: Device, app: Bytes32, handle: Handle): (ok: bool)
    ensures ok <==> handle == WrapHandle(d, app, handle[..32])
  {
    assert handle == handle[..32] + handle[32..];
    ArrayCompare(Mac(d, app, handle[..32]), handle[32..]) == 0
  }

  /** The outcome of unwrapping: rejected, or accepted with the re-derived
      private scalar when one was asked for. */
  datatype Outcome = Rejected | Accepted(key: Option<Bytes32>)

  /** Unwrapping `handle` for `app`: accepted exactly when the handle's tag is
      the MAC over `app` and the handle's own nonce; an accepted request for a
      key carries the scalar derived for that nonce, and a request without one
      carries none. */
  function Unwrap(d: Device, app: Bytes32, handle: Handle, wantKey: bool): (o: Outcome)
    ensures o.Accepted? <==> handle[32..] == Mac(d, app, handle[..32])
    ensures o.Accepted? && wantKey ==> o.key == Some(Derive(d, app, handle[..32]))
    ensures o.Accepted? && !wantKey ==> o.key == None
  {
    if !Verify(d, app, handle) then Rejected
    else if wantKey then Accepted(Some(Derive(d, app, handle[..32])))
    else Accepted(None)
  }

  /** Unwrap accepts exactly the handles that wrapping issues for `app`, whatever
      nonce they were issued with, and the scalar it returns is the one derived
      for the handle's nonce. */
  lemma UnwrapAcceptsExactlyWrapped(d: Device, app: Bytes32, handle: Handle, wantKey: bool)
    ensures Unwrap(d, app, handle, wantKey).Accepted? <==> exists nonce :: handle == WrapHandle(d, app, nonce)
    ensures Unwrap(d, app, handle, wantKey).Accepted? ==>
              Unwrap(d, app, handle, wantKey).key == if wantKey then Some(Derive(d, app, handle[..32])) else None
  {
  }

  /** Wrapping then unwrapping with the same application parameter succeeds, and
      the re-derived scalar is the one derived when the handle was issued. */
  lemma RoundTrip(d: Device, app: Bytes32, nonce: Bytes32)
    ensures Unwrap(d, app, WrapHandle(d, app, nonce), true) == Accepted(Some(Derive(d, app, nonce)))
  {
  }

  /** The hashed message determines its four fields: the fixed field widths make
      the concatenation unambiguous. */
  lemma HashInputInjective(k1: Key16, app: Bytes32, nonce: Bytes32, k2: Key16,
                           k1': Key16, app': Bytes32, nonce': Bytes32, k2': Key16)
    requires HashInput(k1, app, nonce, k2) == HashInput(k1', app', nonce', k2')
    ensures k1 == k1' && app == app' && nonce == nonce' && k2 == k2'
  {
    var m, m' := HashInput(k1, app, nonce, k2), HashInput(k1', app', nonce', k2');
    assert k1 == m[..16] == k1';
    assert app == m[16..48] == app';
    assert nonce == m[48..80] == nonce';
    assert k2 == m[80..] == k2';
  }

  /** When the seed pair differs from the MAC key pair, no private-key derivation
      hashes the same message as any MAC computation, whatever the application
      parameters and nonces. */
  lemma DerivationNeverHashesMacInput(d: Device, app: Bytes32, nonce: Bytes32, app': Bytes32, nonce': Bytes32)
    requires d.seed1 != d.mac1 || d.seed2 != d.mac2
    ensures HashInput(d.seed1, app, nonce, d.seed2) != HashInput(d.mac1, app', nonce', d.mac2)
  {
    if HashInput(d.seed1, app, nonce, d.seed2) == HashInput(d.mac1, app', nonce', d.mac2) {
      HashInputInjective(d.seed1, app, nonce, d.seed2, d.mac1, app', nonce', d.mac2);
    }
  }
}
