/** Wire primitives: big-endian integers and length-prefixed strings (section 5 of RFC 4251).

    A decoder returns the value together with the unread input, or the error the
    implementation reports; a length written by an `as u32` cast is the low four bytes of the
    real length, which is what `ToBE(n, 4)` yields. */
module Bytes {

  type byte = b: int | 0 <= b < 256
  type bytes = seq<byte>

  const U32: nat := 0x1_0000_0000
  const U64: nat := 0x1_0000_0000_0000_0000

  datatype Option<+T> = None | Some(value: T)

  datatype Result<+T, +E> = Ok(value: T) | Err(error: E) {
    predicate IsFailure() { Err? }
    function PropagateFailure<U>(): Result<U, E>
      requires Err?
    {
      Err(error)
    }
    function Extract(): T
      requires Ok?
    {
      value
    }
  }

  datatype CryptoError =
    | DecryptionFailed
    | InvalidLength
    | KeyAgreementFailed
    | KeyRejected
    | NonceOverflow
    | NoRandomness
    | UnknownAlgorithm

  datatype ProtoError =
    | Crypto(cause: CryptoError)
    | Incomplete(need: nat)
    | InvalidPacket
    | InvalidHostKey
    | NoCommonAlgorithm
    | UnexpectedMessage
    | Unreachable

  datatype Decoded<+T> = Decoded(value: T, next: bytes)

  type Decoding<+T> = Result<Decoded<T>, ProtoError>

  function Pow256(k: nat): (p: nat)
    ensures p > 0
  {
    if k == 0 then 1 else 256 * Pow256(k - 1)
  }

  /** The low `k` bytes of `n`, most significant first. */
  function ToBE(n: nat, k: nat): (s: bytes)
    ensures |s| == k
  {
    if k == 0 then [] else ToBE(n / 256, k - 1) + [n % 256]
  }

  function FromBE(s: bytes): nat {
    if s == [] then 0 else 256 * FromBE(s[..|s| - 1]) + s[|s| - 1]
  }

  lemma PowValues()
    ensures Pow256(4) == U32 && Pow256(8) == U64
  {
    assert Pow256(2) == 0x1_0000;
    assert Pow256(6) == 256 * (256 * Pow256(4));
  }

  lemma {:induction false} FromToBE(n: nat, k: nat)
    requires n < Pow256(k)
    ensures FromBE(ToBE(n, k)) == n
  {
    if k > 0 {
      FromToBE(n / 256, k - 1);
      assert ToBE(n, k)[..k - 1] == ToBE(n / 256, k - 1);
    }
  }

  lemma {:induction false} ToFromBE(s: bytes)
    ensures ToBE(FromBE(s), |s|) == s
    ensures FromBE(s) < Pow256(|s|)
  {
    if s != [] {
      ToFromBE(s[..|s| - 1]);
      assert s == s[..|s| - 1] + [s[|s| - 1]];
    }
  }

  lemma U32RoundTrip(n: nat)
    requires n < U32
    ensures FromBE(ToBE(n, 4)) == n
  {
    PowValues();
    FromToBE(n, 4);
  }

  lemma U64RoundTrip(n: nat)
    requires n < U64
    ensures FromBE(ToBE(n, 8)) == n
  {
    PowValues();
    FromToBE(n, 8);
  }

  // Decoders

  function DecodeU8(b: bytes): Decoding<byte> {
    if b == [] then Err(Incomplete(1)) else Ok(Decoded(b[0], b[1..]))
  }

  function DecodeBool(b: bytes): Decoding<bool> {
    if b == [] then Err(Incomplete(1)) else Ok(Decoded(b[0] != 0, b[1..]))
  }

  function DecodeU32(b: bytes): Decoding<nat> {
    if |b| < 4 then Err(Incomplete(4 - |b|)) else Ok(Decoded(FromBE(b[..4]), b[4..]))
  }

  function DecodeU64(b: bytes): Decoding<nat> {
    if |b| < 8 then Err(Incomplete(8 - |b|)) else Ok(Decoded(FromBE(b[..8]), b[8..]))
  }

  function DecodeString(b: bytes): Decoding<bytes> {
    var len :- DecodeU32(b);
    if |len.next| < len.value then Err(Incomplete(len.value - |len.next|))
    else Ok(Decoded(len.next[..len.value], len.next[len.value..]))
  }

  // Encoders

  function EncodeBool(b: bool): bytes {
    [if b then 1 else 0]
  }

  function EncodeString(s: bytes): bytes {
    ToBE(|s|, 4) + s
  }

  lemma EncodedString(s: bytes)
    ensures EncodeString(s) == ToBE(|s|, 4) + s
  {
  }

  lemma Concat3(a: bytes, b: bytes, c: bytes)
    ensures (a + b) + c == a + (b + c)
  {
  }

  lemma DecodeEncodedU32(n: nat, rest: bytes)
    requires n < U32
    ensures DecodeU32(ToBE(n, 4) + rest) == Ok(Decoded(n, rest))
  {
    U32RoundTrip(n);
    var b := ToBE(n, 4) + rest;
    assert b[..4] == ToBE(n, 4) && b[4..] == rest;
  }

  lemma DecodeEncodedU64(n: nat, rest: bytes)
    requires n < U64
    ensures DecodeU64(ToBE(n, 8) + rest) == Ok(Decoded(n, rest))
  {
    U64RoundTrip(n);
    var b := ToBE(n, 8) + rest;
    assert b[..8] == ToBE(n, 8) && b[8..] == rest;
  }

  /** A string whose length fits its prefix is read back, and reading stops exactly at its end. */
  lemma StringRoundTrip(s: bytes, rest: bytes)
    requires |s| < U32
    ensures DecodeString(EncodeString(s) + rest) == Ok(Decoded(s, rest))
  {
    assert EncodeString(s) + rest == ToBE(|s|, 4) + (s + rest);
    DecodeEncodedU32(|s|, s + rest);
    assert (s + rest)[..|s|] == s && (s + rest)[|s|..] == rest;
  }

  /** The four bytes of a number, most significant first. */
  lemma BigEndian(n: nat)
    requires n < U32
    ensures ToBE(n, 4) == [n / 0x100_0000, n / 0x1_0000 % 256, n / 0x100 % 256, n % 256]
  {
    var x, y, z := n / 256, n / 256 / 256, n / 256 / 256 / 256;
    assert y == n / 0x1_0000 && z == n / 0x100_0000 && z < 256;
    assert ToBE(z, 1) == ToBE(z / 256, 0) + [z % 256] == [z];
    assert ToBE(y, 2) == [z, y % 256];
    assert ToBE(x, 3) == [z, y % 256, x % 256];
  }

  /** Reading a number, and nothing but reading it back. */
  lemma ReadsU32Iff(b: bytes, n: nat, rest: bytes)
    ensures DecodeU32(b) == Ok(Decoded(n, rest)) <==> n < U32 && b == ToBE(n, 4) + rest
  {
    PowValues();
    if n < U32 && b == ToBE(n, 4) + rest {
      DecodeEncodedU32(n, rest);
    }
    if |b| >= 4 {
      ToFromBE(b[..4]);
      assert b == b[..4] + b[4..];
    }
  }

  /** A string is read exactly if the bytes start with its encoding. */
  lemma ReadsStringIff(b: bytes, s: bytes, rest: bytes)
    ensures DecodeString(b) == Ok(Decoded(s, rest)) <==> |s| < U32 && b == EncodeString(s) + rest
  {
    if |s| < U32 && b == EncodeString(s) + rest {
      StringRoundTrip(s, rest);
    }
    if DecodeString(b) == Ok(Decoded(s, rest)) {
      ReadsU32Iff(b, |s|, b[4..]);
      assert b[4..] == s + rest;
    }
  }

  /** Two strings in front of two tails can only agree when strings and tails do. */
  lemma StringInjective(s: bytes, restS: bytes, t: bytes, restT: bytes)
    requires |s| < U32 && |t| < U32
    requires EncodeString(s) + restS == EncodeString(t) + restT
    ensures s == t && restS == restT
  {
    StringRoundTrip(s, restS);
    StringRoundTrip(t, restT);
  }

  function Zeros(n: nat): (z: bytes)
    ensures |z| == n
    ensures forall i :: 0 <= i < n ==> z[i] == 0
  {
    seq(n, i => 0)
  }

  /** The concatenation of a list of byte strings. */
  function Flatten(pieces: seq<bytes>): bytes {
    if pieces == [] then [] else pieces[0] + Flatten(pieces[1..])
  }

  /** The bytes of an ASCII literal. */
  function Ascii(s: string): (b: bytes)
    requires forall i :: 0 <= i < |s| ==> s[i] as int < 128
    ensures |b| == |s|
    ensures forall i :: 0 <= i < |b| ==> b[i] == s[i] as int < 128
  {
    seq(|s|, i requires 0 <= i < |s| => s[i] as int)
  }
}
