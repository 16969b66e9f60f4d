/** Multiple-precision integers (section 5 of RFC 4251) and the signature blobs built from them
    (section 3.1.2 of RFC 5656). Values are non-negative, given as big-endian bytes. */
module Mpint {
  import opened Bytes
  import opened Named

  function Trim(v: bytes): bytes {
    if v != [] && v[0] == 0 then Trim(v[1..]) else v
  }

  /** The content of an mpint: no needless leading zero, but one where the top bit is set. */
  function Body(v: bytes): bytes {
    var t := Trim(v);
    if t != [] && t[0] >= 128 then [0] + t else t
  }

  function EncodeMpint(v: bytes): bytes {
    EncodeString(Body(v))
  }

  /** The encoder: find the first non-zero byte, then write length, sign byte and digits. */
  method AppendMpint(value: bytes, buf: bytes) returns (out: bytes)
    ensures out == buf + EncodeMpint(value)
  {
    var first := 0;
    assert value[0..] == value;
    while first < |value| && value[first] == 0
      invariant 0 <= first <= |value|
      invariant Trim(value[first..]) == Trim(value)
    {
      assert value[first..][1..] == value[first + 1..];
      first := first + 1;
    }
    var trimmed := value[first..];
    var pad := trimmed != [] && trimmed[0] >= 128;
    var len := |trimmed| + if pad then 1 else 0;
    out := buf + ToBE(len, 4);
    if pad {
      out := out + [0];
    }
    out := out + trimmed;
    assert out == buf + (ToBE(len, 4) + Body(value));
  }

  // The integer an mpint stands for

  lemma {:induction false} FromBECons(b: byte, s: bytes)
    ensures FromBE([b] + s) == b * Pow256(|s|) + FromBE(s)
  {
    if s == [] {
      assert [b] + s == [b];
      assert FromBE([b]) == 256 * FromBE([b][..0]) + b;
    } else {
      var init := s[..|s| - 1];
      assert ([b] + s)[..|s|] == [b] + init;
      FromBECons(b, init);
      assert 256 * (b * Pow256(|init|)) == b * Pow256(|s|);
    }
  }

  lemma {:induction false} TrimValue(v: bytes)
    ensures FromBE(Trim(v)) == FromBE(v)
    ensures |Trim(v)| <= |v| && v == Zeros(|v| - |Trim(v)|) + Trim(v)
    ensures Trim(v) != [] ==> Trim(v)[0] != 0
  {
    if v != [] && v[0] == 0 {
      TrimValue(v[1..]);
      FromBECons(0, v[1..]);
      assert v == [0] + v[1..];
    } else {
      assert v == Zeros(0) + v;
    }
  }

  lemma {:induction false} ZerosValue(n: nat, s: bytes)
    ensures FromBE(Zeros(n) + s) == FromBE(s)
  {
    if n == 0 {
      assert Zeros(0) + s == s;
    } else {
      ZerosValue(n - 1, s);
      FromBECons(0, Zeros(n - 1) + s);
      assert Zeros(n) + s == [0] + (Zeros(n - 1) + s);
    }
  }

  /** The canonical form of section 5 of RFC 4251, for a value that is not negative. */
  predicate Minimal(m: bytes) {
    m == [] || (m[0] < 128 && (m[0] == 0 ==> |m| > 1 && m[1] >= 128))
  }

  lemma BodyIsMinimal(v: bytes)
    ensures Minimal(Body(v)) && FromBE(Body(v)) == FromBE(v)
  {
    TrimValue(v);
    FromBECons(0, Trim(v));
  }

  lemma {:induction false} NonZeroLead(s: bytes)
    requires s != [] && s[0] != 0
    ensures FromBE(s) > 0
  {
    FromBECons(s[0], s[1..]);
    assert s == [s[0]] + s[1..];
  }

  lemma {:induction false} DigitsUnique(s: bytes, t: bytes)
    requires s != [] ==> s[0] != 0
    requires t != [] ==> t[0] != 0
    requires FromBE(s) == FromBE(t)
    ensures s == t
  {
    if s == [] || t == [] {
      if s != [] { NonZeroLead(s); }
      if t != [] { NonZeroLead(t); }
    } else {
      DigitsUnique(s[..|s| - 1], t[..|t| - 1]);
      assert s == s[..|s| - 1] + [s[|s| - 1]] && t == t[..|t| - 1] + [t[|t| - 1]];
    }
  }

  lemma MinimalIsBody(m: bytes)
    requires Minimal(m)
    ensures Body(m) == m
  {
    if m != [] && m[0] == 0 {
      assert Trim(m) == Trim(m[1..]) == m[1..];
      assert m == [0] + m[1..];
    }
  }

  /** Every non-negative integer has exactly one minimal form. */
  lemma MinimalUnique(m: bytes, n: bytes)
    requires Minimal(m) && Minimal(n) && FromBE(m) == FromBE(n)
    ensures m == n
  {
    TrimValue(m);
    TrimValue(n);
    DigitsUnique(Trim(m), Trim(n));
    MinimalIsBody(m);
    MinimalIsBody(n);
  }

  /** Two values encode alike exactly when they are the same integer. */
  lemma MpintCanonical(v: bytes, w: bytes)
    requires |v| + 1 < U32 && |w| + 1 < U32
    ensures EncodeMpint(v) == EncodeMpint(w) <==> FromBE(v) == FromBE(w)
  {
    BodyIsMinimal(v);
    BodyIsMinimal(w);
    TrimValue(v);
    TrimValue(w);
    if EncodeMpint(v) == EncodeMpint(w) {
      assert EncodeMpint(v) + [] == EncodeMpint(w) + [];
      StringInjective(Body(v), [], Body(w), []);
    }
    if FromBE(v) == FromBE(w) {
      MinimalUnique(Body(v), Body(w));
    }
  }

  // Back to fixed width

  function Significant(mpint: bytes): bytes {
    if |mpint| > 1 && mpint[0] == 0 then mpint[1..] else mpint
  }

  /** The mpint as exactly `width` bytes, if it fits. */
  function ToFixed(mpint: bytes, width: nat): (r: Option<bytes>)
    ensures r.Some? <==> |Significant(mpint)| <= width
    ensures r.Some? ==> |r.value| == width
  {
    var data := Significant(mpint);
    if |data| > width then None else Some(Zeros(width - |data|) + data)
  }

  lemma ToFixedValue(mpint: bytes, width: nat)
    requires ToFixed(mpint, width).Some?
    ensures FromBE(ToFixed(mpint, width).value) == FromBE(mpint)
  {
    var data := Significant(mpint);
    ZerosValue(width - |data|, data);
    if data != mpint {
      FromBECons(0, data);
      assert mpint == [0] + data;
    }
  }

  lemma FixedRoundTrip(v: bytes)
    ensures ToFixed(Body(v), |v|) == Some(v)
  {
    TrimValue(v);
    assert Significant(Body(v)) == Trim(v);
  }

  /** Right-align the digits of `mpint` in the slice from `lo` to `hi`. */
  method MpintToFixed(mpint: bytes, out: array<byte>, lo: nat, hi: nat) returns (ok: bool)
    requires lo <= hi <= out.Length
    requires forall i :: lo <= i < hi ==> out[i] == 0
    modifies out
    ensures ok == ToFixed(mpint, hi - lo).Some?
    ensures ok ==> out[lo..hi] == ToFixed(mpint, hi - lo).value
    ensures out[..lo] == old(out[..lo]) && out[hi..] == old(out[hi..])
  {
    var data := Significant(mpint);
    if |data| > hi - lo {
      return false;
    }
    var offset := hi - |data|;
    forall i | 0 <= i < |data| {
      out[offset + i] := data[i];
    }
    return true;
  }

  // Signatures

  datatype Signature = Signature(algorithm: PublicKeyAlgorithm, blob: bytes)

  /** What a host key's signature looks like in the key exchange reply. */
  function TaggedSignature(algorithm: PublicKeyAlgorithm, signature: bytes): bytes {
    var half := |signature| / 2;
    var blob := if algorithm == EcdsaSha2Nistp256
                then EncodeMpint(signature[..half]) + EncodeMpint(signature[half..])
                else signature;
    EncodeString(EncodeString(KeyName(algorithm)) + EncodeString(blob))
  }

  function DecodeSignature(utf8: Utf8, input: bytes): Decoding<Signature> {
    var outer :- DecodeString(input);
    if outer.next != [] then Err(InvalidPacket) else
    var name :- DecodeName(utf8, outer.value);
    var blob :- DecodeString(name.next);
    if blob.next != [] then Err(InvalidPacket)
    else Ok(Decoded(Signature(KeyTyped(name.value), blob.value), blob.next))
  }

  /** The fixed-length form that verification takes. */
  function EncodeForVerification(s: Signature): Result<bytes, ProtoError> {
    match s.algorithm
    case Ed25519 => Ok(s.blob)
    case UnknownKey(_) => Err(InvalidPacket)
    case EcdsaSha2Nistp256 =>
      var r :- DecodeString(s.blob);
      var t :- DecodeString(r.next);
      if t.next != [] then Err(InvalidPacket)
      else if ToFixed(r.value, 32).None? || ToFixed(t.value, 32).None? then Err(InvalidPacket)
      else Ok(ToFixed(r.value, 32).value + ToFixed(t.value, 32).value)
  }

  /** The same with the two integers written into one 64-byte buffer. */
  method EncodeSignature(s: Signature) returns (e: Result<bytes, ProtoError>)
    ensures e == EncodeForVerification(s)
  {
    match s.algorithm {
      case Ed25519 => return Ok(s.blob);
      case UnknownKey(_) => return Err(InvalidPacket);
      case EcdsaSha2Nistp256 =>
        var r := DecodeString(s.blob);
        if r.Err? {
          return Err(r.error);
        }
        var t := DecodeString(r.value.next);
        if t.Err? {
          return Err(t.error);
        }
        if t.value.next != [] {
          return Err(InvalidPacket);
        }
        var fixed := new byte[64](i => 0);
        var okR := MpintToFixed(r.value.value, fixed, 0, 32);
        if !okR {
          return Err(InvalidPacket);
        }
        ghost var left := fixed[..32];
        assert left == fixed[0..32];
        assert forall i :: 32 <= i < 64 ==> fixed[i] == fixed[32..][i - 32];
        var okS := MpintToFixed(t.value.value, fixed, 32, 64);
        if !okS {
          return Err(InvalidPacket);
        }
        assert fixed[..] == fixed[..32] + fixed[32..64];
        return Ok(fixed[..]);
    }
  }

  lemma BodyLength(v: bytes)
    ensures |Body(v)| <= |v| + 1
  {
    TrimValue(v);
  }

  lemma TaggedBlobDecodes(utf8: Utf8, algorithm: PublicKeyAlgorithm, blob: bytes)
    requires algorithm == Ed25519 || algorithm == EcdsaSha2Nistp256
    requires |blob| + 100 < U32
    ensures DecodeSignature(utf8, EncodeString(EncodeString(KeyName(algorithm)) + EncodeString(blob)))
         == Ok(Decoded(Signature(algorithm, blob), []))
  {
    hide DecodeString, EncodeString;
    var inner := EncodeString(KeyName(algorithm)) + EncodeString(blob);
    assert EncodeString(inner) + [] == EncodeString(inner);
    assert |inner| < U32 by {
      EncodedLength(KeyName(algorithm));
      EncodedLength(blob);
    }
    StringRoundTrip(inner, []);
    NameRoundTrip(utf8, KeyName(algorithm), EncodeString(blob));
    assert EncodeString(blob) + [] == EncodeString(blob);
    StringRoundTrip(blob, []);
  }

  lemma EcdsaBlobEncodes(r: bytes, s: bytes)
    requires |r| == 32 && |s| == 32
    ensures EncodeForVerification(Signature(EcdsaSha2Nistp256, EncodeMpint(r) + EncodeMpint(s))) == Ok(r + s)
  {
    hide DecodeString, EncodeString, Body;
    BodyLength(r);
    BodyLength(s);
    StringRoundTrip(Body(r), EncodeMpint(s));
    assert EncodeMpint(s) + [] == EncodeMpint(s);
    StringRoundTrip(Body(s), []);
    FixedRoundTrip(r);
    FixedRoundTrip(s);
  }

  lemma EncodedLength(s: bytes)
    ensures |EncodeString(s)| == 4 + |s|
  {
  }

  /** Framing a signature, parsing the frame and re-encoding the result for verification gives
      back the signature: any 64 bytes for ECDSA, any bytes for Ed25519. */
  lemma SignatureFramingRoundTrip(utf8: Utf8, algorithm: PublicKeyAlgorithm, signature: bytes)
    requires algorithm == Ed25519 || (algorithm == EcdsaSha2Nistp256 && |signature| == 64)
    requires |signature| + 100 < U32
    ensures var d := DecodeSignature(utf8, TaggedSignature(algorithm, signature));
            && d.Ok? && d.value.next == [] && d.value.value.algorithm == algorithm
            && EncodeForVerification(d.value.value) == Ok(signature)
  {
    hide DecodeSignature, EncodeString, Body;
    if algorithm == EcdsaSha2Nistp256 {
      var r, s := signature[..32], signature[32..];
      BodyLength(r);
      BodyLength(s);
      EncodedLength(Body(r));
      EncodedLength(Body(s));
      TaggedBlobDecodes(utf8, algorithm, EncodeMpint(r) + EncodeMpint(s));
      EcdsaBlobEncodes(r, s);
      assert r + s == signature;
    } else {
      TaggedBlobDecodes(utf8, algorithm, signature);
    }
  }
}
