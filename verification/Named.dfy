/** Algorithm, service and method names, and comma-separated name lists (section 5 of RFC 4251).

    UTF-8 validity is a parameter of which only one thing is used: ASCII text is valid. */
module Named {
  import opened Bytes

  ghost predicate AcceptsAscii(valid: bytes -> bool) {
    forall b :: (forall i :: 0 <= i < |b| ==> b[i] < 128) ==> valid(b)
  }

  type Utf8 = valid: bytes -> bool | AcceptsAscii(valid) witness b => true

  datatype KexAlgorithm = MlKem768X25519Sha256 | Curve25519Sha256 | UnknownKex(name: bytes)
  datatype ExtensionId = ExtInfoC | StrictKexClient | StrictKexServer
  datatype KexEntry = Kex(algorithm: KexAlgorithm) | Extension(id: ExtensionId)
  datatype PublicKeyAlgorithm = EcdsaSha2Nistp256 | Ed25519 | UnknownKey(name: bytes)
  datatype EncryptionAlgorithm = Aes128Gcm | UnknownCipher(name: bytes)
  datatype ServiceName = UserAuth | Connection | UnknownService(name: bytes)
  datatype MethodName = PublicKeyMethod | NoneMethod | OtherMethod(name: bytes)
  datatype KeyLengths = KeyLengths(keyLen: nat, ivLen: nat)

  const MLKEM := Ascii("mlkem768x25519-sha256")
  const CURVE := Ascii("curve25519-sha256")
  const EXT_INFO_C := Ascii("ext-info-c")
  const STRICT_C := Ascii("kex-strict-c-v00@openssh.com")
  const STRICT_S := Ascii("kex-strict-s-v00@openssh.com")
  const ECDSA := Ascii("ecdsa-sha2-nistp256")
  const ED25519 := Ascii("ssh-ed25519")
  const AES128GCM := Ascii("aes128-gcm@openssh.com")
  const USERAUTH := Ascii("ssh-userauth")
  const CONNECTION := Ascii("ssh-connection")
  const PUBLICKEY := Ascii("publickey")
  const NONE := Ascii("none")
  const NISTP256 := Ascii("nistp256")

  function KexName(e: KexEntry): bytes {
    match e
    case Kex(MlKem768X25519Sha256) => MLKEM
    case Kex(Curve25519Sha256) => CURVE
    case Kex(UnknownKex(name)) => name
    case Extension(ExtInfoC) => EXT_INFO_C
    case Extension(StrictKexClient) => STRICT_C
    case Extension(StrictKexServer) => STRICT_S
  }

  function KexTyped(name: bytes): KexEntry {
    if name == MLKEM then Kex(MlKem768X25519Sha256)
    else if name == CURVE then Kex(Curve25519Sha256)
    else if name == EXT_INFO_C then Extension(ExtInfoC)
    else if name == STRICT_C then Extension(StrictKexClient)
    else if name == STRICT_S then Extension(StrictKexServer)
    else Kex(UnknownKex(name))
  }

  function KeyName(a: PublicKeyAlgorithm): bytes {
    match a
    case EcdsaSha2Nistp256 => ECDSA
    case Ed25519 => ED25519
    case UnknownKey(name) => name
  }

  function KeyTyped(name: bytes): PublicKeyAlgorithm {
    if name == ECDSA then EcdsaSha2Nistp256
    else if name == ED25519 then Ed25519
    else UnknownKey(name)
  }

  function CipherName(a: EncryptionAlgorithm): bytes {
    match a
    case Aes128Gcm => AES128GCM
    case UnknownCipher(name) => name
  }

  function CipherTyped(name: bytes): EncryptionAlgorithm {
    if name == AES128GCM then Aes128Gcm else UnknownCipher(name)
  }

  function Lengths(a: EncryptionAlgorithm): Option<KeyLengths> {
    match a
    case Aes128Gcm => Some(KeyLengths(16, 12))
    case UnknownCipher(_) => None
  }

  function ServiceTyped(name: bytes): ServiceName {
    if name == USERAUTH then UserAuth
    else if name == CONNECTION then Connection
    else UnknownService(name)
  }

  function ServiceBytes(s: ServiceName): bytes {
    match s
    case UserAuth => USERAUTH
    case Connection => CONNECTION
    case UnknownService(name) => name
  }

  function MethodTyped(name: bytes): MethodName {
    if name == PUBLICKEY then PublicKeyMethod
    else if name == NONE then NoneMethod
    else OtherMethod(name)
  }

  /** A name on its own, as a string field. */
  function DecodeName(utf8: Utf8, b: bytes): Decoding<bytes> {
    var d :- DecodeString(b);
    if utf8(d.value) then Ok(d) else Err(InvalidPacket)
  }

  lemma {:induction false} NameRoundTrip(utf8: Utf8, name: bytes, rest: bytes)
    requires |name| < U32
    requires forall i :: 0 <= i < |name| ==> name[i] < 128
    ensures DecodeName(utf8, EncodeString(name) + rest) == Ok(Decoded(name, rest))
  {
    StringRoundTrip(name, rest);
  }

  // Name lists

  const COMMA: byte := 44

  /** Names separated by single commas; no names give no bytes. */
  function Join(names: seq<bytes>): bytes {
    if names == [] then []
    else if |names| == 1 then names[0]
    else names[0] + [COMMA] + Join(names[1..])
  }

  /** The pieces between commas; there is always at least one. */
  function Split(list: bytes): (pieces: seq<bytes>)
    ensures |pieces| >= 1
  {
    if list == [] then [[]]
    else
      var tail := Split(list[1..]);
      if list[0] == COMMA then [[]] + tail else [[list[0]] + tail[0]] + tail[1..]
  }

  predicate AllValid(utf8: Utf8, names: seq<bytes>) {
    forall i :: 0 <= i < |names| ==> utf8(names[i])
  }

  function DecodeNames(utf8: Utf8, b: bytes): Decoding<seq<bytes>> {
    var d :- DecodeString(b);
    if d.value == [] then Ok(Decoded([], d.next))
    else if AllValid(utf8, Split(d.value)) then Ok(Decoded(Split(d.value), d.next))
    else Err(InvalidPacket)
  }

  function EncodeNames(names: seq<bytes>): bytes {
    EncodeString(Join(names))
  }

  predicate CommaFree(name: bytes) {
    COMMA !in name
  }

  lemma {:induction false} SplitName(name: bytes, rest: bytes)
    requires CommaFree(name)
    requires rest == [] || rest[0] == COMMA
    ensures Split(name + rest) == [name] + if rest == [] then [] else Split(rest[1..])
  {
    if name == [] {
      assert name + rest == rest;
    } else {
      assert (name + rest)[1..] == name[1..] + rest;
      SplitName(name[1..], rest);
      assert [name[0]] + name[1..] == name;
    }
  }

  lemma {:induction false} SplitJoin(names: seq<bytes>)
    requires names != []
    requires forall i :: 0 <= i < |names| ==> CommaFree(names[i])
    ensures Split(Join(names)) == names
  {
    if |names| == 1 {
      SplitName(names[0], []);
      assert names[0] + [] == names[0];
    } else {
      var rest := [COMMA] + Join(names[1..]);
      assert Join(names) == names[0] + rest;
      SplitName(names[0], rest);
      assert rest[1..] == Join(names[1..]);
      SplitJoin(names[1..]);
      assert names == [names[0]] + names[1..];
    }
  }

  lemma {:induction false} JoinEmpty(names: seq<bytes>)
    ensures Join(names) == [] <==> names == [] || names == [[]]
  {
  }

  /** A list of valid comma-free names is read back unchanged, except that the list holding one
      empty name is indistinguishable from the empty list. */
  lemma {:induction false} NamesRoundTrip(utf8: Utf8, names: seq<bytes>, rest: bytes)
    requires |Join(names)| < U32
    requires forall i :: 0 <= i < |names| ==> CommaFree(names[i]) && utf8(names[i])
    ensures DecodeNames(utf8, EncodeNames(names) + rest)
         == Ok(Decoded(if names == [[]] then [] else names, rest))
  {
    StringRoundTrip(Join(names), rest);
    JoinEmpty(names);
    if Join(names) != [] {
      SplitJoin(names);
    }
  }

  lemma {:induction false} JoinSplit(list: bytes)
    ensures Join(Split(list)) == list
    ensures forall i :: 0 <= i < |Split(list)| ==> CommaFree(Split(list)[i])
  {
    if list != [] {
      var tail, pieces := Split(list[1..]), Split(list);
      JoinSplit(list[1..]);
      assert list == [list[0]] + list[1..];
      if list[0] == COMMA {
        assert pieces[1..] == tail;
        assert [] + [COMMA] + Join(tail) == [COMMA] + Join(tail);
      } else if |tail| == 1 {
        assert pieces == [[list[0]] + tail[0]];
      } else {
        assert pieces[1..] == tail[1..];
        assert ([list[0]] + tail[0]) + [COMMA] + Join(tail[1..]) == [list[0]] + (tail[0] + [COMMA] + Join(tail[1..]));
      }
    }
  }

  /** A list that comes back as it is. */
  predicate Listable(utf8: Utf8, names: seq<bytes>) {
    && names != [[]] && |Join(names)| < U32
    && forall i :: 0 <= i < |names| ==> CommaFree(names[i]) && utf8(names[i])
  }

  /** A list of names is read exactly if the bytes start with its encoding. */
  lemma ReadsNamesIff(utf8: Utf8, b: bytes, names: seq<bytes>, rest: bytes)
    ensures DecodeNames(utf8, b) == Ok(Decoded(names, rest)) <==>
              Listable(utf8, names) && b == EncodeNames(names) + rest
  {
    hide DecodeString, EncodeString;
    if Listable(utf8, names) && b == EncodeNames(names) + rest {
      NamesRoundTrip(utf8, names, rest);
    }
    if DecodeNames(utf8, b) == Ok(Decoded(names, rest)) {
      var list := DecodeString(b).value.value;
      ReadsStringIff(b, list, rest);
      if list != [] {
        JoinSplit(list);
        JoinEmpty(names);
      }
    }
  }

  lemma ReadsNameIff(utf8: Utf8, b: bytes, name: bytes, rest: bytes)
    ensures DecodeName(utf8, b) == Ok(Decoded(name, rest)) <==>
              |name| < U32 && utf8(name) && b == EncodeString(name) + rest
  {
    hide DecodeString, EncodeString;
    ReadsStringIff(b, name, rest);
  }

  lemma {:induction false} JoinSnoc(names: seq<bytes>, name: bytes)
    ensures Join(names + [name]) == if names == [] then name else Join(names) + [COMMA] + name
  {
    if names == [] {
      assert names + [name] == [name];
    } else {
      assert (names + [name])[1..] == names[1..] + [name];
      JoinSnoc(names[1..], name);
    }
  }

  /** The encoder: reserve four bytes, append the names in a loop, patch the length in. */
  method EncodeNameList(buf: bytes, names: seq<bytes>) returns (out: bytes)
    ensures out == buf + EncodeNames(names)
  {
    var offset := |buf|;
    out := buf + [0, 0, 0, 0];
    var first := true;
    for i := 0 to |names|
      invariant first == (i == 0)
      invariant out == buf + [0, 0, 0, 0] + Join(names[..i])
    {
      if first {
        first := false;
      } else {
        out := out + [COMMA];
      }
      out := out + names[i];
      JoinSnoc(names[..i], names[i]);
      assert names[..i + 1] == names[..i] + [names[i]];
    }
    assert names[..|names|] == names;
    var len := |out| - offset - 4;
    out := out[..offset] + ToBE(len, 4) + out[offset + 4..];
    assert out == buf + (ToBE(len, 4) + Join(names));
  }

  function Glue(front: bytes, pieces: seq<bytes>): seq<bytes>
    requires pieces != []
  {
    [front + pieces[0]] + pieces[1..]
  }

  lemma GlueNothing(pieces: seq<bytes>)
    requires pieces != []
    ensures Glue([], pieces) == pieces
  {
    assert [] + pieces[0] == pieces[0];
  }

  method SplitCommas(list: bytes) returns (pieces: seq<bytes>)
    ensures pieces == Split(list)
  {
    var current: bytes := [];
    pieces := [];
    assert list[0..] == list;
    GlueNothing(Split(list));
    for i := 0 to |list|
      invariant Split(list) == pieces + Glue(current, Split(list[i..]))
    {
      assert list[i..][1..] == list[i + 1..];
      ghost var rest := Split(list[i + 1..]);
      if list[i] == COMMA {
        GlueNothing(rest);
        assert current + [] == current;
        pieces, current := pieces + [current], [];
      } else {
        assert current + ([list[i]] + rest[0]) == (current + [list[i]]) + rest[0];
        current := current + [list[i]];
      }
    }
    assert current + [] == current;
    pieces := pieces + [current];
  }

  /** The decoder: cut the list at commas and push each checked name. */
  method DecodeNameList(utf8: Utf8, b: bytes) returns (r: Decoding<seq<bytes>>)
    ensures r == DecodeNames(utf8, b)
  {
    hide DecodeString, Split;
    var d := DecodeString(b);
    if d.Err? {
      return Err(d.error);
    }
    var list := d.value.value;
    if list == [] {
      return Ok(Decoded([], d.value.next));
    }
    var pieces := SplitCommas(list);
    var value: seq<bytes> := [];
    for i := 0 to |pieces|
      invariant value == pieces[..i]
      invariant forall j :: 0 <= j < i ==> utf8(pieces[j])
    {
      if !utf8(pieces[i]) {
        return Err(InvalidPacket);
      }
      value := value + [pieces[i]];
    }
    assert value == pieces;
    return Ok(Decoded(value, d.value.next));
  }
}
