/** The OpenSSH private key file: key entries, the blob that holds them, and its PEM text. */
module HostKeys {
  import opened Bytes
  import opened Named
  import opened Mpint

  datatype PrivateKey =
    | Ed25519Key(public: bytes, seed: bytes)
    | EcdsaKey(scalar: bytes, public: bytes)
  {
    predicate Sized() {
      match this
      case Ed25519Key(public, seed) => |public| == 32 && |seed| == 32
      case EcdsaKey(scalar, public) => |scalar| == 32 && |public| == 65
    }

    function Algorithm(): PublicKeyAlgorithm {
      if Ed25519Key? then Ed25519 else EcdsaSha2Nistp256
    }
  }

  /** The scalar is not zero; the format has no way to write a zero one. */
  predicate Writable(k: PrivateKey) {
    k.EcdsaKey? ==> Trim(k.scalar) != []
  }

  // One key

  function EncodeKey(k: PrivateKey): bytes {
    EncodeString(KeyName(k.Algorithm())) +
    match k
    case Ed25519Key(public, seed) => EncodeString(public) + (ToBE(64, 4) + (seed + public))
    case EcdsaKey(scalar, public) => EncodeString(NISTP256) + (EncodeString(public) + EncodeMpint(scalar))
  }

  function DecodeEd25519(b: bytes): Decoding<PrivateKey> {
    var public :- DecodeString(b);
    var private :- DecodeString(public.next);
    if |public.value| != 32 || |private.value| != 64 || private.value[32..] != public.value then Err(InvalidHostKey)
    else Ok(Decoded(Ed25519Key(public.value, private.value[..32]), private.next))
  }

  /** Leading zeros dropped, then padded to 32 bytes. */
  function FixedScalar(mpint: bytes): Option<bytes> {
    var t := Trim(mpint);
    if t == [] || |t| > 32 then None else Some(Zeros(32 - |t|) + t)
  }

  method PadScalar(mpint: bytes) returns (r: Option<bytes>)
    ensures r == FixedScalar(mpint)
  {
    var scalar := mpint;
    while scalar != [] && scalar[0] == 0
      invariant Trim(scalar) == Trim(mpint)
      decreases |scalar|
    {
      scalar := scalar[1..];
    }
    if scalar == [] || |scalar| > 32 {
      return None;
    }
    var out := new byte[32](_ => 0);
    forall i | 0 <= i < |scalar| {
      out[32 - |scalar| + i] := scalar[i];
    }
    assert out[..] == Zeros(32 - |scalar|) + scalar;
    return Some(out[..]);
  }

  function DecodeEcdsa(b: bytes): Decoding<PrivateKey> {
    var curve :- DecodeString(b);
    if curve.value != NISTP256 then Err(InvalidHostKey) else
    var public :- DecodeString(curve.next);
    var mpint :- DecodeString(public.next);
    var scalar := FixedScalar(mpint.value);
    if |public.value| != 65 || scalar.None? then Err(InvalidHostKey)
    else Ok(Decoded(EcdsaKey(scalar.value, public.value), mpint.next))
  }

  function DecodeKey(utf8: Utf8, b: bytes): Decoding<PrivateKey> {
    var name :- DecodeString(b);
    if !utf8(name.value) then Err(InvalidHostKey) else
    match KeyTyped(name.value)
    case Ed25519 => DecodeEd25519(name.next)
    case EcdsaSha2Nistp256 => DecodeEcdsa(name.next)
    case UnknownKey(_) => Err(InvalidHostKey)
  }

  lemma Ed25519RoundTrip(public: bytes, seed: bytes, rest: bytes)
    requires |public| == 32 && |seed| == 32
    ensures DecodeEd25519((EncodeString(public) + (ToBE(64, 4) + (seed + public))) + rest)
            == Ok(Decoded(Ed25519Key(public, seed), rest))
  {
    hide DecodeString, ToBE, EncodeString;
    var private := seed + public;
    assert EncodeString(private) == ToBE(64, 4) + private by { EncodedString(private); }
    Concat3(EncodeString(public), EncodeString(private), rest);
    StringRoundTrip(public, EncodeString(private) + rest);
    StringRoundTrip(private, rest);
    assert private[32..] == public && private[..32] == seed;
  }

  lemma ScalarRoundTrip(scalar: bytes)
    requires |scalar| == 32
    ensures FixedScalar(Body(scalar)) == if Trim(scalar) == [] then None else Some(scalar)
  {
    TrimValue(scalar);
    var t := Trim(scalar);
    if t != [] && t[0] >= 128 {
      assert ([0] + t)[1..] == t;
      assert Trim([0] + t) == t;
    } else if t != [] {
      assert Trim(t) == t;
    }
  }

  lemma EcdsaRoundTrip(scalar: bytes, public: bytes, rest: bytes)
    requires |scalar| == 32 && |public| == 65
    ensures DecodeEcdsa((EncodeString(NISTP256) + (EncodeString(public) + EncodeMpint(scalar))) + rest)
            == if Trim(scalar) == [] then Err(InvalidHostKey) else Ok(Decoded(EcdsaKey(scalar, public), rest))
  {
    hide DecodeString, EncodeString, Body, FixedScalar, Trim;
    var curve, point, mpint := EncodeString(NISTP256), EncodeString(public), EncodeMpint(scalar);
    Concat3(curve, point + mpint, rest);
    Concat3(point, mpint, rest);
    StringRoundTrip(NISTP256, point + (mpint + rest));
    StringRoundTrip(public, mpint + rest);
    BodyLength(scalar);
    StringRoundTrip(Body(scalar), rest);
    ScalarRoundTrip(scalar);
  }

  /** A key comes back from its entry, whatever follows it, exactly when it is writable. */
  lemma KeyRoundTrip(utf8: Utf8, k: PrivateKey, rest: bytes)
    requires k.Sized()
    ensures DecodeKey(utf8, EncodeKey(k) + rest) == if Writable(k) then Ok(Decoded(k, rest)) else Err(InvalidHostKey)
  {
    hide DecodeString, EncodeString, DecodeEd25519, DecodeEcdsa, ToBE, EncodeMpint, Trim;
    var name := KeyName(k.Algorithm());
    match k
    case Ed25519Key(public, seed) =>
      var body := EncodeString(public) + (ToBE(64, 4) + (seed + public));
      Concat3(EncodeString(name), body, rest);
      StringRoundTrip(name, body + rest);
      Ed25519RoundTrip(public, seed, rest);
    case EcdsaKey(scalar, public) =>
      var body := EncodeString(NISTP256) + (EncodeString(public) + EncodeMpint(scalar));
      Concat3(EncodeString(name), body, rest);
      StringRoundTrip(name, body + rest);
      EcdsaRoundTrip(scalar, public, rest);
  }

  // The blob

  const MAGIC := Ascii("openssh-key-v1") + [0]

  function PublicBlob(k: PrivateKey): bytes {
    EncodeString(KeyName(k.Algorithm())) +
    if k.Ed25519Key? then EncodeString(k.public) else EncodeString(NISTP256) + EncodeString(k.public)
  }

  function Publics(keys: seq<PrivateKey>): bytes {
    if keys == [] then [] else EncodeString(PublicBlob(keys[0])) + Publics(keys[1..])
  }

  /** Each key is followed by an empty comment. */
  function Entries(keys: seq<PrivateKey>): bytes {
    if keys == [] then [] else (EncodeKey(keys[0]) + EncodeString([])) + Entries(keys[1..])
  }

  /** 1, 2, 3, ... up to a multiple of the block size 8. */
  function BlockPadding(n: nat): (p: bytes)
    ensures |p| < 8 && (n + |p|) % 8 == 0
    ensures forall i :: 0 <= i < |p| ==> p[i] == i + 1
  {
    seq((8 - n % 8) % 8, i requires 0 <= i < 8 => i + 1)
  }

  function Section(check: bytes, keys: seq<PrivateKey>): bytes {
    var private := check + (check + Entries(keys));
    private + BlockPadding(|private|)
  }

  function Preamble(count: nat): bytes {
    MAGIC + (EncodeString(NONE) + (EncodeString(NONE) + (EncodeString([]) + ToBE(count % U32, 4))))
  }

  function ToBytes(check: bytes, keys: seq<PrivateKey>): bytes {
    Preamble(|keys|) + (Publics(keys) + EncodeString(Section(check, keys)))
  }

  lemma {:induction false} PublicsSnoc(keys: seq<PrivateKey>, k: PrivateKey)
    ensures Publics(keys + [k]) == Publics(keys) + EncodeString(PublicBlob(k))
    ensures Entries(keys + [k]) == Entries(keys) + (EncodeKey(k) + EncodeString([]))
  {
    hide PublicBlob, EncodeKey, EncodeString;
    if keys == [] {
      assert keys + [k] == [k] && [k][1..] == [];
    } else {
      assert (keys + [k])[1..] == keys[1..] + [k];
      PublicsSnoc(keys[1..], k);
    }
  }

  /** Two buffers grow side by side. */
  method Serialize(check: bytes, keys: seq<PrivateKey>) returns (blob: bytes)
    ensures blob == ToBytes(check, keys)
  {
    hide PublicBlob, EncodeKey, EncodeString, Preamble;
    blob := Preamble(|keys|);
    ghost var start := blob;
    var private := check + check;
    var i := 0;
    assert keys[..0] == [] && check + (check + []) == check + check;
    while i < |keys|
      invariant 0 <= i <= |keys|
      invariant blob == start + Publics(keys[..i])
      invariant private == check + (check + Entries(keys[..i]))
    {
      assert keys[..i + 1] == keys[..i] + [keys[i]];
      PublicsSnoc(keys[..i], keys[i]);
      blob := blob + EncodeString(PublicBlob(keys[i]));
      private := private + EncodeKey(keys[i]) + EncodeString([]);
      i := i + 1;
    }
    assert keys[..i] == keys;
    var n := |private|;
    var j := 0;
    while j < (8 - n % 8) % 8
      invariant 0 <= j <= (8 - n % 8) % 8
      invariant private == (check + (check + Entries(keys))) + BlockPadding(n)[..j]
    {
      private := private + [j + 1];
      j := j + 1;
    }
    assert BlockPadding(n)[..j] == BlockPadding(n);
    blob := blob + EncodeString(private);
  }

  function Skip(n: nat, b: bytes): Result<bytes, ProtoError> {
    if n == 0 then Ok(b) else
    var d :- DecodeString(b);
    Skip(n - 1, d.next)
  }

  function DecodeKeys(utf8: Utf8, n: nat, b: bytes): Decoding<seq<PrivateKey>>
    decreases n
  {
    if n == 0 then Ok(Decoded([], b)) else
    var k :- DecodeKey(utf8, b);
    var comment :- DecodeString(k.next);
    var rest :- DecodeKeys(utf8, n - 1, comment.next);
    Ok(Decoded([k.value] + rest.value, rest.next))
  }

  predicate Padded(rest: bytes) {
    forall i :: 0 <= i < |rest| ==> rest[i] == (i + 1) % 256
  }

  function ParseSection(utf8: Utf8, count: nat, private: bytes): Result<seq<PrivateKey>, ProtoError> {
    var check1 :- DecodeU32(private);
    var check2 :- DecodeU32(check1.next);
    if check1.value != check2.value then Err(InvalidHostKey) else
    var keys :- DecodeKeys(utf8, count, check2.next);
    if Padded(keys.next) then Ok(keys.value) else Err(InvalidHostKey)
  }

  /** The number of keys and what follows it. */
  function ParsePreamble(blob: bytes): Decoding<nat> {
    if !(MAGIC <= blob) then Err(InvalidHostKey) else
    var cipher :- DecodeString(blob[|MAGIC|..]);
    var kdf :- DecodeString(cipher.next);
    var options :- DecodeString(kdf.next);
    if cipher.value != NONE || kdf.value != NONE then Err(InvalidHostKey) else
    DecodeU32(options.next)
  }

  function ParseBlob(utf8: Utf8, blob: bytes): Result<seq<PrivateKey>, ProtoError> {
    var count :- ParsePreamble(blob);
    if count.value == 0 then Err(InvalidHostKey) else
    var after :- Skip(count.value, count.next);
    var private :- DecodeString(after);
    if private.next != [] then Err(InvalidHostKey)
    else ParseSection(utf8, count.value, private.value)
  }

  method SkipPublics(n: nat, b: bytes) returns (r: Result<bytes, ProtoError>)
    ensures r == Skip(n, b)
  {
    var next := b;
    for i := 0 to n
      invariant Skip(n - i, next) == Skip(n, b)
    {
      var d := DecodeString(next);
      if d.Err? {
        return Err(d.error);
      }
      next := d.value.next;
    }
    return Ok(next);
  }

  /** What is left to decode, put behind what has been decoded. */
  function KeysBehind(keys: seq<PrivateKey>, d: Decoding<seq<PrivateKey>>): Decoding<seq<PrivateKey>> {
    if d.Ok? then Ok(Decoded(keys + d.value.value, d.value.next)) else d
  }

  method ReadKeys(utf8: Utf8, n: nat, b: bytes) returns (r: Decoding<seq<PrivateKey>>)
    ensures r == DecodeKeys(utf8, n, b)
  {
    hide DecodeKey, DecodeString;
    var keys: seq<PrivateKey>, next := [], b;
    KeysBehindNothing(DecodeKeys(utf8, n, b));
    for i := 0 to n
      invariant KeysBehind(keys, DecodeKeys(utf8, n - i, next)) == DecodeKeys(utf8, n, b)
    {
      var k := DecodeKey(utf8, next);
      if k.Err? {
        return Err(k.error);
      }
      var comment := DecodeString(k.value.next);
      if comment.Err? {
        return Err(comment.error);
      }
      ghost var rest := DecodeKeys(utf8, n - i - 1, comment.value.next);
      assert rest.Ok? ==> keys + ([k.value.value] + rest.value.value) == (keys + [k.value.value]) + rest.value.value;
      keys := keys + [k.value.value];
      next := comment.value.next;
    }
    assert keys + [] == keys;
    return Ok(Decoded(keys, next));
  }

  lemma KeysBehindNothing(d: Decoding<seq<PrivateKey>>)
    ensures KeysBehind([], d) == d
  {
    assert d.Ok? ==> [] + d.value.value == d.value.value;
  }

  method CheckPadding(rest: bytes) returns (ok: bool)
    ensures ok == Padded(rest)
  {
    for i := 0 to |rest|
      invariant forall j :: 0 <= j < i ==> rest[j] == (j + 1) % 256
    {
      if rest[i] != (i + 1) % 256 {
        return false;
      }
    }
    return true;
  }

  // Round trip of the blob

  predicate AllSized(keys: seq<PrivateKey>) {
    forall i :: 0 <= i < |keys| ==> keys[i].Sized()
  }

  predicate AllWritable(keys: seq<PrivateKey>) {
    forall i :: 0 <= i < |keys| ==> Writable(keys[i])
  }

  lemma ShortPublic(k: PrivateKey)
    requires k.Sized()
    ensures |PublicBlob(k)| < U32
  {
  }

  lemma {:induction false} SkipRoundTrip(keys: seq<PrivateKey>, rest: bytes)
    requires AllSized(keys)
    ensures Skip(|keys|, Publics(keys) + rest) == Ok(rest)
    decreases |keys|
  {
    hide PublicBlob, EncodeString, DecodeString;
    if keys == [] {
      assert [] + rest == rest;
    } else {
      ShortPublic(keys[0]);
      Concat3(EncodeString(PublicBlob(keys[0])), Publics(keys[1..]), rest);
      StringRoundTrip(PublicBlob(keys[0]), Publics(keys[1..]) + rest);
      SkipRoundTrip(keys[1..], rest);
    }
  }

  lemma {:induction false} KeysRoundTrip(utf8: Utf8, keys: seq<PrivateKey>, rest: bytes)
    requires AllSized(keys)
    ensures DecodeKeys(utf8, |keys|, Entries(keys) + rest)
            == if AllWritable(keys) then Ok(Decoded(keys, rest)) else Err(InvalidHostKey)
    decreases |keys|
  {
    hide EncodeKey, DecodeKey, EncodeString, DecodeString, Writable, AllWritable;
    if keys == [] {
      assert AllWritable([]) by { NothingToWrite(); }
      assert [] + rest == rest;
    } else {
      var k, more := keys[0], Entries(keys[1..]) + rest;
      Concat3(EncodeKey(k) + EncodeString([]), Entries(keys[1..]), rest);
      Concat3(EncodeKey(k), EncodeString([]), more);
      KeyRoundTrip(utf8, k, EncodeString([]) + more);
      StringRoundTrip([], more);
      KeysRoundTrip(utf8, keys[1..], rest);
      assert [k] + keys[1..] == keys;
      WritableSplits(keys);
    }
  }

  lemma NothingToWrite()
    ensures AllWritable([])
  {
  }

  lemma WritableSplits(keys: seq<PrivateKey>)
    requires keys != []
    ensures AllWritable(keys) <==> Writable(keys[0]) && AllWritable(keys[1..])
  {
    hide Writable;
    assert keys == [keys[0]] + keys[1..];
  }

  lemma SectionRoundTrip(utf8: Utf8, check: bytes, keys: seq<PrivateKey>)
    requires |check| == 4 && AllSized(keys)
    ensures ParseSection(utf8, |keys|, Section(check, keys))
            == if AllWritable(keys) then Ok(keys) else Err(InvalidHostKey)
  {
    hide Entries, DecodeKeys, AllSized, AllWritable, FromBE, DecodeU32, BlockPadding, Padded;
    var entries := Entries(keys);
    var private := check + (check + entries);
    var pad := BlockPadding(|private|);
    PaddingIsPadded(|private|);
    Concat3(check, check + entries, pad);
    Concat3(check, entries, pad);
    CheckDecodes(check, check + (entries + pad));
    CheckDecodes(check, entries + pad);
    KeysRoundTrip(utf8, keys, pad);
  }

  lemma PaddingIsPadded(n: nat)
    ensures Padded(BlockPadding(n))
  {
  }

  lemma CheckDecodes(check: bytes, rest: bytes)
    requires |check| == 4
    ensures DecodeU32(check + rest) == Ok(Decoded(FromBE(check), rest))
  {
    assert (check + rest)[..4] == check && (check + rest)[4..] == rest;
  }

  lemma PreambleRoundTrip(count: nat, rest: bytes)
    requires count < U32
    ensures ParsePreamble(Preamble(count) + rest) == Ok(Decoded(count, rest))
  {
    hide EncodeString, DecodeString, DecodeU32, ToBE;
    var n, none, n4 := EncodeString([]), EncodeString(NONE), ToBE(count, 4);
    Concat3(MAGIC, none + (none + (n + n4)), rest);
    Concat3(none, none + (n + n4), rest);
    Concat3(none, n + n4, rest);
    Concat3(n, n4, rest);
    var fields := none + (none + (n + (n4 + rest)));
    assert MAGIC <= MAGIC + fields && (MAGIC + fields)[|MAGIC|..] == fields;
    StringRoundTrip(NONE, none + (n + (n4 + rest)));
    StringRoundTrip(NONE, n + (n4 + rest));
    StringRoundTrip([], n4 + rest);
    DecodeEncodedU32(count, rest);
  }

  /** Parsing the blob gives the keys back for any check bytes, exactly when no scalar is zero. */
  lemma BlobRoundTrip(utf8: Utf8, check: bytes, keys: seq<PrivateKey>)
    requires keys != [] && |keys| < U32 && |check| == 4 && AllSized(keys) && |Section(check, keys)| < U32
    ensures ParseBlob(utf8, ToBytes(check, keys))
            == if AllWritable(keys) then Ok(keys) else Err(InvalidHostKey)
  {
    hide Publics, Section, ParseSection, ParsePreamble, Preamble, EncodeString, DecodeString, AllSized, AllWritable,
         Skip;
    var section := EncodeString(Section(check, keys));
    PreambleRoundTrip(|keys|, Publics(keys) + section);
    SkipRoundTrip(keys, section);
    assert section + [] == section;
    StringRoundTrip(Section(check, keys), []);
    SectionRoundTrip(utf8, check, keys);
  }

  // The text

  const NL: byte := 10
  const CR: byte := 13
  const DASH: byte := 45
  const WIDTH: nat := 70

  datatype Base64Functions = Base64Functions(encode: bytes -> bytes, decode: bytes -> Option<bytes>)

  /** Decoding inverts encoding, and the alphabet has no line ends and no dash. */
  ghost predicate Lawful(b: Base64Functions) {
    && (forall data :: b.decode(b.encode(data)) == Some(data))
    && (forall data, i :: 0 <= i < |b.encode(data)| ==> InAlphabet(b.encode(data)[i]))
  }

  predicate InAlphabet(b: byte) {
    b != NL && b != CR && b != DASH
  }

  type Base64 = b: Base64Functions | Lawful(b) witness (PairsAreLawful(); PAIRS)

  const PAIRS := Base64Functions(Pairs, FromPairs)

  /** Two letters for each byte: enough to show that the law can be met. */
  function Pairs(data: bytes): bytes {
    if data == [] then [] else [65 + data[0] / 16, 65 + data[0] % 16] + Pairs(data[1..])
  }

  function FromPairs(text: bytes): Option<bytes> {
    if text == [] then Some([])
    else if |text| == 1 || !(65 <= text[0] < 81) || !(65 <= text[1] < 81) then None
    else
      var rest := FromPairs(text[2..]);
      if rest.None? then None else Some([16 * (text[0] - 65) + (text[1] - 65)] + rest.value)
  }

  lemma {:induction false} PairsRoundTrip(data: bytes)
    ensures FromPairs(Pairs(data)) == Some(data)
    ensures forall i :: 0 <= i < |Pairs(data)| ==> InAlphabet(Pairs(data)[i])
  {
    if data != [] {
      PairsRoundTrip(data[1..]);
      assert Pairs(data)[2..] == Pairs(data[1..]);
      assert [data[0]] + data[1..] == data;
    }
  }

  lemma PairsAreLawful()
    ensures Lawful(PAIRS)
  {
    forall data ensures PAIRS.decode(PAIRS.encode(data)) == Some(data) {
      PairsRoundTrip(data);
    }
    forall data, i | 0 <= i < |PAIRS.encode(data)| ensures InAlphabet(PAIRS.encode(data)[i]) {
      PairsRoundTrip(data);
    }
  }

  function Header(title: bytes): bytes { Ascii("-----BEGIN ") + title + Ascii("-----") }

  function Footer(title: bytes): bytes { Ascii("-----END ") + title + Ascii("-----") }

  const LABEL := Ascii("OPENSSH PRIVATE KEY")

  /** Pieces of 70 bytes, the last one perhaps shorter. */
  function Wrap(s: bytes): seq<bytes> {
    if s == [] then [] else if |s| <= WIDTH then [s] else [s[..WIDTH]] + Wrap(s[WIDTH..])
  }

  function Unlines(lines: seq<bytes>): bytes {
    if lines == [] then [] else lines[0] + ([NL] + Unlines(lines[1..]))
  }

  function Pem(b64: Base64, title: bytes, data: bytes): bytes {
    Header(title) + ([NL] + (Unlines(Wrap(b64.encode(data))) + (Footer(title) + [NL])))
  }

  method PemEncode(b64: Base64, title: bytes, data: bytes) returns (pem: bytes)
    ensures pem == Pem(b64, title, data)
  {
    hide Wrap, Unlines, Header, Footer;
    var base64 := b64.encode(data);
    pem := Header(title) + [NL];
    ghost var start := pem;
    var i := 0;
    assert base64[0..] == base64;
    while i < |base64|
      invariant 0 <= i <= |base64|
      invariant pem + Unlines(Wrap(base64[i..])) == start + Unlines(Wrap(base64))
    {
      var n := if |base64| - i <= WIDTH then |base64| - i else WIDTH;
      var line := base64[i..i + n];
      WrapFirst(base64[i..], n);
      assert base64[i..][..n] == line && base64[i..][n..] == base64[i + n..];
      Regroup(pem, line, Unlines(Wrap(base64[i + n..])));
      pem := pem + line + [NL];
      i := i + n;
    }
    WrapNothing();
    assert base64[i..] == [] && pem + [] == pem;
    ghost var body := Unlines(Wrap(base64));
    assert ((start + body) + Footer(title)) + [NL] == Header(title) + ([NL] + (body + (Footer(title) + [NL])));
    pem := pem + Footer(title) + [NL];
  }

  lemma Regroup(a: bytes, line: bytes, rest: bytes)
    ensures a + (line + ([NL] + rest)) == (a + line + [NL]) + rest
  {
  }

  lemma WrapNothing()
    ensures Unlines(Wrap([])) == []
  {
  }

  lemma UnlinesCons(line: bytes, rest: seq<bytes>)
    ensures Unlines([line] + rest) == line + ([NL] + Unlines(rest))
  {
    assert ([line] + rest)[1..] == rest;
  }

  lemma WrapFirst(s: bytes, n: nat)
    requires s != [] && n == if |s| <= WIDTH then |s| else WIDTH
    ensures Unlines(Wrap(s)) == s[..n] + ([NL] + Unlines(Wrap(s[n..])))
  {
    hide Unlines;
    UnlinesCons(s[..n], Wrap(s[n..]));
    if |s| <= WIDTH {
      assert s[..n] == s && s[n..] == [];
      assert [s] + [] == [s];
    }
  }

  function LineEnd(t: bytes): nat
    requires NL in t
    ensures LineEnd(t) < |t| && t[LineEnd(t)] == NL && forall i :: 0 <= i < LineEnd(t) ==> t[i] != NL
  {
    if t[0] == NL then 0 else 1 + LineEnd(t[1..])
  }

  function StripCr(line: bytes): bytes {
    if line != [] && line[|line| - 1] == CR then line[..|line| - 1] else line
  }

  /** Lines end with a newline, before which a carriage return is dropped; the last line may have
      no end. */
  function Lines(t: bytes): seq<bytes>
    decreases |t|
  {
    if t == [] then []
    else if NL in t then [StripCr(t[..LineEnd(t)])] + Lines(t[LineEnd(t) + 1..])
    else [t]
  }

  function Collect(lines: seq<bytes>): Option<bytes> {
    if lines == [] then None
    else if lines[0] == Footer(LABEL) then Some([])
    else
      var rest := Collect(lines[1..]);
      if rest.None? then None else Some(lines[0] + rest.value)
  }

  method CollectLines(lines: seq<bytes>) returns (r: Option<bytes>)
    ensures r == Collect(lines)
  {
    hide Footer;
    var base64, i := [], 0;
    assert lines[0..] == lines;
    BeforeNothing(Collect(lines));
    while i < |lines|
      invariant 0 <= i <= |lines|
      invariant Before(base64, Collect(lines[i..])) == Collect(lines)
    {
      assert lines[i..][0] == lines[i] && lines[i..][1..] == lines[i + 1..];
      if lines[i] == Footer(LABEL) {
        assert base64 + [] == base64;
        return Some(base64);
      }
      BeforeMore(base64, lines[i], Collect(lines[i + 1..]));
      base64 := base64 + lines[i];
      i := i + 1;
    }
    return None;
  }

  function Before(done: bytes, rest: Option<bytes>): Option<bytes> {
    if rest.None? then None else Some(done + rest.value)
  }

  lemma BeforeNothing(rest: Option<bytes>)
    ensures Before([], rest) == rest
  {
    assert rest.Some? ==> [] + rest.value == rest.value;
  }

  lemma BeforeMore(done: bytes, line: bytes, rest: Option<bytes>)
    ensures Before(done + line, rest) == Before(done, Before(line, rest))
  {
    assert rest.Some? ==> (done + line) + rest.value == done + (line + rest.value);
  }

  function FromText(b64: Base64, utf8: Utf8, text: bytes): Result<seq<PrivateKey>, ProtoError> {
    var lines := Lines(text);
    if lines == [] || lines[0] != Header(LABEL) then Err(InvalidHostKey) else
    var base64 := Collect(lines[1..]);
    if base64.None? || b64.decode(base64.value).None? then Err(InvalidHostKey)
    else ParseBlob(utf8, b64.decode(base64.value).value)
  }

  /** The whole parser, with its loops. */
  method ReadText(b64: Base64, utf8: Utf8, text: bytes) returns (r: Result<seq<PrivateKey>, ProtoError>)
    ensures r == FromText(b64, utf8, text)
  {
    hide Lines, Collect, ParsePreamble, Skip, DecodeKeys, DecodeString, DecodeU32, Header, Padded;
    var lines := Lines(text);
    if lines == [] || lines[0] != Header(LABEL) {
      return Err(InvalidHostKey);
    }
    var base64 := CollectLines(lines[1..]);
    if base64.None? {
      return Err(InvalidHostKey);
    }
    var blob := b64.decode(base64.value);
    if blob.None? {
      return Err(InvalidHostKey);
    }
    var count := ParsePreamble(blob.value);
    if count.Err? {
      return Err(count.error);
    }
    if count.value.value == 0 {
      return Err(InvalidHostKey);
    }
    var after := SkipPublics(count.value.value, count.value.next);
    if after.Err? {
      return Err(after.error);
    }
    var private := DecodeString(after.value);
    if private.Err? {
      return Err(private.error);
    }
    if private.value.next != [] {
      return Err(InvalidHostKey);
    }
    var check1 := DecodeU32(private.value.value);
    if check1.Err? {
      return Err(check1.error);
    }
    var check2 := DecodeU32(check1.value.next);
    if check2.Err? {
      return Err(check2.error);
    }
    if check1.value.value != check2.value.value {
      return Err(InvalidHostKey);
    }
    var keys := ReadKeys(utf8, count.value.value, check2.value.next);
    if keys.Err? {
      return Err(keys.error);
    }
    var padded := CheckPadding(keys.value.next);
    r := if padded then Ok(keys.value.value) else Err(InvalidHostKey);
  }

  // Round trip of the text

  /** A line that is read back as it was written. */
  predicate Clean(line: bytes) {
    NL !in line && (line != [] ==> line[|line| - 1] != CR)
  }

  lemma LineEndAt(line: bytes, rest: bytes)
    requires NL !in line
    ensures NL in line + ([NL] + rest) && LineEnd(line + ([NL] + rest)) == |line|
  {
    hide LineEnd;
    var t := line + ([NL] + rest);
    assert t[|line|] == NL;
  }

  lemma LinesCons(line: bytes, rest: bytes)
    requires Clean(line)
    ensures Lines(line + ([NL] + rest)) == [line] + Lines(rest)
  {
    hide LineEnd;
    var t := line + ([NL] + rest);
    LineEndAt(line, rest);
    assert t[..|line|] == line && t[|line| + 1..] == rest;
  }

  lemma {:induction false} LinesUnlines(lines: seq<bytes>, rest: bytes)
    requires forall i :: 0 <= i < |lines| ==> Clean(lines[i])
    ensures Lines(Unlines(lines) + rest) == lines + Lines(rest)
    decreases |lines|
  {
    hide Lines, Clean;
    if lines == [] {
      assert [] + rest == rest && [] + Lines(rest) == Lines(rest);
    } else {
      var more := Unlines(lines[1..]);
      assert (lines[0] + ([NL] + more)) + rest == lines[0] + ([NL] + (more + rest));
      LinesCons(lines[0], more + rest);
      LinesUnlines(lines[1..], rest);
      assert [lines[0]] + (lines[1..] + Lines(rest)) == lines + Lines(rest);
    }
  }

  /** No line end and no dash anywhere. */
  predicate Base64Text(s: bytes) {
    forall i :: 0 <= i < |s| ==> InAlphabet(s[i])
  }

  lemma {:induction false} WrapLines(s: bytes, i: nat)
    requires Base64Text(s) && i < |Wrap(s)|
    ensures 0 < |Wrap(s)[i]| <= WIDTH && Base64Text(Wrap(s)[i])
    decreases |s|
  {
    if |s| > WIDTH && i > 0 {
      WrapLines(s[WIDTH..], i - 1);
    }
  }

  lemma Base64IsClean(s: bytes)
    requires Base64Text(s)
    ensures Clean(s)
  {
  }

  lemma {:induction false} CollectWrapped(s: bytes)
    requires Base64Text(s)
    ensures Collect(Wrap(s) + [Footer(LABEL)]) == Some(s)
    decreases |s|
  {
    hide Footer;
    var lines := Wrap(s) + [Footer(LABEL)];
    if s == [] {
      assert lines == [Footer(LABEL)];
    } else {
      WrapLines(s, 0);
      FooterIsDashed(Wrap(s)[0]);
      if |s| <= WIDTH {
        assert lines[1..] == [Footer(LABEL)];
        assert s + [] == s;
      } else {
        assert lines[1..] == Wrap(s[WIDTH..]) + [Footer(LABEL)];
        CollectWrapped(s[WIDTH..]);
        assert s[..WIDTH] + s[WIDTH..] == s;
      }
    }
  }

  lemma FooterIsDashed(line: bytes)
    requires Base64Text(line)
    ensures line != Footer(LABEL)
  {
    assert Footer(LABEL)[0] == Ascii("-----END ")[0] == DASH;
  }

  lemma AsciiIsClean(s: string)
    requires forall i :: 0 <= i < |s| ==> s[i] as int < 128
    requires '\n' !in s && '\r' !in s
    ensures NL !in Ascii(s) && CR !in Ascii(s)
  {
    forall i | 0 <= i < |s| ensures Ascii(s)[i] != NL && Ascii(s)[i] != CR {
      assert s[i] in s;
      assert '\n' as int == NL && '\r' as int == CR;
    }
  }

  lemma BordersAreClean()
    ensures Clean(Header(LABEL)) && Clean(Footer(LABEL))
  {
    AsciiIsClean("-----BEGIN ");
    AsciiIsClean("-----END ");
    AsciiIsClean("-----");
    AsciiIsClean("OPENSSH PRIVATE KEY");
  }

  lemma PemLines(b64: Base64, data: bytes)
    ensures Base64Text(b64.encode(data))
    ensures Lines(Pem(b64, LABEL, data)) == [Header(LABEL)] + (Wrap(b64.encode(data)) + [Footer(LABEL)])
  {
    hide Lines, Header, Footer, Clean, Wrap, Unlines;
    var base64 := b64.encode(data);
    assert Base64Text(base64);
    BordersAreClean();
    forall i | 0 <= i < |Wrap(base64)| ensures Clean(Wrap(base64)[i]) {
      WrapLines(base64, i);
      Base64IsClean(Wrap(base64)[i]);
    }
    var footer := Footer(LABEL) + [NL];
    LinesCons(Header(LABEL), Unlines(Wrap(base64)) + footer);
    LinesUnlines(Wrap(base64), footer);
    assert footer == Footer(LABEL) + ([NL] + []);
    LinesCons(Footer(LABEL), []);
    NoLines();
    assert [Footer(LABEL)] + [] == [Footer(LABEL)];
  }

  lemma NoLines()
    ensures Lines([]) == []
  {
  }

  /** Private key file round trip: reading the text written for any non-empty list of keys, with
      any check bytes, gives the same keys, exactly when no ECDSA scalar is zero; otherwise the
      file that was written is refused. */
  lemma KeyFileRoundTrip(b64: Base64, utf8: Utf8, check: bytes, keys: seq<PrivateKey>)
    requires keys != [] && |keys| < U32 && |check| == 4 && AllSized(keys) && |Section(check, keys)| < U32
    ensures FromText(b64, utf8, Pem(b64, LABEL, ToBytes(check, keys)))
            == if AllWritable(keys) then Ok(keys) else Err(InvalidHostKey)
  {
    hide ToBytes, ParseBlob, Pem, Lines, Wrap, Collect, Header, Footer, Section, AllSized, AllWritable;
    var data := ToBytes(check, keys);
    PemLines(b64, data);
    var lines := Wrap(b64.encode(data)) + [Footer(LABEL)];
    assert ([Header(LABEL)] + lines)[1..] == lines;
    CollectWrapped(b64.encode(data));
    BlobRoundTrip(utf8, check, keys);
  }

  /** A key file with a zero scalar can be written, and cannot be read. */
  lemma ZeroScalar(b64: Base64, utf8: Utf8, check: bytes)
    requires |check| == 4
    ensures var key := EcdsaKey(Zeros(32), Zeros(65));
            key.Sized() && FromText(b64, utf8, Pem(b64, LABEL, ToBytes(check, [key]))) == Err(InvalidHostKey)
  {
    hide FromText, Pem, ToBytes, Section, Zeros, Writable;
    var key := EcdsaKey(Zeros(32), Zeros(65));
    ZeroIsUnwritable();
    assert !Writable([key][0]);
    SmallSection(check, key);
    KeyFileRoundTrip(b64, utf8, check, [key]);
  }

  lemma ZeroIsUnwritable()
    ensures !Writable(EcdsaKey(Zeros(32), Zeros(65)))
  {
    hide Zeros;
    TrimZeros(32);
  }

  lemma {:induction false} TrimZeros(n: nat)
    ensures Trim(Zeros(n)) == []
  {
    if n > 0 {
      assert Zeros(n)[1..] == Zeros(n - 1);
      TrimZeros(n - 1);
    }
  }

  lemma SmallSection(check: bytes, key: PrivateKey)
    requires |check| == 4 && key.Sized()
    ensures |Section(check, [key])| < U32
  {
    hide Body;
    if key.EcdsaKey? {
      BodyLength(key.scalar);
    }
    assert [key][1..] == [];
    assert |Entries([key])| == |EncodeKey(key)| + |EncodeString([])|;
  }

  // The file as other programs read it

  function ReadStrings(n: nat, b: bytes): Decoding<seq<bytes>> {
    if n == 0 then Ok(Decoded([], b)) else
    var first :- DecodeString(b);
    var more :- ReadStrings(n - 1, first.next);
    Ok(Decoded([first.value] + more.value, more.next))
  }

  /** Encoded strings, one after the other. */
  function Written(strings: seq<bytes>): bytes {
    if strings == [] then [] else EncodeString(strings[0]) + Written(strings[1..])
  }

  lemma {:induction false} WrittenReads(strings: seq<bytes>, rest: bytes)
    requires forall i :: 0 <= i < |strings| ==> |strings[i]| < U32
    ensures ReadStrings(|strings|, Written(strings) + rest) == Ok(Decoded(strings, rest))
  {
    hide EncodeString, DecodeString;
    if strings == [] {
      assert [] + rest == rest;
    } else {
      Concat3(EncodeString(strings[0]), Written(strings[1..]), rest);
      StringRoundTrip(strings[0], Written(strings[1..]) + rest);
      WrittenReads(strings[1..], rest);
      assert strings == [strings[0]] + strings[1..];
    }
  }

  /** A public key, as section 6.6 of RFC 4253 and section 3.1 of RFC 5656 write it. */
  function PublicFields(k: PrivateKey): seq<bytes> {
    if k.Ed25519Key? then [Ascii("ssh-ed25519"), k.public]
    else [Ascii("ecdsa-sha2-nistp256"), Ascii("nistp256"), k.public]
  }

  lemma PublicBlobWritten(k: PrivateKey)
    ensures PublicBlob(k) == Written(PublicFields(k))
  {
    hide EncodeString;
    var f := PublicFields(k);
    var x, y := EncodeString(f[0]), EncodeString(f[1]);
    if |f| == 2 {
      var last: seq<bytes> := [f[1]];
      assert f[1..] == last && last[1..] == [];
      assert Written([f[1]]) == y + [] == y;
    } else {
      var z := EncodeString(f[2]);
      var last: seq<bytes> := [f[2]];
      assert f[1..] == [f[1], f[2]] && [f[1], f[2]][1..] == last && last[1..] == [];
      assert Written([f[2]]) == z + [] == z;
    }
  }

  function PublicBlobs(keys: seq<PrivateKey>): seq<bytes> {
    seq(|keys|, i requires 0 <= i < |keys| => Written(PublicFields(keys[i])))
  }

  lemma {:induction false} PublicsWritten(keys: seq<PrivateKey>)
    ensures Publics(keys) == Written(PublicBlobs(keys))
  {
    hide EncodeString;
    if keys != [] {
      PublicsWritten(keys[1..]);
      PublicBlobWritten(keys[0]);
      assert PublicBlobs(keys)[1..] == PublicBlobs(keys[1..]);
    }
  }

  lemma PublicBlobSmall(k: PrivateKey)
    requires k.Sized()
    ensures |Written(PublicFields(k))| < 200
  {
    PublicBlobWritten(k);
  }

  /** Read as strings, a key file is its magic, no cipher, no key derivation and no options, the number of
      keys, their public keys in order, and the private section, with nothing behind. */
  lemma KeyFileLaidOut(check: bytes, keys: seq<PrivateKey>)
    requires AllSized(keys) && |keys| < U32 && |Section(check, keys)| < U32
    ensures var none, blob := Ascii("none"), ToBytes(check, keys);
            var magic := Ascii("openssh-key-v1") + [0];
            && magic <= blob
            && var head := ReadStrings(3, blob[|magic|..]);
               && head.Ok? && head.value.value == [none, none, []]
               && var count := DecodeU32(head.value.next);
                  && count.Ok? && count.value.value == |keys|
                  && ReadStrings(|keys| + 1, count.value.next)
                     == Ok(Decoded(PublicBlobs(keys) + [Section(check, keys)], []))
  {
    hide EncodeString, DecodeString, Section, ToBE, FromBE, Ascii, ReadStrings, Written, Publics;
    var blob, section := ToBytes(check, keys), Section(check, keys);
    var n, none, count := EncodeString([]), EncodeString(NONE), ToBE(|keys|, 4);
    var behind := Publics(keys) + EncodeString(section);
    var strings := PublicBlobs(keys) + [section];
    BlobHead(keys, behind);
    HeadReads(count + behind);
    DecodeEncodedU32(|keys|, behind);
    PublicsWritten(keys);
    WrittenSnoc(PublicBlobs(keys), section);
    forall i | 0 <= i < |strings| ensures |strings[i]| < U32 {
      if i < |keys| {
        PublicBlobSmall(keys[i]);
      }
    }
    WrittenReads(strings, []);
    assert behind + [] == behind;
  }

  lemma {:induction false} WrittenSnoc(strings: seq<bytes>, s: bytes)
    ensures Written(strings + [s]) == Written(strings) + EncodeString(s)
  {
    hide EncodeString;
    if strings == [] {
      assert [] + [s] == [s] && [s][1..] == [];
      assert EncodeString(s) + [] == [] + EncodeString(s);
    } else {
      WrittenSnoc(strings[1..], s);
      assert (strings + [s])[1..] == strings[1..] + [s];
      Concat3(EncodeString(strings[0]), Written(strings[1..]), EncodeString(s));
    }
  }

  lemma BlobHead(keys: seq<PrivateKey>, behind: bytes)
    requires |keys| < U32
    ensures var none := EncodeString(NONE);
            var head := none + (none + (EncodeString([]) + (ToBE(|keys|, 4) + behind)));
            Preamble(|keys|) + behind == MAGIC + head && (MAGIC + head)[|MAGIC|..] == head && MAGIC <= MAGIC + head
  {
    hide EncodeString, ToBE, Ascii, Preamble;
    PreambleIs(|keys|);
    HeadRegroups(MAGIC, EncodeString(NONE), EncodeString([]), ToBE(|keys|, 4), behind);
  }

  lemma PreambleIs(n: nat)
    requires n < U32
    ensures Preamble(n)
            == MAGIC + (EncodeString(NONE) + (EncodeString(NONE) + (EncodeString([]) + ToBE(n, 4))))
  {
    hide EncodeString, ToBE, Ascii;
    assert n % U32 == n;
  }

  lemma HeadRegroups(magic: bytes, none: bytes, empty: bytes, count: bytes, behind: bytes)
    ensures var head := none + (none + (empty + (count + behind)));
            && (magic + (none + (none + (empty + count)))) + behind == magic + head
            && (magic + head)[|magic|..] == head && magic <= magic + head
  {
    Concat3(empty, count, behind);
    Concat3(none, empty + count, behind);
    Concat3(none, none + (empty + count), behind);
    Concat3(magic, none + (none + (empty + count)), behind);
  }

  lemma HeadReads(rest: bytes)
    ensures var none := EncodeString(NONE);
            ReadStrings(3, none + (none + (EncodeString([]) + rest))) == Ok(Decoded([NONE, NONE, []], rest))
  {
    hide EncodeString, DecodeString;
    var none, empty := EncodeString(NONE), EncodeString([]);
    StringRoundTrip(NONE, none + (empty + rest));
    StringRoundTrip(NONE, empty + rest);
    StringRoundTrip([], rest);
    assert ReadStrings(0, rest) == Ok(Decoded([], rest));
    assert ReadStrings(1, empty + rest) == Ok(Decoded([[]] + [], rest));
    assert ReadStrings(2, none + (empty + rest)) == Ok(Decoded([NONE] + ([[]] + []), rest));
    assert [NONE] + ([NONE] + ([[]] + [])) == [NONE, NONE, []];
  }

  /** The bytes are an entry for the key: its name, then for Ed25519 the public key and the seed with it, and
      for ECDSA the curve, the public key and the scalar, not zero, as a number of any length. */
  ghost predicate EntryFor(k: PrivateKey, entry: bytes) {
    k.Sized() &&
    match k
    case Ed25519Key(public, seed) => entry == Written([Ascii("ssh-ed25519"), public, seed + public])
    case EcdsaKey(scalar, public) =>
      && FromBE(scalar) != 0
      && exists number :: FromBE(number) == FromBE(scalar)
                          && entry == Written([Ascii("ecdsa-sha2-nistp256"), Ascii("nistp256"), public, number])
  }

  lemma WrittenThree(x: bytes, y: bytes, z: bytes, rest: bytes)
    ensures Written([x, y, z]) + rest == EncodeString(x) + (EncodeString(y) + (EncodeString(z) + rest))
  {
    hide EncodeString;
    WrittenSnoc([], x);
    WrittenSnoc([x], y);
    WrittenSnoc([x, y], z);
    assert [] + [x] == [x] && [x] + [y] == [x, y] && [x, y] + [z] == [x, y, z];
    var p, q, r := EncodeString(x), EncodeString(y), EncodeString(z);
    assert [] + p == p;
    Concat3(p, q, r + rest);
    Concat3(p + q, r, rest);
  }

  lemma WrittenFour(x: bytes, y: bytes, z: bytes, w: bytes, rest: bytes)
    ensures Written([x, y, z, w]) + rest
            == EncodeString(x) + (EncodeString(y) + (EncodeString(z) + (EncodeString(w) + rest)))
  {
    hide EncodeString;
    WrittenThree(x, y, z, EncodeString(w) + rest);
    WrittenSnoc([x, y, z], w);
    assert [x, y, z] + [w] == [x, y, z, w];
    Concat3(Written([x, y, z]), EncodeString(w), rest);
  }

  lemma {:induction false} LeadingDigit(t: bytes)
    requires t != [] && t[0] != 0
    ensures FromBE(t) != 0
  {
    if |t| == 1 {
      assert t[..0] == [];
    } else {
      assert t[..|t| - 1][0] == t[0];
      LeadingDigit(t[..|t| - 1]);
    }
  }

  lemma ScalarValue(number: bytes)
    requires FixedScalar(number).Some?
    ensures var scalar := FixedScalar(number).value;
            |scalar| == 32 && FromBE(scalar) == FromBE(number) && FromBE(scalar) != 0
  {
    TrimValue(number);
    var t := Trim(number);
    ZerosValue(32 - |t|, t);
    LeadingDigit(t);
  }

  lemma Ed25519ReadOnly(b: bytes, k: PrivateKey, rest: bytes)
    requires DecodeEd25519(b) == Ok(Decoded(k, rest))
    ensures k.Ed25519Key? && k.Sized() && b == EncodeString(k.public) + (EncodeString(k.seed + k.public) + rest)
  {
    hide DecodeString, EncodeString;
    var public := DecodeString(b).value;
    var private := DecodeString(public.next).value;
    ReadsStringIff(b, public.value, public.next);
    ReadsStringIff(public.next, private.value, private.next);
    assert private.value == private.value[..32] + private.value[32..];
  }

  lemma EcdsaReadOnly(b: bytes, k: PrivateKey, rest: bytes) returns (number: bytes)
    requires DecodeEcdsa(b) == Ok(Decoded(k, rest))
    ensures k.EcdsaKey? && k.Sized() && FromBE(number) == FromBE(k.scalar) != 0
    ensures b == EncodeString(NISTP256) + (EncodeString(k.public) + (EncodeString(number) + rest))
  {
    hide DecodeString, EncodeString, FixedScalar, FromBE;
    var curve := DecodeString(b).value;
    var public := DecodeString(curve.next).value;
    var mpint := DecodeString(public.next).value;
    ReadsStringIff(b, curve.value, curve.next);
    ReadsStringIff(curve.next, public.value, public.next);
    ReadsStringIff(public.next, mpint.value, mpint.next);
    number := mpint.value;
    ScalarValue(number);
  }

  /** Nothing but an entry is read as a key. */
  lemma KeyReadOnly(utf8: Utf8, b: bytes, k: PrivateKey, rest: bytes) returns (entry: bytes)
    requires DecodeKey(utf8, b) == Ok(Decoded(k, rest))
    ensures EntryFor(k, entry) && b == entry + rest
  {
    hide DecodeString, EncodeString, DecodeEd25519, DecodeEcdsa, Written, FromBE, Ascii;
    var name := DecodeString(b).value;
    ReadsStringIff(b, name.value, name.next);
    if name.value == ED25519 {
      Ed25519ReadOnly(name.next, k, rest);
      entry := Written([ED25519, k.public, k.seed + k.public]);
      WrittenThree(ED25519, k.public, k.seed + k.public, rest);
    } else {
      var number := EcdsaReadOnly(name.next, k, rest);
      entry := Written([ECDSA, NISTP256, k.public, number]);
      WrittenFour(ECDSA, NISTP256, k.public, number, rest);
    }
  }

  /** Entries, each with its comment. */
  function Commented(entries: seq<bytes>, comments: seq<bytes>): bytes
    requires |entries| == |comments|
  {
    if entries == [] then [] else entries[0] + (EncodeString(comments[0]) + Commented(entries[1..], comments[1..]))
  }

  ghost predicate EntriesFor(keys: seq<PrivateKey>, entries: seq<bytes>) {
    |entries| == |keys| && forall i :: 0 <= i < |keys| ==> EntryFor(keys[i], entries[i])
  }

  lemma {:induction false} KeysReadOnly(utf8: Utf8, n: nat, b: bytes, keys: seq<PrivateKey>, rest: bytes)
    returns (entries: seq<bytes>, comments: seq<bytes>)
    requires DecodeKeys(utf8, n, b) == Ok(Decoded(keys, rest))
    ensures |keys| == |entries| == |comments| == n && EntriesFor(keys, entries)
    ensures b == Commented(entries, comments) + rest
    decreases n
  {
    hide DecodeKey, DecodeString, EncodeString, EntryFor;
    if n == 0 {
      entries, comments := [], [];
      assert [] + rest == rest;
    } else {
      var k := DecodeKey(utf8, b).value;
      var entry := KeyReadOnly(utf8, b, k.value, k.next);
      var comment := DecodeString(k.next).value;
      ReadsStringIff(k.next, comment.value, comment.next);
      var more := DecodeKeys(utf8, n - 1, comment.next).value;
      var es, cs := KeysReadOnly(utf8, n - 1, comment.next, more.value, rest);
      entries, comments := [entry] + es, [comment.value] + cs;
      assert keys == [k.value] + more.value && entries[1..] == es && comments[1..] == cs;
      Concat3(EncodeString(comment.value), Commented(es, cs), rest);
      Concat3(entry, EncodeString(comment.value) + Commented(es, cs), rest);
    }
  }

  /** The private section holds the keys: the same four bytes twice, their entries, and padding that counts
      from one. */
  ghost predicate SectionFor(keys: seq<PrivateKey>, private: bytes) {
    exists check, entries, comments, pad ::
      && |check| == 4 && |comments| == |entries| && EntriesFor(keys, entries) && Padded(pad)
      && private == check + (check + (Commented(entries, comments) + pad))
  }

  lemma SectionReadOnly(utf8: Utf8, count: nat, private: bytes, keys: seq<PrivateKey>)
    requires ParseSection(utf8, count, private) == Ok(keys)
    ensures SectionFor(keys, private) && |keys| == count
  {
    hide DecodeKeys, FromBE, EntryFor, Commented;
    var body := private[4..][4..];
    var rest := DecodeKeys(utf8, count, body).value;
    var entries, comments := KeysReadOnly(utf8, count, body, keys, rest.next);
    var check := private[..4];
    assert private[4..][..4] == check by {
      ToFromBE(check);
      ToFromBE(private[4..][..4]);
    }
    assert private == check + (check + body);
    assert Padded(rest.next) && private == check + (check + (Commented(entries, comments) + rest.next));
  }

  lemma {:induction false} SkipReadOnly(n: nat, b: bytes, rest: bytes) returns (publics: seq<bytes>)
    requires Skip(n, b) == Ok(rest)
    ensures |publics| == n && b == Written(publics) + rest
    decreases n
  {
    hide DecodeString, EncodeString;
    if n == 0 {
      publics := [];
      assert [] + rest == rest;
    } else {
      var d := DecodeString(b).value;
      ReadsStringIff(b, d.value, d.next);
      var more := SkipReadOnly(n - 1, d.next, rest);
      publics := [d.value] + more;
      assert publics[1..] == more;
      Concat3(EncodeString(d.value), Written(more), rest);
    }
  }

  /** The file says it is not encrypted and holds one or more keys. */
  ghost predicate FileFor(keys: seq<PrivateKey>, blob: bytes) {
    exists options, publics, private ::
      && 0 < |keys| == |publics| < U32 && SectionFor(keys, private)
      && blob == FileOf(options, |keys|, publics, private)
  }

  function FileOf(options: bytes, count: nat, publics: seq<bytes>, private: bytes): bytes {
    var none := EncodeString(Ascii("none"));
    Ascii("openssh-key-v1") + [0]
    + (none + (none + (EncodeString(options) + (ToBE(count, 4) + (Written(publics) + EncodeString(private))))))
  }

  /** Whatever is read, nothing but a well-formed file gives keys: unencrypted, with the keys it counts, their
      entries in order, matching check bytes, correct padding, and nothing behind. */
  lemma KeyFileReadOnly(utf8: Utf8, blob: bytes, keys: seq<PrivateKey>)
    requires ParseBlob(utf8, blob) == Ok(keys)
    ensures FileFor(keys, blob)
  {
    hide DecodeString, EncodeString, DecodeU32, ParseSection, Skip, SectionFor, Written, ToBE, Ascii;
    var head := ParsePreamble(blob).value;
    var options := PreambleReadOnly(blob, head.value, head.next);
    var behind := Skip(head.value, head.next).value;
    var publics := SkipReadOnly(head.value, head.next, behind);
    var private := DecodeString(behind).value.value;
    ReadsStringIff(behind, private, []);
    SectionReadOnly(utf8, head.value, private, keys);
    assert EncodeString(private) + [] == EncodeString(private);
    assert blob == FileOf(options, |keys|, publics, private);
  }

  lemma PreambleReadOnly(blob: bytes, count: nat, rest: bytes) returns (options: bytes)
    requires ParsePreamble(blob) == Ok(Decoded(count, rest))
    ensures count < U32
    ensures var none := EncodeString(NONE);
            blob == MAGIC + (none + (none + (EncodeString(options) + (ToBE(count, 4) + rest))))
  {
    hide DecodeString, EncodeString, DecodeU32, ToBE, Ascii;
    var b := blob[|MAGIC|..];
    assert blob == MAGIC + b;
    var cipher := DecodeString(b).value;
    var kdf := DecodeString(cipher.next).value;
    var opts := DecodeString(kdf.next).value;
    ReadsStringIff(b, cipher.value, cipher.next);
    ReadsStringIff(cipher.next, kdf.value, kdf.next);
    ReadsStringIff(kdf.next, opts.value, opts.next);
    ReadsU32Iff(opts.next, count, rest);
    options := opts.value;
  }

  /** The text between the borders is cut into lines of 70 bytes, but for the last. */
  lemma {:induction false} LinesAreFull(s: bytes)
    ensures var lines := Wrap(s);
            && Flatten(lines) == s && (lines == [] <==> s == [])
            && (forall i :: 0 <= i < |lines| - 1 ==> |lines[i]| == 70)
            && (lines != [] ==> 0 < |lines[|lines| - 1]| <= 70)
    decreases |s|
  {
    hide Flatten;
    if s == [] {
      FlattenBehind([], []);
    } else if |s| <= WIDTH {
      FlattenBehind(s, []);
      assert s + [] == s;
    } else {
      var rest := Wrap(s[WIDTH..]);
      LinesAreFull(s[WIDTH..]);
      FlattenBehind(s[..WIDTH], rest);
      FullFirst(s[..WIDTH], rest);
      assert s == s[..WIDTH] + s[WIDTH..];
    }
  }

  lemma FlattenBehind(line: bytes, rest: seq<bytes>)
    ensures Flatten([]) == [] && Flatten([line] + rest) == line + Flatten(rest)
    ensures Flatten([line]) == line
  {
    assert ([line] + rest)[1..] == rest && [line][1..] == [];
    assert line + [] == line;
  }

  lemma FullFirst(line: bytes, rest: seq<bytes>)
    requires |line| == 70 && rest != [] && forall i :: 0 <= i < |rest| - 1 ==> |rest[i]| == 70
    ensures var lines := [line] + rest;
            (forall i :: 0 <= i < |lines| - 1 ==> |lines[i]| == 70) && lines[|lines| - 1] == rest[|rest| - 1]
  {
  }

  /** The borders of the text. */
  lemma TextBorders(b64: Base64, check: bytes, keys: seq<PrivateKey>)
    ensures var text := Pem(b64, LABEL, ToBytes(check, keys));
            var lines := Wrap(b64.encode(ToBytes(check, keys)));
            var title := Ascii("OPENSSH PRIVATE KEY");
            text == Unlines([Ascii("-----BEGIN ") + title + Ascii("-----")] + lines
                            + [Ascii("-----END ") + title + Ascii("-----")])
  {
    hide Wrap, ToBytes, Unlines, Ascii;
    var lines := Wrap(b64.encode(ToBytes(check, keys)));
    var head, foot := Header(LABEL), Footer(LABEL);
    UnlinesAppend([head], lines + [foot]);
    UnlinesAppend(lines, [foot]);
    UnlinesOne(head);
    UnlinesOne(foot);
    assert [head] + lines + [foot] == [head] + (lines + [foot]);
    Concat3(head, [NL], Unlines(lines) + (foot + [NL]));
  }

  lemma UnlinesOne(line: bytes)
    ensures Unlines([line]) == line + [NL]
  {
    assert [line][1..] == [];
  }

  lemma {:induction false} UnlinesAppend(xs: seq<bytes>, ys: seq<bytes>)
    ensures Unlines(xs + ys) == Unlines(xs) + Unlines(ys)
  {
    if xs == [] {
      assert [] + ys == ys;
    } else {
      UnlinesAppend(xs[1..], ys);
      assert (xs + ys)[1..] == xs[1..] + ys;
      assert xs[0] + ([NL] + (Unlines(xs[1..]) + Unlines(ys))) == (xs[0] + ([NL] + Unlines(xs[1..]))) + Unlines(ys);
    }
  }
}
