/** What every run of the two key exchange machines has in common: which packet sequences they
    accept, what they hash, and what they keep. */
module KeyExchangeRuns {
  import opened Bytes
  import opened Named
  import opened Gcm
  import opened Crypto
  import opened Transport
  import opened Mpint
  import opened Negotiation
  import opened KeyExchange

  type GoodWriter = w: Writer | w.Valid() witness Writer([], 0, 0, None)

  /** One call: the packet, the randomness drawn, and the writer as it is then. */
  datatype Input = Input(packet: Packet, entropy: Entropy, writer: GoodWriter)

  // When a step succeeds

  /** A packet can be written: randomness for the padding and a nonce, if one is needed. */
  predicate CanWrite(i: Input) {
    i.entropy.random.Random? && (i.writer.sealer.Some? ==> NextNonce(i.writer.sealer.value).Ok?)
  }

  lemma EncodeSucceedsIff(p: Provider, i: Input, payload: bytes)
    ensures Encode(p.aead, i.writer, payload, i.entropy.random).0.Ok? <==> CanWrite(i)
  {
    hide Plain, PaddingFor;
  }

  /** A KEXINIT that can be read, shares an algorithm in every category with what we offer, and
      can be answered. */
  predicate Offers(p: Provider, hostKeys: seq<PublicKeyAlgorithm>, initial: bool, i: Input) {
    && i.packet.kind == KEXINIT && DecodeKexInit(p.utf8, i.packet).Ok?
    && i.entropy.cookie.Some? && CanWrite(i)
    && Choose(DecodeKexInit(p.utf8, i.packet).value, LocalKexInit(i.entropy.cookie.value, hostKeys, initial)).Ok?
  }

  function Chosen(p: Provider, hostKeys: seq<PublicKeyAlgorithm>, initial: bool, i: Input): Negotiated
    requires Offers(p, hostKeys, initial, i)
  {
    Choose(DecodeKexInit(p.utf8, i.packet).value,
           LocalKexInit(i.entropy.cookie.value, hostKeys, initial)).value
  }

  function OurInit(p: Provider, hostKeys: seq<PublicKeyAlgorithm>, initial: bool, i: Input): bytes
    requires Offers(p, hostKeys, initial, i)
  {
    EncodeKexInit(LocalKexInit(i.entropy.cookie.value, hostKeys, initial))
  }

  /** An ECDH_INIT holding one public value the agreement accepts. */
  predicate Answerable(p: Provider, kex: KexAlgorithm, i: Input) {
    && i.packet.kind == KEX_ECDH_INIT && DecodeEcdhInit(i.packet).Ok? && CanWrite(i)
    && p.agree(kex, i.entropy.ephemeral, DecodeEcdhInit(i.packet).value).Some?
  }

  predicate Confirms(i: Input) {
    i.packet.kind == NEWKEYS && i.packet.payload == []
  }

  predicate Supported(n: Negotiated, hostKeys: seq<PublicKeyAlgorithm>) {
    !n.kex.UnknownKex? && Lengths(n.toServer).Some? && Lengths(n.toClient).Some? && n.hostKey in hostKeys
  }

  lemma StartSucceedsIff(p: Provider, exchange: bytes, hostKeys: seq<PublicKeyAlgorithm>, initial: bool, i: Input)
    ensures Start(p, i.packet, exchange, hostKeys, initial, i.entropy.cookie).Ok? && CanWrite(i)
        <==> Offers(p, hostKeys, initial, i)
    ensures Offers(p, hostKeys, initial, i) ==>
              && Supported(Chosen(p, hostKeys, initial, i), hostKeys)
              && Start(p, i.packet, exchange, hostKeys, initial, i.entropy.cookie)
                 == Ok(Started(OurInit(p, hostKeys, initial, i),
                               Kx(exchange + ToBE(|i.packet.payload| + 1, 4) + [i.packet.kind] + i.packet.payload,
                                  Chosen(p, hostKeys, initial, i))))
  {
    hide EncodeKexInit, Choose, LocalKexInit;
    var d := DecodeKexInit(p.utf8, i.packet);
    if d.Ok? && i.entropy.cookie.Some?
       && Choose(d.value, LocalKexInit(i.entropy.cookie.value, hostKeys, initial)).Ok? {
      ChosenIsSupported(d.value, i.entropy.cookie.value, hostKeys, initial);
    }
  }

  /** With a supported choice the only thing that can go wrong in the agreement step is the
      packet, the peer's value or the writing. */
  lemma EcdhSucceedsIff(p: Provider, kx: Kx, i: Input, sessionId: Option<bytes>, key: HostKey)
    requires !kx.negotiated.kex.UnknownKex?
    requires Lengths(kx.negotiated.toServer).Some? && Lengths(kx.negotiated.toClient).Some?
    ensures EcdhStep(p, kx, i.packet, i.entropy, i.writer, sessionId, Ok(key)).1.Ok?
        <==> Answerable(p, kx.negotiated.kex, i)
    ensures Answerable(p, kx.negotiated.kex, i) ==>
              var cv := DecodeEcdhInit(i.packet).value;
              var reply := Reply(p, kx, cv, sessionId, key, i.entropy.ephemeral);
              && reply.Ok?
              && EcdhStep(p, kx, i.packet, i.entropy, i.writer, sessionId, Ok(key)).1 == Ok((reply.value, key))
  {
    hide Encode, TaggedPublicKey, TaggedSignature, EncodedSecret;
    if DecodeEcdhInit(i.packet).Ok? {
      var cv := DecodeEcdhInit(i.packet).value;
      if Reply(p, kx, cv, sessionId, key, i.entropy.ephemeral).Ok? {
        EncodeSucceedsIff(p, i, Reply(p, kx, cv, sessionId, key, i.entropy.ephemeral).value.reply);
      }
    }
  }

  predicate Installable(keys: KeySourceSet) {
    New(0, keys.clientToServer).Ok? && New(0, keys.serverToClient).Ok?
  }

  lemma ReplyKeysReady(p: Provider, kx: Kx, cv: bytes, sessionId: Option<bytes>, key: HostKey, ephemeral: nat)
    requires Reply(p, kx, cv, sessionId, key, ephemeral).Ok?
    ensures Installable(Reply(p, kx, cv, sessionId, key, ephemeral).value.keys)
  {
    hide TaggedPublicKey, TaggedSignature, EncodedSecret, New, DeriveSet;
    var n := kx.negotiated;
    var agreed := Agree(p, n.kex, ephemeral, cv).value;
    var secret := EncodedSecret(n.kex, agreed.secret);
    var h := Reply(p, kx, cv, sessionId, key, ephemeral).value.exchangeHash;
    DerivedKeysAreUsable(
      KeyDerivation(p.hash(n.kex), secret, h, if sessionId.Some? then sessionId.value else h), n.toServer, n.toClient);
  }

  // What is hashed

  /** The strings of a host key (section 6.6 of RFC 4253, section 3.1 of RFC 5656). */
  function HostKeyFields(key: HostKey): seq<bytes> {
    match key.algorithm
    case Ed25519 => [Ascii("ssh-ed25519"), key.publicKey]
    case EcdsaSha2Nistp256 => [Ascii("ecdsa-sha2-nistp256"), Ascii("nistp256"), key.publicKey]
    case UnknownKey(name) => [name, key.publicKey]
  }

  lemma KeyBlobIsFields(key: HostKey)
    ensures KeyBlob(key) == Strings(HostKeyFields(key))
  {
    hide EncodeString;
    var fields := HostKeyFields(key);
    StringsAppend([], fields[0]);
    StringsAppend([fields[0]], fields[1]);
    assert [] + [fields[0]] == [fields[0]] && Strings([]) + EncodeString(fields[0]) == EncodeString(fields[0]);
    assert [fields[0]] + [fields[1]] == fields[..2];
    if |fields| == 3 {
      StringsAppend(fields[..2], fields[2]);
      assert fields[..2] + [fields[2]] == fields;
    } else {
      assert fields[..2] == fields;
      var none: bytes := [];
      assert EncodeString(fields[0]) + none == EncodeString(fields[0]);
    }
  }

  /** The eight fields, read off the two packets, the values we sent and the agreement; the secret of
      X25519 is an mpint. */
  function FieldsOf(p: Provider, ids: Identities, first: Packet, ourInit: bytes, kex: KexAlgorithm,
                    key: HostKey, second: Input): Fields
    requires Answerable(p, kex, second)
  {
    var cv := DecodeEcdhInit(second.packet).value;
    var agreed := p.agree(kex, second.entropy.ephemeral, cv).value;
    Fields(ids.client, ids.server, [first.kind] + first.payload, ourInit, Strings(HostKeyFields(key)),
           cv, agreed.publicKey, if kex == Curve25519Sha256 then Body(agreed.secret) else agreed.secret)
  }

  function KexHash(p: Provider, kex: KexAlgorithm, f: Fields): bytes {
    p.hash(kex).digest(Transcript(f))
  }

  lemma OfferTranscript(ids: Identities, first: Packet, ourInit: bytes)
    ensures Greeting(ids) + ToBE(|first.payload| + 1, 4) + [first.kind] + first.payload + EncodeString(ourInit)
         == Strings([ids.client, ids.server, [first.kind] + first.payload, ourInit])
  {
    hide EncodeString;
    var clientInit := [first.kind] + first.payload;
    assert EncodeString(clientInit) == ToBE(|first.payload| + 1, 4) + [first.kind] + first.payload by {
      assert |clientInit| == |first.payload| + 1;
      EncodedString(clientInit);
      assert ToBE(|first.payload| + 1, 4) + clientInit
          == ToBE(|first.payload| + 1, 4) + [first.kind] + first.payload;
    }
    FourStrings(ids.client, ids.server, clientInit, ourInit);
    assert Greeting(ids) + EncodeString(clientInit)
        == Greeting(ids) + ToBE(|first.payload| + 1, 4) + [first.kind] + first.payload;
  }

  lemma FourStrings(a: bytes, b: bytes, c: bytes, d: bytes)
    ensures Strings([a, b, c, d]) == EncodeString(a) + EncodeString(b) + EncodeString(c) + EncodeString(d)
  {
    hide EncodeString;
    StringsAppend([], a);
    StringsAppend([a], b);
    StringsAppend([a, b], c);
    StringsAppend([a, b, c], d);
    assert [] + [a] == [a] && [a] + [b] == [a, b] && [a, b] + [c] == [a, b, c] && [a, b, c] + [d] == [a, b, c, d];
    assert Strings([]) + EncodeString(a) == EncodeString(a);
  }

  lemma EightStrings(f: Fields)
    ensures Transcript(f)
         == Strings([f.clientId, f.serverId, f.clientInit, f.serverInit]) + EncodeString(f.hostKey)
            + EncodeString(f.clientValue) + EncodeString(f.serverValue) + EncodeString(f.secret)
  {
    hide EncodeString, Strings;
    var s := [f.clientId, f.serverId, f.clientInit, f.serverInit];
    StringsAppend(s, f.hostKey);
    StringsAppend(s + [f.hostKey], f.clientValue);
    StringsAppend(s + [f.hostKey] + [f.clientValue], f.serverValue);
    StringsAppend(s + [f.hostKey] + [f.clientValue] + [f.serverValue], f.secret);
    assert s + [f.hostKey] + [f.clientValue] + [f.serverValue] + [f.secret] == f.List();
  }

  lemma SecretIsString(kex: KexAlgorithm, secret: bytes)
    ensures EncodedSecret(kex, secret) == EncodeString(if kex == Curve25519Sha256 then Body(secret) else secret)
  {
  }

  /** The keys derived from these fields for a session. */
  ghost predicate Derives(p: Provider, n: Negotiated, f: Fields, sessionId: bytes, keys: KeySourceSet) {
    && keys.clientToServer.algorithm == n.toServer && keys.serverToClient.algorithm == n.toClient
    && KeysFrom(p.hash(n.kex), EncodeString(f.secret), KexHash(p, n.kex, f), sessionId, keys)
  }

  /** The hash of a completed exchange covers exactly the eight fields, in order, and the keys are derived
      from it, for the session id given or else for the hash itself. */
  lemma ReplyHashesTranscript(p: Provider, ids: Identities, first: Packet, ourInit: bytes, kx: Kx, key: HostKey,
                              second: Input, sessionId: Option<bytes>)
    requires Supported(kx.negotiated, [kx.negotiated.hostKey]) && Answerable(p, kx.negotiated.kex, second)
    requires kx.exchange == Strings([ids.client, ids.server, [first.kind] + first.payload, ourInit])
    ensures var cv := DecodeEcdhInit(second.packet).value;
            var r := Reply(p, kx, cv, sessionId, key, second.entropy.ephemeral);
            var n := kx.negotiated;
            var f := FieldsOf(p, ids, first, ourInit, n.kex, key, second);
            var h := KexHash(p, n.kex, f);
            && r.Ok? && r.value.exchangeHash == h
            && Derives(p, n, f, if sessionId.Some? then sessionId.value else h, r.value.keys)
  {
    hide EncodeString, Strings, TaggedSignature, KeyBlob, EncodedSecret, Transcript, DecodeEcdhInit, Body,
         HostKeyFields, DeriveSet, KeysFrom;
    var cv := DecodeEcdhInit(second.packet).value;
    var n := kx.negotiated;
    var f := FieldsOf(p, ids, first, ourInit, n.kex, key, second);
    var secret := p.agree(n.kex, second.entropy.ephemeral, cv).value.secret;
    SecretIsString(n.kex, secret);
    KeyBlobIsFields(key);
    EightStrings(f);
    var h := KexHash(p, n.kex, f);
    DerivedAsStandardised(KeyDerivation(p.hash(n.kex), EncodedSecret(n.kex, secret), h,
                                        if sessionId.Some? then sessionId.value else h), n.toServer, n.toClient);
  }

  // What is replied

  /** How a client reads the reply: the host key, the public value and the signature, and nothing more. */
  function ReadReply(utf8: Utf8, b: bytes): Result<(bytes, bytes, Signature), ProtoError> {
    if b == [] || b[0] != 31 then Err(UnexpectedMessage) else
    var key :- DecodeString(b[1..]);
    var value :- DecodeString(key.next);
    var signature :- DecodeSignature(utf8, value.next);
    if signature.next != [] then Err(InvalidPacket) else Ok((key.value, value.value, signature.value))
  }

  /** The strings of the reply fit their length fields, and the signature is one the host key makes. */
  predicate ReplyFits(key: HostKey, f: Fields, signature: bytes) {
    && |f.hostKey| < U32 && |f.serverValue| < U32 && |signature| + 100 < U32
    && (key.algorithm == Ed25519 || (key.algorithm == EcdsaSha2Nistp256 && |signature| == 64))
  }

  /** The reply carries the host key and public value that were hashed, and signs the exchange hash. */
  ghost predicate Answers(p: Provider, kex: KexAlgorithm, f: Fields, key: HostKey, reply: bytes) {
    ReplyFits(key, f, p.sign(key, KexHash(p, kex, f))) ==>
      var r := ReadReply(p.utf8, reply);
      && r.Ok? && r.value.0 == f.hostKey && r.value.1 == f.serverValue && r.value.2.algorithm == key.algorithm
      && EncodeForVerification(r.value.2) == Ok(p.sign(key, KexHash(p, kex, f)))
  }

  lemma ReplyReads(utf8: Utf8, key: bytes, value: bytes, algorithm: PublicKeyAlgorithm, signature: bytes)
    requires |key| < U32 && |value| < U32 && |signature| + 100 < U32
    requires algorithm == Ed25519 || (algorithm == EcdsaSha2Nistp256 && |signature| == 64)
    ensures var r := ReadReply(utf8, [31] + EncodeString(key) + EncodeString(value)
                                     + TaggedSignature(algorithm, signature));
            && r.Ok? && r.value.0 == key && r.value.1 == value && r.value.2.algorithm == algorithm
            && EncodeForVerification(r.value.2) == Ok(signature)
  {
    hide EncodeString, DecodeString, TaggedSignature, DecodeSignature, EncodeForVerification;
    var signed := TaggedSignature(algorithm, signature);
    var b := [31] + EncodeString(key) + EncodeString(value) + signed;
    assert b[1..] == EncodeString(key) + (EncodeString(value) + signed);
    StringRoundTrip(key, EncodeString(value) + signed);
    StringRoundTrip(value, signed);
    SignatureFramingRoundTrip(utf8, algorithm, signature);
  }

  /** What the reply to an acceptable ECDH_INIT says. */
  lemma ReplyAnswers(p: Provider, ids: Identities, first: Packet, ourInit: bytes, kx: Kx, key: HostKey,
                     second: Input, sessionId: Option<bytes>)
    requires Supported(kx.negotiated, [kx.negotiated.hostKey]) && Answerable(p, kx.negotiated.kex, second)
    requires kx.exchange == Strings([ids.client, ids.server, [first.kind] + first.payload, ourInit])
    ensures var cv := DecodeEcdhInit(second.packet).value;
            var r := Reply(p, kx, cv, sessionId, key, second.entropy.ephemeral);
            var f := FieldsOf(p, ids, first, ourInit, kx.negotiated.kex, key, second);
            r.Ok? && Answers(p, kx.negotiated.kex, f, key, r.value.reply)
  {
    hide EncodeString, Strings, TaggedSignature, KeyBlob, EncodedSecret, Transcript, DecodeEcdhInit, Body,
         HostKeyFields, DeriveSet, KeysFrom, ReadReply, Derives, EncodeForVerification;
    ReplyHashesTranscript(p, ids, first, ourInit, kx, key, second, sessionId);
    KeyBlobIsFields(key);
    var f := FieldsOf(p, ids, first, ourInit, kx.negotiated.kex, key, second);
    var signature := p.sign(key, KexHash(p, kx.negotiated.kex, f));
    if ReplyFits(key, f, signature) {
      ReplyReads(p.utf8, f.hostKey, f.serverValue, key.algorithm, signature);
    }
  }

  // Runs of the initial exchange

  function RunInitial(p: Provider, st: Initial, inputs: seq<Input>)
    : (r: (seq<Result<Option<Established>, ProtoError>>, Initial))
    ensures |r.0| == |inputs|
    decreases |inputs|
  {
    if inputs == [] then ([], st) else
    var (next, _, result) := HandleInitial(p, st, inputs[0].packet, inputs[0].entropy, inputs[0].writer);
    var (more, last) := RunInitial(p, next, inputs[1..]);
    ([result] + more, last)
  }

  /** The three packets that establish keys, for the host keys on offer. */
  predicate Establishing(p: Provider, keys: seq<HostKey>, first: Input, second: Input, third: Input) {
    && Offers(p, Algorithms(keys), true, first)
    && Answerable(p, Chosen(p, Algorithms(keys), true, first).kex, second)
    && Confirms(third)
  }

  function InitialFields(p: Provider, keys: seq<HostKey>, ids: Identities, key: HostKey, first: Input, second: Input)
    : Fields
    requires Offers(p, Algorithms(keys), true, first)
    requires Answerable(p, Chosen(p, Algorithms(keys), true, first).kex, second)
  {
    FieldsOf(p, ids, first.packet, OurInit(p, Algorithms(keys), true, first),
             Chosen(p, Algorithms(keys), true, first).kex, key, second)
  }

  /** The keys and session id the three packets must lead to. */
  ghost predicate ExpectedOutput(p: Provider, keys: seq<HostKey>, ids: Identities, first: Input, second: Input,
                                 o: Output)
    requires Offers(p, Algorithms(keys), true, first)
    requires Answerable(p, Chosen(p, Algorithms(keys), true, first).kex, second)
  {
    var n := Chosen(p, Algorithms(keys), true, first);
    var f := InitialFields(p, keys, ids, o.hostKey, first, second);
    var entries := DecodeKexInit(p.utf8, first.packet).value.kex;
    && o.ids == ids && o.hostKey in keys && o.hostKey.algorithm == n.hostKey
    && FindHostKey(keys, n.hostKey) == Ok(o.hostKey)
    && (o.strict <==> Extension(StrictKexClient) in entries)
    && (o.postQuantum <==> n.kex == MlKem768X25519Sha256)
    && o.sessionId == KexHash(p, n.kex, f) && Derives(p, n, f, o.sessionId, o.keys)
  }

  lemma InitialOffer(p: Provider, keys: seq<HostKey>, ids: Identities, i: Input)
    ensures var (st, w, r) := HandleInitial(p, AwaitKexInit(keys, ids, Greeting(ids)), i.packet, i.entropy, i.writer);
            && (r.Ok? <==> Offers(p, Algorithms(keys), true, i))
            && (r.Err? ==> st == Initial.Complete)
            && (r.Ok? ==>
                  && r.value.None?
                  && w == Encode(p.aead, i.writer, OurInit(p, Algorithms(keys), true, i), i.entropy.random).1
                  && Supported(Chosen(p, Algorithms(keys), true, i), Algorithms(keys))
                  && st == InitiallyOffered(p, keys, ids, i))
  {
    hide Start, Encode, Strings, Greeting, Offers, CanWrite, Chosen, OurInit, Supported, EcdhStep, FinishStep,
         FindHostKey, EncodeString, Algorithms, ToBE;
    var algs := Algorithms(keys);
    StartSucceedsIff(p, Greeting(ids), algs, true, i);
    var s := Start(p, i.packet, Greeting(ids), algs, true, i.entropy.cookie);
    if s.Ok? {
      EncodeSucceedsIff(p, i, s.value.local);
      OfferTranscript(ids, i.packet, s.value.local);
    }
  }

  lemma InitialAgreement(p: Provider, keys: seq<HostKey>, ids: Identities, first: Input, i: Input)
    requires Offers(p, Algorithms(keys), true, first)
    ensures var n := Chosen(p, Algorithms(keys), true, first);
            var (st, _, r) := HandleInitial(p, InitiallyOffered(p, keys, ids, first), i.packet, i.entropy, i.writer);
            && (r.Ok? <==> Answerable(p, n.kex, i))
            && (r.Err? ==> st == Initial.Complete)
            && (r.Ok? ==>
                  && r.value.None? && st.AwaitNewKeys?
                  && (st.extInfo <==> Extension(ExtInfoC) in DecodeKexInit(p.utf8, first.packet).value.kex)
                  && ExpectedOutput(p, keys, ids, first, i, st.output)
                  && Installable(st.output.keys))
  {
    hide Strings, Reply, EcdhStep, EncodeKexInit, Choose, DecodeKexInit, DecodeEcdhInit, DeriveSet, KexHash, Derives,
         LocalKexInit, Earliest, Disjoint, Candidates, HostKeyFields, Body, FieldsOf;
    var algs := Algorithms(keys);
    var n := Chosen(p, algs, true, first);
    StartSucceedsIff(p, Greeting(ids), algs, true, first);
    var exchange := Strings([ids.client, ids.server, [first.packet.kind] + first.packet.payload,
                             OurInit(p, algs, true, first)]);
    ChooseIsNegotiation(DecodeKexInit(p.utf8, first.packet).value,
                        LocalKexInit(first.entropy.cookie.value, algs, true));
    FindHostKeySucceeds(keys, n.hostKey);
    var key := FindHostKey(keys, n.hostKey).value;
    EcdhSucceedsIff(p, Kx(exchange, n), i, None, key);
    if Answerable(p, n.kex, i) {
      ReplyHashesTranscript(p, ids, first.packet, OurInit(p, algs, true, first), Kx(exchange, n), key, i, None);
      ReplyKeysReady(p, Kx(exchange, n), DecodeEcdhInit(i.packet).value, None, key, i.entropy.ephemeral);
    }
  }

  /** The bytes of a reply. */
  function ReplyTo(p: Provider, kx: Kx, i: Input, sessionId: Option<bytes>, key: HostKey): Result<bytes, CryptoError>
    requires DecodeEcdhInit(i.packet).Ok?
  {
    var replied :- Reply(p, kx, DecodeEcdhInit(i.packet).value, sessionId, key, i.entropy.ephemeral);
    Ok(replied.reply)
  }

  /** What the first exchange writes in answer to an acceptable ECDH_INIT. */
  lemma InitialReply(p: Provider, keys: seq<HostKey>, ids: Identities, first: Input, i: Input) returns (reply: bytes)
    requires Offers(p, Algorithms(keys), true, first)
    requires Answerable(p, Chosen(p, Algorithms(keys), true, first).kex, i)
    ensures var n := Chosen(p, Algorithms(keys), true, first);
            var (st, w, r) := HandleInitial(p, InitiallyOffered(p, keys, ids, first), i.packet, i.entropy, i.writer);
            && r.Ok? && st.AwaitNewKeys? && w == Encode(p.aead, i.writer, reply, i.entropy.random).1
            && st.output.hostKey == FindHostKey(keys, n.hostKey).value
            && Ok(reply) == ReplyTo(p, InitiallyOffered(p, keys, ids, first).kx, i, None, st.output.hostKey)
            && Answers(p, n.kex, InitialFields(p, keys, ids, st.output.hostKey, first, i), st.output.hostKey, reply)
  {
    hide Strings, Reply, EncodeKexInit, Choose, DecodeKexInit, DecodeEcdhInit, Answers, Encode;
    var algs := Algorithms(keys);
    var n := Chosen(p, algs, true, first);
    StartSucceedsIff(p, Greeting(ids), algs, true, first);
    FindHostKeySucceeds(keys, n.hostKey);
    var key := FindHostKey(keys, n.hostKey).value;
    var kx := InitiallyOffered(p, keys, ids, first).kx;
    EcdhSucceedsIff(p, kx, i, None, key);
    ReplyAnswers(p, ids, first.packet, OurInit(p, algs, true, first), kx, key, i, None);
    reply := Reply(p, kx, DecodeEcdhInit(i.packet).value, None, key, i.entropy.ephemeral).value.reply;
  }

  lemma InitialConfirm(p: Provider, output: Output, extInfo: bool, i: Input)
    requires Installable(output.keys)
    ensures var (st, _, r) := HandleInitial(p, AwaitNewKeys(output, extInfo), i.packet, i.entropy, i.writer);
            && st == Initial.Complete && (r.Ok? <==> Confirms(i))
            && (r.Ok? ==> r.value == Some(Established(
                  output, KeyUpdate(New(0, output.keys.clientToServer).value,
                                    New(0, output.keys.serverToClient).value, output.strict), extInfo)))
  {
    hide New, Start, EcdhStep, Encode;
  }

  type Outcomes = seq<Result<Option<Established>, ProtoError>>

  ghost predicate AllFail(results: Outcomes) {
    forall i :: 0 <= i < |results| ==> results[i].Err?
  }

  lemma {:induction false} CompleteRefuses(p: Provider, inputs: seq<Input>)
    ensures AllFail(RunInitial(p, Initial.Complete, inputs).0)
    decreases |inputs|
  {
    if inputs != [] {
      CompleteRefuses(p, inputs[1..]);
    }
  }

  /** Keys appear at position `k` and only there, and only if `good`; nothing succeeds after an
      error or from position `k` on. */
  ghost predicate OnlyAt(results: Outcomes, k: nat, good: bool) {
    && (forall i :: 0 <= i < |results| ==> (results[i].Ok? && results[i].value.Some? <==> i == k && good))
    && (forall i, j :: 0 <= i < j < |results| && (results[i].Err? || i >= k) ==> results[j].Err?)
  }

  lemma FailedFirst(e: ProtoError, more: Outcomes, k: nat)
    requires AllFail(more)
    ensures OnlyAt([Err(e)] + more, k, false)
  {
  }

  lemma DoneFirst(x: Established, more: Outcomes)
    requires AllFail(more)
    ensures OnlyAt([Ok(Some(x))] + more, 0, true)
  {
  }

  lemma NothingFirst(more: Outcomes, k: nat, good: bool)
    requires OnlyAt(more, k, good)
    ensures OnlyAt([Ok(None)] + more, k + 1, good)
  {
    var all := [Ok(None)] + more;
    forall i, j | 0 <= i < j < |all| && (all[i].Err? || i >= k + 1) ensures all[j].Err? {
      assert all[i] == more[i - 1] && all[j] == more[j - 1];
    }
  }

  lemma Unrolled(p: Provider, st: Initial, inputs: seq<Input>)
    requires inputs != []
    ensures var i := inputs[0];
            var (next, _, r) := HandleInitial(p, st, i.packet, i.entropy, i.writer);
            RunInitial(p, st, inputs).0 == [r] + RunInitial(p, next, inputs[1..]).0
  {
    hide HandleInitial;
  }

  lemma LastStage(p: Provider, output: Output, extInfo: bool, inputs: seq<Input>)
    requires Installable(output.keys) && inputs != []
    ensures var results := RunInitial(p, AwaitNewKeys(output, extInfo), inputs).0;
            && OnlyAt(results, 0, Confirms(inputs[0]))
            && (Confirms(inputs[0]) ==>
                  && results[0].Ok? && results[0].value.Some? && results[0].value.value.output == output
                  && results[0].value.value.extInfo == extInfo
                  && UpdatesTo(results[0].value.value.update, output.keys, output.strict))
  {
    hide HandleInitial, RunInitial, New, OnlyAt, AllFail, Confirms;
    var i := inputs[0];
    InitialConfirm(p, output, extInfo, i);
    CompleteRefuses(p, inputs[1..]);
    Unrolled(p, AwaitNewKeys(output, extInfo), inputs);
    var more := RunInitial(p, Initial.Complete, inputs[1..]).0;
    var r := HandleInitial(p, AwaitNewKeys(output, extInfo), i.packet, i.entropy, i.writer).2;
    if r.Err? {
      FailedFirst(r.error, more, 0);
    } else {
      DoneFirst(r.value.value, more);
    }
  }

  /** The state after an acceptable KEXINIT. */
  function InitiallyOffered(p: Provider, keys: seq<HostKey>, ids: Identities, first: Input): Initial
    requires Offers(p, Algorithms(keys), true, first)
  {
    AwaitEcdhInit(Kx(Strings([ids.client, ids.server, [first.packet.kind] + first.packet.payload,
                              OurInit(p, Algorithms(keys), true, first)]),
                     Chosen(p, Algorithms(keys), true, first)), keys, ids)
  }

  ghost predicate AsExpected(p: Provider, keys: seq<HostKey>, ids: Identities, first: Input, second: Input,
                             result: Result<Option<Established>, ProtoError>)
    requires Offers(p, Algorithms(keys), true, first)
    requires Answerable(p, Chosen(p, Algorithms(keys), true, first).kex, second)
  {
    && result.Ok? && result.value.Some?
    && var e := result.value.value;
       && ExpectedOutput(p, keys, ids, first, second, e.output) && UpdatesTo(e.update, e.output.keys, e.output.strict)
       && (e.extInfo <==> Extension(ExtInfoC) in DecodeKexInit(p.utf8, first.packet).value.kex)
  }

  /** Fresh keys for both directions: the client's for opening, ours for sealing. */
  predicate UpdatesTo(update: KeyUpdate, keys: KeySourceSet, strict: bool) {
    && New(0, keys.clientToServer) == Ok(update.opener) && New(0, keys.serverToClient) == Ok(update.sealer)
    && update.strict == strict
  }

  lemma MiddleStage(p: Provider, keys: seq<HostKey>, ids: Identities, first: Input, inputs: seq<Input>)
    requires Offers(p, Algorithms(keys), true, first) && inputs != []
    ensures var results := RunInitial(p, InitiallyOffered(p, keys, ids, first), inputs).0;
            var good := && |inputs| > 1 && Answerable(p, Chosen(p, Algorithms(keys), true, first).kex, inputs[0])
                        && Confirms(inputs[1]);
            && OnlyAt(results, 1, good)
            && (good ==> AsExpected(p, keys, ids, first, inputs[0], results[1]))
  {
    hide HandleInitial, RunInitial, Offers, Answerable, ExpectedOutput, Chosen, InitiallyOffered, Installable, Confirms,
         OnlyAt, AllFail, Algorithms, DecodeKexInit, UpdatesTo;
    var st := InitiallyOffered(p, keys, ids, first);
    var i := inputs[0];
    InitialAgreement(p, keys, ids, first, i);
    Unrolled(p, st, inputs);
    var (next, _, r) := HandleInitial(p, st, i.packet, i.entropy, i.writer);
    var more := RunInitial(p, next, inputs[1..]).0;
    if r.Err? {
      CompleteRefuses(p, inputs[1..]);
      FailedFirst(r.error, more, 1);
    } else if |inputs| > 1 {
      LastStage(p, next.output, next.extInfo, inputs[1..]);
      NothingFirst(more, 0, Confirms(inputs[1]));
    } else {
      assert OnlyAt(more, 0, false) by { EmptyOnlyAt(more); }
      NothingFirst(more, 0, false);
    }
  }

  lemma EmptyOnlyAt(results: Outcomes)
    requires results == []
    ensures forall k: nat, good :: OnlyAt(results, k, good)
  {
  }

  /** The language of the initial exchange, over every packet sequence: keys are established at
      the third packet, exactly when the first three are an acceptable KEXINIT, ECDH_INIT and
      NEWKEYS with nothing in between, and never at any other; once a call has failed, or keys
      have been established, every later call fails. What is established is derived from the
      transcript of these three packets, whose hash is the session id. */
  lemma InitialLanguage(p: Provider, keys: seq<HostKey>, ids: Identities, inputs: seq<Input>)
    requires inputs != []
    ensures var results := RunInitial(p, AwaitKexInit(keys, ids, Greeting(ids)), inputs).0;
            var good := |inputs| > 2 && Establishing(p, keys, inputs[0], inputs[1], inputs[2]);
            && OnlyAt(results, 2, good)
            && (good ==> AsExpected(p, keys, ids, inputs[0], inputs[1], results[2]))
  {
    hide HandleInitial, RunInitial, Offers, Answerable, Greeting, Chosen, InitiallyOffered, Confirms, OnlyAt, AllFail,
         AsExpected, Algorithms, Supported, Encode, OurInit;
    var st := AwaitKexInit(keys, ids, Greeting(ids));
    var i := inputs[0];
    InitialOffer(p, keys, ids, i);
    Unrolled(p, st, inputs);
    var (next, _, r) := HandleInitial(p, st, i.packet, i.entropy, i.writer);
    var more := RunInitial(p, next, inputs[1..]).0;
    if r.Err? {
      CompleteRefuses(p, inputs[1..]);
      FailedFirst(r.error, more, 2);
    } else if |inputs| > 1 {
      MiddleStage(p, keys, ids, i, inputs[1..]);
      NothingFirst(more, 1, |inputs| > 2 && Establishing(p, keys, inputs[0], inputs[1], inputs[2]));
    } else {
      EmptyOnlyAt(more);
      NothingFirst(more, 1, false);
    }
  }

  // Rekeying

  function RunRekey(p: Provider, st: RekeyState, inputs: seq<Input>)
    : (r: (seq<Result<Option<Rekeyed>, ProtoError>>, RekeyState))
    ensures |r.0| == |inputs|
    decreases |inputs|
  {
    if inputs == [] then ([], st) else
    var (next, _, result) := HandleRekey(p, st, inputs[0].packet, inputs[0].entropy, inputs[0].writer);
    var (more, last) := RunRekey(p, next, inputs[1..]);
    ([result] + more, last)
  }

  predicate Keeps(st: RekeyState, rekey: Rekey) {
    st.Transitioning? || st.rekey == rekey
  }

  /** Whatever arrives, the session id, the identities, the host key and the strict flag stay
      what they were, and a machine that has failed refuses everything from then on. */
  lemma {:induction false} RekeyKeeps(p: Provider, st: RekeyState, rekey: Rekey, inputs: seq<Input>)
    requires Keeps(st, rekey)
    ensures Keeps(RunRekey(p, st, inputs).1, rekey)
    ensures st.Transitioning? ==> forall i :: 0 <= i < |inputs| ==> RunRekey(p, st, inputs).0[i].Err?
    ensures forall i, j :: 0 <= i < j < |inputs| && RunRekey(p, st, inputs).0[i].Err? ==>
              RunRekey(p, st, inputs).0[j].Err?
    decreases |inputs|
  {
    hide Start, EcdhStep, FinishStep, Encode;
    if inputs != [] {
      var i := inputs[0];
      var (next, _, r) := HandleRekey(p, st, i.packet, i.entropy, i.writer);
      RekeyKeeps(p, next, rekey, inputs[1..]);
    }
  }

  function OfferedBy(p: Provider, rekey: Rekey, first: Input): RekeyState
    requires Offers(p, [rekey.hostKey.algorithm], false, first)
  {
    var ours := OurInit(p, [rekey.hostKey.algorithm], false, first);
    Offered(Kx(Strings([rekey.ids.client, rekey.ids.server, [first.packet.kind] + first.packet.payload, ours]),
               Chosen(p, [rekey.hostKey.algorithm], false, first)), rekey)
  }

  lemma RekeyOffer(p: Provider, rekey: Rekey, i: Input)
    ensures var (st, w, r) := HandleRekey(p, Idle(rekey), i.packet, i.entropy, i.writer);
            var good := Offers(p, [rekey.hostKey.algorithm], false, i);
            && (r.Ok? <==> good) && (r.Err? ==> st == Transitioning)
            && (good ==> r.value.None? && st == OfferedBy(p, rekey, i)
                         && w == Encode(p.aead, i.writer, OurInit(p, [rekey.hostKey.algorithm], false, i),
                                        i.entropy.random).1
                         && Supported(st.kx.negotiated, [rekey.hostKey.algorithm]))
  {
    hide Start, Encode, Strings, Greeting, Offers, CanWrite, Chosen, OurInit, Supported, EcdhStep, FinishStep,
         EncodeString, ToBE;
    var algs := [rekey.hostKey.algorithm];
    StartSucceedsIff(p, Greeting(rekey.ids), algs, false, i);
    var s := Start(p, i.packet, Greeting(rekey.ids), algs, false, i.entropy.cookie);
    if s.Ok? {
      EncodeSucceedsIff(p, i, s.value.local);
      OfferTranscript(rekey.ids, i.packet, s.value.local);
    }
  }

  function RekeyFields(p: Provider, rekey: Rekey, first: Input, second: Input): Fields
    requires Offers(p, [rekey.hostKey.algorithm], false, first)
    requires Answerable(p, Chosen(p, [rekey.hostKey.algorithm], false, first).kex, second)
  {
    var algs := [rekey.hostKey.algorithm];
    FieldsOf(p, rekey.ids, first.packet, OurInit(p, algs, false, first), Chosen(p, algs, false, first).kex,
             rekey.hostKey, second)
  }

  /** A rekey hashes the transcript of its own packets and derives its keys with the session id
      of the first exchange. */
  ghost predicate ExpectedKeys(p: Provider, rekey: Rekey, first: Input, second: Input, keys: KeySourceSet)
    requires Offers(p, [rekey.hostKey.algorithm], false, first)
    requires Answerable(p, Chosen(p, [rekey.hostKey.algorithm], false, first).kex, second)
  {
    Derives(p, Chosen(p, [rekey.hostKey.algorithm], false, first), RekeyFields(p, rekey, first, second),
            rekey.sessionId, keys)
  }

  lemma RekeyAgreement(p: Provider, rekey: Rekey, first: Input, i: Input)
    requires Offers(p, [rekey.hostKey.algorithm], false, first)
    ensures var n := Chosen(p, [rekey.hostKey.algorithm], false, first);
            var (st, _, r) := HandleRekey(p, OfferedBy(p, rekey, first), i.packet, i.entropy, i.writer);
            && (r.Ok? <==> Answerable(p, n.kex, i)) && (r.Err? ==> st == Transitioning)
            && (r.Ok? ==> r.value.None? && st.Answered? && st.rekey == rekey && Installable(st.keys)
                          && ExpectedKeys(p, rekey, first, i, st.keys)
                          && (st.postQuantum <==> n.kex == MlKem768X25519Sha256))
  {
    hide Strings, Reply, EcdhStep, EncodeKexInit, Choose, DecodeKexInit, DecodeEcdhInit, DeriveSet, KexHash, Derives;
    var algs := [rekey.hostKey.algorithm];
    StartSucceedsIff(p, Greeting(rekey.ids), algs, false, first);
    var kx := OfferedBy(p, rekey, first).kx;
    var id := Some(rekey.sessionId);
    EcdhSucceedsIff(p, kx, i, id, rekey.hostKey);
    if Answerable(p, kx.negotiated.kex, i) {
      ReplyHashesTranscript(p, rekey.ids, first.packet, OurInit(p, algs, false, first), kx, rekey.hostKey, i, id);
      ReplyKeysReady(p, kx, DecodeEcdhInit(i.packet).value, id, rekey.hostKey, i.entropy.ephemeral);
    }
  }

  /** What a rekey writes in answer to an acceptable ECDH_INIT. */
  lemma RekeyReply(p: Provider, rekey: Rekey, first: Input, i: Input) returns (reply: bytes)
    requires Offers(p, [rekey.hostKey.algorithm], false, first)
    requires Answerable(p, Chosen(p, [rekey.hostKey.algorithm], false, first).kex, i)
    ensures var n := Chosen(p, [rekey.hostKey.algorithm], false, first);
            var (_, w, r) := HandleRekey(p, OfferedBy(p, rekey, first), i.packet, i.entropy, i.writer);
            && r.Ok? && w == Encode(p.aead, i.writer, reply, i.entropy.random).1
            && Answers(p, n.kex, RekeyFields(p, rekey, first, i), rekey.hostKey, reply)
  {
    hide Strings, Reply, EncodeKexInit, Choose, DecodeKexInit, DecodeEcdhInit, Answers, Encode;
    var algs := [rekey.hostKey.algorithm];
    StartSucceedsIff(p, Greeting(rekey.ids), algs, false, first);
    var kx, id := OfferedBy(p, rekey, first).kx, Some(rekey.sessionId);
    EcdhSucceedsIff(p, kx, i, id, rekey.hostKey);
    ReplyAnswers(p, rekey.ids, first.packet, OurInit(p, algs, false, first), kx, rekey.hostKey, i, id);
    reply := Reply(p, kx, DecodeEcdhInit(i.packet).value, id, rekey.hostKey, i.entropy.ephemeral).value.reply;
  }

  lemma RekeyConfirm(p: Provider, rekey: Rekey, keys: KeySourceSet, postQuantum: bool, i: Input)
    requires Installable(keys)
    ensures var (st, _, r) := HandleRekey(p, Answered(rekey, keys, postQuantum), i.packet, i.entropy, i.writer);
            && (r.Ok? <==> Confirms(i)) && (r.Err? ==> st == Transitioning)
            && (r.Ok? ==> st == Idle(rekey) && r.value == Some(Rekeyed(
                  KeyUpdate(New(0, keys.clientToServer).value, New(0, keys.serverToClient).value, rekey.strict),
                  postQuantum)))
  {
    hide New, Start, EcdhStep, Encode;
  }

  /** The keys handed out for the packets, and whether the exchange was post-quantum. */
  ghost predicate HandsOut(p: Provider, rekey: Rekey, first: Input, second: Input,
                           result: Result<Option<Rekeyed>, ProtoError>)
    requires Offers(p, [rekey.hostKey.algorithm], false, first)
    requires Answerable(p, Chosen(p, [rekey.hostKey.algorithm], false, first).kex, second)
  {
    && result.Ok? && result.value.Some?
    && (exists keys :: ExpectedKeys(p, rekey, first, second, keys)
                       && UpdatesTo(result.value.value.update, keys, rekey.strict))
    && (result.value.value.postQuantum <==>
          Chosen(p, [rekey.hostKey.algorithm], false, first).kex == MlKem768X25519Sha256)
  }

  /** The three packets of an acceptable rekey. */
  predicate Rekeying(p: Provider, rekey: Rekey, a: Input, b: Input, c: Input) {
    && Offers(p, [rekey.hostKey.algorithm], false, a)
    && Answerable(p, Chosen(p, [rekey.hostKey.algorithm], false, a).kex, b)
    && Confirms(c)
  }

  /** One rekey: it goes through exactly when its three packets are acceptable, it then hands
      out keys derived under the original session id, and the machine is back where it was. */
  lemma RekeyCycle(p: Provider, rekey: Rekey, a: Input, b: Input, c: Input)
    ensures var (results, last) := RunRekey(p, Idle(rekey), [a, b, c]);
            && (results[2].Ok? <==> Rekeying(p, rekey, a, b, c)) && results[2] != Ok(None)
            && (results[0].Ok? ==> results[0].value.None?) && (results[1].Ok? ==> results[1].value.None?)
            && (Rekeying(p, rekey, a, b, c) ==>
                  last == Idle(rekey) && HandsOut(p, rekey, a, b, results[2]))
  {
    hide HandleRekey, Offers, Answerable, ExpectedKeys, Confirms, New, OfferedBy, Chosen, Supported, Encode, OurInit;
    RekeyOffer(p, rekey, a);
    var (s1, _, r1) := HandleRekey(p, Idle(rekey), a.packet, a.entropy, a.writer);
    assert [a, b, c][1..] == [b, c] && [b, c][1..] == [c] && [c][1..] == [];
    if r1.Err? {
      RekeyKeeps(p, Transitioning, rekey, [b, c]);
    } else {
      RekeyAgreement(p, rekey, a, b);
      var (s2, _, r2) := HandleRekey(p, s1, b.packet, b.entropy, b.writer);
      if r2.Err? {
        RekeyKeeps(p, Transitioning, rekey, [c]);
      } else {
        RekeyConfirm(p, rekey, s2.keys, s2.postQuantum, c);
        var (s3, _, r3) := HandleRekey(p, s2, c.packet, c.entropy, c.writer);
        assert RunRekey(p, s2, [c]) == ([r3] + [], s3);
        assert RunRekey(p, s1, [b, c]) == ([r2] + ([r3] + []), s3);
      }
    }
  }

  lemma {:induction false} RunRekeyAppend(p: Provider, st: RekeyState, xs: seq<Input>, ys: seq<Input>)
    ensures var (first, mid) := RunRekey(p, st, xs);
            var (second, last) := RunRekey(p, mid, ys);
            RunRekey(p, st, xs + ys) == (first + second, last)
    decreases |xs|
  {
    hide HandleRekey, RunRekey;
    if xs == [] {
      NoRekey(p, st);
      assert [] + ys == ys;
      assert [] + RunRekey(p, st, ys).0 == RunRekey(p, st, ys).0;
    } else {
      var (next, _, r) := HandleRekey(p, st, xs[0].packet, xs[0].entropy, xs[0].writer);
      assert (xs + ys)[0] == xs[0] && (xs + ys)[1..] == xs[1..] + ys;
      RekeyUnrolled(p, st, xs);
      RekeyUnrolled(p, st, xs + ys);
      RunRekeyAppend(p, next, xs[1..], ys);
      var more, second := RunRekey(p, next, xs[1..]).0, RunRekey(p, RunRekey(p, st, xs).1, ys).0;
      assert [r] + (more + second) == ([r] + more) + second;
    }
  }

  lemma RekeyUnrolled(p: Provider, st: RekeyState, inputs: seq<Input>)
    requires inputs != []
    ensures var i := inputs[0];
            var (next, _, r) := HandleRekey(p, st, i.packet, i.entropy, i.writer);
            var (more, last) := RunRekey(p, next, inputs[1..]);
            RunRekey(p, st, inputs) == ([r] + more, last)
  {
    hide HandleRekey;
  }

  /** Rekeys, one after the other, with nothing in between. */
  predicate Cycles(p: Provider, rekey: Rekey, inputs: seq<Input>)
    decreases |inputs|
  {
    inputs == [] ||
    (|inputs| >= 3 && Rekeying(p, rekey, inputs[0], inputs[1], inputs[2]) && Cycles(p, rekey, inputs[3..]))
  }

  ghost predicate Rekeys(p: Provider, rekey: Rekey, a: Input, b: Input, c: Input,
                         result: Result<Option<Rekeyed>, ProtoError>) {
    Rekeying(p, rekey, a, b, c) && HandsOut(p, rekey, a, b, result)
  }

  predicate HandsOutKeys(result: Result<Option<Rekeyed>, ProtoError>) {
    result.Ok? && result.value.Some?
  }

  /** The first cycle of a run. */
  lemma FirstCycle(p: Provider, rekey: Rekey, inputs: seq<Input>)
    requires |inputs| >= 3
    ensures var (results, last) := RunRekey(p, Idle(rekey), inputs);
            var good := Rekeying(p, rekey, inputs[0], inputs[1], inputs[2]);
            && !HandsOutKeys(results[0]) && !HandsOutKeys(results[1]) && (HandsOutKeys(results[2]) <==> good)
            && (good ==> Rekeys(p, rekey, inputs[0], inputs[1], inputs[2], results[2])
                         && RunRekey(p, Idle(rekey), inputs[3..]) == (results[3..], last))
            && (!good ==> forall j :: 3 <= j < |inputs| ==> results[j].Err?)
  {
    hide RunRekey, Rekeying, HandsOut, ExpectedKeys;
    var one := [inputs[0], inputs[1], inputs[2]];
    assert inputs == one + inputs[3..];
    RekeyCycle(p, rekey, inputs[0], inputs[1], inputs[2]);
    RunRekeyAppend(p, Idle(rekey), one, inputs[3..]);
    RekeyKeeps(p, Idle(rekey), rekey, inputs);
    var (results, last) := RunRekey(p, Idle(rekey), inputs);
    var (first, mid) := RunRekey(p, Idle(rekey), one);
    assert results[0] == first[0] && results[1] == first[1] && results[2] == first[2];
    assert results[3..] == RunRekey(p, mid, inputs[3..]).0;
  }

  lemma ShortRekey(p: Provider, rekey: Rekey, inputs: seq<Input>, j: nat)
    requires j < |inputs| < 3
    ensures !HandsOutKeys(RunRekey(p, Idle(rekey), inputs).0[j])
  {
    hide RunRekey, Rekeying, HandsOut, ExpectedKeys;
    var padded := inputs + [inputs[0], inputs[0]];
    RunRekeyAppend(p, Idle(rekey), inputs, [inputs[0], inputs[0]]);
    FirstCycle(p, rekey, padded);
    assert RunRekey(p, Idle(rekey), padded).0[j] == RunRekey(p, Idle(rekey), inputs).0[j];
  }

  /** The rekey machine's language, for every packet sequence: keys are handed out at a packet
      exactly when it ends a list of acceptable cycles with nothing in between; they are then
      derived under the original session id, and after any number of cycles the machine is back
      where it was. */
  lemma {:induction false} RekeyLanguage(p: Provider, rekey: Rekey, inputs: seq<Input>, j: nat)
    requires j < |inputs|
    ensures var results := RunRekey(p, Idle(rekey), inputs).0;
            && (HandsOutKeys(results[j]) <==> j % 3 == 2 && Cycles(p, rekey, inputs[..j + 1]))
            && (HandsOutKeys(results[j]) ==>
                  j >= 2 && Rekeys(p, rekey, inputs[j - 2], inputs[j - 1], inputs[j], results[j]))
    ensures Cycles(p, rekey, inputs) ==> RunRekey(p, Idle(rekey), inputs).1 == Idle(rekey)
    decreases |inputs|
  {
    hide RunRekey, Rekeying, Rekeys;
    if |inputs| < 3 {
      ShortRekey(p, rekey, inputs, j);
      assert |inputs[..j + 1]| < 3;
    } else {
      FirstCycle(p, rekey, inputs);
      NoRekey(p, Idle(rekey));
      var rest := inputs[3..];
      if j < 3 {
        assert j == 2 ==> inputs[..3][3..] == [];
        if rest != [] {
          RekeyLanguage(p, rekey, rest, 0);
        }
      } else {
        RekeyLanguage(p, rekey, rest, j - 3);
        assert inputs[..j + 1][3..] == rest[..j - 2];
        assert (j - 3) % 3 == j % 3;
      }
    }
  }

  lemma NoRekey(p: Provider, st: RekeyState)
    ensures RunRekey(p, st, []) == ([], st)
  {
  }
}
