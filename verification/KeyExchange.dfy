/** The server side of the key exchange and of rekeying (sections 7 and 8 of RFC 4253, section 4
    of RFC 5656), one incoming packet at a time. */
module KeyExchange {
  import opened Bytes
  import opened Named
  import opened Gcm
  import opened Crypto
  import opened Transport
  import opened Mpint
  import opened Negotiation

  // What the crypto provider contributes

  datatype HostKey = HostKey(pkcs8: bytes, algorithm: PublicKeyAlgorithm, publicKey: bytes)

  datatype Agreed = Agreed(publicKey: bytes, secret: bytes)

  /** `agree` takes the algorithm, our ephemeral randomness and the peer's public value; `sign`
      signs with a host key. Both supported algorithms are paired with a hash. */
  datatype Provider = Provider(
    hash: KexAlgorithm -> Hash,
    aead: Aead,
    utf8: Utf8,
    agree: (KexAlgorithm, nat, bytes) -> Option<Agreed>,
    sign: (HostKey, bytes) -> bytes)

  /** The randomness one step may draw: a KEXINIT cookie, an ephemeral key, packet padding. */
  datatype Entropy = Entropy(cookie: Option<bytes>, ephemeral: nat, random: Random)

  function HashFor(p: Provider, k: KexAlgorithm): Result<Hash, CryptoError> {
    if k.UnknownKex? then Err(UnknownAlgorithm) else Ok(p.hash(k))
  }

  function Agree(p: Provider, k: KexAlgorithm, ephemeral: nat, peer: bytes): Result<Agreed, CryptoError> {
    if k.UnknownKex? then Err(UnknownAlgorithm)
    else match p.agree(k, ephemeral, peer)
      case None => Err(KeyAgreementFailed)
      case Some(agreed) => Ok(agreed)
  }

  predicate PostQuantum(k: KexAlgorithm) {
    k.MlKem768X25519Sha256?
  }

  // The exchange hash

  datatype Identities = Identities(client: bytes, server: bytes)

  /** The transcript up to the identification strings. */
  function Greeting(ids: Identities): bytes {
    EncodeString(ids.client) + EncodeString(ids.server)
  }

  /** The eight fields of the exchange hash, as section 8 of RFC 4253 lists them. */
  datatype Fields = Fields(
    clientId: bytes, serverId: bytes, clientInit: bytes, serverInit: bytes,
    hostKey: bytes, clientValue: bytes, serverValue: bytes, secret: bytes)
  {
    predicate Sized() {
      && |clientId| < U32 && |serverId| < U32 && |clientInit| < U32 && |serverInit| < U32
      && |hostKey| < U32 && |clientValue| < U32 && |serverValue| < U32 && |secret| < U32
    }
    function List(): seq<bytes> {
      [clientId, serverId, clientInit, serverInit, hostKey, clientValue, serverValue, secret]
    }
  }

  function Strings(fields: seq<bytes>): bytes {
    if fields == [] then [] else EncodeString(fields[0]) + Strings(fields[1..])
  }

  function Transcript(f: Fields): bytes {
    Strings(f.List())
  }

  lemma {:induction false} StringsInjective(f: seq<bytes>, g: seq<bytes>)
    requires |f| == |g| && Strings(f) == Strings(g)
    requires forall i :: 0 <= i < |f| ==> |f[i]| < U32 && |g[i]| < U32
    ensures f == g
  {
    if f != [] {
      StringInjective(f[0], Strings(f[1..]), g[0], Strings(g[1..]));
      StringsInjective(f[1..], g[1..]);
      assert f == [f[0]] + f[1..] && g == [g[0]] + g[1..];
    }
  }

  /** No two different exchanges feed the same bytes to the hash. */
  lemma TranscriptInjective(f: Fields, g: Fields)
    requires f.Sized() && g.Sized() && Transcript(f) == Transcript(g)
    ensures f == g
  {
    StringsInjective(f.List(), g.List());
    assert f.List()[0] == g.List()[0] && f.List()[1] == g.List()[1] && f.List()[2] == g.List()[2]
        && f.List()[3] == g.List()[3] && f.List()[4] == g.List()[4] && f.List()[5] == g.List()[5]
        && f.List()[6] == g.List()[6] && f.List()[7] == g.List()[7];
  }

  lemma {:induction false} StringsAppend(f: seq<bytes>, x: bytes)
    ensures Strings(f + [x]) == Strings(f) + EncodeString(x)
  {
    if f == [] {
      assert f + [x] == [x];
      assert Strings([x]) == EncodeString(x) + Strings([]);
    } else {
      StringsAppend(f[1..], x);
      assert (f + [x])[1..] == f[1..] + [x];
    }
  }

  // Messages

  /** The content of a host key blob; ECDSA keys carry the curve name (section 3.1 of RFC 5656). */
  function KeyBlob(k: HostKey): bytes {
    EncodeString(KeyName(k.algorithm))
    + (if k.algorithm == EcdsaSha2Nistp256 then EncodeString(NISTP256) else [])
    + EncodeString(k.publicKey)
  }

  function TaggedPublicKey(k: HostKey): bytes {
    EncodeString(KeyBlob(k))
  }

  /** The shared secret as hashed: an mpint for X25519, a string for the hybrid exchange. */
  function EncodedSecret(k: KexAlgorithm, secret: bytes): bytes {
    if k == Curve25519Sha256 then EncodeMpint(secret) else EncodeString(secret)
  }

  function DecodeEcdhInit(packet: Packet): Result<bytes, ProtoError> {
    if packet.kind != KEX_ECDH_INIT then Err(UnexpectedMessage) else
    var d :- DecodeString(packet.payload);
    if d.next != [] then Err(InvalidPacket) else Ok(d.value)
  }

  /** An ECDH_INIT is one string, and nothing else. */
  lemma EcdhInitReadIff(packet: Packet, value: bytes)
    ensures DecodeEcdhInit(packet) == Ok(value) <==>
              packet.kind == 30 && |value| < U32 && packet.payload == EncodeString(value)
  {
    hide DecodeString, EncodeString;
    ReadsStringIff(packet.payload, value, []);
    assert EncodeString(value) + [] == EncodeString(value);
  }

  function DecodeNewKeys(packet: Packet): Result<(), ProtoError> {
    if packet.kind != NEWKEYS then Err(UnexpectedMessage)
    else if packet.payload != [] then Err(InvalidPacket)
    else Ok(())
  }

  datatype Kx = Kx(exchange: bytes, negotiated: Negotiated)

  datatype Started = Started(local: bytes, kx: Kx)

  /** Process the peer's KEXINIT: extend the transcript, negotiate, prepare our own. */
  function Start(p: Provider, packet: Packet, exchange: bytes, hostKeys: seq<PublicKeyAlgorithm>,
                 initial: bool, cookie: Option<bytes>): Result<Started, ProtoError>
  {
    var hashed := exchange + ToBE(|packet.payload| + 1, 4) + [packet.kind] + packet.payload;
    var peer :- DecodeKexInit(p.utf8, packet);
    if cookie.None? then Err(Crypto(NoRandomness)) else
    var local := LocalKexInit(cookie.value, hostKeys, initial);
    var negotiated :- Choose(peer, local);
    match HashFor(p, negotiated.kex)
    case Err(e) => Err(Crypto(e))
    case Ok(_) => Ok(Started(EncodeKexInit(local), Kx(hashed, negotiated)))
  }

  datatype Replied = Replied(reply: bytes, exchangeHash: bytes, keys: KeySourceSet)

  /** Complete the exchange for the peer's public value. The session id is the one given, or
      this exchange's hash if there is none yet. */
  function Reply(p: Provider, kx: Kx, clientValue: bytes, sessionId: Option<bytes>, key: HostKey, ephemeral: nat)
    : Result<Replied, CryptoError>
  {
    var n := kx.negotiated;
    var agreed :- Agree(p, n.kex, ephemeral, clientValue);
    var hash :- HashFor(p, n.kex);
    var secret := EncodedSecret(n.kex, agreed.secret);
    var input := kx.exchange + TaggedPublicKey(key) + EncodeString(clientValue)
                 + EncodeString(agreed.publicKey) + secret;
    var h := hash.digest(input);
    var id := if sessionId.Some? then sessionId.value else h;
    var keys :- DeriveSet(KeyDerivation(hash, secret, h, id), n.toServer, n.toClient);
    Ok(Replied([KEX_ECDH_REPLY] + TaggedPublicKey(key) + EncodeString(agreed.publicKey)
               + TaggedSignature(key.algorithm, p.sign(key, h)), h, keys))
  }

  function BuildUpdate(keys: KeySourceSet, strict: bool): Result<KeyUpdate, ProtoError> {
    match (New(0, keys.clientToServer), New(0, keys.serverToClient))
    case (Ok(opener), Ok(sealer)) => Ok(KeyUpdate(opener, sealer, strict))
    case (Err(e), _) => Err(Crypto(e))
    case (_, Err(e)) => Err(Crypto(e))
  }

  /** The first host key with the negotiated algorithm. */
  function FindHostKey(keys: seq<HostKey>, algorithm: PublicKeyAlgorithm): Result<HostKey, ProtoError> {
    if keys == [] then Err(Crypto(UnknownAlgorithm))
    else if keys[0].algorithm == algorithm then Ok(keys[0])
    else FindHostKey(keys[1..], algorithm)
  }

  function Algorithms(keys: seq<HostKey>): (algorithms: seq<PublicKeyAlgorithm>)
    ensures |algorithms| == |keys|
    ensures forall i :: 0 <= i < |keys| ==> algorithms[i] == keys[i].algorithm
  {
    Map((k: HostKey) => k.algorithm, keys)
  }

  lemma {:induction false} FindHostKeySucceeds(keys: seq<HostKey>, algorithm: PublicKeyAlgorithm)
    requires algorithm in Algorithms(keys)
    ensures var r := FindHostKey(keys, algorithm);
            r.Ok? && r.value in keys && r.value.algorithm == algorithm
  {
    if keys[0].algorithm != algorithm {
      var i :| 0 <= i < |keys| && Algorithms(keys)[i] == algorithm;
      assert Algorithms(keys[1..])[i - 1] == algorithm;
      FindHostKeySucceeds(keys[1..], algorithm);
    }
  }

  // The initial exchange

  datatype Output = Output(
    ids: Identities, hostKey: HostKey, strict: bool, sessionId: bytes, keys: KeySourceSet, postQuantum: bool)

  datatype Established = Established(output: Output, update: KeyUpdate, extInfo: bool)

  datatype Initial =
    | AwaitKexInit(hostKeys: seq<HostKey>, ids: Identities, exchange: bytes)
    | AwaitEcdhInit(kx: Kx, hostKeys: seq<HostKey>, ids: Identities)
    | AwaitNewKeys(output: Output, extInfo: bool)
    | Complete

  /** One call: the state left behind, the writer left behind, and the result. Every error
      leaves the machine in `Complete`, which refuses everything. */
  function HandleInitial(p: Provider, st: Initial, packet: Packet, e: Entropy, w: Writer)
    : (r: (Initial, Writer, Result<Option<Established>, ProtoError>))
    requires w.Valid()
    ensures r.1.Valid()
  {
    match st
    case AwaitKexInit(hostKeys, ids, exchange) =>
      (match Start(p, packet, exchange, Algorithms(hostKeys), true, e.cookie)
       case Err(error) => (Initial.Complete, w, Err(error))
       case Ok(s) =>
         var (sent, w') := Encode(p.aead, w, s.local, e.random);
         if sent.Err? then (Initial.Complete, w', Err(sent.error)) else
         (AwaitEcdhInit(s.kx.(exchange := s.kx.exchange + EncodeString(s.local)), hostKeys, ids), w', Ok(None)))
    case AwaitEcdhInit(kx, hostKeys, ids) =>
      (match EcdhStep(p, kx, packet, e, w, None, FindHostKey(hostKeys, kx.negotiated.hostKey))
       case (w', Err(error)) => (Initial.Complete, w', Err(error))
       case (w', Ok((replied, key))) =>
         (AwaitNewKeys(Output(ids, key, kx.negotiated.strict, replied.exchangeHash, replied.keys,
                              PostQuantum(kx.negotiated.kex)), kx.negotiated.extensionInfo), w', Ok(None)))
    case AwaitNewKeys(output, extInfo) =>
      (match FinishStep(packet, output.keys, output.strict)
       case Err(error) => (Initial.Complete, w, Err(error))
       case Ok(update) => (Initial.Complete, w, Ok(Some(Established(output, update, extInfo)))))
    case Complete => (Initial.Complete, w, Err(Unreachable))
  }

  function EcdhStep(p: Provider, kx: Kx, packet: Packet, e: Entropy, w: Writer, sessionId: Option<bytes>,
                    found: Result<HostKey, ProtoError>): (r: (Writer, Result<(Replied, HostKey), ProtoError>))
    requires w.Valid()
    ensures r.0.Valid()
  {
    match DecodeEcdhInit(packet)
    case Err(error) => (w, Err(error))
    case Ok(clientValue) =>
      match found
      case Err(error) => (w, Err(error))
      case Ok(key) =>
        match Reply(p, kx, clientValue, sessionId, key, e.ephemeral)
        case Err(error) => (w, Err(Crypto(error)))
        case Ok(replied) =>
          var (sent, w') := Encode(p.aead, w, replied.reply, e.random);
          if sent.Err? then (w', Err(sent.error)) else (w', Ok((replied, key)))
  }

  function FinishStep(packet: Packet, keys: KeySourceSet, strict: bool): Result<KeyUpdate, ProtoError> {
    var _ :- DecodeNewKeys(packet);
    BuildUpdate(keys, strict)
  }

  // Rekeying

  /** What survives from one exchange to the next. */
  datatype Rekey = Rekey(hostKey: HostKey, ids: Identities, strict: bool, sessionId: bytes)

  datatype Rekeyed = Rekeyed(update: KeyUpdate, postQuantum: bool)

  datatype RekeyState =
    | Idle(rekey: Rekey)
    | Offered(kx: Kx, rekey: Rekey)
    | Answered(rekey: Rekey, keys: KeySourceSet, postQuantum: bool)
    | Transitioning
  {
    predicate InProgress() { Offered? || Answered? }
  }

  function HandleRekey(p: Provider, st: RekeyState, packet: Packet, e: Entropy, w: Writer)
    : (r: (RekeyState, Writer, Result<Option<Rekeyed>, ProtoError>))
    requires w.Valid()
    ensures r.1.Valid()
  {
    match st
    case Idle(rekey) =>
      (match Start(p, packet, Greeting(rekey.ids), [rekey.hostKey.algorithm], false, e.cookie)
       case Err(error) => (Transitioning, w, Err(error))
       case Ok(s) =>
         var (sent, w') := Encode(p.aead, w, s.local, e.random);
         if sent.Err? then (Transitioning, w', Err(sent.error)) else
         (Offered(s.kx.(exchange := s.kx.exchange + EncodeString(s.local)), rekey), w', Ok(None)))
    case Offered(kx, rekey) =>
      (match EcdhStep(p, kx, packet, e, w, Some(rekey.sessionId), Ok(rekey.hostKey))
       case (w', Err(error)) => (Transitioning, w', Err(error))
       case (w', Ok((replied, _))) =>
         (Answered(rekey, replied.keys, PostQuantum(kx.negotiated.kex)), w', Ok(None)))
    case Answered(rekey, keys, postQuantum) =>
      (match FinishStep(packet, keys, rekey.strict)
       case Err(error) => (Transitioning, w, Err(error))
       case Ok(update) => (Idle(rekey), w, Ok(Some(Rekeyed(update, postQuantum)))))
    case Transitioning => (Transitioning, w, Err(Unreachable))
  }

  // The objects: `handle` replaces the state by a placeholder, and puts a real one back only on
  // the way out of a successful step

  /** Write our KEXINIT, feeding it to the exchange hash on the way. */
  method Announce(p: Provider, s: Started, hash: Hash, e: Entropy, write: WriteState)
    returns (sent: Result<(), ProtoError>, exchange: bytes)
    requires write.Valid()
    modifies write.Repr()
    ensures write.sealer == old(write.sealer) && write.Valid()
    ensures (sent, write.View()) == Encode(p.aead, old(write.View()), s.local, e.random)
    ensures sent.Ok? ==> exchange == s.kx.exchange + EncodeString(s.local)
  {
    var context := new HandshakeHash(hash, s.kx.exchange);
    sent := write.EncodeKx(p.aead, s.local, e.random, context);
    exchange := context.input;
  }

  method AnswerEcdh(p: Provider, kx: Kx, packet: Packet, e: Entropy, sessionId: Option<bytes>,
                    found: Result<HostKey, ProtoError>, write: WriteState)
    returns (r: Result<(Replied, HostKey), ProtoError>)
    requires write.Valid()
    modifies write.Repr()
    ensures write.sealer == old(write.sealer) && write.Valid()
    ensures (write.View(), r) == EcdhStep(p, kx, packet, e, old(write.View()), sessionId, found)
  {
    hide Reply;
    var clientValue := DecodeEcdhInit(packet);
    if clientValue.Err? {
      return Err(clientValue.error);
    }
    if found.Err? {
      return Err(found.error);
    }
    var replied := Reply(p, kx, clientValue.value, sessionId, found.value, e.ephemeral);
    if replied.Err? {
      return Err(Crypto(replied.error));
    }
    var sent := write.EncodeKx(p.aead, replied.value.reply, e.random, null);
    if sent.Err? {
      return Err(sent.error);
    }
    return Ok((replied.value, found.value));
  }

  class InitialExchange {
    var state: Initial

    constructor (hostKeys: seq<HostKey>, ids: Identities)
      ensures state == AwaitKexInit(hostKeys, ids, Greeting(ids))
    {
      state := AwaitKexInit(hostKeys, ids, Greeting(ids));
    }

    method Handle(p: Provider, packet: Packet, e: Entropy, write: WriteState)
      returns (r: Result<Option<Established>, ProtoError>)
      requires write.Valid() && this !in write.Repr()
      modifies this, write.Repr()
      ensures write.sealer == old(write.sealer) && write.Valid()
      ensures (state, write.View(), r) == HandleInitial(p, old(state), packet, e, old(write.View()))
    {
      hide Start, EcdhStep, FinishStep, Encode;
      var current := state;
      state := Initial.Complete;
      match current {
        case AwaitKexInit(hostKeys, ids, exchange) =>
          var s := Start(p, packet, exchange, Algorithms(hostKeys), true, e.cookie);
          if s.Err? {
            return Err(s.error);
          }
          var sent, hashed := Announce(p, s.value, p.hash(s.value.kx.negotiated.kex), e, write);
          if sent.Err? {
            return Err(sent.error);
          }
          state := AwaitEcdhInit(s.value.kx.(exchange := hashed), hostKeys, ids);
          return Ok(None);
        case AwaitEcdhInit(kx, hostKeys, ids) =>
          var n := kx.negotiated;
          var done := AnswerEcdh(p, kx, packet, e, None, FindHostKey(hostKeys, n.hostKey), write);
          if done.Err? {
            return Err(done.error);
          }
          var (replied, key) := done.value;
          state := AwaitNewKeys(Output(ids, key, n.strict, replied.exchangeHash, replied.keys,
                                       PostQuantum(n.kex)), n.extensionInfo);
          return Ok(None);
        case AwaitNewKeys(output, extInfo) =>
          var update := FinishStep(packet, output.keys, output.strict);
          if update.Err? {
            return Err(update.error);
          }
          return Ok(Some(Established(output, update.value, extInfo)));
        case Complete => return Err(Unreachable);
      }
    }
  }

  class RekeyMachine {
    var state: RekeyState

    constructor (rekey: Rekey)
      ensures state == Idle(rekey)
    {
      state := Idle(rekey);
    }

    method Handle(p: Provider, packet: Packet, e: Entropy, write: WriteState)
      returns (r: Result<Option<Rekeyed>, ProtoError>)
      requires write.Valid() && this !in write.Repr()
      modifies this, write.Repr()
      ensures write.sealer == old(write.sealer) && write.Valid()
      ensures (state, write.View(), r) == HandleRekey(p, old(state), packet, e, old(write.View()))
    {
      hide Start, EcdhStep, FinishStep, Encode;
      var current := state;
      state := Transitioning;
      match current {
        case Idle(rekey) =>
          var s := Start(p, packet, Greeting(rekey.ids), [rekey.hostKey.algorithm], false, e.cookie);
          if s.Err? {
            return Err(s.error);
          }
          var sent, hashed := Announce(p, s.value, p.hash(s.value.kx.negotiated.kex), e, write);
          if sent.Err? {
            return Err(sent.error);
          }
          state := Offered(s.value.kx.(exchange := hashed), rekey);
          return Ok(None);
        case Offered(kx, rekey) =>
          var done := AnswerEcdh(p, kx, packet, e, Some(rekey.sessionId), Ok(rekey.hostKey), write);
          if done.Err? {
            return Err(done.error);
          }
          state := Answered(rekey, done.value.0.keys, PostQuantum(kx.negotiated.kex));
          return Ok(None);
        case Answered(rekey, keys, postQuantum) =>
          var update := FinishStep(packet, keys, rekey.strict);
          if update.Err? {
            return Err(update.error);
          }
          state := Idle(rekey);
          return Ok(Some(Rekeyed(update.value, postQuantum)));
        case Transitioning => return Err(Unreachable);
      }
    }
  }
}
