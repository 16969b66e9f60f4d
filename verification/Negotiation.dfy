/** The key exchange initialization message and algorithm negotiation (section 7.1 of RFC 4253). */
module Negotiation {
  import opened Bytes
  import opened Named
  import opened Transport

  function Map<S, T>(f: S -> T, s: seq<S>): (t: seq<T>)
    ensures |t| == |s|
    ensures forall i :: 0 <= i < |s| ==> t[i] == f(s[i])
  {
    seq(|s|, i requires 0 <= i < |s| => f(s[i]))
  }

  /** A KEXINIT message; `rest` holds the six lists nothing is decided on (MACs, compression and
      languages of both directions). */
  datatype KexInit = KexInit(
    cookie: bytes,
    kex: seq<KexEntry>,
    hostKey: seq<PublicKeyAlgorithm>,
    toServer: seq<EncryptionAlgorithm>,
    toClient: seq<EncryptionAlgorithm>,
    rest: seq<seq<bytes>>,
    follows: bool,
    extended: nat)

  function DecodeLists(utf8: Utf8, n: nat, b: bytes): (d: Decoding<seq<seq<bytes>>>)
    ensures d.Ok? ==> |d.value.value| == n
  {
    if n == 0 then Ok(Decoded([], b)) else
    var first :- DecodeNames(utf8, b);
    var more :- DecodeLists(utf8, n - 1, first.next);
    Ok(Decoded([first.value] + more.value, more.next))
  }

  function DecodeKexInit(utf8: Utf8, packet: Packet): Result<KexInit, ProtoError> {
    if packet.kind != KEXINIT then Err(UnexpectedMessage)
    else if |packet.payload| < 16 then Err(Incomplete(16 - |packet.payload|)) else
    var lists :- DecodeLists(utf8, 10, packet.payload[16..]);
    var follows :- DecodeU8(lists.next);
    var extended :- DecodeU32(follows.next);
    if extended.next != [] then Err(InvalidPacket) else
    var l := lists.value;
    Ok(KexInit(packet.payload[..16], Map(KexTyped, l[0]), Map(KeyTyped, l[1]),
               Map(CipherTyped, l[2]), Map(CipherTyped, l[3]), l[4..], follows.value != 0, extended.value))
  }

  function EncodeLists(lists: seq<seq<bytes>>): bytes {
    if lists == [] then [] else EncodeNames(lists[0]) + EncodeLists(lists[1..])
  }

  function EncodeKexInit(k: KexInit): bytes {
    var lists := [Map(KexName, k.kex), Map(KeyName, k.hostKey), Map(CipherName, k.toServer),
                  Map(CipherName, k.toClient)] + k.rest;
    [KEXINIT] + k.cookie + EncodeLists(lists) + EncodeBool(k.follows) + ToBE(k.extended, 4)
  }

  /** What the server offers: everything the crypto provider implements and the algorithms of
      the host keys it may use. */
  function LocalKexInit(cookie: bytes, hostKeys: seq<PublicKeyAlgorithm>, initial: bool): KexInit {
    KexInit(cookie,
            [Kex(MlKem768X25519Sha256), Kex(Curve25519Sha256)]
            + if initial then [Extension(StrictKexServer)] else [],
            hostKeys, [Aes128Gcm], [Aes128Gcm], [[NONE], [NONE], [NONE], [NONE], [], []], false, 0)
  }

  datatype Negotiated = Negotiated(
    kex: KexAlgorithm,
    hostKey: PublicKeyAlgorithm,
    toServer: EncryptionAlgorithm,
    toClient: EncryptionAlgorithm,
    extensionInfo: bool,
    strict: bool)

  /** The first client entry the server also lists. */
  function FirstCommon<T(==)>(client: seq<T>, server: seq<T>): Option<T> {
    if client == [] then None
    else if client[0] in server then Some(client[0])
    else FirstCommon(client[1..], server)
  }

  function FirstCommonKex(client: seq<KexEntry>, server: seq<KexEntry>): Option<KexAlgorithm> {
    if client == [] then None
    else if client[0].Kex? && client[0] in server then Some(client[0].algorithm)
    else FirstCommonKex(client[1..], server)
  }

  function Choose(client: KexInit, server: KexInit): Result<Negotiated, ProtoError> {
    var kex := FirstCommonKex(client.kex, server.kex);
    var hostKey := FirstCommon(client.hostKey, server.hostKey);
    var toServer := FirstCommon(client.toServer, server.toServer);
    var toClient := FirstCommon(client.toClient, server.toClient);
    if kex.None? || hostKey.None? || toServer.None? || toClient.None? then Err(NoCommonAlgorithm)
    else Ok(Negotiated(kex.value, hostKey.value, toServer.value, toClient.value,
                       Extension(ExtInfoC) in client.kex, Extension(StrictKexClient) in client.kex))
  }

  // The negotiation rule

  /** `x` is in both lists, and no earlier client entry is in the server's. */
  ghost predicate Earliest<T>(x: T, client: seq<T>, server: seq<T>) {
    exists i :: 0 <= i < |client| && client[i] == x && x in server
                && forall j :: 0 <= j < i ==> client[j] !in server
  }

  ghost predicate Disjoint<T>(client: seq<T>, server: seq<T>) {
    forall i :: 0 <= i < |client| ==> client[i] !in server
  }

  lemma {:induction false} FirstCommonIsEarliest<T>(client: seq<T>, server: seq<T>)
    ensures FirstCommon(client, server).None? <==> Disjoint(client, server)
    ensures FirstCommon(client, server).Some? ==> Earliest(FirstCommon(client, server).value, client, server)
  {
    if client != [] && client[0] !in server {
      FirstCommonIsEarliest(client[1..], server);
      assert forall j :: 1 <= j < |client| ==> client[j] == client[1..][j - 1];
      if FirstCommon(client, server).Some? {
        var x := FirstCommon(client, server).value;
        var i :| 0 <= i < |client[1..]| && client[1..][i] == x && x in server
                 && forall j :: 0 <= j < i ==> client[1..][j] !in server;
        assert client[i + 1] == x;
      }
    } else if client != [] {
      assert client[0] == FirstCommon(client, server).value;
    }
  }

  /** Extension markers are never candidates, whoever lists them. */
  function Candidates(entries: seq<KexEntry>): seq<KexAlgorithm> {
    if entries == [] then []
    else (if entries[0].Kex? then [entries[0].algorithm] else []) + Candidates(entries[1..])
  }

  lemma {:induction false} CandidateMembers(entries: seq<KexEntry>, k: KexAlgorithm)
    ensures k in Candidates(entries) <==> Kex(k) in entries
  {
    if entries != [] {
      CandidateMembers(entries[1..], k);
      assert entries == [entries[0]] + entries[1..];
    }
  }

  lemma {:induction false} FirstCommonKexSkipsMarkers(client: seq<KexEntry>, server: seq<KexEntry>)
    ensures FirstCommonKex(client, server) == FirstCommon(Candidates(client), Candidates(server))
  {
    if client != [] {
      FirstCommonKexSkipsMarkers(client[1..], server);
      if client[0].Kex? {
        CandidateMembers(server, client[0].algorithm);
        assert Candidates(client)[1..] == Candidates(client[1..]);
      } else {
        assert Candidates(client) == Candidates(client[1..]);
      }
    }
  }

  /** Negotiation, for all pairs of messages: it fails exactly when one of the four categories
      has nothing in common, and otherwise picks in each category the client's earliest entry
      that the server lists too, extension markers never being picked. */
  lemma ChooseIsNegotiation(client: KexInit, server: KexInit)
    ensures Choose(client, server).Err? <==>
              || Disjoint(Candidates(client.kex), Candidates(server.kex))
              || Disjoint(client.hostKey, server.hostKey)
              || Disjoint(client.toServer, server.toServer)
              || Disjoint(client.toClient, server.toClient)
    ensures Choose(client, server).Ok? ==>
              var n := Choose(client, server).value;
              && Earliest(n.kex, Candidates(client.kex), Candidates(server.kex))
              && Earliest(n.hostKey, client.hostKey, server.hostKey)
              && Earliest(n.toServer, client.toServer, server.toServer)
              && Earliest(n.toClient, client.toClient, server.toClient)
              && (n.strict <==> Extension(StrictKexClient) in client.kex)
              && (n.extensionInfo <==> Extension(ExtInfoC) in client.kex)
  {
    FirstCommonKexSkipsMarkers(client.kex, server.kex);
    FirstCommonIsEarliest(Candidates(client.kex), Candidates(server.kex));
    FirstCommonIsEarliest(client.hostKey, server.hostKey);
    FirstCommonIsEarliest(client.toServer, server.toServer);
    FirstCommonIsEarliest(client.toClient, server.toClient);
  }

  /** Against the server's own offer, whatever is chosen is implemented: the exchange and its
      hash, the ciphers and their key lengths, and a host key that was offered. */
  lemma ChosenIsSupported(client: KexInit, cookie: bytes, hostKeys: seq<PublicKeyAlgorithm>, initial: bool)
    requires Choose(client, LocalKexInit(cookie, hostKeys, initial)).Ok?
    ensures var n := Choose(client, LocalKexInit(cookie, hostKeys, initial)).value;
            && n.kex in {MlKem768X25519Sha256, Curve25519Sha256}
            && Lengths(n.toServer).Some? && Lengths(n.toClient).Some?
            && n.hostKey in hostKeys
  {
    var server := LocalKexInit(cookie, hostKeys, initial);
    ChooseIsNegotiation(client, server);
    var n := Choose(client, server).value;
    CandidateMembers(server.kex, n.kex);
    assert Kex(n.kex) in server.kex;
  }

  // The message on the wire

  function Lists(k: KexInit): seq<seq<bytes>> {
    [Map(KexName, k.kex), Map(KeyName, k.hostKey), Map(CipherName, k.toServer), Map(CipherName, k.toClient)] + k.rest
  }

  predicate AllListable(utf8: Utf8, lists: seq<seq<bytes>>) {
    forall i :: 0 <= i < |lists| ==> Listable(utf8, lists[i])
  }

  lemma {:induction false} ReadsListsIff(utf8: Utf8, n: nat, b: bytes, lists: seq<seq<bytes>>, rest: bytes)
    ensures DecodeLists(utf8, n, b) == Ok(Decoded(lists, rest)) <==>
              |lists| == n && AllListable(utf8, lists) && b == EncodeLists(lists) + rest
    decreases n
  {
    hide DecodeNames, EncodeNames, Listable;
    if n == 0 {
      assert lists == [] ==> EncodeLists(lists) + rest == rest;
    } else {
      if lists != [] {
        assert lists == [lists[0]] + lists[1..];
        var more := EncodeLists(lists[1..]) + rest;
        assert EncodeLists(lists) + rest == EncodeNames(lists[0]) + more;
        ReadsNamesIff(utf8, b, lists[0], more);
        ReadsListsIff(utf8, n - 1, more, lists[1..], rest);
      }
      if DecodeLists(utf8, n, b) == Ok(Decoded(lists, rest)) {
        var first := DecodeNames(utf8, b).value;
        ReadsNamesIff(utf8, b, first.value, first.next);
        assert lists[0] == first.value && lists[1..] == DecodeLists(utf8, n - 1, first.next).value.value;
        ReadsListsIff(utf8, n - 1, first.next, lists[1..], rest);
      }
    }
  }

  /** The entries are the typed forms of their names. */
  predicate Typed(k: KexInit) {
    && (forall i :: 0 <= i < |k.kex| ==> KexTyped(KexName(k.kex[i])) == k.kex[i])
    && (forall i :: 0 <= i < |k.hostKey| ==> KeyTyped(KeyName(k.hostKey[i])) == k.hostKey[i])
    && (forall i :: 0 <= i < |k.toServer| ==> CipherTyped(CipherName(k.toServer[i])) == k.toServer[i])
    && (forall i :: 0 <= i < |k.toClient| ==> CipherTyped(CipherName(k.toClient[i])) == k.toClient[i])
  }

  /** A KEXINIT as section 7.1 of RFC 4253 lays it out: cookie, ten lists, a flag and a number. */
  ghost predicate LaidOut(utf8: Utf8, payload: bytes, k: KexInit) {
    && |k.cookie| == 16 && |k.rest| == 6 && k.extended < U32 && Typed(k) && AllListable(utf8, Lists(k))
    && exists flag: byte :: (k.follows <==> flag != 0) && FlaggedAs(payload, k, flag)
  }

  predicate FlaggedAs(payload: bytes, k: KexInit, flag: byte) {
    payload == k.cookie + (EncodeLists(Lists(k)) + ([flag] + ToBE(k.extended, 4)))
  }

  lemma NamesTyped(lists: seq<seq<bytes>>, k: KexInit)
    requires |lists| == 10 && k.kex == Map(KexTyped, lists[0]) && k.hostKey == Map(KeyTyped, lists[1])
    requires k.toServer == Map(CipherTyped, lists[2]) && k.toClient == Map(CipherTyped, lists[3])
    requires k.rest == lists[4..]
    ensures Lists(k) == lists && Typed(k)
  {
    assert Map(KexName, k.kex) == lists[0] && Map(KeyName, k.hostKey) == lists[1];
    assert Map(CipherName, k.toServer) == lists[2] && Map(CipherName, k.toClient) == lists[3];
    assert lists == [lists[0], lists[1], lists[2], lists[3]] + lists[4..];
  }

  lemma TypedNames(k: KexInit)
    requires |k.rest| == 6 && Typed(k)
    ensures var l := Lists(k);
            && |l| == 10 && Map(KexTyped, l[0]) == k.kex && Map(KeyTyped, l[1]) == k.hostKey
            && Map(CipherTyped, l[2]) == k.toServer && Map(CipherTyped, l[3]) == k.toClient && l[4..] == k.rest
  {
  }

  lemma TailReads(b: bytes, flag: byte, n: nat)
    ensures b == [flag] + ToBE(n, 4) && n < U32 <==>
              b != [] && b[0] == flag && DecodeU32(b[1..]) == Ok(Decoded(n, []))
  {
    hide ToBE, FromBE;
    if b != [] {
      ReadsU32Iff(b[1..], n, []);
      assert b == [b[0]] + b[1..];
      assert ToBE(n, 4) + [] == ToBE(n, 4);
    }
    assert ([flag] + ToBE(n, 4))[1..] == ToBE(n, 4);
  }

  /** The pieces a KEXINIT is read from. */
  lemma ReadInPieces(utf8: Utf8, packet: Packet)
    ensures var b := packet.payload;
            DecodeKexInit(utf8, packet).Ok? <==>
              && packet.kind == 20 && |b| >= 16 && DecodeLists(utf8, 10, b[16..]).Ok?
              && var tail := DecodeLists(utf8, 10, b[16..]).value.next;
                 tail != [] && DecodeU32(tail[1..]).Ok? && DecodeU32(tail[1..]).value.next == []
    ensures DecodeKexInit(utf8, packet).Ok? ==>
              var b := packet.payload;
              var lists := DecodeLists(utf8, 10, b[16..]).value;
              var l := lists.value;
              DecodeKexInit(utf8, packet).value
              == KexInit(b[..16], Map(KexTyped, l[0]), Map(KeyTyped, l[1]), Map(CipherTyped, l[2]),
                         Map(CipherTyped, l[3]), l[4..], lists.next[0] != 0, DecodeU32(lists.next[1..]).value.value)
  {
    hide DecodeLists, DecodeU32, KexTyped, KeyTyped, CipherTyped;
  }

  lemma LaidOutWhenRead(utf8: Utf8, packet: Packet, k: KexInit)
    requires DecodeKexInit(utf8, packet) == Ok(k)
    ensures packet.kind == 20 && LaidOut(utf8, packet.payload, k)
  {
    hide DecodeKexInit, DecodeLists, EncodeLists, AllListable, Typed, Lists, DecodeU32, ToBE, KexTyped, KeyTyped,
         CipherTyped;
    var b := packet.payload;
    ReadInPieces(utf8, packet);
    var lists := DecodeLists(utf8, 10, b[16..]).value;
    var flag := lists.next[0];
    ReadsListsIff(utf8, 10, b[16..], lists.value, lists.next);
    NamesTyped(lists.value, k);
    TailReads(lists.next, flag, k.extended);
    assert b == b[..16] + b[16..];
    assert FlaggedAs(b, k, flag);
  }

  lemma ReadWhenLaidOut(utf8: Utf8, packet: Packet, k: KexInit)
    requires packet.kind == 20 && LaidOut(utf8, packet.payload, k)
    ensures DecodeKexInit(utf8, packet) == Ok(k)
  {
    hide DecodeKexInit, DecodeLists, EncodeLists, AllListable, Typed, Lists, DecodeU32, ToBE, KexTyped, KeyTyped,
         CipherTyped;
    var b := packet.payload;
    var flag: byte :| (k.follows <==> flag != 0) && FlaggedAs(b, k, flag);
    var tail := [flag] + ToBE(k.extended, 4);
    assert b[..16] == k.cookie && b[16..] == EncodeLists(Lists(k)) + tail;
    TypedNames(k);
    ReadsListsIff(utf8, 10, b[16..], Lists(k), tail);
    TailReads(tail, flag, k.extended);
    ReadInPieces(utf8, packet);
  }

  /** A KEXINIT is accepted, as `k`, exactly if it is laid out as `k`. */
  lemma KexInitReadIff(utf8: Utf8, packet: Packet, k: KexInit)
    ensures DecodeKexInit(utf8, packet) == Ok(k) <==> packet.kind == 20 && LaidOut(utf8, packet.payload, k)
  {
    hide DecodeKexInit, LaidOut;
    if DecodeKexInit(utf8, packet) == Ok(k) {
      LaidOutWhenRead(utf8, packet, k);
    }
    if packet.kind == 20 && LaidOut(utf8, packet.payload, k) {
      ReadWhenLaidOut(utf8, packet, k);
    }
  }

  /** What we offer, in the names that go over the wire: the hybrid exchange before X25519, the marker of
      strict key exchange in the first offer only, and one cipher. */
  predicate OffersNames(k: KexInit, hostKeys: seq<PublicKeyAlgorithm>, initial: bool) {
    var marker := if initial then [Ascii("kex-strict-s-v00@openssh.com")] else [];
    var none := [Ascii("none")];
    && Lists(k) == [[Ascii("mlkem768x25519-sha256"), Ascii("curve25519-sha256")] + marker, Map(KeyName, hostKeys),
                    [Ascii("aes128-gcm@openssh.com")], [Ascii("aes128-gcm@openssh.com")],
                    none, none, none, none, [], []]
    && !k.follows && k.extended == 0
  }

  /** Our KEXINIT is read, by whoever reads as we do, as exactly what we offer. */
  lemma OfferReads(utf8: Utf8, n: nat, cookie: bytes, hostKeys: seq<PublicKeyAlgorithm>, initial: bool)
    requires |cookie| == 16 && |hostKeys| < 0x100_0000
    requires forall i :: 0 <= i < |hostKeys| ==> !hostKeys[i].UnknownKey?
    ensures var k := LocalKexInit(cookie, hostKeys, initial);
            var b := EncodeKexInit(k);
            && b != [] && b[0] == 20 && OffersNames(k, hostKeys, initial) && k.cookie == cookie
            && DecodeKexInit(utf8, Packet(n, b[0], b[1..])) == Ok(k)
  {
    hide EncodeLists, DecodeKexInit, ToBE, AllListable, Typed, Map, Lists, KexName, KeyName, CipherName;
    var k := LocalKexInit(cookie, hostKeys, initial);
    OfferNames(cookie, hostKeys, initial);
    OfferListable(utf8, cookie, hostKeys, initial);
    EncodedOffer(k);
    var b := EncodeKexInit(k);
    assert FlaggedAs(b[1..], k, 0);
    KexInitReadIff(utf8, Packet(n, b[0], b[1..]), k);
  }

  lemma EncodedOffer(k: KexInit)
    requires !k.follows && k.extended == 0
    ensures var b := EncodeKexInit(k);
            b != [] && b[0] == 20 && b[1..] == k.cookie + (EncodeLists(Lists(k)) + ([0] + ToBE(0, 4)))
  {
    hide EncodeLists, ToBE, KexName, KeyName, CipherName;
    var lists := EncodeLists(Lists(k));
    var b := EncodeKexInit(k);
    assert b == [20] + (k.cookie + (lists + ([0] + ToBE(0, 4))));
  }

  lemma OfferNames(cookie: bytes, hostKeys: seq<PublicKeyAlgorithm>, initial: bool)
    requires forall i :: 0 <= i < |hostKeys| ==> !hostKeys[i].UnknownKey?
    ensures var k := LocalKexInit(cookie, hostKeys, initial);
            && OffersNames(k, hostKeys, initial) && Typed(k) && |k.rest| == 6
            && Lists(k) == [if initial then [MLKEM, CURVE, STRICT_S] else [MLKEM, CURVE], Map(KeyName, hostKeys),
                            [AES128GCM], [AES128GCM], [NONE], [NONE], [NONE], [NONE], [], []]
  {
    var k := LocalKexInit(cookie, hostKeys, initial);
    assert |Map(KexName, k.kex)| == if initial then 3 else 2;
    assert Map(KexName, k.kex) == if initial then [MLKEM, CURVE, STRICT_S] else [MLKEM, CURVE];
    assert [MLKEM, CURVE] + [STRICT_S] == [MLKEM, CURVE, STRICT_S] && [MLKEM, CURVE] + [] == [MLKEM, CURVE];
    assert Map(CipherName, [Aes128Gcm]) == [AES128GCM];
    NamesDiffer();
  }

  lemma NamesDiffer()
    ensures MLKEM != CURVE && MLKEM != STRICT_S && CURVE != STRICT_S && EXT_INFO_C != STRICT_S && STRICT_C != STRICT_S
    ensures ECDSA != ED25519
  {
    assert |MLKEM| != |CURVE| && |MLKEM| != |STRICT_S| && |CURVE| != |STRICT_S| && |EXT_INFO_C| != |STRICT_S|;
    assert STRICT_C[11] != STRICT_S[11];
    assert |ECDSA| != |ED25519|;
  }

  lemma OfferListable(utf8: Utf8, cookie: bytes, hostKeys: seq<PublicKeyAlgorithm>, initial: bool)
    requires |hostKeys| < 0x100_0000
    requires forall i :: 0 <= i < |hostKeys| ==> !hostKeys[i].UnknownKey?
    ensures AllListable(utf8, Lists(LocalKexInit(cookie, hostKeys, initial)))
  {
    hide Listable, Map, Lists, OffersNames, Ascii, Typed, LocalKexInit;
    OfferNames(cookie, hostKeys, initial);
    FixedListable(utf8);
    KeysListable(utf8, hostKeys);
    var first := if initial then [MLKEM, CURVE, STRICT_S] else [MLKEM, CURVE];
    TenListable(utf8, first, Map(KeyName, hostKeys), [AES128GCM], [NONE]);
  }

  lemma TenListable(utf8: Utf8, first: seq<bytes>, keys: seq<bytes>, cipher: seq<bytes>, none: seq<bytes>)
    requires Listable(utf8, first) && Listable(utf8, keys) && Listable(utf8, cipher) && Listable(utf8, none)
    requires Listable(utf8, [])
    ensures AllListable(utf8, [first, keys, cipher, cipher, none, none, none, none, [], []])
  {
    hide Listable;
  }

  lemma FixedListable(utf8: Utf8)
    ensures Listable(utf8, [MLKEM, CURVE]) && Listable(utf8, [MLKEM, CURVE, STRICT_S]) && Listable(utf8, [AES128GCM])
    ensures Listable(utf8, [NONE]) && Listable(utf8, [])
  {
    hide Listable, PlainName, Ascii;
    PlainNames();
    PlainList(utf8, [MLKEM, CURVE]);
    PlainList(utf8, [MLKEM, CURVE, STRICT_S]);
    PlainList(utf8, [AES128GCM]);
    PlainList(utf8, [NONE]);
    PlainList(utf8, []);
  }

  lemma KeysListable(utf8: Utf8, hostKeys: seq<PublicKeyAlgorithm>)
    requires |hostKeys| < 0x100_0000 && forall i :: 0 <= i < |hostKeys| ==> !hostKeys[i].UnknownKey?
    ensures Listable(utf8, Map(KeyName, hostKeys))
  {
    hide Listable, PlainName;
    PlainNames();
    PlainList(utf8, Map(KeyName, hostKeys));
  }

  /** A name in ASCII, without commas, and not empty. */
  predicate PlainName(name: bytes) {
    0 < |name| <= 32 && CommaFree(name) && forall i :: 0 <= i < |name| ==> name[i] < 128
  }

  lemma PlainNames()
    ensures PlainName(MLKEM) && PlainName(CURVE) && PlainName(STRICT_S) && PlainName(ECDSA) && PlainName(ED25519)
    ensures PlainName(AES128GCM) && PlainName(NONE)
  {
  }

  lemma {:induction false} JoinLength(names: seq<bytes>)
    requires forall i :: 0 <= i < |names| ==> PlainName(names[i])
    ensures |Join(names)| <= 33 * |names|
  {
    if |names| > 1 {
      JoinLength(names[1..]);
    }
  }

  lemma PlainList(utf8: Utf8, names: seq<bytes>)
    requires |names| < 0x100_0000 && forall i :: 0 <= i < |names| ==> PlainName(names[i])
    ensures Listable(utf8, names)
  {
    JoinLength(names);
  }
}
