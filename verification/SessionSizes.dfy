/** The size of what a session writes: all of it is within the packet length a peer accepts, so
    every client that mirrors the key changes receives it. */
module SessionSizes {
  import opened Bytes
  import opened Transport
  import opened Delivery
  import opened TwoParty
  import opened Connections
  import opened KeyExchange
  import opened SessionLoop
  import opened SessionRuns
  import Named
  import Mpint
  import Negotiation
  import Channels
  import ChannelRuns

  const COOKIE: nat := 16
  const FIELD_MAX: nat := 4096

  /** With its own length byte and at most nineteen of padding, such a payload makes a legal packet. */
  const PAYLOAD_MAX: nat := MAX_PACKET_LEN - 20

  function DataSize(out: Channels.Out): nat {
    if out.On? && out.message.Data? then |out.message.data| else 0
  }

  /** The fields of a channel message besides its data, and a banner, are short. */
  ghost predicate ShortFields(d: Codec) {
    && (forall out :: |d.fields(out)| <= FIELD_MAX + DataSize(out))
    && (forall packet :: |d.banner(packet)| <= FIELD_MAX)
  }

  /** So are the public values of the exchange and the signatures of the host key, which is of a kind
      the server has. */
  ghost predicate ShortValues(p: Provider, key: HostKey) {
    && !key.algorithm.UnknownKey? && |key.publicKey| <= FIELD_MAX
    && (forall k, ephemeral, peer :: p.agree(k, ephemeral, peer).Some? ==>
          |p.agree(k, ephemeral, peer).value.publicKey| <= FIELD_MAX)
    && (forall hash :: |p.sign(key, hash)| <= FIELD_MAX)
  }

  /** The cookies drawn have their length. */
  predicate CookiesFit(turns: seq<Turn>) {
    forall i :: 0 <= i < |turns| ==> CookieFits(turns[i])
  }

  predicate CookieFits(turn: Turn) {
    turn.Arrival? && turn.entropy.cookie.Some? ==> |turn.entropy.cookie.value| == COOKIE
  }

  predicate Small(ops: seq<Op>) {
    forall i :: 0 <= i < |ops| && ops[i].Send? ==> 0 < |ops[i].payload| <= PAYLOAD_MAX
  }

  // Key exchange messages

  predicate ShortNames(names: seq<bytes>) {
    |names| <= 2 && forall i :: 0 <= i < |names| ==> |names[i]| <= 32
  }

  lemma NamesAreShort(names: seq<bytes>)
    requires ShortNames(names)
    ensures |Named.EncodeNames(names)| <= 4 + 65
  {
    if |names| == 2 {
      assert Named.Join(names[1..]) == names[1];
    }
  }

  lemma {:induction false} ListsAreShort(lists: seq<seq<bytes>>)
    requires forall i :: 0 <= i < |lists| ==> ShortNames(lists[i])
    ensures |Negotiation.EncodeLists(lists)| <= 69 * |lists|
  {
    hide ShortNames;
    if lists != [] {
      NamesAreShort(lists[0]);
      ListsAreShort(lists[1..]);
    }
  }

  lemma OfferIsShort(cookie: bytes, algorithm: Named.PublicKeyAlgorithm)
    requires |cookie| == COOKIE && !algorithm.UnknownKey?
    ensures |Negotiation.EncodeKexInit(Negotiation.LocalKexInit(cookie, [algorithm], false))| <= FIELD_MAX
  {
    hide Negotiation.EncodeLists, ToBE;
    var k := Negotiation.LocalKexInit(cookie, [algorithm], false);
    var lists := [Negotiation.Map(Named.KexName, k.kex), Negotiation.Map(Named.KeyName, k.hostKey),
                  Negotiation.Map(Named.CipherName, k.toServer), Negotiation.Map(Named.CipherName, k.toClient)]
                 + k.rest;
    ListsAreShort(lists);
  }

  lemma {:induction false} TrimIsShorter(v: bytes)
    ensures |Mpint.Trim(v)| <= |v|
  {
    if v != [] && v[0] == 0 {
      TrimIsShorter(v[1..]);
    }
  }

  lemma SignatureIsShort(algorithm: Named.PublicKeyAlgorithm, signature: bytes)
    requires !algorithm.UnknownKey? && |signature| <= FIELD_MAX
    ensures |Mpint.TaggedSignature(algorithm, signature)| <= FIELD_MAX + 64
  {
    hide ToBE;
    var half := |signature| / 2;
    TrimIsShorter(signature[..half]);
    TrimIsShorter(signature[half..]);
  }

  lemma ReplyIsShort(p: Provider, kx: Kx, value: bytes, id: Option<bytes>, key: HostKey, ephemeral: nat)
    requires ShortValues(p, key) && Reply(p, kx, value, id, key, ephemeral).Ok?
    ensures 0 < |Reply(p, kx, value, id, key, ephemeral).value.reply| <= PAYLOAD_MAX
  {
    hide ToBE, EncodedSecret, Mpint.TaggedSignature;
    var agreed := Agree(p, kx.negotiated.kex, ephemeral, value).value;
    var reply := Reply(p, kx, value, id, key, ephemeral).value;
    SignatureIsShort(key.algorithm, p.sign(key, reply.exchangeHash));
  }

  predicate HasKey(st: RekeyState, key: HostKey) {
    st.Transitioning? || st.rekey.hostKey == key
  }

  lemma RekeyOpsSmall(p: Provider, st: RekeyState, packet: Packet, e: Entropy, key: HostKey)
    requires ShortValues(p, key) && HasKey(st, key) && (e.cookie.Some? ==> |e.cookie.value| == COOKIE)
    ensures Small(RekeyOps(p, st, packet, e))
  {
    hide Reply, DecodeEcdhInit, ShortValues, Negotiation.EncodeKexInit, Negotiation.DecodeKexInit, Negotiation.Choose;
    match st
    case Idle(rekey) =>
      if e.cookie.Some? {
        KnownKind(p, key);
        OfferIsShort(e.cookie.value, key.algorithm);
        OfferIsSent(e.cookie.value, key.algorithm);
      }
    case Offered(kx, rekey) =>
      var value := DecodeEcdhInit(packet);
      if value.Ok? && Reply(p, kx, value.value, Some(rekey.sessionId), key, e.ephemeral).Ok? {
        ReplyIsShort(p, kx, value.value, Some(rekey.sessionId), key, e.ephemeral);
      }
    case _ =>
  }

  lemma KnownKind(p: Provider, key: HostKey)
    requires ShortValues(p, key)
    ensures !key.algorithm.UnknownKey?
  {
  }

  lemma OfferIsSent(cookie: bytes, algorithm: Named.PublicKeyAlgorithm)
    ensures Negotiation.EncodeKexInit(Negotiation.LocalKexInit(cookie, [algorithm], false)) != []
  {
    hide Negotiation.EncodeLists, ToBE;
  }

  // Turns

  ghost predicate SmallStep(key: HostKey, o: StepOutcome) {
    o.Next? ==> Small(o.ops) && HasKey(o.session.kx, key)
  }

  lemma RekeyKeepsKey(p: Provider, st: RekeyState, packet: Packet, e: Entropy, w: Writer, key: HostKey)
    requires w.Valid() && HasKey(st, key)
    ensures HasKey(HandleRekey(p, st, packet, e, w).0, key)
  {
    hide Start, EcdhStep, FinishStep, Encode;
  }

  lemma FinishSmall(key: HostKey, s: Session, ops: seq<Op>, event: Option<ChannelRuns.Event>, taken: seq<nat>, a: Aead)
    requires s.conn.Valid() && Small(ops) && HasKey(s.kx, key)
    ensures SmallStep(key, Finish(s, ops, event, taken))
  {
    hide FlushAll, FlushOps;
    if FlushAll(s.conn.write, taken).Some? {
      FlushWrites(a, s.conn.write, taken);
    }
  }

  lemma RekeySmall(p: Provider, s: Session, packet: Packet, turn: Turn, key: HostKey)
    requires s.conn.Valid() && turn.Arrival? && CookieFits(turn) && ShortValues(p, key) && HasKey(s.kx, key)
    ensures SmallStep(key, OnRekey(p, s, packet, turn))
  {
    hide HandleRekey, RekeyOps, Installed, Finish, ShortValues;
    RekeyOpsSmall(p, s.kx, packet, turn.entropy, key);
    RekeyKeepsKey(p, s.kx, packet, turn.entropy, s.conn.write, key);
    var r := RekeyTurn(p, s, packet, turn.entropy, turn.random);
    if r.Some? {
      FinishSmall(key, r.value.0, r.value.1, None, turn.taken, p.aead);
    }
  }

  lemma SaySmall(p: Provider, s: Session, payloads: seq<bytes>, event: Option<ChannelRuns.Event>, turn: Turn,
                 key: HostKey)
    requires s.conn.Valid() && !turn.Interrupted? && HasKey(s.kx, key)
    requires forall i :: 0 <= i < |payloads| ==> 0 < |payloads[i]| <= PAYLOAD_MAX
    ensures SmallStep(key, Say(p, s, payloads, event, turn))
  {
    hide Finish, SendAll;
    var r := SendAll(p.aead, s.conn.write, payloads, turn.random);
    if r.Some? {
      FinishSmall(key, s.(conn := s.conn.(write := r.value)), SendOps(payloads, turn.random), event, turn.taken,
                  p.aead);
    }
  }

  /** Data comes from a terminal, a read buffer at a time, or is a banner. */
  lemma DataIsShort(t: Channels.Table, ev: ChannelRuns.Event, i: nat)
    requires ChannelRuns.Step(t, ev).Ok? && i < |ChannelRuns.Step(t, ev).value.1|
    requires ev.DoRequest? && ev.banner.Some? ==> |ev.banner.value| <= FIELD_MAX
    ensures DataSize(ChannelRuns.Step(t, ev).value.1[i]) <= FIELD_MAX
  {
    hide Channels.PollFrom, Channels.PollChannel;
    var out := ChannelRuns.Step(t, ev).value.1[i];
    if out.On? && out.message.Data? {
      match ev
      case DoPoll(answers) =>
        ChannelRuns.PollReportsOnce(t, t.channels.Keys, answers);
        ChannelRuns.TerminalDataFits(t.channels[out.local], out.local, answers);
      case DoRequest(_, _, _, _) => ChannelRuns.RequestData(t, ev, i);
      case _ =>
    }
  }

  lemma ChannelsSmall(p: Provider, d: Codec, s: Session, ev: ChannelRuns.Event, turn: Turn, key: HostKey)
    requires s.conn.Valid() && !turn.Interrupted? && HasKey(s.kx, key) && ShortFields(d)
    requires ev.DoRequest? && ev.banner.Some? ==> |ev.banner.value| <= FIELD_MAX
    ensures SmallStep(key, OnChannels(p, d, s, ev, turn))
  {
    hide Say, ChannelRuns.Step;
    var r := ChannelRuns.Step(s.table, ev);
    if r.Ok? {
      var payloads := Payloads(d, r.value.1);
      forall i | 0 <= i < |payloads| ensures 0 < |payloads[i]| <= PAYLOAD_MAX {
        DataIsShort(s.table, ev, i);
      }
      SaySmall(p, s.(table := r.value.0), payloads, Some(ev), turn, key);
    }
  }

  lemma PacketSmall(p: Provider, d: Codec, s: Session, packet: Packet, turn: Turn, key: HostKey)
    requires s.conn.Valid() && turn.Arrival? && CookieFits(turn) && HasKey(s.kx, key)
    requires ShortFields(d) && ShortValues(p, key)
    ensures SmallStep(key, OnPacket(p, d, s, packet, turn))
  {
    hide OnRekey, Say, OnChannels, ShortValues, CookieFits;
    var kind := packet.kind;
    if kind == IGNORE || kind == DEBUG || kind == DISCONNECT {
    } else if kind == KEXINIT || s.kx.InProgress() {
      RekeySmall(p, s, packet, turn, key);
    } else if kind == GLOBAL_REQUEST {
      SaySmall(p, s, [[REQUEST_FAILURE]], None, turn, key);
    } else if kind != REQUEST_SUCCESS && kind != REQUEST_FAILURE && d.message(packet).Some? {
      ChannelsSmall(p, d, s, WithBanner(d.message(packet).value, s.postQuantum, d.banner(packet)), turn, key);
    }
  }

  lemma TakeSmall(p: Provider, d: Codec, s: Session, turn: Turn, key: HostKey)
    requires s.conn.Valid() && Enabled(p.aead, s, turn) && CookieFits(turn) && HasKey(s.kx, key)
    requires ShortFields(d) && ShortValues(p, key)
    ensures SmallStep(key, Take(p, d, s, turn))
  {
    hide Receive, OnPacket, OnChannels, Poll, NeedsMore, ShortFields, ShortValues, CookieFits;
    match turn
    case Interrupted(_) =>
    case Arrival(_, _, _) =>
      var (got, read, rest) := Receive(p.aead, s.conn.read, s.socket);
      if got.Got? {
        PacketSmall(p, d, s.(conn := s.conn.(read := read), socket := rest), got.packet, turn, key);
      }
    case Terminals(a, _, _) => ChannelsSmall(p, d, s, ChannelRuns.DoPoll(a), turn, key);
  }

  /** On every run, whatever is received and whatever the terminals report. */
  lemma {:induction false} RunSmall(p: Provider, d: Codec, h: History, turns: seq<Turn>, key: HostKey)
    requires h.session.conn.Valid() && Small(h.ops) && HasKey(h.session.kx, key)
    requires ShortFields(d) && ShortValues(p, key) && CookiesFit(turns) && RunSession(p, d, h, turns).Some?
    ensures Small(RunSession(p, d, h, turns).value.ops)
    decreases |turns|
  {
    hide Take, ShortFields, ShortValues, CookieFits, HasKey;
    if turns != [] {
      var o := Take(p, d, h.session, turns[0]);
      TakeValid(p, d, h.session, turns[0]);
      TakeSmall(p, d, h.session, turns[0], key);
      RunSmall(p, d, Recorded(h, o), turns[1..], key);
    }
  }

  lemma {:induction false} ViolatedStays(ops: seq<Op>)
    ensures WatchAll(Violated, ops) == Violated
  {
    if ops != [] {
      ViolatedStays(ops[..|ops| - 1]);
    }
  }

  /** Small packets in an order that is allowed can be sent. */
  lemma {:induction false} SmallIsSendable(sealed: bool, mode: Mode, ops: seq<Op>)
    requires Small(ops) && WatchAll(mode, ops) != Violated
    ensures Sendable(sealed, ops)
    decreases |ops|
  {
    hide WatchAll, PaddingFor;
    if ops != [] {
      assert ops == [ops[0]] + ops[1..];
      WatchAppend(mode, [ops[0]], ops[1..]);
      WatchOne(mode, ops[0]);
      ViolatedStays(ops[1..]);
      SmallIsSendable(sealed || ops[0].Switch?, Watch(mode, ops[0]), ops[1..]);
      if ops[0].Send? {
        PaddingIsSound(sealed, |ops[0].payload|);
      }
    }
  }

  lemma SessionSendable(p: Provider, d: Codec, rekey: Rekey, postQuantum: bool, conn: Conn, socket: seq<bytes>,
                        turns: seq<Turn>)
    requires conn.Valid() && RunSession(p, d, Begin(rekey, postQuantum, conn, socket), turns).Some?
    requires ShortFields(d) && ShortValues(p, rekey.hostKey) && CookiesFit(turns)
    ensures var h := RunSession(p, d, Begin(rekey, postQuantum, conn, socket), turns).value;
            Sendable(conn.write.sealer.Some?, h.ops)
  {
    hide RunSession, ShortFields, ShortValues, CookiesFit, Frames, Writes, WatchAll, Small;
    var begin := Begin(rekey, postQuantum, conn, socket);
    assert Small([]) by {
      NothingIsSmall();
    }
    RunSmall(p, d, begin, turns, rekey.hostKey);
    RekeyExclusivity(p, d, rekey, postQuantum, conn, socket, turns);
    SmallIsSendable(conn.write.sealer.Some?, Quiet, RunSession(p, d, begin, turns).value.ops);
  }

  lemma NothingIsSmall()
    ensures Small([])
  {
  }

  /** A client that mirrors the key changes receives, however the bytes reach it, packets in which
      every rekey is exclusive: nothing the session writes is too long for it. */
  lemma ClientSeesExclusiveRekeys(p: Provider, d: Codec, rekey: Rekey, postQuantum: bool, conn: Conn,
                                  socket: seq<bytes>, turns: seq<Turn>, client: Reader, pieces: seq<bytes>)
    requires conn.Valid() && RunSession(p, d, Begin(rekey, postQuantum, conn, socket), turns).Some?
    requires ShortFields(d) && ShortValues(p, rekey.hostKey) && CookiesFit(turns)
    requires conn.write.Buffered() == [] && client.Valid() && client.Pending() == []
    requires client.opener == conn.write.sealer && client.sequenceNumber == conn.write.sequenceNumber
    requires var h := RunSession(p, d, Begin(rekey, postQuantum, conn, socket), turns).value;
             && h.session.conn.write.Valid() && NonEmpty(pieces)
             && Flatten(pieces) == h.wire + h.session.conn.write.Buffered()
    ensures var h := RunSession(p, d, Begin(rekey, postQuantum, conn, socket), turns).value;
            var seen := Deliver(p.aead, Mirror(Changes(h.ops)), client, [], pieces);
            && seen.failure.None? && seen.packets == Conveyed(conn.write.sequenceNumber, h.ops)
            && WatchPackets(Quiet, seen.packets) != Violated
  {
    hide RunSession, Frames, Sendable, Deliver, WatchAll, WatchPackets, ShortFields, ShortValues, CookiesFit;
    RekeyExclusivity(p, d, rekey, postQuantum, conn, socket, turns);
    SessionSendable(p, d, rekey, postQuantum, conn, socket, turns);
    var h := RunSession(p, d, Begin(rekey, postQuantum, conn, socket), turns).value;
    TwoPartyTransport(p.aead, conn.write, client, h.ops, pieces);
    ConveyedInMode(Quiet, conn.write.sealer.Some?, conn.write.sequenceNumber, h.ops);
  }
}
