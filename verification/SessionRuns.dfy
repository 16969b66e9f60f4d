/** What holds of every run of the session loop: what is written, that a rekey excludes everything
    else, what a packet in the middle of a rekey does, and that the channel layer is one of the runs
    it is proved about. */
module SessionRuns {
  import opened Bytes
  import opened Transport
  import opened Delivery
  import opened TwoParty
  import opened Connections
  import opened KeyExchange
  import opened KeyExchangeRuns
  import opened SessionLoop
  import Named
  import Gcm
  import Crypto
  import Mpint
  import Negotiation
  import Channels
  import ChannelRuns

  // What is written

  /** The rekey machine writes exactly what the operations say. */
  lemma RekeyStepWrites(p: Provider, st: RekeyState, packet: Packet, e: Entropy, w: Writer)
    requires w.Valid() && HandleRekey(p, st, packet, e, w).2.Ok?
    ensures Writes(p.aead, w, RekeyOps(p, st, packet, e), [], HandleRekey(p, st, packet, e, w).1)
    ensures st.Answered? ==> RekeyOps(p, st, packet, e) == []
  {
    hide Encode, Start, Reply, DecodeEcdhInit, FinishStep, Writes;
    match st
    case Idle(rekey) =>
      var s := Start(p, packet, Greeting(rekey.ids), [rekey.hostKey.algorithm], false, e.cookie).value;
      WritesOne(p.aead, w, s.local, e.random);
    case Offered(kx, rekey) =>
      var r := Reply(p, kx, DecodeEcdhInit(packet).value, Some(rekey.sessionId), rekey.hostKey, e.ephemeral).value;
      WritesOne(p.aead, w, r.reply, e.random);
    case _ => WritesNothing(p.aead, w);
  }

  lemma RekeyTurnWrites(p: Provider, s: Session, packet: Packet, e: Entropy, random: nat -> Random)
    requires s.conn.Valid() && RekeyTurn(p, s, packet, e, random).Some?
    ensures var (s', ops) := RekeyTurn(p, s, packet, e, random).value;
            Writes(p.aead, s.conn.write, ops, [], s'.conn.write)
  {
    hide Installed, HandleRekey, RekeyOps, Writes, RunReader;
    var (st, w, r) := HandleRekey(p, s.kx, packet, e, s.conn.write);
    var ops := RekeyOps(p, s.kx, packet, e);
    RekeyStepWrites(p, s.kx, packet, e, s.conn.write);
    if r.value.Some? {
      var update, conn := r.value.value.update, s.conn.(write := w);
      InstalledWrites(p.aead, conn, update, random(0));
      var none: bytes := [];
      assert none + none == none;
      WritesThen(p.aead, s.conn.write, ops, none, w,
                 [Switch(KeySwitch(update.sealer, update.strict), random(0).noise)], none,
                 Installed(p.aead, conn, update, random(0)).value.write);
    }
  }

  lemma FinishWrites(a: Aead, w: Writer, s: Session, ops: seq<Op>, event: Option<ChannelRuns.Event>, taken: seq<nat>)
    requires w.Valid() && s.conn.Valid() && Writes(a, w, ops, [], s.conn.write) && Finish(s, ops, event, taken).Next?
    ensures var o := Finish(s, ops, event, taken);
            Writes(a, w, o.ops, o.wire, o.session.conn.write)
  {
    hide Writes, FlushAll, FlushOps;
    FlushWrites(a, s.conn.write, taken);
    var (wire, after) := FlushAll(s.conn.write, taken).value;
    WritesThen(a, w, ops, [], s.conn.write, FlushOps(s.conn.write, taken), wire, after);
    assert [] + wire == wire;
  }

  lemma SayWrites(p: Provider, s: Session, payloads: seq<bytes>, event: Option<ChannelRuns.Event>, turn: Turn)
    requires s.conn.Valid() && !turn.Interrupted? && Say(p, s, payloads, event, turn).Next?
    ensures var o := Say(p, s, payloads, event, turn);
            Writes(p.aead, s.conn.write, o.ops, o.wire, o.session.conn.write)
  {
    hide Writes, Finish, SendAll, SendOps;
    SendWrites(p.aead, s.conn.write, payloads, turn.random);
    var w := SendAll(p.aead, s.conn.write, payloads, turn.random).value;
    FinishWrites(p.aead, s.conn.write, s.(conn := s.conn.(write := w)), SendOps(payloads, turn.random), event,
                 turn.taken);
  }

  lemma RekeyWrites(p: Provider, s: Session, packet: Packet, turn: Turn)
    requires s.conn.Valid() && turn.Arrival? && OnRekey(p, s, packet, turn).Next?
    ensures var o := OnRekey(p, s, packet, turn);
            Writes(p.aead, s.conn.write, o.ops, o.wire, o.session.conn.write)
  {
    hide Writes, Finish, RekeyTurn;
    RekeyTurnWrites(p, s, packet, turn.entropy, turn.random);
    var (s', ops) := RekeyTurn(p, s, packet, turn.entropy, turn.random).value;
    FinishWrites(p.aead, s.conn.write, s', ops, None, turn.taken);
  }

  lemma PacketWrites(p: Provider, d: Codec, s: Session, packet: Packet, turn: Turn)
    requires s.conn.Valid() && turn.Arrival? && OnPacket(p, d, s, packet, turn).Next?
    ensures var o := OnPacket(p, d, s, packet, turn);
            Writes(p.aead, s.conn.write, o.ops, o.wire, o.session.conn.write)
  {
    hide Writes, OnRekey, Say, ChannelRuns.Step;
    WritesNothing(p.aead, s.conn.write);
    var kind := packet.kind;
    if kind == IGNORE || kind == DEBUG {
    } else if kind == KEXINIT || s.kx.InProgress() {
      RekeyWrites(p, s, packet, turn);
    } else if kind == GLOBAL_REQUEST {
      if d.wantReply(packet).value {
        SayWrites(p, s, [[REQUEST_FAILURE]], None, turn);
      }
    } else if kind != REQUEST_SUCCESS && kind != REQUEST_FAILURE {
      ChannelsWrite(p, d, s, WithBanner(d.message(packet).value, s.postQuantum, d.banner(packet)), turn);
    }
  }

  lemma ChannelsWrite(p: Provider, d: Codec, s: Session, ev: ChannelRuns.Event, turn: Turn)
    requires s.conn.Valid() && !turn.Interrupted? && OnChannels(p, d, s, ev, turn).Next?
    ensures var o := OnChannels(p, d, s, ev, turn);
            Writes(p.aead, s.conn.write, o.ops, o.wire, o.session.conn.write)
  {
    hide Writes, Say, ChannelRuns.Step;
    var (t, outs) := ChannelRuns.Step(s.table, ev).value;
    SayWrites(p, s.(table := t), Payloads(d, outs), Some(ev), turn);
  }

  lemma TakeWrites(p: Provider, d: Codec, s: Session, turn: Turn)
    requires s.conn.Valid() && Enabled(p.aead, s, turn) && Take(p, d, s, turn).Next?
    ensures var o := Take(p, d, s, turn);
            Writes(p.aead, s.conn.write, o.ops, o.wire, o.session.conn.write)
  {
    hide Writes, OnPacket, OnChannels, Receive, Poll;
    match turn
    case Interrupted(_) => WritesNothing(p.aead, s.conn.write);
    case Arrival(_, _, _) =>
      var (got, read, rest) := Receive(p.aead, s.conn.read, s.socket);
      PacketWrites(p, d, s.(conn := s.conn.(read := read), socket := rest), got.packet, turn);
    case Terminals(a, _, _) => ChannelsWrite(p, d, s, ChannelRuns.DoPoll(a), turn);
  }

  /** On every run, the operations told are what the writer did, so the bytes the stream took are
      their frames, under the keys then installed. */
  lemma {:induction false} SessionWrites(p: Provider, d: Codec, w: Writer, h: History, turns: seq<Turn>)
    requires w.Valid() && h.session.conn.Valid() && Writes(p.aead, w, h.ops, h.wire, h.session.conn.write)
    requires RunSession(p, d, h, turns).Some?
    ensures var g := RunSession(p, d, h, turns).value;
            Writes(p.aead, w, g.ops, g.wire, g.session.conn.write)
    decreases |turns|
  {
    hide Writes, Take;
    if turns != [] {
      var o := Take(p, d, h.session, turns[0]);
      TakeValid(p, d, h.session, turns[0]);
      TakeWrites(p, d, h.session, turns[0]);
      WritesThen(p.aead, w, h.ops, h.wire, h.session.conn.write, o.ops, o.wire, o.session.conn.write);
      SessionWrites(p, d, w, Recorded(h, o), turns[1..]);
    }
  }

  lemma SessionWritesAll(p: Provider, d: Codec, rekey: Rekey, postQuantum: bool, conn: Conn, socket: seq<bytes>,
                         turns: seq<Turn>)
    requires conn.Valid() && RunSession(p, d, Begin(rekey, postQuantum, conn, socket), turns).Some?
    ensures var h := RunSession(p, d, Begin(rekey, postQuantum, conn, socket), turns).value;
            h.session.conn.Valid() && Writes(p.aead, conn.write, h.ops, h.wire, h.session.conn.write)
  {
    hide RunSession, Writes;
    WritesNothing(p.aead, conn.write);
    SessionWrites(p, d, conn.write, Begin(rekey, postQuantum, conn, socket), turns);
  }

  // Rekey exclusivity

  /** What section 7.1 of RFC 4253 allows on the wire: between our KEXINIT and our NEWKEYS only
      the reply. */
  datatype Mode = Quiet | InitSent | ReplySent | Violated

  function WatchKind(mode: Mode, kind: byte): Mode {
    if kind == KEXINIT then if mode == Quiet then InitSent else Violated
    else if kind == KEX_ECDH_REPLY then if mode == InitSent then ReplySent else Violated
    else if kind == NEWKEYS then if mode == ReplySent then Quiet else Violated
    else if mode == Quiet then Quiet else Violated
  }

  function Watch(mode: Mode, op: Op): Mode {
    match op
    case Flush(_) => mode
    case Switch(_, _) => WatchKind(mode, NEWKEYS)
    case Send(payload, _) => if payload == [] || payload[0] == NEWKEYS then Violated else WatchKind(mode, payload[0])
  }

  function WatchAll(mode: Mode, ops: seq<Op>): Mode {
    if ops == [] then mode else Watch(WatchAll(mode, ops[..|ops| - 1]), ops[|ops| - 1])
  }

  lemma {:induction false} WatchAppend(mode: Mode, a: seq<Op>, b: seq<Op>)
    ensures WatchAll(mode, a + b) == WatchAll(WatchAll(mode, a), b)
  {
    if b == [] {
      assert a + b == a;
    } else {
      assert (a + b)[..|a + b| - 1] == a + b[..|b| - 1];
      WatchAppend(mode, a, b[..|b| - 1]);
    }
  }

  lemma WatchOne(mode: Mode, op: Op)
    ensures WatchAll(mode, [op]) == Watch(mode, op)
  {
    assert [op][..0] == [];
  }

  function ModeOf(st: RekeyState): Mode {
    match st
    case Idle(_) => Quiet
    case Offered(_, _) => InitSent
    case Answered(_, _, _) => ReplySent
    case Transitioning => Violated
  }

  lemma {:induction false} FlushesUnseen(mode: Mode, ops: seq<Op>)
    requires OnlyFlushes(ops)
    ensures WatchAll(mode, ops) == mode
  {
    if ops != [] {
      FlushesUnseen(mode, ops[..|ops| - 1]);
    }
  }

  lemma {:induction false} QuietStaysQuiet(payloads: seq<bytes>, random: nat -> Random)
    requires forall i :: 0 <= i < |payloads| ==> payloads[i] != [] && payloads[i][0] > KEX_ECDH_REPLY
    ensures WatchAll(Quiet, SendOps(payloads, random)) == Quiet
  {
    var ops := SendOps(payloads, random);
    if payloads != [] {
      var n := |payloads| - 1;
      QuietStaysQuiet(payloads[..n], random);
      assert ops[..n] == SendOps(payloads[..n], random);
    }
  }

  lemma StartHead(p: Provider, packet: Packet, exchange: bytes, algs: seq<Named.PublicKeyAlgorithm>,
                  cookie: Option<bytes>)
    requires Start(p, packet, exchange, algs, false, cookie).Ok?
    ensures var local := Start(p, packet, exchange, algs, false, cookie).value.local;
            local != [] && local[0] == KEXINIT
  {
    hide Negotiation.EncodeLists, Negotiation.Choose, Negotiation.DecodeKexInit;
  }

  lemma ReplyHead(p: Provider, kx: Kx, value: bytes, id: Option<bytes>, key: HostKey, ephemeral: nat)
    requires Reply(p, kx, value, id, key, ephemeral).Ok?
    ensures var reply := Reply(p, kx, value, id, key, ephemeral).value.reply;
            reply != [] && reply[0] == KEX_ECDH_REPLY
  {
    hide Crypto.DeriveSet, Agree, HashFor, EncodedSecret, TaggedPublicKey, EncodeString, Mpint.TaggedSignature;
  }

  lemma RekeyOpsInMode(p: Provider, st: RekeyState, packet: Packet, e: Entropy, w: Writer)
    requires w.Valid() && HandleRekey(p, st, packet, e, w).2.Ok?
    ensures var (st', _, r) := HandleRekey(p, st, packet, e, w);
            && !st'.Transitioning?
            && (st.Answered? <==> r.value.Some?) && (st.Answered? ==> st'.Idle? && RekeyOps(p, st, packet, e) == [])
            && (!st.Answered? ==> WatchAll(ModeOf(st), RekeyOps(p, st, packet, e)) == ModeOf(st'))
  {
    hide Encode, Start, Reply, DecodeEcdhInit, FinishStep, WatchAll;
    if !st.Answered? {
      RandomNeeded(p, st, packet, e, w);
    }
    match st
    case Idle(rekey) =>
      StartHead(p, packet, Greeting(rekey.ids), [rekey.hostKey.algorithm], e.cookie);
      var s := Start(p, packet, Greeting(rekey.ids), [rekey.hostKey.algorithm], false, e.cookie).value;
      WatchOne(Quiet, Send(s.local, e.random.noise));
    case Offered(kx, rekey) =>
      var value := DecodeEcdhInit(packet).value;
      ReplyHead(p, kx, value, Some(rekey.sessionId), rekey.hostKey, e.ephemeral);
      var r := Reply(p, kx, value, Some(rekey.sessionId), rekey.hostKey, e.ephemeral).value;
      WatchOne(InitSent, Send(r.reply, e.random.noise));
    case _ =>
  }

  lemma RandomNeeded(p: Provider, st: RekeyState, packet: Packet, e: Entropy, w: Writer)
    requires w.Valid() && HandleRekey(p, st, packet, e, w).2.Ok? && !st.Answered?
    ensures e.random.Random?
  {
    hide Start, Reply, DecodeEcdhInit, FinishStep, Frame;
  }

  lemma RekeyTurnInMode(p: Provider, s: Session, packet: Packet, e: Entropy, random: nat -> Random)
    requires s.conn.Valid() && RekeyTurn(p, s, packet, e, random).Some?
    ensures var (s', ops) := RekeyTurn(p, s, packet, e, random).value;
            && !s'.kx.Transitioning? && s'.table == s.table && WatchAll(ModeOf(s.kx), ops) == ModeOf(s'.kx)
  {
    hide Installed, HandleRekey, RekeyOps, WatchAll, Writes, RunReader;
    RekeyOpsInMode(p, s.kx, packet, e, s.conn.write);
    var (st, w, r) := HandleRekey(p, s.kx, packet, e, s.conn.write);
    if r.value.Some? {
      InstalledWrites(p.aead, s.conn.(write := w), r.value.value.update, random(0));
      var op := Switch(KeySwitch(r.value.value.update.sealer, r.value.value.update.strict), random(0).noise);
      assert [] + [op] == [op];
      WatchOne(ReplySent, op);
    }
  }

  lemma FinishInMode(mode: Mode, s: Session, ops: seq<Op>, event: Option<ChannelRuns.Event>, taken: seq<nat>, a: Aead)
    requires s.conn.Valid() && Finish(s, ops, event, taken).Next?
    ensures var o := Finish(s, ops, event, taken);
            && WatchAll(mode, o.ops) == WatchAll(mode, ops)
            && o.session.kx == s.kx && o.session.table == s.table && o.event == event
  {
    hide WatchAll, FlushAll, FlushOps;
    var flushes := FlushOps(s.conn.write, taken);
    WatchAppend(mode, ops, flushes);
    FlushWrites(a, s.conn.write, taken);
    FlushesUnseen(WatchAll(mode, ops), flushes);
  }

  /** What a step keeps: the mode is that of the rekey machine, and the channel layer took the
      recorded step, if any. */
  ghost predicate StepSound(s: Session, o: StepOutcome)
    requires o.Next?
  {
    && !o.session.kx.Transitioning? && WatchAll(ModeOf(s.kx), o.ops) == ModeOf(o.session.kx)
    && (o.event.None? ==> o.session.table == s.table)
    && (o.event.Some? ==>
          && ChannelRuns.Proper(o.event.value) && ChannelRuns.Step(s.table, o.event.value).Ok?
          && o.session.table == ChannelRuns.Step(s.table, o.event.value).value.0)
  }

  lemma RekeyInStep(p: Provider, s: Session, packet: Packet, turn: Turn)
    requires s.conn.Valid() && turn.Arrival? && OnRekey(p, s, packet, turn).Next?
    ensures StepSound(s, OnRekey(p, s, packet, turn))
  {
    hide Finish, RekeyTurn, WatchAll;
    RekeyTurnInMode(p, s, packet, turn.entropy, turn.random);
    var (s', ops) := RekeyTurn(p, s, packet, turn.entropy, turn.random).value;
    FinishInMode(ModeOf(s.kx), s', ops, None, turn.taken, p.aead);
  }

  lemma SayInMode(p: Provider, s: Session, payloads: seq<bytes>, event: Option<ChannelRuns.Event>, turn: Turn)
    requires s.conn.Valid() && !turn.Interrupted? && Say(p, s, payloads, event, turn).Next?
    requires forall i :: 0 <= i < |payloads| ==> payloads[i] != [] && payloads[i][0] > KEX_ECDH_REPLY
    ensures var o := Say(p, s, payloads, event, turn);
            && WatchAll(Quiet, o.ops) == Quiet
            && o.session.kx == s.kx && o.session.table == s.table && o.event == event
  {
    hide Finish, SendAll, SendOps, WatchAll;
    QuietStaysQuiet(payloads, turn.random);
    var w := SendAll(p.aead, s.conn.write, payloads, turn.random).value;
    FinishInMode(Quiet, s.(conn := s.conn.(write := w)), SendOps(payloads, turn.random), event, turn.taken, p.aead);
  }

  lemma ChannelsInStep(p: Provider, d: Codec, s: Session, ev: ChannelRuns.Event, turn: Turn)
    requires s.conn.Valid() && !turn.Interrupted? && s.kx.Idle? && ChannelRuns.Proper(ev)
    requires OnChannels(p, d, s, ev, turn).Next?
    ensures StepSound(s, OnChannels(p, d, s, ev, turn))
  {
    hide Say, ChannelRuns.Step, WatchAll, ChannelRuns.Proper;
    var (t, outs) := ChannelRuns.Step(s.table, ev).value;
    SayInMode(p, s.(table := t), Payloads(d, outs), Some(ev), turn);
  }

  lemma PacketInStep(p: Provider, d: Codec, s: Session, packet: Packet, turn: Turn)
    requires s.conn.Valid() && turn.Arrival? && OnPacket(p, d, s, packet, turn).Next? && !s.kx.Transitioning?
    ensures StepSound(s, OnPacket(p, d, s, packet, turn))
  {
    hide OnRekey, Say, OnChannels, ChannelRuns.Step;
    var kind := packet.kind;
    if kind == IGNORE || kind == DEBUG {
    } else if kind == KEXINIT || s.kx.InProgress() {
      RekeyInStep(p, s, packet, turn);
    } else if kind == GLOBAL_REQUEST {
      if d.wantReply(packet).value {
        SayInMode(p, s, [[REQUEST_FAILURE]], None, turn);
      }
    } else if kind != REQUEST_SUCCESS && kind != REQUEST_FAILURE {
      ChannelsInStep(p, d, s, WithBanner(d.message(packet).value, s.postQuantum, d.banner(packet)), turn);
    }
  }

  lemma TakeInStep(p: Provider, d: Codec, s: Session, turn: Turn)
    requires s.conn.Valid() && Enabled(p.aead, s, turn) && Take(p, d, s, turn).Next? && !s.kx.Transitioning?
    ensures StepSound(s, Take(p, d, s, turn))
  {
    hide OnPacket, OnChannels, ChannelRuns.Step, Receive, Poll;
    match turn
    case Interrupted(_) =>
    case Arrival(_, _, _) =>
      var (got, read, rest) := Receive(p.aead, s.conn.read, s.socket);
      PacketInStep(p, d, s.(conn := s.conn.(read := read), socket := rest), got.packet, turn);
    case Terminals(a, _, _) => ChannelsInStep(p, d, s, ChannelRuns.DoPoll(a), turn);
  }

  lemma {:induction false} RunInMode(p: Provider, d: Codec, h: History, turns: seq<Turn>)
    requires h.session.conn.Valid() && !h.session.kx.Transitioning?
    requires WatchAll(Quiet, h.ops) == ModeOf(h.session.kx) && RunSession(p, d, h, turns).Some?
    ensures var g := RunSession(p, d, h, turns).value;
            !g.session.kx.Transitioning? && WatchAll(Quiet, g.ops) == ModeOf(g.session.kx)
    decreases |turns|
  {
    hide Take, WatchAll, ChannelRuns.Step;
    if turns != [] {
      TakeValid(p, d, h.session, turns[0]);
      TakeInStep(p, d, h.session, turns[0]);
      var o := Take(p, d, h.session, turns[0]);
      WatchAppend(Quiet, h.ops, o.ops);
      RunInMode(p, d, Recorded(h, o), turns[1..]);
    }
  }

  /** Rekey exclusivity: on every run of the session loop the writer wrote `ops`, so the stream
      took exactly their frames; and in them nothing but the one reply stands between our KEXINIT
      and our NEWKEYS, with each of the three in its place. */
  lemma RekeyExclusivity(p: Provider, d: Codec, rekey: Rekey, postQuantum: bool, conn: Conn, socket: seq<bytes>,
                         turns: seq<Turn>)
    requires conn.Valid() && RunSession(p, d, Begin(rekey, postQuantum, conn, socket), turns).Some?
    ensures var h := RunSession(p, d, Begin(rekey, postQuantum, conn, socket), turns).value;
            && Writes(p.aead, conn.write, h.ops, h.wire, h.session.conn.write)
            && h.session.conn.Valid() && Frames(p.aead, conn.write.sealer, h.ops).Some?
            && h.wire + h.session.conn.write.Buffered()
               == conn.write.Buffered() + Frames(p.aead, conn.write.sealer, h.ops).value
            && WatchAll(Quiet, h.ops) != Violated
            && (h.session.kx.InProgress() <==> WatchAll(Quiet, h.ops) != Quiet)
  {
    hide RunSession, Frames;
    var begin := Begin(rekey, postQuantum, conn, socket);
    SessionWritesAll(p, d, rekey, postQuantum, conn, socket, turns);
    RunInMode(p, d, begin, turns);
    var h := RunSession(p, d, begin, turns).value;
    WireIsFrames(p.aead, conn.write, h.ops);
  }

  // What the client sees

  function WatchPackets(mode: Mode, packets: seq<Packet>): Mode
    decreases |packets|
  {
    if packets == [] then mode else WatchPackets(WatchKind(mode, packets[0].kind), packets[1..])
  }

  lemma {:induction false} ConveyedInMode(mode: Mode, sealed: bool, n: nat, ops: seq<Op>)
    requires Sendable(sealed, ops)
    ensures WatchPackets(mode, Conveyed(n, ops)) == WatchAll(mode, ops)
    decreases |ops|
  {
    hide PaddingFor;
    if ops != [] {
      assert ops == [ops[0]] + ops[1..];
      WatchAppend(mode, [ops[0]], ops[1..]);
      WatchOne(mode, ops[0]);
      var next := (n + 1) % U32;
      match ops[0]
      case Flush(_) => ConveyedInMode(mode, sealed, n, ops[1..]);
      case Send(payload, _) =>
        var packet := Packet(n, payload[0], payload[1..]);
        assert ([packet] + Conveyed(next, ops[1..]))[1..] == Conveyed(next, ops[1..]);
        ConveyedInMode(WatchKind(mode, payload[0]), sealed, next, ops[1..]);
      case Switch(change, _) =>
        var after := if change.strict then 0 else next;
        var packet := Packet(n, NEWKEYS, []);
        assert ([packet] + Conveyed(after, ops[1..]))[1..] == Conveyed(after, ops[1..]);
        ConveyedInMode(WatchKind(mode, NEWKEYS), true, after, ops[1..]);
    }
  }

  // Intruders

  /** The packet is the acceptable next message of the exchange in progress. */
  predicate Acceptable(p: Provider, st: RekeyState, i: Input) {
    || (st.Offered? && Answerable(p, st.kx.negotiated.kex, i))
    || (st.Answered? && Confirms(i))
  }

  /** What the rekey machine keeps while a rekey is in progress. */
  predicate RekeySound(st: RekeyState) {
    && (st.Offered? ==> Supported(st.kx.negotiated, [st.rekey.hostKey.algorithm]))
    && (st.Answered? ==> Installable(st.keys))
  }

  lemma RekeyTurnIff(p: Provider, s: Session, packet: Packet, e: Entropy, random: nat -> Random)
    requires s.conn.Valid() && s.kx.InProgress() && RekeySound(s.kx)
    ensures RekeyTurn(p, s, packet, e, random).Some? <==>
              && Acceptable(p, s.kx, Input(packet, e, s.conn.write))
              && (s.kx.Answered? ==> CanWrite(Input(packet, e.(random := random(0)), s.conn.write)))
  {
    hide EcdhStep, Reply, DecodeEcdhInit, Gcm.New, RekeyOps, Encode, Answerable, CanWrite;
    var i := Input(packet, e, s.conn.write);
    EncodeSucceedsIff(p, i.(entropy := e.(random := random(0))), [NEWKEYS]);
    if s.kx.Offered? {
      EcdhSucceedsIff(p, s.kx.kx, i, Some(s.kx.rekey.sessionId), s.kx.rekey.hostKey);
    } else if s.kx.Answered? {
      RekeyConfirm(p, s.kx.rekey, s.kx.keys, s.kx.postQuantum, i);
    }
  }

  /** The buffered bytes after the packet: what was there, and the frame of our reply or NEWKEYS. */
  function Outgoing(p: Provider, s: Session, packet: Packet, turn: Turn): (w: Writer)
    requires s.conn.Valid() && turn.Arrival?
    ensures w.Valid()
  {
    if s.kx.Answered? then Encode(p.aead, s.conn.write, [NEWKEYS], turn.random(0)).1
    else HandleRekey(p, s.kx, packet, turn.entropy, s.conn.write).1
  }

  lemma {:induction false} FlushSame(w: Writer, v: Writer, taken: seq<nat>)
    requires w.Valid() && v.Valid() && w.buf == v.buf && w.written == v.written
    ensures FlushAll(w, taken).Some? <==> FlushAll(v, taken).Some?
    decreases |taken|
  {
    if w.Buffered() != [] && taken != [] && 0 < taken[0] <= |w.Buffered()| {
      FlushSame(Wrote(w, taken[0]), Wrote(v, taken[0]), taken[1..]);
    }
  }

  lemma OutgoingFlushes(p: Provider, s: Session, packet: Packet, turn: Turn)
    requires s.conn.Valid() && turn.Arrival? && RekeyTurn(p, s, packet, turn.entropy, turn.random).Some?
    ensures FlushAll(RekeyTurn(p, s, packet, turn.entropy, turn.random).value.0.conn.write, turn.taken).Some?
            <==> FlushAll(Outgoing(p, s, packet, turn), turn.taken).Some?
  {
    hide Encode, EcdhStep, Start, FinishStep, RekeyOps, FlushAll;
    FlushSame(RekeyTurn(p, s, packet, turn.entropy, turn.random).value.0.conn.write,
              Outgoing(p, s, packet, turn), turn.taken);
  }

  lemma RekeyStaysSound(p: Provider, st: RekeyState, i: Input)
    requires RekeySound(st)
    ensures RekeySound(HandleRekey(p, st, i.packet, i.entropy, i.writer).0)
  {
    hide EcdhStep, Start, Gcm.New, Supported, Encode, FinishStep;
    match st
    case Idle(rekey) =>
      var s := Start(p, i.packet, Greeting(rekey.ids), [rekey.hostKey.algorithm], false, i.entropy.cookie);
      if s.Ok? {
        EncodeSucceedsIff(p, i, s.value.local);
        StartSucceedsIff(p, Greeting(rekey.ids), [rekey.hostKey.algorithm], false, i);
      }
    case Offered(kx, rekey) =>
      AnsweredIsInstallable(p, kx, rekey, i);
    case _ =>
  }

  lemma AnsweredIsInstallable(p: Provider, kx: Kx, rekey: Rekey, i: Input)
    requires Supported(kx.negotiated, [rekey.hostKey.algorithm])
    ensures var r := EcdhStep(p, kx, i.packet, i.entropy, i.writer, Some(rekey.sessionId), Ok(rekey.hostKey)).1;
            r.Ok? ==> Installable(r.value.0.keys)
  {
    hide EcdhStep, Reply, Gcm.New, DecodeEcdhInit;
    EcdhSucceedsIff(p, kx, i, Some(rekey.sessionId), rekey.hostKey);
    if Answerable(p, kx.negotiated.kex, i) {
      ReplyKeysReady(p, kx, DecodeEcdhInit(i.packet).value, Some(rekey.sessionId), rekey.hostKey, i.entropy.ephemeral);
    }
  }

  lemma RekeyTurnStaysSound(p: Provider, s: Session, packet: Packet, e: Entropy, random: nat -> Random)
    requires s.conn.Valid() && RekeySound(s.kx) && RekeyTurn(p, s, packet, e, random).Some?
    ensures RekeySound(RekeyTurn(p, s, packet, e, random).value.0.kx)
  {
    hide HandleRekey, RekeyOps, Installed, RekeySound, Writes, RunReader;
    RekeyStaysSound(p, s.kx, Input(packet, e, s.conn.write));
  }

  lemma OnRekeyStaysSound(p: Provider, s: Session, packet: Packet, turn: Turn)
    requires s.conn.Valid() && turn.Arrival? && RekeySound(s.kx) && OnRekey(p, s, packet, turn).Next?
    ensures RekeySound(OnRekey(p, s, packet, turn).session.kx)
  {
    hide RekeyTurn, RekeySound, FlushAll, FlushOps;
    RekeyTurnStaysSound(p, s, packet, turn.entropy, turn.random);
  }

  lemma SayKeepsMachine(p: Provider, s: Session, payloads: seq<bytes>, event: Option<ChannelRuns.Event>, turn: Turn)
    requires s.conn.Valid() && !turn.Interrupted? && Say(p, s, payloads, event, turn).Next?
    ensures Say(p, s, payloads, event, turn).session.kx == s.kx
  {
    hide SendAll, FlushAll, FlushOps, SendOps;
  }

  lemma ChannelsKeepMachine(p: Provider, d: Codec, s: Session, ev: ChannelRuns.Event, turn: Turn)
    requires s.conn.Valid() && !turn.Interrupted? && OnChannels(p, d, s, ev, turn).Next?
    ensures OnChannels(p, d, s, ev, turn).session.kx == s.kx
  {
    hide Say, ChannelRuns.Step;
    var (t, outs) := ChannelRuns.Step(s.table, ev).value;
    SayKeepsMachine(p, s.(table := t), Payloads(d, outs), Some(ev), turn);
  }

  lemma PacketStaysSound(p: Provider, d: Codec, s: Session, packet: Packet, turn: Turn)
    requires s.conn.Valid() && turn.Arrival? && RekeySound(s.kx) && OnPacket(p, d, s, packet, turn).Next?
    ensures RekeySound(OnPacket(p, d, s, packet, turn).session.kx)
  {
    hide OnRekey, Say, OnChannels, RekeySound;
    var kind := packet.kind;
    if kind == IGNORE || kind == DEBUG {
    } else if kind == KEXINIT || s.kx.InProgress() {
      OnRekeyStaysSound(p, s, packet, turn);
    } else if kind == GLOBAL_REQUEST {
      if d.wantReply(packet).value {
        SayKeepsMachine(p, s, [[REQUEST_FAILURE]], None, turn);
      }
    } else if kind != REQUEST_SUCCESS && kind != REQUEST_FAILURE {
      ChannelsKeepMachine(p, d, s, WithBanner(d.message(packet).value, s.postQuantum, d.banner(packet)), turn);
    }
  }

  lemma TakeStaysSound(p: Provider, d: Codec, s: Session, turn: Turn)
    requires s.conn.Valid() && Enabled(p.aead, s, turn) && RekeySound(s.kx) && Take(p, d, s, turn).Next?
    ensures RekeySound(Take(p, d, s, turn).session.kx)
  {
    hide OnPacket, OnChannels, RekeySound, Receive, Poll;
    match turn
    case Interrupted(_) =>
    case Arrival(_, _, _) =>
      var (got, read, rest) := Receive(p.aead, s.conn.read, s.socket);
      PacketStaysSound(p, d, s.(conn := s.conn.(read := read), socket := rest), got.packet, turn);
    case Terminals(a, _, _) => ChannelsKeepMachine(p, d, s, ChannelRuns.DoPoll(a), turn);
  }

  lemma {:induction false} RunStaysSound(p: Provider, d: Codec, h: History, turns: seq<Turn>)
    requires h.session.conn.Valid() && RekeySound(h.session.kx) && RunSession(p, d, h, turns).Some?
    ensures RekeySound(RunSession(p, d, h, turns).value.session.kx)
    decreases |turns|
  {
    hide Take, RekeySound;
    if turns != [] {
      TakeValid(p, d, h.session, turns[0]);
      TakeStaysSound(p, d, h.session, turns[0]);
      RunStaysSound(p, d, Recorded(h, Take(p, d, h.session, turns[0])), turns[1..]);
    }
  }

  /** The packet is to be ignored, or is the acceptable next message of the exchange and what it
      leads to can be written and flushed. */
  predicate LetThrough(p: Provider, s: Session, packet: Packet, turn: Turn)
    requires s.conn.Valid() && turn.Arrival?
  {
    || packet.kind == IGNORE || packet.kind == DEBUG
    || (&& Acceptable(p, s.kx, Input(packet, turn.entropy, s.conn.write))
        && (s.kx.Answered? ==> CanWrite(Input(packet, turn.entropy.(random := turn.random(0)), s.conn.write)))
        && FlushAll(Outgoing(p, s, packet, turn), turn.taken).Some?)
  }

  /** While a rekey is in progress, a packet leaves the session running exactly when it is let
      through. */
  lemma IntruderEndsSession(p: Provider, d: Codec, s: Session, packet: Packet, turn: Turn)
    requires s.conn.Valid() && turn.Arrival? && s.kx.InProgress() && RekeySound(s.kx)
    ensures OnPacket(p, d, s, packet, turn).Next? <==> LetThrough(p, s, packet, turn)
    ensures OnPacket(p, d, s, packet, turn).Disconnected? <==> packet.kind == DISCONNECT
  {
    hide RekeyTurn, FlushAll, CanWrite, Acceptable, OnRekey, OnChannels, Say, Outgoing;
    RekeyTurnIff(p, s, packet, turn.entropy, turn.random);
    OnRekeyIff(p, s, packet, turn);
    if RekeyTurn(p, s, packet, turn.entropy, turn.random).Some? {
      OutgoingFlushes(p, s, packet, turn);
    }
    if Acceptable(p, s.kx, Input(packet, turn.entropy, s.conn.write)) {
      AcceptableKinds(p, s.kx, Input(packet, turn.entropy, s.conn.write));
    }
  }

  lemma OnRekeyIff(p: Provider, s: Session, packet: Packet, turn: Turn)
    requires s.conn.Valid() && turn.Arrival?
    ensures var r := RekeyTurn(p, s, packet, turn.entropy, turn.random);
            var o := OnRekey(p, s, packet, turn);
            && (o.Next? <==> r.Some? && FlushAll(r.value.0.conn.write, turn.taken).Some?) && !o.Disconnected?
  {
    hide RekeyTurn, FlushAll;
  }

  lemma AcceptableKinds(p: Provider, st: RekeyState, i: Input)
    requires Acceptable(p, st, i)
    ensures i.packet.kind == KEX_ECDH_INIT || i.packet.kind == NEWKEYS
  {
  }

  /** The same in every state a run can reach. */
  lemma IntruderEndsEveryRun(p: Provider, d: Codec, rekey: Rekey, postQuantum: bool, conn: Conn, socket: seq<bytes>,
                             turns: seq<Turn>, packet: Packet, turn: Turn)
    requires conn.Valid() && RunSession(p, d, Begin(rekey, postQuantum, conn, socket), turns).Some? && turn.Arrival?
    requires RunSession(p, d, Begin(rekey, postQuantum, conn, socket), turns).value.session.kx.InProgress()
    ensures var s := RunSession(p, d, Begin(rekey, postQuantum, conn, socket), turns).value.session;
            var o := OnPacket(p, d, s, packet, turn);
            && s.conn.Valid()
            && (o.Next? <==> LetThrough(p, s, packet, turn))
            && (o.Disconnected? <==> packet.kind == DISCONNECT)
  {
    hide RunSession, OnPacket, LetThrough;
    RunStaysSound(p, d, Begin(rekey, postQuantum, conn, socket), turns);
    var s := RunSession(p, d, Begin(rekey, postQuantum, conn, socket), turns).value.session;
    IntruderEndsSession(p, d, s, packet, turn);
  }

  // The channel layer

  /** Every session run is a run of the channel layer. */
  lemma {:induction false} RunIsChannelRun(p: Provider, d: Codec, h: History, ls: ChannelRuns.Ledgers, turns: seq<Turn>)
    requires h.session.conn.Valid() && !h.session.kx.Transitioning?
    requires ChannelRuns.Reachable(h.session.table, ls, h.events) && RunSession(p, d, h, turns).Some?
    ensures var g := RunSession(p, d, h, turns).value;
            exists books :: ChannelRuns.Reachable(g.session.table, books, g.events)
    decreases |turns|
  {
    hide Take, ChannelRuns.Step, ChannelRuns.Record, ChannelRuns.Reachable, WatchAll;
    if turns != [] {
      TakeValid(p, d, h.session, turns[0]);
      TakeInStep(p, d, h.session, turns[0]);
      var o := Take(p, d, h.session, turns[0]);
      var ls' := ls;
      if o.event.Some? {
        ChannelRuns.ReachableStep(h.session.table, ls, h.events, o.event.value);
        ls' := ChannelRuns.Record(ls, o.event.value, ChannelRuns.Step(h.session.table, o.event.value).value.1);
      }
      RunIsChannelRun(p, d, Recorded(h, o), ls', turns[1..]);
    }
  }

  /** The channel table of every session run is one the channel layer reaches, so the window
      ledgers and the output order hold of it. */
  lemma SessionChannelsReachable(p: Provider, d: Codec, rekey: Rekey, postQuantum: bool, conn: Conn, socket: seq<bytes>,
                                 turns: seq<Turn>)
    requires conn.Valid() && RunSession(p, d, Begin(rekey, postQuantum, conn, socket), turns).Some?
    ensures var h := RunSession(p, d, Begin(rekey, postQuantum, conn, socket), turns).value;
            exists books :: ChannelRuns.Reachable(h.session.table, books, h.events)
  {
    hide RunSession;
    assert ChannelRuns.Reachable(Channels.EMPTY, map[], []);
    RunIsChannelRun(p, d, Begin(rekey, postQuantum, conn, socket), map[], turns);
  }

  // The reader is only ever asked for the next packet

  /** The session with another reader and another stream. */
  function With(s: Session, read: Reader, socket: seq<bytes>): Session {
    s.(conn := s.conn.(read := read), socket := socket)
  }

  function OutcomeWith(o: StepOutcome, read: Reader, socket: seq<bytes>): StepOutcome {
    if o.Next? then o.(session := With(o.session, read, socket)) else o
  }

  lemma SayWith(p: Provider, s: Session, payloads: seq<bytes>, event: Option<ChannelRuns.Event>, turn: Turn,
                read: Reader, socket: seq<bytes>)
    requires s.conn.Valid() && read.Valid() && !turn.Interrupted?
    ensures Say(p, With(s, read, socket), payloads, event, turn)
            == OutcomeWith(Say(p, s, payloads, event, turn), read, socket)
  {
    hide SendAll, SendOps, FlushAll, FlushOps;
  }

  lemma ChannelsWith(p: Provider, d: Codec, s: Session, ev: ChannelRuns.Event, turn: Turn, read: Reader,
                     socket: seq<bytes>)
    requires s.conn.Valid() && read.Valid() && !turn.Interrupted?
    ensures OnChannels(p, d, With(s, read, socket), ev, turn)
            == OutcomeWith(OnChannels(p, d, s, ev, turn), read, socket)
  {
    hide Say, ChannelRuns.Step;
    var r := ChannelRuns.Step(s.table, ev);
    if r.Ok? {
      SayWith(p, s.(table := r.value.0), Payloads(d, r.value.1), Some(ev), turn, read, socket);
      assert With(s, read, socket).(table := r.value.0) == With(s.(table := r.value.0), read, socket);
    }
  }

  /** Two sessions that differ only in how far the stream has been read, and receive alike. */
  predicate Alike(a: Aead, s: Session, t: Session)
    requires s.conn.Valid() && t.conn.Valid()
  {
    && t == With(s, t.conn.read, t.socket)
    && Receive(a, s.conn.read, s.socket) == Receive(a, t.conn.read, t.socket)
  }

  lemma ArrivalAlike(p: Provider, d: Codec, s: Session, t: Session, turn: Turn)
    requires s.conn.Valid() && t.conn.Valid() && Alike(p.aead, s, t) && turn.Arrival?
    ensures Take(p, d, s, turn) == Take(p, d, t, turn)
  {
    hide Receive, OnPacket;
    var (got, read, rest) := Receive(p.aead, s.conn.read, s.socket);
    assert With(s, read, rest) == With(t, read, rest);
  }

  lemma TerminalsAlike(p: Provider, d: Codec, s: Session, t: Session, turn: Turn)
    requires s.conn.Valid() && t.conn.Valid() && Alike(p.aead, s, t) && turn.Terminals? && !s.kx.InProgress()
    ensures Take(p, d, t, turn) == OutcomeWith(Take(p, d, s, turn), t.conn.read, t.socket)
    ensures Take(p, d, s, turn).Next? ==>
              Take(p, d, s, turn).session.conn.read == s.conn.read && Take(p, d, s, turn).session.socket == s.socket
  {
    hide Receive, OnChannels;
    ChannelsWith(p, d, s, ChannelRuns.DoPoll(turn.answers), turn, t.conn.read, t.socket);
    ChannelsWith(p, d, s, ChannelRuns.DoPoll(turn.answers), turn, s.conn.read, s.socket);
    assert With(s, s.conn.read, s.socket) == s;
  }

  lemma InterruptAlike(a: Aead, s: Session, fed: bool)
    requires s.conn.Valid() && Enabled(a, s, Interrupted(fed))
    ensures Interrupt(s, fed).session.conn.Valid() && Alike(a, s, Interrupt(s, fed).session)
  {
    hide Receive, Poll, NeedsMore;
    if fed {
      ReceiveReads(a, s.conn.read, s.socket);
    } else {
      CompactReceives(a, s.conn.read, s.socket);
      assert Feed(Compact(s.conn.read), []) == Compact(s.conn.read);
    }
  }

  function Uninterrupted(turns: seq<Turn>): seq<Turn> {
    if turns == [] then []
    else (if turns[0].Interrupted? then [] else [turns[0]]) + Uninterrupted(turns[1..])
  }

  /** The histories agree but for how far the stream has been read. */
  ghost predicate SameStory(a: Aead, h: History, g: History) {
    h.session.conn.Valid() && g.session.conn.Valid() && g == h.(session := g.session) && Alike(a, h.session, g.session)
  }

  /** Giving up a receive is harmless: the run without the interruptions exists too, and tells the
      same story. */
  lemma {:induction false} CancelSafety(p: Provider, d: Codec, h: History, g: History, turns: seq<Turn>)
    requires SameStory(p.aead, h, g) && RunSession(p, d, h, turns).Some?
    ensures var plain := RunSession(p, d, g, Uninterrupted(turns));
            plain.Some? && SameStory(p.aead, RunSession(p, d, h, turns).value, plain.value)
    decreases |turns|
  {
    hide Take, Receive, Poll, NeedsMore;
    if turns != [] {
      var turn, rest := turns[0], Uninterrupted(turns[1..]);
      var o := Take(p, d, h.session, turn);
      TakeValid(p, d, h.session, turn);
      RunTurn(p, d, h, turns, 0);
      assert turns[0..] == turns;
      if turn.Interrupted? {
        InterruptTakes(p, d, h, turn);
        assert Uninterrupted(turns) == [] + rest == rest;
        CancelSafety(p, d, Recorded(h, o), g, turns[1..]);
      } else {
        assert Uninterrupted(turns) == [turn] + rest;
        assert ([turn] + rest)[1..] == rest;
        TakeSame(p, d, h, g, turn);
        CancelSafety(p, d, Recorded(h, o), Recorded(g, Take(p, d, g.session, turn)), turns[1..]);
      }
    }
  }

  lemma InterruptTakes(p: Provider, d: Codec, h: History, turn: Turn)
    requires h.session.conn.Valid() && turn.Interrupted? && Enabled(p.aead, h.session, turn)
    ensures var o := Take(p, d, h.session, turn);
            && o.Next? && o.session.conn.Valid() && Alike(p.aead, h.session, o.session)
            && Recorded(h, o) == h.(session := o.session)
  {
    hide Receive, Poll, NeedsMore;
    InterruptAlike(p.aead, h.session, turn.fed);
    assert h.ops + [] == h.ops && h.wire + [] == h.wire;
  }

  lemma TakeSame(p: Provider, d: Codec, h: History, g: History, turn: Turn)
    requires SameStory(p.aead, h, g) && !turn.Interrupted? && Enabled(p.aead, h.session, turn)
    requires Take(p, d, h.session, turn).Next?
    ensures Enabled(p.aead, g.session, turn) && Take(p, d, g.session, turn).Next?
    ensures SameStory(p.aead, Recorded(h, Take(p, d, h.session, turn)), Recorded(g, Take(p, d, g.session, turn)))
  {
    hide Take, Receive;
    TakeValid(p, d, h.session, turn);
    if turn.Arrival? {
      ArrivalAlike(p, d, h.session, g.session, turn);
    } else {
      TerminalsAlike(p, d, h.session, g.session, turn);
    }
  }

  /** Two histories whose readers differ at most in whether the last packet has been dropped. */
  ghost predicate Twins(h: History, g: History) {
    && h.session.conn.Valid() && g.session.conn.Valid()
    && g == h.(session := With(h.session, g.session.conn.read, h.session.socket))
    && Compact(g.session.conn.read) == Compact(h.session.conn.read)
  }

  lemma TwinsTake(p: Provider, d: Codec, h: History, g: History, turn: Turn)
    requires Twins(h, g)
    ensures Enabled(p.aead, h.session, turn) <==> Enabled(p.aead, g.session, turn)
    ensures Enabled(p.aead, h.session, turn) ==>
              var o, q := Take(p, d, h.session, turn), Take(p, d, g.session, turn);
              (o.Next? <==> q.Next?) && (o.Next? ==> Twins(Recorded(h, o), Recorded(g, q)))
  {
    hide Take, Receive, Poll, NeedsMore;
    CompactReceives(p.aead, h.session.conn.read, h.session.socket);
    CompactReceives(p.aead, g.session.conn.read, h.session.socket);
    assert Alike(p.aead, h.session, g.session);
    if Enabled(p.aead, h.session, turn) {
      TakeValid(p, d, h.session, turn);
      TakeValid(p, d, g.session, turn);
      match turn
      case Arrival(_, _, _) => ArrivalAlike(p, d, h.session, g.session, turn);
      case Interrupted(fed) => TwinsInterrupt(p, d, h.session, g.session, turn);
      case Terminals(_, _, _) => TerminalsAlike(p, d, h.session, g.session, turn);
    }
  }

  lemma TwinsInterrupt(p: Provider, d: Codec, s: Session, t: Session, turn: Turn)
    requires s.conn.Valid() && t.conn.Valid() && turn.Interrupted? && t == With(s, t.conn.read, s.socket)
    requires Enabled(p.aead, s, turn) && Enabled(p.aead, t, turn) && Compact(t.conn.read) == Compact(s.conn.read)
    ensures Take(p, d, s, turn) == Take(p, d, t, turn)
  {
    hide Poll, NeedsMore;
  }

  /** Dropping the bytes of the last packet before the session starts makes no difference: for all
      turns both sessions end, or both go on having done and seen the same. */
  lemma {:induction false} CompactionIsInvisible(p: Provider, d: Codec, h: History, g: History, turns: seq<Turn>)
    requires Twins(h, g)
    ensures var x, y := RunSession(p, d, h, turns), RunSession(p, d, g, turns);
            (x.Some? <==> y.Some?) && (x.Some? ==> Twins(x.value, y.value))
    decreases |turns|
  {
    hide Take, Twins, Enabled;
    TwinsValid(h, g);
    if turns != [] {
      assert turns[0..] == turns;
      RunTurn(p, d, h, turns, 0);
      RunTurn(p, d, g, turns, 0);
      TwinsTake(p, d, h, g, turns[0]);
      if Enabled(p.aead, h.session, turns[0]) && Take(p, d, h.session, turns[0]).Next? {
        CompactionIsInvisible(p, d, Recorded(h, Take(p, d, h.session, turns[0])),
                              Recorded(g, Take(p, d, g.session, turns[0])), turns[1..]);
      }
    }
  }

  lemma TwinsValid(h: History, g: History)
    requires Twins(h, g)
    ensures h.session.conn.Valid() && g.session.conn.Valid()
  {
  }
}
