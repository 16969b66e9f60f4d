/** The keys of a session: what its turns do to the reader, that every key they install, in either
    direction, has not been used before, and that every packet they act on was opened. */
module SessionKeys {
  import opened Bytes
  import opened Transport
  import opened Delivery
  import opened TwoParty
  import opened Connections
  import opened KeyExchange
  import opened Nonces
  import opened Receipts
  import opened SessionLoop
  import Gcm
  import Crypto
  import Channels
  import ChannelRuns

  /** A finished rekey installs its opener. */
  function RekeyTakes(p: Provider, s: Session, packet: Packet, e: Entropy): seq<ReadOp>
    requires s.conn.Valid()
  {
    match HandleRekey(p, s.kx, packet, e, s.conn.write).2
    case Ok(Some(rekeyed)) => [Installs(KeySwitch(rekeyed.update.opener, rekeyed.update.strict))]
    case _ => []
  }

  function PacketTakes(p: Provider, s: Session, packet: Packet, e: Entropy): seq<ReadOp>
    requires s.conn.Valid()
  {
    if packet.kind == IGNORE || packet.kind == DEBUG || packet.kind == DISCONNECT then []
    else if packet.kind == KEXINIT || s.kx.InProgress() then RekeyTakes(p, s, packet, e)
    else []
  }

  /** What a turn does to the reader. */
  function TurnTakes(p: Provider, s: Session, turn: Turn): seq<ReadOp>
    requires s.conn.Valid() && Enabled(p.aead, s, turn)
  {
    match turn
    case Interrupted(fed) => [Buffers(if fed then s.socket[0] else [])]
    case Terminals(_, _, _) => []
    case Arrival(e, _, _) =>
      var (got, read, rest) := Receive(p.aead, s.conn.read, s.socket);
      [Receives(s.socket)]
      + if got.Got? then PacketTakes(p, s.(conn := s.conn.(read := read), socket := rest), got.packet, e) else []
  }

  /** `takes` lead from one reader to the other, all packets are opened under the key then installed,
      and all keys installed are fresh. */
  ghost predicate Advances(a: Aead, r: Reader, takes: seq<ReadOp>, after: Reader, ops: seq<Op>)
    requires r.Valid()
  {
    RunReader(a, r, takes) == after && AllOpened(a, r, takes) && FreshInstalls(takes) && FreshSwitches(ops)
  }

  lemma UpdateIsFresh(packet: Packet, keys: Crypto.KeySourceSet, strict: bool)
    requires FinishStep(packet, keys, strict).Ok?
    ensures var update := FinishStep(packet, keys, strict).value;
            FreshKey(update.opener) && FreshKey(update.sealer)
  {
    hide Gcm.New, Gcm.Tracks;
    Gcm.NewSucceedsIff(0, keys.clientToServer);
    Gcm.NewSucceedsIff(0, keys.serverToClient);
  }

  lemma RekeyIsFresh(p: Provider, st: RekeyState, packet: Packet, e: Entropy, w: Writer)
    requires w.Valid()
    ensures var r := HandleRekey(p, st, packet, e, w).2;
            r.Ok? && r.value.Some? ==> FreshKey(r.value.value.update.opener) && FreshKey(r.value.value.update.sealer)
  {
    hide Start, EcdhStep, FinishStep, Encode, FreshKey;
    if st.Answered? && FinishStep(packet, st.keys, st.rekey.strict).Ok? {
      UpdateIsFresh(packet, st.keys, st.rekey.strict);
    }
  }

  lemma RekeyOpsSend(p: Provider, st: RekeyState, packet: Packet, e: Entropy)
    ensures NoSwitch(RekeyOps(p, st, packet, e))
  {
    hide Start, Reply, DecodeEcdhInit;
  }

  lemma RekeyTurnAdvances(p: Provider, s: Session, packet: Packet, e: Entropy, random: nat -> Random)
    requires s.conn.Valid() && RekeyTurn(p, s, packet, e, random).Some?
    ensures var (s', ops) := RekeyTurn(p, s, packet, e, random).value;
            Advances(p.aead, s.conn.read, RekeyTakes(p, s, packet, e), s'.conn.read, ops)
  {
    hide HandleRekey, RekeyOps, Installed, FreshKey, Writes, OpenedAt;
    var (st, w, r) := HandleRekey(p, s.kx, packet, e, s.conn.write);
    RekeyIsFresh(p, s.kx, packet, e, s.conn.write);
    RekeyOpsSend(p, s.kx, packet, e);
    if r.value.Some? {
      InstalledWrites(p.aead, s.conn.(write := w), r.value.value.update, random(0));
    }
  }

  lemma FinishAdvances(a: Aead, r: Reader, takes: seq<ReadOp>, s: Session, ops: seq<Op>,
                       event: Option<ChannelRuns.Event>, taken: seq<nat>)
    requires r.Valid() && s.conn.Valid() && Advances(a, r, takes, s.conn.read, ops)
             && Finish(s, ops, event, taken).Next?
    ensures var o := Finish(s, ops, event, taken);
            Advances(a, r, takes, o.session.conn.read, o.ops)
  {
    hide RunReader, FlushAll, FlushOps, FreshKey, AllOpened;
    FlushWrites(a, s.conn.write, taken);
  }

  lemma SayAdvances(p: Provider, s: Session, payloads: seq<bytes>, event: Option<ChannelRuns.Event>, turn: Turn)
    requires s.conn.Valid() && !turn.Interrupted? && Say(p, s, payloads, event, turn).Next?
    ensures var o := Say(p, s, payloads, event, turn);
            Advances(p.aead, s.conn.read, [], o.session.conn.read, o.ops)
  {
    hide Finish, SendAll;
    var w := SendAll(p.aead, s.conn.write, payloads, turn.random).value;
    FinishAdvances(p.aead, s.conn.read, [], s.(conn := s.conn.(write := w)), SendOps(payloads, turn.random), event,
                   turn.taken);
  }

  lemma ChannelsAdvance(p: Provider, d: Codec, s: Session, ev: ChannelRuns.Event, turn: Turn)
    requires s.conn.Valid() && !turn.Interrupted? && OnChannels(p, d, s, ev, turn).Next?
    ensures var o := OnChannels(p, d, s, ev, turn);
            Advances(p.aead, s.conn.read, [], o.session.conn.read, o.ops)
  {
    hide Advances, Say, ChannelRuns.Step;
    var (t, outs) := ChannelRuns.Step(s.table, ev).value;
    SayAdvances(p, s.(table := t), Payloads(d, outs), Some(ev), turn);
  }

  lemma PacketAdvances(p: Provider, d: Codec, s: Session, packet: Packet, turn: Turn)
    requires s.conn.Valid() && turn.Arrival? && OnPacket(p, d, s, packet, turn).Next?
    ensures var o := OnPacket(p, d, s, packet, turn);
            Advances(p.aead, s.conn.read, PacketTakes(p, s, packet, turn.entropy), o.session.conn.read, o.ops)
  {
    hide Advances, RekeyTurn, RekeyTakes, Finish, Say, ChannelRuns.Step;
    NothingAdvances(p.aead, s.conn.read);
    var kind := packet.kind;
    if kind == IGNORE || kind == DEBUG {
    } else if kind == KEXINIT || s.kx.InProgress() {
      RekeyTurnAdvances(p, s, packet, turn.entropy, turn.random);
      var (s', ops) := RekeyTurn(p, s, packet, turn.entropy, turn.random).value;
      FinishAdvances(p.aead, s.conn.read, RekeyTakes(p, s, packet, turn.entropy), s', ops, None, turn.taken);
    } else if kind == GLOBAL_REQUEST {
      if d.wantReply(packet).value {
        SayAdvances(p, s, [[REQUEST_FAILURE]], None, turn);
      }
    } else if kind != REQUEST_SUCCESS && kind != REQUEST_FAILURE {
      ChannelsAdvance(p, d, s, WithBanner(d.message(packet).value, s.postQuantum, d.banner(packet)), turn);
    }
  }

  lemma NothingAdvances(a: Aead, r: Reader)
    requires r.Valid()
    ensures Advances(a, r, [], r, [])
  {
  }

  lemma ReceiveAdvances(a: Aead, r: Reader, socket: seq<bytes>, takes: seq<ReadOp>, after: Reader, ops: seq<Op>)
    requires r.Valid() && Receive(a, r, socket).0.Got? && Advances(a, Receive(a, r, socket).1, takes, after, ops)
    ensures Advances(a, r, [Receives(socket)] + takes, after, ops)
  {
    hide Receive, FreshKey, AllOpened, Taken;
    var first := [Receives(socket)];
    assert first[1..] == [] && (first + takes)[1..] == takes;
    assert RunReader(a, Receive(a, r, socket).1, []) == Receive(a, r, socket).1;
    OpenedOne(a, r, socket);
    OpenedThen(a, r, first, takes);
  }

  lemma TakeAdvances(p: Provider, d: Codec, s: Session, turn: Turn)
    requires s.conn.Valid() && Enabled(p.aead, s, turn) && Take(p, d, s, turn).Next?
    ensures var o := Take(p, d, s, turn);
            Advances(p.aead, s.conn.read, TurnTakes(p, s, turn), o.session.conn.read, o.ops)
  {
    hide Receive, OnPacket, OnChannels, PacketTakes, Poll, NeedsMore, Advances;
    match turn
    case Interrupted(fed) => InterruptAdvances(p.aead, s, fed);
    case Arrival(e, _, _) =>
      var (got, read, rest) := Receive(p.aead, s.conn.read, s.socket);
      var t := s.(conn := s.conn.(read := read), socket := rest);
      PacketAdvances(p, d, t, got.packet, turn);
      var o := OnPacket(p, d, t, got.packet, turn);
      ReceiveAdvances(p.aead, s.conn.read, s.socket, PacketTakes(p, t, got.packet, e), o.session.conn.read, o.ops);
    case Terminals(a, _, _) => ChannelsAdvance(p, d, s, ChannelRuns.DoPoll(a), turn);
  }

  lemma InterruptAdvances(a: Aead, s: Session, fed: bool)
    requires s.conn.Valid() && (fed ==> s.socket != [])
    ensures var piece := if fed then s.socket[0] else [];
            Advances(a, s.conn.read, [Buffers(piece)], Interrupt(s, fed).session.conn.read, [])
  {
    var piece := if fed then s.socket[0] else [];
    assert [Buffers(piece)][1..] == [];
    OpenedNone(a, s.conn.read, Buffers(piece));
  }

  /** What a run does to the reader. */
  ghost function SessionTakes(p: Provider, d: Codec, h: History, turns: seq<Turn>): seq<ReadOp>
    requires h.session.conn.Valid() && RunSession(p, d, h, turns).Some?
    decreases |turns|
  {
    if turns == [] then [] else
    TakeValid(p, d, h.session, turns[0]);
    TurnTakes(p, h.session, turns[0]) + SessionTakes(p, d, Recorded(h, Take(p, d, h.session, turns[0])), turns[1..])
  }

  lemma AdvancesThen(a: Aead, r: Reader, x: seq<ReadOp>, mid: Reader, y: seq<ReadOp>, after: Reader, ops: seq<Op>,
                     more: seq<Op>)
    requires r.Valid() && mid.Valid() && Advances(a, r, x, mid, ops) && Advances(a, mid, y, after, more)
    ensures Advances(a, r, x + y, after, ops + more)
  {
    hide RunReader, FreshKey, AllOpened;
    RunReaderAppend(a, r, x, y);
    OpenedThen(a, r, x, y);
  }

  /** On every run, the reader goes through exactly these operations; every packet received under a key
      is the opening of one call of the cipher under it, on the next bytes to be read; and every key
      installed on the way, in either direction, is fresh. */
  lemma {:induction false} SessionAdvances(p: Provider, d: Codec, h: History, turns: seq<Turn>)
    requires h.session.conn.Valid() && FreshSwitches(h.ops) && RunSession(p, d, h, turns).Some?
    ensures var g := RunSession(p, d, h, turns).value;
            Advances(p.aead, h.session.conn.read, SessionTakes(p, d, h, turns), g.session.conn.read, g.ops)
    decreases |turns|
  {
    hide Take, TurnTakes, RunReader, FreshKey, AllOpened;
    if turns == [] {
      NothingAdvances(p.aead, h.session.conn.read);
    } else {
      var o := Take(p, d, h.session, turns[0]);
      TakeValid(p, d, h.session, turns[0]);
      TakeAdvances(p, d, h.session, turns[0]);
      SessionAdvances(p, d, Recorded(h, o), turns[1..]);
      var rest := SessionTakes(p, d, Recorded(h, o), turns[1..]);
      var g := RunSession(p, d, h, turns).value;
      AdvancesThen(p.aead, h.session.conn.read, TurnTakes(p, h.session, turns[0]), o.session.conn.read, rest,
                   g.session.conn.read, [], g.ops);
      assert [] + g.ops == g.ops;
    }
  }

  /** The packets the turns act on. */
  function TurnPackets(p: Provider, s: Session, turn: Turn): seq<Packet>
    requires s.conn.Valid()
  {
    if !turn.Arrival? then [] else
    var got := Receive(p.aead, s.conn.read, s.socket).0;
    if got.Got? then [got.packet] else []
  }

  ghost function SessionPackets(p: Provider, d: Codec, h: History, turns: seq<Turn>): seq<Packet>
    requires h.session.conn.Valid() && RunSession(p, d, h, turns).Some?
    decreases |turns|
  {
    if turns == [] then [] else
    TakeValid(p, d, h.session, turns[0]);
    TurnPackets(p, h.session, turns[0]) + SessionPackets(p, d, Recorded(h, Take(p, d, h.session, turns[0])), turns[1..])
  }

  lemma TurnTaken(p: Provider, s: Session, turn: Turn)
    requires s.conn.Valid() && Enabled(p.aead, s, turn)
    ensures Taken(p.aead, s.conn.read, TurnTakes(p, s, turn)) == TurnPackets(p, s, turn)
  {
    hide Receive, HandleRekey, Poll, NeedsMore, AllOpened;
    match turn
    case Interrupted(fed) => OpenedNone(p.aead, s.conn.read, Buffers(if fed then s.socket[0] else []));
    case Terminals(_, _, _) =>
    case Arrival(e, _, _) =>
      var (got, read, rest) := Receive(p.aead, s.conn.read, s.socket);
      var more := if got.Got? then PacketTakes(p, s.(conn := s.conn.(read := read), socket := rest), got.packet, e)
                  else [];
      assert ([Receives(s.socket)] + more)[1..] == more;
      if more != [] {
        assert more == [more[0]];
        OpenedNone(p.aead, read, more[0]);
      }
  }

  /** These are exactly the packets received, so every one that came in under a key was opened. */
  lemma {:induction false} SessionTaken(p: Provider, d: Codec, h: History, turns: seq<Turn>)
    requires h.session.conn.Valid() && RunSession(p, d, h, turns).Some?
    ensures Taken(p.aead, h.session.conn.read, SessionTakes(p, d, h, turns)) == SessionPackets(p, d, h, turns)
    decreases |turns|
  {
    hide Take, TurnTakes, TurnPackets, RunReader, Taken, AllOpened, FreshInstalls, FreshSwitches;
    if turns == [] {
      assert Taken(p.aead, h.session.conn.read, []) == [] by { TakenNothing(p.aead, h.session.conn.read); }
    } else {
      var o := Take(p, d, h.session, turns[0]);
      TakeValid(p, d, h.session, turns[0]);
      TakeAdvances(p, d, h.session, turns[0]);
      TurnTaken(p, h.session, turns[0]);
      SessionTaken(p, d, Recorded(h, o), turns[1..]);
      TakenThen(p.aead, h.session.conn.read, TurnTakes(p, h.session, turns[0]),
                SessionTakes(p, d, Recorded(h, o), turns[1..]));
    }
  }

  lemma TakenNothing(a: Aead, r: Reader)
    requires r.Valid()
    ensures Taken(a, r, []) == []
  {
  }
}
