/** What a session says to each packet and each report of its terminals, message numbers included. */
module SessionReplies {
  import opened Bytes
  import opened Transport
  import opened Delivery
  import opened TwoParty
  import opened Connections
  import opened KeyExchange
  import opened KeyExchangeRuns
  import opened SessionLoop
  import Gcm
  import Channels
  import ChannelRuns

  /** The message numbers of section 9 of RFC 4254. */
  function Number(out: Channels.Out): byte {
    if out.Refused? then 92
    else if out.message == Channels.Confirmation then 91
    else if out.message.WindowAdjust? then 93
    else if out.message.Data? then 94
    else if out.message == Channels.Eof then 96
    else if out.message == Channels.Close then 97
    else if out.message.ExitStatus? then 98
    else if out.message == Channels.Success then 99
    else 100
  }

  /** Each message is written as its number and its fields. */
  predicate Rendered(d: Codec, outs: seq<Channels.Out>, payloads: seq<bytes>) {
    && |payloads| == |outs|
    && forall i :: 0 <= i < |outs| ==> payloads[i] == [Number(outs[i])] + d.fields(outs[i])
  }

  lemma PayloadsRendered(d: Codec, outs: seq<Channels.Out>)
    ensures Rendered(d, outs, Payloads(d, outs))
  {
  }

  /** The channel event of a packet: a request for a terminal brings a banner unless the keys are
      post-quantum. */
  ghost predicate Means(d: Codec, packet: Packet, postQuantum: bool, ev: ChannelRuns.Event) {
    d.message(packet).Some? &&
    var m := d.message(packet).value;
    if !m.DoRequest? then ev == m
    else ev == m.(banner := if m.kind == Channels.PtyReq && !postQuantum then Some(d.banner(packet)) else None)
  }

  /** All of it can be sent and flushed. */
  predicate Speakable(a: Aead, w: Writer, payloads: seq<bytes>, turn: Turn)
    requires w.Valid() && !turn.Interrupted?
  {
    var r := SendAll(a, w, payloads, turn.random);
    r.Some? && FlushAll(r.value, turn.taken).Some?
  }

  lemma SaySays(p: Provider, s: Session, payloads: seq<bytes>, event: Option<ChannelRuns.Event>, turn: Turn)
    requires s.conn.Valid() && !turn.Interrupted?
    ensures var o := Say(p, s, payloads, event, turn);
            && !o.Disconnected? && (o.Next? <==> Speakable(p.aead, s.conn.write, payloads, turn))
            && (o.Next? ==> Sends(o.ops) == payloads && o.event == event
                            && o.session == s.(conn := s.conn.(write := o.session.conn.write)))
  {
    hide SendAll, FlushAll, FlushOps, Sends, Writes;
    var r := SendAll(p.aead, s.conn.write, payloads, turn.random);
    if r.Some? && FlushAll(r.value, turn.taken).Some? {
      FlushWrites(p.aead, r.value, turn.taken);
      FlushesSendNothing(FlushOps(r.value, turn.taken));
      SentPayloads(payloads, turn.random);
      SendsThen(SendOps(payloads, turn.random), FlushOps(r.value, turn.taken));
      assert payloads + [] == payloads;
    }
  }

  /** A channel event is answered with what the channel layer says, and nothing else changes. */
  ghost predicate Reacts(p: Provider, d: Codec, s: Session, ev: ChannelRuns.Event, turn: Turn, o: StepOutcome)
    requires s.conn.Valid() && !turn.Interrupted?
  {
    var r := ChannelRuns.Step(s.table, ev);
    && !o.Disconnected?
    && (o.Next? <==> r.Ok? && Speakable(p.aead, s.conn.write, Payloads(d, r.value.1), turn))
    && (o.Next? ==> Rendered(d, r.value.1, Sends(o.ops)) && o.event == Some(ev)
                    && o.session == s.(table := r.value.0, conn := s.conn.(write := o.session.conn.write)))
  }

  lemma ChannelsReact(p: Provider, d: Codec, s: Session, ev: ChannelRuns.Event, turn: Turn)
    requires s.conn.Valid() && !turn.Interrupted?
    ensures Reacts(p, d, s, ev, turn, OnChannels(p, d, s, ev, turn))
  {
    hide ChannelRuns.Step, Say, Speakable, Sends, Payloads, Rendered;
    var r := ChannelRuns.Step(s.table, ev);
    if r.Ok? {
      PayloadsRendered(d, r.value.1);
      SaySays(p, s.(table := r.value.0), Payloads(d, r.value.1), Some(ev), turn);
    }
  }

  /** Nothing is said and nothing changes. */
  ghost predicate Passes(s: Session, o: StepOutcome) {
    o.Next? && o.session == s && Sends(o.ops) == [] && o.event.None?
  }

  /** What a session that is not rekeying does with a packet: IGNORE and DEBUG pass, DISCONNECT ends it,
      KEXINIT starts a rekey, a global request is refused if an answer is wanted, answers to requests we do
      not make pass, and everything else goes to the channels or ends it. */
  ghost predicate Handles(p: Provider, d: Codec, s: Session, packet: Packet, turn: Turn, o: StepOutcome)
    requires s.conn.Valid() && turn.Arrival?
  {
    if packet.kind == 2 || packet.kind == 4 then Passes(s, o)
    else if packet.kind == 1 then o.Disconnected?
    else if packet.kind == 20 then o == OnRekey(p, s, packet, turn)
    else if packet.kind == 80 then
      var reply := d.wantReply(packet);
      && !o.Disconnected?
      && (reply == Some(false) ==> Passes(s, o))
      && (o.Next? <==> reply == Some(false)
                       || (reply == Some(true) && Speakable(p.aead, s.conn.write, [[82]], turn)))
      && (o.Next? && reply == Some(true) ==>
            Sends(o.ops) == [[82]] && o.event.None?
            && o.session == s.(conn := s.conn.(write := o.session.conn.write)))
    else if packet.kind == 81 || packet.kind == 82 then Passes(s, o)
    else if d.message(packet).None? || d.message(packet).value.DoPoll? then o.Failed?
    else exists ev :: Means(d, packet, s.postQuantum, ev) && Reacts(p, d, s, ev, turn, o)
  }

  lemma PacketHandled(p: Provider, d: Codec, s: Session, packet: Packet, turn: Turn)
    requires s.conn.Valid() && turn.Arrival? && !s.kx.InProgress()
    ensures Handles(p, d, s, packet, turn, OnPacket(p, d, s, packet, turn))
  {
    hide OnRekey, Say, Speakable, Reacts, OnChannels, Sends;
    NothingSent();
    var kind := packet.kind;
    if kind == GLOBAL_REQUEST {
      SaySays(p, s, [[REQUEST_FAILURE]], None, turn);
    } else if d.message(packet).Some? && !d.message(packet).value.DoPoll? {
      var ev := WithBanner(d.message(packet).value, s.postQuantum, d.banner(packet));
      assert Means(d, packet, s.postQuantum, ev);
      ChannelsReact(p, d, s, ev, turn);
    }
  }

  lemma NothingSent()
    ensures Sends([]) == []
  {
  }

  /** In a rekey the same packets pass or end the session, and all others go to the rekey machine. */
  ghost predicate HandlesInRekey(p: Provider, s: Session, packet: Packet, turn: Turn, o: StepOutcome)
    requires s.conn.Valid() && turn.Arrival?
  {
    if packet.kind == 2 || packet.kind == 4 then Passes(s, o)
    else if packet.kind == 1 then o.Disconnected?
    else o == OnRekey(p, s, packet, turn)
  }

  lemma PacketInRekey(p: Provider, d: Codec, s: Session, packet: Packet, turn: Turn)
    requires s.conn.Valid() && turn.Arrival? && s.kx.InProgress()
    ensures HandlesInRekey(p, s, packet, turn, OnPacket(p, d, s, packet, turn))
  {
    hide OnRekey;
  }

  /** The keys of a rekey are in use from here on, in both directions; strict numbers start again. */
  predicate InUse(update: KeyUpdate, before: Conn, after: Conn) {
    && after.read.opener == Some(update.opener) && after.write.sealer == Some(update.sealer)
    && after.read.buf == before.read.buf && after.read.lastLength == before.read.lastLength
    && after.read.sequenceNumber == (if update.strict then 0 else before.read.sequenceNumber)
    && after.write.sequenceNumber
       == if update.strict then 0 else (before.write.sequenceNumber + 1) % 0x1_0000_0000
  }

  /** A rekey that goes through puts the keys it agreed on in use; any other step of it changes nothing but
      the machine and what is written. */
  lemma RekeyPutsKeysInUse(p: Provider, s: Session, packet: Packet, turn: Turn)
    requires s.conn.Valid() && turn.Arrival? && OnRekey(p, s, packet, turn).Next?
    ensures var t := OnRekey(p, s, packet, turn).session;
            && t.table == s.table && t.socket == s.socket
            && (!s.kx.Answered? ==> t.postQuantum == s.postQuantum && t.conn.read == s.conn.read)
            && (s.kx.Answered? ==>
                  && t.kx == Idle(s.kx.rekey) && t.postQuantum == s.kx.postQuantum
                  && exists update :: UpdatesTo(update, s.kx.keys, s.kx.rekey.strict) && InUse(update, s.conn, t.conn))
  {
    hide HandleRekey, Installed, FlushAll, FlushOps, RekeyOps, UpdatesTo, Writes, RunReader;
    var (st, w, r) := HandleRekey(p, s.kx, packet, turn.entropy, s.conn.write);
    MachineFinishes(p, s.kx, packet, turn.entropy, s.conn.write);
    if s.kx.Answered? {
      var update := r.value.value.update;
      InstalledInUse(p.aead, s.conn, update, turn.random(0));
      assert InUse(update, s.conn, OnRekey(p, s, packet, turn).session.conn);
    }
  }

  lemma MachineFinishes(p: Provider, st: RekeyState, packet: Packet, e: Entropy, w: Writer)
    requires w.Valid()
    ensures var (next, after, r) := HandleRekey(p, st, packet, e, w);
            && (r.Ok? ==> (r.value.Some? <==> st.Answered?))
            && (r.Ok? && st.Answered? ==> next == Idle(st.rekey) && after == w
                                          && UpdatesTo(r.value.value.update, st.keys, st.rekey.strict)
                                          && r.value.value.postQuantum == st.postQuantum)
  {
    hide Start, EcdhStep, Encode, Gcm.New;
  }

  lemma InstalledInUse(a: Aead, c: Conn, update: KeyUpdate, random: Random)
    requires c.Valid() && Installed(a, c, update, random).Some?
    ensures InUse(update, c, Installed(a, c, update, random).value)
  {
    hide Frame;
  }

  /** A turn, in any state: the next packet is handled, the terminals report, or nothing is said. */
  ghost predicate Answered(p: Provider, d: Codec, s: Session, turn: Turn, o: StepOutcome)
    requires s.conn.Valid()
  {
    match turn
    case Interrupted(_) => o.Next? && Sends(o.ops) == [] && o.session.table == s.table
    case Terminals(a, _, _) => Reacts(p, d, s, ChannelRuns.DoPoll(a), turn, o)
    case Arrival(_, _, _) =>
      var (got, read, rest) := Receive(p.aead, s.conn.read, s.socket);
      var now := s.(conn := s.conn.(read := read), socket := rest);
      if !got.Got? then o.Failed?
      else if s.kx.InProgress() then HandlesInRekey(p, now, got.packet, turn, o)
      else Handles(p, d, now, got.packet, turn, o)
  }

  lemma TurnAnswered(p: Provider, d: Codec, s: Session, turn: Turn)
    requires s.conn.Valid() && Enabled(p.aead, s, turn)
    ensures Answered(p, d, s, turn, Take(p, d, s, turn))
  {
    hide Receive, OnPacket, OnChannels, Handles, HandlesInRekey, Reacts, Poll, NeedsMore;
    match turn
    case Interrupted(_) =>
    case Terminals(a, _, _) => ChannelsReact(p, d, s, ChannelRuns.DoPoll(a), turn);
    case Arrival(_, _, _) =>
      var (got, read, rest) := Receive(p.aead, s.conn.read, s.socket);
      var now := s.(conn := s.conn.(read := read), socket := rest);
      if got.Got? && s.kx.InProgress() {
        PacketInRekey(p, d, now, got.packet, turn);
      } else if got.Got? {
        PacketHandled(p, d, now, got.packet, turn);
      }
  }

  /** The session after the first `n` turns. */
  ghost function After(p: Provider, d: Codec, h: History, turns: seq<Turn>, n: nat): Option<History>
    requires h.session.conn.Valid() && n <= |turns|
  {
    RunSession(p, d, h, turns[..n])
  }

  lemma {:induction false} RunSplits(p: Provider, d: Codec, h: History, turns: seq<Turn>, n: nat)
    requires h.session.conn.Valid() && n <= |turns| && RunSession(p, d, h, turns).Some?
    ensures After(p, d, h, turns, n).Some?
    ensures RunSession(p, d, After(p, d, h, turns, n).value, turns[n..]) == RunSession(p, d, h, turns)
    decreases n
  {
    hide Take, Enabled, RunSession, Recorded;
    if n == 0 {
      assert turns[..0] == [] && turns[0..] == turns;
      RunEnded(p, d, h);
    } else {
      assert turns[0..] == turns && turns[..n][0..] == turns[..n] && turns[..n][0] == turns[0];
      assert turns[..n][1..] == turns[1..][..n - 1] && turns[1..][n - 1..] == turns[n..];
      RunTurn(p, d, h, turns, 0);
      RunTurn(p, d, h, turns[..n], 0);
      var next := Recorded(h, Take(p, d, h.session, turns[0]));
      RecordedSession(h, Take(p, d, h.session, turns[0]));
      RunSplits(p, d, next, turns[1..], n - 1);
    }
  }

  lemma RecordedSession(h: History, o: StepOutcome)
    requires o.Next?
    ensures Recorded(h, o).session == o.session
  {
  }

  /** On every run, every turn is answered so. */
  lemma RunAnswered(p: Provider, d: Codec, h: History, turns: seq<Turn>, n: nat)
    requires h.session.conn.Valid() && n < |turns| && RunSession(p, d, h, turns).Some?
    ensures var before, after := After(p, d, h, turns, n), After(p, d, h, turns, n + 1);
            && before.Some? && after.Some? && before.value.session.conn.Valid()
            && Enabled(p.aead, before.value.session, turns[n])
            && var o := Take(p, d, before.value.session, turns[n]);
               && o.Next? && after.value == Recorded(before.value, o)
               && Answered(p, d, before.value.session, turns[n], o)
  {
    hide Take, Enabled, Answered, RunSession;
    RunSplits(p, d, h, turns, n);
    RunSplits(p, d, h, turns, n + 1);
    var before := After(p, d, h, turns, n).value;
    var some := turns[..n + 1];
    assert some[..n] == turns[..n] && some[n] == turns[n] && some[n + 1..] == [];
    RunSplits(p, d, h, some, n);
    RunTurn(p, d, before, some, n);
    RunEnded(p, d, Recorded(before, Take(p, d, before.session, turns[n])));
    TurnAnswered(p, d, before.session, turns[n]);
  }
}
