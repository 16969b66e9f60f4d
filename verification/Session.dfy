/** The session loop: every turn either receives and handles one packet or lets the terminals
    report, and flushes what was written. Which of the two happens is up to the environment; the
    terminals are not polled while a rekey is in progress. */
module SessionLoop {
  import opened Bytes
  import opened Transport
  import opened Delivery
  import opened TwoParty
  import opened Connections
  import opened KeyExchange
  import opened KeyExchangeRuns
  import Named
  import Gcm
  import Crypto
  import Mpint
  import Negotiation
  import Channels
  import ChannelRuns

  /** The straight-line codecs of channel messages and global requests. */
  datatype Codec = Codec(
    message: Packet -> Option<ChannelRuns.Event>,
    wantReply: Packet -> Option<bool>,
    banner: Packet -> bytes,
    fields: Channels.Out -> bytes)

  function OutKind(out: Channels.Out): byte {
    if out.Refused? then 92 else
    match out.message
    case Confirmation => 91
    case WindowAdjust(_) => 93
    case Data(_) => 94
    case Eof => 96
    case Close => 97
    case ExitStatus(_) => 98
    case Success => 99
    case Failure => 100
  }

  function OutPayload(d: Codec, out: Channels.Out): (r: bytes)
    ensures r != [] && r[0] >= 91
  {
    [OutKind(out)] + d.fields(out)
  }

  function Payloads(d: Codec, outs: seq<Channels.Out>): (r: seq<bytes>)
    ensures |r| == |outs| && forall i :: 0 <= i < |r| ==> r[i] != [] && r[i][0] >= 91
  {
    seq(|outs|, i requires 0 <= i < |outs| => OutPayload(d, outs[i]))
  }

  /** `socket` holds what is still to be read from the stream, as its reads will return it. */
  datatype Session = Session(
    kx: RekeyState, table: Channels.Table, postQuantum: bool, conn: Conn, socket: seq<bytes>)

  /** What the environment adds to a turn: randomness for the packets written, and how many bytes
      the stream takes at each write. A receive that waits can be given up, with or without having
      read one more piece, and is taken up again later. */
  datatype Turn =
    | Arrival(entropy: Entropy, random: nat -> Random, taken: seq<nat>)
    | Interrupted(fed: bool)
    | Terminals(answers: Channels.Answers, random: nat -> Random, taken: seq<nat>)

  /** `ops` tells what was done to the writer, and `wire` the bytes the stream took. */
  datatype StepOutcome =
    | Next(session: Session, ops: seq<Op>, wire: bytes, event: Option<ChannelRuns.Event>)
    | Disconnected
    | Failed

  /** Every arm ends with a flush. */
  function Finish(s: Session, ops: seq<Op>, event: Option<ChannelRuns.Event>, taken: seq<nat>): StepOutcome
    requires s.conn.Valid()
  {
    match FlushAll(s.conn.write, taken)
    case None => StepOutcome.Failed
    case Some((wire, w)) =>
      Next(s.(conn := s.conn.(write := w)), ops + FlushOps(s.conn.write, taken), wire, event)
  }

  // Rekeying

  /** What a successful step of the rekey machine does to the writer. */
  function RekeyOps(p: Provider, st: RekeyState, packet: Packet, e: Entropy): seq<Op> {
    if e.random.NoRandom? then [] else
    match st
    case Idle(rekey) =>
      (match Start(p, packet, Greeting(rekey.ids), [rekey.hostKey.algorithm], false, e.cookie)
       case Ok(s) => [Send(s.local, e.random.noise)]
       case Err(_) => [])
    case Offered(kx, rekey) =>
      (match DecodeEcdhInit(packet)
       case Err(_) => []
       case Ok(cv) =>
         match Reply(p, kx, cv, Some(rekey.sessionId), rekey.hostKey, e.ephemeral)
         case Ok(r) => [Send(r.reply, e.random.noise)]
         case Err(_) => [])
    case _ => []
  }

  /** A rekey step, up to the flush; a finished rekey announces and installs its keys. */
  function RekeyTurn(p: Provider, s: Session, packet: Packet, e: Entropy, random: nat -> Random)
    : (r: Option<(Session, seq<Op>)>)
    requires s.conn.Valid()
    ensures r.Some? ==> r.value.0.conn.Valid()
  {
    var (st, w, result) := HandleRekey(p, s.kx, packet, e, s.conn.write);
    var ops := RekeyOps(p, s.kx, packet, e);
    var conn := s.conn.(write := w);
    match result
    case Err(_) => None
    case Ok(None) => Some((s.(kx := st, conn := conn), ops))
    case Ok(Some(rekeyed)) =>
      match Installed(p.aead, conn, rekeyed.update, random(0))
      case None => None
      case Some(installed) =>
        InstalledWrites(p.aead, conn, rekeyed.update, random(0));
        Some((s.(kx := st, postQuantum := rekeyed.postQuantum, conn := installed),
              ops + [Switch(KeySwitch(rekeyed.update.sealer, rekeyed.update.strict), random(0).noise)]))
  }

  function OnRekey(p: Provider, s: Session, packet: Packet, turn: Turn): StepOutcome
    requires s.conn.Valid() && turn.Arrival?
  {
    match RekeyTurn(p, s, packet, turn.entropy, turn.random)
    case None => StepOutcome.Failed
    case Some((s', ops)) => Finish(s', ops, None, turn.taken)
  }

  // Everything else

  /** The banner goes with a pty request when the exchange was not post-quantum. */
  function WithBanner(ev: ChannelRuns.Event, postQuantum: bool, banner: bytes): (r: ChannelRuns.Event)
    ensures ChannelRuns.Proper(r)
  {
    if ev.DoRequest? then
      ev.(banner := if !postQuantum && ev.kind.PtyReq? then Some(banner) else None)
    else ev
  }

  function Say(p: Provider, s: Session, payloads: seq<bytes>, event: Option<ChannelRuns.Event>, turn: Turn): StepOutcome
    requires s.conn.Valid() && !turn.Interrupted?
  {
    match SendAll(p.aead, s.conn.write, payloads, turn.random)
    case None => StepOutcome.Failed
    case Some(w) => Finish(s.(conn := s.conn.(write := w)), SendOps(payloads, turn.random), event, turn.taken)
  }

  ghost function OnChannels(p: Provider, d: Codec, s: Session, ev: ChannelRuns.Event, turn: Turn): StepOutcome
    requires s.conn.Valid() && !turn.Interrupted?
  {
    match ChannelRuns.Step(s.table, ev)
    case Err(_) => StepOutcome.Failed
    case Ok((t, outs)) => Say(p, s.(table := t), Payloads(d, outs), Some(ev), turn)
  }

  ghost function OnPacket(p: Provider, d: Codec, s: Session, packet: Packet, turn: Turn): StepOutcome
    requires s.conn.Valid() && turn.Arrival?
  {
    var kind := packet.kind;
    if kind == IGNORE || kind == DEBUG then Next(s, [], [], None)
    else if kind == DISCONNECT then Disconnected
    else if kind == KEXINIT || s.kx.InProgress() then OnRekey(p, s, packet, turn)
    else if kind == GLOBAL_REQUEST then
      match d.wantReply(packet)
      case None => StepOutcome.Failed
      case Some(reply) => if reply then Say(p, s, [[REQUEST_FAILURE]], None, turn) else Next(s, [], [], None)
    else if kind == REQUEST_SUCCESS || kind == REQUEST_FAILURE then Next(s, [], [], None)
    else match d.message(packet)
      case None => StepOutcome.Failed
      case Some(ev) =>
        if ev.DoPoll? then StepOutcome.Failed
        else OnChannels(p, d, s, WithBanner(ev, s.postQuantum, d.banner(packet)), turn)
  }

  /** Terminals wait for a rekey to finish; only a receive that waits can be given up, and it can have
      read something only if something was there. */
  predicate Enabled(a: Aead, s: Session, turn: Turn)
    requires s.conn.Valid()
  {
    match turn
    case Terminals(_, _, _) => !s.kx.InProgress()
    case Interrupted(fed) =>
      NeedsMore(Poll(a, s.conn.read).0) && (fed ==> s.socket != [] && s.socket[0] != [])
    case Arrival(_, _, _) => true
  }

  function Interrupt(s: Session, fed: bool): StepOutcome
    requires s.conn.Valid() && (fed ==> s.socket != [])
  {
    var piece := if fed then s.socket[0] else [];
    Next(s.(conn := s.conn.(read := Feed(Compact(s.conn.read), piece)),
            socket := if fed then s.socket[1..] else s.socket), [], [], None)
  }

  ghost function Take(p: Provider, d: Codec, s: Session, turn: Turn): StepOutcome
    requires s.conn.Valid() && Enabled(p.aead, s, turn)
  {
    match turn
    case Interrupted(fed) => Interrupt(s, fed)
    case Arrival(_, _, _) =>
      var (got, read, rest) := Receive(p.aead, s.conn.read, s.socket);
      if got.Got? then OnPacket(p, d, s.(conn := s.conn.(read := read), socket := rest), got.packet, turn)
      else StepOutcome.Failed
    case Terminals(a, _, _) => OnChannels(p, d, s, ChannelRuns.DoPoll(a), turn)
  }

  // Runs

  datatype History = History(session: Session, ops: seq<Op>, wire: bytes, events: seq<ChannelRuns.Event>)

  ghost function Recorded(h: History, o: StepOutcome): History
    requires o.Next?
  {
    History(o.session, h.ops + o.ops, h.wire + o.wire, if o.event.Some? then h.events + [o.event.value] else h.events)
  }

  lemma TakeValid(p: Provider, d: Codec, s: Session, turn: Turn)
    requires s.conn.Valid() && Enabled(p.aead, s, turn)
    ensures var o := Take(p, d, s, turn);
            o.Next? ==> o.session.conn.Valid()
  {
    hide Receive, SendAll, RekeyTurn, ChannelRuns.Step, FlushAll, Poll;
  }

  /** The session after some turns, with all that was written; `None` once it has ended, or if a
      turn was not enabled. */
  ghost function RunSession(p: Provider, d: Codec, h: History, turns: seq<Turn>): (r: Option<History>)
    requires h.session.conn.Valid()
    ensures r.Some? ==> r.value.session.conn.Valid()
    decreases |turns|
  {
    if turns == [] then Some(h)
    else if !Enabled(p.aead, h.session, turns[0]) then None
    else
      TakeValid(p, d, h.session, turns[0]);
      var o := Take(p, d, h.session, turns[0]);
      if o.Next? then RunSession(p, d, Recorded(h, o), turns[1..]) else None
  }

  /** A new session on a connection. */
  function Begin(rekey: Rekey, postQuantum: bool, conn: Conn, socket: seq<bytes>): History {
    History(Session(Idle(rekey), Channels.EMPTY, postQuantum, conn, socket), [], [], [])
  }

  // The object

  /** What a step of the rekey machine leads to, before the flush: whether it went through, the rekey
      it finished, if any, and the connection afterwards. */
  ghost predicate RekeyResult(p: Provider, st: RekeyState, c: Conn, packet: Packet, e: Entropy, random: Random,
                              after: RekeyState, d: Conn, ok: bool, finished: Option<Rekeyed>)
    requires c.Valid()
  {
    var (next, w, result) := HandleRekey(p, st, packet, e, c.write);
    && after == next
    && (result.Err? ==> !ok && finished.None?)
    && (result.Ok? && result.value.None? ==> ok && finished.None? && d == c.(write := w))
    && (result.Ok? && result.value.Some? ==>
          var r := Installed(p.aead, c.(write := w), result.value.value.update, random);
          (ok <==> r.Some?) && finished == (if ok then result.value else None) && (ok ==> d == r.value))
  }

  lemma RekeyTurnFrom(p: Provider, s: Session, packet: Packet, e: Entropy, random: nat -> Random, after: RekeyState,
                      d: Conn, ok: bool, finished: Option<Rekeyed>)
    requires s.conn.Valid() && RekeyResult(p, s.kx, s.conn, packet, e, random(0), after, d, ok, finished)
    ensures var r := RekeyTurn(p, s, packet, e, random);
            var ops := RekeyOps(p, s.kx, packet, e);
            && (ok <==> r.Some?) && (finished.Some? ==> random(0).Random?)
            && (ok && finished.None? ==> r == Some((s.(kx := after, conn := d), ops)))
            && (ok && finished.Some? ==>
                  var update := finished.value.update;
                  r == Some((s.(kx := after, conn := d, postQuantum := finished.value.postQuantum),
                             ops + [Switch(KeySwitch(update.sealer, update.strict), random(0).noise)])))
  {
    hide HandleRekey, Installed, RekeyOps, Writes, RunReader;
    var (st, w, result) := HandleRekey(p, s.kx, packet, e, s.conn.write);
    if finished.Some? {
      InstalledWrites(p.aead, s.conn.(write := w), finished.value.update, random(0));
    }
  }

  method RekeyOn(p: Provider, kx: RekeyMachine, packet: Packet, e: Entropy, conn: Connection)
    returns (r: Result<Option<Rekeyed>, ProtoError>)
    requires conn.Valid() && kx !in conn.Repr()
    modifies kx, conn.Repr()
    ensures conn.Valid() && conn.Repr() == old(conn.Repr())
    ensures var (st, w, result) := HandleRekey(p, old(kx.state), packet, e, old(conn.View()).write);
            kx.state == st && conn.View() == old(conn.View()).(write := w) && r == result
  {
    hide HandleRekey;
    r := kx.Handle(p, packet, e, conn.write);
  }

  /** A step of the rekey machine; a finished rekey is applied to both directions. */
  method RekeyConn(p: Provider, packet: Packet, e: Entropy, random: Random, kx: RekeyMachine, conn: Connection)
    returns (ok: bool, finished: Option<Rekeyed>)
    requires conn.Valid() && kx !in conn.Repr()
    modifies kx, conn.Repr()
    ensures conn.Valid() && fresh(conn.Repr() - old(conn.Repr()))
    ensures RekeyResult(p, old(kx.state), old(conn.View()), packet, e, random, kx.state, conn.View(), ok, finished)
  {
    hide HandleRekey, Installed, Connection.Valid, Connection.View;
    var r := RekeyOn(p, kx, packet, e, conn);
    if r.Err? {
      return false, None;
    }
    if r.value.None? {
      return true, None;
    }
    ok := conn.Install(p.aead, r.value.value.update, random);
    finished := if ok then r.value else None;
  }

  class SessionDriver {
    const kx: RekeyMachine
    const channels: Channels.ChannelTable
    const conn: Connection
    var postQuantum: bool
    var socket: seq<bytes>
    var wire: bytes
    ghost var ops: seq<Op>
    ghost var events: seq<ChannelRuns.Event>

    ghost function Repr(): set<object>
      reads this, conn, conn.read, conn.write
    {
      {this, kx, channels} + conn.Repr()
    }

    ghost predicate Valid()
      reads this, conn, conn.read, conn.write, conn.Repr()
    {
      conn.Valid() && this !in conn.Repr() && kx !in conn.Repr() && channels !in conn.Repr()
    }

    ghost function View(): (h: History)
      requires Valid()
      reads this, kx, channels, conn, conn.read, conn.write, conn.Repr()
      ensures h.session.conn.Valid() && h.session.kx == kx.state && h.session.socket == socket
    {
      History(Session(kx.state, channels.View(), postQuantum, conn.View(), socket), ops, wire, events)
    }

    constructor (rekey: Rekey, pq: bool, conn: Connection, socket: seq<bytes>)
      requires conn.Valid()
      ensures Valid() && View() == Begin(rekey, pq, conn.View(), socket) && fresh(Repr() - conn.Repr())
    {
      this.conn, this.socket := conn, socket;
      postQuantum, wire, ops, events := pq, [], [], [];
      kx := new RekeyMachine(rekey);
      channels := new Channels.ChannelTable();
    }

    /** Flush what the current arm has written, and record it. */
    method Conclude(sent: seq<Op>, event: Option<ChannelRuns.Event>, taken: seq<nat>) returns (ok: bool)
      requires Valid()
      modifies this`wire, this`ops, this`events, conn.Repr()
      ensures Valid() && Repr() == old(Repr())
      ensures var o := Finish(old(View()).session, sent, event, taken);
              (ok <==> o.Next?) && (ok ==> View() == Recorded(old(View()), o))
    {
      hide FlushAll, FlushOps, Recorded, Connection.Valid, Connection.View;
      ghost var h := View();
      var part: bytes;
      ok, part := conn.Flush(taken);
      if ok {
        ghost var o := Finish(h.session, sent, event, taken);
        assert o == Next(h.session.(conn := conn.View()), sent + FlushOps(h.session.conn.write, taken), part, event);
        Store(h, o, part);
      }
    }

    /** Take the outcome of a turn into the record. */
    method Store(ghost h: History, ghost o: StepOutcome, part: bytes)
      requires Valid() && o.Next? && part == o.wire
      requires View() == h.(session := o.session)
      modifies this`wire, this`ops, this`events
      ensures Valid() && Repr() == old(Repr()) && View() == Recorded(h, o)
    {
      wire := wire + part;
      ops := ops + o.ops;
      events := if o.event.Some? then events + [o.event.value] else events;
    }

    method Speak(p: Provider, payloads: seq<bytes>, event: Option<ChannelRuns.Event>, turn: Turn) returns (ok: bool)
      requires Valid() && !turn.Interrupted?
      modifies this`wire, this`ops, this`events, conn.Repr()
      ensures Valid() && Repr() == old(Repr())
      ensures var o := Say(p, old(View()).session, payloads, event, turn);
              (ok <==> o.Next?) && (ok ==> View() == Recorded(old(View()), o))
    {
      hide SendAll, SendOps, Finish, Connection.Valid, Connection.View;
      ok := conn.Send(p.aead, payloads, turn.random);
      if ok {
        ok := Conclude(SendOps(payloads, turn.random), event, turn.taken);
      }
    }

    /** Dispatch to the channel table, without writing yet. */
    method Dispatch(ev: ChannelRuns.Event) returns (ok: bool, outs: seq<Channels.Out>)
      modifies channels
      ensures ok <==> ChannelRuns.Step(old(channels.View()), ev).Ok?
      ensures ok ==> ChannelRuns.Step(old(channels.View()), ev) == Ok((channels.View(), outs))
    {
      ok, outs := true, [];
      match ev {
        case DoOpen(session, sender, window, maximum) => outs := channels.OnOpen(session, sender, window, maximum);
        case DoRequest(id, kind, wantReply, banner) => ok, outs := channels.OnRequest(id, kind, wantReply, banner);
        case DoAdjust(id, n) => ok := channels.OnAdjust(id, n);
        case DoData(id, data) =>
          var terminal;
          ok, outs, terminal := channels.OnData(id, data);
        case DoEof(id) => ok := id in channels.channels;
        case DoClose(id, now) => outs := channels.OnClose(id, now);
        case DoPoll(answers) => ok, outs := channels.OnPoll(answers);
      }
    }

    method HandOn(ev: ChannelRuns.Event) returns (ok: bool, outs: seq<Channels.Out>)
      requires Valid()
      modifies channels
      ensures Valid() && Repr() == old(Repr())
      ensures var h := old(View());
              var r := ChannelRuns.Step(h.session.table, ev);
              && (ok <==> r.Ok?)
              && (ok ==> outs == r.value.1 && View() == h.(session := h.session.(table := r.value.0)))
    {
      hide ChannelRuns.Step, Connection.Valid, Connection.View, Channels.ChannelTable.View;
      ok, outs := Dispatch(ev);
    }

    method OnEvent(p: Provider, d: Codec, ev: ChannelRuns.Event, turn: Turn) returns (ok: bool)
      requires Valid() && !turn.Interrupted?
      modifies Repr()
      ensures Valid() && Repr() == old(Repr())
      ensures var o := OnChannels(p, d, old(View()).session, ev, turn);
              (ok <==> o.Next?) && (ok ==> View() == Recorded(old(View()), o))
    {
      hide ChannelRuns.Step, Say, Payloads, Valid, View;
      var outs;
      ok, outs := HandOn(ev);
      if ok {
        ok := Speak(p, Payloads(d, outs), Some(ev), turn);
      }
    }

    method RekeyBoth(p: Provider, packet: Packet, turn: Turn) returns (ok: bool, finished: Option<Rekeyed>)
      requires Valid() && turn.Arrival?
      modifies this`postQuantum, kx, conn.Repr()
      ensures Valid() && fresh(Repr() - old(Repr()))
      ensures var s, t := old(View()).session, View().session;
              && RekeyResult(p, s.kx, s.conn, packet, turn.entropy, turn.random(0), t.kx, t.conn, ok, finished)
              && t == s.(kx := t.kx, conn := t.conn,
                         postQuantum := if finished.Some? then finished.value.postQuantum else s.postQuantum)
    {
      hide RekeyResult, Connection.Valid, Connection.View, Channels.ChannelTable.View;
      ok, finished := RekeyConn(p, packet, turn.entropy, turn.random(0), kx, conn);
      if finished.Some? {
        postQuantum := finished.value.postQuantum;
      }
    }

    method RekeyStep(p: Provider, packet: Packet, turn: Turn) returns (ok: bool, sent: seq<Op>)
      requires Valid() && turn.Arrival?
      modifies this`postQuantum, kx, conn.Repr()
      ensures Valid() && fresh(Repr() - old(Repr()))
      ensures var r := RekeyTurn(p, old(View()).session, packet, turn.entropy, turn.random);
              (ok <==> r.Some?) && (ok ==> r == Some((View().session, sent)))
    {
      hide RekeyTurn, RekeyOps, RekeyResult, Valid, View;
      ghost var s := View().session;
      sent := RekeyOps(p, kx.state, packet, turn.entropy);
      var finished;
      ok, finished := RekeyBoth(p, packet, turn);
      RekeyTurnFrom(p, s, packet, turn.entropy, turn.random, kx.state, View().session.conn, ok, finished);
      if ok && finished.Some? {
        var update := finished.value.update;
        sent := sent + [Switch(KeySwitch(update.sealer, update.strict), turn.random(0).noise)];
      }
    }

    method Rekey(p: Provider, packet: Packet, turn: Turn) returns (ok: bool)
      requires Valid() && turn.Arrival?
      modifies Repr()
      ensures Valid() && fresh(Repr() - old(Repr()))
      ensures var o := OnRekey(p, old(View()).session, packet, turn);
              (ok <==> o.Next?) && (ok ==> View() == Recorded(old(View()), o))
    {
      hide RekeyTurn, Finish, Connection.Valid, Connection.View;
      var sent;
      ok, sent := RekeyStep(p, packet, turn);
      if ok {
        ok := Conclude(sent, None, turn.taken);
      }
    }

    method Handle(p: Provider, d: Codec, packet: Packet, turn: Turn) returns (ok: bool)
      requires Valid() && turn.Arrival?
      modifies Repr()
      ensures Valid() && fresh(Repr() - old(Repr()))
      ensures var o := OnPacket(p, d, old(View()).session, packet, turn);
              (ok <==> o.Next?) && (ok ==> View() == Recorded(old(View()), o))
    {
      hide OnChannels, OnRekey, Say, Connection.Valid, Connection.View;
      var kind := packet.kind;
      assert ops == ops + [] && wire == wire + [];
      if kind == IGNORE || kind == DEBUG {
        return true;
      } else if kind == DISCONNECT {
        return false;
      } else if kind == KEXINIT || kx.state.InProgress() {
        ok := Rekey(p, packet, turn);
      } else if kind == GLOBAL_REQUEST {
        var reply := d.wantReply(packet);
        if reply == Some(true) {
          ok := Speak(p, [[REQUEST_FAILURE]], None, turn);
        } else {
          return reply.Some?;
        }
      } else if kind == REQUEST_SUCCESS || kind == REQUEST_FAILURE {
        return true;
      } else {
        var ev := d.message(packet);
        if ev.None? || ev.value.DoPoll? {
          return false;
        }
        ok := OnEvent(p, d, WithBanner(ev.value, postQuantum, d.banner(packet)), turn);
      }
    }

    /** The next packet from the stream. */
    method TakePacket(p: Provider) returns (got: Received)
      requires Valid()
      modifies Repr()
      ensures Valid() && Repr() == old(Repr())
      ensures var s := old(View()).session;
              var (x, r, rest) := Receive(p.aead, s.conn.read, s.socket);
              got == x && View() == old(View()).(session := s.(conn := s.conn.(read := r), socket := rest))
    {
      hide Receive, Connection.Valid, Connection.View;
      got, socket := conn.Take(p.aead, socket);
    }

    /** A receive is given up. */
    method GiveUp(p: Provider, fed: bool) returns (waits: bool)
      requires Valid() && (fed ==> socket != [])
      modifies Repr()
      ensures Valid() && Repr() == old(Repr())
      ensures waits == NeedsMore(Poll(p.aead, old(View()).session.conn.read).0)
      ensures waits ==> View() == Recorded(old(View()), Interrupt(old(View()).session, fed))
    {
      hide Poll, NeedsMore, Valid, View, Recorded, Interrupt;
      InterruptRecorded(View(), fed);
      waits := Reread(p, fed);
    }

    method Reread(p: Provider, fed: bool) returns (waits: bool)
      requires Valid() && (fed ==> socket != [])
      modifies Repr()
      ensures Valid() && Repr() == old(Repr())
      ensures waits == NeedsMore(Poll(p.aead, old(View()).session.conn.read).0)
      ensures waits ==> View() == old(View()).(session := Interrupt(old(View()).session, fed).session)
    {
      hide Poll, NeedsMore, Connection.Valid, Connection.View, Channels.ChannelTable.View;
      var piece: bytes := if fed then socket[0] else [];
      waits := conn.Peek(p.aead, piece);
      if fed {
        socket := socket[1..];
      }
    }

    method Arrive(p: Provider, d: Codec, turn: Turn) returns (ok: bool)
      requires Valid() && turn.Arrival?
      modifies Repr()
      ensures Valid() && fresh(Repr() - old(Repr()))
      ensures var o := Take(p, d, old(View()).session, turn);
              (ok <==> o.Next?) && (ok ==> View() == Recorded(old(View()), o))
    {
      hide OnPacket, OnChannels, Interrupt, Receive, View, Valid, Connection.Valid, Connection.View;
      var got := TakePacket(p);
      if !got.Got? {
        assert Repr() - old(Repr()) == {};
        return false;
      }
      ok := Handle(p, d, got.packet, turn);
    }

    method Yield(p: Provider, d: Codec, turn: Turn) returns (ok: bool)
      requires Valid() && turn.Interrupted?
      modifies Repr()
      ensures Valid() && Repr() == old(Repr())
      ensures ok == Enabled(p.aead, old(View()).session, turn)
      ensures ok ==> Take(p, d, old(View()).session, turn).Next?
                     && View() == Recorded(old(View()), Take(p, d, old(View()).session, turn))
    {
      hide View, Valid, Poll, NeedsMore, Recorded;
      if turn.fed && (socket == [] || socket[0] == []) {
        return false;
      }
      ok := GiveUp(p, turn.fed);
    }

    /** One turn of the loop; `ok` is false also for a turn that was not enabled. */
    method Step(p: Provider, d: Codec, turn: Turn) returns (ok: bool)
      requires Valid()
      modifies Repr()
      ensures Valid() && fresh(Repr() - old(Repr()))
      ensures ok <==> Enabled(p.aead, old(View()).session, turn) && Take(p, d, old(View()).session, turn).Next?
      ensures ok ==> View() == Recorded(old(View()), Take(p, d, old(View()).session, turn))
    {
      hide OnPacket, OnChannels, Receive, View, Valid, Poll, NeedsMore, Interrupt, Recorded;
      if turn.Arrival? {
        ok := Arrive(p, d, turn);
      } else if turn.Interrupted? {
        ok := Yield(p, d, turn);
        assert Repr() - old(Repr()) == {};
      } else if kx.state.InProgress() {
        assert Repr() - old(Repr()) == {};
        return false;
      } else {
        ok := OnEvent(p, d, ChannelRuns.DoPoll(turn.answers), turn);
        assert Repr() - old(Repr()) == {};
      }
    }

    /** Ends early when the session does, or at a turn that is not enabled. */
    method Drive(p: Provider, d: Codec, turns: seq<Turn>) returns (running: bool)
      requires Valid()
      modifies Repr()
      ensures Valid()
      ensures running <==> RunSession(p, d, old(View()), turns).Some?
      ensures running ==> RunSession(p, d, old(View()), turns) == Some(View())
    {
      hide Take, Recorded, RunSession, View, Valid, Enabled;
      var n := 0;
      assert turns[0..] == turns;
      ghost var first := View();
      assert Repr() - old(Repr()) == {};
      while n < |turns|
        invariant 0 <= n <= |turns| && Valid() && fresh(Repr() - old(Repr()))
        invariant RunSession(p, d, View(), turns[n..]) == RunSession(p, d, first, turns)
      {
        RunTurn(p, d, View(), turns, n);
        ghost var before := Repr();
        var ok := Step(p, d, turns[n]);
        assert Repr() - old(Repr()) <= (Repr() - before) + (before - old(Repr()));
        if !ok {
          return false;
        }
        n := n + 1;
      }
      RunEnded(p, d, View());
      assert turns[n..] == [];
      return true;
    }
  }

  lemma InterruptRecorded(h: History, fed: bool)
    requires h.session.conn.Valid() && (fed ==> h.session.socket != [])
    ensures Interrupt(h.session, fed).Next?
    ensures Recorded(h, Interrupt(h.session, fed)) == h.(session := Interrupt(h.session, fed).session)
  {
    assert h.ops + [] == h.ops && h.wire + [] == h.wire;
  }

  lemma RunTurn(p: Provider, d: Codec, h: History, turns: seq<Turn>, n: nat)
    requires h.session.conn.Valid() && n < |turns|
    ensures Enabled(p.aead, h.session, turns[n]) && Take(p, d, h.session, turns[n]).Next? ==>
              Take(p, d, h.session, turns[n]).session.conn.Valid()
    ensures RunSession(p, d, h, turns[n..]) ==
              if !Enabled(p.aead, h.session, turns[n]) then None else
              var o := Take(p, d, h.session, turns[n]);
              if o.Next? then RunSession(p, d, Recorded(h, o), turns[n + 1..]) else None
  {
    hide Take, Enabled;
    if Enabled(p.aead, h.session, turns[n]) {
      TakeValid(p, d, h.session, turns[n]);
    }
    assert turns[n..][0] == turns[n] && turns[n..][1..] == turns[n + 1..];
  }

  lemma RunEnded(p: Provider, d: Codec, h: History)
    requires h.session.conn.Valid()
    ensures RunSession(p, d, h, []) == Some(h)
  {
  }
}
