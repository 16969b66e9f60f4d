/** Session channels and their terminals (sections 5 and 6 of RFC 4254). The terminal process is
    only its answers: whether a read, a wait or a spawn is ready and with what. Messages are
    tagged with the local number of the channel they concern; writing them is up to the session. */
module Channels {
  import opened Bytes
  import opened Transport

  type u32 = n: int | 0 <= n < 0x1_0000_0000

  const U32_MAX: nat := 0xffff_ffff
  const INITIAL_WINDOW_SIZE: u32 := 1_048_576 // sixteen packets of the maximum length
  const READ_BUFFER: nat := 4096
  const EXIT_GRACE_PERIOD: nat := 5
  const MAX_ENV: nat := 32

  datatype Terminal =
    | Requested
    | Running
    | Exiting(deadline: nat)
    | Exited(status: u32)
    | Reaping(deadline: nat)
    | Closing

  datatype Channel = Channel(
    remoteId: u32,
    sendWindow: u32,
    receiveWindow: u32,
    maximumPacketSize: u32,
    env: nat,
    terminal: Option<Terminal>,
    closeSent: bool)

  datatype Table = Table(nextId: u32, channels: map<u32, Channel>)

  const EMPTY := Table(0, map[])

  datatype Message =
    | Confirmation
    | Success
    | Failure
    | WindowAdjust(n: u32)
    | Data(data: bytes)
    | Eof
    | ExitStatus(status: u32)
    | Close

  /** A message for a channel, by local and remote number, or the refusal of an open request. */
  datatype Out = On(local: u32, remote: u32, message: Message) | Refused(remote: u32)

  datatype RequestKind =
    | PtyReq
    | Env(allowed: bool)
    | Shell(spawned: bool)
    | WindowChange(resized: bool)
    | OtherRequest

  type Reaction = Result<(Table, seq<Out>), ProtoError>

  function Set(t: Table, id: u32, c: Channel): Table {
    t.(channels := t.channels[id := c])
  }

  // Incoming messages

  function Open(t: Table, session: bool, sender: u32, window: u32, maximum: u32): (r: (Table, seq<Out>)) {
    if !session then (t, [Refused(sender)]) else
    var id := t.nextId;
    var next := t.(nextId := (t.nextId + 1) % U32);
    if id in t.channels then (next, [Refused(sender)]) else
    (Set(next, id, Channel(sender, window, 0, maximum, 0, None, false)), [On(id, sender, Confirmation)])
  }

  /** The acknowledgement and the banner that end a granted request; the banner is sent if the
      peer's window has room for all of it, whatever the maximum packet size. */
  function Granted(c: Channel, id: u32, wantReply: bool, banner: Option<bytes>): (Channel, seq<Out>) {
    var reply := if wantReply then [On(id, c.remoteId, Success)] else [];
    if banner.None? || c.sendWindow < |banner.value| then (c, reply) else
    (c.(sendWindow := c.sendWindow - |banner.value|), reply + [On(id, c.remoteId, Data(banner.value))])
  }

  function Denied(c: Channel, id: u32, wantReply: bool): seq<Out> {
    if wantReply then [On(id, c.remoteId, Failure)] else []
  }

  function Request(t: Table, id: u32, kind: RequestKind, wantReply: bool, banner: Option<bytes>): Reaction {
    if id !in t.channels then Err(InvalidPacket) else
    var c := t.channels[id];
    match kind
    case PtyReq =>
      var (d, outs) := Granted(c.(terminal := Some(Requested)), id, wantReply, banner);
      Ok((Set(t, id, d), outs))
    case Env(allowed) =>
      if !allowed || c.env >= MAX_ENV then Ok((t, Denied(c, id, wantReply))) else
      var (d, outs) := Granted(c.(env := c.env + 1), id, wantReply, banner);
      Ok((Set(t, id, d), outs))
    case Shell(spawned) =>
      if c.terminal != Some(Requested) || !spawned then Err(InvalidPacket) else
      var running := c.(terminal := Some(Running), receiveWindow := INITIAL_WINDOW_SIZE);
      var (d, outs) := Granted(running, id, wantReply, banner);
      Ok((Set(t, id, d), [On(id, c.remoteId, WindowAdjust(INITIAL_WINDOW_SIZE))] + outs))
    case WindowChange(resized) =>
      if c.terminal == Some(Running) && !resized then Err(InvalidPacket) else
      var (d, outs) := Granted(c, id, wantReply, banner);
      Ok((Set(t, id, d), outs))
    case OtherRequest => Ok((t, Denied(c, id, wantReply)))
  }

  function SaturatingAdd(a: u32, b: u32): u32 {
    if a + b > U32_MAX then U32_MAX else a + b
  }

  function SaturatingSub(a: u32, b: nat): u32 {
    if a < b then 0 else a - b
  }

  function AdjustWindow(t: Table, id: u32, n: u32): Reaction {
    if id !in t.channels then Err(InvalidPacket) else
    var c := t.channels[id];
    Ok((Set(t, id, c.(sendWindow := SaturatingAdd(c.sendWindow, n))), []))
  }

  /** Incoming data is charged to the receive window; once that is less than half full, it is
      filled up again. */
  function ReceiveData(t: Table, id: u32, data: bytes): Reaction {
    if id !in t.channels then Err(InvalidPacket) else
    var c := t.channels[id];
    if c.receiveWindow < |data| then Err(InvalidPacket) else
    var left := c.receiveWindow - |data|;
    if left < INITIAL_WINDOW_SIZE / 2 then
      Ok((Set(t, id, c.(receiveWindow := INITIAL_WINDOW_SIZE)),
          [On(id, c.remoteId, WindowAdjust(INITIAL_WINDOW_SIZE - left))]))
    else Ok((Set(t, id, c.(receiveWindow := left)), []))
  }

  function ReceiveEof(t: Table, id: u32): Reaction {
    if id !in t.channels then Err(InvalidPacket) else Ok((t, []))
  }

  /** The peer closes: answer once, kill a live shell and keep its channel until it is reaped. */
  function ReceiveClose(t: Table, id: u32, now: nat): (Table, seq<Out>) {
    if id !in t.channels then (t, []) else
    var c := t.channels[id];
    var outs := if c.closeSent then [] else [On(id, c.remoteId, Close)];
    var closed := c.(closeSent := true);
    match c.terminal
    case Some(Running) | Some(Exiting(_)) =>
      (Set(t, id, closed.(terminal := Some(Reaping(now + EXIT_GRACE_PERIOD)))), outs)
    case Some(Reaping(_)) => (Set(t, id, closed), outs)
    case _ => (t.(channels := t.channels - {id}), outs)
  }

  // Polling the terminals

  datatype Wait = WaitPending | WaitDone(code: Option<int>) | WaitError
  datatype Read = ReadPending | ReadEof | ReadData(data: bytes) | ReadError

  datatype AnswerFunctions = AnswerFunctions(wait: u32 -> Wait, read: (u32, nat) -> Read, now: u32 -> nat)

  /** A read returns at least one byte and at most as many as there is room for. */
  ghost predicate ReadsFit(a: AnswerFunctions) {
    forall id, room :: a.read(id, room).ReadData? ==> 0 < |a.read(id, room).data| <= room
  }

  type Answers = a: AnswerFunctions | ReadsFit(a)
    witness AnswerFunctions(id => WaitPending, (id, room) => ReadPending, id => 0)

  /** What one channel does with a poll: nothing, one message, its own removal, or the end of
      the session. */
  datatype Verdict = Continue | Emit(message: Message) | Remove | Abort

  function Rank(terminal: Option<Terminal>): nat {
    match terminal
    case Some(Exiting(_)) => 2
    case Some(Exited(_)) => 1
    case _ => 0
  }

  function Room(c: Channel): nat {
    var limit := if c.maximumPacketSize < c.sendWindow then c.maximumPacketSize else c.sendWindow;
    if limit < READ_BUFFER then limit else READ_BUFFER
  }

  function ReadTerminal(c: Channel, id: u32, a: Answers): (Channel, Verdict) {
    if Room(c) == 0 then (c, Continue) else
    match a.read(id, Room(c))
    case ReadPending => (c, Continue)
    case ReadError => (c, Abort)
    case ReadEof => (c.(terminal := Some(Exiting(a.now(id) + EXIT_GRACE_PERIOD))), Emit(Eof))
    case ReadData(data) => (c.(sendWindow := SaturatingSub(c.sendWindow, |data|)), Emit(Data(data)))
  }

  function PollChannel(c: Channel, id: u32, a: Answers): (Channel, Verdict)
    decreases Rank(c.terminal)
  {
    match c.terminal
    case None => (c, Continue)
    case Some(Running) => ReadTerminal(c, id, a)
    case Some(Requested) => (c, Continue)
    case Some(Exiting(_)) =>
      (match a.wait(id)
       case WaitPending => (c, Continue)
       case WaitError => PollChannel(c.(terminal := Some(Closing)), id, a)
       case WaitDone(None) => PollChannel(c.(terminal := Some(Closing)), id, a)
       case WaitDone(Some(code)) => PollChannel(c.(terminal := Some(Exited(code % U32))), id, a))
    case Some(Exited(status)) =>
      var closing := c.(terminal := Some(Closing));
      if c.closeSent then PollChannel(closing, id, a) else (closing, Emit(ExitStatus(status)))
    case Some(Reaping(deadline)) =>
      if a.wait(id).WaitPending? && a.now(id) < deadline then (c, Continue) else (c, Remove)
    case Some(Closing) =>
      if c.closeSent then (c, Continue) else (c.(closeSent := true), Emit(Close))
  }

  ghost predicate IsLeast(x: u32, s: set<u32>) {
    x in s && forall y :: y in s ==> x <= y
  }

  lemma {:induction false} FindLeast(s: set<u32>) returns (x: u32)
    requires s != {}
    ensures IsLeast(x, s)
  {
    var z :| z in s;
    if s == {z} {
      x := z;
    } else {
      var y := FindLeast(s - {z});
      x := if y < z then y else z;
      forall v | v in s ensures x <= v {
        assert v == z || v in s - {z};
      }
    }
  }

  lemma LeastExists(s: set<u32>)
    requires s != {}
    ensures exists x :: IsLeast(x, s)
  {
    var x := FindLeast(s);
  }

  ghost function Least(s: set<u32>): (x: u32)
    requires s != {}
    ensures IsLeast(x, s)
  {
    LeastExists(s);
    var x :| IsLeast(x, s);
    x
  }

  /** Visit the channels in ascending order until one of them has something to report. */
  ghost function PollFrom(t: Table, pending: set<u32>, a: Answers): Reaction
    requires pending <= t.channels.Keys
    decreases |pending|
  {
    if pending == {} then Ok((t, [])) else
    var id := Least(pending);
    var (c, verdict) := PollChannel(t.channels[id], id, a);
    var t' := Set(t, id, c);
    match verdict
    case Continue => PollFrom(t', pending - {id}, a)
    case Emit(message) => Ok((t', [On(id, c.remoteId, message)]))
    case Remove => Ok((t.(channels := t.channels - {id}), []))
    case Abort => Err(Unreachable)
  }

  ghost function PollTerminals(t: Table, a: Answers): Reaction {
    PollFrom(t, t.channels.Keys, a)
  }

  // The object

  class ChannelTable {
    var nextId: u32
    var channels: map<u32, Channel>

    ghost function View(): Table
      reads this
    {
      Table(nextId, channels)
    }

    constructor ()
      ensures View() == EMPTY
    {
      nextId, channels := 0, map[];
    }

    method OnOpen(session: bool, sender: u32, window: u32, maximum: u32) returns (outs: seq<Out>)
      modifies this
      ensures (View(), outs) == Open(old(View()), session, sender, window, maximum)
    {
      if !session {
        return [Refused(sender)];
      }
      var id := nextId;
      nextId := (nextId + 1) % U32;
      if id in channels {
        return [Refused(sender)];
      }
      channels := channels[id := Channel(sender, window, 0, maximum, 0, None, false)];
      return [On(id, sender, Confirmation)];
    }

    method OnRequest(id: u32, kind: RequestKind, wantReply: bool, banner: Option<bytes>)
      returns (ok: bool, outs: seq<Out>)
      modifies this
      ensures ok <==> Request(old(View()), id, kind, wantReply, banner).Ok?
      ensures ok ==> Request(old(View()), id, kind, wantReply, banner) == Ok((View(), outs))
    {
      outs := [];
      if id !in channels {
        return false, outs;
      }
      var c := channels[id];
      match kind {
        case PtyReq => c := c.(terminal := Some(Requested));
        case Env(allowed) =>
          if allowed && c.env < MAX_ENV {
            c := c.(env := c.env + 1);
          } else {
            if wantReply {
              outs := [On(id, c.remoteId, Failure)];
            }
            return true, outs;
          }
        case Shell(spawned) =>
          channels := channels[id := c.(terminal := None)];
          if c.terminal != Some(Requested) || !spawned {
            return false, outs;
          }
          c := c.(terminal := Some(Running), receiveWindow := INITIAL_WINDOW_SIZE);
          outs := [On(id, c.remoteId, WindowAdjust(INITIAL_WINDOW_SIZE))];
        case WindowChange(resized) =>
          if c.terminal == Some(Running) && !resized {
            return false, outs;
          }
        case OtherRequest =>
          if wantReply {
            outs := [On(id, c.remoteId, Failure)];
          }
          return true, outs;
      }
      var ending: seq<Out> := [];
      if wantReply {
        ending := [On(id, c.remoteId, Success)];
      }
      if banner.Some? && |banner.value| <= c.sendWindow {
        c := c.(sendWindow := c.sendWindow - |banner.value|);
        ending := ending + [On(id, c.remoteId, Data(banner.value))];
      }
      assert [] + ending == ending;
      outs := outs + ending;
      channels := channels[id := c];
      assert channels == old(channels)[id := c];
      return true, outs;
    }

    method OnAdjust(id: u32, n: u32) returns (ok: bool)
      modifies this
      ensures ok <==> AdjustWindow(old(View()), id, n).Ok?
      ensures ok ==> AdjustWindow(old(View()), id, n) == Ok((View(), []))
    {
      if id !in channels {
        return false;
      }
      var c := channels[id];
      channels := channels[id := c.(sendWindow := SaturatingAdd(c.sendWindow, n))];
      return true;
    }

    method OnData(id: u32, data: bytes) returns (ok: bool, outs: seq<Out>, terminal: bool)
      modifies this
      ensures ok <==> ReceiveData(old(View()), id, data).Ok?
      ensures ok ==> ReceiveData(old(View()), id, data) == Ok((View(), outs))
      ensures terminal <==> ok && channels[id].terminal == Some(Running)
    {
      outs, terminal := [], false;
      if id !in channels || channels[id].receiveWindow < |data| {
        return false, outs, terminal;
      }
      var c := channels[id];
      c := c.(receiveWindow := c.receiveWindow - |data|);
      if c.receiveWindow < INITIAL_WINDOW_SIZE / 2 {
        outs := [On(id, c.remoteId, WindowAdjust(INITIAL_WINDOW_SIZE - c.receiveWindow))];
        c := c.(receiveWindow := INITIAL_WINDOW_SIZE);
      }
      channels := channels[id := c];
      return true, outs, c.terminal == Some(Running);
    }

    method OnClose(id: u32, now: nat) returns (outs: seq<Out>)
      modifies this
      ensures (View(), outs) == ReceiveClose(old(View()), id, now)
    {
      outs := [];
      if id !in channels {
        return;
      }
      var c := channels[id];
      if !c.closeSent {
        c := c.(closeSent := true);
        outs := [On(id, c.remoteId, Close)];
      }
      if c.terminal.Some? && (c.terminal.value.Running? || c.terminal.value.Exiting?) {
        channels := channels[id := c.(terminal := Some(Reaping(now + EXIT_GRACE_PERIOD)))];
      } else if c.terminal.Some? && c.terminal.value.Reaping? {
        channels := channels[id := c];
      } else {
        channels := channels - {id};
      }
    }

    /** The inner loop: walk one channel through Exiting, Exited and Closing. */
    static method Settle(c: Channel, id: u32, a: Answers) returns (d: Channel, verdict: Verdict)
      ensures (d, verdict) == PollChannel(c, id, a)
    {
      d := c;
      while d.terminal.Some? && d.terminal != Some(Running)
        invariant PollChannel(d, id, a) == PollChannel(c, id, a)
        decreases Rank(d.terminal)
      {
        match d.terminal.value {
          case Requested => return d, Continue;
          case Exiting(_) =>
            match a.wait(id) {
              case WaitPending => return d, Continue;
              case WaitError => d := d.(terminal := Some(Closing));
              case WaitDone(None) => d := d.(terminal := Some(Closing));
              case WaitDone(Some(code)) => d := d.(terminal := Some(Exited(code % U32)));
            }
          case Exited(status) =>
            d := d.(terminal := Some(Closing));
            if !d.closeSent {
              return d, Emit(ExitStatus(status));
            }
          case Reaping(deadline) =>
            if a.wait(id).WaitPending? && a.now(id) < deadline {
              return d, Continue;
            }
            return d, Remove;
          case Closing =>
            if d.closeSent {
              return d, Continue;
            }
            return d.(closeSent := true), Emit(Close);
        }
      }
      if d.terminal.None? {
        return d, Continue;
      }
      var (last, v) := ReadTerminal(d, id, a);
      return last, v;
    }

    /** The outer loop over the channels, ending at the first one with something to report. */
    method OnPoll(a: Answers) returns (ok: bool, outs: seq<Out>)
      modifies this
      ensures ok <==> PollTerminals(old(View()), a).Ok?
      ensures ok ==> PollTerminals(old(View()), a) == Ok((View(), outs))
    {
      outs := [];
      var pending := channels.Keys;
      while pending != {}
        invariant pending <= channels.Keys && outs == []
        invariant PollFrom(View(), pending, a) == PollTerminals(old(View()), a)
        decreases |pending|
      {
        LeastExists(pending);
        assert exists x :: x in pending && forall y :: y in pending ==> x <= y by {
          assert IsLeast(Least(pending), pending);
        }
        var id :| id in pending && forall y :: y in pending ==> id <= y;
        assert id == Least(pending);
        var c, verdict := Settle(channels[id], id, a);
        match verdict {
          case Continue =>
            channels := channels[id := c];
            pending := pending - {id};
          case Emit(message) =>
            channels := channels[id := c];
            return true, [On(id, c.remoteId, message)];
          case Remove =>
            channels := channels - {id};
            return true, [];
          case Abort =>
            return false, [];
        }
      }
      return true, [];
    }
  }
}
