/** Two ends of one direction: whatever a writer puts on the wire, through key changes and
    partial writes, a reader that mirrors the key changes gets back, however the bytes arrive. */
module TwoParty {
  import opened Bytes
  import opened Gcm
  import opened Transport
  import opened Delivery

  /** What a writer can do: send a packet, announce and install new keys, or have the stream
      accept some buffered bytes. */
  datatype Op =
    | Send(payload: bytes, noise: nat -> byte)
    | Switch(change: KeySwitch, noise: nat -> byte)
    | Flush(n: nat)

  /** The bytes the stream accepted and the writer afterwards; `None` if a nonce ran out or the
      stream claims to have accepted more than was offered. */
  function RunWriter(a: Aead, w: Writer, ops: seq<Op>): Option<(bytes, Writer)>
    requires w.Valid()
    decreases |ops|
  {
    if ops == [] then Some(([], w)) else
    match ops[0]
    case Send(payload, noise) =>
      var (r, after) := Encode(a, w, payload, Random(noise));
      if r.Err? then None else RunWriter(a, after, ops[1..])
    case Switch(change, noise) =>
      var (r, after) := Encode(a, w, [NEWKEYS], Random(noise));
      if r.Err? then None else RunWriter(a, SwitchWriter(after, change.key, change.strict), ops[1..])
    case Flush(n) =>
      if n > |w.Buffered()| then None else
      match RunWriter(a, Wrote(w, n), ops[1..])
      case None => None
      case Some((wire, last)) => Some((w.Buffered()[..n] + wire, last))
  }

  /** One run after another. */
  lemma {:induction false} RunWriterAppend(a: Aead, w: Writer, xs: seq<Op>, ys: seq<Op>)
    requires w.Valid() && RunWriter(a, w, xs).Some?
    ensures RunWriter(a, w, xs).value.1.Valid()
    ensures var (wire, mid) := RunWriter(a, w, xs).value;
            RunWriter(a, w, xs + ys) == Behind(wire, RunWriter(a, mid, ys))
    decreases |xs|
  {
    hide Encode;
    if xs == [] {
      assert [] + ys == ys;
      BehindNothing(RunWriter(a, w, ys));
    } else {
      assert (xs + ys)[1..] == xs[1..] + ys;
      match xs[0]
      case Send(payload, noise) => RunWriterAppend(a, Encode(a, w, payload, Random(noise)).1, xs[1..], ys);
      case Switch(change, noise) =>
        var announced := Encode(a, w, [NEWKEYS], Random(noise)).1;
        RunWriterAppend(a, SwitchWriter(announced, change.key, change.strict), xs[1..], ys);
      case Flush(n) =>
        RunWriterAppend(a, Wrote(w, n), xs[1..], ys);
        var (wire, mid) := RunWriter(a, Wrote(w, n), xs[1..]).value;
        BehindTwice(w.Buffered()[..n], wire, RunWriter(a, mid, ys));
    }
  }

  /** A run's result with bytes accepted before it. */
  function Behind(wire: bytes, r: Option<(bytes, Writer)>): Option<(bytes, Writer)> {
    if r.None? then None else Some((wire + r.value.0, r.value.1))
  }

  lemma BehindNothing(r: Option<(bytes, Writer)>)
    ensures Behind([], r) == r
  {
    assert r.Some? ==> [] + r.value.0 == r.value.0;
  }

  lemma BehindTwice(x: bytes, y: bytes, r: Option<(bytes, Writer)>)
    ensures Behind(x, Behind(y, r)) == Behind(x + y, r)
  {
    assert r.Some? ==> x + (y + r.value.0) == (x + y) + r.value.0;
  }

  /** The packets a run is meant to convey, with the numbers they must carry. */
  function Conveyed(sequenceNumber: nat, ops: seq<Op>): seq<Packet>
    decreases |ops|
  {
    if ops == [] then [] else
    var next := (sequenceNumber + 1) % U32;
    match ops[0]
    case Flush(_) => Conveyed(sequenceNumber, ops[1..])
    case Send(payload, _) =>
      if payload == [] then [] else
      [Packet(sequenceNumber, payload[0], payload[1..])] + Conveyed(next, ops[1..])
    case Switch(change, _) =>
      [Packet(sequenceNumber, NEWKEYS, [])] + Conveyed(if change.strict then 0 else next, ops[1..])
  }

  function Changes(ops: seq<Op>): seq<KeySwitch> {
    if ops == [] then []
    else (if ops[0].Switch? then [ops[0].change] else []) + Changes(ops[1..])
  }

  /** Payloads carry a message type, only key changes announce new keys, and packets are within
      the size limit. */
  predicate Sendable(sealed: bool, ops: seq<Op>)
    decreases |ops|
  {
    ops == [] ||
    match ops[0]
    case Flush(_) => Sendable(sealed, ops[1..])
    case Switch(_, _) => Sendable(true, ops[1..])
    case Send(payload, _) =>
      && payload != [] && payload[0] != NEWKEYS
      && 1 + |payload| + PaddingFor(sealed, |payload|) <= MAX_PACKET_LEN
      && Sendable(sealed, ops[1..])
  }

  function CountNewKeys(history: seq<Packet>): nat {
    if history == [] then 0
    else CountNewKeys(history[..|history| - 1]) + if history[|history| - 1].kind == NEWKEYS then 1 else 0
  }

  /** The reader's side: after the n-th NEWKEYS, install the n-th change. */
  function Mirrored(changes: seq<KeySwitch>, history: seq<Packet>): Option<KeySwitch> {
    var n := CountNewKeys(history);
    if history != [] && history[|history| - 1].kind == NEWKEYS && 0 < n <= |changes|
    then Some(changes[n - 1]) else None
  }

  function Mirror(changes: seq<KeySwitch>): Policy {
    history => Mirrored(changes, history)
  }

  // The writer puts exactly the frames of its packets on the wire

  function Frames(a: Aead, sealer: Option<Gcm>, ops: seq<Op>): Option<bytes>
    requires sealer.Some? ==> sealer.value.Shaped()
    decreases |ops|
  {
    if ops == [] then Some([]) else
    match ops[0]
    case Flush(_) => Frames(a, sealer, ops[1..])
    case Send(payload, noise) =>
      (match Frame(a, sealer, payload, noise)
       case Err(_) => None
       case Ok((frame, after)) => Prepend(frame, Frames(a, after, ops[1..])))
    case Switch(change, noise) =>
      (match Frame(a, sealer, [NEWKEYS], noise)
       case Err(_) => None
       case Ok((frame, _)) => Prepend(frame, Frames(a, Some(change.key), ops[1..])))
  }

  function Prepend(frame: bytes, rest: Option<bytes>): Option<bytes> {
    match rest
    case None => None
    case Some(b) => Some(frame + b)
  }

  lemma {:induction false} WireIsFrames(a: Aead, w: Writer, ops: seq<Op>)
    requires w.Valid() && RunWriter(a, w, ops).Some?
    ensures var (wire, last) := RunWriter(a, w, ops).value;
            && last.Valid() && Frames(a, w.sealer, ops).Some?
            && wire + last.Buffered() == w.Buffered() + Frames(a, w.sealer, ops).value
    decreases |ops|
  {
    hide Frame, Plain;
    if ops != [] {
      match ops[0]
      case Send(payload, noise) =>
        var after := Encode(a, w, payload, Random(noise)).1;
        WireIsFrames(a, after, ops[1..]);
        AppendedFrame(a, w, payload, noise, Frames(a, after.sealer, ops[1..]).value);
      case Switch(change, noise) =>
        var after := Encode(a, w, [NEWKEYS], Random(noise)).1;
        WireIsFrames(a, SwitchWriter(after, change.key, change.strict), ops[1..]);
        AppendedFrame(a, w, [NEWKEYS], noise, Frames(a, Some(change.key), ops[1..]).value);
      case Flush(n) =>
        var after := Wrote(w, n);
        WireIsFrames(a, after, ops[1..]);
        assert w.Buffered() == w.Buffered()[..n] + after.Buffered();
        var (wire, last) := RunWriter(a, after, ops[1..]).value;
        assert (w.Buffered()[..n] + wire) + last.Buffered() == w.Buffered()[..n] + (wire + last.Buffered());
    }
  }

  lemma AppendedFrame(a: Aead, w: Writer, payload: bytes, noise: nat -> byte, rest: bytes)
    requires w.Valid() && Encode(a, w, payload, Random(noise)).0.Ok?
    ensures var frame := Frame(a, w.sealer, payload, noise).value.0;
            Encode(a, w, payload, Random(noise)).1.Buffered() + rest == w.Buffered() + (frame + rest)
  {
    var frame := Frame(a, w.sealer, payload, noise).value.0;
    assert (w.buf + frame)[w.written..] == w.buf[w.written..] + frame;
  }

  // One frame is read back as one packet

  lemma PlainShape(sealed: bool, payload: bytes, noise: nat -> byte)
    requires 1 + |payload| + PaddingFor(sealed, |payload|) <= MAX_PACKET_LEN
    ensures var pad := PaddingFor(sealed, |payload|);
            var plain := Plain(sealed, payload, noise);
            && |plain| == 5 + |payload| + pad && 4 <= pad < 256
            && FromBE(plain[..4]) == 1 + |payload| + pad
            && plain[4] == pad && plain[5..5 + |payload|] == payload
  {
    var pad := PaddingFor(sealed, |payload|);
    PaddingIsSound(sealed, |payload|);
    U32RoundTrip(1 + |payload| + pad);
    assert Plain(sealed, payload, noise)[..4] == ToBE(1 + |payload| + pad, 4);
  }

  lemma PlainDecodes(sealed: bool, payload: bytes, noise: nat -> byte, rest: bytes, n: nat)
    requires payload != []
    requires 1 + |payload| + PaddingFor(sealed, |payload|) <= MAX_PACKET_LEN
    ensures DecodePacket(Plain(sealed, payload, noise) + rest, n, |Plain(sealed, payload, noise)| - 4)
         == Ok(Packet(n, payload[0], payload[1..]))
  {
    PlainShape(sealed, payload, noise);
    var buf := Plain(sealed, payload, noise) + rest;
    var body := buf[4..][1..];
    assert body[..|payload|] == payload;
    assert body[1..|payload|] == payload[1..];
  }

  lemma ReceivedWhen(a: Aead, r: Reader, length: nat, polled: Reader, packet: Packet)
    requires r.Valid()
    requires PollFront(a, Compact(r)) == (Complete(r.sequenceNumber, length), polled)
    requires DecodePacket(polled.buf, r.sequenceNumber, length) == Ok(packet)
    ensures Receive(a, r, []) == (Got(packet), polled, [])
  {
  }

  lemma PlainReceived(a: Aead, r: Reader, payload: bytes, noise: nat -> byte, rest: bytes)
    requires r.Valid() && r.opener.None? && payload != []
    requires 1 + |payload| + PaddingFor(false, |payload|) <= MAX_PACKET_LEN
    requires r.Pending() == Plain(false, payload, noise) + rest
    ensures Receive(a, r, [])
         == (Got(Packet(r.sequenceNumber, payload[0], payload[1..])),
             Consume(Compact(r), |Plain(false, payload, noise)| - 4, 0), [])
  {
    var c := Compact(r);
    var plain := Plain(false, payload, noise);
    PlainShape(false, payload, noise);
    PlainDecodes(false, payload, noise, rest, r.sequenceNumber);
    assert c.buf[..4] == plain[..4];
    var packet := Packet(r.sequenceNumber, payload[0], payload[1..]);
    ReceivedWhen(a, r, |plain| - 4, Consume(c, |plain| - 4, 0), packet);
  }

  lemma FrameParts(plain: bytes, cipher: bytes, tag: bytes, rest: bytes)
    requires |plain| >= 4 && |cipher| == |plain| - 4 && |tag| == TAG_LEN
    ensures var all := plain[..4] + cipher + tag + rest;
            var end := |plain|;
            && all[..4] == plain[..4] && all[4..end] == cipher && all[end..end + TAG_LEN] == tag
            && all[..4] + plain[4..] + all[end..] == plain + all[end..]
  {
  }

  lemma SealedReceived(a: Aead, r: Reader, payload: bytes, noise: nat -> byte, rest: bytes)
    requires r.Valid() && r.opener.Some? && payload != []
    requires 1 + |payload| + PaddingFor(true, |payload|) <= MAX_PACKET_LEN
    requires Frame(a, r.opener, payload, noise).Ok?
    requires r.Pending() == Frame(a, r.opener, payload, noise).value.0 + rest
    ensures |Plain(true, payload, noise)| <= |r.Pending()|
    ensures Receive(a, r, [])
         == (Got(Packet(r.sequenceNumber, payload[0], payload[1..])),
             Reader(Plain(true, payload, noise) + r.Pending()[|Plain(true, payload, noise)|..],
                    |Plain(true, payload, noise)| + TAG_LEN, (r.sequenceNumber + 1) % U32,
                    Frame(a, r.opener, payload, noise).value.1), [])
  {
    hide Plain, DecodePacket, Receive, PaddingFor, FromBE;
    var c := Compact(r);
    var plain := Plain(true, payload, noise);
    PlainShape(true, payload, noise);
    var g := c.opener.value;
    var nonce := NextNonce(g).value.0;
    var (cipher, tag) := a.seal(g.key, nonce, plain[..4], plain[4..]);
    var end := |plain|;
    FrameParts(plain, cipher, tag, rest);
    assert c.buf == plain[..4] + cipher + tag + rest;
    PlainDecodes(true, payload, noise, c.buf[end..], r.sequenceNumber);
    var polled := Reader(plain + c.buf[end..], end + TAG_LEN, (r.sequenceNumber + 1) % U32,
                         Frame(a, r.opener, payload, noise).value.1);
    ReceivedWhen(a, r, end - 4, polled, Packet(r.sequenceNumber, payload[0], payload[1..]));
  }

  /** A whole frame in front of the buffer is received as its packet, and nothing more. */
  lemma FrameReceived(a: Aead, r: Reader, payload: bytes, noise: nat -> byte, rest: bytes)
    requires r.Valid() && payload != []
    requires 1 + |payload| + PaddingFor(r.opener.Some?, |payload|) <= MAX_PACKET_LEN
    requires Frame(a, r.opener, payload, noise).Ok?
    requires r.Pending() == Frame(a, r.opener, payload, noise).value.0 + rest
    ensures var (x, r', none) := Receive(a, r, []);
            && x == Got(Packet(r.sequenceNumber, payload[0], payload[1..])) && r'.Pending() == rest
            && r'.opener == Frame(a, r.opener, payload, noise).value.1
            && r'.sequenceNumber == (r.sequenceNumber + 1) % U32 && none == []
  {
    hide Receive, PollFront, Plain;
    if r.opener.Some? {
      SealedReceived(a, r, payload, noise, rest);
      var plain := Plain(true, payload, noise);
      assert (plain + r.Pending()[|plain|..])[|plain| + TAG_LEN..] == rest;
    } else {
      PlainReceived(a, r, payload, noise, rest);
    }
  }

  lemma NothingPending(a: Aead, policy: Policy, r: Reader, history: seq<Packet>)
    requires r.Valid() && r.Pending() == []
    ensures Deliver(a, policy, r, history, []) == Outcome(history, None)
  {
  }

  // The theorem

  lemma CountAfter(history: seq<Packet>, p: Packet)
    ensures CountNewKeys(history + [p]) == CountNewKeys(history) + if p.kind == NEWKEYS then 1 else 0
  {
    assert (history + [p])[..|history|] == history;
  }

  /** A frame in front of the buffer is one step of delivery. */
  lemma DeliverFrame(
    a: Aead, policy: Policy, r: Reader, history: seq<Packet>, payload: bytes, noise: nat -> byte, rest: bytes)
    returns (next: Reader)
    requires r.Valid() && payload != []
    requires 1 + |payload| + PaddingFor(r.opener.Some?, |payload|) <= MAX_PACKET_LEN
    requires Frame(a, r.opener, payload, noise).Ok?
    requires r.Pending() == Frame(a, r.opener, payload, noise).value.0 + rest
    ensures next.Valid() && next.Pending() == rest
    ensures next.opener == Frame(a, r.opener, payload, noise).value.1
    ensures next.sequenceNumber == (r.sequenceNumber + 1) % U32
    ensures var h := history + [Packet(r.sequenceNumber, payload[0], payload[1..])];
            Deliver(a, policy, r, history, []) == Deliver(a, policy, AfterPacket(policy, next, h), h, [])
  {
    hide Receive, PollFront, Frame, PaddingFor;
    FrameReceived(a, r, payload, noise, rest);
    next := Receive(a, r, []).1;
  }

  lemma MirrorOnData(changes: seq<KeySwitch>, r: Reader, history: seq<Packet>, packet: Packet)
    requires r.Valid() && packet.kind != NEWKEYS
    ensures AfterPacket(Mirror(changes), r, history + [packet]) == r
    ensures CountNewKeys(history + [packet]) == CountNewKeys(history)
  {
    CountAfter(history, packet);
  }

  lemma MirrorOnNewKeys(changes: seq<KeySwitch>, r: Reader, history: seq<Packet>, packet: Packet)
    requires r.Valid() && packet.kind == NEWKEYS && CountNewKeys(history) < |changes|
    ensures var k := changes[CountNewKeys(history)];
            AfterPacket(Mirror(changes), r, history + [packet]) == SwitchReader(r, k.key, k.strict)
    ensures CountNewKeys(history + [packet]) == CountNewKeys(history) + 1
  {
    CountAfter(history, packet);
  }

  predicate InStep(a: Aead, changes: seq<KeySwitch>, r: Reader, history: seq<Packet>, ops: seq<Op>) {
    && r.Valid() && Sendable(r.opener.Some?, ops) && Frames(a, r.opener, ops) == Some(r.Pending())
    && CountNewKeys(history) <= |changes| && changes[CountNewKeys(history)..] == Changes(ops)
  }

  lemma {:induction false} SendDelivered(
    a: Aead, changes: seq<KeySwitch>, r: Reader, history: seq<Packet>, ops: seq<Op>)
    requires InStep(a, changes, r, history, ops) && ops != [] && ops[0].Send?
    ensures Deliver(a, Mirror(changes), r, history, [])
         == Outcome(history + Conveyed(r.sequenceNumber, ops), None)
    decreases |ops|, 0
  {
    hide Frame, Deliver, PaddingFor, Mirror, AfterPacket, CountNewKeys;
    var payload, noise := ops[0].payload, ops[0].noise;
    var packet := Packet(r.sequenceNumber, payload[0], payload[1..]);
    var after := Frame(a, r.opener, payload, noise).value.1;
    var next := DeliverFrame(a, Mirror(changes), r, history, payload, noise,
                             Frames(a, after, ops[1..]).value);
    MirrorOnData(changes, next, history, packet);
    assert Changes(ops) == Changes(ops[1..]);
    FramesDelivered(a, changes, next, history + [packet], ops[1..]);
    ConcatCons(history, packet, Conveyed(next.sequenceNumber, ops[1..]));
  }

  lemma {:induction false} SwitchDelivered(
    a: Aead, changes: seq<KeySwitch>, r: Reader, history: seq<Packet>, ops: seq<Op>)
    requires InStep(a, changes, r, history, ops) && ops != [] && ops[0].Switch?
    ensures Deliver(a, Mirror(changes), r, history, [])
         == Outcome(history + Conveyed(r.sequenceNumber, ops), None)
    decreases |ops|, 0
  {
    hide Frame, Deliver, PaddingFor, Mirror, AfterPacket, CountNewKeys;
    var change, noise := ops[0].change, ops[0].noise;
    var packet := Packet(r.sequenceNumber, NEWKEYS, []);
    var n := CountNewKeys(history);
    assert [NEWKEYS][1..] == [];
    SmallPacket(r.opener.Some?);
    var next := DeliverFrame(a, Mirror(changes), r, history, [NEWKEYS], noise,
                             Frames(a, Some(change.key), ops[1..]).value);
    assert changes[n] == changes[n..][0] == change;
    assert changes[n + 1..] == changes[n..][1..] == Changes(ops[1..]);
    MirrorOnNewKeys(changes, next, history, packet);
    var switched := SwitchReader(next, change.key, change.strict);
    FramesDelivered(a, changes, switched, history + [packet], ops[1..]);
    ConcatCons(history, packet, Conveyed(switched.sequenceNumber, ops[1..]));
  }

  lemma {:induction false} FramesDelivered(
    a: Aead, changes: seq<KeySwitch>, r: Reader, history: seq<Packet>, ops: seq<Op>)
    requires InStep(a, changes, r, history, ops)
    ensures Deliver(a, Mirror(changes), r, history, [])
         == Outcome(history + Conveyed(r.sequenceNumber, ops), None)
    decreases |ops|, 1
  {
    hide Frame, Deliver, PaddingFor, Mirror, CountNewKeys;
    if ops == [] {
      NothingPending(a, Mirror(changes), r, history);
      assert history + [] == history;
    } else if ops[0].Send? {
      SendDelivered(a, changes, r, history, ops);
    } else if ops[0].Switch? {
      SwitchDelivered(a, changes, r, history, ops);
    } else {
      assert Changes(ops) == Changes(ops[1..]);
      FramesDelivered(a, changes, r, history, ops[1..]);
    }
  }

  lemma ConcatCons(history: seq<Packet>, p: Packet, rest: seq<Packet>)
    ensures history + ([p] + rest) == (history + [p]) + rest
  {
  }

  lemma SmallPacket(sealed: bool)
    ensures 1 + |[NEWKEYS]| + PaddingFor(sealed, |[NEWKEYS]|) <= MAX_PACKET_LEN
  {
    PaddingIsSound(sealed, 1);
  }

  /** Two-party transport. A reader in step with the writer, fed everything the writer has
      produced in any pieces, delivers exactly the packets sent, in order and with equal sequence
      numbers, through any number of key changes. */
  lemma TwoPartyTransport(a: Aead, w: Writer, r: Reader, ops: seq<Op>, pieces: seq<bytes>)
    requires w.Valid() && w.Buffered() == []
    requires r.Valid() && r.Pending() == []
    requires r.opener == w.sealer && r.sequenceNumber == w.sequenceNumber
    requires Sendable(w.sealer.Some?, ops) && RunWriter(a, w, ops).Some?
    requires NonEmpty(pieces) && RunWriter(a, w, ops).value.1.Valid()
    requires Flatten(pieces) == RunWriter(a, w, ops).value.0 + RunWriter(a, w, ops).value.1.Buffered()
    ensures Deliver(a, Mirror(Changes(ops)), r, [], pieces)
         == Outcome(Conveyed(w.sequenceNumber, ops), None)
  {
    hide RunWriter, Frames, Deliver, Sendable, Mirror;
    WireIsFrames(a, w, ops);
    DeliverFromWhole(a, Mirror(Changes(ops)), r, [], pieces);
    var whole := Feed(r, Flatten(pieces));
    assert whole.Pending() == Frames(a, w.sealer, ops).value;
    FramesDelivered(a, Changes(ops), whole, [], ops);
    assert [] + Conveyed(w.sequenceNumber, ops) == Conveyed(w.sequenceNumber, ops);
  }

  /** With only part of the bytes there, the packets delivered are an initial segment of those
      sent and the connection is still good. */
  lemma TwoPartyPrefix(a: Aead, w: Writer, r: Reader, ops: seq<Op>, pieces: seq<bytes>)
    requires w.Valid() && w.Buffered() == []
    requires r.Valid() && r.Pending() == []
    requires r.opener == w.sealer && r.sequenceNumber == w.sequenceNumber
    requires Sendable(w.sealer.Some?, ops) && RunWriter(a, w, ops).Some?
    requires NonEmpty(pieces) && RunWriter(a, w, ops).value.1.Valid()
    requires Flatten(pieces) <= RunWriter(a, w, ops).value.0 + RunWriter(a, w, ops).value.1.Buffered()
    ensures var o := Deliver(a, Mirror(Changes(ops)), r, [], pieces);
            o.failure.None? && o.packets <= Conveyed(w.sequenceNumber, ops)
  {
    hide RunWriter, Frames, Deliver, Sendable, Mirror;
    var policy := Mirror(Changes(ops));
    var all := RunWriter(a, w, ops).value.0 + RunWriter(a, w, ops).value.1.Buffered();
    var got := Flatten(pieces);
    var rest := all[|got|..];
    assert got + rest == all;
    DeliverFromWhole(a, policy, r, [], pieces);
    DeliverPrefix(a, policy, Feed(r, got), [], rest);
    assert Feed(Feed(r, got), rest) == Feed(r, all);
    WireIsFrames(a, w, ops);
    assert Feed(r, all).Pending() == Frames(a, w.sealer, ops).value;
    FramesDelivered(a, Changes(ops), Feed(r, all), [], ops);
    assert [] + Conveyed(w.sequenceNumber, ops) == Conveyed(w.sequenceNumber, ops);
  }
}
