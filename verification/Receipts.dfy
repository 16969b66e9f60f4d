/** What is received, told from the bytes alone: which bytes of the stream make a packet, what a
    packet under a key has to do with the cipher, and what happens to everything else. */
module Receipts {
  import opened Bytes
  import opened Gcm
  import opened Crypto
  import opened Transport
  import opened Delivery
  import opened TwoParty
  import opened Connections
  import opened Nonces

  function TagSize(opener: Option<Gcm>): nat {
    if opener.Some? then 16 else 0
  }

  /** The bytes start with a packet that is not too long, and hold all of it. */
  predicate Whole(opener: Option<Gcm>, b: bytes) {
    |b| >= 4 && FromBE(b[..4]) <= 65536 && |b| >= 4 + FromBE(b[..4]) + TagSize(opener)
  }

  predicate TooLong(b: bytes) {
    |b| >= 4 && FromBE(b[..4]) > 65536
  }

  /** What the first packet says: its bytes as they are, or, under a key, what the cipher opens them to,
      with the next nonce, the length as associated data and the tag behind. */
  function Revealed(a: Aead, opener: Option<Gcm>, b: bytes): (r: Result<bytes, CryptoError>)
    requires Whole(opener, b) && (opener.Some? ==> opener.value.Shaped())
    ensures r.Ok? ==> |r.value| == FromBE(b[..4])
  {
    var n := 4 + FromBE(b[..4]);
    if opener.None? then Ok(b[4..n]) else
    match NextNonce(opener.value)
    case Err(e) => Err(e)
    case Ok((nonce, _)) =>
      match a.open(opener.value.key, nonce, b[..4], b[4..n], b[n..n + 16])
      case None => Err(DecryptionFailed)
      case Some(plain) => Ok(plain)
  }

  /** A message type and payload between their padding length and at least four bytes of padding. */
  ghost predicate Wraps(body: bytes, kind: byte, payload: bytes) {
    exists padding: bytes :: Padding4(padding) && body == [|padding|, kind] + payload + padding
  }

  predicate Padding4(padding: bytes) {
    4 <= |padding| < 256
  }

  lemma WrapsIff(body: bytes, kind: byte, payload: bytes)
    ensures Wraps(body, kind, payload) <==>
              |body| >= 2 && 4 <= body[0] <= |body| - 2 && body[1] == kind && payload == body[2..|body| - body[0]]
  {
    if |body| >= 2 && 4 <= body[0] <= |body| - 2 && body[1] == kind && payload == body[2..|body| - body[0]] {
      var padding := body[|body| - body[0]..];
      assert Padding4(padding) && body == [|padding|, kind] + payload + padding;
    }
    if Wraps(body, kind, payload) {
      var padding :| Padding4(padding) && body == [|padding|, kind] + payload + padding;
      assert body[0] == |padding| && body[1] == kind;
      assert payload == body[2..|body| - |padding|];
    }
  }

  /** What has to be said of a receive that finds the bytes `b` unread. */
  ghost predicate Settles(a: Aead, r: Reader, b: bytes, x: Received)
    requires r.Valid()
  {
    && (TooLong(b) ==> x == Broken(InvalidPacket))
    && (!TooLong(b) && !Whole(r.opener, b) <==> x.Eof?)
    && (Whole(r.opener, b) ==>
          var body := Revealed(a, r.opener, b);
          && (body.Err? ==> x == Broken(Crypto(body.error)))
          && (body.Ok? ==>
                && (x.Got? ==> x.packet.sequenceNumber == r.sequenceNumber)
                && forall kind, payload ::
                     Wraps(body.value, kind, payload) <==> x == Got(Packet(r.sequenceNumber, kind, payload))))
  }

  /** What is left to be read behind the first packet, and the reader's counters. */
  ghost predicate Leaves(r: Reader, b: bytes, after: Reader, rest: seq<bytes>)
    requires r.Valid() && after.Valid() && Whole(r.opener, b)
  {
    && after.Pending() + Flatten(rest) == b[4 + FromBE(b[..4]) + TagSize(r.opener)..]
    && after.sequenceNumber == (r.sequenceNumber + 1) % 0x1_0000_0000
    && (r.opener.None? ==> after.opener.None?)
    && (r.opener.Some? ==> NextNonce(r.opener.value).Ok? && after.opener == Some(NextNonce(r.opener.value).value.1))
  }

  lemma SliceOfSlice(b: bytes, i: nat, j: nat, k: nat, m: nat)
    requires i <= j <= |b| && k <= m <= j - i
    ensures b[i..j][k..m] == b[i + k..i + m]
  {
    var inner, outer := b[i..j][k..m], b[i + k..i + m];
    forall x | 0 <= x < |outer| ensures inner[x] == outer[x] {
      assert inner[x] == b[i..j][k + x];
    }
  }

  lemma DecodedShape(buf: bytes, n: nat, length: nat)
    requires 4 + length <= |buf|
    ensures var x := DecodePacket(buf, n, length);
            && (x.Ok? <==> length >= 2 && 4 <= buf[4] <= length - 2)
            && (x.Ok? ==> x == Ok(Packet(n, buf[5], buf[6..4 + length - buf[4]])))
  {
    if length >= 1 {
      assert buf[4..][1..] == buf[5..];
      if length >= 2 && 4 <= buf[4] <= length - 2 {
        SliceOfSlice(buf, 5, |buf|, 1, length - 1 - buf[4]);
        assert buf[5..|buf|] == buf[5..];
      }
    } else if |buf| > 4 {
      assert buf[4..][1..] == buf[5..];
    }
  }

  lemma DecodesIff(buf: bytes, n: nat, length: nat)
    requires 4 + length <= |buf|
    ensures var x := DecodePacket(buf, n, length);
            var body := buf[4..4 + length];
            && (x.Ok? ==> x.value.sequenceNumber == n && Wraps(body, x.value.kind, x.value.payload))
            && (forall kind, payload :: Wraps(body, kind, payload) ==> x == Ok(Packet(n, kind, payload)))
  {
    hide Wraps, DecodePacket;
    DecodedShape(buf, n, length);
    var x, body := DecodePacket(buf, n, length), buf[4..4 + length];
    if length >= 2 {
      assert body[0] == buf[4] && body[1] == buf[5];
      if 4 <= buf[4] <= length - 2 {
        SliceOfSlice(buf, 4, 4 + length, 2, length - buf[4]);
      }
    }
    if x.Ok? {
      WrapsIff(body, x.value.kind, x.value.payload);
    }
    forall kind, payload | Wraps(body, kind, payload) ensures x == Ok(Packet(n, kind, payload)) {
      WrapsIff(body, kind, payload);
    }
  }

  lemma PollReveals(a: Aead, c: Reader)
    requires c.Valid() && c.lastLength == 0 && Whole(c.opener, c.buf)
    ensures var (p, o) := PollFront(a, c);
            var body := Revealed(a, c.opener, c.buf);
            var length := FromBE(c.buf[..4]);
            && (body.Err? ==> p == Failed(Crypto(body.error)))
            && (body.Ok? ==> p == Complete(c.sequenceNumber, length) && 4 + length <= |o.buf|
                             && o.buf[4..4 + length] == body.value && Leaves(c, c.buf, o, []))
  {
    var length := FromBE(c.buf[..4]);
    var (p, o) := PollFront(a, c);
    var body := Revealed(a, c.opener, c.buf);
    if body.Ok? && c.opener.Some? {
      assert o.buf == c.buf[..4] + body.value + c.buf[4 + length..];
      assert o.buf[4..4 + length] == body.value;
      assert o.buf[4 + length + TAG_LEN..] == c.buf[4 + length + TAG_LEN..];
    }
  }

  lemma PollWaits(a: Aead, c: Reader)
    requires c.Valid() && c.lastLength == 0
    ensures NeedsMore(PollFront(a, c).0) <==> !TooLong(c.buf) && !Whole(c.opener, c.buf)
    ensures TooLong(c.buf) ==> PollFront(a, c).0 == Failed(InvalidPacket)
  {
  }

  lemma ReceiveAtOnce(a: Aead, r: Reader)
    requires r.Valid()
    ensures var (x, after, rest) := Receive(a, r, []);
            && Settles(a, r, r.Pending(), x)
            && (x.Got? ==> Whole(r.opener, r.Pending()) && Leaves(r, r.Pending(), after, rest))
  {
    hide PollFront, DecodePacket, Wraps, Revealed, Leaves;
    var c := Compact(r);
    PollWaits(a, c);
    var (p, o) := PollFront(a, c);
    assert c.buf == r.Pending();
    if Whole(r.opener, c.buf) {
      PollReveals(a, c);
      if p.Complete? {
        DecodesIff(o.buf, p.sequenceNumber, p.length);
        LeavesFrom(r, c, o);
      }
    }
  }

  lemma LeavesFrom(r: Reader, c: Reader, o: Reader)
    requires r.Valid() && c == Compact(r) && o.Valid() && Whole(c.opener, c.buf) && Leaves(c, c.buf, o, [])
    ensures Leaves(r, r.Pending(), o, [])
  {
  }

  /** Receiving, exactly: with the bytes still to be read, however they are cut, a packet is received if
      and only if they start with a whole packet that is not too long, that the cipher opens if there is
      a key, and that wraps a message type and payload; then that is the packet, and reading goes on
      right behind it. A packet the cipher refuses, or for which there is no nonce left, is an error;
      so is one that is too long; and only the end of the stream in the middle of a packet is an end. */
  lemma ReceiveExactly(a: Aead, r: Reader, pieces: seq<bytes>)
    requires r.Valid() && NonEmpty(pieces)
    ensures var b := r.Pending() + Flatten(pieces);
            var (x, after, rest) := Receive(a, r, pieces);
            Settles(a, r, b, x) && (x.Got? ==> Whole(r.opener, b) && Leaves(r, b, after, rest))
  {
    hide Receive, Wraps, Bare;
    var more := Flatten(pieces);
    var whole := Feed(r, more);
    var (x, after, rest) := Receive(a, r, pieces);
    var (y, after', none) := Receive(a, whole, []);
    ReceiveFromWhole(a, r, pieces);
    ReceiveAtOnce(a, whole);
    assert whole.Pending() == r.Pending() + more;
    if x.Broken? {
      BrokenIff(a, r, pieces);
      AllZero();
    }
    if x.Got? {
      assert after'.Pending() + Flatten(none) == after.Pending() + Flatten(rest);
    }
  }

  // Runs of the reader

  /** The packet is what the cipher opened the call to. */
  ghost predicate Opening(a: Aead, call: OpenCall, packet: Packet) {
    var plain := a.open(call.key, call.nonce, call.ad, call.text, call.tag);
    plain.Some? && Wraps(plain.value, packet.kind, packet.payload)
  }

  lemma PollOpens(a: Aead, r: Reader)
    requires r.Valid() && r.opener.Some? && Poll(a, r).0.Complete?
    ensures var (p, o) := Poll(a, r);
            var calls := PollCalls(Compact(r));
            && |calls| == 1 && calls[0].key == r.opener.value.key
            && calls[0].ad + calls[0].text + calls[0].tag <= r.Pending()
            && a.open(calls[0].key, calls[0].nonce, calls[0].ad, calls[0].text, calls[0].tag)
               == Some(o.buf[4..4 + p.length])
  {
    var c := Compact(r);
    PollWaits(a, c);
    PollReveals(a, c);
    var length := FromBE(c.buf[..4]);
    assert c.buf[..4] + c.buf[4..4 + length] + c.buf[4 + length..4 + length + TAG_LEN]
        == c.buf[..4 + length + TAG_LEN];
  }

  lemma NoCallYet(a: Aead, r: Reader)
    requires r.Valid() && NeedsMore(Poll(a, r).0)
    ensures PollCalls(Compact(r)) == []
  {
  }

  /** One call was made, under the key, on the bytes that `b` starts with, and it opened to the packet. */
  ghost predicate OneCall(a: Aead, calls: seq<OpenCall>, key: bytes, b: bytes, packet: Packet) {
    && |calls| == 1 && calls[0].key == key && Opening(a, calls[0], packet)
    && calls[0].ad + calls[0].text + calls[0].tag <= b
  }

  lemma ReceivedAtOnce(a: Aead, r: Reader, pieces: seq<bytes>)
    requires r.Valid() && r.opener.Some? && Poll(a, r).0.Complete? && Receive(a, r, pieces).0.Got?
    ensures OneCall(a, ReceiveCalls(a, r, pieces), r.opener.value.key, r.Pending() + Flatten(pieces),
                    Receive(a, r, pieces).0.packet)
  {
    hide Poll, PollCalls, DecodePacket, Wraps;
    var (p, o) := Poll(a, r);
    PollOpens(a, r);
    DecodesIff(o.buf, p.sequenceNumber, p.length);
    assert ReceiveCalls(a, r, pieces) == PollCalls(Compact(r)) + [] == PollCalls(Compact(r));
  }

  lemma ReceivedLater(a: Aead, r: Reader, pieces: seq<bytes>)
    requires r.Valid() && !Poll(a, r).0.Complete? && Receive(a, r, pieces).0.Got?
    ensures pieces != [] && pieces[0] != []
    ensures Receive(a, r, pieces) == Receive(a, Feed(Compact(r), pieces[0]), pieces[1..])
    ensures ReceiveCalls(a, r, pieces) == ReceiveCalls(a, Feed(Compact(r), pieces[0]), pieces[1..])
  {
    hide Poll, PollCalls;
    NoCallYet(a, r);
    PollGrows(a, r, []);
    var later := ReceiveCalls(a, Feed(Compact(r), pieces[0]), pieces[1..]);
    assert [] + later == later;
  }

  /** A packet received under a key is the opening of the one call that was made, and the call was on
      the next bytes to be read. */
  lemma {:induction false} ReceiveOpens(a: Aead, r: Reader, pieces: seq<bytes>)
    requires r.Valid() && r.opener.Some? && Receive(a, r, pieces).0.Got?
    ensures OneCall(a, ReceiveCalls(a, r, pieces), r.opener.value.key, r.Pending() + Flatten(pieces),
                    Receive(a, r, pieces).0.packet)
    decreases |pieces|
  {
    hide Receive, ReceiveCalls, Poll, OneCall;
    if Poll(a, r).0.Complete? {
      ReceivedAtOnce(a, r, pieces);
    } else {
      ReceivedLater(a, r, pieces);
      var next := Feed(Compact(r), pieces[0]);
      ReceiveOpens(a, next, pieces[1..]);
      assert next.Pending() + Flatten(pieces[1..]) == r.Pending() + Flatten(pieces);
    }
  }

  /** The packets a run of the reader receives. */
  function Taken(a: Aead, r: Reader, ops: seq<ReadOp>): seq<Packet>
    requires r.Valid()
    decreases |ops|
  {
    if ops == [] then [] else
    match ops[0]
    case Receives(pieces) =>
      var (x, after, _) := Receive(a, r, pieces);
      (if x.Got? then [x.packet] else []) + Taken(a, after, ops[1..])
    case Buffers(piece) => Taken(a, Feed(Compact(r), piece), ops[1..])
    case Installs(change) => Taken(a, SwitchReader(r, change.key, change.strict), ops[1..])
  }

  /** Operation `i` receives a packet; if there is a key, it is the opening of the one call that is made,
      under that key. */
  ghost predicate OpenedAt(a: Aead, r: Reader, ops: seq<ReadOp>, i: nat)
    requires r.Valid() && i < |ops| && ops[i].Receives?
  {
    var now, pieces := RunReader(a, r, ops[..i]), ops[i].pieces;
    var x := Receive(a, now, pieces).0;
    && x.Got?
    && (now.opener.Some? ==> OneCall(a, ReceiveCalls(a, now, pieces), now.opener.value.key,
                                     now.Pending() + Flatten(pieces), x.packet))
  }

  ghost predicate AllOpened(a: Aead, r: Reader, ops: seq<ReadOp>)
    requires r.Valid()
  {
    forall i :: 0 <= i < |ops| && ops[i].Receives? ==> OpenedAt(a, r, ops, i)
  }

  lemma OpenedOne(a: Aead, r: Reader, pieces: seq<bytes>)
    requires r.Valid() && Receive(a, r, pieces).0.Got?
    ensures AllOpened(a, r, [Receives(pieces)]) && Taken(a, r, [Receives(pieces)]) == [Receive(a, r, pieces).0.packet]
  {
    hide Receive, ReceiveCalls, OneCall;
    if r.opener.Some? {
      ReceiveOpens(a, r, pieces);
    }
    var ops := [Receives(pieces)];
    assert ops[..0] == [] && ops[1..] == [];
    assert RunReader(a, r, []) == r;
    assert Taken(a, Receive(a, r, pieces).1, []) == [];
  }

  lemma OpenedNone(a: Aead, r: Reader, op: ReadOp)
    requires r.Valid() && !op.Receives?
    ensures AllOpened(a, r, [op]) && Taken(a, r, [op]) == []
  {
    assert [op][1..] == [];
  }

  lemma OpenedThen(a: Aead, r: Reader, xs: seq<ReadOp>, ys: seq<ReadOp>)
    requires r.Valid() && AllOpened(a, r, xs) && AllOpened(a, RunReader(a, r, xs), ys)
    ensures AllOpened(a, r, xs + ys)
  {
    hide OpenedAt, RunReader;
    var ops := xs + ys;
    forall i | 0 <= i < |ops| && ops[i].Receives? ensures OpenedAt(a, r, ops, i) {
      if i < |xs| {
        assert ops[..i] == xs[..i] && ops[i] == xs[i];
        OpenedMoves(a, r, r, xs, i, ops, i);
      } else {
        var j := i - |xs|;
        assert ops[..i] == xs + ys[..j] && ops[i] == ys[j];
        RunReaderAppend(a, r, xs, ys[..j]);
        OpenedMoves(a, RunReader(a, r, xs), r, ys, j, ops, i);
      }
    }
  }

  lemma OpenedMoves(a: Aead, r: Reader, s: Reader, xs: seq<ReadOp>, i: nat, ys: seq<ReadOp>, j: nat)
    requires r.Valid() && s.Valid() && i < |xs| && j < |ys| && xs[i] == ys[j] && xs[i].Receives?
    requires RunReader(a, r, xs[..i]) == RunReader(a, s, ys[..j]) && OpenedAt(a, r, xs, i)
    ensures OpenedAt(a, s, ys, j)
  {
    hide Receive, ReceiveCalls, OneCall, RunReader;
  }

  lemma {:induction false} TakenThen(a: Aead, r: Reader, xs: seq<ReadOp>, ys: seq<ReadOp>)
    requires r.Valid()
    ensures Taken(a, r, xs + ys) == Taken(a, r, xs) + Taken(a, RunReader(a, r, xs), ys)
    decreases |xs|
  {
    hide Receive;
    if xs == [] {
      assert [] + ys == ys;
    } else {
      assert (xs + ys)[1..] == xs[1..] + ys;
      match xs[0]
      case Receives(pieces) => TakenThen(a, Receive(a, r, pieces).1, xs[1..], ys);
      case Buffers(piece) => TakenThen(a, Feed(Compact(r), piece), xs[1..], ys);
      case Installs(change) => TakenThen(a, SwitchReader(r, change.key, change.strict), xs[1..], ys);
    }
  }

  // Deliveries

  /** A delivery, as a run of the reader. */
  function DeliverTakes(a: Aead, policy: Policy, r: Reader, history: seq<Packet>, pieces: seq<bytes>): seq<ReadOp>
    requires r.Valid()
    decreases |r.Pending()| + |Flatten(pieces)|
  {
    var (x, after, rest) := Receive(a, r, pieces);
    if !x.Got? then [] else
    var now := history + [x.packet];
    [Receives(pieces)]
    + (if policy(now).Some? then [Installs(policy(now).value)] else [])
    + DeliverTakes(a, policy, AfterPacket(policy, after, now), now, rest)
  }

  /** Whatever the bytes, every packet delivered under a key is the opening of one call. */
  lemma {:induction false} DeliveredAreOpened(a: Aead, policy: Policy, r: Reader, history: seq<Packet>,
                                              pieces: seq<bytes>)
    requires r.Valid()
    ensures var takes := DeliverTakes(a, policy, r, history, pieces);
            && Deliver(a, policy, r, history, pieces).packets == history + Taken(a, r, takes)
            && AllOpened(a, r, takes)
    decreases |r.Pending()| + |Flatten(pieces)|
  {
    hide Receive, AllOpened;
    var (x, after, rest) := Receive(a, r, pieces);
    if !x.Got? {
      assert AllOpened(a, r, []) by { NothingOpened(a, r); }
    } else {
      var now := history + [x.packet];
      var first := [Receives(pieces)];
      var change := if policy(now).Some? then [Installs(policy(now).value)] else [];
      var next := AfterPacket(policy, after, now);
      DeliveredAreOpened(a, policy, next, now, rest);
      OpenedOne(a, r, pieces);
      AfterTakes(a, policy, r, now, pieces);
      OpenedThen(a, r, first, change);
      var tail := DeliverTakes(a, policy, next, now, rest);
      TakenThen(a, r, first, change);
      OpenedThen(a, r, first + change, tail);
      TakenThen(a, r, first + change, tail);
      assert history + ([x.packet] + Taken(a, next, tail)) == now + Taken(a, next, tail);
    }
  }

  lemma NothingOpened(a: Aead, r: Reader)
    requires r.Valid()
    ensures AllOpened(a, r, [])
  {
  }

  lemma AfterTakes(a: Aead, policy: Policy, r: Reader, now: seq<Packet>, pieces: seq<bytes>)
    requires r.Valid()
    ensures var after := Receive(a, r, pieces).1;
            var change := if policy(now).Some? then [Installs(policy(now).value)] else [];
            && RunReader(a, r, [Receives(pieces)]) == after
            && RunReader(a, r, [Receives(pieces)] + change) == AfterPacket(policy, after, now)
            && AllOpened(a, after, change) && Taken(a, after, change) == []
  {
    hide Receive, OpenedAt;
    var after := Receive(a, r, pieces).1;
    var first := [Receives(pieces)];
    assert first[1..] == [];
    assert RunReader(a, after, []) == after;
    if policy(now).Some? {
      var op := Installs(policy(now).value);
      RunReaderAppend(a, r, first, [op]);
      assert [op][1..] == [];
      var next := AfterPacket(policy, after, now);
      assert RunReader(a, next, []) == next;
      OpenedNone(a, after, op);
    } else {
      assert first + [] == first;
    }
  }
}
