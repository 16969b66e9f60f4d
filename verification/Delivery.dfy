/** The receive loop: poll the buffer, read from the stream when it is short, decode when a
    packet is complete. The stream is the list of pieces its reads return; an empty piece or the
    end of the list is end of file. */
module Delivery {
  import opened Bytes
  import opened Gcm
  import opened Transport

  datatype Received = Got(packet: Packet) | Eof | Broken(error: ProtoError)

  predicate NeedsMore(p: Polled) {
    p.Short? || (p.Failed? && p.error.Incomplete?)
  }

  function Feed(r: Reader, more: bytes): (f: Reader)
    ensures r.Valid() ==> f.Valid() && f.Pending() == r.Pending() + more
  {
    r.(buf := r.buf + more)
  }

  function Receive(a: Aead, r: Reader, pieces: seq<bytes>): (result: (Received, Reader, seq<bytes>))
    requires r.Valid()
    ensures result.1.Valid()
    ensures result.0.Got? ==>
              |result.1.Pending()| + |Flatten(result.2)| < |r.Pending()| + |Flatten(pieces)|
    decreases |pieces|
  {
    var (p, polled) := Poll(a, r);
    if p.Complete? then
      match DecodePacket(polled.buf, p.sequenceNumber, p.length)
      case Ok(packet) => (Got(packet), polled, pieces)
      case Err(e) => (Broken(e), polled, pieces)
    else
      PollGrows(a, r, []);
      if !NeedsMore(p) then (Broken(p.error), polled, pieces)
      else if pieces == [] || pieces[0] == [] then (Eof, polled, pieces)
      else Receive(a, Feed(polled, pieces[0]), pieces[1..])
  }

  // Single packets

  lemma OpenGrows(a: Aead, c: Reader, g: Gcm, length: nat, more: bytes)
    requires c.Valid() && c.lastLength == 0 && g.Shaped() && 4 + length + TAG_LEN <= |c.buf|
    ensures var (p, o) := OpenFirst(a, c, g, length);
            OpenFirst(a, Feed(c, more), g, length) == (p, Feed(o, more))
  {
    var d := Feed(c, more);
    assert d.buf[..4] == c.buf[..4];
    assert d.buf[4..4 + length] == c.buf[4..4 + length];
    assert d.buf[4 + length..4 + length + TAG_LEN] == c.buf[4 + length..4 + length + TAG_LEN];
    if NextNonce(g).Ok? {
      var nonce := NextNonce(g).value.0;
      var plain := a.open(g.key, nonce, c.buf[..4], c.buf[4..4 + length],
                          c.buf[4 + length..4 + length + TAG_LEN]);
      if plain.Some? {
        assert d.buf[..4] + plain.value + d.buf[4 + length..]
            == (c.buf[..4] + plain.value + c.buf[4 + length..]) + more;
      }
    }
  }

  lemma FrontGrows(a: Aead, c: Reader, more: bytes)
    requires c.Valid() && c.lastLength == 0
    ensures var (p, polled) := PollFront(a, c);
            var (q, grown) := PollFront(a, Feed(c, more));
            && (p.Complete? ==> q == p && grown == Feed(polled, more))
            && (p.Failed? && !NeedsMore(p) ==> q == p)
            && (NeedsMore(p) ==> polled == c)
  {
    var d := Feed(c, more);
    if |c.buf| >= 4 {
      assert d.buf[..4] == c.buf[..4];
      var length := FromBE(c.buf[..4]);
      if c.opener.Some? && 4 + length + TAG_LEN <= |c.buf| {
        OpenGrows(a, c, c.opener.value, length, more);
      }
    }
  }

  /** How a poll changes when more bytes are behind the ones it looks at: a decision, good or
      bad, stays; an incomplete poll changes nothing but compaction. */
  lemma PollGrows(a: Aead, r: Reader, more: bytes)
    requires r.Valid()
    ensures var (p, polled) := Poll(a, r);
            var (q, grown) := Poll(a, Feed(r, more));
            && (p.Complete? ==> q == p && grown == Feed(polled, more))
            && (p.Failed? && !NeedsMore(p) ==> q == p)
            && (NeedsMore(p) ==> polled == Compact(r) && Poll(a, Feed(polled, more)) == (q, grown))
  {
    FrontGrows(a, Compact(r), more);
    assert Compact(Feed(r, more)) == Feed(Compact(r), more);
    assert Compact(Feed(Compact(r), more)) == Feed(Compact(r), more);
  }

  /** The hint of an incomplete poll is positive, and with fewer bytes than it asks for the poll
      is still incomplete. */
  lemma HintIsTight(a: Aead, r: Reader, more: bytes)
    requires r.Valid() && NeedsMore(Poll(a, r).0)
    ensures var p := Poll(a, r).0;
            var hint := if p.Short? then p.hint else p.error.need;
            hint > 0 && (|more| < hint ==> NeedsMore(Poll(a, Feed(r, more)).0))
  {
    var c, d := Compact(r), Compact(Feed(r, more));
    assert d.buf == c.buf + more;
    if |c.buf| >= 4 {
      assert d.buf[..4] == c.buf[..4];
    }
  }

  /** Once the length is known the hint is exact: the poll is decided with that many bytes more, and not with
      fewer; before, it asks for the rest of the length. */
  lemma HintIsExact(a: Aead, r: Reader, more: bytes)
    requires r.Valid() && NeedsMore(Poll(a, r).0)
    ensures var p := Poll(a, r).0;
            var hint := if p.Short? then p.hint else p.error.need;
            if |r.Pending()| < 4 then hint == 4 - |r.Pending()|
            else NeedsMore(Poll(a, Feed(r, more)).0) <==> |more| < hint
  {
    var c, d := Compact(r), Compact(Feed(r, more));
    assert d.buf == c.buf + more;
    if |c.buf| >= 4 {
      assert d.buf[..4] == c.buf[..4];
    }
  }

  /** A complete packet decodes the same whatever follows it: both decodes succeed and agree, or
      both fail. They fail alike too, except for a packet of length zero that nothing follows:
      its padding length would be read from the bytes behind it. */
  lemma DecodeIgnoresRest(buf: bytes, more: bytes, n: nat, length: nat)
    requires 4 + length <= |buf|
    ensures var x, y := DecodePacket(buf, n, length), DecodePacket(buf + more, n, length);
            && x.Ok? == y.Ok? && (x.Ok? ==> x == y)
            && (x == y <==> length > 0 || |buf| > 4 || more == [])
            && (length == 0 && |buf| == 4 ==> x == Err(Incomplete(1)))
  {
    var big := buf + more;
    assert big[4..] == buf[4..] + more;
    if length > 0 {
      var rest, bigRest := buf[4..][1..], big[4..][1..];
      assert bigRest == rest + more;
      var padding := buf[4];
      if 1 + padding < length {
        var payloadLen := length - 1 - padding;
        assert bigRest[1..payloadLen] == rest[1..payloadLen];
      }
    }
  }

  predicate NonEmpty(pieces: seq<bytes>) {
    forall i :: 0 <= i < |pieces| ==> pieces[i] != []
  }

  /** `x` and `y` report the same thing, error kinds aside. */
  predicate SameReceived(x: Received, y: Received) {
    (x.Got? <==> y.Got?) && (x.Eof? <==> y.Eof?) && (x.Got? ==> x == y)
  }

  /** The packet taken last was an unencrypted one of length zero, and nothing behind it has been
      read yet. */
  predicate Bare(r: Reader) {
    r.lastLength == 4 && |r.buf| == 4
  }

  lemma CompleteShape(a: Aead, r: Reader)
    requires r.Valid()
    ensures var (p, polled) := Poll(a, r);
            && (p.Complete? ==> (polled.lastLength == 4 <==> p.length == 0 && r.opener.None?)
                                && (r.opener.Some? ==> |polled.buf| > 4))
            && (!p.Complete? ==> polled.lastLength == 0)
  {
  }

  lemma ReceiveDecided(a: Aead, r: Reader, pieces: seq<bytes>, more: bytes)
    requires r.Valid() && !NeedsMore(Poll(a, r).0)
    ensures var (x, r1, rest) := Receive(a, r, pieces);
            var (y, r2, none) := Receive(a, Feed(r, more), []);
            && SameReceived(x, y) && rest == pieces && none == [] && (x.Got? ==> r2 == Feed(r1, more))
            && (x == y <==> !(x.Broken? && Bare(r1) && more != []))
            && (x.Broken? && Bare(r1) ==> x.error == Incomplete(1))
  {
    hide Poll, DecodePacket;
    PollGrows(a, r, more);
    CompleteShape(a, r);
    var (p, polled) := Poll(a, r);
    if p.Complete? {
      DecodeIgnoresRest(polled.buf, more, p.sequenceNumber, p.length);
    }
  }

  lemma ReceiveSamePoll(a: Aead, r: Reader, s: Reader, pieces: seq<bytes>)
    requires r.Valid() && s.Valid() && Poll(a, r) == Poll(a, s)
    ensures Receive(a, r, pieces) == Receive(a, s, pieces)
  {
  }

  lemma ReceiveReads(a: Aead, r: Reader, pieces: seq<bytes>)
    requires r.Valid() && NeedsMore(Poll(a, r).0) && pieces != [] && pieces[0] != []
    ensures Receive(a, r, pieces) == Receive(a, Feed(Compact(r), pieces[0]), pieces[1..])
  {
    PollGrows(a, r, []);
  }

  lemma ReceiveNothing(a: Aead, r: Reader)
    requires r.Valid() && NeedsMore(Poll(a, r).0)
    ensures Receive(a, r, []).0 == Eof && Receive(a, r, []).2 == []
  {
    PollGrows(a, r, []);
  }

  /** Dropping the last packet's bytes early changes nothing that is received later. */
  lemma CompactReceives(a: Aead, r: Reader, socket: seq<bytes>)
    requires r.Valid()
    ensures Poll(a, Compact(r)) == Poll(a, r) && Receive(a, Compact(r), socket) == Receive(a, r, socket)
  {
    hide PollFront, DecodePacket;
    assert Compact(Compact(r)) == Compact(r);
  }

  /** One packet: reading it from pieces and reading it from one buffer holding everything give
      the same packet, the same failure or the same end of file, and leave the same bytes. Only
      the error for a bare packet depends on whether what follows has been read. */
  lemma {:induction false} ReceiveFromWhole(a: Aead, r: Reader, pieces: seq<bytes>)
    requires r.Valid() && NonEmpty(pieces)
    ensures var (x, r1, rest) := Receive(a, r, pieces);
            var (y, r2, none) := Receive(a, Feed(r, Flatten(pieces)), []);
            && SameReceived(x, y) && NonEmpty(rest) && (x.Got? ==> r2 == Feed(r1, Flatten(rest)) && none == [])
            && (x == y <==> !(x.Broken? && Bare(r1) && Flatten(rest) != []))
            && (x.Broken? && Bare(r1) ==> x.error == Incomplete(1))
    decreases |pieces|
  {
    hide Poll, Receive, NeedsMore;
    var more := Flatten(pieces);
    if !NeedsMore(Poll(a, r).0) {
      ReceiveDecided(a, r, pieces, more);
    } else if pieces == [] {
      assert Feed(r, []) == r;
      ReceiveNothing(a, r);
    } else {
      ReceiveReads(a, r, pieces);
      var c := Compact(r);
      ReceiveFromWhole(a, Feed(c, pieces[0]), pieces[1..]);
      assert Feed(Feed(c, pieces[0]), Flatten(pieces[1..])) == Feed(c, more);
      PollGrows(a, r, more);
      ReceiveSamePoll(a, Feed(c, more), Feed(r, more), []);
    }
  }

  // Whole connections

  datatype KeySwitch = KeySwitch(key: Key, strict: bool)

  /** Which keys, if any, the caller installs after having received a given list of packets. */
  type Policy = seq<Packet> -> Option<KeySwitch>

  datatype Outcome = Outcome(packets: seq<Packet>, failure: Option<ProtoError>)

  function AfterPacket(policy: Policy, r: Reader, history: seq<Packet>): (s: Reader)
    requires r.Valid()
    ensures s.Valid() && s.Pending() == r.Pending()
  {
    match policy(history)
    case None => r
    case Some(k) => SwitchReader(r, k.key, k.strict)
  }

  /** Receive packets until the stream ends or one fails, switching keys as the policy says. */
  function Deliver(a: Aead, policy: Policy, r: Reader, history: seq<Packet>, pieces: seq<bytes>): Outcome
    requires r.Valid()
    decreases |r.Pending()| + |Flatten(pieces)|
  {
    var (x, r', rest) := Receive(a, r, pieces);
    match x
    case Eof => Outcome(history, None)
    case Broken(e) => Outcome(history, Some(e))
    case Got(packet) => Deliver(a, policy, AfterPacket(policy, r', history + [packet]), history + [packet], rest)
  }

  lemma FeedAfterPacket(policy: Policy, r: Reader, history: seq<Packet>, more: bytes)
    requires r.Valid()
    ensures AfterPacket(policy, Feed(r, more), history) == Feed(AfterPacket(policy, r, history), more)
  {
  }

  /** The connection fails at a bare packet while there is more to read. */
  predicate Starves(a: Aead, policy: Policy, r: Reader, history: seq<Packet>, pieces: seq<bytes>)
    requires r.Valid()
    decreases |r.Pending()| + |Flatten(pieces)|
  {
    var (x, r', rest) := Receive(a, r, pieces);
    match x
    case Eof => false
    case Broken(_) => Bare(r') && Flatten(rest) != []
    case Got(packet) => Starves(a, policy, AfterPacket(policy, r', history + [packet]), history + [packet], rest)
  }

  lemma {:induction false} DeliverFromWhole(
    a: Aead, policy: Policy, r: Reader, history: seq<Packet>, pieces: seq<bytes>)
    requires r.Valid() && NonEmpty(pieces)
    ensures var o := Deliver(a, policy, r, history, pieces);
            var whole := Deliver(a, policy, Feed(r, Flatten(pieces)), history, []);
            && o.packets == whole.packets && o.failure.Some? == whole.failure.Some?
            && (o == whole <==> !Starves(a, policy, r, history, pieces))
            && (Starves(a, policy, r, history, pieces) ==> o.failure == Some(Incomplete(1)))
    decreases |r.Pending()| + |Flatten(pieces)|
  {
    hide Receive, Bare, NonEmpty;
    ReceiveFromWhole(a, r, pieces);
    var (x, r1, rest) := Receive(a, r, pieces);
    if x.Got? {
      var h := history + [x.packet];
      FeedAfterPacket(policy, r1, h, Flatten(rest));
      DeliverFromWhole(a, policy, AfterPacket(policy, r1, h), h, rest);
    }
  }

  // The same from the stream alone

  /** The reader before the receive that ends the delivery, when everything is there at once. */
  function StuckAt(a: Aead, policy: Policy, r: Reader, history: seq<Packet>): (z: Reader)
    requires r.Valid()
    ensures z.Valid() && |z.Pending()| <= |r.Pending()|
    decreases |r.Pending()|
  {
    var (x, r', _) := Receive(a, r, []);
    if x.Got? then StuckAt(a, policy, AfterPacket(policy, r', history + [x.packet]), history + [x.packet]) else r
  }

  /** An unencrypted packet of length zero comes next, and more behind it. */
  predicate ZeroNext(r: Reader)
    requires r.Valid()
  {
    r.opener.None? && |r.Pending()| > 4 && r.Pending()[..4] == [0, 0, 0, 0]
  }

  /** A cut of the stream leaves exactly `n` bytes to read. */
  predicate CutLeaves(pieces: seq<bytes>, n: int) {
    exists i :: 0 <= i <= |pieces| && |Flatten(pieces[i..])| == n
  }

  /** What an incomplete poll misses is consumed from the bytes that follow. */
  lemma MissingIsConsumed(a: Aead, r: Reader, more: bytes)
    requires r.Valid() && NeedsMore(Poll(a, r).0) && Poll(a, Feed(r, more)).0.Complete?
    ensures |Poll(a, Feed(r, more)).1.Pending()| < |more|
  {
    var c, d := Compact(r), Compact(Feed(r, more));
    assert d.buf == c.buf + more;
    if |c.buf| >= 4 {
      assert d.buf[..4] == c.buf[..4];
    }
  }

  /** Nothing is read before it is needed: every read that was made left more than is left now. */
  lemma {:induction false} ReceiveIsLazy(a: Aead, r: Reader, pieces: seq<bytes>)
    requires r.Valid() && NonEmpty(pieces)
    ensures var (x, r1, rest) := Receive(a, r, pieces);
            var m := |pieces| - |rest|;
            && m >= 0 && rest == pieces[m..]
            && (x.Got? ==> forall i :: 0 <= i < m ==> |Flatten(pieces[i..])| > |r1.Pending()| + |Flatten(rest)|)
    decreases |pieces|
  {
    hide Poll, Receive, NeedsMore;
    if !NeedsMore(Poll(a, r).0) {
      ReceiveDecided(a, r, pieces, []);
    } else if pieces == [] {
      ReceiveNothing(a, r);
    } else {
      ReceiveReads(a, r, pieces);
      ReceiveIsLazy(a, Feed(Compact(r), pieces[0]), pieces[1..]);
      var (x, r1, rest) := Receive(a, r, pieces);
      var m := |pieces| - |rest|;
      assert pieces[1..][m - 1..] == pieces[m..];
      if x.Got? {
        FirstReadNeeded(a, r, pieces);
        forall i | 0 <= i < m ensures |Flatten(pieces[i..])| > |r1.Pending()| + |Flatten(rest)| {
          if i == 0 {
            assert pieces[0..] == pieces;
          } else {
            assert pieces[i..] == pieces[1..][i - 1..];
          }
        }
      }
    }
  }

  lemma FirstReadNeeded(a: Aead, r: Reader, pieces: seq<bytes>)
    requires r.Valid() && NonEmpty(pieces) && NeedsMore(Poll(a, r).0) && Receive(a, r, pieces).0.Got?
    ensures var (x, r1, rest) := Receive(a, r, pieces);
            |Flatten(pieces)| > |r1.Pending()| + |Flatten(rest)|
  {
    var more := Flatten(pieces);
    ReceiveFromWhole(a, r, pieces);
    GotIsPoll(a, Feed(r, more));
    MissingIsConsumed(a, r, more);
  }

  lemma GotIsPoll(a: Aead, r: Reader)
    requires r.Valid() && Receive(a, r, []).0.Got?
    ensures Poll(a, r).0.Complete? && Receive(a, r, []).1 == Poll(a, r).1
  {
  }

  lemma ZeroPoll(a: Aead, r: Reader)
    requires r.Valid() && r.opener.None? && |r.Pending()| >= 4
    ensures r.Pending()[..4] == [0, 0, 0, 0] <==> Poll(a, r).0.Complete? && Poll(a, r).0.length == 0
    ensures !NeedsMore(Poll(a, r).0) || r.Pending()[..4] != [0, 0, 0, 0]
  {
    AllZero();
    ToFromBE(r.Pending()[..4]);
  }

  lemma ZeroBreaks(a: Aead, r: Reader)
    requires r.Valid() && ZeroNext(r)
    ensures Receive(a, r, []).0.Broken?
  {
    ZeroPoll(a, r);
  }

  lemma BareIff(a: Aead, r: Reader, pieces: seq<bytes>)
    requires r.Valid() && !NeedsMore(Poll(a, r).0) && Receive(a, r, pieces).0.Broken?
    ensures Bare(Receive(a, r, pieces).1) <==>
              r.opener.None? && |r.Pending()| == 4 && r.Pending()[..4] == [0, 0, 0, 0]
  {
    CompleteShape(a, r);
    if r.opener.None? && |r.Pending()| >= 4 {
      ZeroPoll(a, r);
    }
  }

  lemma ShortNeedsMore(a: Aead, r: Reader)
    requires r.Valid() && |r.Pending()| < 4
    ensures NeedsMore(Poll(a, r).0)
  {
  }

  /** A receive that fails at a bare packet, told from the stream. */
  lemma {:induction false} BrokenIff(a: Aead, r: Reader, pieces: seq<bytes>)
    requires r.Valid() && NonEmpty(pieces) && Receive(a, r, pieces).0.Broken?
    ensures var (x, r1, rest) := Receive(a, r, pieces);
            var whole := Feed(r, Flatten(pieces));
            Bare(r1) && Flatten(rest) != [] <==> ZeroNext(whole) && CutLeaves(pieces, |whole.Pending()| - 4)
    decreases |pieces|
  {
    hide Poll, Receive, NeedsMore, Bare, Flatten;
    var more := Flatten(pieces);
    var whole := Feed(r, more);
    if !NeedsMore(Poll(a, r).0) {
      ReceiveDecided(a, r, pieces, more);
      BareIff(a, r, pieces);
      if |r.Pending()| < 4 {
        ShortNeedsMore(a, r);
      } else {
        assert whole.Pending()[..4] == r.Pending()[..4];
        assert pieces[0..] == pieces;
        forall i | 0 <= i <= |pieces| ensures |Flatten(pieces[i..])| <= |more| {
          SuffixShorter(pieces, i);
        }
      }
    } else if pieces == [] {
      ReceiveNothing(a, r);
      assert false;
    } else {
      ReceiveReads(a, r, pieces);
      var next := Feed(Compact(r), pieces[0]);
      BrokenIff(a, next, pieces[1..]);
      FlattenCons(pieces);
      assert Feed(next, Flatten(pieces[1..])).Pending() == whole.Pending();
      if r.opener.None? && |r.Pending()| >= 4 {
        ZeroPoll(a, r);
        assert whole.Pending()[..4] == r.Pending()[..4];
      }
      CutsOfTail(pieces, |whole.Pending()| - 4);
    }
  }

  lemma FlattenCons(pieces: seq<bytes>)
    requires pieces != []
    ensures Flatten(pieces) == pieces[0] + Flatten(pieces[1..])
  {
  }

  lemma {:induction false} SuffixShorter(pieces: seq<bytes>, i: nat)
    requires i <= |pieces|
    ensures |Flatten(pieces[i..])| <= |Flatten(pieces)|
    decreases |pieces|
  {
    if i > 0 {
      assert pieces[1..][i - 1..] == pieces[i..];
      SuffixShorter(pieces[1..], i - 1);
    } else {
      assert pieces[0..] == pieces;
    }
  }

  lemma CutsOfTail(pieces: seq<bytes>, n: int)
    requires pieces != []
    ensures CutLeaves(pieces, n) <==> |Flatten(pieces)| == n || CutLeaves(pieces[1..], n)
  {
    assert pieces[0..] == pieces;
    forall i | 0 < i <= |pieces| ensures pieces[i..] == pieces[1..][i - 1..] {
    }
    if CutLeaves(pieces[1..], n) {
      var i :| 0 <= i <= |pieces[1..]| && |Flatten(pieces[1..][i..])| == n;
      assert pieces[1..][i..] == pieces[i + 1..];
    }
  }

  lemma {:induction false} CutsOfSuffix(pieces: seq<bytes>, m: nat, n: int)
    requires m <= |pieces| && forall i :: 0 <= i < m ==> |Flatten(pieces[i..])| > n
    ensures CutLeaves(pieces, n) <==> CutLeaves(pieces[m..], n)
  {
    if CutLeaves(pieces, n) {
      var i :| 0 <= i <= |pieces| && |Flatten(pieces[i..])| == n;
      assert pieces[m..][i - m..] == pieces[i..];
    }
    if CutLeaves(pieces[m..], n) {
      var i :| 0 <= i <= |pieces[m..]| && |Flatten(pieces[m..][i..])| == n;
      assert pieces[m..][i..] == pieces[i + m..];
    }
  }

  /** A connection starves exactly when the delivery stops at an unencrypted packet of length zero
      and the stream is cut right behind it. */
  lemma {:induction false} StarvesIff(a: Aead, policy: Policy, r: Reader, history: seq<Packet>, pieces: seq<bytes>)
    requires r.Valid() && NonEmpty(pieces)
    ensures var z := StuckAt(a, policy, Feed(r, Flatten(pieces)), history);
            Starves(a, policy, r, history, pieces) <==> ZeroNext(z) && CutLeaves(pieces, |z.Pending()| - 4)
    decreases |r.Pending()| + |Flatten(pieces)|
  {
    hide Receive, Bare, NonEmpty, ZeroNext, CutLeaves;
    ReceiveFromWhole(a, r, pieces);
    ReceiveIsLazy(a, r, pieces);
    var whole := Feed(r, Flatten(pieces));
    var (x, r1, rest) := Receive(a, r, pieces);
    match x
    case Eof =>
      if ZeroNext(whole) {
        ZeroBreaks(a, whole);
      }
    case Broken(_) => BrokenIff(a, r, pieces);
    case Got(packet) =>
      var h := history + [packet];
      FeedAfterPacket(policy, r1, h, Flatten(rest));
      StarvesIff(a, policy, AfterPacket(policy, r1, h), h, rest);
      var z := StuckAt(a, policy, whole, history);
      CutsOfSuffix(pieces, |pieces| - |rest|, |z.Pending()| - 4);
  }

  /** However the peer's bytes, valid or not, are cut into reads, the same packets are delivered
      and the connection fails, or ends, at the same packet. It fails with the same error, unless
      the delivery stops at an unencrypted packet of length zero, with more behind it, and exactly
      one of the two streams is cut right behind that packet. */
  lemma ChunkingIndependence(
    a: Aead, policy: Policy, r: Reader, history: seq<Packet>, one: seq<bytes>, other: seq<bytes>)
    requires r.Valid() && NonEmpty(one) && NonEmpty(other)
    requires Flatten(one) == Flatten(other)
    ensures var o, p := Deliver(a, policy, r, history, one), Deliver(a, policy, r, history, other);
            var z := StuckAt(a, policy, Feed(r, Flatten(one)), history);
            && o.packets == p.packets && o.failure.Some? == p.failure.Some?
            && (o == p <==> (ZeroNext(z) ==>
                  (CutLeaves(one, |z.Pending()| - 4) <==> CutLeaves(other, |z.Pending()| - 4))))
  {
    hide Deliver, Starves, StuckAt, ZeroNext, CutLeaves;
    DeliverFromWhole(a, policy, r, history, one);
    DeliverFromWhole(a, policy, r, history, other);
    StarvesIff(a, policy, r, history, one);
    StarvesIff(a, policy, r, history, other);
  }

  /** The error kind really does depend on the cut: four zero bytes that come alone, or with one
      more. */
  lemma ErrorKindVaries(a: Aead)
    ensures var r := Reader([], 0, 0, None);
            && Receive(a, r, [[0, 0, 0, 0], [9]]).0 == Broken(Incomplete(1))
            && Receive(a, r, [[0, 0, 0, 0, 9]]).0 == Broken(InvalidPacket)
  {
    FirstRead(a, [0, 0, 0, 0], [[9]]);
    FirstRead(a, [0, 0, 0, 0, 9], []);
    assert [0, 0, 0, 0][4..] == [];
    assert [[0, 0, 0, 0]] + [[9]] == [[0, 0, 0, 0], [9]];
    assert [[0, 0, 0, 0, 9]] + [] == [[0, 0, 0, 0, 9]];
  }

  lemma FirstRead(a: Aead, data: bytes, rest: seq<bytes>)
    requires |data| >= 4 && data[..4] == [0, 0, 0, 0]
    ensures Receive(a, Reader([], 0, 0, None), [data] + rest).0 ==
              match DecodePacket(data, 0, 0)
              case Ok(packet) => Got(packet)
              case Err(e) => Broken(e)
  {
    hide DecodePacket;
    var r := Reader([], 0, 0, None);
    var f := Feed(r, data);
    assert f.buf == data && data[0..] == data;
    assert ([data] + rest)[1..] == rest;
    ReceiveReads(a, r, [data] + rest);
    assert Compact(r) == r;
    assert FromBE([0, 0, 0, 0]) == 0 by { AllZero(); }
    assert Poll(a, f) == (Complete(0, 0), Consume(f, 0, 0));
  }

  lemma AllZero()
    ensures FromBE([0, 0, 0, 0]) == 0
  {
    assert [0, 0, 0, 0] == ToBE(0, 4);
    U32RoundTrip(0);
  }

  /** Cutting the stream short never changes what was delivered before the cut, and turns a
      stream that ends well into another that ends well. */
  lemma {:induction false} DeliverPrefix(
    a: Aead, policy: Policy, r: Reader, history: seq<Packet>, more: bytes)
    requires r.Valid()
    ensures var short := Deliver(a, policy, r, history, []);
            var long := Deliver(a, policy, Feed(r, more), history, []);
            && short.packets <= long.packets && history <= short.packets
            && (short.failure.Some? ==> long.failure.Some? && long.packets == short.packets)
    decreases |r.Pending()|
  {
    PollGrows(a, r, more);
    var (p, polled) := Poll(a, r);
    DeliverExtends(a, policy, Feed(r, more), history);
    if p.Complete? {
      DecodeIgnoresRest(polled.buf, more, p.sequenceNumber, p.length);
      var d := DecodePacket(polled.buf, p.sequenceNumber, p.length);
      if d.Ok? {
        var h := history + [d.value];
        FeedAfterPacket(policy, polled, h, more);
        DeliverPrefix(a, policy, AfterPacket(policy, polled, h), h, more);
      }
    }
  }

  lemma {:induction false} DeliverExtends(a: Aead, policy: Policy, r: Reader, history: seq<Packet>)
    requires r.Valid()
    ensures history <= Deliver(a, policy, r, history, []).packets
    decreases |r.Pending()|
  {
    var (x, r1, rest) := Receive(a, r, []);
    if x.Got? {
      DeliverExtends(a, policy, AfterPacket(policy, r1, history + [x.packet]), history + [x.packet]);
    }
  }

  /** The loop itself, on a `ReadState`. */
  method ReceivePacket(a: Aead, read: ReadState, pieces: seq<bytes>)
    returns (x: Received, rest: seq<bytes>)
    requires read.Valid()
    modifies read.Repr()
    ensures read.opener == old(read.opener) && read.Valid()
    ensures (x, read.View(), rest) == Receive(a, old(read.View()), pieces)
  {
    rest := pieces;
    while true
      invariant read.opener == old(read.opener) && read.Valid()
      invariant Receive(a, read.View(), rest) == Receive(a, old(read.View()), pieces)
      decreases |rest|
    {
      ghost var r := read.View();
      var p := read.PollPacket(a);
      PollGrows(a, r, []);
      if p.Complete? {
        var packet := DecodePacket(read.buf, p.sequenceNumber, p.length);
        x := if packet.Ok? then Got(packet.value) else Broken(packet.error);
        return;
      }
      if !NeedsMore(p) {
        x := Broken(p.error);
        return;
      }
      if rest == [] || rest[0] == [] {
        x := Eof;
        return;
      }
      read.buf := read.buf + rest[0];
      rest := rest[1..];
    }
  }
}
