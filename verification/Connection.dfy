/** A connection: its reader and writer, flushing, and lists of packets written one after the
    other. Whatever is done to the writer is also told as a run of writer operations, so that the
    bytes on the wire are the frames of that run. */
module Connections {
  import opened Bytes
  import Gcm
  import opened Transport
  import opened Delivery
  import opened TwoParty

  datatype Conn = Conn(read: Reader, write: Writer) {
    predicate Valid() { read.Valid() && write.Valid() }
  }

  /** The writer writes `ops`: they take it from `w` to `after`, and the stream accepts `wire`. */
  ghost predicate Writes(a: Aead, w: Writer, ops: seq<Op>, wire: bytes, after: Writer)
    requires w.Valid()
  {
    RunWriter(a, w, ops) == Some((wire, after))
  }

  lemma WritesNothing(a: Aead, w: Writer)
    requires w.Valid()
    ensures Writes(a, w, [], [], w)
  {
  }

  lemma WritesThen(a: Aead, w: Writer, xs: seq<Op>, x: bytes, mid: Writer, ys: seq<Op>, y: bytes, after: Writer)
    requires w.Valid() && Writes(a, w, xs, x, mid) && mid.Valid() && Writes(a, mid, ys, y, after)
    ensures Writes(a, w, xs + ys, x + y, after)
  {
    RunWriterAppend(a, w, xs, ys);
  }

  lemma WritesOne(a: Aead, w: Writer, payload: bytes, random: Random)
    requires w.Valid() && Encode(a, w, payload, random).0.Ok?
    ensures random.Random? && Writes(a, w, [Send(payload, random.noise)], [], Encode(a, w, payload, random).1)
  {
    var after := Encode(a, w, payload, random).1;
    assert random == Random(random.noise) && [Send(payload, random.noise)][1..] == [];
    assert RunWriter(a, after, []) == Some(([], after));
  }

  // Flushing

  /** Offer the buffered bytes until the stream has taken them all; a write of nothing, or more
      than was offered, is an error. */
  function FlushAll(w: Writer, taken: seq<nat>): (r: Option<(bytes, Writer)>)
    requires w.Valid()
    ensures r.Some? ==> r.value.1.Valid() && r.value.1.Buffered() == []
    ensures r.Some? ==> r.value.1 == (if w.Buffered() == [] then w else w.(buf := [], written := 0))
    decreases |taken|
  {
    if w.Buffered() == [] then Some(([], w))
    else if taken == [] || taken[0] == 0 || taken[0] > |w.Buffered()| then None
    else Behind(w.Buffered()[..taken[0]], FlushAll(Wrote(w, taken[0]), taken[1..]))
  }

  function FlushOps(w: Writer, taken: seq<nat>): seq<Op>
    requires w.Valid()
    decreases |taken|
  {
    if w.Buffered() == [] || taken == [] || taken[0] == 0 || taken[0] > |w.Buffered()| then []
    else [Flush(taken[0])] + FlushOps(Wrote(w, taken[0]), taken[1..])
  }

  lemma {:induction false} FlushWrites(a: Aead, w: Writer, taken: seq<nat>)
    requires w.Valid() && FlushAll(w, taken).Some?
    ensures Writes(a, w, FlushOps(w, taken), FlushAll(w, taken).value.0, FlushAll(w, taken).value.1)
    ensures OnlyFlushes(FlushOps(w, taken))
    decreases |taken|
  {
    if w.Buffered() != [] {
      FlushWrites(a, Wrote(w, taken[0]), taken[1..]);
      var rest := FlushOps(Wrote(w, taken[0]), taken[1..]);
      assert ([Flush(taken[0])] + rest)[1..] == rest;
    }
  }

  function Sum(taken: seq<nat>): nat {
    if taken == [] then 0 else taken[0] + Sum(taken[1..])
  }

  predicate Positive(taken: seq<nat>) {
    forall i :: 0 <= i < |taken| ==> taken[i] > 0
  }

  lemma NothingTaken(taken: seq<nat>)
    ensures Positive(taken[..0]) && Sum(taken[..0]) == 0
  {
  }

  lemma FirstTaken(taken: seq<nat>, k: nat)
    requires 0 < k <= |taken|
    ensures Positive(taken[..k]) <==> taken[0] > 0 && Positive(taken[1..][..k - 1])
    ensures Sum(taken[..k]) == taken[0] + Sum(taken[1..][..k - 1])
  {
    assert taken[..k] == [taken[0]] + taken[1..][..k - 1];
    assert taken[..k][1..] == taken[1..][..k - 1];
  }

  /** A flush goes through exactly when writes that all take something take everything, and then the stream
      has the buffered bytes and nothing else. */
  lemma {:induction false} FlushesIff(w: Writer, taken: seq<nat>)
    requires w.Valid()
    ensures FlushAll(w, taken).Some? <==>
              exists k :: 0 <= k <= |taken| && Positive(taken[..k]) && Sum(taken[..k]) == |w.Buffered()|
    ensures FlushAll(w, taken).Some? ==> FlushAll(w, taken).value.0 == w.Buffered()
    decreases |taken|
  {
    hide Positive, Sum;
    var b := w.Buffered();
    if b == [] {
      NothingTaken(taken);
    } else if taken == [] || taken[0] == 0 || taken[0] > |b| {
      forall k | 0 <= k <= |taken| && Positive(taken[..k]) ensures Sum(taken[..k]) != |b| {
        NothingTaken(taken);
        if k > 0 {
          FirstTaken(taken, k);
        }
      }
    } else {
      var next := Wrote(w, taken[0]);
      assert next.Buffered() == b[taken[0]..];
      FlushesIff(next, taken[1..]);
      forall k | 0 < k <= |taken|
        ensures Positive(taken[..k]) <==> Positive(taken[1..][..k - 1])
        ensures Sum(taken[..k]) == taken[0] + Sum(taken[1..][..k - 1])
      {
        FirstTaken(taken, k);
      }
      if FlushAll(w, taken).Some? {
        var j :| 0 <= j <= |taken[1..]| && Positive(taken[1..][..j]) && Sum(taken[1..][..j]) == |next.Buffered()|;
        assert Positive(taken[..j + 1]) && Sum(taken[..j + 1]) == |b|;
        assert b == b[..taken[0]] + b[taken[0]..];
      }
      NothingTaken(taken);
      forall k | 0 <= k <= |taken| && Positive(taken[..k]) && Sum(taken[..k]) == |b| ensures FlushAll(w, taken).Some? {
        assert Positive(taken[1..][..k - 1]) && Sum(taken[1..][..k - 1]) == |next.Buffered()|;
      }
    }
  }

  predicate OnlyFlushes(ops: seq<Op>) {
    forall i :: 0 <= i < |ops| ==> ops[i].Flush?
  }

  /** The loop, on a `WriteState`. */
  method Drain(write: WriteState, taken: seq<nat>) returns (ok: bool, wire: bytes)
    requires write.Valid()
    modifies write`buf, write`written
    ensures write.Valid()
    ensures ok <==> FlushAll(old(write.View()), taken).Some?
    ensures ok ==> FlushAll(old(write.View()), taken) == Some((wire, write.View()))
  {
    wire := [];
    var i := 0;
    assert taken[0..] == taken;
    BehindNothing(FlushAll(write.View(), taken));
    while |write.buf| > write.written
      invariant write.Valid() && 0 <= i <= |taken|
      invariant Behind(wire, FlushAll(write.View(), taken[i..])) == FlushAll(old(write.View()), taken)
      decreases |taken| - i
    {
      if i == |taken| {
        return false, wire;
      }
      assert taken[i..][0] == taken[i] && taken[i..][1..] == taken[i + 1..];
      var n := taken[i];
      if n > |write.buf| - write.written {
        return false, wire;
      }
      ghost var w := write.View();
      var part := write.buf[write.written..write.written + n];
      assert part == w.Buffered()[..n];
      var written := write.Written(n);
      if !written {
        return false, wire;
      }
      BehindTwice(wire, part, FlushAll(Wrote(w, n), taken[i + 1..]));
      wire := wire + part;
      i := i + 1;
    }
    assert wire + [] == wire;
    return true, wire;
  }

  // Several packets

  /** Each payload in turn; `None` as soon as one cannot be written. */
  function SendAll(a: Aead, w: Writer, payloads: seq<bytes>, random: nat -> Random): (r: Option<Writer>)
    requires w.Valid()
    ensures r.Some? ==> r.value.Valid()
    decreases |payloads|
  {
    if payloads == [] then Some(w) else
    match SendAll(a, w, payloads[..|payloads| - 1], random)
    case None => None
    case Some(mid) =>
      var (sent, after) := Encode(a, mid, payloads[|payloads| - 1], random(|payloads| - 1));
      if sent.Err? then None else Some(after)
  }

  function SendOps(payloads: seq<bytes>, random: nat -> Random): seq<Op> {
    seq(|payloads|, i requires 0 <= i < |payloads| =>
      Send(payloads[i], if random(i).Random? then random(i).noise else Silence))
  }

  function Silence(i: nat): byte { 0 }

  lemma {:induction false} SendWrites(a: Aead, w: Writer, payloads: seq<bytes>, random: nat -> Random)
    requires w.Valid() && SendAll(a, w, payloads, random).Some?
    ensures Writes(a, w, SendOps(payloads, random), [], SendAll(a, w, payloads, random).value)
    decreases |payloads|
  {
    hide Writes, Encode;
    if payloads == [] {
      WritesNothing(a, w);
      assert SendOps([], random) == [];
    } else {
      var n := |payloads| - 1;
      SendWrites(a, w, payloads[..n], random);
      var mid := SendAll(a, w, payloads[..n], random).value;
      WritesOne(a, mid, payloads[n], random(n));
      var none: bytes := [];
      assert none + none == none;
      WritesThen(a, w, SendOps(payloads[..n], random), none, mid, [Send(payloads[n], random(n).noise)], none,
                 SendAll(a, w, payloads, random).value);
      assert SendOps(payloads, random) == SendOps(payloads[..n], random) + [Send(payloads[n], random(n).noise)];
    }
  }

  method SendEach(a: Aead, write: WriteState, payloads: seq<bytes>, random: nat -> Random) returns (ok: bool)
    requires write.Valid()
    modifies write.Repr()
    ensures write.Valid() && write.sealer == old(write.sealer)
    ensures ok <==> SendAll(a, old(write.View()), payloads, random).Some?
    ensures ok ==> SendAll(a, old(write.View()), payloads, random) == Some(write.View())
  {
    hide Encode;
    var i := 0;
    while i < |payloads|
      invariant 0 <= i <= |payloads| && write.Valid() && write.sealer == old(write.sealer)
      invariant SendAll(a, old(write.View()), payloads[..i], random) == Some(write.View())
    {
      assert payloads[..i + 1][..i] == payloads[..i];
      var sent := write.EncodeKx(a, payloads[i], random(i), null);
      if sent.Err? {
        SendFails(a, old(write.View()), payloads, random, i + 1);
        return false;
      }
      i := i + 1;
    }
    assert payloads[..i] == payloads;
    return true;
  }

  lemma {:induction false} SendFails(a: Aead, w: Writer, payloads: seq<bytes>, random: nat -> Random, i: nat)
    requires w.Valid() && i <= |payloads| && SendAll(a, w, payloads[..i], random).None?
    ensures SendAll(a, w, payloads, random).None?
    decreases |payloads|
  {
    hide Encode;
    if i == |payloads| {
      assert payloads[..i] == payloads;
    } else {
      var n := |payloads| - 1;
      assert payloads[..n][..i] == payloads[..i];
      SendFails(a, w, payloads[..n], random, i);
    }
  }

  /** The payloads sent. */
  function Sends(ops: seq<Op>): seq<bytes> {
    if ops == [] then [] else Sent(ops[0]) + Sends(ops[1..])
  }

  function Sent(op: Op): seq<bytes> {
    if op.Send? then [op.payload] else []
  }

  lemma SendsFirst(op: Op, rest: seq<Op>)
    ensures Sends([]) == [] && Sends([op] + rest) == Sent(op) + Sends(rest)
  {
    assert ([op] + rest)[1..] == rest;
  }

  lemma {:induction false} SendsThen(xs: seq<Op>, ys: seq<Op>)
    ensures Sends(xs + ys) == Sends(xs) + Sends(ys)
    decreases |xs|
  {
    hide Sends, Sent;
    if xs == [] {
      assert [] + ys == ys && [] + Sends(ys) == Sends(ys);
      NothingSends();
    } else {
      var op, rest := xs[0], xs[1..];
      SendsThen(rest, ys);
      assert xs == [op] + rest && xs + ys == [op] + (rest + ys);
      SendsFirst(op, rest);
      SendsFirst(op, rest + ys);
      assert (Sent(op) + Sends(rest)) + Sends(ys) == Sent(op) + (Sends(rest) + Sends(ys));
    }
  }

  lemma NothingSends()
    ensures Sends([]) == []
  {
  }

  lemma {:induction false} FlushesSendNothing(ops: seq<Op>)
    requires OnlyFlushes(ops)
    ensures Sends(ops) == []
  {
    if ops != [] {
      FlushesSendNothing(ops[1..]);
    }
  }

  lemma {:induction false} SentPayloads(payloads: seq<bytes>, random: nat -> Random)
    ensures Sends(SendOps(payloads, random)) == payloads
  {
    if payloads == [] {
      assert SendOps([], random) == [];
    } else {
      var n := |payloads| - 1;
      SentPayloads(payloads[..n], random);
      var op := SendOps(payloads, random)[n];
      assert SendOps(payloads, random) == SendOps(payloads[..n], random) + [op];
      SendsThen(SendOps(payloads[..n], random), [op]);
      assert [op][1..] == [] && Sends([op]) == [payloads[n]];
    }
  }

  // The reader, as a run

  /** What is done to a reader: a packet is received from what the stream will return, a receive is
      given up after having read a piece, or new keys are installed. */
  datatype ReadOp = Receives(pieces: seq<bytes>) | Buffers(piece: bytes) | Installs(change: KeySwitch)

  function RunReader(a: Aead, r: Reader, ops: seq<ReadOp>): (s: Reader)
    requires r.Valid()
    ensures s.Valid()
    decreases |ops|
  {
    if ops == [] then r else
    match ops[0]
    case Receives(pieces) => RunReader(a, Receive(a, r, pieces).1, ops[1..])
    case Buffers(piece) => RunReader(a, Feed(Compact(r), piece), ops[1..])
    case Installs(change) => RunReader(a, SwitchReader(r, change.key, change.strict), ops[1..])
  }

  lemma {:induction false} RunReaderAppend(a: Aead, r: Reader, xs: seq<ReadOp>, ys: seq<ReadOp>)
    requires r.Valid()
    ensures RunReader(a, r, xs + ys) == RunReader(a, RunReader(a, r, xs), ys)
    decreases |xs|
  {
    hide Receive;
    if xs == [] {
      assert [] + ys == ys;
    } else {
      assert (xs + ys)[1..] == xs[1..] + ys;
      match xs[0]
      case Receives(pieces) => RunReaderAppend(a, Receive(a, r, pieces).1, xs[1..], ys);
      case Buffers(piece) => RunReaderAppend(a, Feed(Compact(r), piece), xs[1..], ys);
      case Installs(change) => RunReaderAppend(a, SwitchReader(r, change.key, change.strict), xs[1..], ys);
    }
  }

  // The object

  /** Announce new keys and install fresh states for them. */
  method InstallKeys(a: Aead, update: KeyUpdate, random: Random, read: ReadState, write: WriteState) returns (ok: bool)
    requires read.Valid() && write.Valid() && read.Repr() !! write.Repr()
    modifies read, write.Repr()
    ensures read.Valid() && write.Valid() && read.Repr() !! write.Repr()
    ensures fresh(read.Repr() - old(read.Repr())) && fresh(write.Repr() - old(write.Repr()))
    ensures var (sent, after) := Encode(a, old(write.View()), [NEWKEYS], random);
            && (ok <==> sent.Ok?)
            && (ok ==> write.View() == SwitchWriter(after, update.sealer, update.strict)
                       && read.View() == SwitchReader(old(read.View()), update.opener, update.strict))
  {
    hide Encode;
    var opener := new Gcm.GcmState(update.opener);
    var sealer := new Gcm.GcmState(update.sealer);
    var applied := Apply(a, opener, sealer, update.strict, random, write, read);
    return applied.Ok?;
  }

  class Connection {
    const read: ReadState
    const write: WriteState

    ghost function Repr(): set<object>
      reads this, read, write
    {
      {this} + read.Repr() + write.Repr()
    }

    ghost predicate Valid()
      reads this, read, write, read.Repr(), write.Repr()
    {
      && read.Valid() && write.Valid() && read.Repr() !! write.Repr()
      && this !in read.Repr() + write.Repr()
    }

    ghost function View(): (c: Conn)
      requires Valid()
      reads this, read, write, read.Repr(), write.Repr()
      ensures c.Valid()
    {
      Conn(read.View(), write.View())
    }

    constructor (read: ReadState, write: WriteState)
      requires read.Valid() && write.Valid() && read.Repr() !! write.Repr()
      ensures Valid() && View() == Conn(read.View(), write.View())
      ensures this.read == read && this.write == write && Repr() == {this} + read.Repr() + write.Repr()
    {
      this.read, this.write := read, write;
    }

    /** The next packet from the stream. */
    method Take(a: Aead, socket: seq<bytes>) returns (got: Received, rest: seq<bytes>)
      requires Valid()
      modifies Repr()
      ensures Valid() && Repr() == old(Repr())
      ensures var (x, r, more) := Receive(a, old(View()).read, socket);
              got == x && rest == more && View() == old(View()).(read := r)
    {
      hide Receive;
      got, rest := ReceivePacket(a, read, socket);
    }

    /** A receive that is given up while it waits: the buffer is compacted, and one more piece may
        have been read. */
    method Peek(a: Aead, piece: bytes) returns (short: bool)
      requires Valid()
      modifies Repr()
      ensures Valid() && Repr() == old(Repr())
      ensures short == NeedsMore(Poll(a, old(View()).read).0)
      ensures short ==> View() == old(View()).(read := Feed(Compact(old(View()).read), piece))
    {
      hide Poll;
      ghost var r := read.View();
      PollGrows(a, r, []);
      var p := read.PollPacket(a);
      short := NeedsMore(p);
      if short {
        read.buf := read.buf + piece;
      }
    }

    method Send(a: Aead, payloads: seq<bytes>, random: nat -> Random) returns (ok: bool)
      requires Valid()
      modifies Repr()
      ensures Valid() && Repr() == old(Repr())
      ensures var r := SendAll(a, old(View()).write, payloads, random);
              (ok <==> r.Some?) && (ok ==> View() == old(View()).(write := r.value))
    {
      hide SendAll;
      ok := SendEach(a, write, payloads, random);
    }

    method Flush(taken: seq<nat>) returns (ok: bool, wire: bytes)
      requires Valid()
      modifies Repr()
      ensures Valid() && Repr() == old(Repr())
      ensures var r := FlushAll(old(View()).write, taken);
              (ok <==> r.Some?) && (ok ==> wire == r.value.0 && View() == old(View()).(write := r.value.1))
    {
      hide FlushAll;
      ok, wire := Drain(write, taken);
    }

    /** Announce new keys and install them in both directions. */
    method Install(a: Aead, update: KeyUpdate, random: Random) returns (ok: bool)
      requires Valid()
      modifies Repr()
      ensures Valid() && fresh(Repr() - old(Repr()))
      ensures var r := Installed(a, old(View()), update, random);
              (ok <==> r.Some?) && (ok ==> View() == r.value)
    {
      hide Encode;
      ok := InstallKeys(a, update, random, read, write);
    }
  }

  /** NEWKEYS is written under the old keys, then both directions switch. */
  function Installed(a: Aead, c: Conn, update: KeyUpdate, random: Random): (r: Option<Conn>)
    requires c.Valid()
    ensures r.Some? ==> r.value.Valid()
  {
    var (sent, after) := Encode(a, c.write, [NEWKEYS], random);
    if sent.Err? then None
    else Some(Conn(SwitchReader(c.read, update.opener, update.strict),
                   SwitchWriter(after, update.sealer, update.strict)))
  }

  lemma InstalledWrites(a: Aead, c: Conn, update: KeyUpdate, random: Random)
    requires c.Valid() && Installed(a, c, update, random).Some?
    ensures random.Random?
    ensures Writes(a, c.write, [Switch(KeySwitch(update.sealer, update.strict), random.noise)], [],
                   Installed(a, c, update, random).value.write)
    ensures RunReader(a, c.read, [Installs(KeySwitch(update.opener, update.strict))])
            == Installed(a, c, update, random).value.read
  {
    var after := Installed(a, c, update, random).value.write;
    var change := KeySwitch(update.sealer, update.strict);
    assert random == Random(random.noise) && [Switch(change, random.noise)][1..] == [];
    assert RunWriter(a, after, []) == Some(([], after));
    assert [Installs(KeySwitch(update.opener, update.strict))][1..] == [];
  }
}
