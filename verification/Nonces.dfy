/** The calls of the cipher over the life of a connection, and the nonces they are made with. */
module Nonces {
  import opened Bytes
  import opened Gcm
  import opened Transport
  import opened Delivery
  import opened TwoParty
  import opened Connections

  /** A key as it comes from its source, not yet used. */
  ghost predicate FreshKey(g: Key) {
    g.counter == 0 && exists source :: Tracks(source, g)
  }

  ghost predicate FreshSwitches(ops: seq<Op>) {
    forall i :: 0 <= i < |ops| && ops[i].Switch? ==> FreshKey(ops[i].change.key)
  }

  ghost predicate FreshInstalls(ops: seq<ReadOp>) {
    forall i :: 0 <= i < |ops| && ops[i].Installs? ==> FreshKey(ops[i].change.key)
  }

  lemma KeptShape(g: Gcm)
    requires g.Shaped()
    ensures NextNonce(g).Ok? ==> NextNonce(g).value.1.Shaped()
  {
  }

  lemma TrackedKey(source: KeySource, g: Gcm)
    requires Tracks(source, g)
    ensures g.key == source.key && Usable(source) && Base(source) + g.counter < U64
  {
  }

  // Sealing

  datatype SealCall = SealCall(key: bytes, nonce: bytes, ad: bytes, text: bytes)

  /** The calls that seal the packets of a run under its first key, up to and including the NEWKEYS
      that ends it. */
  function SealCalls(g: Key, ops: seq<Op>): seq<SealCall>
    decreases |ops|
  {
    if ops == [] then []
    else if ops[0].Flush? then SealCalls(g, ops[1..])
    else
      var payload := if ops[0].Send? then ops[0].payload else [NEWKEYS];
      var plain := Plain(true, payload, ops[0].noise);
      match NextNonce(g)
      case Err(_) => []
      case Ok((nonce, after)) =>
        PlainIsLong(true, payload, ops[0].noise);
        KeptShape(g);
        [SealCall(g.key, nonce, plain[..4], plain[4..])] + if ops[0].Switch? then [] else SealCalls(after, ops[1..])
  }

  /** What the cipher returned, as it goes on the wire. */
  function Rendered(a: Aead, calls: seq<SealCall>): bytes {
    if calls == [] then [] else
    var c := calls[0];
    var (cipher, tag) := a.seal(c.key, c.nonce, c.ad, c.text);
    (c.ad + cipher + tag) + Rendered(a, calls[1..])
  }

  predicate NoSwitch(ops: seq<Op>) {
    forall i :: 0 <= i < |ops| ==> !ops[i].Switch?
  }

  /** The frames of a run start with what those calls returned, and are nothing else while the key
      stays the same. */
  lemma {:induction false} FramesAreCalls(a: Aead, g: Key, ops: seq<Op>)
    requires Frames(a, Some(g), ops).Some?
    ensures Rendered(a, SealCalls(g, ops)) <= Frames(a, Some(g), ops).value
    ensures NoSwitch(ops) ==> Frames(a, Some(g), ops) == Some(Rendered(a, SealCalls(g, ops)))
    decreases |ops|
  {
    hide Plain, NextNonce;
    if ops != [] {
      if ops[0].Flush? {
        FramesAreCalls(a, g, ops[1..]);
      } else {
        var payload := if ops[0].Send? then ops[0].payload else [NEWKEYS];
        var plain := Plain(true, payload, ops[0].noise);
        KeptShape(g);
        PlainIsLong(true, payload, ops[0].noise);
        var (nonce, after) := NextNonce(g).value;
        var call := SealCall(g.key, nonce, plain[..4], plain[4..]);
        if ops[0].Send? {
          FramesAreCalls(a, after, ops[1..]);
          assert ([call] + SealCalls(after, ops[1..]))[1..] == SealCalls(after, ops[1..]);
        } else {
          assert ([call] + [])[1..] == [];
        }
      }
    }
  }

  lemma {:induction false} SealsAreConsecutive(source: KeySource, g: Key, ops: seq<Op>, i: nat)
    requires Tracks(source, g) && i < |SealCalls(g, ops)|
    ensures Usable(source) && Base(source) + g.counter + i < U64
    ensures SealCalls(g, ops)[i].key == source.key && SealCalls(g, ops)[i].nonce == NonceAt(source, g.counter + i)
    decreases |ops|
  {
    hide Plain, NonceAt, NextNonce;
    TrackedKey(source, g);
    if ops[0].Flush? {
      SealsAreConsecutive(source, g, ops[1..], i);
    } else {
      NextNonceTracks(source, g);
      KeptShape(g);
      if i > 0 {
        SealsAreConsecutive(source, NextNonce(g).value.1, ops[1..], i - 1);
      }
    }
  }

  /** All calls are under one key and no two have the same nonce. */
  predicate DistinctSeals(key: bytes, calls: seq<SealCall>) {
    && (forall i :: 0 <= i < |calls| ==> calls[i].key == key)
    && (forall i, k :: 0 <= i < k < |calls| ==> calls[i].nonce != calls[k].nonce)
  }

  lemma SealsDistinct(source: KeySource, g: Key, ops: seq<Op>)
    requires Tracks(source, g)
    ensures DistinctSeals(g.key, SealCalls(g, ops))
  {
    hide Tracks, NonceAt, SealCalls;
    TrackedKey(source, g);
    var calls := SealCalls(g, ops);
    forall i | 0 <= i < |calls| ensures calls[i].key == g.key {
      SealsAreConsecutive(source, g, ops, i);
    }
    forall i, k | 0 <= i < k < |calls| ensures calls[i].nonce != calls[k].nonce {
      SealsAreConsecutive(source, g, ops, i);
      SealsAreConsecutive(source, g, ops, k);
      NoncesDistinct(source, g.counter + i, g.counter + k);
    }
  }

  predicate Suffix(x: bytes, y: bytes) {
    |x| <= |y| && y[|y| - |x|..] == x
  }

  lemma {:induction false} FramesAfter(a: Aead, sealer: Option<Gcm>, ops: seq<Op>, i: nat)
    requires sealer.Some? ==> sealer.value.Shaped()
    requires i < |ops| && ops[i].Switch? && Frames(a, sealer, ops).Some?
    ensures Frames(a, Some(ops[i].change.key), ops[i + 1..]).Some?
    ensures Suffix(Frames(a, Some(ops[i].change.key), ops[i + 1..]).value, Frames(a, sealer, ops).value)
    decreases |ops|
  {
    hide Frame;
    if i > 0 {
      assert ops[1..][i - 1] == ops[i] && ops[1..][i..] == ops[i + 1..];
      match ops[0]
      case Flush(_) => FramesAfter(a, sealer, ops[1..], i - 1);
      case Send(payload, noise) => FramesAfter(a, Frame(a, sealer, payload, noise).value.1, ops[1..], i - 1);
      case Switch(change, _) => FramesAfter(a, Some(change.key), ops[1..], i - 1);
    }
  }

  /** For every key installed in a run of the writer: the frames from there on start with what the
      calls under it returned, and those calls have different nonces. */
  ghost predicate SealsDiffer(a: Aead, sealer: Option<Gcm>, ops: seq<Op>)
    requires sealer.Some? ==> sealer.value.Shaped()
  {
    Frames(a, sealer, ops).Some? &&
    forall i :: 0 <= i < |ops| && ops[i].Switch? ==>
      var key, rest := ops[i].change.key, ops[i + 1..];
      && DistinctSeals(key.key, SealCalls(key, rest))
      && Frames(a, Some(key), rest).Some? && Suffix(Frames(a, Some(key), rest).value, Frames(a, sealer, ops).value)
      && Rendered(a, SealCalls(key, rest)) <= Frames(a, Some(key), rest).value
  }

  lemma AllSealsDiffer(a: Aead, w: Writer, ops: seq<Op>, wire: bytes, after: Writer)
    requires w.Valid() && Writes(a, w, ops, wire, after) && FreshSwitches(ops)
    ensures SealsDiffer(a, w.sealer, ops)
  {
    hide SealCalls, Rendered, Frames, DistinctSeals, Tracks;
    WireIsFrames(a, w, ops);
    forall i | 0 <= i < |ops| && ops[i].Switch?
      ensures var key, rest := ops[i].change.key, ops[i + 1..];
              && DistinctSeals(key.key, SealCalls(key, rest))
              && Frames(a, Some(key), rest).Some?
              && Suffix(Frames(a, Some(key), rest).value, Frames(a, w.sealer, ops).value)
              && Rendered(a, SealCalls(key, rest)) <= Frames(a, Some(key), rest).value
    {
      var key, rest := ops[i].change.key, ops[i + 1..];
      assert FreshKey(key);
      var source :| Tracks(source, key);
      SealsDistinct(source, key, rest);
      FramesAfter(a, w.sealer, ops, i);
      FramesAreCalls(a, key, rest);
    }
  }

  // Opening

  datatype OpenCall = OpenCall(key: bytes, nonce: bytes, ad: bytes, text: bytes, tag: bytes)

  /** The call a poll of a compacted buffer makes, if any. */
  function PollCalls(c: Reader): seq<OpenCall>
    requires c.Valid() && c.lastLength == 0
  {
    if c.opener.None? || |c.buf| < 4 then [] else
    var length := FromBE(c.buf[..4]);
    if length > MAX_PACKET_LEN || |c.buf| < 4 + length + TAG_LEN || NextNonce(c.opener.value).Err? then []
    else [OpenCall(c.opener.value.key, NextNonce(c.opener.value).value.0, c.buf[..4], c.buf[4..4 + length],
                   c.buf[4 + length..4 + length + TAG_LEN])]
  }

  function ReceiveCalls(a: Aead, r: Reader, pieces: seq<bytes>): seq<OpenCall>
    requires r.Valid()
    decreases |pieces|
  {
    var (p, polled) := Poll(a, r);
    PollCalls(Compact(r)) +
    if NeedsMore(p) && pieces != [] && pieces[0] != []
    then ReceiveCalls(a, Feed(polled, pieces[0]), pieces[1..]) else []
  }

  /** The calls made by a run of the reader, until new keys are installed. */
  function OpenCalls(a: Aead, r: Reader, ops: seq<ReadOp>): seq<OpenCall>
    requires r.Valid()
    decreases |ops|
  {
    if ops == [] then [] else
    match ops[0]
    case Receives(pieces) => ReceiveCalls(a, r, pieces) + OpenCalls(a, Receive(a, r, pieces).1, ops[1..])
    case Buffers(piece) => OpenCalls(a, Feed(Compact(r), piece), ops[1..])
    case Installs(_) => []
  }

  predicate AgreeOn(a: Aead, b: Aead, calls: seq<OpenCall>) {
    forall i :: 0 <= i < |calls| ==>
      var c := calls[i];
      a.open(c.key, c.nonce, c.ad, c.text, c.tag) == b.open(c.key, c.nonce, c.ad, c.text, c.tag)
  }

  lemma PollMakesCalls(a: Aead, b: Aead, r: Reader)
    requires r.Valid() && AgreeOn(a, b, PollCalls(Compact(r)))
    ensures Poll(a, r) == Poll(b, r)
  {
    var calls := PollCalls(Compact(r));
    if calls != [] {
      assert calls[0] == calls[0];
    }
  }

  /** These are all the calls: two ciphers that agree on them receive alike. */
  lemma {:induction false} ReceiveMakesCalls(a: Aead, b: Aead, r: Reader, pieces: seq<bytes>)
    requires r.Valid() && AgreeOn(a, b, ReceiveCalls(a, r, pieces))
    ensures Receive(a, r, pieces) == Receive(b, r, pieces)
    decreases |pieces|
  {
    hide Poll, PollCalls, DecodePacket, AgreeOn;
    var first := PollCalls(Compact(r));
    var (p, polled) := Poll(a, r);
    PollGrows(a, r, []);
    PollGrows(b, r, []);
    if NeedsMore(p) && pieces != [] && pieces[0] != [] {
      var rest := ReceiveCalls(a, Feed(polled, pieces[0]), pieces[1..]);
      AgreeOnBoth(a, b, first, rest);
      PollMakesCalls(a, b, r);
      ReceiveMakesCalls(a, b, Feed(polled, pieces[0]), pieces[1..]);
    } else {
      AgreeOnBoth(a, b, first, []);
      PollMakesCalls(a, b, r);
    }
  }

  lemma AgreeOnBoth(a: Aead, b: Aead, first: seq<OpenCall>, rest: seq<OpenCall>)
    requires AgreeOn(a, b, first + rest)
    ensures AgreeOn(a, b, first) && AgreeOn(a, b, rest)
  {
    assert forall i :: 0 <= i < |first| ==> first[i] == (first + rest)[i];
    assert forall i :: 0 <= i < |rest| ==> rest[i] == (first + rest)[|first| + i];
  }

  /** The installed opener belongs to `source`. */
  predicate Opens(source: KeySource, r: Reader) {
    r.Valid() && r.opener.Some? && Tracks(source, r.opener.value)
  }

  lemma PollDraws(a: Aead, source: KeySource, r: Reader)
    requires Opens(source, r)
    ensures var calls := PollCalls(Compact(r));
            var after := Poll(a, r).1;
            && Opens(source, after) && |calls| <= 1
            && after.opener.value.counter == r.opener.value.counter + |calls|
            && (calls != [] ==> !NeedsMore(Poll(a, r).0) && calls[0].key == source.key
                                && calls[0].nonce == NonceAt(source, r.opener.value.counter))
  {
    NextNonceTracks(source, r.opener.value);
  }

  lemma {:induction false} ReceiveDraws(a: Aead, source: KeySource, r: Reader, pieces: seq<bytes>)
    requires Opens(source, r)
    ensures var calls := ReceiveCalls(a, r, pieces);
            var after := Receive(a, r, pieces).1;
            && Opens(source, after) && |calls| <= 1
            && after.opener.value.counter == r.opener.value.counter + |calls|
            && (calls != [] ==> calls[0].key == source.key && calls[0].nonce == NonceAt(source, r.opener.value.counter))
    decreases |pieces|
  {
    hide Poll, PollCalls, DecodePacket, Tracks, NonceAt;
    PollDraws(a, source, r);
    PollGrows(a, r, []);
    var (p, polled) := Poll(a, r);
    if NeedsMore(p) && pieces != [] && pieces[0] != [] {
      ReceiveDraws(a, source, Feed(polled, pieces[0]), pieces[1..]);
      assert [] + ReceiveCalls(a, Feed(polled, pieces[0]), pieces[1..])
          == ReceiveCalls(a, Feed(polled, pieces[0]), pieces[1..]);
    }
  }

  lemma {:induction false} OpensAreConsecutive(a: Aead, source: KeySource, r: Reader, ops: seq<ReadOp>, i: nat)
    requires Opens(source, r) && i < |OpenCalls(a, r, ops)|
    ensures Usable(source) && Base(source) + r.opener.value.counter + i < U64
    ensures OpenCalls(a, r, ops)[i].key == source.key
    ensures OpenCalls(a, r, ops)[i].nonce == NonceAt(source, r.opener.value.counter + i)
    decreases |ops|
  {
    hide Receive, ReceiveCalls, Tracks, NonceAt;
    TrackedKey(source, r.opener.value);
    match ops[0]
    case Receives(pieces) =>
      ReceiveDraws(a, source, r, pieces);
      var n, after := |ReceiveCalls(a, r, pieces)|, Receive(a, r, pieces).1;
      if i >= n {
        OpensAreConsecutive(a, source, after, ops[1..], i - n);
      } else {
        TrackedKey(source, after.opener.value);
      }
    case Buffers(piece) => OpensAreConsecutive(a, source, Feed(Compact(r), piece), ops[1..], i);
  }

  predicate DistinctOpens(key: bytes, calls: seq<OpenCall>) {
    && (forall i :: 0 <= i < |calls| ==> calls[i].key == key)
    && (forall i, k :: 0 <= i < k < |calls| ==> calls[i].nonce != calls[k].nonce)
  }

  lemma OpensDistinct(a: Aead, source: KeySource, r: Reader, ops: seq<ReadOp>)
    requires Opens(source, r)
    ensures DistinctOpens(r.opener.value.key, OpenCalls(a, r, ops))
  {
    hide Tracks, NonceAt, OpenCalls;
    TrackedKey(source, r.opener.value);
    var calls, n := OpenCalls(a, r, ops), r.opener.value.counter;
    forall i | 0 <= i < |calls| ensures calls[i].key == r.opener.value.key {
      OpensAreConsecutive(a, source, r, ops, i);
    }
    forall i, k | 0 <= i < k < |calls| ensures calls[i].nonce != calls[k].nonce {
      OpensAreConsecutive(a, source, r, ops, i);
      OpensAreConsecutive(a, source, r, ops, k);
      NoncesDistinct(source, n + i, n + k);
    }
  }

  /** For every key installed in a run of the reader: the calls made under it have different nonces. */
  ghost predicate OpensDiffer(a: Aead, r: Reader, ops: seq<ReadOp>)
    requires r.Valid()
  {
    forall i :: 0 <= i < |ops| && ops[i].Installs? ==>
      DistinctOpens(ops[i].change.key.key, OpenCalls(a, RunReader(a, r, ops[..i + 1]), ops[i + 1..]))
  }

  lemma AllOpensDiffer(a: Aead, r: Reader, ops: seq<ReadOp>)
    requires r.Valid() && FreshInstalls(ops)
    ensures OpensDiffer(a, r, ops)
  {
    hide OpenCalls, DistinctOpens, Tracks, RunReader;
    forall i | 0 <= i < |ops| && ops[i].Installs?
      ensures DistinctOpens(ops[i].change.key.key, OpenCalls(a, RunReader(a, r, ops[..i + 1]), ops[i + 1..]))
    {
      var key := ops[i].change.key;
      assert FreshKey(key);
      var source :| Tracks(source, key);
      InstalledLast(a, r, ops[..i], ops[i].change);
      assert ops[..i + 1] == ops[..i] + [ops[i]];
      OpensDistinct(a, source, RunReader(a, r, ops[..i + 1]), ops[i + 1..]);
    }
  }

  lemma InstalledLast(a: Aead, r: Reader, ops: seq<ReadOp>, change: KeySwitch)
    requires r.Valid()
    ensures RunReader(a, r, ops + [Installs(change)]).opener == Some(change.key)
  {
    RunReaderAppend(a, r, ops, [Installs(change)]);
    assert [Installs(change)][1..] == [];
    var mid := SwitchReader(RunReader(a, r, ops), change.key, change.strict);
    assert RunReader(a, mid, []) == mid;
  }
}
