/** What a connection is encoded to when it moves to its own process: the state, its framing, and
    the loop that puts the received pieces together again. */
module Handoff {
  import opened Bytes
  import opened Named
  import opened Gcm
  import opened Crypto
  import opened KeyExchange
  import opened Authentication

  /** How addresses are shown and parsed, and how a host key is loaded from its PKCS#8 bytes. */
  datatype Outside = Outside(show: nat -> bytes, parse: bytes -> Option<nat>, load: bytes -> Option<HostKey>)

  /** An address is printed in ASCII and read back; this is asked of the address handed over only. */
  predicate ShowsAddress(o: Outside, n: nat) {
    |o.show(n)| < U32 && o.parse(o.show(n)) == Some(n) && forall i :: 0 <= i < |o.show(n)| ==> o.show(n)[i] < 128
  }

  datatype SideState = SideState(source: KeySource, counter: nat, sequenceNumber: nat)

  datatype Peer = Peer(addr: nat, hostKey: HostKey, ids: Identities)

  datatype Flags = Flags(postQuantum: bool, strict: bool, sessionId: bytes)

  datatype Sides = Sides(read: SideState, write: SideState, readBuf: bytes, options: KeyOptions)

  datatype SessionState = SessionState(peer: Peer, flags: Flags, sides: Sides)

  // Encoding

  function EncodeSide(s: SideState): bytes {
    EncodeString(CipherName(s.source.algorithm)) + (EncodeString(s.source.key) + (EncodeString(s.source.iv)
    + (ToBE(s.counter, 8) + ToBE(s.sequenceNumber, 4))))
  }

  function EncodeOptions(o: KeyOptions): bytes {
    if o.command.Some? then EncodeBool(true) + EncodeString(o.command.value) else EncodeBool(false)
  }

  function EncodePeer(o: Outside, p: Peer): bytes {
    EncodeString(o.show(p.addr))
    + (EncodeString(p.hostKey.pkcs8) + (EncodeString(p.ids.client) + EncodeString(p.ids.server)))
  }

  function EncodeFlags(f: Flags): bytes {
    EncodeBool(f.postQuantum) + (EncodeBool(f.strict) + EncodeString(f.sessionId))
  }

  function EncodeSides(s: Sides): bytes {
    EncodeSide(s.read) + (EncodeSide(s.write) + (EncodeString(s.readBuf) + EncodeOptions(s.options)))
  }

  function EncodeState(o: Outside, s: SessionState): bytes {
    EncodePeer(o, s.peer) + (EncodeFlags(s.flags) + EncodeSides(s.sides))
  }

  /** The state behind its length; the length is truncated to 32 bits. */
  function HandoffMessage(o: Outside, s: SessionState): bytes {
    ToBE(|EncodeState(o, s)| % U32, 4) + EncodeState(o, s)
  }

  // Decoding

  function DecodeSide(utf8: Utf8, b: bytes): Decoding<SideState> {
    var name :- DecodeName(utf8, b);
    var algorithm := CipherTyped(name.value);
    if Lengths(algorithm).None? then Err(InvalidPacket) else
    var lengths := Lengths(algorithm).value;
    var key :- DecodeString(name.next);
    if |key.value| != lengths.keyLen then Err(InvalidPacket) else
    var iv :- DecodeString(key.next);
    if |iv.value| != lengths.ivLen then Err(InvalidPacket) else
    var counter :- DecodeU64(iv.next);
    var number :- DecodeU32(counter.next);
    Ok(Decoded(SideState(KeySource(algorithm, iv.value, key.value), counter.value, number.value), number.next))
  }

  function DecodeOptions(utf8: Utf8, b: bytes): Decoding<KeyOptions> {
    var some :- DecodeBool(b);
    if !some.value then Ok(Decoded(KeyOptions(None), some.next)) else
    var command :- DecodeName(utf8, some.next);
    Ok(Decoded(KeyOptions(Some(command.value)), command.next))
  }

  function DecodePeer(o: Outside, utf8: Utf8, b: bytes): Decoding<Peer> {
    var addr :- DecodeName(utf8, b);
    if o.parse(addr.value).None? then Err(InvalidPacket) else
    var pkcs8 :- DecodeString(addr.next);
    if o.load(pkcs8.value).None? then Err(Crypto(KeyRejected)) else
    var client :- DecodeString(pkcs8.next);
    var server :- DecodeString(client.next);
    Ok(Decoded(Peer(o.parse(addr.value).value, o.load(pkcs8.value).value, Identities(client.value, server.value)),
               server.next))
  }

  /** A session id that does not fit a digest is a panic in the original. */
  function DecodeFlags(b: bytes): Decoding<Flags> {
    var postQuantum :- DecodeBool(b);
    var strict :- DecodeBool(postQuantum.next);
    var id :- DecodeString(strict.next);
    if |id.value| > DIGEST_MAX then Err(Unreachable)
    else Ok(Decoded(Flags(postQuantum.value, strict.value, id.value), id.next))
  }

  function DecodeSides(utf8: Utf8, b: bytes): Decoding<Sides> {
    var read :- DecodeSide(utf8, b);
    var write :- DecodeSide(utf8, read.next);
    var buf :- DecodeString(write.next);
    var options :- DecodeOptions(utf8, buf.next);
    Ok(Decoded(Sides(read.value, write.value, buf.value, options.value), options.next))
  }

  function DecodeState(o: Outside, utf8: Utf8, b: bytes): Decoding<SessionState> {
    var peer :- DecodePeer(o, utf8, b);
    var flags :- DecodeFlags(peer.next);
    var sides :- DecodeSides(utf8, flags.next);
    Ok(Decoded(SessionState(peer.value, flags.value, sides.value), sides.next))
  }

  // Round trips

  predicate SideFits(s: SideState) {
    Usable(s.source) && s.counter < U64 && s.sequenceNumber < U32
  }

  predicate OptionsFit(utf8: Utf8, o: KeyOptions) {
    o.command.Some? ==> |o.command.value| < U32 && utf8(o.command.value)
  }

  lemma NumbersRoundTrip(counter: nat, number: nat, rest: bytes)
    requires counter < U64 && number < U32
    ensures var b := (ToBE(counter, 8) + ToBE(number, 4)) + rest;
            && DecodeU64(b) == Ok(Decoded(counter, ToBE(number, 4) + rest))
            && DecodeU32(ToBE(number, 4) + rest) == Ok(Decoded(number, rest))
  {
    Concat3(ToBE(counter, 8), ToBE(number, 4), rest);
    DecodeEncodedU64(counter, ToBE(number, 4) + rest);
    DecodeEncodedU32(number, rest);
  }

  lemma SideRoundTrip(utf8: Utf8, s: SideState, rest: bytes)
    requires SideFits(s)
    ensures DecodeSide(utf8, EncodeSide(s) + rest) == Ok(Decoded(s, rest))
  {
    hide EncodeString, DecodeString, DecodeU64, DecodeU32;
    var name, key, iv := EncodeString(AES128GCM), EncodeString(s.source.key), EncodeString(s.source.iv);
    var numbers := ToBE(s.counter, 8) + ToBE(s.sequenceNumber, 4);
    Concat3(name, key + (iv + numbers), rest);
    Concat3(key, iv + numbers, rest);
    Concat3(iv, numbers, rest);
    NameRoundTrip(utf8, AES128GCM, key + (iv + (numbers + rest)));
    StringRoundTrip(s.source.key, iv + (numbers + rest));
    StringRoundTrip(s.source.iv, numbers + rest);
    NumbersRoundTrip(s.counter, s.sequenceNumber, rest);
  }

  lemma BoolRoundTrip(x: bool, rest: bytes)
    ensures DecodeBool(EncodeBool(x) + rest) == Ok(Decoded(x, rest))
  {
    assert (EncodeBool(x) + rest)[1..] == rest;
  }

  lemma OptionsRoundTrip(utf8: Utf8, o: KeyOptions, rest: bytes)
    requires OptionsFit(utf8, o)
    ensures DecodeOptions(utf8, EncodeOptions(o) + rest) == Ok(Decoded(o, rest))
  {
    hide EncodeString, DecodeString, DecodeBool, EncodeBool;
    if o.command.Some? {
      Concat3(EncodeBool(true), EncodeString(o.command.value), rest);
      BoolRoundTrip(true, EncodeString(o.command.value) + rest);
      StringRoundTrip(o.command.value, rest);
    } else {
      BoolRoundTrip(false, rest);
    }
  }

  /** Every string is short enough for its length field, the key can be loaded back and the address
      read back. */
  predicate PeerFits(o: Outside, p: Peer) {
    && |p.hostKey.pkcs8| < U32 && |p.ids.client| < U32 && |p.ids.server| < U32
    && o.load(p.hostKey.pkcs8) == Some(p.hostKey) && ShowsAddress(o, p.addr)
  }

  lemma PeerRoundTrip(o: Outside, utf8: Utf8, p: Peer, rest: bytes)
    requires PeerFits(o, p)
    ensures DecodePeer(o, utf8, EncodePeer(o, p) + rest) == Ok(Decoded(p, rest))
  {
    hide EncodeString, DecodeString, DecodeName;
    var addr, key, client := EncodeString(o.show(p.addr)), EncodeString(p.hostKey.pkcs8), EncodeString(p.ids.client);
    var server := EncodeString(p.ids.server);
    Concat3(addr, key + (client + server), rest);
    Concat3(key, client + server, rest);
    Concat3(client, server, rest);
    NameRoundTrip(utf8, o.show(p.addr), key + (client + (server + rest)));
    StringRoundTrip(p.hostKey.pkcs8, client + (server + rest));
    StringRoundTrip(p.ids.client, server + rest);
    StringRoundTrip(p.ids.server, rest);
  }

  lemma FlagsRoundTrip(f: Flags, rest: bytes)
    requires |f.sessionId| <= DIGEST_MAX
    ensures DecodeFlags(EncodeFlags(f) + rest) == Ok(Decoded(f, rest))
  {
    hide EncodeString, DecodeString, DecodeBool, EncodeBool;
    var id := EncodeString(f.sessionId);
    Concat3(EncodeBool(f.postQuantum), EncodeBool(f.strict) + id, rest);
    Concat3(EncodeBool(f.strict), id, rest);
    BoolRoundTrip(f.postQuantum, EncodeBool(f.strict) + (id + rest));
    BoolRoundTrip(f.strict, id + rest);
    StringRoundTrip(f.sessionId, rest);
  }

  predicate SidesFit(utf8: Utf8, s: Sides) {
    SideFits(s.read) && SideFits(s.write) && |s.readBuf| < U32 && OptionsFit(utf8, s.options)
  }

  lemma SidesRoundTrip(utf8: Utf8, s: Sides, rest: bytes)
    requires SidesFit(utf8, s)
    ensures DecodeSides(utf8, EncodeSides(s) + rest) == Ok(Decoded(s, rest))
  {
    hide EncodeString, DecodeString, DecodeSide, EncodeSide, DecodeOptions, EncodeOptions;
    var read, write, buf, options :=
      EncodeSide(s.read), EncodeSide(s.write), EncodeString(s.readBuf), EncodeOptions(s.options);
    Concat3(read, write + (buf + options), rest);
    Concat3(write, buf + options, rest);
    Concat3(buf, options, rest);
    SideRoundTrip(utf8, s.read, write + (buf + (options + rest)));
    SideRoundTrip(utf8, s.write, buf + (options + rest));
    StringRoundTrip(s.readBuf, options + rest);
    OptionsRoundTrip(utf8, s.options, rest);
  }

  predicate StateFits(o: Outside, utf8: Utf8, s: SessionState) {
    PeerFits(o, s.peer) && |s.flags.sessionId| <= DIGEST_MAX && SidesFit(utf8, s.sides)
  }

  /** Decoding what was encoded gives the same state, and leaves what follows. */
  lemma StateRoundTrip(o: Outside, utf8: Utf8, s: SessionState, rest: bytes)
    requires StateFits(o, utf8, s)
    ensures DecodeState(o, utf8, EncodeState(o, s) + rest) == Ok(Decoded(s, rest))
  {
    hide DecodePeer, EncodePeer, DecodeFlags, EncodeFlags, DecodeSides, EncodeSides;
    var peer, flags, sides := EncodePeer(o, s.peer), EncodeFlags(s.flags), EncodeSides(s.sides);
    Concat3(peer, flags + sides, rest);
    Concat3(flags, sides, rest);
    PeerRoundTrip(o, utf8, s.peer, flags + (sides + rest));
    FlagsRoundTrip(s.flags, sides + rest);
    SidesRoundTrip(utf8, s.sides, rest);
  }

  // Reassembly

  /** One `recvmsg`: some bytes, perhaps with a file descriptor. */
  datatype Piece = Piece(data: bytes, fd: Option<nat>)

  datatype HandoffError = BadHandoff | EndOfFile | Undecodable(cause: ProtoError)

  const CHUNK: nat := 16384

  function Gather(pieces: seq<Piece>, length: Option<nat>, received: bytes, fd: Option<nat>)
    : Result<(bytes, Option<nat>), HandoffError>
    decreases |pieces|
  {
    if pieces == [] || pieces[0].data == [] then Err(EndOfFile)
    else if |pieces[0].data| > CHUNK then Err(BadHandoff)
    else
      var data := pieces[0].data;
      var tcp := if fd.None? then pieces[0].fd else fd;
      if length.None? && |data| < 4 then Err(BadHandoff) else
      var len := if length.Some? then length.value else FromBE(data[..4]);
      var more := received + if length.Some? then data else data[4..];
      if |more| > len then Err(BadHandoff)
      else if |more| == len then Ok((more, tcp))
      else Gather(pieces[1..], Some(len), more, tcp)
  }

  method Reassemble(pieces: seq<Piece>) returns (r: Result<(bytes, Option<nat>), HandoffError>)
    ensures r == Gather(pieces, None, [], None)
  {
    var length: Option<nat>, received: bytes, tcp: Option<nat> := None, [], None;
    var i := 0;
    assert pieces[0..] == pieces;
    while i < |pieces|
      invariant 0 <= i <= |pieces|
      invariant Gather(pieces[i..], length, received, tcp) == Gather(pieces, None, [], None)
    {
      assert pieces[i..][0] == pieces[i] && pieces[i..][1..] == pieces[i + 1..];
      var data := pieces[i].data;
      if |data| > CHUNK {
        return Err(BadHandoff);
      }
      if data == [] {
        return Err(EndOfFile);
      }
      if tcp.None? {
        tcp := pieces[i].fd;
      }
      match length {
        case Some(len) =>
          if |received| + |data| > len {
            return Err(BadHandoff);
          }
          received := received + data;
          if |received| == len {
            return Ok((received, tcp));
          }
        case None =>
          if |data| < 4 {
            return Err(BadHandoff);
          }
          var len := FromBE(data[..4]);
          length := Some(len);
          received := received + data[4..];
          if |received| > len {
            return Err(BadHandoff);
          }
          if |received| == len {
            return Ok((received, tcp));
          }
      }
      i := i + 1;
    }
    return Err(EndOfFile);
  }

  function Data(pieces: seq<Piece>): bytes
    decreases |pieces|
  {
    if pieces == [] then [] else pieces[0].data + Data(pieces[1..])
  }

  predicate Delivered(pieces: seq<Piece>) {
    forall i :: 0 <= i < |pieces| ==> 0 < |pieces[i].data| <= CHUNK
  }

  function FirstFd(pieces: seq<Piece>): Option<nat>
    decreases |pieces|
  {
    if pieces == [] then None else if pieces[0].fd.Some? then pieces[0].fd else FirstFd(pieces[1..])
  }

  lemma {:induction false} GatherRest(pieces: seq<Piece>, length: nat, received: bytes, fd: Option<nat>, m: bytes)
    requires Delivered(pieces) && |received| < length == |m| && received + Data(pieces) == m
    ensures Gather(pieces, Some(length), received, fd)
            == Ok((m, if fd.Some? then fd else FirstFd(pieces)))
    decreases |pieces|
  {
    assert pieces != [] by { assert received + [] == received; }
    var more := received + pieces[0].data;
    Concat3(received, pieces[0].data, Data(pieces[1..]));
    assert more + Data(pieces[1..]) == m;
    if |more| < length {
      GatherRest(pieces[1..], length, more, if fd.None? then pieces[0].fd else fd, m);
    } else {
      NoMore(pieces[1..]);
      assert more + [] == more;
      assert FirstFd(pieces[1..]) == None by { assert pieces[1..] == []; }
    }
  }

  lemma NoMore(pieces: seq<Piece>)
    requires Delivered(pieces) && Data(pieces) == []
    ensures pieces == []
  {
  }

  lemma GatherAll(pieces: seq<Piece>, head: bytes, m: bytes)
    requires Delivered(pieces) && |head| == 4 && FromBE(head) == |m| && Data(pieces) == head + m
    requires pieces != [] && |pieces[0].data| >= 4
    ensures Gather(pieces, None, [], None) == Ok((m, FirstFd(pieces)))
  {
    hide FromBE, Delivered;
    var data, rest := pieces[0].data, Data(pieces[1..]);
    assert data[..4] == (data + rest)[..4] == (head + m)[..4] == head;
    assert data[4..] + rest == (data + rest)[4..] == (head + m)[4..] == m;
    assert [] + data[4..] == data[4..];
    DeliveredParts(pieces);
    if |data[4..]| < |m| {
      GatherRest(pieces[1..], |m|, data[4..], pieces[0].fd, m);
    } else {
      NoMore(pieces[1..]);
      assert data[4..] + [] == data[4..];
    }
  }

  lemma DeliveredParts(pieces: seq<Piece>)
    requires Delivered(pieces) && pieces != []
    ensures 0 < |pieces[0].data| <= CHUNK && Delivered(pieces[1..])
  {
  }

  /** However the message is cut, it is put together again, with the first descriptor sent along,
      exactly when the first piece holds the whole length prefix. */
  lemma ReassemblesIff(pieces: seq<Piece>, m: bytes)
    requires Delivered(pieces) && |m| < U32 && Data(pieces) == ToBE(|m|, 4) + m
    ensures pieces != []
    ensures Gather(pieces, None, [], None).Ok? <==> |pieces[0].data| >= 4
    ensures |pieces[0].data| >= 4 ==> Gather(pieces, None, [], None) == Ok((m, FirstFd(pieces)))
  {
    hide ToBE, Delivered, FromBE;
    assert |ToBE(|m|, 4) + m| >= 4;
    if |pieces[0].data| >= 4 {
      U32RoundTrip(|m|);
      GatherAll(pieces, ToBE(|m|, 4), m);
    }
  }

  lemma {:induction false} GatherSound(pieces: seq<Piece>, length: Option<nat>, received: bytes, fd: Option<nat>)
    returns (k: nat)
    requires Gather(pieces, length, received, fd).Ok? && pieces != []
    ensures 0 < k <= |pieces| && Delivered(pieces[..k])
    ensures var (m, tcp) := Gather(pieces, length, received, fd).value;
            && tcp == (if fd.Some? then fd else FirstFd(pieces[..k]))
            && (length.Some? ==> |m| == length.value && m == received + Data(pieces[..k]))
            && (length.None? ==> |pieces[0].data| >= 4 && |m| == FromBE(pieces[0].data[..4])
                                 && m == received + Data(pieces[..k])[4..])
    decreases |pieces|
  {
    hide FromBE;
    var data := pieces[0].data;
    var tcp := if fd.None? then pieces[0].fd else fd;
    var len := if length.Some? then length.value else FromBE(data[..4]);
    var more := received + if length.Some? then data else data[4..];
    if |more| == len {
      k := 1;
      var one := pieces[..1];
      assert one[0] == pieces[0] && one[1..] == [];
      assert Data(one) == data + Data([]) == data;
    } else {
      var j := GatherSound(pieces[1..], Some(len), more, tcp);
      k := j + 1;
      var some := pieces[..k];
      assert some[0] == pieces[0] && some[1..] == pieces[1..][..j];
      assert Data(some) == data + Data(some[1..]);
      if length.Some? {
        assert more + Data(some[1..]) == received + (data + Data(some[1..]));
      } else {
        assert (data + Data(some[1..]))[4..] == data[4..] + Data(some[1..]);
        assert more + Data(some[1..]) == received + (data[4..] + Data(some[1..]));
      }
      forall i | 0 <= i < k ensures 0 < |some[i].data| <= CHUNK {
        if i > 0 {
          assert some[i] == pieces[1..][..j][i - 1];
        }
      }
    }
  }

  /** A first piece that cuts the length prefix is possible, and is refused. */
  lemma ShortFirstPiece(m: bytes)
    requires |m| < CHUNK - 4
    ensures var whole := ToBE(|m|, 4) + m;
            var pieces := [Piece(whole[..3], Some(3)), Piece(whole[3..], None)];
            && Delivered(pieces) && Data(pieces) == whole && Gather(pieces, None, [], None).Err?
  {
    var whole := ToBE(|m|, 4) + m;
    TwoPieces(whole);
  }

  lemma TwoPieces(whole: bytes)
    requires 4 <= |whole| < CHUNK
    ensures var pieces := [Piece(whole[..3], Some(3)), Piece(whole[3..], None)];
            && Delivered(pieces) && Data(pieces) == whole && Gather(pieces, None, [], None).Err?
  {
    var second := Piece(whole[3..], None);
    var pieces := [Piece(whole[..3], Some(3)), second];
    assert pieces[1..] == [second] && [second][1..] == [];
    assert Data([second]) == whole[3..] + Data([]);
    assert whole[..3] + (whole[3..] + []) == whole;
  }

  // Surroundings in which the handoff works

  /** The message as it arrives when every read fills its buffer, the descriptor with the first. */
  function CutUp(m: bytes, fd: Option<nat>): seq<Piece>
    decreases |m|
  {
    if m == [] then []
    else if |m| <= CHUNK then [Piece(m, fd)]
    else [Piece(m[..CHUNK], fd)] + CutUp(m[CHUNK..], None)
  }

  lemma {:induction false} CutUpDelivers(m: bytes, fd: Option<nat>)
    requires m != []
    ensures var pieces := CutUp(m, fd);
            && Delivered(pieces) && Data(pieces) == m && pieces != []
            && |pieces[0].data| == (if |m| <= CHUNK then |m| else CHUNK)
            && (fd.Some? ==> FirstFd(pieces) == fd)
    decreases |m|
  {
    var pieces := CutUp(m, fd);
    if |m| <= CHUNK {
      assert pieces[1..] == [] && m + [] == m;
    } else {
      var rest := CutUp(m[CHUNK..], None);
      CutUpDelivers(m[CHUNK..], None);
      assert pieces[1..] == rest && m[..CHUNK] + m[CHUNK..] == m;
      forall i | 0 <= i < |pieces| ensures 0 < |pieces[i].data| <= CHUNK {
        if i > 0 {
          assert pieces[i] == rest[i - 1];
        }
      }
    }
  }

  /** Decimal digits. */
  function Digits(n: nat): (s: bytes)
    ensures s != [] && forall i :: 0 <= i < |s| ==> 48 <= s[i] < 58
  {
    if n < 10 then [48 + n] else Digits(n / 10) + [48 + n % 10]
  }

  function ReadDigits(s: bytes): Option<nat> {
    if s == [] then Some(0)
    else if !(48 <= s[|s| - 1] < 58) then None
    else
      var rest := ReadDigits(s[..|s| - 1]);
      if rest.None? then None else Some(10 * rest.value + s[|s| - 1] - 48)
  }

  lemma {:induction false} DigitsRead(n: nat)
    ensures ReadDigits(Digits(n)) == Some(n)
  {
    var s := Digits(n);
    if n < 10 {
      assert s[..0] == [] && ReadDigits([]) == Some(0);
    } else {
      DigitsRead(n / 10);
      assert s[..|s| - 1] == Digits(n / 10);
    }
  }

  /** Surroundings that know one host key and print addresses in decimal. */
  function Plainly(key: HostKey): Outside {
    Outside(Digits, ReadDigits, b => if b == key.pkcs8 then Some(key) else None)
  }

  /** What the handoff asks can be met: for every state whose strings fit, there are surroundings and
      a cutting of its message for which the reassembly gives the message back. */
  lemma HandoffPossible(utf8: Utf8, s: SessionState, fd: nat)
    requires |Digits(s.peer.addr)| < U32
    requires |s.peer.hostKey.pkcs8| < U32 && |s.peer.ids.client| < U32 && |s.peer.ids.server| < U32
    requires |s.flags.sessionId| <= DIGEST_MAX && SidesFit(utf8, s.sides)
    requires |EncodeState(Plainly(s.peer.hostKey), s)| < U32
    ensures var o := Plainly(s.peer.hostKey);
            var pieces := CutUp(HandoffMessage(o, s), Some(fd));
            && StateFits(o, utf8, s) && Delivered(pieces) && Data(pieces) == HandoffMessage(o, s)
            && FirstFd(pieces) == Some(fd) && pieces != [] && |pieces[0].data| >= 4
            && Gather(pieces, None, [], None) == Ok((EncodeState(o, s), Some(fd)))
  {
    hide EncodeState, Gather, CutUp, Delivered, Data, FirstFd, SidesFit, Digits, ReadDigits, ToBE;
    var o := Plainly(s.peer.hostKey);
    DigitsRead(s.peer.addr);
    CutUpDelivers(HandoffMessage(o, s), Some(fd));
    ReassemblesIff(CutUp(HandoffMessage(o, s), Some(fd)), EncodeState(o, s));
  }
}
