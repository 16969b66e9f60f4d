/** The binary packet protocol (section 6 of RFC 4253): framing, padding, sequence numbers and
    AEAD protection of one direction at a time.

    `Reader` and `Writer` are the values of a `ReadState` and a `WriteState`. A message type is
    its number, so a packet is the number and the bytes after it. */
module Transport {
  import opened Bytes
  import opened Gcm
  import opened Crypto

  const MAX_PACKET_LEN: nat := 64 * 1024
  const TAG_LEN: nat := 16

  const DISCONNECT: byte := 1
  const IGNORE: byte := 2
  const DEBUG: byte := 4
  const SERVICE_REQUEST: byte := 5
  const KEXINIT: byte := 20
  const NEWKEYS: byte := 21
  const KEX_ECDH_INIT: byte := 30
  const KEX_ECDH_REPLY: byte := 31
  const USERAUTH_REQUEST: byte := 50
  const GLOBAL_REQUEST: byte := 80
  const REQUEST_SUCCESS: byte := 81
  const REQUEST_FAILURE: byte := 82

  /** An authenticated cipher: key, nonce, associated data, then plaintext or ciphertext and tag. */
  datatype AeadFunctions = AeadFunctions(
    seal: (bytes, bytes, bytes, bytes) -> (bytes, bytes),
    open: (bytes, bytes, bytes, bytes, bytes) -> Option<bytes>)

  ghost predicate Lawful(a: AeadFunctions) {
    && (forall k, n, ad, p :: |a.seal(k, n, ad, p).0| == |p| && |a.seal(k, n, ad, p).1| == TAG_LEN)
    && (forall k, n, ad, c, t :: a.open(k, n, ad, c, t).Some? ==> |a.open(k, n, ad, c, t).value| == |c|)
    && (forall k, n, ad, p ::
          a.open(k, n, ad, a.seal(k, n, ad, p).0, a.seal(k, n, ad, p).1) == Some(p))
  }

  type Aead = a: AeadFunctions | Lawful(a)
    witness AeadFunctions((k, n, ad, p) => (p, seq(TAG_LEN, i => 0)), (k, n, ad, c, t) => Some(c))

  datatype Packet = Packet(sequenceNumber: nat, kind: byte, payload: bytes)

  // Reading

  datatype Reader = Reader(buf: bytes, lastLength: nat, sequenceNumber: nat, opener: Option<Gcm>) {
    predicate Valid() {
      lastLength <= |buf| && sequenceNumber < U32 && (opener.Some? ==> opener.value.Shaped())
    }
    /** The bytes not yet consumed: the last packet stays at the front until the next poll. */
    function Pending(): bytes
      requires Valid()
    {
      buf[lastLength..]
    }
  }

  /** `Short` is an `Ok` with a byte count hint; a short unencrypted buffer is reported as an
      `Incomplete` error instead. */
  datatype Polled = Complete(sequenceNumber: nat, length: nat) | Short(hint: nat) | Failed(error: ProtoError)

  function Compact(r: Reader): (c: Reader)
    requires r.Valid()
    ensures c.Valid() && c.lastLength == 0 && c.Pending() == r.Pending()
  {
    r.(buf := r.buf[r.lastLength..], lastLength := 0)
  }

  function Consume(c: Reader, packetLength: nat, tagLen: nat): Reader {
    c.(sequenceNumber := (c.sequenceNumber + 1) % U32, lastLength := 4 + packetLength + tagLen)
  }

  /** Decrypt the packet at the front of a compacted buffer that holds all of it. */
  function OpenFirst(a: Aead, c: Reader, g: Gcm, length: nat): (result: (Polled, Reader))
    requires c.Valid() && c.lastLength == 0 && g.Shaped()
    requires 4 + length + TAG_LEN <= |c.buf|
  {
    match NextNonce(g)
    case Err(e) => (Failed(Crypto(e)), c)
    case Ok((nonce, after)) =>
      var moved := c.(opener := Some(after));
      match a.open(g.key, nonce, c.buf[..4], c.buf[4..4 + length], c.buf[4 + length..4 + length + TAG_LEN])
      case None => (Failed(Crypto(DecryptionFailed)), moved)
      case Some(plain) =>
        (Complete(c.sequenceNumber, length),
         Consume(moved.(buf := c.buf[..4] + plain + c.buf[4 + length..]), length, TAG_LEN))
  }

  /** Look for one packet at the front of a compacted buffer. */
  function PollFront(a: Aead, c: Reader): (result: (Polled, Reader))
    requires c.Valid() && c.lastLength == 0
    ensures result.1.Valid()
    ensures result.0.Complete? ==> |result.1.Pending()| < |c.buf|
    ensures result.0.Complete? ==> 4 + result.0.length <= |result.1.buf|
  {
    var have := |c.buf|;
    match c.opener
    case Some(g) =>
      if have < 4 then (Short(4 - have), c) else
      var length := FromBE(c.buf[..4]);
      if length > MAX_PACKET_LEN then (Failed(InvalidPacket), c)
      else if have < 4 + length then (Short(4 + length + TAG_LEN - have), c)
      else if have < 4 + length + TAG_LEN then (Short(TAG_LEN - (have - (4 + length))), c)
      else OpenFirst(a, c, g, length)
    case None =>
      if have < 4 then (Failed(Incomplete(4 - have)), c) else
      var length := FromBE(c.buf[..4]);
      if length > MAX_PACKET_LEN then (Failed(InvalidPacket), c)
      else if have - 4 < length then (Short(length - (have - 4)), c)
      else (Complete(c.sequenceNumber, length), Consume(c, length, 0))
  }

  function Poll(a: Aead, r: Reader): (result: (Polled, Reader))
    requires r.Valid()
    ensures result.1.Valid()
    ensures result.0.Complete? ==> |result.1.Pending()| < |r.Pending()|
    ensures result.0.Complete? ==> 4 + result.0.length <= |result.1.buf|
  {
    PollFront(a, Compact(r))
  }

  /** Split a decrypted packet into its type and payload; padding must be there, at least four
      bytes of it. */
  function DecodePacket(buf: bytes, sequenceNumber: nat, length: nat): Result<Packet, ProtoError> {
    if |buf| < 4 then Err(Incomplete(4 - |buf|)) else
    var padding :- DecodeU8(buf[4..]);
    if padding.value < 4 then Err(InvalidPacket)
    else if length < 1 + padding.value then Err(InvalidPacket) else
    var payloadLen := length - 1 - padding.value;
    if |padding.next| < payloadLen then Err(Incomplete(payloadLen - |padding.next|))
    else if payloadLen == 0 then Err(InvalidPacket)
    else if |padding.next| - payloadLen < padding.value then
      Err(Incomplete(padding.value - (|padding.next| - payloadLen)))
    else Ok(Packet(sequenceNumber, padding.next[0], padding.next[1..payloadLen]))
  }

  function ResetReader(r: Reader, strict: bool): Reader {
    if strict then r.(sequenceNumber := 0) else r
  }

  // Writing

  datatype Writer = Writer(buf: bytes, written: nat, sequenceNumber: nat, sealer: Option<Gcm>) {
    predicate Valid() {
      written <= |buf| && sequenceNumber < U32 && (sealer.Some? ==> sealer.value.Shaped())
    }
    function Buffered(): bytes
      requires Valid()
    {
      buf[written..]
    }
  }

  /** What the random source delivers for one packet: byte `i` of the padding, or a failure. */
  datatype Random = Random(noise: nat -> byte) | NoRandom

  function NextMultiple(n: nat, block: nat): nat
    requires block > 0
  {
    if n % block == 0 then n else n + (block - n % block)
  }

  function PaddingLen(region: nat, block: nat): nat
    requires block > 0
  {
    var rounded := NextMultiple(region, block);
    var minimum := (if rounded > 16 then rounded else 16) - region;
    if minimum < 4 then minimum + block else minimum
  }

  function PaddingFor(sealed: bool, payloadLen: nat): nat {
    if sealed then PaddingLen(1 + payloadLen, 16) else PaddingLen(5 + payloadLen, 8)
  }

  /** The padding rule: the aligned region is a whole number of blocks and at least sixteen
      bytes, and the padding is between 4 and 19 bytes, so its length fits in its one-byte field. */
  lemma PaddingIsSound(sealed: bool, payloadLen: nat)
    ensures var pad := PaddingFor(sealed, payloadLen);
            var block := if sealed then 16 else 8;
            var region := if sealed then 1 + payloadLen else 5 + payloadLen;
            4 <= pad <= 19 && (region + pad) % block == 0 && region + pad >= 16
  {
    hide NextMultiple;
    if sealed {
      RoundedUp16(1 + payloadLen);
    } else {
      RoundedUp8(5 + payloadLen);
    }
  }

  lemma RoundedUp16(n: nat)
    ensures n <= NextMultiple(n, 16) < n + 16 && NextMultiple(n, 16) % 16 == 0
  {
    assert n == 16 * (n / 16) + n % 16;
  }

  lemma RoundedUp8(n: nat)
    ensures n <= NextMultiple(n, 8) < n + 8 && NextMultiple(n, 8) % 8 == 0
  {
    assert n == 8 * (n / 8) + n % 8;
  }

  function Padding(n: nat, noise: nat -> byte): (p: bytes)
    ensures |p| == n
  {
    seq<byte>(n, i requires 0 <= i < n => noise(i))
  }

  function Plain(sealed: bool, payload: bytes, noise: nat -> byte): bytes {
    var pad := PaddingFor(sealed, |payload|);
    ToBE(1 + |payload| + pad, 4) + [pad % 256] + payload + Padding(pad, noise)
  }

  /** Seal a plain packet, leaving its length field readable. */
  function Protect(a: Aead, sealer: Option<Gcm>, plain: bytes)
    : (r: Result<(bytes, Option<Gcm>), CryptoError>)
    requires sealer.Some? ==> sealer.value.Shaped()
    requires |plain| >= 4
    ensures r.Ok? ==> |r.value.0| == |plain| + if sealer.Some? then TAG_LEN else 0
    ensures r.Ok? ==> r.value.1.Some? == sealer.Some? && (sealer.Some? ==> r.value.1.value.Shaped())
  {
    match sealer
    case None => Ok((plain, None))
    case Some(g) =>
      var (nonce, after) :- NextNonce(g);
      var (cipher, tag) := a.seal(g.key, nonce, plain[..4], plain[4..]);
      Ok((plain[..4] + cipher + tag, Some(after)))
  }

  /** The bytes of one packet on the wire, and the sealer after it. */
  function Frame(a: Aead, sealer: Option<Gcm>, payload: bytes, noise: nat -> byte)
    : (r: Result<(bytes, Option<Gcm>), CryptoError>)
    requires sealer.Some? ==> sealer.value.Shaped()
    ensures r.Ok? ==> |r.value.0| == |Plain(sealer.Some?, payload, noise)| + if sealer.Some? then TAG_LEN else 0
    ensures r.Ok? ==> r.value.1.Some? == sealer.Some? && (sealer.Some? ==> r.value.1.value.Shaped())
  {
    Protect(a, sealer, Plain(sealer.Some?, payload, noise))
  }

  /** Append one packet to the outgoing buffer. A failure leaves the half-built packet behind
      and neither the sequence number nor the sealer moves. */
  function Encode(a: Aead, w: Writer, payload: bytes, random: Random): (result: (Result<(), ProtoError>, Writer))
    requires w.Valid()
    ensures result.1.Valid()
  {
    match random
    case NoRandom =>
      var pad := PaddingFor(w.sealer.Some?, |payload|);
      (Err(Unreachable), w.(buf := w.buf + Zeros(5) + payload + Zeros(pad)))
    case Random(noise) =>
      match Frame(a, w.sealer, payload, noise)
      case Ok((frame, after)) =>
        (Ok(()), w.(buf := w.buf + frame, sequenceNumber := (w.sequenceNumber + 1) % U32, sealer := after))
      case Err(e) =>
        (Err(Crypto(e)), w.(buf := w.buf + (Plain(true, payload, noise) + Zeros(TAG_LEN))))
  }

  /** Account for `n` bytes accepted by the stream. */
  function Wrote(w: Writer, n: nat): Writer
    requires w.Valid() && n <= |w.Buffered()|
  {
    if w.written + n == |w.buf| then w.(buf := [], written := 0) else w.(written := w.written + n)
  }

  /** New keys for both directions, and whether sequence numbers restart. */
  datatype KeyUpdate = KeyUpdate(opener: Key, sealer: Key, strict: bool)

  function SwitchWriter(w: Writer, sealer: Gcm, strict: bool): Writer {
    w.(sequenceNumber := if strict then 0 else w.sequenceNumber, sealer := Some(sealer))
  }

  function SwitchReader(r: Reader, opener: Gcm, strict: bool): Reader {
    ResetReader(r, strict).(opener := Some(opener))
  }

  // The objects

  class ReadState {
    var buf: bytes
    var lastLength: nat
    var sequenceNumber: nat
    var opener: GcmState?

    ghost function Repr(): set<object>
      reads this
    {
      {this} + if opener != null then {opener, opener.nonce} else {}
    }

    ghost predicate Valid()
      reads this, Repr()
    {
      lastLength <= |buf| && sequenceNumber < U32 && (opener != null ==> opener.Valid())
    }

    ghost function View(): (r: Reader)
      requires Valid()
      reads this, Repr()
      ensures r.Valid()
    {
      Reader(buf, lastLength, sequenceNumber, if opener != null then Some(opener.View()) else None)
    }

    constructor ()
      ensures Valid() && View() == Reader([], 0, 0, None) && fresh(Repr())
    {
      buf, lastLength, sequenceNumber, opener := [], 0, 0, null;
    }

    /** Drop the packet delivered last. */
    method CompactBuffer()
      requires Valid()
      modifies this`buf, this`lastLength
      ensures Valid() && View() == Compact(old(View()))
    {
      if lastLength > 0 {
        buf := buf[lastLength..];
        lastLength := 0;
      }
    }

    method FinishPacket(length: nat, tagLen: nat) returns (p: Polled)
      requires Valid() && 4 + length + tagLen <= |buf|
      modifies this`sequenceNumber, this`lastLength
      ensures Valid() && p == Complete(old(sequenceNumber), length)
      ensures View() == Consume(old(View()), length, tagLen)
    {
      p := Complete(sequenceNumber, length);
      sequenceNumber := (sequenceNumber + 1) % U32;
      lastLength := 4 + length + tagLen;
    }

    /** Verify and decrypt the first packet where it lies. */
    method OpenInPlace(a: Aead, length: nat) returns (p: Polled)
      requires Valid() && opener != null && lastLength == 0
      requires 4 + length + TAG_LEN <= |buf|
      modifies this`buf, this`sequenceNumber, this`lastLength, opener`counter, opener.nonce
      ensures Valid()
      ensures (p, View()) == OpenFirst(a, old(View()), old(opener.View()), length)
    {
      var nonce := opener.Next();
      if nonce.Err? {
        return Failed(Crypto(nonce.error));
      }
      var end := 4 + length;
      var plain := a.open(opener.key, nonce.value, buf[..4], buf[4..end], buf[end..end + TAG_LEN]);
      if plain.None? {
        return Failed(Crypto(DecryptionFailed));
      }
      buf := buf[..4] + plain.value + buf[end..];
      p := FinishPacket(length, TAG_LEN);
    }

    method PollPacket(a: Aead) returns (p: Polled)
      requires Valid()
      modifies Repr()
      ensures opener == old(opener) && Valid()
      ensures (p, View()) == Poll(a, old(View()))
    {
      CompactBuffer();
      if opener != null {
        if |buf| < 4 {
          return Short(4 - |buf|);
        }
        var length := FromBE(buf[..4]);
        if length > MAX_PACKET_LEN {
          return Failed(InvalidPacket);
        }
        var end := 4 + length;
        if |buf| < end {
          return Short(end + TAG_LEN - |buf|);
        }
        if |buf| < end + TAG_LEN {
          return Short(TAG_LEN - (|buf| - end));
        }
        p := OpenInPlace(a, length);
      } else {
        if |buf| < 4 {
          return Failed(Incomplete(4 - |buf|));
        }
        var length := FromBE(buf[..4]);
        if length > MAX_PACKET_LEN {
          return Failed(InvalidPacket);
        }
        if |buf| - 4 < length {
          return Short(length - (|buf| - 4));
        }
        p := FinishPacket(length, 0);
      }
    }

    method ResetSequenceNumber(strict: bool)
      requires Valid()
      modifies this`sequenceNumber
      ensures Valid() && View() == ResetReader(old(View()), strict)
    {
      if strict {
        sequenceNumber := 0;
      }
    }
  }

  lemma PatchedHeader(head: bytes, length: bytes, n: byte, body: bytes)
    requires |length| == 4
    ensures var b0 := head + Zeros(4) + [0] + body;
            var b1 := b0[..|head|] + length + b0[|head| + 4..];
            var b2 := b1[..|head| + 4] + [n] + b1[|head| + 5..];
            b2 == head + (length + [n] + body)
  {
    var b0 := head + Zeros(4) + [0] + body;
    var b1 := b0[..|head|] + length + b0[|head| + 4..];
    assert b1 == head + length + [0] + body;
  }

  lemma PlainIsLong(sealed: bool, payload: bytes, noise: nat -> byte)
    ensures |Plain(sealed, payload, noise)| >= 4
  {
  }

  lemma AssembledPlain(header: bytes, payload: bytes, padding: bytes, sealed: bool, noise: nat -> byte, tag: bytes)
    requires var pad := PaddingFor(sealed, |payload|);
             header == ToBE(1 + |payload| + pad, 4) + [pad % 256] && padding == Padding(pad, noise)
    ensures header + (payload + (padding + tag)) == Plain(sealed, payload, noise) + tag
    ensures header + (payload + padding) == Plain(sealed, payload, noise) + []
  {
    hide PaddingFor, ToBE, Padding;
    FourParts(header, payload, padding, tag);
  }

  lemma FourParts(a: bytes, b: bytes, c: bytes, d: bytes)
    ensures a + (b + (c + d)) == (a + b + c) + d
    ensures a + (b + c) == (a + b + c) + []
  {
  }

  lemma PayloadPlace(before: bytes, header: bytes, payload: bytes, rest: bytes)
    ensures var all := before + (header + (payload + rest));
            var at := |before| + |header|;
            all[..|before|] == before && all[at..at + |payload|] == payload
  {
  }

  class WriteState {
    var buf: bytes
    var written: nat
    var sequenceNumber: nat
    var sealer: GcmState?

    ghost function Repr(): set<object>
      reads this
    {
      {this} + if sealer != null then {sealer, sealer.nonce} else {}
    }

    ghost predicate Valid()
      reads this, Repr()
    {
      written <= |buf| && sequenceNumber < U32 && (sealer != null ==> sealer.Valid())
    }

    ghost function View(): (w: Writer)
      requires Valid()
      reads this, Repr()
      ensures w.Valid()
    {
      Writer(buf, written, sequenceNumber, if sealer != null then Some(sealer.View()) else None)
    }

    constructor ()
      ensures Valid() && View() == Writer([], 0, 0, None) && fresh(Repr())
    {
      buf, written, sequenceNumber, sealer := [], 0, 0, null;
    }

    ghost function TagSpace(): bytes
      reads this
    {
      if sealer != null then Zeros(TAG_LEN) else []
    }

    /** Reserve the header, append payload, padding and room for the tag, then patch the two
        length fields. */
    method Assemble(payload: bytes, pad: nat, noise: nat -> byte)
      requires pad == PaddingFor(sealer != null, |payload|)
      modifies this`buf
      ensures buf == old(buf) + (Plain(sealer != null, payload, noise) + TagSpace())
      ensures var start := |old(buf)|;
              && start + 5 + |payload| <= |buf| && buf[..start] == old(buf)
              && buf[start + 5..start + 5 + |payload|] == payload
    {
      hide Plain, Padding, ToBE;
      var start := |buf|;
      var rest := Padding(pad, noise);
      if sealer != null {
        rest := rest + Zeros(TAG_LEN);
      }
      buf := buf + Zeros(4) + [0] + (payload + rest);
      var length := ToBE(1 + |payload| + pad, 4);
      PatchedHeader(old(buf), length, pad % 256, payload + rest);
      buf := buf[..start] + length + buf[start + 4..];
      buf := buf[..start + 4] + [pad % 256] + buf[start + 5..];
      AssembledPlain(length + [pad % 256], payload, Padding(pad, noise), sealer != null, noise, TagSpace());
      PayloadPlace(old(buf), length + [pad % 256], payload, rest);
    }

    /** Encrypt everything after the length field and fill in the tag. */
    method SealInPlace(a: Aead, start: nat, ghost plain: bytes) returns (r: Result<(), CryptoError>)
      requires Valid() && sealer != null && |plain| >= 4
      requires start <= |buf| && buf == buf[..start] + (plain + Zeros(TAG_LEN))
      modifies this`buf, sealer`counter, sealer.nonce
      ensures Valid()
      ensures match NextNonce(old(sealer.View()))
              case Err(e) => r == Err(e) && buf == old(buf) && sealer.View() == old(sealer.View())
              case Ok((nonce, after)) =>
                && r == Ok(()) && sealer.View() == after
                && var (cipher, tag) := a.seal(sealer.key, nonce, plain[..4], plain[4..]);
                   buf == old(buf)[..start] + (plain[..4] + cipher + tag)
    {
      var nonce := sealer.Next();
      if nonce.Err? {
        return Err(nonce.error);
      }
      var end := |buf| - TAG_LEN;
      assert buf[start..start + 4] == plain[..4] && buf[start + 4..end] == plain[4..];
      var (cipher, tag) := a.seal(sealer.key, nonce.value, buf[start..start + 4], buf[start + 4..end]);
      buf := buf[..start + 4] + cipher + tag;
      assert buf == old(buf)[..start] + (plain[..4] + cipher + tag);
      return Ok(());
    }

    /** Build one packet inside the buffer and seal it there. The payload of a key exchange
        message also enters the exchange hash. */
    method EncodeKx(a: Aead, payload: bytes, random: Random, exchange: HandshakeHash?)
      returns (r: Result<(), ProtoError>)
      requires Valid()
      modifies Repr(), exchange
      ensures sealer == old(sealer) && Valid()
      ensures (r, View()) == Encode(a, old(View()), payload, random)
      ensures exchange != null ==>
                exchange.input == old(exchange.input) + if random.NoRandom? then [] else EncodeString(payload)
    {
      hide Plain;
      var pad := if sealer != null then PaddingLen(5 + |payload| - 4, 16) else PaddingLen(5 + |payload|, 8);
      if random.NoRandom? {
        buf := buf + Zeros(5) + payload + Zeros(pad);
        return Err(Unreachable);
      }
      var start := |buf|;
      Assemble(payload, pad, random.noise);
      HashPayload(start, payload, exchange);
      PlainIsLong(sealer != null, payload, random.noise);
      r := SealPacket(a, start, Plain(sealer != null, payload, random.noise));
    }

    method HashPayload(start: nat, payload: bytes, exchange: HandshakeHash?)
      requires start + 5 + |payload| <= |buf|
      requires buf[start + 5..start + 5 + |payload|] == payload
      modifies exchange
      ensures exchange != null ==> exchange.input == old(exchange.input) + EncodeString(payload)
    {
      if exchange != null {
        exchange.Prefixed(buf[start + 5..start + 5 + |payload|]);
      }
    }

    method SealPacket(a: Aead, start: nat, ghost plain: bytes) returns (r: Result<(), ProtoError>)
      requires Valid() && |plain| >= 4 && start <= |buf| && buf == buf[..start] + (plain + TagSpace())
      modifies Repr()
      ensures sealer == old(sealer) && Valid()
      ensures match Protect(a, old(View()).sealer, plain)
              case Err(e) => r == Err(Crypto(e)) && View() == old(View())
              case Ok((frame, after)) =>
                && r == Ok(())
                && View() == old(View()).(buf := old(buf)[..start] + frame, sealer := after,
                                          sequenceNumber := (old(sequenceNumber) + 1) % U32)
    {
      if sealer == null {
        assert plain + TagSpace() == plain;
      } else {
        var done := SealInPlace(a, start, plain);
        if done.Err? {
          return Err(Crypto(done.error));
        }
      }
      sequenceNumber := (sequenceNumber + 1) % U32;
      return Ok(());
    }

    method Written(n: nat) returns (ok: bool)
      requires Valid() && n <= |View().Buffered()|
      modifies this`buf, this`written
      ensures Valid() && ok == (n > 0)
      ensures View() == if n == 0 then old(View()) else Wrote(old(View()), n)
    {
      if n == 0 {
        return false;
      }
      written := written + n;
      if written == |buf| {
        buf := [];
        written := 0;
      }
      return true;
    }

    method ResetSequenceNumber(strict: bool)
      requires Valid()
      modifies this`sequenceNumber
      ensures Valid()
      ensures View() == old(View()).(sequenceNumber := if strict then 0 else old(sequenceNumber))
    {
      if strict {
        sequenceNumber := 0;
      }
    }
  }

  /** Announce the new keys under the old ones, then install them in both directions. */
  method Apply(a: Aead, opener: GcmState, sealer: GcmState, strict: bool, random: Random,
               write: WriteState, read: ReadState)
    returns (r: Result<(), ProtoError>)
    requires write.Valid() && read.Valid() && opener.Valid() && sealer.Valid()
    requires read !in write.Repr()
    requires write.Repr() !! read.Repr() !! {opener, opener.nonce} !! {sealer, sealer.nonce}
    modifies write.Repr(), read
    ensures write.Valid() && read.Valid()
    ensures write.sealer == (if r.Ok? then sealer else old(write.sealer))
    ensures read.opener == (if r.Ok? then opener else old(read.opener))
    ensures r == Encode(a, old(write.View()), [NEWKEYS], random).0
    ensures var w := Encode(a, old(write.View()), [NEWKEYS], random).1;
            write.View() == if r.Ok? then SwitchWriter(w, old(sealer.View()), strict) else w
    ensures read.View() == if r.Ok? then SwitchReader(old(read.View()), old(opener.View()), strict)
                           else old(read.View())
  {
    r := write.EncodeKx(a, [NEWKEYS], random, null);
    if r.Err? {
      return;
    }
    write.ResetSequenceNumber(strict);
    write.sealer := sealer;
    read.ResetSequenceNumber(strict);
    read.opener := opener;
  }
}
