/** A connection up to the login: the first key exchange, the switch to its keys, and
    authentication, all on one reader, one writer and one stream. */
module Logins {
  import opened Bytes
  import opened Named
  import opened Gcm
  import opened Crypto
  import opened Transport
  import opened Delivery
  import opened TwoParty
  import opened Connections
  import opened KeyExchange
  import opened KeyExchangeRuns
  import opened Authentication
  import opened Nonces
  import opened Receipts
  import Mpint
  import Negotiation

  /** How far a connection has come: what is left of the stream, and what was done to the writer and
      the reader on the way. */
  datatype Track = Track(conn: Conn, socket: seq<bytes>, ops: seq<Op>, takes: seq<ReadOp>)

  /** The track is a run of the reader, in which every packet under a key is opened, and of the writer. */
  ghost predicate Traced(a: Aead, c: Conn, t: Track)
    requires c.Valid()
  {
    && t.conn.Valid() && RunReader(a, c.read, t.takes) == t.conn.read && AllOpened(a, c.read, t.takes)
    && exists wire :: Writes(a, c.write, t.ops, wire, t.conn.write)
  }

  function Joined(t: Track, u: Track): Track {
    u.(ops := t.ops + u.ops, takes := t.takes + u.takes)
  }

  lemma TracedThen(a: Aead, c: Conn, t: Track, u: Track)
    requires c.Valid() && Traced(a, c, t) && Traced(a, t.conn, u)
    ensures Traced(a, c, Joined(t, u))
  {
    hide Writes, RunReader, AllOpened;
    var x :| Writes(a, c.write, t.ops, x, t.conn.write);
    var y :| Writes(a, t.conn.write, u.ops, y, u.conn.write);
    WritesThen(a, c.write, t.ops, x, t.conn.write, u.ops, y, u.conn.write);
    RunReaderAppend(a, c.read, t.takes, u.takes);
    OpenedThen(a, c.read, t.takes, u.takes);
  }

  /** A turn of a loop: a packet is received, what is said to it is flushed. */
  lemma TurnTraced(a: Aead, c: Conn, socket: seq<bytes>, ops: seq<Op>, w: Writer, taken: seq<nat>)
    requires c.Valid() && w.Valid() && Writes(a, c.write, ops, [], w) && Receive(a, c.read, socket).0.Got?
    ensures var (_, read, rest) := Receive(a, c.read, socket);
            && Traced(a, c, Track(Conn(read, w), rest, ops, [Receives(socket)]))
            && (FlushAll(w, taken).Some? ==>
                  Traced(a, c, Track(Conn(read, FlushAll(w, taken).value.1), rest, ops + FlushOps(w, taken),
                                     [Receives(socket)])))
  {
    hide Writes, Receive, FlushAll, FlushOps, AllOpened, Taken;
    var (_, read, rest) := Receive(a, c.read, socket);
    OpenedOne(a, c.read, socket);
    assert [Receives(socket)][1..] == [];
    assert RunReader(a, read, []) == read;
    if FlushAll(w, taken).Some? {
      FlushWrites(a, w, taken);
      var (wire, after) := FlushAll(w, taken).value;
      WritesThen(a, c.write, ops, [], w, FlushOps(w, taken), wire, after);
    }
  }

  // What the steps keep

  /** The installed keys are those of `keys`, advanced by their counters. */
  predicate Keyed(keys: KeySourceSet, c: Conn) {
    Opens(keys.clientToServer, c.read) && Seals(keys.serverToClient, c.write)
  }

  predicate Seals(source: KeySource, w: Writer) {
    w.Valid() && w.sealer.Some? && Tracks(source, w.sealer.value)
  }

  /** Nothing is left in the buffer, not even what was written out. */
  predicate Clear(w: Writer) {
    w.buf == [] && w.written == 0
  }

  lemma EncodeKeeps(a: Aead, source: KeySource, w: Writer, payload: bytes, random: Random)
    requires Seals(source, w)
    ensures Seals(source, Encode(a, w, payload, random).1)
  {
    hide Padding, Zeros;
    NextNonceTracks(source, w.sealer.value);
  }

  lemma {:induction false} WriterStaysKeyed(a: Aead, source: KeySource, w: Writer, ops: seq<Op>, wire: bytes,
                                            after: Writer)
    requires Seals(source, w) && NoSwitch(ops) && Writes(a, w, ops, wire, after)
    ensures Seals(source, after)
    decreases |ops|
  {
    hide Encode, Tracks;
    if ops != [] {
      match ops[0]
      case Send(payload, noise) =>
        EncodeKeeps(a, source, w, payload, Random(noise));
        WriterStaysKeyed(a, source, Encode(a, w, payload, Random(noise)).1, ops[1..], wire, after);
      case Flush(n) =>
        var rest := RunWriter(a, Wrote(w, n), ops[1..]).value.0;
        WriterStaysKeyed(a, source, Wrote(w, n), ops[1..], rest, after);
    }
  }

  predicate NoInstalls(takes: seq<ReadOp>) {
    forall i :: 0 <= i < |takes| ==> !takes[i].Installs?
  }

  lemma {:induction false} ReaderStaysKeyed(a: Aead, source: KeySource, r: Reader, takes: seq<ReadOp>)
    requires Opens(source, r) && NoInstalls(takes)
    ensures Opens(source, RunReader(a, r, takes))
    decreases |takes|
  {
    hide Receive, Tracks, ReceiveCalls;
    if takes != [] {
      match takes[0]
      case Receives(pieces) =>
        ReceiveDraws(a, source, r, pieces);
        ReaderStaysKeyed(a, source, Receive(a, r, pieces).1, takes[1..]);
      case Buffers(piece) => ReaderStaysKeyed(a, source, Feed(Compact(r), piece), takes[1..]);
    }
  }

  /** No keys are changed on the way. */
  predicate Steady(t: Track) {
    NoSwitch(t.ops) && NoInstalls(t.takes)
  }

  lemma SteadyThen(t: Track, u: Track)
    requires Steady(t) && Steady(u)
    ensures Steady(Joined(t, u))
  {
  }

  lemma SteadyStaysKeyed(a: Aead, keys: KeySourceSet, c: Conn, t: Track)
    requires Keyed(keys, c) && Traced(a, c, t) && Steady(t)
    ensures Keyed(keys, t.conn)
  {
    hide Writes, Tracks, RunReader, NoSwitch, NoInstalls, AllOpened;
    var wire :| Writes(a, c.write, t.ops, wire, t.conn.write);
    WriterStaysKeyed(a, keys.serverToClient, c.write, t.ops, wire, t.conn.write);
    ReaderStaysKeyed(a, keys.clientToServer, c.read, t.takes);
  }

  // The first exchange

  datatype KxTurn = KxTurn(entropy: Entropy, taken: seq<nat>)

  /** What a successful step of the first exchange does to the writer. */
  function InitialOps(p: Provider, st: Initial, packet: Packet, e: Entropy): seq<Op> {
    if e.random.NoRandom? then [] else
    match st
    case AwaitKexInit(hostKeys, _, exchange) =>
      (match Start(p, packet, exchange, Algorithms(hostKeys), true, e.cookie)
       case Ok(s) => [Send(s.local, e.random.noise)]
       case Err(_) => [])
    case AwaitEcdhInit(kx, hostKeys, _) =>
      (match (DecodeEcdhInit(packet), FindHostKey(hostKeys, kx.negotiated.hostKey))
       case (Ok(value), Ok(key)) =>
         (match Reply(p, kx, value, None, key, e.ephemeral)
          case Ok(r) => [Send(r.reply, e.random.noise)]
          case Err(_) => [])
       case _ => [])
    case _ => []
  }

  /** The first exchange writes exactly its KEXINIT and its reply. */
  lemma InitialStepWrites(p: Provider, st: Initial, packet: Packet, e: Entropy, w: Writer)
    requires w.Valid() && HandleInitial(p, st, packet, e, w).2.Ok?
    ensures Writes(p.aead, w, InitialOps(p, st, packet, e), [], HandleInitial(p, st, packet, e, w).1)
  {
    hide Encode, Start, Reply, DecodeEcdhInit, FinishStep, Writes, FindHostKey, Algorithms;
    match st
    case AwaitKexInit(hostKeys, _, exchange) =>
      WritesOne(p.aead, w, Start(p, packet, exchange, Algorithms(hostKeys), true, e.cookie).value.local, e.random);
    case AwaitEcdhInit(kx, hostKeys, _) =>
      var key := FindHostKey(hostKeys, kx.negotiated.hostKey).value;
      WritesOne(p.aead, w, Reply(p, kx, DecodeEcdhInit(packet).value, None, key, e.ephemeral).value.reply, e.random);
    case _ => WritesNothing(p.aead, w);
  }

  /** After a turn of the exchange: the machine, the keys if it has finished, the connection, and the
      step as the machine saw it. */
  datatype Exchanging = Exchanging(state: Initial, result: Option<Established>, track: Track, input: Input)

  /** Receive a packet and handle it; unless that finishes the exchange, flush what it says. */
  function ExchangeTurn(p: Provider, st: Initial, c: Conn, socket: seq<bytes>, turn: KxTurn): (r: Option<Exchanging>)
    requires c.Valid()
    ensures r.Some? ==> r.value.track.conn.Valid()
  {
    var (got, read, rest) := Receive(p.aead, c.read, socket);
    if !got.Got? then None else
    var (next, w, result) := HandleInitial(p, st, got.packet, turn.entropy, c.write);
    var input := Input(got.packet, turn.entropy, c.write);
    var ops := InitialOps(p, st, got.packet, turn.entropy);
    match result
    case Err(_) => None
    case Ok(Some(e)) => Some(Exchanging(next, Some(e), Track(Conn(read, w), rest, ops, [Receives(socket)]), input))
    case Ok(None) =>
      match FlushAll(w, turn.taken)
      case None => None
      case Some((_, after)) =>
        Some(Exchanging(next, None,
                        Track(Conn(read, after), rest, ops + FlushOps(w, turn.taken), [Receives(socket)]), input))
  }

  datatype Exchanged = Exchanged(result: Established, track: Track, inputs: seq<Input>)

  /** `None` unless the turns end with keys. */
  function ExchangeLoop(p: Provider, st: Initial, c: Conn, socket: seq<bytes>, turns: seq<KxTurn>)
    : (r: Option<Exchanged>)
    requires c.Valid()
    ensures r.Some? ==> r.value.track.conn.Valid()
    decreases |turns|
  {
    if turns == [] then None else
    match ExchangeTurn(p, st, c, socket, turns[0])
    case None => None
    case Some(x) =>
      if x.result.Some? then Some(Exchanged(x.result.value, x.track, [x.input])) else
      match ExchangeLoop(p, x.state, x.track.conn, x.track.socket, turns[1..])
      case None => None
      case Some(y) => Some(Exchanged(y.result, Joined(x.track, y.track), [x.input] + y.inputs))
  }

  lemma ExchangeTurnTraced(p: Provider, st: Initial, c: Conn, socket: seq<bytes>, turn: KxTurn)
    requires c.Valid() && ExchangeTurn(p, st, c, socket, turn).Some?
    ensures var x := ExchangeTurn(p, st, c, socket, turn).value;
            && Traced(p.aead, c, x.track) && Steady(x.track)
            && HandleInitial(p, st, x.input.packet, x.input.entropy, x.input.writer).2 == Ok(x.result)
            && HandleInitial(p, st, x.input.packet, x.input.entropy, x.input.writer).0 == x.state
  {
    hide Receive, HandleInitial, FlushAll, FlushOps, InitialOps, Traced, Writes;
    var got := Receive(p.aead, c.read, socket).0;
    var w := HandleInitial(p, st, got.packet, turn.entropy, c.write).1;
    InitialStepWrites(p, st, got.packet, turn.entropy, c.write);
    TurnTraced(p.aead, c, socket, InitialOps(p, st, got.packet, turn.entropy), w, turn.taken);
    InitialOpsSend(p, st, got.packet, turn.entropy);
    if FlushAll(w, turn.taken).Some? {
      FlushWrites(p.aead, w, turn.taken);
    }
  }

  lemma InitialOpsSend(p: Provider, st: Initial, packet: Packet, e: Entropy)
    ensures NoSwitch(InitialOps(p, st, packet, e))
  {
    hide Start, Reply, DecodeEcdhInit, FindHostKey, Algorithms;
  }

  /** The loop is a run of the exchange machine on the packets received, whose last call gives the
      keys, and a run of the reader and the writer that changes none. */
  lemma {:induction false} ExchangeLoopTraced(p: Provider, st: Initial, c: Conn, socket: seq<bytes>, turns: seq<KxTurn>)
    requires c.Valid() && ExchangeLoop(p, st, c, socket, turns).Some?
    ensures var y := ExchangeLoop(p, st, c, socket, turns).value;
            && Traced(p.aead, c, y.track) && Steady(y.track) && y.inputs != []
            && RunInitial(p, st, y.inputs).0[|y.inputs| - 1] == Ok(Some(y.result))
    decreases |turns|
  {
    hide ExchangeTurn, HandleInitial, Traced, RunInitial, Steady;
    ExchangeTurnTraced(p, st, c, socket, turns[0]);
    var x := ExchangeTurn(p, st, c, socket, turns[0]).value;
    if x.result.Some? {
      Unrolled(p, st, [x.input]);
    } else {
      ExchangeLoopTraced(p, x.state, x.track.conn, x.track.socket, turns[1..]);
      var y := ExchangeLoop(p, x.state, x.track.conn, x.track.socket, turns[1..]).value;
      TracedThen(p.aead, c, x.track, y.track);
      SteadyThen(x.track, y.track);
      Unrolled(p, st, [x.input] + y.inputs);
      assert ([x.input] + y.inputs)[1..] == y.inputs;
    }
  }

  // What the first exchange says

  function InitialSays(p: Provider, st: Initial, inputs: seq<Input>): seq<bytes>
    decreases |inputs|
  {
    if inputs == [] then [] else
    var i := inputs[0];
    Sends(InitialOps(p, st, i.packet, i.entropy))
    + InitialSays(p, HandleInitial(p, st, i.packet, i.entropy, i.writer).0, inputs[1..])
  }

  lemma ExchangeTurnSays(p: Provider, st: Initial, c: Conn, socket: seq<bytes>, turn: KxTurn)
    requires c.Valid() && ExchangeTurn(p, st, c, socket, turn).Some?
    ensures var x := ExchangeTurn(p, st, c, socket, turn).value;
            Sends(x.track.ops) == Sends(InitialOps(p, st, x.input.packet, x.input.entropy))
  {
    hide Receive, HandleInitial, FlushAll, FlushOps, InitialOps, Writes, Sends;
    var got := Receive(p.aead, c.read, socket).0;
    var ops := InitialOps(p, st, got.packet, turn.entropy);
    var w := HandleInitial(p, st, got.packet, turn.entropy, c.write).1;
    if FlushAll(w, turn.taken).Some? {
      FlushWrites(p.aead, w, turn.taken);
      FlushesSendNothing(FlushOps(w, turn.taken));
      SendsThen(ops, FlushOps(w, turn.taken));
      assert Sends(ops) + [] == Sends(ops);
    }
  }

  lemma {:induction false} ExchangeLoopSays(p: Provider, st: Initial, c: Conn, socket: seq<bytes>, turns: seq<KxTurn>)
    requires c.Valid() && ExchangeLoop(p, st, c, socket, turns).Some?
    ensures var y := ExchangeLoop(p, st, c, socket, turns).value;
            Sends(y.track.ops) == InitialSays(p, st, y.inputs)
    decreases |turns|
  {
    hide ExchangeTurn, HandleInitial, InitialOps, Sends, Traced, Steady;
    ExchangeTurnSays(p, st, c, socket, turns[0]);
    ExchangeTurnTraced(p, st, c, socket, turns[0]);
    var x := ExchangeTurn(p, st, c, socket, turns[0]).value;
    if x.result.Some? {
      assert [x.input][1..] == [];
    } else {
      ExchangeLoopSays(p, x.state, x.track.conn, x.track.socket, turns[1..]);
      var y := ExchangeLoop(p, x.state, x.track.conn, x.track.socket, turns[1..]).value;
      SendsThen(x.track.ops, y.track.ops);
      assert ([x.input] + y.inputs)[1..] == y.inputs;
    }
  }

  /** Our KEXINIT, and a reply that carries the host key and public value of the transcript and signs its
      hash. */
  ghost predicate Says(p: Provider, keys: seq<HostKey>, ids: Identities, inputs: seq<Input>, key: HostKey,
                       payloads: seq<bytes>)
    requires |inputs| == 3 && Establishing(p, keys, inputs[0], inputs[1], inputs[2])
  {
    && |payloads| == 2 && payloads[0] == OurInit(p, Algorithms(keys), true, inputs[0])
    && Answers(p, Chosen(p, Algorithms(keys), true, inputs[0]).kex,
               InitialFields(p, keys, ids, key, inputs[0], inputs[1]), key, payloads[1])
  }

  lemma OfferSays(p: Provider, keys: seq<HostKey>, ids: Identities, i: Input)
    requires Offers(p, Algorithms(keys), true, i)
    ensures Sends(InitialOps(p, AwaitKexInit(keys, ids, Greeting(ids)), i.packet, i.entropy))
            == [OurInit(p, Algorithms(keys), true, i)]
  {
    hide Start, OurInit, Greeting, Algorithms, Supported, Chosen, ToBE, Negotiation.DecodeKexInit, Negotiation.Choose,
         Negotiation.LocalKexInit;
    StartSucceedsIff(p, Greeting(ids), Algorithms(keys), true, i);
    var op := Send(OurInit(p, Algorithms(keys), true, i), i.entropy.random.noise);
    assert [op][1..] == [];
  }

  lemma ReplySays(p: Provider, kx: Kx, keys: seq<HostKey>, ids: Identities, i: Input, key: HostKey, reply: bytes)
    requires CanWrite(i) && FindHostKey(keys, kx.negotiated.hostKey) == Ok(key) && DecodeEcdhInit(i.packet).Ok?
    requires Ok(reply) == ReplyTo(p, kx, i, None, key)
    ensures Sends(InitialOps(p, AwaitEcdhInit(kx, keys, ids), i.packet, i.entropy)) == [reply]
  {
    hide Reply, FindHostKey, DecodeEcdhInit;
    assert [Send(reply, i.entropy.random.noise)][1..] == [];
  }

  lemma ThreeSay(p: Provider, keys: seq<HostKey>, ids: Identities, inputs: seq<Input>)
    requires |inputs| == 3 && Establishing(p, keys, inputs[0], inputs[1], inputs[2])
    ensures var st := AwaitKexInit(keys, ids, Greeting(ids));
            var key := FindHostKey(keys, Chosen(p, Algorithms(keys), true, inputs[0]).hostKey);
            key.Ok? && Says(p, keys, ids, inputs, key.value, InitialSays(p, st, inputs))
  {
    hide HandleInitial, InitialOps, Offers, Answerable, Chosen, OurInit, Answers, Greeting, Algorithms, Encode, ReplyTo,
         InitialFields, Sends, FindHostKey;
    var st := AwaitKexInit(keys, ids, Greeting(ids));
    InitialOffer(p, keys, ids, inputs[0]);
    OfferSays(p, keys, ids, inputs[0]);
    FindHostKeySucceeds(keys, Chosen(p, Algorithms(keys), true, inputs[0]).hostKey);
    var reply := InitialReply(p, keys, ids, inputs[0], inputs[1]);
    var second := InitiallyOffered(p, keys, ids, inputs[0]);
    var third := HandleInitial(p, second, inputs[1].packet, inputs[1].entropy, inputs[1].writer).0;
    AnswerableWrites(p, second.kx.negotiated.kex, inputs[1]);
    ReplySays(p, second.kx, keys, ids, inputs[1], third.output.hostKey, reply);
    LastSays(p, third, inputs[2]);
    assert inputs[1..][0] == inputs[1] && inputs[1..][1..] == [inputs[2]] && [inputs[2]][1..] == [];
    assert InitialSays(p, third, [inputs[2]]) == [];
    assert InitialSays(p, second, inputs[1..]) == [reply];
    assert InitialSays(p, st, inputs) == [OurInit(p, Algorithms(keys), true, inputs[0]), reply];
  }

  lemma AnswerableWrites(p: Provider, kex: KexAlgorithm, i: Input)
    requires Answerable(p, kex, i)
    ensures CanWrite(i) && DecodeEcdhInit(i.packet).Ok?
  {
  }

  lemma LastSays(p: Provider, st: Initial, i: Input)
    requires st.AwaitNewKeys?
    ensures Sends(InitialOps(p, st, i.packet, i.entropy)) == []
  {
  }

  lemma DigestFits(p: Provider, kx: Kx, value: bytes, id: Option<bytes>, key: HostKey, ephemeral: nat)
    requires Reply(p, kx, value, id, key, ephemeral).Ok?
    ensures |Reply(p, kx, value, id, key, ephemeral).value.exchangeHash| <= DIGEST_MAX
  {
    hide DeriveSet, EncodedSecret, TaggedPublicKey, Agree, EncodeString, Mpint.TaggedSignature;
  }

  /** The session id kept while the exchange is under way is a digest. */
  predicate DigestKept(st: Initial) {
    st.AwaitNewKeys? ==> |st.output.sessionId| <= DIGEST_MAX
  }

  /** The update installs fresh keys from the sources in the output. */
  predicate FromOutput(e: Established) {
    BuildUpdate(e.output.keys, e.output.strict) == Ok(e.update) && |e.output.sessionId| <= DIGEST_MAX
  }

  lemma StepFromOutput(p: Provider, st: Initial, packet: Packet, e: Entropy, w: Writer)
    requires w.Valid() && DigestKept(st)
    ensures var (next, _, r) := HandleInitial(p, st, packet, e, w);
            DigestKept(next) && (r.Ok? && r.value.Some? ==> FromOutput(r.value.value))
  {
    hide Start, Reply, DecodeEcdhInit, Encode, New, FindHostKey;
    if st.AwaitEcdhInit? {
      var value, key := DecodeEcdhInit(packet), FindHostKey(st.hostKeys, st.kx.negotiated.hostKey);
      if value.Ok? && key.Ok? && Reply(p, st.kx, value.value, None, key.value, e.ephemeral).Ok? {
        DigestFits(p, st.kx, value.value, None, key.value, e.ephemeral);
      }
    }
  }

  lemma {:induction false} EstablishedFromOutput(p: Provider, st: Initial, inputs: seq<Input>, j: nat, e: Established)
    requires DigestKept(st) && j < |inputs| && RunInitial(p, st, inputs).0[j] == Ok(Some(e))
    ensures FromOutput(e)
    decreases |inputs|
  {
    hide HandleInitial, FromOutput, DigestKept;
    var i := inputs[0];
    StepFromOutput(p, st, i.packet, i.entropy, i.writer);
    var (next, _, r) := HandleInitial(p, st, i.packet, i.entropy, i.writer);
    if j > 0 {
      EstablishedFromOutput(p, next, inputs[1..], j - 1, e);
    }
  }

  /** Three packets established `e`: an acceptable KEXINIT, ECDH_INIT and NEWKEYS, and its keys and
      session id are those derived from their transcript. */
  ghost predicate EstablishedBy(p: Provider, keys: seq<HostKey>, ids: Identities, inputs: seq<Input>, e: Established) {
    && |inputs| == 3 && Establishing(p, keys, inputs[0], inputs[1], inputs[2])
    && AsExpected(p, keys, ids, inputs[0], inputs[1], Ok(Some(e))) && FromOutput(e)
  }

  lemma HostKeyFound(p: Provider, keys: seq<HostKey>, ids: Identities, first: Input, second: Input, e: Established)
    requires Offers(p, Algorithms(keys), true, first)
    requires Answerable(p, Chosen(p, Algorithms(keys), true, first).kex, second)
    requires AsExpected(p, keys, ids, first, second, Ok(Some(e)))
    ensures FindHostKey(keys, Chosen(p, Algorithms(keys), true, first).hostKey) == Ok(e.output.hostKey)
  {
    hide Offers, Answerable, Derives, FindHostKey;
  }

  /** Whatever comes in over the stream, keys are only ever established by these three packets. */
  lemma ExchangeEstablishes(p: Provider, keys: seq<HostKey>, ids: Identities, c: Conn, socket: seq<bytes>,
                            turns: seq<KxTurn>)
    requires c.Valid() && ExchangeLoop(p, AwaitKexInit(keys, ids, Greeting(ids)), c, socket, turns).Some?
    ensures var y := ExchangeLoop(p, AwaitKexInit(keys, ids, Greeting(ids)), c, socket, turns).value;
            && Traced(p.aead, c, y.track) && Steady(y.track) && EstablishedBy(p, keys, ids, y.inputs, y.result)
            && Says(p, keys, ids, y.inputs, y.result.output.hostKey, Sends(y.track.ops))
  {
    hide ExchangeLoop, Traced, Steady, RunInitial, FromOutput, AsExpected, Greeting, Says, InitialSays, Sends, Offers,
         Answerable, Chosen, FindHostKey;
    var st := AwaitKexInit(keys, ids, Greeting(ids));
    ExchangeLoopTraced(p, st, c, socket, turns);
    var y := ExchangeLoop(p, st, c, socket, turns).value;
    var last := |y.inputs| - 1;
    EstablishedFromOutput(p, st, y.inputs, last, y.result);
    InitialLanguage(p, keys, ids, y.inputs);
    assert last == 2;
    ExchangeLoopSays(p, st, c, socket, turns);
    ThreeSay(p, keys, ids, y.inputs);
    HostKeyFound(p, keys, ids, y.inputs[0], y.inputs[1], y.result);
  }

  // The switch to the new keys

  const EXT_INFO: byte := 7

  /** What is sent right after the new keys. */
  function Closing(e: Established, extInfo: bytes): seq<bytes> {
    (if e.extInfo then [[EXT_INFO] + extInfo] else []) + [[IGNORE] + EncodeString([])]
  }

  /** It is sent under them and flushed. */
  function Enter(a: Aead, c: Conn, payloads: seq<bytes>, random: nat -> Random, taken: seq<nat>): (r: Option<Conn>)
    requires c.Valid()
    ensures r.Some? ==> r.value.Valid()
  {
    match SendAll(a, c.write, payloads, random)
    case None => None
    case Some(w) =>
      match FlushAll(w, taken)
      case None => None
      case Some((_, after)) => Some(c.(write := after))
  }

  function EnterOps(a: Aead, c: Conn, payloads: seq<bytes>, random: nat -> Random, taken: seq<nat>): seq<Op>
    requires c.Valid() && Enter(a, c, payloads, random, taken).Some?
  {
    SendOps(payloads, random) + FlushOps(SendAll(a, c.write, payloads, random).value, taken)
  }

  /** The environment of the switch. */
  datatype SwitchTurn = SwitchTurn(announce: Random, extInfo: bytes, random: nat -> Random, taken: seq<nat>)

  function SwitchTo(a: Aead, c: Conn, socket: seq<bytes>, e: Established, turn: SwitchTurn): (r: Option<Track>)
    requires c.Valid()
    ensures r.Some? ==> r.value.conn.Valid()
  {
    match Installed(a, c, e.update, turn.announce)
    case None => None
    case Some(d) =>
      match Enter(a, d, Closing(e, turn.extInfo), turn.random, turn.taken)
      case None => None
      case Some(after) =>
        InstalledWrites(a, c, e.update, turn.announce);
        Some(Track(after, socket,
                   [Switch(KeySwitch(e.update.sealer, e.update.strict), turn.announce.noise)]
                   + EnterOps(a, d, Closing(e, turn.extInfo), turn.random, turn.taken),
                   [Installs(KeySwitch(e.update.opener, e.update.strict))]))
  }

  lemma FreshUpdate(keys: KeySourceSet, strict: bool)
    requires BuildUpdate(keys, strict).Ok?
    ensures var update := BuildUpdate(keys, strict).value;
            && Tracks(keys.clientToServer, update.opener) && Tracks(keys.serverToClient, update.sealer)
            && FreshKey(update.opener) && FreshKey(update.sealer)
  {
    hide New, Tracks;
    NewSucceedsIff(0, keys.clientToServer);
    NewSucceedsIff(0, keys.serverToClient);
  }

  lemma EnterWrites(a: Aead, c: Conn, payloads: seq<bytes>, random: nat -> Random, taken: seq<nat>)
    returns (wire: bytes)
    requires c.Valid() && payloads != [] && Enter(a, c, payloads, random, taken).Some?
    ensures var ops := EnterOps(a, c, payloads, random, taken);
            var d := Enter(a, c, payloads, random, taken).value;
            NoSwitch(ops) && d.read == c.read && Clear(d.write) && Writes(a, c.write, ops, wire, d.write)
  {
    hide Writes, SendAll, FlushAll;
    SendWrites(a, c.write, payloads, random);
    var w := SendAll(a, c.write, payloads, random).value;
    FlushWrites(a, w, taken);
    wire := FlushAll(w, taken).value.0;
    WritesThen(a, c.write, SendOps(payloads, random), [], w, FlushOps(w, taken), wire, FlushAll(w, taken).value.1);
    assert [] + wire == wire;
    SomethingBuffered(a, c.write, payloads, random);
  }

  lemma SomethingBuffered(a: Aead, w: Writer, payloads: seq<bytes>, random: nat -> Random)
    requires w.Valid() && payloads != [] && SendAll(a, w, payloads, random).Some?
    ensures SendAll(a, w, payloads, random).value.Buffered() != []
  {
    var n := |payloads| - 1;
    var mid := SendAll(a, w, payloads[..n], random).value;
    EncodeBuffers(a, mid, payloads[n], random(n));
  }

  lemma EncodeBuffers(a: Aead, w: Writer, payload: bytes, random: Random)
    requires w.Valid() && Encode(a, w, payload, random).0.Ok?
    ensures Encode(a, w, payload, random).1.Buffered() != []
  {
    PlainIsLong(w.sealer.Some?, payload, random.noise);
  }

  /** The keys change once, to fresh ones, and then are in use on both sides. */
  predicate SwitchesTo(e: Established, t: Track) {
    && t.ops != [] && t.ops[0].Switch? && t.ops[0].change.key == e.update.sealer && NoSwitch(t.ops[1..])
    && |t.takes| == 1 && t.takes[0].Installs? && t.takes[0].change.key == e.update.opener
  }

  /** Extension information goes out if the client can take it, then an IGNORE with no data. */
  lemma SwitchSays(a: Aead, c: Conn, socket: seq<bytes>, e: Established, turn: SwitchTurn)
    requires c.Valid() && SwitchTo(a, c, socket, e, turn).Some?
    ensures Sends(SwitchTo(a, c, socket, e, turn).value.ops)
            == (if e.extInfo then [[7] + turn.extInfo] else []) + [[2, 0, 0, 0, 0]]
  {
    hide Installed, SendAll, FlushAll, FlushOps, Sends, Writes, RunReader;
    var d := Installed(a, c, e.update, turn.announce).value;
    InstalledWrites(a, c, e.update, turn.announce);
    var payloads := Closing(e, turn.extInfo);
    var op := Switch(KeySwitch(e.update.sealer, e.update.strict), turn.announce.noise);
    var w := SendAll(a, d.write, payloads, turn.random).value;
    var sends, flushes := SendOps(payloads, turn.random), FlushOps(w, turn.taken);
    FlushWrites(a, w, turn.taken);
    FlushesSendNothing(flushes);
    SentPayloads(payloads, turn.random);
    SendsThen(sends, flushes);
    SwitchSendsNothing(op);
    SendsThen([op], sends + flushes);
    assert payloads + [] == payloads;
    EmptyIgnore();
  }

  lemma SwitchSendsNothing(op: Op)
    requires op.Switch?
    ensures Sends([op]) == []
  {
    assert [op][1..] == [];
  }

  lemma EmptyIgnore()
    ensures [IGNORE] + EncodeString([]) == [2, 0, 0, 0, 0]
  {
    assert ToBE(0, 4) == [0, 0, 0, 0];
  }

  lemma SwitchTraced(a: Aead, c: Conn, socket: seq<bytes>, e: Established, turn: SwitchTurn)
    requires c.Valid() && FromOutput(e) && SwitchTo(a, c, socket, e, turn).Some?
    ensures var t := SwitchTo(a, c, socket, e, turn).value;
            Traced(a, c, t) && SwitchesTo(e, t) && Keyed(e.output.keys, t.conn) && Clear(t.conn.write)
  {
    hide Installed, Enter, EnterOps, Writes, RunReader, Tracks, Clear, FreshKey, AllOpened, Taken;
    var d := Installed(a, c, e.update, turn.announce).value;
    InstalledWrites(a, c, e.update, turn.announce);
    FreshUpdate(e.output.keys, e.output.strict);
    InstalledKeys(a, c, e.update, turn.announce);
    var payloads := Closing(e, turn.extInfo);
    var wire := EnterWrites(a, d, payloads, turn.random, turn.taken);
    var ops := EnterOps(a, d, payloads, turn.random, turn.taken);
    var after := Enter(a, d, payloads, turn.random, turn.taken).value;
    var op := Switch(KeySwitch(e.update.sealer, e.update.strict), turn.announce.noise);
    OpenedNone(a, c.read, Installs(KeySwitch(e.update.opener, e.update.strict)));
    WritesThen(a, c.write, [op], [], d.write, ops, wire, after.write);
    assert ([op] + ops)[1..] == ops;
    WriterStaysKeyed(a, e.output.keys.serverToClient, d.write, ops, wire, after.write);
  }

  lemma InstalledKeys(a: Aead, c: Conn, update: KeyUpdate, random: Random)
    requires c.Valid() && Installed(a, c, update, random).Some?
    ensures var d := Installed(a, c, update, random).value;
            d.read.opener == Some(update.opener) && d.write.sealer == Some(update.sealer)
  {
    hide Encode;
  }

  // Authentication

  datatype AuthTurn = AuthTurn(random: Random, taken: seq<nat>)

  function ReplyOps(env: Env, sessionId: bytes, st: AuthState, packet: Packet, random: Random): seq<Op> {
    match Handle(env, sessionId, st, packet)
    case Ok((_, Some(reply))) => [Send(ReplyPayload(reply), if random.Random? then random.noise else Silence)]
    case _ => []
  }

  /** Receive a packet, handle it, flush the reply. */
  function AuthStep(env: Env, a: Aead, sessionId: bytes, st: AuthState, c: Conn, socket: seq<bytes>, turn: AuthTurn)
    : (r: Option<(AuthState, Track)>)
    requires c.Valid()
    ensures r.Some? ==> r.value.1.conn.Valid()
  {
    var (got, read, rest) := Receive(a, c.read, socket);
    if !got.Got? then None else
    var (next, w) := HandleAndWrite(env, a, sessionId, st, got.packet, c.write, turn.random);
    var flushed := FlushAll(w, turn.taken);
    if next.Err? || flushed.None? then None else
    Some((next.value, Track(Conn(read, flushed.value.1), rest,
                            ReplyOps(env, sessionId, st, got.packet, turn.random) + FlushOps(w, turn.taken),
                            [Receives(socket)])))
  }

  /** `None` unless the turns end with a logged-in user. */
  function AuthLoop(env: Env, a: Aead, sessionId: bytes, st: AuthState, c: Conn, socket: seq<bytes>,
                    turns: seq<AuthTurn>): (r: Option<(AuthState, Track)>)
    requires c.Valid()
    ensures r.Some? ==> r.value.0.Authenticated? && r.value.1.conn.Valid()
    decreases |turns|
  {
    if turns == [] then None else
    match AuthStep(env, a, sessionId, st, c, socket, turns[0])
    case None => None
    case Some((next, track)) =>
      if next.Authenticated? then Some((next, track)) else
      match AuthLoop(env, a, sessionId, next, track.conn, track.socket, turns[1..])
      case None => None
      case Some((last, more)) => Some((last, Joined(track, more)))
  }

  lemma HandleWrites(env: Env, a: Aead, sessionId: bytes, st: AuthState, packet: Packet, w: Writer, random: Random)
    requires w.Valid() && HandleAndWrite(env, a, sessionId, st, packet, w, random).0.Ok?
    ensures Writes(a, w, ReplyOps(env, sessionId, st, packet, random), [],
                   HandleAndWrite(env, a, sessionId, st, packet, w, random).1)
    ensures NoSwitch(ReplyOps(env, sessionId, st, packet, random))
    ensures Clear(w) ==>
              var after := HandleAndWrite(env, a, sessionId, st, packet, w, random).1;
              after.Buffered() == [] ==> Clear(after)
  {
    hide Encode, Handle, Writes, ReplyPayload;
    var r := Handle(env, sessionId, st, packet).value;
    if r.1.Some? {
      WritesOne(a, w, ReplyPayload(r.1.value), random);
      EncodeBuffers(a, w, ReplyPayload(r.1.value), random);
    } else {
      WritesNothing(a, w);
    }
  }

  lemma KexInitFails(env: Env, a: Aead, sessionId: bytes, st: AuthState, packet: Packet, w: Writer, random: Random)
    requires w.Valid()
    ensures packet.kind == KEXINIT ==> HandleAndWrite(env, a, sessionId, st, packet, w, random).0.Err?
  {
    hide Handle;
    if packet.kind == KEXINIT {
      KexInitRejected(env, sessionId, st, packet);
    }
  }

  /** A turn changes no keys, whatever was received; a KEXINIT ends the loop. */
  lemma AuthStepTraced(env: Env, a: Aead, sessionId: bytes, st: AuthState, c: Conn, socket: seq<bytes>, turn: AuthTurn)
    requires c.Valid() && Clear(c.write) && AuthStep(env, a, sessionId, st, c, socket, turn).Some?
    ensures var (_, t) := AuthStep(env, a, sessionId, st, c, socket, turn).value;
            && Traced(a, c, t) && Steady(t) && Clear(t.conn.write)
            && Receive(a, c.read, socket).0.Got? && Receive(a, c.read, socket).0.packet.kind != KEXINIT
  {
    hide Receive, HandleAndWrite, FlushAll, FlushOps, ReplyOps, Writes, Traced;
    var got := Receive(a, c.read, socket).0;
    KexInitFails(env, a, sessionId, st, got.packet, c.write, turn.random);
    HandleWrites(env, a, sessionId, st, got.packet, c.write, turn.random);
    var w := HandleAndWrite(env, a, sessionId, st, got.packet, c.write, turn.random).1;
    TurnTraced(a, c, socket, ReplyOps(env, sessionId, st, got.packet, turn.random), w, turn.taken);
    FlushWrites(a, w, turn.taken);
  }

  /** No rekey happens during authentication: whatever is received, the keys installed at the start
      are still the ones in use. */
  lemma {:induction false} AuthLoopTraced(env: Env, a: Aead, sessionId: bytes, st: AuthState, c: Conn,
                                          socket: seq<bytes>, turns: seq<AuthTurn>)
    requires c.Valid() && Clear(c.write) && AuthLoop(env, a, sessionId, st, c, socket, turns).Some?
    ensures var (_, t) := AuthLoop(env, a, sessionId, st, c, socket, turns).value;
            Traced(a, c, t) && Steady(t) && Clear(t.conn.write)
    decreases |turns|
  {
    hide AuthStep, Traced, Clear, Receive, Steady;
    AuthStepTraced(env, a, sessionId, st, c, socket, turns[0]);
    var (next, t) := AuthStep(env, a, sessionId, st, c, socket, turns[0]).value;
    if !next.Authenticated? {
      AuthLoopTraced(env, a, sessionId, next, t.conn, t.socket, turns[1..]);
      var u := AuthLoop(env, a, sessionId, next, t.conn, t.socket, turns[1..]).value.1;
      TracedThen(a, c, t, u);
      SteadyThen(t, u);
    }
  }

  // All of it

  /** Everything the environment contributes up to the login. */
  datatype World = World(exchange: seq<KxTurn>, switch: SwitchTurn, auth: seq<AuthTurn>)

  /** A logged-in user on a connection. */
  datatype Login = Login(established: Established, inputs: seq<Input>, state: AuthState, track: Track)

  function Connect(env: Env, p: Provider, keys: seq<HostKey>, ids: Identities, c: Conn, socket: seq<bytes>,
                   world: World)
    : (r: Option<Login>)
    requires c.Valid()
    ensures r.Some? ==> r.value.state.Authenticated? && r.value.track.conn.Valid()
  {
    match ExchangeLoop(p, AwaitKexInit(keys, ids, Greeting(ids)), c, socket, world.exchange)
    case None => None
    case Some(x) =>
      match SwitchTo(p.aead, x.track.conn, x.track.socket, x.result, world.switch)
      case None => None
      case Some(t) =>
        match AuthLoop(env, p.aead, x.result.output.sessionId, AwaitService, t.conn, t.socket, world.auth)
        case None => None
        case Some((st, u)) => Some(Login(x.result, x.inputs, st, Joined(x.track, Joined(t, u))))
  }

  /** Both directions change keys exactly once, to the fresh keys of the exchange. */
  predicate SwitchesOnce(e: Established, t: Track) {
    && (exists i :: 0 <= i < |t.ops| && t.ops[i].Switch? && t.ops[i].change.key == e.update.sealer)
    && (exists i :: 0 <= i < |t.takes| && t.takes[i].Installs? && t.takes[i].change.key == e.update.opener)
    && (forall i :: 0 <= i < |t.ops| && t.ops[i].Switch? ==> t.ops[i].change.key == e.update.sealer)
    && (forall i :: 0 <= i < |t.takes| && t.takes[i].Installs? ==> t.takes[i].change.key == e.update.opener)
    && (forall i, k :: 0 <= i < k < |t.ops| ==> !(t.ops[i].Switch? && t.ops[k].Switch?))
    && (forall i, k :: 0 <= i < k < |t.takes| ==> !(t.takes[i].Installs? && t.takes[k].Installs?))
  }

  lemma OnceInBetween(e: Established, x: Track, t: Track, u: Track)
    requires Steady(x) && SwitchesTo(e, t) && Steady(u)
    ensures SwitchesOnce(e, Joined(x, Joined(t, u)))
  {
    var all := Joined(x, Joined(t, u));
    assert all.ops[|x.ops|] == t.ops[0] && all.takes[|x.takes|] == t.takes[0];
    forall i | 0 <= i < |all.ops| && i != |x.ops| ensures !all.ops[i].Switch? {
      if |x.ops| < i < |x.ops| + |t.ops| {
        assert all.ops[i] == t.ops[1..][i - |x.ops| - 1];
      } else if i > |x.ops| {
        assert all.ops[i] == u.ops[i - |x.ops| - |t.ops|];
      }
    }
    forall i | 0 <= i < |all.takes| && i != |x.takes| ensures !all.takes[i].Installs? {
      if i > |x.takes| {
        assert all.takes[i] == u.takes[i - |x.takes| - 1];
      }
    }
  }

  /** A connection at its login, whatever came in over the stream: the exchange went through its
      three packets, all of it was one run of the reader and one of the writer, the keys in use are
      those of the exchange, and nothing is left to be written. */
  lemma LoginTraced(env: Env, p: Provider, keys: seq<HostKey>, ids: Identities, c: Conn, socket: seq<bytes>,
                    world: World)
    requires c.Valid() && Connect(env, p, keys, ids, c, socket, world).Some?
    ensures var login := Connect(env, p, keys, ids, c, socket, world).value;
            && EstablishedBy(p, keys, ids, login.inputs, login.established)
            && Traced(p.aead, c, login.track) && SwitchesOnce(login.established, login.track)
            && Keyed(login.established.output.keys, login.track.conn) && Clear(login.track.conn.write)
  {
    hide ExchangeLoop, SwitchTo, AuthLoop, Traced, Steady, SwitchesTo, Keyed, Clear, FromOutput, Establishing,
         AsExpected, SwitchesOnce;
    ExchangeEstablishes(p, keys, ids, c, socket, world.exchange);
    var x := ExchangeLoop(p, AwaitKexInit(keys, ids, Greeting(ids)), c, socket, world.exchange).value;
    var e := x.result;
    SwitchTraced(p.aead, x.track.conn, x.track.socket, e, world.switch);
    var t := SwitchTo(p.aead, x.track.conn, x.track.socket, e, world.switch).value;
    AuthLoopTraced(env, p.aead, e.output.sessionId, AwaitService, t.conn, t.socket, world.auth);
    var u := AuthLoop(env, p.aead, e.output.sessionId, AwaitService, t.conn, t.socket, world.auth).value.1;
    SteadyStaysKeyed(p.aead, e.output.keys, t.conn, u);
    TracedThen(p.aead, x.track.conn, t, u);
    TracedThen(p.aead, c, x.track, Joined(t, u));
    OnceInBetween(e, x.track, t, u);
  }

  // The loops, on a connection

  /** Both give keys, the same ones on the same connection, or both give none. */
  predicate SameExchange(x: Option<Exchanged>, y: Option<Exchanged>) {
    && (x.Some? <==> y.Some?)
    && (x.Some? ==> x.value.result == y.value.result && x.value.track.conn == y.value.track.conn
                    && x.value.track.socket == y.value.track.socket)
  }

  method HandleOn(p: Provider, kx: InitialExchange, packet: Packet, e: Entropy, conn: Connections.Connection)
    returns (r: Result<Option<Established>, ProtoError>)
    requires conn.Valid() && kx !in conn.Repr()
    modifies kx, conn.Repr()
    ensures conn.Valid() && conn.Repr() == old(conn.Repr())
    ensures var (st, w, result) := HandleInitial(p, old(kx.state), packet, e, old(conn.View()).write);
            kx.state == st && conn.View() == old(conn.View()).(write := w) && r == result
  {
    hide HandleInitial;
    r := kx.Handle(p, packet, e, conn.write);
  }

  /** One turn; `ok` tells whether to go on. */
  method ExchangeOne(p: Provider, kx: InitialExchange, conn: Connections.Connection, socket: seq<bytes>, turn: KxTurn)
    returns (ok: bool, r: Option<Established>, rest: seq<bytes>)
    requires conn.Valid() && kx !in conn.Repr()
    modifies kx, conn.Repr()
    ensures conn.Valid() && conn.Repr() == old(conn.Repr())
    ensures var x := ExchangeTurn(p, old(kx.state), old(conn.View()), socket, turn);
            && (ok <==> x.Some?) && (!ok ==> r.None?)
            && (ok ==> r == x.value.result && conn.View() == x.value.track.conn && rest == x.value.track.socket
                       && kx.state == x.value.state)
  {
    hide Receive, HandleInitial, FlushAll, InitialOps, FlushOps, Connections.Connection.Valid,
         Connections.Connection.View;
    var got;
    got, rest := conn.Take(p.aead, socket);
    if !got.Got? {
      return false, None, rest;
    }
    var e := HandleOn(p, kx, got.packet, turn.entropy, conn);
    if e.Err? {
      return false, None, rest;
    }
    if e.value.Some? {
      return true, e.value, rest;
    }
    var flushed, _ := conn.Flush(turn.taken);
    return flushed, None, rest;
  }

  lemma ExchangeUnrolled(p: Provider, st: Initial, c: Conn, socket: seq<bytes>, turns: seq<KxTurn>, i: nat)
    requires c.Valid() && i <= |turns|
    ensures i == |turns| ==> ExchangeLoop(p, st, c, socket, turns[i..]).None?
    ensures i < |turns| ==>
              var x := ExchangeTurn(p, st, c, socket, turns[i]);
              var y := ExchangeLoop(p, st, c, socket, turns[i..]);
              && (x.None? ==> y.None?)
              && (x.Some? && x.value.result.Some? ==>
                    y.Some? && y.value.result == x.value.result.value && y.value.track == x.value.track)
              && (x.Some? && x.value.result.None? ==>
                    var t := x.value.track;
                    SameExchange(ExchangeLoop(p, x.value.state, t.conn, t.socket, turns[i + 1..]), y))
  {
    hide ExchangeTurn;
    if i < |turns| {
      assert turns[i..][0] == turns[i] && turns[i..][1..] == turns[i + 1..];
    }
  }

  method ExchangePackets(p: Provider, kx: InitialExchange, conn: Connections.Connection, socket: seq<bytes>,
                         turns: seq<KxTurn>)
    returns (r: Option<Established>, rest: seq<bytes>)
    requires conn.Valid() && kx !in conn.Repr()
    modifies kx, conn.Repr()
    ensures conn.Valid() && conn.Repr() == old(conn.Repr())
    ensures var x := ExchangeLoop(p, old(kx.state), old(conn.View()), socket, turns);
            && (r.Some? <==> x.Some?)
            && (r.Some? ==> r.value == x.value.result && conn.View() == x.value.track.conn
                            && rest == x.value.track.socket)
  {
    hide ExchangeTurn, ExchangeLoop, Connections.Connection.Valid, Connections.Connection.View;
    rest := socket;
    var i := 0;
    assert turns[0..] == turns;
    while i < |turns|
      invariant 0 <= i <= |turns| && conn.Valid() && conn.Repr() == old(conn.Repr())
      invariant SameExchange(ExchangeLoop(p, kx.state, conn.View(), rest, turns[i..]),
                             ExchangeLoop(p, old(kx.state), old(conn.View()), socket, turns))
    {
      ExchangeUnrolled(p, kx.state, conn.View(), rest, turns, i);
      var ok;
      ok, r, rest := ExchangeOne(p, kx, conn, rest, turns[i]);
      if !ok || r.Some? {
        return r, rest;
      }
      i := i + 1;
    }
    ExchangeUnrolled(p, kx.state, conn.View(), rest, turns, i);
    return None, rest;
  }

  method ExchangeFirst(p: Provider, keys: seq<HostKey>, ids: Identities, conn: Connections.Connection,
                       socket: seq<bytes>, turns: seq<KxTurn>)
    returns (r: Option<Established>, rest: seq<bytes>)
    requires conn.Valid()
    modifies conn.Repr()
    ensures conn.Valid() && conn.Repr() == old(conn.Repr())
    ensures var x := ExchangeLoop(p, AwaitKexInit(keys, ids, Greeting(ids)), old(conn.View()), socket, turns);
            && (r.Some? <==> x.Some?)
            && (r.Some? ==> r.value == x.value.result && conn.View() == x.value.track.conn
                            && rest == x.value.track.socket)
  {
    hide ExchangeLoop, Greeting, Connections.Connection.Valid, Connections.Connection.View;
    var kx := new InitialExchange(keys, ids);
    r, rest := ExchangePackets(p, kx, conn, socket, turns);
  }

  method SwitchKeys(a: Aead, conn: Connections.Connection, ghost socket: seq<bytes>, e: Established, turn: SwitchTurn)
    returns (ok: bool)
    requires conn.Valid()
    modifies conn.Repr()
    ensures conn.Valid() && fresh(conn.Repr() - old(conn.Repr()))
    ensures var t := SwitchTo(a, old(conn.View()), socket, e, turn);
            (ok <==> t.Some?) && (ok ==> conn.View() == t.value.conn && t.value.socket == socket)
  {
    hide Installed, SendAll, FlushAll, EnterOps, Writes, RunReader, Connections.Connection.Valid,
         Connections.Connection.View;
    var installed := conn.Install(a, e.update, turn.announce);
    if !installed {
      return false;
    }
    var sent := conn.Send(a, Closing(e, turn.extInfo), turn.random);
    if !sent {
      return false;
    }
    var flushed, _ := conn.Flush(turn.taken);
    return flushed;
  }

  /** The first exchange, up to the last flush. */
  method ExchangeKeys(p: Provider, keys: seq<HostKey>, ids: Identities, conn: Connections.Connection,
                      socket: seq<bytes>, turns: seq<KxTurn>, last: SwitchTurn)
    returns (r: Option<Established>, rest: seq<bytes>)
    requires conn.Valid()
    modifies conn.Repr()
    ensures conn.Valid() && fresh(conn.Repr() - old(conn.Repr()))
    ensures var x := ExchangeLoop(p, AwaitKexInit(keys, ids, Greeting(ids)), old(conn.View()), socket, turns);
            && (x.None? ==> r.None?)
            && (x.Some? ==>
                  var t := SwitchTo(p.aead, x.value.track.conn, x.value.track.socket, x.value.result, last);
                  && (r.Some? <==> t.Some?)
                  && (r.Some? ==> r.value == x.value.result && rest == t.value.socket && conn.View() == t.value.conn))
  {
    hide ExchangeLoop, SwitchTo, Connections.Connection.Valid, Connections.Connection.View;
    r, rest := ExchangeFirst(p, keys, ids, conn, socket, turns);
    if r.None? {
      return;
    }
    var ok := SwitchKeys(p.aead, conn, rest, r.value, last);
    r := if ok then r else None;
  }

  predicate SameLogin(x: Option<(AuthState, Track)>, y: Option<(AuthState, Track)>) {
    && (x.Some? <==> y.Some?)
    && (x.Some? ==> x.value.0 == y.value.0 && x.value.1.conn == y.value.1.conn && x.value.1.socket == y.value.1.socket)
  }

  method AnswerOn(env: Env, a: Aead, sessionId: bytes, auth: Authenticator, packet: Packet,
                  conn: Connections.Connection, random: Random)
    returns (error: Option<AuthError>)
    requires conn.Valid() && auth !in conn.Repr()
    modifies auth, conn.Repr()
    ensures conn.Valid() && conn.Repr() == old(conn.Repr())
    ensures var (next, w) := HandleAndWrite(env, a, sessionId, old(auth.state), packet, old(conn.View()).write, random);
            && conn.View() == old(conn.View()).(write := w)
            && (error.Some? <==> next.Err?) && (next.Ok? ==> auth.state == next.value)
  {
    hide HandleAndWrite;
    error := auth.OnPacket(env, a, sessionId, packet, conn.write, random);
  }

  method AuthenticateOne(env: Env, a: Aead, sessionId: bytes, auth: Authenticator, conn: Connections.Connection,
                         socket: seq<bytes>, turn: AuthTurn)
    returns (ok: bool, rest: seq<bytes>)
    requires conn.Valid() && auth !in conn.Repr()
    modifies auth, conn.Repr()
    ensures conn.Valid() && conn.Repr() == old(conn.Repr())
    ensures var x := AuthStep(env, a, sessionId, old(auth.state), old(conn.View()), socket, turn);
            && (ok <==> x.Some?)
            && (ok ==> auth.state == x.value.0 && conn.View() == x.value.1.conn && rest == x.value.1.socket)
  {
    hide Receive, HandleAndWrite, FlushAll, ReplyOps, FlushOps, Connections.Connection.Valid,
         Connections.Connection.View;
    var got;
    got, rest := conn.Take(a, socket);
    if !got.Got? {
      return false, rest;
    }
    var error := AnswerOn(env, a, sessionId, auth, got.packet, conn, turn.random);
    var flushed, _ := conn.Flush(turn.taken);
    return error.None? && flushed, rest;
  }

  lemma AuthUnrolled(env: Env, a: Aead, sessionId: bytes, st: AuthState, c: Conn, socket: seq<bytes>,
                     turns: seq<AuthTurn>, i: nat)
    requires c.Valid() && i <= |turns|
    ensures i == |turns| ==> AuthLoop(env, a, sessionId, st, c, socket, turns[i..]).None?
    ensures i < |turns| ==>
              var x := AuthStep(env, a, sessionId, st, c, socket, turns[i]);
              var y := AuthLoop(env, a, sessionId, st, c, socket, turns[i..]);
              && (x.None? ==> y.None?)
              && (x.Some? && x.value.0.Authenticated? ==> y == x)
              && (x.Some? && !x.value.0.Authenticated? ==>
                    var (next, t) := x.value;
                    SameLogin(AuthLoop(env, a, sessionId, next, t.conn, t.socket, turns[i + 1..]), y))
  {
    hide AuthStep;
    if i < |turns| {
      assert turns[i..][0] == turns[i] && turns[i..][1..] == turns[i + 1..];
    }
  }

  method AuthenticatePackets(env: Env, a: Aead, sessionId: bytes, auth: Authenticator, conn: Connections.Connection,
                      socket: seq<bytes>, turns: seq<AuthTurn>)
    returns (ok: bool, rest: seq<bytes>)
    requires conn.Valid() && auth !in conn.Repr()
    modifies auth, conn.Repr()
    ensures conn.Valid() && conn.Repr() == old(conn.Repr())
    ensures var x := AuthLoop(env, a, sessionId, old(auth.state), old(conn.View()), socket, turns);
            && (ok <==> x.Some?)
            && (ok ==> auth.state == x.value.0 && conn.View() == x.value.1.conn && rest == x.value.1.socket)
  {
    hide AuthStep, AuthLoop, Connections.Connection.Valid, Connections.Connection.View;
    rest := socket;
    var i := 0;
    assert turns[0..] == turns;
    while i < |turns|
      invariant 0 <= i <= |turns| && conn.Valid() && conn.Repr() == old(conn.Repr())
      invariant SameLogin(AuthLoop(env, a, sessionId, auth.state, conn.View(), rest, turns[i..]),
                          AuthLoop(env, a, sessionId, old(auth.state), old(conn.View()), socket, turns))
    {
      AuthUnrolled(env, a, sessionId, auth.state, conn.View(), rest, turns, i);
      ok, rest := AuthenticateOne(env, a, sessionId, auth, conn, rest, turns[i]);
      if !ok {
        return;
      }
      if auth.state.Authenticated? {
        return true, rest;
      }
      i := i + 1;
    }
    AuthUnrolled(env, a, sessionId, auth.state, conn.View(), rest, turns, i);
    return false, rest;
  }

  method Authenticate(env: Env, a: Aead, sessionId: bytes, conn: Connections.Connection, socket: seq<bytes>,
                      turns: seq<AuthTurn>)
    returns (r: Option<AuthState>, rest: seq<bytes>)
    requires conn.Valid()
    modifies conn.Repr()
    ensures conn.Valid() && conn.Repr() == old(conn.Repr())
    ensures var x := AuthLoop(env, a, sessionId, AwaitService, old(conn.View()), socket, turns);
            && (r.Some? <==> x.Some?)
            && (r.Some? ==> r.value == x.value.0 && conn.View() == x.value.1.conn && rest == x.value.1.socket)
  {
    hide AuthLoop, Connections.Connection.Valid, Connections.Connection.View;
    var auth := new Authenticator();
    var ok;
    ok, rest := AuthenticatePackets(env, a, sessionId, auth, conn, socket, turns);
    r := if ok then Some(auth.state) else None;
  }

  /** A connection to its login. */
  method Accept(env: Env, p: Provider, keys: seq<HostKey>, ids: Identities, conn: Connections.Connection,
                socket: seq<bytes>, world: World)
    returns (r: Option<(Established, AuthState)>, rest: seq<bytes>)
    requires conn.Valid()
    modifies conn.Repr()
    ensures conn.Valid() && fresh(conn.Repr() - old(conn.Repr()))
    ensures var x := Connect(env, p, keys, ids, old(conn.View()), socket, world);
            && (r.Some? <==> x.Some?)
            && (r.Some? ==> r.value == (x.value.established, x.value.state) && conn.View() == x.value.track.conn
                            && rest == x.value.track.socket)
  {
    hide ExchangeLoop, SwitchTo, AuthLoop, Connections.Connection.Valid, Connections.Connection.View;
    var e;
    e, rest := ExchangeKeys(p, keys, ids, conn, socket, world.exchange, world.switch);
    if e.None? {
      return None, rest;
    }
    var st;
    st, rest := Authenticate(env, p.aead, e.value.output.sessionId, conn, rest, world.auth);
    if st.None? {
      return None, rest;
    }
    return Some((e.value, st.value)), rest;
  }
}
