/** The handoff of a logged-in connection: what is sent over, what is resumed, and that neither the
    session nor the nonces can tell. */
module HandoffRuns {
  import opened Bytes
  import opened Named
  import opened Gcm
  import opened Crypto
  import opened Transport
  import opened Delivery
  import opened TwoParty
  import opened Connections
  import opened KeyExchange
  import opened Authentication
  import opened Handoff
  import opened Nonces
  import opened Receipts
  import opened Logins
  import KeyExchangeRuns
  import SessionLoop
  import SessionRuns
  import SessionKeys

  // Leaving and resuming

  function Counter(g: Option<Gcm>): nat {
    if g.Some? then g.value.counter else 0
  }

  /** The state handed over; bytes that were not flushed are an error. */
  function Leave(c: Conn, addr: nat, output: Output, options: KeyOptions): Result<SessionState, HandoffError>
    requires c.Valid()
  {
    if c.write.Buffered() != [] then Err(BadHandoff) else
    var read := if c.read.lastLength > 0 then Compact(c.read) else c.read;
    Ok(SessionState(
         Peer(addr, output.hostKey, output.ids),
         Flags(output.postQuantum, output.strict, output.sessionId),
         Sides(SideState(output.keys.clientToServer, Counter(read.opener), read.sequenceNumber),
               SideState(output.keys.serverToClient, Counter(c.write.sealer), c.write.sequenceNumber),
               read.buf, options)))
  }

  /** A session about to run. */
  datatype NewSession = NewSession(conn: Conn, addr: nat, rekey: Rekey, postQuantum: bool, options: KeyOptions)

  function Rebuild(s: SessionState): Result<NewSession, HandoffError> {
    match (New(s.sides.read.counter, s.sides.read.source), New(s.sides.write.counter, s.sides.write.source))
    case (Ok(opener), Ok(sealer)) =>
      Ok(NewSession(Conn(Reader(s.sides.readBuf, 0, s.sides.read.sequenceNumber, Some(opener)),
                         Writer([], 0, s.sides.write.sequenceNumber, Some(sealer))),
                    s.peer.addr, Rekey(s.peer.hostKey, s.peer.ids, s.flags.strict, s.flags.sessionId),
                    s.flags.postQuantum, s.sides.options))
    case (Err(e), _) => Err(Undecodable(Crypto(e)))
    case (_, Err(e)) => Err(Undecodable(Crypto(e)))
  }

  function Resume(o: Outside, utf8: Utf8, pieces: seq<Piece>): Result<NewSession, HandoffError> {
    match Gather(pieces, None, [], None)
    case Err(e) => Err(e)
    case Ok((received, fd)) =>
      if fd.None? then Err(BadHandoff) else
      match DecodeState(o, utf8, received)
      case Err(e) => Err(Undecodable(e))
      case Ok(d) => if d.next != [] then Err(BadHandoff) else Rebuild(d.value)
  }

  /** The session the connection would run if it stayed where it is. */
  function Stay(c: Conn, addr: nat, output: Output, options: KeyOptions): NewSession {
    NewSession(c, addr, Rekey(output.hostKey, output.ids, output.strict, output.sessionId), output.postQuantum, options)
  }

  lemma LeaveRebuilds(c: Conn, addr: nat, output: Output, options: KeyOptions)
    requires Keyed(output.keys, c) && Clear(c.write)
    ensures Leave(c, addr, output, options).Ok?
    ensures var s := Leave(c, addr, output, options).value;
            && Rebuild(s) == Ok(Stay(Conn(Compact(c.read), c.write), addr, output, options))
            && SideFits(s.sides.read) && SideFits(s.sides.write)
            && s.sides.readBuf == c.read.Pending()
  {
    hide New, Tracks, NonceAt;
    TracksIffRebuilt(output.keys.clientToServer, c.read.opener.value);
    TracksIffRebuilt(output.keys.serverToClient, c.write.sealer.value);
    TrackedKey(output.keys.clientToServer, c.read.opener.value);
    TrackedKey(output.keys.serverToClient, c.write.sealer.value);
    assert c.read.lastLength == 0 ==> c.read.buf[0..] == c.read.buf;
  }

  /** The sizes of what is handed over: each string and the message fit their length fields. */
  predicate SmallEnough(o: Outside, utf8: Utf8, s: SessionState) {
    && PeerFits(o, s.peer) && |s.sides.readBuf| < U32 && OptionsFit(utf8, s.sides.options)
    && |EncodeState(o, s)| < U32
  }

  lemma ResumeState(o: Outside, utf8: Utf8, s: SessionState, pieces: seq<Piece>)
    requires SmallEnough(o, utf8, s) && |s.flags.sessionId| <= DIGEST_MAX
    requires SideFits(s.sides.read) && SideFits(s.sides.write)
    requires Delivered(pieces) && Data(pieces) == HandoffMessage(o, s) && FirstFd(pieces).Some?
    ensures pieces != []
    ensures Resume(o, utf8, pieces) == if |pieces[0].data| >= 4 then Rebuild(s) else Err(BadHandoff)
  {
    hide EncodeState, DecodeState, Rebuild, ToBE, Delivered, Data, FirstFd;
    var m := EncodeState(o, s);
    ReassemblesIff(pieces, m);
    StateRoundTrip(o, utf8, s, []);
    assert m + [] == m;
    if |pieces[0].data| < 4 {
      ShortIsBad(pieces);
    }
  }

  lemma ShortIsBad(pieces: seq<Piece>)
    requires Delivered(pieces) && pieces != [] && |pieces[0].data| < 4
    ensures Gather(pieces, None, [], None) == Err(BadHandoff)
  {
  }

  /** Nothing else is resumed: whatever arrives, a session comes only from a descriptor and a message that is
      its length and a state, with nothing behind. */
  lemma ResumesOnly(o: Outside, utf8: Utf8, pieces: seq<Piece>)
    requires Resume(o, utf8, pieces).Ok?
    ensures exists k, m, s ::
              && 0 < k <= |pieces| && |pieces[0].data| >= 4 && FirstFd(pieces[..k]).Some?
              && Data(pieces[..k]) == ToBE(|m|, 4) + m && DecodeState(o, utf8, m) == Ok(Decoded(s, []))
              && Rebuild(s) == Resume(o, utf8, pieces)
  {
    hide DecodeState, Rebuild, ToBE, FromBE, FirstFd, Data;
    var (m, fd) := Gather(pieces, None, [], None).value;
    var k := GatherSound(pieces, None, [], None);
    var s := DecodeState(o, utf8, m).value.value;
    var b := Data(pieces[..k]);
    FirstIsData(pieces, k);
    ToFromBE(b[..4]);
    assert b == b[..4] + b[4..] && [] + b[4..] == b[4..];
    assert Data(pieces[..k]) == ToBE(|m|, 4) + m;
  }

  lemma FirstIsData(pieces: seq<Piece>, k: nat)
    requires 0 < k <= |pieces| && |pieces[0].data| >= 4
    ensures |Data(pieces[..k])| >= 4 && Data(pieces[..k])[..4] == pieces[0].data[..4]
  {
    assert pieces[..k][0] == pieces[0];
  }

  // From the first packet to the session

  /** The connection gets to this login. */
  ghost predicate LogsIn(env: Env, p: Provider, keys: seq<HostKey>, ids: Identities, start: Conn, socket: seq<bytes>,
                         world: World, login: Login)
    ensures LogsIn(env, p, keys, ids, start, socket, world, login) ==>
              start.Valid() && login.track.conn.Valid() && login.state.Authenticated?
  {
    start.Valid() && Connect(env, p, keys, ids, start, socket, world) == Some(login)
  }

  function Left(login: Login, addr: nat): Result<SessionState, HandoffError>
    requires login.track.conn.Valid() && login.state.Authenticated?
  {
    Leave(login.track.conn, addr, login.established.output, login.state.options)
  }

  /** The session that would run if the connection stayed, from `read` on. */
  function Stayed(login: Login, addr: nat, read: Reader): NewSession
    requires login.state.Authenticated?
  {
    Stay(login.track.conn.(read := read), addr, login.established.output, login.state.options)
  }

  /** The message arrives, in whatever pieces, with a descriptor. */
  predicate Arrives(o: Outside, utf8: Utf8, s: SessionState, pieces: seq<Piece>) {
    && SmallEnough(o, utf8, s) && Delivered(pieces) && Data(pieces) == HandoffMessage(o, s) && FirstFd(pieces).Some?
  }

  /** Handoff is transparent. Whatever came in over the stream up to the login, the connection can
      leave, and the resumed session is the one that would have run in place, with the bytes of the
      last packet dropped from its read buffer; it resumes exactly when the first piece received
      holds the length prefix. */
  lemma HandoffTransparent(env: Env, p: Provider, keys: seq<HostKey>, ids: Identities, start: Conn, socket: seq<bytes>,
                           world: World, login: Login, o: Outside, addr: nat, s: SessionState, pieces: seq<Piece>)
    requires LogsIn(env, p, keys, ids, start, socket, world, login)
    ensures && Left(login, addr).Ok?
            && (Left(login, addr) == Ok(s) && Arrives(o, p.utf8, s, pieces) ==>
                  && pieces != []
                  && Resume(o, p.utf8, pieces) == if |pieces[0].data| >= 4
                                                  then Ok(Stayed(login, addr, Compact(login.track.conn.read)))
                                                  else Err(BadHandoff))
  {
    hide Connect, Traced, Keyed, Resume, Rebuild, SmallEnough, Clear, Delivered, Data, FirstFd, HandoffMessage,
         SideFits, SwitchesOnce, KeyExchangeRuns.Establishing, KeyExchangeRuns.AsExpected;
    LoginTraced(env, p, keys, ids, start, socket, world);
    LeaveRebuilds(login.track.conn, addr, login.established.output, login.state.options);
    if Left(login, addr) == Ok(s) && Arrives(o, p.utf8, s, pieces) {
      ResumeState(o, p.utf8, s, pieces);
    }
  }

  function BeginWith(n: NewSession, socket: seq<bytes>): SessionLoop.History {
    SessionLoop.Begin(n.rekey, n.postQuantum, n.conn, socket)
  }

  /** Both sessions end, or both have written the same bytes, seen the same events, and are in the same
      state, but for the last packet in the read buffer. */
  ghost predicate RunAlike(p: Provider, d: SessionLoop.Codec, m: NewSession, n: NewSession, socket: seq<bytes>,
                           turns: seq<SessionLoop.Turn>) {
    && m.conn.Valid() && n.conn.Valid()
    && var x := SessionLoop.RunSession(p, d, BeginWith(m, socket), turns);
       var y := SessionLoop.RunSession(p, d, BeginWith(n, socket), turns);
       (x.Some? <==> y.Some?) && (x.Some? ==> SessionRuns.Twins(x.value, y.value))
  }

  /** So it goes on as if it had never been cut, on the rest of the stream and for all turns. */
  lemma ResumedSessionRuns(env: Env, p: Provider, keys: seq<HostKey>, ids: Identities, start: Conn, socket: seq<bytes>,
                           world: World, login: Login, o: Outside, addr: nat, s: SessionState, pieces: seq<Piece>,
                           d: SessionLoop.Codec, turns: seq<SessionLoop.Turn>)
    requires LogsIn(env, p, keys, ids, start, socket, world, login) && Left(login, addr) == Ok(s)
    requires Arrives(o, p.utf8, s, pieces) && pieces != [] && |pieces[0].data| >= 4
    ensures var resumed, stayed := Resume(o, p.utf8, pieces), Stayed(login, addr, login.track.conn.read);
            && resumed.Ok? && resumed.value == stayed.(conn := resumed.value.conn)
            && RunAlike(p, d, stayed, resumed.value, login.track.socket, turns)
  {
    hide LogsIn, Resume, Left, Arrives, SessionLoop.RunSession;
    HandoffTransparent(env, p, keys, ids, start, socket, world, login, o, addr, s, pieces);
    var resumed, stayed := Resume(o, p.utf8, pieces).value, Stayed(login, addr, login.track.conn.read);
    assert Compact(Compact(login.track.conn.read)) == Compact(login.track.conn.read);
    SessionRuns.CompactionIsInvisible(p, d, BeginWith(stayed, login.track.socket),
                                      BeginWith(resumed, login.track.socket), turns);
  }

  /** It does happen: with surroundings that know the host key, and the message cut into chunks, every
      connection whose strings fit their length fields is resumed. */
  lemma HandoffSucceeds(env: Env, p: Provider, keys: seq<HostKey>, ids: Identities, start: Conn, socket: seq<bytes>,
                        world: World, login: Login, addr: nat, s: SessionState, fd: nat)
    requires LogsIn(env, p, keys, ids, start, socket, world, login) && Left(login, addr) == Ok(s)
    requires |Digits(addr)| < U32 && |s.sides.readBuf| < U32 && OptionsFit(p.utf8, s.sides.options)
    requires |s.peer.hostKey.pkcs8| < U32 && |s.peer.ids.client| < U32 && |s.peer.ids.server| < U32
    requires |EncodeState(Plainly(s.peer.hostKey), s)| < U32
    ensures var o := Plainly(s.peer.hostKey);
            Resume(o, p.utf8, CutUp(HandoffMessage(o, s), Some(fd)))
            == Ok(Stayed(login, addr, Compact(login.track.conn.read)))
  {
    hide Connect, Traced, Keyed, Resume, Rebuild, Clear, Delivered, Data, FirstFd, HandoffMessage, EncodeState,
         SideFits, SwitchesOnce, KeyExchangeRuns.Establishing, KeyExchangeRuns.AsExpected, CutUp, Gather,
         Digits, Plainly;
    LoginTraced(env, p, keys, ids, start, socket, world);
    LeaveRebuilds(login.track.conn, addr, login.established.output, login.state.options);
    HandoffPossible(p.utf8, s, fd);
    var o := Plainly(s.peer.hostKey);
    HandoffTransparent(env, p, keys, ids, start, socket, world, login, o, addr, s,
                       CutUp(HandoffMessage(o, s), Some(fd)));
  }

  /** From login on, every packet opened, with its sequence number, and the place where the stream
      breaks are those of the connection that stayed, under any later key changes. */
  lemma ResumedDelivers(a: Aead, policy: Policy, r: Reader, history: seq<Packet>, socket: seq<bytes>)
    requires r.Valid()
    ensures Deliver(a, policy, Compact(r), history, socket) == Deliver(a, policy, r, history, socket)
  {
    hide Receive;
    CompactReceives(a, r, socket);
  }

  // Nonces over the life of a connection

  /** `n` is what the login becomes after the handoff. */
  predicate HandedOver(login: Login, addr: nat, n: NewSession)
    requires login.track.conn.Valid() && login.state.Authenticated?
  {
    Left(login, addr).Ok? && Rebuild(Left(login, addr).value) == Ok(n)
  }

  /** All that is done to the writer and to the reader, from the first packet on; the handoff drops
      the last packet from the buffer. */
  ghost function LifeOps(login: Login, h: SessionLoop.History): seq<Op> {
    login.track.ops + h.ops
  }

  ghost function LifeTakes(login: Login, p: Provider, d: SessionLoop.Codec, n: NewSession, turns: seq<SessionLoop.Turn>)
    : seq<ReadOp>
    requires n.conn.Valid() && SessionLoop.RunSession(p, d, BeginWith(n, login.track.socket), turns).Some?
  {
    login.track.takes + [Buffers([])] + SessionKeys.SessionTakes(p, d, BeginWith(n, login.track.socket), turns)
  }

  lemma LoginFresh(login: Login)
    requires FromOutput(login.established) && SwitchesOnce(login.established, login.track)
    ensures FreshSwitches(login.track.ops) && FreshInstalls(login.track.takes)
  {
    hide BuildUpdate, FreshKey;
    FreshUpdate(login.established.output.keys, login.established.output.strict);
  }

  lemma CompactionTraced(a: Aead, c: Conn, t: Track)
    requires c.Valid() && Traced(a, c, t)
    ensures RunReader(a, c.read, t.takes + [Buffers([])]) == Compact(t.conn.read)
    ensures AllOpened(a, c.read, t.takes + [Buffers([])])
  {
    hide AllOpened, Taken;
    OpenedNone(a, t.conn.read, Buffers([]));
    OpenedThen(a, c.read, t.takes, [Buffers([])]);
    RunReaderAppend(a, c.read, t.takes, [Buffers([])]);
    assert [Buffers([])][1..] == [];
    assert Feed(Compact(t.conn.read), []) == Compact(t.conn.read);
    assert RunReader(a, Compact(t.conn.read), []) == Compact(t.conn.read);
  }

  /** Up to the session: one run of the writer and one of the reader, with fresh keys only. */
  lemma UpToSession(env: Env, p: Provider, keys: seq<HostKey>, ids: Identities, start: Conn, socket: seq<bytes>,
                    world: World, login: Login, addr: nat, n: NewSession) returns (wire: bytes)
    requires LogsIn(env, p, keys, ids, start, socket, world, login) && HandedOver(login, addr, n)
    ensures && n.conn.Valid() && FreshSwitches(login.track.ops) && FreshInstalls(login.track.takes)
            && Writes(p.aead, start.write, login.track.ops, wire, n.conn.write)
            && RunReader(p.aead, start.read, login.track.takes + [Buffers([])]) == n.conn.read
            && AllOpened(p.aead, start.read, login.track.takes + [Buffers([])])
  {
    hide Connect, Keyed, Rebuild, Leave, Clear, SwitchesOnce, KeyExchangeRuns.Establishing, KeyExchangeRuns.AsExpected,
         FromOutput, Writes, RunReader, FreshSwitches, FreshInstalls, AllOpened;
    LoginTraced(env, p, keys, ids, start, socket, world);
    LeaveRebuilds(login.track.conn, addr, login.established.output, login.state.options);
    LoginFresh(login);
    CompactionTraced(p.aead, start, login.track);
    wire :| Writes(p.aead, start.write, login.track.ops, wire, login.track.conn.write);
  }

  /** No nonce is used twice under any key of a connection, in either direction, from the first packet
      through authentication and the handoff to the end of the session and across all its rekeys. What
      is done to the writer is one run, in which the frames under each installed key are calls of the
      cipher with different nonces; what is done to the reader is one run, in which the calls under
      each installed key have different nonces. */
  lemma ConnectionNoncesDistinct(env: Env, p: Provider, keys: seq<HostKey>, ids: Identities, start: Conn,
                                 socket: seq<bytes>, world: World, login: Login, addr: nat, n: NewSession,
                                 d: SessionLoop.Codec, turns: seq<SessionLoop.Turn>)
    requires LogsIn(env, p, keys, ids, start, socket, world, login) && HandedOver(login, addr, n) && n.conn.Valid()
    requires SessionLoop.RunSession(p, d, BeginWith(n, login.track.socket), turns).Some?
    ensures var h := SessionLoop.RunSession(p, d, BeginWith(n, login.track.socket), turns).value;
            && (exists wire :: Writes(p.aead, start.write, LifeOps(login, h), wire, h.session.conn.write))
            && SealsDiffer(p.aead, start.write.sealer, LifeOps(login, h))
            && RunReader(p.aead, start.read, LifeTakes(login, p, d, n, turns)) == h.session.conn.read
            && OpensDiffer(p.aead, start.read, LifeTakes(login, p, d, n, turns))
  {
    hide LogsIn, HandedOver, SessionLoop.RunSession, Writes, RunReader, SealsDiffer, OpensDiffer, FreshKey, AllOpened,
         SessionKeys.SessionTakes;
    var wire := UpToSession(env, p, keys, ids, start, socket, world, login, addr, n);
    var begin := BeginWith(n, login.track.socket);
    var h := SessionLoop.RunSession(p, d, begin, turns).value;
    SessionRuns.SessionWritesAll(p, d, n.rekey, n.postQuantum, n.conn, login.track.socket, turns);
    WritesThen(p.aead, start.write, login.track.ops, wire, n.conn.write, h.ops, h.wire, h.session.conn.write);
    SessionKeys.SessionAdvances(p, d, begin, turns);
    AllSealsDiffer(p.aead, start.write, LifeOps(login, h), wire + h.wire, h.session.conn.write);
    var takes := SessionKeys.SessionTakes(p, d, begin, turns);
    RunReaderAppend(p.aead, start.read, login.track.takes + [Buffers([])], takes);
    AllOpensDiffer(p.aead, start.read, LifeTakes(login, p, d, n, turns));
  }

  /** Every packet a connection acts on under a key, from the first one through authentication and the
      handoff to the end of the session, is the opening of one call of the cipher, under the key then
      installed and on the next bytes of the stream. */
  lemma ConnectionPacketsOpened(env: Env, p: Provider, keys: seq<HostKey>, ids: Identities, start: Conn,
                                socket: seq<bytes>, world: World, login: Login, addr: nat, n: NewSession,
                                d: SessionLoop.Codec, turns: seq<SessionLoop.Turn>)
    requires LogsIn(env, p, keys, ids, start, socket, world, login) && HandedOver(login, addr, n) && n.conn.Valid()
    requires SessionLoop.RunSession(p, d, BeginWith(n, login.track.socket), turns).Some?
    ensures var takes := LifeTakes(login, p, d, n, turns);
            && AllOpened(p.aead, start.read, takes)
            && Taken(p.aead, start.read, takes) == Taken(p.aead, start.read, login.track.takes)
                 + SessionKeys.SessionPackets(p, d, BeginWith(n, login.track.socket), turns)
  {
    hide LogsIn, HandedOver, SessionLoop.RunSession, Writes, RunReader, FreshKey, AllOpened, Taken,
         SessionKeys.SessionTakes, SessionKeys.SessionPackets;
    var wire := UpToSession(env, p, keys, ids, start, socket, world, login, addr, n);
    var begin := BeginWith(n, login.track.socket);
    SessionKeys.SessionAdvances(p, d, begin, turns);
    SessionKeys.SessionTaken(p, d, begin, turns);
    var first, takes := login.track.takes, SessionKeys.SessionTakes(p, d, begin, turns);
    OpenedThen(p.aead, start.read, first + [Buffers([])], takes);
    TakenThen(p.aead, start.read, first + [Buffers([])], takes);
    TakenThen(p.aead, start.read, first, [Buffers([])]);
    OpenedNone(p.aead, RunReader(p.aead, start.read, first), Buffers([]));
  }
}
