/** What a login on a connection says about the packets that came in over it. */
module LoginRuns {
  import opened Bytes
  import opened Transport
  import opened Delivery
  import opened TwoParty
  import opened Connections
  import opened KeyExchange
  import opened Receipts
  import opened Logins
  import KeyExchangeRuns
  import A = Authentication

  /** The replies as they are sent. */
  predicate SentAs(replies: seq<A.AuthReply>, payloads: seq<bytes>) {
    |payloads| == |replies| && forall i :: 0 <= i < |replies| ==> payloads[i] == A.ReplyPayload(replies[i])
  }

  lemma StepIsRun(env: A.Env, a: Aead, sessionId: bytes, st: A.AuthState, c: Conn, socket: seq<bytes>, turn: AuthTurn)
    requires c.Valid() && AuthStep(env, a, sessionId, st, c, socket, turn).Some?
    ensures Receive(a, c.read, socket).0.Got?
    ensures var (next, t) := AuthStep(env, a, sessionId, st, c, socket, turn).value;
            var r := A.Handle(env, sessionId, st, Receive(a, c.read, socket).0.packet);
            && r.Ok? && next == r.value.0 && SentAs(A.Spoken(r.value.1), Sends(t.ops))
            && t.takes == [Receives(socket)]
  {
    hide Receive, A.Handle, Encode, FlushAll, FlushOps, A.ReplyPayload, Sends, Writes;
    var got := Receive(a, c.read, socket).0;
    var w := A.HandleAndWrite(env, a, sessionId, st, got.packet, c.write, turn.random).1;
    var ops := ReplyOps(env, sessionId, st, got.packet, turn.random);
    FlushWrites(a, w, turn.taken);
    FlushesSendNothing(FlushOps(w, turn.taken));
    SendsThen(ops, FlushOps(w, turn.taken));
    assert Sends(ops) + [] == Sends(ops);
    OneSent(ops);
  }

  lemma OneSent(ops: seq<Op>)
    ensures ops == [] ==> Sends(ops) == []
    ensures |ops| == 1 && ops[0].Send? ==> Sends(ops) == [ops[0].payload]
  {
    if |ops| == 1 {
      assert ops[1..] == [];
    }
  }

  lemma RunSteps(env: A.Env, sessionId: bytes, st: A.AuthState, packet: Packet, rest: seq<Packet>)
    requires A.Handle(env, sessionId, st, packet).Ok?
    ensures var (next, reply) := A.Handle(env, sessionId, st, packet).value;
            var run := A.Authenticate(env, sessionId, st, [packet] + rest);
            if next.Authenticated?
            then run.ending == A.LoggedIn(next.user, next.options) && run.replies == A.Spoken(reply)
            else var more := A.Authenticate(env, sessionId, next, rest);
                 run.ending == more.ending && run.replies == A.Spoken(reply) + more.replies
  {
    hide A.Handle;
    assert ([packet] + rest)[1..] == rest;
  }

  lemma SentThen(xs: seq<A.AuthReply>, ps: seq<bytes>, ys: seq<A.AuthReply>, qs: seq<bytes>)
    requires SentAs(xs, ps) && SentAs(ys, qs)
    ensures SentAs(xs + ys, ps + qs)
  {
    hide A.ReplyPayload;
  }

  lemma LoopSteps(env: A.Env, a: Aead, sessionId: bytes, st: A.AuthState, c: Conn, socket: seq<bytes>,
                  turns: seq<AuthTurn>)
    requires c.Valid() && AuthLoop(env, a, sessionId, st, c, socket, turns).Some?
    ensures turns != [] && AuthStep(env, a, sessionId, st, c, socket, turns[0]).Some?
    ensures var (next, t) := AuthStep(env, a, sessionId, st, c, socket, turns[0]).value;
            var all := AuthLoop(env, a, sessionId, st, c, socket, turns);
            if next.Authenticated? then all == Some((next, t))
            else var more := AuthLoop(env, a, sessionId, next, t.conn, t.socket, turns[1..]);
                 more.Some? && all == Some((more.value.0, Joined(t, more.value.1)))
  {
    hide AuthStep;
  }

  /** The authentication loop on a connection is a run of the authentication machine on the packets
      received, and what is sent is its replies. */
  lemma {:induction false} AuthLoopIsRun(env: A.Env, a: Aead, sessionId: bytes, st: A.AuthState, c: Conn,
                                         socket: seq<bytes>, turns: seq<AuthTurn>)
    requires c.Valid() && Clear(c.write) && AuthLoop(env, a, sessionId, st, c, socket, turns).Some?
    ensures var (last, t) := AuthLoop(env, a, sessionId, st, c, socket, turns).value;
            var run := A.Authenticate(env, sessionId, st, Taken(a, c.read, t.takes));
            run.ending == A.LoggedIn(last.user, last.options) && SentAs(run.replies, Sends(t.ops))
    decreases |turns|
  {
    hide AuthStep, AuthLoop, Receive, A.Handle, A.Authenticate, Sends, SentAs, Taken, Traced, Steady, Clear, AllOpened,
         RunReader;
    LoopSteps(env, a, sessionId, st, c, socket, turns);
    StepIsRun(env, a, sessionId, st, c, socket, turns[0]);
    AuthStepTraced(env, a, sessionId, st, c, socket, turns[0]);
    OpenedOne(a, c.read, socket);
    var (next, t) := AuthStep(env, a, sessionId, st, c, socket, turns[0]).value;
    var packet := Receive(a, c.read, socket).0.packet;
    var reply := A.Handle(env, sessionId, st, packet).value.1;
    if next.Authenticated? {
      RunSteps(env, sessionId, st, packet, []);
      assert [packet] + [] == [packet];
    } else {
      AuthLoopIsRun(env, a, sessionId, next, t.conn, t.socket, turns[1..]);
      var u := AuthLoop(env, a, sessionId, next, t.conn, t.socket, turns[1..]).value.1;
      TracedReads(a, c, t);
      TakenThen(a, c.read, t.takes, u.takes);
      SendsThen(t.ops, u.ops);
      var rest := Taken(a, t.conn.read, u.takes);
      RunSteps(env, sessionId, st, packet, rest);
      SentThen(A.Spoken(reply), Sends(t.ops), A.Authenticate(env, sessionId, next, rest).replies, Sends(u.ops));
    }
  }

  lemma TracedReads(a: Aead, c: Conn, t: Track)
    requires c.Valid() && Traced(a, c, t)
    ensures t.conn.Valid() && RunReader(a, c.read, t.takes) == t.conn.read
  {
    hide RunReader, AllOpened, Writes;
  }

  /** One of the packets received on the connection is a request that the store authorises, for this user
      and these options, in the session the exchange has established. */
  ghost predicate Authorised(env: A.Env, login: Login, packets: seq<Packet>) {
    login.state.Authenticated?
    && exists at :: 0 <= at < |packets|
         && A.Authorises(env, login.established.output.sessionId, packets[at], login.state.user, login.state.options)
  }

  /** A login is sound: whatever came in over the stream, it is due to a packet received on this connection
      that proves possession of a stored key of that user, over the hash of this connection's own exchange. */
  lemma LoginSound(env: A.Env, p: Provider, keys: seq<HostKey>, ids: Identities, c: Conn, socket: seq<bytes>,
                   world: World)
    requires c.Valid() && Connect(env, p, keys, ids, c, socket, world).Some?
    requires A.LooksUpByName(env) && A.StandInsVerifyNothing(env)
    ensures var login := Connect(env, p, keys, ids, c, socket, world).value;
            && EstablishedBy(p, keys, ids, login.inputs, login.established)
            && Authorised(env, login, Taken(p.aead, c.read, login.track.takes))
  {
    hide ExchangeLoop, SwitchTo, AuthLoop, Traced, Steady, SwitchesTo, Keyed, Clear, SwitchesOnce, Taken, A.Authorises,
         A.Authenticate, EstablishedBy, Says, Sends, FromOutput, SentAs;
    var login := Connect(env, p, keys, ids, c, socket, world).value;
    ExchangeEstablishes(p, keys, ids, c, socket, world.exchange);
    var x := ExchangeLoop(p, AwaitKexInit(keys, ids, Greeting(ids)), c, socket, world.exchange).value;
    FromEstablished(p, keys, ids, x.inputs, x.result);
    SwitchTraced(p.aead, x.track.conn, x.track.socket, x.result, world.switch);
    var t := SwitchTo(p.aead, x.track.conn, x.track.socket, x.result, world.switch).value;
    var id := x.result.output.sessionId;
    AuthLoopIsRun(env, p.aead, id, A.AwaitService, t.conn, t.socket, world.auth);
    var (last, u) := AuthLoop(env, p.aead, id, A.AwaitService, t.conn, t.socket, world.auth).value;
    var packets := Taken(p.aead, t.conn.read, u.takes);
    A.AuthenticationSoundness(env, id, packets);
    var at :| 0 <= at < |packets| && A.Authorises(env, id, packets[at], last.user, last.options);
    var skipped := TakenLast(p.aead, c, x.track, t, u);
    var all := Taken(p.aead, c.read, login.track.takes);
    assert all[|skipped| + at] == packets[at];
  }

  lemma TakenLast(a: Aead, c: Conn, x: Track, t: Track, u: Track) returns (skipped: seq<Packet>)
    requires c.Valid() && Traced(a, c, x) && Traced(a, x.conn, t)
    ensures Taken(a, c.read, Joined(x, Joined(t, u)).takes) == skipped + Taken(a, t.conn.read, u.takes)
  {
    hide Taken, RunReader, Traced;
    TracedReads(a, c, x);
    TracedReads(a, x.conn, t);
    TakenThen(a, c.read, x.takes, t.takes + u.takes);
    TakenThen(a, x.conn.read, t.takes, u.takes);
    skipped := Taken(a, c.read, x.takes) + Taken(a, x.conn.read, t.takes);
  }

  lemma FromEstablished(p: Provider, keys: seq<HostKey>, ids: Identities, inputs: seq<KeyExchangeRuns.Input>,
                        e: Established)
    requires EstablishedBy(p, keys, ids, inputs, e)
    ensures FromOutput(e)
  {
  }
}
