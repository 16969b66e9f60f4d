/** What authentication answers, from the store and the bytes alone: which requests are read, what is
    signed, and which reply each of them gets. */
module AuthReplies {
  import opened Bytes
  import opened Named
  import opened Transport
  import opened Mpint
  import opened Authentication

  // Requests on the wire

  /** The part of a request behind the method name: nothing, or a flag, an algorithm, a key blob and, if the
      flag is set, a signature. */
  predicate KeyPart(utf8: Utf8, b: bytes, pk: PublicKey, flag: byte, signature: bytes) {
    && b == [flag] + (EncodeString(KeyName(pk.algorithm)) + (EncodeString(pk.blob) + signature))
    && |KeyName(pk.algorithm)| < U32 && utf8(KeyName(pk.algorithm)) && KeyTyped(KeyName(pk.algorithm)) == pk.algorithm
    && |pk.blob| < U32 && (flag != 0 <==> pk.signature.Some?)
    && (pk.signature.None? ==> signature == [])
    && (pk.signature.Some? ==> DecodeSignature(utf8, signature) == Ok(Decoded(pk.signature.value, [])))
  }

  lemma KeyPartRead(utf8: Utf8, b: bytes, pk: PublicKey) returns (flag: byte, signature: bytes)
    requires DecodePublicKey(utf8, b) == Ok(Decoded(pk, []))
    ensures KeyPart(utf8, b, pk, flag, signature)
  {
    hide DecodeString, DecodeSignature, EncodeString;
    flag := b[0];
    assert b == [flag] + b[1..];
    var name := DecodeName(utf8, b[1..]).value;
    ReadsNameIff(utf8, b[1..], name.value, name.next);
    var blob := DecodeString(name.next).value;
    ReadsStringIff(name.next, blob.value, blob.next);
    signature := blob.next;
    KeyNamesBack(name.value);
  }

  lemma KeyNamesBack(name: bytes)
    ensures KeyName(KeyTyped(name)) == name
  {
  }

  lemma KeyPartReads(utf8: Utf8, b: bytes, pk: PublicKey, flag: byte, signature: bytes)
    requires KeyPart(utf8, b, pk, flag, signature)
    ensures DecodePublicKey(utf8, b) == Ok(Decoded(pk, []))
  {
    hide DecodeString, DecodeSignature, EncodeString, KeyName, KeyTyped;
    var name := KeyName(pk.algorithm);
    assert b[1..] == EncodeString(name) + (EncodeString(pk.blob) + signature);
    ReadsNameIff(utf8, b[1..], name, EncodeString(pk.blob) + signature);
    ReadsStringIff(EncodeString(pk.blob) + signature, pk.blob, signature);
  }

  /** A request as section 5 of RFC 4252 lays it out: user, service, method, and what the method adds. */
  predicate Asks(utf8: Utf8, payload: bytes, r: AuthRequest, flag: byte, signature: bytes, tail: bytes) {
    var name := if r.auth.WithKey? then Ascii("publickey") else Ascii("none");
    && |r.user| < U32 && utf8(r.user) && |ServiceBytes(r.service)| < U32 && utf8(ServiceBytes(r.service))
    && ServiceTyped(ServiceBytes(r.service)) == r.service
    && payload == EncodeString(r.user) + (EncodeString(ServiceBytes(r.service)) + (EncodeString(name) + tail))
    && (r.auth.WithNothing? ==> tail == [])
    && (r.auth.WithKey? ==> KeyPart(utf8, tail, r.auth.key, flag, signature))
  }

  lemma RequestRead(utf8: Utf8, packet: Packet, r: AuthRequest) returns (flag: byte, signature: bytes, tail: bytes)
    requires DecodeAuthRequest(utf8, packet) == Ok(r)
    ensures packet.kind == 50 && Asks(utf8, packet.payload, r, flag, signature, tail)
  {
    hide DecodeName, DecodePublicKey, EncodeString, KeyPart, ServiceTyped, ServiceBytes;
    var user := DecodeName(utf8, packet.payload).value;
    ReadsNameIff(utf8, packet.payload, user.value, user.next);
    var service := DecodeName(utf8, user.next).value;
    ReadsNameIff(utf8, user.next, service.value, service.next);
    var name := DecodeName(utf8, service.next).value;
    ReadsNameIff(utf8, service.next, name.value, name.next);
    ServicesBack(service.value);
    tail := name.next;
    flag, signature := 0, [];
    if r.auth.WithKey? {
      flag, signature := KeyPartRead(utf8, tail, r.auth.key);
    }
  }

  lemma ServicesBack(name: bytes)
    ensures ServiceBytes(ServiceTyped(name)) == name
  {
  }

  lemma RequestReads(utf8: Utf8, packet: Packet, r: AuthRequest, flag: byte, signature: bytes, tail: bytes)
    requires packet.kind == 50 && Asks(utf8, packet.payload, r, flag, signature, tail)
    ensures DecodeAuthRequest(utf8, packet) == Ok(r)
  {
    hide DecodeName, DecodePublicKey, EncodeString, KeyPart, ServiceTyped, ServiceBytes, Ascii;
    var service := ServiceBytes(r.service);
    var name := if r.auth.WithKey? then Ascii("publickey") else Ascii("none");
    ReadsNameIff(utf8, packet.payload, r.user, EncodeString(service) + (EncodeString(name) + tail));
    ReadsNameIff(utf8, EncodeString(service) + (EncodeString(name) + tail), service, EncodeString(name) + tail);
    MethodNames(utf8);
    ReadsNameIff(utf8, EncodeString(name) + tail, name, tail);
    if r.auth.WithKey? {
      KeyPartReads(utf8, tail, r.auth.key, flag, signature);
    }
  }

  lemma MethodNames(utf8: Utf8)
    ensures PUBLICKEY == Ascii("publickey") && NONE == Ascii("none") && utf8(PUBLICKEY) && utf8(NONE)
    ensures MethodTyped(PUBLICKEY) == PublicKeyMethod && MethodTyped(NONE) == NoneMethod
    ensures |PUBLICKEY| < U32 && |NONE| < U32
  {
    assert |PUBLICKEY| != |NONE|;
  }

  /** A request is read, as `r`, exactly if it is laid out as `r`. */
  lemma RequestReadIff(utf8: Utf8, packet: Packet, r: AuthRequest)
    ensures DecodeAuthRequest(utf8, packet) == Ok(r) <==>
              packet.kind == 50 && exists flag, signature, tail :: Asks(utf8, packet.payload, r, flag, signature, tail)
  {
    hide DecodeAuthRequest, Asks;
    if DecodeAuthRequest(utf8, packet) == Ok(r) {
      var flag, signature, tail := RequestRead(utf8, packet, r);
    }
    forall flag, signature, tail | packet.kind == 50 && Asks(utf8, packet.payload, r, flag, signature, tail)
      ensures DecodeAuthRequest(utf8, packet) == Ok(r)
    {
      RequestReads(utf8, packet, r, flag, signature, tail);
    }
  }

  /** What is signed (section 7 of RFC 4252): the session id and the request itself, up to its signature.
      The flag is signed as 1, so this is so exactly if it came as 1. */
  lemma SignedIsRequest(utf8: Utf8, packet: Packet, r: AuthRequest, flag: byte, signature: bytes, tail: bytes,
                        sessionId: bytes)
    requires packet.kind == 50 && Asks(utf8, packet.payload, r, flag, signature, tail) && r.auth.WithKey?
    ensures SignatureInput(sessionId, r.user, ServiceBytes(r.service), KeyName(r.auth.key.algorithm), r.auth.key.blob)
              + signature == EncodeString(sessionId) + [packet.kind] + packet.payload
            <==> flag == 1
  {
    hide EncodeString, DecodeSignature, KeyName, ServiceBytes, Ascii;
    MethodNames(utf8);
    var u, v, m := EncodeString(r.user), EncodeString(ServiceBytes(r.service)), EncodeString(PUBLICKEY);
    var id, x, y := EncodeString(sessionId), EncodeString(KeyName(r.auth.key.algorithm)), EncodeString(r.auth.key.blob);
    SignedLayout(id, u, v, m, x, y, signature);
    Concat3(id, [packet.kind], packet.payload);
    Flagged(id, u, v, m, x + (y + signature), flag);
  }

  /** A request behind a session id. */
  function Request(id: bytes, u: bytes, v: bytes, m: bytes, flag: byte, rest: bytes): bytes {
    id + ([USERAUTH_REQUEST] + (u + (v + (m + ([flag] + rest)))))
  }

  lemma SignedLayout(id: bytes, u: bytes, v: bytes, m: bytes, x: bytes, y: bytes, z: bytes)
    ensures (id + ([USERAUTH_REQUEST] + (u + (v + (m + ([1] + (x + (y + [])))))))) + z
            == Request(id, u, v, m, 1, x + (y + z))
  {
    var w := x + (y + []);
    assert y + [] == y;
    Concat3(x, y, z);
    Concat3([1], w, z);
    Concat3(m, [1] + w, z);
    Concat3(v, m + ([1] + w), z);
    Concat3(u, v + (m + ([1] + w)), z);
    Concat3([USERAUTH_REQUEST], u + (v + (m + ([1] + w))), z);
    Concat3(id, [USERAUTH_REQUEST] + (u + (v + (m + ([1] + w)))), z);
  }

  lemma Flagged(id: bytes, u: bytes, v: bytes, m: bytes, rest: bytes, flag: byte)
    ensures Request(id, u, v, m, 1, rest) == Request(id, u, v, m, flag, rest) <==> flag == 1
  {
    SameBehind(id, u, v, m, [1] + rest, [flag] + rest);
    assert ([1] + rest)[0] == 1 && ([flag] + rest)[0] == flag;
  }

  lemma SameBehind(id: bytes, u: bytes, v: bytes, m: bytes, s: bytes, t: bytes)
    ensures id + ([USERAUTH_REQUEST] + (u + (v + (m + s)))) == id + ([USERAUTH_REQUEST] + (u + (v + (m + t))))
            <==> s == t
  {
    Cancels(m, s, t);
    Cancels(v, m + s, m + t);
    Cancels(u, v + (m + s), v + (m + t));
    Cancels([USERAUTH_REQUEST], u + (v + (m + s)), u + (v + (m + t)));
    Cancels(id, [USERAUTH_REQUEST] + (u + (v + (m + s))), [USERAUTH_REQUEST] + (u + (v + (m + t))));
  }

  lemma Cancels(x: bytes, s: bytes, t: bytes)
    ensures x + s == x + t <==> s == t
  {
    assert (x + s)[|x|..] == s && (x + t)[|x|..] == t;
  }

  // Replies

  /** Messages 6, 51, 60 and 52. */
  lemma ReplyBytes(r: AuthReply)
    ensures ReplyPayload(r) ==
              match r
              case ServiceAccept => [6] + EncodeString(Ascii("ssh-userauth"))
              case Failure => [51] + EncodeString(Ascii("publickey")) + [0]
              case PkOk(algorithm, blob) => [60] + EncodeString(KeyName(algorithm)) + EncodeString(blob)
              case Success => [52]
  {
    assert Join([PUBLICKEY]) == PUBLICKEY;
  }

  /** The request asks whether a key would do, and one of the user's keys is that key. */
  ghost predicate Queries(env: Env, r: AuthRequest, algorithm: PublicKeyAlgorithm, blob: bytes) {
    && r.service == Connection && r.auth.WithKey? && r.auth.key.signature.None?
    && r.auth.key.algorithm == algorithm && r.auth.key.blob == blob
    && env.validName(r.user) && env.lookup(r.user).Some?
    && exists key :: key in env.keys(env.lookup(r.user).value) && key.algorithm == algorithm && key.blob == blob
  }

  lemma JudgeQueries(env: Env, sessionId: bytes, user: CachedUser, pk: PublicKey)
    ensures Judge(env, sessionId, user, Connection, pk) == Acceptable <==>
              && pk.signature.None?
              && exists key :: key in user.keys && key.algorithm == pk.algorithm && key.blob == pk.blob
  {
    hide SignatureInput, EncodeForVerification;
    FindKeyIsFirst(user.keys, pk);
    if FindKey(user.keys, pk).Some? {
      var i :| 0 <= i < |user.keys| && First(user.keys, i, pk) && user.keys[i] == FindKey(user.keys, pk).value;
      assert user.keys[i] in user.keys;
    }
  }

  /** Every request, in budget: it is refused for good only when attempts run out, or it cannot be read, or
      is for another service; otherwise a key the user has is confirmed when it is only asked about, a
      login the store authorises succeeds, and everything else fails, with one attempt less. */
  ghost predicate Answered(env: Env, sessionId: bytes, attempts: byte, packet: Packet, r: Handled) {
    var request := DecodeAuthRequest(env.utf8, packet);
    if attempts == 1 then r == Err(TooManyAttempts)
    else if request.Err? then r == Err(Proto(request.error))
    else if request.value.service != Connection then r == Err(ServiceNotAvailable)
    else
      && r.Ok? && r.value.1.Some?
      && (forall algorithm, blob ::
            r.value.1 == Some(PkOk(algorithm, blob)) <==> Queries(env, request.value, algorithm, blob))
      && (forall user, options ::
            r.value == (Authenticated(user, options), Some(Success)) <==>
              Authorises(env, sessionId, packet, user, options))
      && (r.value.1.value.Failure? || r.value.1.value.PkOk? || r.value.1.value.Success?)
      && (r.value.1.value.Success? <==> r.value.0.Authenticated?)
      && (!r.value.1.value.Success? ==> r.value.0.AwaitAuth? && r.value.0.attempts == attempts - 1)
  }

  lemma RequestAnswered(env: Env, sessionId: bytes, cached: Option<CachedUser>, attempts: byte, packet: Packet)
    requires LooksUpByName(env) && StandInsVerifyNothing(env)
    requires 1 <= attempts <= ATTEMPTS && Agrees(env, cached)
    ensures Answered(env, sessionId, attempts, packet, OnAuthRequest(env, sessionId, cached, attempts, packet))
  {
    hide Judge, Resolve, DecodeAuthRequest, Authorises, Agrees, Queries;
    var r := OnAuthRequest(env, sessionId, cached, attempts, packet);
    var request := DecodeAuthRequest(env.utf8, packet);
    forall user, options
      ensures r == Ok((Authenticated(user, options), Some(Success))) <==>
                attempts > 1 && Authorises(env, sessionId, packet, user, options)
    {
      CompletesIff(env, sessionId, cached, attempts, packet, user, options);
    }
    if request.Ok? && request.value.auth.WithKey? {
      ResolveAgrees(env, cached, request.value.user);
    }
    if attempts > 1 && request.Ok? && request.value.service == Connection {
      forall algorithm, blob
        ensures r.Ok? && r.value.1 == Some(PkOk(algorithm, blob)) <==> Queries(env, request.value, algorithm, blob)
      {
        QueryAnswered(env, sessionId, cached, attempts, packet, algorithm, blob);
      }
    }
  }

  lemma QueryAnswered(env: Env, sessionId: bytes, cached: Option<CachedUser>, attempts: byte, packet: Packet,
                      algorithm: PublicKeyAlgorithm, blob: bytes)
    requires LooksUpByName(env) && 1 < attempts <= ATTEMPTS && Agrees(env, cached)
    requires DecodeAuthRequest(env.utf8, packet).Ok? && DecodeAuthRequest(env.utf8, packet).value.service == Connection
    ensures var r := OnAuthRequest(env, sessionId, cached, attempts, packet);
            r.Ok? && r.value.1 == Some(PkOk(algorithm, blob)) <==>
              Queries(env, DecodeAuthRequest(env.utf8, packet).value, algorithm, blob)
  {
    hide Judge, Resolve, DecodeAuthRequest, Agrees;
    var request := DecodeAuthRequest(env.utf8, packet).value;
    if request.auth.WithKey? {
      ResolveAgrees(env, cached, request.user);
      var (found, entry) := Resolve(env, cached, request.user);
      if found.Some? {
        JudgeQueries(env, sessionId, found.value, request.auth.key);
      }
    }
  }

  /** The whole machine, by message number: IGNORE and DEBUG pass, DISCONNECT cancels, the service is
      accepted exactly on a request for user authentication, then requests are answered, and everything else
      is an error. */
  ghost predicate Handles(env: Env, sessionId: bytes, st: AuthState, packet: Packet, r: Handled) {
    if packet.kind == 2 || packet.kind == 4 then r == Ok((st, None))
    else if packet.kind == 1 then r == Err(Canceled)
    else if st.AwaitService? && packet.kind == 5 then
      && (r.Ok? <==> packet.payload == EncodeString(Ascii("ssh-userauth")))
      && (r.Ok? ==> r.value == (AwaitAuth(None, 6), Some(ServiceAccept)))
    else if st.AwaitAuth? && packet.kind == 50 then Answered(env, sessionId, st.attempts, packet, r)
    else r == Err(InvalidState)
  }

  lemma ServiceReads(utf8: Utf8, packet: Packet)
    requires packet.kind == SERVICE_REQUEST
    ensures DecodeServiceRequest(utf8, packet) == Ok(UserAuth) <==>
              packet.payload == EncodeString(Ascii("ssh-userauth"))
  {
    hide DecodeName, EncodeString;
    assert USERAUTH == Ascii("ssh-userauth") && utf8(USERAUTH) && |USERAUTH| < U32;
    ReadsNameIff(utf8, packet.payload, USERAUTH, []);
    assert EncodeString(USERAUTH) + [] == EncodeString(USERAUTH);
    assert |USERAUTH| != |CONNECTION|;
  }

  lemma PacketHandled(env: Env, sessionId: bytes, st: AuthState, packet: Packet)
    requires LooksUpByName(env) && StandInsVerifyNothing(env) && InBudget(env, st)
    ensures Handles(env, sessionId, st, packet, Handle(env, sessionId, st, packet))
  {
    hide OnAuthRequest, DecodeServiceRequest, Answered, Agrees;
    if st.AwaitService? && packet.kind == SERVICE_REQUEST {
      ServiceReads(env.utf8, packet);
    } else if st.AwaitAuth? && packet.kind == USERAUTH_REQUEST {
      RequestAnswered(env, sessionId, st.cached, st.attempts, packet);
    }
  }
}
