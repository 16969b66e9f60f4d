/** User authentication: a machine with a budget of attempts and a cache of the last user looked
    up. The user store, signature verification and the check on user names are parameters. */
module Authentication {
  import opened Bytes
  import opened Named
  import opened Transport
  import opened Mpint

  const SERVICE_ACCEPT: byte := 6
  const USERAUTH_FAILURE: byte := 51
  const USERAUTH_SUCCESS: byte := 52
  const USERAUTH_PK_OK: byte := 60
  const ATTEMPTS: nat := 6

  datatype KeyOptions = KeyOptions(command: Option<bytes>)

  datatype AuthorizedKey = AuthorizedKey(algorithm: PublicKeyAlgorithm, key: bytes, blob: bytes, options: KeyOptions)

  datatype User = User(name: bytes, id: nat, gid: nat, home: bytes, shell: bytes)

  datatype CachedUser = CachedUser(data: User, keys: seq<AuthorizedKey>)

  datatype Env = Env(
    utf8: Utf8,
    validName: bytes -> bool,
    lookup: bytes -> Option<User>,
    keys: User -> seq<AuthorizedKey>,
    verify: (AuthorizedKey, bytes, bytes) -> bool,
    fakeEcdsa: AuthorizedKey,
    fakeEd25519: AuthorizedKey)

  // Requests

  datatype PublicKey = PublicKey(algorithm: PublicKeyAlgorithm, blob: bytes, signature: Option<Signature>)

  datatype Method = WithKey(key: PublicKey) | WithNothing

  datatype AuthRequest = AuthRequest(user: bytes, service: ServiceName, auth: Method)

  function DecodePublicKey(utf8: Utf8, b: bytes): Decoding<PublicKey> {
    var signed :- DecodeBool(b);
    var name :- DecodeName(utf8, signed.next);
    var blob :- DecodeString(name.next);
    if signed.value then
      var sig :- DecodeSignature(utf8, blob.next);
      if sig.next != [] then Err(InvalidPacket)
      else Ok(Decoded(PublicKey(KeyTyped(name.value), blob.value, Some(sig.value)), sig.next))
    else if blob.next != [] then Err(InvalidPacket)
    else Ok(Decoded(PublicKey(KeyTyped(name.value), blob.value, None), blob.next))
  }

  function DecodeAuthRequest(utf8: Utf8, packet: Packet): Result<AuthRequest, ProtoError> {
    if packet.kind != USERAUTH_REQUEST then Err(UnexpectedMessage) else
    var user :- DecodeName(utf8, packet.payload);
    var service :- DecodeName(utf8, user.next);
    var name :- DecodeName(utf8, service.next);
    match MethodTyped(name.value)
    case PublicKeyMethod =>
      var key :- DecodePublicKey(utf8, name.next);
      if key.next != [] then Err(InvalidPacket)
      else Ok(AuthRequest(user.value, ServiceTyped(service.value), WithKey(key.value)))
    case NoneMethod =>
      if name.next != [] then Err(InvalidPacket)
      else Ok(AuthRequest(user.value, ServiceTyped(service.value), WithNothing))
    case OtherMethod(_) => Err(InvalidPacket)
  }

  function DecodeServiceRequest(utf8: Utf8, packet: Packet): Result<ServiceName, ProtoError> {
    if packet.kind != SERVICE_REQUEST then Err(UnexpectedMessage) else
    var service :- DecodeName(utf8, packet.payload);
    if service.next != [] then Err(InvalidPacket) else Ok(ServiceTyped(service.value))
  }

  /** What the client signs (section 7 of RFC 4252). */
  function SignatureInput(sessionId: bytes, user: bytes, service: bytes, algorithm: bytes, blob: bytes): bytes {
    EncodeString(sessionId) + ([USERAUTH_REQUEST] + (EncodeString(user) + (EncodeString(service)
    + (EncodeString(PUBLICKEY) + (EncodeBool(true) + (EncodeString(algorithm) + (EncodeString(blob) + [])))))))
  }

  predicate Short(s: bytes) { |s| < U32 }

  /** The signed bytes determine every field. */
  lemma SignatureInputInjective(s1: bytes, u1: bytes, v1: bytes, a1: bytes, b1: bytes,
                                s2: bytes, u2: bytes, v2: bytes, a2: bytes, b2: bytes)
    requires Short(s1) && Short(u1) && Short(v1) && Short(a1) && Short(b1)
    requires Short(s2) && Short(u2) && Short(v2) && Short(a2) && Short(b2)
    requires SignatureInput(s1, u1, v1, a1, b1) == SignatureInput(s2, u2, v2, a2, b2)
    ensures s1 == s2 && u1 == u2 && v1 == v2 && a1 == a2 && b1 == b2
  {
    hide EncodeString;
    var tail1 := EncodeString(a1) + (EncodeString(b1) + []);
    var tail2 := EncodeString(a2) + (EncodeString(b2) + []);
    var mid1 := EncodeString(v1) + (EncodeString(PUBLICKEY) + (EncodeBool(true) + tail1));
    var mid2 := EncodeString(v2) + (EncodeString(PUBLICKEY) + (EncodeBool(true) + tail2));
    StringInjective(s1, [USERAUTH_REQUEST] + (EncodeString(u1) + mid1), s2,
                    [USERAUTH_REQUEST] + (EncodeString(u2) + mid2));
    SameHead(USERAUTH_REQUEST, EncodeString(u1) + mid1, EncodeString(u2) + mid2);
    StringInjective(u1, mid1, u2, mid2);
    StringInjective(v1, EncodeString(PUBLICKEY) + (EncodeBool(true) + tail1),
                    v2, EncodeString(PUBLICKEY) + (EncodeBool(true) + tail2));
    StringInjective(PUBLICKEY, EncodeBool(true) + tail1, PUBLICKEY, EncodeBool(true) + tail2);
    SameHead(1, tail1, tail2);
    StringInjective(a1, EncodeString(b1) + [], a2, EncodeString(b2) + []);
    StringInjective(b1, [], b2, []);
  }

  lemma SameHead(x: byte, s: bytes, t: bytes)
    requires [x] + s == [x] + t
    ensures s == t
  {
    assert ([x] + s)[1..] == s && ([x] + t)[1..] == t;
  }

  // The machine

  datatype AuthError = Canceled | TooManyAttempts | InvalidState | ServiceNotAvailable | Proto(error: ProtoError)

  datatype AuthState =
    | AwaitService
    | AwaitAuth(cached: Option<CachedUser>, attempts: byte)
    | Authenticated(user: User, options: KeyOptions)

  datatype AuthReply = ServiceAccept | Failure | PkOk(algorithm: PublicKeyAlgorithm, blob: bytes) | Success

  function ReplyPayload(r: AuthReply): bytes {
    match r
    case ServiceAccept => [SERVICE_ACCEPT] + EncodeString(USERAUTH)
    case Failure => [USERAUTH_FAILURE] + EncodeNames([PUBLICKEY]) + EncodeBool(false)
    case PkOk(algorithm, blob) => [USERAUTH_PK_OK] + EncodeString(KeyName(algorithm)) + EncodeString(blob)
    case Success => [USERAUTH_SUCCESS]
  }

  predicate Matches(k: AuthorizedKey, pk: PublicKey) {
    k.algorithm == pk.algorithm && k.blob == pk.blob
  }

  function FindKey(keys: seq<AuthorizedKey>, pk: PublicKey): (r: Option<AuthorizedKey>) {
    if keys == [] then None
    else if Matches(keys[0], pk) then Some(keys[0])
    else FindKey(keys[1..], pk)
  }

  /** The stand-in that is verified against when no stored key matches. */
  function FakeKey(env: Env, algorithm: PublicKeyAlgorithm): Option<AuthorizedKey> {
    match algorithm
    case EcdsaSha2Nistp256 => Some(env.fakeEcdsa)
    case Ed25519 => Some(env.fakeEd25519)
    case UnknownKey(_) => None
  }

  datatype KeyVerdict = Refuse | Acceptable | Verified(options: KeyOptions)

  function Judge(env: Env, sessionId: bytes, user: CachedUser, service: ServiceName, pk: PublicKey): KeyVerdict {
    var found := FindKey(user.keys, pk);
    match pk.signature
    case None => if found.Some? then Acceptable else Refuse
    case Some(sig) =>
      if found.Some? && sig.algorithm != found.value.algorithm then Refuse else
      var key := if found.Some? then found else FakeKey(env, pk.algorithm);
      if key.None? || EncodeForVerification(sig).Err? then Refuse
      else if env.verify(key.value,
                         SignatureInput(sessionId, user.data.name, ServiceBytes(service), KeyName(pk.algorithm),
                                        pk.blob),
                         EncodeForVerification(sig).value) then Verified(key.value.options)
      else Refuse
  }

  /** The user the request is about, and the cache afterwards. */
  function Resolve(env: Env, cached: Option<CachedUser>, name: bytes): (Option<CachedUser>, Option<CachedUser>) {
    if cached.Some? && cached.value.data.name == name then (cached, cached)
    else if !env.validName(name) || env.lookup(name).None? then (None, cached)
    else
      var user := env.lookup(name).value;
      var entry := Some(CachedUser(user, env.keys(user)));
      (entry, entry)
  }

  /** The next state and the reply to the packet, if any. */
  type Handled = Result<(AuthState, Option<AuthReply>), AuthError>

  function Conclude(verdict: KeyVerdict, pk: PublicKey, cached: Option<CachedUser>, attempts: byte): Handled {
    match verdict
    case Refuse => Ok((AwaitAuth(cached, attempts), Some(Failure)))
    case Acceptable => Ok((AwaitAuth(cached, attempts), Some(PkOk(pk.algorithm, pk.blob))))
    case Verified(options) =>
      if cached.None? then Err(Proto(Unreachable))
      else Ok((Authenticated(cached.value.data, options), Some(Success)))
  }

  function OnAuthRequest(env: Env, sessionId: bytes, cached: Option<CachedUser>, attempts: byte, packet: Packet)
    : Handled
  {
    var left: byte := (attempts + 255) % 256;
    if left == 0 then Err(TooManyAttempts) else
    match DecodeAuthRequest(env.utf8, packet)
    case Err(error) => Err(Proto(error))
    case Ok(request) =>
      if request.service != Connection then Err(ServiceNotAvailable) else
      match request.auth
      case WithNothing => Ok((AwaitAuth(cached, left), Some(Failure)))
      case WithKey(pk) =>
        match Resolve(env, cached, request.user)
        case (None, entry) => Ok((AwaitAuth(entry, left), Some(Failure)))
        case (Some(user), entry) =>
          Conclude(Judge(env, sessionId, user, request.service, pk), pk, entry, left)
  }

  function Handle(env: Env, sessionId: bytes, st: AuthState, packet: Packet): Handled {
    if packet.kind == IGNORE || packet.kind == DEBUG then Ok((st, None))
    else if packet.kind == DISCONNECT then Err(Canceled)
    else if st.AwaitService? && packet.kind == SERVICE_REQUEST then
      match DecodeServiceRequest(env.utf8, packet)
      case Err(error) => Err(Proto(error))
      case Ok(service) =>
        if service == UserAuth then Ok((AwaitAuth(None, ATTEMPTS), Some(ServiceAccept)))
        else Err(ServiceNotAvailable)
    else if st.AwaitAuth? && packet.kind == USERAUTH_REQUEST then
      OnAuthRequest(env, sessionId, st.cached, st.attempts, packet)
    else Err(InvalidState)
  }

  /** The same with the reply written. */
  function HandleAndWrite(env: Env, a: Aead, sessionId: bytes, st: AuthState, packet: Packet, w: Writer, random: Random)
    : (r: (Result<AuthState, AuthError>, Writer))
    requires w.Valid()
    ensures r.1.Valid()
  {
    match Handle(env, sessionId, st, packet)
    case Err(error) => (Err(error), w)
    case Ok((next, None)) => (Ok(next), w)
    case Ok((next, Some(reply))) =>
      var (sent, w') := Encode(a, w, ReplyPayload(reply), random);
      if sent.Err? then (Err(Proto(sent.error)), w') else (Ok(next), w')
  }

  method WriteReply(a: Aead, reply: AuthReply, next: AuthState, write: WriteState, random: Random)
    returns (r: Result<AuthState, AuthError>)
    requires write.Valid()
    modifies write.Repr()
    ensures write.Valid() && write.sealer == old(write.sealer)
    ensures var (sent, w) := Encode(a, old(write.View()), ReplyPayload(reply), random);
            write.View() == w && r == if sent.Err? then Err(Proto(sent.error)) else Ok(next)
  {
    hide Encode;
    var sent := write.EncodeKx(a, ReplyPayload(reply), random, null);
    r := if sent.Err? then Err(Proto(sent.error)) else Ok(next);
  }

  /** First key that matches, by a scan in order. */
  method ScanKeys(keys: seq<AuthorizedKey>, pk: PublicKey) returns (r: Option<AuthorizedKey>)
    ensures r == FindKey(keys, pk)
  {
    var i := 0;
    assert keys[0..] == keys;
    while i < |keys|
      invariant 0 <= i <= |keys|
      invariant FindKey(keys[i..], pk) == FindKey(keys, pk)
    {
      assert keys[i..][1..] == keys[i + 1..];
      if Matches(keys[i], pk) {
        return Some(keys[i]);
      }
      i := i + 1;
    }
    return None;
  }

  method DecideKey(env: Env, sessionId: bytes, user: CachedUser, service: ServiceName, pk: PublicKey)
    returns (verdict: KeyVerdict)
    ensures verdict == Judge(env, sessionId, user, service, pk)
  {
    var key := ScanKeys(user.keys, pk);
    if pk.signature.None? {
      return if key.Some? then Acceptable else Refuse;
    }
    var sig := pk.signature.value;
    if key.Some? && sig.algorithm != key.value.algorithm {
      return Refuse;
    }
    if key.None? {
      key := FakeKey(env, pk.algorithm);
      if key.None? {
        return Refuse;
      }
    }
    var message := SignatureInput(sessionId, user.data.name, ServiceBytes(service), KeyName(pk.algorithm), pk.blob);
    var signature := EncodeForVerification(sig);
    if signature.Err? {
      return Refuse;
    }
    return if env.verify(key.value, message, signature.value) then Verified(key.value.options) else Refuse;
  }

  /** One request: the budget and the cache are local variables that are updated on the way. */
  method HandleRequest(env: Env, sessionId: bytes, st: AuthState, packet: Packet) returns (r: Handled)
    requires st.AwaitAuth?
    ensures r == OnAuthRequest(env, sessionId, st.cached, st.attempts, packet)
  {
    hide DecodeAuthRequest, Judge;
    var cached, attempts := st.cached, st.attempts;
    attempts := (attempts as int + 255) % 256;
    if attempts == 0 {
      return Err(TooManyAttempts);
    }
    var request := DecodeAuthRequest(env.utf8, packet);
    if request.Err? {
      return Err(Proto(request.error));
    }
    if request.value.service != Connection {
      return Err(ServiceNotAvailable);
    }
    if request.value.auth.WithNothing? {
      return Ok((AwaitAuth(cached, attempts), Some(Failure)));
    }
    var name := request.value.user;
    var user: CachedUser;
    if cached.Some? && cached.value.data.name == name {
      user := cached.value;
    } else {
      if !env.validName(name) {
        return Ok((AwaitAuth(cached, attempts), Some(Failure)));
      }
      var data := env.lookup(name);
      if data.None? {
        return Ok((AwaitAuth(cached, attempts), Some(Failure)));
      }
      user := CachedUser(data.value, env.keys(data.value));
      cached := Some(user);
    }
    var verdict := DecideKey(env, sessionId, user, request.value.service, request.value.auth.key);
    r := Conclude(verdict, request.value.auth.key, cached, attempts);
  }

  class Authenticator {
    var state: AuthState

    constructor ()
      ensures state == AwaitService
    {
      state := AwaitService;
    }

    /** A packet is handled and its reply encoded; on an error the state is left as it was. */
    method OnPacket(env: Env, a: Aead, sessionId: bytes, packet: Packet, write: WriteState, random: Random)
      returns (error: Option<AuthError>)
      requires write.Valid() && this !in write.Repr()
      modifies this, write.Repr()
      ensures write.Valid() && write.sealer == old(write.sealer)
      ensures var (next, w) := HandleAndWrite(env, a, sessionId, old(state), packet, old(write.View()), random);
              && write.View() == w
              && error == (if next.Err? then Some(next.error) else None)
              && state == (if next.Ok? then next.value else old(state))
    {
      hide Encode, DecodeServiceRequest, OnAuthRequest;
      var done: Handled;
      if packet.kind == IGNORE || packet.kind == DEBUG {
        return None;
      } else if packet.kind == DISCONNECT {
        return Some(Canceled);
      } else if state.AwaitService? && packet.kind == SERVICE_REQUEST {
        var service := DecodeServiceRequest(env.utf8, packet);
        done := if service.Err? then Err(Proto(service.error))
                else if service.value == UserAuth then Ok((AwaitAuth(None, ATTEMPTS), Some(ServiceAccept)))
                else Err(ServiceNotAvailable);
      } else if state.AwaitAuth? && packet.kind == USERAUTH_REQUEST {
        done := HandleRequest(env, sessionId, state, packet);
      } else {
        return Some(InvalidState);
      }
      if done.Err? {
        return Some(done.error);
      }
      var (next, reply) := done.value;
      if reply.Some? {
        var r := WriteReply(a, reply.value, next, write, random);
        if r.Err? {
          return Some(r.error);
        }
      }
      state := next;
      return None;
    }
  }

  // One step

  /** Lookup is by name: what it finds has the name that was asked for. */
  ghost predicate LooksUpByName(env: Env) {
    forall name :: env.lookup(name).Some? ==> env.lookup(name).value.name == name
  }

  ghost predicate StandInsVerifyNothing(env: Env) {
    forall m, s :: !env.verify(env.fakeEcdsa, m, s) && !env.verify(env.fakeEd25519, m, s)
  }

  /** The cache holds what the store says. */
  predicate Agrees(env: Env, cached: Option<CachedUser>) {
    cached.Some? ==>
      var user := cached.value.data;
      env.validName(user.name) && env.lookup(user.name) == Some(user) && cached.value.keys == env.keys(user)
  }

  predicate InBudget(env: Env, st: AuthState) {
    st.AwaitAuth? ==> 1 <= st.attempts <= ATTEMPTS && Agrees(env, st.cached)
  }

  lemma {:induction false} FindKeyIsFirst(keys: seq<AuthorizedKey>, pk: PublicKey)
    ensures FindKey(keys, pk).None? ==> forall i :: 0 <= i < |keys| ==> !Matches(keys[i], pk)
    ensures FindKey(keys, pk).Some? ==>
              exists i :: 0 <= i < |keys| && First(keys, i, pk) && keys[i] == FindKey(keys, pk).value
  {
    if keys != [] && !Matches(keys[0], pk) {
      FindKeyIsFirst(keys[1..], pk);
      if FindKey(keys, pk).Some? {
        var j :| 0 <= j < |keys[1..]| && First(keys[1..], j, pk) && keys[1..][j] == FindKey(keys, pk).value;
        FirstShifts(keys, j, pk);
      }
    } else if keys != [] {
      assert First(keys, 0, pk);
    }
  }

  lemma FirstShifts(keys: seq<AuthorizedKey>, j: nat, pk: PublicKey)
    requires j + 1 < |keys| && !Matches(keys[0], pk) && First(keys[1..], j, pk)
    ensures First(keys, j + 1, pk)
  {
    forall i | 0 <= i < j + 1 ensures !Matches(keys[i], pk) {
      if i > 0 {
        assert keys[i] == keys[1..][i - 1];
      }
    }
  }

  /** Key `i` is the first one that matches the request. */
  predicate First(keys: seq<AuthorizedKey>, i: nat, pk: PublicKey)
    requires i < |keys|
  {
    Matches(keys[i], pk) && forall j :: 0 <= j < i ==> !Matches(keys[j], pk)
  }

  /** The client proved possession of `key` to this session, as this user. */
  predicate Proves(env: Env, sessionId: bytes, user: User, pk: PublicKey, key: AuthorizedKey) {
    && pk.signature.Some? && pk.signature.value.algorithm == key.algorithm
    && EncodeForVerification(pk.signature.value).Ok?
    && env.verify(key, SignatureInput(sessionId, user.name, CONNECTION, KeyName(pk.algorithm), pk.blob),
                  EncodeForVerification(pk.signature.value).value)
  }

  /** Stated from the store alone: the packet asks for the connection service with a stored key
      of a user of that name, and proves possession of it. */
  ghost predicate Authorises(env: Env, sessionId: bytes, packet: Packet, user: User, options: KeyOptions) {
    var request := DecodeAuthRequest(env.utf8, packet);
    && request.Ok? && request.value.service == Connection && request.value.auth.WithKey?
    && env.validName(request.value.user) && env.lookup(request.value.user) == Some(user)
    && exists i :: ByKey(env, sessionId, user, request.value.auth.key, i, options)
  }

  predicate ByKey(env: Env, sessionId: bytes, user: User, pk: PublicKey, i: int, options: KeyOptions) {
    var keys := env.keys(user);
    && 0 <= i < |keys| && First(keys, i, pk) && Proves(env, sessionId, user, pk, keys[i]) && options == keys[i].options
  }

  lemma ResolveAgrees(env: Env, cached: Option<CachedUser>, name: bytes)
    requires LooksUpByName(env) && Agrees(env, cached)
    ensures var (found, entry) := Resolve(env, cached, name);
            && Agrees(env, entry) && (found.Some? ==> entry == found)
            && (found.Some? <==> env.validName(name) && env.lookup(name).Some?)
            && (found.Some? ==> found.value.data == env.lookup(name).value
                                && found.value.data.name == name && found.value.keys == env.keys(found.value.data))
  {
  }

  lemma JudgeVerifies(env: Env, sessionId: bytes, user: CachedUser, pk: PublicKey, options: KeyOptions)
    requires StandInsVerifyNothing(env) && user.keys == env.keys(user.data)
    ensures Judge(env, sessionId, user, Connection, pk) == Verified(options)
            <==> exists i :: ByKey(env, sessionId, user.data, pk, i, options)
  {
    hide SignatureInput, EncodeForVerification;
    FindKeyIsFirst(user.keys, pk);
    var found := FindKey(user.keys, pk);
    if found.Some? {
      var i :| 0 <= i < |user.keys| && First(user.keys, i, pk) && user.keys[i] == found.value;
      if Judge(env, sessionId, user, Connection, pk) == Verified(options) {
        assert ByKey(env, sessionId, user.data, pk, i, options);
      }
      forall j | ByKey(env, sessionId, user.data, pk, j, options) ensures j == i {
      }
    }
  }

  /** A request completes authentication exactly when attempts are left and the packet is
      authorised by the store; then for that user and with that key's options. */
  lemma CompletesIff(env: Env, sessionId: bytes, cached: Option<CachedUser>, attempts: byte, packet: Packet,
                     user: User, options: KeyOptions)
    requires LooksUpByName(env) && StandInsVerifyNothing(env)
    requires 1 <= attempts <= ATTEMPTS && Agrees(env, cached)
    ensures OnAuthRequest(env, sessionId, cached, attempts, packet) == Ok((Authenticated(user, options), Some(Success)))
            <==> attempts > 1 && Authorises(env, sessionId, packet, user, options)
  {
    hide Judge, Resolve, DecodeAuthRequest, ByKey, Agrees;
    var request := DecodeAuthRequest(env.utf8, packet);
    if request.Ok? && request.value.auth.WithKey? {
      ResolveAgrees(env, cached, request.value.user);
      var (found, entry) := Resolve(env, cached, request.value.user);
      if found.Some? {
        JudgeVerifies(env, sessionId, found.value, request.value.auth.key, options);
      }
    }
  }

  /** Every step keeps the invariant, so the counter never underflows, and the branch for a
      missing cache entry is never taken. */
  lemma AuthStepKeeps(env: Env, sessionId: bytes, st: AuthState, packet: Packet)
    requires LooksUpByName(env) && InBudget(env, st)
    ensures var r := Handle(env, sessionId, st, packet);
            && r != Err(Proto(Unreachable))
            && (r.Ok? ==> InBudget(env, r.value.0))
            && (r.Ok? && packet.kind == USERAUTH_REQUEST ==>
                  && st.AwaitAuth? && st.attempts > 1 && r.value.1.Some? && r.value.1 != Some(ServiceAccept)
                  && (r.value.1 == Some(Success) <==> r.value.0.Authenticated?)
                  && (r.value.0.AwaitAuth? ==> r.value.0.attempts == st.attempts - 1)
                  && !r.value.0.AwaitService?)
            && (r.Ok? && packet.kind != USERAUTH_REQUEST && !st.AwaitService? ==> r.value == (st, None))
  {
    hide Judge, Resolve, Agrees, DecodeAuthRequest, DecodeServiceRequest;
    RequestsMalformed(env, packet);
    if st.AwaitAuth? && packet.kind == USERAUTH_REQUEST {
      var request := DecodeAuthRequest(env.utf8, packet);
      if request.Ok? && request.value.auth.WithKey? {
        ResolveAgrees(env, st.cached, request.value.user);
      }
    }
    assert Agrees(env, None) by { NoneAgrees(env); }
  }

  lemma NoneAgrees(env: Env)
    ensures Agrees(env, None)
  {
  }

  predicate Malformed<T>(r: Result<T, ProtoError>) {
    r.Err? ==> r.error != Unreachable
  }

  lemma NameMalformed(utf8: Utf8, b: bytes)
    ensures Malformed(DecodeName(utf8, b)) && Malformed(DecodeString(b))
  {
  }

  lemma PublicKeyMalformed(utf8: Utf8, b: bytes)
    ensures Malformed(DecodePublicKey(utf8, b))
  {
    hide DecodeName, DecodeString, DecodeSignature;
    var signed := DecodeBool(b);
    if signed.Ok? {
      NameMalformed(utf8, signed.value.next);
      var name := DecodeName(utf8, signed.value.next);
      if name.Ok? {
        NameMalformed(utf8, name.value.next);
        var blob := DecodeString(name.value.next);
        if blob.Ok? {
          SignatureMalformed(utf8, blob.value.next);
        }
      }
    }
  }

  lemma SignatureMalformed(utf8: Utf8, b: bytes)
    ensures Malformed(DecodeSignature(utf8, b))
  {
    hide DecodeName, DecodeString;
    NameMalformed(utf8, b);
    var outer := DecodeString(b);
    if outer.Ok? {
      NameMalformed(utf8, outer.value.value);
      var name := DecodeName(utf8, outer.value.value);
      if name.Ok? {
        NameMalformed(utf8, name.value.next);
      }
    }
  }

  lemma RequestsMalformed(env: Env, packet: Packet)
    ensures Malformed(DecodeAuthRequest(env.utf8, packet)) && Malformed(DecodeServiceRequest(env.utf8, packet))
  {
    hide DecodeName, DecodePublicKey;
    NameMalformed(env.utf8, packet.payload);
    var user := DecodeName(env.utf8, packet.payload);
    if user.Ok? {
      NameMalformed(env.utf8, user.value.next);
      var service := DecodeName(env.utf8, user.value.next);
      if service.Ok? {
        NameMalformed(env.utf8, service.value.next);
        var name := DecodeName(env.utf8, service.value.next);
        if name.Ok? {
          PublicKeyMalformed(env.utf8, name.value.next);
        }
      }
    }
  }

  /** No key exchange can begin during authentication. */
  lemma KexInitRejected(env: Env, sessionId: bytes, st: AuthState, packet: Packet)
    requires packet.kind == KEXINIT
    ensures Handle(env, sessionId, st, packet) == Err(InvalidState)
  {
  }

  // Whole runs

  datatype Ending = Waiting(state: AuthState) | LoggedIn(user: User, options: KeyOptions) | Rejected(error: AuthError)

  /** What the client sees and how it ends; `requests` counts the requests that were handled. */
  datatype AuthRun = AuthRun(replies: seq<AuthReply>, ending: Ending, requests: nat)

  function Count(packet: Packet): nat { if packet.kind == USERAUTH_REQUEST then 1 else 0 }

  function Spoken(reply: Option<AuthReply>): seq<AuthReply> { if reply.Some? then [reply.value] else [] }

  function Authenticate(env: Env, sessionId: bytes, st: AuthState, packets: seq<Packet>): AuthRun
    decreases |packets|
  {
    if packets == [] then AuthRun([], Waiting(st), 0) else
    match Handle(env, sessionId, st, packets[0])
    case Err(error) => AuthRun([], Rejected(error), 0)
    case Ok((Authenticated(user, options), reply)) => AuthRun(Spoken(reply), LoggedIn(user, options), Count(packets[0]))
    case Ok((next, reply)) =>
      var rest := Authenticate(env, sessionId, next, packets[1..]);
      AuthRun(Spoken(reply) + rest.replies, rest.ending, Count(packets[0]) + rest.requests)
  }

  /** The first reply accepts the service; then each request handled has one reply. */
  predicate Budget(run: AuthRun, started: bool, attempts: nat) {
    && run.requests < attempts
    && |run.replies| == run.requests + (if started then 0 else if run.replies == [] then 0 else 1)
    && (forall i :: 0 <= i < |run.replies| ==>
          && (run.replies[i] == ServiceAccept <==> !started && i == 0)
          && (run.replies[i] == Success ==> i == |run.replies| - 1 && run.ending.LoggedIn?))
  }

  lemma {:induction false} AwaitingBudget(env: Env, sessionId: bytes, st: AuthState, packets: seq<Packet>)
    requires LooksUpByName(env) && InBudget(env, st) && st.AwaitAuth?
    ensures Budget(Authenticate(env, sessionId, st, packets), true, st.attempts)
    ensures Authenticate(env, sessionId, st, packets).ending != Rejected(Proto(Unreachable))
    decreases |packets|
  {
    hide Handle, InBudget;
    assert st.attempts >= 1 by { BudgetPositive(env, st); }
    if packets != [] {
      AuthStepKeeps(env, sessionId, st, packets[0]);
      var r := Handle(env, sessionId, st, packets[0]);
      if r.Ok? && r.value.0.AwaitAuth? {
        AwaitingBudget(env, sessionId, r.value.0, packets[1..]);
      }
    }
  }

  lemma BudgetPositive(env: Env, st: AuthState)
    requires InBudget(env, st) && st.AwaitAuth?
    ensures 1 <= st.attempts <= ATTEMPTS
  {
  }

  /** From the start: at most five requests are handled, each has exactly one reply, only the
      last can be a success, and the run never stops on a missing cache entry. */
  lemma {:induction false} AttemptBudget(env: Env, sessionId: bytes, packets: seq<Packet>)
    requires LooksUpByName(env)
    ensures var run := Authenticate(env, sessionId, AwaitService, packets);
            Budget(run, false, ATTEMPTS) && run.requests <= 5 && run.ending != Rejected(Proto(Unreachable))
    decreases |packets|
  {
    if packets != [] {
      AuthStepKeeps(env, sessionId, AwaitService, packets[0]);
      var r := Handle(env, sessionId, AwaitService, packets[0]);
      if r.Ok? && r.value.0.AwaitService? {
        AttemptBudget(env, sessionId, packets[1..]);
      } else if r.Ok? {
        AwaitingBudget(env, sessionId, r.value.0, packets[1..]);
      }
    }
  }

  /** From any state: a login names a packet that the store authorises
      for exactly that user and those options. */
  lemma {:induction false} LoginIsAuthorised(env: Env, sessionId: bytes, st: AuthState, packets: seq<Packet>)
    returns (at: nat)
    requires LooksUpByName(env) && StandInsVerifyNothing(env) && InBudget(env, st) && !st.Authenticated?
    requires Authenticate(env, sessionId, st, packets).ending.LoggedIn?
    ensures var e := Authenticate(env, sessionId, st, packets).ending;
            at < |packets| && Authorises(env, sessionId, packets[at], e.user, e.options)
    decreases |packets|
  {
    hide Handle, Authorises, InBudget;
    var r := Handle(env, sessionId, st, packets[0]);
    AuthStepKeeps(env, sessionId, st, packets[0]);
    if r.value.0.Authenticated? {
      at := 0;
      CompletionIsAuthorised(env, sessionId, st, packets[0]);
    } else {
      var n := LoginIsAuthorised(env, sessionId, r.value.0, packets[1..]);
      at := n + 1;
    }
  }

  lemma CompletionIsAuthorised(env: Env, sessionId: bytes, st: AuthState, packet: Packet)
    requires LooksUpByName(env) && StandInsVerifyNothing(env) && InBudget(env, st) && !st.Authenticated?
    requires Handle(env, sessionId, st, packet).Ok? && Handle(env, sessionId, st, packet).value.0.Authenticated?
    ensures var next := Handle(env, sessionId, st, packet).value.0;
            Authorises(env, sessionId, packet, next.user, next.options)
  {
    hide OnAuthRequest, Authorises, Agrees;
    var next := Handle(env, sessionId, st, packet).value.0;
    AuthStepKeeps(env, sessionId, st, packet);
    CompletesIff(env, sessionId, st.cached, st.attempts, packet, next.user, next.options);
  }

  /** Authentication soundness, over every packet sequence. */
  lemma AuthenticationSoundness(env: Env, sessionId: bytes, packets: seq<Packet>)
    requires LooksUpByName(env) && StandInsVerifyNothing(env)
    requires Authenticate(env, sessionId, AwaitService, packets).ending.LoggedIn?
    ensures var e := Authenticate(env, sessionId, AwaitService, packets).ending;
            exists at :: 0 <= at < |packets| && Authorises(env, sessionId, packets[at], e.user, e.options)
  {
    var at := LoginIsAuthorised(env, sessionId, AwaitService, packets);
  }

  // The cache

  function Forget(st: AuthState): AuthState {
    if st.AwaitAuth? then st.(cached := None) else st
  }

  function ForgetEnding(e: Ending): Ending {
    if e.Waiting? then Waiting(Forget(e.state)) else e
  }

  /** The reference: every request looks its user up. */
  function AuthenticateUncached(env: Env, sessionId: bytes, st: AuthState, packets: seq<Packet>): AuthRun
    decreases |packets|
  {
    if packets == [] then AuthRun([], Waiting(Forget(st)), 0) else
    match Handle(env, sessionId, Forget(st), packets[0])
    case Err(error) => AuthRun([], Rejected(error), 0)
    case Ok((Authenticated(user, options), reply)) => AuthRun(Spoken(reply), LoggedIn(user, options), Count(packets[0]))
    case Ok((next, reply)) =>
      var rest := AuthenticateUncached(env, sessionId, next, packets[1..]);
      AuthRun(Spoken(reply) + rest.replies, rest.ending, Count(packets[0]) + rest.requests)
  }

  function ForgetHandled(r: Handled): Handled {
    if r.Ok? then Ok((Forget(r.value.0), r.value.1)) else r
  }

  lemma ResolveUncached(env: Env, cached: Option<CachedUser>, name: bytes)
    requires LooksUpByName(env) && Agrees(env, cached)
    ensures Resolve(env, cached, name).0 == Resolve(env, None, name).0
  {
  }

  lemma StepUncached(env: Env, sessionId: bytes, st: AuthState, packet: Packet)
    requires LooksUpByName(env) && InBudget(env, st)
    ensures ForgetHandled(Handle(env, sessionId, st, packet))
            == ForgetHandled(Handle(env, sessionId, Forget(st), packet))
  {
    hide Judge, Resolve, Agrees, DecodeAuthRequest;
    if st.AwaitAuth? && packet.kind == USERAUTH_REQUEST {
      var request := DecodeAuthRequest(env.utf8, packet);
      if request.Ok? && request.value.auth.WithKey? {
        assert Agrees(env, None) by { NoneAgrees(env); }
        ResolveUncached(env, st.cached, request.value.user);
        ResolveAgrees(env, st.cached, request.value.user);
        ResolveAgrees(env, None, request.value.user);
      }
    }
  }

  /** The cached machine gives the same replies and the same outcome as the reference. */
  lemma {:induction false} CacheTransparency(env: Env, sessionId: bytes, st: AuthState, uncached: AuthState,
                                             packets: seq<Packet>)
    requires LooksUpByName(env) && InBudget(env, st) && Forget(uncached) == Forget(st)
    ensures var run := Authenticate(env, sessionId, st, packets);
            AuthenticateUncached(env, sessionId, uncached, packets) == run.(ending := ForgetEnding(run.ending))
    decreases |packets|
  {
    hide Handle, InBudget;
    if packets != [] {
      StepUncached(env, sessionId, st, packets[0]);
      AuthStepKeeps(env, sessionId, st, packets[0]);
      var r, u := Handle(env, sessionId, st, packets[0]), Handle(env, sessionId, Forget(st), packets[0]);
      if r.Ok? && !r.value.0.Authenticated? {
        CacheTransparency(env, sessionId, r.value.0, u.value.0, packets[1..]);
      }
    }
  }
}
