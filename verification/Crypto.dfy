/** Hashing and key derivation (sections 7.2 and 8 of RFC 4253). A hash context is the bytes fed
    to it so far; the digest is an arbitrary function with a fixed positive output length. */
module Crypto {
  import opened Bytes
  import opened Named
  import opened Gcm

  /** The most bytes a digest can have. */
  const DIGEST_MAX: nat := 64

  datatype HashFunctions = HashFunctions(digest: bytes -> bytes, outputLen: nat)

  ghost predicate FixedLength(h: HashFunctions) {
    0 < h.outputLen <= DIGEST_MAX && forall b :: |h.digest(b)| == h.outputLen
  }

  type Hash = h: HashFunctions | FixedLength(h) witness HashFunctions(b => [0], 1)

  /** The exchange hash in progress, once its algorithm is known. */
  class HandshakeHash {
    const hash: Hash
    var input: bytes

    constructor (hash: Hash, buffered: bytes)
      ensures this.hash == hash && input == buffered
    {
      this.hash := hash;
      input := buffered;
    }

    method Update(data: bytes)
      modifies this
      ensures input == old(input) + data
    {
      input := input + data;
    }

    method Prefixed(data: bytes)
      modifies this
      ensures input == old(input) + EncodeString(data)
    {
      Update(ToBE(|data|, 4));
      Update(data);
      assert input == old(input) + (ToBE(|data|, 4) + data);
    }
  }

  // Buffered and streamed input

  /** An incremental hash, with a state of its own. */
  datatype Incremental<!S> = Incremental(start: S, update: (S, bytes) -> S, finish: S -> bytes)

  /** Only the bytes count, not how they were cut. */
  ghost predicate Hashes<S(!new)>(h: Incremental<S>, digest: bytes -> bytes) {
    && (forall s: S, a, b :: h.update(h.update(s, a), b) == h.update(s, a + b))
    && (forall s: S :: h.update(s, []) == s)
    && (forall x :: h.finish(h.update(h.start, x)) == digest(x))
  }

  /** One addition to the exchange hash: as it is, or behind its length. */
  datatype Addition = AsIs(data: bytes) | Prefixed(data: bytes)

  function AdditionBytes(x: Addition): bytes {
    if x.AsIs? then x.data else EncodeString(x.data)
  }

  function Buffered(xs: seq<Addition>): bytes {
    if xs == [] then [] else Buffered(xs[..|xs| - 1]) + AdditionBytes(xs[|xs| - 1])
  }

  function Stream<S>(h: Incremental<S>, s: S, xs: seq<Addition>): S {
    if xs == [] then s else
    var before := Stream(h, s, xs[..|xs| - 1]);
    match xs[|xs| - 1]
    case AsIs(data) => h.update(before, data)
    case Prefixed(data) => h.update(h.update(before, ToBE(|data|, 4)), data)
  }

  lemma {:induction false} StreamIsUpdate<S(!new)>(h: Incremental<S>, digest: bytes -> bytes, s: S, xs: seq<Addition>)
    requires Hashes(h, digest)
    ensures Stream(h, s, xs) == h.update(s, Buffered(xs))
  {
    if xs != [] {
      StreamIsUpdate(h, digest, s, xs[..|xs| - 1]);
    }
  }

  /** Input buffered until the algorithm is known and then fed in at once gives the same hash as
      input streamed from the start, wherever the switch happens. */
  lemma BufferingIsStreaming<S(!new)>(h: Incremental<S>, digest: bytes -> bytes, early: seq<Addition>,
                                      late: seq<Addition>)
    requires Hashes(h, digest)
    ensures h.finish(Stream(h, h.update(h.start, Buffered(early)), late)) == digest(Buffered(early) + Buffered(late))
    ensures Stream(h, h.update(h.start, Buffered(early)), late) == Stream(h, Stream(h, h.start, early), late)
  {
    StreamIsUpdate(h, digest, h.start, early);
    StreamIsUpdate(h, digest, h.update(h.start, Buffered(early)), late);
  }

  // Key derivation

  datatype KeyInput =
    | InitialIvClientToServer
    | InitialIvServerToClient
    | EncryptionKeyClientToServer
    | EncryptionKeyServerToClient

  function Letter(x: KeyInput): byte {
    match x
    case InitialIvClientToServer => 65
    case InitialIvServerToClient => 66
    case EncryptionKeyClientToServer => 67
    case EncryptionKeyServerToClient => 68
  }

  datatype KeyDerivation = KeyDerivation(
    hash: Hash,
    sharedSecret: bytes,
    exchangeHash: bytes,
    sessionId: bytes)

  /** The first `n` blocks K1, K2, ... of the key stream for `x`, concatenated. */
  function KeyStream(d: KeyDerivation, x: KeyInput, n: nat): (s: bytes)
    ensures |s| == n * d.hash.outputLen
  {
    if n == 0 then []
    else if n == 1 then
      d.hash.digest(d.sharedSecret + d.exchangeHash + [Letter(x)] + d.sessionId)
    else
      var sofar := KeyStream(d, x, n - 1);
      sofar + d.hash.digest(d.sharedSecret + d.exchangeHash + sofar)
  }

  lemma {:induction false} KeyStreamCovers(d: KeyDerivation, x: KeyInput, n: nat)
    ensures |KeyStream(d, x, n)| >= n
  {
    if n > 0 {
      KeyStreamCovers(d, x, n - 1);
      assert n * d.hash.outputLen == (n - 1) * d.hash.outputLen + d.hash.outputLen;
    }
  }

  /** The derived key of a given length: the first `len` bytes of the stream (the stream's first
      `len` blocks are always enough). */
  function Derived(d: KeyDerivation, x: KeyInput, len: nat): (key: bytes)
    ensures |key| == len
  {
    KeyStreamCovers(d, x, len);
    KeyStream(d, x, len)[..len]
  }

  lemma {:induction false} KeyStreamExtends(d: KeyDerivation, x: KeyInput, m: nat, n: nat)
    requires m <= n
    ensures KeyStream(d, x, m) <= KeyStream(d, x, n)
    decreases n
  {
    if m < n {
      KeyStreamExtends(d, x, m, n - 1);
      if n == 1 {
        assert KeyStream(d, x, m) == [];
      }
    }
  }

  /** However many blocks are computed, a key that fits in them is the same key. */
  lemma DerivedFromAnyBlocks(d: KeyDerivation, x: KeyInput, len: nat, blocks: nat)
    requires |KeyStream(d, x, blocks)| >= len
    ensures Derived(d, x, len) == KeyStream(d, x, blocks)[..len]
  {
    KeyStreamCovers(d, x, len);
    if blocks <= len {
      KeyStreamExtends(d, x, blocks, len);
    } else {
      KeyStreamExtends(d, x, len, blocks);
    }
  }

  /** A shorter key is a prefix of a longer one. */
  lemma DerivedPrefix(d: KeyDerivation, x: KeyInput, shorter: nat, longer: nat)
    requires shorter <= longer
    ensures Derived(d, x, shorter) <= Derived(d, x, longer)
  {
    KeyStreamCovers(d, x, longer);
    DerivedFromAnyBlocks(d, x, shorter, longer);
  }

  method CopyInto(key: array<byte>, at: nat, block: bytes, take: nat)
    requires at + take <= key.Length && take <= |block|
    modifies key
    ensures key[..at + take] == old(key[..at]) + block[..take]
  {
    forall i | 0 <= i < take {
      key[at + i] := block[i];
    }
  }

  lemma KeyStreamNext(d: KeyDerivation, x: KeyInput, n: nat)
    requires n >= 1
    ensures KeyStream(d, x, n + 1)
         == KeyStream(d, x, n) + d.hash.digest(d.sharedSecret + d.exchangeHash + KeyStream(d, x, n))
  {
  }

  lemma KeyStreamFirst(d: KeyDerivation, x: KeyInput)
    ensures KeyStream(d, x, 1)
         == d.hash.digest(d.sharedSecret + d.exchangeHash + [Letter(x)] + d.sessionId)
  {
  }

  /** `part` is what `n` blocks give of a key of `len` bytes. */
  predicate Filled(d: KeyDerivation, x: KeyInput, n: nat, len: nat, part: bytes) {
    n >= 1 && |part| <= len && part <= KeyStream(d, x, n) && (|part| < len ==> part == KeyStream(d, x, n))
  }

  function Smaller(a: nat, b: nat): nat { if a < b then a else b }

  lemma FilledFirst(d: KeyDerivation, x: KeyInput, len: nat, block: bytes)
    requires block == d.hash.digest(d.sharedSecret + d.exchangeHash + [Letter(x)] + d.sessionId)
    ensures Filled(d, x, 1, len, block[..Smaller(|block|, len)])
  {
    hide KeyStream;
    KeyStreamFirst(d, x);
    assert |block| < len ==> block[..|block|] == block;
  }

  lemma FilledNext(d: KeyDerivation, x: KeyInput, n: nat, len: nat, part: bytes, block: bytes)
    requires Filled(d, x, n, len, part) && |part| < len
    requires block == d.hash.digest(d.sharedSecret + d.exchangeHash + part)
    ensures Filled(d, x, n + 1, len, part + block[..Smaller(d.hash.outputLen, len - |part|)])
  {
    hide KeyStream;
    KeyStreamNext(d, x, n);
    var take := Smaller(d.hash.outputLen, len - |part|);
    assert part + block[..take] == (part + block)[..|part| + take];
    assert take == |block| ==> block[..take] == block;
  }

  lemma FilledDerives(d: KeyDerivation, x: KeyInput, n: nat, len: nat, part: bytes)
    requires Filled(d, x, n, len, part) && |part| == len
    ensures part == Derived(d, x, len)
  {
    hide KeyStream, Derived;
    DerivedFromAnyBlocks(d, x, len, n);
  }

  /** Fill a key of `len` bytes block by block; every block hashed after the first covers a
      whole number of earlier blocks. */
  method Derive(d: KeyDerivation, x: KeyInput, len: nat) returns (r: bytes)
    ensures r == Derived(d, x, len)
  {
    hide KeyStream, Derived, Letter, Filled;
    var base := d.sharedSecret + d.exchangeHash;
    var key := new byte[len](i => 0);
    var block := d.hash.digest(base + [Letter(x)] + d.sessionId);
    var have := Smaller(|block|, len);
    CopyInto(key, 0, block, have);
    ghost var n := 1;
    FilledFirst(d, x, len, block);
    assert key[..have] == block[..have];
    while have < len
      invariant n >= 1 && have <= len && Filled(d, x, n, len, key[..have])
    {
      block := d.hash.digest(base + key[..have]);
      FilledNext(d, x, n, len, key[..have], block);
      var take := Smaller(d.hash.outputLen, len - have);
      CopyInto(key, have, block, take);
      have, n := have + take, n + 1;
    }
    FilledDerives(d, x, n, len, key[..have]);
    return key[..have];
  }

  // The derivation of section 7.2 of RFC 4253, told by its blocks

  /** Blocks K1, K2, ...: the first hashes the base, a letter and the session id, every other one the base
      and all blocks before it. */
  predicate Blocks(digest: bytes -> bytes, base: bytes, letter: byte, sessionId: bytes, blocks: seq<bytes>) {
    && (blocks != [] ==> blocks[0] == digest(base + [letter] + sessionId))
    && (forall i :: 0 < i < |blocks| ==> blocks[i] == digest(base + Flatten(blocks[..i])))
  }

  /** The key is what the blocks start with. */
  ghost predicate KeyFor(digest: bytes -> bytes, base: bytes, letter: byte, sessionId: bytes, key: bytes) {
    exists blocks :: Blocks(digest, base, letter, sessionId, blocks) && key <= Flatten(blocks)
  }

  lemma {:induction false} FlattenAppend(blocks: seq<bytes>, block: bytes)
    ensures Flatten(blocks + [block]) == Flatten(blocks) + block
  {
    if blocks == [] {
      assert Flatten([block]) == block + Flatten([]) == block;
      assert [] + [block] == [block];
    } else {
      FlattenAppend(blocks[1..], block);
      assert (blocks + [block])[1..] == blocks[1..] + [block];
    }
  }

  lemma {:induction false} StreamBlocks(d: KeyDerivation, x: KeyInput, n: nat) returns (blocks: seq<bytes>)
    ensures Blocks(d.hash.digest, d.sharedSecret + d.exchangeHash, Letter(x), d.sessionId, blocks)
    ensures |blocks| == n && Flatten(blocks) == KeyStream(d, x, n)
  {
    hide Letter;
    if n == 0 {
      blocks := [];
    } else {
      var base := d.sharedSecret + d.exchangeHash;
      var before := StreamBlocks(d, x, n - 1);
      var block := if n == 1 then d.hash.digest(base + [Letter(x)] + d.sessionId)
                   else d.hash.digest(base + Flatten(before));
      blocks := before + [block];
      FlattenAppend(before, block);
      forall i | 0 < i < n ensures blocks[i] == d.hash.digest(base + Flatten(blocks[..i])) {
        assert blocks[..i] == before[..i];
        assert i == n - 1 ==> before[..i] == before;
      }
    }
  }

  lemma {:induction false} BlocksAgree(digest: bytes -> bytes, base: bytes, letter: byte, sessionId: bytes,
                                       xs: seq<bytes>, ys: seq<bytes>)
    requires Blocks(digest, base, letter, sessionId, xs) && Blocks(digest, base, letter, sessionId, ys) && |xs| <= |ys|
    ensures xs == ys[..|xs|] && Flatten(xs) <= Flatten(ys)
    decreases |ys|
  {
    if |xs| < |ys| {
      var n := |ys| - 1;
      assert forall i :: 0 <= i <= n ==> ys[..n][..i] == ys[..i];
      BlocksAgree(digest, base, letter, sessionId, xs, ys[..n]);
      FlattenAppend(ys[..n], ys[n]);
      assert ys == ys[..n] + [ys[n]];
    } else if xs != [] {
      var n := |ys| - 1;
      assert forall i :: 0 <= i <= n ==> ys[..n][..i] == ys[..i] && xs[..n][..i] == xs[..i];
      BlocksAgree(digest, base, letter, sessionId, xs[..n], ys[..n]);
      assert xs == xs[..n] + [xs[n]] && ys == ys[..n] + [ys[n]];
    }
  }

  /** There is one key of each length for a letter. */
  lemma KeyForUnique(digest: bytes -> bytes, base: bytes, letter: byte, sessionId: bytes, k: bytes, l: bytes)
    requires KeyFor(digest, base, letter, sessionId, k) && KeyFor(digest, base, letter, sessionId, l) && |k| == |l|
    ensures k == l
  {
    hide Blocks, Flatten;
    var xs :| Blocks(digest, base, letter, sessionId, xs) && k <= Flatten(xs);
    var ys :| Blocks(digest, base, letter, sessionId, ys) && l <= Flatten(ys);
    if |xs| <= |ys| {
      BlocksAgree(digest, base, letter, sessionId, xs, ys);
    } else {
      BlocksAgree(digest, base, letter, sessionId, ys, xs);
    }
  }

  lemma DerivedIsKey(d: KeyDerivation, x: KeyInput, len: nat)
    ensures KeyFor(d.hash.digest, d.sharedSecret + d.exchangeHash, Letter(x), d.sessionId, Derived(d, x, len))
  {
    hide KeyStream, Letter, Blocks;
    KeyStreamCovers(d, x, len);
    var blocks := StreamBlocks(d, x, len);
  }

  // Key material for both directions

  datatype KeySourceSet = KeySourceSet(clientToServer: KeySource, serverToClient: KeySource)

  function Side(d: KeyDerivation, cipher: EncryptionAlgorithm, iv: KeyInput, key: KeyInput)
    : Result<KeySource, CryptoError>
  {
    match Lengths(cipher)
    case None => Err(UnknownAlgorithm)
    case Some(l) => Ok(KeySource(cipher, Derived(d, iv, l.ivLen), Derived(d, key, l.keyLen)))
  }

  function DeriveSet(d: KeyDerivation, toServer: EncryptionAlgorithm, toClient: EncryptionAlgorithm)
    : Result<KeySourceSet, CryptoError>
  {
    var c2s :- Side(d, toServer, InitialIvClientToServer, EncryptionKeyClientToServer);
    var s2c :- Side(d, toClient, InitialIvServerToClient, EncryptionKeyServerToClient);
    Ok(KeySourceSet(c2s, s2c))
  }

  /** The IVs have the letters A and B and twelve bytes, the keys C and D and sixteen, client to server
      first. */
  ghost predicate KeysFrom(hash: Hash, secret: bytes, exchangeHash: bytes, sessionId: bytes, keys: KeySourceSet) {
    var base := secret + exchangeHash;
    && |keys.clientToServer.iv| == |keys.serverToClient.iv| == 12
    && |keys.clientToServer.key| == |keys.serverToClient.key| == 16
    && KeyFor(hash.digest, base, 65, sessionId, keys.clientToServer.iv)
    && KeyFor(hash.digest, base, 66, sessionId, keys.serverToClient.iv)
    && KeyFor(hash.digest, base, 67, sessionId, keys.clientToServer.key)
    && KeyFor(hash.digest, base, 68, sessionId, keys.serverToClient.key)
  }

  /** Both directions are derived as the standard says, each from its own letters. */
  lemma DerivedAsStandardised(d: KeyDerivation, toServer: EncryptionAlgorithm, toClient: EncryptionAlgorithm)
    ensures DeriveSet(d, toServer, toClient).Ok? <==> !toServer.UnknownCipher? && !toClient.UnknownCipher?
    ensures DeriveSet(d, toServer, toClient).Ok? ==>
              var keys := DeriveSet(d, toServer, toClient).value;
              && keys.clientToServer.algorithm == toServer && keys.serverToClient.algorithm == toClient
              && KeysFrom(d.hash, d.sharedSecret, d.exchangeHash, d.sessionId, keys)
  {
    hide Derived, KeyFor;
    DerivedIsKey(d, InitialIvClientToServer, 12);
    DerivedIsKey(d, InitialIvServerToClient, 12);
    DerivedIsKey(d, EncryptionKeyClientToServer, 16);
    DerivedIsKey(d, EncryptionKeyServerToClient, 16);
  }

  /** Whatever is derived for a supported cipher can always be turned into a fresh key state. */
  lemma DerivedKeysAreUsable(d: KeyDerivation, toServer: EncryptionAlgorithm, toClient: EncryptionAlgorithm)
    requires DeriveSet(d, toServer, toClient).Ok?
    ensures var keys := DeriveSet(d, toServer, toClient).value;
            && Usable(keys.clientToServer) && New(0, keys.clientToServer).Ok?
            && Usable(keys.serverToClient) && New(0, keys.serverToClient).Ok?
  {
    var keys := DeriveSet(d, toServer, toClient).value;
    FreshNonceIsIv(keys.clientToServer);
    FreshNonceIsIv(keys.serverToClient);
  }
}
