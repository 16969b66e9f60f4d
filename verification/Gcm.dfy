/** Per-direction AES-128-GCM state: the key, the twelve-byte nonce and the number of packets
    processed (section 7.1 of RFC 5647). The last eight nonce bytes are a big-endian invocation
    counter. Both crypto providers keep this state the same way, so one model serves both. */
module Gcm {
  import opened Bytes
  import opened Named

  /** Key material derived for one direction. */
  datatype KeySource = KeySource(algorithm: EncryptionAlgorithm, iv: bytes, key: bytes)

  /** The value of a `GcmState`. */
  datatype Gcm = Gcm(key: bytes, nonce: bytes, counter: nat) {
    predicate Shaped() { |key| == 16 && |nonce| == 12 }
  }

  type Key = g: Gcm | g.Shaped() witness Gcm(seq(16, i => 0), seq(12, i => 0), 0)

  function Increment(g: Gcm, delta: nat): Result<Gcm, CryptoError>
    requires g.Shaped()
  {
    var next := FromBE(g.nonce[4..]) + delta;
    if next >= U64 then Err(NonceOverflow)
    else Ok(g.(nonce := g.nonce[..4] + ToBE(next, 8), counter := g.counter + delta))
  }

  function New(counter: nat, source: KeySource): (r: Result<Gcm, CryptoError>)
    ensures r.Ok? ==> r.value.Shaped()
  {
    if source.algorithm != Aes128Gcm then Err(UnknownAlgorithm)
    else if |source.key| != 16 || |source.iv| != 12 then Err(InvalidLength)
    else Increment(Gcm(source.key, source.iv, 0), counter)
  }

  /** The nonce for the next packet and the state after it; a refusal leaves the state alone. */
  function NextNonce(g: Gcm): Result<(bytes, Gcm), CryptoError>
    requires g.Shaped()
  {
    var after :- Increment(g, 1);
    Ok((g.nonce, after))
  }

  // The specification: nonce number i of a derived key

  predicate Usable(source: KeySource) {
    source.algorithm == Aes128Gcm && |source.key| == 16 && |source.iv| == 12
  }

  function Base(source: KeySource): nat
    requires Usable(source)
  {
    FromBE(source.iv[4..])
  }

  /** The fixed part of the IV followed by its invocation counter plus `i`. */
  function NonceAt(source: KeySource, i: nat): bytes
    requires Usable(source)
  {
    source.iv[..4] + ToBE(Base(source) + i, 8)
  }

  /** `g` is the state of `source` after `g.counter` packets. */
  predicate Tracks(source: KeySource, g: Gcm) {
    && Usable(source)
    && Base(source) + g.counter < U64
    && g.key == source.key
    && g.nonce == NonceAt(source, g.counter)
  }

  /** A state tracks its source exactly when rebuilding it from the counter gives it back: this
      is why the counter alone is enough to hand a key over to another process. */
  lemma TracksIffRebuilt(source: KeySource, g: Gcm)
    ensures Tracks(source, g) <==> New(g.counter, source) == Ok(g)
  {
    if Usable(source) {
      assert Gcm(source.key, source.iv, 0).Shaped();
    }
  }

  /** Building fails only for a wrong algorithm, wrong lengths or a counter past the end. */
  lemma NewSucceedsIff(counter: nat, source: KeySource)
    ensures New(counter, source).Ok? <==> Usable(source) && Base(source) + counter < U64
    ensures New(counter, source).Ok? ==>
              Tracks(source, New(counter, source).value) && New(counter, source).value.counter == counter
  {
  }

  /** One draw: it hands out nonce number `counter`, moves on by one, and is refused exactly
      when the invocation counter has no successor. */
  lemma NextNonceTracks(source: KeySource, g: Gcm)
    requires Tracks(source, g)
    ensures g.Shaped()
    ensures NextNonce(g).Ok? <==> Base(source) + g.counter + 1 < U64
    ensures NextNonce(g).Err? ==> NextNonce(g).error == NonceOverflow
    ensures NextNonce(g).Ok? ==>
              var (nonce, after) := NextNonce(g).value;
              nonce == NonceAt(source, g.counter) && Tracks(source, after) && after.counter == g.counter + 1
  {
    U64RoundTrip(Base(source) + g.counter);
    assert g.nonce[4..] == ToBE(Base(source) + g.counter, 8);
    assert g.nonce[..4] == source.iv[..4];
  }

  lemma TracksBound(source: KeySource, g: Gcm)
    requires Tracks(source, g)
    ensures Usable(source) && Base(source) + g.counter < U64
  {
  }

  lemma FreshNonceIsIv(source: KeySource)
    requires Usable(source)
    ensures NonceAt(source, 0) == source.iv && Base(source) < U64
  {
    ToFromBE(source.iv[4..]);
    PowValues();
    assert source.iv == source.iv[..4] + source.iv[4..];
  }

  lemma NoncesDistinct(source: KeySource, i: nat, j: nat)
    requires Usable(source) && i < j && Base(source) + j < U64
    ensures NonceAt(source, i) != NonceAt(source, j)
  {
    U64RoundTrip(Base(source) + i);
    U64RoundTrip(Base(source) + j);
    assert NonceAt(source, i)[4..] == ToBE(Base(source) + i, 8);
    assert NonceAt(source, j)[4..] == ToBE(Base(source) + j, 8);
  }

  // Runs of one derived key, across any number of handoffs

  /** One use of a key: draw a nonce, or rebuild the state elsewhere from its counter. */
  datatype Use = Draw | Handoff

  datatype KeyRun = KeyRun(nonces: seq<bytes>, last: Result<Gcm, CryptoError>)

  function RunUses(source: KeySource, g: Gcm, uses: seq<Use>): KeyRun
    requires g.Shaped()
    decreases |uses|
  {
    if uses == [] then KeyRun([], Ok(g))
    else match uses[0]
      case Draw =>
        (match NextNonce(g)
         case Err(e) => KeyRun([], Err(e))
         case Ok((nonce, after)) =>
           var rest := RunUses(source, after, uses[1..]);
           KeyRun([nonce] + rest.nonces, rest.last))
      case Handoff =>
        (match New(g.counter, source)
         case Err(e) => KeyRun([], Err(e))
         case Ok(after) => RunUses(source, after, uses[1..]))
  }

  function Draws(uses: seq<Use>): nat {
    if uses == [] then 0 else (if uses[0].Draw? then 1 else 0) + Draws(uses[1..])
  }

  /** Every run hands out consecutive nonces, starting with the one the counter points at; it
      fails exactly when it asks for more draws than are left, and then only with an overflow. */
  lemma {:induction false} RunIsConsecutive(source: KeySource, g: Gcm, uses: seq<Use>)
    requires Tracks(source, g)
    ensures g.Shaped()
    ensures var run := RunUses(source, g, uses);
            && (forall i :: 0 <= i < |run.nonces| ==> run.nonces[i] == NonceAt(source, g.counter + i))
            && (run.last.Ok? <==> Base(source) + g.counter + Draws(uses) < U64)
            && (run.last.Ok? ==> |run.nonces| == Draws(uses)
                                 && Tracks(source, run.last.value)
                                 && run.last.value.counter == g.counter + Draws(uses))
            && (run.last.Err? ==> run.last.error == NonceOverflow)
            && Base(source) + g.counter + |run.nonces| < U64
    decreases |uses|
  {
    hide NextNonce, New, NonceAt, Base, Tracks;
    NextNonceTracks(source, g);
    TracksIffRebuilt(source, g);
    TracksBound(source, g);
    if uses != [] {
      if uses[0].Handoff? {
        RunIsConsecutive(source, g, uses[1..]);
      } else if NextNonce(g).Ok? {
        RunIsConsecutive(source, NextNonce(g).value.1, uses[1..]);
      }
    }
  }

  /** For one derived key, whatever the mixture of packets and process handoffs, no nonce is
      ever handed out twice. */
  lemma NoncesNeverRepeat(source: KeySource, uses: seq<Use>, i: nat, j: nat)
    requires New(0, source).Ok?
    requires i < j < |RunUses(source, New(0, source).value, uses).nonces|
    ensures RunUses(source, New(0, source).value, uses).nonces[i]
         != RunUses(source, New(0, source).value, uses).nonces[j]
  {
    hide New, RunUses, Tracks, NonceAt;
    var g := New(0, source).value;
    NewSucceedsIff(0, source);
    RunIsConsecutive(source, g, uses);
    NoncesDistinct(source, i, j);
  }

  /** Starting at counter `c` is the same as starting at zero and drawing `c` nonces, successes
      and failures alike. */
  lemma NewIsReplay(source: KeySource, c: nat)
    requires New(0, source).Ok?
    ensures New(c, source) == RunUses(source, New(0, source).value, seq(c, i => Draw)).last
  {
    var g := New(0, source).value;
    TracksIffRebuilt(source, g);
    var uses := seq(c, i => Draw);
    DrawsOfDraws(uses);
    RunIsConsecutive(source, g, uses);
    NewSucceedsIff(c, source);
    var last := RunUses(source, g, uses).last;
    if last.Ok? {
      TracksIffRebuilt(source, last.value);
    }
  }

  lemma {:induction false} DrawsOfDraws(uses: seq<Use>)
    requires forall i :: 0 <= i < |uses| ==> uses[i] == Draw
    ensures Draws(uses) == |uses|
  {
    if uses != [] {
      DrawsOfDraws(uses[1..]);
    }
  }

  /** The object that sealing and opening keys wrap: the nonce is updated in place. */
  class GcmState {
    const key: bytes
    const nonce: array<byte>
    var counter: nat

    ghost predicate Valid()
      reads this
    {
      |key| == 16 && nonce.Length == 12
    }

    ghost function View(): (g: Gcm)
      requires Valid()
      reads this, nonce
    {
      Gcm(key, nonce[..], counter)
    }

    constructor (g: Gcm)
      requires g.Shaped()
      ensures Valid() && fresh(nonce) && View() == g
    {
      key := g.key;
      counter := g.counter;
      nonce := new byte[12](i requires 0 <= i < 12 => g.nonce[i]);
      new;
      assert nonce[..] == g.nonce;
    }

    /** Check the key material, start at the derived IV and skip `count` invocations. */
    static method Create(count: nat, source: KeySource) returns (r: Result<GcmState, CryptoError>)
      ensures r.Err? <==> New(count, source).Err?
      ensures r.Err? ==> r.error == New(count, source).error
      ensures r.Ok? ==> fresh(r.value) && fresh(r.value.nonce) && r.value.Valid()
                        && r.value.View() == New(count, source).value
    {
      if source.algorithm != Aes128Gcm {
        return Err(UnknownAlgorithm);
      }
      if |source.key| != 16 || |source.iv| != 12 {
        return Err(InvalidLength);
      }
      var state := new GcmState(Gcm(source.key, source.iv, 0));
      var moved := state.Advance(count);
      if moved.Err? {
        return Err(moved.error);
      }
      return Ok(state);
    }

    method Advance(delta: nat) returns (r: Result<(), CryptoError>)
      requires Valid()
      modifies this`counter, nonce
      ensures Valid()
      ensures r == match Increment(old(View()), delta) { case Ok(_) => Ok(()) case Err(e) => Err(e) }
      ensures View() == match Increment(old(View()), delta) { case Ok(g) => g case Err(_) => old(View()) }
    {
      ghost var before := View();
      var next := FromBE(nonce[4..]) + delta;
      assert nonce[4..] == nonce[..][4..];
      if next >= U64 {
        return Err(NonceOverflow);
      }
      var low := ToBE(next, 8);
      for i := 0 to 8
        invariant counter == old(counter)
        invariant nonce[..4 + i] == old(nonce[..4]) + low[..i]
      {
        nonce[4 + i] := low[i];
      }
      assert nonce[..] == before.nonce[..4] + low;
      counter := counter + delta;
      return Ok(());
    }

    method Next() returns (r: Result<bytes, CryptoError>)
      requires Valid()
      modifies this`counter, nonce
      ensures Valid()
      ensures r == match NextNonce(old(View())) { case Ok(p) => Ok(p.0) case Err(e) => Err(e) }
      ensures View() == match NextNonce(old(View())) { case Ok(p) => p.1 case Err(_) => old(View()) }
    {
      var current := nonce[..];
      var moved := Advance(1);
      if moved.Err? {
        return Err(moved.error);
      }
      return Ok(current);
    }
  }
}
