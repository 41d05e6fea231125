/** The native compute pipeline (`run_crypto_pipeline`, hypertile-sys/src/lib.rs:250-266): a 64-bit
    FNV-1a hash of the payload, rounds of mixing, and four output slots written in rotation. */
module Pipeline {

  type Word = bv64
  type Byte = bv8

  const OFFSET_BASIS: Word := 0xcbf29ce484222325
  const PRIME: Word := 0x100000001b3
  const ROUND_KEY: Word := 0x517cc1b727220a95
  const ROUND_ADD: Word := 0x9e3779b97f4a7c15

  /** FNV-1a, 64 bits (section 2 of draft-eastlake-fnv). */
  function Fnv(data: seq<Byte>): Word
  {
    if data == [] then OFFSET_BASIS
    else Absorb(Fnv(data[..|data| - 1]), data[|data| - 1])
  }

  /** One byte of the hash: exclusive-or, then multiply modulo 2^64. */
  function Absorb(h: Word, b: Byte): Word
  {
    (h ^ (b as Word)) * PRIME
  }

  /** `(r as u64).wrapping_mul(..)`. */
  function RoundKey(r: nat): Word
  {
    AsU64(r) * ROUND_KEY
  }

  /** `r as u64`: counting modulo 2^64. */
  function AsU64(r: nat): Word
  {
    if r == 0 then 0 else AsU64(r - 1) + 1
  }

  function Mix(w: Word, key: Word): Word { w.RotateLeft(13) ^ key }

  function Unmix(w: Word, key: Word): Word { (w ^ key).RotateRight(13) }

  function Shift(w: Word): Word { w + ROUND_ADD }

  function Unshift(w: Word): Word { w - ROUND_ADD }

  /** One round, and its inverse. */
  function Round(state: Word, key: Word): Word { Shift(Mix(state, key)) }

  function Unround(state: Word, key: Word): Word { Unmix(Unshift(state), key) }

  lemma MixBack(w: Word, key: Word)
    ensures Unmix(Mix(w, key), key) == w && Mix(Unmix(w, key), key) == w
  {
  }

  lemma ShiftBack(w: Word)
    ensures Unshift(Shift(w)) == w && Shift(Unshift(w)) == w
  {
  }

  /** Every round is a bijection on 64-bit words. */
  lemma RoundIsBijective(state: Word, key: Word)
    ensures Unround(Round(state, key), key) == state
    ensures Round(Unround(state, key), key) == state
  {
    ShiftBack(Mix(state, key));
    MixBack(state, key);
    ShiftBack(state);
    MixBack(Unshift(state), key);
  }

  /** The state after the first `n` rounds. */
  function Rounds(state: Word, n: nat): Word
  {
    if n == 0 then state else Round(Rounds(state, n - 1), RoundKey(n - 1))
  }

  lemma {:induction false} RoundsInjective(a: Word, b: Word, n: nat)
    requires Rounds(a, n) == Rounds(b, n)
    ensures a == b
  {
    if n > 0 {
      RoundIsBijective(Rounds(a, n - 1), RoundKey(n - 1));
      RoundIsBijective(Rounds(b, n - 1), RoundKey(n - 1));
      RoundsInjective(a, b, n - 1);
    }
  }

  function LowByte(w: Word): Byte
  {
    (w & 0xff) as Byte
  }

  /** `to_le_bytes`. */
  function LeBytes(w: Word): (bs: seq<Byte>)
    ensures |bs| == 8
  {
    [LowByte(w), LowByte(w >> 8), LowByte(w >> 16), LowByte(w >> 24),
     LowByte(w >> 32), LowByte(w >> 40), LowByte(w >> 48), LowByte(w >> 56)]
  }

  lemma LowByteInjective(a: Word, b: Word)
    requires LowByte(a) == LowByte(b)
    ensures a & 0xff == b & 0xff
  {
  }

  lemma WordsFromBytes(a: Word, b: Word)
    requires a & 0xff == b & 0xff && (a >> 8) & 0xff == (b >> 8) & 0xff
    requires (a >> 16) & 0xff == (b >> 16) & 0xff && (a >> 24) & 0xff == (b >> 24) & 0xff
    requires (a >> 32) & 0xff == (b >> 32) & 0xff && (a >> 40) & 0xff == (b >> 40) & 0xff
    requires (a >> 48) & 0xff == (b >> 48) & 0xff && (a >> 56) & 0xff == (b >> 56) & 0xff
    ensures a == b
  {
  }

  /** The byte form of a word determines it. */
  lemma LeBytesInjective(a: Word, b: Word)
    requires LeBytes(a) == LeBytes(b)
    ensures a == b
  {
    var p, q := LeBytes(a), LeBytes(b);
    assert p[0] == q[0] && p[1] == q[1] && p[2] == q[2] && p[3] == q[3];
    assert p[4] == q[4] && p[5] == q[5] && p[6] == q[6] && p[7] == q[7];
    LowByteInjective(a, b);
    LowByteInjective(a >> 8, b >> 8);
    LowByteInjective(a >> 16, b >> 16);
    LowByteInjective(a >> 24, b >> 24);
    LowByteInjective(a >> 32, b >> 32);
    LowByteInjective(a >> 40, b >> 40);
    LowByteInjective(a >> 48, b >> 48);
    LowByteInjective(a >> 56, b >> 56);
    WordsFromBytes(a, b);
  }

  // --- the output slots -----------------------------------------------------------------------

  /** Round `r` is written to slot `k`. */
  predicate Writes(r: nat, k: nat) { r % 16 == 4 * k }

  /** One more than the last round below `n` that is written to slot `k`; 0 if there is none. */
  function LastWrite(n: nat, k: nat): (r: nat)
    ensures r <= n
    ensures r > 0 ==> Writes(r - 1, k)
    ensures forall q :: r <= q < n ==> !Writes(q, k)
  {
    if n == 0 then 0 else if Writes(n - 1, k) then n else LastWrite(n - 1, k)
  }

  const ZEROS: seq<Byte> := [0, 0, 0, 0, 0, 0, 0, 0]

  /** What slot `k` holds after `n` rounds from `hash`: the state just after its last write. */
  function SlotAfter(hash: Word, n: nat, k: nat): (bs: seq<Byte>)
    ensures |bs| == 8
  {
    var r := LastWrite(n, k);
    if r == 0 then ZEROS else LeBytes(Rounds(hash, r))
  }

  function OutputOf(hash: Word, n: nat): (out: seq<Byte>)
    ensures |out| == 32
  {
    SlotAfter(hash, n, 0) + SlotAfter(hash, n, 1) + SlotAfter(hash, n, 2) + SlotAfter(hash, n, 3)
  }

  lemma SlotOfRound(r: nat, k: nat)
    requires k < 4
    ensures Writes(r, k) <==> r % 4 == 0 && (r / 4) % 4 == k
  {
    var q, m := r / 16, r % 16;
    assert r == 16 * q + m;
    assert r % 4 == m % 4 by { assert r == 4 * (4 * q) + m; ModAdd(4 * q, m, 4); }
    if m % 4 == 0 {
      assert r / 4 == 4 * q + m / 4;
      ModAdd(q, m / 4, 4);
    }
  }

  lemma ModAdd(q: nat, m: nat, n: nat)
    requires n == 4
    ensures (n * q + m) % n == m % n
  {
  }

  /** The hashing loop. */
  method HashPayload(data: seq<Byte>) returns (state: Word)
    ensures state == Fnv(data)
  {
    state := OFFSET_BASIS;
    for i := 0 to |data|
      invariant state == Fnv(data[..i])
    {
      assert data[..i + 1][..i] == data[..i];
      state := Absorb(state, data[i]);
    }
    assert data[..|data|] == data;
  }

  /** Slot `k` of the buffer holds what `n` rounds have left there. */
  ghost predicate HoldsSlot(out: seq<Byte>, hash: Word, n: nat, k: nat)
    requires |out| == 32 && k < 4
  {
    out[8 * k..8 * k + 8] == SlotAfter(hash, n, k)
  }

  ghost predicate HoldsSlots(out: seq<Byte>, hash: Word, n: nat)
    requires |out| == 32
  {
    HoldsSlot(out, hash, n, 0) && HoldsSlot(out, hash, n, 1) && HoldsSlot(out, hash, n, 2)
    && HoldsSlot(out, hash, n, 3)
  }

  /** Slot `k` after a round `r` that ended with these bytes: written, or left alone. */
  predicate SlotWritten(before: seq<Byte>, after: seq<Byte>, bytes: seq<Byte>, r: nat, k: nat)
    requires |before| == |after| == 32 && k < 4
  {
    after[8 * k..8 * k + 8] == if r % 4 == 0 && (r / 4) % 4 == k then bytes else before[8 * k..8 * k + 8]
  }

  lemma NextSlot(before: seq<Byte>, after: seq<Byte>, bytes: seq<Byte>, hash: Word, r: nat, k: nat)
    requires |before| == |after| == 32 && k < 4 && HoldsSlot(before, hash, r, k)
    requires bytes == LeBytes(Rounds(hash, r + 1)) && SlotWritten(before, after, bytes, r, k)
    ensures HoldsSlot(after, hash, r + 1, k)
  {
    SlotOfRound(r, k);
  }

  /** The end of a round: every fourth state goes to its slot. */
  method WriteRound(buffer: array<Byte>, bytes: seq<Byte>, r: nat)
    requires buffer.Length == 32 && |bytes| == 8
    modifies buffer
    ensures SlotWritten(old(buffer[..]), buffer[..], bytes, r, 0)
    ensures SlotWritten(old(buffer[..]), buffer[..], bytes, r, 1)
    ensures SlotWritten(old(buffer[..]), buffer[..], bytes, r, 2)
    ensures SlotWritten(old(buffer[..]), buffer[..], bytes, r, 3)
  {
    if r % 4 == 0 {
      CopySlot(buffer, (r / 4) % 4, bytes);
    }
  }

  lemma NextSlots(before: seq<Byte>, after: seq<Byte>, bytes: seq<Byte>, hash: Word, r: nat)
    requires |before| == |after| == 32 && HoldsSlots(before, hash, r) && bytes == LeBytes(Rounds(hash, r + 1))
    requires SlotWritten(before, after, bytes, r, 0) && SlotWritten(before, after, bytes, r, 1)
    requires SlotWritten(before, after, bytes, r, 2) && SlotWritten(before, after, bytes, r, 3)
    ensures HoldsSlots(after, hash, r + 1)
  {
    NextSlot(before, after, bytes, hash, r, 0);
    NextSlot(before, after, bytes, hash, r, 1);
    NextSlot(before, after, bytes, hash, r, 2);
    NextSlot(before, after, bytes, hash, r, 3);
  }

  lemma SlotsMakeOutput(out: seq<Byte>, hash: Word, n: nat)
    requires |out| == 32 && HoldsSlots(out, hash, n)
    ensures out == OutputOf(hash, n)
  {
    assert out == out[0..8] + out[8..16] + out[16..24] + out[24..32];
  }

  lemma Blank(out: seq<Byte>, hash: Word)
    requires |out| == 32 && forall i :: 0 <= i < 32 ==> out[i] == 0
    ensures HoldsSlots(out, hash, 0)
  {
  }

  /** The mixing loop writes the state of every fourth round into the four slots in rotation. */
  method MixRounds(hash: Word, rounds: nat) returns (out: seq<Byte>)
    ensures out == OutputOf(hash, rounds)
  {
    var state := hash;
    var buffer := new Byte[32](_ => 0);
    Blank(buffer[..], hash);
    for r := 0 to rounds
      invariant state == Rounds(hash, r)
      invariant HoldsSlots(buffer[..], hash, r)
    {
      state := Round(state, RoundKey(r));
      ghost var before := buffer[..];
      var bytes := LeBytes(state);
      WriteRound(buffer, bytes, r);
      NextSlots(before, buffer[..], bytes, hash, r);
    }
    out := buffer[..];
    SlotsMakeOutput(out, hash, rounds);
  }

  method RunCryptoPipeline(data: seq<Byte>, rounds: nat) returns (out: seq<Byte>)
    ensures out == OutputOf(Fnv(data), rounds)
  {
    var state := HashPayload(data);
    out := MixRounds(state, rounds);
  }

  /** `out[slot * 8..(slot + 1) * 8].copy_from_slice(..)`. */
  method CopySlot(buffer: array<Byte>, slot: nat, bytes: seq<Byte>)
    requires buffer.Length == 32 && slot < 4 && |bytes| == 8
    modifies buffer
    ensures buffer[..][8 * slot..8 * slot + 8] == bytes
    ensures forall k :: 0 <= k < 4 && k != slot ==>
              buffer[..][8 * k..8 * k + 8] == old(buffer[..])[8 * k..8 * k + 8]
  {
    for i := 0 to 8
      invariant forall j :: 0 <= j < i ==> buffer[8 * slot + j] == bytes[j]
      invariant forall j :: 0 <= j < 32 && !(8 * slot <= j < 8 * slot + 8) ==> buffer[j] == old(buffer[j])
    {
      buffer[8 * slot + i] := bytes[i];
    }
  }

  lemma FirstSlot(a: Word, b: Word, rounds: nat)
    requires OutputOf(a, rounds) == OutputOf(b, rounds)
    ensures SlotAfter(a, rounds, 0) == SlotAfter(b, rounds, 0)
  {
    assert SlotAfter(a, rounds, 0) == OutputOf(a, rounds)[..8];
    assert SlotAfter(b, rounds, 0) == OutputOf(b, rounds)[..8];
  }

  lemma FirstSlotIsWritten(rounds: nat)
    requires rounds >= 1
    ensures LastWrite(rounds, 0) > 0
  {
    assert Writes(0, 0);
  }

  lemma EqualOutputsMeanEqualStates(a: Word, b: Word, rounds: nat)
    requires rounds >= 1 && OutputOf(a, rounds) == OutputOf(b, rounds)
    ensures a == b
  {
    var r := LastWrite(rounds, 0);
    FirstSlotIsWritten(rounds);
    FirstSlot(a, b, rounds);
    LeBytesInjective(Rounds(a, r), Rounds(b, r));
    RoundsInjective(a, b, r);
  }

  lemma LastWriteIs(rounds: nat, k: nat, r: nat)
    requires r < rounds && r % 16 == 4 * k
    requires forall q :: r < q < rounds ==> q % 16 != 4 * k
    ensures LastWrite(rounds, k) == r + 1
  {
    assert Writes(r, k);
  }

  lemma SlotSlice(hash: Word, n: nat, k: nat)
    requires k < 4
    ensures OutputOf(hash, n)[8 * k..8 * k + 8] == SlotAfter(hash, n, k)
  {
    Slice(seq(4, i requires 0 <= i < 4 => SlotAfter(hash, n, i)), k);
  }

  lemma Slice(slots: seq<seq<Byte>>, k: nat)
    requires |slots| == 4 && k < 4 && forall i :: 0 <= i < 4 ==> |slots[i]| == 8
    ensures (slots[0] + slots[1] + slots[2] + slots[3])[8 * k..8 * k + 8] == slots[k]
  {
  }

  /** Slot `k` of the output is the little-endian state just after the last round `r < rounds` with
      `r mod 16 = 4k`. */
  lemma SlotHoldsLastRound(hash: Word, rounds: nat, k: nat, r: nat)
    requires k < 4 && r < rounds && r % 16 == 4 * k
    requires forall q :: r < q < rounds ==> q % 16 != 4 * k
    ensures OutputOf(hash, rounds)[8 * k..8 * k + 8] == LeBytes(Rounds(hash, r + 1))
  {
    LastWriteIs(rounds, k, r);
    SlotSlice(hash, rounds, k);
  }

  /** With the same number of rounds, at least one, two payloads give the same output exactly when
      their FNV-1a hashes are equal. */
  lemma EqualOutputsIffEqualHashes(data: seq<Byte>, other: seq<Byte>, rounds: nat)
    requires rounds >= 1
    ensures OutputOf(Fnv(data), rounds) == OutputOf(Fnv(other), rounds) <==> Fnv(data) == Fnv(other)
  {
    if OutputOf(Fnv(data), rounds) == OutputOf(Fnv(other), rounds) {
      EqualOutputsMeanEqualStates(Fnv(data), Fnv(other), rounds);
    }
  }

  // --- known answers --------------------------------------------------------------------------

  /** FNV-1a of the empty payload, of "a", and of "fo". */
  lemma KnownHashes()
    ensures Fnv([]) == 0xcbf29ce484222325
    ensures Fnv([0x61]) == 0xaf63dc4c8601ec8c
    ensures Fnv([0x66, 0x6f]) == 0x8985907b541d342
  {
    var a: seq<Byte> := [0x61];
    assert Fnv(a) == Absorb(Fnv(a[..0]), 0x61);
    var f: seq<Byte> := [0x66];
    assert Fnv(f) == Absorb(Fnv(f[..0]), 0x66) == 0xaf63db4c8601ead9;
    var fo: seq<Byte> := [0x66, 0x6f];
    assert fo[..1] == f;
    assert Fnv(fo) == Absorb(Fnv(f), 0x6f);
  }

  /** The round keys of the first five rounds; the last product wraps around. */
  lemma KnownKeys()
    ensures RoundKey(0) == 0x0
    ensures RoundKey(1) == 0x517cc1b727220a95
    ensures RoundKey(2) == 0xa2f9836e4e44152a
    ensures RoundKey(3) == 0xf476452575661fbf
    ensures RoundKey(4) == 0x45f306dc9c882a54
  {
    assert AsU64(1) == 1;
    assert AsU64(2) == 2;
    assert AsU64(3) == 3;
    assert AsU64(4) == 4;
  }

  lemma KnownRounds()
    ensures Round(0xaf63dc4c8601ec8c, 0x0) == 0x19c10a79bcdc1201
    ensures Round(0x19c10a79bcdc1201, 0x517cc1b727220a95) == 0xe6b6fe624aca5c2
    ensures Round(0xe6b6fe624aca5c2, 0xa2f9836e4e44152a) == 0x6d3cc1b55a46d0fc
    ensures Round(0x6d3cc1b55a46d0fc, 0xf476452575661fbf) == 0xa7868272ec40e2d
    ensures Round(0xa7868272ec40e2d, 0x45f306dc9c882a54) == 0xe72f5cbd9c980730
  {
  }

  /** The states after one and after five rounds from the hash of "a". */
  lemma KnownStates()
    ensures Rounds(0xaf63dc4c8601ec8c, 1) == 0x19c10a79bcdc1201
    ensures Rounds(0xaf63dc4c8601ec8c, 5) == 0xe72f5cbd9c980730
  {
    KnownKeys();
    KnownRounds();
    var w: Word := 0xaf63dc4c8601ec8c;
    NextRound(w, 0);
    NextRound(w, 1);
    NextRound(w, 2);
    NextRound(w, 3);
    NextRound(w, 4);
  }

  lemma NextRound(w: Word, r: nat)
    ensures Rounds(w, r + 1) == Round(Rounds(w, r), RoundKey(r))
    ensures Rounds(w, 0) == w
  {
  }

  lemma KnownBytes()
    ensures LeBytes(0x19c10a79bcdc1201) == [0x01, 0x12, 0xdc, 0xbc, 0x79, 0x0a, 0xc1, 0x19]
    ensures LeBytes(0xe72f5cbd9c980730) == [0x30, 0x07, 0x98, 0x9c, 0xbd, 0x5c, 0x2f, 0xe7]
  {
  }

  /** The output for "a" after one round, and after five: the second slot is written in round 4. */
  lemma KnownOutputs()
    ensures OutputOf(Fnv([0x61]), 1) == [0x01, 0x12, 0xdc, 0xbc, 0x79, 0x0a, 0xc1, 0x19] + ZEROS + ZEROS + ZEROS
    ensures OutputOf(Fnv([0x61]), 5)
         == [0x01, 0x12, 0xdc, 0xbc, 0x79, 0x0a, 0xc1, 0x19] + [0x30, 0x07, 0x98, 0x9c, 0xbd, 0x5c, 0x2f, 0xe7] + ZEROS + ZEROS
  {
    KnownHashes();
    KnownStates();
    KnownBytes();
    assert Writes(0, 0) && Writes(4, 1);
    assert LastWrite(1, 0) == 1 && LastWrite(1, 1) == LastWrite(1, 2) == LastWrite(1, 3) == 0;
    KnownSlots();
  }

  lemma KnownSlots()
    ensures LastWrite(5, 0) == 1 && LastWrite(5, 1) == 5 && LastWrite(5, 2) == 0 && LastWrite(5, 3) == 0
  {
    forall k | 0 <= k < 4
      ensures !Writes(1, k) && !Writes(2, k) && !Writes(3, k)
    {
    }
    LastWriteIs(5, 0, 0);
    LastWriteIs(5, 1, 4);
  }
}
