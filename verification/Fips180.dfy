/**
  The SHA-1 algorithm as FIPS 180-4 specifies it, on whole bytes: padding (section 5.1.1),
  parsing into blocks (section 5.2.1), the initial value (section 5.3.1) and the
  computation of section 6.1.2.
 */
module Fips180 {

  // ---------- words and bytes (section 3.1: big-endian) ----------

  /** A byte at position k of its word, position 0 being the most significant one. */
  function Placed(b: bv8, k: nat): bv32
    requires k < 4
  {
    if k == 0 then (b as bv32) << 24
    else if k == 1 then (b as bv32) << 16
    else if k == 2 then (b as bv32) << 8
    else b as bv32
  }

  function Or4(w0: bv32, w1: bv32, w2: bv32, w3: bv32): bv32 { w0 | w1 | w2 | w3 }

  function WordOf(b0: bv8, b1: bv8, b2: bv8, b3: bv8): bv32 {
    Or4(Placed(b0, 0), Placed(b1, 1), Placed(b2, 2), Placed(b3, 3))
  }

  /** Byte k of a word, the most significant one first. */
  function ByteOf(w: bv32, k: nat): bv8
    requires k < 4
  {
    if k == 0 then ((w >> 24) & 0xFF) as bv8
    else if k == 1 then ((w >> 16) & 0xFF) as bv8
    else if k == 2 then ((w >> 8) & 0xFF) as bv8
    else (w & 0xFF) as bv8
  }

  function BytesOf(w: bv32): (s: seq<bv8>)
    ensures |s| == 4
  {
    seq(4, k requires 0 <= k < 4 => ByteOf(w, k))
  }

  /** The big-endian bytes of a word spell that word, so words and byte quadruples are the same thing. */
  lemma BytesSpellWord(w: bv32)
    ensures WordOf(ByteOf(w, 0), ByteOf(w, 1), ByteOf(w, 2), ByteOf(w, 3)) == w
  {
    SpellBits(w);
  }

  lemma SpellBits(w: bv32)
    ensures Or4((((w >> 24) & 0xFF) as bv8 as bv32) << 24, (((w >> 16) & 0xFF) as bv8 as bv32) << 16,
                (((w >> 8) & 0xFF) as bv8 as bv32) << 8, (w & 0xFF) as bv8 as bv32) == w
  {
  }

  // ---------- padding (section 5.1.1) ----------

  function Zeros(n: nat): (s: seq<bv8>)
    ensures |s| == n && forall i :: 0 <= i < n ==> s[i] == 0
  {
    seq(n, _ => 0)
  }

  /** The number of zero bytes z with length + 1 + z congruent to 56 modulo 64. */
  function ZeroBytes(length: nat): (z: nat)
    ensures z < 64 && (length + 1 + z) % 64 == 56
  {
    (119 - length % 64) % 64
  }

  /** The message length in bits, as a 64-bit big-endian block. */
  function LengthField(bits: nat): (s: seq<bv8>)
    requires bits < 0x1_0000_0000_0000_0000
    ensures |s| == 8
  {
    BytesOf((bits / 0x1_0000_0000) as bv32) + BytesOf((bits % 0x1_0000_0000) as bv32)
  }

  /** The message, the bit 1 and the zero bits: everything but the length. */
  function Closed(message: seq<bv8>): (p: seq<bv8>)
    ensures |p| % 64 == 56
  {
    message + [0x80] + Zeros(ZeroBytes(|message|))
  }

  lemma PaddedLength(n: nat)
    requires n % 64 == 56
    ensures (n + 8) % 64 == 0
  {
  }

  function Pad(message: seq<bv8>): (p: seq<bv8>)
    requires 8 * |message| < 0x1_0000_0000_0000_0000
    ensures |p| % 64 == 0
  {
    PaddedLength(|Closed(message)|);
    Closed(message) + LengthField(8 * |message|)
  }

  // ---------- functions and constants (sections 4.1.1, 4.2.1, 5.3.1) ----------

  function Rotl(n: nat, x: bv32): bv32
    requires 0 < n < 32
  {
    (x << n) | (x >> (32 - n))
  }

  function Ch(x: bv32, y: bv32, z: bv32): bv32 { (x & y) ^ (!x & z) }

  function Parity(x: bv32, y: bv32, z: bv32): bv32 { x ^ y ^ z }

  function Maj(x: bv32, y: bv32, z: bv32): bv32 { (x & y) ^ (x & z) ^ (y & z) }

  function F(t: nat, x: bv32, y: bv32, z: bv32): bv32 {
    if t < 20 then Ch(x, y, z)
    else if t < 40 then Parity(x, y, z)
    else if t < 60 then Maj(x, y, z)
    else Parity(x, y, z)
  }

  function K(t: nat): bv32 {
    if t < 20 then 0x5a827999
    else if t < 40 then 0x6ed9eba1
    else if t < 60 then 0x8f1bbcdc
    else 0xca62c1d6
  }

  datatype Hash = Hash(a: bv32, b: bv32, c: bv32, d: bv32, e: bv32)

  const H0 := Hash(0x67452301, 0xefcdab89, 0x98badcfe, 0x10325476, 0xc3d2e1f0)

  // ---------- the computation (section 6.1.2) ----------

  type Block = m: seq<bv32> | |m| == 16 witness seq(16, _ => 0)

  /** The message schedule W(t). */
  function Schedule(m: Block, t: nat): bv32 {
    if t < 16 then m[t]
    else NextWord(Schedule(m, t - 3), Schedule(m, t - 8), Schedule(m, t - 14), Schedule(m, t - 16))
  }

  function NextWord(w3: bv32, w8: bv32, w14: bv32, w16: bv32): bv32 { Rotl(1, w3 ^ w8 ^ w14 ^ w16) }

  /** The value T of step 3. */
  function T(a: bv32, f: bv32, e: bv32, k: bv32, w: bv32): bv32 { Rotl(5, a) + f + e + k + w }

  /** Step 3 of the computation: the working variables move on by one round. */
  function Update(h: Hash, f: bv32, k: bv32, w: bv32): Hash {
    Hash(T(h.a, f, h.e, k, w), h.a, Rotl(30, h.b), h.c, h.d)
  }

  function Round(h: Hash, t: nat, w: bv32): Hash {
    Update(h, F(t, h.b, h.c, h.d), K(t), w)
  }

  /** The working variables after t rounds. */
  function Rounds(h: Hash, m: Block, t: nat): Hash {
    if t == 0 then h else Round(Rounds(h, m, t - 1), t - 1, Schedule(m, t - 1))
  }

  function Compress(h: Hash, m: Block): Hash {
    Sum(Rounds(h, m, 80), h)
  }

  /** Step 4: word by word, modulo 2^32. */
  function Sum(r: Hash, h: Hash): Hash {
    Hash(Add(r.a, h.a), Add(r.b, h.b), Add(r.c, h.c), Add(r.d, h.d), Add(r.e, h.e))
  }

  function Add(x: bv32, y: bv32): bv32 { x + y }

  function WordAt(s: seq<bv8>, i: nat): bv32
    requires 4 * i + 3 < |s|
  {
    WordOf(s[4 * i], s[4 * i + 1], s[4 * i + 2], s[4 * i + 3])
  }

  function BlockOf(s: seq<bv8>): (m: Block)
    requires |s| == 64
  {
    seq(16, i requires 0 <= i < 16 => WordAt(s, i))
  }

  function HashBlocks(h: Hash, s: seq<bv8>): Hash
    requires |s| % 64 == 0
    decreases |s|
  {
    if |s| == 0 then h else HashBlocks(Compress(h, BlockOf(s[..64])), s[64..])
  }

  function Digest(h: Hash): (s: seq<bv8>)
    ensures |s| == 20
  {
    BytesOf(h.a) + BytesOf(h.b) + BytesOf(h.c) + BytesOf(h.d) + BytesOf(h.e)
  }

  function Sha1(message: seq<bv8>): seq<bv8>
    requires 8 * |message| < 0x1_0000_0000_0000_0000
  {
    Digest(HashBlocks(H0, Pad(message)))
  }

  /** Hashing a concatenation of whole blocks is hashing the parts one after the other. */
  lemma {:induction false} HashBlocksAppend(h: Hash, s: seq<bv8>, t: seq<bv8>)
    requires |s| % 64 == 0 && |t| % 64 == 0
    ensures HashBlocks(h, s + t) == HashBlocks(HashBlocks(h, s), t)
    decreases |s|
  {
    if |s| == 0 {
      assert s + t == t;
    } else {
      assert (s + t)[..64] == s[..64];
      assert (s + t)[64..] == s[64..] + t;
      HashBlocksAppend(Compress(h, BlockOf(s[..64])), s[64..], t);
    }
  }

  /** Hashing one block. */
  lemma HashBlocksOne(h: Hash, s: seq<bv8>)
    requires |s| == 64
    ensures HashBlocks(h, s) == Compress(h, BlockOf(s))
  {
    assert s[..64] == s;
    assert s[64..] == [];
  }
}
