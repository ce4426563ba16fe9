/**
  The packer's own SHA-1 (packer.cpp): five unrolled loops over an 80-word array that is
  extended in place, its own blocking and padding, and a big-endian writer.
  It computes exactly what FIPS 180-4 computes.
 */
module PackerSha1 {
  import opened Fips180

  // ---------- the round functions as the packer writes them ----------

  function Choose(b: bv32, c: bv32, d: bv32): bv32 { (b & c) | (!b & d) }

  function Majority(b: bv32, c: bv32, d: bv32): bv32 { (b & c) | (b & d) | (c & d) }

  lemma ChooseIsCh(b: bv32, c: bv32, d: bv32)
    ensures Choose(b, c, d) == Ch(b, c, d)
  {
    assert (b & c) & (!b & d) == 0;
  }

  lemma MajorityIsMaj(b: bv32, c: bv32, d: bv32)
    ensures Majority(b, c, d) == Maj(b, c, d)
  {
    MajorityBits(b, c, d);
  }

  lemma MajorityBits(b: bv32, c: bv32, d: bv32)
    ensures (b & c) | (b & d) | (c & d) == (b & c) ^ (b & d) ^ (c & d)
  {
  }

  /** The words the array holds once `round` rounds have run: the schedule so far, the block first. */
  ghost predicate Scheduled(temp: seq<bv32>, m: Block, round: nat) {
    && |temp| == 80
    && round <= 80
    && (forall i :: 0 <= i < 16 ==> temp[i] == m[i])
    && (forall i :: 0 <= i < round ==> temp[i] == Schedule(m, i))
  }

  method NewA(a: bv32, f: bv32, e: bv32, v: bv32, w: bv32) returns (t: bv32)
    ensures t == T(a, f, e, v, w)
  {
    t := Rotl(5, a) + f + e + v + w;
  }

  /** The _shiftswap macro: the five working variables are reassigned one after the other. */
  method ShiftSwap(r: Hash, f: bv32, v: bv32, w: bv32) returns (next: Hash)
    ensures next == Update(r, f, v, w)
  {
    var a, b, c, d, e := r.a, r.b, r.c, r.d, r.e;
    var t := NewA(a, f, e, v, w);
    e := d;
    d := c;
    c := Rotl(30, b);
    b := a;
    a := t;
    next := Hash(a, b, c, d, e);
  }

  lemma ChooseRound(h: Hash, t: nat, w: bv32)
    requires t < 20
    ensures Update(h, Choose(h.b, h.c, h.d), 0x5a827999, w) == Round(h, t, w)
  {
    ChooseIsCh(h.b, h.c, h.d);
  }

  lemma ParityRound(h: Hash, t: nat, v: bv32, w: bv32)
    requires (20 <= t < 40 && v == 0x6ed9eba1) || (60 <= t < 80 && v == 0xca62c1d6)
    ensures Update(h, h.b ^ h.c ^ h.d, v, w) == Round(h, t, w)
  {
  }

  lemma MajorityRound(h: Hash, t: nat, w: bv32)
    requires 40 <= t < 60
    ensures Update(h, Majority(h.b, h.c, h.d), 0x8f1bbcdc, w) == Round(h, t, w)
  {
    MajorityIsMaj(h.b, h.c, h.d);
  }

  method NewWord(w3: bv32, w8: bv32, w14: bv32, w16: bv32) returns (w: bv32)
    ensures w == NextWord(w3, w8, w14, w16)
  {
    w := Rotl(1, w3 ^ w8 ^ w14 ^ w16);
  }

  /** The schedule step at the head of _shiftshiftswap. */
  method Extend(temp: array<bv32>, round: nat, ghost m: Block)
    requires temp.Length == 80 && 16 <= round < 80
    requires Scheduled(temp[..], m, round)
    modifies temp
    ensures Scheduled(temp[..], m, round + 1)
  {
    temp[round] := NewWord(temp[round - 3], temp[round - 8], temp[round - 14], temp[round - 16]);
  }

  /** The first sixteen rounds, on the block itself. */
  method BlockRounds(temp: array<bv32>, h: Hash, ghost m: Block) returns (r: Hash)
    requires temp.Length == 80 && temp[..16] == m
    ensures r == Rounds(h, m, 16)
  {
    r := h;
    var round := 0;
    while round < 16
      invariant round <= 16 && r == Rounds(h, m, round)
    {
      ChooseRound(r, round, temp[round]);
      assert temp[round] == temp[..16][round];
      r := ShiftSwap(r, Choose(r.b, r.c, r.d), 0x5a827999, temp[round]);
      round := round + 1;
    }
  }

  method ChooseRounds(temp: array<bv32>, start: Hash, ghost h: Hash, ghost m: Block) returns (r: Hash)
    requires temp.Length == 80 && Scheduled(temp[..], m, 16) && start == Rounds(h, m, 16)
    modifies temp
    ensures Scheduled(temp[..], m, 20) && r == Rounds(h, m, 20)
  {
    r := start;
    var round := 16;
    while round < 20
      invariant 16 <= round <= 20 && r == Rounds(h, m, round)
      invariant Scheduled(temp[..], m, round)
    {
      Extend(temp, round, m);
      ChooseRound(r, round, temp[round]);
      r := ShiftSwap(r, Choose(r.b, r.c, r.d), 0x5a827999, temp[round]);
      round := round + 1;
    }
  }

  /** The two stages that use b ^ c ^ d: rounds 20 to 39 and rounds 60 to 79. */
  method ParityRounds(temp: array<bv32>, start: Hash, from: nat, v: bv32, ghost h: Hash, ghost m: Block)
    returns (r: Hash)
    requires temp.Length == 80 && Scheduled(temp[..], m, from) && start == Rounds(h, m, from)
    requires (from == 20 && v == 0x6ed9eba1) || (from == 60 && v == 0xca62c1d6)
    modifies temp
    ensures Scheduled(temp[..], m, from + 20) && r == Rounds(h, m, from + 20)
  {
    r := start;
    var round := from;
    while round < from + 20
      invariant from <= round <= from + 20 && r == Rounds(h, m, round)
      invariant Scheduled(temp[..], m, round)
    {
      Extend(temp, round, m);
      ParityRound(r, round, v, temp[round]);
      r := ShiftSwap(r, r.b ^ r.c ^ r.d, v, temp[round]);
      round := round + 1;
    }
  }

  method MajorityRounds(temp: array<bv32>, start: Hash, ghost h: Hash, ghost m: Block) returns (r: Hash)
    requires temp.Length == 80 && Scheduled(temp[..], m, 40) && start == Rounds(h, m, 40)
    modifies temp
    ensures Scheduled(temp[..], m, 60) && r == Rounds(h, m, 60)
  {
    r := start;
    var round := 40;
    while round < 60
      invariant 40 <= round <= 60 && r == Rounds(h, m, round)
      invariant Scheduled(temp[..], m, round)
    {
      Extend(temp, round, m);
      MajorityRound(r, round, temp[round]);
      r := ShiftSwap(r, Majority(r.b, r.c, r.d), 0x8f1bbcdc, temp[round]);
      round := round + 1;
    }
  }

  method PartHash(sha: array<bv32>, temp: array<bv32>)
    requires sha.Length == 5 && temp.Length == 80 && sha != temp
    modifies sha, temp
    ensures HashIn(sha[..]) == Compress(old(HashIn(sha[..])), old(temp[..16]))
  {
    ghost var m: Block := temp[..16];
    ghost var h := HashIn(sha[..]);
    var r := BlockRounds(temp, Hash(sha[0], sha[1], sha[2], sha[3], sha[4]), m);
    assert forall i :: 0 <= i < 16 ==> temp[i] == m[i];
    r := ChooseRounds(temp, r, h, m);
    r := ParityRounds(temp, r, 20, 0x6ed9eba1, h, m);
    r := MajorityRounds(temp, r, h, m);
    r := ParityRounds(temp, r, 60, 0xca62c1d6, h, m);
    AddTo(sha, r);
  }

  method AddTo(sha: array<bv32>, r: Hash)
    requires sha.Length == 5
    modifies sha
    ensures HashIn(sha[..]) == Sum(r, old(HashIn(sha[..])))
  {
    sha[0] := Add(r.a, sha[0]);
    sha[1] := Add(r.b, sha[1]);
    sha[2] := Add(r.c, sha[2]);
    sha[3] := Add(r.d, sha[3]);
    sha[4] := Add(r.e, sha[4]);
  }

  function HashIn(sha: seq<bv32>): Hash
    requires |sha| == 5
  {
    Hash(sha[0], sha[1], sha[2], sha[3], sha[4])
  }

  // ---------- blocks ----------

  /** Big-endian load of four bytes, the last one first as the packer writes it. */
  method LoadWord(b0: bv8, b1: bv8, b2: bv8, b3: bv8) returns (w: bv32)
    ensures w == WordOf(b0, b1, b2, b3)
  {
    w := (b3 as bv32) | ((b2 as bv32) << 8) | ((b1 as bv32) << 16) | ((b0 as bv32) << 24);
  }

  /** The block at data[block..block + 64], loaded into the first sixteen words. */
  method LoadBlock(data: seq<bv8>, block: nat, temp: array<bv32>)
    requires block + 64 <= |data| && temp.Length == 80
    modifies temp
    ensures temp[..16] == BlockOf(data[block..block + 64])
  {
    var i := 0;
    while i < 16
      invariant i <= 16
      invariant forall j :: 0 <= j < i ==> temp[j] == BlockOf(data[block..block + 64])[j]
    {
      var w := LoadWord(data[block + 4 * i], data[block + 4 * i + 1], data[block + 4 * i + 2], data[block + 4 * i + 3]);
      temp[i] := w;
      i := i + 1;
    }
  }

  method ClearBlock(temp: array<bv32>)
    requires temp.Length == 80
    modifies temp
    ensures temp[..16] == seq(16, _ => 0)
  {
    for j := 0 to 16
      invariant forall k :: 0 <= k < j ==> temp[k] == 0
    {
      temp[j] := 0;
    }
  }

  lemma OrZeros(w0: bv32, w1: bv32, w2: bv32, w: bv32)
    ensures 0 as bv32 | 0 | 0 | 0 == 0
    ensures (0 as bv32 | 0 | 0 | 0) | w == w | 0 | 0 | 0
    ensures (w0 | 0 | 0 | 0) | w == w0 | w | 0 | 0
    ensures (w0 | w1 | 0 | 0) | w == w0 | w1 | w | 0
    ensures (w0 | w1 | w2 | 0) | w == w0 | w1 | w2 | w
  {
  }

  lemma OrInto0(w: bv32)
    ensures Or4(0, 0, 0, 0) == 0 && Or4(0, 0, 0, 0) | w == Or4(w, 0, 0, 0)
  {
    OrZeros(0, 0, 0, w);
  }

  lemma OrInto1(w0: bv32, w: bv32)
    ensures Or4(w0, 0, 0, 0) | w == Or4(w0, w, 0, 0)
  {
    OrZeros(w0, 0, 0, w);
  }

  lemma OrInto2(w0: bv32, w1: bv32, w: bv32)
    ensures Or4(w0, w1, 0, 0) | w == Or4(w0, w1, w, 0)
  {
    OrZeros(w0, w1, 0, w);
  }

  lemma OrInto3(w0: bv32, w1: bv32, w2: bv32, w: bv32)
    ensures Or4(w0, w1, w2, 0) | w == Or4(w0, w1, w2, w)
  {
    OrZeros(w0, w1, w2, w);
  }

  lemma ZeroPlaced(k: nat)
    requires k < 4
    ensures Placed(0, k) == 0
  {
  }

  lemma ZeroWord()
    ensures WordOf(0, 0, 0, 0) == 0
  {
    ZeroPlaced(0);
    ZeroPlaced(1);
    ZeroPlaced(2);
    ZeroPlaced(3);
    OrInto0(0);
  }

  /** Or-ing a byte into position k of a word. */
  function Put(w: bv32, b: bv8, k: nat): bv32
    requires k < 4
  {
    w | Placed(b, k)
  }

  lemma PlaceIn0(b: bv8)
    ensures Put(WordOf(0, 0, 0, 0), b, 0) == WordOf(b, 0, 0, 0)
  {
    ZeroPlaced(0);
    ZeroPlaced(1);
    ZeroPlaced(2);
    ZeroPlaced(3);
    OrInto0(Placed(b, 0));
  }

  lemma PlaceIn1(b0: bv8, b: bv8)
    ensures Put(WordOf(b0, 0, 0, 0), b, 1) == WordOf(b0, b, 0, 0)
  {
    ZeroPlaced(1);
    ZeroPlaced(2);
    ZeroPlaced(3);
    OrInto1(Placed(b0, 0), Placed(b, 1));
  }

  lemma PlaceIn2(b0: bv8, b1: bv8, b: bv8)
    ensures Put(WordOf(b0, b1, 0, 0), b, 2) == WordOf(b0, b1, b, 0)
  {
    ZeroPlaced(2);
    ZeroPlaced(3);
    OrInto2(Placed(b0, 0), Placed(b1, 1), Placed(b, 2));
  }

  lemma PlaceIn3(b0: bv8, b1: bv8, b2: bv8, b: bv8)
    ensures Put(WordOf(b0, b1, b2, 0), b, 3) == WordOf(b0, b1, b2, b)
  {
    ZeroPlaced(3);
    OrInto3(Placed(b0, 0), Placed(b1, 1), Placed(b2, 2), Placed(b, 3));
  }

  /** Where the bytes from k on are zero, that makes it byte k. */
  lemma PlaceInWord(c: seq<bv8>, k: nat, b: bv8)
    requires |c| == 4 && k < 4 && forall i :: k <= i < 4 ==> c[i] == 0
    ensures WordAt(c[k := b], 0) == Put(WordAt(c, 0), b, k)
  {
    if k == 0 {
      PlaceIn0(b);
    } else if k == 1 {
      PlaceIn1(c[0], b);
    } else if k == 2 {
      PlaceIn2(c[0], c[1], b);
    } else {
      PlaceIn3(c[0], c[1], c[2], b);
    }
  }

  /** A buffer of `s` followed by zero bytes up to 64. */
  function ZeroFilled(s: seq<bv8>): (r: seq<bv8>)
    requires |s| <= 64
    ensures |r| == 64
  {
    s + Zeros(64 - |s|)
  }

  lemma SliceWord(s: seq<bv8>, j: nat)
    requires 4 * j + 3 < |s|
    ensures WordAt(s, j) == WordAt(s[4 * j..4 * j + 4], 0)
  {
  }

  lemma SliceUpdate<T>(t: seq<T>, lo: nat, i: nat, b: T)
    requires lo <= i < lo + 4 <= |t|
    ensures t[i := b][lo..lo + 4] == t[lo..lo + 4][i - lo := b]
  {
  }

  lemma GrowZeroFilled(s: seq<bv8>, b: bv8)
    requires |s| < 64
    ensures ZeroFilled(s + [b]) == ZeroFilled(s)[|s| := b]
  {
  }

  lemma PutHere(s: seq<bv8>, b: bv8)
    requires |s| < 64
    ensures WordAt(ZeroFilled(s + [b]), |s| / 4) == Put(WordAt(ZeroFilled(s), |s| / 4), b, |s| % 4)
  {
    var before, lo := ZeroFilled(s), 4 * (|s| / 4);
    GrowZeroFilled(s, b);
    SliceUpdate(before, lo, |s|, b);
    SliceWord(before, |s| / 4);
    SliceWord(before[|s| := b], |s| / 4);
    PlaceInWord(before[lo..lo + 4], |s| % 4, b);
  }

  lemma PutElsewhere(s: seq<bv8>, b: bv8, j: nat)
    requires |s| < 64 && j < 16 && j != |s| / 4
    ensures WordAt(ZeroFilled(s + [b]), j) == WordAt(ZeroFilled(s), j)
  {
    var before, after := ZeroFilled(s), ZeroFilled(s + [b]);
    assert forall i :: 4 * j <= i < 4 * j + 4 ==> after[i] == before[i];
  }

  /** Or-ing one more byte into the words of a zero-filled block appends that byte. */
  lemma PutByte(s: seq<bv8>, b: bv8)
    requires |s| < 64
    ensures BlockOf(ZeroFilled(s + [b]))
         == BlockOf(ZeroFilled(s))[|s| / 4 := Put(BlockOf(ZeroFilled(s))[|s| / 4], b, |s| % 4)]
  {
    PutHere(s, b);
    forall j | 0 <= j < 16 && j != |s| / 4
      ensures BlockOf(ZeroFilled(s + [b]))[j] == BlockOf(ZeroFilled(s))[j]
    {
      PutElsewhere(s, b, j);
    }
  }

  method PutAt(temp: array<bv32>, b: bv8, last: nat)
    requires temp.Length == 80 && last < 64
    modifies temp
    ensures temp[..16] == old(temp[..16])[last / 4 := Put(old(temp[last / 4]), b, last % 4)]
  {
    temp[last / 4] := Put(temp[last / 4], b, last % 4);
  }

  /** Clearing, the tail of the message and the closing 0x80 byte. */
  method FillTail(data: seq<bv8>, block: nat, temp: array<bv32>)
    requires block <= |data| < block + 64 && temp.Length == 80
    modifies temp
    ensures temp[..16] == BlockOf(ZeroFilled(data[block..] + [0x80]))
  {
    ClearBlock(temp);
    ZeroBlock();
    var tail := data[block..];
    var end := |data| - block;
    var last := 0;
    assert tail[..0] == [];
    while last < end
      invariant last <= end
      invariant temp[..16] == BlockOf(ZeroFilled(tail[..last]))
    {
      PutAt(temp, tail[last], last);
      PutByte(tail[..last], tail[last]);
      assert tail[..last + 1] == tail[..last] + [tail[last]];
      last := last + 1;
    }
    assert tail[..last] == tail;
    PutAt(temp, 0x80, last);
    PutByte(tail, 0x80);
  }

  lemma ZeroBlock()
    ensures BlockOf(ZeroFilled([])) == seq(16, _ => 0)
  {
    ZeroWord();
  }

  // ---------- the whole function ----------

  /** The length the packer stores: word 14 stays zero, word 15 is the 32-bit value of len << 3. */
  function ShortLength(bits: nat): (s: seq<bv8>)
    ensures |s| == 8
  {
    Zeros(4) + BytesOf((bits % 0x1_0000_0000) as bv32)
  }

  /** The padding the packer feeds to the rounds. */
  function PackerPad(message: seq<bv8>): (p: seq<bv8>)
    ensures |p| % 64 == 0
  {
    PaddedLength(|Closed(message)|);
    Closed(message) + ShortLength(8 * |message|)
  }

  lemma SameMiddle<T>(a: seq<T>, b: seq<T>, c: seq<T>, d: seq<T>)
    requires |b| == |c|
    ensures a + (b + d) == a + (c + d) <==> b == c
  {
    if a + (b + d) == a + (c + d) {
      assert b == (a + (b + d))[|a|..|a| + |b|];
      assert c == (a + (c + d))[|a|..|a| + |c|];
    }
  }

  lemma LowByte(high: nat)
    requires high < 8
    ensures ByteOf(high as bv32, 3) == 0 <==> high == 0
  {
    assert high == 0 || high == 1 || high == 2 || high == 3 || high == 4 || high == 5 || high == 6 || high == 7;
  }

  lemma ZeroBytesOf(k: nat)
    requires k < 4
    ensures ByteOf(0, k) == 0
  {
  }

  lemma HighWord(high: nat)
    requires high < 8
    ensures BytesOf(high as bv32) == Zeros(4) <==> high == 0
  {
    LowByte(high);
    if high == 0 {
      forall k | 0 <= k < 4 ensures BytesOf(0)[k] == 0 { ZeroBytesOf(k); }
    } else {
      assert BytesOf(high as bv32)[3] == ByteOf(high as bv32, 3);
      assert Zeros(4)[3] == 0;
    }
  }

  /** For every length the packer can read, its padding is that of the standard exactly below 2^29 bytes. */
  lemma PaddingIsStandard(message: seq<bv8>)
    requires |message| < 0x1_0000_0000
    ensures PackerPad(message) == Pad(message) <==> |message| < 0x2000_0000
  {
    var bits := 8 * |message|;
    var high := bits / 0x1_0000_0000;
    HighWord(high);
    SameMiddle(Closed(message), Zeros(4), BytesOf(high as bv32), BytesOf((bits % 0x1_0000_0000) as bv32));
    assert high == 0 <==> |message| < 0x2000_0000;
    assert LengthField(bits) == BytesOf(high as bv32) + BytesOf((bits % 0x1_0000_0000) as bv32);
    assert ShortLength(bits) == Zeros(4) + BytesOf((bits % 0x1_0000_0000) as bv32);
  }

  /** The block that closes the message: s, zero bytes up to 56, and the stored length. */
  function LastBlock(s: seq<bv8>, bits: nat): (r: seq<bv8>)
    requires |s| <= 56
    ensures |r| == 64
  {
    s + Zeros(56 - |s|) + ShortLength(bits)
  }

  /** The words with word 15 replaced by len << 3, a 32-bit value. */
  function WithLength(m: Block, bits: nat): Block {
    m[15 := (bits % 0x1_0000_0000) as bv32]
  }

  lemma LastWord(w: bv32)
    ensures WordAt(BytesOf(w), 0) == w
  {
    BytesSpellWord(w);
  }

  /** Storing len << 3 in word 15 of a zero-filled block appends the length field. */
  lemma StoreLength(s: seq<bv8>, bits: nat)
    requires |s| <= 56
    ensures BlockOf(LastBlock(s, bits)) == WithLength(BlockOf(ZeroFilled(s)), bits)
  {
    var low := (bits % 0x1_0000_0000) as bv32;
    var before, after := ZeroFilled(s), LastBlock(s, bits);
    assert forall i :: 0 <= i < 60 ==> after[i] == before[i];
    forall j | 0 <= j < 15
      ensures WordAt(after, j) == WordAt(before, j)
    {
    }
    assert after[60..64] == BytesOf(low);
    SliceWord(after, 15);
    LastWord(low);
  }

  /** The padded message splits at the last whole block into at most two more blocks. */
  lemma PaddedTail(data: seq<bv8>, block: nat)
    requires block % 64 == 0 && block <= |data| < block + 64
    ensures var s := data[block..] + [0x80];
            PackerPad(data) == data[..block]
            + if |s| <= 56 then LastBlock(s, 8 * |data|) else ZeroFilled(s) + LastBlock([], 8 * |data|)
  {
    var s := data[block..] + [0x80];
    assert data == data[..block] + data[block..];
    assert |data| % 64 == |s| - 1;
    if |s| <= 56 {
      assert Zeros(ZeroBytes(|data|)) == Zeros(56 - |s|);
    } else {
      assert Zeros(ZeroBytes(|data|)) == Zeros(64 - |s|) + Zeros(56);
    }
  }

  /** What hashing the padded message comes to after the whole blocks. */
  lemma HashTail(data: seq<bv8>, block: nat)
    requires block % 64 == 0 && block <= |data| < block + 64
    ensures var s := data[block..] + [0x80];
            var h := HashBlocks(H0, data[..block]);
            HashBlocks(H0, PackerPad(data))
            == if |s| <= 56 then Compress(h, WithLength(BlockOf(ZeroFilled(s)), 8 * |data|))
               else Compress(Compress(h, BlockOf(ZeroFilled(s))), WithLength(BlockOf(ZeroFilled([])), 8 * |data|))
  {
    var s := data[block..] + [0x80];
    var bits := 8 * |data|;
    var h := HashBlocks(H0, data[..block]);
    PaddedTail(data, block);
    if |s| <= 56 {
      StoreLength(s, bits);
      HashBlocksAppend(H0, data[..block], LastBlock(s, bits));
      HashBlocksOne(h, LastBlock(s, bits));
    } else {
      StoreLength([], bits);
      HashBlocksAppend(H0, data[..block], ZeroFilled(s) + LastBlock([], bits));
      HashBlocksAppend(h, ZeroFilled(s), LastBlock([], bits));
      HashBlocksOne(h, ZeroFilled(s));
      HashBlocksOne(Compress(h, BlockOf(ZeroFilled(s))), LastBlock([], bits));
    }
  }

  lemma NextBlock(data: seq<bv8>, block: nat)
    requires block % 64 == 0 && block + 64 <= |data|
    ensures HashBlocks(H0, data[..block + 64])
         == Compress(HashBlocks(H0, data[..block]), BlockOf(data[block..block + 64]))
  {
    assert data[..block + 64] == data[..block] + data[block..block + 64];
    HashBlocksAppend(H0, data[..block], data[block..block + 64]);
    HashBlocksOne(HashBlocks(H0, data[..block]), data[block..block + 64]);
  }

  // ---------- the loop over whole blocks ----------

  /** The 32-bit block counter. */
  function Wrap(n: nat): nat { n % 0x1_0000_0000 }

  /** The counter after n passes of the outer loop: the inner one moves it up to the end, if that is above it. */
  function NthBlock(n: nat): nat {
    if n == 0 then 0
    else
      var block := NthBlock(n - 1);
      if block < Wrap(block + 64) then Wrap(block + 64) else block
  }

  /** The outer loop goes on after n passes. */
  predicate GoesOn(n: nat, length: nat) { Wrap(NthBlock(n) + 64) <= length }

  lemma {:induction false} BlockIs(n: nat)
    ensures NthBlock(n) == if n <= 0x3FF_FFFF then 64 * n else 0xFFFF_FFC0
  {
    if n > 0 {
      hide Wrap;
      BlockIs(n - 1);
      Wraps(NthBlock(n - 1) + 64);
    }
  }

  lemma Wraps(n: nat)
    ensures n < 0x1_0000_0000 ==> Wrap(n) == n
    ensures Wrap(0x1_0000_0000) == 0
  {
  }

  /** For a length the packer can read, the loop ends exactly below 2^32 - 64: from there on the counter stays. */
  lemma BlocksEnd(length: nat)
    requires length < 0x1_0000_0000
    ensures (exists n: nat :: !GoesOn(n, length)) <==> length < 0x1_0000_0000 - 64
  {
    hide Wrap, NthBlock;
    if length < 0x1_0000_0000 - 64 {
      var n := length / 64;
      BlockIs(n);
      Wraps(64 * n + 64);
      assert !GoesOn(n, length);
    } else {
      forall n: nat
        ensures GoesOn(n, length)
      {
        BlockIs(n);
        Wraps(NthBlock(n) + 64);
      }
    }
  }

  /** The whole blocks of the message. */
  method HashWholeBlocks(data: seq<bv8>, sha: array<bv32>, temp: array<bv32>) returns (block: nat)
    requires |data| < 0x1_0000_0000 - 64
    requires sha.Length == 5 && temp.Length == 80 && sha != temp && HashIn(sha[..]) == H0
    modifies sha, temp
    ensures block % 64 == 0 && block <= |data| < block + 64
    ensures HashIn(sha[..]) == HashBlocks(H0, data[..block])
  {
    hide Wrap;
    block := 0;
    assert data[..0] == [];
    Wraps(block + 64);
    while Wrap(block + 64) <= |data|
      invariant block <= |data| && block % 64 == 0 && Wrap(block + 64) == block + 64
      invariant HashIn(sha[..]) == HashBlocks(H0, data[..block])
    {
      LoadBlock(data, block, temp);
      PartHash(sha, temp);
      NextBlock(data, block);
      block := block + 64;
      Wraps(block + 64);
    }
  }

  /** The closing one or two blocks. */
  method HashClosing(data: seq<bv8>, block: nat, sha: array<bv32>, temp: array<bv32>)
    requires sha.Length == 5 && temp.Length == 80 && sha != temp
    requires block % 64 == 0 && block <= |data| < block + 64
    requires HashIn(sha[..]) == HashBlocks(H0, data[..block])
    modifies sha, temp
    ensures HashIn(sha[..]) == HashBlocks(H0, PackerPad(data))
  {
    HashTail(data, block);
    FillTail(data, block, temp);
    var end := |data| - block;
    if end >= 56 {
      PartHash(sha, temp);
      ClearBlock(temp);
      ZeroBlock();
    }
    ghost var words: Block := temp[..16];
    temp[15] := (8 * |data| % 0x1_0000_0000) as bv32;
    assert temp[..16] == WithLength(words, 8 * |data|);
    PartHash(sha, temp);
  }

  lemma FiveWords<T>(p: seq<seq<T>>, i: nat)
    requires |p| == 5 && i < 20 && forall k :: 0 <= k < 5 ==> |p[k]| == 4
    ensures (p[0] + p[1] + p[2] + p[3] + p[4])[i] == p[i / 4][i % 4]
  {
  }

  lemma DigestAt(sha: seq<bv32>, i: nat)
    requires |sha| == 5 && i < 20
    ensures Digest(HashIn(sha))[i] == ByteOf(sha[i / 4], i % 4)
  {
    FiveWords(seq(5, k requires 0 <= k < 5 => BytesOf(sha[k])), i);
    assert BytesOf(sha[i / 4])[i % 4] == ByteOf(sha[i / 4], i % 4);
  }

  method WriteDigest(sha: array<bv32>, dest: array<bv8>)
    requires sha.Length == 5 && dest.Length >= 20
    modifies dest
    ensures dest[..20] == Digest(HashIn(sha[..])) && dest[20..] == old(dest[20..])
  {
    var i := 19;
    while i >= 0
      invariant -1 <= i <= 19
      invariant forall j :: i < j < 20 ==> dest[j] == Digest(HashIn(sha[..]))[j]
      invariant dest[20..] == old(dest[20..])
    {
      DigestAt(sha[..], i);
      dest[i] := ByteOf(sha[i / 4], i % 4);
      i := i - 1;
    }
  }

  /** The packer's hashSha1, for every length at which its loop over blocks ends. */
  method HashSha1(data: seq<bv8>, dest: array<bv8>)
    requires |data| < 0x1_0000_0000 - 64 && dest.Length >= 20
    modifies dest
    ensures dest[..20] == Digest(HashBlocks(H0, PackerPad(data)))
    ensures |data| < 0x2000_0000 ==> dest[..20] == Sha1(data)
    ensures dest[20..] == old(dest[20..])
  {
    var sha := new bv32[5] [0x67452301, 0xefcdab89, 0x98badcfe, 0x10325476, 0xc3d2e1f0];
    var temp := new bv32[80];
    assert HashIn(sha[..]) == H0;
    var block := HashWholeBlocks(data, sha, temp);
    HashClosing(data, block, sha, temp);
    WriteDigest(sha, dest);
    PaddingIsStandard(data);
  }
}
