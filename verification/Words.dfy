/** Bytes, and 32-bit words as little-endian byte quadruples. */
module Words {
  import opened Wrappers

  type Byte = b: int | 0 <= b < 256
  type Bytes = seq<Byte>

  type Uint32 = n: int | 0 <= n < 0x1_0000_0000

  /** A number cut to a 32-bit signed one. */
  function Int32(n: int): int {
    var m := n % 0x1_0000_0000;
    if m < 0x8000_0000 then m else m - 0x1_0000_0000
  }

  /** Byte k of the value, shifted right by eight bits k times: (n >> 8k) & 0xFF. */
  function Digit(n: nat, k: nat): Byte {
    if k == 0 then n % 0x100 else Digit(n / 0x100, k - 1)
  }

  function LeU32(value: Uint32): (s: Bytes)
    ensures |s| == 4
  {
    seq(4, k requires 0 <= k < 4 => Digit(value, k))
  }

  /** The number whose bytes are s, the least significant one first. */
  function Value(s: Bytes): nat {
    if |s| == 0 then 0 else s[0] + 0x100 * Value(s[1..])
  }

  lemma ValueOfFour(s: Bytes)
    requires |s| == 4
    ensures Value(s) == Number(s[0], s[1], s[2], s[3]) < 0x1_0000_0000
  {
    assert s[1..][1..] == s[2..] && s[2..][1..] == s[3..] && s[3..][1..] == [];
    assert Value(s[3..]) == s[3];
    assert Value(s[2..]) == Number(s[2], s[3], 0, 0);
  }

  function Number(b0: int, b1: int, b2: int, b3: int): int {
    b0 + 0x100 * b1 + 0x1_0000 * b2 + 0x100_0000 * b3
  }

  function U32At(d: Bytes, o: nat): (r: Option<Uint32>) {
    if o + 4 <= |d| then ValueOfFour(d[o..o + 4]); Some(Value(d[o..o + 4])) else None
  }

  /** The bytes s stand at offset o of d. */
  predicate At(d: Bytes, o: nat, s: Bytes) {
    o + |s| <= |d| && d[o..o + |s|] == s
  }

  lemma AtConcat(d: Bytes, o: nat, a: Bytes, b: Bytes)
    ensures At(d, o, a + b) <==> At(d, o, a) && At(d, o + |a|, b)
  {
    if o + |a| + |b| <= |d| {
      assert d[o..o + |a| + |b|] == d[o..o + |a|] + d[o + |a|..o + |a| + |b|];
      assert (a + b)[..|a|] == a && (a + b)[|a|..] == b;
    }
  }

  lemma FourDigits(n: nat)
    ensures var a := n / 0x100; var b := a / 0x100; var c := b / 0x100;
            Digit(n, 0) == n % 0x100 && Digit(n, 1) == a % 0x100 && Digit(n, 2) == b % 0x100 && Digit(n, 3) == c % 0x100
  {
    var a := n / 0x100;
    assert Digit(n, 2) == Digit(a, 1) && Digit(n, 3) == Digit(a, 2) == Digit(a / 0x100, 1);
  }

  lemma ValueOfDigits(n: Uint32)
    ensures Value(LeU32(n)) == n
  {
    var s, a := LeU32(n), n / 0x100;
    var b := a / 0x100;
    var c := b / 0x100;
    FourDigits(n);
    assert s[0] == n % 0x100 && s[1] == a % 0x100 && s[2] == b % 0x100 && s[3] == c;
    ValueOfFour(s);
  }

  lemma DivMod(q: nat, r: Byte)
    ensures (r + 0x100 * q) / 0x100 == q && (r + 0x100 * q) % 0x100 == r
  {
  }

  lemma DigitsOfNumber(a: Byte, b: Byte, c: Byte, e: Byte)
    ensures var n := Number(a, b, c, e); Digit(n, 0) == a && Digit(n, 1) == b && Digit(n, 2) == c && Digit(n, 3) == e
  {
    var n, q1, q2 := Number(a, b, c, e), Number(b, c, e, 0), Number(c, e, 0, 0);
    DivMod(q1, a);
    DivMod(q2, b);
    DivMod(e, c);
    FourDigits(n);
  }

  lemma DigitsOfValue(s: Bytes)
    requires |s| == 4
    ensures Value(s) < 0x1_0000_0000 && LeU32(Value(s)) == s
  {
    hide Digit, Number, Value;
    ValueOfFour(s);
    DigitsOfNumber(s[0], s[1], s[2], s[3]);
  }

  lemma U32Read(d: Bytes, o: nat, n: Uint32)
    ensures U32At(d, o) == Some(n) <==> At(d, o, LeU32(n))
  {
    if o + 4 <= |d| {
      ValueOfDigits(n);
      DigitsOfValue(d[o..o + 4]);
    }
  }

  lemma WholeAt(d: Bytes, s: Bytes)
    ensures d == s <==> At(d, 0, s) && |d| == |s|
  {
    assert d == d[0..|d|];
  }
}
