/** Bytes, big-endian numbers and masking. */
module Bytes {
  import opened Messages

  /** The low eight bits of a number. */
  function LowByte(n: nat): Byte {
    (n % 256) as Byte
  }

  function Pow256(k: nat): nat {
    if k == 0 then 1 else 256 * Pow256(k - 1)
  }

  /** The number shifted right by `i` bytes. */
  function ShiftRight(n: nat, i: nat): nat {
    if i == 0 then n else ShiftRight(n, i - 1) / 256
  }

  /** The number `n` in `k` bytes, the most significant first. */
  function BigEndian(n: nat, k: nat): (s: seq<Byte>)
    ensures |s| == k
  {
    if k == 0 then [] else BigEndian(n / 256, k - 1) + [LowByte(n)]
  }

  function FromBigEndian(s: seq<Byte>): nat {
    if s == [] then 0 else 256 * FromBigEndian(s[..|s| - 1]) + s[|s| - 1] as nat
  }

  lemma {:induction false} BigEndianRoundTrip(n: nat, k: nat)
    requires n < Pow256(k)
    ensures FromBigEndian(BigEndian(n, k)) == n
  {
    if k > 0 {
      BigEndianRoundTrip(n / 256, k - 1);
      assert BigEndian(n, k)[..k - 1] == BigEndian(n / 256, k - 1);
    }
  }

  lemma TwoBytes(a: Byte, b: Byte)
    ensures FromBigEndian([a, b]) == a as nat * 256 + b as nat
  {
    assert [a, b][..1] == [a] && [a][..0] == [];
    assert FromBigEndian([a]) == a as nat;
  }

  lemma Pow256Values()
    ensures Pow256(2) == 0x1_0000 && Pow256(8) == 0x1_0000_0000_0000_0000
  {
    assert Pow256(1) == 256 && Pow256(2) == 0x1_0000 && Pow256(3) == 0x100_0000 && Pow256(4) == 0x1_0000_0000;
    assert Pow256(5) == 0x100_0000_0000 && Pow256(6) == 0x1_0000_0000_0000 && Pow256(7) == 0x100_0000_0000_0000;
  }

  function Pow2(k: nat): (p: nat)
    ensures p > 0
  {
    if k == 0 then 1 else 2 * Pow2(k - 1)
  }

  /** Exclusive or of the lowest `k` bits. */
  function XorBits(a: nat, b: nat, k: nat): (x: nat)
    ensures x < Pow2(k)
  {
    if k == 0 then 0 else 2 * XorBits(a / 2, b / 2, k - 1) + if a % 2 == b % 2 then 0 else 1
  }

  lemma Halves(h: nat, bit: nat)
    requires bit < 2
    ensures (2 * h + bit) / 2 == h && (2 * h + bit) % 2 == bit
  {
  }

  lemma {:induction false} XorBitsTwice(a: nat, b: nat, k: nat)
    requires a < Pow2(k)
    ensures XorBits(XorBits(a, b, k), b, k) == a
  {
    if k > 0 {
      Halves(XorBits(a / 2, b / 2, k - 1), if a % 2 == b % 2 then 0 else 1);
      XorBitsTwice(a / 2, b / 2, k - 1);
    }
  }

  lemma Pow2Of8()
    ensures Pow2(8) == 256
  {
    assert Pow2(1) == 2 && Pow2(2) == 4 && Pow2(3) == 8 && Pow2(4) == 16;
    assert Pow2(5) == 32 && Pow2(6) == 64 && Pow2(7) == 128;
  }

  /** Bit `k` of a number. */
  function Bit(n: nat, k: nat): nat { n / Pow2(k) % 2 }

  lemma AtLeastOnce(x: nat, d: nat)
    requires x >= 1
    ensures x * d >= d
  {
    assert x * d == (x - 1) * d + d;
  }

  lemma Distributes(x: int, y: int, d: int)
    ensures (x - y) * d == x * d - y * d
  {
  }

  lemma QuotientIs(n: nat, d: nat, q: nat, r: nat)
    requires d > 0 && n == q * d + r && r < d
    ensures n / d == q
  {
    var q', r' := n / d, n % d;
    assert n == q' * d + r';
    Distributes(q, q', d);
    Distributes(q', q, d);
    if q' < q {
      AtLeastOnce(q - q', d);
    } else if q' > q {
      AtLeastOnce(q' - q, d);
    }
  }

  /** Dropping the lowest bit moves the others down by one. */
  lemma BitOfHalf(n: nat, k: nat)
    ensures Bit(n, k + 1) == Bit(n / 2, k)
  {
    var p := Pow2(k);
    var q, r := n / 2 / p, n / 2 % p;
    assert n / 2 == q * p + r;
    assert n == q * (2 * p) + (2 * r + n % 2);
    QuotientIs(n, 2 * p, q, 2 * r + n % 2);
  }

  /** Each bit of an exclusive or is one exactly where the two numbers differ. */
  lemma {:induction false} XorBitsBit(a: nat, b: nat, k: nat, i: nat)
    requires i < k
    ensures Bit(XorBits(a, b, k), i) == if Bit(a, i) == Bit(b, i) then 0 else 1
  {
    var x := XorBits(a, b, k);
    Halves(XorBits(a / 2, b / 2, k - 1), if a % 2 == b % 2 then 0 else 1);
    if i == 0 {
      assert Pow2(0) == 1;
    } else {
      BitOfHalf(x, i - 1);
      BitOfHalf(a, i - 1);
      BitOfHalf(b, i - 1);
      XorBitsBit(a / 2, b / 2, k - 1, i - 1);
    }
  }

  function Xor(a: Byte, b: Byte): Byte {
    Pow2Of8();
    XorBits(a as nat, b as nat, 8) as Byte
  }

  lemma XorTwice(a: Byte, b: Byte)
    ensures Xor(Xor(a, b), b) == a
  {
    Pow2Of8();
    XorBitsTwice(a as nat, b as nat, 8);
  }

  /** A payload combined with a masking key, byte by byte. */
  function Masked(payload: seq<Byte>, key: seq<Byte>): (s: seq<Byte>)
    requires |key| == 4
    ensures |s| == |payload|
  {
    seq(|payload|, i requires 0 <= i < |payload| => Xor(payload[i], key[i % 4]))
  }

  /** Section 5.3 of RFC 6455: each bit of a masked payload is one exactly where the payload and the byte of the
      key at that position modulo four differ. */
  lemma MaskedBits(payload: seq<Byte>, key: seq<Byte>, i: nat, k: nat)
    requires |key| == 4 && i < |payload| && k < 8
    ensures Bit(Masked(payload, key)[i] as nat, k) ==
            if Bit(payload[i] as nat, k) == Bit(key[i % 4] as nat, k) then 0 else 1
  {
    XorBitsBit(payload[i] as nat, key[i % 4] as nat, 8, k);
  }

  lemma MaskedTwice(payload: seq<Byte>, key: seq<Byte>)
    requires |key| == 4
    ensures Masked(Masked(payload, key), key) == payload
  {
    forall i | 0 <= i < |payload|
      ensures Masked(Masked(payload, key), key)[i] == payload[i]
    {
      XorTwice(payload[i], key[i % 4]);
    }
  }

  // ---------------------------------------------------------------------------
  // Digits
  // ---------------------------------------------------------------------------

  lemma {:induction false} ShiftRightShifts(n: nat, i: nat)
    ensures ShiftRight(n / 256, i) == ShiftRight(n, i + 1)
  {
    if i == 0 {
      assert ShiftRight(n, 1) == ShiftRight(n, 0) / 256;
    } else {
      ShiftRightShifts(n, i - 1);
    }
  }

  /** Byte `i` of `k` holds the bits that lie `k - 1 - i` bytes up. */
  lemma {:induction false} BigEndianDigit(n: nat, k: nat, i: nat)
    requires i < k
    ensures BigEndian(n, k)[i] as nat == ShiftRight(n, k - 1 - i) % 256
  {
    if i == k - 1 {
    } else {
      BigEndianDigit(n / 256, k - 1, i);
      ShiftRightShifts(n, k - 2 - i);
    }
  }
}
