/** Fixed-width machine integers as bounded mathematical integers, and the bitwise
    operators of the emulator written out over the binary digits. */
module Bytes {

  type byte = x: int | 0 <= x < 0x100
  type word = x: int | 0 <= x < 0x1_0000

  function Low(w: word): (r: byte) { w % 0x100 }

  function High(w: word): (r: byte) { w / 0x100 }

  /** The word of two bytes. They are bound as a pair because the verifier would otherwise keep
      evaluating the sum for every literal it has already built from it. */
  function Word(h: byte, l: byte): (r: word)
  {
    var (high: int, low: int) := (h, l);
    high * 0x100 + low
  }

  /** 16-bit wrap-around of pointer increments and decrements. */
  function Wrap(n: int): (r: word)
    requires -0x1_0000 <= n < 0x2_0000
    ensures r == n || r == n - 0x1_0000 || r == n + 0x1_0000
  {
    if n < 0 then n + 0x1_0000 else if n >= 0x1_0000 then n - 0x1_0000 else n
  }

  function Pow2(n: nat): (r: nat)
    ensures r >= 1
  {
    if n == 0 then 1 else 2 * Pow2(n - 1)
  }

  /** Digit `k` of the binary notation of `n`. */
  predicate Bit(n: nat, k: nat)
  {
    if k == 0 then n % 2 == 1 else Bit(n / 2, k - 1)
  }

  /** Bitwise operators on the low `width` binary digits. */
  function Xor(width: nat, a: nat, b: nat): (r: nat)
    ensures r < Pow2(width)
  {
    if width == 0 then 0
    else (if a % 2 != b % 2 then 1 else 0) + 2 * Xor(width - 1, a / 2, b / 2)
  }

  function And(width: nat, a: nat, b: nat): (r: nat)
    ensures r < Pow2(width)
  {
    if width == 0 then 0
    else (if a % 2 == 1 && b % 2 == 1 then 1 else 0) + 2 * And(width - 1, a / 2, b / 2)
  }

  function Or(width: nat, a: nat, b: nat): (r: nat)
    ensures r < Pow2(width)
  {
    if width == 0 then 0
    else (if a % 2 == 1 || b % 2 == 1 then 1 else 0) + 2 * Or(width - 1, a / 2, b / 2)
  }

  /** Quotient and remainder are the ones that fit. */
  lemma Quotient(x: int, d: int, q: int, r: int)
    requires d > 0 && x == d * q + r && 0 <= r < d
    ensures x / d == q && x % d == r
  {
    OneQuotient(d, q, r, x / d, x % d);
  }

  lemma OneQuotient(d: int, q: int, r: int, p: int, m: int)
    requires d > 0 && d * q + r == d * p + m && 0 <= r < d && 0 <= m < d
    ensures q == p && r == m
  {
    var k := q - p;
    assert d * q == d * p + d * k && d * -k == -(d * k);
    if k >= 1 { Grows(d, k); } else if k <= -1 { Grows(d, -k); }
  }

  lemma Grows(d: int, k: int)
    requires d > 0 && k >= 1
    ensures d * k >= d
  {
  }

  lemma Pow2Of8()
    ensures Pow2(8) == 0x100
  {
    assert Pow2(4) == 16;
    assert Pow2(8) == 16 * Pow2(4);
  }

  function AndByte(a: byte, b: byte): (r: byte)
  {
    Pow2Of8(); And(8, a, b)
  }

  function OrByte(a: byte, b: byte): (r: byte)
  {
    Pow2Of8(); Or(8, a, b)
  }

  function XorByte(a: byte, b: byte): (r: byte)
  {
    Pow2Of8(); Xor(8, a, b)
  }

  /** Digit `k` of an exclusive or differs from the first operand's exactly where the second's is set. */
  lemma {:induction false} XorBit(width: nat, a: nat, b: nat, k: nat)
    requires k < width
    ensures Bit(Xor(width, a, b), k) == (Bit(a, k) != Bit(b, k))
  {
    if k > 0 {
      XorBit(width - 1, a / 2, b / 2, k - 1);
      assert Xor(width, a, b) / 2 == Xor(width - 1, a / 2, b / 2);
    }
  }

  lemma {:induction false} AndBit(width: nat, a: nat, b: nat, k: nat)
    requires k < width
    ensures Bit(And(width, a, b), k) == (Bit(a, k) && Bit(b, k))
  {
    if k > 0 {
      AndBit(width - 1, a / 2, b / 2, k - 1);
      assert And(width, a, b) / 2 == And(width - 1, a / 2, b / 2);
    }
  }

  lemma {:induction false} OrBit(width: nat, a: nat, b: nat, k: nat)
    requires k < width
    ensures Bit(Or(width, a, b), k) == (Bit(a, k) || Bit(b, k))
  {
    if k > 0 {
      OrBit(width - 1, a / 2, b / 2, k - 1);
      assert Or(width, a, b) / 2 == Or(width - 1, a / 2, b / 2);
    }
  }

  /** The digits of two numbers written next to each other. */
  lemma {:induction false} BitsOfConcat(a: nat, b: nat, n: nat, k: nat)
    requires b < Pow2(n)
    ensures Bit(a * Pow2(n) + b, k) == if k < n then Bit(b, k) else Bit(a, k - n)
    decreases n
  {
    if n > 0 {
      var x, half := a * Pow2(n) + b, a * Pow2(n - 1);
      assert x == 2 * half + b;
      assert x / 2 == half + b / 2 && x % 2 == b % 2;
      if k > 0 { BitsOfConcat(a, b / 2, n - 1, k - 1); }
    }
  }

  lemma Halved(n: nat, d: nat)
    requires d > 0
    ensures n / d / 2 == n / (2 * d)
  {
    var q := n / d;
    Quotient(n, 2 * d, q / 2, d * (q % 2) + n % d);
  }

  lemma LowBits(n: nat)
    ensures Bit(n, 0) == (n % 2 == 1) && Bit(n, 1) == (n / 2 % 2 == 1)
    ensures Bit(n, 2) == (n / 4 % 2 == 1) && Bit(n, 3) == (n / 8 % 2 == 1)
  {
    Halved(n, 2);
    Halved(n, 4);
    assert Bit(n, 2) == Bit(n / 2, 1) == Bit(n / 2 / 2, 0);
    assert Bit(n, 3) == Bit(n / 2, 2) == Bit(n / 2 / 2, 1) == Bit(n / 2 / 2 / 2, 0);
  }

  lemma FourUp(n: nat, k: nat)
    ensures Bit(n, k + 4) == Bit(n / 16, k)
  {
    Halved(n, 2);
    Halved(n, 4);
    Halved(n, 8);
    assert Bit(n, k + 4) == Bit(n / 2, k + 3) == Bit(n / 2 / 2, k + 2) == Bit(n / 2 / 2 / 2, k + 1) == Bit(n / 2 / 2 / 2 / 2, k);
  }

  /** The digits of a byte by their weights. */
  lemma ByteBits(v: byte)
    ensures Bit(v, 0) == (v % 2 == 1) && Bit(v, 1) == (v / 2 % 2 == 1) && Bit(v, 2) == (v / 4 % 2 == 1)
    ensures Bit(v, 3) == (v / 8 % 2 == 1) && Bit(v, 4) == (v / 16 % 2 == 1) && Bit(v, 5) == (v / 32 % 2 == 1)
    ensures Bit(v, 6) == (v / 64 % 2 == 1) && Bit(v, 7) == (v / 128 == 1)
  {
    hide Bit;
    LowBits(v);
    LowBits(v / 16);
    FourUp(v, 0);
    FourUp(v, 1);
    FourUp(v, 2);
    FourUp(v, 3);
    Halved(v, 16);
    Halved(v / 16, 2);
    Halved(v, 32);
    Halved(v, 64);
    assert v / 16 / 4 == v / 64 && v / 16 / 8 == v / 128 by { Sixteenth(v); }
  }

  lemma Sixteenth(v: byte)
    ensures v / 16 / 4 == v / 64 && v / 16 / 8 == v / 128 && v / 128 < 2
  {
    var q := v / 16;
    Quotient(v, 64, q / 4, 16 * (q % 4) + v % 16);
    Quotient(v, 128, q / 8, 16 * (q % 8) + v % 16);
  }

  lemma Bit4(n: nat)
    ensures Bit(n, 4) == (n / 16 % 2 == 1)
  {
    assert Bit(n, 4) == Bit(n / 2 / 2, 2) == Bit(n / 2 / 2 / 2 / 2, 0);
  }

  lemma Bit8(n: nat)
    requires n < 512
    ensures Bit(n, 8) == (n >= 256)
  {
    var q := n / 16;
    assert n / 2 / 2 / 2 / 2 == q;
    assert Bit(n, 8) == Bit(n / 2 / 2, 6) == Bit(q, 4);
    Bit4(q);
  }
}
