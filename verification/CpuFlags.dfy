/** The bit-level flag computations of the CPU against their arithmetic meaning. */
module CpuFlags {
  import opened Bytes
  import opened Cpu
  import Isa

  /** A last digit adds to the count of the digits before it. */
  lemma OnesHalf(q: nat, x: nat)
    requires x <= 1
    ensures Isa.Ones(2 * q + x) == x + Isa.Ones(q)
  {
    assert (2 * q + x) / 2 == q && (2 * q + x) % 2 == x;
  }

  lemma OnesPair(q: nat, b1: nat, b0: nat)
    requires b1 <= 1 && b0 <= 1
    ensures Isa.Ones(4 * q + 2 * b1 + b0) == Isa.Ones(q) + b1 + b0
  {
    OnesHalf(q, b1);
    OnesHalf(2 * q + b1, b0);
  }

  lemma OnesByte(h: nat, b3: nat, b2: nat, b1: nat, b0: nat)
    requires b3 <= 1 && b2 <= 1 && b1 <= 1 && b0 <= 1
    ensures Isa.Ones(16 * h + 8 * b3 + 4 * b2 + 2 * b1 + b0) == Isa.Ones(h) + b3 + b2 + b1 + b0
  {
    OnesPair(h, b3, b2);
    OnesPair(4 * h + 2 * b3 + b2, b1, b0);
  }

  lemma OnesDigits(h: nat, l: nat)
    requires l < 16
    ensures Isa.Ones(16 * h + l) == Isa.Ones(h) + Isa.Ones(l)
  {
    var b3 := if l >= 8 then 1 else 0;
    var l2 := l - 8 * b3;
    var b2 := if l2 >= 4 then 1 else 0;
    var l1 := l2 - 4 * b2;
    var b1 := if l1 >= 2 then 1 else 0;
    var b0 := l1 - 2 * b1;
    OnesByte(h, b3, b2, b1, b0);
    OnesByte(0, b3, b2, b1, b0);
  }

  lemma NibbleParity(l: nat)
    requires l < 16
    ensures EvenNibble(l) == (Isa.Ones(l) % 2 == 0)
  {
    match l
    case 0 => assert Isa.Ones(0) == 0;
    case 1 => assert Isa.Ones(1) == 1;
    case 2 => assert Isa.Ones(2) == 1;
    case 3 => assert Isa.Ones(3) == 2;
    case 4 => assert Isa.Ones(4) == 1;
    case 5 => assert Isa.Ones(5) == 2;
    case 6 => assert Isa.Ones(6) == 2;
    case 7 => assert Isa.Ones(7) == 3;
    case 8 => assert Isa.Ones(8) == 1;
    case 9 => assert Isa.Ones(9) == 2;
    case 10 => assert Isa.Ones(10) == 2;
    case 11 => assert Isa.Ones(11) == 3;
    case 12 => assert Isa.Ones(12) == 2;
    case 13 => assert Isa.Ones(13) == 3;
    case 14 => assert Isa.Ones(14) == 3;
    case _ => assert Isa.Ones(15) == 4;
  }

  /** The parity table holds "an even number of bits is set". */
  lemma ParityIsEven(v: byte)
    ensures Parity(v) == (Isa.Ones(v) % 2 == 0)
  {
    var h, l := v / 16, v % 16;
    assert v == 16 * h + l;
    OnesDigits(h, l);
    NibbleParity(h);
    NibbleParity(l);
    EvenSum(Isa.Ones(h), Isa.Ones(l));
  }

  lemma EvenSum(x: nat, y: nat)
    ensures ((x + y) % 2 == 0) == ((x % 2 == 0) == (y % 2 == 0))
  {
  }

  lemma ZspIsSzp(f: Flags, v: byte)
    ensures SetZSP(f, v) == Isa.Szp(f, v)
  {
    ParityIsEven(v);
  }

  lemma XorXorBit(w: nat, sum: nat, a: nat, b: nat, k: nat)
    requires k < w
    ensures Bit(Xor(w, Xor(w, sum, a), b), k) == ((Bit(sum, k) != Bit(a, k)) != Bit(b, k))
  {
    XorBit(w, sum, a, k);
    XorBit(w, Xor(w, sum, a), b, k);
  }

  /** The exclusive-or form of a carry out of bit 7 reads bit 8 of the sum. */
  lemma CarryBit8(a: byte, b: byte, cy: bool)
    ensures GetCarry(8, a, b, cy) == (a + b + Num(cy) >= 0x100)
  {
    var sum := a + b + Num(cy);
    XorXorBit(32, sum, a, b, 8);
    hide Bit, Xor;
    Bit8(sum); Bit8(a); Bit8(b);
  }

  predicate Bit4Set(n: nat) { n / 16 % 2 == 1 }

  lemma Bit4Is(n: nat)
    ensures Bit(n, 4) == Bit4Set(n)
  {
    Bit4(n);
  }

  lemma CarryBit4(a: byte, b: byte, cy: bool)
    ensures GetCarry(4, a, b, cy) == (a % 16 + b % 16 + Num(cy) >= 16)
  {
    hide Bit, Xor, Bit4Set;
    var sum := a + b + Num(cy);
    XorXorBit(32, sum, a, b, 4);
    Bit4Is(sum); Bit4Is(a); Bit4Is(b);
    NibbleCarry(a, b, Num(cy), sum);
  }

  lemma NibbleCarry(a: byte, b: byte, c: nat, sum: nat)
    requires c <= 1 && sum == a + b + c
    ensures Bit4Set(sum) == ((Bit4Set(a) != Bit4Set(b)) != (a % 16 + b % 16 + c >= 16))
  {
    var low := a % 16 + b % 16 + c;
    var carry := if low >= 16 then 1 else 0;
    var p, q := a / 16, b / 16;
    Quotient(sum, 16, p + q + carry, low - 16 * carry);
    OddSum(p, q, carry);
  }

  lemma OddSum(p: nat, q: nat, c: nat)
    requires c <= 1
    ensures ((p + q + c) % 2 == 1) == (((p % 2 == 1) != (q % 2 == 1)) != (c == 1))
  {
    Quotient(p + q + c, 2, p / 2 + q / 2 + (p % 2 + q % 2 + c) / 2, (p % 2 + q % 2 + c) % 2);
  }

  lemma AddFlagsMean(f: Flags, a: byte, b: byte, cy: bool, sum: byte)
    requires sum == (a + b + Num(cy)) % 0x100
    ensures SetZSP(f.(c := GetCarry(8, a, b, cy), ac := GetCarry(4, a, b, cy)), sum) == Isa.PlusFlags(f, a, b, Num(cy))
  {
    hide GetCarry, Parity, SetZSP;
    CarryBit8(a, b, cy);
    CarryBit4(a, b, cy);
    ZspIsSzp(f.(c := GetCarry(8, a, b, cy), ac := GetCarry(4, a, b, cy)), sum);
  }

  /** ADD: the sum with the carries of chapter 4. */
  lemma AddMeans(r: Regs, a: byte, b: byte, cy: bool)
    ensures Add(r, a, b, cy) == r.(a := (a + b + Num(cy)) % 0x100, f := Isa.PlusFlags(r.f, a, b, Num(cy)))
  {
    AddFlagsMean(r.f, a, b, cy, (a + b + Num(cy)) % 0x100);
  }

  lemma ComplementArith(a: byte, b: byte, c: nat)
    requires c <= 1
    ensures a + (0xFF - b) + (1 - c) == a - b - c + 0x100
    ensures (a + (0xFF - b) + (1 - c)) % 0x100 == (a - b - c) % 0x100
    ensures (0xFF - b) % 16 == 15 - b % 16
  {
    var d := a - b - c;
    assert (d + 0x100) % 0x100 == d % 0x100;
  }

  lemma ComplementFlags(f: Flags, a: byte, b: byte, c: nat, diff: byte)
    requires c <= 1 && diff == (a - b - c) % 0x100
    ensures var g := Isa.PlusFlags(f, a, 0xFF - b, 1 - c); g.(c := !g.c) == Isa.MinusFlags(f, a, b, c)
  {
    ComplementArith(a, b, c);
  }

  /** Adding the complement subtracts, and the inverted carry is the borrow. */
  lemma SubMeans(r: Regs, a: byte, b: byte, cy: bool)
    ensures Sub(r, a, b, cy) == r.(a := (a - b - Num(cy)) % 0x100, f := Isa.MinusFlags(r.f, a, b, Num(cy)))
  {
    hide Add, Isa.PlusFlags, Isa.MinusFlags;
    AddMeans(r, a, 0xFF - b, !cy);
    ComplementArith(a, b, Num(cy));
    ComplementFlags(r.f, a, b, Num(cy), (a - b - Num(cy)) % 0x100);
    assert Num(!cy) == 1 - Num(cy);
  }

  lemma CompareCarry(a: byte, b: byte)
    ensures ((a - b) % 0x200 >= 0x100) == (a < b)
  {
    if a < b { assert (a - b) % 0x200 == a - b + 0x200; }
  }

  lemma CompareAux(a: byte, b: byte, low: byte)
    requires low == (a - b) % 0x100
    ensures !Bit(XorByte(XorByte(a, low), b), 4) == (a % 16 >= b % 16)
  {
    Pow2Of8();
    XorXorBit(8, a, low, b, 4);
    hide Bit, Xor, Bit4Set;
    Bit4Is(a); Bit4Is(b); Bit4Is(low);
    NibbleBorrow(a, b, low);
  }

  /** CMP sets the flags of a subtraction. */
  lemma CompareMeans(r: Regs, a: byte, b: byte)
    ensures Compare(r, a, b) == r.(f := Isa.MinusFlags(r.f, a, b, 0))
  {
    var low: byte := (a - b) % 0x100;
    CompareCarry(a, b);
    CompareAux(a, b, low);
    ZspIsSzp(r.f.(c := (a - b) % 0x200 >= 0x100, ac := !Bit(XorByte(XorByte(a, low), b), 4)), low);
  }

  lemma NibbleBorrow(a: byte, b: byte, low: byte)
    requires low == (a - b) % 0x100
    ensures (Bit4Set(low) != (Bit4Set(a) != Bit4Set(b))) == (a % 16 < b % 16)
  {
    var k := if a < b then 1 else 0;
    Quotient(a - b, 0x100, -k, a - b + 0x100 * k);
    var borrow := if a % 16 < b % 16 then 1 else 0;
    var p, q := a / 16, b / 16;
    var v := p - q + 16 * k - borrow;
    Quotient(low, 16, v, a % 16 - b % 16 + 16 * borrow);
    OddDifference(v, p, q, 8 * k, borrow);
  }

  lemma OddDifference(v: nat, p: nat, q: nat, h: nat, b: nat)
    requires b <= 1 && v == p - q + 2 * h - b
    ensures (v % 2 == 1) == (((p % 2 == 1) != (q % 2 == 1)) != (b == 1))
  {
    OddSum(v, q, b);
    OddSum(v + q + b, p, 0);
    Quotient(v + q + b, 2, p / 2 + h, p % 2);
  }

  lemma IncAux(f: Flags, v: byte, v': byte)
    requires v' == (v + 1) % 0x100
    ensures IncFlags(f, v') == Isa.PlusFlags(f, v, 1, 0).(c := f.c)
  {
    ZspIsSzp(f.(ac := v' % 16 == 0), v');
    IncNibble(v, v');
  }

  lemma IncNibble(v: byte, v': byte)
    requires v' == (v + 1) % 0x100
    ensures (v' % 16 == 0) == (v % 16 + 1 >= 16)
    ensures (v % 16 != 0) == (v % 16 >= 1)
  {
  }

  lemma DecAux(f: Flags, v: byte, v': byte)
    requires v' == (v - 1) % 0x100
    ensures DecFlags(f, v') == Isa.MinusFlags(f, v, 1, 0).(c := f.c)
  {
    ZspIsSzp(f.(ac := v' % 16 != 15), v');
    DecNibble(v, v');
  }

  lemma DecNibble(v: byte, v': byte)
    requires v' == (v - 1) % 0x100
    ensures (v' % 16 != 15) == (v % 16 >= 1)
  {
  }

  lemma IncMeans(f: Flags, v: byte)
    ensures IncFlags(f, Inc(v)) == Isa.PlusFlags(f, v, 1, 0).(c := f.c)
  {
    IncAux(f, v, Inc(v));
  }

  lemma DecMeans(f: Flags, v: byte)
    ensures DecFlags(f, Dec(v)) == Isa.MinusFlags(f, v, 1, 0).(c := f.c)
  {
    DecAux(f, v, Dec(v));
  }

  lemma DaaMeans(r: Regs)
    ensures DaaAcc(r) == Isa.Adjust(r)
  {
    var low := if r.f.ac || r.a % 16 > 9 then 6 else 0;
    var high := r.f.c || r.a / 16 > 9 || (r.a / 16 >= 9 && r.a % 16 > 9);
    assert high == (r.f.c || r.a + low > 0x9F);
    AddMeans(r, r.a, low + (if high then 0x60 else 0), false);
  }

  lemma NibbleRoundTrip(n: Nibble)
    ensures NibbleOf(Digit(n)) == n
  {
  }

  /** F survives the trip through its byte. */
  lemma FlagsRoundTrip(f: Flags)
    ensures FlagsOf(FlagByte(f)) == f
  {
    NibbleRoundTrip(Nibble(f.s, f.z, f.b5, f.ac));
    NibbleRoundTrip(Nibble(f.b3, f.p, f.b1, f.c));
    HexDigits(Digit(Nibble(f.s, f.z, f.b5, f.ac)), Digit(Nibble(f.b3, f.p, f.b1, f.c)));
  }

  lemma HexDigits(h: nat, l: nat)
    requires l < 16
    ensures (16 * h + l) / 16 == h && (16 * h + l) % 16 == l
  {
  }
}
