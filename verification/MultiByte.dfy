/** Multi-byte arithmetic as programs do it: ADD, SUB and DAA chained through the carry flag. */
module MultiByte {
  import opened Bytes
  import opened Cpu
  import opened CpuFlags
  import Isa

  function Power(base: nat, n: nat): (r: nat)
    requires base > 0
    ensures r > 0
  {
    if n == 0 then 1 else base * Power(base, n - 1)
  }

  /** The number a little-endian byte sequence stands for. */
  function Value(xs: seq<byte>): (v: nat)
  {
    if xs == [] then 0 else xs[0] + 0x100 * Value(xs[1..])
  }

  datatype Sum = Sum(digits: seq<byte>, carry: bool)

  /** ADC over all bytes, lowest first; the carry flag links them. */
  function AddAll(r: Regs, xs: seq<byte>, ys: seq<byte>, cy: bool): (s: Sum)
    requires |xs| == |ys|
    decreases |xs|
  {
    if xs == [] then Sum([], cy)
    else
      var t := Add(r, xs[0], ys[0], cy);
      var rest := AddAll(t, xs[1..], ys[1..], t.f.c);
      Sum([t.a] + rest.digits, rest.carry)
  }

  /** SBB over all bytes. */
  function SubAll(r: Regs, xs: seq<byte>, ys: seq<byte>, cy: bool): (s: Sum)
    requires |xs| == |ys|
    decreases |xs|
  {
    if xs == [] then Sum([], cy)
    else
      var t := Sub(r, xs[0], ys[0], cy);
      var rest := SubAll(t, xs[1..], ys[1..], t.f.c);
      Sum([t.a] + rest.digits, rest.carry)
  }

  /** ADC then DAA over all bytes. */
  function AddDecimal(r: Regs, xs: seq<byte>, ys: seq<byte>, cy: bool): (s: Sum)
    requires |xs| == |ys|
    decreases |xs|
  {
    if xs == [] then Sum([], cy)
    else
      var t := DaaAcc(Add(r, xs[0], ys[0], cy));
      var rest := AddDecimal(t, xs[1..], ys[1..], t.f.c);
      Sum([t.a] + rest.digits, rest.carry)
  }

  lemma ByteSum(r: Regs, x: byte, y: byte, cy: bool)
    ensures var t := Add(r, x, y, cy); t.a + 0x100 * Num(t.f.c) == x + y + Num(cy)
  {
    hide Add, Isa.Szp;
    AddMeans(r, x, y, cy);
  }

  lemma ByteDifference(r: Regs, x: byte, y: byte, cy: bool)
    ensures var t := Sub(r, x, y, cy); t.a == x - y - Num(cy) + 0x100 * Num(t.f.c)
  {
    hide Sub, Isa.Szp;
    SubMeans(r, x, y, cy);
  }

  /** The chained sum with its last carry is the sum of the numbers, for any length. */
  lemma {:induction false} AddAllIsSum(r: Regs, xs: seq<byte>, ys: seq<byte>, cy: bool)
    requires |xs| == |ys|
    ensures var s := AddAll(r, xs, ys, cy);
            && |s.digits| == |xs|
            && Value(s.digits) + Power(0x100, |xs|) * Num(s.carry) == Value(xs) + Value(ys) + Num(cy)
    decreases |xs|
  {
    hide Add;
    if xs != [] {
      var t := Add(r, xs[0], ys[0], cy);
      var rest := AddAll(t, xs[1..], ys[1..], t.f.c);
      ByteSum(r, xs[0], ys[0], cy);
      AddAllIsSum(t, xs[1..], ys[1..], t.f.c);
      assert ([t.a] + rest.digits)[1..] == rest.digits;
      var p := Power(0x100, |xs| - 1);
      assert 0x100 * (p * Num(rest.carry)) == (0x100 * p) * Num(rest.carry);
    }
  }

  /** The chained difference with its last borrow is the difference of the numbers. */
  lemma {:induction false} SubAllIsDifference(r: Regs, xs: seq<byte>, ys: seq<byte>, cy: bool)
    requires |xs| == |ys|
    ensures var s := SubAll(r, xs, ys, cy);
            && |s.digits| == |xs|
            && Value(s.digits) == Value(xs) - Value(ys) - Num(cy) + Power(0x100, |xs|) * Num(s.carry)
    decreases |xs|
  {
    hide Sub;
    if xs != [] {
      var t := Sub(r, xs[0], ys[0], cy);
      var rest := SubAll(t, xs[1..], ys[1..], t.f.c);
      ByteDifference(r, xs[0], ys[0], cy);
      SubAllIsDifference(t, xs[1..], ys[1..], t.f.c);
      assert ([t.a] + rest.digits)[1..] == rest.digits;
      var p := Power(0x100, |xs| - 1);
      assert 0x100 * (p * Num(rest.carry)) == (0x100 * p) * Num(rest.carry);
    }
  }

  // ---- packed decimal -------------------------------------------------------

  predicate IsBcd(b: byte) { b / 16 <= 9 && b % 16 <= 9 }

  function Decimal(b: byte): (v: nat) { 10 * (b / 16) + b % 16 }

  function DecimalValue(xs: seq<byte>): (v: nat)
  {
    if xs == [] then 0 else Decimal(xs[0]) + 100 * DecimalValue(xs[1..])
  }

  /** The sum of two packed bytes before adjustment, by digit sums `h` and `l`. */
  lemma AdjustDigits(f: Flags, r: Regs, h: nat, l: nat)
    requires h <= 18 && l <= 19 && r.f == f
    requires r.a == (16 * h + l) % 0x100 && f.c == (16 * h + l >= 0x100) && f.ac == (l >= 16)
    ensures var t := Isa.Adjust(r);
            var h' := h + (if l >= 10 then 1 else 0);
            var l' := if l >= 10 then l - 10 else l;
            && t.f.c == (h' >= 10)
            && t.a == 16 * (if h' >= 10 then h' - 10 else h') + l'
  {
    hide Isa.PlusFlags;
    var low := if l >= 10 then 6 else 0;
    LowDigit(h, l, r.a);
    assert low == (if r.a % 16 > 9 || f.ac then 6 else 0);
    var h' := h + (if l >= 10 then 1 else 0);
    var l' := if l >= 10 then l - 10 else l;
    assert 16 * h + l + low == 16 * h' + l';
    assert (f.c || r.a + low > 0x9F) == (h' >= 10);
  }

  lemma LowDigit(h: nat, l: nat, a: byte)
    requires h <= 18 && l <= 19 && a == (16 * h + l) % 0x100
    ensures a == 16 * h + l || a == 16 * h + l - 0x100
    ensures a % 16 == (if l >= 16 then l - 16 else l)
  {
    assert 16 * h + l < 0x200;
    if l >= 16 {
      assert 16 * h + l == 16 * (h + 1) + (l - 16);
    }
  }

  /** ADD with carry, then DAA: the decimal sum of two packed bytes, again packed. */
  lemma DecimalByte(r: Regs, x: byte, y: byte, cy: bool)
    requires IsBcd(x) && IsBcd(y)
    ensures var t := DaaAcc(Add(r, x, y, cy));
            IsBcd(t.a) && Decimal(t.a) + 100 * Num(t.f.c) == Decimal(x) + Decimal(y) + Num(cy)
  {
    hide Add, DaaAcc, Isa.Szp, Isa.Adjust;
    var s := Add(r, x, y, cy);
    AddMeans(r, x, y, cy);
    var h := x / 16 + y / 16;
    var l := x % 16 + y % 16 + Num(cy);
    assert x + y + Num(cy) == 16 * h + l;
    AdjustDigits(s.f, s, h, l);
    DaaMeans(s);
    var h' := h + (if l >= 10 then 1 else 0);
    var l' := if l >= 10 then l - 10 else l;
    HexDigits(if h' >= 10 then h' - 10 else h', l');
  }

  predicate AllBcd(xs: seq<byte>) { forall i :: 0 <= i < |xs| ==> IsBcd(xs[i]) }

  /** Chained ADC and DAA add decimal numbers of any length. */
  lemma {:induction false} AddDecimalIsSum(r: Regs, xs: seq<byte>, ys: seq<byte>, cy: bool)
    requires |xs| == |ys| && AllBcd(xs) && AllBcd(ys)
    ensures var s := AddDecimal(r, xs, ys, cy);
            && |s.digits| == |xs| && AllBcd(s.digits)
            && DecimalValue(s.digits) + Power(100, |xs|) * Num(s.carry) == DecimalValue(xs) + DecimalValue(ys) + Num(cy)
    decreases |xs|
  {
    hide Add, DaaAcc, IsBcd, Decimal;
    if xs != [] {
      var t := DaaAcc(Add(r, xs[0], ys[0], cy));
      var rest := AddDecimal(t, xs[1..], ys[1..], t.f.c);
      DecimalByte(r, xs[0], ys[0], cy);
      AddDecimalIsSum(t, xs[1..], ys[1..], t.f.c);
      assert ([t.a] + rest.digits)[1..] == rest.digits;
      var p := Power(100, |xs| - 1);
      assert 100 * (p * Num(rest.carry)) == (100 * p) * Num(rest.carry);
    }
  }
}
