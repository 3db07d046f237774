/** What the logic instructions and the flag register mean, bit by bit (libs/v6core/src/cpu_i8080.cpp). */
module CpuLogic {
  import opened Bytes
  import opened Memory
  import Cpu
  import opened Isa

  /** The register, memory or immediate operand of an arithmetic instruction. */
  function OperandOf(s: Arch): (v: byte)
    requires Current(s).AluR? || Current(s).AluI?
  {
    match Current(s)
    case AluR(_, o) => Get(s, o)
    case _ => Byte2(s)
  }

  /** One bit of the result from that bit of A and of the operand. */
  predicate BitOf(op: AluOp, a: bool, v: bool)
    requires op == ANA || op == XRA || op == ORA
  {
    match op
    case ANA => a && v
    case XRA => a != v
    case _ => a || v
  }

  lemma AluBits(r: Regs, op: AluOp, v: byte, k: nat)
    requires (op == ANA || op == XRA || op == ORA) && k < 8
    ensures Bit(Alu(r, op, v).a, k) == BitOf(op, Bit(r.a, k), Bit(v, k))
  {
    hide Bit, And, Or, Xor;
    match op
    case ANA => AndBit(8, r.a, v, k);
    case XRA => XorBit(8, r.a, v, k);
    case ORA => OrBit(8, r.a, v, k);
    case _ =>
  }

  /** Some bit of a byte other than zero is set. */
  predicate SomeSet(v: byte) { Bit(v, 0) || Bit(v, 1) || Bit(v, 2) || Bit(v, 3) || Bit(v, 4) || Bit(v, 5) || Bit(v, 6) || Bit(v, 7) }

  lemma ZeroBits(v: byte)
    ensures SomeSet(v) <==> v != 0
  {
    hide Bit;
    if v == 0 {
      ZeroBit(0); ZeroBit(1); ZeroBit(2); ZeroBit(3); ZeroBit(4); ZeroBit(5); ZeroBit(6); ZeroBit(7);
    } else {
      Pow2Of8();
      var k := SomeBit(v, 8);
      assert k == 0 || k == 1 || k == 2 || k == 3 || k == 4 || k == 5 || k == 6 || k == 7;
    }
  }

  lemma {:induction false} SomeBit(n: nat, width: nat) returns (k: nat)
    requires 0 < n < Pow2(width)
    ensures k < width && Bit(n, k)
  {
    k := 0;
    if n % 2 == 0 {
      var j := SomeBit(n / 2, width - 1);
      k := j + 1;
    }
  }

  lemma {:induction false} ZeroBit(k: nat)
    ensures !Bit(0, k)
  {
    if k > 0 { ZeroBit(k - 1); }
  }

  lemma LogicStep(dev: Cpu.Devices, s: Arch)
    requires Current(s).AluR? || Current(s).AluI?
    ensures Step(dev, s) == Next(WithRegs(s, Alu(s.regs, Current(s).op, OperandOf(s))), if Current(s).AluR? then 1 else 2)
  {
    hide Alu, Get, Byte2, Next, Exec, Current;
    ExecComputeCases(dev, Current(s), s);
  }

  /** Every bit of A and every flag of a logic operation from the bits of the two operands. */
  predicate Combines(r: Regs, op: AluOp, v: byte, r': Regs)
    requires op == ANA || op == XRA || op == ORA
  {
    && (forall k: nat :: k < 8 ==> (Bit(r'.a, k) == BitOf(op, Bit(r.a, k), Bit(v, k))))
    && (r'.f.z <==> !SomeSet(r'.a))
    && r'.f.s == BitOf(op, Bit(r.a, 7), Bit(v, 7)) && !r'.f.c
    && r'.f.ac == (op == ANA && (Bit(r.a, 3) || Bit(v, 3)))
    && (r'.f.p <==> Ones(r'.a) % 2 == 0)
    && r' == r.(a := r'.a, f := r.f.(z := r'.f.z, s := r'.f.s, c := false, ac := r'.f.ac, p := r'.f.p), pc := r'.pc)
  }

  lemma AluCombines(r: Regs, op: AluOp, v: byte)
    requires op == ANA || op == XRA || op == ORA
    ensures Combines(r, op, v, Alu(r, op, v))
  {
    hide Bit, And, Or, Xor, Ones, BitOf, SomeSet;
    var t := Alu(r, op, v);
    forall k: nat | k < 8 ensures Bit(t.a, k) == BitOf(op, Bit(r.a, k), Bit(v, k)) { AluBits(r, op, v, k); }
    ZeroBits(t.a);
    ByteBits(t.a);
    OrBit(8, r.a, v, 3);
  }

  /** ANA, XRA and ORA, with a register, M or an immediate: every bit of A and every flag from the bits of the two
      operands, carry clear, the auxiliary carry of ANA from bit 3 of both, and nothing else changed but PC. */
  lemma LogicMeans(dev: Cpu.Devices, s: Arch)
    requires Current(s).AluR? || Current(s).AluI?
    requires Current(s).op == ANA || Current(s).op == XRA || Current(s).op == ORA
    ensures var t := Step(dev, s);
            && Combines(s.regs, Current(s).op, OperandOf(s), t.regs) && t == s.(regs := t.regs)
            && t.regs.pc == Wrap(s.regs.pc + if Current(s).AluR? then 1 else 2)
  {
    LogicStep(dev, s);
    AluCombines(s.regs, Current(s).op, OperandOf(s));
    AluKeepsPc(s.regs, Current(s).op, OperandOf(s));
    hide Bit, Alu, Step, Current, OperandOf, BitOf, Ones, SomeSet;
  }

  lemma AluKeepsPc(r: Regs, op: AluOp, v: byte)
    ensures Alu(r, op, v).pc == r.pc
  {
    hide PlusFlags, MinusFlags, Szp, AndByte, OrByte, XorByte, Bit;
  }

  // ---- The flag register -----------------------------------------------------

  /** Bits 7, 6, 4, 2 and 0 of F are S, Z, AC, P and C; bit 1 is set, bits 5 and 3 are clear. */
  predicate HoldsFlags(v: byte, f: Cpu.Flags)
  {
    && Bit(v, 7) == f.s && Bit(v, 6) == f.z && Bit(v, 4) == f.ac && Bit(v, 2) == f.p && Bit(v, 0) == f.c
  }

  lemma FlagByteBits(f: Cpu.Flags)
    ensures HoldsFlags(Cpu.FlagByte(f), f)
    ensures var v := Cpu.FlagByte(f); Bit(v, 5) == f.b5 && Bit(v, 3) == f.b3 && Bit(v, 1) == f.b1
  {
    hide Bit, DigitAt;
    var v := Cpu.FlagByte(f);
    ByteDigits(v);
    EightDigits(v, Cpu.Num(f.s), Cpu.Num(f.z), Cpu.Num(f.b5), Cpu.Num(f.ac), Cpu.Num(f.b3), Cpu.Num(f.p), Cpu.Num(f.b1), Cpu.Num(f.c));
  }

  lemma EightDigits(v: nat, n7: nat, n6: nat, n5: nat, n4: nat, n3: nat, n2: nat, n1: nat, n0: nat)
    requires n7 < 2 && n6 < 2 && n5 < 2 && n4 < 2 && n3 < 2 && n2 < 2 && n1 < 2 && n0 < 2
    requires v == 16 * (8 * n7 + 4 * n6 + 2 * n5 + n4) + (8 * n3 + 4 * n2 + 2 * n1 + n0)
    ensures DigitAt(v, 128) == n7 && DigitAt(v, 64) == n6 && DigitAt(v, 32) == n5 && DigitAt(v, 16) == n4
    ensures DigitAt(v, 8) == n3 && DigitAt(v, 4) == n2 && DigitAt(v, 2) == n1 && DigitAt(v, 1) == n0
  {
    hide DigitAt;
    Weighted(v, 1, 64 * n7 + 32 * n6 + 16 * n5 + 8 * n4 + 4 * n3 + 2 * n2 + n1, n0, 0);
    Weighted(v, 2, 32 * n7 + 16 * n6 + 8 * n5 + 4 * n4 + 2 * n3 + n2, n1, n0);
    Weighted(v, 4, 16 * n7 + 8 * n6 + 4 * n5 + 2 * n4 + n3, n2, 2 * n1 + n0);
    Weighted(v, 8, 8 * n7 + 4 * n6 + 2 * n5 + n4, n3, 4 * n2 + 2 * n1 + n0);
    Weighted(v, 16, 4 * n7 + 2 * n6 + n5, n4, 8 * n3 + 4 * n2 + 2 * n1 + n0);
    Weighted(v, 32, 2 * n7 + n6, n5, 16 * n4 + 8 * n3 + 4 * n2 + 2 * n1 + n0);
    Weighted(v, 64, n7, n6, 32 * n5 + 16 * n4 + 8 * n3 + 4 * n2 + 2 * n1 + n0);
    Weighted(v, 128, 0, n7, 64 * n6 + 32 * n5 + 16 * n4 + 8 * n3 + 4 * n2 + 2 * n1 + n0);
  }

  function DigitAt(v: nat, weight: nat): (d: nat)
    requires weight > 0
  {
    v / weight % 2
  }

  lemma ByteDigits(v: byte)
    ensures Bit(v, 0) == (DigitAt(v, 1) == 1) && Bit(v, 1) == (DigitAt(v, 2) == 1) && Bit(v, 2) == (DigitAt(v, 4) == 1)
    ensures Bit(v, 3) == (DigitAt(v, 8) == 1) && Bit(v, 4) == (DigitAt(v, 16) == 1) && Bit(v, 5) == (DigitAt(v, 32) == 1)
    ensures Bit(v, 6) == (DigitAt(v, 64) == 1) && Bit(v, 7) == (DigitAt(v, 128) == 1)
  {
    hide Bit;
    ByteBits(v);
  }

  lemma Weighted(v: nat, weight: nat, hi: nat, digit: nat, lo: nat)
    requires weight > 0 && v == weight * (2 * hi + digit) + lo && digit < 2 && lo < weight
    ensures DigitAt(v, weight) == digit
  {
    Quotient(v, weight, 2 * hi + digit, lo);
    Quotient(2 * hi + digit, 2, hi, digit);
  }

  lemma FlagsOfBits(v: byte)
    ensures HoldsFlags(v, Cpu.FlagsOf(v))
  {
    hide Bit;
    var f := Cpu.FlagsOf(v);
    NibbleIsDigit(v / 16);
    NibbleIsDigit(v % 16);
    assert Cpu.FlagByte(f) == 16 * (v / 16) + v % 16;
    FlagByteBits(f);
  }

  lemma NibbleIsDigit(d: nat)
    requires d < 16
    ensures Cpu.Digit(Cpu.NibbleOf(d)) == d
  {
  }

  lemma WriteKeepsTranslation(m: Mem, addr: word, v: byte, space: Space)
    ensures forall a: word, sp: Space :: Translate(Memory.Write(m, addr, v, space), a, sp) == Translate(m, a, sp)
  {
  }

  /** PUSH PSW leaves A above F on the stack, the flags in their bits and the constant bits of a reachable F in place. */
  lemma PushPswMeans(dev: Cpu.Devices, s: Arch)
    requires Current(s) == PUSH(PSW)
    ensures var t := Step(dev, s);
            var low := t.mem.ram[Translate(s.mem, Wrap(s.regs.sp - 2), Stack)];
            && t.regs.sp == Wrap(s.regs.sp - 2)
            && t.mem.ram[Translate(s.mem, Wrap(s.regs.sp - 1), Stack)] == s.regs.a
            && HoldsFlags(low, s.regs.f)
            && (Cpu.FlagsOk(s.regs.f) ==> Bit(low, 1) && !Bit(low, 3) && !Bit(low, 5))
  {
    hide Bit, Cpu.FlagByte, Decode, Translate, Low16;
    ExecStackCases(dev, PUSH(PSW), s);
    FlagByteBits(s.regs.f);
    WriteKeepsTranslation(s.mem, Wrap(s.regs.sp - 1), s.regs.a, Stack);
    TranslateKeepsLow16(s.mem, Wrap(s.regs.sp - 1), Stack);
    TranslateKeepsLow16(s.mem, Wrap(s.regs.sp - 2), Stack);
  }

  /** POP PSW takes the flags from their bits of the byte under SP and A from the byte above it. */
  lemma PopPswMeans(dev: Cpu.Devices, s: Arch)
    requires Current(s) == POP(PSW)
    ensures var t := Step(dev, s);
            && t.regs.sp == Wrap(s.regs.sp + 2) && t.regs.a == TopHigh(s)
            && HoldsFlags(TopLow(s), t.regs.f) && Cpu.FlagsOk(t.regs.f)
  {
    hide Bit, Cpu.FlagsOf, Decode, TopLow, TopHigh;
    ExecStackCases(dev, POP(PSW), s);
    FlagsOfBits(TopLow(s));
  }
}
