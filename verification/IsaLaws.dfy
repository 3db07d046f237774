/** Laws of the atomic instruction set that do not mention how an instruction is carried out: rotations move bits, what is
    pushed is popped, a call returns. */
module IsaLaws {
  import opened Bytes
  import opened Memory
  import Cpu
  import opened Isa

  // ---- Rotations --------------------------------------------------------------------

  /** RLC and RAL move every bit one place up, RRC and RAR one place down; the bit that leaves goes to the carry, and RLC
      and RRC bring it in at the other end, RAL and RAR the old carry. */
  predicate Rotates(i: Instr, r: Regs, t: Regs)
  {
    match i
    case RLC => (forall k: nat :: k < 8 ==> Bit(t.a, k) == Bit(r.a, if k == 0 then 7 else k - 1)) && t.f.c == Bit(r.a, 7)
    case RAL => (forall k: nat :: k < 8 ==> Bit(t.a, k) == if k == 0 then r.f.c else Bit(r.a, k - 1)) && t.f.c == Bit(r.a, 7)
    case RRC => (forall k: nat :: k < 8 ==> Bit(t.a, k) == Bit(r.a, if k == 7 then 0 else k + 1)) && t.f.c == Bit(r.a, 0)
    case RAR => (forall k: nat :: k < 8 ==> Bit(t.a, k) == if k == 7 then r.f.c else Bit(r.a, k + 1)) && t.f.c == Bit(r.a, 0)
    case _ => true
  }

  lemma UpBit(a: byte, carry: nat, k: nat)
    requires carry < 2 && k < 8
    ensures Bit(a % 0x80 * 2 + carry, k) == if k == 0 then carry == 1 else Bit(a, k - 1)
  {
    hide Bit;
    PowersOf2();
    BitsOfConcat(a % 0x80, carry, 1, k);
    OneDigit(carry);
    if k > 0 {
      assert a == a / 0x80 * 0x80 + a % 0x80;
      BitsOfConcat(a / 0x80, a % 0x80, 7, k - 1);
    }
  }

  lemma DownBit(a: byte, carry: nat, k: nat)
    requires carry < 2 && k < 8
    ensures Bit(carry * 0x80 + a / 2, k) == if k == 7 then carry == 1 else Bit(a, k + 1)
  {
    PowersOf2();
    BitsOfConcat(carry, a / 2, 7, k);
    OneDigit(carry);
    assert Bit(a, k + 1) == Bit(a / 2, k);
    hide Bit;
  }

  lemma PowersOf2()
    ensures Pow2(1) == 2 && Pow2(7) == 0x80
  {
    assert Pow2(4) == 16;
    assert Pow2(7) == 8 * Pow2(4);
  }

  lemma OneDigit(n: nat)
    requires n < 2
    ensures Bit(n, 0) == (n == 1)
  {
  }

  lemma LeftRotates(i: Instr, r: Regs)
    requires i.RLC? || i.RAL?
    ensures Rotates(i, r, ExecAcc(i, r))
  {
    hide Bit;
    TopBit(r.a);
    forall k: nat | k < 8
      ensures Bit(ExecAcc(i, r).a, k) == if k == 0 then (if i.RLC? then Bit(r.a, 7) else r.f.c) else Bit(r.a, k - 1)
    {
      UpBit(r.a, if i.RLC? then r.a / 0x80 else Cpu.Num(r.f.c), k);
    }
  }

  lemma RightRotates(i: Instr, r: Regs)
    requires i.RRC? || i.RAR?
    ensures Rotates(i, r, ExecAcc(i, r))
  {
    hide Bit;
    TopBit(r.a);
    forall k: nat | k < 8
      ensures Bit(ExecAcc(i, r).a, k) == if k == 7 then (if i.RRC? then Bit(r.a, 0) else r.f.c) else Bit(r.a, k + 1)
    {
      DownBit(r.a, if i.RRC? then r.a % 2 else Cpu.Num(r.f.c), k);
    }
  }

  lemma TopBit(v: byte)
    ensures Bit(v, 7) == (v / 0x80 == 1) && Bit(v, 0) == (v % 2 == 1)
  {
    hide Bit;
    ByteBits(v);
  }

  /** Every rotation, for every A and carry, and nothing else changes but PC. */
  lemma RotationMeans(dev: Cpu.Devices, s: Arch)
    requires Current(s).RLC? || Current(s).RAL? || Current(s).RRC? || Current(s).RAR?
    ensures var t := Step(dev, s);
            && Rotates(Current(s), s.regs, t.regs)
            && t == s.(regs := s.regs.(a := t.regs.a, f := s.regs.f.(c := t.regs.f.c), pc := Wrap(s.regs.pc + 1)))
  {
    ExecComputeCases(dev, Current(s), s);
    if Current(s).RLC? || Current(s).RAL? { LeftRotates(Current(s), s.regs); } else { RightRotates(Current(s), s.regs); }
    hide Bit, Decode, Rotates, Exec, ExecAcc;
    OnlyAcc(Current(s), s.regs);
  }

  lemma OnlyAcc(i: Instr, r: Regs)
    requires i.RLC? || i.RAL? || i.RRC? || i.RAR?
    ensures var t := ExecAcc(i, r); t == r.(a := t.a, f := r.f.(c := t.f.c))
  {
    hide Adjust;
    match i case RLC => case RAL => case RRC => case _ =>
  }

  // ---- The stack ----------------------------------------------------------------------

  /** The boot ROM does not cover the two bytes below SP. */
  predicate StackInRam(s: Arch)
  {
    s.mem.romOn ==> Translate(s.mem, Wrap(s.regs.sp - 1), Stack) >= |s.mem.rom| && Translate(s.mem, Wrap(s.regs.sp - 2), Stack) >= |s.mem.rom|
  }

  lemma SpBack(sp: word)
    ensures Wrap(Wrap(sp - 2) + 1) == Wrap(sp - 1) && Wrap(Wrap(sp - 2) + 2) == sp && Wrap(sp - 1) != Wrap(sp - 2)
  {
  }

  lemma SameTranslation(m: Mem, n: Mem, a: word)
    requires m.mapping == n.mapping && m.disk == n.disk
    ensures Translate(m, a, Stack) == Translate(n, a, Stack)
  {
  }

  /** Two bytes pushed are the two on top. */
  lemma PushedOnTop(s: Arch, h: byte, l: byte)
    requires StackInRam(s)
    ensures var t := PushBytes(s, h, l);
            && TopHigh(t) == h && TopLow(t) == l && t.regs == s.regs.(sp := Wrap(s.regs.sp - 2)) && Wrap(t.regs.sp + 2) == s.regs.sp
            && t.mem.mapping == s.mem.mapping && t.mem.disk == s.mem.disk && t.mem.rom == s.mem.rom && t.mem.romOn == s.mem.romOn
  {
    hide Translate, Low16;
    var sp: int := s.regs.sp;
    SpBack(s.regs.sp);
    var t := PushBytes(s, h, l);
    var m1 := Memory.Write(s.mem, Wrap(sp - 1), h, Stack);
    SameTranslation(s.mem, m1, Wrap(sp - 2));
    SameTranslation(s.mem, t.mem, Wrap(sp - 2));
    SameTranslation(s.mem, t.mem, Wrap(sp - 1));
    TranslateKeepsLow16(s.mem, Wrap(sp - 1), Stack);
    TranslateKeepsLow16(s.mem, Wrap(sp - 2), Stack);
  }

  /** PUSH of one pair and POP of any other, executed one after the other wherever they are, move the first into the
      second and leave SP where it was. */
  lemma PushPop(dev: Cpu.Devices, s: Arch, u: Arch, from: RegPair, to: RegPair)
    requires Current(s) == PUSH(from) && StackInRam(s) && from != SP && to != SP
    requires u.mem == Step(dev, s).mem && u.regs.sp == Step(dev, s).regs.sp && Current(u) == POP(to)
    ensures var t := Step(dev, u).regs;
            && t.sp == s.regs.sp && HighByte(t, to) == HighByte(s.regs, from)
            && (to != PSW ==> LowByte(t, to) == LowByte(s.regs, from))
  {
    hide Decode, Read, Memory.Write, Translate, Cpu.FlagByte, Cpu.FlagsOf, Wrap;
    ExecStackCases(dev, PUSH(from), s);
    ExecStackCases(dev, POP(to), u);
    PushedOnTop(s, HighByte(s.regs, from), LowByte(s.regs, from));
  }

  /** After a taken CALL or an RST, a taken return that finds the stack as the call left it goes on right after the call,
      with SP where it was. */
  lemma CallReturn(dev: Cpu.Devices, s: Arch, u: Arch)
    requires StackInRam(s) && (Current(s).RST? || (Current(s).CALL? && Met(s.regs.f, Current(s).cond)))
    requires u.mem == Step(dev, s).mem && u.regs.sp == Step(dev, s).regs.sp
    requires Current(u).RET? && Met(u.regs.f, Current(u).cond)
    ensures Step(dev, u).regs.sp == s.regs.sp
    ensures Step(dev, u).regs.pc == Wrap(s.regs.pc + if Current(s).RST? then 1 else 3)
    ensures Step(dev, s).regs.pc == if Current(s).RST? then 8 * Current(s).n else Data16(s)
  {
    hide Decode, Read, Memory.Write, Translate, Wrap, Met;
    ExecBranchCases(dev, Current(s), s);
    ExecBranchCases(dev, Current(u), u);
    var ret := Wrap(s.regs.pc + if Current(s).RST? then 1 else 3);
    PushedOnTop(s, ret / 0x100, ret % 0x100);
  }
}
