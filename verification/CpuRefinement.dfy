/** Every instruction, run cycle by cycle, has the effect of the atomic instruction. */
module CpuRefinement {
  import opened Bytes
  import opened Memory
  import opened CpuDecode
  import opened Cpu
  import opened CpuFlags
  import opened CpuGroups
  import Isa

  /** What a program can observe of the machine. */
  function View(m: Machine): (s: Isa.Arch)
  {
    Isa.Arch(m.cpu.regs, m.cpu.ints.inte, m.mem, m.ports)
  }

  /** The machine as it was before the opcode fetch moved PC. */
  function Before(m: Machine): (s: Isa.Arch)
  {
    View(m).(regs := m.cpu.regs.(pc := Wrap(m.cpu.regs.pc - 1)))
  }

  /** The first cycle of a handler, run right after the fetch, and `k` further cycles of it. */
  function Ticks(step: Machine -> Machine, n: nat, m: Machine, irq: nat -> bool, k: nat): (m': Machine)
    requires n > 0
  {
    if k == 0 then Advance(step(m), n)
    else Advance(step(Latch(Ticks(step, n, m, irq, k - 1), irq(k))), n)
  }

  function StepOf(dev: Devices, h: Handler): (step: Machine -> Machine)
  {
    (m: Machine) => Handle(dev, h, m)
  }

  predicate Refined(dev: Devices, h: Handler, m: Machine, irq: nat -> bool, k: nat)
  {
    View(Ticks(StepOf(dev, h), Isa.HandlerCycles(h), m, irq, k)) == Isa.Exec(dev, Isa.Meaning(h), Before(m))
  }

  function AluOf(h: Handler): (op: Isa.AluOp)
  {
    match h
    case AddMem(cy) => if cy then Isa.ADC else Isa.ADD
    case Adi(cy) => if cy then Isa.ADC else Isa.ADD
    case AddReg(_, cy) => if cy then Isa.ADC else Isa.ADD
    case SubMem(cy) => if cy then Isa.SBB else Isa.SUB
    case Sbi(cy) => if cy then Isa.SBB else Isa.SUB
    case SubReg(_, cy) => if cy then Isa.SBB else Isa.SUB
    case AnaMem | Ani | AnaReg(_) => Isa.ANA
    case XraMem | Xri | XraReg(_) => Isa.XRA
    case OraMem | Ori | OraReg(_) => Isa.ORA
    case _ => Isa.CMP
  }

  lemma AddIsAlu(r: Regs, v: byte, carry: bool)
    ensures Add(r, r.a, v, carry && r.f.c) == Isa.Alu(r, if carry then Isa.ADC else Isa.ADD, v)
  {
    hide Add, Isa.PlusFlags;
    AddMeans(r, r.a, v, carry && r.f.c);
  }

  lemma SubIsAlu(r: Regs, v: byte, carry: bool)
    ensures Sub(r, r.a, v, carry && r.f.c) == Isa.Alu(r, if carry then Isa.SBB else Isa.SUB, v)
  {
    hide Sub, Isa.MinusFlags;
    SubMeans(r, r.a, v, carry && r.f.c);
  }

  lemma CompareIsAlu(r: Regs, v: byte)
    ensures Compare(r, r.a, v) == Isa.Alu(r, Isa.CMP, v)
  {
    hide Compare, Isa.MinusFlags;
    CompareMeans(r, r.a, v);
  }

  lemma LogicIsAlu(r: Regs, v: byte)
    ensures AndAcc(r, r.a, v) == Isa.Alu(r, Isa.ANA, v)
    ensures XorAcc(r, r.a, v) == Isa.Alu(r, Isa.XRA, v)
    ensures OrAcc(r, r.a, v) == Isa.Alu(r, Isa.ORA, v)
  {
    hide SetZSP, Isa.Szp, AndByte, OrByte, XorByte, Bit;
    ZspIsSzp(r.f.(c := false, ac := Bit(OrByte(r.a, v), 3)), AndByte(r.a, v));
    ZspIsSzp(r.f.(c := false, ac := false), XorByte(r.a, v));
    ZspIsSzp(r.f.(c := false, ac := false), OrByte(r.a, v));
    SzpKeeps(r.f, AndByte(r.a, v), false, Bit(OrByte(r.a, v), 3));
    SzpKeeps(r.f, XorByte(r.a, v), false, false);
    SzpKeeps(r.f, OrByte(r.a, v), false, false);
  }

  lemma SzpKeeps(f: Flags, v: byte, c: bool, ac: bool)
    ensures Isa.Szp(f.(c := c, ac := ac), v) == Isa.Szp(f, v).(c := c, ac := ac)
  {
  }

  lemma AluStepCases(h: Handler, r: Regs, v: byte)
    requires IsMemOperand(h) || IsImmOperand(h)
    ensures h.AddMem? || h.Adi? ==> AluStep(h, r, r.a, v) == Add(r, r.a, v, h.carry && r.f.c)
    ensures h.SubMem? || h.Sbi? ==> AluStep(h, r, r.a, v) == Sub(r, r.a, v, h.carry && r.f.c)
    ensures h.AnaMem? || h.Ani? ==> AluStep(h, r, r.a, v) == AndAcc(r, r.a, v)
    ensures h.XraMem? || h.Xri? ==> AluStep(h, r, r.a, v) == XorAcc(r, r.a, v)
    ensures h.OraMem? || h.Ori? ==> AluStep(h, r, r.a, v) == OrAcc(r, r.a, v)
    ensures h.CmpMem? || h.Cpi? ==> AluStep(h, r, r.a, v) == Compare(r, r.a, v)
  {
    hide Add, Sub, Compare, AndAcc, XorAcc, OrAcc;
  }

  lemma AluOfCases(h: Handler)
    ensures h.AddMem? || h.Adi? || h.AddReg? ==> AluOf(h) == if h.carry then Isa.ADC else Isa.ADD
    ensures h.SubMem? || h.Sbi? || h.SubReg? ==> AluOf(h) == if h.carry then Isa.SBB else Isa.SUB
    ensures h.AnaMem? || h.Ani? || h.AnaReg? ==> AluOf(h) == Isa.ANA
    ensures h.XraMem? || h.Xri? || h.XraReg? ==> AluOf(h) == Isa.XRA
    ensures h.OraMem? || h.Ori? || h.OraReg? ==> AluOf(h) == Isa.ORA
    ensures h.CmpMem? || h.Cpi? || h.CmpReg? ==> AluOf(h) == Isa.CMP
  {
  }

  lemma AluMeans(h: Handler, r: Regs, v: byte)
    requires IsMemOperand(h) || IsImmOperand(h)
    ensures AluStep(h, r, r.a, v) == Isa.Alu(r, AluOf(h), v)
  {
    hide Add, Sub, Compare, AndAcc, XorAcc, OrAcc, Isa.Alu, AluStep, AluOf;
    AluStepCases(h, r, v);
    AluOfCases(h);
    if h.AddMem? || h.Adi? { AddIsAlu(r, v, h.carry); }
    else if h.SubMem? || h.Sbi? { SubIsAlu(r, v, h.carry); }
    else if h.CmpMem? || h.Cpi? { CompareIsAlu(r, v); }
    else { LogicIsAlu(r, v); }
  }

  lemma RegStepCases(h: Handler, r: Regs)
    requires IsRegOperand(h)
    ensures h.AddReg? ==> SingleStep(h, r) == Add(r, r.a, GetReg(r, h.s), h.carry && r.f.c)
    ensures h.SubReg? ==> SingleStep(h, r) == Sub(r, r.a, GetReg(r, h.s), h.carry && r.f.c)
    ensures h.AnaReg? ==> SingleStep(h, r) == AndAcc(r, r.a, GetReg(r, h.s))
    ensures h.XraReg? ==> SingleStep(h, r) == XorAcc(r, r.a, GetReg(r, h.s))
    ensures h.OraReg? ==> SingleStep(h, r) == OrAcc(r, r.a, GetReg(r, h.s))
    ensures h.CmpReg? ==> SingleStep(h, r) == Compare(r, r.a, GetReg(r, h.s))
  {
    hide Add, Sub, Compare, AndAcc, XorAcc, OrAcc, GetReg, DaaAcc, Rlc1, Rrc1, Ral1, Rar1;
  }

  lemma RegAluMeans(h: Handler, r: Regs)
    requires IsRegOperand(h)
    ensures SingleStep(h, r) == Isa.Alu(r, AluOf(h), GetReg(r, h.s))
  {
    hide Add, Sub, Compare, AndAcc, XorAcc, OrAcc, Isa.Alu, GetReg, SingleStep, AluOf;
    RegStepCases(h, r);
    AluOfCases(h);
    var v := GetReg(r, h.s);
    if h.AddReg? { AddIsAlu(r, v, h.carry); }
    else if h.SubReg? { SubIsAlu(r, v, h.carry); }
    else if h.CmpReg? { CompareIsAlu(r, v); }
    else { LogicIsAlu(r, v); }
  }

  lemma AccMeans(h: Handler, r: Regs)
    requires IsAccumulator(h)
    ensures SingleStep(h, r) == Isa.ExecAcc(Isa.Meaning(h), r)
  {
    hide DaaAcc, Isa.Adjust, Add, Sub, Compare, AndAcc, XorAcc, OrAcc, GetReg, Isa.OfReg, Isa.OfPair, Isa.OfCond;
    if h == Daa { DaaMeans(r); } else { RotateMeans(h, r); }
  }

  lemma RotateMeans(h: Handler, r: Regs)
    requires IsAccumulator(h) && h != Daa
    ensures SingleStep(h, r) == Isa.ExecAcc(Isa.Meaning(h), r)
  {
    hide DaaAcc, Isa.Adjust, Add, Sub, Compare, AndAcc, XorAcc, OrAcc, GetReg, Isa.OfReg, Isa.OfPair, Isa.OfCond,
      Rlc1, Rrc1, Ral1, Rar1;
    Rotations(r);
  }

  lemma Rotations(r: Regs)
    ensures Rlc1(r) == Isa.ExecAcc(Isa.RLC, r) && Rrc1(r) == Isa.ExecAcc(Isa.RRC, r)
    ensures Ral1(r) == Isa.ExecAcc(Isa.RAL, r) && Rar1(r) == Isa.ExecAcc(Isa.RAR, r)
  {
    hide Isa.Adjust;
    Doubled(r.a);
  }

  /** Shifting a byte left drops its top bit. */
  lemma Doubled(a: byte)
    ensures a * 2 % 0x100 == a % 0x80 * 2 && (a >= 0x80) == (a / 0x80 == 1)
  {
  }

  lemma OperandIs(s: Isa.Arch, d: Reg, v: byte)
    ensures Isa.Get(s, Isa.OfReg(d)) == GetReg(s.regs, d)
    ensures Isa.Set(s, Isa.OfReg(d), v) == s.(regs := SetReg(s.regs, d, v))
    ensures SetReg(s.regs, d, v).f == s.regs.f && SetReg(s.regs, d, v).pc == s.regs.pc
  {
    hide Read, Memory.Write;
  }

  /** Writing a register and moving PC or replacing F commute. */
  lemma SetCommutes(r: Regs, d: Reg, v: byte, pc: word, f: Flags)
    ensures SetReg(r.(pc := pc, f := f), d, v) == SetReg(r, d, v).(pc := pc, f := f)
    ensures GetReg(r.(pc := pc), d) == GetReg(r, d)
  {
  }

  lemma AddressIs(r: Regs, p: Pair)
    ensures Isa.Address(r, Isa.OfPair(p)) == WordOf(GetDuo(r, p))
  {
  }

  /** A 16-bit sum added byte by byte. */
  lemma DadArith(p: Duo, q: Duo)
    ensures var c := Num(p.l + q.l >= 0x100);
            var w := Wrap(WordOf(q) + WordOf(p));
            && w % 0x100 == (p.l + q.l) % 0x100
            && w / 0x100 == (p.h + q.h + c) % 0x100
            && (WordOf(q) + WordOf(p) >= 0x1_0000) == (p.h + q.h + c >= 0x100)
  {
    var c := Num(p.l + q.l >= 0x100);
    var lo := p.l + q.l - 0x100 * c;
    var d := Num(p.h + q.h + c >= 0x100);
    var hi := p.h + q.h + c - 0x100 * d;
    assert WordOf(q) + WordOf(p) == 0x1_0000 * d + 0x100 * hi + lo;
    WordBytes(hi, lo);
  }

  lemma WordBytes(h: byte, l: byte)
    ensures Word(h, l) / 0x100 == h && Word(h, l) % 0x100 == l
  {
  }

  /** Arithmetic does not look at PC. */
  lemma AluPc(r: Regs, op: Isa.AluOp, v: byte, pc: word)
    ensures Isa.Alu(r, op, v).pc == r.pc
    ensures Isa.Alu(r.(pc := pc), op, v) == Isa.Alu(r, op, v).(pc := pc)
  {
    hide Isa.PlusFlags, Isa.MinusFlags, Isa.Szp, AndByte, OrByte, XorByte, Bit;
  }

  lemma AccPc(r: Regs, i: Isa.Instr, pc: word)
    ensures Isa.ExecAcc(i, r).pc == r.pc
    ensures Isa.ExecAcc(i, r.(pc := pc)) == Isa.ExecAcc(i, r).(pc := pc)
  {
    hide Isa.PlusFlags;
  }

  // ---- what each handler means ------------------------------------------------

  // The instruction, the atomic step and the cycles of each handler.

  /** The handler's instruction takes `s` to `t`, and the handler takes `n` cycles. */
  predicate DoneBy(dev: Devices, h: Handler, s: Isa.Arch, t: Isa.Arch, n: nat)
  {
    Isa.Exec(dev, Isa.Meaning(h), s) == t && Isa.HandlerCycles(h) == n
  }

  lemma DataMeaning(h: Handler)
    requires IsData(h)
    ensures h.LoadRegPtr? && h.p == HL ==> Isa.Meaning(h) == Isa.MOV(Isa.OfReg(h.d), Isa.M)
    ensures h.LoadRegPtr? && h.p != HL ==> Isa.Meaning(h) == Isa.LDAX(Isa.OfPair(h.p))
    ensures h.MovMemReg? ==> Isa.Meaning(h) == Isa.MOV(Isa.M, Isa.OfReg(h.s))
    ensures h.MviRegData? ==> Isa.Meaning(h) == Isa.MVI(Isa.OfReg(h.d))
    ensures h.MviMemData? ==> Isa.Meaning(h) == Isa.MVI(Isa.M)
    ensures h.Lda? ==> Isa.Meaning(h) == Isa.LDA
    ensures h.Sta? ==> Isa.Meaning(h) == Isa.STA
    ensures h.StaxPtr? ==> Isa.Meaning(h) == Isa.STAX(Isa.OfPair(h.p))
    ensures h.LxiPair? ==> Isa.Meaning(h) == Isa.LXI(Isa.OfPair(h.p))
    ensures h.Lhld? ==> Isa.Meaning(h) == Isa.LHLD
    ensures h.Shld? ==> Isa.Meaning(h) == Isa.SHLD
    ensures h.InrMem? ==> Isa.Meaning(h) == Isa.INR(Isa.M)
    ensures h.DcrMem? ==> Isa.Meaning(h) == Isa.DCR(Isa.M)
  {
    hide Isa.OfReg, Isa.OfPair, Isa.OfCond;
  }

  lemma FlowMeaning(h: Handler)
    requires IsFlow(h)
    ensures h.Xthl? ==> Isa.Meaning(h) == Isa.XTHL
    ensures h.Push? ==> Isa.Meaning(h) == Isa.PUSH(Isa.OfPair(h.p))
    ensures h.Pop? ==> Isa.Meaning(h) == Isa.POP(Isa.OfPair(h.p))
    ensures h.Jmp? ==> Isa.Meaning(h) == Isa.JMP(Isa.OfCond(h.cond))
    ensures h.Call? ==> Isa.Meaning(h) == Isa.CALL(Isa.OfCond(h.cond))
    ensures h.Ret? ==> Isa.Meaning(h) == Isa.RET(Isa.Unconditional)
    ensures h.RetCond? ==> Isa.Meaning(h) == Isa.RET(Isa.OfCond(h.cond))
    ensures h.Rst? ==> Isa.Meaning(h) == Isa.RST(if h.arg < 8 then h.arg else 0)
    ensures h.In? ==> Isa.Meaning(h) == Isa.IN
    ensures h.Out? ==> Isa.Meaning(h) == Isa.OUT
  {
    hide Isa.OfReg, Isa.OfPair, Isa.OfCond;
  }

  lemma RegisterMeaning(h: Handler)
    requires IsRegister(h)
    ensures h.MovRegReg? ==> Isa.Meaning(h) == Isa.MOV(Isa.OfReg(h.d), Isa.OfReg(h.s))
    ensures h.Sphl? ==> Isa.Meaning(h) == Isa.SPHL
    ensures h.Xchg? ==> Isa.Meaning(h) == Isa.XCHG
    ensures h.DadPair? ==> Isa.Meaning(h) == Isa.DAD(Isa.OfPair(h.p))
    ensures h.InrReg? ==> Isa.Meaning(h) == Isa.INR(Isa.OfReg(h.d))
    ensures h.DcrReg? ==> Isa.Meaning(h) == Isa.DCR(Isa.OfReg(h.d))
    ensures h.InxPair? ==> Isa.Meaning(h) == Isa.INX(Isa.OfPair(h.p))
    ensures h.DcxPair? ==> Isa.Meaning(h) == Isa.DCX(Isa.OfPair(h.p))
    ensures h.Pchl? ==> Isa.Meaning(h) == Isa.PCHL
  {
    hide Isa.OfReg, Isa.OfPair, Isa.OfCond;
  }

  lemma MemMeaning(h: Handler)
    requires IsMemOperand(h)
    ensures Isa.Meaning(h) == Isa.AluR(AluOf(h), Isa.M)
  {
    hide Isa.OfReg, Isa.OfPair, Isa.OfCond;
  }

  lemma ImmMeaning(h: Handler)
    requires IsImmOperand(h)
    ensures Isa.Meaning(h) == Isa.AluI(AluOf(h))
  {
    hide Isa.OfReg, Isa.OfPair, Isa.OfCond;
  }

  lemma RegMeaning(h: Handler)
    requires IsRegOperand(h)
    ensures Isa.Meaning(h) == Isa.AluR(AluOf(h), Isa.OfReg(h.s))
  {
    hide Isa.OfReg, Isa.OfPair, Isa.OfCond;
  }

  lemma AccumulatorMeaning(h: Handler)
    requires IsAccumulator(h)
    ensures Isa.IsAccumulating(Isa.Meaning(h))
  {
    hide Isa.OfReg, Isa.OfPair, Isa.OfCond;
  }

  lemma ControlMeaning(h: Handler)
    requires h == Di || h == Ei || h == Nop
    ensures Isa.Meaning(h) == if h == Di then Isa.DI else if h == Ei then Isa.EI else Isa.NOP
  {
    hide Isa.OfReg, Isa.OfPair, Isa.OfCond;
  }

  lemma DataCounts(h: Handler)
    requires IsData(h)
    ensures h.LoadRegPtr? || h.MovMemReg? || h.MviRegData? || h.StaxPtr? ==> Isa.HandlerCycles(h) == 2
    ensures h.MviMemData? || h.LxiPair? || h.InrMem? || h.DcrMem? ==> Isa.HandlerCycles(h) == 3
    ensures h.Lda? || h.Sta? ==> Isa.HandlerCycles(h) == 4
    ensures h.Lhld? || h.Shld? ==> Isa.HandlerCycles(h) == 5
  {
  }

  lemma FlowCounts(h: Handler)
    requires IsFlow(h)
    ensures h.Pop? || h.Jmp? || h.Ret? || h.In? || h.Out? ==> Isa.HandlerCycles(h) == 3
    ensures h.Push? || h.RetCond? || h.Rst? ==> Isa.HandlerCycles(h) == 4
    ensures h.Xthl? || h.Call? ==> Isa.HandlerCycles(h) == 6
  {
  }

  lemma RegisterCounts(h: Handler)
    requires IsRegister(h)
    ensures Isa.HandlerCycles(h) == if h.Xchg? then 1 else if h.DadPair? then 3 else 2
  {
  }

  lemma OperandCounts(h: Handler)
    ensures IsRegOperand(h) || IsAccumulator(h) || h == Di || h == Ei || h == Nop ==> Isa.HandlerCycles(h) == 1
    ensures IsMemOperand(h) || IsImmOperand(h) || h == Hlt ==> Isa.HandlerCycles(h) == 2
  {
  }

  lemma LoadMeans(dev: Devices, s: Isa.Arch, h: Handler)
    requires IsData(h)
    ensures h.LoadRegPtr? && h.p == HL ==> DoneBy(dev, h, s, Isa.ExecMov(s, Isa.OfReg(h.d), Isa.M), 2)
    ensures h.LoadRegPtr? && (h.p == BC || h.p == DE) ==> DoneBy(dev, h, s, Isa.ExecLdax(s, Isa.OfPair(h.p)), 2)
    ensures h.MovMemReg? ==> DoneBy(dev, h, s, Isa.ExecMov(s, Isa.M, Isa.OfReg(h.s)), 2)
    ensures h.MviRegData? ==> DoneBy(dev, h, s, Isa.ExecMvi(s, Isa.OfReg(h.d)), 2)
    ensures h.MviMemData? ==> DoneBy(dev, h, s, Isa.ExecMvi(s, Isa.M), 3)
    ensures h.Lda? ==> DoneBy(dev, h, s, Isa.ExecLda(s), 4)
    ensures h.Sta? ==> DoneBy(dev, h, s, Isa.ExecSta(s), 4)
  {
    hide Isa.Meaning, Isa.Exec, Isa.HandlerCycles, AluOf, Isa.OfReg, Isa.OfPair, Isa.OfCond;
    DataMeaning(h);
    DataCounts(h);
    Isa.ExecMoveCases(dev, Isa.Meaning(h), s);
    Isa.ExecComputeCases(dev, Isa.Meaning(h), s);
    Isa.ExecBranchCases(dev, Isa.Meaning(h), s);
    Isa.ExecStackCases(dev, Isa.Meaning(h), s);
    Isa.ExecControlCases(dev, Isa.Meaning(h), s);
  }

  lemma StoreMeans(dev: Devices, s: Isa.Arch, h: Handler)
    requires IsData(h)
    ensures h.StaxPtr? ==> DoneBy(dev, h, s, Isa.ExecStax(s, Isa.OfPair(h.p)), 2)
    ensures h.LxiPair? ==> DoneBy(dev, h, s, Isa.ExecLxi(s, Isa.OfPair(h.p)), 3)
    ensures h.Lhld? ==> DoneBy(dev, h, s, Isa.ExecLhld(s), 5)
    ensures h.Shld? ==> DoneBy(dev, h, s, Isa.ExecShld(s), 5)
    ensures h.InrMem? ==> DoneBy(dev, h, s, Isa.ExecInr(s, Isa.M), 3)
    ensures h.DcrMem? ==> DoneBy(dev, h, s, Isa.ExecDcr(s, Isa.M), 3)
  {
    hide Isa.Meaning, Isa.Exec, Isa.HandlerCycles, AluOf, Isa.OfReg, Isa.OfPair, Isa.OfCond;
    DataMeaning(h);
    DataCounts(h);
    Isa.ExecMoveCases(dev, Isa.Meaning(h), s);
    Isa.ExecComputeCases(dev, Isa.Meaning(h), s);
    Isa.ExecBranchCases(dev, Isa.Meaning(h), s);
    Isa.ExecStackCases(dev, Isa.Meaning(h), s);
    Isa.ExecControlCases(dev, Isa.Meaning(h), s);
  }

  lemma FlowMeans(dev: Devices, s: Isa.Arch, h: Handler)
    requires IsFlow(h)
    ensures h.Xthl? ==> DoneBy(dev, h, s, Isa.ExecXthl(s), 6)
    ensures h.Push? ==> DoneBy(dev, h, s, Isa.ExecPush(s, Isa.OfPair(h.p)), 4)
    ensures h.Pop? ==> DoneBy(dev, h, s, Isa.ExecPop(s, Isa.OfPair(h.p)), 3)
    ensures h.Jmp? ==> DoneBy(dev, h, s, Isa.ExecJmp(s, Isa.OfCond(h.cond)), 3)
    ensures h.Call? ==> DoneBy(dev, h, s, Isa.ExecCall(s, Isa.OfCond(h.cond)), 6)
    ensures h.Ret? ==> DoneBy(dev, h, s, Isa.ExecRet(s, Isa.Unconditional), 3)
    ensures h.RetCond? ==> DoneBy(dev, h, s, Isa.ExecRet(s, Isa.OfCond(h.cond)), 4)
    ensures h.Rst? && h.arg < 8 ==> DoneBy(dev, h, s, Isa.ExecRst(s, h.arg), 4)
    ensures h.In? ==> DoneBy(dev, h, s, Isa.ExecIn(dev, s), 3)
    ensures h.Out? ==> DoneBy(dev, h, s, Isa.ExecOut(s), 3)
  {
    hide Isa.Meaning, Isa.Exec, Isa.HandlerCycles, AluOf, Isa.OfReg, Isa.OfPair, Isa.OfCond;
    FlowMeaning(h);
    FlowCounts(h);
    Isa.ExecMoveCases(dev, Isa.Meaning(h), s);
    Isa.ExecComputeCases(dev, Isa.Meaning(h), s);
    Isa.ExecBranchCases(dev, Isa.Meaning(h), s);
    Isa.ExecStackCases(dev, Isa.Meaning(h), s);
    Isa.ExecControlCases(dev, Isa.Meaning(h), s);
  }

  lemma RegisterMeans(dev: Devices, s: Isa.Arch, h: Handler)
    requires IsRegister(h)
    ensures h.MovRegReg? ==> DoneBy(dev, h, s, Isa.ExecMov(s, Isa.OfReg(h.d), Isa.OfReg(h.s)), 2)
    ensures h.Sphl? ==> DoneBy(dev, h, s, Isa.ExecSphl(s), 2)
    ensures h.Xchg? ==> DoneBy(dev, h, s, Isa.ExecXchg(s), 1)
    ensures h.DadPair? ==> DoneBy(dev, h, s, Isa.ExecDad(s, Isa.OfPair(h.p)), 3)
    ensures h.InrReg? ==> DoneBy(dev, h, s, Isa.ExecInr(s, Isa.OfReg(h.d)), 2)
    ensures h.DcrReg? ==> DoneBy(dev, h, s, Isa.ExecDcr(s, Isa.OfReg(h.d)), 2)
    ensures h.InxPair? ==> DoneBy(dev, h, s, Isa.ExecInx(s, Isa.OfPair(h.p), 1), 2)
    ensures h.DcxPair? ==> DoneBy(dev, h, s, Isa.ExecInx(s, Isa.OfPair(h.p), -1), 2)
    ensures h.Pchl? ==> DoneBy(dev, h, s, Isa.ExecPchl(s), 2)
  {
    hide Isa.Meaning, Isa.Exec, Isa.HandlerCycles, AluOf, Isa.OfReg, Isa.OfPair, Isa.OfCond;
    RegisterMeaning(h);
    RegisterCounts(h);
    Isa.ExecMoveCases(dev, Isa.Meaning(h), s);
    Isa.ExecComputeCases(dev, Isa.Meaning(h), s);
    Isa.ExecBranchCases(dev, Isa.Meaning(h), s);
    Isa.ExecStackCases(dev, Isa.Meaning(h), s);
    Isa.ExecControlCases(dev, Isa.Meaning(h), s);
  }

  lemma MemMeans(dev: Devices, s: Isa.Arch, h: Handler)
    requires IsMemOperand(h)
    ensures DoneBy(dev, h, s, Isa.ExecAluR(s, AluOf(h), Isa.M), 2)
  {
    hide Isa.Meaning, Isa.Exec, Isa.HandlerCycles, AluOf, Isa.OfReg, Isa.OfPair, Isa.OfCond;
    MemMeaning(h);
    OperandCounts(h);
    Isa.ExecComputeCases(dev, Isa.Meaning(h), s);
  }

  lemma ImmMeans(dev: Devices, s: Isa.Arch, h: Handler)
    requires IsImmOperand(h)
    ensures DoneBy(dev, h, s, Isa.ExecAluI(s, AluOf(h)), 2)
  {
    hide Isa.Meaning, Isa.Exec, Isa.HandlerCycles, AluOf, Isa.OfReg, Isa.OfPair, Isa.OfCond;
    ImmMeaning(h);
    OperandCounts(h);
    Isa.ExecComputeCases(dev, Isa.Meaning(h), s);
  }

  lemma RegMeans(dev: Devices, s: Isa.Arch, h: Handler)
    requires IsRegOperand(h)
    ensures DoneBy(dev, h, s, Isa.ExecAluR(s, AluOf(h), Isa.OfReg(h.s)), 1)
  {
    hide Isa.Meaning, Isa.Exec, Isa.HandlerCycles, AluOf, Isa.OfReg, Isa.OfPair, Isa.OfCond;
    RegMeaning(h);
    OperandCounts(h);
    Isa.ExecComputeCases(dev, Isa.Meaning(h), s);
  }

  lemma AccumulatorMeans(dev: Devices, s: Isa.Arch, h: Handler)
    requires IsAccumulator(h)
    ensures DoneBy(dev, h, s, Isa.ExecAccumulator(s, Isa.Meaning(h)), 1)
  {
    hide Isa.Meaning, Isa.Exec, Isa.HandlerCycles, AluOf, Isa.OfReg, Isa.OfPair, Isa.OfCond;
    AccumulatorMeaning(h);
    OperandCounts(h);
    Isa.ExecComputeCases(dev, Isa.Meaning(h), s);
  }

  lemma ControlMeans(dev: Devices, s: Isa.Arch, h: Handler)
    requires h == Di || h == Ei || h == Nop
    ensures h.Di? ==> DoneBy(dev, h, s, Isa.ExecInte(s, false), 1)
    ensures h.Ei? ==> DoneBy(dev, h, s, Isa.ExecInte(s, true), 1)
    ensures h.Nop? ==> DoneBy(dev, h, s, Isa.Next(s, 1), 1)
  {
    hide Isa.Meaning, Isa.Exec, Isa.HandlerCycles, AluOf, Isa.OfReg, Isa.OfPair, Isa.OfCond;
    ControlMeaning(h);
    OperandCounts(h);
    Isa.ExecMoveCases(dev, Isa.Meaning(h), s);
    Isa.ExecComputeCases(dev, Isa.Meaning(h), s);
    Isa.ExecBranchCases(dev, Isa.Meaning(h), s);
    Isa.ExecStackCases(dev, Isa.Meaning(h), s);
    Isa.ExecControlCases(dev, Isa.Meaning(h), s);
  }

  lemma MovRegRegTicks(d: Reg, s: Reg, m: Machine, irq: nat -> bool, m1: Machine, m2: Machine)
    requires m.cpu.ints.mc == 0
    requires m1 == Advance(MovRegRegStep(m, d, s), 2)
    requires m2 == Advance(MovRegRegStep(Latch(m1, irq(1)), d, s), 2)
    ensures View(m2) == Isa.ExecMov(Before(m), Isa.OfReg(d), Isa.OfReg(s))
  {
    hide Read, Translate, Memory.Write, LogWrite;
  }

  lemma MovRegRegRefined(dev: Devices, d: Reg, s: Reg, m: Machine, irq: nat -> bool)
    requires m.cpu.ints.mc == 0
    ensures Refined(dev, MovRegReg(d, s), m, irq, 1)
  {
    hide Handle, TransferStep, FlowStep, RegisterStep, Isa.Exec, Isa.Meaning, Isa.HandlerCycles, MovRegRegStep, Isa.ExecMov, View, Before, Advance, Latch;
    var step := StepOf(dev, MovRegReg(d, s));
    forall x: Machine ensures step(x) == MovRegRegStep(x, d, s) { HandleRegister(dev, MovRegReg(d, s), x); RegisterCases(MovRegReg(d, s), x); }
    RegisterMeans(dev, Before(m), MovRegReg(d, s));
    hide StepOf;
    MovRegRegTicks(d, s, m, irq, Ticks(step, 2, m, irq, 0), Ticks(step, 2, m, irq, 1));
  }

  lemma LoadRegHlTicks(d: Reg, m: Machine, irq: nat -> bool, m1: Machine, m2: Machine)
    requires m.cpu.ints.mc == 0
    requires m1 == Advance(LoadRegPtrStep(m, d, HL), 2)
    requires m2 == Advance(LoadRegPtrStep(Latch(m1, irq(1)), d, HL), 2)
    ensures View(m2) == Isa.ExecMov(Before(m), Isa.OfReg(d), Isa.M)
  {
    hide Read, Translate, Memory.Write, LogWrite;
  }

  lemma LoadRegHlRefined(dev: Devices, d: Reg, m: Machine, irq: nat -> bool)
    requires m.cpu.ints.mc == 0
    ensures Refined(dev, LoadRegPtr(d, HL), m, irq, 1)
  {
    hide Handle, TransferStep, FlowStep, RegisterStep, Isa.Exec, Isa.Meaning, Isa.HandlerCycles, LoadRegPtrStep, Isa.ExecMov, View, Before, Advance, Latch;
    var step := StepOf(dev, LoadRegPtr(d, HL));
    forall x: Machine ensures step(x) == LoadRegPtrStep(x, d, HL) { HandleData(dev, LoadRegPtr(d, HL), x); TransferCases(LoadRegPtr(d, HL), x); }
    LoadMeans(dev, Before(m), LoadRegPtr(d, HL));
    hide StepOf;
    LoadRegHlTicks(d, m, irq, Ticks(step, 2, m, irq, 0), Ticks(step, 2, m, irq, 1));
  }

  lemma LoadAccPtrTicks(p: Pair, m: Machine, irq: nat -> bool, m1: Machine, m2: Machine)
    requires m.cpu.ints.mc == 0 && (p == BC || p == DE)
    requires m1 == Advance(LoadRegPtrStep(m, A, p), 2)
    requires m2 == Advance(LoadRegPtrStep(Latch(m1, irq(1)), A, p), 2)
    ensures View(m2) == Isa.ExecLdax(Before(m), Isa.OfPair(p))
  {
    hide Read, Translate, Memory.Write, LogWrite;
  }

  lemma LoadAccPtrRefined(dev: Devices, p: Pair, m: Machine, irq: nat -> bool)
    requires m.cpu.ints.mc == 0 && (p == BC || p == DE)
    ensures Refined(dev, LoadRegPtr(A, p), m, irq, 1)
  {
    hide Handle, TransferStep, FlowStep, RegisterStep, Isa.Exec, Isa.Meaning, Isa.HandlerCycles, LoadRegPtrStep, Isa.ExecLdax, View, Before, Advance, Latch;
    var step := StepOf(dev, LoadRegPtr(A, p));
    forall x: Machine ensures step(x) == LoadRegPtrStep(x, A, p) { HandleData(dev, LoadRegPtr(A, p), x); TransferCases(LoadRegPtr(A, p), x); }
    LoadMeans(dev, Before(m), LoadRegPtr(A, p));
    hide StepOf;
    LoadAccPtrTicks(p, m, irq, Ticks(step, 2, m, irq, 0), Ticks(step, 2, m, irq, 1));
  }

  lemma MovMemRegTicks(s: Reg, m: Machine, irq: nat -> bool, m1: Machine, m2: Machine)
    requires m.cpu.ints.mc == 0
    requires m1 == Advance(MovMemRegStep(m, s), 2)
    requires m2 == Advance(MovMemRegStep(Latch(m1, irq(1)), s), 2)
    ensures View(m2) == Isa.ExecMov(Before(m), Isa.M, Isa.OfReg(s))
  {
    hide Read, Translate, Memory.Write, LogWrite;
  }

  lemma MovMemRegRefined(dev: Devices, s: Reg, m: Machine, irq: nat -> bool)
    requires m.cpu.ints.mc == 0
    ensures Refined(dev, MovMemReg(s), m, irq, 1)
  {
    hide Handle, TransferStep, FlowStep, RegisterStep, Isa.Exec, Isa.Meaning, Isa.HandlerCycles, MovMemRegStep, Isa.ExecMov, View, Before, Advance, Latch;
    var step := StepOf(dev, MovMemReg(s));
    forall x: Machine ensures step(x) == MovMemRegStep(x, s) { HandleData(dev, MovMemReg(s), x); TransferCases(MovMemReg(s), x); }
    LoadMeans(dev, Before(m), MovMemReg(s));
    hide StepOf;
    MovMemRegTicks(s, m, irq, Ticks(step, 2, m, irq, 0), Ticks(step, 2, m, irq, 1));
  }

  lemma MviRegDataTicks(d: Reg, m: Machine, irq: nat -> bool, m1: Machine, m2: Machine)
    requires m.cpu.ints.mc == 0
    requires m1 == Advance(MviRegDataStep(m, d), 2)
    requires m2 == Advance(MviRegDataStep(Latch(m1, irq(1)), d), 2)
    ensures View(m2) == Isa.ExecMvi(Before(m), Isa.OfReg(d))
  {
    hide Read, Translate, Memory.Write, LogWrite;
  }

  lemma MviRegDataRefined(dev: Devices, d: Reg, m: Machine, irq: nat -> bool)
    requires m.cpu.ints.mc == 0
    ensures Refined(dev, MviRegData(d), m, irq, 1)
  {
    hide Handle, TransferStep, FlowStep, RegisterStep, Isa.Exec, Isa.Meaning, Isa.HandlerCycles, MviRegDataStep, Isa.ExecMvi, View, Before, Advance, Latch;
    var step := StepOf(dev, MviRegData(d));
    forall x: Machine ensures step(x) == MviRegDataStep(x, d) { HandleData(dev, MviRegData(d), x); TransferCases(MviRegData(d), x); }
    LoadMeans(dev, Before(m), MviRegData(d));
    hide StepOf;
    MviRegDataTicks(d, m, irq, Ticks(step, 2, m, irq, 0), Ticks(step, 2, m, irq, 1));
  }

  lemma MviMemDataTicks(m: Machine, irq: nat -> bool, m1: Machine, m2: Machine, m3: Machine)
    requires m.cpu.ints.mc == 0
    requires m1 == Advance(MviMemDataStep(m), 3)
    requires m2 == Advance(MviMemDataStep(Latch(m1, irq(1))), 3)
    requires m3 == Advance(MviMemDataStep(Latch(m2, irq(2))), 3)
    ensures View(m3) == Isa.ExecMvi(Before(m), Isa.M)
  {
    hide Read, Translate, Memory.Write, LogWrite;
  }

  lemma MviMemDataRefined(dev: Devices, m: Machine, irq: nat -> bool)
    requires m.cpu.ints.mc == 0
    ensures Refined(dev, MviMemData, m, irq, 2)
  {
    hide Handle, TransferStep, FlowStep, RegisterStep, Isa.Exec, Isa.Meaning, Isa.HandlerCycles, MviMemDataStep, Isa.ExecMvi, View, Before, Advance, Latch;
    var step := StepOf(dev, MviMemData);
    forall x: Machine ensures step(x) == MviMemDataStep(x) { HandleData(dev, MviMemData, x); TransferCases(MviMemData, x); }
    LoadMeans(dev, Before(m), MviMemData);
    hide StepOf;
    MviMemDataTicks(m, irq, Ticks(step, 3, m, irq, 0), Ticks(step, 3, m, irq, 1), Ticks(step, 3, m, irq, 2));
  }

  lemma LdaTicks(m: Machine, irq: nat -> bool, m1: Machine, m2: Machine, m3: Machine, m4: Machine)
    requires m.cpu.ints.mc == 0
    requires m1 == Advance(LdaStep(m), 4)
    requires m2 == Advance(LdaStep(Latch(m1, irq(1))), 4)
    requires m3 == Advance(LdaStep(Latch(m2, irq(2))), 4)
    requires m4 == Advance(LdaStep(Latch(m3, irq(3))), 4)
    ensures View(m4) == Isa.ExecLda(Before(m))
  {
    hide Read, Translate, Memory.Write, LogWrite;
  }

  lemma LdaRefined(dev: Devices, m: Machine, irq: nat -> bool)
    requires m.cpu.ints.mc == 0
    ensures Refined(dev, Lda, m, irq, 3)
  {
    hide Handle, TransferStep, FlowStep, RegisterStep, Isa.Exec, Isa.Meaning, Isa.HandlerCycles, LdaStep, Isa.ExecLda, View, Before, Advance, Latch;
    var step := StepOf(dev, Lda);
    forall x: Machine ensures step(x) == LdaStep(x) { HandleData(dev, Lda, x); TransferCases(Lda, x); }
    LoadMeans(dev, Before(m), Lda);
    hide StepOf;
    LdaTicks(m, irq, Ticks(step, 4, m, irq, 0), Ticks(step, 4, m, irq, 1), Ticks(step, 4, m, irq, 2), Ticks(step, 4, m, irq, 3));
  }

  lemma StaTicks(m: Machine, irq: nat -> bool, m1: Machine, m2: Machine, m3: Machine, m4: Machine)
    requires m.cpu.ints.mc == 0
    requires m1 == Advance(StaStep(m), 4)
    requires m2 == Advance(StaStep(Latch(m1, irq(1))), 4)
    requires m3 == Advance(StaStep(Latch(m2, irq(2))), 4)
    requires m4 == Advance(StaStep(Latch(m3, irq(3))), 4)
    ensures View(m4) == Isa.ExecSta(Before(m))
  {
    hide Read, Translate, Memory.Write, LogWrite;
  }

  lemma StaRefined(dev: Devices, m: Machine, irq: nat -> bool)
    requires m.cpu.ints.mc == 0
    ensures Refined(dev, Sta, m, irq, 3)
  {
    hide Handle, TransferStep, FlowStep, RegisterStep, Isa.Exec, Isa.Meaning, Isa.HandlerCycles, StaStep, Isa.ExecSta, View, Before, Advance, Latch;
    var step := StepOf(dev, Sta);
    forall x: Machine ensures step(x) == StaStep(x) { HandleData(dev, Sta, x); TransferCases(Sta, x); }
    LoadMeans(dev, Before(m), Sta);
    hide StepOf;
    StaTicks(m, irq, Ticks(step, 4, m, irq, 0), Ticks(step, 4, m, irq, 1), Ticks(step, 4, m, irq, 2), Ticks(step, 4, m, irq, 3));
  }

  lemma StaxPtrTicks(p: Pair, m: Machine, irq: nat -> bool, m1: Machine, m2: Machine)
    requires m.cpu.ints.mc == 0 && (p == BC || p == DE)
    requires m1 == Advance(StaxStep(m, p), 2)
    requires m2 == Advance(StaxStep(Latch(m1, irq(1)), p), 2)
    ensures View(m2) == Isa.ExecStax(Before(m), Isa.OfPair(p))
  {
    hide Read, Translate, Memory.Write, LogWrite;
  }

  lemma StaxPtrRefined(dev: Devices, p: Pair, m: Machine, irq: nat -> bool)
    requires m.cpu.ints.mc == 0 && (p == BC || p == DE)
    ensures Refined(dev, StaxPtr(p), m, irq, 1)
  {
    hide Handle, TransferStep, FlowStep, RegisterStep, Isa.Exec, Isa.Meaning, Isa.HandlerCycles, StaxStep, Isa.ExecStax, View, Before, Advance, Latch;
    var step := StepOf(dev, StaxPtr(p));
    forall x: Machine ensures step(x) == StaxStep(x, p) { HandleData(dev, StaxPtr(p), x); TransferCases(StaxPtr(p), x); }
    StoreMeans(dev, Before(m), StaxPtr(p));
    hide StepOf;
    StaxPtrTicks(p, m, irq, Ticks(step, 2, m, irq, 0), Ticks(step, 2, m, irq, 1));
  }

  lemma LxiPairTicks(p: Pair, m: Machine, irq: nat -> bool, m1: Machine, m2: Machine, m3: Machine)
    requires m.cpu.ints.mc == 0 && p != PSW
    requires m1 == Advance(LxiStep(m, p), 3)
    requires m2 == Advance(LxiStep(Latch(m1, irq(1)), p), 3)
    requires m3 == Advance(LxiStep(Latch(m2, irq(2)), p), 3)
    ensures View(m3) == Isa.ExecLxi(Before(m), Isa.OfPair(p))
  {
    LxiBytes(p, m, irq, m1, m2, m3);
    hide LxiStep, Advance, Latch, Read, GetDuo;
    PairIs(Before(m).regs, p, Isa.Byte3(Before(m)), Isa.Byte2(Before(m)));
    PairKeepsPc(m.cpu.regs, p, Duo(Isa.Byte3(Before(m)), Isa.Byte2(Before(m))), Wrap(m.cpu.regs.pc - 1));
    hide SetDuo, Isa.SetPair, Isa.OfPair;
  }

  lemma PairIs(r: Regs, p: Pair, h: byte, l: byte)
    requires p != PSW
    ensures Isa.SetPair(r, Isa.OfPair(p), h, l) == SetDuo(r, p, Duo(h, l))
  {
  }

  lemma PairKeepsPc(r: Regs, p: Pair, d: Duo, pc: word)
    requires p != PSW
    ensures SetDuo(r.(pc := pc), p, d) == SetDuo(r, p, d).(pc := pc) && SetDuo(r, p, d).pc == r.pc
  {
  }

  /** LXI loads the low byte, then the high byte. */
  lemma LxiBytes(p: Pair, m: Machine, irq: nat -> bool, m1: Machine, m2: Machine, m3: Machine)
    requires m.cpu.ints.mc == 0 && p != PSW
    requires m1 == Advance(LxiStep(m, p), 3)
    requires m2 == Advance(LxiStep(Latch(m1, irq(1)), p), 3)
    requires m3 == Advance(LxiStep(Latch(m2, irq(2)), p), 3)
    ensures var b := Before(m);
            View(m3) == View(m).(regs := SetDuo(m.cpu.regs, p, Duo(Isa.Byte3(b), Isa.Byte2(b))).(pc := Wrap(b.regs.pc + 3)))
  {
    hide LxiStep, Advance, Latch, GetDuo, SetDuo, Read, Translate;
    var r := m.cpu.regs;
    LxiLow(p, m, irq, m1, m2);
    LxiHigh(p, m2, irq, m3);
    TwoLoads(r, p, Read(m.mem, r.pc, Data), Read(m.mem, Wrap(r.pc + 1), Data));
    LoadMovesPc(r, p, Read(m.mem, r.pc, Data));
  }

  lemma LxiLow(p: Pair, m: Machine, irq: nat -> bool, m1: Machine, m2: Machine)
    requires m.cpu.ints.mc == 0
    requires m1 == Advance(LxiStep(m, p), 3) && m2 == Advance(LxiStep(Latch(m1, irq(1)), p), 3)
    ensures var r := NextPc(m.cpu.regs);
            m2.cpu.ints.mc == 2 && View(m2) == View(m).(regs := SetDuo(r, p, GetDuo(r, p).(l := Code(m))))
  {
    hide GetDuo, SetDuo, Read, NextPc;
  }

  lemma LxiHigh(p: Pair, m2: Machine, irq: nat -> bool, m3: Machine)
    requires m2.cpu.ints.mc == 2 && m3 == Advance(LxiStep(Latch(m2, irq(2)), p), 3)
    ensures var r := NextPc(m2.cpu.regs);
            View(m3) == View(m2).(regs := SetDuo(r, p, GetDuo(r, p).(h := Code(m2))))
  {
    hide GetDuo, SetDuo, Read, NextPc;
  }

  lemma LoadMovesPc(r: Regs, p: Pair, l: byte)
    ensures var n := NextPc(r); SetDuo(n, p, GetDuo(n, p).(l := l)).pc == Wrap(r.pc + 1)
  {
  }

  lemma TwoLoads(r: Regs, p: Pair, l: byte, h: byte)
    requires p != PSW
    ensures var n := NextPc(r);
            var n' := NextPc(SetDuo(n, p, GetDuo(n, p).(l := l)));
            SetDuo(n', p, GetDuo(n', p).(h := h)) == SetDuo(r, p, Duo(h, l)).(pc := Wrap(r.pc + 2))
  {
  }

  lemma LxiPairRefined(dev: Devices, p: Pair, m: Machine, irq: nat -> bool)
    requires m.cpu.ints.mc == 0 && p != PSW
    ensures Refined(dev, LxiPair(p), m, irq, 2)
  {
    hide Handle, TransferStep, FlowStep, RegisterStep, Isa.Exec, Isa.Meaning, Isa.HandlerCycles, LxiStep, Isa.ExecLxi, View, Before, Advance, Latch;
    var step := StepOf(dev, LxiPair(p));
    forall x: Machine ensures step(x) == LxiStep(x, p) { HandleData(dev, LxiPair(p), x); TransferCases(LxiPair(p), x); }
    StoreMeans(dev, Before(m), LxiPair(p));
    hide StepOf;
    LxiPairTicks(p, m, irq, Ticks(step, 3, m, irq, 0), Ticks(step, 3, m, irq, 1), Ticks(step, 3, m, irq, 2));
  }

  lemma LhldTicks(m: Machine, irq: nat -> bool, m1: Machine, m2: Machine, m3: Machine, m4: Machine, m5: Machine)
    requires m.cpu.ints.mc == 0
    requires m1 == Advance(LhldStep(m), 5)
    requires m2 == Advance(LhldStep(Latch(m1, irq(1))), 5)
    requires m3 == Advance(LhldStep(Latch(m2, irq(2))), 5)
    requires m4 == Advance(LhldStep(Latch(m3, irq(3))), 5)
    requires m5 == Advance(LhldStep(Latch(m4, irq(4))), 5)
    ensures View(m5) == Isa.ExecLhld(Before(m))
  {
    hide LhldStep, Isa.Data16, Read, Translate, Advance, Latch;
    LhldFetch(m, irq, m1, m2, m3);
    LhldLoad(m3, irq, m4, m5, Isa.Data16(Before(m)));
  }

  lemma LhldFetch(m: Machine, irq: nat -> bool, m1: Machine, m2: Machine, m3: Machine)
    requires m.cpu.ints.mc == 0
    requires m1 == Advance(LhldStep(m), 5)
    requires m2 == Advance(LhldStep(Latch(m1, irq(1))), 5)
    requires m3 == Advance(LhldStep(Latch(m2, irq(2))), 5)
    ensures m3.cpu.ints.mc == 3 && View(m3) == View(m).(regs := m.cpu.regs.(pc := Wrap(Wrap(m.cpu.regs.pc + 1) + 1)))
    ensures WordOf(m3.cpu.hid.wz) == Isa.Data16(Before(m))
  {
    hide Read, Translate;
  }

  lemma LhldLoad(m3: Machine, irq: nat -> bool, m4: Machine, m5: Machine, a: word)
    requires m3.cpu.ints.mc == 3 && WordOf(m3.cpu.hid.wz) == a
    requires m4 == Advance(LhldStep(Latch(m3, irq(3))), 5)
    requires m5 == Advance(LhldStep(Latch(m4, irq(4))), 5)
    ensures View(m5) == View(m3).(regs := m3.cpu.regs.(hl := Duo(Read(m3.mem, Wrap(a + 1), Data), Read(m3.mem, a, Data))))
  {
    hide Read, Translate;
  }

  lemma LhldRefined(dev: Devices, m: Machine, irq: nat -> bool)
    requires m.cpu.ints.mc == 0
    ensures Refined(dev, Lhld, m, irq, 4)
  {
    hide Handle, TransferStep, FlowStep, RegisterStep, Isa.Exec, Isa.Meaning, Isa.HandlerCycles, LhldStep, Isa.ExecLhld, View, Before, Advance, Latch;
    var step := StepOf(dev, Lhld);
    forall x: Machine ensures step(x) == LhldStep(x) { HandleData(dev, Lhld, x); TransferCases(Lhld, x); }
    StoreMeans(dev, Before(m), Lhld);
    hide StepOf;
    LhldTicks(m, irq, Ticks(step, 5, m, irq, 0), Ticks(step, 5, m, irq, 1), Ticks(step, 5, m, irq, 2), Ticks(step, 5, m, irq, 3), Ticks(step, 5, m, irq, 4));
  }

  lemma ShldTicks(m: Machine, irq: nat -> bool, m1: Machine, m2: Machine, m3: Machine, m4: Machine, m5: Machine)
    requires m.cpu.ints.mc == 0
    requires m1 == Advance(ShldStep(m), 5)
    requires m2 == Advance(ShldStep(Latch(m1, irq(1))), 5)
    requires m3 == Advance(ShldStep(Latch(m2, irq(2))), 5)
    requires m4 == Advance(ShldStep(Latch(m3, irq(3))), 5)
    requires m5 == Advance(ShldStep(Latch(m4, irq(4))), 5)
    ensures View(m5) == Isa.ExecShld(Before(m))
  {
    hide ShldStep, Isa.Data16, Read, Translate, Memory.Write, Advance, Latch;
    ShldFetch(m, irq, m1, m2, m3);
    ShldStore(m3, irq, m4, m5, Isa.Data16(Before(m)));
  }

  lemma ShldFetch(m: Machine, irq: nat -> bool, m1: Machine, m2: Machine, m3: Machine)
    requires m.cpu.ints.mc == 0
    requires m1 == Advance(ShldStep(m), 5)
    requires m2 == Advance(ShldStep(Latch(m1, irq(1))), 5)
    requires m3 == Advance(ShldStep(Latch(m2, irq(2))), 5)
    ensures m3.cpu.ints.mc == 3 && View(m3) == View(m).(regs := m.cpu.regs.(pc := Wrap(Wrap(m.cpu.regs.pc + 1) + 1)))
    ensures WordOf(m3.cpu.hid.wz) == Isa.Data16(Before(m))
  {
    hide Read, Translate;
  }

  lemma ShldStore(m3: Machine, irq: nat -> bool, m4: Machine, m5: Machine, a: word)
    requires m3.cpu.ints.mc == 3 && WordOf(m3.cpu.hid.wz) == a
    requires m4 == Advance(ShldStep(Latch(m3, irq(3))), 5)
    requires m5 == Advance(ShldStep(Latch(m4, irq(4))), 5)
    ensures View(m5) == View(m3).(mem := Memory.Write(Memory.Write(m3.mem, a, m3.cpu.regs.hl.l, Data), Wrap(a + 1), m3.cpu.regs.hl.h, Data))
  {
    hide Read, Translate, Memory.Write, LogWrite;
  }

  lemma ShldRefined(dev: Devices, m: Machine, irq: nat -> bool)
    requires m.cpu.ints.mc == 0
    ensures Refined(dev, Shld, m, irq, 4)
  {
    hide Handle, TransferStep, FlowStep, RegisterStep, Isa.Exec, Isa.Meaning, Isa.HandlerCycles, ShldStep, Isa.ExecShld, View, Before, Advance, Latch;
    var step := StepOf(dev, Shld);
    forall x: Machine ensures step(x) == ShldStep(x) { HandleData(dev, Shld, x); TransferCases(Shld, x); }
    StoreMeans(dev, Before(m), Shld);
    hide StepOf;
    ShldTicks(m, irq, Ticks(step, 5, m, irq, 0), Ticks(step, 5, m, irq, 1), Ticks(step, 5, m, irq, 2), Ticks(step, 5, m, irq, 3), Ticks(step, 5, m, irq, 4));
  }

  lemma SphlTicks(m: Machine, irq: nat -> bool, m1: Machine, m2: Machine)
    requires m.cpu.ints.mc == 0
    requires m1 == Advance(SphlStep(m), 2)
    requires m2 == Advance(SphlStep(Latch(m1, irq(1))), 2)
    ensures View(m2) == Isa.ExecSphl(Before(m))
  {
    hide Read, Translate, Memory.Write, LogWrite;
  }

  lemma SphlRefined(dev: Devices, m: Machine, irq: nat -> bool)
    requires m.cpu.ints.mc == 0
    ensures Refined(dev, Sphl, m, irq, 1)
  {
    hide Handle, TransferStep, FlowStep, RegisterStep, Isa.Exec, Isa.Meaning, Isa.HandlerCycles, SphlStep, Isa.ExecSphl, View, Before, Advance, Latch;
    var step := StepOf(dev, Sphl);
    forall x: Machine ensures step(x) == SphlStep(x) { HandleRegister(dev, Sphl, x); RegisterCases(Sphl, x); }
    RegisterMeans(dev, Before(m), Sphl);
    hide StepOf;
    SphlTicks(m, irq, Ticks(step, 2, m, irq, 0), Ticks(step, 2, m, irq, 1));
  }

  lemma XchgTicks(m: Machine, m1: Machine)
    requires m.cpu.ints.mc == 0
    requires m1 == Advance(XchgStep(m), 1)
    ensures View(m1) == Isa.ExecXchg(Before(m))
  {
    hide Read, Translate, Memory.Write, LogWrite;
  }

  lemma XchgRefined(dev: Devices, m: Machine, irq: nat -> bool)
    requires m.cpu.ints.mc == 0
    ensures Refined(dev, Xchg, m, irq, 0)
  {
    hide Handle, TransferStep, FlowStep, RegisterStep, Isa.Exec, Isa.Meaning, Isa.HandlerCycles, XchgStep, Isa.ExecXchg, View, Before, Advance, Latch;
    var step := StepOf(dev, Xchg);
    forall x: Machine ensures step(x) == XchgStep(x) { HandleRegister(dev, Xchg, x); RegisterCases(Xchg, x); }
    RegisterMeans(dev, Before(m), Xchg);
    hide StepOf;
    XchgTicks(m, Ticks(step, 1, m, irq, 0));
  }

  lemma XthlTicks(m: Machine, irq: nat -> bool, m1: Machine, m2: Machine, m3: Machine, m4: Machine, m5: Machine, m6: Machine)
    requires m.cpu.ints.mc == 0
    requires m1 == Advance(XthlStep(m), 6)
    requires m2 == Advance(XthlStep(Latch(m1, irq(1))), 6)
    requires m3 == Advance(XthlStep(Latch(m2, irq(2))), 6)
    requires m4 == Advance(XthlStep(Latch(m3, irq(3))), 6)
    requires m5 == Advance(XthlStep(Latch(m4, irq(4))), 6)
    requires m6 == Advance(XthlStep(Latch(m5, irq(5))), 6)
    ensures View(m6) == Isa.ExecXthl(Before(m))
  {
    hide Read, Translate, Memory.Write, LogWrite;
  }

  lemma XthlRefined(dev: Devices, m: Machine, irq: nat -> bool)
    requires m.cpu.ints.mc == 0
    ensures Refined(dev, Xthl, m, irq, 5)
  {
    hide Handle, TransferStep, FlowStep, RegisterStep, Isa.Exec, Isa.Meaning, Isa.HandlerCycles, XthlStep, Isa.ExecXthl, View, Before, Advance, Latch;
    var step := StepOf(dev, Xthl);
    forall x: Machine ensures step(x) == XthlStep(x) { HandleFlow(dev, Xthl, x); FlowCases(dev, Xthl, x); }
    FlowMeans(dev, Before(m), Xthl);
    hide StepOf;
    XthlTicks(m, irq, Ticks(step, 6, m, irq, 0), Ticks(step, 6, m, irq, 1), Ticks(step, 6, m, irq, 2), Ticks(step, 6, m, irq, 3), Ticks(step, 6, m, irq, 4), Ticks(step, 6, m, irq, 5));
  }

  lemma PushTicks(p: Pair, m: Machine, irq: nat -> bool, m1: Machine, m2: Machine, m3: Machine, m4: Machine)
    requires m.cpu.ints.mc == 0 && p != SP
    requires m1 == Advance(PushStep(m, p), 4)
    requires m2 == Advance(PushStep(Latch(m1, irq(1)), p), 4)
    requires m3 == Advance(PushStep(Latch(m2, irq(2)), p), 4)
    requires m4 == Advance(PushStep(Latch(m3, irq(3)), p), 4)
    ensures View(m4) == Isa.ExecPush(Before(m), Isa.OfPair(p))
  {
    hide Read, Translate, Memory.Write, LogWrite;
  }

  lemma PushRefined(dev: Devices, p: Pair, m: Machine, irq: nat -> bool)
    requires m.cpu.ints.mc == 0 && p != SP
    ensures Refined(dev, Push(p), m, irq, 3)
  {
    hide Handle, TransferStep, FlowStep, RegisterStep, Isa.Exec, Isa.Meaning, Isa.HandlerCycles, PushStep, Isa.ExecPush, View, Before, Advance, Latch;
    var step := StepOf(dev, Push(p));
    forall x: Machine ensures step(x) == PushStep(x, p) { HandleFlow(dev, Push(p), x); FlowCases(dev, Push(p), x); }
    FlowMeans(dev, Before(m), Push(p));
    hide StepOf;
    PushTicks(p, m, irq, Ticks(step, 4, m, irq, 0), Ticks(step, 4, m, irq, 1), Ticks(step, 4, m, irq, 2), Ticks(step, 4, m, irq, 3));
  }

  lemma PopTicks(p: Pair, m: Machine, irq: nat -> bool, m1: Machine, m2: Machine, m3: Machine)
    requires m.cpu.ints.mc == 0 && p != SP
    requires m1 == Advance(PopStep(m, p), 3)
    requires m2 == Advance(PopStep(Latch(m1, irq(1)), p), 3)
    requires m3 == Advance(PopStep(Latch(m2, irq(2)), p), 3)
    ensures View(m3) == Isa.ExecPop(Before(m), Isa.OfPair(p))
  {
    hide PopStep, Advance, Latch, View, Isa.ExecPop, Before;
    if p == PSW { PopPswTicks(m, irq, m1, m2, m3); } else { PopPairTicks(p, m, irq, m1, m2, m3); }
  }

  lemma PopPswTicks(m: Machine, irq: nat -> bool, m1: Machine, m2: Machine, m3: Machine)
    requires m.cpu.ints.mc == 0
    requires m1 == Advance(PopStep(m, PSW), 3)
    requires m2 == Advance(PopStep(Latch(m1, irq(1)), PSW), 3)
    requires m3 == Advance(PopStep(Latch(m2, irq(2)), PSW), 3)
    ensures View(m3) == Isa.ExecPop(Before(m), Isa.OfPair(PSW))
  {
    hide FlagsOf, FlagByte, Read, Digit, Translate;
    FlagsRoundTrip(Masked(FlagsOf(Read(m.mem, m.cpu.regs.sp, Stack))));
  }

  lemma PopPairTicks(p: Pair, m: Machine, irq: nat -> bool, m1: Machine, m2: Machine, m3: Machine)
    requires m.cpu.ints.mc == 0 && p != SP && p != PSW
    requires m1 == Advance(PopStep(m, p), 3)
    requires m2 == Advance(PopStep(Latch(m1, irq(1)), p), 3)
    requires m3 == Advance(PopStep(Latch(m2, irq(2)), p), 3)
    ensures View(m3) == Isa.ExecPop(Before(m), Isa.OfPair(p))
  {
    hide FlagsOf, FlagByte, Read, Digit, Translate;
  }

  lemma PopRefined(dev: Devices, p: Pair, m: Machine, irq: nat -> bool)
    requires m.cpu.ints.mc == 0 && p != SP
    ensures Refined(dev, Pop(p), m, irq, 2)
  {
    hide Handle, TransferStep, FlowStep, RegisterStep, Isa.Exec, Isa.Meaning, Isa.HandlerCycles, PopStep, Isa.ExecPop, View, Before, Advance, Latch;
    var step := StepOf(dev, Pop(p));
    forall x: Machine ensures step(x) == PopStep(x, p) { HandleFlow(dev, Pop(p), x); FlowCases(dev, Pop(p), x); }
    FlowMeans(dev, Before(m), Pop(p));
    hide StepOf;
    PopTicks(p, m, irq, Ticks(step, 3, m, irq, 0), Ticks(step, 3, m, irq, 1), Ticks(step, 3, m, irq, 2));
  }

  lemma MemOperandTicks(h: Handler, m: Machine, irq: nat -> bool, m1: Machine, m2: Machine)
    requires m.cpu.ints.mc == 0 && IsMemOperand(h)
    requires m1 == Advance(MemOperandStep(h, m), 2)
    requires m2 == Advance(MemOperandStep(h, Latch(m1, irq(1))), 2)
    ensures View(m2) == Isa.ExecAluR(Before(m), AluOf(h), Isa.M)
  {
    hide AluStep, Isa.Alu;
    AluMeans(h, m.cpu.regs, Read(m.mem, WordOf(m.cpu.regs.hl), Data));
    AluPc(Before(m).regs, AluOf(h), Read(m.mem, WordOf(m.cpu.regs.hl), Data), m.cpu.regs.pc);
    assert Before(m).regs.(pc := m.cpu.regs.pc) == m.cpu.regs;
  }

  lemma MemOperandRefined(dev: Devices, h: Handler, m: Machine, irq: nat -> bool)
    requires m.cpu.ints.mc == 0 && IsMemOperand(h)
    ensures Refined(dev, h, m, irq, 1)
  {
    hide Handle, TransferStep, FlowStep, RegisterStep, Isa.Exec, Isa.Meaning, Isa.HandlerCycles, MemOperandStep, Isa.ExecAluR, View, Before, Advance, Latch;
    var step := StepOf(dev, h);
    forall x: Machine ensures step(x) == MemOperandStep(h, x) { HandleOperand(dev, h, x); }
    MemMeans(dev, Before(m), h);
    hide StepOf;
    MemOperandTicks(h, m, irq, Ticks(step, 2, m, irq, 0), Ticks(step, 2, m, irq, 1));
  }

  lemma ImmOperandTicks(h: Handler, m: Machine, irq: nat -> bool, m1: Machine, m2: Machine)
    requires m.cpu.ints.mc == 0 && IsImmOperand(h)
    requires m1 == Advance(ImmOperandStep(h, m), 2)
    requires m2 == Advance(ImmOperandStep(h, Latch(m1, irq(1))), 2)
    ensures View(m2) == Isa.ExecAluI(Before(m), AluOf(h))
  {
    hide AluStep, Isa.Alu;
    AluMeans(h, NextPc(m.cpu.regs), Code(m));
    AluPc(Before(m).regs, AluOf(h), Code(m), NextPc(m.cpu.regs).pc);
    assert Before(m).regs.(pc := NextPc(m.cpu.regs).pc) == NextPc(m.cpu.regs);
  }

  lemma ImmOperandRefined(dev: Devices, h: Handler, m: Machine, irq: nat -> bool)
    requires m.cpu.ints.mc == 0 && IsImmOperand(h)
    ensures Refined(dev, h, m, irq, 1)
  {
    hide Handle, TransferStep, FlowStep, RegisterStep, Isa.Exec, Isa.Meaning, Isa.HandlerCycles, ImmOperandStep, Isa.ExecAluI, View, Before, Advance, Latch;
    var step := StepOf(dev, h);
    forall x: Machine ensures step(x) == ImmOperandStep(h, x) { HandleOperand(dev, h, x); }
    ImmMeans(dev, Before(m), h);
    hide StepOf;
    ImmOperandTicks(h, m, irq, Ticks(step, 2, m, irq, 0), Ticks(step, 2, m, irq, 1));
  }

  lemma DadPairTicks(p: Pair, m: Machine, irq: nat -> bool, m1: Machine, m2: Machine, m3: Machine)
    requires m.cpu.ints.mc == 0 && p != PSW
    requires m1 == Advance(DadStep(m, p), 3)
    requires m2 == Advance(DadStep(Latch(m1, irq(1)), p), 3)
    requires m3 == Advance(DadStep(Latch(m2, irq(2)), p), 3)
    ensures View(m3) == Isa.ExecDad(Before(m), Isa.OfPair(p))
  {
    hide DadStep, Advance, Latch, GetDuo, Isa.ExecDad, Isa.OfPair;
    DadBytes(p, m, irq, m1, m2, m3);
    DuoIgnoresPc(m.cpu.regs, p, Wrap(m.cpu.regs.pc - 1));
    DadExec(Before(m), p);
  }

  /** The byte-wise sum of DAD is its 16-bit sum. */
  lemma DadExec(s: Isa.Arch, p: Pair)
    requires p != PSW
    ensures var r, q := s.regs, GetDuo(s.regs, p);
            var low: int := q.l + r.hl.l;
            var high: int := q.h + r.hl.h + Num(low >= 0x100);
            Isa.ExecDad(s, Isa.OfPair(p))
            == Isa.Next(s.(regs := r.(hl := Duo(high % 0x100, low % 0x100), f := r.f.(c := high >= 0x100))), 1)
  {
    hide WordOf, DuoOf, Isa.Address, Isa.OfPair, GetDuo, Isa.Next;
    AddressIs(s.regs, p);
    HlIs(s.regs);
    AddressIs(s.regs, HL);
    DadArith(GetDuo(s.regs, p), s.regs.hl);
  }

  lemma HlIs(r: Regs)
    ensures Isa.OfPair(HL) == Isa.HL && GetDuo(r, HL) == r.hl
  {
  }

  lemma DuoIgnoresPc(r: Regs, p: Pair, pc: word)
    ensures GetDuo(r.(pc := pc), p) == GetDuo(r, p)
  {
  }

  /** DAD adds the low bytes in its second cycle and the high bytes with carry in its third. */
  lemma DadBytes(p: Pair, m: Machine, irq: nat -> bool, m1: Machine, m2: Machine, m3: Machine)
    requires m.cpu.ints.mc == 0 && p != PSW
    requires m1 == Advance(DadStep(m, p), 3)
    requires m2 == Advance(DadStep(Latch(m1, irq(1)), p), 3)
    requires m3 == Advance(DadStep(Latch(m2, irq(2)), p), 3)
    ensures var r, q := m.cpu.regs, GetDuo(m.cpu.regs, p);
            var low: int := q.l + r.hl.l;
            var high: int := q.h + r.hl.h + Num(low >= 0x100);
            View(m3) == View(m).(regs := r.(hl := Duo(high % 0x100, low % 0x100), f := r.f.(c := high >= 0x100)))
  {
    hide DadStep, Advance, Latch, GetDuo;
    DadLow(p, m, irq, m1, m2);
    var r := m.cpu.regs;
    var low: int := GetDuo(r, p).l + r.hl.l;
    DuoHigh(r, p, low % 0x100, r.f.(c := low >= 0x100));
    DadHigh(p, m2, irq, m3);
  }

  lemma DadLow(p: Pair, m: Machine, irq: nat -> bool, m1: Machine, m2: Machine)
    requires m.cpu.ints.mc == 0
    requires m1 == Advance(DadStep(m, p), 3)
    requires m2 == Advance(DadStep(Latch(m1, irq(1)), p), 3)
    ensures var r := m.cpu.regs;
            var low: int := GetDuo(r, p).l + r.hl.l;
            && m2.cpu.ints.mc == 2
            && View(m2) == View(m).(regs := r.(hl := r.hl.(l := low % 0x100), f := r.f.(c := low >= 0x100)))
  {
    hide GetDuo;
  }

  lemma DadHigh(p: Pair, m2: Machine, irq: nat -> bool, m3: Machine)
    requires m2.cpu.ints.mc == 2 && m3 == Advance(DadStep(Latch(m2, irq(2)), p), 3)
    ensures var r := m2.cpu.regs;
            var high: int := GetDuo(r, p).h + r.hl.h + Num(r.f.c);
            View(m3) == View(m2).(regs := r.(hl := r.hl.(h := high % 0x100), f := r.f.(c := high >= 0x100)))
  {
    hide GetDuo;
  }

  /** The low byte of HL and the flags do not reach the high byte of a pair. */
  lemma DuoHigh(r: Regs, p: Pair, l: byte, f: Flags)
    requires p != PSW
    ensures GetDuo(r.(hl := r.hl.(l := l), f := f), p).h == GetDuo(r, p).h
  {
  }

  lemma DadPairRefined(dev: Devices, p: Pair, m: Machine, irq: nat -> bool)
    requires m.cpu.ints.mc == 0 && p != PSW
    ensures Refined(dev, DadPair(p), m, irq, 2)
  {
    hide Handle, TransferStep, FlowStep, RegisterStep, Isa.Exec, Isa.Meaning, Isa.HandlerCycles, DadStep, Isa.ExecDad, View, Before, Advance, Latch;
    var step := StepOf(dev, DadPair(p));
    forall x: Machine ensures step(x) == DadStep(x, p) { HandleRegister(dev, DadPair(p), x); RegisterCases(DadPair(p), x); }
    RegisterMeans(dev, Before(m), DadPair(p));
    hide StepOf;
    DadPairTicks(p, m, irq, Ticks(step, 3, m, irq, 0), Ticks(step, 3, m, irq, 1), Ticks(step, 3, m, irq, 2));
  }

  lemma InrRegTicks(d: Reg, m: Machine, irq: nat -> bool, m1: Machine, m2: Machine)
    requires m.cpu.ints.mc == 0
    requires m1 == Advance(InrStep(m, d), 2)
    requires m2 == Advance(InrStep(Latch(m1, irq(1)), d), 2)
    ensures View(m2) == Isa.ExecInr(Before(m), Isa.OfReg(d))
  {
    hide IncFlags, Isa.PlusFlags, GetReg, SetReg, Isa.Get, Isa.Set, Isa.OfReg;
    var r, v := m.cpu.regs, Inc(GetReg(m.cpu.regs, d));
    IncMeans(r.f, GetReg(r, d));
    OperandIs(Before(m), d, v);
    SetCommutes(r, d, v, Wrap(r.pc - 1), r.f);
    SetCommutes(r, d, v, r.pc, IncFlags(r.f, v));
    assert r.(pc := r.pc, f := r.f) == r;
  }

  lemma InrRegRefined(dev: Devices, d: Reg, m: Machine, irq: nat -> bool)
    requires m.cpu.ints.mc == 0
    ensures Refined(dev, InrReg(d), m, irq, 1)
  {
    hide Handle, TransferStep, FlowStep, RegisterStep, Isa.Exec, Isa.Meaning, Isa.HandlerCycles, InrStep, Isa.ExecInr, View, Before, Advance, Latch;
    var step := StepOf(dev, InrReg(d));
    forall x: Machine ensures step(x) == InrStep(x, d) { HandleRegister(dev, InrReg(d), x); RegisterCases(InrReg(d), x); }
    RegisterMeans(dev, Before(m), InrReg(d));
    hide StepOf;
    InrRegTicks(d, m, irq, Ticks(step, 2, m, irq, 0), Ticks(step, 2, m, irq, 1));
  }

  lemma InrMemTicks(m: Machine, irq: nat -> bool, m1: Machine, m2: Machine, m3: Machine)
    requires m.cpu.ints.mc == 0
    requires m1 == Advance(InrMemStep(m), 3)
    requires m2 == Advance(InrMemStep(Latch(m1, irq(1))), 3)
    requires m3 == Advance(InrMemStep(Latch(m2, irq(2))), 3)
    ensures View(m3) == Isa.ExecInr(Before(m), Isa.M)
  {
    hide IncFlags, Isa.PlusFlags, Read, Translate, Memory.Write, LogWrite;
    IncMeans(m.cpu.regs.f, Read(m.mem, WordOf(m.cpu.regs.hl), Data));
  }

  lemma InrMemRefined(dev: Devices, m: Machine, irq: nat -> bool)
    requires m.cpu.ints.mc == 0
    ensures Refined(dev, InrMem, m, irq, 2)
  {
    hide Handle, TransferStep, FlowStep, RegisterStep, Isa.Exec, Isa.Meaning, Isa.HandlerCycles, InrMemStep, Isa.ExecInr, View, Before, Advance, Latch;
    var step := StepOf(dev, InrMem);
    forall x: Machine ensures step(x) == InrMemStep(x) { HandleData(dev, InrMem, x); TransferCases(InrMem, x); }
    StoreMeans(dev, Before(m), InrMem);
    hide StepOf;
    InrMemTicks(m, irq, Ticks(step, 3, m, irq, 0), Ticks(step, 3, m, irq, 1), Ticks(step, 3, m, irq, 2));
  }

  lemma DcrRegTicks(d: Reg, m: Machine, irq: nat -> bool, m1: Machine, m2: Machine)
    requires m.cpu.ints.mc == 0
    requires m1 == Advance(DcrStep(m, d), 2)
    requires m2 == Advance(DcrStep(Latch(m1, irq(1)), d), 2)
    ensures View(m2) == Isa.ExecDcr(Before(m), Isa.OfReg(d))
  {
    hide DecFlags, Isa.MinusFlags, GetReg, SetReg, Isa.Get, Isa.Set, Isa.OfReg;
    var r, v := m.cpu.regs, Dec(GetReg(m.cpu.regs, d));
    DecMeans(r.f, GetReg(r, d));
    OperandIs(Before(m), d, v);
    SetCommutes(r, d, v, Wrap(r.pc - 1), r.f);
    SetCommutes(r, d, v, r.pc, DecFlags(r.f, v));
    assert r.(pc := r.pc, f := r.f) == r;
  }

  lemma DcrRegRefined(dev: Devices, d: Reg, m: Machine, irq: nat -> bool)
    requires m.cpu.ints.mc == 0
    ensures Refined(dev, DcrReg(d), m, irq, 1)
  {
    hide Handle, TransferStep, FlowStep, RegisterStep, Isa.Exec, Isa.Meaning, Isa.HandlerCycles, DcrStep, Isa.ExecDcr, View, Before, Advance, Latch;
    var step := StepOf(dev, DcrReg(d));
    forall x: Machine ensures step(x) == DcrStep(x, d) { HandleRegister(dev, DcrReg(d), x); RegisterCases(DcrReg(d), x); }
    RegisterMeans(dev, Before(m), DcrReg(d));
    hide StepOf;
    DcrRegTicks(d, m, irq, Ticks(step, 2, m, irq, 0), Ticks(step, 2, m, irq, 1));
  }

  lemma DcrMemTicks(m: Machine, irq: nat -> bool, m1: Machine, m2: Machine, m3: Machine)
    requires m.cpu.ints.mc == 0
    requires m1 == Advance(DcrMemStep(m), 3)
    requires m2 == Advance(DcrMemStep(Latch(m1, irq(1))), 3)
    requires m3 == Advance(DcrMemStep(Latch(m2, irq(2))), 3)
    ensures View(m3) == Isa.ExecDcr(Before(m), Isa.M)
  {
    hide DecFlags, Isa.MinusFlags, Read, Translate, Memory.Write, LogWrite;
    DecMeans(m.cpu.regs.f, Read(m.mem, WordOf(m.cpu.regs.hl), Data));
  }

  lemma DcrMemRefined(dev: Devices, m: Machine, irq: nat -> bool)
    requires m.cpu.ints.mc == 0
    ensures Refined(dev, DcrMem, m, irq, 2)
  {
    hide Handle, TransferStep, FlowStep, RegisterStep, Isa.Exec, Isa.Meaning, Isa.HandlerCycles, DcrMemStep, Isa.ExecDcr, View, Before, Advance, Latch;
    var step := StepOf(dev, DcrMem);
    forall x: Machine ensures step(x) == DcrMemStep(x) { HandleData(dev, DcrMem, x); TransferCases(DcrMem, x); }
    StoreMeans(dev, Before(m), DcrMem);
    hide StepOf;
    DcrMemTicks(m, irq, Ticks(step, 3, m, irq, 0), Ticks(step, 3, m, irq, 1), Ticks(step, 3, m, irq, 2));
  }

  lemma InxPairTicks(p: Pair, m: Machine, irq: nat -> bool, m1: Machine, m2: Machine)
    requires m.cpu.ints.mc == 0 && p != PSW
    requires m1 == Advance(InxStep(m, p, 1), 2)
    requires m2 == Advance(InxStep(Latch(m1, irq(1)), p, 1), 2)
    ensures View(m2) == Isa.ExecInx(Before(m), Isa.OfPair(p), 1)
  {
    hide Read, Translate, Memory.Write, LogWrite;
  }

  lemma InxPairRefined(dev: Devices, p: Pair, m: Machine, irq: nat -> bool)
    requires m.cpu.ints.mc == 0 && p != PSW
    ensures Refined(dev, InxPair(p), m, irq, 1)
  {
    hide Handle, TransferStep, FlowStep, RegisterStep, Isa.Exec, Isa.Meaning, Isa.HandlerCycles, InxStep, Isa.ExecInx, View, Before, Advance, Latch;
    var step := StepOf(dev, InxPair(p));
    forall x: Machine ensures step(x) == InxStep(x, p, 1) { HandleRegister(dev, InxPair(p), x); RegisterCases(InxPair(p), x); }
    RegisterMeans(dev, Before(m), InxPair(p));
    hide StepOf;
    InxPairTicks(p, m, irq, Ticks(step, 2, m, irq, 0), Ticks(step, 2, m, irq, 1));
  }

  lemma DcxPairTicks(p: Pair, m: Machine, irq: nat -> bool, m1: Machine, m2: Machine)
    requires m.cpu.ints.mc == 0 && p != PSW
    requires m1 == Advance(InxStep(m, p, -1), 2)
    requires m2 == Advance(InxStep(Latch(m1, irq(1)), p, -1), 2)
    ensures View(m2) == Isa.ExecInx(Before(m), Isa.OfPair(p), -1)
  {
    hide Read, Translate, Memory.Write, LogWrite;
  }

  lemma DcxPairRefined(dev: Devices, p: Pair, m: Machine, irq: nat -> bool)
    requires m.cpu.ints.mc == 0 && p != PSW
    ensures Refined(dev, DcxPair(p), m, irq, 1)
  {
    hide Handle, TransferStep, FlowStep, RegisterStep, Isa.Exec, Isa.Meaning, Isa.HandlerCycles, InxStep, Isa.ExecInx, View, Before, Advance, Latch;
    var step := StepOf(dev, DcxPair(p));
    forall x: Machine ensures step(x) == InxStep(x, p, -1) { HandleRegister(dev, DcxPair(p), x); RegisterCases(DcxPair(p), x); }
    RegisterMeans(dev, Before(m), DcxPair(p));
    hide StepOf;
    DcxPairTicks(p, m, irq, Ticks(step, 2, m, irq, 0), Ticks(step, 2, m, irq, 1));
  }

  lemma CondMeans(f: Flags, c: Cond)
    ensures Holds(f, c) == Isa.Met(f, Isa.OfCond(c))
  {
  }

  lemma JmpTicks(c: Cond, m: Machine, irq: nat -> bool, m1: Machine, m2: Machine, m3: Machine)
    requires m.cpu.ints.mc == 0
    requires m1 == Advance(JmpStep(m, c), 3)
    requires m2 == Advance(JmpStep(Latch(m1, irq(1)), c), 3)
    requires m3 == Advance(JmpStep(Latch(m2, irq(2)), c), 3)
    ensures View(m3) == Isa.ExecJmp(Before(m), Isa.OfCond(c))
  {
    hide Read, Translate, Holds, Isa.Met, Isa.OfCond;
    CondMeans(m.cpu.regs.f, c);
  }

  lemma JmpRefined(dev: Devices, c: Cond, m: Machine, irq: nat -> bool)
    requires m.cpu.ints.mc == 0
    ensures Refined(dev, Jmp(c), m, irq, 2)
  {
    hide Handle, TransferStep, FlowStep, RegisterStep, Isa.Exec, Isa.Meaning, Isa.HandlerCycles, JmpStep, Isa.ExecJmp, View, Before, Advance, Latch;
    var step := StepOf(dev, Jmp(c));
    forall x: Machine ensures step(x) == JmpStep(x, c) { HandleFlow(dev, Jmp(c), x); FlowCases(dev, Jmp(c), x); }
    FlowMeans(dev, Before(m), Jmp(c));
    hide StepOf;
    JmpTicks(c, m, irq, Ticks(step, 3, m, irq, 0), Ticks(step, 3, m, irq, 1), Ticks(step, 3, m, irq, 2));
  }

  lemma PchlTicks(m: Machine, irq: nat -> bool, m1: Machine, m2: Machine)
    requires m.cpu.ints.mc == 0
    requires m1 == Advance(PchlStep(m), 2)
    requires m2 == Advance(PchlStep(Latch(m1, irq(1))), 2)
    ensures View(m2) == Isa.ExecPchl(Before(m))
  {
    hide Read, Translate, Memory.Write, LogWrite;
  }

  lemma PchlRefined(dev: Devices, m: Machine, irq: nat -> bool)
    requires m.cpu.ints.mc == 0
    ensures Refined(dev, Pchl, m, irq, 1)
  {
    hide Handle, TransferStep, FlowStep, RegisterStep, Isa.Exec, Isa.Meaning, Isa.HandlerCycles, PchlStep, Isa.ExecPchl, View, Before, Advance, Latch;
    var step := StepOf(dev, Pchl);
    forall x: Machine ensures step(x) == PchlStep(x) { HandleRegister(dev, Pchl, x); RegisterCases(Pchl, x); }
    RegisterMeans(dev, Before(m), Pchl);
    hide StepOf;
    PchlTicks(m, irq, Ticks(step, 2, m, irq, 0), Ticks(step, 2, m, irq, 1));
  }

  lemma CallTicks(c: Cond, m: Machine, irq: nat -> bool, m1: Machine, m2: Machine, m3: Machine, m4: Machine, m5: Machine, m6: Machine)
    requires m.cpu.ints.mc == 0 && Holds(m.cpu.regs.f, c)
    requires m1 == Advance(CallStep(m, c), 6)
    requires m2 == Advance(CallStep(Latch(m1, irq(1)), c), 6)
    requires m3 == Advance(CallStep(Latch(m2, irq(2)), c), 6)
    requires m4 == Advance(CallStep(Latch(m3, irq(3)), c), 6)
    requires m5 == Advance(CallStep(Latch(m4, irq(4)), c), 6)
    requires m6 == Advance(CallStep(Latch(m5, irq(5)), c), 6)
    ensures View(m6) == Isa.ExecCall(Before(m), Isa.OfCond(c))
  {
    hide CallStep, Isa.Data16, Read, Translate, Memory.Write, Holds, Isa.Met, Isa.OfCond, Advance, Latch;
    CondMeans(m.cpu.regs.f, c);
    CallFetch(c, m, irq, m1, m2, m3);
    CallPush(c, m3, irq, m4, m5, m6);
    CallWraps(m.cpu.regs.sp, m.cpu.regs.pc);
  }

  lemma CallWraps(sp: word, pc: word)
    ensures Wrap(Wrap(sp - 1) - 1) == Wrap(sp - 2) && Wrap(Wrap(pc + 1) + 1) == Wrap(Wrap(pc - 1) + 3)
  {
  }

  lemma CallFetch(c: Cond, m: Machine, irq: nat -> bool, m1: Machine, m2: Machine, m3: Machine)
    requires m.cpu.ints.mc == 0 && Holds(m.cpu.regs.f, c)
    requires m1 == Advance(CallStep(m, c), 6)
    requires m2 == Advance(CallStep(Latch(m1, irq(1)), c), 6)
    requires m3 == Advance(CallStep(Latch(m2, irq(2)), c), 6)
    ensures m3.cpu.ints.mc == 3 && WordOf(m3.cpu.hid.wz) == Isa.Data16(Before(m))
    ensures View(m3) == View(m).(regs := m.cpu.regs.(pc := Wrap(Wrap(m.cpu.regs.pc + 1) + 1), sp := Wrap(m.cpu.regs.sp - 1)))
  {
    hide Read, Translate, Holds;
  }

  lemma CallPush(c: Cond, m3: Machine, irq: nat -> bool, m4: Machine, m5: Machine, m6: Machine)
    requires m3.cpu.ints.mc == 3 && Holds(m3.cpu.regs.f, c)
    requires m4 == Advance(CallStep(Latch(m3, irq(3)), c), 6)
    requires m5 == Advance(CallStep(Latch(m4, irq(4)), c), 6)
    requires m6 == Advance(CallStep(Latch(m5, irq(5)), c), 6)
    ensures var r := m3.cpu.regs;
            var mem := Memory.Write(Memory.Write(m3.mem, r.sp, High(r.pc), Stack), Wrap(r.sp - 1), Low(r.pc), Stack);
            View(m6) == View(m3).(mem := mem, regs := r.(sp := Wrap(r.sp - 1), pc := WordOf(m3.cpu.hid.wz)))
  {
    hide Read, Translate, Memory.Write, LogWrite, Holds, High, Low, WordOf;
  }

  lemma CallRefined(dev: Devices, c: Cond, m: Machine, irq: nat -> bool)
    requires m.cpu.ints.mc == 0 && Holds(m.cpu.regs.f, c)
    ensures Refined(dev, Call(c), m, irq, 5)
  {
    hide Handle, TransferStep, FlowStep, RegisterStep, Isa.Exec, Isa.Meaning, Isa.HandlerCycles, CallStep, Isa.ExecCall, View, Before, Advance, Latch;
    var step := StepOf(dev, Call(c));
    forall x: Machine ensures step(x) == CallStep(x, c) { HandleFlow(dev, Call(c), x); FlowCases(dev, Call(c), x); }
    FlowMeans(dev, Before(m), Call(c));
    hide StepOf;
    CallTicks(c, m, irq, Ticks(step, 6, m, irq, 0), Ticks(step, 6, m, irq, 1), Ticks(step, 6, m, irq, 2), Ticks(step, 6, m, irq, 3), Ticks(step, 6, m, irq, 4), Ticks(step, 6, m, irq, 5));
  }

  lemma CallUntakenTicks(c: Cond, m: Machine, irq: nat -> bool, m1: Machine, m2: Machine, m3: Machine, m4: Machine)
    requires m.cpu.ints.mc == 0 && !Holds(m.cpu.regs.f, c)
    requires m1 == Advance(CallStep(m, c), 6)
    requires m2 == Advance(CallStep(Latch(m1, irq(1)), c), 6)
    requires m3 == Advance(CallStep(Latch(m2, irq(2)), c), 6)
    requires m4 == Advance(CallStep(Latch(m3, irq(3)), c), 6)
    ensures View(m4) == Isa.ExecCall(Before(m), Isa.OfCond(c))
  {
    hide Read, Translate, Memory.Write, LogWrite, Holds, Isa.Met, Isa.OfCond;
    CondMeans(m.cpu.regs.f, c);
  }

  lemma CallUntakenRefined(dev: Devices, c: Cond, m: Machine, irq: nat -> bool)
    requires m.cpu.ints.mc == 0 && !Holds(m.cpu.regs.f, c)
    ensures Refined(dev, Call(c), m, irq, 3)
  {
    hide Handle, TransferStep, FlowStep, RegisterStep, Isa.Exec, Isa.Meaning, Isa.HandlerCycles, CallStep, Isa.ExecCall, View, Before, Advance, Latch;
    var step := StepOf(dev, Call(c));
    forall x: Machine ensures step(x) == CallStep(x, c) { HandleFlow(dev, Call(c), x); FlowCases(dev, Call(c), x); }
    FlowMeans(dev, Before(m), Call(c));
    hide StepOf;
    CallUntakenTicks(c, m, irq, Ticks(step, 6, m, irq, 0), Ticks(step, 6, m, irq, 1), Ticks(step, 6, m, irq, 2), Ticks(step, 6, m, irq, 3));
  }

  lemma RetTicks(m: Machine, irq: nat -> bool, m1: Machine, m2: Machine, m3: Machine)
    requires m.cpu.ints.mc == 0
    requires m1 == Advance(RetStep(m), 3)
    requires m2 == Advance(RetStep(Latch(m1, irq(1))), 3)
    requires m3 == Advance(RetStep(Latch(m2, irq(2))), 3)
    ensures View(m3) == Isa.ExecRet(Before(m), Isa.Unconditional)
  {
    var y := Latch(m2, irq(2));
    assert y.cpu.hid == PopZ(Latch(m1, irq(1))).cpu.hid && View(y) == View(PopZ(Latch(m1, irq(1))));
    ReturnPops(Latch(m1, irq(1)), y);
    hide PopZ, PopWJump, Read;
  }

  /** Two pops into WZ and a jump: the return of the manual. */
  lemma ReturnPops(x: Machine, y: Machine)
    requires y.cpu.hid == PopZ(x).cpu.hid && View(y) == View(PopZ(x))
    ensures var r := x.cpu.regs;
            View(PopWJump(y)) == View(x).(regs := r.(sp := Wrap(r.sp + 2), pc := Word(Read(x.mem, Wrap(r.sp + 1), Stack), Read(x.mem, r.sp, Stack))))
  {
    hide Read;
  }

  lemma RetRefined(dev: Devices, m: Machine, irq: nat -> bool)
    requires m.cpu.ints.mc == 0
    ensures Refined(dev, Ret, m, irq, 2)
  {
    hide Handle, TransferStep, FlowStep, RegisterStep, Isa.Exec, Isa.Meaning, Isa.HandlerCycles, RetStep, Isa.ExecRet, View, Before, Advance, Latch;
    var step := StepOf(dev, Ret);
    forall x: Machine ensures step(x) == RetStep(x) { HandleFlow(dev, Ret, x); FlowCases(dev, Ret, x); }
    FlowMeans(dev, Before(m), Ret);
    hide StepOf;
    RetTicks(m, irq, Ticks(step, 3, m, irq, 0), Ticks(step, 3, m, irq, 1), Ticks(step, 3, m, irq, 2));
  }

  lemma RetCondTicks(c: Cond, m: Machine, irq: nat -> bool, m1: Machine, m2: Machine, m3: Machine, m4: Machine)
    requires m.cpu.ints.mc == 0 && Holds(m.cpu.regs.f, c)
    requires m1 == Advance(RetCondStep(m, c), 4)
    requires m2 == Advance(RetCondStep(Latch(m1, irq(1)), c), 4)
    requires m3 == Advance(RetCondStep(Latch(m2, irq(2)), c), 4)
    requires m4 == Advance(RetCondStep(Latch(m3, irq(3)), c), 4)
    ensures View(m4) == Isa.ExecRet(Before(m), Isa.OfCond(c))
  {
    hide RetCondStep, PopZ, PopWJump, Read, View, Before, Isa.ExecRet, Latch, Advance;
    var x, y := Latch(m2, irq(2)), Latch(m3, irq(3));
    RetCondHolds(c, m, irq, m1, x);
    RetCondPops(c, x, irq(3), y, m4);
    RetTakenMeans(c, m, View(m4));
  }

  /** The two cycles before the pops of a taken return do nothing. */
  lemma RetCondHolds(c: Cond, m: Machine, irq: nat -> bool, m1: Machine, x: Machine)
    requires m.cpu.ints.mc == 0 && Holds(m.cpu.regs.f, c)
    requires m1 == Advance(RetCondStep(m, c), 4)
    requires x == Latch(Advance(RetCondStep(Latch(m1, irq(1)), c), 4), irq(2))
    ensures View(x) == View(m) && x.cpu.ints.mc == 2
  {
    hide Holds;
  }

  lemma RetCondPops(c: Cond, x: Machine, irq: bool, y: Machine, m4: Machine)
    requires x.cpu.ints.mc == 2 && y == Latch(Advance(RetCondStep(x, c), 4), irq) && m4 == Advance(RetCondStep(y, c), 4)
    ensures var s := View(x);
            View(m4) == s.(regs := s.regs.(sp := Wrap(s.regs.sp + 2), pc := Word(Read(s.mem, Wrap(s.regs.sp + 1), Stack), Read(s.mem, s.regs.sp, Stack))))
  {
    hide Read;
    assert y.cpu.hid == PopZ(x).cpu.hid && View(y) == View(PopZ(x)) && y.cpu.ints.mc == 3;
    ReturnPops(x, y);
    hide PopZ, PopWJump;
  }

  lemma RetTakenMeans(c: Cond, m: Machine, r: Isa.Arch)
    requires Holds(m.cpu.regs.f, c)
    requires var s := View(m);
             r == s.(regs := s.regs.(sp := Wrap(s.regs.sp + 2), pc := Word(Read(s.mem, Wrap(s.regs.sp + 1), Stack), Read(s.mem, s.regs.sp, Stack))))
    ensures r == Isa.ExecRet(Before(m), Isa.OfCond(c))
  {
    CondMeans(m.cpu.regs.f, c);
    hide Isa.OfCond, Isa.Met, Holds, Read;
  }

  lemma RetCondRefined(dev: Devices, c: Cond, m: Machine, irq: nat -> bool)
    requires m.cpu.ints.mc == 0 && Holds(m.cpu.regs.f, c)
    ensures Refined(dev, RetCond(c), m, irq, 3)
  {
    hide Handle, TransferStep, FlowStep, RegisterStep, Isa.Exec, Isa.Meaning, Isa.HandlerCycles, RetCondStep, Isa.ExecRet, View, Before, Advance, Latch;
    var step := StepOf(dev, RetCond(c));
    forall x: Machine ensures step(x) == RetCondStep(x, c) { HandleFlow(dev, RetCond(c), x); FlowCases(dev, RetCond(c), x); }
    FlowMeans(dev, Before(m), RetCond(c));
    hide StepOf;
    RetCondTicks(c, m, irq, Ticks(step, 4, m, irq, 0), Ticks(step, 4, m, irq, 1), Ticks(step, 4, m, irq, 2), Ticks(step, 4, m, irq, 3));
  }

  lemma RetUntakenTicks(c: Cond, m: Machine, irq: nat -> bool, m1: Machine, m2: Machine)
    requires m.cpu.ints.mc == 0 && !Holds(m.cpu.regs.f, c)
    requires m1 == Advance(RetCondStep(m, c), 4)
    requires m2 == Advance(RetCondStep(Latch(m1, irq(1)), c), 4)
    ensures View(m2) == Isa.ExecRet(Before(m), Isa.OfCond(c))
  {
    hide Read, Translate, Memory.Write, LogWrite;
  }

  lemma RetUntakenRefined(dev: Devices, c: Cond, m: Machine, irq: nat -> bool)
    requires m.cpu.ints.mc == 0 && !Holds(m.cpu.regs.f, c)
    ensures Refined(dev, RetCond(c), m, irq, 1)
  {
    hide Handle, TransferStep, FlowStep, RegisterStep, Isa.Exec, Isa.Meaning, Isa.HandlerCycles, RetCondStep, Isa.ExecRet, View, Before, Advance, Latch;
    var step := StepOf(dev, RetCond(c));
    forall x: Machine ensures step(x) == RetCondStep(x, c) { HandleFlow(dev, RetCond(c), x); FlowCases(dev, RetCond(c), x); }
    FlowMeans(dev, Before(m), RetCond(c));
    hide StepOf;
    RetUntakenTicks(c, m, irq, Ticks(step, 4, m, irq, 0), Ticks(step, 4, m, irq, 1));
  }

  lemma RstTicks(n: nat, m: Machine, irq: nat -> bool, m1: Machine, m2: Machine, m3: Machine, m4: Machine)
    requires m.cpu.ints.mc == 0 && n < 8
    requires m1 == Advance(RstStep(m, n), 4)
    requires m2 == Advance(RstStep(Latch(m1, irq(1)), n), 4)
    requires m3 == Advance(RstStep(Latch(m2, irq(2)), n), 4)
    requires m4 == Advance(RstStep(Latch(m3, irq(3)), n), 4)
    ensures View(m4) == Isa.ExecRst(Before(m), n)
  {
    hide RstStep, Read, Translate, Memory.Write, Advance, Latch;
    RstPushes(n, m, irq, m1, m2, m3);
    RstJumps(n, m3, irq, m4);
  }

  lemma RstPushes(n: nat, m: Machine, irq: nat -> bool, m1: Machine, m2: Machine, m3: Machine)
    requires m.cpu.ints.mc == 0 && n < 8
    requires m1 == Advance(RstStep(m, n), 4)
    requires m2 == Advance(RstStep(Latch(m1, irq(1)), n), 4)
    requires m3 == Advance(RstStep(Latch(m2, irq(2)), n), 4)
    ensures m3.cpu.ints.mc == 3 && m3.cpu.hid.wz == Duo(0, 8 * n)
    ensures View(m3) == Isa.PushBytes(View(m), High(m.cpu.regs.pc), Low(m.cpu.regs.pc))
  {
    hide Read, Translate, Memory.Write, LogWrite, High, Low;
  }

  lemma RstJumps(n: nat, m3: Machine, irq: nat -> bool, m4: Machine)
    requires m3.cpu.ints.mc == 3 && n < 8 && m3.cpu.hid.wz == Duo(0, 8 * n)
    requires m4 == Advance(RstStep(Latch(m3, irq(3)), n), 4)
    ensures View(m4) == Isa.Jump(View(m3), 8 * n)
  {
    hide Read, Translate, Memory.Write, LogWrite;
  }

  lemma RstRefined(dev: Devices, n: nat, m: Machine, irq: nat -> bool)
    requires m.cpu.ints.mc == 0 && n < 8
    ensures Refined(dev, Rst(n), m, irq, 3)
  {
    hide Handle, TransferStep, FlowStep, RegisterStep, Isa.Exec, Isa.Meaning, Isa.HandlerCycles, RstStep, Isa.ExecRst, View, Before, Advance, Latch;
    var step := StepOf(dev, Rst(n));
    forall x: Machine ensures step(x) == RstStep(x, n) { HandleFlow(dev, Rst(n), x); FlowCases(dev, Rst(n), x); }
    FlowMeans(dev, Before(m), Rst(n));
    hide StepOf;
    RstTicks(n, m, irq, Ticks(step, 4, m, irq, 0), Ticks(step, 4, m, irq, 1), Ticks(step, 4, m, irq, 2), Ticks(step, 4, m, irq, 3));
  }

  lemma InTicks(dev: Devices, m: Machine, irq: nat -> bool, m1: Machine, m2: Machine, m3: Machine)
    requires m.cpu.ints.mc == 0
    requires m1 == Advance(InStep(dev, m), 3)
    requires m2 == Advance(InStep(dev, Latch(m1, irq(1))), 3)
    requires m3 == Advance(InStep(dev, Latch(m2, irq(2))), 3)
    ensures View(m3) == Isa.ExecIn(dev, Before(m))
  {
    hide Read, Translate, Memory.Write, LogWrite;
  }

  lemma InRefined(dev: Devices, m: Machine, irq: nat -> bool)
    requires m.cpu.ints.mc == 0
    ensures Refined(dev, In, m, irq, 2)
  {
    hide Handle, TransferStep, FlowStep, RegisterStep, Isa.Exec, Isa.Meaning, Isa.HandlerCycles, InStep, Isa.ExecIn, View, Before, Advance, Latch;
    var step := StepOf(dev, In);
    forall x: Machine ensures step(x) == InStep(dev, x) { HandleFlow(dev, In, x); FlowCases(dev, In, x); }
    FlowMeans(dev, Before(m), In);
    hide StepOf;
    InTicks(dev, m, irq, Ticks(step, 3, m, irq, 0), Ticks(step, 3, m, irq, 1), Ticks(step, 3, m, irq, 2));
  }

  lemma OutTicks(m: Machine, irq: nat -> bool, m1: Machine, m2: Machine, m3: Machine)
    requires m.cpu.ints.mc == 0
    requires m1 == Advance(OutStep(m), 3)
    requires m2 == Advance(OutStep(Latch(m1, irq(1))), 3)
    requires m3 == Advance(OutStep(Latch(m2, irq(2))), 3)
    ensures View(m3) == Isa.ExecOut(Before(m))
  {
    hide Read, Translate, Memory.Write, LogWrite;
  }

  lemma OutRefined(dev: Devices, m: Machine, irq: nat -> bool)
    requires m.cpu.ints.mc == 0
    ensures Refined(dev, Out, m, irq, 2)
  {
    hide Handle, TransferStep, FlowStep, RegisterStep, Isa.Exec, Isa.Meaning, Isa.HandlerCycles, OutStep, Isa.ExecOut, View, Before, Advance, Latch;
    var step := StepOf(dev, Out);
    forall x: Machine ensures step(x) == OutStep(x) { HandleFlow(dev, Out, x); FlowCases(dev, Out, x); }
    FlowMeans(dev, Before(m), Out);
    hide StepOf;
    OutTicks(m, irq, Ticks(step, 3, m, irq, 0), Ticks(step, 3, m, irq, 1), Ticks(step, 3, m, irq, 2));
  }

  lemma DiTicks(m: Machine, m1: Machine)
    requires m.cpu.ints.mc == 0
    requires m1 == Advance(DiStep(m), 1)
    ensures View(m1) == Isa.ExecInte(Before(m), false)
  {
    hide Read, Translate, Memory.Write, LogWrite;
  }

  lemma DiRefined(dev: Devices, m: Machine, irq: nat -> bool)
    requires m.cpu.ints.mc == 0
    ensures Refined(dev, Di, m, irq, 0)
  {
    hide Handle, TransferStep, FlowStep, RegisterStep, Isa.Exec, Isa.Meaning, Isa.HandlerCycles, DiStep, Isa.ExecInte, View, Before, Advance, Latch;
    var step := StepOf(dev, Di);
    forall x: Machine ensures step(x) == DiStep(x) { HandleControl(dev, Di, x); }
    ControlMeans(dev, Before(m), Di);
    hide StepOf;
    DiTicks(m, Ticks(step, 1, m, irq, 0));
  }

  lemma EiTicks(m: Machine, m1: Machine)
    requires m.cpu.ints.mc == 0
    requires m1 == Advance(EiStep(m), 1)
    ensures View(m1) == Isa.ExecInte(Before(m), true)
  {
    hide Read, Translate, Memory.Write, LogWrite;
  }

  lemma EiRefined(dev: Devices, m: Machine, irq: nat -> bool)
    requires m.cpu.ints.mc == 0
    ensures Refined(dev, Ei, m, irq, 0)
  {
    hide Handle, TransferStep, FlowStep, RegisterStep, Isa.Exec, Isa.Meaning, Isa.HandlerCycles, EiStep, Isa.ExecInte, View, Before, Advance, Latch;
    var step := StepOf(dev, Ei);
    forall x: Machine ensures step(x) == EiStep(x) { HandleControl(dev, Ei, x); }
    ControlMeans(dev, Before(m), Ei);
    hide StepOf;
    EiTicks(m, Ticks(step, 1, m, irq, 0));
  }

  lemma RegOperandTicks(h: Handler, m: Machine, m1: Machine)
    requires m.cpu.ints.mc == 0 && IsRegOperand(h)
    requires m1 == Advance(SingleCycleStep(h, m), 1)
    ensures View(m1) == Isa.ExecAluR(Before(m), AluOf(h), Isa.OfReg(h.s))
  {
    hide SingleStep, Isa.Alu;
    RegAluMeans(h, m.cpu.regs);
    AluPc(Before(m).regs, AluOf(h), GetReg(m.cpu.regs, h.s), m.cpu.regs.pc);
    assert Before(m).regs.(pc := m.cpu.regs.pc) == m.cpu.regs;
  }

  lemma RegOperandRefined(dev: Devices, h: Handler, m: Machine, irq: nat -> bool)
    requires m.cpu.ints.mc == 0 && IsRegOperand(h)
    ensures Refined(dev, h, m, irq, 0)
  {
    hide Handle, TransferStep, FlowStep, RegisterStep, Isa.Exec, Isa.Meaning, Isa.HandlerCycles, SingleCycleStep, Isa.ExecAluR, View, Before, Advance, Latch;
    var step := StepOf(dev, h);
    forall x: Machine ensures step(x) == SingleCycleStep(h, x) { HandleSingle(dev, h, x); }
    RegMeans(dev, Before(m), h);
    hide StepOf;
    RegOperandTicks(h, m, Ticks(step, 1, m, irq, 0));
  }

  lemma AccumulatorTicks(h: Handler, m: Machine, m1: Machine)
    requires m.cpu.ints.mc == 0 && IsAccumulator(h)
    requires m1 == Advance(SingleCycleStep(h, m), 1)
    ensures View(m1) == Isa.ExecAccumulator(Before(m), Isa.Meaning(h))
  {
    hide SingleStep, Isa.ExecAcc;
    AccMeans(h, m.cpu.regs);
    AccPc(Before(m).regs, Isa.Meaning(h), m.cpu.regs.pc);
    assert Before(m).regs.(pc := m.cpu.regs.pc) == m.cpu.regs;
  }

  lemma AccumulatorRefined(dev: Devices, h: Handler, m: Machine, irq: nat -> bool)
    requires m.cpu.ints.mc == 0 && IsAccumulator(h)
    ensures Refined(dev, h, m, irq, 0)
  {
    hide Handle, TransferStep, FlowStep, RegisterStep, Isa.Exec, Isa.Meaning, Isa.HandlerCycles, SingleCycleStep, Isa.ExecAccumulator, View, Before, Advance, Latch;
    var step := StepOf(dev, h);
    forall x: Machine ensures step(x) == SingleCycleStep(h, x) { HandleSingle(dev, h, x); }
    AccumulatorMeans(dev, Before(m), h);
    hide StepOf;
    AccumulatorTicks(h, m, Ticks(step, 1, m, irq, 0));
  }

  lemma NopTicks(m: Machine, m1: Machine)
    requires m.cpu.ints.mc == 0
    requires m1 == Advance(SingleCycleStep(Nop, m), 1)
    ensures View(m1) == Isa.Next(Before(m), 1)
  {
    hide Read, Translate, Memory.Write, LogWrite;
  }

  lemma NopRefined(dev: Devices, m: Machine, irq: nat -> bool)
    requires m.cpu.ints.mc == 0
    ensures Refined(dev, Nop, m, irq, 0)
  {
    hide Handle, TransferStep, FlowStep, RegisterStep, Isa.Exec, Isa.Meaning, Isa.HandlerCycles, SingleCycleStep, Isa.Next, View, Before, Advance, Latch;
    var step := StepOf(dev, Nop);
    forall x: Machine ensures step(x) == SingleCycleStep(Nop, x) { HandleSingle(dev, Nop, x); }
    ControlMeans(dev, Before(m), Nop);
    hide StepOf;
    NopTicks(m, Ticks(step, 1, m, irq, 0));
  }

}
