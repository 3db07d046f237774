/** What every machine cycle keeps, in every run and whatever the rest of the machine does to memory between cycles. */
module CpuInvariants {
  import opened Bytes
  import opened Memory
  import opened CpuDecode
  import opened Cpu
  import opened CpuGroups
  import opened R = CpuRefinement
  import opened T = CpuTheorem
  import opened P = CpuPrograms
  import Isa

  /** The interrupt and cycle state after a handler. */
  function HandlerInts(h: Handler, f: Flags, i: Ints): (i': Ints)
  {
    match h
    case Di => i.(inte := false)
    case Ei => i.(inte := true, eiPending := true)
    case Hlt => if i.mc == 1 && !i.iff then i.(hlta := true, mc := 0) else i
    case _ => i.(mc := SkipMc(h, f, i.mc))
  }

  lemma IntsCases(h: Handler, f: Flags, i: Ints)
    ensures h.Di? ==> HandlerInts(h, f, i) == i.(inte := false)
    ensures h.Ei? ==> HandlerInts(h, f, i) == i.(inte := true, eiPending := true)
    ensures h.Hlt? ==> HandlerInts(h, f, i) == if i.mc == 1 && !i.iff then i.(hlta := true, mc := 0) else i
    ensures !h.Di? && !h.Ei? && !h.Hlt? ==> HandlerInts(h, f, i) == i.(mc := SkipMc(h, f, i.mc))
  {
    hide SkipMc;
  }

  lemma HandleHlt(dev: Devices, m: Machine)
    ensures Handle(dev, Hlt, m) == HltStep(m)
  {
    hide Handle, HltStep;
    HandleControl(dev, Hlt, m);
  }

  /** Handlers leave the opcode and the clock alone and change the interrupt state only as stated. */
  lemma HandlerControl(dev: Devices, h: Handler, m: Machine)
    ensures var m' := Handle(dev, h, m);
            && m'.cpu.hid.ir == m.cpu.hid.ir
            && m'.cpu.cc == m.cpu.cc
            && m'.cpu.ints == HandlerInts(h, m.cpu.regs.f, m.cpu.ints)
            && (h.Call? || h.RetCond? ==> m'.cpu.regs.f == m.cpu.regs.f)
  {
    hide Handle, HandlerInts;
    if h == Hlt {
      HandleHlt(dev, m);
      HltControl(m);
    } else if h == Ei || h == Di {
      HandleEiDi(dev, h, m);
      EiDiControl(m);
    } else {
      OtherControl(dev, h, m);
    }
  }

  lemma HltControl(m: Machine)
    ensures var m' := HltStep(m);
            m'.cpu.hid.ir == m.cpu.hid.ir && m'.cpu.cc == m.cpu.cc && m'.cpu.ints == HandlerInts(Hlt, m.cpu.regs.f, m.cpu.ints)
  {
  }

  lemma EiDiControl(m: Machine)
    ensures var m' := EiStep(m);
            m'.cpu.hid.ir == m.cpu.hid.ir && m'.cpu.cc == m.cpu.cc && m'.cpu.ints == HandlerInts(Ei, m.cpu.regs.f, m.cpu.ints)
    ensures var m' := DiStep(m);
            m'.cpu.hid.ir == m.cpu.hid.ir && m'.cpu.cc == m.cpu.cc && m'.cpu.ints == HandlerInts(Di, m.cpu.regs.f, m.cpu.ints)
  {
  }

  lemma OtherControl(dev: Devices, h: Handler, m: Machine)
    requires h != Hlt && h != Ei && h != Di
    ensures var m' := Handle(dev, h, m);
            && m'.cpu.hid.ir == m.cpu.hid.ir
            && m'.cpu.cc == m.cpu.cc
            && m'.cpu.ints == HandlerInts(h, m.cpu.regs.f, m.cpu.ints)
            && (h.Call? || h.RetCond? ==> m'.cpu.regs.f == m.cpu.regs.f)
  {
    hide Handle, SkipMc;
    Control(dev, h, m);
  }

  /** The state after the latch and, at an instruction boundary, the acknowledge or fetch. */
  function BegunInts(i: Ints, irq: bool): (i': Ints)
  {
    var iff := i.iff || (irq && i.inte);
    if i.mc != 0 then i.(iff := iff)
    else if iff && !i.eiPending then Ints(0, false, false, false, false)
    else i.(iff := iff, eiPending := false)
  }

  function BegunIr(m: Machine, irq: bool): (ir: byte)
  {
    if m.cpu.ints.mc != 0 then m.cpu.hid.ir
    else if Accepts(m.cpu.ints, irq) then OPCODE_RST7 else Opcode(m)
  }

  lemma BeginControl(m: Machine, irq: bool)
    ensures var b := Begin(m, irq);
            && b.cpu.ints == BegunInts(m.cpu.ints, irq)
            && b.cpu.hid.ir == BegunIr(m, irq)
            && b.cpu.cc == m.cpu.cc
            && b.cpu.regs.f == m.cpu.regs.f
  {
    hide Read;
  }

  /** One cycle, seen from the interrupt logic. */
  lemma CycleControl(dev: Devices, m: Machine, irq: bool)
    ensures var m' := Cycle(dev, m, irq);
            var ir := BegunIr(m, irq);
            var i := HandlerInts(Decode(ir), m.cpu.regs.f, BegunInts(m.cpu.ints, irq));
            && m'.cpu.hid.ir == ir
            && m'.cpu.cc == m.cpu.cc + 4
            && m'.cpu.ints == i.(mc := NextMc(i.mc, MCycles(ir)))
            && (Decode(ir).Call? || Decode(ir).RetCond? ==> m'.cpu.regs.f == m.cpu.regs.f)
  {
    hide Handle, Decode, MCycles, HandlerInts, Begin, BegunInts, BegunIr, NextMc;
    var b := Begin(m, irq);
    BeginControl(m, irq);
    HandlerControl(dev, Decode(b.cpu.hid.ir), b);
  }

  // ---- register F ---------------------------------------------------------

  lemma AluFlags(h: Handler, r: Regs, act: byte, tmp: byte)
    ensures FlagsOk(r.f) ==> FlagsOk(AluStep(h, r, act, tmp).f)
  {
    hide GetCarry, Bit, Parity, AndByte, OrByte, XorByte, Add, Sub, Compare, AndAcc, XorAcc, OrAcc;
    forall c: bool
      ensures FlagsOk(r.f) ==> FlagsOk(Add(r, act, tmp, c).f) && FlagsOk(Sub(r, act, tmp, c).f)
    {
      SumFlags(r, act, tmp, c);
    }
    LogicFlags(r, act, tmp);
  }

  lemma SumFlags(r: Regs, act: byte, tmp: byte, c: bool)
    ensures FlagsOk(r.f) ==> FlagsOk(Add(r, act, tmp, c).f) && FlagsOk(Sub(r, act, tmp, c).f)
  {
    hide GetCarry, Bit, Parity;
  }

  lemma LogicFlags(r: Regs, act: byte, tmp: byte)
    ensures FlagsOk(r.f) ==> FlagsOk(Compare(r, act, tmp).f) && FlagsOk(AndAcc(r, act, tmp).f)
                             && FlagsOk(XorAcc(r, act, tmp).f) && FlagsOk(OrAcc(r, act, tmp).f)
  {
    hide GetCarry, Bit, Parity, AndByte, OrByte, XorByte;
  }

  lemma SingleFlags(h: Handler, r: Regs)
    ensures FlagsOk(r.f) ==> FlagsOk(SingleStep(h, r).f)
  {
    hide GetCarry, Bit, Parity, AndByte, OrByte, XorByte, GetReg;
  }

  lemma SetRegFlags(r: Regs, x: Reg, v: byte)
    ensures SetReg(r, x, v).f == r.f
  {
  }

  lemma SetDuoFlags(r: Regs, p: Pair, d: Duo)
    requires p != PSW
    ensures SetDuo(r, p, d).f == r.f
  {
  }

  lemma CountFlags(f: Flags, v: byte)
    ensures FlagsOk(f) ==> FlagsOk(IncFlags(f, v)) && FlagsOk(DecFlags(f, v))
  {
    hide Parity, Bit;
  }

  lemma CarryFlag(f: Flags, c: bool)
    ensures FlagsOk(f) ==> FlagsOk(f.(c := c))
  {
  }

  lemma FlagsFlow(dev: Devices, h: Handler, m: Machine)
    requires IsFlow(h) && Isa.Proper(h) && FlagsOk(m.cpu.regs.f)
    ensures FlagsOk(Handle(dev, h, m).cpu.regs.f)
  {
    hide SetReg, GetReg, GetDuo, SetDuo, AluStep, SingleStep, Parity, Memory.Write, Read, LogWrite, Holds,
      WordOf, DuoOf, High, Low, Code, Translate, FlagsOf, Inc, Dec, SingleHidden, Handle;
    HandleFlow(dev, h, m);
    forall r: Regs, p: Pair, d: Duo | p != PSW ensures SetDuo(r, p, d).f == r.f { SetDuoFlags(r, p, d); }
  }

  lemma FlagsData(dev: Devices, h: Handler, m: Machine)
    requires IsData(h) && Isa.Proper(h) && FlagsOk(m.cpu.regs.f)
    ensures FlagsOk(Handle(dev, h, m).cpu.regs.f)
  {
    hide SetReg, GetReg, GetDuo, SetDuo, AluStep, SingleStep, Parity, Memory.Write, Read, LogWrite, Holds,
      WordOf, DuoOf, High, Low, Code, Translate, FlagsOf, Inc, Dec, SingleHidden, IncFlags, DecFlags, FlagsOk, Handle;
    HandleData(dev, h, m);
    forall f: Flags, v: byte ensures FlagsOk(f) ==> FlagsOk(IncFlags(f, v)) && FlagsOk(DecFlags(f, v)) { CountFlags(f, v); }
    forall f: Flags, c: bool ensures FlagsOk(f) ==> FlagsOk(f.(c := c)) { CarryFlag(f, c); }
    forall r: Regs, x: Reg, v: byte ensures SetReg(r, x, v).f == r.f { SetRegFlags(r, x, v); }
    forall r: Regs, p: Pair, d: Duo | p != PSW ensures SetDuo(r, p, d).f == r.f { SetDuoFlags(r, p, d); }
  }

  lemma FlagsRegister(dev: Devices, h: Handler, m: Machine)
    requires IsRegister(h) && Isa.Proper(h) && FlagsOk(m.cpu.regs.f)
    ensures FlagsOk(Handle(dev, h, m).cpu.regs.f)
  {
    hide SetReg, GetReg, GetDuo, SetDuo, AluStep, SingleStep, Parity, Memory.Write, Read, LogWrite, Holds,
      WordOf, DuoOf, High, Low, Code, Translate, FlagsOf, Inc, Dec, SingleHidden, IncFlags, DecFlags, FlagsOk, Handle;
    HandleRegister(dev, h, m);
    forall f: Flags, v: byte ensures FlagsOk(f) ==> FlagsOk(IncFlags(f, v)) && FlagsOk(DecFlags(f, v)) { CountFlags(f, v); }
    forall f: Flags, c: bool ensures FlagsOk(f) ==> FlagsOk(f.(c := c)) { CarryFlag(f, c); }
    forall r: Regs, x: Reg, v: byte ensures SetReg(r, x, v).f == r.f { SetRegFlags(r, x, v); }
    forall r: Regs, p: Pair, d: Duo | p != PSW ensures SetDuo(r, p, d).f == r.f { SetDuoFlags(r, p, d); }
  }

  lemma FlagsMemOperand(dev: Devices, h: Handler, m: Machine)
    requires IsMemOperand(h) && Isa.Proper(h) && FlagsOk(m.cpu.regs.f)
    ensures FlagsOk(Handle(dev, h, m).cpu.regs.f)
  {
    hide SetReg, GetReg, GetDuo, SetDuo, AluStep, SingleStep, Parity, Memory.Write, Read, LogWrite, Holds,
      WordOf, DuoOf, High, Low, Code, Translate, FlagsOf, Inc, Dec, SingleHidden, Handle;
    HandleOperand(dev, h, m);
    AluFlags(h, m.cpu.regs, m.cpu.hid.act, Read(m.mem, WordOf(m.cpu.regs.hl), Data));
  }

  lemma FlagsImmOperand(dev: Devices, h: Handler, m: Machine)
    requires IsImmOperand(h) && Isa.Proper(h) && FlagsOk(m.cpu.regs.f)
    ensures FlagsOk(Handle(dev, h, m).cpu.regs.f)
  {
    hide SetReg, GetReg, GetDuo, SetDuo, AluStep, SingleStep, Parity, Memory.Write, Read, LogWrite, Holds,
      WordOf, DuoOf, High, Low, Code, Translate, FlagsOf, Inc, Dec, SingleHidden, Handle;
    HandleOperand(dev, h, m);
    AluFlags(h, NextPc(m.cpu.regs), m.cpu.hid.act, Code(m));
  }

  lemma FlagsSingle(dev: Devices, h: Handler, m: Machine)
    requires (IsRegOperand(h) || IsAccumulator(h) || h == Nop) && FlagsOk(m.cpu.regs.f)
    ensures FlagsOk(Handle(dev, h, m).cpu.regs.f)
  {
    hide SingleStep, SingleHidden;
    hide Handle;
    HandleSingle(dev, h, m);
    SingleFlags(h, m.cpu.regs);
  }

  lemma StepFlags(dev: Devices, h: Handler, m: Machine)
    requires Isa.Proper(h) && FlagsOk(m.cpu.regs.f)
    ensures FlagsOk(Handle(dev, h, m).cpu.regs.f)
  {
    hide Handle, FlagsOk, IsFlow, IsData, IsRegister, IsMemOperand, IsImmOperand, IsRegOperand, IsAccumulator, Isa.Proper;
    if h == Hlt { HandleHlt(dev, m); }
    else if h == Ei || h == Di { HandleEiDi(dev, h, m); }
    else {
      Kinds(h);
      if IsFlow(h) { FlagsFlow(dev, h, m); }
      else if IsData(h) { FlagsData(dev, h, m); }
      else if IsRegister(h) { FlagsRegister(dev, h, m); }
      else if IsMemOperand(h) { FlagsMemOperand(dev, h, m); }
      else if IsImmOperand(h) { FlagsImmOperand(dev, h, m); }
      else { FlagsSingle(dev, h, m); }
    }
  }

  /** F keeps bit 1 set and bits 3 and 5 clear, and the cycle index stays inside the instruction. */
  predicate Invariant(s: State) { FlagsOk(s.regs.f) && s.ints.mc < MCycles(s.hid.ir) }

  lemma NextMcBound(mc: nat, n: nat)
    requires n > 0
    ensures NextMc(mc, n) < n
  {
  }

  lemma CycleKeepsInvariant(dev: Devices, m: Machine, irq: bool)
    requires Invariant(m.cpu)
    ensures Invariant(Cycle(dev, m, irq).cpu)
  {
    hide Handle, Decode, MCycles, Begin, BegunIr, BegunInts, HandlerInts, Isa.Meaning, Isa.Decode, NextMc;
    var b := Begin(m, irq);
    var ir := BegunIr(m, irq);
    BeginControl(m, irq);
    Isa.DecodeAgrees(ir);
    StepFlags(dev, Decode(ir), b);
    CycleControl(dev, m, irq);
    NextMcBound(HandlerInts(Decode(ir), m.cpu.regs.f, BegunInts(m.cpu.ints, irq)).mc, MCycles(ir));
  }

  /** Only the CPU is bound to follow `Cycle`; memory, ports and the write log may change freely between cycles. */
  predicate Follows(dev: Devices, t: nat -> Machine, irq: nat -> bool, i: nat)
  {
    t(i + 1).cpu == Cycle(dev, t(i), irq(i)).cpu
  }

  ghost predicate OpenRun(dev: Devices, t: nat -> Machine, irq: nat -> bool)
  {
    forall i: nat :: Follows(dev, t, irq, i)
  }

  /** In every state reachable from reset, however memory and the devices behave. */
  lemma {:induction false} ReachableInvariant(dev: Devices, t: nat -> Machine, irq: nat -> bool, n: nat)
    requires OpenRun(dev, t, irq) && t(0).cpu == Reset()
    ensures Invariant(t(n).cpu) && t(n).cpu.cc == 4 * n
  {
    hide Cycle, MCycles, Invariant;
    if n == 0 {
      ResetInvariant();
    } else {
      ReachableInvariant(dev, t, irq, n - 1);
      assert Follows(dev, t, irq, n - 1);
      CycleKeepsInvariant(dev, t(n - 1), irq(n - 1));
      CycleClock(dev, t(n - 1), irq(n - 1));
    }
  }

  lemma ResetInvariant()
    ensures Invariant(Reset())
  {
    assert MCycles(0) == 1;
  }

  lemma CycleClock(dev: Devices, m: Machine, irq: bool)
    ensures Cycle(dev, m, irq).cpu.cc == m.cpu.cc + 4
  {
    hide Cycle, Decode, MCycles, HandlerInts, BegunInts, BegunIr, NextMc;
    CycleControl(dev, m, irq);
  }
}
