/** Whole instructions and whole programs: the machine-cycle CPU refines the 8080. */
module CpuTheorem {
  import opened Bytes
  import opened Memory
  import opened CpuDecode
  import opened Cpu
  import opened CpuGroups
  import opened R = CpuRefinement
  import Isa

  /** Machine cycles an instruction takes; untaken calls and returns end early. */
  function Duration(h: Handler, f: Flags): (n: nat)
    ensures 1 <= n <= 6
  {
    match h
    case Call(c) => if Holds(f, c) then 6 else 4
    case RetCond(c) => if Holds(f, c) then 4 else 2
    case _ => Isa.HandlerCycles(h)
  }

  /** The handler carries out its instruction in `Duration` cycles. */
  predicate Correct(dev: Devices, h: Handler, m: Machine, irq: nat -> bool)
  {
    Refined(dev, h, m, irq, Duration(h, m.cpu.regs.f) - 1)
  }

  lemma Durations(h: Handler, f: Flags)
    ensures h.Call? ==> Duration(h, f) == if Holds(f, h.cond) then 6 else 4
    ensures h.RetCond? ==> Duration(h, f) == if Holds(f, h.cond) then 4 else 2
    ensures !h.Call? && !h.RetCond? ==> Duration(h, f) == Isa.HandlerCycles(h)
  {
    hide Isa.HandlerCycles, Holds;
  }

  lemma TransferCorrect(dev: Devices, h: Handler, m: Machine, irq: nat -> bool)
    requires m.cpu.ints.mc == 0 && Isa.Proper(h) && IsData(h)
    ensures Correct(dev, h, m, irq)
  {
    hide Refined, Duration, Isa.HandlerCycles, Isa.Meaning;
    Durations(h, m.cpu.regs.f);
    DataCounts(h);
    if h.LoadRegPtr? { if h.p == HL { LoadRegHlRefined(dev, h.d, m, irq); } else { LoadAccPtrRefined(dev, h.p, m, irq); } }
    else if h.MovMemReg? { MovMemRegRefined(dev, h.s, m, irq); }
    else if h.MviRegData? { MviRegDataRefined(dev, h.d, m, irq); }
    else if h.MviMemData? { MviMemDataRefined(dev, m, irq); }
    else if h.Lda? { LdaRefined(dev, m, irq); }
    else if h.Sta? { StaRefined(dev, m, irq); }
    else if h.StaxPtr? { StaxPtrRefined(dev, h.p, m, irq); }
    else if h.LxiPair? { LxiPairRefined(dev, h.p, m, irq); }
    else if h.Lhld? { LhldRefined(dev, m, irq); }
    else if h.Shld? { ShldRefined(dev, m, irq); }
    else if h.InrMem? { InrMemRefined(dev, m, irq); }
    else { DcrMemRefined(dev, m, irq); }
  }

  lemma RegisterCorrect(dev: Devices, h: Handler, m: Machine, irq: nat -> bool)
    requires m.cpu.ints.mc == 0 && Isa.Proper(h) && IsRegister(h)
    ensures Correct(dev, h, m, irq)
  {
    hide Refined, Duration, Isa.HandlerCycles, Isa.Meaning;
    Durations(h, m.cpu.regs.f);
    RegisterCounts(h);
    if h.MovRegReg? { MovRegRegRefined(dev, h.d, h.s, m, irq); }
    else if h.Sphl? { SphlRefined(dev, m, irq); }
    else if h.Xchg? { XchgRefined(dev, m, irq); }
    else if h.DadPair? { DadPairRefined(dev, h.p, m, irq); }
    else if h.InrReg? { InrRegRefined(dev, h.d, m, irq); }
    else if h.DcrReg? { DcrRegRefined(dev, h.d, m, irq); }
    else if h.InxPair? { InxPairRefined(dev, h.p, m, irq); }
    else if h.DcxPair? { DcxPairRefined(dev, h.p, m, irq); }
    else { PchlRefined(dev, m, irq); }
  }

  lemma FlowCorrect(dev: Devices, h: Handler, m: Machine, irq: nat -> bool)
    requires m.cpu.ints.mc == 0 && Isa.Proper(h) && IsFlow(h)
    ensures Correct(dev, h, m, irq)
  {
    hide Refined, Holds, Duration, Isa.HandlerCycles, Isa.Meaning;
    Durations(h, m.cpu.regs.f);
    FlowCounts(h);
    if h.Xthl? { XthlRefined(dev, m, irq); }
    else if h.Push? { PushRefined(dev, h.p, m, irq); }
    else if h.Pop? { PopRefined(dev, h.p, m, irq); }
    else if h.Jmp? { JmpRefined(dev, h.cond, m, irq); }
    else if h.Call? {
      if Holds(m.cpu.regs.f, h.cond) { CallRefined(dev, h.cond, m, irq); } else { CallUntakenRefined(dev, h.cond, m, irq); }
    }
    else if h.Ret? { RetRefined(dev, m, irq); }
    else if h.RetCond? {
      if Holds(m.cpu.regs.f, h.cond) { RetCondRefined(dev, h.cond, m, irq); } else { RetUntakenRefined(dev, h.cond, m, irq); }
    }
    else if h.Rst? { RstRefined(dev, h.arg, m, irq); }
    else if h.In? { InRefined(dev, m, irq); }
    else { OutRefined(dev, m, irq); }
  }

  lemma OperandCorrect(dev: Devices, h: Handler, m: Machine, irq: nat -> bool)
    requires m.cpu.ints.mc == 0 && !IsData(h) && !IsRegister(h) && !IsFlow(h) && h != Hlt
    ensures Correct(dev, h, m, irq)
  {
    hide Refined, Duration, Isa.HandlerCycles, Isa.Meaning;
    Durations(h, m.cpu.regs.f);
    OperandCounts(h);
    if h.Di? { DiRefined(dev, m, irq); }
    else if h.Ei? { EiRefined(dev, m, irq); }
    else if h.Nop? { NopRefined(dev, m, irq); }
    else {
      Kinds(h);
      hide IsData, IsRegister, IsFlow;
      if IsMemOperand(h) { MemOperandRefined(dev, h, m, irq); }
      else if IsImmOperand(h) { ImmOperandRefined(dev, h, m, irq); }
      else if IsRegOperand(h) { RegOperandRefined(dev, h, m, irq); }
      else { AccumulatorRefined(dev, h, m, irq); }
    }
  }

  /** Every handler the switch can select, except HLT, carries out its instruction. */
  lemma HandlerCorrect(dev: Devices, h: Handler, m: Machine, irq: nat -> bool)
    requires m.cpu.ints.mc == 0 && Isa.Proper(h) && h != Hlt
    ensures Correct(dev, h, m, irq)
  {
    hide Correct, Isa.Proper, IsData, IsRegister, IsFlow;
    if IsData(h) { TransferCorrect(dev, h, m, irq); }
    else if IsRegister(h) { RegisterCorrect(dev, h, m, irq); }
    else if IsFlow(h) { FlowCorrect(dev, h, m, irq); }
    else { OperandCorrect(dev, h, m, irq); }
  }

  /** Where a handler leaves the cycle index: only untaken calls and returns move it. */
  function SkipMc(h: Handler, f: Flags, mc: nat): (r: nat)
  {
    match h
    case Call(c) => if mc == 3 && !Holds(f, c) then 5 else mc
    case RetCond(c) => if mc == 1 && !Holds(f, c) then 3 else mc
    case _ => mc
  }

  /** The instruction register, the clock and the interrupt state survive a handler, but for the cycle index. */
  predicate Controlled(h: Handler, m: Machine, m': Machine)
  {
    && m'.cpu.hid.ir == m.cpu.hid.ir
    && m'.cpu.cc == m.cpu.cc
    && m'.cpu.ints == m.cpu.ints.(mc := SkipMc(h, m.cpu.regs.f, m.cpu.ints.mc))
    && (h.Call? || h.RetCond? ==> m'.cpu.regs.f == m.cpu.regs.f)
  }

  lemma ControlFlow(dev: Devices, h: Handler, m: Machine)
    requires IsFlow(h)
    ensures Controlled(h, m, Handle(dev, h, m))
  {
    hide SetReg, GetReg, GetDuo, SetDuo, AluStep, SingleStep, SingleHidden, IncFlags, DecFlags, Memory.Write, Read, LogWrite, Holds,
      WordOf, DuoOf, High, Low, Code, Translate, Masked, Handle;
    HandleFlow(dev, h, m);
  }

  lemma ControlData(dev: Devices, h: Handler, m: Machine)
    requires IsData(h)
    ensures Controlled(h, m, Handle(dev, h, m))
  {
    hide SetReg, GetReg, GetDuo, SetDuo, AluStep, SingleStep, SingleHidden, IncFlags, DecFlags, Memory.Write, Read, LogWrite, Holds,
      WordOf, DuoOf, High, Low, Code, Translate, Masked, Handle;
    HandleData(dev, h, m);
  }

  lemma ControlRegister(dev: Devices, h: Handler, m: Machine)
    requires IsRegister(h)
    ensures Controlled(h, m, Handle(dev, h, m))
  {
    hide SetReg, GetReg, GetDuo, SetDuo, AluStep, SingleStep, SingleHidden, IncFlags, DecFlags, Memory.Write, Read, LogWrite, Holds,
      WordOf, DuoOf, High, Low, Code, Translate, Masked, Handle;
    HandleRegister(dev, h, m);
  }

  lemma ControlMemOperand(dev: Devices, h: Handler, m: Machine)
    requires IsMemOperand(h)
    ensures Controlled(h, m, Handle(dev, h, m))
  {
    hide SetReg, GetReg, GetDuo, SetDuo, AluStep, SingleStep, SingleHidden, IncFlags, DecFlags, Memory.Write, Read, LogWrite, Holds,
      WordOf, DuoOf, High, Low, Code, Translate, Masked, Handle;
    HandleOperand(dev, h, m);
  }

  lemma ControlImmOperand(dev: Devices, h: Handler, m: Machine)
    requires IsImmOperand(h)
    ensures Controlled(h, m, Handle(dev, h, m))
  {
    hide SetReg, GetReg, GetDuo, SetDuo, AluStep, SingleStep, SingleHidden, IncFlags, DecFlags, Memory.Write, Read, LogWrite, Holds,
      WordOf, DuoOf, High, Low, Code, Translate, Masked, Handle;
    HandleOperand(dev, h, m);
  }

  lemma ControlSingle(dev: Devices, h: Handler, m: Machine)
    requires IsRegOperand(h) || IsAccumulator(h) || h == Nop
    ensures Controlled(h, m, Handle(dev, h, m))
  {
    hide Handle, SingleStep, SingleHidden, SkipMc, IsRegOperand, IsAccumulator;
    HandleSingle(dev, h, m);
    SingleIr(h, m.cpu.regs, m.cpu.hid);
    SkipCases(h, m.cpu.regs.f, m.cpu.ints.mc);
    SingleIsNoBranch(h);
  }

  lemma SingleIsNoBranch(h: Handler)
    requires IsRegOperand(h) || IsAccumulator(h) || h == Nop
    ensures !h.Call? && !h.RetCond?
  {
  }

  lemma SingleIr(h: Handler, r: Regs, x: Hidden)
    ensures SingleHidden(h, r, x).ir == x.ir
  {
    hide GetReg;
  }

  lemma Control(dev: Devices, h: Handler, m: Machine)
    requires h != Hlt && h != Ei && h != Di
    ensures Controlled(h, m, Handle(dev, h, m))
  {
    hide Handle, Controlled, IsFlow, IsData, IsRegister, IsMemOperand, IsImmOperand, IsRegOperand, IsAccumulator;
    Kinds(h);
    if IsFlow(h) { ControlFlow(dev, h, m); }
    else if IsData(h) { ControlData(dev, h, m); }
    else if IsRegister(h) { ControlRegister(dev, h, m); }
    else if IsMemOperand(h) { ControlMemOperand(dev, h, m); }
    else if IsImmOperand(h) { ControlImmOperand(dev, h, m); }
    else { ControlSingle(dev, h, m); }
  }

  /** Some interrupt pulse arrives in the first `k` cycles. */
  predicate Pulsed(irq: nat -> bool, k: nat)
  {
    k > 0 && (Pulsed(irq, k - 1) || irq(k - 1))
  }

  /** The control state `k` cycles into an instruction that started in `m`, of length `d`. */
  predicate InFlight(m: Machine, t: Machine, irq: nat -> bool, op: byte, k: nat, d: nat)
  {
    && t.cpu.hid.ir == op
    && t.cpu.cc == m.cpu.cc + 4 * k
    && t.cpu.ints.mc == (if k == d then 0 else k)
    && t.cpu.ints.inte == m.cpu.ints.inte
    && t.cpu.ints.hlta == m.cpu.ints.hlta
    && !t.cpu.ints.eiPending
    && t.cpu.ints.iff == (m.cpu.ints.iff || (m.cpu.ints.inte && Pulsed(irq, k)))
  }

  /** The opcode the next fetch will read. */
  function Opcode(m: Machine): (op: byte) { Code(m) }

  lemma BeginFetches(m: Machine, irq: bool)
    requires m.cpu.ints.mc == 0 && !Accepts(m.cpu.ints, irq)
    ensures Begin(m, irq) == Fetch(Latch(m, irq))
    ensures Fetch(Latch(m, irq)).cpu.hid.ir == Opcode(m)
    ensures Before(Fetch(Latch(m, irq))) == View(m)
    ensures Fetch(Latch(m, irq)).cpu.regs.f == m.cpu.regs.f
    ensures Fetch(Latch(m, irq)).cpu.ints == m.cpu.ints.(iff := m.cpu.ints.iff || (irq && m.cpu.ints.inte), eiPending := false)
    ensures Fetch(Latch(m, irq)).cpu.cc == m.cpu.cc
  {
    hide Read;
  }

  lemma CycleContinues(dev: Devices, m: Machine, irq: bool, op: byte)
    requires m.cpu.ints.mc != 0 && m.cpu.hid.ir == op
    ensures Cycle(dev, m, irq) == Advance(Handle(dev, Decode(op), Latch(m, irq)), MCycles(op))
  {
    hide Handle, Decode, MCycles, Advance;
  }

  lemma CycleStarts(dev: Devices, m: Machine, irq: bool)
    requires m.cpu.ints.mc == 0 && !Accepts(m.cpu.ints, irq)
    ensures Cycle(dev, m, irq) == Advance(Handle(dev, Decode(Opcode(m)), Fetch(Latch(m, irq))), MCycles(Opcode(m)))
  {
    hide Handle, Decode, MCycles, Advance, Begin, Fetch, Latch;
    BeginFetches(m, irq);
  }

  /** The cycle index after cycle `k` of an instruction. */
  lemma McMoves(h: Handler, f: Flags, k: nat)
    requires k < Duration(h, f)
    ensures var n := Isa.HandlerCycles(h); var d := Duration(h, f);
            NextMc(SkipMc(h, f, k), n) == (if k + 1 == d then 0 else k + 1)
  {
    Durations(h, f);
    if h.Call? || h.RetCond? { FlowCounts(h); }
    SkipCases(h, f, k);
    hide Holds, Isa.HandlerCycles, Duration, SkipMc, IsMemOperand, IsImmOperand, IsRegOperand, IsAccumulator;
  }

  lemma SkipCases(h: Handler, f: Flags, mc: nat)
    ensures h.Call? ==> SkipMc(h, f, mc) == if mc == 3 && !Holds(f, h.cond) then 5 else mc
    ensures h.RetCond? ==> SkipMc(h, f, mc) == if mc == 1 && !Holds(f, h.cond) then 3 else mc
    ensures !h.Call? && !h.RetCond? ==> SkipMc(h, f, mc) == mc
  {
    hide Holds;
  }

  lemma TickControl(dev: Devices, h: Handler, m: Machine, k: nat)
    requires h != Hlt && h != Ei && h != Di
    requires k < Duration(h, m.cpu.regs.f) && m.cpu.ints.mc == k
    ensures var t := Advance(Handle(dev, h, m), Isa.HandlerCycles(h));
            && t.cpu.hid.ir == m.cpu.hid.ir
            && t.cpu.cc == m.cpu.cc + 4
            && t.cpu.ints == m.cpu.ints.(mc := if k + 1 == Duration(h, m.cpu.regs.f) then 0 else k + 1)
            && (h.Call? || h.RetCond? ==> t.cpu.regs.f == m.cpu.regs.f)
  {
    hide Handle, NextMc, SkipMc, Isa.HandlerCycles, Duration;
    Control(dev, h, m);
    McMoves(h, m.cpu.regs.f, k);
  }

  lemma SameDuration(h: Handler, f: Flags, g: Flags)
    requires h.Call? || h.RetCond? ==> f == g
    ensures Duration(h, f) == Duration(h, g)
  {
    hide Isa.HandlerCycles;
  }

  /** The state and the control state after `k` + 1 cycles. */
  predicate Ticking(dev: Devices, m: Machine, irq: nat -> bool, h: Handler, k: nat, t: Machine)
  {
    && t == Ticks(StepOf(dev, h), Isa.HandlerCycles(h), Fetch(Latch(m, irq(0))), irq, k)
    && InFlight(m, t, irq, Opcode(m), k + 1, Duration(h, m.cpu.regs.f))
    && (h.Call? || h.RetCond? ==> t.cpu.regs.f == m.cpu.regs.f)
  }

  lemma FirstTick(dev: Devices, m: Machine, irq: nat -> bool, h: Handler)
    requires m.cpu.ints.mc == 0 && !Accepts(m.cpu.ints, irq(0))
    requires h == Decode(Opcode(m)) && h != Hlt && h != Ei && h != Di
    requires MCycles(Opcode(m)) == Isa.HandlerCycles(h)
    ensures Ticking(dev, m, irq, h, 0, Cycle(dev, m, irq(0)))
  {
    hide Handle, Decode, MCycles, Cycle, Isa.HandlerCycles, Duration, Fetch, Begin, Opcode, Advance, Latch, View, Before, Code;
    var b := Fetch(Latch(m, irq(0)));
    BeginFetches(m, irq(0));
    CycleStarts(dev, m, irq(0));
    SameDuration(h, b.cpu.regs.f, m.cpu.regs.f);
    TickControl(dev, h, b, 0);
    assert Pulsed(irq, 1) == irq(0);
  }

  lemma TicksOn(dev: Devices, h: Handler, n: nat, b: Machine, irq: nat -> bool, k: nat)
    requires n > 0 && k > 0
    ensures Ticks(StepOf(dev, h), n, b, irq, k) == Advance(Handle(dev, h, Latch(Ticks(StepOf(dev, h), n, b, irq, k - 1), irq(k))), n)
  {
    hide Handle, Advance, Latch;
  }

  lemma FlightGoesOn(dev: Devices, m: Machine, irq: nat -> bool, h: Handler, op: byte, k: nat, p: Machine, t: Machine)
    requires h != Hlt && h != Ei && h != Di
    requires 0 < k < Duration(h, m.cpu.regs.f)
    requires InFlight(m, p, irq, op, k, Duration(h, m.cpu.regs.f)) && (h.Call? || h.RetCond? ==> p.cpu.regs.f == m.cpu.regs.f)
    requires t == Advance(Handle(dev, h, Latch(p, irq(k))), Isa.HandlerCycles(h))
    ensures InFlight(m, t, irq, op, k + 1, Duration(h, m.cpu.regs.f)) && (h.Call? || h.RetCond? ==> t.cpu.regs.f == m.cpu.regs.f)
  {
    hide Handle, Isa.HandlerCycles, Duration, Advance;
    SameDuration(h, p.cpu.regs.f, m.cpu.regs.f);
    TickControl(dev, h, Latch(p, irq(k)), k);
  }

  lemma NextTick(dev: Devices, m: Machine, irq: nat -> bool, h: Handler, k: nat, p: Machine)
    requires h == Decode(Opcode(m)) && h != Hlt && h != Ei && h != Di
    requires MCycles(Opcode(m)) == Isa.HandlerCycles(h)
    requires 0 < k < Duration(h, m.cpu.regs.f) && Ticking(dev, m, irq, h, k - 1, p)
    ensures Ticking(dev, m, irq, h, k, Cycle(dev, p, irq(k)))
  {
    hide Handle, Decode, MCycles, Cycle, Isa.HandlerCycles, Duration, Fetch, Opcode, Advance, Ticks, StepOf, Latch;
    CycleContinues(dev, p, irq(k), Opcode(m));
    TicksOn(dev, h, Isa.HandlerCycles(h), Fetch(Latch(m, irq(0))), irq, k);
    FlightGoesOn(dev, m, irq, h, Opcode(m), k, p, Cycle(dev, p, irq(k)));
  }

  /** Inside an instruction, running cycles is ticking its handler. */
  lemma {:induction false} RunTicks(dev: Devices, m: Machine, irq: nat -> bool, h: Handler, k: nat)
    requires m.cpu.ints.mc == 0 && !Accepts(m.cpu.ints, irq(0))
    requires h == Decode(Opcode(m)) && h != Hlt && h != Ei && h != Di
    requires MCycles(Opcode(m)) == Isa.HandlerCycles(h)
    requires k < Duration(h, m.cpu.regs.f)
    ensures Ticking(dev, m, irq, h, k, Run(dev, m, irq, k + 1))
  {
    hide Decode, MCycles, Cycle, Isa.HandlerCycles, Duration, Opcode, Ticking;
    if k == 0 {
      FirstTick(dev, m, irq, h);
      assert Run(dev, m, irq, 1) == Cycle(dev, Run(dev, m, irq, 0), irq(0));
    } else {
      RunTicks(dev, m, irq, h, k - 1);
      NextTick(dev, m, irq, h, k, Run(dev, m, irq, k));
    }
  }
}
