/** One instruction, whole programs, and the opcodes that deviate. */
module CpuPrograms {
  import opened Bytes
  import opened Memory
  import opened CpuDecode
  import opened Cpu
  import opened CpuGroups
  import opened R = CpuRefinement
  import opened T = CpuTheorem
  import Isa

  /** Machine cycles of the instruction under PC. */
  function Cycles(m: Machine): (d: nat)
    ensures 1 <= d <= 6
  {
    Duration(Decode(Opcode(m)), m.cpu.regs.f)
  }

  lemma RunOne(dev: Devices, m: Machine, irq: nat -> bool)
    ensures Run(dev, m, irq, 1) == Cycle(dev, m, irq(0))
  {
    hide Cycle;
    assert Run(dev, m, irq, 0) == m;
  }

  lemma HandleEiDi(dev: Devices, h: Handler, b: Machine)
    requires h == Ei || h == Di
    ensures Handle(dev, h, b) == (if h == Ei then EiStep(b) else DiStep(b))
  {
    hide Handle, EiStep, DiStep;
    HandleControl(dev, h, b);
  }

  /** EI and DI take one cycle and touch only the interrupt enable and the EI delay. */
  lemma EiDiRun(dev: Devices, m: Machine, irq: nat -> bool, h: Handler)
    requires m.cpu.ints.mc == 0 && !Accepts(m.cpu.ints, irq(0))
    requires h == Decode(Opcode(m)) && (h == Ei || h == Di) && MCycles(Opcode(m)) == 1
    ensures var t := Run(dev, m, irq, 1);
            && t == Ticks(StepOf(dev, h), 1, Fetch(Latch(m, irq(0))), irq, 0)
            && t.cpu.cc == m.cpu.cc + 4
            && t.cpu.ints == Ints(0, h == Ei, m.cpu.ints.iff || (irq(0) && m.cpu.ints.inte), m.cpu.ints.hlta, h == Ei)
  {
    hide Decode, MCycles, Cycle, Opcode, Fetch, Latch, View, Before, Run, Handle, Code, Advance, EiStep, DiStep;
    var b := Fetch(Latch(m, irq(0)));
    BeginFetches(m, irq(0));
    CycleStarts(dev, m, irq(0));
    RunOne(dev, m, irq);
    assert Ticks(StepOf(dev, h), 1, b, irq, 0) == Advance(Handle(dev, h, b), 1);
    hide Ticks, StepOf;
    HandleEiDi(dev, h, b);
    EiDiAdvance(b);
  }

  lemma EiDiAdvance(b: Machine)
    requires b.cpu.ints.mc == 0
    ensures Advance(EiStep(b), 1).cpu.cc == Advance(DiStep(b), 1).cpu.cc == b.cpu.cc + 4
    ensures Advance(EiStep(b), 1).cpu.ints == b.cpu.ints.(inte := true, eiPending := true)
    ensures Advance(DiStep(b), 1).cpu.ints == b.cpu.ints.(inte := false)
  {
  }

  /** What one instruction costs and leaves of the interrupt state. */
  predicate Completed(m: Machine, t: Machine, irq: nat -> bool, d: nat)
  {
    && t.cpu.ints.mc == 0
    && t.cpu.cc == m.cpu.cc + 4 * d
    && t.cpu.ints.hlta == m.cpu.ints.hlta
    && t.cpu.ints.eiPending == (Opcode(m) == OPCODE_EI)
    && t.cpu.ints.iff == (m.cpu.ints.iff || (m.cpu.ints.inte && Pulsed(irq, d)))
  }

  lemma IsaControlOpcodes(op: byte)
    ensures (Isa.Decode(op) == Isa.EI) == (op == OPCODE_EI)
    ensures (Isa.Decode(op) == Isa.HLT) == (op == OPCODE_HLT)
  {
    var y, z := op / 8 % 8, op % 8;
    assert op == 64 * (op / 64) + 8 * y + z;
  }

  lemma MeaningIsControl(h: Handler)
    ensures (Isa.Meaning(h) == Isa.EI) == (h == Ei)
    ensures (Isa.Meaning(h) == Isa.HLT) == (h == Hlt)
  {
    hide Isa.Meaning;
    if h == Ei || h == Hlt { EiHltMean(); }
    else { OthersAreNot(h); }
  }

  lemma EiHltMean()
    ensures Isa.Meaning(Ei) == Isa.EI && Isa.Meaning(Hlt) == Isa.HLT
  {
  }

  lemma OthersAreNot(h: Handler)
    requires h != Ei && h != Hlt
    ensures Isa.Meaning(h) != Isa.EI && Isa.Meaning(h) != Isa.HLT
  {
    hide Isa.Meaning, AluOf;
    if h == Di { ControlMeaning(h); }
    else {
      Kinds(h);
      if IsFlow(h) || IsData(h) || IsRegister(h) { MovesAreNot(h); }
      else if h == Nop { ControlMeaning(h); }
      else { OperandsAreNot(h); }
    }
  }

  lemma MovesAreNot(h: Handler)
    requires IsFlow(h) || IsData(h) || IsRegister(h)
    ensures Isa.Meaning(h) != Isa.EI && Isa.Meaning(h) != Isa.HLT
  {
    hide Isa.Meaning;
    if IsFlow(h) { FlowMeaning(h); }
    else if IsData(h) { DataMeaning(h); }
    else { RegisterMeaning(h); }
  }

  lemma OperandsAreNot(h: Handler)
    requires IsMemOperand(h) || IsImmOperand(h) || IsRegOperand(h) || IsAccumulator(h)
    ensures Isa.Meaning(h) != Isa.EI && Isa.Meaning(h) != Isa.HLT
  {
    hide Isa.Meaning, AluOf;
    if IsMemOperand(h) { MemMeaning(h); }
    else if IsImmOperand(h) { ImmMeaning(h); }
    else if IsRegOperand(h) { RegMeaning(h); }
    else { AccumulatorMeaning(h); }
  }

  /** EI and HLT have one opcode each; 0x75 is MOV M,L with a one-cycle table entry. */
  lemma ControlOpcodes(op: byte)
    ensures (Decode(op) == Ei) == (op == OPCODE_EI)
    ensures (Decode(op) == Hlt) == (op == OPCODE_HLT)
  {
    hide Decode, Isa.Decode, Isa.Meaning, MCycles;
    Isa.DecodeAgrees(op);
    IsaControlOpcodes(op);
    MeaningIsControl(Decode(op));
  }

  /** The cycles of an instruction other than HLT and MOV M,L are the ticks of its handler. */
  predicate RunsHandler(dev: Devices, m: Machine, irq: nat -> bool)
  {
    var h := Decode(Opcode(m));
    var d := Cycles(m);
    var t := Run(dev, m, irq, d);
    && t == Ticks(StepOf(dev, h), Isa.HandlerCycles(h), Fetch(Latch(m, irq(0))), irq, d - 1)
    && Completed(m, t, irq, d)
  }

  lemma PulsedOnce(irq: nat -> bool)
    ensures Pulsed(irq, 1) == irq(0)
  {
    assert !Pulsed(irq, 0);
  }

  lemma HandlerRuns(dev: Devices, m: Machine, irq: nat -> bool, h: Handler)
    requires m.cpu.ints.mc == 0 && !Accepts(m.cpu.ints, irq(0))
    requires h == Decode(Opcode(m)) && h != Hlt && MCycles(Opcode(m)) == Isa.HandlerCycles(h)
    requires (h == Ei) == (Opcode(m) == OPCODE_EI)
    ensures RunsHandler(dev, m, irq)
    ensures forall k :: 0 < k < Cycles(m) ==> Run(dev, m, irq, k).cpu.ints.mc == k
  {
    hide Decode, MCycles, Cycle, Duration, Opcode, Fetch, Latch, Ticks, StepOf, Run, Isa.HandlerCycles;
    if h == Ei || h == Di {
      SingleControl(h, m.cpu.regs.f);
      EiDiRun(dev, m, irq, h);
      PulsedOnce(irq);
    } else {
      RunTicks(dev, m, irq, h, Cycles(m) - 1);
      forall k | 0 < k < Cycles(m) ensures Run(dev, m, irq, k).cpu.ints.mc == k {
        RunTicks(dev, m, irq, h, k - 1);
      }
    }
  }

  lemma SingleControl(h: Handler, f: Flags)
    requires h == Ei || h == Di
    ensures Duration(h, f) == 1 && Isa.HandlerCycles(h) == 1
  {
  }

  lemma CorrectView(dev: Devices, m: Machine, irq: nat -> bool, h: Handler)
    requires m.cpu.ints.mc == 0 && !Accepts(m.cpu.ints, irq(0))
    requires h == Decode(Opcode(m)) && Isa.Proper(h) && h != Hlt && Isa.Meaning(h) == Isa.Decode(Opcode(m))
    ensures View(Ticks(StepOf(dev, h), Isa.HandlerCycles(h), Fetch(Latch(m, irq(0))), irq, Cycles(m) - 1)) == Isa.Step(dev, View(m))
  {
    hide Decode, Isa.Decode, Isa.Meaning, Isa.Exec, Duration, Isa.HandlerCycles, Fetch, Latch, Ticks, StepOf, Isa.Proper, Before, Read, Translate;
    var b := Fetch(Latch(m, irq(0)));
    BeginFetches(m, irq(0));
    HandlerCorrect(dev, h, b, irq);
  }

  /** The instruction under PC, run for `Cycles(m)` machine cycles, is the 8080 instruction: same registers,
      flags, memory and port traffic, whatever the interrupt line does meanwhile. */
  lemma InstructionRefines(dev: Devices, m: Machine, irq: nat -> bool)
    requires m.cpu.ints.mc == 0 && !Accepts(m.cpu.ints, irq(0))
    requires Opcode(m) != OPCODE_HLT && Opcode(m) != OPCODE_MOV_M_L
    ensures View(Run(dev, m, irq, Cycles(m))) == Isa.Step(dev, View(m))
    ensures Completed(m, Run(dev, m, irq, Cycles(m)), irq, Cycles(m))
    ensures forall k :: 0 < k < Cycles(m) ==> Run(dev, m, irq, k).cpu.ints.mc == k
  {
    hide Decode, MCycles, Isa.Decode, Isa.Meaning, Isa.Exec, Cycles, View, Isa.HandlerCycles,
      Fetch, Latch, Ticks, StepOf, Isa.Proper, Run, Isa.Step, Opcode, Completed;
    var h := Decode(Opcode(m));
    Isa.DecodeAgrees(Opcode(m));
    ControlOpcodes(Opcode(m));
    HandlerRuns(dev, m, irq, h);
    CorrectView(dev, m, irq, h);
  }

  /** An instruction costs 4 clocks per table entry, except that an untaken call costs 16 and an untaken return 8. */
  lemma InstructionCost(m: Machine)
    requires Opcode(m) != OPCODE_MOV_M_L
    ensures 4 * Cycles(m) == match Isa.Current(View(m))
                             case CALL(c) => if Isa.Met(m.cpu.regs.f, c) then 24 else 16
                             case RET(c) => if Isa.Met(m.cpu.regs.f, c) then 4 * MCycles(Opcode(m)) else 8
                             case _ => 4 * MCycles(Opcode(m))
  {
    hide Decode, MCycles, Isa.Decode, Read;
    Isa.DecodeAgrees(Opcode(m));
  }

  /** The line as seen `k` cycles later. */
  function Later(irq: nat -> bool, k: nat): (r: nat -> bool) { (j: nat) => irq(k + j) }

  /** A run continues from any of its states. */
  lemma {:induction false} RunSplit(dev: Devices, m: Machine, irq: nat -> bool, k: nat, j: nat)
    ensures Run(dev, m, irq, k + j) == Run(dev, Run(dev, m, irq, k), Later(irq, k), j)
  {
    hide Cycle;
    if j > 0 {
      RunSplit(dev, m, irq, k, j - 1);
      assert Later(irq, k)(j - 1) == irq(k + j - 1);
    }
  }

  /** The number of cycles the first `n` instructions take. */
  function Start(dev: Devices, m: Machine, irq: nat -> bool, n: nat): (k: nat)
  {
    if n == 0 then 0
    else var k := Start(dev, m, irq, n - 1); k + Cycles(Run(dev, m, irq, k))
  }

  /** In the first `n` instructions no interrupt is accepted and neither HLT nor MOV M,L is met. */
  predicate Plain(dev: Devices, m: Machine, irq: nat -> bool, n: nat)
  {
    n > 0 ==>
      && Plain(dev, m, irq, n - 1)
      && var k := Start(dev, m, irq, n - 1);
         var t := Run(dev, m, irq, k);
         !Accepts(t.cpu.ints, irq(k)) && Opcode(t) != OPCODE_HLT && Opcode(t) != OPCODE_MOV_M_L
  }

  /** Every program, every run length: after `n` instructions the machine shows what `n` atomic steps give. */
  lemma {:induction false} ProgramRefines(dev: Devices, m: Machine, irq: nat -> bool, n: nat)
    requires m.cpu.ints.mc == 0 && Plain(dev, m, irq, n)
    ensures var t := Run(dev, m, irq, Start(dev, m, irq, n));
            View(t) == Isa.Steps(dev, View(m), n) && t.cpu.ints.mc == 0
  {
    hide Cycle, Cycles, View, Isa.Step, Opcode, Run;
    if n == 0 {
      assert Run(dev, m, irq, 0) == m by { hide *; RunZero(dev, m, irq); }
    } else {
      ProgramRefines(dev, m, irq, n - 1);
      var k := Start(dev, m, irq, n - 1);
      var t := Run(dev, m, irq, k);
      assert Later(irq, k)(0) == irq(k);
      InstructionRefines(dev, t, Later(irq, k));
      RunSplit(dev, m, irq, k, Cycles(t));
    }
  }

  lemma RunZero(dev: Devices, m: Machine, irq: nat -> bool)
    ensures Run(dev, m, irq, 0) == m
  {
  }

  // ---- MOV M,L ------------------------------------------------------------

  lemma HandleMovMemL(dev: Devices, b: Machine)
    ensures Handle(dev, MovMemReg(L), b) == MovMemRegStep(b, L)
  {
    hide Handle, TransferStep, MovMemRegStep;
    HandleData(dev, MovMemReg(L), b);
    TransferCases(MovMemReg(L), b);
  }

  lemma MovMlDecodes()
    ensures Decode(OPCODE_MOV_M_L) == MovMemReg(L) && MCycles(OPCODE_MOV_M_L) == 1
    ensures Isa.Decode(OPCODE_MOV_M_L) == Isa.MOV(Isa.M, Isa.L)
  {
    hide MiscRow, AluRow, FlowRow, MiscCycles, FlowCycles, AluCycles, Isa.DecodeMisc, Isa.DecodeFlow;
    var op := OPCODE_MOV_M_L;
    assert op / 64 == 1 && op / 8 % 8 == 6 && op % 8 == 5 && op / 16 == 7 && op % 16 == 5;
  }

  /** Opcode 0x75 has a one-cycle table entry, so its store is never reached: it only skips itself. */
  lemma MovMlSkips(dev: Devices, m: Machine, irq: nat -> bool)
    requires m.cpu.ints.mc == 0 && !Accepts(m.cpu.ints, irq(0)) && Opcode(m) == OPCODE_MOV_M_L
    ensures var t := Run(dev, m, irq, 1);
            t.cpu.ints.mc == 0 && View(t) == Isa.Next(View(m), 1)
  {
    hide Decode, MCycles, Cycle, Handle, Run, Advance, Fetch, Latch, MovMemRegStep, View, Isa.Next, Isa.Decode;
    MovMlDecodes();
    CycleStarts(dev, m, irq(0));
    RunOne(dev, m, irq);
    HandleMovMemL(dev, Fetch(Latch(m, irq(0))));
    OneCycleOfMov(m, irq(0));
  }

  lemma OneCycleOfMov(m: Machine, irq: bool)
    requires m.cpu.ints.mc == 0
    ensures var t := Advance(MovMemRegStep(Fetch(Latch(m, irq)), L), 1);
            t.cpu.ints.mc == 0 && View(t) == Isa.Next(View(m), 1)
  {
    hide Read, GetReg, Translate;
  }

  /** It therefore agrees with the 8080 exactly when the byte is already in place. */
  lemma MovMlRefinesIff(dev: Devices, m: Machine, irq: nat -> bool)
    requires m.cpu.ints.mc == 0 && !Accepts(m.cpu.ints, irq(0)) && Opcode(m) == OPCODE_MOV_M_L
    ensures var hl := WordOf(m.cpu.regs.hl);
            (View(Run(dev, m, irq, 1)) == Isa.Step(dev, View(m)))
            <==> m.mem.ram[Translate(m.mem, hl, Data)] == m.cpu.regs.hl.l
  {
    hide Decode, MCycles, Cycle, Handle, Run, Isa.Decode, Translate;
    MovMlSkips(dev, m, irq);
    MovMlDecodes();
    var s := View(m);
    var hl := WordOf(m.cpu.regs.hl);
    assert Isa.Step(dev, s) == Isa.Next(Isa.Set(s, Isa.M, s.regs.hl.l), 1);
    WriteSame(m.mem, hl, m.cpu.regs.hl.l);
  }

  lemma WriteSame(mem: Mem, addr: word, v: byte)
    ensures (Memory.Write(mem, addr, v, Data) == mem) <==> mem.ram[Translate(mem, addr, Data)] == v
  {
    var g := Translate(mem, addr, Data);
    assert mem.ram[g := v][g] == v;
    if mem.ram[g] == v { assert mem.ram[g := v] == mem.ram; }
  }
}
