/** Whole runs with interrupts: atomic instructions, interrupt calls and halts in the order the machine takes them, for
    every program and every behaviour of the interrupt line. */
module CpuRuns {
  import opened Bytes
  import opened Memory
  import opened CpuDecode
  import opened Cpu
  import opened R = CpuRefinement
  import opened T = CpuTheorem
  import opened P = CpuPrograms
  import opened V = CpuInvariants
  import opened I = Interrupts
  import Isa

  /** An atomic 8080 between two steps: what a program observes, a latched request, the slot after an EI, a halt. */
  datatype Core = Core(s: Isa.Arch, latch: bool, afterEi: bool, halted: bool)

  function At(s: Isa.Arch): (op: byte) { Read(s.mem, s.regs.pc, Data) }

  predicate Requested(c: Core, line: bool) { c.latch || (line && c.s.inte) }

  /** Machine cycles of an instruction: the table, but fewer for a branch not taken. */
  function Clocks(s: Isa.Arch): (d: nat)
  {
    match Isa.Current(s)
    case CALL(c) => if Isa.Met(s.regs.f, c) then 6 else 4
    case RET(c) => if Isa.Met(s.regs.f, c) then MCycles(At(s)) else 2
    case _ => MCycles(At(s))
  }

  /** Push PC and jump to 0x38 with interrupts off. */
  function Called38(s: Isa.Arch): (r: Isa.Arch)
  {
    Isa.Jump(Isa.PushBytes(s.(inte := false), High(s.regs.pc), Low(s.regs.pc)), 0x38)
  }

  /** One step of the atomic machine and its cycles: a wait or the end of a halt, an interrupt, a HLT, the opcode 0x75
      that only skips itself, or an instruction. */
  function Step(dev: Devices, c: Core, irq: nat -> bool): (c': Core)
  {
    var requested := Requested(c, irq(0));
    if c.halted then (if requested then Core(Isa.Next(c.s, 1), true, false, false) else c)
    else if requested && !c.afterEi then Core(Called38(c.s), false, false, false)
    else if At(c.s) == OPCODE_HLT then Core(c.s, requested, false, true)
    else if At(c.s) == OPCODE_MOV_M_L then Core(Isa.Next(c.s, 1), requested, false, false)
    else Core(Isa.Step(dev, c.s), c.latch || (c.s.inte && Pulsed(irq, Clocks(c.s))), At(c.s) == OPCODE_EI, false)
  }

  function Length(c: Core, irq: nat -> bool): (d: nat)
  {
    if c.halted then 1
    else if Requested(c, irq(0)) && !c.afterEi then 4
    else if At(c.s) == OPCODE_HLT || At(c.s) == OPCODE_MOV_M_L then 1
    else Clocks(c.s)
  }

  datatype Progress = Progress(core: Core, cycles: nat)

  /** `n` steps under an interrupt line given cycle by cycle. */
  function Steps(dev: Devices, c: Core, irq: nat -> bool, n: nat): (p: Progress)
  {
    if n == 0 then Progress(c, 0)
    else
      var p := Steps(dev, c, irq, n - 1);
      var line := Later(irq, p.cycles);
      Progress(Step(dev, p.core, line), p.cycles + Length(p.core, line))
  }

  // ---- The machine ------------------------------------------------------------

  /** Between two instructions, or waiting in a HLT. */
  predicate Boundary(m: Machine)
  {
    m.cpu.ints.mc == 0 || (m.cpu.ints.mc == 1 && m.cpu.hid.ir == OPCODE_HLT && !m.cpu.ints.eiPending)
  }

  function CoreOf(m: Machine): (c: Core)
  {
    Core(View(m), m.cpu.ints.iff, m.cpu.ints.eiPending, m.cpu.ints.mc == 1)
  }

  predicate Refines(dev: Devices, m: Machine, irq: nat -> bool)
  {
    var c := CoreOf(m);
    var t := Run(dev, m, irq, Length(c, irq));
    Boundary(t) && CoreOf(t) == Step(dev, c, irq)
  }

  lemma ClocksOf(m: Machine)
    requires Opcode(m) != OPCODE_MOV_M_L
    ensures Clocks(View(m)) == Cycles(m)
  {
    hide MCycles, Cycles, Isa.Decode, Isa.Met;
    InstructionCost(m);
  }

  lemma InterruptRefines(dev: Devices, m: Machine, irq: nat -> bool)
    requires Accepts(m.cpu.ints, irq(0))
    ensures Refines(dev, m, irq)
  {
    hide Run, Clocks, Isa.Step;
    InterruptCalls38(dev, m, irq);
  }

  lemma HaltRefines(dev: Devices, m: Machine, irq: nat -> bool)
    requires m.cpu.ints.mc == 0 && !Accepts(m.cpu.ints, irq(0)) && Opcode(m) == OPCODE_HLT
    ensures Refines(dev, m, irq)
  {
    hide Run, Clocks, Isa.Step, Cycle;
    HltFirstCycle(dev, m, irq(0));
    RunOne(dev, m, irq);
  }

  lemma WaitRefines(dev: Devices, m: Machine, irq: nat -> bool)
    requires Boundary(m) && m.cpu.ints.mc == 1
    ensures Refines(dev, m, irq)
  {
    hide Run, Clocks, Isa.Step, Cycle;
    HltSecondCycle(dev, m, m, irq(0));
    RunOne(dev, m, irq);
  }

  lemma SkipRefines(dev: Devices, m: Machine, irq: nat -> bool)
    requires m.cpu.ints.mc == 0 && !Accepts(m.cpu.ints, irq(0)) && Opcode(m) == OPCODE_MOV_M_L
    ensures Refines(dev, m, irq)
  {
    hide Run, Clocks, Isa.Step, Cycle, Decode, MCycles, HandlerInts, NextMc, SkipMc;
    MovMlSkips(dev, m, irq);
    MovMlDecodes();
    RunOne(dev, m, irq);
    CycleControl(dev, m, irq(0));
    IntsCases(MovMemReg(L), m.cpu.regs.f, BegunInts(m.cpu.ints, irq(0)));
  }

  lemma PlainRefines(dev: Devices, m: Machine, irq: nat -> bool)
    requires m.cpu.ints.mc == 0 && !Accepts(m.cpu.ints, irq(0))
    requires Opcode(m) != OPCODE_HLT && Opcode(m) != OPCODE_MOV_M_L
    ensures Refines(dev, m, irq)
  {
    hide Run, Clocks, Cycles, Isa.Step;
    ClocksOf(m);
    InstructionRefines(dev, m, irq);
  }

  /** From every boundary the machine, run for the cycles of the atomic step, shows that step and is at a boundary. */
  lemma StepRefines(dev: Devices, m: Machine, irq: nat -> bool)
    requires Boundary(m)
    ensures Refines(dev, m, irq)
  {
    hide Refines, Opcode;
    if m.cpu.ints.mc == 1 { WaitRefines(dev, m, irq); }
    else if Accepts(m.cpu.ints, irq(0)) { InterruptRefines(dev, m, irq); }
    else if Opcode(m) == OPCODE_HLT { HaltRefines(dev, m, irq); }
    else if Opcode(m) == OPCODE_MOV_M_L { SkipRefines(dev, m, irq); }
    else { PlainRefines(dev, m, irq); }
  }

  /** Every program, every device, every interrupt line, every number of steps: the machine goes exactly through the
      states of the atomic machine that takes interrupts and halts. */
  lemma {:induction false} RunRefines(dev: Devices, m: Machine, irq: nat -> bool, n: nat)
    requires Boundary(m)
    ensures var p := Steps(dev, CoreOf(m), irq, n);
            var t := Run(dev, m, irq, p.cycles);
            Boundary(t) && CoreOf(t) == p.core && t.cpu.cc == m.cpu.cc + 4 * p.cycles
  {
    hide Run, Step, Length, Boundary, CoreOf;
    if n == 0 {
      RunZero(dev, m, irq);
    } else {
      RunRefines(dev, m, irq, n - 1);
      var p := Steps(dev, CoreOf(m), irq, n - 1);
      var t := Run(dev, m, irq, p.cycles);
      var line := Later(irq, p.cycles);
      StepRefines(dev, t, line);
      RunSplit(dev, m, irq, p.cycles, Length(p.core, line));
      RunClock(dev, t, line, Length(p.core, line));
    }
  }

  lemma {:induction false} RunClock(dev: Devices, m: Machine, irq: nat -> bool, k: nat)
    ensures Run(dev, m, irq, k).cpu.cc == m.cpu.cc + 4 * k
  {
    hide Cycle;
    if k > 0 {
      RunClock(dev, m, irq, k - 1);
      CycleClock(dev, Run(dev, m, irq, k - 1), irq(k - 1));
    }
  }
}
