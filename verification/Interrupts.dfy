/** The interrupt protocol over all runs: latch, EI delay, acceptance, and the way out of HLT. */
module Interrupts {
  import opened Bytes
  import opened Memory
  import opened CpuDecode
  import opened Cpu
  import opened CpuGroups
  import opened R = CpuRefinement
  import opened T = CpuTheorem
  import opened P = CpuPrograms
  import opened V = CpuInvariants
  import Isa

  /** A request is held or arriving. */
  predicate Latched(i: Ints, irq: bool) { i.iff || (irq && i.inte) }

  /** The EI delay is pending only right after an EI; a halted CPU sits in HLT or is about to be interrupted. */
  predicate Protocol(s: State)
  {
    && s.ints.mc < MCycles(s.hid.ir)
    && (s.ints.eiPending ==> s.ints.mc == 0 && s.hid.ir == OPCODE_EI)
    && (s.ints.hlta ==> s.hid.ir == OPCODE_HLT && (s.ints.mc == 1 || (s.ints.mc == 0 && s.ints.iff && !s.ints.eiPending)))
  }

  lemma TableFacts()
    ensures MCycles(OPCODE_EI) == 1 && MCycles(OPCODE_HLT) == 2 && MCycles(OPCODE_RST7) == 4
    ensures Decode(OPCODE_EI) == Ei && Decode(OPCODE_HLT) == Hlt && Decode(OPCODE_RST7) == Rst(7)
  {
  }

  lemma OneOrTwo()
    ensures NextMc(0, 1) == 0 && NextMc(0, 2) == 1 && NextMc(1, 2) == 0 && NextMc(0, 4) == 1
  {
  }

  lemma CycleKeepsProtocol(dev: Devices, m: Machine, irq: bool)
    requires Protocol(m.cpu)
    ensures Protocol(Cycle(dev, m, irq).cpu)
  {
    hide Cycle, Decode, MCycles, SkipMc, HandlerInts, NextMc;
    CycleControl(dev, m, irq);
    var ir := BegunIr(m, irq);
    ControlOpcodes(ir);
    TableFacts();
    IntsCases(Decode(ir), m.cpu.regs.f, BegunInts(m.cpu.ints, irq));
    OneOrTwo();
    NextMcBound(HandlerInts(Decode(ir), m.cpu.regs.f, BegunInts(m.cpu.ints, irq)).mc, MCycles(ir));
  }

  lemma {:induction false} ReachableProtocol(dev: Devices, t: nat -> Machine, irq: nat -> bool, n: nat)
    requires OpenRun(dev, t, irq) && t(0).cpu == Reset()
    ensures Protocol(t(n).cpu)
  {
    hide Cycle, Protocol;
    if n == 0 {
      ResetInvariant();
      assert Protocol(Reset()) by { ResetProtocol(); }
    } else {
      ReachableProtocol(dev, t, irq, n - 1);
      assert Follows(dev, t, irq, n - 1);
      CycleKeepsProtocol(dev, t(n - 1), irq(n - 1));
    }
  }

  lemma ResetProtocol()
    ensures Protocol(Reset())
  {
    assert MCycles(0) == 1;
  }

  /** Acceptance clears the enable, the latch and the halt and starts an RST 7; without it a request is never lost. */
  lemma LatchStep(dev: Devices, m: Machine, irq: bool)
    ensures Accepts(m.cpu.ints, irq) ==>
              var s := Cycle(dev, m, irq).cpu;
              s.ints == Ints(1, false, false, false, false) && s.hid.ir == OPCODE_RST7
    ensures !Accepts(m.cpu.ints, irq) ==> Cycle(dev, m, irq).cpu.ints.iff == Latched(m.cpu.ints, irq)
  {
    hide Cycle, Decode, MCycles, SkipMc, HandlerInts, NextMc;
    CycleControl(dev, m, irq);
    TableFacts();
    var h := Decode(BegunIr(m, irq));
    IntsCases(h, m.cpu.regs.f, BegunInts(m.cpu.ints, irq));
    SkipCases(h, m.cpu.regs.f, m.cpu.ints.mc);
    OneOrTwo();
  }

  /** No RST 7 starts in cycles `i` to `j` - 1. */
  predicate Quiet(t: nat -> Machine, irq: nat -> bool, i: nat, j: nat)
  {
    forall k: nat :: i <= k < j ==> !Accepts(t(k).cpu.ints, irq(k))
  }

  /** A request stays latched for as long as no RST 7 starts. */
  lemma {:induction false} StaysLatched(dev: Devices, t: nat -> Machine, irq: nat -> bool, i: nat, j: nat)
    requires OpenRun(dev, t, irq) && i <= j && Latched(t(i).cpu.ints, irq(i)) && Quiet(t, irq, i, j)
    ensures Latched(t(j).cpu.ints, irq(j))
    decreases j
  {
    hide Cycle;
    if i < j {
      StaysLatched(dev, t, irq, i, j - 1);
      assert Follows(dev, t, irq, j - 1);
      LatchStep(dev, t(j - 1), irq(j - 1));
    }
  }

  /** No RST 7 starts in the cycle right after an EI. */
  lemma NotRightAfterEi(dev: Devices, m: Machine, irq: bool, m': Machine, irq': bool)
    requires m.cpu.ints.mc == 0 && !Accepts(m.cpu.ints, irq) && Opcode(m) == OPCODE_EI
    requires m'.cpu == Cycle(dev, m, irq).cpu
    ensures m'.cpu.ints.mc == 0 && !Accepts(m'.cpu.ints, irq')
  {
    hide Cycle, Decode, MCycles, SkipMc, HandlerInts, NextMc, Opcode;
    CycleControl(dev, m, irq);
    TableFacts();
    IntsCases(Ei, m.cpu.regs.f, BegunInts(m.cpu.ints, irq));
    OneOrTwo();
  }

  /** With a request latched, an instruction in progress moves towards its end. */
  lemma InFlightAdvances(dev: Devices, m: Machine, irq: bool)
    requires Protocol(m.cpu) && m.cpu.ints.mc > 0 && Latched(m.cpu.ints, irq)
    ensures var s := Cycle(dev, m, irq).cpu;
            && s.hid.ir == m.cpu.hid.ir
            && s.ints.iff && !s.ints.eiPending
            && (s.ints.mc == 0 || s.ints.mc > m.cpu.ints.mc)
  {
    hide Cycle, Decode, MCycles, Holds, HandlerInts, SkipMc;
    CycleControl(dev, m, irq);
    var ir := m.cpu.hid.ir;
    ControlOpcodes(ir);
    TableFacts();
    BranchCycles(ir);
    IntsCases(Decode(ir), m.cpu.regs.f, BegunInts(m.cpu.ints, irq));
    SkipCases(Decode(ir), m.cpu.regs.f, m.cpu.ints.mc);
  }

  lemma BranchCycles(op: byte)
    ensures Decode(op).Call? ==> MCycles(op) == 6
    ensures Decode(op).RetCond? ==> MCycles(op) == 4
  {
    hide Decode, MCycles, Isa.Meaning, Isa.Decode, Isa.Proper;
    MovMlDecodes();
    Isa.DecodeAgrees(op);
  }

  /** A cycle that does not complete the instruction moves its cycle index up. */
  lemma CycleAdvances(dev: Devices, m: Machine, irq: bool)
    requires Protocol(m.cpu)
    ensures var s := Cycle(dev, m, irq).cpu; Executed(s) || s.ints.mc == m.cpu.ints.mc + 1
  {
    hide Cycle, Decode, MCycles, Holds, BegunIr, HandlerInts, SkipMc;
    CycleControl(dev, m, irq);
    var ir := BegunIr(m, irq);
    BegunStays(m, irq);
    ControlOpcodes(ir);
    TableFacts();
    BranchCycles(ir);
    IntsCases(Decode(ir), m.cpu.regs.f, BegunInts(m.cpu.ints, irq));
    SkipCases(Decode(ir), m.cpu.regs.f, m.cpu.ints.mc);
  }

  lemma BegunStays(m: Machine, irq: bool)
    ensures m.cpu.ints.mc != 0 ==> BegunIr(m, irq) == m.cpu.hid.ir
  {
    hide Opcode;
  }

  /** Inside an instruction other than HLT the CPU is not halted. */
  lemma {:induction false} InFlight(dev: Devices, m: Machine, irq: nat -> bool, k: nat)
    requires Protocol(m.cpu) && m.cpu.ints.mc == 0 && !Accepts(m.cpu.ints, irq(0)) && Opcode(m) != OPCODE_HLT
    requires k > 0 && forall j :: 0 < j <= k ==> Run(dev, m, irq, j).cpu.ints.mc == j
    ensures var s := Run(dev, m, irq, k).cpu; Protocol(s) && s.hid.ir == Opcode(m) && !Executed(s)
  {
    hide Cycle, Decode, MCycles, HandlerInts, NextMc, Opcode, SkipMc, Run;
    RunNext(dev, m, irq, k - 1);
    RunZero(dev, m, irq);
    var p := Run(dev, m, irq, k - 1);
    CycleControl(dev, p, irq(k - 1));
    if k > 1 { InFlight(dev, m, irq, k - 1); }
    CycleKeepsProtocol(dev, p, irq(k - 1));
  }

  lemma RunAdvances(dev: Devices, m: Machine, irq: nat -> bool, k: nat)
    requires Protocol(Run(dev, m, irq, k).cpu)
    ensures Run(dev, m, irq, k + 1) == Cycle(dev, Run(dev, m, irq, k), irq(k))
    ensures var s, s' := Run(dev, m, irq, k).cpu, Run(dev, m, irq, k + 1).cpu;
            Protocol(s') && s.ints.mc < 6 && (Executed(s') || s'.ints.mc == s.ints.mc + 1)
  {
    hide Cycle, MCycles, Run;
    RunNext(dev, m, irq, k);
    var p := Run(dev, m, irq, k);
    CycleKeepsProtocol(dev, p, irq(k));
    CycleAdvances(dev, p, irq(k));
  }

  /** Cycles until the first executed state are the cycles of the instruction, which is one step of the 8080. */
  lemma UntilExecuted(dev: Devices, m: Machine, irq: nat -> bool, n: nat)
    requires Protocol(m.cpu) && m.cpu.ints.mc == 0 && !Accepts(m.cpu.ints, irq(0))
    requires Opcode(m) != OPCODE_HLT && Opcode(m) != OPCODE_MOV_M_L
    requires n > 0 && Executed(Run(dev, m, irq, n).cpu)
    requires forall k :: 0 < k < n ==> !Executed(Run(dev, m, irq, k).cpu)
    ensures n == Cycles(m) && View(Run(dev, m, irq, n)) == Isa.Step(dev, View(m))
  {
    hide Run, Opcode, Isa.Step, View, Protocol;
    InstructionRefines(dev, m, irq);
    hide Cycles;
    if n < Cycles(m) { InFlight(dev, m, irq, n); }
  }

  /** A request that is latched inside an instruction is accepted as soon as that instruction completes. */
  lemma {:induction false} AcceptedAtEnd(dev: Devices, t: nat -> Machine, irq: nat -> bool, i: nat) returns (j: nat)
    requires OpenRun(dev, t, irq) && Protocol(t(i).cpu) && t(i).cpu.ints.mc > 0 && Latched(t(i).cpu.ints, irq(i))
    ensures i < j <= i + MCycles(t(i).cpu.hid.ir) - t(i).cpu.ints.mc
    ensures Accepts(t(j).cpu.ints, irq(j))
    ensures forall k :: i <= k < j ==> t(k).cpu.ints.mc > 0
    decreases 6 - t(i).cpu.ints.mc
  {
    hide Cycle, MCycles, Decode;
    assert Follows(dev, t, irq, i);
    InFlightAdvances(dev, t(i), irq(i));
    CycleKeepsProtocol(dev, t(i), irq(i));
    j := i + 1;
    if t(i + 1).cpu.ints.mc > 0 {
      j := AcceptedAtEnd(dev, t, irq, i + 1);
    }
  }

  /** A request pending at a boundary is accepted at once, or, after an EI, when the next instruction other than EI completes. */
  lemma AcceptedAfterEi(dev: Devices, t: nat -> Machine, irq: nat -> bool, i: nat) returns (j: nat)
    requires OpenRun(dev, t, irq) && Protocol(t(i).cpu) && t(i).cpu.ints.mc == 0 && Latched(t(i).cpu.ints, irq(i))
    requires t(i).cpu.ints.eiPending ==> Opcode(t(i)) != OPCODE_EI
    ensures i <= j <= i + 6 && Accepts(t(j).cpu.ints, irq(j))
    ensures !t(i).cpu.ints.eiPending ==> j == i
    ensures forall k :: i < k < j ==> t(k).cpu.ints.mc > 0
  {
    hide Cycle, MCycles, Decode, Opcode;
    j := i;
    if t(i).cpu.ints.eiPending {
      assert Follows(dev, t, irq, i);
      CycleControl(dev, t(i), irq(i));
      ControlOpcodes(Opcode(t(i)));
      LatchStep(dev, t(i), irq(i));
      CycleKeepsProtocol(dev, t(i), irq(i));
      j := i + 1;
      if t(i + 1).cpu.ints.mc > 0 {
        j := AcceptedAtEnd(dev, t, irq, i + 1);
      }
    }
  }

  /** The opcodes at cycles `i` to `i` + `n` - 1 are EIs, and the one after them is not. */
  predicate EiChain(t: nat -> Machine, i: nat, n: nat)
  {
    (forall k: nat :: i <= k < i + n ==> Opcode(t(k)) == OPCODE_EI) && Opcode(t(i + n)) != OPCODE_EI
  }

  /** After an EI with a request latched, another EI takes one cycle and leaves the same situation. */
  lemma EiAfterEi(dev: Devices, m: Machine, irq: bool)
    requires Protocol(m.cpu) && m.cpu.ints.mc == 0 && m.cpu.ints.eiPending && Latched(m.cpu.ints, irq) && Opcode(m) == OPCODE_EI
    ensures var s := Cycle(dev, m, irq).cpu; Protocol(s) && s.ints.mc == 0 && s.ints.eiPending && s.ints.iff
    ensures !Accepts(m.cpu.ints, irq)
  {
    hide Cycle, Decode, MCycles, SkipMc, HandlerInts, NextMc, Opcode;
    CycleControl(dev, m, irq);
    CycleKeepsProtocol(dev, m, irq);
    TableFacts();
    IntsCases(Ei, m.cpu.regs.f, BegunInts(m.cpu.ints, irq));
    OneOrTwo();
  }

  /** A request latched behind an EI waits through any number of further EIs and is accepted when the first other
      instruction completes, and not before. */
  lemma {:induction false} AcceptedAfterEis(dev: Devices, t: nat -> Machine, irq: nat -> bool, i: nat, n: nat) returns (j: nat)
    requires OpenRun(dev, t, irq) && Protocol(t(i).cpu) && t(i).cpu.ints.mc == 0 && Latched(t(i).cpu.ints, irq(i))
    requires t(i).cpu.ints.eiPending && EiChain(t, i, n)
    ensures i + n < j <= i + n + 6 && Accepts(t(j).cpu.ints, irq(j)) && Quiet(t, irq, i, j)
    ensures forall k: nat :: i <= k <= i + n ==> t(k).cpu.ints.mc == 0
    ensures forall k: nat :: i + n < k < j ==> t(k).cpu.ints.mc > 0
    decreases n
  {
    hide Cycle, Opcode, Protocol;
    if n == 0 {
      j := AcceptedAfterEi(dev, t, irq, i);
      assert j > i;
    } else {
      assert Opcode(t(i)) == OPCODE_EI;
      assert Follows(dev, t, irq, i);
      EiAfterEi(dev, t(i), irq(i));
      j := AcceptedAfterEis(dev, t, irq, i + 1, n - 1);
    }
  }

  // ---- what the RST 7 does -------------------------------------------------

  lemma HandleRst(dev: Devices, n: nat, m: Machine)
    ensures Handle(dev, Rst(n), m) == RstStep(m, n)
  {
    hide Handle, FlowStep, RstStep;
    HandleFlow(dev, Rst(n), m);
    FlowCases(dev, Rst(n), m);
  }

  lemma AcceptCycle(dev: Devices, m: Machine, irq: bool)
    requires Accepts(m.cpu.ints, irq)
    ensures Cycle(dev, m, irq) == Advance(RstStep(Acknowledge(Latch(m, irq)), 7), 4)
    ensures Acknowledge(Latch(m, irq)).cpu.ints == Ints(0, false, false, false, false)
    ensures View(Acknowledge(Latch(m, irq))) == View(m).(inte := false)
    ensures Acknowledge(Latch(m, irq)).cpu.regs == m.cpu.regs
  {
    hide Handle, Decode, MCycles, RstStep, Advance;
    TableFacts();
    HandleRst(dev, 7, Acknowledge(Latch(m, irq)));
  }

  lemma RstCycle(dev: Devices, m: Machine, irq: bool)
    requires m.cpu.ints.mc > 0 && m.cpu.hid.ir == OPCODE_RST7
    ensures Cycle(dev, m, irq) == Advance(RstStep(Latch(m, irq), 7), 4)
  {
    hide Handle, Decode, MCycles, RstStep, Advance, Cycle, Latch;
    TableFacts();
    CycleContinues(dev, m, irq, OPCODE_RST7);
    HandleRst(dev, 7, Latch(m, irq));
  }

  lemma RstControl(dev: Devices, m: Machine, irq: bool)
    requires m.cpu.hid.ir == OPCODE_RST7 && 0 < m.cpu.ints.mc < 4
    requires m.cpu.ints.(mc := 0) == Ints(0, false, false, false, false)
    ensures var s := Cycle(dev, m, irq).cpu;
            s.hid.ir == OPCODE_RST7 && s.ints == Ints(if m.cpu.ints.mc == 3 then 0 else m.cpu.ints.mc + 1, false, false, false, false)
  {
    hide Cycle, Decode, MCycles;
    TableFacts();
    CycleControl(dev, m, irq);
  }

  /** An accepted interrupt pushes PC, the address of the next instruction, jumps to 0x38 and leaves interrupts,
      the latch and the halt off, whatever the line does during its four cycles. */
  lemma InterruptCalls38(dev: Devices, m: Machine, irq: nat -> bool)
    requires Accepts(m.cpu.ints, irq(0))
    ensures var t := Run(dev, m, irq, 4);
            && t.cpu.ints == Ints(0, false, false, false, false)
            && View(t) == Isa.Jump(Isa.PushBytes(View(m).(inte := false), High(m.cpu.regs.pc), Low(m.cpu.regs.pc)), 0x38)
  {
    hide Cycle, RstStep, Advance, Latch, Acknowledge, View, Run;
    var b := Acknowledge(Latch(m, irq(0)));
    var m1, m2, m3, m4 := Run(dev, m, irq, 1), Run(dev, m, irq, 2), Run(dev, m, irq, 3), Run(dev, m, irq, 4);
    RunFour(dev, m, irq);
    AcceptCycle(dev, m, irq(0));
    LatchStep(dev, m, irq(0));
    RstControl(dev, m1, irq(1)); RstCycle(dev, m1, irq(1));
    RstControl(dev, m2, irq(2)); RstCycle(dev, m2, irq(2));
    RstControl(dev, m3, irq(3)); RstCycle(dev, m3, irq(3));
    RstTicks(7, b, irq, m1, m2, m3, m4);
    RstPushesPc(b);
  }

  lemma RunFour(dev: Devices, m: Machine, irq: nat -> bool)
    ensures Run(dev, m, irq, 1) == Cycle(dev, m, irq(0))
    ensures Run(dev, m, irq, 2) == Cycle(dev, Run(dev, m, irq, 1), irq(1))
    ensures Run(dev, m, irq, 3) == Cycle(dev, Run(dev, m, irq, 2), irq(2))
    ensures Run(dev, m, irq, 4) == Cycle(dev, Run(dev, m, irq, 3), irq(3))
  {
    hide Cycle;
    RunOne(dev, m, irq);
  }

  lemma RstPushesPc(b: Machine)
    ensures Isa.ExecRst(Before(b), 7) == Isa.Jump(Isa.PushBytes(View(b), High(b.cpu.regs.pc), Low(b.cpu.regs.pc)), 0x38)
  {
    hide Memory.Write;
  }

  // ---- HLT ----------------------------------------------------------------

  /** Halted: parked on the HLT at `pc`, nothing else changed. */
  predicate Parked(m: Machine, t: Machine)
  {
    && t.cpu.ints.mc == 1 && t.cpu.hid.ir == OPCODE_HLT
    && View(t) == View(m)
    && t.cpu.ints.inte == m.cpu.ints.inte && !t.cpu.ints.eiPending
  }

  lemma HltFirstCycle(dev: Devices, m: Machine, irq: bool)
    requires m.cpu.ints.mc == 0 && !Accepts(m.cpu.ints, irq) && Opcode(m) == OPCODE_HLT
    ensures var t := Cycle(dev, m, irq); Parked(m, t) && t.cpu.ints.iff == Latched(m.cpu.ints, irq)
  {
    hide Decode, MCycles, Handle, Cycle, Read;
    TableFacts();
    BeginFetches(m, irq);
    CycleStarts(dev, m, irq);
    HandleHlt(dev, Fetch(Latch(m, irq)));
  }

  /** The second cycle repeats until a request is latched; then PC moves past the HLT. */
  lemma HltSecondCycle(dev: Devices, m: Machine, p: Machine, irq: bool)
    requires Parked(m, p)
    ensures var t := Cycle(dev, p, irq);
            && (!Latched(p.cpu.ints, irq) ==> Parked(m, t) && !t.cpu.ints.iff && t.cpu.ints.hlta && Executed(t.cpu))
            && (Latched(p.cpu.ints, irq) ==> t.cpu.ints.mc == 0 && t.cpu.ints.iff && !t.cpu.ints.eiPending
                                             && View(t) == Isa.Next(View(m), 1))
  {
    hide Decode, MCycles, Handle, Cycle, Parked, Latched, Advance, Latch, HltStep, View, Isa.Next, Executed;
    assert p.cpu.ints.mc != 0 && p.cpu.hid.ir == OPCODE_HLT by { ParkedInHlt(m, p); }
    TableFacts();
    CycleContinues(dev, p, irq, OPCODE_HLT);
    HandleHlt(dev, Latch(p, irq));
    HltWaits(m, p, irq, Advance(HltStep(Latch(p, irq)), 2));
  }

  lemma ParkedInHlt(m: Machine, p: Machine)
    requires Parked(m, p)
    ensures p.cpu.ints.mc == 1 && p.cpu.hid.ir == OPCODE_HLT
  {
  }

  lemma HltWaits(m: Machine, p: Machine, irq: bool, t: Machine)
    requires Parked(m, p) && t == Advance(HltStep(Latch(p, irq)), 2)
    ensures !Latched(p.cpu.ints, irq) ==> Parked(m, t) && !t.cpu.ints.iff && t.cpu.ints.hlta && Executed(t.cpu)
    ensures Latched(p.cpu.ints, irq) ==>
              t.cpu.ints.mc == 0 && t.cpu.ints.iff && !t.cpu.ints.eiPending && View(t) == Isa.Next(View(m), 1)
  {
    hide Read, Translate;
  }

  /** A HLT loops, halted, until cycle `j` latches a request; then the RST 7 pushes the address after the HLT. */
  lemma {:induction false} HaltedUntilInterrupt(dev: Devices, m: Machine, irq: nat -> bool, j: nat)
    requires m.cpu.ints.mc == 0 && !Accepts(m.cpu.ints, irq(0)) && Opcode(m) == OPCODE_HLT
    requires j > 0 && !(j > 1 && (m.cpu.ints.iff || (m.cpu.ints.inte && Pulsed(irq, j))))
    ensures Parked(m, Run(dev, m, irq, j))
    ensures Run(dev, m, irq, j).cpu.ints.iff == (m.cpu.ints.iff || (m.cpu.ints.inte && Pulsed(irq, j)))
    ensures j > 1 ==> Run(dev, m, irq, j).cpu.ints.hlta
  {
    hide Cycle, Parked, Run;
    if j == 1 {
      RunOne(dev, m, irq);
      PulsedOnce(irq);
      HltFirstCycle(dev, m, irq(0));
    } else {
      HaltedUntilInterrupt(dev, m, irq, j - 1);
      RunNext(dev, m, irq, j - 1);
      var p := Run(dev, m, irq, j - 1);
      assert p.cpu.ints.inte == m.cpu.ints.inte by { ParkedInte(m, p); }
      HltSecondCycle(dev, m, p, irq(j - 1));
    }
  }

  lemma RunNext(dev: Devices, m: Machine, irq: nat -> bool, k: nat)
    ensures Run(dev, m, irq, k + 1) == Cycle(dev, Run(dev, m, irq, k), irq(k))
  {
    hide Cycle;
  }

  lemma ParkedInte(m: Machine, p: Machine)
    requires Parked(m, p)
    ensures p.cpu.ints.inte == m.cpu.ints.inte
  {
  }

  lemma HaltThenInterrupt(dev: Devices, m: Machine, irq: nat -> bool, j: nat)
    requires m.cpu.ints.mc == 0 && !Accepts(m.cpu.ints, irq(0)) && Opcode(m) == OPCODE_HLT
    requires j > 0 && !(j > 1 && (m.cpu.ints.iff || (m.cpu.ints.inte && Pulsed(irq, j))))
    requires m.cpu.ints.iff || (m.cpu.ints.inte && Pulsed(irq, j + 1))
    ensures var t := Run(dev, m, irq, j + 5);
            var next := Wrap(m.cpu.regs.pc + 1);
            && t.cpu.ints == Ints(0, false, false, false, false)
            && View(t) == Isa.Jump(Isa.PushBytes(View(m).(inte := false), High(next), Low(next)), 0x38)
  {
    hide Cycle, Parked, Run, Later, High, Low, Isa.PushBytes, Isa.Jump;
    HaltedUntilInterrupt(dev, m, irq, j);
    var p := Run(dev, m, irq, j);
    ParkedInte(m, p);
    RunNext(dev, m, irq, j);
    HltSecondCycle(dev, m, p, irq(j));
    var q := Run(dev, m, irq, j + 1);
    InterruptCalls38(dev, q, Later(irq, j + 1));
    RunSplit(dev, m, irq, j + 1, 4);
    hide Pulsed;
    JumpForgetsPc(View(m), q, High(Wrap(m.cpu.regs.pc + 1)), Low(Wrap(m.cpu.regs.pc + 1)));
  }

  lemma JumpForgetsPc(s: Isa.Arch, q: Machine, h: byte, l: byte)
    requires View(q) == Isa.Next(s, 1)
    ensures Isa.Jump(Isa.PushBytes(View(q).(inte := false), h, l), 0x38) == Isa.Jump(Isa.PushBytes(s.(inte := false), h, l), 0x38)
    ensures q.cpu.regs.pc == Wrap(s.regs.pc + 1)
  {
    hide Memory.Write;
  }
}
