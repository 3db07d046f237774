/** The per-instruction write log of Memory::CpuWrite replays and undoes exactly what the instruction wrote. */
module WriteLog {
  import opened Bytes
  import opened Memory
  import opened CpuDecode
  import opened Cpu
  import opened CpuGroups
  import opened R = CpuRefinement
  import opened T = CpuTheorem
  import opened P = CpuPrograms
  import opened V = CpuInvariants
  import I = Interrupts
  import Isa

  predicate InRange(e: Entry) { e.addr < GLOBAL_LEN }

  predicate LogInRange(log: WriteLog) { InRange(log.slot0) && InRange(log.slot1) }

  /** Write the logged bytes again, first entry first. */
  function Redo(ram: Ram, log: WriteLog): (r: Ram)
    requires LogInRange(log)
  {
    if log.len == 0 then ram
    else if log.len == 1 then ram[log.slot0.addr := log.slot0.value]
    else ram[log.slot0.addr := log.slot0.value][log.slot1.addr := log.slot1.value]
  }

  /** Put the old bytes back, last entry first. */
  function Undo(ram: Ram, log: WriteLog): (r: Ram)
    requires LogInRange(log)
  {
    if log.len == 0 then ram
    else if log.len == 1 then ram[log.slot0.addr := log.slot0.before]
    else ram[log.slot1.addr := log.slot1.before][log.slot0.addr := log.slot0.before]
  }

  /** Replay gives the memory after, undoing the memory before, and a two-byte write names two different addresses. */
  predicate Exact(before: Ram, after: Ram, log: WriteLog)
  {
    && log.len <= 2 && LogInRange(log)
    && Redo(before, log) == after
    && Undo(after, log) == before
    && (log.len >= 1 ==> log.slot0.before == before[log.slot0.addr])
    && (log.len == 2 ==> log.slot1.before == before[log.slot1.addr] && log.slot0.addr != log.slot1.addr)
  }

  /** A store into the next free slot keeps the log exact. */
  lemma StoreKeepsExact(before: Ram, m: Machine, addr: word, v: byte, space: Space)
    requires Exact(before, m.mem.ram, m.log) && m.log.len < 2
    requires m.log.len == 1 ==> Low16(m.log.slot0.addr) != addr
    ensures var m' := Store(m, addr, v, space, m.log.len);
            && Exact(before, m'.mem.ram, m'.log)
            && m'.log.len == m.log.len + 1
            && (m.log.len == 0 ==> Low16(m'.log.slot0.addr) == addr)
  {
    hide Translate, Low16;
    var g := Translate(m.mem, addr, space);
    TranslateKeepsLow16(m.mem, addr, space);
    var ram := m.mem.ram;
    assert ram[g := v][g := ram[g]] == ram;
  }

  /** Stores made before cycle `mc` of a handler. */
  function Stored(h: Handler, mc: nat): (n: nat)
  {
    match h
    case MovMemReg(_) | StaxPtr(_) => if mc >= 2 then 1 else 0
    case MviMemData | InrMem | DcrMem => if mc >= 3 then 1 else 0
    case Sta => if mc >= 4 then 1 else 0
    case Shld => if mc >= 5 then 2 else if mc == 4 then 1 else 0
    case Push(_) => if mc >= 4 then 2 else if mc >= 2 then 1 else 0
    case Call(_) => if mc >= 5 then 2 else if mc == 4 then 1 else 0
    case Rst(_) => if mc >= 3 then 2 else if mc == 2 then 1 else 0
    case _ => 0
  }

  /** Between its two stores a handler remembers where the first one went. */
  predicate Points(h: Handler, mc: nat, m: Machine)
  {
    match h
    case Push(_) => (mc == 2 ==> Low16(m.log.slot0.addr) == m.cpu.regs.sp) && (mc == 3 ==> Low16(m.log.slot0.addr) == Wrap(m.cpu.regs.sp + 1))
    case Call(_) => mc == 4 ==> Low16(m.log.slot0.addr) == Wrap(m.cpu.regs.sp + 1)
    case Rst(_) => mc == 2 ==> Low16(m.log.slot0.addr) == Wrap(m.cpu.regs.sp + 1)
    case Shld => mc == 4 ==> Low16(m.log.slot0.addr) == Wrap(WordOf(m.cpu.hid.wz) - 1)
    case _ => true
  }

  predicate Logged(before: Ram, h: Handler, mc: nat, m: Machine)
  {
    Exact(before, m.mem.ram, m.log) && m.log.len == Stored(h, mc) && Points(h, mc, m)
  }

  predicate IsStoring(h: Handler)
  {
    match h
    case MovMemReg(_) | StaxPtr(_) | MviMemData | InrMem | DcrMem | Sta | Shld | Push(_) | Call(_) | Rst(_) | Xthl => true
    case _ => false
  }

  lemma DuoWord(w: word)
    ensures WordOf(DuoOf(w)) == w
  {
  }

  predicate LogsOn(before: Ram, h: Handler, m: Machine, m': Machine)
  {
    && Exact(before, m'.mem.ram, m'.log)
    && (m'.cpu.ints.mc == m.cpu.ints.mc ==> m'.log.len == Stored(h, m.cpu.ints.mc + 1) && Points(h, m.cpu.ints.mc + 1, m'))
  }

  lemma StoreKeepsCpu(m: Machine, addr: word, v: byte, space: Space, n: nat)
    ensures Store(m, addr, v, space, n).cpu == m.cpu
  {
  }

  lemma FlowStores(dev: Devices, before: Ram, h: Handler, m: Machine)
    requires h.Push? || h.Call? || h.Rst?
    requires m.cpu.ints.mc < Isa.HandlerCycles(h) && Logged(before, h, m.cpu.ints.mc, m)
    ensures LogsOn(before, h, m, Handle(dev, h, m))
  {
    hide Exact, Store, GetDuo, GetReg, Holds, Code, High, Low, WordOf, DuoOf, IncFlags, DecFlags, Inc, Dec, Read, Low16, Handle;
    HandleFlow(dev, h, m);
    DuoWord(Wrap(WordOf(m.cpu.hid.wz) + 1));
    forall addr: word, v: byte, space: Space | m.log.len < 2 && (m.log.len == 1 ==> Low16(m.log.slot0.addr) != addr)
      ensures var m' := Store(m, addr, v, space, m.log.len);
              Exact(before, m'.mem.ram, m'.log) && m'.log.len == m.log.len + 1 && (m.log.len == 0 ==> Low16(m'.log.slot0.addr) == addr)
    {
      StoreKeepsExact(before, m, addr, v, space);
    }
    forall addr: word, v: byte, space: Space
      ensures Store(m, addr, v, space, m.log.len).cpu == m.cpu
    {
      StoreKeepsCpu(m, addr, v, space, m.log.len);
    }
  }

  lemma DataStores(dev: Devices, before: Ram, h: Handler, m: Machine)
    requires h.MovMemReg? || h.StaxPtr? || h.MviMemData? || h.InrMem? || h.DcrMem? || h.Sta? || h.Shld?
    requires m.cpu.ints.mc < Isa.HandlerCycles(h) && Logged(before, h, m.cpu.ints.mc, m)
    ensures LogsOn(before, h, m, Handle(dev, h, m))
  {
    hide Exact, Store, GetDuo, GetReg, Holds, Code, High, Low, WordOf, DuoOf, IncFlags, DecFlags, Inc, Dec, Read, Low16, Handle;
    HandleData(dev, h, m);
    DuoWord(Wrap(WordOf(m.cpu.hid.wz) + 1));
    forall addr: word, v: byte, space: Space | m.log.len < 2 && (m.log.len == 1 ==> Low16(m.log.slot0.addr) != addr)
      ensures var m' := Store(m, addr, v, space, m.log.len);
              Exact(before, m'.mem.ram, m'.log) && m'.log.len == m.log.len + 1 && (m.log.len == 0 ==> Low16(m'.log.slot0.addr) == addr)
    {
      StoreKeepsExact(before, m, addr, v, space);
    }
    forall addr: word, v: byte, space: Space
      ensures Store(m, addr, v, space, m.log.len).cpu == m.cpu
    {
      StoreKeepsCpu(m, addr, v, space, m.log.len);
    }
  }

  /** The other handlers touch neither memory nor the log. */
  predicate Untouched(m: Machine, m': Machine) { m'.mem == m.mem && m'.log == m.log }

  lemma FlowLeavesMemory(dev: Devices, h: Handler, m: Machine)
    requires IsFlow(h) && !IsStoring(h)
    ensures Untouched(m, Handle(dev, h, m))
  {
    hide SetReg, GetReg, GetDuo, SetDuo, AluStep, IncFlags, DecFlags, Store, Read, Holds, Wrap,
      WordOf, DuoOf, High, Low, Code, Masked, Handle;
    HandleFlow(dev, h, m);
  }

  lemma DataLeavesMemory(dev: Devices, h: Handler, m: Machine)
    requires IsData(h) && !IsStoring(h)
    ensures Untouched(m, Handle(dev, h, m))
  {
    hide SetReg, GetReg, GetDuo, SetDuo, AluStep, IncFlags, DecFlags, Store, Read, Holds, Wrap,
      WordOf, DuoOf, High, Low, Code, Masked, Handle;
    HandleData(dev, h, m);
  }

  lemma RegisterLeavesMemory(dev: Devices, h: Handler, m: Machine)
    requires IsRegister(h) && !IsStoring(h)
    ensures Untouched(m, Handle(dev, h, m))
  {
    hide SetReg, GetReg, GetDuo, SetDuo, AluStep, IncFlags, DecFlags, Store, Read, Holds, Wrap,
      WordOf, DuoOf, High, Low, Code, Masked, Handle;
    HandleRegister(dev, h, m);
  }

  lemma MemOperandLeavesMemory(dev: Devices, h: Handler, m: Machine)
    requires IsMemOperand(h) && !IsStoring(h)
    ensures Untouched(m, Handle(dev, h, m))
  {
    hide SetReg, GetReg, GetDuo, SetDuo, AluStep, IncFlags, DecFlags, Store, Read, Holds, Wrap,
      WordOf, DuoOf, High, Low, Code, Masked, Handle;
    HandleOperand(dev, h, m);
  }

  lemma ImmOperandLeavesMemory(dev: Devices, h: Handler, m: Machine)
    requires IsImmOperand(h) && !IsStoring(h)
    ensures Untouched(m, Handle(dev, h, m))
  {
    hide SetReg, GetReg, GetDuo, SetDuo, AluStep, IncFlags, DecFlags, Store, Read, Holds, Wrap,
      WordOf, DuoOf, High, Low, Code, Masked, Handle;
    HandleOperand(dev, h, m);
  }

  lemma SingleLeavesMemory(dev: Devices, h: Handler, m: Machine)
    requires IsRegOperand(h) || IsAccumulator(h) || h == Nop
    ensures Untouched(m, Handle(dev, h, m))
  {
    hide SingleStep, SingleHidden;
    hide Handle;
    HandleSingle(dev, h, m);
  }

  lemma LeavesMemory(dev: Devices, h: Handler, m: Machine)
    requires !IsStoring(h)
    ensures Untouched(m, Handle(dev, h, m))
  {
    hide Handle, Untouched, IsStoring, IsFlow, IsData, IsRegister, IsMemOperand, IsImmOperand, IsRegOperand, IsAccumulator;
    if h == Hlt { HandleHlt(dev, m); assert Untouched(m, HltStep(m)) by { HltUntouched(m); } }
    else if h == Ei || h == Di { HandleEiDi(dev, h, m); EiDiUntouched(m); }
    else {
      Kinds(h);
      if IsFlow(h) { FlowLeavesMemory(dev, h, m); }
      else if IsData(h) { DataLeavesMemory(dev, h, m); }
      else if IsRegister(h) { RegisterLeavesMemory(dev, h, m); }
      else if IsMemOperand(h) { MemOperandLeavesMemory(dev, h, m); }
      else if IsImmOperand(h) { ImmOperandLeavesMemory(dev, h, m); }
      else { SingleLeavesMemory(dev, h, m); }
    }
  }

  lemma HltUntouched(m: Machine)
    ensures Untouched(m, HltStep(m))
  {
  }

  lemma EiDiUntouched(m: Machine)
    ensures Untouched(m, EiStep(m)) && Untouched(m, DiStep(m))
  {
  }

  lemma HandlerLogs(dev: Devices, before: Ram, h: Handler, m: Machine)
    requires h != Xthl && m.cpu.ints.mc < Isa.HandlerCycles(h) && Logged(before, h, m.cpu.ints.mc, m)
    ensures LogsOn(before, h, m, Handle(dev, h, m))
  {
    hide Handle, Exact, Isa.HandlerCycles;
    if IsStoring(h) {
      hide LogsOn, Logged, Stored;
      if h.Push? || h.Call? || h.Rst? { FlowStores(dev, before, h, m); } else { DataStores(dev, before, h, m); }
    } else {
      LeavesMemory(dev, h, m);
    }
  }

  /** The log inside an instruction that started on memory `before`. */
  predicate Logging(before: Ram, m: Machine)
  {
    if m.cpu.ints.mc == 0 then Exact(before, m.mem.ram, m.log) && m.log.len == 0
    else m.cpu.ints.mc < MCycles(m.cpu.hid.ir) && Logged(before, Decode(m.cpu.hid.ir), m.cpu.ints.mc, m)
  }

  lemma CyclesWithin(op: byte)
    ensures MCycles(op) <= Isa.HandlerCycles(Decode(op))
  {
    hide Decode, MCycles, Isa.Meaning, Isa.Decode, Isa.Proper, Isa.HandlerCycles;
    Isa.DecodeAgrees(op);
    MovMlDecodes();
  }

  lemma BeginLeavesMemory(m: Machine, irq: bool)
    ensures Untouched(m, Begin(m, irq))
  {
    hide Read;
  }

  lemma StoredNothing(h: Handler, m: Machine)
    ensures Stored(h, 0) == 0 && Points(h, 0, m)
  {
  }

  lemma McOfLog(h: Handler, f: Flags, i: Ints, n: nat)
    requires i.mc < n <= Isa.HandlerCycles(h)
    requires var i' := HandlerInts(h, f, i); NextMc(i'.mc, n) > 0
    requires h.Call? ==> n == 6
    requires h.RetCond? ==> n == 4
    ensures h != Hlt ==> HandlerInts(h, f, i).mc == i.mc && NextMc(i.mc, n) == i.mc + 1
  {
    hide Isa.HandlerCycles, Holds;
  }

  /** Every cycle of every instruction but XTHL, accepted interrupts included, keeps the log exact. */
  lemma CycleLogs(dev: Devices, before: Ram, m: Machine, irq: bool)
    requires Logging(before, m) && Decode(BegunIr(m, irq)) != Xthl
    ensures var m' := Cycle(dev, m, irq);
            Exact(before, m'.mem.ram, m'.log) && (m'.cpu.ints.mc > 0 ==> Logging(before, m'))
  {
    hide Handle, Decode, MCycles, Exact, Begin, BegunInts, Isa.HandlerCycles, HandlerInts, NextMc, Stored, BegunIr, Points;
    var b := Begin(m, irq);
    var ir := BegunIr(m, irq);
    var h := Decode(ir);
    BeginControl(m, irq);
    BeginLeavesMemory(m, irq);
    CyclesWithin(ir);
    StoredNothing(h, b);
    BegunMc(m, irq);
    if m.cpu.ints.mc > 0 {
      BegunInside(m, irq);
      PointsSame(h, m.cpu.ints.mc, m, b);
    }
    HandlerLogs(dev, before, h, b);
    HandlerControl(dev, h, b);
    I.BranchCycles(ir);
    var m' := Cycle(dev, m, irq);
    if m'.cpu.ints.mc > 0 {
      NextMcBound(Handle(dev, h, b).cpu.ints.mc, MCycles(ir));
      McOfLog(h, b.cpu.regs.f, b.cpu.ints, MCycles(ir));
      PointsSame(h, m'.cpu.ints.mc, Handle(dev, h, b), m');
      if h == Hlt { HltStoresNothing(m', m'.cpu.ints.mc, b.cpu.ints.mc); LeavesMemory(dev, h, b); }
    }
  }

  lemma BegunInside(m: Machine, irq: bool)
    requires m.cpu.ints.mc > 0
    ensures var b := Begin(m, irq); b.cpu.regs == m.cpu.regs && b.cpu.hid == m.cpu.hid && b.log == m.log
  {
    hide Read;
  }

  lemma PointsSame(h: Handler, mc: nat, m: Machine, m': Machine)
    requires m'.cpu.regs == m.cpu.regs && m'.cpu.hid == m.cpu.hid && m'.log == m.log
    ensures Points(h, mc, m) == Points(h, mc, m')
  {
    hide Low16, WordOf;
  }

  lemma BegunMc(m: Machine, irq: bool)
    ensures BegunInts(m.cpu.ints, irq).mc == m.cpu.ints.mc
    ensures m.cpu.ints.mc != 0 ==> BegunIr(m, irq) == m.cpu.hid.ir
  {
    hide Opcode;
  }

  lemma HltStoresNothing(m: Machine, a: nat, b: nat)
    ensures Stored(Hlt, a) == 0 && Stored(Hlt, b) == 0 && Stored(Hlt, b + 1) == 0 && Points(Hlt, a, m)
  {
  }

  /** The rest of the machine may change the mapping and the ports between cycles, but not RAM or the log. */
  predicate KeepsRam(dev: Devices, t: nat -> Machine, irq: nat -> bool, i: nat)
  {
    var c := Cycle(dev, t(i), irq(i));
    t(i + 1).cpu == c.cpu && t(i + 1).mem.ram == c.mem.ram && t(i + 1).log == c.log
  }

  /** From an empty log at a boundary, the log is exact at every cycle up to the end of the instruction. */
  lemma {:induction false} LogIsExact(dev: Devices, t: nat -> Machine, irq: nat -> bool, i: nat, j: nat)
    requires i < j && forall k: nat :: KeepsRam(dev, t, irq, k)
    requires t(i).cpu.ints.mc == 0 && t(i).log.len == 0 && LogInRange(t(i).log)
    requires forall k :: i < k < j ==> t(k).cpu.ints.mc > 0
    requires Decode(BegunIr(t(i), irq(i))) != Xthl
    ensures Exact(t(i).mem.ram, t(j).mem.ram, t(j).log)
    ensures t(j).cpu.hid.ir == BegunIr(t(i), irq(i))
    ensures t(j).cpu.ints.mc > 0 ==> Logging(t(i).mem.ram, t(j))
    decreases j
  {
    hide Cycle, Decode, MCycles, Exact, BegunIr, Stored, Logging;
    var before := t(i).mem.ram;
    assert KeepsRam(dev, t, irq, j - 1);
    var p := t(j - 1);
    if j == i + 1 {
      EmptyLogExact(before, p.log);
      assert Logging(before, p) by { EmptyLogging(before, p); }
    } else {
      LogIsExact(dev, t, irq, i, j - 1);
      BegunMc(p, irq(j - 1));
    }
    CycleLogs(dev, before, p, irq(j - 1));
    CycleIr(dev, p, irq(j - 1));
    var c := Cycle(dev, p, irq(j - 1));
    if c.cpu.ints.mc > 0 { LoggingIgnoresMapping(before, c, t(j)); }
  }

  lemma EmptyLogExact(before: Ram, log: WriteLog)
    requires log.len == 0 && LogInRange(log)
    ensures Exact(before, before, log)
  {
  }

  lemma EmptyLogging(before: Ram, m: Machine)
    requires m.cpu.ints.mc == 0 && m.log.len == 0 && Exact(before, m.mem.ram, m.log)
    ensures Logging(before, m)
  {
  }

  lemma CycleIr(dev: Devices, m: Machine, irq: bool)
    ensures Cycle(dev, m, irq).cpu.hid.ir == BegunIr(m, irq)
  {
    hide Cycle, Decode, MCycles, HandlerInts, BegunInts, BegunIr, NextMc;
    CycleControl(dev, m, irq);
  }

  lemma LoggingIgnoresMapping(before: Ram, c: Machine, m: Machine)
    requires Logging(before, c) && m.cpu == c.cpu && m.mem.ram == c.mem.ram && m.log == c.log
    ensures Logging(before, m)
  {
    hide Decode, MCycles, Exact, Stored;
  }

  // ---- XTHL ---------------------------------------------------------------

  lemma XthlLog(m: Machine, irq: nat -> bool, m1: Machine, m2: Machine, m3: Machine, m4: Machine, m5: Machine, m6: Machine)
    requires m.cpu.ints.mc == 0
    requires m1 == Advance(XthlStep(m), 6)
    requires m2 == Advance(XthlStep(Latch(m1, irq(1))), 6)
    requires m3 == Advance(XthlStep(Latch(m2, irq(2))), 6)
    requires m4 == Advance(XthlStep(Latch(m3, irq(3))), 6)
    requires m5 == Advance(XthlStep(Latch(m4, irq(4))), 6)
    requires m6 == Advance(XthlStep(Latch(m5, irq(5))), 6)
    ensures var sp := m.cpu.regs.sp;
            var lo := Translate(m.mem, sp, Stack);
            var hi := Translate(m.mem, Wrap(sp + 1), Stack);
            && m6.mem.ram == m.mem.ram[lo := m.cpu.regs.hl.l][hi := m.cpu.regs.hl.h]
            && m6.log.len == 1
            && m6.log.slot0 == Entry(hi, m.mem.ram[lo := m.cpu.regs.hl.l][hi], m.cpu.regs.hl.h)
            && m6.log.slot1.addr == lo
  {
    hide Read, Translate;
    TranslateIgnoresRam(m.mem, m4.mem, m.cpu.regs.sp);
  }

  lemma TranslateIgnoresRam(a: Mem, b: Mem, sp: word)
    requires a.(ram := b.ram) == b
    ensures Translate(a, sp, Stack) == Translate(b, sp, Stack)
    ensures Translate(a, Wrap(sp + 1), Stack) == Translate(b, Wrap(sp + 1), Stack)
    ensures Translate(a, sp, Stack) != Translate(a, Wrap(sp + 1), Stack)
  {
  }

  /** XTHL logs only its second store, so its log is exact when, and only when, the first store changed nothing. */
  lemma XthlExactIff(before: Ram, lo: nat, hi: nat, l: byte, h: byte, log: WriteLog)
    requires lo < GLOBAL_LEN && hi < GLOBAL_LEN && lo != hi
    requires log.len == 1 && log.slot0 == Entry(hi, before[lo := l][hi], h) && log.slot1.addr == lo
    ensures Exact(before, before[lo := l][hi := h], log) <==> before[lo] == l
  {
    var after := before[lo := l][hi := h];
    if before[lo] == l {
      assert before[lo := l] == before;
      assert after[hi := before[hi]] == before;
    } else {
      assert Redo(before, log)[lo] == before[lo];
      assert after[lo] == l;
    }
  }

  /** What an XTHL leaves: both bytes swapped in memory, and a log of the second store alone. */
  predicate XthlLeaves(m: Machine, t: Machine)
  {
    var lo, hi := Translate(m.mem, m.cpu.regs.sp, Stack), Translate(m.mem, Wrap(m.cpu.regs.sp + 1), Stack);
    && lo != hi
    && t.mem.ram == m.mem.ram[lo := m.cpu.regs.hl.l][hi := m.cpu.regs.hl.h]
    && t.log.len == 1 && t.log.slot1.addr == lo
    && t.log.slot0 == Entry(hi, m.mem.ram[lo := m.cpu.regs.hl.l][hi], m.cpu.regs.hl.h)
  }

  lemma XthlTicksLog(dev: Devices, b: Machine, irq: nat -> bool)
    requires b.cpu.ints.mc == 0
    ensures XthlLeaves(b, Ticks(StepOf(dev, Xthl), 6, b, irq, 5))
  {
    hide XthlStep, Advance, Latch, Translate, Handle, FlowStep;
    var step := StepOf(dev, Xthl);
    forall x: Machine ensures step(x) == XthlStep(x) { HandleFlow(dev, Xthl, x); FlowCases(dev, Xthl, x); }
    hide StepOf;
    XthlLog(b, irq, Ticks(step, 6, b, irq, 0), Ticks(step, 6, b, irq, 1), Ticks(step, 6, b, irq, 2),
            Ticks(step, 6, b, irq, 3), Ticks(step, 6, b, irq, 4), Ticks(step, 6, b, irq, 5));
    TranslateIgnoresRam(b.mem, b.mem, b.cpu.regs.sp);
  }

  lemma XthlFacts(op: byte, f: Flags)
    requires Decode(op) == Xthl
    ensures MCycles(op) == 6 && Isa.HandlerCycles(Xthl) == 6 && Duration(Xthl, f) == 6
  {
    hide Decode, MCycles, Isa.Meaning, Isa.Decode;
    Isa.DecodeAgrees(op);
    MovMlDecodes();
  }

  lemma FetchLeavesState(m: Machine, irq: bool)
    ensures var b := Fetch(Latch(m, irq));
            b.mem == m.mem && b.cpu.regs.sp == m.cpu.regs.sp && b.cpu.regs.hl == m.cpu.regs.hl && b.cpu.ints.mc == m.cpu.ints.mc
  {
    hide Read;
  }

  lemma XthlRuns(dev: Devices, m: Machine, irq: nat -> bool)
    requires m.cpu.ints.mc == 0 && !Accepts(m.cpu.ints, irq(0)) && Decode(Opcode(m)) == Xthl
    ensures XthlLeaves(m, Run(dev, m, irq, 6))
  {
    hide Decode, MCycles, Opcode, Isa.HandlerCycles, Duration, Ticks, StepOf, Run, Fetch, Latch, Translate, Completed, XthlLeaves;
    XthlFacts(Opcode(m), m.cpu.regs.f);
    ControlOpcodes(Opcode(m));
    HandlerRuns(dev, m, irq, Xthl);
    var b := Fetch(Latch(m, irq(0)));
    FetchLeavesState(m, irq(0));
    XthlTicksLog(dev, b, irq);
    LeavesSame(m, b, Run(dev, m, irq, 6));
  }

  lemma LeavesSame(m: Machine, b: Machine, t: Machine)
    requires b.mem == m.mem && b.cpu.regs.sp == m.cpu.regs.sp && b.cpu.regs.hl == m.cpu.regs.hl && XthlLeaves(b, t)
    ensures XthlLeaves(m, t)
  {
    hide Translate;
  }

  /** The log of an XTHL is exact when, and only when, the byte under SP already equals L. */
  lemma XthlLogExactIff(dev: Devices, m: Machine, irq: nat -> bool)
    requires m.cpu.ints.mc == 0 && !Accepts(m.cpu.ints, irq(0)) && Decode(Opcode(m)) == Xthl
    ensures var t := Run(dev, m, irq, 6);
            Exact(m.mem.ram, t.mem.ram, t.log) <==> m.mem.ram[Translate(m.mem, m.cpu.regs.sp, Stack)] == m.cpu.regs.hl.l
  {
    hide Decode, Opcode, Run, Exact, Translate;
    XthlRuns(dev, m, irq);
    XthlExactIff(m.mem.ram, Translate(m.mem, m.cpu.regs.sp, Stack), Translate(m.mem, Wrap(m.cpu.regs.sp + 1), Stack),
                 m.cpu.regs.hl.l, m.cpu.regs.hl.h, Run(dev, m, irq, 6).log);
  }
}
