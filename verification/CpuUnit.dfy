/** class CpuI8080 of libs/v6core/src/cpu_i8080.cpp: registers, cycle index and memory changed in place, one machine
    cycle per call. */
module CpuUnit {
  import opened Bytes
  import opened Memory
  import opened CpuDecode
  import opened Cpu
  import MemoryUnit
  import opened CpuGroups
  import T = CpuTheorem
  import P = CpuPrograms
  import R = CpuRefinement
  import I = Interrupts
  import Isa

  class I8080 {
    var cc: nat
    var regs: Regs
    var hid: Hidden
    var ints: Ints
    var ports: seq<PortEvent>
    const memory: MemoryUnit.Unit
    const dev: Devices

    ghost predicate Valid()
      reads this, memory
    {
      memory.Valid()
    }

    ghost function View(): (m: Machine)
      requires Valid()
      reads this, memory, memory.ram
    {
      Machine(State(cc, regs, hid, ints), memory.View(), memory.log, ports)
    }

    constructor (memory: MemoryUnit.Unit, dev: Devices)
      requires memory.Valid()
      ensures this.memory == memory && this.dev == dev && Valid()
      ensures View() == Machine(Cpu.Reset(), memory.View(), memory.log, [])
    {
      this.memory, this.dev := memory, dev;
      var s := Cpu.Reset();
      cc, regs, hid, ints, ports := s.cc, s.regs, s.hid, s.ints, [];
    }

    method ReadByte(addr: word, space: Space) returns (v: byte)
      requires Valid()
      ensures v == Read(View().mem, addr, space)
    {
      v := memory.CpuRead(addr, space);
    }

    method ReadInstrMovePC() returns (v: byte)
      requires Valid()
      modifies `regs
      ensures Valid() && v == Code(old(View())) && View() == WithRegs(old(View()), NextPc(old(regs)))
    {
      hide Read, NextPc;
      v := memory.CpuRead(regs.pc, Data);
      regs := NextPc(regs);
    }

    method WriteByte(addr: word, v: byte, space: Space, byteNum: nat)
      requires Valid() && byteNum < 2
      modifies memory.ram, memory`log
      ensures Valid() && View() == Store(old(View()), addr, v, space, byteNum)
    {
      hide Translate, Memory.Write, LogWrite;
      memory.CpuWrite(addr, v, space, byteNum);
    }

    /** An operand reaches TMP and is combined with ACT. */
    method Operate(h: Handler, v: byte)
      requires Valid()
      modifies `regs, `hid
      ensures Valid() && View() == WithTmp(WithRegs(old(View()), AluStep(h, old(regs), old(hid.act), v)), v)
    {
      hide AluStep;
      hid := hid.(tmp := v);
      regs := AluStep(h, regs, hid.act, hid.tmp);
    }

    // ---- instruction handlers, each acting on the cycle index it is called in ----

    method DI()
      requires Valid()
      modifies this, memory.ram, memory`log
      ensures Valid() && View() == DiStep(old(View()))
    {
      ints := ints.(inte := false);
    }

    method EI()
      requires Valid()
      modifies this, memory.ram, memory`log
      ensures Valid() && View() == EiStep(old(View()))
    {
      ints := ints.(inte := true, eiPending := true);
    }

    method MovRegReg(d: Reg, s: Reg)
      requires Valid()
      modifies this, memory.ram, memory`log
      ensures Valid() && View() == MovRegRegStep(old(View()), d, s)
    {
      hide GetReg, SetReg;
      if ints.mc == 0 {
        hid := hid.(tmp := GetReg(regs, s));
      } else if ints.mc == 1 {
        regs := SetReg(regs, d, hid.tmp);
      }
    }

    method LoadRegPtr(d: Reg, p: Pair)
      requires Valid()
      modifies this, memory.ram, memory`log
      ensures Valid() && View() == LoadRegPtrStep(old(View()), d, p)
    {
      hide GetPair, SetReg, Read, Translate;
      if ints.mc == 1 {
        var v := ReadByte(GetPair(regs, p), Data);
        regs := SetReg(regs, d, v);
      }
    }

    method MovMemReg(s: Reg)
      requires Valid()
      modifies this, memory.ram, memory`log
      ensures Valid() && View() == MovMemRegStep(old(View()), s)
    {
      hide GetReg, Store, WordOf;
      if ints.mc == 0 {
        hid := hid.(tmp := GetReg(regs, s));
      } else if ints.mc == 1 {
        WriteByte(WordOf(regs.hl), hid.tmp, Data, 0);
      }
    }

    method MviRegData(d: Reg)
      requires Valid()
      modifies this, memory.ram, memory`log
      ensures Valid() && View() == MviRegDataStep(old(View()), d)
    {
      hide SetReg, Read, NextPc;
      if ints.mc == 1 {
        var v := ReadInstrMovePC();
        regs := SetReg(regs, d, v);
      }
    }

    method MviMemData()
      requires Valid()
      modifies this, memory.ram, memory`log
      ensures Valid() && View() == MviMemDataStep(old(View()))
    {
      hide Read, NextPc, Store, WordOf;
      if ints.mc == 1 {
        var v := ReadInstrMovePC();
        hid := hid.(tmp := v);
      } else if ints.mc == 2 {
        WriteByte(WordOf(regs.hl), hid.tmp, Data, 0);
      }
    }

    method ReadZ()
      requires Valid()
      modifies this, memory.ram, memory`log
      ensures Valid() && View() == FetchZ(old(View()))
    {
      hide Read, NextPc;
      var v := ReadInstrMovePC();
      hid := hid.(wz := hid.wz.(l := v));
    }

    method ReadW()
      requires Valid()
      modifies this, memory.ram, memory`log
      ensures Valid() && View() == FetchW(old(View()))
    {
      hide Read, NextPc;
      var v := ReadInstrMovePC();
      hid := hid.(wz := hid.wz.(h := v));
    }

    method LDA()
      requires Valid()
      modifies this, memory.ram, memory`log
      ensures Valid() && View() == LdaStep(old(View()))
    {
      hide FetchZ, FetchW, Read, WordOf;
      if ints.mc == 1 {
        ReadZ();
      } else if ints.mc == 2 {
        ReadW();
      } else if ints.mc == 3 {
        var v := ReadByte(WordOf(hid.wz), Data);
        regs := regs.(a := v);
      }
    }

    method STA()
      requires Valid()
      modifies this, memory.ram, memory`log
      ensures Valid() && View() == StaStep(old(View()))
    {
      hide FetchZ, FetchW, Store, WordOf;
      if ints.mc == 1 {
        ReadZ();
      } else if ints.mc == 2 {
        ReadW();
      } else if ints.mc == 3 {
        WriteByte(WordOf(hid.wz), regs.a, Data, 0);
      }
    }

    method STAX(p: Pair)
      requires Valid()
      modifies this, memory.ram, memory`log
      ensures Valid() && View() == StaxStep(old(View()), p)
    {
      hide GetPair, Store;
      if ints.mc == 1 { WriteByte(GetPair(regs, p), regs.a, Data, 0); }
    }

    method LXI(p: Pair)
      requires Valid()
      modifies this, memory.ram, memory`log
      ensures Valid() && View() == LxiStep(old(View()), p)
    {
      hide GetDuo, SetDuo, Read;
      if ints.mc == 1 {
        var v := ReadInstrMovePC();
        regs := SetDuo(regs, p, GetDuo(regs, p).(l := v));
      } else if ints.mc == 2 {
        var v := ReadInstrMovePC();
        regs := SetDuo(regs, p, GetDuo(regs, p).(h := v));
      }
    }

    method LHLD()
      requires Valid()
      modifies this, memory.ram, memory`log
      ensures Valid() && View() == LhldStep(old(View()))
    {
      hide FetchZ, FetchW, Read, WordOf, DuoOf;
      if ints.mc == 1 {
        ReadZ();
      } else if ints.mc == 2 {
        ReadW();
      } else if ints.mc == 3 {
        var v := ReadByte(WordOf(hid.wz), Data);
        regs := regs.(hl := regs.hl.(l := v));
        hid := hid.(wz := DuoOf(Wrap(WordOf(hid.wz) + 1)));
      } else if ints.mc == 4 {
        var v := ReadByte(WordOf(hid.wz), Data);
        regs := regs.(hl := regs.hl.(h := v));
      }
    }

    method SHLD()
      requires Valid()
      modifies this, memory.ram, memory`log
      ensures Valid() && View() == ShldStep(old(View()))
    {
      hide FetchZ, FetchW, Translate, Memory.Write, LogWrite, WordOf, DuoOf;
      if ints.mc == 1 {
        ReadZ();
      } else if ints.mc == 2 {
        ReadW();
      } else if ints.mc == 3 {
        WriteByte(WordOf(hid.wz), regs.hl.l, Data, 0);
        hid := hid.(wz := DuoOf(Wrap(WordOf(hid.wz) + 1)));
      } else if ints.mc == 4 {
        WriteByte(WordOf(hid.wz), regs.hl.h, Data, 1);
      }
    }

    method SPHL()
      requires Valid()
      modifies this, memory.ram, memory`log
      ensures Valid() && View() == SphlStep(old(View()))
    {
      hide WordOf;
      if ints.mc == 1 { regs := regs.(sp := WordOf(regs.hl)); }
    }

    method XCHG()
      requires Valid()
      modifies this, memory.ram, memory`log
      ensures Valid() && View() == XchgStep(old(View()))
    {
      hid := hid.(tmp := regs.de.l);
      regs := regs.(de := regs.hl, hl := regs.de);
    }

    method XTHL()
      requires Valid()
      modifies this, memory.ram, memory`log
      ensures Valid() && View() == XthlStep(old(View()))
    {
      hide Read, Store;
      if ints.mc == 1 {
        var v := ReadByte(regs.sp, Stack);
        hid := hid.(wz := hid.wz.(l := v));
      } else if ints.mc == 2 {
        var v := ReadByte(Wrap(regs.sp + 1), Stack);
        hid := hid.(wz := hid.wz.(h := v));
      } else if ints.mc == 3 {
        WriteByte(regs.sp, regs.hl.l, Stack, 1);
      } else if ints.mc == 4 {
        WriteByte(Wrap(regs.sp + 1), regs.hl.h, Stack, 0);
      } else if ints.mc == 5 {
        regs := regs.(hl := hid.wz);
      }
    }

    method PUSH(p: Pair)
      requires Valid()
      modifies this, memory.ram, memory`log
      ensures Valid() && View() == PushStep(old(View()), p)
    {
      hide GetDuo, Store;
      if ints.mc == 0 || ints.mc == 2 {
        regs := regs.(sp := Wrap(regs.sp - 1));
      } else if ints.mc == 1 {
        WriteByte(regs.sp, GetDuo(regs, p).h, Stack, 0);
      } else if ints.mc == 3 {
        WriteByte(regs.sp, GetDuo(regs, p).l, Stack, 1);
      }
    }

    method POP(p: Pair)
      requires Valid()
      modifies this, memory.ram, memory`log
      ensures Valid() && View() == PopStep(old(View()), p)
    {
      hide GetDuo, SetDuo, Read, Masked;
      if ints.mc == 1 {
        var v := ReadByte(regs.sp, Stack);
        regs := SetDuo(regs, p, GetDuo(regs, p).(l := v)).(sp := Wrap(regs.sp + 1));
      } else if ints.mc == 2 {
        var v := ReadByte(regs.sp, Stack);
        regs := SetDuo(regs, p, GetDuo(regs, p).(h := v)).(sp := Wrap(regs.sp + 1));
      }
      if p == PSW { regs := regs.(f := Masked(regs.f)); }
    }

    method MemOperand(h: Handler)
      requires Valid()
      modifies this, memory.ram, memory`log
      ensures Valid() && View() == MemOperandStep(h, old(View()))
    {
      hide AluStep, Read, WordOf;
      if ints.mc == 0 {
        hid := hid.(act := regs.a);
      } else if ints.mc == 1 {
        var v := ReadByte(WordOf(regs.hl), Data);
        Operate(h, v);
      }
    }

    method ImmTake(h: Handler)
      requires Valid() && ints.mc == 1
      modifies this, memory.ram, memory`log
      ensures Valid() && View() == ImmOperandStep(h, old(View()))
    {
      hide AluStep, Read, NextPc, Code;
      var v := ReadInstrMovePC();
      Operate(h, v);
    }

    method ImmOperand(h: Handler)
      requires Valid()
      modifies this, memory.ram, memory`log
      ensures Valid() && View() == ImmOperandStep(h, old(View()))
    {
      hide AluStep, Read, NextPc, Code;
      if ints.mc == 0 {
        hid := hid.(act := regs.a);
      } else if ints.mc == 1 {
        ImmTake(h);
      }
    }

    method DadLow(p: Pair)
      requires Valid() && ints.mc == 1
      modifies this, memory.ram, memory`log
      ensures Valid() && View() == DadStep(old(View()), p)
    {
      hide GetDuo;
      hid := hid.(act := GetDuo(regs, p).l, tmp := regs.hl.l);
      var res: int := hid.act + hid.tmp;
      regs := regs.(hl := regs.hl.(l := res % 0x100), f := regs.f.(c := res >= 0x100));
    }

    method DadHigh(p: Pair)
      requires Valid() && ints.mc == 2
      modifies this, memory.ram, memory`log
      ensures Valid() && View() == DadStep(old(View()), p)
    {
      hide GetDuo;
      hid := hid.(act := GetDuo(regs, p).h, tmp := regs.hl.h);
      var res: int := hid.act + hid.tmp + Num(regs.f.c);
      regs := regs.(hl := regs.hl.(h := res % 0x100), f := regs.f.(c := res >= 0x100));
    }

    method DAD(p: Pair)
      requires Valid()
      modifies this, memory.ram, memory`log
      ensures Valid() && View() == DadStep(old(View()), p)
    {
      hide GetDuo;
      if ints.mc == 1 {
        DadLow(p);
      } else if ints.mc == 2 {
        DadHigh(p);
      }
    }

    method INR(d: Reg)
      requires Valid()
      modifies this, memory.ram, memory`log
      ensures Valid() && View() == InrStep(old(View()), d)
    {
      hide GetReg, SetReg, IncFlags, Inc;
      if ints.mc == 0 {
        hid := hid.(tmp := Inc(GetReg(regs, d)));
        regs := regs.(f := IncFlags(regs.f, hid.tmp));
      } else if ints.mc == 1 {
        regs := SetReg(regs, d, hid.tmp);
      }
    }

    method INRMem()
      requires Valid()
      modifies this, memory.ram, memory`log
      ensures Valid() && View() == InrMemStep(old(View()))
    {
      hide IncFlags, Inc, Read, Store, WordOf;
      if ints.mc == 1 {
        var v := ReadByte(WordOf(regs.hl), Data);
        hid := hid.(tmp := Inc(v));
        regs := regs.(f := IncFlags(regs.f, hid.tmp));
      } else if ints.mc == 2 {
        WriteByte(WordOf(regs.hl), hid.tmp, Data, 0);
      }
    }

    method DCR(d: Reg)
      requires Valid()
      modifies this, memory.ram, memory`log
      ensures Valid() && View() == DcrStep(old(View()), d)
    {
      hide GetReg, SetReg, DecFlags, Dec;
      if ints.mc == 0 {
        hid := hid.(tmp := Dec(GetReg(regs, d)));
        regs := regs.(f := DecFlags(regs.f, hid.tmp));
      } else if ints.mc == 1 {
        regs := SetReg(regs, d, hid.tmp);
      }
    }

    method DCRMem()
      requires Valid()
      modifies this, memory.ram, memory`log
      ensures Valid() && View() == DcrMemStep(old(View()))
    {
      hide DecFlags, Dec, Read, Store, WordOf;
      if ints.mc == 1 {
        var v := ReadByte(WordOf(regs.hl), Data);
        hid := hid.(tmp := Dec(v));
        regs := regs.(f := DecFlags(regs.f, hid.tmp));
      } else if ints.mc == 2 {
        WriteByte(WordOf(regs.hl), hid.tmp, Data, 0);
      }
    }

    method INX(p: Pair, delta: int)
      requires Valid() && (delta == 1 || delta == -1)
      modifies this, memory.ram, memory`log
      ensures Valid() && View() == InxStep(old(View()), p, delta)
    {
      hide GetPair, SetDuo, DuoOf;
      if ints.mc == 0 {
        hid := hid.(wz := DuoOf(Wrap(GetPair(regs, p) + delta)));
      } else if ints.mc == 1 {
        regs := SetDuo(regs, p, hid.wz);
      }
    }

    method JMP(cond: Cond)
      requires Valid()
      modifies this, memory.ram, memory`log
      ensures Valid() && View() == JmpStep(old(View()), cond)
    {
      hide FetchZ, Read, Holds, WordOf;
      if ints.mc == 1 {
        ReadZ();
      } else if ints.mc == 2 {
        ReadW();
        if Holds(regs.f, cond) { regs := regs.(pc := WordOf(hid.wz)); }
      }
    }

    method PCHL()
      requires Valid()
      modifies this, memory.ram, memory`log
      ensures Valid() && View() == PchlStep(old(View()))
    {
      hide WordOf;
      if ints.mc == 1 { regs := regs.(pc := WordOf(regs.hl)); }
    }

    method CALL(cond: Cond)
      requires Valid()
      modifies this, memory.ram, memory`log
      ensures Valid() && View() == CallStep(old(View()), cond)
    {
      hide FetchZ, FetchW, Translate, Memory.Write, LogWrite, Holds, WordOf, High, Low;
      if ints.mc == 0 {
        if Holds(regs.f, cond) { regs := regs.(sp := Wrap(regs.sp - 1)); }
      } else if ints.mc == 1 {
        ReadZ();
      } else if ints.mc == 2 {
        ReadW();
      } else if ints.mc == 3 {
        if Holds(regs.f, cond) {
          WriteByte(regs.sp, High(regs.pc), Stack, 0);
          regs := regs.(sp := Wrap(regs.sp - 1));
        } else {
          ints := ints.(mc := 5);
        }
      } else if ints.mc == 4 {
        WriteByte(regs.sp, Low(regs.pc), Stack, 1);
      } else if ints.mc == 5 {
        regs := regs.(pc := WordOf(hid.wz));
      }
    }

    method RST(arg: nat)
      requires Valid()
      modifies this, memory.ram, memory`log
      ensures Valid() && View() == RstStep(old(View()), arg)
    {
      hide Translate, Memory.Write, LogWrite, WordOf, High, Low;
      if ints.mc == 0 {
        regs := regs.(sp := Wrap(regs.sp - 1));
      } else if ints.mc == 1 {
        WriteByte(regs.sp, High(regs.pc), Stack, 0);
        regs := regs.(sp := Wrap(regs.sp - 1));
      } else if ints.mc == 2 {
        WriteByte(regs.sp, Low(regs.pc), Stack, 1);
        hid := hid.(wz := Duo(0, arg * 8 % 0x100));
      } else if ints.mc == 3 {
        regs := regs.(pc := WordOf(hid.wz));
      }
    }

    method RET()
      requires Valid()
      modifies this, memory.ram, memory`log
      ensures Valid() && View() == RetStep(old(View()))
    {
      hide Read, WordOf;
      if ints.mc == 1 {
        var v := ReadByte(regs.sp, Stack);
        hid := hid.(wz := hid.wz.(l := v));
        regs := regs.(sp := Wrap(regs.sp + 1));
      } else if ints.mc == 2 {
        var v := ReadByte(regs.sp, Stack);
        hid := hid.(wz := hid.wz.(h := v));
        regs := regs.(sp := Wrap(regs.sp + 1), pc := WordOf(hid.wz));
      }
    }

    method RETCond(cond: Cond)
      requires Valid()
      modifies this, memory.ram, memory`log
      ensures Valid() && View() == RetCondStep(old(View()), cond)
    {
      hide Read, WordOf, Holds;
      if ints.mc == 1 {
        if !Holds(regs.f, cond) { ints := ints.(mc := 3); }
      } else if ints.mc == 2 {
        var v := ReadByte(regs.sp, Stack);
        hid := hid.(wz := hid.wz.(l := v));
        regs := regs.(sp := Wrap(regs.sp + 1));
      } else if ints.mc == 3 {
        var v := ReadByte(regs.sp, Stack);
        hid := hid.(wz := hid.wz.(h := v));
        regs := regs.(sp := Wrap(regs.sp + 1), pc := WordOf(hid.wz));
      }
    }

    method IN()
      requires Valid()
      modifies this, memory.ram, memory`log
      ensures Valid() && View() == InStep(dev, old(View()))
    {
      hide Read, NextPc;
      if ints.mc == 1 {
        var v := ReadInstrMovePC();
        hid := hid.(wz := Duo(0, v));
      } else if ints.mc == 2 {
        var v := dev(ports, hid.wz.l);
        regs := regs.(a := v);
        ports := ports + [PortIn(hid.wz.l, v)];
      }
    }

    method OUT()
      requires Valid()
      modifies this, memory.ram, memory`log
      ensures Valid() && View() == OutStep(old(View()))
    {
      hide Read;
      if ints.mc == 1 {
        var v := ReadInstrMovePC();
        hid := hid.(wz := Duo(0, v));
        ports := ports + [PortOut(v, regs.a)];
      }
    }

    method HLT()
      requires Valid()
      modifies this, memory.ram, memory`log
      ensures Valid() && View() == HltStep(old(View()))
    {
      if ints.mc == 0 {
        regs := regs.(pc := Wrap(regs.pc - 1));
      } else if ints.mc == 1 {
        if ints.iff {
          regs := NextPc(regs);
        } else {
          ints := ints.(hlta := true, mc := 0);
        }
      }
    }

    method SingleCycle(h: Handler)
      requires Valid()
      modifies this, memory.ram, memory`log
      ensures Valid() && View() == SingleCycleStep(h, old(View()))
    {
      hide SingleStep, SingleHidden;
      var r := regs;
      regs := SingleStep(h, r);
      hid := SingleHidden(h, r, hid);
    }

    method Transfer(h: Handler)
      requires Valid() && IsData(h)
      modifies this, memory.ram, memory`log
      ensures Valid() && View() == TransferStep(h, old(View()))
    {
      hide LoadRegPtrStep, MovMemRegStep, MviRegDataStep, MviMemDataStep, LdaStep, StaStep, StaxStep, LxiStep,
        LhldStep, ShldStep, InrMemStep, DcrMemStep;
      if h.LoadRegPtr? {
        LoadRegPtr(h.d, h.p);
      } else if h.MovMemReg? {
        MovMemReg(h.s);
      } else if h.MviRegData? {
        MviRegData(h.d);
      } else if h.MviMemData? {
        MviMemData();
      } else if h.Lda? {
        LDA();
      } else if h.Sta? {
        STA();
      } else if h.StaxPtr? {
        STAX(h.p);
      } else if h.LxiPair? {
        LXI(h.p);
      } else if h.Lhld? {
        LHLD();
      } else if h.Shld? {
        SHLD();
      } else if h.InrMem? {
        INRMem();
      } else {
        DCRMem();
      }
    }

    method Flow(h: Handler)
      requires Valid() && IsFlow(h)
      modifies this, memory.ram, memory`log
      ensures Valid() && View() == FlowStep(dev, h, old(View()))
    {
      hide XthlStep, PushStep, PopStep, JmpStep, CallStep, RetStep, RetCondStep, RstStep, InStep, OutStep;
      if h.Xthl? {
        XTHL();
      } else if h.Push? {
        PUSH(h.p);
      } else if h.Pop? {
        POP(h.p);
      } else if h.Jmp? {
        JMP(h.cond);
      } else if h.Call? {
        CALL(h.cond);
      } else if h.Ret? {
        RET();
      } else if h.RetCond? {
        RETCond(h.cond);
      } else if h.Rst? {
        RST(h.arg);
      } else if h.In? {
        IN();
      } else {
        OUT();
      }
    }

    method Register(h: Handler)
      requires Valid() && IsRegister(h)
      modifies this, memory.ram, memory`log
      ensures Valid() && View() == RegisterStep(h, old(View()))
    {
      hide MovRegRegStep, SphlStep, XchgStep, DadStep, InrStep, DcrStep, InxStep, PchlStep;
      if h.MovRegReg? {
        MovRegReg(h.d, h.s);
      } else if h.Sphl? {
        SPHL();
      } else if h.Xchg? {
        XCHG();
      } else if h.DadPair? {
        DAD(h.p);
      } else if h.InrReg? {
        INR(h.d);
      } else if h.DcrReg? {
        DCR(h.d);
      } else if h.InxPair? {
        INX(h.p, 1);
      } else if h.DcxPair? {
        INX(h.p, -1);
      } else {
        PCHL();
      }
    }

    /** The opcode switch. */
    method Dispatch(h: Handler)
      requires Valid()
      modifies this, memory.ram, memory`log
      ensures Valid() && View() == Cpu.Handle(dev, h, old(View()))
    {
      hide Cpu.Handle, TransferStep, FlowStep, RegisterStep, MemOperandStep, ImmOperandStep, DiStep, EiStep, HltStep, SingleCycleStep;
      ghost var m := View();
      if h == Di { HandleControl(dev, h, m); DI(); }
      else if h == Ei { HandleControl(dev, h, m); EI(); }
      else if h == Hlt { HandleControl(dev, h, m); HLT(); }
      else {
        Kinds(h);
        hide IsData, IsFlow, IsRegister, IsMemOperand, IsImmOperand, IsRegOperand, IsAccumulator;
        if IsData(h) { HandleData(dev, h, m); Transfer(h); }
        else if IsFlow(h) { HandleFlow(dev, h, m); Flow(h); }
        else if IsRegister(h) { HandleRegister(dev, h, m); Register(h); }
        else if IsMemOperand(h) { HandleOperand(dev, h, m); MemOperand(h); }
        else if IsImmOperand(h) { HandleOperand(dev, h, m); ImmOperand(h); }
        else { HandleSingle(dev, h, m); SingleCycle(h); }
      }
    }

    /** Latch the request; at an instruction boundary acknowledge it or fetch. */
    method BeginCycle(irq: bool)
      requires Valid()
      modifies this
      ensures Valid() && View() == Begin(old(View()), irq)
    {
      hide Read;
      ints := ints.(iff := ints.iff || (irq && ints.inte));
      if ints.mc == 0 {
        if ints.iff && !ints.eiPending {
          ints := ints.(inte := false, iff := false, hlta := false);
          hid := hid.(ir := OPCODE_RST7);
        } else {
          ints := ints.(eiPending := false);
          var v := ReadInstrMovePC();
          hid := hid.(ir := v);
        }
      }
    }

    method EndCycle(cycles: nat)
      requires Valid() && cycles > 0
      modifies this
      ensures Valid() && View() == Advance(old(View()), cycles)
    {
      hide NextMc;
      ints := ints.(mc := NextMc(ints.mc, cycles));
      cc := cc + 4;
    }

    /** One machine cycle. */
    method ExecuteMachineCycle(irq: bool)
      requires Valid()
      modifies this, memory.ram, memory`log
      ensures Valid() && View() == Cycle(dev, old(View()), irq)
    {
      hide Cpu.Handle, Decode, MCycles, Begin, Advance;
      BeginCycle(irq);
      var ir := hid.ir;
      Dispatch(Decode(ir));
      EndCycle(MCycles(ir));
    }

    method IsInstructionExecuted() returns (r: bool)
      ensures r == Executed(State(cc, regs, hid, ints))
    {
      r := ints.mc == 0 || ints.hlta;
    }

    /** Cycle number `n` of a run from `m`. */
    method NextCycle(irq: nat -> bool, ghost m: Machine, n: nat) returns (done: bool)
      requires Valid() && View() == Run(dev, m, irq, n) && I.Protocol(View().cpu)
      modifies this, memory.ram, memory`log
      ensures Valid() && View() == Run(dev, m, irq, n + 1) && I.Protocol(View().cpu)
      ensures done == Executed(View().cpu) && old(ints.mc) < 6 && (done || ints.mc == old(ints.mc) + 1)
    {
      hide Cycle, Cpu.Run, I.Protocol, Executed;
      I.RunAdvances(dev, m, irq, n);
      ExecuteMachineCycle(irq(n));
      done := IsInstructionExecuted();
    }

    /** Machine cycles up to the first executed state, the interrupt line given cycle by cycle. Unless an interrupt is
        accepted, an instruction other than HLT and MOV M,L is one step of the 8080. */
    method ExecuteInstruction(irq: nat -> bool) returns (n: nat)
      requires Valid() && I.Protocol(View().cpu)
      modifies this, memory.ram, memory`log
      ensures Valid() && I.Protocol(View().cpu) && 1 <= n <= 6
      ensures View() == Run(dev, old(View()), irq, n) && Executed(View().cpu)
      ensures forall k :: 0 < k < n ==> !Executed(Run(dev, old(View()), irq, k).cpu)
      ensures var m := old(View());
              m.cpu.ints.mc == 0 && !Accepts(m.cpu.ints, irq(0)) && T.Opcode(m) != OPCODE_HLT && T.Opcode(m) != OPCODE_MOV_M_L ==>
                n == P.Cycles(m) && R.View(View()) == Isa.Step(dev, R.View(m))
    {
      hide Cycle, Cpu.Run, I.Protocol, Executed, T.Opcode, P.Cycles, R.View, Isa.Step, Accepts;
      ghost var m := View();
      P.RunZero(dev, m, irq);
      var done := NextCycle(irq, m, 0);
      n := 1;
      while !done
        invariant Valid() && View() == Run(dev, m, irq, n) && I.Protocol(View().cpu) && 1 <= n <= 6
        invariant done == Executed(View().cpu) && (done || n <= ints.mc)
        invariant forall k :: 0 < k < n ==> !Executed(Run(dev, m, irq, k).cpu)
        decreases 6 - n
      {
        done := NextCycle(irq, m, n);
        n := n + 1;
      }
      if m.cpu.ints.mc == 0 && !Accepts(m.cpu.ints, irq(0)) && T.Opcode(m) != OPCODE_HLT && T.Opcode(m) != OPCODE_MOV_M_L {
        I.UntilExecuted(dev, m, irq, n);
      }
    }
  }
}
