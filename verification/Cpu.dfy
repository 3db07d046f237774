/** The machine-cycle level CPU of libs/v6core/src/cpu_i8080.cpp: every instruction is spread over
    1 to 6 machine cycles through the hidden registers IR, TMP, ACT, W, Z and the cycle counter MC. */
module Cpu {
  import opened Bytes
  import opened Memory
  import opened CpuDecode

  /** The bits of register F, from 7 down to 0. */
  datatype Flags = Flags(s: bool, z: bool, b5: bool, ac: bool, b3: bool, p: bool, b1: bool, c: bool)

  /** A register pair: high and low byte. */
  datatype Duo = Duo(h: byte, l: byte)

  datatype Regs = Regs(pc: word, sp: word, a: byte, f: Flags, bc: Duo, de: Duo, hl: Duo)

  /** Registers no instruction can name. */
  datatype Hidden = Hidden(ir: byte, tmp: byte, act: byte, wz: Duo)

  /** Cycle index, interrupt enable, interrupt latch, halt and the EI delay. */
  datatype Ints = Ints(mc: nat, inte: bool, iff: bool, hlta: bool, eiPending: bool)

  datatype State = State(cc: nat, regs: Regs, hid: Hidden, ints: Ints)

  /** One slot of the per-instruction write log kept by Memory::CpuWrite. */
  datatype Entry = Entry(addr: nat, before: byte, value: byte)
  datatype WriteLog = WriteLog(slot0: Entry, slot1: Entry, len: nat)

  datatype PortEvent = PortIn(port: byte, value: byte) | PortOut(port: byte, value: byte)

  /** The devices' answer to an IN, as any function of the port traffic so far. */
  type Devices = (seq<PortEvent>, byte) -> byte

  datatype Machine = Machine(cpu: State, mem: Mem, log: WriteLog, ports: seq<PortEvent>)

  function Num(b: bool): (n: nat) { if b then 1 else 0 }

  /** Four flag bits as a hexadecimal digit, and back. */
  datatype Nibble = Nibble(b3: bool, b2: bool, b1: bool, b0: bool)

  function Digit(n: Nibble): (d: nat)
    ensures d < 16
  {
    8 * Num(n.b3) + 4 * Num(n.b2) + 2 * Num(n.b1) + Num(n.b0)
  }

  function NibbleOf(d: nat): (n: Nibble)
  {
    var d2 := if d >= 8 then d - 8 else d;
    var d1 := if d2 >= 4 then d2 - 4 else d2;
    Nibble(d >= 8, d2 >= 4, d1 >= 2, d1 == 1 || d1 == 3)
  }

  function FlagByte(f: Flags): (v: byte)
  {
    16 * Digit(Nibble(f.s, f.z, f.b5, f.ac)) + Digit(Nibble(f.b3, f.p, f.b1, f.c))
  }

  function FlagsOf(v: byte): (f: Flags)
  {
    var hi := NibbleOf(v / 16);
    var lo := NibbleOf(v % 16);
    Flags(hi.b3, hi.b2, hi.b1, hi.b0, lo.b3, lo.b2, lo.b1, lo.b0)
  }

  /** Bit 1 always set, bits 3 and 5 always clear. */
  predicate FlagsOk(f: Flags) { f.b1 && !f.b3 && !f.b5 }

  function Masked(f: Flags): (r: Flags) { f.(b1 := true, b3 := false, b5 := false) }

  function GetReg(r: Regs, x: Reg): (v: byte)
  {
    match x
    case A => r.a
    case B => r.bc.h
    case C => r.bc.l
    case D => r.de.h
    case E => r.de.l
    case H => r.hl.h
    case L => r.hl.l
  }

  function SetReg(r: Regs, x: Reg, v: byte): (r': Regs)
  {
    match x
    case A => r.(a := v)
    case B => r.(bc := r.bc.(h := v))
    case C => r.(bc := r.bc.(l := v))
    case D => r.(de := r.de.(h := v))
    case E => r.(de := r.de.(l := v))
    case H => r.(hl := r.hl.(h := v))
    case L => r.(hl := r.hl.(l := v))
  }

  function DuoOf(w: word): (d: Duo) { Duo(High(w), Low(w)) }

  function WordOf(d: Duo): (w: word) { Word(d.h, d.l) }

  function GetDuo(r: Regs, p: Pair): (d: Duo)
  {
    match p
    case BC => r.bc
    case DE => r.de
    case HL => r.hl
    case SP => DuoOf(r.sp)
    case PSW => Duo(r.a, FlagByte(r.f))
  }

  function SetDuo(r: Regs, p: Pair, d: Duo): (r': Regs)
  {
    match p
    case BC => r.(bc := d)
    case DE => r.(de := d)
    case HL => r.(hl := d)
    case SP => r.(sp := WordOf(d))
    case PSW => r.(a := d.h, f := FlagsOf(d.l))
  }

  function GetPair(r: Regs, p: Pair): (v: word) { WordOf(GetDuo(r, p)) }

  predicate Holds(f: Flags, cond: Cond)
  {
    match cond
    case Always => true
    case NotZero => !f.z
    case Zero => f.z
    case NoCarry => !f.c
    case Carry => f.c
    case ParityOdd => !f.p
    case ParityEven => f.p
    case Plus => !f.s
    case Minus => f.s
  }

  // ---- arithmetic helpers -------------------------------------------------

  /** The pattern of the even rows of the parity table. */
  predicate EvenNibble(n: nat) { match n case 0 | 3 | 5 | 6 | 9 | 10 | 12 | 15 => true case _ => false }

  /** The 256-entry parity table: sixteen rows, each the even pattern or its complement. */
  predicate Parity(v: byte) { EvenNibble(v / 16) == EvenNibble(v % 16) }

  /** Bit `k` of (a + b + cy) ^ a ^ b, computed on 32-bit integers. */
  predicate GetCarry(k: nat, a: byte, b: byte, cy: bool)
  {
    Bit(Xor(32, Xor(32, a + b + Num(cy), a), b), k)
  }

  function SetZSP(f: Flags, v: byte): (f': Flags)
  {
    f.(z := v == 0, s := v >= 0x80, p := Parity(v))
  }

  function Add(r: Regs, a: byte, b: byte, cy: bool): (r': Regs)
  {
    var sum: byte := (a + b + Num(cy)) % 0x100;
    r.(a := sum, f := SetZSP(r.f.(c := GetCarry(8, a, b, cy), ac := GetCarry(4, a, b, cy)), sum))
  }

  /** Subtraction as addition of the complement. */
  function Sub(r: Regs, a: byte, b: byte, cy: bool): (r': Regs)
  {
    var t := Add(r, a, 0xFF - b, !cy);
    t.(f := t.f.(c := !t.f.c))
  }

  /** CMP, CMP M and CPI: the integer difference of ACT and TMP and its bits 8 and 4. */
  function Compare(r: Regs, act: byte, tmp: byte): (r': Regs)
  {
    var res := act - tmp;
    var low: byte := res % 0x100;
    r.(f := SetZSP(r.f.(c := res % 0x200 >= 0x100, ac := !Bit(XorByte(XorByte(act, low), tmp), 4)), low))
  }

  function AndAcc(r: Regs, act: byte, tmp: byte): (r': Regs)
  {
    var v := AndByte(act, tmp);
    r.(a := v, f := SetZSP(r.f.(c := false, ac := Bit(OrByte(act, tmp), 3)), v))
  }

  function XorAcc(r: Regs, act: byte, tmp: byte): (r': Regs)
  {
    var v := XorByte(act, tmp);
    r.(a := v, f := SetZSP(r.f.(c := false, ac := false), v))
  }

  function OrAcc(r: Regs, act: byte, tmp: byte): (r': Regs)
  {
    var v := OrByte(act, tmp);
    r.(a := v, f := SetZSP(r.f.(c := false, ac := false), v))
  }

  function Inc(v: byte): (r: byte) { (v + 1) % 0x100 }

  function Dec(v: byte): (r: byte) { (v - 1) % 0x100 }

  /** The flags of an increment to `v`. */
  function IncFlags(f: Flags, v: byte): (f': Flags) { SetZSP(f.(ac := v % 16 == 0), v) }

  /** The flags of a decrement to `v`. */
  function DecFlags(f: Flags, v: byte): (f': Flags) { SetZSP(f.(ac := v % 16 != 15), v) }

  function DaaAcc(r: Regs): (r': Regs)
  {
    var lsb := r.a % 16;
    var msb := r.a / 16;
    var low := if r.f.ac || lsb > 9 then 0x06 else 0;
    var adjustHigh := r.f.c || msb > 9 || (msb >= 9 && lsb > 9);
    var t := Add(r, r.a, low + (if adjustHigh then 0x60 else 0), false);
    t.(f := t.f.(c := r.f.c || adjustHigh))
  }

  // ---- memory helpers -----------------------------------------------------

  /** The byte under PC. */
  function Code(m: Machine): (v: byte)
  {
    Read(m.mem, m.cpu.regs.pc, Data)
  }

  function NextPc(r: Regs): (r': Regs) { r.(pc := Wrap(r.pc + 1)) }

  function LogWrite(log: WriteLog, byteNum: nat, e: Entry): (log': WriteLog)
  {
    if byteNum == 0 then log.(slot0 := e, len := 1) else log.(slot1 := e, len := byteNum + 1)
  }

  /** Memory::CpuWrite: log the address, the old and the new byte in slot `byteNum`, then store. */
  function Store(m: Machine, addr: word, v: byte, space: Space, byteNum: nat): (m': Machine)
  {
    var g := Translate(m.mem, addr, space);
    m.(mem := Memory.Write(m.mem, addr, v, space),
       log := LogWrite(m.log, byteNum, Entry(g, m.mem.ram[g], v)))
  }

  function WithRegs(m: Machine, r: Regs): (m': Machine) { m.(cpu := m.cpu.(regs := r)) }

  function WithHidden(m: Machine, x: Hidden): (m': Machine) { m.(cpu := m.cpu.(hid := x)) }

  function WithMc(m: Machine, mc: nat): (m': Machine) { m.(cpu := m.cpu.(ints := m.cpu.ints.(mc := mc))) }

  function WithTmp(m: Machine, v: byte): (m': Machine) { WithHidden(m, m.cpu.hid.(tmp := v)) }

  function WithAct(m: Machine, v: byte): (m': Machine) { WithHidden(m, m.cpu.hid.(act := v)) }

  function WithWz(m: Machine, d: Duo): (m': Machine) { WithHidden(m, m.cpu.hid.(wz := d)) }

  // ---- instruction handlers -----------------------------------------------
  // Each handler acts on the cycle index MC it is called in.

  function MovRegRegStep(m: Machine, d: Reg, s: Reg): (m': Machine)
  {
    if m.cpu.ints.mc == 0 then WithTmp(m, GetReg(m.cpu.regs, s))
    else if m.cpu.ints.mc == 1 then WithRegs(m, SetReg(m.cpu.regs, d, m.cpu.hid.tmp)) else m
  }

  function SphlStep(m: Machine): (m': Machine)
  {
    if m.cpu.ints.mc == 1 then WithRegs(m, m.cpu.regs.(sp := WordOf(m.cpu.regs.hl))) else m
  }

  function XchgStep(m: Machine): (m': Machine)
  {
    var r := m.cpu.regs;
    WithTmp(WithRegs(m, r.(de := r.hl, hl := r.de)), r.de.l)
  }

  function DadStep(m: Machine, p: Pair): (m': Machine)
  {
    var r := m.cpu.regs;
    var x := m.cpu.hid;
    if m.cpu.ints.mc == 1 then
      var act := GetDuo(r, p).l;
      var res := act + r.hl.l;
      WithHidden(WithRegs(m, r.(f := r.f.(c := res >= 0x100), hl := r.hl.(l := res % 0x100))), x.(act := act, tmp := r.hl.l))
    else if m.cpu.ints.mc == 2 then
      var act := GetDuo(r, p).h;
      var res := act + r.hl.h + Num(r.f.c);
      WithHidden(WithRegs(m, r.(f := r.f.(c := res >= 0x100), hl := r.hl.(h := res % 0x100))), x.(act := act, tmp := r.hl.h))
    else m
  }

  function InrStep(m: Machine, d: Reg): (m': Machine)
  {
    var r := m.cpu.regs;
    if m.cpu.ints.mc == 0 then
      var v := Inc(GetReg(r, d));
      WithTmp(WithRegs(m, r.(f := IncFlags(r.f, v))), v)
    else if m.cpu.ints.mc == 1 then WithRegs(m, SetReg(r, d, m.cpu.hid.tmp)) else m
  }

  function DcrStep(m: Machine, d: Reg): (m': Machine)
  {
    var r := m.cpu.regs;
    if m.cpu.ints.mc == 0 then
      var v := Dec(GetReg(r, d));
      WithTmp(WithRegs(m, r.(f := DecFlags(r.f, v))), v)
    else if m.cpu.ints.mc == 1 then WithRegs(m, SetReg(r, d, m.cpu.hid.tmp)) else m
  }

  /** INX (`delta` 1) and DCX (`delta` -1). */
  function InxStep(m: Machine, p: Pair, delta: int): (m': Machine)
    requires delta == 1 || delta == -1
  {
    if m.cpu.ints.mc == 0 then WithWz(m, DuoOf(Wrap(GetPair(m.cpu.regs, p) + delta)))
    else if m.cpu.ints.mc == 1 then WithRegs(m, SetDuo(m.cpu.regs, p, m.cpu.hid.wz)) else m
  }

  function PchlStep(m: Machine): (m': Machine)
  {
    if m.cpu.ints.mc == 1 then WithRegs(m, m.cpu.regs.(pc := WordOf(m.cpu.regs.hl))) else m
  }

  function Rlc1(r: Regs): (r': Regs)
  {
    r.(f := r.f.(c := r.a >= 0x80), a := r.a * 2 % 0x100 + Num(r.a >= 0x80))
  }

  function Rrc1(r: Regs): (r': Regs)
  {
    r.(f := r.f.(c := r.a % 2 == 1), a := r.a / 2 + 0x80 * Num(r.a % 2 == 1))
  }

  function Ral1(r: Regs): (r': Regs)
  {
    r.(f := r.f.(c := r.a >= 0x80), a := r.a * 2 % 0x100 + Num(r.f.c))
  }

  function Rar1(r: Regs): (r': Regs)
  {
    r.(f := r.f.(c := r.a % 2 == 1), a := r.a / 2 + 0x80 * Num(r.f.c))
  }

  /** The single-cycle handlers that only change registers. */
  function SingleStep(h: Handler, r: Regs): (r': Regs)
  {
    match h
    case AddReg(s, carry) => Add(r, r.a, GetReg(r, s), carry && r.f.c)
    case SubReg(s, carry) => Sub(r, r.a, GetReg(r, s), carry && r.f.c)
    case AnaReg(s) => AndAcc(r, r.a, GetReg(r, s))
    case XraReg(s) => XorAcc(r, r.a, GetReg(r, s))
    case OraReg(s) => OrAcc(r, r.a, GetReg(r, s))
    case CmpReg(s) => Compare(r, r.a, GetReg(r, s))
    case Daa => DaaAcc(r)
    case Cma => r.(a := 0xFF - r.a)
    case Stc => r.(f := r.f.(c := true))
    case Cmc => r.(f := r.f.(c := !r.f.c))
    case Rlc => Rlc1(r)
    case Rrc => Rrc1(r)
    case Ral => Ral1(r)
    case Rar => Rar1(r)
    case _ => r
  }

  /** The logic handlers and CMP leave their operands in ACT and TMP. */
  function SingleHidden(h: Handler, r: Regs, x: Hidden): (x': Hidden)
  {
    match h
    case AnaReg(s) => x.(act := r.a, tmp := GetReg(r, s))
    case XraReg(s) => x.(act := r.a, tmp := GetReg(r, s))
    case OraReg(s) => x.(act := r.a, tmp := GetReg(r, s))
    case CmpReg(s) => x.(act := r.a, tmp := GetReg(r, s))
    case _ => x
  }

  /** Arithmetic and logic with a memory or immediate operand, ACT and TMP loaded. */
  function AluStep(h: Handler, r: Regs, act: byte, tmp: byte): (r': Regs)
  {
    match h
    case AddMem(carry) => Add(r, act, tmp, carry && r.f.c)
    case Adi(carry) => Add(r, act, tmp, carry && r.f.c)
    case SubMem(carry) => Sub(r, act, tmp, carry && r.f.c)
    case Sbi(carry) => Sub(r, act, tmp, carry && r.f.c)
    case AnaMem => AndAcc(r, act, tmp)
    case Ani => AndAcc(r, act, tmp)
    case XraMem => XorAcc(r, act, tmp)
    case Xri => XorAcc(r, act, tmp)
    case OraMem => OrAcc(r, act, tmp)
    case Ori => OrAcc(r, act, tmp)
    case _ => Compare(r, act, tmp)
  }

  function MemOperandStep(h: Handler, m: Machine): (m': Machine)
  {
    var r := m.cpu.regs;
    if m.cpu.ints.mc == 0 then WithAct(m, r.a)
    else if m.cpu.ints.mc == 1 then
      var v := Read(m.mem, WordOf(r.hl), Data);
      WithTmp(WithRegs(m, AluStep(h, r, m.cpu.hid.act, v)), v)
    else m
  }

  function ImmOperandStep(h: Handler, m: Machine): (m': Machine)
  {
    var r := m.cpu.regs;
    if m.cpu.ints.mc == 0 then WithAct(m, r.a)
    else if m.cpu.ints.mc == 1 then
      WithTmp(WithRegs(m, AluStep(h, NextPc(r), m.cpu.hid.act, Code(m))), Code(m))
    else m
  }

  function LoadRegPtrStep(m: Machine, d: Reg, p: Pair): (m': Machine)
  {
    var r := m.cpu.regs;
    if m.cpu.ints.mc == 1 then WithRegs(m, SetReg(r, d, Read(m.mem, GetPair(r, p), Data))) else m
  }

  function MovMemRegStep(m: Machine, s: Reg): (m': Machine)
  {
    if m.cpu.ints.mc == 0 then WithTmp(m, GetReg(m.cpu.regs, s))
    else if m.cpu.ints.mc == 1 then Store(m, WordOf(m.cpu.regs.hl), m.cpu.hid.tmp, Data, 0) else m
  }

  function MviRegDataStep(m: Machine, d: Reg): (m': Machine)
  {
    if m.cpu.ints.mc == 1 then WithRegs(m, SetReg(NextPc(m.cpu.regs), d, Code(m))) else m
  }

  function MviMemDataStep(m: Machine): (m': Machine)
  {
    if m.cpu.ints.mc == 1 then WithTmp(WithRegs(m, NextPc(m.cpu.regs)), Code(m))
    else if m.cpu.ints.mc == 2 then Store(m, WordOf(m.cpu.regs.hl), m.cpu.hid.tmp, Data, 0) else m
  }

  function FetchZ(m: Machine): (m': Machine)
  {
    WithWz(WithRegs(m, NextPc(m.cpu.regs)), m.cpu.hid.wz.(l := Code(m)))
  }

  function FetchW(m: Machine): (m': Machine)
  {
    WithWz(WithRegs(m, NextPc(m.cpu.regs)), m.cpu.hid.wz.(h := Code(m)))
  }

  function LdaStep(m: Machine): (m': Machine)
  {
    var mc := m.cpu.ints.mc;
    if mc == 1 then FetchZ(m) else if mc == 2 then FetchW(m)
    else if mc == 3 then WithRegs(m, m.cpu.regs.(a := Read(m.mem, WordOf(m.cpu.hid.wz), Data))) else m
  }

  function StaStep(m: Machine): (m': Machine)
  {
    var mc := m.cpu.ints.mc;
    if mc == 1 then FetchZ(m) else if mc == 2 then FetchW(m)
    else if mc == 3 then Store(m, WordOf(m.cpu.hid.wz), m.cpu.regs.a, Data, 0) else m
  }

  function StaxStep(m: Machine, p: Pair): (m': Machine)
  {
    if m.cpu.ints.mc == 1 then Store(m, GetPair(m.cpu.regs, p), m.cpu.regs.a, Data, 0) else m
  }

  function LxiStep(m: Machine, p: Pair): (m': Machine)
  {
    var r := NextPc(m.cpu.regs);
    if m.cpu.ints.mc == 1 then WithRegs(m, SetDuo(r, p, GetDuo(r, p).(l := Code(m))))
    else if m.cpu.ints.mc == 2 then WithRegs(m, SetDuo(r, p, GetDuo(r, p).(h := Code(m)))) else m
  }

  function LhldStep(m: Machine): (m': Machine)
  {
    var mc := m.cpu.ints.mc;
    var r := m.cpu.regs;
    var wz := WordOf(m.cpu.hid.wz);
    if mc == 1 then FetchZ(m) else if mc == 2 then FetchW(m)
    else if mc == 3 then WithWz(WithRegs(m, r.(hl := r.hl.(l := Read(m.mem, wz, Data)))), DuoOf(Wrap(wz + 1)))
    else if mc == 4 then WithRegs(m, r.(hl := r.hl.(h := Read(m.mem, wz, Data)))) else m
  }

  function ShldStep(m: Machine): (m': Machine)
  {
    var mc := m.cpu.ints.mc;
    var wz := WordOf(m.cpu.hid.wz);
    if mc == 1 then FetchZ(m) else if mc == 2 then FetchW(m)
    else if mc == 3 then WithWz(Store(m, wz, m.cpu.regs.hl.l, Data, 0), DuoOf(Wrap(wz + 1)))
    else if mc == 4 then Store(m, wz, m.cpu.regs.hl.h, Data, 1) else m
  }

  function InrMemStep(m: Machine): (m': Machine)
  {
    var r := m.cpu.regs;
    if m.cpu.ints.mc == 1 then
      var v := Inc(Read(m.mem, WordOf(r.hl), Data));
      WithTmp(WithRegs(m, r.(f := IncFlags(r.f, v))), v)
    else if m.cpu.ints.mc == 2 then Store(m, WordOf(r.hl), m.cpu.hid.tmp, Data, 0) else m
  }

  function DcrMemStep(m: Machine): (m': Machine)
  {
    var r := m.cpu.regs;
    if m.cpu.ints.mc == 1 then
      var v := Dec(Read(m.mem, WordOf(r.hl), Data));
      WithTmp(WithRegs(m, r.(f := DecFlags(r.f, v))), v)
    else if m.cpu.ints.mc == 2 then Store(m, WordOf(r.hl), m.cpu.hid.tmp, Data, 0) else m
  }

  /** XTHL logs its two writes in the opposite order of all other handlers. */
  function XthlStep(m: Machine): (m': Machine)
  {
    var mc := m.cpu.ints.mc;
    var r := m.cpu.regs;
    var wz := m.cpu.hid.wz;
    if mc == 1 then WithWz(m, wz.(l := Read(m.mem, r.sp, Stack)))
    else if mc == 2 then WithWz(m, wz.(h := Read(m.mem, Wrap(r.sp + 1), Stack)))
    else if mc == 3 then Store(m, r.sp, r.hl.l, Stack, 1)
    else if mc == 4 then Store(m, Wrap(r.sp + 1), r.hl.h, Stack, 0)
    else if mc == 5 then WithRegs(m, r.(hl := wz)) else m
  }

  function DecSp(m: Machine): (m': Machine)
  {
    WithRegs(m, m.cpu.regs.(sp := Wrap(m.cpu.regs.sp - 1)))
  }

  function PushStep(m: Machine, p: Pair): (m': Machine)
  {
    var mc := m.cpu.ints.mc;
    var r := m.cpu.regs;
    if mc == 0 || mc == 2 then DecSp(m)
    else if mc == 1 then Store(m, r.sp, GetDuo(r, p).h, Stack, 0)
    else if mc == 3 then Store(m, r.sp, GetDuo(r, p).l, Stack, 1) else m
  }

  /** POP PSW repairs the constant bits of F in every cycle. */
  function PopStep(m: Machine, p: Pair): (m': Machine)
  {
    var r := m.cpu.regs;
    var t :=
      if m.cpu.ints.mc == 1 then SetDuo(r, p, GetDuo(r, p).(l := Read(m.mem, r.sp, Stack))).(sp := Wrap(r.sp + 1))
      else if m.cpu.ints.mc == 2 then SetDuo(r, p, GetDuo(r, p).(h := Read(m.mem, r.sp, Stack))).(sp := Wrap(r.sp + 1))
      else r;
    WithRegs(m, if p == PSW then t.(f := Masked(t.f)) else t)
  }

  function JmpStep(m: Machine, cond: Cond): (m': Machine)
  {
    if m.cpu.ints.mc == 1 then FetchZ(m)
    else if m.cpu.ints.mc == 2 then
      var m1 := FetchW(m);
      if Holds(m.cpu.regs.f, cond) then WithRegs(m1, m1.cpu.regs.(pc := WordOf(m1.cpu.hid.wz))) else m1
    else m
  }

  /** Push the high byte of PC and move SP down for the low one. */
  function PushPch(m: Machine): (m': Machine)
  {
    DecSp(Store(m, m.cpu.regs.sp, High(m.cpu.regs.pc), Stack, 0))
  }

  function PushPcl(m: Machine): (m': Machine)
  {
    Store(m, m.cpu.regs.sp, Low(m.cpu.regs.pc), Stack, 1)
  }

  function JumpWz(m: Machine): (m': Machine)
  {
    WithRegs(m, m.cpu.regs.(pc := WordOf(m.cpu.hid.wz)))
  }

  /** An untaken call skips to the end of its last cycle. */
  function CallStep(m: Machine, cond: Cond): (m': Machine)
  {
    var mc := m.cpu.ints.mc;
    var taken := Holds(m.cpu.regs.f, cond);
    if mc == 0 then (if taken then DecSp(m) else m)
    else if mc == 1 then FetchZ(m)
    else if mc == 2 then FetchW(m)
    else if mc == 3 then (if taken then PushPch(m) else WithMc(m, 5))
    else if mc == 4 then PushPcl(m)
    else if mc == 5 then JumpWz(m) else m
  }

  function RstStep(m: Machine, arg: nat): (m': Machine)
  {
    var mc := m.cpu.ints.mc;
    if mc == 0 then DecSp(m)
    else if mc == 1 then PushPch(m)
    else if mc == 2 then WithWz(PushPcl(m), Duo(0, arg * 8 % 0x100))
    else if mc == 3 then JumpWz(m) else m
  }

  function PopZ(m: Machine): (m': Machine)
  {
    var r := m.cpu.regs;
    WithWz(WithRegs(m, r.(sp := Wrap(r.sp + 1))), m.cpu.hid.wz.(l := Read(m.mem, r.sp, Stack)))
  }

  function PopWJump(m: Machine): (m': Machine)
  {
    var r := m.cpu.regs;
    JumpWz(WithWz(WithRegs(m, r.(sp := Wrap(r.sp + 1))), m.cpu.hid.wz.(h := Read(m.mem, r.sp, Stack))))
  }

  function RetStep(m: Machine): (m': Machine)
  {
    if m.cpu.ints.mc == 1 then PopZ(m) else if m.cpu.ints.mc == 2 then PopWJump(m) else m
  }

  /** An untaken return skips to the end of its last cycle. */
  function RetCondStep(m: Machine, cond: Cond): (m': Machine)
  {
    if m.cpu.ints.mc == 1 then (if Holds(m.cpu.regs.f, cond) then m else WithMc(m, 3))
    else if m.cpu.ints.mc == 2 then PopZ(m) else if m.cpu.ints.mc == 3 then PopWJump(m) else m
  }

  /** HLT parks PC on its own opcode and repeats its second cycle until an interrupt is latched. */
  function HltStep(m: Machine): (m': Machine)
  {
    var r := m.cpu.regs;
    if m.cpu.ints.mc == 0 then WithRegs(m, r.(pc := Wrap(r.pc - 1)))
    else if m.cpu.ints.mc == 1 then
      if m.cpu.ints.iff then WithRegs(m, NextPc(r))
      else m.(cpu := m.cpu.(ints := m.cpu.ints.(hlta := true, mc := 0)))
    else m
  }

  function OutStep(m: Machine): (m': Machine)
  {
    if m.cpu.ints.mc == 1 then
      WithWz(WithRegs(m, NextPc(m.cpu.regs)), Duo(0, Code(m))).(ports := m.ports + [PortOut(Code(m), m.cpu.regs.a)])
    else m
  }

  function InStep(dev: Devices, m: Machine): (m': Machine)
  {
    if m.cpu.ints.mc == 1 then WithWz(WithRegs(m, NextPc(m.cpu.regs)), Duo(0, Code(m)))
    else if m.cpu.ints.mc == 2 then
      var port := m.cpu.hid.wz.l;
      WithRegs(m, m.cpu.regs.(a := dev(m.ports, port))).(ports := m.ports + [PortIn(port, dev(m.ports, port))])
    else m
  }

  function DiStep(m: Machine): (m': Machine) { m.(cpu := m.cpu.(ints := m.cpu.ints.(inte := false))) }

  function EiStep(m: Machine): (m': Machine)
  {
    m.(cpu := m.cpu.(ints := m.cpu.ints.(inte := true, eiPending := true)))
  }

  function SingleCycleStep(h: Handler, m: Machine): (m': Machine)
  {
    WithHidden(WithRegs(m, SingleStep(h, m.cpu.regs)), SingleHidden(h, m.cpu.regs, m.cpu.hid))
  }

  /** Loads, stores and read-modify-writes of memory. */
  function TransferStep(h: Handler, m: Machine): (m': Machine)
  {
    match h
    case LoadRegPtr(d, p) => LoadRegPtrStep(m, d, p)
    case MovMemReg(s) => MovMemRegStep(m, s)
    case MviRegData(d) => MviRegDataStep(m, d)
    case MviMemData => MviMemDataStep(m)
    case Lda => LdaStep(m)
    case Sta => StaStep(m)
    case StaxPtr(p) => StaxStep(m, p)
    case LxiPair(p) => LxiStep(m, p)
    case Lhld => LhldStep(m)
    case Shld => ShldStep(m)
    case InrMem => InrMemStep(m)
    case DcrMem => DcrMemStep(m)
    case _ => m
  }

  /** The stack, branches and ports. */
  function FlowStep(dev: Devices, h: Handler, m: Machine): (m': Machine)
  {
    match h
    case Xthl => XthlStep(m)
    case Push(p) => PushStep(m, p)
    case Pop(p) => PopStep(m, p)
    case Jmp(cond) => JmpStep(m, cond)
    case Call(cond) => CallStep(m, cond)
    case Ret => RetStep(m)
    case RetCond(cond) => RetCondStep(m, cond)
    case Rst(arg) => RstStep(m, arg)
    case In => InStep(dev, m)
    case Out => OutStep(m)
    case _ => m
  }

  /** Register to register. */
  function RegisterStep(h: Handler, m: Machine): (m': Machine)
  {
    match h
    case MovRegReg(d, s) => MovRegRegStep(m, d, s)
    case Sphl => SphlStep(m)
    case Xchg => XchgStep(m)
    case DadPair(p) => DadStep(m, p)
    case InrReg(d) => InrStep(m, d)
    case DcrReg(d) => DcrStep(m, d)
    case InxPair(p) => InxStep(m, p, 1)
    case DcxPair(p) => InxStep(m, p, -1)
    case Pchl => PchlStep(m)
    case _ => m
  }

  /** One call of the handler selected by the opcode switch. */
  function Handle(dev: Devices, h: Handler, m: Machine): (m': Machine)
  {
    match h
    case LoadRegPtr(_, _) | MovMemReg(_) | MviRegData(_) | MviMemData | Lda | Sta | StaxPtr(_) | LxiPair(_) | Lhld | Shld
       | InrMem | DcrMem => TransferStep(h, m)
    case Xthl | Push(_) | Pop(_) | Jmp(_) | Call(_) | Ret | RetCond(_) | Rst(_) | In | Out => FlowStep(dev, h, m)
    case MovRegReg(_, _) | Sphl | Xchg | DadPair(_) | InrReg(_) | DcrReg(_) | InxPair(_) | DcxPair(_) | Pchl => RegisterStep(h, m)
    case AddMem(_) | SubMem(_) | AnaMem | XraMem | OraMem | CmpMem => MemOperandStep(h, m)
    case Adi(_) | Sbi(_) | Ani | Xri | Ori | Cpi => ImmOperandStep(h, m)
    case Di => DiStep(m)
    case Ei => EiStep(m)
    case Hlt => HltStep(m)
    case _ => SingleCycleStep(h, m)
  }

  // ---- the machine cycle --------------------------------------------------

  /** The interrupt request is latched only while interrupts are enabled. */
  function Latch(m: Machine, irq: bool): (m': Machine)
  {
    m.(cpu := m.cpu.(ints := m.cpu.ints.(iff := m.cpu.ints.iff || (irq && m.cpu.ints.inte))))
  }

  /** An RST 7 starts in this machine cycle instead of a fetch. */
  predicate Accepts(i: Ints, irq: bool)
  {
    i.mc == 0 && (i.iff || (irq && i.inte)) && !i.eiPending
  }

  function Acknowledge(m: Machine): (m': Machine)
  {
    m.(cpu := m.cpu.(hid := m.cpu.hid.(ir := OPCODE_RST7),
                     ints := m.cpu.ints.(inte := false, iff := false, hlta := false)))
  }

  function Fetch(m: Machine): (m': Machine)
  {
    m.(cpu := m.cpu.(regs := NextPc(m.cpu.regs), hid := m.cpu.hid.(ir := Code(m)),
                     ints := m.cpu.ints.(eiPending := false)))
  }

  /** The part of a cycle before the opcode switch: latch, then acknowledge or fetch when MC is 0. */
  function Begin(m: Machine, irq: bool): (m': Machine)
  {
    var m1 := Latch(m, irq);
    if m1.cpu.ints.mc != 0 then m1
    else if m1.cpu.ints.iff && !m1.cpu.ints.eiPending then Acknowledge(m1)
    else Fetch(m1)
  }

  /** MC after a cycle: one more, modulo the length of the instruction. */
  function NextMc(mc: nat, cycles: nat): (r: nat)
    requires cycles > 0
  {
    if mc + 1 < cycles then mc + 1 else (mc + 1 - cycles) % cycles
  }

  /** MC moves on and the clock advances by four. */
  function Advance(m: Machine, cycles: nat): (m': Machine)
    requires cycles > 0
  {
    m.(cpu := m.cpu.(cc := m.cpu.cc + 4, ints := m.cpu.ints.(mc := NextMc(m.cpu.ints.mc, cycles))))
  }

  function Cycle(dev: Devices, m: Machine, irq: bool): (m': Machine)
  {
    var m1 := Begin(m, irq);
    Advance(Handle(dev, Decode(m1.cpu.hid.ir), m1), MCycles(m1.cpu.hid.ir))
  }

  predicate Executed(s: State) { s.ints.mc == 0 || s.ints.hlta }

  function Reset(): (s: State)
  {
    State(0, Regs(0, 0, 0, Flags(false, false, false, false, false, false, true, false), Duo(0, 0), Duo(0, 0), Duo(0, 0)),
          Hidden(0, 0, 0, Duo(0, 0)), Ints(0, false, false, false, false))
  }

  /** The machine after `k` cycles; cycle `i` sees the interrupt line `irq(i)`. */
  function Run(dev: Devices, m: Machine, irq: nat -> bool, k: nat): (m': Machine)
  {
    if k == 0 then m else Cycle(dev, Run(dev, m, irq, k - 1), irq(k - 1))
  }
}
