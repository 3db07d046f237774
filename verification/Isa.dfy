/** The programmer's view of the 8080: each instruction as one atomic step, decoded from its bit
    fields as in chapter 4 of the Intel 8080 Microcomputer Systems User's Manual. Flags are given
    arithmetically. The undocumented opcodes are read as aliases of NOP, JMP, RET and CALL. */
module Isa {
  import opened Bytes
  import opened Memory
  import D = CpuDecode
  import Cpu

  type Regs = Cpu.Regs

  function Duo(h: byte, l: byte): (d: Cpu.Duo) { Cpu.Duo(h, l) }

  /** The DDD/SSS register field; M is the byte addressed by HL. */
  datatype Operand = B | C | D | E | H | L | M | A
  datatype RegPair = BC | DE | HL | SP | PSW
  datatype AluOp = ADD | ADC | SUB | SBB | ANA | XRA | ORA | CMP
  datatype Condition = NZ | Z | NC | CY | PO | PE | P | MI | Unconditional

  type Vector = n: nat | n < 8

  datatype Instr =
    | MOV(d: Operand, s: Operand)
    | MVI(d: Operand)
    | LXI(rp: RegPair)
    | LDA | STA | LHLD | SHLD
    | LDAX(rp: RegPair) | STAX(rp: RegPair)
    | XCHG
    | AluR(op: AluOp, s: Operand)
    | AluI(op: AluOp)
    | INR(d: Operand) | DCR(d: Operand)
    | INX(rp: RegPair) | DCX(rp: RegPair) | DAD(rp: RegPair)
    | DAA | RLC | RRC | RAL | RAR | CMA | STC | CMC
    | JMP(cond: Condition) | CALL(cond: Condition) | RET(cond: Condition)
    | RST(n: Vector) | PCHL
    | PUSH(rp: RegPair) | POP(rp: RegPair) | XTHL | SPHL
    | IN | OUT | EI | DI | HLT | NOP

  function OperandField(n: nat): (r: Operand)
  {
    match n case 0 => B case 1 => C case 2 => D case 3 => E case 4 => H case 5 => L case 6 => M case _ => A
  }

  function PairField(n: nat, last: RegPair): (r: RegPair)
  {
    match n case 0 => BC case 1 => DE case 2 => HL case _ => last
  }

  function AluField(n: nat): (r: AluOp)
  {
    match n case 0 => ADD case 1 => ADC case 2 => SUB case 3 => SBB case 4 => ANA case 5 => XRA case 6 => ORA case _ => CMP
  }

  function ConditionField(n: nat): (r: Condition)
  {
    match n case 0 => NZ case 1 => Z case 2 => NC case 3 => CY case 4 => PO case 5 => PE case 6 => P case _ => MI
  }

  /** Opcode XXYYYZZZ, split into its three fields. */
  function Decode(opcode: byte): (i: Instr)
  {
    var y := opcode / 8 % 8;
    var z := opcode % 8;
    match opcode / 64
    case 0 => DecodeMisc(y, z)
    case 1 => if y == 6 && z == 6 then HLT else MOV(OperandField(y), OperandField(z))
    case 2 => AluR(AluField(y), OperandField(z))
    case _ => DecodeFlow(y, z)
  }

  /** Opcodes 00YYYZZZ. */
  function DecodeMisc(y: nat, z: nat): (i: Instr)
  {
    match z
    case 0 => NOP
    case 1 => if y % 2 == 0 then LXI(PairField(y / 2, SP)) else DAD(PairField(y / 2, SP))
    case 2 => (match y
               case 0 => STAX(BC) case 1 => LDAX(BC) case 2 => STAX(DE) case 3 => LDAX(DE)
               case 4 => SHLD case 5 => LHLD case 6 => STA case _ => LDA)
    case 3 => if y % 2 == 0 then INX(PairField(y / 2, SP)) else DCX(PairField(y / 2, SP))
    case 4 => INR(OperandField(y))
    case 5 => DCR(OperandField(y))
    case 6 => MVI(OperandField(y))
    case _ => (match y
               case 0 => RLC case 1 => RRC case 2 => RAL case 3 => RAR
               case 4 => DAA case 5 => CMA case 6 => STC case _ => CMC)
  }

  /** Opcodes 11YYYZZZ. */
  function DecodeFlow(y: nat, z: nat): (i: Instr)
    requires y < 8
  {
    match z
    case 0 => RET(ConditionField(y))
    case 1 => if y % 2 == 0 then POP(PairField(y / 2, PSW))
              else (match y / 2 case 0 => RET(Unconditional) case 1 => RET(Unconditional) case 2 => PCHL case _ => SPHL)
    case 2 => JMP(ConditionField(y))
    case 3 => (match y
               case 0 => JMP(Unconditional) case 1 => JMP(Unconditional) case 2 => OUT case 3 => IN
               case 4 => XTHL case 5 => XCHG case 6 => DI case _ => EI)
    case 4 => CALL(ConditionField(y))
    case 5 => if y % 2 == 0 then PUSH(PairField(y / 2, PSW)) else CALL(Unconditional)
    case 6 => AluI(AluField(y))
    case _ => RST(y)
  }

  /** Registers, flags, memory and port traffic: everything a program can observe. */
  datatype Arch = Arch(regs: Regs, inte: bool, mem: Mem, ports: seq<Cpu.PortEvent>)

  function HighByte(r: Regs, rp: RegPair): (v: byte)
  {
    match rp
    case BC => r.bc.h
    case DE => r.de.h
    case HL => r.hl.h
    case SP => r.sp / 0x100
    case PSW => r.a
  }

  function LowByte(r: Regs, rp: RegPair): (v: byte)
  {
    match rp
    case BC => r.bc.l
    case DE => r.de.l
    case HL => r.hl.l
    case SP => r.sp % 0x100
    case PSW => Cpu.FlagByte(r.f)
  }

  function Address(r: Regs, rp: RegPair): (w: word) { if rp == SP then r.sp else Word(HighByte(r, rp), LowByte(r, rp)) }

  /** Load a pair with a high and a low byte; bits 1, 3 and 5 of F are constant. */
  function SetPair(r: Regs, rp: RegPair, h: byte, l: byte): (r': Regs)
  {
    match rp
    case BC => r.(bc := Duo(h, l))
    case DE => r.(de := Duo(h, l))
    case HL => r.(hl := Duo(h, l))
    case SP => r.(sp := Word(h, l))
    case PSW => r.(a := h, f := Cpu.Masked(Cpu.FlagsOf(l)))
  }

  function SetPairWord(r: Regs, rp: RegPair, w: word): (r': Regs) { SetPair(r, rp, w / 0x100, w % 0x100) }

  function Get(s: Arch, o: Operand): (v: byte)
  {
    match o
    case B => s.regs.bc.h
    case C => s.regs.bc.l
    case D => s.regs.de.h
    case E => s.regs.de.l
    case H => s.regs.hl.h
    case L => s.regs.hl.l
    case A => s.regs.a
    case M => Read(s.mem, Address(s.regs, HL), Data)
  }

  function WithRegs(s: Arch, r: Regs): (s': Arch) { s.(regs := r) }

  function Set(s: Arch, o: Operand, v: byte): (s': Arch)
  {
    var r := s.regs;
    match o
    case B => WithRegs(s, r.(bc := Duo(v, r.bc.l)))
    case C => WithRegs(s, r.(bc := Duo(r.bc.h, v)))
    case D => WithRegs(s, r.(de := Duo(v, r.de.l)))
    case E => WithRegs(s, r.(de := Duo(r.de.h, v)))
    case H => WithRegs(s, r.(hl := Duo(v, r.hl.l)))
    case L => WithRegs(s, r.(hl := Duo(r.hl.h, v)))
    case A => WithRegs(s, r.(a := v))
    case M => s.(mem := Write(s.mem, Address(r, HL), v, Data))
  }

  /** The bytes following the opcode. */
  function Byte2(s: Arch): (v: byte)
  {
    Read(s.mem, Wrap(s.regs.pc + 1), Data)
  }

  function Byte3(s: Arch): (v: byte)
  {
    Read(s.mem, Wrap(s.regs.pc + 2), Data)
  }

  /** The 16-bit operand, low byte first. */
  function Data16(s: Arch): (w: word)
  {
    Word(Byte3(s), Byte2(s))
  }

  /** The two bytes on top of the stack. */
  function TopLow(s: Arch): (v: byte)
  {
    Read(s.mem, s.regs.sp, Stack)
  }

  function TopHigh(s: Arch): (v: byte)
  {
    Read(s.mem, Wrap(s.regs.sp + 1), Stack)
  }

  /** The high byte goes to SP-1, the low byte to SP-2. */
  function PushBytes(s: Arch, h: byte, l: byte): (s': Arch)
  {
    var sp := s.regs.sp;
    var m := Write(Write(s.mem, Wrap(sp - 1), h, Stack), Wrap(sp - 2), l, Stack);
    s.(mem := m, regs := s.regs.(sp := Wrap(sp - 2)))
  }

  predicate Met(f: Cpu.Flags, cond: Condition)
  {
    match cond
    case NZ => !f.z case Z => f.z case NC => !f.c case CY => f.c
    case PO => !f.p case PE => f.p case P => !f.s case MI => f.s
    case Unconditional => true
  }

  /** The number of set bits of `n`. */
  function Ones(n: nat): (r: nat) { if n == 0 then 0 else n % 2 + Ones(n / 2) }

  /** Sign, zero and even-parity flags of a result. */
  function Szp(f: Cpu.Flags, v: byte): (f': Cpu.Flags)
  {
    f.(s := v >= 0x80, z := v == 0, p := Ones(v) % 2 == 0)
  }

  /** The flags of an 8-bit addition: the carry is the ninth bit, the auxiliary carry comes out of the low digit. */
  function PlusFlags(f: Cpu.Flags, x: byte, y: byte, cin: nat): (r: Cpu.Flags)
  {
    Szp(f, (x + y + cin) % 0x100).(c := x + y + cin >= 0x100, ac := x % 16 + y % 16 + cin >= 16)
  }

  /** The flags of an 8-bit subtraction: carry means borrow, the auxiliary carry is set when the low digit does not borrow. */
  function MinusFlags(f: Cpu.Flags, x: byte, y: byte, borrow: nat): (r: Cpu.Flags)
  {
    Szp(f, (x - y - borrow) % 0x100).(c := x < y + borrow, ac := x % 16 >= y % 16 + borrow)
  }

  function Alu(r: Regs, op: AluOp, v: byte): (r': Regs)
  {
    var cin := if r.f.c then 1 else 0;
    match op
    case ADD => r.(a := (r.a + v) % 0x100, f := PlusFlags(r.f, r.a, v, 0))
    case ADC => r.(a := (r.a + v + cin) % 0x100, f := PlusFlags(r.f, r.a, v, cin))
    case SUB => r.(a := (r.a - v) % 0x100, f := MinusFlags(r.f, r.a, v, 0))
    case SBB => r.(a := (r.a - v - cin) % 0x100, f := MinusFlags(r.f, r.a, v, cin))
    case CMP => r.(f := MinusFlags(r.f, r.a, v, 0))
    case ANA => r.(a := AndByte(r.a, v), f := Szp(r.f, AndByte(r.a, v)).(c := false, ac := Bit(OrByte(r.a, v), 3)))
    case XRA => r.(a := XorByte(r.a, v), f := Szp(r.f, XorByte(r.a, v)).(c := false, ac := false))
    case ORA => r.(a := OrByte(r.a, v), f := Szp(r.f, OrByte(r.a, v)).(c := false, ac := false))
  }

  /** Decimal adjust: 6 is added to a digit above nine or with a carry out of it, low digit first. */
  function Adjust(r: Regs): (r': Regs)
  {
    var low := if r.a % 16 > 9 || r.f.ac then 6 else 0;
    var high := r.f.c || r.a + low > 0x9F;
    var y := low + (if high then 0x60 else 0);
    r.(a := (r.a + y) % 0x100, f := PlusFlags(r.f, r.a, y, 0).(c := high))
  }

  /** PC moves `len` bytes on. */
  function Next(s: Arch, len: nat): (s': Arch)
    requires len <= 3
  {
    s.(regs := s.regs.(pc := Wrap(s.regs.pc + len)))
  }

  function Jump(s: Arch, addr: word): (s': Arch)
  {
    s.(regs := s.regs.(pc := addr))
  }

  function ExecInr(s: Arch, d: Operand): (s': Arch)
  {
    var v := Get(s, d);
    var t := Set(s, d, (v + 1) % 0x100);
    Next(WithRegs(t, t.regs.(f := PlusFlags(s.regs.f, v, 1, 0).(c := s.regs.f.c))), 1)
  }

  function ExecDcr(s: Arch, d: Operand): (s': Arch)
  {
    var v := Get(s, d);
    var t := Set(s, d, (v - 1) % 0x100);
    Next(WithRegs(t, t.regs.(f := MinusFlags(s.regs.f, v, 1, 0).(c := s.regs.f.c))), 1)
  }

  function ExecDad(s: Arch, rp: RegPair): (s': Arch)
  {
    var sum := Address(s.regs, HL) + Address(s.regs, rp);
    var r := SetPairWord(s.regs, HL, Wrap(sum));
    Next(WithRegs(s, r.(f := s.regs.f.(c := sum >= 0x1_0000))), 1)
  }

  /** Rotates and the other one-byte accumulator and flag instructions. */
  function ExecAcc(i: Instr, r: Regs): (r': Regs)
  {
    match i
    case DAA => Adjust(r)
    case CMA => r.(a := 255 - r.a)
    case STC => r.(f := r.f.(c := true))
    case CMC => r.(f := r.f.(c := !r.f.c))
    case RLC => r.(a := r.a % 0x80 * 2 + r.a / 0x80, f := r.f.(c := r.a / 0x80 == 1))
    case RRC => r.(a := r.a % 2 * 0x80 + r.a / 2, f := r.f.(c := r.a % 2 == 1))
    case RAL => r.(a := r.a % 0x80 * 2 + (if r.f.c then 1 else 0), f := r.f.(c := r.a / 0x80 == 1))
    case RAR => r.(a := (if r.f.c then 0x80 else 0) + r.a / 2, f := r.f.(c := r.a % 2 == 1))
    case _ => r
  }

  function ExecLhld(s: Arch): (s': Arch)
  {
    var hl := Duo(Read(s.mem, Wrap(Data16(s) + 1), Data), Read(s.mem, Data16(s), Data));
    Next(WithRegs(s, s.regs.(hl := hl)), 3)
  }

  function ExecShld(s: Arch): (s': Arch)
  {
    var m := Write(Write(s.mem, Data16(s), s.regs.hl.l, Data), Wrap(Data16(s) + 1), s.regs.hl.h, Data);
    Next(s.(mem := m), 3)
  }

  /** The word on top of the stack and HL change places. */
  function ExecXthl(s: Arch): (s': Arch)
  {
    var sp := s.regs.sp;
    var m := Write(Write(s.mem, sp, s.regs.hl.l, Stack), Wrap(sp + 1), s.regs.hl.h, Stack);
    Next(s.(mem := m, regs := s.regs.(hl := Duo(TopHigh(s), TopLow(s)))), 1)
  }

  function ExecPush(s: Arch, rp: RegPair): (s': Arch)
  {
    Next(PushBytes(s, HighByte(s.regs, rp), LowByte(s.regs, rp)), 1)
  }

  function ExecPop(s: Arch, rp: RegPair): (s': Arch)
  {
    Next(WithRegs(s, SetPair(s.regs, rp, TopHigh(s), TopLow(s)).(sp := Wrap(s.regs.sp + 2))), 1)
  }

  function ExecJmp(s: Arch, cond: Condition): (s': Arch)
  {
    if Met(s.regs.f, cond) then Jump(s, Data16(s)) else Next(s, 3)
  }

  function ExecCall(s: Arch, cond: Condition): (s': Arch)
  {
    var ret := Wrap(s.regs.pc + 3);
    if Met(s.regs.f, cond) then Jump(PushBytes(s, ret / 0x100, ret % 0x100), Data16(s)) else Next(s, 3)
  }

  function ExecRet(s: Arch, cond: Condition): (s': Arch)
  {
    if Met(s.regs.f, cond) then
      Jump(WithRegs(s, s.regs.(sp := Wrap(s.regs.sp + 2))), Word(TopHigh(s), TopLow(s)))
    else Next(s, 1)
  }

  function ExecRst(s: Arch, n: nat): (s': Arch)
    requires n < 8
  {
    var ret := Wrap(s.regs.pc + 1);
    Jump(PushBytes(s, ret / 0x100, ret % 0x100), 8 * n)
  }

  function ExecIn(dev: Cpu.Devices, s: Arch): (s': Arch)
  {
    var v := dev(s.ports, Byte2(s));
    Next(s.(regs := s.regs.(a := v), ports := s.ports + [Cpu.PortIn(Byte2(s), v)]), 2)
  }

  function ExecMov(s: Arch, d: Operand, o: Operand): (s': Arch)
  {
    Next(Set(s, d, Get(s, o)), 1)
  }

  function ExecMvi(s: Arch, d: Operand): (s': Arch)
  {
    Next(Set(s, d, Byte2(s)), 2)
  }

  function ExecLxi(s: Arch, rp: RegPair): (s': Arch)
  {
    Next(WithRegs(s, SetPair(s.regs, rp, Byte3(s), Byte2(s))), 3)
  }

  function ExecLda(s: Arch): (s': Arch)
  {
    Next(WithRegs(s, s.regs.(a := Read(s.mem, Data16(s), Data))), 3)
  }

  function ExecSta(s: Arch): (s': Arch)
  {
    Next(s.(mem := Write(s.mem, Data16(s), s.regs.a, Data)), 3)
  }

  function ExecLdax(s: Arch, rp: RegPair): (s': Arch)
  {
    Next(WithRegs(s, s.regs.(a := Read(s.mem, Address(s.regs, rp), Data))), 1)
  }

  function ExecStax(s: Arch, rp: RegPair): (s': Arch)
  {
    Next(s.(mem := Write(s.mem, Address(s.regs, rp), s.regs.a, Data)), 1)
  }

  function ExecXchg(s: Arch): (s': Arch)
  {
    Next(WithRegs(s, s.regs.(hl := s.regs.de, de := s.regs.hl)), 1)
  }

  function ExecAluR(s: Arch, op: AluOp, o: Operand): (s': Arch)
  {
    Next(WithRegs(s, Alu(s.regs, op, Get(s, o))), 1)
  }

  function ExecAluI(s: Arch, op: AluOp): (s': Arch)
  {
    Next(WithRegs(s, Alu(s.regs, op, Byte2(s))), 2)
  }

  function ExecInx(s: Arch, rp: RegPair, delta: int): (s': Arch)
    requires delta == 1 || delta == -1
  {
    Next(WithRegs(s, SetPairWord(s.regs, rp, Wrap(Address(s.regs, rp) + delta))), 1)
  }

  function ExecAccumulator(s: Arch, i: Instr): (s': Arch)
  {
    Next(WithRegs(s, ExecAcc(i, s.regs)), 1)
  }

  function ExecPchl(s: Arch): (s': Arch)
  {
    Jump(s, Address(s.regs, HL))
  }

  function ExecSphl(s: Arch): (s': Arch)
  {
    Next(WithRegs(s, s.regs.(sp := Address(s.regs, HL))), 1)
  }

  function ExecOut(s: Arch): (s': Arch)
  {
    Next(s.(ports := s.ports + [Cpu.PortOut(Byte2(s), s.regs.a)]), 2)
  }

  function ExecInte(s: Arch, inte: bool): (s': Arch)
  {
    Next(s.(inte := inte), 1)
  }

  /** Data transfer. */
  function ExecMoves(i: Instr, s: Arch): (s': Arch)
  {
    match i
    case MOV(d, o) => ExecMov(s, d, o)
    case MVI(d) => ExecMvi(s, d)
    case LXI(rp) => ExecLxi(s, rp)
    case LDA => ExecLda(s)
    case STA => ExecSta(s)
    case LHLD => ExecLhld(s)
    case SHLD => ExecShld(s)
    case LDAX(rp) => ExecLdax(s, rp)
    case STAX(rp) => ExecStax(s, rp)
    case XCHG => ExecXchg(s)
    case _ => s
  }

  /** Arithmetic and logic. */
  function ExecCompute(i: Instr, s: Arch): (s': Arch)
  {
    match i
    case AluR(op, o) => ExecAluR(s, op, o)
    case AluI(op) => ExecAluI(s, op)
    case INR(d) => ExecInr(s, d)
    case DCR(d) => ExecDcr(s, d)
    case INX(rp) => ExecInx(s, rp, 1)
    case DCX(rp) => ExecInx(s, rp, -1)
    case DAD(rp) => ExecDad(s, rp)
    case DAA | CMA | STC | CMC | RLC | RRC | RAL | RAR => ExecAccumulator(s, i)
    case _ => s
  }

  /** Branches, the stack, ports and machine control. */
  function ExecFlow(dev: Cpu.Devices, i: Instr, s: Arch): (s': Arch)
  {
    match i
    case JMP(cond) => ExecJmp(s, cond)
    case CALL(cond) => ExecCall(s, cond)
    case RET(cond) => ExecRet(s, cond)
    case RST(n) => ExecRst(s, n)
    case PCHL => ExecPchl(s)
    case PUSH(rp) => ExecPush(s, rp)
    case POP(rp) => ExecPop(s, rp)
    case XTHL => ExecXthl(s)
    case SPHL => ExecSphl(s)
    case IN => ExecIn(dev, s)
    case OUT => ExecOut(s)
    case EI => ExecInte(s, true)
    case DI => ExecInte(s, false)
    case _ => Next(s, 1)
  }

  function Exec(dev: Cpu.Devices, i: Instr, s: Arch): (s': Arch)
  {
    match i
    case MOV(_, _) | MVI(_) | LXI(_) | LDA | STA | LHLD | SHLD | LDAX(_) | STAX(_) | XCHG => ExecMoves(i, s)
    case AluR(_, _) | AluI(_) | INR(_) | DCR(_) | INX(_) | DCX(_) | DAD(_)
       | DAA | CMA | STC | CMC | RLC | RRC | RAL | RAR => ExecCompute(i, s)
    case _ => ExecFlow(dev, i, s)
  }

  predicate IsAccumulating(i: Instr) { match i case DAA | CMA | STC | CMC | RLC | RRC | RAL | RAR => true case _ => false }

  lemma ExecMoveCases(dev: Cpu.Devices, i: Instr, s: Arch)
    ensures i.MOV? ==> Exec(dev, i, s) == ExecMov(s, i.d, i.s)
    ensures i.MVI? ==> Exec(dev, i, s) == ExecMvi(s, i.d)
    ensures i.LXI? ==> Exec(dev, i, s) == ExecLxi(s, i.rp)
    ensures i.LDA? ==> Exec(dev, i, s) == ExecLda(s)
    ensures i.STA? ==> Exec(dev, i, s) == ExecSta(s)
    ensures i.LHLD? ==> Exec(dev, i, s) == ExecLhld(s)
    ensures i.SHLD? ==> Exec(dev, i, s) == ExecShld(s)
    ensures i.LDAX? ==> Exec(dev, i, s) == ExecLdax(s, i.rp)
    ensures i.STAX? ==> Exec(dev, i, s) == ExecStax(s, i.rp)
    ensures i.XCHG? ==> Exec(dev, i, s) == ExecXchg(s)
  {
    hide ExecMov, ExecMvi, ExecLxi, ExecLda, ExecSta, ExecLhld, ExecShld, ExecLdax, ExecStax, ExecXchg,
      ExecCompute, ExecFlow;
  }

  lemma ExecComputeCases(dev: Cpu.Devices, i: Instr, s: Arch)
    ensures i.AluR? ==> Exec(dev, i, s) == ExecAluR(s, i.op, i.s)
    ensures i.AluI? ==> Exec(dev, i, s) == ExecAluI(s, i.op)
    ensures i.INR? ==> Exec(dev, i, s) == ExecInr(s, i.d)
    ensures i.DCR? ==> Exec(dev, i, s) == ExecDcr(s, i.d)
    ensures i.INX? ==> Exec(dev, i, s) == ExecInx(s, i.rp, 1)
    ensures i.DCX? ==> Exec(dev, i, s) == ExecInx(s, i.rp, -1)
    ensures i.DAD? ==> Exec(dev, i, s) == ExecDad(s, i.rp)
    ensures IsAccumulating(i) ==> Exec(dev, i, s) == ExecAccumulator(s, i)
  {
    hide ExecAluR, ExecAluI, ExecInr, ExecDcr, ExecInx, ExecDad, ExecAccumulator, ExecMoves, ExecFlow;
  }

  lemma ExecBranchCases(dev: Cpu.Devices, i: Instr, s: Arch)
    ensures i.JMP? ==> Exec(dev, i, s) == ExecJmp(s, i.cond)
    ensures i.CALL? ==> Exec(dev, i, s) == ExecCall(s, i.cond)
    ensures i.RET? ==> Exec(dev, i, s) == ExecRet(s, i.cond)
    ensures i.RST? ==> Exec(dev, i, s) == ExecRst(s, i.n)
    ensures i.PCHL? ==> Exec(dev, i, s) == ExecPchl(s)
  {
    hide ExecJmp, ExecCall, ExecRet, ExecRst, ExecPchl, ExecPush, ExecPop, ExecXthl, ExecSphl, ExecIn, ExecOut, ExecInte, Next,
      ExecMoves, ExecCompute;
  }

  lemma ExecStackCases(dev: Cpu.Devices, i: Instr, s: Arch)
    ensures i.PUSH? ==> Exec(dev, i, s) == ExecPush(s, i.rp)
    ensures i.POP? ==> Exec(dev, i, s) == ExecPop(s, i.rp)
    ensures i.XTHL? ==> Exec(dev, i, s) == ExecXthl(s)
    ensures i.SPHL? ==> Exec(dev, i, s) == ExecSphl(s)
  {
    hide ExecJmp, ExecCall, ExecRet, ExecRst, ExecPchl, ExecPush, ExecPop, ExecXthl, ExecSphl, ExecIn, ExecOut, ExecInte, Next,
      ExecMoves, ExecCompute;
  }

  lemma ExecControlCases(dev: Cpu.Devices, i: Instr, s: Arch)
    ensures i.IN? ==> Exec(dev, i, s) == ExecIn(dev, s)
    ensures i.OUT? ==> Exec(dev, i, s) == ExecOut(s)
    ensures i.EI? ==> Exec(dev, i, s) == ExecInte(s, true)
    ensures i.DI? ==> Exec(dev, i, s) == ExecInte(s, false)
    ensures i.NOP? || i.HLT? ==> Exec(dev, i, s) == Next(s, 1)
  {
    hide ExecJmp, ExecCall, ExecRet, ExecRst, ExecPchl, ExecPush, ExecPop, ExecXthl, ExecSphl, ExecIn, ExecOut, ExecInte, Next,
      ExecMoves, ExecCompute;
  }

  /** The instruction under PC. */
  function Current(s: Arch): (i: Instr)
  {
    Decode(Read(s.mem, s.regs.pc, Data))
  }

  function Step(dev: Cpu.Devices, s: Arch): (s': Arch)
  {
    Exec(dev, Current(s), s)
  }

  /** `n` instructions in sequence. */
  function Steps(dev: Cpu.Devices, s: Arch, n: nat): (s': Arch)
  {
    if n == 0 then s else Step(dev, Steps(dev, s, n - 1))
  }

  // ---- from handlers to instructions --------------------------------------

  function OfReg(r: D.Reg): (o: Operand)
  {
    match r case A => A case B => B case C => C case D => D case E => E case H => H case L => L
  }

  function OfPair(p: D.Pair): (r: RegPair)
  {
    match p case BC => BC case DE => DE case HL => HL case SP => SP case PSW => PSW
  }

  function OfCond(c: D.Cond): (r: Condition)
  {
    match c
    case Always => Unconditional case NotZero => NZ case Zero => Z case NoCarry => NC case Carry => CY
    case ParityOdd => PO case ParityEven => PE case Plus => P case Minus => MI
  }

  /** The instruction a handler call is meant to carry out. */
  function Meaning(h: D.Handler): (i: Instr)
  {
    match h
    case MovRegReg(d, s) => MOV(OfReg(d), OfReg(s))
    case LoadRegPtr(d, p) => if p == D.HL then MOV(OfReg(d), M) else LDAX(OfPair(p))
    case MovMemReg(s) => MOV(M, OfReg(s))
    case MviRegData(d) => MVI(OfReg(d))
    case MviMemData => MVI(M)
    case Lda => LDA
    case Sta => STA
    case StaxPtr(p) => STAX(OfPair(p))
    case LxiPair(p) => LXI(OfPair(p))
    case Lhld => LHLD
    case Shld => SHLD
    case Sphl => SPHL
    case Xchg => XCHG
    case Xthl => XTHL
    case Push(p) => PUSH(OfPair(p))
    case Pop(p) => POP(OfPair(p))
    case AddReg(s, cy) => AluR(if cy then ADC else ADD, OfReg(s))
    case AddMem(cy) => AluR(if cy then ADC else ADD, M)
    case Adi(cy) => AluI(if cy then ADC else ADD)
    case SubReg(s, cy) => AluR(if cy then SBB else SUB, OfReg(s))
    case SubMem(cy) => AluR(if cy then SBB else SUB, M)
    case Sbi(cy) => AluI(if cy then SBB else SUB)
    case DadPair(p) => DAD(OfPair(p))
    case InrReg(d) => INR(OfReg(d))
    case InrMem => INR(M)
    case DcrReg(d) => DCR(OfReg(d))
    case DcrMem => DCR(M)
    case InxPair(p) => INX(OfPair(p))
    case DcxPair(p) => DCX(OfPair(p))
    case Daa => DAA
    case Cma => CMA
    case Stc => STC
    case Cmc => CMC
    case Rlc => RLC
    case Rrc => RRC
    case Ral => RAL
    case Rar => RAR
    case AnaReg(s) => AluR(ANA, OfReg(s))
    case AnaMem => AluR(ANA, M)
    case Ani => AluI(ANA)
    case XraReg(s) => AluR(XRA, OfReg(s))
    case XraMem => AluR(XRA, M)
    case Xri => AluI(XRA)
    case OraReg(s) => AluR(ORA, OfReg(s))
    case OraMem => AluR(ORA, M)
    case Ori => AluI(ORA)
    case CmpReg(s) => AluR(CMP, OfReg(s))
    case CmpMem => AluR(CMP, M)
    case Cpi => AluI(CMP)
    case Jmp(c) => JMP(OfCond(c))
    case Pchl => PCHL
    case Call(c) => CALL(OfCond(c))
    case Ret => RET(Unconditional)
    case RetCond(c) => RET(OfCond(c))
    case Rst(n) => RST(if n < 8 then n else 0)
    case In => IN
    case Out => OUT
    case Di => DI
    case Ei => EI
    case Hlt => HLT
    case Nop => NOP
  }

  /** Operand combinations that the opcode switch produces. */
  predicate Proper(h: D.Handler)
  {
    match h
    case LoadRegPtr(d, p) => p == D.HL || (d == D.A && (p == D.BC || p == D.DE))
    case StaxPtr(p) => p == D.BC || p == D.DE
    case LxiPair(p) => p != D.PSW
    case DadPair(p) => p != D.PSW
    case InxPair(p) => p != D.PSW
    case DcxPair(p) => p != D.PSW
    case Push(p) => p != D.SP
    case Pop(p) => p != D.SP
    case RetCond(c) => c != D.Always
    case Rst(n) => n < 8
    case _ => true
  }

  /** Machine cycles of a handler as documented for the Vector-06C; opcode 0x75 is tabulated as 1 instead of 2. */
  function HandlerCycles(h: D.Handler): (n: nat)
    ensures 1 <= n <= 6
  {
    match h
    case Xchg | AddReg(_, _) | SubReg(_, _) | Daa | Cma | Stc | Cmc | Rlc | Rrc | Ral | Rar
      | AnaReg(_) | XraReg(_) | OraReg(_) | CmpReg(_) | Di | Ei | Nop => 1
    case MviMemData | LxiPair(_) | Pop(_) | DadPair(_) | InrMem | DcrMem | Jmp(_) | Ret | In | Out => 3
    case Lda | Sta | Push(_) | RetCond(_) | Rst(_) => 4
    case Lhld | Shld => 5
    case Xthl | Call(_) => 6
    case _ => 2
  }

  /** The handler of an opcode means the instruction its bit fields name, and takes the cycles of the table. */
  predicate Agrees(opcode: byte, h: D.Handler) { Means(opcode, h) && Takes(opcode, h) }

  predicate Means(opcode: byte, h: D.Handler) { Meaning(h) == Decode(opcode) && Proper(h) }

  predicate Takes(opcode: byte, h: D.Handler) { opcode != D.OPCODE_MOV_M_L ==> D.MCycles(opcode) == HandlerCycles(h) }

  lemma Row00Means(opcode: byte)
    requires opcode / 8 == 0
    ensures Means(opcode, D.Decode(opcode))
  {
    hide D.MoveRow, D.AluRow, D.FlowRow, DecodeFlow;
    assert opcode / 64 == 0 && opcode / 8 % 8 == 0;
  }

  lemma Row00Takes(opcode: byte)
    requires opcode / 8 == 0
    ensures Takes(opcode, D.Decode(opcode))
  {
    hide D.MoveRow, D.AluRow, D.FlowRow, D.MoveCycles, D.AluCycles, D.FlowCycles;
    assert opcode / 64 == 0 && opcode / 8 % 8 == 0 && opcode / 16 == 0 && opcode % 16 == opcode % 8;
  }

  lemma Row08Means(opcode: byte)
    requires opcode / 8 == 1
    ensures Means(opcode, D.Decode(opcode))
  {
    hide D.MoveRow, D.AluRow, D.FlowRow, DecodeFlow;
    assert opcode / 64 == 0 && opcode / 8 % 8 == 1;
  }

  lemma Row08Takes(opcode: byte)
    requires opcode / 8 == 1
    ensures Takes(opcode, D.Decode(opcode))
  {
    hide D.MoveRow, D.AluRow, D.FlowRow, D.MoveCycles, D.AluCycles, D.FlowCycles;
    assert opcode / 64 == 0 && opcode / 8 % 8 == 1 && opcode / 16 == 0 && opcode % 16 == 8 + opcode % 8;
  }

  lemma Row10Means(opcode: byte)
    requires opcode / 8 == 2
    ensures Means(opcode, D.Decode(opcode))
  {
    hide D.MoveRow, D.AluRow, D.FlowRow, DecodeFlow;
    assert opcode / 64 == 0 && opcode / 8 % 8 == 2;
  }

  lemma Row10Takes(opcode: byte)
    requires opcode / 8 == 2
    ensures Takes(opcode, D.Decode(opcode))
  {
    hide D.MoveRow, D.AluRow, D.FlowRow, D.MoveCycles, D.AluCycles, D.FlowCycles;
    assert opcode / 64 == 0 && opcode / 8 % 8 == 2 && opcode / 16 == 1 && opcode % 16 == opcode % 8;
  }

  lemma Row18Means(opcode: byte)
    requires opcode / 8 == 3
    ensures Means(opcode, D.Decode(opcode))
  {
    hide D.MoveRow, D.AluRow, D.FlowRow, DecodeFlow;
    assert opcode / 64 == 0 && opcode / 8 % 8 == 3;
  }

  lemma Row18Takes(opcode: byte)
    requires opcode / 8 == 3
    ensures Takes(opcode, D.Decode(opcode))
  {
    hide D.MoveRow, D.AluRow, D.FlowRow, D.MoveCycles, D.AluCycles, D.FlowCycles;
    assert opcode / 64 == 0 && opcode / 8 % 8 == 3 && opcode / 16 == 1 && opcode % 16 == 8 + opcode % 8;
  }

  lemma Row20Means(opcode: byte)
    requires opcode / 8 == 4
    ensures Means(opcode, D.Decode(opcode))
  {
    hide D.MoveRow, D.AluRow, D.FlowRow, DecodeFlow;
    assert opcode / 64 == 0 && opcode / 8 % 8 == 4;
  }

  lemma Row20Takes(opcode: byte)
    requires opcode / 8 == 4
    ensures Takes(opcode, D.Decode(opcode))
  {
    hide D.MoveRow, D.AluRow, D.FlowRow, D.MoveCycles, D.AluCycles, D.FlowCycles;
    assert opcode / 64 == 0 && opcode / 8 % 8 == 4 && opcode / 16 == 2 && opcode % 16 == opcode % 8;
  }

  lemma Row28Means(opcode: byte)
    requires opcode / 8 == 5
    ensures Means(opcode, D.Decode(opcode))
  {
    hide D.MoveRow, D.AluRow, D.FlowRow, DecodeFlow;
    assert opcode / 64 == 0 && opcode / 8 % 8 == 5;
  }

  lemma Row28Takes(opcode: byte)
    requires opcode / 8 == 5
    ensures Takes(opcode, D.Decode(opcode))
  {
    hide D.MoveRow, D.AluRow, D.FlowRow, D.MoveCycles, D.AluCycles, D.FlowCycles;
    assert opcode / 64 == 0 && opcode / 8 % 8 == 5 && opcode / 16 == 2 && opcode % 16 == 8 + opcode % 8;
  }

  lemma Row30Means(opcode: byte)
    requires opcode / 8 == 6
    ensures Means(opcode, D.Decode(opcode))
  {
    hide D.MoveRow, D.AluRow, D.FlowRow, DecodeFlow;
    assert opcode / 64 == 0 && opcode / 8 % 8 == 6;
  }

  lemma Row30Takes(opcode: byte)
    requires opcode / 8 == 6
    ensures Takes(opcode, D.Decode(opcode))
  {
    hide D.MoveRow, D.AluRow, D.FlowRow, D.MoveCycles, D.AluCycles, D.FlowCycles;
    assert opcode / 64 == 0 && opcode / 8 % 8 == 6 && opcode / 16 == 3 && opcode % 16 == opcode % 8;
  }

  lemma Row38Means(opcode: byte)
    requires opcode / 8 == 7
    ensures Means(opcode, D.Decode(opcode))
  {
    hide D.MoveRow, D.AluRow, D.FlowRow, DecodeFlow;
    assert opcode / 64 == 0 && opcode / 8 % 8 == 7;
  }

  lemma Row38Takes(opcode: byte)
    requires opcode / 8 == 7
    ensures Takes(opcode, D.Decode(opcode))
  {
    hide D.MoveRow, D.AluRow, D.FlowRow, D.MoveCycles, D.AluCycles, D.FlowCycles;
    assert opcode / 64 == 0 && opcode / 8 % 8 == 7 && opcode / 16 == 3 && opcode % 16 == 8 + opcode % 8;
  }

  lemma Row40Means(opcode: byte)
    requires opcode / 8 == 8
    ensures Means(opcode, D.Decode(opcode))
  {
    hide D.MiscRow, D.AluRow, D.FlowRow, DecodeFlow, DecodeMisc;
    assert opcode / 64 == 1 && opcode / 8 % 8 == 0;
  }

  lemma Row40Takes(opcode: byte)
    requires opcode / 8 == 8
    ensures Takes(opcode, D.Decode(opcode))
  {
    hide D.MiscRow, D.AluRow, D.FlowRow, D.MiscCycles, D.AluCycles, D.FlowCycles;
    assert opcode / 64 == 1 && opcode / 8 % 8 == 0 && opcode / 16 == 4 && opcode % 16 == opcode % 8;
  }

  lemma Row48Means(opcode: byte)
    requires opcode / 8 == 9
    ensures Means(opcode, D.Decode(opcode))
  {
    hide D.MiscRow, D.AluRow, D.FlowRow, DecodeFlow, DecodeMisc;
    assert opcode / 64 == 1 && opcode / 8 % 8 == 1;
  }

  lemma Row48Takes(opcode: byte)
    requires opcode / 8 == 9
    ensures Takes(opcode, D.Decode(opcode))
  {
    hide D.MiscRow, D.AluRow, D.FlowRow, D.MiscCycles, D.AluCycles, D.FlowCycles;
    assert opcode / 64 == 1 && opcode / 8 % 8 == 1 && opcode / 16 == 4 && opcode % 16 == 8 + opcode % 8;
  }

  lemma Row50Means(opcode: byte)
    requires opcode / 8 == 10
    ensures Means(opcode, D.Decode(opcode))
  {
    hide D.MiscRow, D.AluRow, D.FlowRow, DecodeFlow, DecodeMisc;
    assert opcode / 64 == 1 && opcode / 8 % 8 == 2;
  }

  lemma Row50Takes(opcode: byte)
    requires opcode / 8 == 10
    ensures Takes(opcode, D.Decode(opcode))
  {
    hide D.MiscRow, D.AluRow, D.FlowRow, D.MiscCycles, D.AluCycles, D.FlowCycles;
    assert opcode / 64 == 1 && opcode / 8 % 8 == 2 && opcode / 16 == 5 && opcode % 16 == opcode % 8;
  }

  lemma Row58Means(opcode: byte)
    requires opcode / 8 == 11
    ensures Means(opcode, D.Decode(opcode))
  {
    hide D.MiscRow, D.AluRow, D.FlowRow, DecodeFlow, DecodeMisc;
    assert opcode / 64 == 1 && opcode / 8 % 8 == 3;
  }

  lemma Row58Takes(opcode: byte)
    requires opcode / 8 == 11
    ensures Takes(opcode, D.Decode(opcode))
  {
    hide D.MiscRow, D.AluRow, D.FlowRow, D.MiscCycles, D.AluCycles, D.FlowCycles;
    assert opcode / 64 == 1 && opcode / 8 % 8 == 3 && opcode / 16 == 5 && opcode % 16 == 8 + opcode % 8;
  }

  lemma Row60Means(opcode: byte)
    requires opcode / 8 == 12
    ensures Means(opcode, D.Decode(opcode))
  {
    hide D.MiscRow, D.AluRow, D.FlowRow, DecodeFlow, DecodeMisc;
    assert opcode / 64 == 1 && opcode / 8 % 8 == 4;
  }

  lemma Row60Takes(opcode: byte)
    requires opcode / 8 == 12
    ensures Takes(opcode, D.Decode(opcode))
  {
    hide D.MiscRow, D.AluRow, D.FlowRow, D.MiscCycles, D.AluCycles, D.FlowCycles;
    assert opcode / 64 == 1 && opcode / 8 % 8 == 4 && opcode / 16 == 6 && opcode % 16 == opcode % 8;
  }

  lemma Row68Means(opcode: byte)
    requires opcode / 8 == 13
    ensures Means(opcode, D.Decode(opcode))
  {
    hide D.MiscRow, D.AluRow, D.FlowRow, DecodeFlow, DecodeMisc;
    assert opcode / 64 == 1 && opcode / 8 % 8 == 5;
  }

  lemma Row68Takes(opcode: byte)
    requires opcode / 8 == 13
    ensures Takes(opcode, D.Decode(opcode))
  {
    hide D.MiscRow, D.AluRow, D.FlowRow, D.MiscCycles, D.AluCycles, D.FlowCycles;
    assert opcode / 64 == 1 && opcode / 8 % 8 == 5 && opcode / 16 == 6 && opcode % 16 == 8 + opcode % 8;
  }

  lemma Row70Means(opcode: byte)
    requires opcode / 8 == 14
    ensures Means(opcode, D.Decode(opcode))
  {
    hide D.MiscRow, D.AluRow, D.FlowRow, DecodeFlow, DecodeMisc;
    assert opcode / 64 == 1 && opcode / 8 % 8 == 6;
  }

  lemma Row70Takes(opcode: byte)
    requires opcode / 8 == 14
    ensures Takes(opcode, D.Decode(opcode))
  {
    hide D.MiscRow, D.AluRow, D.FlowRow, D.MiscCycles, D.AluCycles, D.FlowCycles;
    assert opcode / 64 == 1 && opcode / 8 % 8 == 6 && opcode / 16 == 7 && opcode % 16 == opcode % 8;
  }

  lemma Row78Means(opcode: byte)
    requires opcode / 8 == 15
    ensures Means(opcode, D.Decode(opcode))
  {
    hide D.MiscRow, D.AluRow, D.FlowRow, DecodeFlow, DecodeMisc;
    assert opcode / 64 == 1 && opcode / 8 % 8 == 7;
  }

  lemma Row78Takes(opcode: byte)
    requires opcode / 8 == 15
    ensures Takes(opcode, D.Decode(opcode))
  {
    hide D.MiscRow, D.AluRow, D.FlowRow, D.MiscCycles, D.AluCycles, D.FlowCycles;
    assert opcode / 64 == 1 && opcode / 8 % 8 == 7 && opcode / 16 == 7 && opcode % 16 == 8 + opcode % 8;
  }

  lemma Row80Means(opcode: byte)
    requires opcode / 8 == 16
    ensures Means(opcode, D.Decode(opcode))
  {
    hide D.MiscRow, D.MoveRow, D.FlowRow, DecodeFlow, DecodeMisc;
    assert opcode / 64 == 2 && opcode / 8 % 8 == 0;
  }

  lemma Row80Takes(opcode: byte)
    requires opcode / 8 == 16
    ensures Takes(opcode, D.Decode(opcode))
  {
    hide D.MiscRow, D.MoveRow, D.FlowRow, D.MiscCycles, D.MoveCycles, D.FlowCycles;
    assert opcode / 64 == 2 && opcode / 8 % 8 == 0 && opcode / 16 == 8 && opcode % 16 == opcode % 8;
  }

  lemma Row88Means(opcode: byte)
    requires opcode / 8 == 17
    ensures Means(opcode, D.Decode(opcode))
  {
    hide D.MiscRow, D.MoveRow, D.FlowRow, DecodeFlow, DecodeMisc;
    assert opcode / 64 == 2 && opcode / 8 % 8 == 1;
  }

  lemma Row88Takes(opcode: byte)
    requires opcode / 8 == 17
    ensures Takes(opcode, D.Decode(opcode))
  {
    hide D.MiscRow, D.MoveRow, D.FlowRow, D.MiscCycles, D.MoveCycles, D.FlowCycles;
    assert opcode / 64 == 2 && opcode / 8 % 8 == 1 && opcode / 16 == 8 && opcode % 16 == 8 + opcode % 8;
  }

  lemma Row90Means(opcode: byte)
    requires opcode / 8 == 18
    ensures Means(opcode, D.Decode(opcode))
  {
    hide D.MiscRow, D.MoveRow, D.FlowRow, DecodeFlow, DecodeMisc;
    assert opcode / 64 == 2 && opcode / 8 % 8 == 2;
  }

  lemma Row90Takes(opcode: byte)
    requires opcode / 8 == 18
    ensures Takes(opcode, D.Decode(opcode))
  {
    hide D.MiscRow, D.MoveRow, D.FlowRow, D.MiscCycles, D.MoveCycles, D.FlowCycles;
    assert opcode / 64 == 2 && opcode / 8 % 8 == 2 && opcode / 16 == 9 && opcode % 16 == opcode % 8;
  }

  lemma Row98Means(opcode: byte)
    requires opcode / 8 == 19
    ensures Means(opcode, D.Decode(opcode))
  {
    hide D.MiscRow, D.MoveRow, D.FlowRow, DecodeFlow, DecodeMisc;
    assert opcode / 64 == 2 && opcode / 8 % 8 == 3;
  }

  lemma Row98Takes(opcode: byte)
    requires opcode / 8 == 19
    ensures Takes(opcode, D.Decode(opcode))
  {
    hide D.MiscRow, D.MoveRow, D.FlowRow, D.MiscCycles, D.MoveCycles, D.FlowCycles;
    assert opcode / 64 == 2 && opcode / 8 % 8 == 3 && opcode / 16 == 9 && opcode % 16 == 8 + opcode % 8;
  }

  lemma RowA0Means(opcode: byte)
    requires opcode / 8 == 20
    ensures Means(opcode, D.Decode(opcode))
  {
    hide D.MiscRow, D.MoveRow, D.FlowRow, DecodeFlow, DecodeMisc;
    assert opcode / 64 == 2 && opcode / 8 % 8 == 4;
  }

  lemma RowA0Takes(opcode: byte)
    requires opcode / 8 == 20
    ensures Takes(opcode, D.Decode(opcode))
  {
    hide D.MiscRow, D.MoveRow, D.FlowRow, D.MiscCycles, D.MoveCycles, D.FlowCycles;
    assert opcode / 64 == 2 && opcode / 8 % 8 == 4 && opcode / 16 == 10 && opcode % 16 == opcode % 8;
  }

  lemma RowA8Means(opcode: byte)
    requires opcode / 8 == 21
    ensures Means(opcode, D.Decode(opcode))
  {
    hide D.MiscRow, D.MoveRow, D.FlowRow, DecodeFlow, DecodeMisc;
    assert opcode / 64 == 2 && opcode / 8 % 8 == 5;
  }

  lemma RowA8Takes(opcode: byte)
    requires opcode / 8 == 21
    ensures Takes(opcode, D.Decode(opcode))
  {
    hide D.MiscRow, D.MoveRow, D.FlowRow, D.MiscCycles, D.MoveCycles, D.FlowCycles;
    assert opcode / 64 == 2 && opcode / 8 % 8 == 5 && opcode / 16 == 10 && opcode % 16 == 8 + opcode % 8;
  }

  lemma RowB0Means(opcode: byte)
    requires opcode / 8 == 22
    ensures Means(opcode, D.Decode(opcode))
  {
    hide D.MiscRow, D.MoveRow, D.FlowRow, DecodeFlow, DecodeMisc;
    assert opcode / 64 == 2 && opcode / 8 % 8 == 6;
  }

  lemma RowB0Takes(opcode: byte)
    requires opcode / 8 == 22
    ensures Takes(opcode, D.Decode(opcode))
  {
    hide D.MiscRow, D.MoveRow, D.FlowRow, D.MiscCycles, D.MoveCycles, D.FlowCycles;
    assert opcode / 64 == 2 && opcode / 8 % 8 == 6 && opcode / 16 == 11 && opcode % 16 == opcode % 8;
  }

  lemma RowB8Means(opcode: byte)
    requires opcode / 8 == 23
    ensures Means(opcode, D.Decode(opcode))
  {
    hide D.MiscRow, D.MoveRow, D.FlowRow, DecodeFlow, DecodeMisc;
    assert opcode / 64 == 2 && opcode / 8 % 8 == 7;
  }

  lemma RowB8Takes(opcode: byte)
    requires opcode / 8 == 23
    ensures Takes(opcode, D.Decode(opcode))
  {
    hide D.MiscRow, D.MoveRow, D.FlowRow, D.MiscCycles, D.MoveCycles, D.FlowCycles;
    assert opcode / 64 == 2 && opcode / 8 % 8 == 7 && opcode / 16 == 11 && opcode % 16 == 8 + opcode % 8;
  }

  lemma RowC0Means(opcode: byte)
    requires opcode / 8 == 24
    ensures Means(opcode, D.Decode(opcode))
  {
    hide D.MiscRow, D.MoveRow, D.AluRow, DecodeMisc;
    assert opcode / 64 == 3 && opcode / 8 % 8 == 0;
  }

  lemma RowC0Takes(opcode: byte)
    requires opcode / 8 == 24
    ensures Takes(opcode, D.Decode(opcode))
  {
    hide D.MiscRow, D.MoveRow, D.AluRow, D.MiscCycles, D.MoveCycles, D.AluCycles;
    assert opcode / 64 == 3 && opcode / 8 % 8 == 0 && opcode / 16 == 12 && opcode % 16 == opcode % 8;
  }

  lemma RowC8Means(opcode: byte)
    requires opcode / 8 == 25
    ensures Means(opcode, D.Decode(opcode))
  {
    hide D.MiscRow, D.MoveRow, D.AluRow, DecodeMisc;
    assert opcode / 64 == 3 && opcode / 8 % 8 == 1;
  }

  lemma RowC8Takes(opcode: byte)
    requires opcode / 8 == 25
    ensures Takes(opcode, D.Decode(opcode))
  {
    hide D.MiscRow, D.MoveRow, D.AluRow, D.MiscCycles, D.MoveCycles, D.AluCycles;
    assert opcode / 64 == 3 && opcode / 8 % 8 == 1 && opcode / 16 == 12 && opcode % 16 == 8 + opcode % 8;
  }

  lemma RowD0Means(opcode: byte)
    requires opcode / 8 == 26
    ensures Means(opcode, D.Decode(opcode))
  {
    hide D.MiscRow, D.MoveRow, D.AluRow, DecodeMisc;
    assert opcode / 64 == 3 && opcode / 8 % 8 == 2;
  }

  lemma RowD0Takes(opcode: byte)
    requires opcode / 8 == 26
    ensures Takes(opcode, D.Decode(opcode))
  {
    hide D.MiscRow, D.MoveRow, D.AluRow, D.MiscCycles, D.MoveCycles, D.AluCycles;
    assert opcode / 64 == 3 && opcode / 8 % 8 == 2 && opcode / 16 == 13 && opcode % 16 == opcode % 8;
  }

  lemma RowD8Means(opcode: byte)
    requires opcode / 8 == 27
    ensures Means(opcode, D.Decode(opcode))
  {
    hide D.MiscRow, D.MoveRow, D.AluRow, DecodeMisc;
    assert opcode / 64 == 3 && opcode / 8 % 8 == 3;
  }

  lemma RowD8Takes(opcode: byte)
    requires opcode / 8 == 27
    ensures Takes(opcode, D.Decode(opcode))
  {
    hide D.MiscRow, D.MoveRow, D.AluRow, D.MiscCycles, D.MoveCycles, D.AluCycles;
    assert opcode / 64 == 3 && opcode / 8 % 8 == 3 && opcode / 16 == 13 && opcode % 16 == 8 + opcode % 8;
  }

  lemma RowE0Means(opcode: byte)
    requires opcode / 8 == 28
    ensures Means(opcode, D.Decode(opcode))
  {
    hide D.MiscRow, D.MoveRow, D.AluRow, DecodeMisc;
    assert opcode / 64 == 3 && opcode / 8 % 8 == 4;
  }

  lemma RowE0Takes(opcode: byte)
    requires opcode / 8 == 28
    ensures Takes(opcode, D.Decode(opcode))
  {
    hide D.MiscRow, D.MoveRow, D.AluRow, D.MiscCycles, D.MoveCycles, D.AluCycles;
    assert opcode / 64 == 3 && opcode / 8 % 8 == 4 && opcode / 16 == 14 && opcode % 16 == opcode % 8;
  }

  lemma RowE8Means(opcode: byte)
    requires opcode / 8 == 29
    ensures Means(opcode, D.Decode(opcode))
  {
    hide D.MiscRow, D.MoveRow, D.AluRow, DecodeMisc;
    assert opcode / 64 == 3 && opcode / 8 % 8 == 5;
  }

  lemma RowE8Takes(opcode: byte)
    requires opcode / 8 == 29
    ensures Takes(opcode, D.Decode(opcode))
  {
    hide D.MiscRow, D.MoveRow, D.AluRow, D.MiscCycles, D.MoveCycles, D.AluCycles;
    assert opcode / 64 == 3 && opcode / 8 % 8 == 5 && opcode / 16 == 14 && opcode % 16 == 8 + opcode % 8;
  }

  lemma RowF0Means(opcode: byte)
    requires opcode / 8 == 30
    ensures Means(opcode, D.Decode(opcode))
  {
    hide D.MiscRow, D.MoveRow, D.AluRow, DecodeMisc;
    assert opcode / 64 == 3 && opcode / 8 % 8 == 6;
  }

  lemma RowF0Takes(opcode: byte)
    requires opcode / 8 == 30
    ensures Takes(opcode, D.Decode(opcode))
  {
    hide D.MiscRow, D.MoveRow, D.AluRow, D.MiscCycles, D.MoveCycles, D.AluCycles;
    assert opcode / 64 == 3 && opcode / 8 % 8 == 6 && opcode / 16 == 15 && opcode % 16 == opcode % 8;
  }

  lemma RowF8Means(opcode: byte)
    requires opcode / 8 == 31
    ensures Means(opcode, D.Decode(opcode))
  {
    hide D.MiscRow, D.MoveRow, D.AluRow, DecodeMisc;
    assert opcode / 64 == 3 && opcode / 8 % 8 == 7;
  }

  lemma RowF8Takes(opcode: byte)
    requires opcode / 8 == 31
    ensures Takes(opcode, D.Decode(opcode))
  {
    hide D.MiscRow, D.MoveRow, D.AluRow, D.MiscCycles, D.MoveCycles, D.AluCycles;
    assert opcode / 64 == 3 && opcode / 8 % 8 == 7 && opcode / 16 == 15 && opcode % 16 == 8 + opcode % 8;
  }

  /** Every opcode: the switch, the cycle table and the manual's bit fields agree. */
  lemma DecodeAgrees(opcode: byte)
    ensures Agrees(opcode, D.Decode(opcode))
  {
    hide Means, Takes, D.Decode;
    match opcode / 8
    case 0 => Row00Means(opcode); Row00Takes(opcode);
    case 1 => Row08Means(opcode); Row08Takes(opcode);
    case 2 => Row10Means(opcode); Row10Takes(opcode);
    case 3 => Row18Means(opcode); Row18Takes(opcode);
    case 4 => Row20Means(opcode); Row20Takes(opcode);
    case 5 => Row28Means(opcode); Row28Takes(opcode);
    case 6 => Row30Means(opcode); Row30Takes(opcode);
    case 7 => Row38Means(opcode); Row38Takes(opcode);
    case 8 => Row40Means(opcode); Row40Takes(opcode);
    case 9 => Row48Means(opcode); Row48Takes(opcode);
    case 10 => Row50Means(opcode); Row50Takes(opcode);
    case 11 => Row58Means(opcode); Row58Takes(opcode);
    case 12 => Row60Means(opcode); Row60Takes(opcode);
    case 13 => Row68Means(opcode); Row68Takes(opcode);
    case 14 => Row70Means(opcode); Row70Takes(opcode);
    case 15 => Row78Means(opcode); Row78Takes(opcode);
    case 16 => Row80Means(opcode); Row80Takes(opcode);
    case 17 => Row88Means(opcode); Row88Takes(opcode);
    case 18 => Row90Means(opcode); Row90Takes(opcode);
    case 19 => Row98Means(opcode); Row98Takes(opcode);
    case 20 => RowA0Means(opcode); RowA0Takes(opcode);
    case 21 => RowA8Means(opcode); RowA8Takes(opcode);
    case 22 => RowB0Means(opcode); RowB0Takes(opcode);
    case 23 => RowB8Means(opcode); RowB8Takes(opcode);
    case 24 => RowC0Means(opcode); RowC0Takes(opcode);
    case 25 => RowC8Means(opcode); RowC8Takes(opcode);
    case 26 => RowD0Means(opcode); RowD0Takes(opcode);
    case 27 => RowD8Means(opcode); RowD8Takes(opcode);
    case 28 => RowE0Means(opcode); RowE0Takes(opcode);
    case 29 => RowE8Means(opcode); RowE8Takes(opcode);
    case 30 => RowF0Means(opcode); RowF0Takes(opcode);
    case _ => RowF8Means(opcode); RowF8Takes(opcode);
  }
}
