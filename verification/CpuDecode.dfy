/** The opcode switch and the static opcode tables of libs/v6core/src/cpu_i8080.cpp. */
module CpuDecode {
  import opened Bytes

  datatype Reg = A | B | C | D | E | H | L
  datatype Pair = BC | DE | HL | SP | PSW
  datatype Cond = Always | NotZero | Zero | NoCarry | Carry | ParityOdd | ParityEven | Plus | Minus

  /** One constructor per instruction handler, with the operands the switch passes to it. */
  datatype Handler =
    | MovRegReg(d: Reg, s: Reg)
    | LoadRegPtr(d: Reg, p: Pair)
    | MovMemReg(s: Reg)
    | MviRegData(d: Reg)
    | MviMemData
    | Lda
    | Sta
    | StaxPtr(p: Pair)
    | LxiPair(p: Pair)
    | Lhld
    | Shld
    | Sphl
    | Xchg
    | Xthl
    | Push(p: Pair)
    | Pop(p: Pair)
    | AddReg(s: Reg, carry: bool)
    | AddMem(carry: bool)
    | Adi(carry: bool)
    | SubReg(s: Reg, carry: bool)
    | SubMem(carry: bool)
    | Sbi(carry: bool)
    | DadPair(p: Pair)
    | InrReg(d: Reg)
    | InrMem
    | DcrReg(d: Reg)
    | DcrMem
    | InxPair(p: Pair)
    | DcxPair(p: Pair)
    | Daa
    | Cma
    | Stc
    | Cmc
    | Rlc
    | Rrc
    | Ral
    | Rar
    | AnaReg(s: Reg)
    | AnaMem
    | Ani
    | XraReg(s: Reg)
    | XraMem
    | Xri
    | OraReg(s: Reg)
    | OraMem
    | Ori
    | CmpReg(s: Reg)
    | CmpMem
    | Cpi
    | Jmp(cond: Cond)
    | Pchl
    | Call(cond: Cond)
    | Ret
    | RetCond(cond: Cond)
    | Rst(arg: nat)
    | In
    | Out
    | Di
    | Ei
    | Hlt
    | Nop

  const OPCODE_HLT: byte := 0x76
  const OPCODE_RST7: byte := 0xFF
  const OPCODE_MOV_M_L: byte := 0x75
  const OPCODE_EI: byte := 0xFB

  /** The opcode switch, eight opcodes to a row, eight rows to a quarter. */
  function Decode(ir: byte): (h: Handler)
  {
    var y := ir / 8 % 8;
    var z := ir % 8;
    match ir / 64
    case 0 => MiscRow(y, z)
    case 1 => MoveRow(y, z)
    case 2 => AluRow(y, z)
    case _ => FlowRow(y, z)
  }

  /** Opcodes 00 to 3F. */
  function MiscRow(y: nat, z: nat): (h: Handler)
  {
    match y
    case 0 => Row00(z)
    case 1 => Row08(z)
    case 2 => Row10(z)
    case 3 => Row18(z)
    case 4 => Row20(z)
    case 5 => Row28(z)
    case 6 => Row30(z)
    case _ => Row38(z)
  }

  /** Opcodes 40 to 7F. */
  function MoveRow(y: nat, z: nat): (h: Handler)
  {
    match y
    case 0 => Row40(z)
    case 1 => Row48(z)
    case 2 => Row50(z)
    case 3 => Row58(z)
    case 4 => Row60(z)
    case 5 => Row68(z)
    case 6 => Row70(z)
    case _ => Row78(z)
  }

  /** Opcodes 80 to BF. */
  function AluRow(y: nat, z: nat): (h: Handler)
  {
    match y
    case 0 => Row80(z)
    case 1 => Row88(z)
    case 2 => Row90(z)
    case 3 => Row98(z)
    case 4 => RowA0(z)
    case 5 => RowA8(z)
    case 6 => RowB0(z)
    case _ => RowB8(z)
  }

  /** Opcodes C0 to FF. */
  function FlowRow(y: nat, z: nat): (h: Handler)
  {
    match y
    case 0 => RowC0(z)
    case 1 => RowC8(z)
    case 2 => RowD0(z)
    case 3 => RowD8(z)
    case 4 => RowE0(z)
    case 5 => RowE8(z)
    case 6 => RowF0(z)
    case _ => RowF8(z)
  }

  function Row00(z: nat): (h: Handler)
  {
    match z
    case 0 => Nop case 1 => LxiPair(BC) case 2 => StaxPtr(BC) case 3 => InxPair(BC)
    case 4 => InrReg(B) case 5 => DcrReg(B) case 6 => MviRegData(B) case _ => Rlc
  }

  function Row08(z: nat): (h: Handler)
  {
    match z
    case 0 => Nop case 1 => DadPair(BC) case 2 => LoadRegPtr(A, BC) case 3 => DcxPair(BC)
    case 4 => InrReg(C) case 5 => DcrReg(C) case 6 => MviRegData(C) case _ => Rrc
  }

  function Row10(z: nat): (h: Handler)
  {
    match z
    case 0 => Nop case 1 => LxiPair(DE) case 2 => StaxPtr(DE) case 3 => InxPair(DE)
    case 4 => InrReg(D) case 5 => DcrReg(D) case 6 => MviRegData(D) case _ => Ral
  }

  function Row18(z: nat): (h: Handler)
  {
    match z
    case 0 => Nop case 1 => DadPair(DE) case 2 => LoadRegPtr(A, DE) case 3 => DcxPair(DE)
    case 4 => InrReg(E) case 5 => DcrReg(E) case 6 => MviRegData(E) case _ => Rar
  }

  function Row20(z: nat): (h: Handler)
  {
    match z
    case 0 => Nop case 1 => LxiPair(HL) case 2 => Shld case 3 => InxPair(HL)
    case 4 => InrReg(H) case 5 => DcrReg(H) case 6 => MviRegData(H) case _ => Daa
  }

  function Row28(z: nat): (h: Handler)
  {
    match z
    case 0 => Nop case 1 => DadPair(HL) case 2 => Lhld case 3 => DcxPair(HL)
    case 4 => InrReg(L) case 5 => DcrReg(L) case 6 => MviRegData(L) case _ => Cma
  }

  function Row30(z: nat): (h: Handler)
  {
    match z
    case 0 => Nop case 1 => LxiPair(SP) case 2 => Sta case 3 => InxPair(SP)
    case 4 => InrMem case 5 => DcrMem case 6 => MviMemData case _ => Stc
  }

  function Row38(z: nat): (h: Handler)
  {
    match z
    case 0 => Nop case 1 => DadPair(SP) case 2 => Lda case 3 => DcxPair(SP)
    case 4 => InrReg(A) case 5 => DcrReg(A) case 6 => MviRegData(A) case _ => Cmc
  }

  function Row40(z: nat): (h: Handler)
  {
    match z
    case 0 => MovRegReg(B, B) case 1 => MovRegReg(B, C) case 2 => MovRegReg(B, D) case 3 => MovRegReg(B, E)
    case 4 => MovRegReg(B, H) case 5 => MovRegReg(B, L) case 6 => LoadRegPtr(B, HL) case _ => MovRegReg(B, A)
  }

  function Row48(z: nat): (h: Handler)
  {
    match z
    case 0 => MovRegReg(C, B) case 1 => MovRegReg(C, C) case 2 => MovRegReg(C, D) case 3 => MovRegReg(C, E)
    case 4 => MovRegReg(C, H) case 5 => MovRegReg(C, L) case 6 => LoadRegPtr(C, HL) case _ => MovRegReg(C, A)
  }

  function Row50(z: nat): (h: Handler)
  {
    match z
    case 0 => MovRegReg(D, B) case 1 => MovRegReg(D, C) case 2 => MovRegReg(D, D) case 3 => MovRegReg(D, E)
    case 4 => MovRegReg(D, H) case 5 => MovRegReg(D, L) case 6 => LoadRegPtr(D, HL) case _ => MovRegReg(D, A)
  }

  function Row58(z: nat): (h: Handler)
  {
    match z
    case 0 => MovRegReg(E, B) case 1 => MovRegReg(E, C) case 2 => MovRegReg(E, D) case 3 => MovRegReg(E, E)
    case 4 => MovRegReg(E, H) case 5 => MovRegReg(E, L) case 6 => LoadRegPtr(E, HL) case _ => MovRegReg(E, A)
  }

  function Row60(z: nat): (h: Handler)
  {
    match z
    case 0 => MovRegReg(H, B) case 1 => MovRegReg(H, C) case 2 => MovRegReg(H, D) case 3 => MovRegReg(H, E)
    case 4 => MovRegReg(H, H) case 5 => MovRegReg(H, L) case 6 => LoadRegPtr(H, HL) case _ => MovRegReg(H, A)
  }

  function Row68(z: nat): (h: Handler)
  {
    match z
    case 0 => MovRegReg(L, B) case 1 => MovRegReg(L, C) case 2 => MovRegReg(L, D) case 3 => MovRegReg(L, E)
    case 4 => MovRegReg(L, H) case 5 => MovRegReg(L, L) case 6 => LoadRegPtr(L, HL) case _ => MovRegReg(L, A)
  }

  function Row70(z: nat): (h: Handler)
  {
    match z
    case 0 => MovMemReg(B) case 1 => MovMemReg(C) case 2 => MovMemReg(D) case 3 => MovMemReg(E)
    case 4 => MovMemReg(H) case 5 => MovMemReg(L) case 6 => Hlt case _ => MovMemReg(A)
  }

  function Row78(z: nat): (h: Handler)
  {
    match z
    case 0 => MovRegReg(A, B) case 1 => MovRegReg(A, C) case 2 => MovRegReg(A, D) case 3 => MovRegReg(A, E)
    case 4 => MovRegReg(A, H) case 5 => MovRegReg(A, L) case 6 => LoadRegPtr(A, HL) case _ => MovRegReg(A, A)
  }

  function Row80(z: nat): (h: Handler)
  {
    match z
    case 0 => AddReg(B, false) case 1 => AddReg(C, false) case 2 => AddReg(D, false) case 3 => AddReg(E, false)
    case 4 => AddReg(H, false) case 5 => AddReg(L, false) case 6 => AddMem(false) case _ => AddReg(A, false)
  }

  function Row88(z: nat): (h: Handler)
  {
    match z
    case 0 => AddReg(B, true) case 1 => AddReg(C, true) case 2 => AddReg(D, true) case 3 => AddReg(E, true)
    case 4 => AddReg(H, true) case 5 => AddReg(L, true) case 6 => AddMem(true) case _ => AddReg(A, true)
  }

  function Row90(z: nat): (h: Handler)
  {
    match z
    case 0 => SubReg(B, false) case 1 => SubReg(C, false) case 2 => SubReg(D, false) case 3 => SubReg(E, false)
    case 4 => SubReg(H, false) case 5 => SubReg(L, false) case 6 => SubMem(false) case _ => SubReg(A, false)
  }

  function Row98(z: nat): (h: Handler)
  {
    match z
    case 0 => SubReg(B, true) case 1 => SubReg(C, true) case 2 => SubReg(D, true) case 3 => SubReg(E, true)
    case 4 => SubReg(H, true) case 5 => SubReg(L, true) case 6 => SubMem(true) case _ => SubReg(A, true)
  }

  function RowA0(z: nat): (h: Handler)
  {
    match z
    case 0 => AnaReg(B) case 1 => AnaReg(C) case 2 => AnaReg(D) case 3 => AnaReg(E)
    case 4 => AnaReg(H) case 5 => AnaReg(L) case 6 => AnaMem case _ => AnaReg(A)
  }

  function RowA8(z: nat): (h: Handler)
  {
    match z
    case 0 => XraReg(B) case 1 => XraReg(C) case 2 => XraReg(D) case 3 => XraReg(E)
    case 4 => XraReg(H) case 5 => XraReg(L) case 6 => XraMem case _ => XraReg(A)
  }

  function RowB0(z: nat): (h: Handler)
  {
    match z
    case 0 => OraReg(B) case 1 => OraReg(C) case 2 => OraReg(D) case 3 => OraReg(E)
    case 4 => OraReg(H) case 5 => OraReg(L) case 6 => OraMem case _ => OraReg(A)
  }

  function RowB8(z: nat): (h: Handler)
  {
    match z
    case 0 => CmpReg(B) case 1 => CmpReg(C) case 2 => CmpReg(D) case 3 => CmpReg(E)
    case 4 => CmpReg(H) case 5 => CmpReg(L) case 6 => CmpMem case _ => CmpReg(A)
  }

  function RowC0(z: nat): (h: Handler)
  {
    match z
    case 0 => RetCond(NotZero) case 1 => Pop(BC) case 2 => Jmp(NotZero) case 3 => Jmp(Always)
    case 4 => Call(NotZero) case 5 => Push(BC) case 6 => Adi(false) case _ => Rst(0)
  }

  function RowC8(z: nat): (h: Handler)
  {
    match z
    case 0 => RetCond(Zero) case 1 => Ret case 2 => Jmp(Zero) case 3 => Jmp(Always)
    case 4 => Call(Zero) case 5 => Call(Always) case 6 => Adi(true) case _ => Rst(1)
  }

  function RowD0(z: nat): (h: Handler)
  {
    match z
    case 0 => RetCond(NoCarry) case 1 => Pop(DE) case 2 => Jmp(NoCarry) case 3 => Out
    case 4 => Call(NoCarry) case 5 => Push(DE) case 6 => Sbi(false) case _ => Rst(2)
  }

  function RowD8(z: nat): (h: Handler)
  {
    match z
    case 0 => RetCond(Carry) case 1 => Ret case 2 => Jmp(Carry) case 3 => In
    case 4 => Call(Carry) case 5 => Call(Always) case 6 => Sbi(true) case _ => Rst(3)
  }

  function RowE0(z: nat): (h: Handler)
  {
    match z
    case 0 => RetCond(ParityOdd) case 1 => Pop(HL) case 2 => Jmp(ParityOdd) case 3 => Xthl
    case 4 => Call(ParityOdd) case 5 => Push(HL) case 6 => Ani case _ => Rst(4)
  }

  function RowE8(z: nat): (h: Handler)
  {
    match z
    case 0 => RetCond(ParityEven) case 1 => Pchl case 2 => Jmp(ParityEven) case 3 => Xchg
    case 4 => Call(ParityEven) case 5 => Call(Always) case 6 => Xri case _ => Rst(5)
  }

  function RowF0(z: nat): (h: Handler)
  {
    match z
    case 0 => RetCond(Plus) case 1 => Pop(PSW) case 2 => Jmp(Plus) case 3 => Di
    case 4 => Call(Plus) case 5 => Push(PSW) case 6 => Ori case _ => Rst(6)
  }

  function RowF8(z: nat): (h: Handler)
  {
    match z
    case 0 => RetCond(Minus) case 1 => Sphl case 2 => Jmp(Minus) case 3 => Ei
    case 4 => Call(Minus) case 5 => Call(Always) case 6 => Cpi case _ => Rst(7)
  }

  /** Machine cycles of each opcode, 4 clocks each: the table by rows of sixteen. */
  function MCycles(ir: byte): (n: nat)
    ensures 1 <= n <= 6
  {
    match ir / 64
    case 0 => MiscCycles(ir / 16, ir % 16)
    case 1 => MoveCycles(ir / 16, ir % 16)
    case 2 => AluCycles(ir % 16)
    case _ => FlowCycles(ir / 16, ir % 16)
  }

  function MiscCycles(hi: nat, lo: nat): (n: nat)
    ensures 1 <= n <= 6
  {
    match hi
    case 0 | 1 =>
      (match lo
       case 1 | 9 => 3
       case 0 | 7 | 8 | 15 => 1
       case _ => 2)
    case 2 =>
      (match lo
       case 1 | 9 => 3
       case 2 | 10 => 5
       case 0 | 7 | 8 | 15 => 1
       case _ => 2)
    case _ =>
      (match lo
       case 2 | 10 => 4
       case 0 | 7 | 8 | 15 => 1
       case 3 | 11 | 12 | 13 | 14 => 2
       case _ => 3)
  }

  function MoveCycles(hi: nat, lo: nat): (n: nat) ensures 1 <= n <= 6 { if hi == 7 && lo == 5 then 1 else 2 }

  function AluCycles(lo: nat): (n: nat) ensures 1 <= n <= 6 { if lo == 6 || lo == 14 then 2 else 1 }

  function FlowCycles(hi: nat, lo: nat): (n: nat)
    ensures 1 <= n <= 6
  {
    match hi
    case 12 | 13 =>
      (match lo
       case 6 | 14 => 2
       case 4 | 12 | 13 => 6
       case 0 | 5 | 7 | 8 | 15 => 4
       case _ => 3)
    case 14 =>
      (match lo
       case 11 => 1
       case 6 | 9 | 14 => 2
       case 1 | 2 | 10 => 3
       case 3 | 4 | 12 | 13 => 6
       case _ => 4)
    case _ =>
      (match lo
       case 3 | 11 => 1
       case 6 | 9 | 14 => 2
       case 1 | 2 | 10 => 3
       case 4 | 12 | 13 => 6
       case _ => 4)
  }

  /** Instruction lengths in bytes. */
  function InstrLen(ir: byte): (n: nat)
    ensures 1 <= n <= 3
  {
    LenAt(ir / 16, ir % 16)
  }

  function LenAt(hi: nat, lo: nat): (n: nat)
    ensures 1 <= n <= 3
  {
    match hi
    case 0 | 1 =>
      (match lo
       case 1 => 3
       case 6 | 14 => 2
       case _ => 1)
    case 2 | 3 =>
      (match lo
       case 6 | 14 => 2
       case 1 | 2 | 10 => 3
       case _ => 1)
    case 4 | 5 | 6 | 7 | 8 | 9 | 10 | 11 => 1
    case 12 =>
      (match lo
       case 6 | 14 => 2
       case 2 | 3 | 4 | 10 | 12 | 13 => 3
       case _ => 1)
    case 13 =>
      (match lo
       case 3 | 6 | 11 | 14 => 2
       case 2 | 4 | 10 | 12 => 3
       case _ => 1)
    case _ =>
      (match lo
       case 6 | 14 => 2
       case 2 | 4 | 10 | 12 => 3
       case _ => 1)
  }

  /** Instruction classes: 0 conditional call, 1 call, 2 conditional jump, 3 jump, 4 conditional
      return, 5 return, 6 PCHL, 7 restart, 8 anything else. */
  function InstrType(ir: byte): (n: nat)
    ensures 0 <= n <= 8
  {
    TypeAt(ir / 16, ir % 16)
  }

  function TypeAt(hi: nat, lo: nat): (n: nat)
    ensures 0 <= n <= 8
  {
    match hi
    case 0 | 1 | 2 | 3 | 4 | 5 | 6 | 7 | 8 | 9 | 10 | 11 => 8
    case 12 =>
      (match lo
       case 13 => 1
       case 3 => 3
       case 9 => 5
       case 4 | 12 => 0
       case 2 | 10 => 2
       case 0 | 8 => 4
       case 7 | 15 => 7
       case _ => 8)
    case 13 | 15 =>
      (match lo
       case 4 | 12 => 0
       case 2 | 10 => 2
       case 0 | 8 => 4
       case 7 | 15 => 7
       case _ => 8)
    case _ =>
      (match lo
       case 9 => 6
       case 4 | 12 => 0
       case 2 | 10 => 2
       case 0 | 8 => 4
       case 7 | 15 => 7
       case _ => 8)
  }
}
