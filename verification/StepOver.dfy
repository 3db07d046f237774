/** Hardware::GetStepOverAddr (libs/v6core/src/hardware.cpp): where a step over the current instruction stops. */
module StepOver {
  import opened Bytes
  import opened Memory
  import D = CpuDecode
  import Cpu
  import opened Isa
  import R = CpuRefinement
  import T = CpuTheorem
  import P = CpuPrograms

  /** The jump tests, by opcode. */
  function JumpTarget(opcode: byte, f: Cpu.Flags, target: word, next: word): (r: word)
  {
    match opcode
    case 0xC2 => if f.z then next else target
    case 0xCA => if f.z then target else next
    case 0xD2 => if f.c then next else target
    case 0xDA => if f.c then target else next
    case 0xE2 => if f.p then next else target
    case 0xEA => if f.p then target else next
    case 0xF2 => if f.s then next else target
    case 0xFA => if f.s then target else next
    case _ => next
  }

  function StepOverAddr(s: Arch): (r: word)
  {
    var opcode := Read(s.mem, s.regs.pc, Data);
    var next := Wrap(s.regs.pc + D.InstrLen(opcode));
    match D.InstrType(opcode)
    case 3 => Data16(s)
    case 5 => Word(TopHigh(s), TopLow(s))
    case 6 => Address(s.regs, HL)
    case 7 => if opcode >= 0xC7 then opcode - 0xC7 else 0
    case _ => JumpTarget(opcode, s.regs.f, Data16(s), next)
  }

  /** Bytes of an instruction and its class, by meaning. */
  function Length(i: Instr): (n: nat)
  {
    match i
    case MVI(_) | AluI(_) | IN | OUT => 2
    case LXI(_) | LDA | STA | LHLD | SHLD | JMP(_) | CALL(_) => 3
    case _ => 1
  }

  function Class(i: Instr): (n: nat)
  {
    match i
    case CALL(c) => if c == Unconditional then 1 else 0
    case JMP(c) => if c == Unconditional then 3 else 2
    case RET(c) => if c == Unconditional then 5 else 4
    case PCHL => 6
    case RST(_) => 7
    case _ => 8
  }

  /** The undocumented aliases of JMP, RET and CALL. */
  predicate Alias(opcode: byte) { opcode in {0xCB, 0xD9, 0xDD, 0xED, 0xFD} }

  predicate LengthFits(opcode: byte) { !Alias(opcode) ==> D.InstrLen(opcode) == Length(Decode(opcode)) }
  predicate ClassFits(opcode: byte) { !Alias(opcode) ==> D.InstrType(opcode) == Class(Decode(opcode)) }

  /** An opcode by its row and column in a quarter of the table. */
  predicate At(opcode: byte, quarter: nat, y: nat, z: nat)
  {
    && y < 8 && z < 8 && opcode == 64 * quarter + 8 * y + z
    && opcode / 64 == quarter && opcode / 8 % 8 == y && opcode % 8 == z
    && opcode / 16 == 4 * quarter + y / 2 && opcode % 16 == 8 * (y % 2) + z
  }

  lemma AtFields(opcode: byte)
    ensures At(opcode, opcode / 64, opcode / 8 % 8, opcode % 8)
  {
    var q, y, z := opcode / 64, opcode / 8 % 8, opcode % 8;
    Quotient(opcode / 8, 8, q, y);
    Quotient(y, 2, y / 2, y % 2);
    Quotient(opcode, 16, 4 * q + y / 2, 8 * (y % 2) + z);
  }

  /** The tables at row `y` and column `z` of a quarter, against the instruction there. */
  predicate Fits(quarter: nat, y: nat, z: nat, i: Instr) { LengthAt(quarter, y, z, i) && ClassAt(quarter, y, z, i) }

  predicate LengthAt(quarter: nat, y: nat, z: nat, i: Instr)
  {
    !AliasAt(quarter, y, z) ==> D.LenAt(4 * quarter + y / 2, 8 * (y % 2) + z) == Length(i)
  }

  predicate ClassAt(quarter: nat, y: nat, z: nat, i: Instr)
  {
    !AliasAt(quarter, y, z) ==> D.TypeAt(4 * quarter + y / 2, 8 * (y % 2) + z) == Class(i)
  }

  predicate AliasAt(quarter: nat, y: nat, z: nat)
  {
    quarter == 3 && ((y == 1 && z == 3) || (y == 3 && (z == 1 || z == 5)) || (y == 5 && z == 5) || (y == 7 && z == 5))
  }

  lemma LowLengths(y: nat, z: nat)
    requires y < 8 && z < 8
    ensures LengthAt(0, y, z, DecodeMisc(y, z))
  {
    hide LengthAt, DecodeMisc;
    if y % 2 == 0 { LowLengthsEven(y, y / 2, z); } else { LowLengthsOdd(y, y / 2, z); }
  }

  lemma LowLengthsEven(y: nat, p: nat, z: nat)
    requires y == 2 * p && p < 4 && z < 8 && y / 2 == p && y % 2 == 0
    ensures LengthAt(0, y, z, DecodeMisc(y, z))
  {
    hide OperandField, PairField;
    match z case 0 => case 1 => case 2 => case 3 => case 4 => case 5 => case 6 => case _ =>
  }

  lemma LowLengthsOdd(y: nat, p: nat, z: nat)
    requires y == 2 * p + 1 && p < 4 && z < 8 && y / 2 == p && y % 2 == 1
    ensures LengthAt(0, y, z, DecodeMisc(y, z))
  {
    hide OperandField, PairField;
    match z case 0 => case 1 => case 2 => case 3 => case 4 => case 5 => case 6 => case _ =>
  }

  lemma LowClasses(y: nat, z: nat)
    requires y < 8 && z < 8
    ensures ClassAt(0, y, z, DecodeMisc(y, z))
  {
    hide OperandField, PairField;
    match z case 0 => case 1 => case 2 => case 3 => case 4 => case 5 => case 6 => case _ =>
  }

  lemma MiddleFits(quarter: nat, y: nat, z: nat)
    requires (quarter == 1 || quarter == 2) && y < 8 && z < 8
    ensures Fits(1, y, z, if y == 6 && z == 6 then HLT else MOV(OperandField(y), OperandField(z)))
    ensures Fits(2, y, z, AluR(AluField(y), OperandField(z)))
  {
    hide OperandField, AluField;
  }

  lemma HighLengths(y: nat, z: nat)
    requires y < 8 && z < 8
    ensures LengthAt(3, y, z, DecodeFlow(y, z))
  {
    hide LengthAt, DecodeFlow;
    if y % 2 == 0 { HighLengthsEven(y, y / 2, z); } else { HighLengthsOdd(y, y / 2, z); }
  }

  lemma HighLengthsEven(y: nat, p: nat, z: nat)
    requires y == 2 * p && p < 4 && z < 8 && y / 2 == p && y % 2 == 0
    ensures LengthAt(3, y, z, DecodeFlow(y, z))
  {
    hide PairField, AluField, ConditionField;
    match z case 0 => case 1 => case 2 => case 3 => case 4 => case 5 => case 6 => case _ =>
  }

  lemma HighLengthsOdd(y: nat, p: nat, z: nat)
    requires y == 2 * p + 1 && p < 4 && z < 8 && y / 2 == p && y % 2 == 1
    ensures LengthAt(3, y, z, DecodeFlow(y, z))
  {
    hide PairField, AluField, ConditionField;
    match z case 0 => case 1 => case 2 => case 3 => case 4 => case 5 => case 6 => case _ =>
  }

  lemma NeverUnconditional(y: nat)
    ensures ConditionField(y) != Unconditional
  {
  }

  lemma HighClasses(y: nat, z: nat)
    requires y < 8 && z < 8
    ensures ClassAt(3, y, z, DecodeFlow(y, z))
  {
    if z == 0 || z == 2 || z == 4 || z == 7 { EvenColumns(y, z); } else { OddColumns(y, y / 2, z); }
    hide ClassAt, DecodeFlow;
  }

  lemma EvenColumnType(hi: nat, lo: nat, z: nat)
    requires 12 <= hi < 16 && (lo == z || lo == 8 + z) && (z == 0 || z == 2 || z == 4 || z == 7)
    ensures D.TypeAt(hi, lo) == if z == 0 then 4 else if z == 2 then 2 else if z == 4 then 0 else 7
  {
  }

  lemma EvenColumns(y: nat, z: nat)
    requires y < 8 && (z == 0 || z == 2 || z == 4 || z == 7)
    ensures ClassAt(3, y, z, DecodeFlow(y, z))
  {
    hide ConditionField, D.TypeAt, AliasAt;
    NeverUnconditional(y);
    EvenColumnType(12 + y / 2, 8 * (y % 2) + z, z);
  }

  lemma OddColumnType(hi: nat, lo: nat)
    requires 12 <= hi < 16 && (lo == 1 || lo == 3 || lo == 5 || lo == 6 || lo == 9 || lo == 11 || lo == 13 || lo == 14)
    ensures D.TypeAt(hi, lo) == if hi == 12 && lo == 3 then 3
                                else if hi == 12 && lo == 9 then 5
                                else if hi == 12 && lo == 13 then 1
                                else if hi == 14 && lo == 9 then 6 else 8
  {
  }

  lemma OddColumns(y: nat, p: nat, z: nat)
    requires y < 8 && (z == 1 || z == 3 || z == 5 || z == 6) && p == y / 2
    ensures ClassAt(3, y, z, DecodeFlow(y, z))
  {
    hide PairField, AluField, D.TypeAt;
    OddColumnType(12 + p, 8 * (y % 2) + z);
  }

  lemma AliasIs(opcode: byte, quarter: nat, y: nat, z: nat)
    requires At(opcode, quarter, y, z)
    ensures Alias(opcode) == AliasAt(quarter, y, z)
  {
  }

  lemma AtTables(opcode: byte, q: nat, y: nat, z: nat)
    requires At(opcode, q, y, z)
    ensures D.InstrLen(opcode) == D.LenAt(4 * q + y / 2, 8 * (y % 2) + z)
    ensures D.InstrType(opcode) == D.TypeAt(4 * q + y / 2, 8 * (y % 2) + z)
    ensures q == 0 ==> Decode(opcode) == DecodeMisc(y, z)
    ensures q == 1 ==> Decode(opcode) == if y == 6 && z == 6 then HLT else MOV(OperandField(y), OperandField(z))
    ensures q == 2 ==> Decode(opcode) == AluR(AluField(y), OperandField(z))
    ensures q == 3 ==> Decode(opcode) == DecodeFlow(y, z)
  {
    hide D.LenAt, D.TypeAt, DecodeMisc, DecodeFlow, OperandField, AluField;
  }

  lemma AllFit(opcode: byte)
    ensures LengthFits(opcode) && ClassFits(opcode)
  {
    hide At, Alias, AliasAt, Length, Class, Decode, DecodeMisc, DecodeFlow, OperandField, AluField, D.LenAt, D.TypeAt, D.InstrLen, D.InstrType;
    var q, y, z := opcode / 64, opcode / 8 % 8, opcode % 8;
    AtFields(opcode);
    AliasIs(opcode, q, y, z);
    AtTables(opcode, q, y, z);
    if q == 0 { LowLengths(y, z); LowClasses(y, z); }
    else if q == 3 { HighLengths(y, z); HighClasses(y, z); }
    else { MiddleFits(q, y, z); }
  }

  /** The tests by opcode are the tests by condition. */
  lemma JumpTargetMeans(opcode: byte, f: Cpu.Flags, target: word, next: word)
    ensures Decode(opcode).JMP? && Decode(opcode).cond != Unconditional ==>
              JumpTarget(opcode, f, target, next) == if Met(f, Decode(opcode).cond) then target else next
    ensures !Decode(opcode).JMP? ==> JumpTarget(opcode, f, target, next) == next
  {
    var q, y, z := opcode / 64, opcode / 8 % 8, opcode % 8;
    AtFields(opcode);
    if q == 3 && z == 2 {
      JumpTests(y, f, target, next);
    } else {
      NoJumpTest(opcode, q, y, z, f, target, next);
      if q == 3 { OtherFlow(y, z); }
    }
    hide At, JumpTarget, DecodeMisc, DecodeFlow, OperandField, AluField, ConditionField, Met;
  }

  lemma JumpTests(y: nat, f: Cpu.Flags, target: word, next: word)
    requires y < 8
    ensures JumpTarget(0xC2 + 8 * y, f, target, next) == if Met(f, ConditionField(y)) then target else next
    ensures DecodeFlow(y, 2) == JMP(ConditionField(y)) && ConditionField(y) != Unconditional
  {
    match y case 0 => case 1 => case 2 => case 3 => case 4 => case 5 => case 6 => case _ =>
  }

  lemma OtherFlow(y: nat, z: nat)
    requires y < 8 && z < 8 && z != 2
    ensures DecodeFlow(y, z).JMP? ==> DecodeFlow(y, z).cond == Unconditional
  {
    hide PairField, AluField, ConditionField;
  }

  lemma NoJumpTest(opcode: byte, q: nat, y: nat, z: nat, f: Cpu.Flags, target: word, next: word)
    requires opcode == 64 * q + 8 * y + z && y < 8 && z < 8 && !(q == 3 && z == 2)
    ensures JumpTarget(opcode, f, target, next) == next
  {
  }

  lemma RstOpcode(opcode: byte)
    requires Decode(opcode).RST?
    ensures opcode == 0xC7 + 8 * Decode(opcode).n
  {
    var y, z := opcode / 8 % 8, opcode % 8;
    assert opcode == 64 * (opcode / 64) + 8 * y + z;
  }

  lemma SetKeepsPc(s: Arch, o: Operand, v: byte)
    ensures Set(s, o, v).regs.pc == s.regs.pc
  {
    hide Memory.Write;
  }

  lemma AccKeepsPc(i: Instr, r: Regs)
    ensures ExecAcc(i, r).pc == r.pc
  {
    hide PlusFlags;
  }

  lemma AluKeepsPc(r: Regs, op: AluOp, v: byte)
    ensures Alu(r, op, v).pc == r.pc
  {
    hide PlusFlags, MinusFlags, Szp, AndByte, OrByte, XorByte, Bit;
  }

  predicate IsMove(i: Instr)
  {
    match i
    case MOV(_, _) | MVI(_) | LXI(_) | LDA | STA | LHLD | SHLD | LDAX(_) | STAX(_) | XCHG | XTHL | SPHL | IN | OUT => true
    case _ => false
  }

  lemma MovePc(dev: Cpu.Devices, i: Instr, s: Arch)
    requires IsMove(i)
    ensures Exec(dev, i, s).regs.pc == Wrap(s.regs.pc + Length(i))
  {
    hide Read, Memory.Write, Set, Get, Address, Data16, Byte2, Byte3, TopHigh, TopLow, HighByte, LowByte;
    forall o: Operand, v: byte ensures Set(s, o, v).regs.pc == s.regs.pc { SetKeepsPc(s, o, v); }
  }

  lemma ComputePc(dev: Cpu.Devices, i: Instr, s: Arch)
    requires Class(i) == 8 && !IsMove(i)
    ensures Exec(dev, i, s).regs.pc == Wrap(s.regs.pc + Length(i))
  {
    hide Exec, Read, Memory.Write, Set, Get, ExecAcc, Alu, Address, PlusFlags, MinusFlags, Data16, Byte2, Byte3, TopHigh, TopLow, HighByte, LowByte;
    ExecComputeCases(dev, i, s);
    ExecStackCases(dev, i, s);
    ExecControlCases(dev, i, s);
    if i.INR? || i.DCR? { CountPc(s, i.d); }
    else if i.AluR? { AluKeepsPc(s.regs, i.op, Get(s, i.s)); }
    else if i.AluI? { AluKeepsPc(s.regs, i.op, Byte2(s)); }
    else { AccKeepsPc(i, s.regs); }
  }

  lemma CountPc(s: Arch, d: Operand)
    ensures ExecInr(s, d).regs.pc == ExecDcr(s, d).regs.pc == Wrap(s.regs.pc + 1)
  {
    hide Set, PlusFlags, MinusFlags;
    SetKeepsPc(s, d, (Get(s, d) + 1) % 0x100);
    SetKeepsPc(s, d, (Get(s, d) - 1) % 0x100);
  }

  /** PC after an instruction that is no branch. */
  lemma StraightPc(dev: Cpu.Devices, i: Instr, s: Arch)
    requires Class(i) == 8
    ensures Exec(dev, i, s).regs.pc == Wrap(s.regs.pc + Length(i))
  {
    hide Exec, Length, Class;
    if IsMove(i) { MovePc(dev, i, s); } else { ComputePc(dev, i, s); }
  }

  /** Where a step over should stop: after the instruction, or, for a call that is taken, at its return address. */
  predicate StopsRight(dev: Cpu.Devices, s: Arch)
  {
    var after := Step(dev, s);
    match Current(s)
    case CALL(c) =>
      if Met(s.regs.f, c) then
        && StepOverAddr(s) == Wrap(s.regs.pc + 3)
        && after.regs.sp == Wrap(s.regs.sp - 2)
        && after.mem.ram[Translate(after.mem, after.regs.sp, Stack)] == StepOverAddr(s) % 0x100
        && after.mem.ram[Translate(after.mem, Wrap(after.regs.sp + 1), Stack)] == StepOverAddr(s) / 0x100
      else StepOverAddr(s) == after.regs.pc
    case _ => StepOverAddr(s) == after.regs.pc
  }

  lemma PushedBytes(s: Arch, h: byte, l: byte)
    ensures var t := PushBytes(s, h, l);
            && t.regs.sp == Wrap(s.regs.sp - 2)
            && t.mem.ram[Translate(t.mem, t.regs.sp, Stack)] == l
            && t.mem.ram[Translate(t.mem, Wrap(t.regs.sp + 1), Stack)] == h
  {
    var sp: int := s.regs.sp;
    DistinctAddresses(s.mem, Wrap(sp - 1), Wrap(sp - 2), Stack);
    assert Wrap(Wrap(sp - 2) + 1) == Wrap(sp - 1);
  }

  /** Translation keeps the low sixteen bits, so different addresses stay different. */
  lemma DistinctAddresses(m: Mem, a: word, b: word, space: Space)
    requires a != b
    ensures Translate(m, a, space) != Translate(m, b, space)
  {
  }

  lemma BranchStops(dev: Cpu.Devices, s: Arch)
    requires Class(Current(s)) != 8
    requires !Alias(Read(s.mem, s.regs.pc, Data))
    requires Current(s).RET? && Current(s).cond != Unconditional ==> !Met(s.regs.f, Current(s).cond)
    ensures StopsRight(dev, s)
  {
    hide D.InstrLen, D.InstrType, Decode, JumpTarget, Translate, PushBytes, Alias, Data16, TopHigh, TopLow, Address;
    var opcode := Read(s.mem, s.regs.pc, Data);
    hide Read;
    AllFit(opcode);
    JumpTargetMeans(opcode, s.regs.f, Data16(s), Wrap(s.regs.pc + D.InstrLen(opcode)));
    var ret := Wrap(s.regs.pc + 3);
    PushedBytes(s, ret / 0x100, ret % 0x100);
    if Current(s).RST? { RstOpcode(opcode); }
  }

  /** For every opcode but HLT and the undocumented aliases, and every state, a step over stops right, except after a
      conditional return that is taken. */
  lemma StepOverStops(dev: Cpu.Devices, s: Arch)
    requires !Alias(Read(s.mem, s.regs.pc, Data)) && Current(s) != HLT
    requires Current(s).RET? && Current(s).cond != Unconditional ==> !Met(s.regs.f, Current(s).cond)
    ensures StopsRight(dev, s)
  {
    if Class(Current(s)) != 8 {
      hide StopsRight, Current, Class, Alias;
      BranchStops(dev, s);
    } else {
      hide StopsRight, Current, Class, Alias;
      StraightStops(dev, s);
    }
  }

  lemma StraightStops(dev: Cpu.Devices, s: Arch)
    requires Class(Current(s)) == 8 && !Alias(Read(s.mem, s.regs.pc, Data))
    ensures StopsRight(dev, s)
  {
    hide D.InstrLen, D.InstrType, Decode, JumpTarget, Alias, Exec, Data16, TopHigh, TopLow, Address, Length, Met;
    var opcode := Read(s.mem, s.regs.pc, Data);
    hide Read;
    AllFit(opcode);
    StraightPc(dev, Current(s), s);
    JumpTargetMeans(opcode, s.regs.f, Data16(s), Wrap(s.regs.pc + D.InstrLen(opcode)));
  }

  /** A conditional return that is taken goes to the stacked address, while the step over waits after the instruction:
      they agree exactly when the stack happens to hold that address. */
  lemma TakenReturn(dev: Cpu.Devices, s: Arch)
    requires !Alias(Read(s.mem, s.regs.pc, Data))
    requires Current(s).RET? && Current(s).cond != Unconditional && Met(s.regs.f, Current(s).cond)
    ensures StopsRight(dev, s) <==> Word(TopHigh(s), TopLow(s)) == Wrap(s.regs.pc + 1)
  {
    hide D.InstrLen, D.InstrType, Decode, JumpTarget, Alias, Data16, TopHigh, TopLow, Met, Word;
    var opcode := Read(s.mem, s.regs.pc, Data);
    hide Read;
    AllFit(opcode);
    JumpTargetMeans(opcode, s.regs.f, Data16(s), Wrap(s.regs.pc + D.InstrLen(opcode)));
  }

  /** The machine cycles of the instruction under PC; MOV M,L ends after its first. */
  function Taken(m: Cpu.Machine): (n: nat) { if T.Opcode(m) == D.OPCODE_MOV_M_L then 1 else P.Cycles(m) }

  /** On the machine: once the cycles of the instruction have run, whatever the interrupt line did meanwhile, PC is the
      step-over address; a taken call has left that address on the stack. */
  lemma StepOverReached(dev: Cpu.Devices, m: Cpu.Machine, irq: nat -> bool)
    requires m.cpu.ints.mc == 0 && !Cpu.Accepts(m.cpu.ints, irq(0)) && T.Opcode(m) != D.OPCODE_HLT && !Alias(T.Opcode(m))
    requires var i := Current(R.View(m)); i.RET? && i.cond != Unconditional ==> !Met(m.cpu.regs.f, i.cond)
    ensures var t := Cpu.Run(dev, m, irq, Taken(m));
            var addr := StepOverAddr(R.View(m));
            var i := Current(R.View(m));
            && t.cpu.ints.mc == 0
            && (if i.CALL? && Met(m.cpu.regs.f, i.cond) then
                  && addr == Wrap(m.cpu.regs.pc + 3)
                  && t.mem.ram[Translate(t.mem, t.cpu.regs.sp, Stack)] == addr % 0x100
                  && t.mem.ram[Translate(t.mem, Wrap(t.cpu.regs.sp + 1), Stack)] == addr / 0x100
                else t.cpu.regs.pc == addr)
  {
    hide Cpu.Run, P.Cycles, Step, StepOverAddr, Met, Translate, Alias, D.Decode, D.MCycles, Decode, Read;
    var s := R.View(m);
    P.IsaControlOpcodes(T.Opcode(m));
    StepOverStops(dev, s);
    if T.Opcode(m) == D.OPCODE_MOV_M_L {
      P.MovMlSkips(dev, m, irq);
      P.MovMlDecodes();
      MovMlPc(dev, s);
    } else {
      P.InstructionRefines(dev, m, irq);
    }
  }

  lemma MovMlPc(dev: Cpu.Devices, s: Arch)
    requires Current(s) == MOV(M, L)
    ensures Step(dev, s).regs.pc == Next(s, 1).regs.pc
  {
    hide Exec, Decode, Read;
    MovePc(dev, MOV(M, L), s);
  }

  lemma AliasDecodes(opcode: byte)
    requires Alias(opcode)
    ensures D.InstrLen(opcode) == 1 && D.InstrType(opcode) == 8
    ensures Decode(opcode) == match opcode case 0xCB => JMP(Unconditional) case 0xD9 => RET(Unconditional) case _ => CALL(Unconditional)
  {
    if opcode == 0xCB { assert Decode(0xCB) == JMP(Unconditional); }
    else if opcode == 0xD9 { assert Decode(0xD9) == RET(Unconditional); }
    else if opcode == 0xDD { assert Decode(0xDD) == CALL(Unconditional); }
    else if opcode == 0xED { assert Decode(0xED) == CALL(Unconditional); }
    else { assert Decode(0xFD) == CALL(Unconditional); }
  }

  /** The tables give length 1 and no class for the aliases, so a step over them always waits one byte on: right for
      the jump and the return only when they lead there, and for the calls never. */
  lemma AliasStops(dev: Cpu.Devices, s: Arch)
    requires Alias(Read(s.mem, s.regs.pc, Data))
    ensures StepOverAddr(s) == Wrap(s.regs.pc + 1)
    ensures StopsRight(dev, s) <==> match Current(s)
                                    case JMP(_) => Data16(s) == Wrap(s.regs.pc + 1)
                                    case RET(_) => Word(TopHigh(s), TopLow(s)) == Wrap(s.regs.pc + 1)
                                    case _ => false
  {
    hide Data16, TopHigh, TopLow, Address, Decode, D.InstrLen, D.InstrType, Word, JumpTarget;
    var opcode := Read(s.mem, s.regs.pc, Data);
    hide Read;
    AliasDecodes(opcode);
    assert JumpTarget(opcode, s.regs.f, Data16(s), Wrap(s.regs.pc + 1)) == Wrap(s.regs.pc + 1) by {
      AliasJump(opcode, s.regs.f, Data16(s), Wrap(s.regs.pc + 1));
    }
  }

  lemma AliasJump(opcode: byte, f: Cpu.Flags, target: word, next: word)
    requires Alias(opcode)
    ensures JumpTarget(opcode, f, target, next) == next
  {
  }
}
