/** The opcode switch in parts: memory transfers, flow, registers, operands, single cycles and control. */
module CpuGroups {
  import opened CpuDecode
  import opened Cpu

  predicate IsFlow(h: Handler)
  {
    match h
    case Xthl | Push(_) | Pop(_) | Jmp(_) | Call(_) | Ret | RetCond(_) | Rst(_) | In | Out => true
    case _ => false
  }

  predicate IsData(h: Handler)
  {
    match h
    case LoadRegPtr(_, _) | MovMemReg(_) | MviRegData(_) | MviMemData | Lda | Sta
      | StaxPtr(_) | LxiPair(_) | Lhld | Shld | InrMem | DcrMem => true
    case _ => false
  }

  predicate IsRegister(h: Handler)
  {
    match h
    case MovRegReg(_, _) | Sphl | Xchg | DadPair(_) | InrReg(_) | DcrReg(_) | InxPair(_) | DcxPair(_) | Pchl => true
    case _ => false
  }

  predicate IsMemOperand(h: Handler)
  {
    match h case AddMem(_) | SubMem(_) | AnaMem | XraMem | OraMem | CmpMem => true case _ => false
  }

  predicate IsImmOperand(h: Handler)
  {
    match h case Adi(_) | Sbi(_) | Ani | Xri | Ori | Cpi => true case _ => false
  }

  predicate IsRegOperand(h: Handler)
  {
    match h case AddReg(_, _) | SubReg(_, _) | AnaReg(_) | XraReg(_) | OraReg(_) | CmpReg(_) => true case _ => false
  }

  predicate IsAccumulator(h: Handler)
  {
    match h case Daa | Cma | Stc | Cmc | Rlc | Rrc | Ral | Rar => true case _ => false
  }

  lemma Kinds(h: Handler)
    requires h != Hlt && h != Ei && h != Di
    ensures IsFlow(h) || IsData(h) || IsRegister(h) || IsMemOperand(h) || IsImmOperand(h)
            || IsRegOperand(h) || IsAccumulator(h) || h == Nop
  {
  }

  // Which part of the switch a handler is in.

  lemma HandleData(dev: Devices, h: Handler, m: Machine)
    requires IsData(h)
    ensures Handle(dev, h, m) == TransferStep(h, m)
  {
    hide TransferStep, FlowStep, RegisterStep, MemOperandStep, ImmOperandStep, DiStep, EiStep, HltStep, SingleCycleStep;
  }

  lemma HandleFlow(dev: Devices, h: Handler, m: Machine)
    requires IsFlow(h)
    ensures Handle(dev, h, m) == FlowStep(dev, h, m)
  {
    hide TransferStep, FlowStep, RegisterStep, MemOperandStep, ImmOperandStep, DiStep, EiStep, HltStep, SingleCycleStep;
  }

  lemma HandleRegister(dev: Devices, h: Handler, m: Machine)
    requires IsRegister(h)
    ensures Handle(dev, h, m) == RegisterStep(h, m)
  {
    hide TransferStep, FlowStep, RegisterStep, MemOperandStep, ImmOperandStep, DiStep, EiStep, HltStep, SingleCycleStep;
  }

  lemma HandleOperand(dev: Devices, h: Handler, m: Machine)
    ensures IsMemOperand(h) ==> Handle(dev, h, m) == MemOperandStep(h, m)
    ensures IsImmOperand(h) ==> Handle(dev, h, m) == ImmOperandStep(h, m)
  {
    hide TransferStep, FlowStep, RegisterStep, MemOperandStep, ImmOperandStep, DiStep, EiStep, HltStep, SingleCycleStep;
  }

  lemma HandleSingle(dev: Devices, h: Handler, m: Machine)
    requires IsRegOperand(h) || IsAccumulator(h) || h == Nop
    ensures Handle(dev, h, m) == SingleCycleStep(h, m)
  {
    hide TransferStep, FlowStep, RegisterStep, MemOperandStep, ImmOperandStep, DiStep, EiStep, HltStep, SingleCycleStep;
  }

  lemma HandleControl(dev: Devices, h: Handler, m: Machine)
    requires h == Di || h == Ei || h == Hlt
    ensures Handle(dev, h, m) == if h == Di then DiStep(m) else if h == Ei then EiStep(m) else HltStep(m)
  {
    hide TransferStep, FlowStep, RegisterStep, MemOperandStep, ImmOperandStep, DiStep, EiStep, HltStep, SingleCycleStep;
  }

  // What each part of the switch calls.

  lemma TransferCases(h: Handler, m: Machine)
    ensures h.LoadRegPtr? ==> TransferStep(h, m) == LoadRegPtrStep(m, h.d, h.p)
    ensures h.MovMemReg? ==> TransferStep(h, m) == MovMemRegStep(m, h.s)
    ensures h.MviRegData? ==> TransferStep(h, m) == MviRegDataStep(m, h.d)
    ensures h.MviMemData? ==> TransferStep(h, m) == MviMemDataStep(m)
    ensures h.Lda? ==> TransferStep(h, m) == LdaStep(m)
    ensures h.Sta? ==> TransferStep(h, m) == StaStep(m)
    ensures h.StaxPtr? ==> TransferStep(h, m) == StaxStep(m, h.p)
    ensures h.LxiPair? ==> TransferStep(h, m) == LxiStep(m, h.p)
    ensures h.Lhld? ==> TransferStep(h, m) == LhldStep(m)
    ensures h.Shld? ==> TransferStep(h, m) == ShldStep(m)
    ensures h.InrMem? ==> TransferStep(h, m) == InrMemStep(m)
    ensures h.DcrMem? ==> TransferStep(h, m) == DcrMemStep(m)
  {
    hide LoadRegPtrStep, MovMemRegStep, MviRegDataStep, MviMemDataStep, LdaStep, StaStep, StaxStep, LxiStep, LhldStep, ShldStep,
      InrMemStep, DcrMemStep;
  }

  lemma StackCases(dev: Devices, h: Handler, m: Machine)
    ensures h.Xthl? ==> FlowStep(dev, h, m) == XthlStep(m)
    ensures h.Push? ==> FlowStep(dev, h, m) == PushStep(m, h.p)
    ensures h.Pop? ==> FlowStep(dev, h, m) == PopStep(m, h.p)
    ensures h.In? ==> FlowStep(dev, h, m) == InStep(dev, m)
    ensures h.Out? ==> FlowStep(dev, h, m) == OutStep(m)
  {
    hide XthlStep, PushStep, PopStep, JmpStep, CallStep, RetStep, RetCondStep, RstStep, InStep, OutStep;
  }

  lemma BranchCases(dev: Devices, h: Handler, m: Machine)
    ensures h.Jmp? ==> FlowStep(dev, h, m) == JmpStep(m, h.cond)
    ensures h.Call? ==> FlowStep(dev, h, m) == CallStep(m, h.cond)
    ensures h.Ret? ==> FlowStep(dev, h, m) == RetStep(m)
    ensures h.RetCond? ==> FlowStep(dev, h, m) == RetCondStep(m, h.cond)
    ensures h.Rst? ==> FlowStep(dev, h, m) == RstStep(m, h.arg)
  {
    hide XthlStep, PushStep, PopStep, JmpStep, CallStep, RetStep, RetCondStep, RstStep, InStep, OutStep;
  }

  lemma FlowCases(dev: Devices, h: Handler, m: Machine)
    ensures h.Xthl? ==> FlowStep(dev, h, m) == XthlStep(m)
    ensures h.Push? ==> FlowStep(dev, h, m) == PushStep(m, h.p)
    ensures h.Pop? ==> FlowStep(dev, h, m) == PopStep(m, h.p)
    ensures h.Jmp? ==> FlowStep(dev, h, m) == JmpStep(m, h.cond)
    ensures h.Call? ==> FlowStep(dev, h, m) == CallStep(m, h.cond)
    ensures h.Ret? ==> FlowStep(dev, h, m) == RetStep(m)
    ensures h.RetCond? ==> FlowStep(dev, h, m) == RetCondStep(m, h.cond)
    ensures h.Rst? ==> FlowStep(dev, h, m) == RstStep(m, h.arg)
    ensures h.In? ==> FlowStep(dev, h, m) == InStep(dev, m)
    ensures h.Out? ==> FlowStep(dev, h, m) == OutStep(m)
  {
    hide FlowStep;
    StackCases(dev, h, m);
    BranchCases(dev, h, m);
  }

  lemma RegisterCases(h: Handler, m: Machine)
    ensures h.MovRegReg? ==> RegisterStep(h, m) == MovRegRegStep(m, h.d, h.s)
    ensures h.Sphl? ==> RegisterStep(h, m) == SphlStep(m)
    ensures h.Xchg? ==> RegisterStep(h, m) == XchgStep(m)
    ensures h.DadPair? ==> RegisterStep(h, m) == DadStep(m, h.p)
    ensures h.InrReg? ==> RegisterStep(h, m) == InrStep(m, h.d)
    ensures h.DcrReg? ==> RegisterStep(h, m) == DcrStep(m, h.d)
    ensures h.InxPair? ==> RegisterStep(h, m) == InxStep(m, h.p, 1)
    ensures h.DcxPair? ==> RegisterStep(h, m) == InxStep(m, h.p, -1)
    ensures h.Pchl? ==> RegisterStep(h, m) == PchlStep(m)
  {
    hide MovRegRegStep, SphlStep, XchgStep, DadStep, InrStep, DcrStep, InxStep, PchlStep;
  }
}
