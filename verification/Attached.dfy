/** The whole machine with the debugger attached (libs/v6core/src/hardware.cpp, debugger.cpp): every instruction is
    followed by Debug, which takes back writes to locked bytes and feeds the recorder; playback moves the machine. */
module Attached {
  import opened Bytes
  import opened Memory
  import opened CpuDecode
  import opened Cpu
  import I = Interrupts
  import Io
  import Display
  import opened Lockstep
  import W = WriteLog
  import E = MemoryEdits
  import R = Recorder

  /** What the recorder keeps of a machine besides the frame number and the memory. */
  datatype Kept = Kept(
    cpu: State, mapping: Mapping, disk: Disk, romOn: bool, traffic: seq<PortEvent>,
    idx: Display.Index, irq: bool, scroll: byte, ports: Io.Ports)

  function WorldOf(b: Board): (w: R.World<Kept>)
  {
    var k := Kept(b.m.cpu, b.m.mem.mapping, b.m.mem.disk, b.m.mem.romOn, b.m.ports, b.s.idx, b.s.irq, b.s.scroll, b.s.ports);
    R.World(R.Hw(b.s.frameNum, k), b.m.mem.ram)
  }

  datatype Attached = Attached(board: Board, tape: R.Tape<Kept>)
  {
    function Session(): (s: R.Session<Kept>) { R.Session(tape, WorldOf(board)) }
  }

  /** The write check of Debug. */
  function Checked(edits: E.Edits, b: Board): (r: Board)
    requires W.LogInRange(b.m.log)
  {
    var ram := E.RevertedRam(edits, b.m.mem.ram, b.m.log);
    b.(m := b.m.(mem := b.m.mem.(ram := ram), log := E.RevertedLog(edits, b.m.log)))
  }

  /** `t` is the board when the instruction begun on `b` is executed, `n` ticks later, and that is not an XTHL. */
  ghost predicate Executes(rig: Rig, b: Board, n: nat, t: Board)
  {
    && n > 0 && t == Ticks(rig, Cleared(b), n)
    && Executed(t.m.cpu) && Decode(t.m.cpu.hid.ir) != Xthl
    && forall k :: 0 < k < n ==> !Executed(Ticks(rig, Cleared(b), k).m.cpu)
  }

  datatype Op = Instruction(ticks: nat) | Reverse(frames: nat) | Forward(frames: nat)

  /** One operation. Playback leaves a machine that shows the restored world, whatever its frame buffers hold. */
  ghost predicate Next(rig: Rig, edits: E.Edits, a: Attached, op: Op, a': Attached)
  {
    match op
    case Instruction(n) =>
      var t := Ticks(rig, Cleared(a.board), n);
      && Executes(rig, a.board, n, t)
      && (W.LogInRange(t.m.log) ==> a'.board == Checked(edits, t))
      && (a.tape.idx < |a.tape.states| ==> a'.tape == R.Update(a.tape, WorldOf(a'.board), a'.board.m.log))
    case Reverse(k) =>
      && (k > 0 ==> R.Clear(a.tape, k))
      && a'.Session() == R.PlayReverse(a.Session(), k) && a'.board.m.log == a.board.m.log
    case Forward(k) =>
      && (k > 0 ==> !a.tape.live)
      && a'.Session() == R.PlayForward(a.Session(), k) && a'.board.m.log == a.board.m.log
  }

  /** Between instructions, with the beam and the clock in step. */
  predicate Standing(cpu: State, frameNum: nat, idx: nat)
  {
    4 * cpu.cc == frameNum * Display.FRAME_LEN + idx && idx % Display.CHUNK == 0 && I.Protocol(cpu) && Executed(cpu)
  }

  /** A machine an instruction may start from, with the locked bytes as they were in `ram`. */
  ghost predicate Good(edits: E.Edits, ram: Ram, w: R.World<Kept>)
  {
    && Standing(w.hw.rest.cpu, w.hw.frameNum, w.hw.rest.idx)
    && forall g :: 0 <= g < GLOBAL_LEN && E.Locked(edits, g) ==> w.ram[g] == ram[g]
  }

  ghost predicate AllGood(edits: E.Edits, ram: Ram, h: seq<R.World<Kept>>)
  {
    forall i :: 0 <= i < |h| ==> Good(edits, ram, h[i])
  }

  ghost predicate Inv(edits: E.Edits, ram: Ram, a: Attached, h: seq<R.World<Kept>>)
  {
    && R.Consistent(a.Session(), h) && W.LogInRange(a.board.m.log)
    && Good(edits, ram, WorldOf(a.board)) && AllGood(edits, ram, h)
  }

  function HistoryStep(a: Attached, h: seq<R.World<Kept>>, op: Op, a': Attached): (h': seq<R.World<Kept>>)
    requires |h| == a.tape.recorded >= a.tape.current
  {
    if op.Instruction? then R.Extended(a.tape, h, WorldOf(a'.board)) else h
  }

  lemma {:induction false} TicksInStep(rig: Rig, b: Board, n: nat)
    requires Synchronous(b)
    ensures Synchronous(Ticks(rig, b, n))
  {
    hide Tick, Synchronous;
    if n > 0 {
      TicksInStep(rig, b, n - 1);
      OneTick(rig, Ticks(rig, b, n - 1));
    }
  }

  /** An instruction leaves an exact log, also after the check, and no locked byte changed. */
  lemma InstructionGood(rig: Rig, edits: E.Edits, ram: Ram, b: Board, n: nat, t: Board)
    requires Good(edits, ram, WorldOf(b)) && W.LogInRange(b.m.log) && Executes(rig, b, n, t)
    ensures W.LogInRange(t.m.log)
    ensures var c := Checked(edits, t);
            Good(edits, ram, WorldOf(c)) && W.Exact(b.m.mem.ram, c.m.mem.ram, c.m.log) && W.LogInRange(c.m.log)
  {
    hide Ticks, I.Protocol, Executed, Decode, W.Redo, W.Undo, E.RevertedRam, E.RevertedLog, E.Locked;
    var b0 := Cleared(b);
    InstructionLogExact(rig, b0, n);
    TicksInStep(rig, b0, n);
    E.RevertKeepsLocked(edits, b.m.mem.ram, t.m.mem.ram, t.m.log);
  }

  lemma ExtendedGood(edits: E.Edits, ram: Ram, t: R.Tape<Kept>, h: seq<R.World<Kept>>, w: R.World<Kept>)
    requires |h| == t.recorded >= t.current && AllGood(edits, ram, h) && Good(edits, ram, w)
    ensures AllGood(edits, ram, R.Extended(t, h, w))
  {
    hide Good;
  }

  /** Playback stops on a recorded world. */
  lemma PlaybackGood(edits: E.Edits, ram: Ram, s: R.Session<Kept>, h: seq<R.World<Kept>>, op: R.Op<Kept>)
    requires R.Consistent(s, h) && R.Allowed(s, op) && !op.Execute? && op.frames > 0 && AllGood(edits, ram, h)
    ensures R.Consistent(R.Step(s, op), h) && Good(edits, ram, R.Step(s, op).world)
  {
    hide Good, R.Clear, R.Slot, R.StartsAt, R.Leads;
    R.StepConsistent(s, h, op);
    if op.Reverse? {
      R.ReverseLands(s, h, op.frames);
      assert Good(edits, ram, h[R.ReverseTarget(s.tape, op.frames) - 1]);
    } else {
      R.ForwardLands(s, h, op.frames);
      var c := s.tape.current + op.frames;
      assert Good(edits, ram, h[(if c <= s.tape.recorded then c else s.tape.recorded) - 1]);
    }
  }

  /** Every operation keeps the machine on the recorded history and the locked bytes in place. */
  lemma StepKeeps(rig: Rig, edits: E.Edits, ram: Ram, a: Attached, h: seq<R.World<Kept>>, op: Op, a': Attached)
    requires Inv(edits, ram, a, h) && Next(rig, edits, a, op, a')
    ensures Inv(edits, ram, a', HistoryStep(a, h, op, a')) && |a'.tape.states| == |a.tape.states|
  {
    hide Good, AllGood, Checked, Executes, Ticks, R.Update, R.Extended, R.Clear, R.CanReverse, R.CanForward, W.Exact,
      R.StartsAt, R.Leads, R.Joins;
    var s := a.Session();
    match op
    case Instruction(n) =>
      var t := Ticks(rig, Cleared(a.board), n);
      InstructionGood(rig, edits, ram, a.board, n, t);
      R.UpdateConsistent(s, h, WorldOf(a'.board), a'.board.m.log);
      ExtendedGood(edits, ram, a.tape, h, WorldOf(a'.board));
      R.RingSize(s, h, R.Execute(WorldOf(a'.board), a'.board.m.log));
    case Reverse(k) =>
      if k > 0 { PlaybackGood(edits, ram, s, h, R.Reverse(k)); R.RingSize(s, h, R.Reverse(k)); }
    case Forward(k) =>
      if k > 0 { PlaybackGood(edits, ram, s, h, R.Forward(k)); R.RingSize(s, h, R.Forward(k)); }
  }

  ghost function HistoryAt(a: nat -> Attached, ops: nat -> Op, k: nat): (h: seq<R.World<Kept>>)
  {
    if k == 0 then [WorldOf(a(0).board)]
    else
      var h := HistoryAt(a, ops, k - 1);
      if |h| == a(k - 1).tape.recorded >= a(k - 1).tape.current then HistoryStep(a(k - 1), h, ops(k - 1), a(k)) else h
  }

  lemma {:induction false} StaysGood(rig: Rig, edits: E.Edits, blank: R.Tape<Kept>, a: nat -> Attached, ops: nat -> Op, k: nat)
    requires |blank.states| > 0 && a(0).tape == R.Reset(blank, WorldOf(a(0).board))
    requires Synchronous(a(0).board) && Executed(a(0).board.m.cpu) && W.LogInRange(a(0).board.m.log)
    requires forall i :: 0 <= i < k ==> Next(rig, edits, a(i), ops(i), a(i + 1))
    ensures Inv(edits, a(0).board.m.mem.ram, a(k), HistoryAt(a, ops, k))
  {
    hide Next, Executed, I.Protocol;
    var ram := a(0).board.m.mem.ram;
    if k == 0 {
      R.ResetConsistent(blank, WorldOf(a(0).board));
    } else {
      StaysGood(rig, edits, blank, a, ops, k - 1);
      hide Inv, Good;
      var h := HistoryAt(a, ops, k - 1);
      assert Next(rig, edits, a(k - 1), ops(k - 1), a(k));
      InvSane(edits, ram, a(k - 1), h);
      StepKeeps(rig, edits, ram, a(k - 1), h, ops(k - 1), a(k));
    }
  }

  lemma InvSane(edits: E.Edits, ram: Ram, a: Attached, h: seq<R.World<Kept>>)
    requires Inv(edits, ram, a, h)
    ensures |h| == a.tape.recorded >= a.tape.current
  {
  }

  /** Over every run of instructions (no XTHL) and playback from a recorder reset, under any table of edits: the machine
      stands on the recorded history, four pixels per clock, and every locked byte reads as it did at the start, now and
      in every recorded frame. */
  lemma LockedThroughTimeTravel(rig: Rig, edits: E.Edits, blank: R.Tape<Kept>, a: nat -> Attached, ops: nat -> Op, k: nat, g: nat)
    requires |blank.states| > 0 && a(0).tape == R.Reset(blank, WorldOf(a(0).board))
    requires Synchronous(a(0).board) && Executed(a(0).board.m.cpu) && W.LogInRange(a(0).board.m.log)
    requires forall i :: 0 <= i < k ==> Next(rig, edits, a(i), ops(i), a(i + 1))
    requires g < GLOBAL_LEN && E.Locked(edits, g)
    ensures var h, byte0 := HistoryAt(a, ops, k), a(0).board.m.mem.ram[g];
            && R.Consistent(R.Session(a(k).tape, WorldOf(a(k).board)), h)
            && Synchronous(a(k).board) && Executed(a(k).board.m.cpu)
            && a(k).board.m.mem.ram[g] == byte0
            && forall i :: 0 <= i < |h| ==> h[i].ram[g] == byte0
  {
    hide *;
    StaysGood(rig, edits, blank, a, ops, k);
    InvMeans(edits, a(0).board.m.mem.ram, a(k), HistoryAt(a, ops, k), g);
  }

  lemma InvMeans(edits: E.Edits, ram: Ram, a: Attached, h: seq<R.World<Kept>>, g: nat)
    requires Inv(edits, ram, a, h) && g < GLOBAL_LEN && E.Locked(edits, g)
    ensures R.Consistent(R.Session(a.tape, WorldOf(a.board)), h)
    ensures Synchronous(a.board) && Executed(a.board.m.cpu) && a.board.m.mem.ram[g] == ram[g]
    ensures forall i :: 0 <= i < |h| ==> h[i].ram[g] == ram[g]
  {
    hide Executed, I.Protocol, R.Consistent, E.Locked;
    forall i | 0 <= i < |h| ensures h[i].ram[g] == ram[g] { assert Good(edits, ram, h[i]); }
  }
}
