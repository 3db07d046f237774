/** The CPU and the beam advance together (libs/v6core/src/hardware.cpp): sixteen pixels per machine cycle. */
module Lockstep {
  import opened Memory
  import opened CpuDecode
  import opened Cpu
  import opened V = CpuInvariants
  import I = Interrupts
  import opened Io
  import opened Display
  import opened Z = Rasterizer
  import W = WriteLog

  /** The rest of the machine: input devices, display settings, and the RAM-disk mapping as it follows from the
      port writes committed so far. */
  datatype Rig = Rig(dev: Devices, cfg: Config, mapping: seq<Out> -> Mapping, disk: seq<Out> -> Disk)

  datatype Board = Board(m: Machine, s: Screen)

  /** The OUT events of a stretch of port traffic. */
  function OutsOf(events: seq<PortEvent>): (outs: seq<Out>)
  {
    if |events| == 0 then []
    else
      var e := events[|events| - 1];
      OutsOf(events[..|events| - 1]) + (match e case PortOut(port, value) => [Io.Out.Out(port, value)] case PortIn(_, _) => [])
  }

  function NewOuts(before: Machine, after: Machine): (outs: seq<Out>)
  {
    if |before.ports| <= |after.ports| then OutsOf(after.ports[|before.ports|..]) else []
  }

  function Painted(rig: Rig, b: Board): (s: Screen) { Rasterize(false, rig.cfg, b.m.mem.ram, b.s) }

  /** The machine once the port writes due in these sixteen pixels are committed. */
  function Ready(rig: Rig, b: Board): (m: Machine)
  {
    var outs := Painted(rig, b).ports.committed;
    b.m.(mem := b.m.mem.(mapping := rig.mapping(outs), disk := rig.disk(outs)))
  }

  /** Rasterize, then one machine cycle that sees the interrupt line and latches its output ports. */
  function Tick(rig: Rig, b: Board): (b': Board)
  {
    var s := Painted(rig, b);
    var m := Ready(rig, b);
    var m' := Cycle(rig.dev, m, s.irq);
    Board(m', s.(ports := PortOuts(rig.cfg.times, s.ports, NewOuts(m, m'))))
  }

  /** Four pixels per clock. */
  predicate Synchronous(b: Board)
  {
    4 * b.m.cpu.cc == b.s.frameNum * FRAME_LEN + b.s.idx && b.s.idx % CHUNK == 0 && I.Protocol(b.m.cpu)
  }

  lemma TickInStep(rig: Rig, b: Board)
    requires Synchronous(b)
    ensures var b' := Tick(rig, b);
            && Synchronous(b')
            && b'.m.cpu.cc == b.m.cpu.cc + 4
            && b'.s.idx == Turned(b.s.idx, CHUNK)
            && b'.s.frameNum == b.s.frameNum + (if b.s.idx + CHUNK == FRAME_LEN then 1 else 0)
            && (Executed(b'.m.cpu) || b'.m.cpu.ints.mc == b.m.cpu.ints.mc + 1)
  {
    hide Rasterize, Cycle, I.Protocol, Executed;
    var s := Painted(rig, b);
    var m := Ready(rig, b);
    RasterizeTurns(false, rig.cfg, b.m.mem.ram, b.s);
    CycleClock(rig.dev, m, s.irq);
    I.CycleKeepsProtocol(rig.dev, m, s.irq);
    I.CycleAdvances(rig.dev, m, s.irq);
    FrameEnd(b.s.idx);
  }

  // ---- Whole runs -----------------------------------------------------------

  function Ticks(rig: Rig, b: Board, n: nat): (b': Board)
  {
    if n == 0 then b else Tick(rig, Ticks(rig, b, n - 1))
  }

  predicate AtReset(b: Board) { b.m.cpu == Cpu.Reset() && b.s.idx == 0 && b.s.frameNum == 0 }

  const TICKS_PER_FRAME := 14976

  /** Tick number 14976 f + r from reset finds the beam 16 r pixels into frame f, the clock at a quarter of the pixels:
      for every program, border, commit time and device. */
  lemma {:induction false} BeamAndClock(rig: Rig, b: Board, f: nat, r: nat)
    requires AtReset(b) && r < TICKS_PER_FRAME
    ensures var t := Ticks(rig, b, TICKS_PER_FRAME * f + r);
            && Synchronous(t)
            && t.s.frameNum == f && t.s.idx == CHUNK * r && t.m.cpu.cc == 59904 * f + 4 * r
    decreases f, r
  {
    hide Tick, I.Protocol, Turned;
    var n := TICKS_PER_FRAME * f + r;
    if n == 0 {
      I.ResetProtocol();
    } else {
      var f', r' := if r > 0 then f else f - 1, if r > 0 then r - 1 else TICKS_PER_FRAME - 1;
      assert n - 1 == TICKS_PER_FRAME * f' + r';
      BeamAndClock(rig, b, f', r');
      TickInStep(rig, Ticks(rig, b, n - 1));
      TurnedAt(r');
    }
  }

  lemma TurnedAt(r: nat)
    requires r < TICKS_PER_FRAME
    ensures Turned(CHUNK * r, CHUNK) == if r + 1 == TICKS_PER_FRAME then 0 else CHUNK * (r + 1)
  {
  }

  // ---- The interrupt pulse ----------------------------------------------------

  /** The pixel whose painting brings the beam to the interrupt pixel, and its chunk. */
  function PulsePixel(cfg: Config): (i: nat)
    requires 0 <= cfg.irqCommitPxl < FRAME_LEN
    ensures i < FRAME_LEN && Turned(i, 1) == cfg.irqCommitPxl
  {
    if cfg.irqCommitPxl == 0 then FRAME_LEN - 1 else cfg.irqCommitPxl - 1
  }

  function PulseChunk(cfg: Config): (r: nat)
    requires 0 <= cfg.irqCommitPxl < FRAME_LEN
    ensures r < TICKS_PER_FRAME
  {
    PulsePixel(cfg) / CHUNK
  }

  /** The interrupt pixel exists, chunk `r` reaches it, and it does so from the border. */
  predicate PulseDue(cfg: Config, r: nat)
  {
    0 <= cfg.irqCommitPxl < FRAME_LEN && r == PulseChunk(cfg) && !IsActive(cfg, PulsePixel(cfg))
  }

  lemma PulseAt(cfg: Config, r: nat)
    requires r < TICKS_PER_FRAME
    ensures PulseIn(cfg, CHUNK * r) <==> PulseDue(cfg, r)
  {
    hide IsActive;
    var p := cfg.irqCommitPxl;
    if PulseDue(cfg, r) {
      var k := PulsePixel(cfg) - CHUNK * r + 1;
      assert 1 <= k <= CHUNK && Turned(CHUNK * r, k) == p && CHUNK * r + k - 1 == PulsePixel(cfg);
    }
    if k :| 1 <= k <= CHUNK && Turned(CHUNK * r, k) == p && !IsActive(cfg, CHUNK * r + k - 1) {
      assert PulsePixel(cfg) == CHUNK * r + k - 1;
    }
  }

  lemma TickPulses(rig: Rig, b: Board)
    requires b.s.idx % CHUNK == 0
    ensures Tick(rig, b).s.irq <==> PulseIn(rig.cfg, b.s.idx) && HandlesBorder(false, b.s.idx, b.s.ports)
  {
    hide Rasterize, Cycle, PulseIn, HandlesBorder, SameSigns;
    RasterizePulses(false, rig.cfg, b.m.mem.ram, b.s);
  }

  /** From reset, for every program, device, border, interrupt pixel and commit time: the line pulses in exactly the
      tick whose border pixel reaches the interrupt pixel, if that border is painted by the fill that handles it. */
  lemma PulseIff(rig: Rig, b: Board, f: nat, r: nat)
    requires AtReset(b) && r < TICKS_PER_FRAME
    ensures var n := TICKS_PER_FRAME * f + r;
            Ticks(rig, b, n + 1).s.irq <==> PulseDue(rig.cfg, r) && HandlesBorder(false, CHUNK * r, Ticks(rig, b, n).s.ports)
  {
    hide Tick, PulseIn, PulseDue, HandlesBorder, I.Protocol;
    var n := TICKS_PER_FRAME * f + r;
    BeamAndClock(rig, b, f, r);
    NextTick(rig, b, n);
    TickPulses(rig, Ticks(rig, b, n));
    PulseAt(rig.cfg, r);
  }

  /** A timer is not negative and no port write makes both negative. */
  predicate Armed(times: Times, p: Ports)
  {
    || (Signed8(times.out) >= 0 && (p.outTimer >= 0 || p.paletteTimer >= 0))
    || (Signed8(times.palette) >= 0 && p.paletteTimer >= 0)
  }

  lemma {:induction false} OutsKeepArmed(times: Times, p: Ports, outs: seq<Out>)
    requires Armed(times, p)
    ensures Armed(times, PortOuts(times, p, outs))
  {
    if |outs| > 0 { OutsKeepArmed(times, p, outs[..|outs| - 1]); }
  }

  lemma {:induction false} StaysArmed(rig: Rig, b: Board, n: nat)
    requires Synchronous(b) && Armed(rig.cfg.times, b.s.ports)
    ensures Synchronous(Ticks(rig, b, n)) && Armed(rig.cfg.times, Ticks(rig, b, n).s.ports)
  {
    hide Tick, I.Protocol, Armed;
    if n > 0 {
      StaysArmed(rig, b, n - 1);
      TickArmed(rig, Ticks(rig, b, n - 1));
      TickInStep(rig, Ticks(rig, b, n - 1));
    }
  }

  lemma TickArmed(rig: Rig, b: Board)
    requires b.s.idx % CHUNK == 0 && Armed(rig.cfg.times, b.s.ports)
    ensures Armed(rig.cfg.times, Tick(rig, b).s.ports)
  {
    hide Rasterize, Cycle, PulseIn, HandlesBorder, Signed8;
    var s := Painted(rig, b);
    var m := Ready(rig, b);
    RasterizePulses(false, rig.cfg, b.m.mem.ram, b.s);
    OutsKeepArmed(rig.cfg.times, s.ports, NewOuts(m, Cycle(rig.dev, m, s.irq)));
  }

  /** From reset, the interrupt line pulses in exactly one Rasterize of every frame if the interrupt pixel exists and is
      reached inside the border, and otherwise never: for any left border, aligned or not, and any commit times that
      are not negative, as the one for outputs never is. */
  lemma OnePulsePerFrame(rig: Rig, b: Board, f: nat, r: nat)
    requires AtReset(b) && Armed(rig.cfg.times, b.s.ports) && r < TICKS_PER_FRAME
    ensures Ticks(rig, b, TICKS_PER_FRAME * f + r + 1).s.irq <==> PulseDue(rig.cfg, r)
  {
    hide Tick, PulseDue, I.Protocol, Signed8;
    I.ResetProtocol();
    PulseIff(rig, b, f, r);
    StaysArmed(rig, b, TICKS_PER_FRAME * f + r);
  }

  /** On the first and the last line no commit time matters. The shipped interrupt pixel is there: the line pulses in
      tick 6 of every frame and in no other, whatever the left border and the commit times. */
  lemma ShippedPulse(rig: Rig, b: Board, f: nat, r: nat)
    requires AtReset(b) && rig.cfg.irqCommitPxl == 112 && r < TICKS_PER_FRAME
    ensures Ticks(rig, b, TICKS_PER_FRAME * f + r + 1).s.irq <==> r == 6
  {
    hide Tick;
    PulseIff(rig, b, f, r);
  }

  /** DebugInit: the write log starts empty. */
  function Cleared(b: Board): (r: Board) { b.(m := b.m.(log := b.m.log.(len := 0))) }

  lemma OneTick(rig: Rig, b: Board)
    requires Synchronous(b)
    ensures Synchronous(Tick(rig, b)) && Tick(rig, b).m.cpu.cc == b.m.cpu.cc + 4
    ensures Executed(Tick(rig, b).m.cpu) || Tick(rig, b).m.cpu.ints.mc == b.m.cpu.ints.mc + 1
    ensures b.m.cpu.ints.mc < 6
  {
    hide Tick, MCycles;
    TickInStep(rig, b);
  }

  lemma NextTick(rig: Rig, b: Board, n: nat)
    ensures Ticks(rig, b, n + 1) == Tick(rig, Ticks(rig, b, n))
  {
    hide Tick;
  }

  lemma NoTick(rig: Rig, b: Board)
    ensures Ticks(rig, b, 0) == b
  {
  }

  lemma FirstTick(rig: Rig, b: Board)
    ensures Ticks(rig, b, 1) == Tick(rig, b)
  {
    hide Tick;
    assert Ticks(rig, b, 0) == b;
  }

  /** The write log of a whole instruction, run on the whole machine, is exact unless the instruction is an XTHL. */
  lemma InstructionLogExact(rig: Rig, b: Board, n: nat)
    requires I.Protocol(b.m.cpu) && Executed(b.m.cpu) && n > 0
    requires b.m.log.len == 0 && W.LogInRange(b.m.log)
    requires forall k :: 0 < k < n ==> !Executed(Ticks(rig, b, k).m.cpu)
    requires Executed(Ticks(rig, b, n).m.cpu) && Decode(Ticks(rig, b, n).m.cpu.hid.ir) != Xthl
    ensures W.Exact(b.m.mem.ram, Ticks(rig, b, n).m.mem.ram, Ticks(rig, b, n).m.log)
  {
    hide Tick, Decode, Cycle, I.Protocol, W.Exact, W.LogInRange, Painted, BegunIr;
    var t := (k: nat) => Ready(rig, Ticks(rig, b, k));
    var irq := (k: nat) => Painted(rig, Ticks(rig, b, k)).irq;
    forall k: nat ensures W.KeepsRam(rig.dev, t, irq, k) { TickKeepsRam(rig, b, k); }
    assert Ticks(rig, b, 0) == b;
    if b.m.cpu.ints.mc == 0 {
      assert forall k :: 0 < k < n ==> t(k).cpu.ints.mc > 0;
      LogEndsExact(rig.dev, t, irq, n);
    } else {
      HaltedTick(rig, b);
      FirstTick(rig, b);
      assert Executed(Ticks(rig, b, 1).m.cpu);
    }
  }

  lemma LogEndsExact(dev: Devices, t: nat -> Machine, irq: nat -> bool, n: nat)
    requires n > 0 && forall k: nat :: W.KeepsRam(dev, t, irq, k)
    requires t(0).cpu.ints.mc == 0 && t(0).log.len == 0 && W.LogInRange(t(0).log)
    requires forall k :: 0 < k < n ==> t(k).cpu.ints.mc > 0
    requires Decode(t(n).cpu.hid.ir) != Xthl
    ensures W.Exact(t(0).mem.ram, t(n).mem.ram, t(n).log)
  {
    hide Decode, Cycle, W.Exact, BegunIr, W.Logging;
    SameOpcode(dev, t, irq, n);
    W.LogIsExact(dev, t, irq, 0, n);
  }

  lemma {:induction false} SameOpcode(dev: Devices, t: nat -> Machine, irq: nat -> bool, n: nat)
    requires n > 0 && forall k: nat :: W.KeepsRam(dev, t, irq, k)
    requires forall k :: 0 < k < n ==> t(k).cpu.ints.mc > 0
    ensures t(n).cpu.hid.ir == BegunIr(t(0), irq(0))
  {
    hide Cycle, BegunIr;
    assert W.KeepsRam(dev, t, irq, n - 1);
    W.CycleIr(dev, t(n - 1), irq(n - 1));
    if n > 1 {
      SameOpcode(dev, t, irq, n - 1);
      I.BegunStays(t(n - 1), irq(n - 1));
    }
  }

  lemma TickKeepsRam(rig: Rig, b: Board, k: nat)
    ensures W.KeepsRam(rig.dev, (k: nat) => Ready(rig, Ticks(rig, b, k)), (k: nat) => Painted(rig, Ticks(rig, b, k)).irq, k)
  {
    hide Tick, Cycle, Painted;
    NextTick(rig, b, k);
    TickRuns(rig, Ticks(rig, b, k));
  }

  lemma TickRuns(rig: Rig, b: Board)
    ensures Tick(rig, b).m == Cycle(rig.dev, Ready(rig, b), Painted(rig, b).irq)
  {
    hide Cycle, Painted;
  }

  /** A halted CPU stays in HLT for the cycle and stores nothing. */
  lemma HaltedTick(rig: Rig, b: Board)
    requires I.Protocol(b.m.cpu) && Executed(b.m.cpu) && b.m.cpu.ints.mc != 0
    requires b.m.log.len == 0 && W.LogInRange(b.m.log)
    ensures var r := Tick(rig, b).m; Executed(r.cpu) && W.Exact(b.m.mem.ram, r.mem.ram, r.log)
  {
    hide Cycle, Decode, MCycles, Painted, W.Exact, W.Stored, W.Points;
    TickRuns(rig, b);
    var m, irq := Ready(rig, b), Painted(rig, b).irq;
    I.TableFacts();
    CycleControl(rig.dev, m, irq);
    IntsCases(Hlt, m.cpu.regs.f, BegunInts(m.cpu.ints, irq));
    W.HltStoresNothing(m, 1, 0);
    W.EmptyLogExact(b.m.mem.ram, b.m.log);
    W.CycleLogs(rig.dev, b.m.mem.ram, m, irq);
  }
}
