/** class Hardware of libs/v6core/src/hardware.cpp: the CPU and the display unit over one memory, and the loops that
    drive them. */
module HardwareUnit {
  import opened Cpu
  import Io
  import Display
  import opened Lockstep
  import CpuUnit
  import DisplayUnit
  import I = Interrupts
  import Z = Rasterizer

  class Hardware {
    const rig: Rig
    const cpu: CpuUnit.I8080
    const display: DisplayUnit.Display

    constructor (rig: Rig, cpu: CpuUnit.I8080, display: DisplayUnit.Display)
      requires cpu.Valid() && display.Valid() && cpu.dev == rig.dev && display.Cfg() == rig.cfg
      requires display.ram == cpu.memory.ram
      ensures this.rig == rig && this.cpu == cpu && this.display == display
      ensures Valid() && View() == Board(cpu.View(), display.View())
    {
      this.rig, this.cpu, this.display := rig, cpu, display;
    }

    ghost predicate Valid()
      reads this, cpu, cpu.memory, display, display.io
    {
      && cpu.Valid() && display.Valid() && cpu.dev == rig.dev && display.Cfg() == rig.cfg
      && display.ram == cpu.memory.ram
    }

    ghost function View(): (b: Board)
      requires Valid()
      reads this, cpu, cpu.memory, cpu.memory.ram, display, display.buffer, display.backBuffer, display.io, display.io.palette
    {
      Board(cpu.View(), display.View())
    }

    /** Between two instructions, the beam and the clock in step. */
    ghost predicate Ready()
      requires Valid()
      reads this, cpu, cpu.memory, cpu.memory.ram, display, display.buffer, display.backBuffer, display.io, display.io.palette
    {
      Synchronous(View()) && Executed(View().m.cpu)
    }

    /** Sixteen pixels, then one machine cycle. */
    method Tick()
      requires Valid()
      modifies cpu, cpu.memory, cpu.memory.ram, display, display.buffer, display.backBuffer, display.io, display.io.palette
      ensures Valid()
      ensures View() == Lockstep.Tick(rig, old(View()))
    {
      hide Display.Rasterize, Cycle, Io.PortOuts;
      display.Rasterize();
      cpu.memory.mapping := rig.mapping(display.io.committed);
      cpu.memory.disk := rig.disk(display.io.committed);
      var from := |cpu.ports|;
      cpu.ExecuteMachineCycle(display.irq);
      display.io.SendAll(if from <= |cpu.ports| then OutsOf(cpu.ports[from..]) else []);
    }

    /** One more tick of a run that began on `b`. */
    method NextCycle(ghost b: Board, ghost n: nat) returns (done: bool)
      requires Valid() && Synchronous(View()) && View() == Ticks(rig, b, n)
      modifies cpu, cpu.memory, cpu.memory.ram, display, display.buffer, display.backBuffer, display.io, display.io.palette
      ensures Valid()
      ensures Synchronous(View()) && View() == Ticks(rig, b, n + 1)
      ensures cpu.cc == old(cpu.cc) + 4 && old(cpu.ints.mc) < 6
      ensures done == Executed(View().m.cpu) && (done || cpu.ints.mc == old(cpu.ints.mc) + 1)
    {
      hide Lockstep.Tick, Ticks, Synchronous, Executed;
      OneTick(rig, View());
      NextTick(rig, b, n);
      Tick();
      done := cpu.IsInstructionExecuted();
    }

    method DebugInit()
      requires Valid() && Ready()
      modifies cpu.memory`log
      ensures Valid()
      ensures View() == Cleared(old(View())) && Ready()
    {
      hide Executed, I.Protocol;
      cpu.memory.log := cpu.memory.log.(len := 0);
    }

    /** DebugInit, then Rasterize and ExecuteMachineCycle until the instruction is executed: at most six cycles. */
    method ExecuteInstruction() returns (ghost n: nat)
      requires Valid() && Ready()
      modifies cpu, cpu.memory, cpu.memory.ram, display, display.buffer, display.backBuffer, display.io, display.io.palette
      ensures Valid()
      ensures Ready()
      ensures 1 <= n <= 6 && cpu.cc == old(cpu.cc) + 4 * n && View() == Ticks(rig, Cleared(old(View())), n)
      ensures forall k :: 0 < k < n ==> !Executed(Ticks(rig, Cleared(old(View())), k).m.cpu)
    {
      hide Ticks, Synchronous, Executed, Cleared;
      DebugInit();
      ghost var b := View();
      NoTick(rig, b);
      var done := NextCycle(b, 0);
      n := 1;
      while !done
        invariant Valid()
        invariant Synchronous(View()) && 1 <= n <= 6 && View() == Ticks(rig, b, n)
        invariant cpu.cc == old(cpu.cc) + 4 * n && done == Executed(View().m.cpu)
        invariant done || n <= cpu.ints.mc
        invariant forall k :: 0 < k < n ==> !Executed(Ticks(rig, b, k).m.cpu)
        decreases 6 - n
      {
        done := NextCycle(b, n);
        n := n + 1;
      }
    }

    /** Runs until the halt, cycle or frame limit is met, and no instruction longer: `runs` are the boards between the
        instructions. With a frame limit alone it runs exactly that many frames. */
    method RunHeadless(haltExit: bool, maxFrames: nat, maxCycles: nat)
      returns (cc: nat, frames: nat, halted: bool, ghost runs: seq<Board>)
      requires Valid() && Ready()
      requires maxFrames > 0 || maxCycles > 0
      modifies cpu, cpu.memory, cpu.memory.ram, display, display.buffer, display.backBuffer, display.io, display.io.palette
      ensures Valid() && Ready()
      ensures cc == cpu.cc - old(cpu.cc) && frames == display.frameNum - old(display.frameNum)
      ensures halted == cpu.ints.hlta
      ensures |runs| >= 2 && runs[0] == old(View()) && runs[|runs| - 1] == View()
      ensures forall i :: 0 <= i < |runs| - 1 ==> OneInstruction(rig, runs[i], runs[i + 1])
      ensures forall i :: 0 < i < |runs| ==> (i == |runs| - 1 <==> Met(runs[0], runs[i], haltExit, maxFrames, maxCycles))
      ensures (haltExit && halted) || (maxCycles > 0 && cc >= maxCycles) || (maxFrames > 0 && frames >= maxFrames)
      ensures maxFrames > 0 ==> frames <= maxFrames
      ensures maxCycles > 0 ==> cc < maxCycles + 24
      ensures !haltExit && maxCycles == 0 ==> frames == maxFrames && display.idx <= 80
      ensures !haltExit && maxCycles == 0 && old(cpu.cc == 0 && display.frameNum == 0) ==>
                59904 * maxFrames <= cc <= 59904 * maxFrames + 20
    {
      hide Ticks, I.Protocol, Executed, Cleared, OneInstruction;
      var startCC, startFrame := cpu.cc, display.frameNum;
      runs := [View()];
      ghost var limit := if maxCycles > 0 then startCC + maxCycles else (startFrame + maxFrames) * 59904;
      while true
        invariant Valid() && Ready()
        invariant cpu.cc >= startCC && display.frameNum >= startFrame
        invariant maxCycles > 0 ==> cpu.cc - startCC < maxCycles
        invariant maxFrames > 0 ==> display.frameNum - startFrame < maxFrames
        invariant |runs| >= 1 && runs[0] == old(View()) && runs[|runs| - 1] == View()
        invariant forall i :: 0 <= i < |runs| - 1 ==> OneInstruction(rig, runs[i], runs[i + 1])
        invariant forall i :: 0 < i < |runs| ==> !Met(runs[0], runs[i], haltExit, maxFrames, maxCycles)
        decreases limit - cpu.cc
      {
        ghost var b := View();
        ghost var n := ExecuteInstruction();
        InstructionDone(rig, b, View(), n);
        runs := runs + [View()];
        Z.FrameEnd(b.s.idx);
        assert b.m.cpu.cc + 4 <= cpu.cc <= b.m.cpu.cc + 24;
        if haltExit && cpu.ints.hlta { break; }
        if maxCycles > 0 && cpu.cc - startCC >= maxCycles { break; }
        if maxFrames > 0 && display.frameNum - startFrame >= maxFrames { break; }
      }
      cc, frames := cpu.cc - startCC, display.frameNum - startFrame;
      halted := cpu.ints.hlta;
    }
  }
  /** `t` is the board when the instruction begun on `b` is first executed. */
  ghost predicate OneInstruction(rig: Rig, b: Board, t: Board)
  {
    exists n ::
      && 1 <= n <= 6 && t == Ticks(rig, Cleared(b), n) && Executed(t.m.cpu)
      && forall k :: 0 < k < n ==> !Executed(Ticks(rig, Cleared(b), k).m.cpu)
  }

  lemma InstructionDone(rig: Rig, b: Board, t: Board, n: nat)
    requires 1 <= n <= 6 && t == Ticks(rig, Cleared(b), n) && Executed(t.m.cpu)
    requires forall k :: 0 < k < n ==> !Executed(Ticks(rig, Cleared(b), k).m.cpu)
    ensures OneInstruction(rig, b, t)
  {
    hide Ticks, Cleared, Executed;
  }

  /** A limit of a run that began on `start` is met: the CPU halted, the cycles or the frames are used up. */
  predicate Met(start: Board, b: Board, haltExit: bool, maxFrames: nat, maxCycles: nat)
  {
    || (haltExit && b.m.cpu.ints.hlta)
    || (maxCycles > 0 && b.m.cpu.cc - start.m.cpu.cc >= maxCycles)
    || (maxFrames > 0 && b.s.frameNum - start.s.frameNum >= maxFrames)
  }
}
