/** What passes between the CPU and the rest of the machine over a whole run: every OUT reaches its port, once and in
    order, and the interrupt of every frame reaches the CPU (libs/v6core/src/hardware.cpp). */
module BoardTraffic {
  import opened Bytes
  import opened Memory
  import opened CpuDecode
  import opened Cpu
  import opened CpuGroups
  import V = CpuInvariants
  import I = Interrupts
  import opened Io
  import opened Display
  import opened Z = Rasterizer
  import C = PortCommits
  import opened Lockstep

  // ---- Outputs ------------------------------------------------------------------

  /** The OUT instructions among the port events, oldest first. */
  function Written(events: seq<PortEvent>): (outs: seq<Out>)
  {
    if |events| == 0 then [] else Sent(events[0]) + Written(events[1..])
  }

  function Sent(e: PortEvent): (outs: seq<Out>) { if e.PortOut? then [Io.Out.Out(e.port, e.value)] else [] }

  lemma WrittenFirst(events: seq<PortEvent>)
    requires |events| > 0
    ensures Written(events) == Sent(events[0]) + Written(events[1..])
  {
    hide Sent;
  }

  lemma {:induction false} WrittenConcat(a: seq<PortEvent>, b: seq<PortEvent>)
    ensures Written(a + b) == Written(a) + Written(b)
  {
    hide Sent;
    if |a| == 0 {
      assert a + b == b;
      assert Written(a) == [];
    } else {
      WrittenFirst(a);
      WrittenFirst(a + b);
      hide Written;
      assert (a + b)[1..] == a[1..] + b;
      WrittenConcat(a[1..], b);
      var x, y, z := Sent(a[0]), Written(a[1..]), Written(b);
      assert x + (y + z) == (x + y) + z;
    }
  }

  lemma {:induction false} OutsAreWritten(events: seq<PortEvent>)
    ensures OutsOf(events) == Written(events)
  {
    if |events| > 0 {
      var init, e := events[..|events| - 1], events[|events| - 1];
      OutsAreWritten(init);
      assert events == init + [e] && [e][1..] == [];
      WrittenConcat(init, [e]);
    }
  }

  /** A step of the CPU appends at most one port event. */
  predicate Appends(m: Machine, m': Machine) { m.ports <= m'.ports && |m'.ports| <= |m.ports| + 1 }

  lemma FlowAppends(dev: Devices, h: Handler, m: Machine)
    requires IsFlow(h)
    ensures Appends(m, Handle(dev, h, m))
  {
    hide Handle, Memory.Write, Translate, Read, Wrap, Holds, SetDuo, GetDuo;
    HandleFlow(dev, h, m);
  }

  lemma DataAppends(dev: Devices, h: Handler, m: Machine)
    requires IsData(h)
    ensures Appends(m, Handle(dev, h, m))
  {
    hide Handle, Memory.Write, Translate, Read, Wrap, SetDuo, GetDuo, GetPair, SetReg, GetReg, IncFlags, DecFlags;
    HandleData(dev, h, m);
  }

  lemma RegisterAppends(dev: Devices, h: Handler, m: Machine)
    requires IsRegister(h)
    ensures Appends(m, Handle(dev, h, m))
  {
    hide Handle, Wrap, SetDuo, GetDuo, GetPair, SetReg, GetReg, IncFlags, DecFlags, Inc, Dec;
    HandleRegister(dev, h, m);
  }

  lemma OperandAppends(dev: Devices, h: Handler, m: Machine)
    requires IsMemOperand(h) || IsImmOperand(h)
    ensures Appends(m, Handle(dev, h, m))
  {
    hide Handle, Read, Wrap, AluStep;
    HandleOperand(dev, h, m);
  }

  lemma OtherAppends(dev: Devices, h: Handler, m: Machine)
    requires !IsFlow(h) && !IsData(h) && !IsRegister(h) && !IsMemOperand(h) && !IsImmOperand(h)
    ensures Appends(m, Handle(dev, h, m))
  {
    hide Handle, Wrap, SingleStep, SingleHidden;
    if h == Di || h == Ei || h == Hlt {
      HandleControl(dev, h, m);
    } else {
      Kinds(h);
      HandleSingle(dev, h, m);
    }
  }

  lemma CycleAppends(dev: Devices, m: Machine, irq: bool)
    ensures Appends(m, Cycle(dev, m, irq))
  {
    hide Handle, Decode, MCycles, NextMc, Code;
    var m1 := Begin(m, irq);
    var h := Decode(m1.cpu.hid.ir);
    if IsFlow(h) { FlowAppends(dev, h, m1); }
    else if IsData(h) { DataAppends(dev, h, m1); }
    else if IsRegister(h) { RegisterAppends(dev, h, m1); }
    else if IsMemOperand(h) || IsImmOperand(h) { OperandAppends(dev, h, m1); }
    else { OtherAppends(dev, h, m1); }
  }

  /** `k` pixels of the output timer. */
  predicate Commits(p: Ports, p': Ports, k: nat)
  {
    && p'.out == p.out && p'.outTimer == C.TimeLeft(p.outTimer, k)
    && p'.committed == p.committed + if C.Due(p.outTimer, k) then [p.out] else []
  }

  lemma TryCommits(p: Ports, color: ColorIdx)
    ensures Commits(p, TryToCommit(p, color), 1)
  {
    OutCommits(p);
    hide CommitOut, Commits;
    LaterCommits(CommitOut(p), color);
    SamePending(p, CommitOut(p), TryToCommit(p, color));
  }

  lemma OutCommits(p: Ports)
    ensures Commits(p, CommitOut(p), 1)
  {
    hide Handled;
    HandledKeeps(p.(outTimer := 0, committed := p.committed + [p.out]));
  }

  lemma LaterCommits(p: Ports, color: ColorIdx)
    ensures var r := CommitMode(CommitColor(p, color)); r.out == p.out && r.outTimer == p.outTimer && r.committed == p.committed
  {
  }

  lemma SamePending(p: Ports, q: Ports, r: Ports)
    requires Commits(p, q, 1) && r.out == q.out && r.outTimer == q.outTimer && r.committed == q.committed
    ensures Commits(p, r, 1)
  {
  }

  lemma HandledKeeps(p: Ports)
    ensures var r := Handled(p, p.out); r.committed == p.committed && r.out == p.out && r.outTimer == p.outTimer
  {
  }

  lemma CommitsMore(p: Ports, q: Ports, r: Ports, k: nat, n: nat)
    requires Commits(p, q, k) && Commits(q, r, n)
    ensures Commits(p, r, k + n)
  {
  }

  lemma {:induction false} FillCommits(j: Job, b: Beam, i: nat, n: nat)
    requires j.Valid() && i <= n && b.screen.idx + (n - i) < FRAME_LEN && b.at <= j.Top()
    ensures Commits(b.screen.ports, PortFill(j, b, i, n).screen.ports, n - i)
    decreases n - i
  {
    hide TryToCommit, ColorOf, ScreenBytes, Argb, Commits;
    if i < n {
      var p := PortPixel(j, b, i);
      TryCommits(b.screen.ports, ColorOf(j.mode512, b.bytes, b.at));
      FillCommits(j, p, i + 1, n);
      CommitsMore(b.screen.ports, p.screen.ports, PortFill(j, b, i, n).screen.ports, 1, n - i - 1);
    } else {
      CommitsNone(b.screen.ports, 0);
    }
  }

  lemma CommitsNone(p: Ports, k: nat)
    requires k == 0 || p.outTimer <= 0
    ensures Commits(p, p, k)
  {
  }

  lemma {:induction false} BorderCommits(cfg: Config, s: Screen, n: nat)
    ensures Commits(s.ports, PortBorder(cfg, s, n).ports, n)
    decreases n
  {
    hide TryToCommit, Argb, Commits;
    if n > 0 {
      var p := BorderPixel(cfg, s);
      TryCommits(s.ports, s.ports.border);
      BorderCommits(cfg, p, n - 1);
      CommitsMore(s.ports, p.ports, PortBorder(cfg, s, n).ports, 1, n - 1);
    } else {
      CommitsNone(s.ports, 0);
    }
  }

  lemma ActiveCommits(cfg: Config, ram: Ram, s: Screen, n: nat)
    requires ACTIVE_TOP <= Line(s.idx) && s.idx >= cfg.borderLeft && s.idx + n < FRAME_LEN
    ensures Commits(s.ports, Active(false, cfg, ram, s, n).ports, n)
  {
    hide PortFill, FastFill, Commits;
    var j := JobFor(cfg, ram, s);
    FillCommits(j, StartBeam(j, s), 0, n);
    FastMoves(j, StartBeam(j, s), 0, n);
    if s.ports.outTimer <= 0 { CommitsNone(s.ports, n); }
  }

  lemma EdgeCommits(cfg: Config, s: Screen, n: nat)
    requires n <= CHUNK
    ensures Commits(s.ports, Border(false, cfg, s, n).ports, n)
  {
    hide PortBorder, FastBorder, Commits;
    BorderCommits(cfg, s, n);
    if Line(s.idx) != FRAME_H - 1 { FastBorderMoves(s, n); }
    if s.ports.outTimer <= 0 { CommitsNone(s.ports, n); }
  }

  /** Whatever the borders, the mode and the other timers: a call brings a pending output sixteen pixels nearer and
      commits it when its time is up, once. */
  lemma RasterizeCommits(cfg: Config, ram: Ram, s: Screen)
    ensures Commits(s.ports, Rasterize(false, cfg, ram, s).ports, 16)
  {
    hide Active, Border, Commits;
    var n := FirstPart(cfg, s.idx);
    var s0 := s.(irq := false);
    if IsActive(cfg, s.idx) {
      ActiveRoom(cfg, s.idx);
      var s1 := Active(false, cfg, ram, s0, n);
      ActiveCommits(cfg, ram, s0, n);
      if n < CHUNK {
        EdgeCommits(cfg, s1, CHUNK - n);
        CommitsMore(s.ports, s1.ports, Rasterize(false, cfg, ram, s).ports, n, CHUNK - n);
      }
    } else {
      var s1 := Border(false, cfg, s0, n);
      EdgeCommits(cfg, s0, n);
      if n < CHUNK {
        SplitRoom(cfg, false, s0, n);
        ActiveCommits(cfg, ram, s1, CHUNK - n);
        CommitsMore(s.ports, s1.ports, Rasterize(false, cfg, ram, s).ports, n, CHUNK - n);
      }
    }
  }

  /** What the ports have taken, and what still waits in the latch. */
  function Taken(p: Ports): (outs: seq<Out>) { p.committed + if p.outTimer > 0 then [p.out] else [] }

  lemma OneOut(times: Times, p: Ports, outs: seq<Out>)
    requires 1 <= Signed8(times.out) <= 16 && p.outTimer <= 0 && |outs| <= 1
    ensures Taken(PortOuts(times, p, outs)) == Taken(p) + outs
    ensures |outs| > 0 ==> PortOuts(times, p, outs).outTimer == Signed8(times.out)
    ensures |outs| == 0 ==> PortOuts(times, p, outs) == p
  {
    hide Signed8;
    if |outs| == 1 { assert outs[..0] == [] && outs == [outs[0]]; }
  }

  lemma TickTakes(rig: Rig, b: Board)
    requires 1 <= Signed8(rig.cfg.times.out) <= 16 && b.s.ports.outTimer <= 16
    ensures var t := Tick(rig, b);
            && b.m.ports <= t.m.ports && |t.m.ports| <= |b.m.ports| + 1 && t.s.ports.outTimer <= 16
            && Taken(t.s.ports) == Taken(b.s.ports) + Written(t.m.ports[|b.m.ports|..])
            && t.s.ports.committed == Taken(b.s.ports)
  {
    hide Rasterize, Cycle, Signed8, PortOuts;
    var s, m := Painted(rig, b), Ready(rig, b);
    RasterizeCommits(rig.cfg, b.m.mem.ram, b.s);
    var m' := Cycle(rig.dev, m, s.irq);
    CycleAppends(rig.dev, m, s.irq);
    var events := m'.ports[|m.ports|..];
    OutsAreWritten(events);
    assert |Written(events)| <= 1 by { if |events| > 0 { assert events[1..] == []; } }
    OneOut(rig.cfg.times, s.ports, Written(events));
    SettledCommits(s.ports, rig.cfg.times, Written(events));
  }

  lemma SettledCommits(p: Ports, times: Times, outs: seq<Out>)
    requires |outs| <= 1
    ensures PortOuts(times, p, outs).committed == p.committed
  {
    hide Signed8;
    if |outs| == 1 { assert outs[..0] == []; }
  }

  /** Over every run, for every program, device and display setting with an output time of 1 to 16 pixels: the writes the
      ports have taken, with the one still latched, are the OUTs of the program so far, in order, each once; those of all
      but the last cycle have been taken. */
  lemma {:induction false} EveryOutCommits(rig: Rig, b: Board, n: nat)
    requires 1 <= Signed8(rig.cfg.times.out) <= 16 && b.s.ports.outTimer <= 0 && b.s.ports.committed == [] && b.m.ports == []
    ensures var t := Ticks(rig, b, n);
            && t.s.ports.outTimer <= 16
            && Taken(t.s.ports) == Written(t.m.ports)
            && (n > 0 ==> t.s.ports.committed == Written(Ticks(rig, b, n - 1).m.ports))
  {
    hide Tick, Signed8;
    if n > 0 {
      EveryOutCommits(rig, b, n - 1);
      var p := Ticks(rig, b, n - 1);
      TickTakes(rig, p);
      var t := Ticks(rig, b, n);
      assert t == Tick(rig, p);
      assert t.m.ports == p.m.ports + t.m.ports[|p.m.ports|..];
      WrittenConcat(p.m.ports, t.m.ports[|p.m.ports|..]);
    }
  }

  // ---- The interrupt of a frame ---------------------------------------------------

  /** The CPU sees the line of its own tick: a request that arrives while interrupts are enabled is taken at once, if the
      CPU is between instructions and not right after an EI, and latched otherwise; without the pulse no request appears. */
  lemma TickDelivers(rig: Rig, b: Board)
    ensures var i, s, line := b.m.cpu.ints, Tick(rig, b).m.cpu, Tick(rig, b).s.irq;
            && (Accepts(i, line) ==> s.ints == Ints(1, false, false, false, false) && s.hid.ir == 0xFF)
            && (!Accepts(i, line) ==> s.ints.iff == (i.iff || (line && i.inte)))
  {
    hide Cycle, Painted, PortOuts;
    I.LatchStep(rig.dev, Ready(rig, b), Painted(rig, b).irq);
  }

  /** With the shipped interrupt pixel, in every frame from reset: the pulse of tick 6 finds its way into the CPU exactly
      when interrupts are enabled then, and no other tick of the frame brings a request. */
  lemma FrameInterrupt(rig: Rig, b: Board, f: nat, r: nat)
    requires Lockstep.AtReset(b) && rig.cfg.irqCommitPxl == 112 && r < TICKS_PER_FRAME
    ensures var n := TICKS_PER_FRAME * f + r;
            var i, s := Ticks(rig, b, n).m.cpu.ints, Ticks(rig, b, n + 1).m.cpu;
            var wanted := i.iff || (r == 6 && i.inte);
            if wanted && i.mc == 0 && !i.eiPending then s.hid.ir == 0xFF && s.ints == Ints(1, false, false, false, false)
            else s.ints.iff == wanted
  {
    hide Tick;
    var n := TICKS_PER_FRAME * f + r;
    ShippedPulse(rig, b, f, r);
    NextTick(rig, b, n);
    TickDelivers(rig, Ticks(rig, b, n));
  }

  /** Seen from tick `n` on, the CPU of the board runs as an open run. */
  lemma OpenFrom(rig: Rig, b: Board, n: nat)
    ensures V.OpenRun(rig.dev, (k: nat) => Lockstep.Ready(rig, Ticks(rig, b, n + k)), (k: nat) => Painted(rig, Ticks(rig, b, n + k)).irq)
  {
    hide Tick, Cycle, Painted, Ticks, Lockstep.Ready;
    var t := (k: nat) => Lockstep.Ready(rig, Ticks(rig, b, n + k));
    var irq := (k: nat) => Painted(rig, Ticks(rig, b, n + k)).irq;
    forall k: nat ensures V.Follows(rig.dev, t, irq, k) {
      NextTick(rig, b, n + k);
      TickRuns(rig, Ticks(rig, b, n + k));
      SameLine(rig, Ticks(rig, b, n + (k + 1)));
    }
  }

  /** A request latched inside an instruction is taken when that instruction completes. */
  lemma TakenAtEnd(rig: Rig, b: Board, n: nat) returns (j: nat)
    requires var c := Ticks(rig, b, n).m.cpu; I.Protocol(c) && c.ints.mc > 0 && I.Latched(c.ints, Painted(rig, Ticks(rig, b, n)).irq)
    ensures n < j <= n + 6 && forall k :: n <= k < j ==> Ticks(rig, b, k).m.cpu.ints.mc > 0
    ensures Accepts(Ticks(rig, b, j).m.cpu.ints, Painted(rig, Ticks(rig, b, j)).irq)
  {
    hide Tick, Cycle, I.Protocol, MCycles, Painted, Ticks, Lockstep.Ready;
    var t := (k: nat) => Lockstep.Ready(rig, Ticks(rig, b, n + k));
    var irq := (k: nat) => Painted(rig, Ticks(rig, b, n + k)).irq;
    OpenFrom(rig, b, n);
    SameLine(rig, Ticks(rig, b, n));
    var d := I.AcceptedAtEnd(rig.dev, t, irq, 0);
    j := n + d;
    SameLine(rig, Ticks(rig, b, j));
    forall k | n <= k < j ensures Ticks(rig, b, k).m.cpu.ints.mc > 0 {
      SameLine(rig, Ticks(rig, b, k));
      assert t(k - n).cpu.ints.mc > 0;
    }
  }

  /** And it is served: unless an EI has just been executed, an RST 7 starts within six cycles of the pulse, as soon as the
      instruction in progress is complete. */
  lemma FrameInterruptServed(rig: Rig, b: Board, f: nat) returns (j: nat)
    requires Lockstep.AtReset(b) && rig.cfg.irqCommitPxl == 112
    requires var i := Ticks(rig, b, TICKS_PER_FRAME * f + 6).m.cpu.ints; i.inte && !i.eiPending
    ensures var n := TICKS_PER_FRAME * f + 6;
            && n <= j <= n + 6 && (forall k :: n <= k < j ==> Ticks(rig, b, k).m.cpu.ints.mc > 0)
            && Ticks(rig, b, j).m.cpu.ints.mc == 0
            && Ticks(rig, b, j + 1).m.cpu.hid.ir == 0xFF && !Ticks(rig, b, j + 1).m.cpu.ints.inte
  {
    hide Tick, Cycle, I.Protocol, MCycles, Painted, Ticks, Lockstep.Ready;
    var n := TICKS_PER_FRAME * f + 6;
    BeamAndClock(rig, b, f, 6);
    ShippedPulse(rig, b, f, 6);
    NextTick(rig, b, n);
    SameLine(rig, Ticks(rig, b, n));
    j := n;
    if Ticks(rig, b, n).m.cpu.ints.mc > 0 { j := TakenAtEnd(rig, b, n); }
    NextTick(rig, b, j);
    SameLine(rig, Ticks(rig, b, j));
    TickDelivers(rig, Ticks(rig, b, j));
  }

  lemma SameLine(rig: Rig, b: Board)
    ensures Tick(rig, b).s.irq == Painted(rig, b).irq && Lockstep.Ready(rig, b).cpu == b.m.cpu
  {
    hide Cycle, Painted, PortOuts;
  }
}
