/** The output ports of libs/v6core/src/io.cpp: a write waits in a latch until its pixel timer runs out. */
module Io {
  import opened Bytes

  const PALETTE_LEN := 16

  type Palette = s: seq<byte> | |s| == PALETTE_LEN ghost witness seq(PALETTE_LEN, _ => 0)
  type ColorIdx = n: nat | n < PALETTE_LEN

  datatype Out = Out(port: byte, value: byte)

  /** What the display depends on, and every committed write in order. */
  datatype Ports = Ports(
    palette: Palette, scroll: byte, border: ColorIdx, mode512: bool, reqMode: bool, hwColor: byte,
    out: Out, outTimer: int, paletteTimer: int, modeTimer: int, committed: seq<Out>)

  /** Commit times in pixels. */
  datatype Times = Times(out: int, palette: int, mode: int)

  /** The timers are signed 8-bit fields. */
  function Signed8(v: int): (r: int)
    ensures -128 <= r < 128 && (r - v) % 256 == 0 && (-128 <= v < 128 ==> r == v)
  {
    (v + 128) % 256 - 128
  }

  predicate IsColorPort(port: byte) { 0x0C <= port <= 0x0F }

  /** The display's share of PortOutHandling; a control word on port 0 also clears ports 2 and 3. */
  function Handled(p: Ports, o: Out): (r: Ports)
  {
    if o.port == 0 then (if o.value >= 0x80 then p.(border := 0, reqMode := false, scroll := 0) else p)
    else if o.port == 2 then p.(border := o.value % 16, reqMode := o.value / 16 % 2 == 1)
    else if o.port == 3 then p.(scroll := o.value)
    else if IsColorPort(o.port) then p.(hwColor := o.value)
    else p
  }

  function PortOut(times: Times, p: Ports, o: Out): (r: Ports)
  {
    var p := p.(out := o, outTimer := Signed8(times.out));
    if IsColorPort(o.port) then p.(paletteTimer := Signed8(times.palette))
    else if o.port == 2 then p.(modeTimer := Signed8(times.mode))
    else p
  }

  function CommitOut(p: Ports): (r: Ports)
  {
    if p.outTimer <= 0 then p
    else if p.outTimer > 1 then p.(outTimer := p.outTimer - 1)
    else Handled(p.(outTimer := 0, committed := p.committed + [p.out]), p.out)
  }

  function CommitColor(p: Ports, color: ColorIdx): (r: Ports)
  {
    if p.paletteTimer <= 0 then p
    else if p.paletteTimer > 1 then p.(paletteTimer := p.paletteTimer - 1)
    else p.(paletteTimer := 0, palette := p.palette[color := p.hwColor])
  }

  function CommitMode(p: Ports): (r: Ports)
  {
    if p.modeTimer <= 0 then p
    else if p.modeTimer > 1 then p.(modeTimer := p.modeTimer - 1)
    else p.(modeTimer := 0, mode512 := p.reqMode)
  }

  /** One pixel of time: the three timers in the source's order. */
  function TryToCommit(p: Ports, color: ColorIdx): (r: Ports)
  {
    CommitMode(CommitColor(CommitOut(p), color))
  }

  function Later(timer: int, k: nat): (r: int) { if timer <= 0 then timer else if timer <= k then 0 else timer - k }

  /** One pixel brings every running timer one closer to zero and leaves stopped ones alone. */
  lemma TryTimers(p: Ports, color: ColorIdx)
    ensures var r := TryToCommit(p, color);
            r.outTimer == Later(p.outTimer, 1) && r.paletteTimer == Later(p.paletteTimer, 1) && r.modeTimer == Later(p.modeTimer, 1)
  {
    var a := CommitOut(p);
    var b := CommitColor(a, color);
    assert a.paletteTimer == p.paletteTimer && a.modeTimer == p.modeTimer && a.outTimer == Later(p.outTimer, 1);
    hide CommitOut;
    assert b.outTimer == a.outTimer && b.modeTimer == a.modeTimer;
  }

  /** Nothing pends. */
  predicate Settled(p: Ports) { p.outTimer == 0 && p.paletteTimer <= 0 && p.modeTimer <= 0 }

  /** The state between two Rasterize calls: at most a colour pends, whose commit time a client may set to any value. */
  predicate Rested(p: Ports) { p.outTimer == 0 && p.modeTimer <= 0 }

  /** The state a Rasterize call may find: the output and the mode at most sixteen pixels away, the mode never alone. */
  predicate Pending(p: Ports)
  {
    0 <= p.outTimer <= 16 && p.modeTimer <= 16 && (p.modeTimer > 0 ==> p.outTimer > 0)
  }

  predicate Prompt(times: Times) { 1 <= Signed8(times.out) <= 16 && Signed8(times.mode) <= 16 }

  function PortOuts(times: Times, p: Ports, outs: seq<Out>): (r: Ports)
  {
    if |outs| == 0 then p else PortOut(times, PortOuts(times, p, outs[..|outs| - 1]), outs[|outs| - 1])
  }

  /** Any CPU output between two Rasterize calls leaves only commits the next call can finish. */
  lemma {:induction false} OutsPend(times: Times, p: Ports, outs: seq<Out>)
    requires Prompt(times) && Rested(p)
    ensures Pending(PortOuts(times, p, outs))
  {
    if |outs| > 0 { OutsPend(times, p, outs[..|outs| - 1]); }
  }

  lemma SettledIdle(p: Ports, color: ColorIdx)
    requires Settled(p)
    ensures TryToCommit(p, color) == p
  {
  }

  /** class IO: the timers and registers in place. */
  class Unit {
    const palette: array<byte>
    var scroll: byte
    var border: ColorIdx
    var mode512: bool
    var reqMode: bool
    var hwColor: byte
    var out: Out
    var outTimer: int
    var paletteTimer: int
    var modeTimer: int
    var times: Times
    var committed: seq<Out>

    ghost predicate Valid()
      reads this
    {
      palette.Length == PALETTE_LEN
    }

    ghost function View(): (p: Ports)
      requires Valid()
      reads this, palette
    {
      Ports(palette[..], scroll, border, mode512, reqMode, hwColor, out, outTimer, paletteTimer, modeTimer, committed)
    }

    constructor (palette: array<byte>, times: Times)
      requires palette.Length == PALETTE_LEN
      ensures Valid() && this.palette == palette && this.times == times
      ensures Settled(View()) && committed == [] && scroll == 0xFF && !mode512
    {
      this.palette, this.times := palette, times;
      scroll, border, mode512, reqMode, hwColor, out := 0xFF, 0, false, false, 0, Out(0, 0);
      outTimer, paletteTimer, modeTimer, committed := 0, 0, 0, [];
    }

    method Send(port: byte, value: byte)
      requires Valid()
      modifies `out, `outTimer, `paletteTimer, `modeTimer
      ensures Valid() && View() == PortOut(times, old(View()), Out(port, value))
    {
      out := Out(port, value);
      outTimer := Signed8(times.out);
      if port == 0x0C || port == 0x0D || port == 0x0E || port == 0x0F {
        paletteTimer := Signed8(times.palette);
      } else if port == 0x02 {
        modeTimer := Signed8(times.mode);
      }
    }

    /** The writes of one CPU cycle, in order. */
    method SendAll(outs: seq<Out>)
      requires Valid()
      modifies `out, `outTimer, `paletteTimer, `modeTimer
      ensures Valid() && View() == PortOuts(times, old(View()), outs)
    {
      hide PortOut;
      assert outs[..|outs|] == outs;
      for i := 0 to |outs|
        invariant Valid() && View() == PortOuts(times, old(View()), outs[..i])
      {
        assert outs[..i + 1][..i] == outs[..i];
        Send(outs[i].port, outs[i].value);
      }
    }

    method Handle(o: Out)
      requires Valid()
      modifies `border, `reqMode, `scroll, `hwColor
      ensures Valid() && View() == Handled(old(View()), o)
    {
      if o.port == 0 {
        if o.value >= 0x80 {
          Handle2And3();
        }
      } else if o.port == 2 {
        border := o.value % 16;
        reqMode := o.value / 16 % 2 == 1;
      } else if o.port == 3 {
        scroll := o.value;
      } else if IsColorPort(o.port) {
        hwColor := o.value;
      }
    }

    method Handle2And3()
      requires Valid()
      modifies `border, `reqMode, `scroll
      ensures Valid() && View() == old(View()).(border := 0, reqMode := false, scroll := 0)
    {
      border, reqMode := 0, false;
      scroll := 0;
    }

    method TickOut()
      requires Valid()
      modifies `outTimer, `committed, `border, `reqMode, `scroll, `hwColor
      ensures Valid() && View() == CommitOut(old(View()))
    {
      hide Handled;
      if outTimer > 0 {
        outTimer := outTimer - 1;
        if outTimer == 0 {
          committed := committed + [out];
          Handle(out);
        }
      }
    }

    method TickColor(color: ColorIdx)
      requires Valid()
      modifies `paletteTimer, palette
      ensures Valid() && View() == CommitColor(old(View()), color)
    {
      if paletteTimer > 0 {
        paletteTimer := paletteTimer - 1;
        if paletteTimer == 0 { palette[color] := hwColor; }
      }
    }

    method TickMode()
      requires Valid()
      modifies `modeTimer, `mode512
      ensures Valid() && View() == CommitMode(old(View()))
    {
      if modeTimer > 0 {
        modeTimer := modeTimer - 1;
        if modeTimer == 0 { mode512 := reqMode; }
      }
    }

    method TryCommit(color: ColorIdx)
      requires Valid()
      modifies this, palette
      ensures Valid() && times == old(times)
      ensures View() == TryToCommit(old(View()), color)
    {
      hide CommitOut, CommitColor, CommitMode;
      TickOut();
      TickColor(color);
      TickMode();
    }
  }
}
