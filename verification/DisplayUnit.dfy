/** class Display of libs/v6core/src/display.cpp: the frame buffer painted in place. */
module DisplayUnit {
  import opened Bytes
  import opened Memory
  import opened Io
  import opened D = Display

  class Display {
    const buffer: array<nat>
    const backBuffer: array<nat>
    const io: Io.Unit
    const ram: array<byte>
    const borderLeft: int
    const irqCommitPxl: int
    var idx: Index
    var frameNum: nat
    var irq: bool
    var scroll: byte

    constructor (buffer: array<nat>, backBuffer: array<nat>, io: Io.Unit, ram: array<byte>, borderLeft: int, irqCommitPxl: int)
      requires buffer.Length == backBuffer.Length == FRAME_LEN && buffer != backBuffer && ram.Length == GLOBAL_LEN && io.Valid()
      requires io.palette != ram
      ensures Valid() && this.buffer == buffer && this.backBuffer == backBuffer && this.io == io && this.ram == ram
      ensures Cfg() == Config(borderLeft, irqCommitPxl, io.times)
      ensures View() == Screen(buffer[..], backBuffer[..], 0, 0, false, 0xff, io.View())
    {
      this.buffer, this.backBuffer, this.io, this.ram := buffer, backBuffer, io, ram;
      this.borderLeft, this.irqCommitPxl := borderLeft, irqCommitPxl;
      idx, frameNum, irq, scroll := 0, 0, false, 0xff;
    }

    ghost predicate Valid()
      reads this, io
    {
      buffer.Length == backBuffer.Length == FRAME_LEN && buffer != backBuffer && ram.Length == GLOBAL_LEN && io.Valid() && io.palette != ram
    }

    ghost function Cfg(): (c: Config)
      reads this, io
    {
      Config(borderLeft, irqCommitPxl, io.times)
    }

    ghost function View(): (s: Screen)
      requires Valid()
      reads this, buffer, backBuffer, io, io.palette
    {
      Screen(buffer[..], backBuffer[..], idx, frameNum, irq, scroll, io.View())
    }

    method GetScreenBytes(line: nat, pixel: nat) returns (b: Planes)
      requires Valid() && ACTIVE_TOP <= line < ACTIVE_TOP + ACTIVE_H
      ensures b == ScreenBytes(Cfg(), ram[..], line, pixel)
    {
      var high := if pixel - borderLeft >= 0 then (pixel - borderLeft) / CHUNK else -((borderLeft - pixel) / CHUNK);
      var low := ACTIVE_H - 1 - (line - ACTIVE_TOP);
      var offset := (high * 0x100 + low) % 0x1_0000;
      b := Planes(ram[offset + 0x8000], ram[offset + 0xA000], ram[offset + 0xC000], ram[offset + 0xE000]);
    }

    method FillBorder(n: nat)
      requires Valid() && idx + n < FRAME_LEN
      modifies buffer, `idx
      ensures Valid() && View() == FastBorder(old(View()), n)
    {
      var color := Argb(io.palette[io.border]);
      ghost var start := View();
      var i := 0;
      while i < n
        invariant 0 <= i <= n && idx + (n - i) < FRAME_LEN && Valid()
        invariant FastBorder(View(), n - i) == FastBorder(start, n)
        invariant View().ports == start.ports
      {
        ghost var s := View();
        buffer[idx] := color;
        idx := idx + 1;
        i := i + 1;
        assert View() == Paint(s, s.ports.palette[s.ports.border]);
      }
    }

    method BorderPixelPortHandling()
      requires Valid()
      modifies this, buffer, backBuffer, io, io.palette
      ensures Valid() && Cfg() == old(Cfg())
      ensures View() == BorderPixel(Cfg(), old(View()))
    {
      hide TryToCommit;
      ghost var s := View();
      io.TryCommit(io.border);
      var color := Argb(io.palette[io.border]);
      buffer[idx] := color;
      var isNewFrame := idx + 1 == FRAME_LEN;
      idx := if isNewFrame then 0 else idx + 1;
      irq := irq || idx == irqCommitPxl;
      if isNewFrame {
        frameNum := frameNum + 1;
        forall i | 0 <= i < FRAME_LEN { backBuffer[i] := buffer[i]; }
        assert backBuffer[..] == buffer[..];
      }
    }

    method FillBorderPortHandling(n: nat)
      requires Valid()
      modifies this, buffer, backBuffer, io, io.palette
      ensures Valid() && Cfg() == old(Cfg())
      ensures View() == PortBorder(Cfg(), old(View()), n)
    {
      hide BorderPixel;
      ghost var start, cfg := View(), Cfg();
      var i := 0;
      while i < n
        invariant 0 <= i <= n && Valid() && Cfg() == cfg
        invariant PortBorder(cfg, View(), n - i) == PortBorder(cfg, start, n)
      {
        BorderPixelPortHandling();
        i := i + 1;
      }
    }

    /** The scrolled line, the screen bytes and the bit index every fill starts from. */
    method BeginFill(mode512: bool) returns (line: nat, scrolled: nat, bytes: Planes, at: nat)
      requires Valid() && mode512 == io.mode512 && ACTIVE_TOP <= Line(idx) && idx >= borderLeft
      ensures var j := JobFor(Cfg(), ram[..], View());
              j == Job(Cfg(), ram[..], mode512, line, scrolled) && Beam(View(), bytes, at) == StartBeam(j, View())
    {
      line := Line(idx);
      scrolled := (line - ACTIVE_TOP + (255 - scroll) + ACTIVE_H) % ACTIVE_H + ACTIVE_TOP;
      bytes := GetScreenBytes(scrolled, Pixel(idx));
      var off := (idx - borderLeft) % CHUNK;
      at := if mode512 then 15 - off else 7 - off / 2;
    }

    /** FillActiveArea256 and FillActiveArea512. */
    method FillActiveArea(mode512: bool, n: nat)
      requires Valid() && mode512 == io.mode512 && ACTIVE_TOP <= Line(idx) && idx >= borderLeft && idx + n < FRAME_LEN
      modifies buffer, `idx
      ensures Valid() && Cfg() == old(Cfg())
      ensures var j := JobFor(Cfg(), ram[..], old(View()));
              View() == FastFill(j, StartBeam(j, old(View())), 0, n).screen
    {
      hide FastFill, Line, Pixel, ScreenBytes;
      ghost var j := JobFor(Cfg(), ram[..], View());
      ghost var start := StartBeam(j, View());
      var line, scrolled, bytes, at := BeginFill(mode512);
      hide JobFor, StartBeam;
      var i := 0;
      while i < n
        invariant 0 <= i <= n && idx + (n - i) < FRAME_LEN && Valid() && 0 <= at <= j.Top()
        invariant ram[..] == j.ram && Cfg() == j.cfg
        invariant FastFill(j, Beam(View(), bytes, at), i, n) == FastFill(j, start, 0, n)
      {
        NextFast(j, Beam(View(), bytes, at), i, n);
        bytes, at := PixelFill(scrolled, mode512, bytes, at, i, j);
        i := i + 1;
      }
      LastFast(j, Beam(View(), bytes, at), n);
    }

    /** One pixel of FillActiveArea256 or FillActiveArea512. */
    method PixelFill(scrolled: nat, mode512: bool, bytes: Planes, at: nat, i: nat, ghost j: Job) returns (bytes': Planes, at': nat)
      requires Valid() && j.Valid() && at <= j.Top() && idx + 1 < FRAME_LEN
      requires ram[..] == j.ram && Cfg() == j.cfg && mode512 == j.mode512 && scrolled == j.scrolled
      modifies buffer, `idx
      ensures Valid() && Cfg() == old(Cfg())
      ensures Beam(View(), bytes', at') == FastPixel(j, Beam(old(View()), bytes, at), i)
    {
      hide ColorOf, ScreenBytes, Argb;
      var c := ColorOf(mode512, bytes, at);
      buffer[idx] := Argb(io.palette[c]);
      idx := idx + 1;
      var next := if mode512 then at - 1 else at - i % 2;
      bytes' := bytes;
      if next < 0 {
        next := if mode512 then 15 else 7;
        bytes' := GetScreenBytes(scrolled, Pixel(idx));
      }
      at' := next;
    }

    /** One pixel of FillActiveArea256PortHandling or FillActiveArea512PortHandling. */
    method PixelPortHandling(line: nat, scrolled: nat, mode512: bool, bytes: Planes, at: nat, i: nat, ghost j: Job)
      returns (bytes': Planes, at': nat)
      requires Valid() && j == Job(Cfg(), ram[..], mode512, line, scrolled) && j.Valid() && at <= j.Top()
      requires idx + 1 < FRAME_LEN
      modifies this, buffer, backBuffer, io, io.palette
      ensures Valid() && Cfg() == old(Cfg()) && ram[..] == j.ram
      ensures Beam(View(), bytes', at') == PortPixel(j, Beam(old(View()), bytes, at), i)
    {
      hide ColorOf, ScreenBytes, Argb, TryToCommit;
      var pixel := Pixel(idx);
      if line == ACTIVE_TOP && pixel == SCROLL_COMMIT_PXL { scroll := io.scroll; }
      var c := ColorOf(mode512, bytes, at);
      io.TryCommit(c);
      buffer[idx] := Argb(io.palette[c]);
      idx := idx + 1;
      assert ram[..] == j.ram;
      var next := if mode512 then at - 1 else at - i % 2;
      bytes' := bytes;
      if next < 0 {
        next := if mode512 then 15 else 7;
        bytes' := GetScreenBytes(scrolled, pixel);
      }
      at' := next;
    }

    method FillActiveAreaPortHandling(mode512: bool, n: nat)
      requires Valid() && mode512 == io.mode512 && ACTIVE_TOP <= Line(idx) && idx >= borderLeft && idx + n < FRAME_LEN
      modifies this, buffer, backBuffer, io, io.palette
      ensures Valid() && Cfg() == old(Cfg()) && ram[..] == old(ram[..])
      ensures var j := JobFor(Cfg(), old(ram[..]), old(View()));
              View() == PortFill(j, StartBeam(j, old(View())), 0, n).screen
    {
      hide PortFill, Line, Pixel, ScreenBytes;
      var line, scrolled, bytes, at := BeginFill(mode512);
      PortLoop(line, scrolled, mode512, bytes, at, n, JobFor(Cfg(), ram[..], View()));
    }

    method PortLoop(line: nat, scrolled: nat, mode512: bool, bytes: Planes, at: nat, n: nat, ghost j: Job)
      requires Valid() && j == Job(Cfg(), ram[..], mode512, line, scrolled) && j.Valid() && at <= j.Top()
      requires idx + n < FRAME_LEN
      modifies this, buffer, backBuffer, io, io.palette
      ensures Valid() && Cfg() == old(Cfg()) && ram[..] == j.ram
      ensures View() == PortFill(j, Beam(old(View()), bytes, at), 0, n).screen
    {
      hide PortPixel, PortFill;
      ghost var start := Beam(View(), bytes, at);
      var i, bytes, at := 0, bytes, at;
      while i < n
        invariant 0 <= i <= n && idx + (n - i) < FRAME_LEN && Valid() && 0 <= at <= j.Top()
        invariant ram[..] == j.ram && Cfg() == j.cfg
        invariant PortFill(j, Beam(View(), bytes, at), i, n) == PortFill(j, start, 0, n)
      {
        NextPort(j, Beam(View(), bytes, at), i, n);
        bytes, at := PixelPortHandling(line, scrolled, mode512, bytes, at, i, j);
        i := i + 1;
      }
      LastPort(j, Beam(View(), bytes, at), n);
    }

    method RasterizeActiveArea(n: nat)
      requires Valid() && ACTIVE_TOP <= Line(idx) && idx >= borderLeft && idx + n < FRAME_LEN
      modifies this, buffer, backBuffer, io, io.palette
      ensures Valid() && Cfg() == old(Cfg()) && ram[..] == old(ram[..])
      ensures View() == Active(false, Cfg(), old(ram[..]), old(View()), n)
    {
      hide JobFor, StartBeam, FastFill, PortFill;
      var commitTime := io.outTimer > 0 || io.paletteTimer > 0;
      var scrollTime := Line(idx) == ACTIVE_TOP && Pixel(idx) < borderLeft + CHUNK;
      if commitTime || scrollTime {
        FillActiveAreaPortHandling(io.mode512, n);
      } else {
        FillActiveArea(io.mode512, n);
      }
    }

    method RasterizeBorder(n: nat)
      requires Valid() && n <= CHUNK
      modifies this, buffer, backBuffer, io, io.palette
      ensures Valid() && Cfg() == old(Cfg()) && ram[..] == old(ram[..])
      ensures View() == Border(false, Cfg(), old(View()), n)
    {
      hide PortBorder, FastBorder;
      var line := Line(idx);
      var commitTime := io.outTimer >= 0 || io.paletteTimer >= 0;
      if commitTime || line == 0 || line == FRAME_H - 1 {
        FillBorderPortHandling(n);
      } else {
        FillBorder(n);
      }
    }

    method Rasterize()
      requires Valid()
      modifies this, buffer, backBuffer, io, io.palette
      ensures Valid() && Cfg() == old(Cfg()) && ram[..] == old(ram[..])
      ensures View() == D.Rasterize(false, Cfg(), old(ram[..]), old(View()))
    {
      hide Active, Border;
      irq := false;
      var pixel := Pixel(idx);
      var isActiveScan := ACTIVE_TOP <= Line(idx) < ACTIVE_TOP + ACTIVE_H;
      var isActiveArea := isActiveScan && borderLeft <= pixel < borderLeft + ACTIVE_W;
      if isActiveArea {
        var n := Min(borderLeft + ACTIVE_W - pixel, CHUNK);
        ActiveRoom(Cfg(), idx);
        RasterizeActiveArea(n);
        if n < CHUNK { RasterizeBorder(CHUNK - n); }
      } else {
        var n := if !isActiveScan || pixel >= borderLeft + ACTIVE_W then CHUNK else Min(borderLeft - pixel, CHUNK);
        if n < CHUNK { SplitRoom(Cfg(), false, View(), n); }
        RasterizeBorder(n);
        if n < CHUNK { RasterizeActiveArea(CHUNK - n); }
      }
    }
  }

  lemma NextFast(j: Job, b: Beam, i: nat, n: nat)
    requires j.Valid() && i < n && b.screen.idx + (n - i) < FRAME_LEN && b.at <= j.Top()
    ensures FastFill(j, b, i, n) == FastFill(j, FastPixel(j, b, i), i + 1, n)
  {
  }

  lemma LastFast(j: Job, b: Beam, n: nat)
    requires j.Valid() && b.at <= j.Top()
    ensures FastFill(j, b, n, n) == b
  {
  }

  lemma NextPort(j: Job, b: Beam, i: nat, n: nat)
    requires j.Valid() && i < n && b.screen.idx + (n - i) < FRAME_LEN && b.at <= j.Top()
    ensures PortFill(j, b, i, n) == PortFill(j, PortPixel(j, b, i), i + 1, n)
  {
  }

  lemma LastPort(j: Job, b: Beam, n: nat)
    requires j.Valid() && b.at <= j.Top()
    ensures PortFill(j, b, n, n) == b
  {
  }
}
