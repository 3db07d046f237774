/** The rasterizer of libs/v6core/src/display.cpp as values: sixteen pixels per call, painted either by a fast fill or
    by a fill that lets pending port writes commit between pixels. */
module Display {
  import opened Bytes
  import opened Memory
  import opened Io

  const FRAME_W := 768
  const FRAME_H := 312
  const FRAME_LEN := 239616
  const ACTIVE_TOP := 40
  const ACTIVE_W := 512
  const ACTIVE_H := 256
  const CHUNK := 16
  const SCROLL_COMMIT_PXL := 131

  datatype Config = Config(borderLeft: int, irqCommitPxl: int, times: Times)

  type Buffer = s: seq<nat> | |s| == FRAME_LEN ghost witness seq(FRAME_LEN, _ => 0)
  type Index = n: nat | n < FRAME_LEN

  /** `back` is the last complete frame, the one shown. */
  datatype Screen = Screen(buffer: Buffer, back: Buffer, idx: Index, frameNum: nat, irq: bool, scroll: byte, ports: Ports)

  function Line(idx: nat): (r: nat) { idx / FRAME_W }
  function Pixel(idx: nat): (r: nat) { idx % FRAME_W }

  /** Palette byte BBGGGRRR as an opaque 32-bit ABGR colour. */
  function Argb(v: byte): (c: nat)
  {
    0xff00_0000 + v % 8 * 0x20 + v / 8 % 8 * 0x2000 + v / 64 * 0x40_0000
  }

  /** The bytes of the four screen planes behind sixteen pixels. */
  datatype Planes = Planes(p8: byte, pA: byte, pC: byte, pE: byte)

  /** C++ division truncates toward zero. */
  function TruncDiv(a: int, b: nat): (r: int)
    requires b > 0
  {
    if a >= 0 then a / b else -((-a) / b)
  }

  function ScreenBytes(cfg: Config, ram: Ram, line: nat, pixel: nat): (r: Planes)
    requires ACTIVE_TOP <= line < ACTIVE_TOP + ACTIVE_H
  {
    var offset := (TruncDiv(pixel - cfg.borderLeft, CHUNK) * 0x100 + (ACTIVE_H - 1 - (line - ACTIVE_TOP))) % 0x1_0000;
    Planes(ram[offset + 0x8000], ram[offset + 0xA000], ram[offset + 0xC000], ram[offset + 0xE000])
  }

  function BitAt(v: byte, k: nat): (r: nat) ensures r <= 1 { if Bit(v, k) then 1 else 0 }

  /** MODE_256 takes one bit of each plane, MODE_512 two planes for even and two for odd positions. */
  function ColorOf(mode512: bool, b: Planes, at: nat): (c: ColorIdx)
  {
    if !mode512 then BitAt(b.pE, at) + 2 * BitAt(b.pC, at) + 4 * BitAt(b.pA, at) + 8 * BitAt(b.p8, at)
    else if at % 2 == 1 then BitAt(b.pE, at / 2) + 2 * BitAt(b.pC, at / 2)
    else 4 * BitAt(b.pA, at / 2) + 8 * BitAt(b.p8, at / 2)
  }

  // ---- The active area ------------------------------------------------------

  /** What a fill fixes before its loop. */
  datatype Job = Job(cfg: Config, ram: Ram, mode512: bool, line: nat, scrolled: nat)
  {
    predicate Valid() { ACTIVE_TOP <= scrolled < ACTIVE_TOP + ACTIVE_H }
    function Top(): (n: nat) { if mode512 then 15 else 7 }
  }

  /** The loop state of a fill: `at` counts down through the bits of `bytes`. */
  datatype Beam = Beam(screen: Screen, bytes: Planes, at: nat)

  predicate IsActiveLine(idx: nat) { ACTIVE_TOP <= Line(idx) < ACTIVE_TOP + ACTIVE_H }

  function JobFor(cfg: Config, ram: Ram, s: Screen): (j: Job)
    requires ACTIVE_TOP <= Line(s.idx)
    ensures j.Valid()
  {
    var line := Line(s.idx);
    Job(cfg, ram, s.ports.mode512, line, (line - ACTIVE_TOP + (255 - s.scroll) + ACTIVE_H) % ACTIVE_H + ACTIVE_TOP)
  }

  function StartBeam(j: Job, s: Screen): (b: Beam)
    requires j.Valid() && s.idx >= j.cfg.borderLeft
    ensures b.at <= j.Top()
  {
    var off := (s.idx - j.cfg.borderLeft) % CHUNK;
    Beam(s, ScreenBytes(j.cfg, j.ram, j.scrolled, Pixel(s.idx)), if j.mode512 then 15 - off else 7 - off / 2)
  }

  /** The index after pixel `i`, or -1 when the bytes are used up. */
  function Down(j: Job, at: nat, i: nat): (r: int) { if j.mode512 then at - 1 else at - i % 2 }

  function Paint(s: Screen, color: byte): (r: Screen)
    requires s.idx + 1 < FRAME_LEN
  {
    s.(buffer := s.buffer[s.idx := Argb(color)], idx := s.idx + 1)
  }

  function FastPixel(j: Job, b: Beam, i: nat): (r: Beam)
    requires j.Valid() && b.screen.idx + 1 < FRAME_LEN && b.at <= j.Top()
    ensures r.at <= j.Top() && r.screen.idx == b.screen.idx + 1
  {
    var c := ColorOf(j.mode512, b.bytes, b.at);
    var s := Paint(b.screen, b.screen.ports.palette[c]);
    var at := Down(j, b.at, i);
    if at < 0 then Beam(s, ScreenBytes(j.cfg, j.ram, j.scrolled, Pixel(s.idx)), j.Top()) else Beam(s, b.bytes, at)
  }

  /** A pixel that may latch the scroll register and lets the ports commit before it is painted. */
  function PortPixel(j: Job, b: Beam, i: nat): (r: Beam)
    requires j.Valid() && b.screen.idx + 1 < FRAME_LEN && b.at <= j.Top()
    ensures r.at <= j.Top() && r.screen.idx == b.screen.idx + 1
  {
    var pixel := Pixel(b.screen.idx);
    var scroll := if j.line == ACTIVE_TOP && pixel == SCROLL_COMMIT_PXL then b.screen.ports.scroll else b.screen.scroll;
    var c := ColorOf(j.mode512, b.bytes, b.at);
    var ports := TryToCommit(b.screen.ports, c);
    var s := Paint(b.screen.(scroll := scroll, ports := ports), ports.palette[c]);
    var at := Down(j, b.at, i);
    if at < 0 then Beam(s, ScreenBytes(j.cfg, j.ram, j.scrolled, pixel), j.Top()) else Beam(s, b.bytes, at)
  }

  function FastFill(j: Job, b: Beam, i: nat, n: nat): (r: Beam)
    requires j.Valid() && i <= n && b.screen.idx + (n - i) < FRAME_LEN && b.at <= j.Top()
    decreases n - i
  {
    if i == n then b else FastFill(j, FastPixel(j, b, i), i + 1, n)
  }

  function PortFill(j: Job, b: Beam, i: nat, n: nat): (r: Beam)
    requires j.Valid() && i <= n && b.screen.idx + (n - i) < FRAME_LEN && b.at <= j.Top()
    decreases n - i
  {
    if i == n then b else PortFill(j, PortPixel(j, b, i), i + 1, n)
  }

  /** `always` is the rasterizer that never takes the fast fill. */
  function Active(always: bool, cfg: Config, ram: Ram, s: Screen, n: nat): (r: Screen)
    requires ACTIVE_TOP <= Line(s.idx) && s.idx >= cfg.borderLeft && s.idx + n < FRAME_LEN
  {
    var j := JobFor(cfg, ram, s);
    var commitTime := s.ports.outTimer > 0 || s.ports.paletteTimer > 0;
    var scrollTime := Line(s.idx) == ACTIVE_TOP && Pixel(s.idx) < cfg.borderLeft + CHUNK;
    if always || commitTime || scrollTime then PortFill(j, StartBeam(j, s), 0, n).screen
    else FastFill(j, StartBeam(j, s), 0, n).screen
  }

  // ---- The border -----------------------------------------------------------

  function FastBorder(s: Screen, n: nat): (r: Screen)
    requires s.idx + n < FRAME_LEN
    decreases n
  {
    if n == 0 then s else FastBorder(Paint(s, s.ports.palette[s.ports.border]), n - 1)
  }

  /** Border pixels also turn the frame over and raise the interrupt request. */
  function BorderPixel(cfg: Config, s: Screen): (r: Screen)
  {
    var ports := TryToCommit(s.ports, s.ports.border);
    var last := s.idx + 1 == FRAME_LEN;
    var idx := if last then 0 else s.idx + 1;
    var buffer := s.buffer[s.idx := Argb(ports.palette[ports.border])];
    Screen(buffer, if last then buffer else s.back, idx, if last then s.frameNum + 1 else s.frameNum,
           s.irq || idx == cfg.irqCommitPxl, s.scroll, ports)
  }

  function PortBorder(cfg: Config, s: Screen, n: nat): (r: Screen)
    decreases n
  {
    if n == 0 then s else PortBorder(cfg, BorderPixel(cfg, s), n - 1)
  }

  function Border(always: bool, cfg: Config, s: Screen, n: nat): (r: Screen)
    requires n <= CHUNK
  {
    var line := Line(s.idx);
    var commitTime := s.ports.outTimer >= 0 || s.ports.paletteTimer >= 0;
    if always || commitTime || line == 0 || line == FRAME_H - 1 then PortBorder(cfg, s, n) else FastBorder(s, n)
  }

  predicate IsActive(cfg: Config, idx: nat)
  {
    IsActiveLine(idx) && cfg.borderLeft <= Pixel(idx) < cfg.borderLeft + ACTIVE_W
  }

  function Min(a: int, b: int): (r: int) { if a < b then a else b }

  /** How much of the next sixteen pixels the area under the beam takes. */
  function FirstPart(cfg: Config, idx: nat): (n: nat)
    ensures 0 < n <= CHUNK
  {
    var pixel := Pixel(idx);
    if IsActive(cfg, idx) then Min(cfg.borderLeft + ACTIVE_W - pixel, CHUNK)
    else if !IsActiveLine(idx) || pixel >= cfg.borderLeft + ACTIVE_W then CHUNK
    else Min(cfg.borderLeft - pixel, CHUNK)
  }

  /** Sixteen pixels; an unaligned left border splits them between active area and border. */
  function Rasterize(always: bool, cfg: Config, ram: Ram, s: Screen): (r: Screen)
  {
    var n := FirstPart(cfg, s.idx);
    var s := s.(irq := false);
    if IsActive(cfg, s.idx) then
      ActiveRoom(cfg, s.idx);
      var s' := Active(always, cfg, ram, s, n);
      if n < CHUNK then Border(always, cfg, s', CHUNK - n) else s'
    else
      var s' := Border(always, cfg, s, n);
      if n < CHUNK then SplitRoom(cfg, always, s, n); Active(always, cfg, ram, s', CHUNK - n) else s'
  }

  lemma ActiveRoom(cfg: Config, idx: nat)
    requires IsActive(cfg, idx)
    ensures idx + CHUNK < FRAME_LEN && idx >= cfg.borderLeft
  {
  }

  lemma {:induction false} BorderMoves(cfg: Config, s: Screen, n: nat)
    requires s.idx + n < FRAME_LEN
    ensures PortBorder(cfg, s, n).idx == s.idx + n
    decreases n
  {
    hide TryToCommit, Argb;
    if n > 0 { BorderMoves(cfg, BorderPixel(cfg, s), n - 1); }
  }

  lemma {:induction false} FastBorderMoves(s: Screen, n: nat)
    requires s.idx + n < FRAME_LEN
    ensures FastBorder(s, n).idx == s.idx + n && FastBorder(s, n).frameNum == s.frameNum
    ensures FastBorder(s, n).irq == s.irq && FastBorder(s, n).ports == s.ports
    decreases n
  {
    hide Argb;
    if n > 0 { FastBorderMoves(Paint(s, s.ports.palette[s.ports.border]), n - 1); }
  }

  lemma SplitRoom(cfg: Config, always: bool, s: Screen, n: nat)
    requires n == FirstPart(cfg, s.idx) < CHUNK && !IsActive(cfg, s.idx)
    ensures var s' := Border(always, cfg, s, n);
            ACTIVE_TOP <= Line(s'.idx) && s'.idx >= cfg.borderLeft && s'.idx + (CHUNK - n) < FRAME_LEN
  {
    hide PortBorder, FastBorder;
    BorderMoves(cfg, s, n);
    FastBorderMoves(s, n);
  }
}
