/** The picture itself: which bits of memory and of the palette every pixel of the frame is painted from, and what else a
    call of the rasterizer leaves behind, for any pending port writes (libs/v6core/src/display.cpp). */
module Picture {
  import opened Bytes
  import opened Memory
  import opened Io
  import opened Display
  import opened Rasterizer
  import C = PortCommits

  // ---- What a pixel means --------------------------------------------------------

  /** The byte of screen plane `plane` at column `x` on raster line `y`. */
  function ScreenByte(ram: Ram, scroll: byte, plane: nat, x: nat, y: nat): (v: byte)
    requires plane < 4 && x < 32
  {
    ram[0x8000 + 0x2000 * plane + 0x100 * x + (scroll - (y - 40)) % 256]
  }

  /** One bit of that byte: the top bit is the leftmost, and each lasts two pixels. */
  function PlaneBit(ram: Ram, scroll: byte, plane: nat, x: nat, y: nat, k: nat): (n: nat)
    requires plane < 4 && x < 32
    ensures n <= 1
  {
    C.Num(Bit(ScreenByte(ram, scroll, plane, x, y), if k < 16 then 7 - k / 2 else 0))
  }

  /** The colour index of pixel `k` of a column: four planes in the 256 mode; in the 512 mode the planes E000 and C000
      for the left and A000 and 8000 for the right pixel of a pair. */
  function IndexAt(ram: Ram, scroll: byte, mode512: bool, x: nat, y: nat, k: nat): (c: ColorIdx)
    requires x < 32
  {
    var p8, pA := PlaneBit(ram, scroll, 0, x, y, k), PlaneBit(ram, scroll, 1, x, y, k);
    var pC, pE := PlaneBit(ram, scroll, 2, x, y, k), PlaneBit(ram, scroll, 3, x, y, k);
    if !mode512 then pE + 2 * pC + 4 * pA + 8 * p8 else if k % 2 == 0 then pE + 2 * pC else 4 * pA + 8 * p8
  }

  /** A 32-bit colour is opaque and shows palette byte BBGGGRRR: red from bits 0 to 2, green from 3 to 5, blue from 6 and
      7, each at the top of its field. */
  predicate Shows(color: nat, v: byte)
  {
    && color / 0x100_0000 == 0xFF
    && color % 0x100 == 32 * C.Num(Bit(v, 0)) + 64 * C.Num(Bit(v, 1)) + 128 * C.Num(Bit(v, 2))
    && color / 0x100 % 0x100 == 32 * C.Num(Bit(v, 3)) + 64 * C.Num(Bit(v, 4)) + 128 * C.Num(Bit(v, 5))
    && color / 0x1_0000 % 0x100 == 64 * C.Num(Bit(v, 6)) + 128 * C.Num(Bit(v, 7))
  }

  lemma ArgbShows(v: byte)
    ensures Shows(Argb(v), v)
  {
    hide Bit;
    ColorFields(Argb(v), v % 8, v / 8 % 8, v / 64);
    RedBits(v);
    GreenBits(v);
    BlueBits(v);
    hide Argb;
  }

  lemma RedBits(v: byte)
    ensures v % 8 == C.Num(Bit(v, 0)) + 2 * C.Num(Bit(v, 1)) + 4 * C.Num(Bit(v, 2))
  {
    hide Bit;
    ByteBits(v);
    ThreeBits(v);
  }

  lemma GreenBits(v: byte)
    ensures v / 8 % 8 == C.Num(Bit(v, 3)) + 2 * C.Num(Bit(v, 4)) + 4 * C.Num(Bit(v, 5))
  {
    hide Bit;
    ByteBits(v);
    EighthBits(v);
  }

  lemma BlueBits(v: byte)
    ensures v / 64 == C.Num(Bit(v, 6)) + 2 * C.Num(Bit(v, 7))
  {
    hide Bit;
    ByteBits(v);
    assert v / 64 == v / 64 % 2 + 2 * (v / 128);
  }

  lemma ColorFields(c: nat, r: nat, g: nat, b: nat)
    requires r < 8 && g < 8 && b < 4 && c == 0xFF00_0000 + r * 0x20 + g * 0x2000 + b * 0x40_0000
    ensures c / 0x100_0000 == 0xFF && c % 0x100 == 32 * r && c / 0x100 % 0x100 == 32 * g && c / 0x1_0000 % 0x100 == 64 * b
  {
    Quotient(c, 0x100, 0xFF_0000 + b * 0x4000 + g * 0x20, r * 0x20);
    Quotient(0xFF_0000 + b * 0x4000 + g * 0x20, 0x100, 0xFF00 + b * 0x40, g * 0x20);
    Quotient(c, 0x1_0000, 0xFF00 + b * 0x40, g * 0x2000 + r * 0x20);
    Quotient(0xFF00 + b * 0x40, 0x100, 0xFF, b * 0x40);
    Quotient(c, 0x100_0000, 0xFF, b * 0x40_0000 + g * 0x2000 + r * 0x20);
  }

  lemma EighthBits(v: byte)
    ensures v / 8 % 8 == v / 8 % 2 + 2 * (v / 16 % 2) + 4 * (v / 32 % 2)
  {
    ThreeBits(v / 8);
    assert v / 8 / 2 == v / 16 && v / 8 / 4 == v / 32;
  }

  lemma ThreeBits(n: nat)
    ensures n % 8 == n % 2 + 2 * (n / 2 % 2) + 4 * (n / 4 % 2)
  {
    var n1 := n / 2;
    var n2 := n1 / 2;
    Quotient(n, 8, n2 / 2, 4 * (n2 % 2) + 2 * (n1 % 2) + n % 2);
    assert n2 == n / 4;
  }

  // ---- The screen bytes under the beam ----------------------------------------------

  predicate Column(cfg: Config, s: Screen, x: nat, y: nat)
  {
    && s.idx % 16 == 0 && cfg.borderLeft % 16 == 0
    && 40 <= y < 296 && x < 32 && s.idx == 768 * y + cfg.borderLeft + 16 * x && 0 <= cfg.borderLeft + 16 * x < 768
  }

  lemma ColumnIsActive(cfg: Config, s: Screen, x: nat, y: nat)
    requires Column(cfg, s, x, y)
    ensures Aligned(cfg, s.idx) && IsActive(cfg, s.idx) && Line(s.idx) == y && Pixel(s.idx) == cfg.borderLeft + 16 * x
  {
    Quotient(s.idx, FRAME_W, y, cfg.borderLeft + 16 * x);
  }

  lemma ScrolledLine(scroll: byte, y: nat)
    requires 40 <= y < 296
    ensures 255 - (y - 40 + (255 - scroll) + 256) % 256 == (scroll - (y - 40)) % 256
  {
    var u := y - 40 + (255 - scroll) + 256;
    Quotient(scroll - (y - 40), 256, 1 - u / 256, 255 - u % 256);
  }

  lemma BytesUnderBeam(cfg: Config, ram: Ram, s: Screen, x: nat, y: nat)
    requires Column(cfg, s, x, y)
    ensures ACTIVE_TOP <= Line(s.idx)
    ensures ScreenBytes(cfg, ram, JobFor(cfg, ram, s).scrolled, Pixel(s.idx))
            == Planes(ScreenByte(ram, s.scroll, 0, x, y), ScreenByte(ram, s.scroll, 1, x, y),
                      ScreenByte(ram, s.scroll, 2, x, y), ScreenByte(ram, s.scroll, 3, x, y))
  {
    ColumnIsActive(cfg, s, x, y);
    hide Line, Pixel;
    ScrolledLine(s.scroll, y);
    var low := (s.scroll - (y - 40)) % 256;
    assert TruncDiv(Pixel(s.idx) - cfg.borderLeft, CHUNK) == x by { Quotient(16 * x, 16, x, 0); }
    Quotient(x * 0x100 + low, 0x1_0000, 0, x * 0x100 + low);
  }

  lemma ColorUnderBeam(cfg: Config, ram: Ram, s: Screen, x: nat, y: nat, k: nat)
    requires Column(cfg, s, x, y) && k < 16
    ensures ACTIVE_TOP <= Line(s.idx)
    ensures var j := JobFor(cfg, ram, s);
            ColorAt(j, ScreenBytes(cfg, ram, j.scrolled, Pixel(s.idx)), k) == IndexAt(ram, s.scroll, s.ports.mode512, x, y, k)
  {
    BytesUnderBeam(cfg, ram, s, x, y);
    hide Bit, ScreenByte, ScreenBytes, Line, Pixel;
  }

  // ---- The port-handling fill, pixel by pixel -----------------------------------------

  function ColorAt(j: Job, bytes: Planes, k: nat): (c: ColorIdx)
  {
    ColorOf(j.mode512, bytes, if k >= 16 then 0 else if j.mode512 then 15 - k else 7 - k / 2)
  }

  predicate Roomy(j: Job, b: Beam, n: nat) { j.Valid() && b.screen.idx + n < FRAME_LEN && b.at <= j.Top() }

  lemma {:induction false} PortAppends(j: Job, b: Beam, i: nat, n: nat)
    requires i <= n && Roomy(j, b, n + 1 - i)
    ensures var r := PortFill(j, b, i, n);
            Roomy(j, r, 1) && r.screen.idx == b.screen.idx + (n - i) && PortFill(j, b, i, n + 1) == PortPixel(j, r, n)
    decreases n - i
  {
    hide PortPixel;
    if i < n {
      PortAppends(j, PortPixel(j, b, i), i + 1, n);
    } else {
      assert PortFill(j, PortPixel(j, b, n), n + 1, n + 1) == PortPixel(j, b, n);
    }
  }

  /** The colours that follow one another under a beam. */
  function Colors(j: Job, bytes: Planes): (c: nat -> ColorIdx) { (k: nat) => ColorAt(j, bytes, k) }

  /** After `n` pixels of a chunk that starts at `b`. */
  predicate Filled(j: Job, b: Beam, n: nat, r: Beam)
  {
    var c := Colors(j, b.bytes);
    && r.screen.idx == b.screen.idx + n && r.screen.back == b.screen.back && r.screen.frameNum == b.screen.frameNum
    && r.screen.irq == b.screen.irq
    && r.at <= j.Top() && (n < 16 ==> r.bytes == b.bytes && r.at == if j.mode512 then 15 - n else 7 - n / 2)
    && r.screen.ports == C.Elapsed(b.screen.ports, c, n)
    && r.screen.scroll == (if j.line == 40 && Pixel(b.screen.idx) == 128 && n > 3 then C.Elapsed(b.screen.ports, c, 3).scroll
                           else b.screen.scroll)
    && forall q :: 0 <= q < FRAME_LEN ==>
         r.screen.buffer[q] == if b.screen.idx <= q < b.screen.idx + n
                               then Argb(C.Elapsed(b.screen.ports, c, q - b.screen.idx + 1).palette[c(q - b.screen.idx)])
                               else b.screen.buffer[q]
  }

  lemma PortStep(j: Job, b: Beam, n: nat, r: Beam)
    requires Filled(j, b, n, r) && n < 16 && Roomy(j, r, 1)
    requires Pixel(b.screen.idx) % 16 == 0 && Pixel(b.screen.idx) + 16 <= FRAME_W
    ensures Filled(j, b, n + 1, PortPixel(j, r, n))
  {
    hide ColorOf, ScreenBytes, Argb, TryToCommit;
    InChunk(b.screen.idx, n);
    hide Pixel;
    var c := Colors(j, b.bytes);
    assert c(n) == ColorOf(j.mode512, b.bytes, r.at);
    assert C.Elapsed(b.screen.ports, c, n + 1) == TryToCommit(r.screen.ports, c(n));
  }

  lemma {:induction false} PortFilled(j: Job, b: Beam, n: nat)
    requires n <= 16 && Roomy(j, b, 16) && b.at == (if j.mode512 then 15 else 7)
    requires Pixel(b.screen.idx) % 16 == 0 && Pixel(b.screen.idx) + 16 <= FRAME_W
    ensures Filled(j, b, n, PortFill(j, b, 0, n))
  {
    hide PortPixel, Argb, ColorOf, Pixel;
    if n > 0 {
      PortFilled(j, b, n - 1);
      PortAppends(j, b, 0, n - 1);
      hide Filled;
      PortStep(j, b, n - 1, PortFill(j, b, 0, n - 1));
    }
  }

  // ---- The border --------------------------------------------------------------------

  /** The border colour index before pixel `k`. */
  function BorderColors(p: Ports): (c: nat -> ColorIdx) { (k: nat) => C.BorderBy(p, C.Due(p.outTimer, k)) }

  lemma {:induction false} BorderAppends(cfg: Config, s: Screen, n: nat)
    ensures PortBorder(cfg, s, n + 1) == BorderPixel(cfg, PortBorder(cfg, s, n))
    decreases n
  {
    hide BorderPixel;
    if n > 0 {
      BorderAppends(cfg, BorderPixel(cfg, s), n - 1);
    } else {
      assert PortBorder(cfg, BorderPixel(cfg, s), 0) == BorderPixel(cfg, s);
    }
  }

  /** After `n` border pixels of a chunk that starts at `s`. */
  predicate Bordered(s: Screen, n: nat, r: Screen)
  {
    var c := BorderColors(s.ports);
    var turn := s.idx + n == FRAME_LEN;
    && r.idx == (if turn then 0 else s.idx + n) && r.scroll == s.scroll
    && r.frameNum == s.frameNum + (if turn then 1 else 0) && r.back == (if turn then r.buffer else s.back)
    && r.ports == C.Elapsed(s.ports, c, n)
    && forall q :: 0 <= q < FRAME_LEN ==>
         r.buffer[q] == if s.idx <= q < s.idx + n then Argb(C.Elapsed(s.ports, c, q - s.idx + 1).palette[c(q - s.idx + 1)]) else s.buffer[q]
  }

  lemma BorderStep(cfg: Config, s: Screen, n: nat, r: Screen)
    requires Bordered(s, n, r) && s.idx + n < FRAME_LEN
    ensures Bordered(s, n + 1, BorderPixel(cfg, r))
  {
    hide Argb, TryToCommit;
    var c := BorderColors(s.ports);
    BorderOf(s.ports, n);
    BorderOf(s.ports, n + 1);
    assert C.Elapsed(s.ports, c, n + 1) == TryToCommit(r.ports, c(n));
  }

  lemma BorderOf(p: Ports, n: nat)
    ensures C.Elapsed(p, BorderColors(p), n).border == BorderColors(p)(n)
  {
    hide Bit;
    C.ElapsedMeans(p, BorderColors(p), n);
  }

  lemma {:induction false} PortBordered(cfg: Config, s: Screen, n: nat)
    requires s.idx + n <= FRAME_LEN
    ensures Bordered(s, n, PortBorder(cfg, s, n))
  {
    hide BorderPixel, Argb;
    if n > 0 {
      PortBordered(cfg, s, n - 1);
      BorderAppends(cfg, s, n - 1);
      hide Bordered;
      BorderStep(cfg, s, n - 1, PortBorder(cfg, s, n - 1));
    }
  }

  // ---- One call, and what it shows ------------------------------------------------------

  /** Pixel `k` of the chunk shows the palette as it is once the writes due by then are in, at colour index `c(paint + k)`;
      nothing else of the frame changes. */
  predicate ChunkShows(s: Screen, c: nat -> ColorIdx, ahead: nat, r: Screen)
  {
    forall q :: 0 <= q < FRAME_LEN ==>
      if s.idx <= q < s.idx + 16 then Shows(r.buffer[q], C.Settles(s.ports, c, q - s.idx + 1).palette[c(q - s.idx + ahead)])
      else r.buffer[q] == s.buffer[q]
  }

  lemma ElapsedAll(p: Ports, c: nat -> ColorIdx)
    ensures forall k: nat :: C.Elapsed(p, c, k) == C.Settles(p, c, k)
  {
    forall k: nat ensures C.Elapsed(p, c, k) == C.Settles(p, c, k) { C.ElapsedMeans(p, c, k); }
  }

  lemma ArgbAll()
    ensures forall v: byte :: Shows(Argb(v), v)
  {
    forall v: byte ensures Shows(Argb(v), v) { ArgbShows(v); }
  }

  /** In the active area, for every mode, scroll, border on the grid and pending write, the rasterizer that handles ports
      at every pixel paints the bits of the screen planes, commits what falls due, and latches the scroll register three
      pixels into the column at pixel 128 of the first line. */
  lemma ActivePicture(cfg: Config, ram: Ram, s: Screen, x: nat, y: nat)
    requires Column(cfg, s, x, y)
    ensures var r := Rasterize(true, cfg, ram, s);
            var c := (k: nat) => IndexAt(ram, s.scroll, s.ports.mode512, x, y, k);
            && ChunkShows(s, c, 0, r)
            && r.ports == C.Settles(s.ports, c, 16) && r.idx == s.idx + 16 && r.frameNum == s.frameNum && r.back == s.back
            && r.scroll == (if y == 40 && cfg.borderLeft + 16 * x == 128 then C.Settles(s.ports, c, 3).scroll else s.scroll)
  {
    ColumnIsActive(cfg, s, x, y);
    ActiveFilled(cfg, ram, s);
    var j := JobFor(cfg, ram, s);
    var bytes := ScreenBytes(cfg, ram, j.scrolled, Pixel(s.idx));
    var c := (k: nat) => IndexAt(ram, s.scroll, s.ports.mode512, x, y, k);
    forall k: nat | k < 16 ensures Colors(j, bytes)(k) == c(k) { ColorUnderBeam(cfg, ram, s, x, y, k); }
    var r := Rasterize(true, cfg, ram, s);
    hide Rasterize, ScreenBytes, ColorAt, IndexAt, Argb, Shows, JobFor, Line, Pixel, C.Elapsed, C.Settles, Column;
    SameFill(j, bytes, c, s, r);
  }

  lemma ActiveFilled(cfg: Config, ram: Ram, s: Screen)
    requires Aligned(cfg, s.idx) && IsActive(cfg, s.idx)
    ensures ACTIVE_TOP <= Line(s.idx)
    ensures var j := JobFor(cfg, ram, s);
            Painted(j, ScreenBytes(cfg, ram, j.scrolled, Pixel(s.idx)), s, Rasterize(true, cfg, ram, s)) && j.line == Line(s.idx)
  {
    hide PortFill, FastFill, Argb, ScreenBytes, ColorOf, C.Elapsed, ColorAt;
    WholeChunk(cfg, s.idx);
    ActiveRoom(cfg, s.idx);
    var s0 := s.(irq := false);
    var j := JobFor(cfg, ram, s0);
    assert j == JobFor(cfg, ram, s);
    var b := StartBeam(j, s0);
    PortFilled(j, b, 16);
  }

  predicate Painted(j: Job, bytes: Planes, s: Screen, r: Screen)
  {
    var c := Colors(j, bytes);
    && r.idx == s.idx + 16 && r.back == s.back && r.frameNum == s.frameNum
    && r.ports == C.Elapsed(s.ports, c, 16)
    && r.scroll == (if j.line == 40 && Pixel(s.idx) == 128 then C.Elapsed(s.ports, c, 3).scroll else s.scroll)
    && forall q :: 0 <= q < FRAME_LEN ==>
         r.buffer[q] == if s.idx <= q < s.idx + 16 then Argb(C.Elapsed(s.ports, c, q - s.idx + 1).palette[c(q - s.idx)]) else s.buffer[q]
  }

  /** Colours beyond the pixels painted do not matter. */
  lemma SameColors(p: Ports, c: nat -> ColorIdx, d: nat -> ColorIdx, n: nat)
    requires forall k: nat :: k < n ==> c(k) == d(k)
    ensures forall k: nat :: k <= n ==> C.Elapsed(p, c, k) == C.Settles(p, d, k)
  {
    forall k: nat | k <= n ensures C.Elapsed(p, c, k) == C.Settles(p, d, k) {
      C.ElapsedMeans(p, c, k);
      hide C.BorderBy, C.ModeBy, C.ScrollBy, C.ColorBy;
    }
  }

  lemma SameFill(j: Job, bytes: Planes, c: nat -> ColorIdx, s: Screen, r: Screen)
    requires Painted(j, bytes, s, r) && forall k: nat :: k < 16 ==> Colors(j, bytes)(k) == c(k)
    ensures ChunkShows(s, c, 0, r) && r.ports == C.Settles(s.ports, c, 16)
    ensures r.scroll == (if j.line == 40 && Pixel(s.idx) == 128 then C.Settles(s.ports, c, 3).scroll else s.scroll)
  {
    SameColors(s.ports, Colors(j, bytes), c, 16);
    ArgbAll();
    hide Argb, Shows, C.Settles, C.Elapsed, ColorAt;
    var d := Colors(j, bytes);
    assert C.Elapsed(s.ports, d, 3) == C.Settles(s.ports, c, 3) && C.Elapsed(s.ports, d, 16) == C.Settles(s.ports, c, 16);
    forall q | 0 <= q < FRAME_LEN && s.idx <= q < s.idx + 16
      ensures Shows(r.buffer[q], C.Settles(s.ports, c, q - s.idx + 1).palette[c(q - s.idx)])
    {
      var k: nat := q - s.idx;
      assert C.Elapsed(s.ports, d, k + 1) == C.Settles(s.ports, c, k + 1) && d(k) == c(k);
    }
  }

  lemma BorderFilled(cfg: Config, ram: Ram, s: Screen)
    requires Aligned(cfg, s.idx) && !IsActive(cfg, s.idx)
    ensures s.idx + 16 <= FRAME_LEN && Bordered(s.(irq := false), 16, Rasterize(true, cfg, ram, s))
  {
    hide PortBorder, Bordered;
    WholeChunk(cfg, s.idx);
    FrameEnd(s.idx);
    PortBordered(cfg, s.(irq := false), 16);
  }

  /** In the border, pixel by pixel, the palette entry of the border colour, once the writes due by then are in; the frame
      ends with the last pixel, and the finished frame becomes the one shown. */
  lemma BorderPicture(cfg: Config, ram: Ram, s: Screen)
    requires s.idx % 16 == 0 && cfg.borderLeft % 16 == 0
    requires !(40 <= s.idx / 768 < 296 && cfg.borderLeft <= s.idx % 768 < cfg.borderLeft + 512)
    ensures var r := Rasterize(true, cfg, ram, s);
            var c := (k: nat) => C.BorderBy(s.ports, C.Due(s.ports.outTimer, k));
            var turn := s.idx + 16 == 239616;
            && ChunkShows(s, c, 1, r)
            && r.ports == C.Settles(s.ports, c, 16) && r.scroll == s.scroll && r.idx == (if turn then 0 else s.idx + 16)
            && r.frameNum == s.frameNum + (if turn then 1 else 0) && r.back == (if turn then r.buffer else s.back)
  {
    BorderFilled(cfg, ram, s);
    var r := Rasterize(true, cfg, ram, s);
    var c := (k: nat) => C.BorderBy(s.ports, C.Due(s.ports.outTimer, k));
    hide Rasterize, Argb, Shows, C.Settles, C.Elapsed;
    BorderedShows(s, s.(irq := false), c, r);
  }

  lemma BorderedShows(s: Screen, s0: Screen, c: nat -> ColorIdx, r: Screen)
    requires s0 == s.(irq := false) && Bordered(s0, 16, r) && s.idx + 16 <= FRAME_LEN
    requires forall k: nat :: c(k) == C.BorderBy(s.ports, C.Due(s.ports.outTimer, k))
    ensures ChunkShows(s, c, 1, r) && r.ports == C.Settles(s.ports, c, 16)
  {
    hide Argb, Shows, ChunkShows, C.Elapsed, C.Settles, C.BorderBy, C.Due;
    var d := BorderColors(s.ports);
    assert forall k: nat :: d(k) == c(k);
    SameColors(s.ports, d, c, 16);
    assert C.Elapsed(s.ports, d, 16) == C.Settles(s.ports, c, 16);
    BorderedPixels(s, d, c, r);
  }

  lemma BorderedPixels(s: Screen, d: nat -> ColorIdx, c: nat -> ColorIdx, r: Screen)
    requires s.idx + 16 <= FRAME_LEN
    requires forall k: nat :: k <= 16 ==> d(k) == c(k) && C.Elapsed(s.ports, d, k) == C.Settles(s.ports, c, k)
    requires forall q :: 0 <= q < FRAME_LEN ==>
               r.buffer[q] == if s.idx <= q < s.idx + 16 then Argb(C.Elapsed(s.ports, d, q - s.idx + 1).palette[d(q - s.idx + 1)])
                              else s.buffer[q]
    ensures ChunkShows(s, c, 1, r)
  {
    ArgbAll();
    hide Argb, Shows, C.Settles, C.Elapsed;
    forall q | 0 <= q < FRAME_LEN && s.idx <= q < s.idx + 16
      ensures Shows(r.buffer[q], C.Settles(s.ports, c, q - s.idx + 1).palette[c(q - s.idx + 1)])
    {
      var k: nat := q - s.idx + 1;
      assert C.Elapsed(s.ports, d, k) == C.Settles(s.ports, c, k) && d(k) == c(k);
    }
  }

  // ---- The rasterizer that is shipped ------------------------------------------------

  /** The mixed rasterizer shows the same picture whenever commits are prompt; it only keeps its scroll register where it
      misses the change of it. */
  lemma MixedPicture(cfg: Config, ram: Ram, s: Screen)
    requires Aligned(cfg, s.idx) && Pending(s.ports)
    ensures var r, t := Rasterize(false, cfg, ram, s), Rasterize(true, cfg, ram, s);
            if MissesScroll(cfg, s) then t == r.(scroll := s.ports.scroll) && r.scroll == s.scroll else r == t
  {
    RasterizersAgreeIff(cfg, ram, s);
    if MissesScroll(cfg, s) {
      hide Active, Border, FastFill, PortFill;
      var s0 := s.(irq := false);
      WholeChunk(cfg, s.idx);
      ScrollActive(cfg, s.idx);
      ActiveRoom(cfg, s.idx);
      MissedFill(cfg, ram, s0);
    }
  }

  lemma ScrollActive(cfg: Config, idx: nat)
    requires Aligned(cfg, idx) && AtScroll(idx) && Overlooked(cfg)
    ensures IsActive(cfg, idx)
  {
  }

  lemma MissedFill(cfg: Config, ram: Ram, s: Screen)
    requires Aligned(cfg, s.idx) && IsActive(cfg, s.idx) && MissesScroll(cfg, s) && s.idx + CHUNK < FRAME_LEN && s.idx >= cfg.borderLeft
    ensures var r, t := Active(false, cfg, ram, s, CHUNK), Active(true, cfg, ram, s, CHUNK);
            t == r.(scroll := s.ports.scroll) && r.scroll == s.scroll
  {
    hide PortFill, FastFill;
    WholeChunk(cfg, s.idx);
    var j := JobFor(cfg, ram, s);
    var b := StartBeam(j, s);
    assert Inside(j, b, 0);
    ScrollFill(j, b, 0);
    ScrollCarried(j, b, 0, 0);
  }

  /** With nothing pending: on active line `y`, in column `x`, the sixteen pixels show the palette at the indices given by
      the bits of the four planes at address 100 x + (scroll - (y - 40)) mod 256, top bit first. */
  lemma SettledPicture(cfg: Config, ram: Ram, s: Screen, x: nat, y: nat)
    requires Column(cfg, s, x, y) && Settled(s.ports)
    ensures var r := Rasterize(false, cfg, ram, s);
            && (forall q :: 0 <= q < FRAME_LEN ==>
                  if s.idx <= q < s.idx + 16 then
                    Shows(r.buffer[q], s.ports.palette[IndexAt(ram, s.scroll, s.ports.mode512, x, y, q - s.idx)])
                  else r.buffer[q] == s.buffer[q])
            && r.ports == s.ports && r.idx == s.idx + 16 && r.frameNum == s.frameNum && r.back == s.back
            && (s.scroll == s.ports.scroll ==> r.scroll == s.scroll)
  {
    hide Rasterize, Shows, IndexAt;
    ColumnIsActive(cfg, s, x, y);
    IdlePends(s.ports);
    MixedPicture(cfg, ram, s);
    ActivePicture(cfg, ram, s, x, y);
    NothingDue(s.ports, (k: nat) => IndexAt(ram, s.scroll, s.ports.mode512, x, y, k));
    hide C.Settles, Column, MissesScroll, Aligned, IsActive, Line, Pixel;
  }

  lemma NothingDue(p: Ports, c: nat -> ColorIdx)
    requires Settled(p)
    ensures forall k: nat :: C.Settles(p, c, k) == p
  {
  }

  // ---- A whole frame --------------------------------------------------------------------

  /** The palette byte pixel `q` of a frame shows, on raster line q / 768 at pixel q % 768. */
  function PixelValue(cfg: Config, ram: Ram, p: Ports, q: nat): (v: byte)
  {
    var y, d := q / 768, q % 768 - cfg.borderLeft;
    if 40 <= y < 296 && 0 <= d < 512 then p.palette[IndexAt(ram, p.scroll, p.mode512, d / 16, y, d % 16)] else p.palette[p.border]
  }

  /** Nothing pends and the scroll register is latched. */
  predicate Still(s: Screen) { s.idx % 16 == 0 && Settled(s.ports) && s.scroll == s.ports.scroll }

  predicate ChunkOf(cfg: Config, ram: Ram, s: Screen, r: Screen)
  {
    && (forall q :: 0 <= q < FRAME_LEN ==>
          if s.idx <= q < s.idx + 16 then Shows(r.buffer[q], PixelValue(cfg, ram, s.ports, q)) else r.buffer[q] == s.buffer[q])
    && r.ports == s.ports && r.scroll == s.scroll && r.idx == (if s.idx + 16 == FRAME_LEN then 0 else s.idx + 16)
    && r.frameNum == s.frameNum + (if s.idx + 16 == FRAME_LEN then 1 else 0)
    && r.back == (if s.idx + 16 == FRAME_LEN then r.buffer else s.back)
  }

  lemma InColumn(cfg: Config, idx: nat, k: nat, x: nat, y: nat)
    requires idx == 768 * y + cfg.borderLeft + 16 * x && 0 <= cfg.borderLeft + 16 * x && cfg.borderLeft + 16 * x + 16 <= 768 && k < 16
    ensures (idx + k) / 768 == y && (idx + k) % 768 - cfg.borderLeft == 16 * x + k
    ensures (16 * x + k) / 16 == x && (16 * x + k) % 16 == k
  {
    Quotient(idx + k, 768, y, cfg.borderLeft + 16 * x + k);
    Quotient(16 * x + k, 16, x, k);
  }

  lemma ActiveChunkOf(cfg: Config, ram: Ram, s: Screen, x: nat, y: nat)
    requires Still(s) && Column(cfg, s, x, y) && cfg.borderLeft + 16 * x + 16 <= 768 && s.idx + 16 < FRAME_LEN
    ensures ChunkOf(cfg, ram, s, Rasterize(false, cfg, ram, s))
  {
    hide Rasterize, Shows, IndexAt;
    SettledPicture(cfg, ram, s, x, y);
    var r := Rasterize(false, cfg, ram, s);
    forall q | 0 <= q < FRAME_LEN && s.idx <= q < s.idx + 16 ensures Shows(r.buffer[q], PixelValue(cfg, ram, s.ports, q)) {
      InColumn(cfg, s.idx, q - s.idx, x, y);
    }
  }

  lemma BorderChunkOf(cfg: Config, ram: Ram, s: Screen)
    requires Still(s) && cfg.borderLeft % 16 == 0
    requires !(40 <= s.idx / 768 < 296 && cfg.borderLeft <= s.idx % 768 < cfg.borderLeft + 512)
    ensures ChunkOf(cfg, ram, s, Rasterize(false, cfg, ram, s))
  {
    hide Rasterize, ChunkShows, C.Settles, C.BorderBy, C.Due, ChunkOf;
    IdlePends(s.ports);
    MixedPicture(cfg, ram, s);
    BorderPicture(cfg, ram, s);
    var c := (k: nat) => C.BorderBy(s.ports, C.Due(s.ports.outTimer, k));
    NothingDue(s.ports, c);
    BorderStays(s.ports);
    StillBorder(cfg, ram, s, c, Rasterize(false, cfg, ram, s));
  }

  lemma StillBorder(cfg: Config, ram: Ram, s: Screen, c: nat -> ColorIdx, r: Screen)
    requires Still(s) && cfg.borderLeft % 16 == 0
    requires !(40 <= s.idx / 768 < 296 && cfg.borderLeft <= s.idx % 768 < cfg.borderLeft + 512)
    requires ChunkShows(s, c, 1, r) && (forall k: nat :: C.Settles(s.ports, c, k) == s.ports) && (forall k: nat :: c(k) == s.ports.border)
    requires r.ports == s.ports && r.scroll == s.scroll && r.idx == (if s.idx + 16 == FRAME_LEN then 0 else s.idx + 16)
    requires r.frameNum == s.frameNum + (if s.idx + 16 == FRAME_LEN then 1 else 0)
    requires r.back == (if s.idx + 16 == FRAME_LEN then r.buffer else s.back)
    ensures ChunkOf(cfg, ram, s, r)
  {
    hide Shows, IndexAt, C.Settles, PixelValue;
    forall q | 0 <= q < FRAME_LEN && s.idx <= q < s.idx + 16 ensures Shows(r.buffer[q], PixelValue(cfg, ram, s.ports, q)) {
      BorderPixelValue(cfg, ram, s.ports, s.idx, q);
      assert C.Settles(s.ports, c, q - s.idx + 1) == s.ports && c(q - s.idx + 1) == s.ports.border;
    }
  }

  lemma BorderStays(p: Ports)
    requires Settled(p)
    ensures forall k: nat :: C.BorderBy(p, C.Due(p.outTimer, k)) == p.border
  {
  }

  lemma BorderPixelValue(cfg: Config, ram: Ram, p: Ports, idx: nat, q: nat)
    requires idx % 16 == 0 && cfg.borderLeft % 16 == 0 && idx <= q < idx + 16
    requires !(40 <= idx / 768 < 296 && cfg.borderLeft <= idx % 768 < cfg.borderLeft + 512)
    ensures PixelValue(cfg, ram, p, q) == p.palette[p.border]
  {
    hide IndexAt;
    PixelGrid(idx);
    InChunk(idx, q - idx);
    Quotient(q, 768, idx / 768, idx % 768 + (q - idx));
    OffGrid(cfg.borderLeft, idx % 768, q - idx);
    OffGrid(cfg.borderLeft + 512, idx % 768, q - idx);
  }

  lemma OffGrid(a: int, b: int, k: nat)
    requires a % 16 == 0 && b % 16 == 0 && k < 16
    ensures a <= b + k <==> a <= b
  {
    GridDifference(a, b, 16);
  }

  lemma CallPaints(cfg: Config, ram: Ram, s: Screen)
    requires Still(s) && cfg.borderLeft % 16 == 0
    ensures ChunkOf(cfg, ram, s, Rasterize(false, cfg, ram, s)) && Still(Rasterize(false, cfg, ram, s)) && s.idx + 16 <= FRAME_LEN
  {
    hide Rasterize, ChunkOf;
    FrameEnd(s.idx);
    PixelGrid(s.idx);
    var y, px := s.idx / 768, s.idx % 768;
    if 40 <= y < 296 && cfg.borderLeft <= px < cfg.borderLeft + 512 {
      var x := (px - cfg.borderLeft) / 16;
      GridDifference(px, cfg.borderLeft, 16);
      ActiveChunkOf(cfg, ram, s, x, y);
    } else {
      BorderChunkOf(cfg, ram, s);
    }
    StaysStill(cfg, ram, s, Rasterize(false, cfg, ram, s));
  }

  lemma StaysStill(cfg: Config, ram: Ram, s: Screen, r: Screen)
    requires Still(s) && ChunkOf(cfg, ram, s, r)
    ensures Still(r)
  {
    FrameEnd(s.idx);
  }

  function Quiet(): (outs: Outputs) { (_, _) => [] }
  function Fixed(ram: Ram): (mem: Memories) { (_, _) => ram }

  /** `k` chunks into the frame. */
  predicate Drawn(cfg: Config, ram: Ram, s: Screen, k: nat, r: Screen)
  {
    && Still(r) && r.ports == s.ports && r.idx == (if 16 * k == FRAME_LEN then 0 else 16 * k)
    && (forall q :: 0 <= q < FRAME_LEN && q < 16 * k ==> Shows(r.buffer[q], PixelValue(cfg, ram, s.ports, q)))
    && (16 * k == FRAME_LEN ==> r.back == r.buffer && r.frameNum == s.frameNum + 1)
    && (16 * k < FRAME_LEN ==> r.frameNum == s.frameNum)
  }

  lemma DrawnOn(cfg: Config, ram: Ram, s: Screen, k: nat, p: Screen, r: Screen)
    requires 16 * k < FRAME_LEN && Drawn(cfg, ram, s, k, p) && ChunkOf(cfg, ram, p, r) && Still(r)
    ensures Drawn(cfg, ram, s, k + 1, r)
  {
    hide Shows, PixelValue;
  }

  lemma {:induction false} FrameDrawn(cfg: Config, ram: Ram, s: Screen, k: nat)
    requires Still(s) && s.idx == 0 && cfg.borderLeft % 16 == 0 && k <= 14976
    ensures Drawn(cfg, ram, s, k, After(false, cfg, Fixed(ram), Quiet(), s, k))
  {
    hide Rasterize, Shows, PixelValue;
    if k > 0 {
      FrameDrawn(cfg, ram, s, k - 1);
      var p := After(false, cfg, Fixed(ram), Quiet(), s, k - 1);
      var r := Rasterize(false, cfg, ram, p);
      CallPaints(cfg, ram, p);
      assert PortOuts(cfg.times, r.ports, []) == r.ports;
      assert After(false, cfg, Fixed(ram), Quiet(), s, k) == r;
      hide Still, ChunkOf, After;
      DrawnOn(cfg, ram, s, k - 1, p, r);
    }
  }

  /** One frame, 14976 calls, with memory and ports at rest and any left border on the grid: the finished frame handed to
      the client shows at every one of its 239616 pixels the bits of memory there, or the border colour. */
  lemma FramePicture(cfg: Config, ram: Ram, s: Screen)
    requires Still(s) && s.idx == 0 && cfg.borderLeft % 16 == 0
    ensures var r := After(false, cfg, Fixed(ram), Quiet(), s, 14976);
            && r.idx == 0 && r.frameNum == s.frameNum + 1 && r.ports == s.ports
            && forall q :: 0 <= q < 239616 ==> Shows(r.back[q], PixelValue(cfg, ram, s.ports, q))
  {
    hide After, Shows, PixelValue, Still;
    FrameDrawn(cfg, ram, s, 14976);
  }
}
