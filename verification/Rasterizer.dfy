/** The mixed rasterizer paints what a rasterizer that handles ports at every pixel would paint. */
module Rasterizer {
  import opened Bytes
  import opened Memory
  import opened Io
  import opened Display

  /** The left border and the beam sit on a sixteen-pixel grid. */
  predicate Aligned(cfg: Config, idx: nat) { cfg.borderLeft % CHUNK == 0 && idx % CHUNK == 0 }

  lemma WholeChunk(cfg: Config, idx: nat)
    requires Aligned(cfg, idx)
    ensures FirstPart(cfg, idx) == CHUNK && Pixel(idx) % CHUNK == 0
    ensures Pixel(idx) + CHUNK <= FRAME_W && Pixel(idx) <= idx
    ensures IsActive(cfg, idx) ==> (idx - cfg.borderLeft) % CHUNK == 0
  {
    PixelGrid(idx);
    hide Pixel;
    if IsActive(cfg, idx) { GridDifference(idx, cfg.borderLeft, CHUNK); }
    GridDifference(cfg.borderLeft + ACTIVE_W, Pixel(idx), CHUNK);
    GridDifference(cfg.borderLeft, Pixel(idx), CHUNK);
  }

  /** On the grid, pixels are multiples of sixteen. */
  lemma PixelGrid(idx: nat)
    requires idx % CHUNK == 0
    ensures Pixel(idx) % CHUNK == 0 && Pixel(idx) + CHUNK <= FRAME_W && Pixel(idx) <= idx
  {
    var q, r, n := idx / FRAME_W, idx % FRAME_W, idx / CHUNK;
    Quotient(r, CHUNK, n - 48 * q, 0);
  }

  lemma GridDifference(a: int, b: int, d: int)
    requires d == CHUNK && a % d == 0 && b % d == 0
    ensures (a - b) % d == 0 && (a > b ==> a - b >= d)
  {
    Quotient(a - b, d, a / d - b / d, 0);
  }

  // ---- Timers ---------------------------------------------------------------

  predicate Ticked(p: Ports, p': Ports, k: nat)
  {
    && p'.outTimer == Later(p.outTimer, k)
    && p'.paletteTimer == Later(p.paletteTimer, k)
    && p'.modeTimer == Later(p.modeTimer, k)
  }

  lemma TickOne(p: Ports, color: ColorIdx, p'': Ports, k: nat)
    requires Ticked(TryToCommit(p, color), p'', k)
    ensures Ticked(p, p'', k + 1)
  {
    hide TryToCommit;
    TryTimers(p, color);
  }

  lemma {:induction false} FillTicks(j: Job, b: Beam, i: nat, n: nat)
    requires j.Valid() && i <= n && b.screen.idx + (n - i) < FRAME_LEN && b.at <= j.Top()
    ensures var r := PortFill(j, b, i, n).screen;
            && Ticked(b.screen.ports, r.ports, n - i)
            && r.idx == b.screen.idx + (n - i) && r.frameNum == b.screen.frameNum && r.irq == b.screen.irq
    decreases n - i
  {
    hide TryToCommit, ColorOf, ScreenBytes, Argb;
    if i < n {
      FillTicks(j, PortPixel(j, b, i), i + 1, n);
      TickOne(b.screen.ports, ColorOf(j.mode512, b.bytes, b.at), PortFill(j, b, i, n).screen.ports, n - i - 1);
    }
  }

  /** The beam after `n` border pixels from `idx`. */
  function Turned(idx: nat, n: nat): (r: nat) { if idx + n >= FRAME_LEN then idx + n - FRAME_LEN else idx + n }

  lemma {:induction false} BorderTicks(cfg: Config, s: Screen, n: nat)
    requires n <= FRAME_LEN
    ensures var r := PortBorder(cfg, s, n);
            && Ticked(s.ports, r.ports, n)
            && r.idx == Turned(s.idx, n) && r.frameNum == s.frameNum + (if s.idx + n >= FRAME_LEN then 1 else 0)
            && r.scroll == s.scroll
            && (r.irq <==> s.irq || exists k :: 1 <= k <= n && Turned(s.idx, k) == cfg.irqCommitPxl)
    decreases n
  {
    hide TryToCommit, Argb, Ticked;
    if n == 0 {
      assert Ticked(s.ports, s.ports, 0) by { NoTick(s.ports); }
    } else {
      var s' := BorderPixel(cfg, s);
      var r := PortBorder(cfg, s, n);
      BorderTicks(cfg, s', n - 1);
      TickOne(s.ports, s.ports.border, r.ports, n - 1);
      forall k | 1 <= k <= n - 1 ensures Turned(s'.idx, k) == Turned(s.idx, k + 1) { }
      if k :| 2 <= k <= n && Turned(s.idx, k) == cfg.irqCommitPxl { assert Turned(s'.idx, k - 1) == cfg.irqCommitPxl; }
      assert Turned(s.idx, 1) == s'.idx;
    }
  }

  lemma NoTick(p: Ports)
    ensures Ticked(p, p, 0)
  {
  }

  // ---- One call -------------------------------------------------------------

  /** Where the beam is `at`, the chunk contains the scroll commit pixel. */
  predicate AtScroll(idx: nat) { Line(idx) == ACTIVE_TOP && Pixel(idx) == 128 }

  predicate LatchesScroll(line: nat, p: nat) { line == ACTIVE_TOP && Pixel(p) == SCROLL_COMMIT_PXL }

  /** `i` pixels into an aligned chunk. */
  predicate Inside(j: Job, b: Beam, i: nat)
  {
    && j.Valid() && i <= CHUNK && b.screen.idx + (CHUNK - i) < FRAME_LEN && b.at <= j.Top()
    && (i < CHUNK ==> b.at == if j.mode512 then 15 - i else 7 - i / 2)
  }

  lemma FastInside(j: Job, b: Beam, i: nat)
    requires Inside(j, b, i) && i < CHUNK
    ensures Inside(j, FastPixel(j, b, i), i + 1)
  {
    hide ColorOf, ScreenBytes, Argb;
  }

  /** With nothing pending and the scroll pixel elsewhere, the port-handling pixels are the fast ones. */
  lemma {:induction false} IdleFill(j: Job, b: Beam, i: nat)
    requires Inside(j, b, i) && Settled(b.screen.ports)
    requires forall p :: b.screen.idx <= p < b.screen.idx + (CHUNK - i) ==> !LatchesScroll(j.line, p)
    ensures PortFill(j, b, i, CHUNK).screen == FastFill(j, b, i, CHUNK).screen
    decreases CHUNK - i
  {
    hide ColorOf, ScreenBytes, Argb, TryToCommit, Pixel;
    if i < CHUNK {
      SettledIdle(b.screen.ports, ColorOf(j.mode512, b.bytes, b.at));
      var f, p := FastPixel(j, b, i), PortPixel(j, b, i);
      assert !LatchesScroll(j.line, b.screen.idx);
      assert f.screen == p.screen;
      FastInside(j, b, i);
      if i + 1 < CHUNK {
        assert f == p;
        IdleFill(j, f, i + 1);
      } else {
        LastPixel(j, b, i);
      }
    }
  }

  lemma LastPixel(j: Job, b: Beam, i: nat)
    requires j.Valid() && i + 1 == CHUNK && b.screen.idx + 1 < FRAME_LEN && b.at <= j.Top()
    ensures PortFill(j, b, i, CHUNK) == PortPixel(j, b, i) && FastFill(j, b, i, CHUNK) == FastPixel(j, b, i)
  {
    hide FastPixel, PortPixel;
    assert PortFill(j, PortPixel(j, b, i), i + 1, CHUNK) == PortPixel(j, b, i);
    assert FastFill(j, FastPixel(j, b, i), i + 1, CHUNK) == FastPixel(j, b, i);
  }

  /** With nothing pending, the chunk over the scroll pixel differs from the fast one in the latched scroll only. */
  lemma {:induction false} ScrollFill(j: Job, b: Beam, i: nat)
    requires Inside(j, b, i) && Settled(b.screen.ports) && i < 4
    requires j.line == ACTIVE_TOP && Pixel(b.screen.idx) == 128 + i && Line(b.screen.idx) == j.line
    ensures PortFill(j, b, i, CHUNK).screen == FastFill(j, b, i, CHUNK).screen.(scroll := b.screen.ports.scroll)
    decreases CHUNK - i
  {
    hide ColorOf, ScreenBytes, Argb, TryToCommit;
    SettledIdle(b.screen.ports, ColorOf(j.mode512, b.bytes, b.at));
    var f, p := FastPixel(j, b, i), PortPixel(j, b, i);
    FastInside(j, b, i);
    assert b.screen.idx == FRAME_W * Line(b.screen.idx) + Pixel(b.screen.idx);
    if i < 3 {
      assert f == p;
      NextPixel(b.screen.idx);
      ScrollFill(j, f, i + 1);
    } else {
      var g := f.(screen := f.screen.(scroll := b.screen.ports.scroll));
      assert p == g;
      forall q | g.screen.idx <= q < g.screen.idx + 12 ensures !LatchesScroll(j.line, q) {
        AfterScroll(b.screen.idx, q - b.screen.idx);
      }
      IdleFill(j, g, 4);
      ScrollCarried(j, f, 4, b.screen.ports.scroll);
    }
  }

  lemma NextPixel(idx: nat)
    requires Pixel(idx) + 1 < FRAME_W
    ensures Pixel(idx + 1) == Pixel(idx) + 1 && Line(idx + 1) == Line(idx)
  {
  }

  lemma AfterScroll(idx: nat, d: nat)
    requires Pixel(idx) == SCROLL_COMMIT_PXL && 0 < d < CHUNK
    ensures Pixel(idx + d) != SCROLL_COMMIT_PXL
  {
  }

  /** The fast fill passes the scroll register through. */
  lemma {:induction false} ScrollCarried(j: Job, b: Beam, i: nat, v: byte)
    requires j.Valid() && i <= CHUNK && b.screen.idx + (CHUNK - i) < FRAME_LEN && b.at <= j.Top()
    ensures FastFill(j, b.(screen := b.screen.(scroll := v)), i, CHUNK).screen == FastFill(j, b, i, CHUNK).screen.(scroll := v)
    ensures FastFill(j, b, i, CHUNK).screen.scroll == b.screen.scroll
    decreases CHUNK - i
  {
    hide ColorOf, ScreenBytes, Argb, Pixel;
    if i < CHUNK {
      var b' := b.(screen := b.screen.(scroll := v));
      var f := FastPixel(j, b, i);
      assert FastPixel(j, b', i) == f.(screen := f.screen.(scroll := v));
      ScrollCarried(j, f, i + 1, v);
    }
  }

  /** The chunk over the scroll pixel is active, but outside the first chunk of the line that the code guards. */
  predicate Overlooked(cfg: Config) { -384 < cfg.borderLeft <= 112 }

  /** Exactly when the fast fill misses a change of the scroll register. */
  predicate MissesScroll(cfg: Config, s: Screen)
  {
    Settled(s.ports) && AtScroll(s.idx) && Overlooked(cfg) && s.scroll != s.ports.scroll
  }

  lemma ActiveAgreesIff(cfg: Config, ram: Ram, s: Screen)
    requires Aligned(cfg, s.idx) && Pending(s.ports) && IsActive(cfg, s.idx)
    requires s.idx + CHUNK < FRAME_LEN && s.idx >= cfg.borderLeft
    ensures Active(false, cfg, ram, s, CHUNK) == Active(true, cfg, ram, s, CHUNK) <==> !MissesScroll(cfg, s)
  {
    WholeChunk(cfg, s.idx);
    var j := JobFor(cfg, ram, s);
    var b := StartBeam(j, s);
    assert Inside(j, b, 0);
    if Settled(s.ports) {
      if AtScroll(s.idx) {
        ScrollFill(j, b, 0);
        ScrollCarried(j, b, 0, 0);
      } else {
        forall q | s.idx <= q < s.idx + CHUNK ensures !LatchesScroll(j.line, q) {
          InChunk(s.idx, q - s.idx);
        }
        IdleFill(j, b, 0);
      }
    }
  }

  lemma InChunk(idx: nat, k: nat)
    requires Pixel(idx) % CHUNK == 0 && Pixel(idx) + CHUNK <= FRAME_W && k < CHUNK
    ensures Pixel(idx + k) == Pixel(idx) + k
    ensures Pixel(idx + k) == SCROLL_COMMIT_PXL ==> Pixel(idx) == 128
  {
    Quotient(idx + k, FRAME_W, idx / FRAME_W, Pixel(idx) + k);
  }

  /** One call of the mixed rasterizer equals one that always handles ports, except when it misses a scroll change. */
  lemma RasterizersAgreeIff(cfg: Config, ram: Ram, s: Screen)
    requires Aligned(cfg, s.idx) && Pending(s.ports)
    ensures Rasterize(false, cfg, ram, s) == Rasterize(true, cfg, ram, s) <==> !MissesScroll(cfg, s)
  {
    hide Active, Border;
    WholeChunk(cfg, s.idx);
    var s0 := s.(irq := false);
    if IsActive(cfg, s.idx) {
      ActiveRoom(cfg, s.idx);
      ActiveAgreesIff(cfg, ram, s0);
    } else {
      assert Border(false, cfg, s0, CHUNK) == Border(true, cfg, s0, CHUNK) by { BorderHandlesPorts(cfg, s0); }
      assert !MissesScroll(cfg, s) by { BorderScroll(cfg, s.idx); }
    }
  }

  lemma BorderScroll(cfg: Config, idx: nat)
    requires !IsActive(cfg, idx)
    ensures !(AtScroll(idx) && Overlooked(cfg))
  {
  }

  /** The border test is `>= 0`, and the out timer is never negative: the fast border fill is never taken. */
  lemma BorderHandlesPorts(cfg: Config, s: Screen)
    requires s.ports.outTimer >= 0
    ensures Border(false, cfg, s, CHUNK) == Border(true, cfg, s, CHUNK) == PortBorder(cfg, s, CHUNK)
  {
  }

  // ---- What a call paints -----------------------------------------------------

  /** The four planes as the 32-bit word the program shifts. */
  function PlaneWord(b: Planes): (w: nat) { b.p8 * 0x100_0000 + b.pA * 0x1_0000 + b.pC * 0x100 + b.pE }

  /** Bit `at` of each plane, eight apart in the word, with weights 1, 2, 4 and 8. */
  lemma ColorBits(b: Planes, at: nat)
    requires at < 8
    ensures var w := PlaneWord(b);
            && ColorOf(false, b, at) == Num(Bit(w, at)) + 2 * Num(Bit(w, at + 8)) + 4 * Num(Bit(w, at + 16)) + 8 * Num(Bit(w, at + 24))
            && ColorOf(true, b, 2 * at + 1) == Num(Bit(w, at)) + 2 * Num(Bit(w, at + 8))
            && ColorOf(true, b, 2 * at) == 4 * (Num(Bit(w, at + 16)) + 2 * Num(Bit(w, at + 24)))
  {
    hide Bit;
    var w1: nat := b.p8 * 0x100 + b.pA;
    var w2: nat := w1 * 0x100 + b.pC;
    assert PlaneWord(b) == w2 * 0x100 + b.pE;
    PlaneBit(w2, b.pE, at);
    PlaneBit(w2, b.pE, at + 8);
    PlaneBit(w1, b.pC, at);
    PlaneBit(w2, b.pE, at + 16);
    PlaneBit(w1, b.pC, at + 8);
    PlaneBit(b.p8, b.pA, at);
    PlaneBit(w2, b.pE, at + 24);
    PlaneBit(w1, b.pC, at + 16);
    PlaneBit(b.p8, b.pA, at + 8);
    assert (2 * at + 1) / 2 == at && (2 * at + 1) % 2 == 1 && 2 * at / 2 == at && 2 * at % 2 == 0;
  }

  lemma PlaneBit(hi: nat, lo: byte, k: nat)
    ensures Bit(hi * 0x100 + lo, k) == if k < 8 then Bit(lo, k) else Bit(hi, k - 8)
  {
    hide Bit;
    Pow2Of8();
    BitsOfConcat(hi, lo, 8, k);
  }

  function Num(b: bool): (n: nat) { if b then 1 else 0 }

  // ---- What a call does to the beam and the timers ---------------------------

  lemma TickedSettles(p: Ports, p': Ports)
    requires Pending(p) && Ticked(p, p', CHUNK)
    ensures Rested(p') && (p.paletteTimer <= CHUNK ==> Settled(p'))
  {
  }

  /** With the left border on the grid and prompt commits, every call moves the beam sixteen pixels, turns the frame
      exactly at its end, and leaves no output or mode commit pending, nor a colour due by then. */
  lemma RasterizeMoves(always: bool, cfg: Config, ram: Ram, s: Screen)
    requires Aligned(cfg, s.idx) && Pending(s.ports)
    ensures var r := Rasterize(always, cfg, ram, s);
            && r.idx == Turned(s.idx, CHUNK) && Aligned(cfg, r.idx)
            && r.frameNum == s.frameNum + (if s.idx + CHUNK == FRAME_LEN then 1 else 0)
            && Rested(r.ports) && (s.ports.paletteTimer <= CHUNK ==> Settled(r.ports))
  {
    hide TryToCommit, PortBorder, PortFill, FastFill, Ticked;
    WholeChunk(cfg, s.idx);
    var s0 := s.(irq := false);
    if IsActive(cfg, s.idx) {
      ActiveRoom(cfg, s.idx);
      var j := JobFor(cfg, ram, s0);
      var b := StartBeam(j, s0);
      FillTicks(j, b, 0, CHUNK);
      TickedSettles(s.ports, PortFill(j, b, 0, CHUNK).screen.ports);
      FastMoves(j, b, 0, CHUNK);
    } else {
      BorderTicks(cfg, s0, CHUNK);
      TickedSettles(s.ports, PortBorder(cfg, s0, CHUNK).ports);
    }
    FrameEnd(s.idx);
  }

  lemma FrameEnd(idx: nat)
    requires idx % CHUNK == 0 && idx < FRAME_LEN
    ensures idx + CHUNK <= FRAME_LEN && Turned(idx, CHUNK) % CHUNK == 0
  {
  }

  lemma {:induction false} FastMoves(j: Job, b: Beam, i: nat, n: nat)
    requires j.Valid() && i <= n && b.screen.idx + (n - i) < FRAME_LEN && b.at <= j.Top()
    ensures var r := FastFill(j, b, i, n).screen;
            && r.idx == b.screen.idx + (n - i) && r.frameNum == b.screen.frameNum && r.irq == b.screen.irq
            && r.ports == b.screen.ports
    decreases n - i
  {
    hide ColorOf, ScreenBytes, Argb, Pixel;
    if i < n { FastMoves(j, FastPixel(j, b, i), i + 1, n); }
  }

  predicate Turns(s: Screen, r: Screen, n: nat)
  {
    r.idx == Turned(s.idx, n) && r.frameNum == s.frameNum + (if s.idx + n >= FRAME_LEN then 1 else 0)
  }

  lemma ActiveTurns(always: bool, cfg: Config, ram: Ram, s: Screen, n: nat)
    requires ACTIVE_TOP <= Line(s.idx) && s.idx >= cfg.borderLeft && s.idx + n < FRAME_LEN
    ensures Turns(s, Active(always, cfg, ram, s, n), n)
  {
    hide PortFill, FastFill;
    var j := JobFor(cfg, ram, s);
    FillTicks(j, StartBeam(j, s), 0, n);
    FastMoves(j, StartBeam(j, s), 0, n);
  }

  lemma BorderTurns(always: bool, cfg: Config, s: Screen, n: nat)
    requires n <= CHUNK
    ensures Turns(s, Border(always, cfg, s, n), n)
  {
    hide PortBorder, FastBorder;
    BorderTicks(cfg, s, n);
    if Line(s.idx) != FRAME_H - 1 { FastBorderMoves(s, n); }
  }

  /** Whatever the borders, the commit times and the pending writes, a call moves the beam sixteen pixels. */
  lemma RasterizeTurns(always: bool, cfg: Config, ram: Ram, s: Screen)
    ensures Turns(s, Rasterize(always, cfg, ram, s), CHUNK)
  {
    hide Active, Border;
    var n := FirstPart(cfg, s.idx);
    var s0 := s.(irq := false);
    if IsActive(cfg, s.idx) {
      ActiveRoom(cfg, s.idx);
      ActiveTurns(always, cfg, ram, s0, n);
      BorderTurns(always, cfg, Active(always, cfg, ram, s0, n), CHUNK - n);
    } else {
      BorderTurns(always, cfg, s0, n);
      if n < CHUNK {
        SplitRoom(cfg, always, s0, n);
        ActiveTurns(always, cfg, ram, Border(always, cfg, s0, n), CHUNK - n);
      }
    }
  }

  // ---- The interrupt pulse ---------------------------------------------------

  /** One of the next `n` pixels brings the beam to the interrupt pixel. */
  predicate Reaches(cfg: Config, idx: nat, n: nat) { exists k :: 1 <= k <= n && Turned(idx, k) == cfg.irqCommitPxl }

  /** Such a pixel lies in the border. */
  predicate PulseIn(cfg: Config, idx: nat)
  {
    exists k :: 1 <= k <= CHUNK && Turned(idx, k) == cfg.irqCommitPxl && !IsActive(cfg, idx + k - 1)
  }

  /** The border under the beam is painted by the fill that handles ports and the interrupt: a timer is not negative,
      or this is the first or the last line. */
  predicate HandlesBorder(always: bool, idx: nat, p: Ports)
  {
    always || p.outTimer >= 0 || p.paletteTimer >= 0 || Line(idx) == 0 || Line(idx) == 311
  }

  predicate SameSigns(p: Ports, p': Ports)
  {
    (p'.outTimer >= 0 <==> p.outTimer >= 0) && (p'.paletteTimer >= 0 <==> p.paletteTimer >= 0)
  }

  lemma BorderPulse(always: bool, cfg: Config, s: Screen, n: nat)
    requires n <= CHUNK
    ensures Border(always, cfg, s, n).irq <==> s.irq || (HandlesBorder(always, s.idx, s.ports) && Reaches(cfg, s.idx, n))
    ensures SameSigns(s.ports, Border(always, cfg, s, n).ports)
  {
    hide PortBorder, FastBorder;
    BorderTicks(cfg, s, n);
    if Line(s.idx) != FRAME_H - 1 { FastBorderMoves(s, n); }
  }

  lemma ActivePulse(always: bool, cfg: Config, ram: Ram, s: Screen, n: nat)
    requires ACTIVE_TOP <= Line(s.idx) && s.idx >= cfg.borderLeft && s.idx + n < FRAME_LEN
    ensures var r := Active(always, cfg, ram, s, n);
            r.irq == s.irq && r.idx == s.idx + n && SameSigns(s.ports, r.ports)
  {
    hide PortFill, FastFill;
    var j := JobFor(cfg, ram, s);
    FillTicks(j, StartBeam(j, s), 0, n);
    FastMoves(j, StartBeam(j, s), 0, n);
  }

  /** The sixteen pixels of a chunk share a line; the first part of it is all active or all border, the rest the other. */
  lemma ChunkParts(cfg: Config, idx: nat, k: nat)
    requires idx % CHUNK == 0 && k < CHUNK
    ensures Line(idx + k) == Line(idx) && (IsActive(cfg, idx + k) <==> (IsActive(cfg, idx) <==> k < FirstPart(cfg, idx)))
  {
    InChunk(idx, k);
  }

  lemma ReachesSplit(cfg: Config, idx: nat, n: nat)
    requires idx % CHUNK == 0 && idx < FRAME_LEN && n == FirstPart(cfg, idx)
    ensures IsActive(cfg, idx) ==> (PulseIn(cfg, idx) <==> Reaches(cfg, Turned(idx, n), CHUNK - n))
    ensures !IsActive(cfg, idx) ==> (PulseIn(cfg, idx) <==> Reaches(cfg, idx, n))
  {
    hide IsActive, FirstPart, Line;
    FrameEnd(idx);
    if IsActive(cfg, idx) {
      if k :| 1 <= k <= CHUNK && Turned(idx, k) == cfg.irqCommitPxl && !IsActive(cfg, idx + k - 1) {
        ChunkParts(cfg, idx, k - 1);
        assert Turned(Turned(idx, n), k - n) == cfg.irqCommitPxl;
      }
      if k :| 1 <= k <= CHUNK - n && Turned(Turned(idx, n), k) == cfg.irqCommitPxl {
        ChunkParts(cfg, idx, n + k - 1);
        assert Turned(idx, n + k) == cfg.irqCommitPxl && !IsActive(cfg, idx + (n + k) - 1);
      }
    } else {
      if k :| 1 <= k <= CHUNK && Turned(idx, k) == cfg.irqCommitPxl && !IsActive(cfg, idx + k - 1) {
        ChunkParts(cfg, idx, k - 1);
      }
      if k :| 1 <= k <= n && Turned(idx, k) == cfg.irqCommitPxl {
        ChunkParts(cfg, idx, k - 1);
        assert !IsActive(cfg, idx + k - 1);
      }
    }
  }

  /** Whatever the borders, the commit times and the pending writes, a call pulses the interrupt if and only if one of
      its border pixels brings the beam to the interrupt pixel and that border handles the interrupt. */
  lemma RasterizePulses(always: bool, cfg: Config, ram: Ram, s: Screen)
    requires s.idx % CHUNK == 0
    ensures Rasterize(always, cfg, ram, s).irq <==> PulseIn(cfg, s.idx) && HandlesBorder(always, s.idx, s.ports)
    ensures SameSigns(s.ports, Rasterize(always, cfg, ram, s).ports)
  {
    hide Active, Border, PulseIn, Reaches;
    var n := FirstPart(cfg, s.idx);
    var s0 := s.(irq := false);
    ReachesSplit(cfg, s.idx, n);
    if IsActive(cfg, s.idx) {
      ActiveRoom(cfg, s.idx);
      ActivePulse(always, cfg, ram, s0, n);
      BorderPulse(always, cfg, Active(always, cfg, ram, s0, n), CHUNK - n);
      if n < CHUNK { ChunkParts(cfg, s.idx, n); } else { NothingReached(cfg, Turned(s.idx, n)); }
    } else {
      BorderPulse(always, cfg, s0, n);
      if n < CHUNK {
        SplitRoom(cfg, always, s0, n);
        ActivePulse(always, cfg, ram, Border(always, cfg, s0, n), CHUNK - n);
      }
    }
  }

  lemma NothingReached(cfg: Config, idx: nat)
    ensures !Reaches(cfg, idx, 0)
  {
  }

  // ---- Whole runs -----------------------------------------------------------

  /** Between two calls the CPU writes ports and memory, as any function of what it can see. */
  type Outputs = (nat, Screen) -> seq<Out>
  type Memories = (nat, Screen) -> Ram

  function After(always: bool, cfg: Config, mem: Memories, outs: Outputs, s: Screen, k: nat): (r: Screen)
  {
    if k == 0 then s
    else
      var p := After(always, cfg, mem, outs, s, k - 1);
      var r := Rasterize(always, cfg, mem(k - 1, p), p);
      r.(ports := PortOuts(cfg.times, r.ports, outs(k - 1, r)))
  }

  lemma {:induction false} AlwaysPending(always: bool, cfg: Config, mem: Memories, outs: Outputs, s: Screen, k: nat)
    requires Prompt(cfg.times) && Aligned(cfg, s.idx) && Pending(s.ports)
    ensures var r := After(always, cfg, mem, outs, s, k); Aligned(cfg, r.idx) && Pending(r.ports)
  {
    hide Rasterize, Pending, Settled, Rested, Prompt;
    if k > 0 {
      AlwaysPending(always, cfg, mem, outs, s, k - 1);
      var p := After(always, cfg, mem, outs, s, k - 1);
      RasterizeMoves(always, cfg, mem(k - 1, p), p);
      var r := Rasterize(always, cfg, mem(k - 1, p), p);
      OutsPend(cfg.times, r.ports, outs(k - 1, r));
    }
  }

  /** Over every run, with the left border on the grid and outside the overlooked range, the mixed rasterizer keeps
      the frame buffer, scroll, palette, mode, committed writes and timers of the one that always handles ports. */
  lemma {:induction false} RunsAgree(cfg: Config, mem: Memories, outs: Outputs, s: Screen, k: nat)
    requires Prompt(cfg.times) && Aligned(cfg, s.idx) && Pending(s.ports) && !Overlooked(cfg)
    ensures After(false, cfg, mem, outs, s, k) == After(true, cfg, mem, outs, s, k)
  {
    hide Rasterize, Pending, Prompt;
    if k > 0 {
      RunsAgree(cfg, mem, outs, s, k - 1);
      AlwaysPending(true, cfg, mem, outs, s, k - 1);
      var p := After(true, cfg, mem, outs, s, k - 1);
      RasterizersAgreeIff(cfg, mem(k - 1, p), p);
    }
  }

  // ---- A run from reset that goes apart ---------------------------------------

  /** Nothing shown yet, no scroll, nothing pending. */
  predicate AtReset(s: Screen)
  {
    s.idx == 0 && s.frameNum == 0 && s.scroll == 0xff && s.ports.scroll == 0xff && Settled(s.ports)
  }

  /** The program writes 7 to the scroll port in the first cycle and nothing else. */
  function ScrollOnce(k: nat, s: Screen): (outs: seq<Out>) { if k == 0 then [Out(3, 7)] else [] }

  const SCROLL_CHUNK := 1928

  lemma {:induction false} IdleBorder(cfg: Config, s: Screen, n: nat)
    requires Settled(s.ports)
    ensures PortBorder(cfg, s, n).ports == s.ports
    decreases n
  {
    hide TryToCommit, Argb;
    if n > 0 {
      SettledIdle(s.ports, s.ports.border);
      IdleBorder(cfg, BorderPixel(cfg, s), n - 1);
    }
  }

  /** A pending write to the scroll port is committed within its time. */
  lemma {:induction false} CommitBorder(cfg: Config, s: Screen, n: nat)
    requires s.ports.out == Out(3, 7) && 0 < s.ports.outTimer <= n && s.ports.paletteTimer <= 0 && s.ports.modeTimer <= 0
    ensures PortBorder(cfg, s, n).ports.scroll == 7
    decreases n
  {
    hide Argb;
    var s' := BorderPixel(cfg, s);
    if s.ports.outTimer > 1 { CommitBorder(cfg, s', n - 1); } else { IdleBorder(cfg, s', n - 1); }
  }

  lemma {:induction false} FillKeeps(j: Job, b: Beam, i: nat)
    requires j.Valid() && i <= CHUNK && b.screen.idx + (CHUNK - i) < FRAME_LEN && b.at <= j.Top() && Settled(b.screen.ports)
    requires forall p :: b.screen.idx <= p < b.screen.idx + (CHUNK - i) ==> !LatchesScroll(j.line, p)
    ensures PortFill(j, b, i, CHUNK).screen.ports == b.screen.ports && PortFill(j, b, i, CHUNK).screen.scroll == b.screen.scroll
    decreases CHUNK - i
  {
    hide ColorOf, ScreenBytes, Argb, TryToCommit, Pixel;
    if i < CHUNK {
      SettledIdle(b.screen.ports, ColorOf(j.mode512, b.bytes, b.at));
      assert !LatchesScroll(j.line, b.screen.idx);
      FillKeeps(j, PortPixel(j, b, i), i + 1);
    }
  }

  lemma ActiveKeeps(always: bool, cfg: Config, ram: Ram, s: Screen)
    requires Aligned(cfg, s.idx) && Settled(s.ports) && IsActive(cfg, s.idx) && !AtScroll(s.idx)
    requires s.idx + CHUNK < FRAME_LEN && s.idx >= cfg.borderLeft
    ensures var r := Active(always, cfg, ram, s, CHUNK); r.ports == s.ports && r.scroll == s.scroll
  {
    WholeChunk(cfg, s.idx);
    var j := JobFor(cfg, ram, s);
    var b := StartBeam(j, s);
    forall q | s.idx <= q < s.idx + CHUNK ensures !LatchesScroll(j.line, q) { InChunk(s.idx, q - s.idx); }
    FillKeeps(j, b, 0);
    FastMoves(j, b, 0, CHUNK);
    ScrollCarried(j, b, 0, 0);
  }

  /** With nothing pending and the scroll pixel elsewhere, a call only moves the beam and paints. */
  lemma RasterizeKeeps(always: bool, cfg: Config, ram: Ram, s: Screen)
    requires Aligned(cfg, s.idx) && Settled(s.ports) && !AtScroll(s.idx)
    ensures var r := Rasterize(always, cfg, ram, s);
            r.ports == s.ports && r.scroll == s.scroll && r.idx == Turned(s.idx, CHUNK)
  {
    hide Active, AtScroll, PortBorder;
    WholeChunk(cfg, s.idx);
    RasterizeTurns(always, cfg, ram, s);
    var s0 := s.(irq := false);
    if IsActive(cfg, s.idx) {
      ActiveRoom(cfg, s.idx);
      ActiveKeeps(always, cfg, ram, s0);
    } else {
      IdleBorder(cfg, s0, CHUNK);
      BorderTicks(cfg, s0, CHUNK);
    }
  }

  /** The second call of the run: the scroll port takes its value. */
  lemma RasterizeCommits(always: bool, cfg: Config, ram: Ram, s: Screen)
    requires Aligned(cfg, s.idx) && s.idx == CHUNK
    requires s.ports.out == Out(3, 7) && 0 < s.ports.outTimer <= CHUNK && s.ports.paletteTimer <= 0 && s.ports.modeTimer <= 0
    ensures var r := Rasterize(always, cfg, ram, s);
            r.ports.scroll == 7 && r.scroll == s.scroll && Settled(r.ports) && r.idx == 2 * CHUNK
  {
    hide PortBorder;
    var s0 := s.(irq := false);
    CommitBorder(cfg, s0, CHUNK);
    BorderTicks(cfg, s0, CHUNK);
    RasterizeTurns(always, cfg, ram, s);
  }

  lemma BeforeScroll(k: nat)
    requires k < SCROLL_CHUNK
    ensures !AtScroll(CHUNK * k) && Turned(CHUNK * k, CHUNK) == CHUNK * (k + 1)
  {
    var line, pixel := Line(CHUNK * k), Pixel(CHUNK * k);
    assert CHUNK * k == FRAME_W * line + pixel;
  }

  /** From reset both rasterizers come to the scroll pixel with the new scroll value waiting in its port. */
  lemma {:induction false} ResetRun(always: bool, cfg: Config, mem: Memories, s: Screen, k: nat)
    requires Prompt(cfg.times) && cfg.borderLeft % CHUNK == 0 && AtReset(s) && 2 <= k <= SCROLL_CHUNK
    ensures var r := After(always, cfg, mem, ScrollOnce, s, k);
            r.idx == CHUNK * k && r.scroll == 0xff && r.ports.scroll == 7 && Settled(r.ports)
  {
    hide Rasterize, AtScroll, Turned, Settled;
    if k == 2 {
      SecondCall(always, cfg, mem, s);
    } else {
      ResetRun(always, cfg, mem, s, k - 1);
      var p := After(always, cfg, mem, ScrollOnce, s, k - 1);
      BeforeScroll(k - 1);
      RasterizeKeeps(always, cfg, mem(k - 1, p), p);
      assert ScrollOnce(k - 1, Rasterize(always, cfg, mem(k - 1, p), p)) == [];
    }
  }

  lemma SecondCall(always: bool, cfg: Config, mem: Memories, s: Screen)
    requires Prompt(cfg.times) && cfg.borderLeft % CHUNK == 0 && AtReset(s)
    ensures var r := After(always, cfg, mem, ScrollOnce, s, 2);
            r.idx == CHUNK * 2 && r.scroll == 0xff && r.ports.scroll == 7 && Settled(r.ports)
  {
    BeforeScroll(0);
    hide Rasterize;
    assert After(always, cfg, mem, ScrollOnce, s, 0) == s;
    RasterizeKeeps(always, cfg, mem(0, s), s);
    var r0 := Rasterize(always, cfg, mem(0, s), s);
    assert PortOuts(cfg.times, r0.ports, [Out(3, 7)][..0]) == r0.ports;
    var p := After(always, cfg, mem, ScrollOnce, s, 1);
    assert p.ports == PortOut(cfg.times, r0.ports, Out(3, 7));
    RasterizeCommits(always, cfg, mem(1, p), p);
    var r1 := Rasterize(always, cfg, mem(1, p), p);
    assert ScrollOnce(1, r1) == [];
  }

  lemma AtScrollChunk()
    ensures AtScroll(CHUNK * SCROLL_CHUNK)
  {
  }

  /** With an overlooked border that run goes apart when the beam crosses pixel 131 of the first active line. */
  lemma ResetRunDiffers(cfg: Config, mem: Memories, s: Screen)
    requires Prompt(cfg.times) && cfg.borderLeft % CHUNK == 0 && AtReset(s) && Overlooked(cfg)
    ensures After(false, cfg, mem, ScrollOnce, s, SCROLL_CHUNK + 1) != After(true, cfg, mem, ScrollOnce, s, SCROLL_CHUNK + 1)
  {
    hide Rasterize, AtScroll, Settled;
    AtScrollChunk();
    ResetRun(false, cfg, mem, s, SCROLL_CHUNK);
    ResetRun(true, cfg, mem, s, SCROLL_CHUNK);
    var p, q := After(false, cfg, mem, ScrollOnce, s, SCROLL_CHUNK), After(true, cfg, mem, ScrollOnce, s, SCROLL_CHUNK);
    ScrollCalls(cfg, mem(SCROLL_CHUNK, p), p);
    ScrollCalls(cfg, mem(SCROLL_CHUNK, q), q);
    assert ScrollOnce(SCROLL_CHUNK, Rasterize(false, cfg, mem(SCROLL_CHUNK, p), p)) == [];
    assert ScrollOnce(SCROLL_CHUNK, Rasterize(true, cfg, mem(SCROLL_CHUNK, q), q)) == [];
  }

  /** At the scroll chunk of an overlooked border the mixed rasterizer keeps its scroll, the other latches the port. */
  lemma ScrollCalls(cfg: Config, ram: Ram, s: Screen)
    requires Aligned(cfg, s.idx) && Settled(s.ports) && AtScroll(s.idx) && Overlooked(cfg)
    ensures Rasterize(false, cfg, ram, s).scroll == s.scroll && Rasterize(true, cfg, ram, s).scroll == s.ports.scroll
  {
    WholeChunk(cfg, s.idx);
    ActiveRoom(cfg, s.idx);
    var s0 := s.(irq := false);
    var j := JobFor(cfg, ram, s0);
    var b := StartBeam(j, s0);
    assert Inside(j, b, 0);
    hide FastFill, PortFill;
    ScrollFill(j, b, 0);
    ScrollCarried(j, b, 0, 0);
  }

  /** The two rasterizers agree over every run from reset. */
  ghost predicate Faithful(cfg: Config)
  {
    forall mem: Memories, outs: Outputs, s: Screen, k: nat :: AtReset(s) ==>
      After(false, cfg, mem, outs, s, k) == After(true, cfg, mem, outs, s, k)
  }

  /** For a left border on the grid, the two rasterizers agree over all runs from reset if and only if it is at least
      128 (the shipped value) or so far left that the scroll pixel is border. */
  lemma FaithfulIff(cfg: Config)
    requires Prompt(cfg.times) && cfg.borderLeft % CHUNK == 0
    ensures Faithful(cfg) <==> cfg.borderLeft >= 128 || cfg.borderLeft <= -384
  {
    hide After, Prompt, Settled, Pending;
    if !Overlooked(cfg) {
      forall mem: Memories, outs: Outputs, s: Screen, k: nat | AtReset(s)
        ensures After(false, cfg, mem, outs, s, k) == After(true, cfg, mem, outs, s, k)
      {
        IdlePends(s.ports);
        RunsAgree(cfg, mem, outs, s, k);
      }
    } else {
      var ports := Ports(seq(PALETTE_LEN, _ => 0), 0xff, 0, false, false, 0, Out(0, 0), 0, 0, 0, []);
      var black: Buffer := seq(FRAME_LEN, _ => 0);
      var s := Screen(black, black, 0, 0, false, 0xff, ports);
      assert Settled(ports) by { IdlePorts(ports); }
      var mem: Memories := (_, _) => seq(GLOBAL_LEN, _ => 0);
      ResetRunDiffers(cfg, mem, s);
    }
  }

  lemma IdlePends(p: Ports)
    requires Settled(p)
    ensures Pending(p)
  {
  }

  lemma IdlePorts(p: Ports)
    requires p.outTimer == 0 && p.paletteTimer == 0 && p.modeTimer == 0
    ensures Settled(p)
  {
  }
}
