/** What a port write does to the display, and when: the state of libs/v6core/src/io.cpp any number of pixels later, by
    the bits of the byte written. */
module PortCommits {
  import opened Bytes
  import opened Io

  /** The ports after `k` pixels; pixel `i` hands in colour index `c(i)`. */
  function Elapsed(p: Ports, c: nat -> ColorIdx, k: nat): (r: Ports)
  {
    if k == 0 then p else TryToCommit(Elapsed(p, c, k - 1), c(k - 1))
  }

  function Num(b: bool): (n: nat) { if b then 1 else 0 }

  /** A timer that was running reaches zero within `k` pixels. */
  predicate Due(timer: int, k: nat) { 0 < timer <= k }

  /** The registers once the pending write has been committed: ports 2, 3 and 0C to 0F, and a control word on port 0. */
  predicate ControlWord(o: Out) { o.port == 0x00 && Bit(o.value, 7) }

  function BorderBy(p: Ports, due: bool): (c: ColorIdx)
  {
    var v := p.out.value;
    if due && ControlWord(p.out) then 0
    else if due && p.out.port == 0x02 then Num(Bit(v, 0)) + 2 * Num(Bit(v, 1)) + 4 * Num(Bit(v, 2)) + 8 * Num(Bit(v, 3))
    else p.border
  }

  predicate ModeBy(p: Ports, due: bool)
  {
    if due && ControlWord(p.out) then false else if due && p.out.port == 0x02 then Bit(p.out.value, 4) else p.reqMode
  }

  function ScrollBy(p: Ports, due: bool): (v: byte)
  {
    if due && ControlWord(p.out) then 0 else if due && p.out.port == 0x03 then p.out.value else p.scroll
  }

  function ColorBy(p: Ports, due: bool): (v: byte)
  {
    if due && p.out.port in {0x0C, 0x0D, 0x0E, 0x0F} then p.out.value else p.hwColor
  }

  function TimeLeft(timer: int, k: nat): (t: int) { if timer <= 0 then timer else if timer > k then timer - k else 0 }

  /** The ports `k` pixels on, each timer acting at its own pixel; at the same pixel the output comes first, then the
      colour, then the mode. */
  function Settles(p: Ports, c: nat -> ColorIdx, k: nat): (r: Ports)
  {
    var due := Due(p.outTimer, k);
    Ports(
      if Due(p.paletteTimer, k) then p.palette[c(p.paletteTimer - 1) := ColorBy(p, Due(p.outTimer, p.paletteTimer))] else p.palette,
      ScrollBy(p, due), BorderBy(p, due),
      if Due(p.modeTimer, k) then ModeBy(p, Due(p.outTimer, p.modeTimer)) else p.mode512,
      ModeBy(p, due), ColorBy(p, due), p.out,
      TimeLeft(p.outTimer, k), TimeLeft(p.paletteTimer, k), TimeLeft(p.modeTimer, k),
      if due then p.committed + [p.out] else p.committed)
  }

  lemma HandledMeans(p: Ports)
    ensures Handled(p, p.out) == p.(border := BorderBy(p, true), reqMode := ModeBy(p, true), scroll := ScrollBy(p, true),
                                    hwColor := ColorBy(p, true))
  {
    hide Bit;
    var v := p.out.value;
    ByteBits(v);
    LowNibble(v);
  }

  lemma LowNibble(v: byte)
    ensures v % 16 == v % 2 + 2 * (v / 2 % 2) + 4 * (v / 4 % 2) + 8 * (v / 8 % 2)
  {
    var v1 := v / 2;
    var v2 := v1 / 2;
    var v3 := v2 / 2;
    assert v == 2 * v1 + v % 2 && v1 == 2 * v2 + v1 % 2 && v2 == 2 * v3 + v2 % 2 && v3 == 2 * (v3 / 2) + v3 % 2;
    Quotient(v, 16, v3 / 2, 8 * (v3 % 2) + 4 * (v2 % 2) + 2 * (v1 % 2) + v % 2);
    assert v2 == v / 4 && v3 == v / 8;
  }

  /** Settles one pixel further on, in the order of the timers. */
  lemma OutputOn(p: Ports, c: nat -> ColorIdx, k: nat)
    ensures var r, due := Settles(p, c, k), Due(p.outTimer, k + 1);
            CommitOut(r) == r.(scroll := ScrollBy(p, due), border := BorderBy(p, due), reqMode := ModeBy(p, due), hwColor := ColorBy(p, due),
                               outTimer := TimeLeft(p.outTimer, k + 1), committed := if due then p.committed + [p.out] else p.committed)
  {
    hide Bit, Handled;
    var r := Settles(p, c, k);
    if p.outTimer == k + 1 { HandledMeans(r.(outTimer := 0, committed := r.committed + [r.out])); }
  }

  lemma ColorOn(p: Ports, c: nat -> ColorIdx, k: nat, a: Ports)
    requires a.palette == Settles(p, c, k).palette && a.paletteTimer == TimeLeft(p.paletteTimer, k)
    requires a.hwColor == ColorBy(p, Due(p.outTimer, k + 1))
    ensures CommitColor(a, c(k)) == a.(palette := Settles(p, c, k + 1).palette, paletteTimer := TimeLeft(p.paletteTimer, k + 1))
  {
    hide ColorBy, BorderBy, ModeBy, ScrollBy;
  }

  lemma ModeOn(p: Ports, c: nat -> ColorIdx, k: nat, a: Ports)
    requires a.mode512 == Settles(p, c, k).mode512 && a.modeTimer == TimeLeft(p.modeTimer, k)
    requires a.reqMode == ModeBy(p, Due(p.outTimer, k + 1))
    ensures CommitMode(a) == a.(mode512 := Settles(p, c, k + 1).mode512, modeTimer := TimeLeft(p.modeTimer, k + 1))
  {
    hide ColorBy, BorderBy, ModeBy, ScrollBy;
  }

  lemma SettlesOn(p: Ports, c: nat -> ColorIdx, k: nat)
    ensures TryToCommit(Settles(p, c, k), c(k)) == Settles(p, c, k + 1)
  {
    hide CommitOut, CommitColor, CommitMode, BorderBy, ModeBy, ScrollBy, ColorBy, TimeLeft;
    OutputOn(p, c, k);
    var a := CommitOut(Settles(p, c, k));
    ColorOn(p, c, k, a);
    ModeOn(p, c, k, CommitColor(a, c(k)));
  }

  /** For every state, every colour under the beam and any number of pixels. */
  lemma {:induction false} ElapsedMeans(p: Ports, c: nat -> ColorIdx, k: nat)
    ensures Elapsed(p, c, k) == Settles(p, c, k)
  {
    hide TryToCommit, Settles;
    if k == 0 {
      NothingSettles(p, c);
    } else {
      ElapsedMeans(p, c, k - 1);
      SettlesOn(p, c, k - 1);
    }
  }

  lemma NothingSettles(p: Ports, c: nat -> ColorIdx)
    ensures Settles(p, c, 0) == p
  {
  }

  /** What an OUT is for, at any later pixel: port 2 sets the border colour and, at the end of the mode time, the display
      mode; port 3 the scroll register; a colour port the palette entry under the beam when the palette time ends; a
      control word on port 0 clears ports 2 and 3; nothing else reaches the display. */
  lemma OutMeans(times: Times, p: Ports, o: Out, c: nat -> ColorIdx, k: nat)
    requires Settled(p) && 0 < times.out < 128 && 0 < times.palette < 128 && 0 < times.mode < 128
    ensures var r := Elapsed(PortOut(times, p, o), c, k);
            var v := o.value;
            && (k >= times.out ==> r.committed == p.committed + [o] && r.outTimer == 0)
            && (k < times.out ==> r.committed == p.committed && r.border == p.border && r.scroll == p.scroll)
            && (o.port == 2 && k >= times.out ==> r.border == Num(Bit(v, 0)) + 2 * Num(Bit(v, 1)) + 4 * Num(Bit(v, 2)) + 8 * Num(Bit(v, 3)))
            && (o.port == 2 && k >= times.mode >= times.out ==> r.mode512 == Bit(v, 4))
            && (o.port == 2 && k < times.mode ==> r.mode512 == p.mode512)
            && (o.port == 3 && k >= times.out ==> r.scroll == v)
            && (o.port in {0x0C, 0x0D, 0x0E, 0x0F} && k >= times.palette >= times.out ==> r.palette == p.palette[c(times.palette - 1) := v])
            && (o.port !in {0x0C, 0x0D, 0x0E, 0x0F} || k < times.palette ==> r.palette == p.palette)
            && (o.port == 0 && Bit(v, 7) && k >= times.out ==> r.border == 0 && r.scroll == 0 && !r.reqMode)
            && (o.port != 2 && !ControlWord(o) ==> r.border == p.border && r.mode512 == p.mode512)
            && (o.port != 3 && !ControlWord(o) ==> r.scroll == p.scroll)
  {
    PortOutLatches(times, p, o);
    ElapsedMeans(PortOut(times, p, o), c, k);
    hide Bit, Elapsed, PortOut;
  }

  lemma PortOutLatches(times: Times, p: Ports, o: Out)
    requires 0 < times.out < 128 && 0 < times.palette < 128 && 0 < times.mode < 128
    ensures PortOut(times, p, o) ==
              p.(out := o, outTimer := times.out,
                 paletteTimer := if o.port in {0x0C, 0x0D, 0x0E, 0x0F} then times.palette else p.paletteTimer,
                 modeTimer := if o.port == 2 then times.mode else p.modeTimer)
  {
  }
}
