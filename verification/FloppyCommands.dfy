/** The rest of the floppy protocol by the bits of its commands: progress of a transfer, head movement, the address of a
    sector under the head, formatting (libs/v6core/src/fdc_wd1793.cpp). */
module FloppyCommands {
  import opened Bytes
  import opened Floppy

  // ---- Progress of a transfer ---------------------------------------------------

  /** A READ or WRITE command and any part of its accesses. */
  ghost predicate Begins(f: Fdc, v: byte, ops: seq<Op>)
  {
    && Valid(f) && f.mounted && !f.status.busy && OnDisk(f.track, f.sector)
    && Paced(ops, Count(f, v)) && Accesses(ops) <= Count(f, v)
    && ((IsWrite(v) && Writing(ops)) || (IsRead(v) && Reading(ops)))
  }

  /** What the drive shows after `n` accesses of a transfer that began as `c`. */
  predicate Shows(c: Fdc, n: nat, g: Fdc)
  {
    && g.status.busy == (n < c.rwLen) && g.status.drq == (n < c.rwLen)
    && g.line == (if n < c.rwLen then Drq else Irq)
    && g.sector == c.sector + (if n < c.rwLen then n / 1024 else (n - 1) / 1024)
    && g.cmd == c.cmd && g.head == c.head
  }

  predicate Fresh(c: Fdc)
  {
    && Starts(c) && Shows(c, 0, c) && c.rwLen % 1024 == 0 && c.cmd >= 0x80 && c.cmd != 0xD0 && c.sector + c.rwLen / 1024 <= 6
  }

  lemma Multiple(n: nat, len: nat)
    requires len % 1024 == 0 && n < len
    ensures (len - (n + 1)) % 1024 == 0 <==> (n + 1) % 1024 == 0
    ensures (n + 1) / 1024 == n / 1024 + if (n + 1) % 1024 == 0 then 1 else 0
    ensures (n + 1) / 1024 <= len / 1024
  {
    var q, r, k := n / 1024, n % 1024, len / 1024;
    if r == 1023 {
      Quotient(n + 1, 1024, q + 1, 0);
      Quotient(len - (n + 1), 1024, k - q - 1, 0);
    } else {
      Quotient(n + 1, 1024, q, r + 1);
      Quotient(len - (n + 1), 1024, k - q - 1, 1024 - (r + 1));
    }
  }

  lemma AccessShows(c: Fdc, g: Fdc, n: nat, gap: nat, op: Op)
    requires Fresh(c) && Valid(g) && Under(c, g, n, gap) && Shows(c, n, g) && n < c.rwLen && (op.PutData? || op.GetData?)
    ensures Shows(c, n + 1, Step(g, op))
  {
    Multiple(n, c.rwLen);
  }

  lemma WaitShows(c: Fdc, g: Fdc, n: nat, gap: nat, op: Op)
    requires Fresh(c) && Valid(g) && Under(c, g, n, gap) && Shows(c, n, g) && (op.Poll? || op.GetStatus?)
    requires op.Poll? && n < c.rwLen ==> gap + 1 <= 254
    ensures Shows(c, n, Step(g, op))
  {
  }

  lemma {:induction false} ShowsAlong(c: Fdc, ops: seq<Op>)
    requires Fresh(c) && Paced(ops, c.rwLen) && Accesses(ops) <= c.rwLen && (Writing(ops) || Reading(ops))
    ensures NoCommand(ops) && Shows(c, Accesses(ops), Done(c, ops))
  {
    if |ops| > 0 {
      var init, op := ops[..|ops| - 1], ops[|ops| - 1];
      PacedLast(ops, c.rwLen);
      ShowsAlong(c, init);
      var g := Done(c, init);
      assert Under(c, g, Accesses(init), Gap(init)) by {
        hide Step, Under;
        if Writing(ops) { WritesAccess(init); WritesLand(c, init); } else { ReadsReturn(c, init); }
      }
      hide Step, Under, Paced, Shows, Fresh;
      if op.PutData? || op.GetData? {
        assert Accesses(ops) == Accesses(init) + 1;
        FreshLength(c);
        AccessShows(c, g, Accesses(init), Gap(init), op);
      } else {
        FreshLength(c);
        WaitShows(c, g, Accesses(init), Gap(init), op);
      }
    }
  }

  lemma FreshLength(c: Fdc)
    requires Fresh(c)
    ensures Starts(c)
  {
  }

  lemma CommandFresh(f: Fdc, v: byte)
    requires Valid(f) && f.mounted && !f.status.busy && OnDisk(f.track, f.sector) && (IsRead(v) || IsWrite(v))
    ensures Addressed(f, v) && Fresh(Commanded(f, v))
    ensures Commanded(f, v).rwLen == Count(f, v) && Commanded(f, v).sector == f.sector && Commanded(f, v).head == f.head
  {
    hide Position, FirstByte, Headed, Bit;
    CommandStarts(f, v);
  }

  /** A command with bit 4 clear is complete after exactly 1024 accesses, one with it set after exactly
      1024 (6 - sector): until then it is BUSY with a data request, the sector register counts the sectors begun, and the
      completion raises the interrupt. */
  lemma CompletesExactly(f: Fdc, v: byte, ops: seq<Op>)
    requires Begins(f, v, ops)
    ensures Addressed(f, v) && Valid(Commanded(f, v)) && NoCommand(ops)
    ensures var g, n := Done(Commanded(f, v), ops), Accesses(ops);
            var len := if Bit(v, 4) then 1024 * (6 - f.sector) else 1024;
            && (g.status.busy <==> n < len) && (g.status.drq <==> n < len)
            && (n < len ==> g.line == Drq && g.sector == f.sector + n / 1024)
            && (n == len ==> g.line == Irq && g.rwLen == 0 && g.sector == if Bit(v, 4) then 5 else f.sector)
  {
    hide Bit, Commanded, Paced, Accesses;
    CommandFresh(f, v);
    ShowsAlong(Commanded(f, v), ops);
    LastSector(f.sector);
    hide Done;
  }

  lemma LastSector(sector: nat)
    requires 1 <= sector <= 5
    ensures (1024 * (6 - sector) - 1) / 1024 == 5 - sector
  {
  }

  // ---- The head -------------------------------------------------------------------

  /** RESTORE and SEEK put the head and the track register on track 0 or on the track in the data register, and report
      it at once. */
  lemma SeekMeans(f: Fdc, v: byte)
    requires Valid(f) && !f.status.busy && v < 0x20
    ensures Addressed(f, v)
    ensures var g, to := Commanded(f, v), if v < 0x10 then 0 else f.data;
            && g.head == g.track == to && g.line == Irq && g.image == f.image && g.rwLen == 0
            && g.status == Status(false, true, to == 0, false, false, Bit(v, 3), false, false)
  {
    hide Bit;
    ByteBits(v);
  }

  function Again(f: Fdc, v: byte, n: nat): (r: Fdc)
    requires 2 <= v / 16 <= 7
  {
    if n == 0 then f else Commanded(Again(f, v, n - 1), v)
  }

  /** One step: outwards (towards track 0, where the head stops) or inwards (modulo 256); bit 6 says that the command
      carries a direction, bit 5 which; without it the last one is kept; bit 4 updates the track register. */
  lemma StepMeans(f: Fdc, v: byte)
    requires !f.status.busy && 0x20 <= v < 0x80
    ensures var g := Commanded(f, v);
            && g.stepOut == (if Bit(v, 6) then Bit(v, 5) else f.stepOut)
            && g.head == (if g.stepOut then (if f.head == 0 then 0 else f.head - 1) else (f.head + 1) % 256)
            && g.track == (if Bit(v, 4) then g.head else f.track)
            && g.line == Irq && g.image == f.image && g.rwLen == f.rwLen && g.mounted == f.mounted
            && g.status == Status(false, true, g.head == 0, false, false, false, false, false)
  {
    hide Bit;
    ByteBits(v);
  }

  lemma StepDirection(v: byte)
    ensures 0x40 <= v < 0x60 ==> Bit(v, 6) && !Bit(v, 5)
    ensures 0x60 <= v < 0x80 ==> Bit(v, 6) && Bit(v, 5)
    ensures 0x20 <= v < 0x40 ==> !Bit(v, 6)
  {
    hide Bit;
    ByteBits(v);
  }

  /** `n` STEP-INs move the head `n` tracks in, `n` STEP-OUTs `n` tracks out, no further than track 0, and plain STEPs go
      on in the direction of the last step. */
  lemma {:induction false} StepsMove(f: Fdc, v: byte, n: nat)
    requires !f.status.busy && 0x20 <= v < 0x80
    ensures var g := Again(f, v, n);
            var out := v >= 0x60 || (v < 0x40 && f.stepOut);
            && !g.status.busy && g.head == (if out then (if n <= f.head then f.head - n else 0) else (f.head + n) % 256)
            && (n > 0 ==> g.stepOut == out)
  {
    hide Bit, Commanded;
    if n > 0 {
      StepsMove(f, v, n - 1);
      StepMeans(Again(f, v, n - 1), v);
      StepDirection(v);
      Wraps(f.head + n - 1);
    }
  }

  lemma Wraps(n: nat)
    ensures (n % 256 + 1) % 256 == (n + 1) % 256
  {
    Quotient(n + 1, 256, n / 256 + (if n % 256 == 255 then 1 else 0), if n % 256 == 255 then 0 else n % 256 + 1);
  }

  // ---- The other commands -----------------------------------------------------------

  /** The side of a transfer without side comparison is the inverse of bit 2 of the system port. */
  lemma SystemMeans(f: Fdc, w: byte, v: byte)
    requires Valid(f) && f.mounted && !f.status.busy && OnDisk(f.track, f.sector) && (IsRead(v) || IsWrite(v)) && !Bit(v, 1)
    ensures var g := Step(f, System(w));
            && Valid(g) && Addressed(g, v) && g.side == (if Bit(w, 2) then 0 else 1)
            && Commanded(g, v).ptr == FirstByte(if Bit(w, 2) then 0 else 1, f.track, f.sector)
  {
    hide Bit, Commanded, FirstByte;
    ByteBits(w);
    CommandStarts(Step(f, System(w)), v);
  }

  /** FORCE-INTERRUPT ends any transfer, keeps the disk, and interrupts if bit 3 asks for it. */
  lemma ForceMeans(f: Fdc, v: byte)
    requires Valid(f) && 0xD0 <= v < 0xE0
    ensures Addressed(f, v)
    ensures var g := Commanded(f, v);
            && !g.status.busy && g.rwLen == 0 && g.image == f.image && g.line == (if Bit(v, 3) then Irq else Quiet)
            && (f.status.busy ==> g.status == f.status.(busy := false))
            && (!f.status.busy ==> g.status == Status(false, true, f.head == 0, false, false, false, false, false))
  {
    hide Bit;
    ByteBits(v);
  }

  function StatusReads(f: Fdc, n: nat): (r: Fdc) { if n == 0 then f else StatusRead(StatusReads(f, n - 1)) }

  /** Reading the status again and again: after a head command the index bit flips every time; after a transfer command
      the lost-data bit is cleared and BUSY and the data request stay. The error bits and the head bit are cleared. */
  lemma {:induction false} StatusReadsMean(f: Fdc, n: nat)
    requires n > 0
    ensures var s, r := f.status, StatusReads(f, n);
            && r == f.(status := r.status)
            && r.status.busy == s.busy && r.status.readOnly == s.readOnly && r.status.notReady == s.notReady
            && !r.status.bad && !r.status.notFound && !r.status.head
            && (if f.cmd < 0x80 || f.cmd == 0xD0 then r.status.drq == (s.drq != (n % 2 == 1)) && r.status.lost == s.lost
                else r.status.drq == s.drq && !r.status.lost)
  {
    if n > 1 {
      StatusReadsMean(f, n - 1);
      assert n % 2 == 1 <==> (n - 1) % 2 != 1;
    } else {
      assert StatusReads(f, 0) == f;
    }
  }

  /** While a transfer runs every other command is refused. */
  lemma BusyRefuses(f: Fdc, v: byte)
    requires Valid(f) && f.status.busy && !(0xD0 <= v < 0xE0)
    ensures Addressed(f, v) && Commanded(f, v) == f.(line := Quiet)
  {
  }

  /** READ-ADDRESS is a transfer of six bytes: track and side under the head, sector 0, and the rest of the header. */
  lemma AddressMeans(f: Fdc, v: byte, ops: seq<Op>)
    requires Valid(f) && f.mounted && !f.status.busy && 0xC0 <= v < 0xD0
    requires Reading(ops) && Paced(ops, 6) && Accesses(ops) == 6
    ensures Addressed(f, v) && Valid(Commanded(f, v)) && NoCommand(ops)
    ensures var c := Commanded(f, v);
            && Gets(c, ops) == [f.head, f.side] + [0] + f.image[839683..839686]
            && !Done(c, ops).status.busy && Disk(Done(c, ops)) == Disk(f)
  {
    var c := Commanded(f, v);
    assert Starts(c) && c.rwLen == 6 && c.ptr == 839680 && c.image == Headed(f.image, f.head, f.side, 0);
    HeadedKeepsDisk(f.image, f.head, f.side, 0);
    hide Commanded, Paced, Accesses, Done, Gets, Headed;
    ReadsReturn(c, ops);
    HeaderSlice(f.image, f.head, f.side);
  }

  lemma HeaderSlice(image: Image, track: byte, side: Side)
    ensures Headed(image, track, side, 0)[839680..839686] == [track, side] + [0] + image[839683..839686]
  {
  }

  /** WRITE-TRACK fills both sides of the track with 0xE5 and touches no other byte. */
  lemma FormatMeans(f: Fdc, v: byte)
    requires Valid(f) && f.mounted && !f.status.busy && v >= 0xF0 && f.track < 82
    ensures Addressed(f, v)
    ensures forall i :: 0 <= i < 839680 ==>
              Disk(Commanded(f, v))[i] == if 10240 * f.track <= i < 10240 * f.track + 10240 then 0xE5 else Disk(f)[i]
  {
    var g := f.(line := Quiet, status := IDLE, cmd := v);
    assert Commanded(f, v) == Formatted(g) by { hide Formatted; }
    var p0, p1 := TrackStart(0, f.track), TrackStart(1, f.track);
    assert p0 == 10240 * f.track && p1 == p0 + 5120;
    hide Headed, TrackStart;
    var a := Headed(f.image, f.track, 0, 1);
    var b := Headed(Filled(a, p0), f.track, 1, 1);
    HeadedKeepsDisk(f.image, f.track, 0, 1);
    HeadedKeepsDisk(Filled(a, p0), f.track, 1, 1);
    forall i | 0 <= i < 839680
      ensures Filled(b, p1)[i] == if p0 <= i < p0 + 10240 then 0xE5 else f.image[i]
    {
      assert a[i] == a[..DISK_LEN][i] == f.image[..DISK_LEN][i];
      assert b[i] == b[..DISK_LEN][i] == Filled(a, p0)[..DISK_LEN][i];
    }
  }
}
