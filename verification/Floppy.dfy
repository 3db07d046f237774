/** The WD1793 floppy controller of libs/v6core/src/fdc_wd1793.cpp with one disk selected, as values. */
module Floppy {
  import opened Bytes

  const SIDES := 2
  const TRACKS := 82
  const SECTORS := 5
  const SECTOR_LEN := 1024
  const DISK_LEN := 839680
  const HEADER_LEN := 6

  /** The bits of the status register, lowest first; bits 1 and 2 are DRQ and LOST DATA of a transfer, INDEX and
      TRACK 0 of a head movement. */
  datatype Status = Status(busy: bool, drq: bool, lost: bool, bad: bool, notFound: bool, head: bool, readOnly: bool, notReady: bool)

  const IDLE := Status(false, false, false, false, false, false, false, false)

  datatype Line = Quiet | Drq | Irq

  /** The sectors of all tracks, then the six header bytes that Seek fills in. */
  type Image = s: seq<byte> | |s| == DISK_LEN + HEADER_LEN ghost witness seq(DISK_LEN + HEADER_LEN, _ => 0)

  type Side = n: nat | n < SIDES

  /** `rwLen` bytes of the transfer at `ptr` remain; `wait` polls remain before it is abandoned. */
  datatype Fdc = Fdc(
    status: Status, track: byte, sector: byte, data: byte, side: Side, head: byte, stepOut: bool,
    line: Line, rwLen: nat, wait: byte, cmd: byte, ptr: nat, mounted: bool, image: Image)

  datatype Op =
    | Command(v: byte) | SetTrack(v: byte) | SetSector(v: byte) | PutData(v: byte) | System(v: byte)
    | GetData | GetStatus | Poll

  predicate Flag(v: byte, weight: nat) requires weight > 0 { v / weight % 2 == 1 }

  // ---- Addressing -----------------------------------------------------------

  function TrackStart(side: Side, track: nat): (p: nat) { SECTORS * (track * SIDES + side) * SECTOR_LEN }

  function Position(side: Side, track: nat, sector: nat): (p: nat)
  {
    (SECTORS * (track * SIDES + side) + if sector >= 1 then sector - 1 else 0) * SECTOR_LEN
  }

  predicate OnDisk(track: nat, sector: nat) { track < TRACKS && 1 <= sector <= SECTORS }

  /** The offset of a sector in the image: sectors of 1024 bytes, five to a track, the two sides of a track in turn. */
  function FirstByte(side: Side, track: nat, sector: nat): (p: nat)
    requires sector >= 1
  {
    1024 * (5 * (2 * track + side) + (sector - 1))
  }

  lemma PositionMeans(side: Side, track: nat, sector: nat)
    requires sector >= 1
    ensures Position(side, track, sector) == FirstByte(side, track, sector) && TrackStart(side, track) == FirstByte(side, track, 1)
  {
  }

  /** A sector lies inside its track and on the disk, and different sectors do not overlap. */
  lemma SectorLaws(side: Side, track: nat, sector: nat, side': Side, track': nat, sector': nat)
    requires OnDisk(track, sector) && OnDisk(track', sector')
    ensures var p := FirstByte(side, track, sector);
            && 5120 * (2 * track + side) <= p && p + 1024 <= 5120 * (2 * track + side) + 5120 <= 839680
    ensures var p, p' := FirstByte(side, track, sector), FirstByte(side', track', sector');
            (side, track, sector) != (side', track', sector') ==> p + 1024 <= p' || p' + 1024 <= p
  {
  }

  // ---- Operations -----------------------------------------------------------

  function ChosenSide(f: Fdc, v: byte): (s: Side) { if Flag(v, 2) then (if Flag(v, 8) then 1 else 0) else f.side }

  function Length(f: Fdc, v: byte): (n: int) { SECTOR_LEN * if Flag(v, 0x10) then SECTORS - f.sector + 1 else 1 }

  function Headed(image: Image, track: byte, side: Side, sector: byte): (r: Image)
  {
    image[DISK_LEN := track][DISK_LEN + 1 := side][DISK_LEN + 2 := sector]
  }

  /** The part common to READ-SECTORS and WRITE-SECTORS. */
  function Transfer(f: Fdc, v: byte): (r: Fdc)
    requires f.mounted ==> OnDisk(f.track, f.sector)
  {
    if !f.mounted then f.(status := IDLE.(notFound := true), line := Irq)
    else
      var side := ChosenSide(f, v);
      f.(ptr := Position(side, f.track, f.sector), image := Headed(f.image, f.track, side, f.sector),
         rwLen := Length(f, v), status := IDLE.(busy := true, drq := true), line := Drq, wait := 255)
  }

  /** READ-ADDRESS transfers the header of the head position. */
  function ReadAddress(f: Fdc): (r: Fdc)
  {
    if !f.mounted then f.(status := IDLE.(notFound := true), line := Irq)
    else
      f.(ptr := DISK_LEN, image := Headed(f.image, f.head, f.side, 0), rwLen := HEADER_LEN,
         status := IDLE.(busy := true, drq := true), line := Drq, wait := 255)
  }

  function Moved(f: Fdc, head: byte, setTrack: bool, load: bool): (r: Fdc)
  {
    f.(head := head, track := if setTrack then head else f.track, line := Irq,
       status := IDLE.(drq := true, lost := head == 0, head := load))
  }

  function Stepped(f: Fdc, v: byte): (r: Fdc)
  {
    var outward := if Flag(v, 0x40) then Flag(v, 0x20) else f.stepOut;
    var head := if outward then (if f.head > 0 then f.head - 1 else 0) else if f.head == 255 then 0 else f.head + 1;
    Moved(f.(stepOut := outward), head, Flag(v, 0x10), false)
  }

  function Filled(image: Image, from: nat): (r: Image)
    requires from + SECTORS * SECTOR_LEN <= DISK_LEN
  {
    image[..from] + seq(SECTORS * SECTOR_LEN, _ => 0xE5) + image[from + SECTORS * SECTOR_LEN..]
  }

  /** WRITE-TRACK only fills both sides of the track. */
  function Formatted(f: Fdc): (r: Fdc)
    requires f.mounted ==> f.track < TRACKS
  {
    if !f.mounted then f
    else
      var p0, p1 := TrackStart(0, f.track), TrackStart(1, f.track);
      f.(ptr := p1, image := Filled(Headed(Filled(Headed(f.image, f.track, 0, 1), p0), f.track, 1, 1), p1))
  }

  /** The addresses the command is given exist on the disk. */
  predicate Addressed(f: Fdc, v: byte)
  {
    !f.status.busy && f.mounted ==> (8 <= v / 16 <= 11 ==> OnDisk(f.track, f.sector)) && (v / 16 == 15 ==> f.track < TRACKS)
  }

  function Commanded(f: Fdc, v: byte): (r: Fdc)
    requires Addressed(f, v)
  {
    var f := f.(line := Quiet);
    if v / 16 == 0xD then
      f.(rwLen := 0, cmd := 0xD0, line := if Flag(v, 8) then Irq else Quiet,
         status := if f.status.busy then f.status.(busy := false) else IDLE.(drq := true, lost := f.head == 0))
    else if f.status.busy then f
    else
      var f := f.(status := IDLE, cmd := v);
      match v / 16
      case 0 => Moved(f, 0, true, Flag(v, 8))
      case 1 => Moved(f.(rwLen := 0), f.data, true, Flag(v, 8))
      case 2 | 3 | 4 | 5 | 6 | 7 => Stepped(f, v)
      case 8 | 9 | 10 | 11 => Transfer(f, v)
      case 12 => ReadAddress(f)
      case 15 => Formatted(f)
      case _ => f
  }

  /** What a data access, in either direction, does to the counters. */
  function Counted(f: Fdc): (r: Fdc)
    requires f.rwLen > 0
  {
    var n := f.rwLen - 1;
    var f := f.(ptr := f.ptr + 1, rwLen := n);
    if n > 0 then f.(wait := 255, sector := if n % SECTOR_LEN == 0 then (f.sector + 1) % 256 else f.sector)
    else f.(status := f.status.(busy := false, drq := false), line := Irq)
  }

  function Put(f: Fdc, v: byte): (r: Fdc)
    requires f.rwLen > 0 ==> f.ptr < DISK_LEN + HEADER_LEN
  {
    (if f.rwLen > 0 then Counted(f.(image := f.image[f.ptr := v])) else f).(data := v)
  }

  function Got(f: Fdc): (r: Fdc)
    requires f.rwLen > 0 ==> f.ptr < DISK_LEN + HEADER_LEN
  {
    if f.rwLen > 0 then Counted(f.(data := f.image[f.ptr])) else f
  }

  function Polled(f: Fdc): (r: Fdc)
  {
    if f.wait == 0 then f
    else if f.wait > 1 then f.(wait := f.wait - 1)
    else f.(wait := 0, rwLen := 0, line := Irq, status := f.status.(busy := false, drq := false, lost := true))
  }

  function StatusRead(f: Fdc): (r: Fdc)
  {
    var s := f.status;
    f.(status := if f.cmd < 0x80 || f.cmd == 0xD0 then s.(drq := !s.drq, bad := false, notFound := false, head := false)
                 else s.(lost := false, bad := false, notFound := false, head := false))
  }

  /** No access leaves the disk, and BUSY is set exactly while bytes of a transfer remain. */
  predicate Valid(f: Fdc)
  {
    && (f.status.busy <==> f.rwLen > 0)
    && (f.rwLen > 0 ==> f.mounted && f.wait > 0 && f.ptr + f.rwLen <= DISK_LEN + HEADER_LEN)
  }

  predicate Proper(f: Fdc, op: Op) { op.Command? ==> Addressed(f, op.v) }

  function Step(f: Fdc, op: Op): (r: Fdc)
    requires Valid(f) && Proper(f, op)
  {
    match op
    case Command(v) => Commanded(f, v)
    case SetTrack(v) => if f.status.busy then f else f.(track := v)
    case SetSector(v) => if f.status.busy then f else f.(sector := v)
    case PutData(v) => Put(f, v)
    case System(v) => f.(side := if Flag(v, 4) then 0 else 1)
    case GetData => Got(f)
    case GetStatus => StatusRead(f)
    case Poll => Polled(f)
  }

  lemma TransferFits(f: Fdc, v: byte)
    requires f.mounted && OnDisk(f.track, f.sector)
    ensures var p := Position(ChosenSide(f, v), f.track, f.sector);
            var start := TrackStart(ChosenSide(f, v), f.track);
            0 < Length(f, v) && start <= p && p + Length(f, v) <= start + SECTORS * SECTOR_LEN <= DISK_LEN
  {
  }

  /** Every operation keeps BUSY equal to `bytes remain`. */
  lemma StepValid(f: Fdc, op: Op)
    requires Valid(f) && Proper(f, op)
    ensures Valid(Step(f, op))
  {
    hide Commanded, Counted;
    match op
    case Command(v) => CommandValid(f, v);
    case PutData(v) => if f.rwLen > 0 { CountValid(f.(image := f.image[f.ptr := v])); }
    case GetData => if f.rwLen > 0 { CountValid(f.(data := f.image[f.ptr])); }
    case _ =>
  }

  lemma CountValid(f: Fdc)
    requires Valid(f) && f.rwLen > 0
    ensures Valid(Counted(f))
  {
  }

  lemma CommandValid(f: Fdc, v: byte)
    requires Valid(f) && Addressed(f, v)
    ensures Valid(Commanded(f, v))
  {
    hide Position, Headed, Filled, TrackStart, Length;
    if f.mounted && OnDisk(f.track, f.sector) { TransferFits(f.(line := Quiet, status := IDLE, cmd := v), v); }
  }

  ghost predicate Runs(t: nat -> Fdc, ops: nat -> Op)
  {
    Valid(t(0)) && forall i: nat :: Valid(t(i)) ==> Proper(t(i), ops(i)) && t(i + 1) == Step(t(i), ops(i))
  }

  /** In every state a run reaches. */
  lemma {:induction false} BusyExactlyWhileBytesRemain(t: nat -> Fdc, ops: nat -> Op, n: nat)
    requires Runs(t, ops)
    ensures Valid(t(n))
  {
    if n > 0 {
      BusyExactlyWhileBytesRemain(t, ops, n - 1);
      StepValid(t(n - 1), ops(n - 1));
    }
  }

  // ---- Transfers ------------------------------------------------------------

  predicate Writing(ops: seq<Op>) { forall i :: 0 <= i < |ops| ==> ops[i].PutData? || ops[i].Poll? || ops[i].GetStatus? }
  predicate Reading(ops: seq<Op>) { forall i :: 0 <= i < |ops| ==> ops[i].GetData? || ops[i].Poll? || ops[i].GetStatus? }
  predicate NoCommand(ops: seq<Op>) { forall i :: 0 <= i < |ops| ==> !ops[i].Command? }

  /** Any sequence of port accesses other than commands. */
  function Done(f: Fdc, ops: seq<Op>): (r: Fdc)
    requires Valid(f) && NoCommand(ops)
    ensures Valid(r)
  {
    if |ops| == 0 then f
    else
      var g := Done(f, ops[..|ops| - 1]);
      StepValid(g, ops[|ops| - 1]);
      Step(g, ops[|ops| - 1])
  }

  /** The bytes written, and the bytes the data reads return, in order. */
  function Puts(ops: seq<Op>): (bytes: seq<byte>)
  {
    if |ops| == 0 then []
    else Puts(ops[..|ops| - 1]) + if ops[|ops| - 1].PutData? then [ops[|ops| - 1].v] else []
  }

  function Gets(f: Fdc, ops: seq<Op>): (bytes: seq<byte>)
    requires Valid(f) && NoCommand(ops)
  {
    if |ops| == 0 then []
    else Gets(f, ops[..|ops| - 1]) + if ops[|ops| - 1].GetData? then [Done(f, ops).data] else []
  }

  /** Data accesses, and polls since the last of them. */
  function Accesses(ops: seq<Op>): (n: nat)
  {
    if |ops| == 0 then 0
    else Accesses(ops[..|ops| - 1]) + if ops[|ops| - 1].PutData? || ops[|ops| - 1].GetData? then 1 else 0
  }

  function Gap(ops: seq<Op>): (n: nat)
  {
    if |ops| == 0 || ops[|ops| - 1].PutData? || ops[|ops| - 1].GetData? then 0
    else Gap(ops[..|ops| - 1]) + if ops[|ops| - 1].Poll? then 1 else 0
  }

  /** While bytes of the `n` remain, at most 254 polls come between two accesses; status reads are free. */
  predicate Paced(ops: seq<Op>, n: nat)
  {
    |ops| == 0 || (Paced(ops[..|ops| - 1], n) && (Accesses(ops) < n ==> Gap(ops) <= 254))
  }

  /** The state of a transfer that started as `f`, after `n` accesses and `gap` polls since the last. */
  predicate Under(f: Fdc, g: Fdc, n: nat, gap: nat)
  {
    && n <= f.rwLen && g.rwLen == f.rwLen - n && g.ptr == f.ptr + n && g.mounted == f.mounted
    && g.track == f.track && g.side == f.side
    && (n < f.rwLen ==> g.wait == 255 - gap)
    && (n < f.rwLen && !f.status.lost ==> !g.status.lost)
  }

  predicate Starts(f: Fdc) { Valid(f) && f.rwLen > 0 && f.wait == 255 }

  lemma AccessUnder(f: Fdc, g: Fdc, n: nat, gap: nat, op: Op)
    requires Starts(f) && Valid(g) && Under(f, g, n, gap) && n < f.rwLen && (op.PutData? || op.GetData?)
    ensures var r := Step(g, op);
            && Under(f, r, n + 1, 0)
            && r.image == (if op.PutData? then g.image[g.ptr := op.v] else g.image)
            && (op.GetData? ==> r.data == g.image[g.ptr])
  {
  }

  lemma WaitUnder(f: Fdc, g: Fdc, n: nat, gap: nat, op: Op)
    requires Starts(f) && Valid(g) && Under(f, g, n, gap) && (op.Poll? || op.GetStatus?)
    requires op.Poll? && n < f.rwLen ==> gap + 1 <= 254
    ensures var r := Step(g, op);
            Under(f, r, n, if op.Poll? then gap + 1 else gap) && r.image == g.image
  {
  }

  predicate Landed(f: Fdc, g: Fdc, bytes: seq<byte>, n: nat, gap: nat)
  {
    && |bytes| == n && Under(f, g, n, gap) && f.ptr + n <= |f.image|
    && g.image == f.image[..f.ptr] + bytes + f.image[f.ptr + n..]
  }

  lemma LandOne(f: Fdc, g: Fdc, bytes: seq<byte>, n: nat, gap: nat, op: Op)
    requires Starts(f) && Valid(g) && Landed(f, g, bytes, n, gap) && n < f.rwLen && op.PutData?
    ensures Landed(f, Step(g, op), bytes + [op.v], n + 1, 0)
  {
    hide Step, Under;
    AccessUnder(f, g, n, gap, op);
    UnderPtr(f, g, n, gap);
    SpliceOne(f.image, f.ptr, bytes, op.v);
  }

  lemma LandWait(f: Fdc, g: Fdc, bytes: seq<byte>, n: nat, gap: nat, op: Op)
    requires Starts(f) && Valid(g) && Landed(f, g, bytes, n, gap) && (op.Poll? || op.GetStatus?)
    requires op.Poll? && n < f.rwLen ==> gap + 1 <= 254
    ensures Landed(f, Step(g, op), bytes, n, if op.Poll? then gap + 1 else gap)
  {
    hide Step, Under;
    WaitUnder(f, g, n, gap, op);
  }

  /** Data writes land in order and touch nothing else, however they are interleaved with polls and status reads. */
  lemma {:induction false} WritesLand(f: Fdc, ops: seq<Op>)
    requires Starts(f) && Writing(ops) && Paced(ops, f.rwLen) && |Puts(ops)| <= f.rwLen
    ensures Landed(f, Done(f, ops), Puts(ops), Accesses(ops), Gap(ops))
  {
    if |ops| == 0 {
      assert f.image[..f.ptr] + [] + f.image[f.ptr..] == f.image;
    } else {
      hide Step, Landed, Paced, Valid;
      var init, op := ops[..|ops| - 1], ops[|ops| - 1];
      PacedLast(ops, f.rwLen);
      WritesAccess(init);
      WritesLand(f, init);
      var g := Done(f, init);
      if op.PutData? { LandOne(f, g, Puts(init), Accesses(init), Gap(init), op); }
      else { LandWait(f, g, Puts(init), Accesses(init), Gap(init), op); }
      assert Puts(init) + [] == Puts(init);
    }
  }

  lemma UnderPtr(f: Fdc, g: Fdc, n: nat, gap: nat)
    requires Under(f, g, n, gap)
    ensures g.ptr == f.ptr + n
  {
  }

  lemma PacedLast(ops: seq<Op>, n: nat)
    requires |ops| > 0 && Paced(ops, n)
    ensures Paced(ops[..|ops| - 1], n) && (Accesses(ops) < n ==> Gap(ops) <= 254)
  {
  }

  lemma SpliceOne(image: Image, p: nat, bytes: seq<byte>, v: byte)
    requires p + |bytes| < DISK_LEN + HEADER_LEN
    ensures (image[..p] + bytes + image[p + |bytes|..])[p + |bytes| := v]
            == image[..p] + (bytes + [v]) + image[p + |bytes + [v]|..]
  {
    var a, b := image[..p], image[p + |bytes|..];
    assert |a + bytes| == p + |bytes|;
    assert (a + bytes + b)[p + |bytes| := v] == a + bytes + b[0 := v];
    assert b[0 := v] == [v] + image[p + |bytes| + 1..];
  }

  /** Data reads return the bytes in order and leave the disk alone, however they are interleaved. */
  lemma {:induction false} ReadsReturn(f: Fdc, ops: seq<Op>)
    requires Starts(f) && Reading(ops) && Paced(ops, f.rwLen) && Accesses(ops) <= f.rwLen
    ensures var g := Done(f, ops);
            && Under(f, g, Accesses(ops), Gap(ops)) && g.image == f.image
            && f.ptr + Accesses(ops) <= |f.image| && Gets(f, ops) == f.image[f.ptr..f.ptr + Accesses(ops)]
  {
    if |ops| > 0 {
      var init, op := ops[..|ops| - 1], ops[|ops| - 1];
      ReadsReturn(f, init);
      var g := Done(f, init);
      hide Step, Under, Paced;
      if op.GetData? {
        AccessUnder(f, g, Accesses(init), Gap(init), op);
        UnderPtr(f, g, Accesses(init), Gap(init));
        SliceOne(f.image, f.ptr, Accesses(init));
      } else {
        PacedLast(ops, f.rwLen);
        WaitUnder(f, g, Accesses(init), Gap(init), op);
      }
    }
  }

  lemma SliceOne(image: Image, p: nat, n: nat)
    requires p + n < |image|
    ensures image[p..p + n + 1] == image[p..p + n] + [image[p + n]]
  {
  }

  predicate IsRead(v: byte) { 8 <= v / 16 <= 9 }
  predicate IsWrite(v: byte) { 10 <= v / 16 <= 11 }

  /** A READ or WRITE command for the same sectors: same side choice, same single or multiple flag. */
  predicate SameSectors(v: byte, v': byte)
  {
    Bit(v, 1) == Bit(v', 1) && Bit(v, 3) == Bit(v', 3) && Bit(v, 4) == Bit(v', 4)
  }

  /** How many bytes a command moves: one sector, or with bit 4 all from the addressed one to the end of the track. */
  function Count(f: Fdc, v: byte): (n: int) { if Bit(v, 4) then 1024 * (6 - f.sector) else 1024 }

  /** The side it works on: with bit 1 the one of bit 3, else the one selected by the system port. */
  function SideFor(f: Fdc, v: byte): (s: Side) { if Bit(v, 1) then (if Bit(v, 3) then 1 else 0) else f.side }

  lemma CommandBits(f: Fdc, v: byte)
    ensures Length(f, v) == Count(f, v) && ChosenSide(f, v) == SideFor(f, v)
    ensures Flag(v, 0x10) == Bit(v, 4) && Flag(v, 2) == Bit(v, 1) && Flag(v, 8) == Bit(v, 3)
  {
    hide Bit;
    ByteBits(v);
  }

  /** A command for several sectors ends with the last byte of the track. */
  lemma EndsTrack(f: Fdc, v: byte)
    requires OnDisk(f.track, f.sector) && Bit(v, 4)
    ensures FirstByte(SideFor(f, v), f.track, f.sector) + Count(f, v) == 5120 * (2 * f.track + SideFor(f, v)) + 5120
  {
    hide Bit;
  }

  lemma CommandStarts(f: Fdc, v: byte)
    requires Valid(f) && f.mounted && !f.status.busy && OnDisk(f.track, f.sector) && (IsRead(v) || IsWrite(v))
    ensures Addressed(f, v)
    ensures var g := Commanded(f, v);
            && g.ptr == FirstByte(SideFor(f, v), f.track, f.sector) && g.rwLen == Count(f, v)
            && Starts(g) && g.mounted && g.track == f.track && g.side == f.side && !g.status.lost
            && g.image == Headed(f.image, f.track, SideFor(f, v), f.sector)
            && 0 < g.rwLen && g.ptr + g.rwLen <= DISK_LEN
  {
    hide Position, FirstByte, Headed, Bit;
    TransferFits(f, v);
    CommandBits(f, v);
    PositionMeans(ChosenSide(f, v), f.track, f.sector);
  }

  /** The disk outside the header. */
  function Disk(f: Fdc): (d: seq<byte>) ensures |d| == DISK_LEN { f.image[..DISK_LEN] }

  lemma HeadedKeepsDisk(image: Image, track: byte, side: Side, sector: byte)
    ensures Headed(image, track, side, sector)[..DISK_LEN] == image[..DISK_LEN]
  {
  }

  lemma Spliced(image: Image, p: nat, bytes: seq<byte>)
    requires p + |bytes| <= DISK_LEN
    ensures |image[..p] + bytes + image[p + |bytes|..]| == DISK_LEN + HEADER_LEN
    ensures (image[..p] + bytes + image[p + |bytes|..])[..DISK_LEN] == image[..DISK_LEN][..p] + bytes + image[..DISK_LEN][p + |bytes|..]
  {
  }

  /** A READ or WRITE command on sectors of the disk and a paced sequence of accesses that completes it. */
  ghost predicate Transfers(f: Fdc, v: byte, ops: seq<Op>)
  {
    && Valid(f) && f.mounted && !f.status.busy && OnDisk(f.track, f.sector)
    && Paced(ops, Count(f, v)) && Accesses(ops) == Count(f, v)
    && ((IsWrite(v) && Writing(ops)) || (IsRead(v) && Reading(ops)))
  }

  /** A WRITE-SECTORS and its data writes, interleaved with polls and status reads, replace exactly the addressed bytes
      of the disk and leave the drive idle. */
  lemma WriteSectors(f: Fdc, v: byte, ops: seq<Op>)
    requires Transfers(f, v, ops) && IsWrite(v)
    ensures Addressed(f, v) && Valid(Commanded(f, v)) && NoCommand(ops)
    ensures var g := Done(Commanded(f, v), ops);
            var p := FirstByte(SideFor(f, v), f.track, f.sector);
            && |Puts(ops)| == Count(f, v) && p + |Puts(ops)| <= DISK_LEN
            && Disk(g) == Disk(f)[..p] + Puts(ops) + Disk(f)[p + |Puts(ops)|..]
            && !g.status.busy && g.mounted && g.track == f.track && g.side == f.side
  {
    hide FirstByte, Headed, Commanded, Done, Puts, Paced, Accesses, Gap;
    WritesAccess(ops);
    CommandStarts(f, v);
    var c := Commanded(f, v);
    WritesLand(c, ops);
    HeadedKeepsDisk(f.image, f.track, SideFor(f, v), f.sector);
    Spliced(c.image, c.ptr, Puts(ops));
  }

  lemma {:induction false} WritesAccess(ops: seq<Op>)
    requires Writing(ops)
    ensures |Puts(ops)| == Accesses(ops)
  {
    if |ops| > 0 { WritesAccess(ops[..|ops| - 1]); }
  }

  lemma PrefixSlice(s: seq<byte>, n: nat, p: nat, q: nat)
    requires p <= q <= n <= |s|
    ensures s[..n][p..q] == s[p..q]
  {
  }

  /** A READ-SECTORS and its data reads return the addressed bytes in order, change nothing and leave the drive idle. */
  lemma ReadSectors(f: Fdc, v: byte, ops: seq<Op>)
    requires Transfers(f, v, ops) && IsRead(v)
    ensures Addressed(f, v) && Valid(Commanded(f, v)) && NoCommand(ops)
    ensures var p := FirstByte(SideFor(f, v), f.track, f.sector);
            var g := Done(Commanded(f, v), ops);
            && p + Count(f, v) <= DISK_LEN && Count(f, v) > 0
            && Gets(Commanded(f, v), ops) == Disk(f)[p..p + Count(f, v)] && Disk(g) == Disk(f) && !g.status.busy
  {
    hide FirstByte, Headed, Commanded, Done, Gets, Paced, Accesses, Gap;
    CommandStarts(f, v);
    var c := Commanded(f, v);
    ReadsReturn(c, ops);
    HeadedKeepsDisk(f.image, f.track, SideFor(f, v), f.sector);
    PrefixSlice(c.image, DISK_LEN, c.ptr, c.ptr + c.rwLen);
  }

  /** Write, point the registers at the same sectors again, read: the same bytes come back in order, whatever the
      pacing of the two transfers. */
  lemma WriteThenRead(f: Fdc, w: byte, out: seq<Op>, r: byte, back: seq<Op>)
    requires Transfers(f, w, out) && IsWrite(w) && IsRead(r) && SameSectors(w, r)
    requires Reading(back) && Paced(back, Count(f, w)) && Accesses(back) == Count(f, w)
    ensures Addressed(f, w) && Valid(Commanded(f, w)) && NoCommand(out) && NoCommand(back)
    ensures var g := Done(Commanded(f, w), out);
            var h := Step(Step(g, SetTrack(f.track)), SetSector(f.sector));
            && Addressed(h, r) && Valid(Commanded(h, r))
            && Gets(Commanded(h, r), back) == Puts(out)
  {
    hide FirstByte, Commanded, Done, Puts, Gets, Paced, Accesses;
    WriteSectors(f, w, out);
    var g := Done(Commanded(f, w), out);
    var h := Step(Step(g, SetTrack(f.track)), SetSector(f.sector));
    assert h == g.(track := f.track, sector := f.sector);
    assert SideFor(h, r) == SideFor(f, w) && Count(h, r) == Count(f, w);
    ReadSectors(h, r, back);
    var p := FirstByte(SideFor(f, w), f.track, f.sector);
    Respliced(Disk(f), p, Puts(out));
  }

  lemma Respliced(d: seq<byte>, p: nat, bytes: seq<byte>)
    requires p + |bytes| <= |d|
    ensures (d[..p] + bytes + d[p + |bytes|..])[p..p + |bytes|] == bytes
  {
  }

  function SectorOf(f: Fdc, side: Side, track: nat, sector: nat): (s: seq<byte>)
    requires OnDisk(track, sector)
  {
    SectorLaws(side, track, sector, side, track, sector);
    var p := FirstByte(side, track, sector);
    Disk(f)[p..p + 1024]
  }

  /** Every sector the command does not address keeps its bytes. */
  lemma OtherSectorsStay(f: Fdc, v: byte, ops: seq<Op>, side: Side, track: nat, sector: nat)
    requires Transfers(f, v, ops) && IsWrite(v) && OnDisk(track, sector)
    requires side != SideFor(f, v) || track != f.track || sector < f.sector || (!Bit(v, 4) && sector > f.sector)
    ensures Addressed(f, v) && Valid(Commanded(f, v)) && NoCommand(ops)
    ensures SectorOf(Done(Commanded(f, v), ops), side, track, sector) == SectorOf(f, side, track, sector)
  {
    hide Commanded, Done, Puts, FirstByte, Paced, Accesses;
    WriteSectors(f, v, ops);
    var p, q := FirstByte(SideFor(f, v), f.track, f.sector), FirstByte(side, track, sector);
    Apart(SideFor(f, v), f.track, f.sector, Bit(v, 4), side, track, sector);
    SectorLaws(side, track, sector, side, track, sector);
    Untouched(Disk(f), p, Puts(ops), q);
  }

  lemma Apart(side: Side, track: nat, sector: nat, multi: bool, side': Side, track': nat, sector': nat)
    requires OnDisk(track, sector) && OnDisk(track', sector')
    requires side' != side || track' != track || sector' < sector || (!multi && sector' > sector)
    ensures var p, q := FirstByte(side, track, sector), FirstByte(side', track', sector');
            q + SECTOR_LEN <= p || p + SECTOR_LEN * (if multi then SECTORS - sector + 1 else 1) <= q
  {
  }

  lemma Untouched(d: seq<byte>, p: nat, bytes: seq<byte>, q: nat)
    requires p + |bytes| <= |d| && q + SECTOR_LEN <= |d| && (q + SECTOR_LEN <= p || p + |bytes| <= q)
    ensures (d[..p] + bytes + d[p + |bytes|..])[q..q + SECTOR_LEN] == d[q..q + SECTOR_LEN]
  {
  }

  // ---- The watchdog -----------------------------------------------------------

  function Polls(f: Fdc, k: nat): (r: Fdc) { if k == 0 then f else Polled(Polls(f, k - 1)) }

  /** The watchdog, 255 after every access, fires at exactly that poll and not before. */
  lemma {:induction false} WatchdogFires(f: Fdc, k: nat)
    requires f.wait > 0
    ensures k < f.wait ==> Polls(f, k) == f.(wait := f.wait - k)
    ensures k >= f.wait ==> var g := Polls(f, k); !g.status.busy && g.rwLen == 0 && g.status.lost && g.image == f.image && g.wait == 0
  {
    if k > 0 { WatchdogFires(f, k - 1); }
  }

  /** Just before its last access, a transfer that has not timed out. */
  lemma LastByteDue(f: Fdc, v: byte, ops: seq<Op>)
    requires Transfers(f, v, ops) && |ops| > 0 && (ops[|ops| - 1].PutData? || ops[|ops| - 1].GetData?)
    ensures Addressed(f, v) && Valid(Commanded(f, v)) && NoCommand(ops)
    ensures var init := ops[..|ops| - 1];
            var g := Done(Commanded(f, v), init);
            Gap(init) <= 254 && g.rwLen == 1 && g.wait == 255 - Gap(init) && !g.status.lost
  {
    var init := ops[..|ops| - 1];
    PacedLast(ops, Count(f, v));
    if |init| > 0 { PacedLast(init, Count(f, v)); }
    assert Accesses(init) == Count(f, v) - 1;
    hide FirstByte, Headed, Commanded, Paced, Accesses;
    CommandStarts(f, v);
    hide Done, Gap;
    if IsWrite(v) { WritesAccess(init); WritesLand(Commanded(f, v), init); } else { ReadsReturn(Commanded(f, v), init); }
  }

  /** The last byte of a transfer does not stop the watchdog: it goes on from where the last access found it, and lost
      data is reported if and only if at least that many polls follow, although every byte went through. */
  lemma LostAfterCompletionIff(f: Fdc, v: byte, ops: seq<Op>, k: nat)
    requires Transfers(f, v, ops) && |ops| > 0 && (ops[|ops| - 1].PutData? || ops[|ops| - 1].GetData?)
    ensures Addressed(f, v) && Valid(Commanded(f, v)) && NoCommand(ops)
    ensures var g := Done(Commanded(f, v), ops);
            var w := 255 - Gap(ops[..|ops| - 1]);
            && g.rwLen == 0 && !g.status.busy && !g.status.lost && g.wait == w > 0
            && (Polls(g, k).status.lost <==> k >= w)
            && (k < w ==> Polls(g, k) == g.(wait := w - k))
  {
    LastByteDue(f, v, ops);
    hide Commanded, Paced, Accesses, Gap, Transfers, Polls;
    WatchdogFires(Done(Commanded(f, v), ops), k);
  }
}
