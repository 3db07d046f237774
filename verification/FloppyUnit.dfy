/** class Fdc1793 of libs/v6core/src/fdc_wd1793.cpp: registers and disk bytes in place. */
module FloppyUnit {
  import opened Bytes
  import opened F = Floppy

  class Controller {
    var status: Status
    var track: byte
    var sector: byte
    var data: byte
    var side: Side
    var head: byte
    var stepOut: bool
    var line: Line
    var rwLen: nat
    var wait: byte
    var cmd: byte
    var ptr: nat
    const mounted: bool
    const image: array<byte>

    constructor (image: array<byte>, mounted: bool)
      requires image.Length == DISK_LEN + HEADER_LEN
      ensures this.image == image && this.mounted == mounted && Ok()
      ensures View() == Fdc(IDLE, 0, 0, 0, 0, 0, false, Quiet, 0, 0, 0xD0, 0, mounted, image[..])
    {
      this.image, this.mounted := image, mounted;
      status, track, sector, data, side, head, stepOut := IDLE, 0, 0, 0, 0, 0, false;
      line, rwLen, wait, cmd, ptr := Quiet, 0, 0, 0xD0, 0;
    }

    ghost function View(): (f: Fdc)
      requires image.Length == DISK_LEN + HEADER_LEN
      reads this, image
    {
      Fdc(status, track, sector, data, side, head, stepOut, line, rwLen, wait, cmd, ptr, mounted, image[..])
    }

    ghost predicate Ok()
      reads this, image
    {
      image.Length == DISK_LEN + HEADER_LEN && F.Valid(View())
    }

    /** Fills in the header and returns the position of the sector, or nothing without a disk. */
    method Seek(sideId: Side, trackId: byte, sectorId: byte) returns (found: bool, position: nat)
      requires image.Length == DISK_LEN + HEADER_LEN
      modifies image
      ensures found == mounted && position == (if mounted then Position(sideId, trackId, sectorId) else 0)
      ensures image[..] == if mounted then Headed(old(image[..]), trackId, sideId, sectorId) else old(image[..])
    {
      if !mounted { return false, 0; }
      var sectors := SECTORS * (trackId * SIDES + sideId);
      var adjusted := if sectorId >= 1 then sectorId - 1 else 0;
      position := (sectors + adjusted) * SECTOR_LEN;
      image[DISK_LEN] := trackId;
      image[DISK_LEN + 1] := sideId;
      image[DISK_LEN + 2] := sectorId;
      found := true;
    }

    method CountAccess()
      requires image.Length == DISK_LEN + HEADER_LEN && rwLen > 0
      modifies `ptr, `rwLen, `wait, `sector, `status, `line
      ensures View() == Counted(old(View()))
    {
      ptr, rwLen := ptr + 1, rwLen - 1;
      if rwLen > 0 {
        wait := 255;
        if rwLen % SECTOR_LEN == 0 { sector := (sector + 1) % 256; }
      } else {
        status := status.(busy := false, drq := false);
        line := Irq;
      }
    }

    method ReadData() returns (v: byte)
      requires Ok()
      modifies this
      ensures Ok() && View() == Step(old(View()), GetData) && v == data
    {
      StepValid(View(), GetData);
      hide Counted;
      if rwLen > 0 {
        data := image[ptr];
        CountAccess();
      }
      v := data;
    }

    method WriteData(v: byte)
      requires Ok()
      modifies this, image
      ensures Ok() && View() == Step(old(View()), PutData(v))
    {
      StepValid(View(), PutData(v));
      hide Counted;
      if rwLen > 0 {
        image[ptr] := v;
        assert image[..] == old(image[..])[ptr := v];
        CountAccess();
      }
      data := v;
    }

    method ReadReady() returns (r: Line)
      requires Ok()
      modifies this
      ensures Ok() && View() == Step(old(View()), Poll) && r == line
    {
      if wait > 0 {
        wait := wait - 1;
        if wait == 0 {
          rwLen := 0;
          status := status.(busy := false, drq := false, lost := true);
          line := Irq;
        }
      }
      r := line;
    }

    method ReadStatus() returns (r: Status)
      requires Ok()
      modifies `status
      ensures Ok() && View() == Step(old(View()), GetStatus)
      ensures r == if mounted then old(status) else old(status).(notReady := true)
    {
      r := if mounted then status else status.(notReady := true);
      if cmd < 0x80 || cmd == 0xD0 {
        status := status.(drq := !status.drq, bad := false, notFound := false, head := false);
      } else {
        status := status.(lost := false, bad := false, notFound := false, head := false);
      }
    }

    method WriteTrack(v: byte)
      requires Ok()
      modifies `track
      ensures Ok() && View() == Step(old(View()), SetTrack(v))
    {
      if !status.busy { track := v; }
    }

    method WriteSector(v: byte)
      requires Ok()
      modifies `sector
      ensures Ok() && View() == Step(old(View()), SetSector(v))
    {
      if !status.busy { sector := v; }
    }

    method BeginTransfer(v: byte)
      requires Ok() && status == IDLE && (mounted ==> OnDisk(track, sector))
      modifies this, image
      ensures View() == Transfer(old(View()), v)
    {
      hide Position, Headed;
      ghost var f := View();
      if mounted { TransferFits(f, v); }
      var found, position := Seek(if Flag(v, 2) then (if Flag(v, 8) then 1 else 0) else side, track, sector);
      if !found {
        status := status.(bad := false, notFound := true);
        line := Irq;
      } else {
        ptr := position;
        rwLen := SECTOR_LEN * if Flag(v, 0x10) then SECTORS - sector + 1 else 1;
        status := status.(busy := true, drq := true);
        line, wait := Drq, 255;
      }
    }

    method BeginReadAddress()
      requires Ok() && status == IDLE
      modifies this, image
      ensures View() == ReadAddress(old(View()))
    {
      hide Position, Headed;
      var found, position := Seek(side, head, 0);
      if !found {
        status := status.(notFound := true);
        line := Irq;
      } else {
        ptr, rwLen := DISK_LEN, HEADER_LEN;
        status := status.(busy := true, drq := true);
        line, wait := Drq, 255;
      }
    }

    /** Resets an executing command, or reports the head position. */
    method ForceInterrupt(v: byte)
      requires Ok() && v / 16 == 0xD
      modifies this
      ensures Ok() && View() == Commanded(old(View()), v)
    {
      line := if Flag(v, 8) then Irq else Quiet;
      rwLen, cmd := 0, 0xD0;
      status := if status.busy then status.(busy := false) else IDLE.(drq := true, lost := head == 0);
    }

    /** The head stands on a track: status, interrupt and, if asked for, the track register. */
    method Arrive(to: byte, update: bool, load: bool)
      requires image.Length == DISK_LEN + HEADER_LEN
      modifies `head, `track, `status, `line
      ensures View() == Moved(old(View()), to, update, load)
    {
      head := to;
      if update { track := to; }
      status := IDLE.(drq := true, lost := to == 0, head := load);
      line := Irq;
    }

    method StepHead(v: byte)
      requires image.Length == DISK_LEN + HEADER_LEN
      modifies `stepOut, `head, `track, `status, `line
      ensures View() == Stepped(old(View()), v)
    {
      hide Moved;
      if Flag(v, 0x40) { stepOut := Flag(v, 0x20); }
      var to := if stepOut then (if head > 0 then head - 1 else 0) else if head == 255 then 0 else head + 1;
      Arrive(to, Flag(v, 0x10), false);
    }

    method Accept(v: byte)
      requires image.Length == DISK_LEN + HEADER_LEN
      modifies `status, `cmd, `line
      ensures View() == old(View()).(status := IDLE, cmd := v, line := Quiet)
    {
      status, cmd, line := IDLE, v, Quiet;
    }

    /** RESTORE, SEEK and the STEP commands. */
    method MoveHead(v: byte)
      requires Ok() && !status.busy && v / 16 < 8
      modifies this
      ensures Ok() && View() == Commanded(old(View()), v)
    {
      CommandValid(View(), v);
      HeadCommands(View(), v);
      hide Moved, Stepped, F.Valid, Commanded;
      Accept(v);
      if v / 16 == 0 {
        Arrive(0, true, Flag(v, 8));
      } else if v / 16 == 1 {
        rwLen := 0;
        Arrive(data, true, Flag(v, 8));
      } else {
        StepHead(v);
      }
    }

    /** A READ-SECTORS, WRITE-SECTORS or READ-ADDRESS command. */
    method StartTransfer(v: byte)
      requires Ok() && 8 <= v / 16 <= 12 && Addressed(View(), v)
      modifies this, image
      ensures Ok() && View() == Commanded(old(View()), v)
      ensures var f := old(View());
              !f.status.busy && mounted && v / 16 < 12 ==>
                && status.busy && rwLen == (if Bit(v, 4) then 1024 * (6 - f.sector) else 1024)
                && ptr == FirstByte(SideFor(f, v), f.track, f.sector)
    {
      CommandValid(View(), v);
      if !status.busy && mounted && v / 16 < 12 { CommandStarts(View(), v); }
      hide Transfer, ReadAddress, Position, FirstByte, Bit, Length;
      line := Quiet;
      if status.busy { return; }
      status, cmd := IDLE, v;
      if v / 16 == 12 { BeginReadAddress(); } else { BeginTransfer(v); }
    }
  }

  lemma HeadCommands(f: Fdc, v: byte)
    requires !f.status.busy && v / 16 < 8 && Addressed(f, v)
    ensures var g := f.(status := IDLE, cmd := v, line := Quiet);
            Commanded(f, v) == if v / 16 == 0 then Moved(g, 0, true, Flag(v, 8))
                               else if v / 16 == 1 then Moved(g.(rwLen := 0), g.data, true, Flag(v, 8))
                               else Stepped(g, v)
  {
    hide Moved, Stepped;
  }
}
