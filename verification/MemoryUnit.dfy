/** class Memory of libs/v6core/src/memory.cpp: RAM in place, the write log, and the RAM-disk control ports. */
module MemoryUnit {
  import opened Bytes
  import opened Memory
  import Cpu

  /** Translation stays in range, keeps the low sixteen bits and is injective in each space. */
  lemma TranslationLaws(m: Mapping, disk: Disk, a: word, b: word, space: Space)
    ensures GlobalAddr(m, disk, a, space) < GLOBAL_LEN
    ensures GlobalAddr(m, disk, a, space) % PAGE_LEN == a
    ensures GlobalAddr(m, disk, a, space) == GlobalAddr(m, disk, b, space) ==> a == b
    ensures var page := GlobalAddr(m, disk, a, space) / PAGE_LEN; page == 0 || 4 * disk < page <= 4 * disk + 4
  {
    PageOf(m, disk, a, space);
    PageOf(m, disk, b, space);
  }

  lemma PageOf(m: Mapping, disk: Disk, a: word, space: Space)
    ensures exists page: nat :: (page == 0 || 4 * disk < page <= 4 * disk + 4)
                                && GlobalAddr(m, disk, a, space) == PAGE_LEN * page + a
  {
    if !m.Enabled() { assert GlobalAddr(m, disk, a, space) == PAGE_LEN * 0 + a; }
    else if m.modeStack && space == Stack {
      var page := m.pageStack + 1 + disk * 4;
      assert GlobalAddr(m, disk, a, space) == PAGE_LEN * page + a;
    } else if InWindow(m, a) {
      var page := m.pageRam + 1 + disk * 4;
      assert GlobalAddr(m, disk, a, space) == PAGE_LEN * page + a;
    } else { assert GlobalAddr(m, disk, a, space) == PAGE_LEN * 0 + a; }
  }

  // ---- The mapping rule by the bits of the control byte E8ASssMM ---------------

  /** The page an access goes to: 0 is main memory, RAM disk d has pages 4 d + 1 to 4 d + 4. */
  function PageFor(control: byte, disk: Disk, a: word, space: Space): (page: nat)
  {
    var eighth := a / 0x2000;
    if space == Stack && Bit(control, 4) then 1 + 4 * disk + (if Bit(control, 3) then 2 else 0) + (if Bit(control, 2) then 1 else 0)
    else if (Bit(control, 6) && eighth == 4) || (Bit(control, 5) && (eighth == 5 || eighth == 6)) || (Bit(control, 7) && eighth == 7) then
      1 + 4 * disk + (if Bit(control, 1) then 2 else 0) + (if Bit(control, 0) then 1 else 0)
    else 0
  }

  lemma ControlFields(control: byte)
    ensures var m := MappingOf(control);
            && m.modeStack == Bit(control, 4) && m.modeRamA == Bit(control, 5)
            && m.modeRam8 == Bit(control, 6) && m.modeRamE == Bit(control, 7)
            && m.pageStack == (if Bit(control, 3) then 2 else 0) + (if Bit(control, 2) then 1 else 0)
            && m.pageRam == (if Bit(control, 1) then 2 else 0) + (if Bit(control, 0) then 1 else 0)
  {
    hide Bit;
    ByteBits(control);
    TwoBits(control);
    TwoBits(control / 4);
  }

  lemma TwoBits(n: nat)
    ensures n % 4 == (if n / 2 % 2 == 1 then 2 else 0) + (if n % 2 == 1 then 1 else 0)
  {
  }

  /** For every control byte, disk, address and space: the translation is the address in that page, a stack access with
      bit 4 set going to the page of bits 2 and 3, the window of bit 6 being 8000-9FFF, of bit 5 A000-DFFF and of bit 7
      E000-FFFF, with the page of bits 0 and 1. */
  lemma MappingRule(control: byte, disk: Disk, a: word, space: Space)
    ensures GlobalAddr(MappingOf(control), disk, a, space) == 0x1_0000 * PageFor(control, disk, a, space) + a
  {
    ControlFields(control);
    hide Bit, MappingOf;
  }

  /** A control byte enables its disk exactly when one of the bits 4 to 7 is set. */
  lemma OnMeans(control: byte)
    ensures On(control) <==> Bit(control, 4) || Bit(control, 5) || Bit(control, 6) || Bit(control, 7)
  {
    ControlFields(control);
    hide Bit, MappingOf;
  }

  /** The byte behind an access: of the ROM when it is on and the global address is inside it, else of RAM. */
  function ByteAt(ram: Ram, rom: seq<byte>, romOn: bool, g: nat): (v: byte)
    requires g < 0x21_0000
  {
    if romOn && g < |rom| then rom[g] else ram[g]
  }

  lemma PageBound(control: byte, disk: Disk, a: word, space: Space)
    ensures 0x1_0000 * PageFor(control, disk, a, space) + a < 0x21_0000
  {
    hide Bit;
  }

  /** What the CPU model reads and writes, by the control byte in force. */
  lemma AccessMeans(m: Mem, control: byte, a: word, space: Space, v: byte)
    requires m.mapping == MappingOf(control)
    ensures var g := 0x1_0000 * PageFor(control, m.disk, a, space) + a;
            && g < 0x21_0000
            && Read(m, a, space) == ByteAt(m.ram, m.rom, m.romOn, g)
            && Memory.Write(m, a, v, space) == m.(ram := m.ram[g := v])
  {
    MappingRule(control, m.disk, a, space);
    PageBound(control, m.disk, a, space);
    hide PageFor, GlobalAddr;
  }

  predicate On(data: byte) { MappingOf(data).Enabled() }

  /** The lowest-numbered disk at or after `from` with mapping enabled, or the number of disks. */
  function FirstOn(ms: seq<byte>, from: nat): (k: nat)
    requires from <= |ms|
    ensures from <= k <= |ms|
    ensures k < |ms| ==> On(ms[k])
    ensures forall j :: from <= j < k ==> !On(ms[j])
    decreases |ms| - from
  {
    if from == |ms| || On(ms[from]) then from else FirstOn(ms, from + 1)
  }

  class Unit {
    const ram: array<byte>
    var rom: seq<byte>
    var romOn: bool
    var mapping: Mapping
    var disk: Disk
    const mappings: array<byte>
    var mappingsEnabled: nat
    var log: Cpu.WriteLog

    constructor (ram: array<byte>, mappings: array<byte>, rom: seq<byte>)
      requires ram.Length == GLOBAL_LEN && mappings.Length == RAM_DISK_MAX && ram != mappings
      ensures Valid() && this.ram == ram && this.mappings == mappings && mappingsEnabled == 0
      ensures View() == Mem(ram[..], rom, true, MappingOf(0), 0) && log.len == 0
    {
      this.ram, this.mappings, this.rom, romOn := ram, mappings, rom, true;
      mapping, disk, mappingsEnabled := MappingOf(0), 0, 0;
      log := Cpu.WriteLog(Cpu.Entry(0, 0, 0), Cpu.Entry(0, 0, 0), 0);
    }

    ghost predicate Valid()
      reads this
    {
      ram.Length == GLOBAL_LEN && mappings.Length == RAM_DISK_MAX && ram != mappings
    }

    /** The value the CPU model works on. */
    ghost function View(): (m: Mem)
      requires Valid()
      reads this, ram
    {
      Mem(ram[..], rom, romOn, mapping, disk)
    }

    method CpuRead(addr: word, space: Space) returns (v: byte)
      requires Valid()
      ensures v == Read(View(), addr, space)
      ensures forall control: byte :: mapping == MappingOf(control) ==>
                var g := 0x1_0000 * PageFor(control, disk, addr, space) + addr;
                g < 0x21_0000 && v == ByteAt(ram[..], rom, romOn, g)
    {
      forall control: byte | mapping == MappingOf(control)
        ensures var g := 0x1_0000 * PageFor(control, disk, addr, space) + addr;
                g < 0x21_0000 && Read(View(), addr, space) == ByteAt(ram[..], rom, romOn, g)
      {
        AccessMeans(View(), control, addr, space, 0);
      }
      hide PageFor, MappingOf;
      var g := GlobalAddr(mapping, disk, addr, space);
      v := if romOn && g < |rom| then rom[g] else ram[g];
    }

    method CpuWrite(addr: word, v: byte, space: Space, byteNum: nat)
      requires Valid() && byteNum < 2
      modifies ram, `log
      ensures Valid() && View() == Memory.Write(old(View()), addr, v, space)
      ensures var g := Translate(old(View()), addr, space);
              log == Cpu.LogWrite(old(log), byteNum, Cpu.Entry(g, old(View()).ram[g], v))
      ensures forall control: byte :: mapping == MappingOf(control) ==>
                var g := 0x1_0000 * PageFor(control, disk, addr, space) + addr;
                && g < 0x21_0000 && ram[..] == old(ram[..])[g := v]
                && (if byteNum == 0 then log.slot0 else log.slot1) == Cpu.Entry(g, old(ram[..])[g], v) && log.len == byteNum + 1
    {
      forall control: byte | mapping == MappingOf(control)
        ensures 0x1_0000 * PageFor(control, disk, addr, space) + addr == GlobalAddr(mapping, disk, addr, space)
      {
        MappingRule(control, disk, addr, space);
      }
      hide PageFor, MappingOf, GlobalAddr;
      var g := GlobalAddr(mapping, disk, addr, space);
      var entry := Cpu.Entry(g, ram[g], v);
      if byteNum == 0 {
        log := log.(slot0 := entry, len := 1);
      } else {
        log := log.(slot1 := entry, len := 2);
      }
      ram[g] := v;
      assert ram[..] == old(ram[..])[g := v];
    }

    /** A RAM-disk port write: the first enabled disk drives the mapping; a second enabled one is a collision. */
    method SetRamDiskMode(diskIdx: Disk, data: byte)
      requires Valid()
      modifies mappings, `mapping, `disk, `mappingsEnabled
      ensures Valid()
      ensures mappings[..] == old(mappings[..])[diskIdx := data]
      ensures var ms := mappings[..];
              var k := FirstOn(ms, 0);
              && mapping == MappingOf(if k < |ms| then ms[k] else 0)
              && disk == (if k < |ms| then k else old(disk))
              && mappingsEnabled == (if k == |ms| then 0 else if FirstOn(ms, k + 1) == |ms| then 1 else 2)
    {
      mappings[diskIdx] := data;
      ghost var ms := mappings[..];
      assert ms == old(mappings[..])[diskIdx := data];
      mapping := MappingOf(0);
      mappingsEnabled := 0;
      var i := 0;
      while i < RAM_DISK_MAX
        invariant 0 <= i <= RAM_DISK_MAX && mappings[..] == ms && Valid()
        invariant mappingsEnabled <= 1
        invariant mappingsEnabled == 0 ==> FirstOn(ms, 0) == FirstOn(ms, i) && mapping == MappingOf(0) && disk == old(disk)
        invariant mappingsEnabled == 1 ==> disk == FirstOn(ms, 0) < i && mapping == MappingOf(ms[disk])
        invariant mappingsEnabled == 1 ==> FirstOn(ms, FirstOn(ms, 0) + 1) == FirstOn(ms, i)
      {
        if On(mappings[i]) {
          mappingsEnabled := mappingsEnabled + 1;
          if mappingsEnabled > 1 { break; }
          mapping := MappingOf(mappings[i]);
          disk := i;
        }
        i := i + 1;
      }
    }

    /** Reports a collision once. */
    method IsException() returns (collision: bool)
      modifies `mappingsEnabled
      ensures collision == (old(mappingsEnabled) > 1) && mappingsEnabled == 0
    {
      collision := mappingsEnabled > 1;
      mappingsEnabled := 0;
    }
  }
}
