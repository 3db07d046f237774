/** Main memory, the RAM-disk pages behind it and the address translation between the two
    (libs/v6core/src/memory.cpp). */
module Memory {
  import opened Bytes

  const PAGE_LEN := 0x1_0000
  const RAM_DISK_MAX := 8
  const GLOBAL_LEN := 33 * PAGE_LEN

  datatype Space = Data | Stack

  type Page = n: nat | n < 4

  /** The RAM-disk control byte E8ASssMM as its bit fields. */
  datatype Mapping = Mapping(
    pageRam: Page, pageStack: Page, modeStack: bool, modeRamA: bool, modeRam8: bool, modeRamE: bool)
  {
    predicate Enabled() { modeStack || modeRamA || modeRam8 || modeRamE }
  }

  function MappingOf(data: byte): (m: Mapping)
  {
    Mapping(data % 4, data / 4 % 4, data / 0x10 % 2 == 1, data / 0x20 % 2 == 1, data / 0x40 % 2 == 1, data / 0x80 == 1)
  }

  type Ram = s: seq<byte> | |s| == GLOBAL_LEN ghost witness seq(GLOBAL_LEN, _ => 0)

  type Disk = n: nat | n < RAM_DISK_MAX

  /** Memory as the CPU sees it: `mapping` is the active mapping, of RAM disk number `disk`. */
  datatype Mem = Mem(ram: Ram, rom: seq<byte>, romOn: bool, mapping: Mapping, disk: Disk)

  predicate InWindow(m: Mapping, addr: word)
  {
    || (m.modeRamA && 0xA000 <= addr < 0xE000)
    || (m.modeRam8 && 0x8000 <= addr < 0xA000)
    || (m.modeRamE && 0xE000 <= addr)
  }

  function GlobalAddr(m: Mapping, disk: Disk, addr: word, space: Space): (g: nat)
    ensures g < GLOBAL_LEN
  {
    if !m.Enabled() then addr
    else if m.modeStack && space == Stack then addr + (m.pageStack + 1 + disk * 4) * PAGE_LEN
    else if InWindow(m, addr) then addr + (m.pageRam + 1 + disk * 4) * PAGE_LEN
    else addr
  }

  function Translate(m: Mem, addr: word, space: Space): (g: nat)
    ensures g < GLOBAL_LEN
  {
    GlobalAddr(m.mapping, m.disk, addr, space)
  }

  /** The byte the CPU reads: the boot ROM shadows the low global addresses while it is on. */
  function Read(m: Mem, addr: word, space: Space): (v: byte)
  {
    var g := Translate(m, addr, space);
    if m.romOn && g < |m.rom| then m.rom[g] else m.ram[g]
  }

  /** Writes always reach RAM, also under the ROM. */
  function Write(m: Mem, addr: word, v: byte, space: Space): (m': Mem)
  {
    m.(ram := m.ram[Translate(m, addr, space) := v])
  }

  /** The CPU address behind a global address. */
  function Low16(g: nat): (a: word) { g % PAGE_LEN }

  lemma TranslateKeepsLow16(m: Mem, addr: word, space: Space)
    ensures Low16(Translate(m, addr, space)) == addr
  {
    var g := Translate(m, addr, space);
    if g != addr {
      var page := (if m.mapping.modeStack && space == Stack then m.mapping.pageStack else m.mapping.pageRam) + 1 + m.disk * 4;
      assert g == PAGE_LEN * page + addr;
    }
  }
}
