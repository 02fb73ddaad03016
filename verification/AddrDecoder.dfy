/** The LoROM address decoder: which cell of which memory a bus address reaches. */
module AddrDecoder {
  import opened Bytes

  datatype MemType = ROM | SRAM | WRAM | PPU1_APU | PPU2_DMA | OLD_PAD | CART_SPECIFIC | OTHER

  datatype Address = Address(memType: MemType, decAddr: int)

  function Bank(addr: u32): u8 { Trunc8(addr / 0x1_0000) }

  function Offset(addr: u32): u16 { Trunc16(addr) }

  function TransSram(bank: u8, offset: u16): int {
    if 0x70 <= bank <= 0x7D then (bank - 0x70) * 0x8000 + offset
    else 0x70000 + (bank - 0xFE) * 0x8000 + offset
  }

  function TransWram(bank: u8, offset: u16): int {
    if bank <= 0x3F then offset else bank * 0x1_0000 + offset - 0x7E0000
  }

  function TransRom(bank: u8, offset: u16): int { (bank % 0x80) * 0x8000 + (offset - 0x8000) }

  function TransApu(offset: u16): int { offset - 0x2140 }

  function Decode(addr: u32): Address {
    var bank, offset := Bank(addr), Offset(addr);
    if bank <= 0x3F || 0x80 <= bank <= 0xBF then
      if offset <= 0x1FFF then Address(WRAM, TransWram(bank, offset))
      else if 0x2000 <= offset <= 0x20FF then Address(OTHER, addr)
      else if 0x2100 <= offset <= 0x213F then Address(OTHER, addr)
      else if 0x2140 <= offset <= 0x217F then Address(PPU1_APU, TransApu(offset))
      else if 0x2180 <= offset <= 0x2FFF then Address(OTHER, addr)
      else if 0x3000 <= offset <= 0x3FFF then Address(CART_SPECIFIC, addr)
      else if 0x4000 <= offset <= 0x40FF then Address(OLD_PAD, addr)
      else if 0x4100 <= offset <= 0x41FF then Address(OTHER, addr)
      else if 0x4200 <= offset <= 0x44FF then Address(PPU2_DMA, addr)
      else if 0x4500 <= offset <= 0x5FFF then Address(OTHER, addr)
      else if 0x6000 <= offset <= 0x7FFF then Address(CART_SPECIFIC, addr)
      else Address(ROM, TransRom(bank, offset))
    else if 0x40 <= bank <= 0x6F || 0xC0 <= bank <= 0xEF then Address(ROM, TransRom(bank, offset))
    else if 0x70 <= bank <= 0x7D || 0xF0 <= bank <= 0xFD then
      if offset <= 0x7FFF then Address(SRAM, TransSram(bank, offset)) else Address(ROM, TransRom(bank, offset))
    else if bank == 0x7E || bank == 0x7F then Address(WRAM, TransWram(bank, offset))
    else if offset <= 0x7FFF then Address(SRAM, TransSram(bank, offset))
    else Address(ROM, TransRom(bank, offset))
  }

  /** What the bus tells apart: the cells of the memories it serves, and everything it does not. */
  datatype Cell = RomCell(index: nat) | SramCell(index: nat) | WramCell(index: nat) | PortCell(index: nat) | Unmapped

  function CellOf(addr: u32): Cell {
    var a := Decode(addr);
    match a.memType
    case ROM => RomCell(a.decAddr)
    case SRAM => SramCell(a.decAddr)
    case WRAM => WramCell(a.decAddr)
    case PPU1_APU => PortCell(a.decAddr)
    case _ => Unmapped
  }

  const ROM_SIZE := 0x40_0000
  const SRAM_SIZE := 0x8_0000
  const WRAM_SIZE := 0x2_0000
  const LOW_PAGE := 0x2000

  /** The 24-bit address made of a bank and an offset. */
  function At(bank: u8, offset: u16): u32 { bank * 0x1_0000 + offset }

  lemma BankAt(bank: u8, offset: u16)
    ensures Bank(At(bank, offset)) == bank
  {
  }

  lemma OffsetAt(bank: u8, offset: u16)
    ensures Offset(At(bank, offset)) == offset
  {
  }

  /** The address in banks 80-FF at which ROM byte `i` appears. */
  function RomAddress(i: nat): u32
    requires i < ROM_SIZE
  {
    At(0x80 + i / 0x8000, 0x8000 + i % 0x8000)
  }

  /** Upper halves of banks 80-FF map one-to-one onto the 4 MiB of ROM. */
  lemma UpperHalvesOntoRom(bank: u8, offset: u16, i: nat)
    requires 0x80 <= bank && 0x8000 <= offset && i < ROM_SIZE
    ensures CellOf(RomAddress(i)) == RomCell(i)
    ensures var c := CellOf(At(bank, offset));
            c.RomCell? && c.index < ROM_SIZE && RomAddress(c.index) == At(bank, offset)
  {
    hide CellOf;
    RomByteAt(0x80 + i / 0x8000, 0x8000 + i % 0x8000);
    RomByteAt(bank, offset);
    HalfBanks(bank - 0x80, offset - 0x8000);
  }

  /** Splitting an index into 32 KiB pages. */
  lemma HalfBanks(page: nat, rest: nat)
    requires rest < 0x8000
    ensures (page * 0x8000 + rest) / 0x8000 == page && (page * 0x8000 + rest) % 0x8000 == rest
  {
  }

  lemma UpperBank(bank: u8)
    requires 0x80 <= bank
    ensures bank % 0x80 == bank - 0x80
  {
  }

  lemma RomByteAt(bank: u8, offset: u16)
    requires 0x80 <= bank && 0x8000 <= offset
    ensures CellOf(At(bank, offset)) == RomCell((bank - 0x80) * 0x8000 + (offset - 0x8000))
  {
    BankAt(bank, offset);
    OffsetAt(bank, offset);
    UpperBank(bank);
    hide Bank, Offset;
  }

  /** The address in banks F0-FF at which SRAM byte `i` appears. */
  function SramAddress(i: nat): u32
    requires i < SRAM_SIZE
  {
    At(0xF0 + i / 0x8000, i % 0x8000)
  }

  /** Lower halves of banks F0-FF map one-to-one onto the 512 KiB of SRAM. */
  lemma LowerHalvesOntoSram(bank: u8, offset: u16, i: nat)
    requires 0xF0 <= bank && offset < 0x8000 && i < SRAM_SIZE
    ensures CellOf(SramAddress(i)) == SramCell(i)
    ensures var c := CellOf(At(bank, offset));
            c.SramCell? && c.index < SRAM_SIZE && SramAddress(c.index) == At(bank, offset)
  {
    hide CellOf;
    SramByteAt(0xF0 + i / 0x8000, i % 0x8000);
    SramByteAt(bank, offset);
    HalfBanks(bank - 0xF0, offset);
  }

  lemma SramByteAt(bank: u8, offset: u16)
    requires 0xF0 <= bank && offset < 0x8000
    ensures CellOf(At(bank, offset)) == SramCell((bank - 0xF0) * 0x8000 + offset)
  {
    BankAt(bank, offset);
    OffsetAt(bank, offset);
    hide Bank, Offset;
  }

  /** Banks 00-7D mirror their bank + 80: upper halves everywhere, lower halves in the SRAM banks 70-7D. */
  lemma MirrorsUpperBanks(bank: u8, offset: u16)
    requires bank <= 0x7D && (0x8000 <= offset || 0x70 <= bank)
    ensures CellOf(At(bank, offset)) == CellOf(At(bank + 0x80, offset))
  {
    BankAt(bank, offset);
    OffsetAt(bank, offset);
    BankAt(bank + 0x80, offset);
    OffsetAt(bank + 0x80, offset);
  }

  /**
   The addresses of a WRAM byte, exactly: its place in banks 7E-7F and, for the first 8 KiB, the
   same offset in each of the banks 00-3F. The low pages of banks 80-BF are beyond the 128 KiB.
   */
  lemma WramAddresses(bank: u8, offset: u16, i: nat)
    requires i < WRAM_SIZE
    ensures CellOf(At(bank, offset)) == WramCell(i) <==>
              At(bank, offset) == 0x7E0000 + i || (bank <= 0x3F && offset == i && i < LOW_PAGE)
  {
    BankAt(bank, offset);
    OffsetAt(bank, offset);
  }
}
