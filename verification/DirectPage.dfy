/** Direct-page addresses are added without wrapping; the mirrored low pages hide the difference. */
module DirectPageMirror {
  import opened Bytes
  import opened AddrDecoder
  import opened BusMemory
  import opened CpuRegisters
  import opened CpuMachine
  import opened AddressingModes

  /** In banks 00-3F an address reaches the cell of its offset in bank 0 unless it runs into the ROM half. */
  lemma MirrorsBankZeroIff(addr: u32)
    requires addr < 0x40_0000
    ensures CellOf(addr) == CellOf(Trunc16(addr)) <==> addr < 0x1_0000 || Trunc16(addr) < 0x8000
  {
    hide CellOf;
    BankMirrorsIff(addr / 0x1_0000, addr % 0x1_0000);
  }

  lemma BankMirrorsIff(bank: u8, offset: u16)
    requires bank <= 0x3F
    ensures CellOf(At(bank, offset)) == CellOf(At(0, offset)) <==> bank == 0 || offset < 0x8000
  {
    BankAt(bank, offset);
    OffsetAt(bank, offset);
    BankAt(0, offset);
    OffsetAt(0, offset);
    hide Bank, Offset;
  }

  /** The same byte is read at both addresses, and a write has the same effect. */
  predicate SameCell(m: Memory, a: u32, b: u32, v: u8) {
    Read(m, a) == Read(m, b) && Write(m, a, v) == Write(m, b, v)
  }

  /** Direct page, plain and with an 8-bit index: as if the sum wrapped within bank 0. */
  lemma DirectPageWraps(m: Memory, r: Regs, index: Reg, addr: u8, v: u8)
    requires index.len == Eight
    ensures SameCell(m, DirectPage(r, addr).address, Trunc16(r.dp + addr), v)
    ensures SameCell(m, DirectPageIndexed(r, index, addr).address, Trunc16(r.dp + addr + index.Low()), v)
  {
    hide SameCell;
    WrapsBelow(m, r.dp + addr, v);
    WrapsBelow(m, r.dp + addr + index.Low(), v);
  }

  lemma WrapsBelow(m: Memory, addr: u32, v: u8)
    requires addr < 0x1_8000
    ensures SameCell(m, addr, Trunc16(addr), v)
  {
    hide CellOf, BusMemory.Read, BusMemory.Write;
    MirrorsBankZeroIff(addr);
    AliasesAgree(m, addr, Trunc16(addr), v);
  }

  /** With a 16-bit index this holds exactly when the sum stays in bank 0 or lands in a lower half. */
  lemma LongIndexWrapsIff(r: Regs, index: Reg, addr: u8)
    requires index.len == Sixteen
    ensures var sum := r.dp + addr + index.value;
            CellOf(DirectPageIndexed(r, index, addr).address) == CellOf(Trunc16(sum)) <==>
              sum < 0x1_0000 || Trunc16(sum) < 0x8000
  {
    hide CellOf;
    MirrorsBankZeroIff(r.dp + addr + index.value);
  }

  /** A pointer whose bytes are taken at `at` and the next addresses, each wrapped within bank 0. */
  function WrappedPointer(m: Memory, at: u32): u16 { Word(Read(m, Trunc16(at)), Read(m, Trunc16(at + 1))) }

  function WrappedLongPointer(m: Memory, at: u32): u32 {
    WrappedPointer(m, at) + 0x1_0000 * Read(m, Trunc16(at + 2))
  }

  /** The pointers of (d), (d),y and (d,x) with an 8-bit X wrap within bank 0, byte by byte. */
  lemma PointersWrap(s: Machine, addr: u8)
    ensures Pointer(s.m, addr + s.r.dp) == WrappedPointer(s.m, s.r.dp + addr)
    ensures s.r.x.len == Eight ==>
              Pointer(s.m, DirectPageXPointer(s.r, addr)) == WrappedPointer(s.m, s.r.dp + addr + s.r.x.Low())
  {
    hide CellOf, BusMemory.Read, BusMemory.Write;
    var at: u32 := s.r.dp + addr;
    WrapsBelow(s.m, at, 0);
    WrapsBelow(s.m, at + 1, 0);
    if s.r.x.len == Eight {
      WrapsBelow(s.m, at + s.r.x.Low(), 0);
      WrapsBelow(s.m, at + s.r.x.Low() + 1, 0);
    }
  }

  /** So do the three bytes of [d] and [d],y. */
  lemma LongPointersWrap(s: Machine, addr: u8)
    ensures LongPointer(s.m, addr + s.r.dp) == WrappedLongPointer(s.m, s.r.dp + addr)
  {
    hide CellOf, BusMemory.Read, BusMemory.Write;
    var at: u32 := s.r.dp + addr;
    WrapsBelow(s.m, at, 0);
    WrapsBelow(s.m, at + 1, 0);
    WrapsBelow(s.m, at + 2, 0);
  }

  /** And the stack-relative operand and the pointer of (sr,S),y. */
  lemma StackRelativeWraps(s: Machine, addr: u8, v: u8)
    ensures SameCell(s.m, addr + s.r.sp.value, Trunc16(s.r.sp.value + addr), v)
    ensures Pointer(s.m, addr + s.r.sp.value) == WrappedPointer(s.m, s.r.sp.value + addr)
  {
    hide CellOf, BusMemory.Read, BusMemory.Write;
    WrapsBelow(s.m, addr + s.r.sp.value, v);
    WrapsBelow(s.m, addr + s.r.sp.value + 1, 0);
  }
}
