/** Instructions that read an operand, change it and put it back: what is stored is fetched again. */
module ReadModifyWrite {
  import opened Bytes
  import opened AddrDecoder
  import opened BusMemory
  import opened CpuRegisters
  import opened CpuMachine
  import opened AddressingModes
  import opened Instructions

  /** The address reaches a byte of SRAM or WRAM that is there. */
  predicate IsRam(m: Memory, addr: u32) {
    var c := CellOf(addr);
    (c.SramCell? || c.WramCell?) && InRange(m, addr)
  }

  /** The accumulator, or one or two bytes of RAM. */
  predicate Writable(s: Machine, eff: Effective) {
    || eff.kind.AccumulatorOperand?
    || (!eff.kind.ImmediateData? && IsRam(s.m, eff.address) &&
        (s.r.acc.len == Sixteen ==> IsRam(s.m, Trunc32(eff.address + 1))))
  }

  function Data(s: Machine, eff: Effective): u16 { Fetch(s, eff, SizeOf(s.r.acc.len)) }

  lemma PageParts(page: u16, offset: u16)
    ensures Bank(page * 0x1_0000 + offset) == page % 0x100 && Offset(page * 0x1_0000 + offset) == offset
  {
  }

  lemma NextBank(page: nat)
    ensures (page + 1) % 0x100 == Trunc8(page % 0x100 + 1)
  {
  }

  /** The parts of the next address. */
  lemma NextParts(addr: u32)
    ensures var next := Trunc32(addr + 1);
            if Offset(addr) < 0xFFFF then Bank(next) == Bank(addr) && Offset(next) == Offset(addr) + 1
            else Bank(next) == Trunc8(Bank(addr) + 1) && Offset(next) == 0
  {
    var page: u16, offset: u16 := addr / 0x1_0000, addr % 0x1_0000;
    PageParts(page, offset);
    hide Bank, Offset, Trunc8;
    if offset < 0xFFFF {
      PageParts(page, offset + 1);
    } else if page < 0xFFFF {
      PageParts(page + 1, 0);
      NextBank(page);
    } else {
      PageParts(0, 0);
      NextBank(page);
    }
  }

  /** The two bytes of a word never share a cell. */
  lemma NeighboursDiffer(addr: u32)
    requires var c := CellOf(addr); c.SramCell? || c.WramCell?
    ensures CellOf(Trunc32(addr + 1)) != CellOf(addr)
  {
    NextParts(addr);
    hide Bank, Offset;
  }

  lemma RamReadsBack(m: Memory, addr: u32, v: u8, other: u32)
    requires IsRam(m, addr)
    ensures var m' := Write(m, addr, v);
            && Read(m', addr) == v && (CellOf(other) != CellOf(addr) ==> Read(m', other) == Read(m, other))
            && IsRam(m', addr) && (IsRam(m, other) ==> IsRam(m', other))
            && (v == Read(m, addr) ==> m' == m)
  {
    hide CellOf;
  }

  /** A datum as the accumulator's width sees it. */
  function Cut(len: Width, v: u16): u16 { if len == Eight then Low(v) else v }

  /** From `s` to `t` the operand became `data`, cut to the accumulator's width; N and Z describe it. */
  predicate Replaced(s: Machine, t: Machine, eff: Effective, data: u16) {
    && t.r.acc.len == s.r.acc.len && Writable(t, eff)
    && Data(t, eff) == Cut(s.r.acc.len, data)
    && t.r.p.z == (Data(t, eff) == 0) && t.r.p.n == Top(s.r.acc.len, Data(t, eff))
    && (Cut(s.r.acc.len, data) == Data(s, eff) ==> t.m == s.m && t.r.acc == s.r.acc)
  }

  lemma ParsedWord(v: u16)
    ensures Word(Low(v), High(v)) == v
  {
  }

  lemma SignBits(v: u16)
    ensures (Signed16(v) < 0) == Top(Sixteen, v)
    ensures v < 0x100 ==> (Signed8(v) < 0) == Top(Eight, v)
  {
  }

  lemma StoredByte(s: Machine, eff: Effective, data: u16)
    requires Writable(s, eff) && !eff.kind.AccumulatorOperand? && s.r.acc.len == Eight
    ensures Replaced(s, StoreData(s, eff, data, 1), eff, data)
  {
    hide CellOf, BusMemory.Read, BusMemory.Write, IsRam, Low, Top, Signed8;
    RamReadsBack(s.m, eff.address, Low(data), eff.address);
    SignBits(Low(data));
  }

  /** A word written over two neighbouring cells of RAM. */
  lemma WordReadsBack(m: Memory, a: u32, b: u32, data: u16)
    requires IsRam(m, a) && IsRam(m, b) && CellOf(a) != CellOf(b)
    ensures var m' := Write(Write(m, a, Low(data)), b, High(data));
            && Word(Read(m', a), Read(m', b)) == data && IsRam(m', a) && IsRam(m', b)
            && (data == Word(Read(m, a), Read(m, b)) ==> m' == m)
  {
    hide CellOf, BusMemory.Read, BusMemory.Write, IsRam, Low, High, Word;
    RamReadsBack(m, a, Low(data), b);
    RamReadsBack(Write(m, a, Low(data)), b, High(data), a);
    ParsedWord(data);
    WordParts(Read(m, a), Read(m, b));
  }

  lemma StoredWord(s: Machine, eff: Effective, data: u16)
    requires Writable(s, eff) && !eff.kind.AccumulatorOperand? && s.r.acc.len == Sixteen
    ensures Replaced(s, StoreData(s, eff, data, 2), eff, data)
  {
    hide CellOf, BusMemory.Read, BusMemory.Write, IsRam, Low, High, Word, Top, Signed8, Signed16;
    var a, b := eff.address, Trunc32(eff.address + 1);
    RamIsCell(s.m, a);
    NeighboursDiffer(a);
    WordReadsBack(s.m, a, b, data);
    SignBits(data);
  }

  lemma RamIsCell(m: Memory, addr: u32)
    requires IsRam(m, addr)
    ensures CellOf(addr).SramCell? || CellOf(addr).WramCell?
  {
  }

  lemma StoredInAccumulator(s: Machine, eff: Effective, data: u16)
    requires eff.kind.AccumulatorOperand?
    ensures Replaced(s, StoreData(s, eff, data, SizeOf(s.r.acc.len)), eff, data)
  {
    if s.r.acc.len == Eight {
      WordParts(Low(data), s.r.acc.High());
    }
  }

  /** What `store_data` puts away `fetch_data` gets back, in a register or in RAM, at either width. */
  lemma StoredIsFetched(s: Machine, eff: Effective, data: u16)
    requires Writable(s, eff)
    ensures Replaced(s, StoreData(s, eff, data, SizeOf(s.r.acc.len)), eff, data)
  {
    hide StoreData, Replaced;
    if eff.kind.AccumulatorOperand? {
      StoredInAccumulator(s, eff, data);
    } else if s.r.acc.len == Eight {
      StoredByte(s, eff, data);
    } else {
      StoredWord(s, eff, data);
    }
  }

  /** LSR halves the operand and keeps the bit that falls off in C. */
  lemma LsrMeaning(s: Machine, eff: Effective)
    requires Writable(s, eff)
    ensures var t := Lsr(s, eff); Data(s, eff) == 2 * Data(t, eff) + CarryIn(t.r) && !t.r.p.n
  {
    hide StoreData, Fetch, Writable;
    DataFits(s, eff);
    var x := Data(s, eff);
    StoredIsFetched(s, eff, x / 2);
    DataIgnoresCarry(StoreData(s, eff, x / 2, SizeOf(s.r.acc.len)), eff, x % 2 == 1);
  }

  lemma DataFits(s: Machine, eff: Effective)
    requires Writable(s, eff)
    ensures Data(s, eff) == Cut(s.r.acc.len, Data(s, eff))
  {
    hide BusMemory.Read, CellOf;
  }

  lemma DataIgnoresCarry(s: Machine, eff: Effective, c: bool)
    ensures Data(s.WithRegs(s.r.PutC(c)), eff) == Data(s, eff)
  {
  }

  lemma LastWriteWins(m: Memory, a: u32, v: u8, w: u8)
    ensures Write(Write(m, a, v), a, w) == Write(m, a, w)
  {
    hide CellOf;
  }

  lemma WritesCommute(m: Memory, a: u32, b: u32, v: u8, w: u8)
    requires CellOf(a) != CellOf(b)
    ensures Write(Write(m, a, v), b, w) == Write(Write(m, b, w), a, v)
  {
    hide CellOf;
  }

  /** Memory and accumulator are the same. */
  predicate SameStored(t: Machine, u: Machine) { t.m == u.m && t.r.acc == u.r.acc }

  lemma AccumulatorOverwrites(s: Machine, eff: Effective, data: u16, later: u16)
    requires eff.kind.AccumulatorOperand?
    ensures var size := SizeOf(s.r.acc.len);
            SameStored(StoreData(StoreData(s, eff, data, size), eff, later, size), StoreData(s, eff, later, size))
  {
    if s.r.acc.len == Eight {
      WordParts(Low(data), s.r.acc.High());
    }
    hide Low, Word, Signed8, Signed16;
  }

  lemma ByteOverwrites(s: Machine, eff: Effective, data: u16, later: u16)
    requires !eff.kind.AccumulatorOperand?
    ensures SameStored(StoreData(StoreData(s, eff, data, 1), eff, later, 1), StoreData(s, eff, later, 1))
  {
    hide CellOf, BusMemory.Write, Low, Signed8;
    LastWriteWins(s.m, eff.address, Low(data), Low(later));
  }

  lemma WordOverwrites(s: Machine, eff: Effective, data: u16, later: u16)
    requires !eff.kind.AccumulatorOperand? && IsRam(s.m, eff.address)
    ensures SameStored(StoreData(StoreData(s, eff, data, 2), eff, later, 2), StoreData(s, eff, later, 2))
  {
    hide CellOf, BusMemory.Write, IsRam, Low, High, Signed8, Signed16;
    var a, b := eff.address, Trunc32(eff.address + 1);
    RamIsCell(s.m, a);
    NeighboursDiffer(a);
    LastWriteWins(s.m, a, Low(data), Low(later));
    WritesCommute(Write(s.m, a, Low(data)), a, b, Low(later), High(data));
    LastWriteWins(Write(s.m, a, Low(later)), b, High(data), High(later));
  }

  /** Of two stores to one operand the second alone counts. */
  lemma StoreOverwrites(s: Machine, eff: Effective, data: u16, later: u16)
    requires Writable(s, eff)
    ensures var size := SizeOf(s.r.acc.len);
            SameStored(StoreData(StoreData(s, eff, data, size), eff, later, size), StoreData(s, eff, later, size))
  {
    hide StoreData, IsRam, SameStored;
    if eff.kind.AccumulatorOperand? {
      AccumulatorOverwrites(s, eff, data, later);
    } else if s.r.acc.len == Eight {
      ByteOverwrites(s, eff, data, later);
    } else {
      WordOverwrites(s, eff, data, later);
    }
  }

  lemma LowOfTrunc(v: int)
    ensures Low(Trunc16(v)) == Trunc8(v)
  {
  }

  lemma Back8(x: u8, delta: int)
    ensures Trunc8(Trunc8(x + delta) - delta) == x
  {
    var q := (x + delta) / 0x100;
    assert Trunc8(x + delta) - delta == x - 0x100 * q;
  }

  lemma Back16(x: u16, delta: int)
    ensures Trunc16(Trunc16(x + delta) - delta) == x
  {
    var q := (x + delta) / 0x1_0000;
    assert Trunc16(x + delta) - delta == x - 0x1_0000 * q;
  }

  lemma CutBack(len: Width, x: u16, delta: int)
    requires x == Cut(len, x)
    ensures Cut(len, Trunc16(Cut(len, Trunc16(x + delta)) - delta)) == x
  {
    if len == Eight {
      assert x < 0x100;
      hide Low, Trunc8, Trunc16;
      LowOfTrunc(x + delta);
      LowOfTrunc(Trunc8(x + delta) - delta);
      Back8(x, delta);
    } else {
      Back16(x, delta);
    }
  }

  /** DEC undoes INC and INC undoes DEC: operand, memory and accumulator are what they were. */
  lemma IncDecCancel(s: Machine, eff: Effective, delta: int)
    requires Writable(s, eff)
    ensures var t := IncDec(IncDec(s, eff, delta), eff, -delta);
            Data(t, eff) == Data(s, eff) && t.m == s.m && t.r.acc == s.r.acc
  {
    hide StoreData, Fetch, Writable, Cut, Trunc16;
    var x, size := Data(s, eff), SizeOf(s.r.acc.len);
    DataFits(s, eff);
    var up := Trunc16(x + delta);
    StoredIsFetched(s, eff, up);
    var s1 := StoreData(s, eff, up, size);
    var back := Trunc16(Data(s1, eff) - delta);
    StoredIsFetched(s1, eff, back);
    StoreOverwrites(s, eff, up, back);
    CutBack(s.r.acc.len, x, delta);
    StoredIsFetched(s, eff, back);
  }

  /** XBA twice is the identity on the accumulator, and one XBA exchanges its halves. */
  lemma XbaExchanges(r: Regs)
    ensures Xba(r).acc.Low() == r.acc.High() && Xba(r).acc.High() == r.acc.Low()
    ensures Xba(Xba(r)).acc == r.acc
    ensures Xba(r).p.z == (r.acc.High() == 0) && Xba(r).p.n == (r.acc.High() >= 0x80)
  {
    WordParts(r.acc.High(), r.acc.Low());
    ParsedWord(r.acc.value);
  }

  // ---- what the other instructions on memory compute

  /** ASL as written: the operand doubled, its old low bit in C. */
  lemma AslMeaning(s: Machine, eff: Effective)
    requires Writable(s, eff)
    ensures var t := Asl(s, eff);
            Data(t, eff) == Cut(s.r.acc.len, Trunc16(2 * Data(s, eff))) && t.r.p.c == (Data(s, eff) % 2 == 1)
  {
    hide StoreData, Fetch, Writable, Cut;
    var x: int := Data(s, eff);
    var doubled := Trunc16(2 * x);
    StoredIsFetched(s, eff, doubled);
    DataIgnoresCarry(StoreData(s, eff, doubled, SizeOf(s.r.acc.len)), eff, x % 2 == 1);
  }

  /** STA, STX and STY: the register's one or two bytes lie in memory, little-endian. */
  lemma StoreRegMeaning(s: Machine, reg: Reg, eff: Effective)
    requires IsRam(s.m, eff.address) && (reg.len == Sixteen ==> IsRam(s.m, Trunc32(eff.address + 1)))
    ensures var t := StoreReg(s, reg, eff);
            && t.r == s.r && t.Load(eff.address) == reg.Low()
            && (reg.len == Sixteen ==> ReadWord(t.m, eff.address) == reg.value)
  {
    hide CellOf, BusMemory.Read, BusMemory.Write, IsRam, Low, High, Word;
    RamReadsBack(s.m, eff.address, reg.Low(), eff.address);
    if reg.len == Sixteen {
      RamIsCell(s.m, eff.address);
      NeighboursDiffer(eff.address);
      WordReadsBack(s.m, eff.address, Trunc32(eff.address + 1), reg.value);
      var t := StoreReg(s, reg, eff);
      WordParts(t.Load(eff.address), t.Load(Trunc32(eff.address + 1)));
    }
  }

  /** STZ: a zero byte, or a zero word in native mode with M clear. */
  lemma StzMeaning(s: Machine, eff: Effective)
    requires IsRam(s.m, eff.address) && IsRam(s.m, Trunc32(eff.address + 1))
    ensures var t := Stz(s, eff); var wide := !s.r.emulation && !s.r.p.m;
            && t.r == s.r && t.Load(eff.address) == 0
            && t.Load(Trunc32(eff.address + 1)) == (if wide then 0 else s.Load(Trunc32(eff.address + 1)))
  {
    hide CellOf, BusMemory.Read, BusMemory.Write, IsRam;
    var a, b := eff.address, Trunc32(eff.address + 1);
    RamIsCell(s.m, a);
    NeighboursDiffer(a);
    RamReadsBack(s.m, a, 0, b);
    RamReadsBack(Write(s.m, a, 0), b, 0, a);
  }
}
