/** The addressing modes: from an operand to what the instruction works on. */
module AddressingModes {
  import opened Bytes
  import opened BusMemory
  import opened CpuRegisters
  import opened CpuMachine
  import opened Opcodes

  /** A block move's destination shares its place with the simple address. */
  datatype AddressKind =
    | SimpleAddress | BlockMoveAddress(source: u32, count: u16) | StackAddress | ImmediateData | AccumulatorOperand

  datatype Effective = Effective(kind: AddressKind, address: u32)

  predicate TransfersControl(mne: Mnemonic) { mne == JMP || mne == JSR }

  function Simple(address: int): Effective { Effective(SimpleAddress, Trunc32(address)) }

  function Stacked(address: int): Effective { Effective(StackAddress, Trunc32(address)) }

  /** Pointer reads: two or three bytes from successive addresses. */
  function Pointer(m: Memory, addr: u32): u16 { Word(Read(m, addr), Read(m, Trunc32(addr + 1))) }

  function LongPointer(m: Memory, addr: u32): u32 {
    Pointer(m, addr) + 0x1_0000 * Read(m, Trunc32(addr + 2))
  }

  function Absolute(r: Regs, mne: Mnemonic, addr: u16): Effective {
    Simple(addr + if TransfersControl(mne) then r.ProgramBank() else r.DataBank())
  }

  function AbsoluteIndexed(r: Regs, index: Reg, addr: u16): Effective {
    Simple(addr + r.DataBank() + index.Visible())
  }

  function AbsoluteIndexedIndirect(s: Machine, addr: u16): Effective {
    Simple(s.r.ProgramBank() + Pointer(s.m, Trunc32(addr + s.r.x.Visible() + s.r.ProgramBank())))
  }

  function AbsoluteIndirect(s: Machine, addr: u16): Effective { Simple(s.r.ProgramBank() + Pointer(s.m, addr)) }

  /** The C adds the pointer to a local it never initialised: `junk` is what that local held. */
  function AbsoluteIndirectLong(s: Machine, addr: u16, junk: u32): Effective {
    Simple(junk + LongPointer(s.m, addr))
  }

  function AbsoluteLongIndexed(r: Regs, addr: u32): Effective { Simple(addr + r.x.Visible()) }

  function DirectPage(r: Regs, addr: u8): Effective { Simple(addr + r.dp) }

  function DirectPageIndexed(r: Regs, index: Reg, addr: u8): Effective {
    Simple(addr + r.dp + index.Visible())
  }

  /** Where the pointer of the (d,x) mode lies. */
  function DirectPageXPointer(r: Regs, addr: u8): u32 { r.dp + r.x.Visible() + addr }

  function DirectPageIndexedIndirect(s: Machine, addr: u8): Effective {
    Simple(s.r.DataBank() + Pointer(s.m, DirectPageXPointer(s.r, addr)))
  }

  function DirectPageIndirect(s: Machine, addr: u8): Effective {
    Simple(s.r.DataBank() + Pointer(s.m, addr + s.r.dp))
  }

  function DirectPageIndirectLong(s: Machine, addr: u8, junk: u32): Effective {
    Simple(junk + LongPointer(s.m, addr + s.r.dp))
  }

  function DirectPageIndirectIndexed(s: Machine, addr: u8): Effective {
    Simple(s.r.DataBank() + Pointer(s.m, addr + s.r.dp) + s.r.y.Visible())
  }

  function DirectPageIndirectLongIndexed(s: Machine, addr: u8): Effective {
    Simple(s.r.DataBank() + LongPointer(s.m, addr + s.r.dp) + s.r.y.Visible())
  }

  function Relative(r: Regs, addr: u8): Effective { Simple(r.pc + r.ProgramBank() + Signed8(addr)) }

  function RelativeLong(r: Regs, addr: u16): Effective { Simple(r.pc + r.ProgramBank() + Signed16(addr)) }

  function StackRelativeIndexed(s: Machine, addr: u8): Effective {
    Stacked(s.r.DataBank() + Pointer(s.m, addr + s.r.sp.value) + s.r.y.Visible())
  }

  function BlockMoveOf(r: Regs): Effective {
    Effective(BlockMoveAddress(r.x.Visible(), Trunc16(r.acc.value + 1)), r.y.Visible())
  }

  /** The modes that read a pointer from memory. */
  predicate IsIndirect(mode: Mode) {
    match mode
    case AbsoluteIndexedIndirect | AbsoluteIndirect | AbsoluteIndirectLong | DirectPageIndexedIndirectX
         | DirectPageIndirect | DirectPageIndirectLong | DirectPageIndirectIndexedY
         | DirectPageIndirectLongIndexedY | StackDirectPageIndirect | StackRelativeIndirectIndexedY => true
    case _ => false
  }

  function ResolveIndirect(s: Machine, mode: Mode, operand: u32, junk: u32): Effective {
    var word, byte := Trunc16(operand), Trunc8(operand);
    match mode
    case AbsoluteIndexedIndirect => AbsoluteIndexedIndirect(s, word)
    case AbsoluteIndirect => AbsoluteIndirect(s, word)
    case AbsoluteIndirectLong => AbsoluteIndirectLong(s, word, junk)
    case DirectPageIndexedIndirectX => DirectPageIndexedIndirect(s, byte)
    case DirectPageIndirect => DirectPageIndirect(s, byte)
    case DirectPageIndirectLong => DirectPageIndirectLong(s, byte, junk)
    case DirectPageIndirectIndexedY => DirectPageIndirectIndexed(s, byte)
    case DirectPageIndirectLongIndexedY => DirectPageIndirectLongIndexed(s, byte)
    case StackDirectPageIndirect => DirectPageIndirect(s, byte).(kind := StackAddress)
    case _ => StackRelativeIndexed(s, byte)
  }

  /** The others add up registers and the operand. */
  function ResolveDirect(r: Regs, mne: Mnemonic, mode: Mode, operand: u32, junk: u32): Effective {
    var word, byte := Trunc16(operand), Trunc8(operand);
    match mode
    case Absolute => Absolute(r, mne, word)
    case AbsoluteIndexedX => AbsoluteIndexed(r, r.x, word)
    case AbsoluteIndexedY => AbsoluteIndexed(r, r.y, word)
    case AbsoluteLong => Effective(SimpleAddress, operand)
    case AbsoluteLongIndexedX => AbsoluteLongIndexed(r, operand)
    case Accumulator => Effective(AccumulatorOperand, junk)
    case BlockMove => BlockMoveOf(r)
    case DirectPage => DirectPage(r, byte)
    case DirectPageIndexedX => DirectPageIndexed(r, r.x, byte)
    case DirectPageIndexedY => DirectPageIndexed(r, r.y, byte)
    case Immediate => Effective(ImmediateData, word)
    case ProgramCounterRelative => Relative(r, byte)
    case ProgramCounterRelativeLong => RelativeLong(r, word)
    case StackAbsolute => Effective(StackAddress, word)
    case StackProgramCounterRelativeLong => RelativeLong(r, word).(kind := StackAddress)
    case StackRelative => Effective(StackAddress, byte + r.sp.value)
    case _ => Effective(SimpleAddress, 0)
  }

  function Resolve(s: Machine, mne: Mnemonic, mode: Mode, operand: u32, junk: u32): Effective {
    if IsIndirect(mode) then ResolveIndirect(s, mode, operand, junk)
    else ResolveDirect(s.r, mne, mode, operand, junk)
  }

  // ---- what the common modes resolve to

  lemma AbsoluteResolves(s: Machine, mne: Mnemonic, address: u16, junk: u32)
    requires !TransfersControl(mne)
    ensures Resolve(s, mne, Mode.Absolute, address, junk) == Effective(SimpleAddress, s.r.DataBank() + address)
  {
  }

  lemma IndexedResolves(s: Machine, mne: Mnemonic, address: u16, junk: u32)
    ensures Resolve(s, mne, AbsoluteIndexedX, address, junk) ==
            Effective(SimpleAddress, s.r.DataBank() + address + s.r.x.Visible())
  {
  }

  lemma ImmediateResolves(s: Machine, mne: Mnemonic, operand: u16, junk: u32)
    ensures Resolve(s, mne, Immediate, operand, junk) == Effective(ImmediateData, operand)
  {
  }

  lemma RelativeResolves(s: Machine, mne: Mnemonic, operand: u8, junk: u32)
    requires s.r.pbr == 0
    ensures Resolve(s, mne, ProgramCounterRelative, operand, junk) ==
            Effective(SimpleAddress, Trunc32(s.r.pc + Signed8(operand)))
  {
  }
}
