/** Resolving an operand against the registers and the bus. */
module AddressResolver {
  import opened Bytes
  import opened BusMemory
  import opened BusModel
  import opened CpuRegisters
  import opened CpuMachine
  import opened Opcodes
  import opened AddressingModes

  predicate PointerInRange(m: Memory, addr: u32, size: nat) {
    InRange(m, addr) && InRange(m, Trunc32(addr + 1)) && (size == 3 ==> InRange(m, Trunc32(addr + 2)))
  }

  /** Where the pointer of an indirect mode lies. */
  function PointerAddress(r: Regs, mode: Mode, operand: u32): u32 {
    var word, byte := Trunc16(operand), Trunc8(operand);
    match mode
    case AbsoluteIndexedIndirect => Trunc32(word + r.x.Visible() + r.ProgramBank())
    case AbsoluteIndirect | AbsoluteIndirectLong => word
    case DirectPageIndexedIndirectX => DirectPageXPointer(r, byte)
    case StackRelativeIndirectIndexedY => byte + r.sp.value
    case _ => byte + r.dp
  }

  predicate IsLong(mode: Mode) {
    mode == AbsoluteIndirectLong || mode == DirectPageIndirectLong || mode == DirectPageIndirectLongIndexedY
  }

  /** The pointer of an indirect mode, if the mode has one, can be read. */
  predicate MayResolve(s: Machine, mode: Mode, operand: u32) {
    IsIndirect(mode) ==> PointerInRange(s.m, PointerAddress(s.r, mode, operand), if IsLong(mode) then 3 else 2)
  }

  method ReadPointer(bus: Bus, addr: u32) returns (p: u16)
    requires bus.Valid() && PointerInRange(bus.Contents(), addr, 2)
    ensures p == Pointer(bus.Contents(), addr)
  {
    hide BusMemory.Read, InRange;
    var low := bus.Read(addr);
    var high := bus.Read(Trunc32(addr + 1));
    p := Word(low, high);
  }

  method ReadLongPointer(bus: Bus, addr: u32) returns (p: u32)
    requires bus.Valid() && PointerInRange(bus.Contents(), addr, 3)
    ensures p == LongPointer(bus.Contents(), addr)
  {
    hide BusMemory.Read, InRange;
    var word := ReadPointer(bus, addr);
    var bank: int := bus.Read(Trunc32(addr + 2));
    p := word + 0x1_0000 * bank;
  }

  /** The modes with a long pointer; `junk` is what the C's uninitialised local holds. */
  method ThroughLongPointer(bus: Bus, registers: Registers, mode: Mode, operand: u32, junk: u32)
    returns (eff: Effective)
    requires bus.Valid() && IsLong(mode)
    requires MayResolve(Machine(registers.Value(), bus.Contents()), mode, operand)
    ensures eff == ResolveIndirect(Machine(registers.Value(), bus.Contents()), mode, operand, junk)
  {
    hide Pointer, LongPointer, PointerInRange, Trunc8, Trunc16, Trunc32, Reg.Visible;
    var p := ReadLongPointer(bus, PointerAddress(registers.Value(), mode, operand));
    var base, index := junk, 0;
    if mode == DirectPageIndirectLongIndexedY {
      base, index := registers.dataBank * 0x1_0000, registers.y.Visible();
    }
    eff := Simple(base + p + index);
  }

  /** The modes with a pointer into a bank. */
  method ThroughPointer(bus: Bus, registers: Registers, mode: Mode, operand: u32, junk: u32)
    returns (eff: Effective)
    requires bus.Valid() && IsIndirect(mode) && !IsLong(mode)
    requires MayResolve(Machine(registers.Value(), bus.Contents()), mode, operand)
    ensures eff == ResolveIndirect(Machine(registers.Value(), bus.Contents()), mode, operand, junk)
  {
    hide Pointer, PointerInRange, Trunc8, Trunc16, Trunc32, Reg.Visible;
    var p := ReadPointer(bus, PointerAddress(registers.Value(), mode, operand));
    var y := registers.y.Visible();
    var dataBank, programBank := registers.dataBank * 0x1_0000, registers.programBank * 0x1_0000;
    match mode {
      case AbsoluteIndexedIndirect => eff := Simple(programBank + p);
      case AbsoluteIndirect => eff := Simple(programBank + p);
      case DirectPageIndexedIndirectX => eff := Simple(dataBank + p);
      case DirectPageIndirect => eff := Simple(dataBank + p);
      case DirectPageIndirectIndexedY => eff := Simple(dataBank + p + y);
      case StackDirectPageIndirect => eff := Stacked(dataBank + p);
      case StackRelativeIndirectIndexedY => eff := Stacked(dataBank + p + y);
    }
  }

  method ResolveIndirectly(bus: Bus, registers: Registers, mode: Mode, operand: u32, junk: u32)
    returns (eff: Effective)
    requires bus.Valid() && IsIndirect(mode)
    requires MayResolve(Machine(registers.Value(), bus.Contents()), mode, operand)
    ensures eff == ResolveIndirect(Machine(registers.Value(), bus.Contents()), mode, operand, junk)
  {
    hide MayResolve, IsIndirect, ResolveIndirect, IsLong;
    if IsLong(mode) {
      eff := ThroughLongPointer(bus, registers, mode, operand, junk);
    } else {
      eff := ThroughPointer(bus, registers, mode, operand, junk);
    }
  }

  // ---- the modes that only add up registers and the operand

  method ResolveAbsolute(registers: Registers, mne: Mnemonic, addr: u16) returns (eff: Effective)
    ensures eff == AddressingModes.Absolute(registers.Value(), mne, addr)
  {
    var address: int := addr;
    if TransfersControl(mne) {
      address := address + registers.programBank * 0x1_0000;
    } else {
      address := address + registers.dataBank * 0x1_0000;
    }
    eff := Simple(address);
  }

  /** With X or Y, in its own length. */
  method ResolveAbsoluteIndexed(registers: Registers, index: Reg, addr: u16) returns (eff: Effective)
    ensures eff == AbsoluteIndexed(registers.Value(), index, addr)
  {
    var address: int := addr + registers.dataBank * 0x1_0000;
    if index.len == Eight {
      address := address + index.Low();
    } else {
      address := address + index.value;
    }
    eff := Simple(address);
  }

  method ResolveAbsoluteLongIndexed(registers: Registers, addr: u32) returns (eff: Effective)
    ensures eff == AbsoluteLongIndexed(registers.Value(), addr)
  {
    var address: int := addr;
    if registers.x.len == Eight {
      address := address + registers.x.Low();
    } else {
      address := address + registers.x.value;
    }
    eff := Simple(address);
  }

  method ResolveDirectPage(registers: Registers, addr: u8) returns (eff: Effective)
    ensures eff == AddressingModes.DirectPage(registers.Value(), addr)
  {
    eff := Simple(addr + registers.directPage);
  }

  method ResolveDirectPageIndexed(registers: Registers, index: Reg, addr: u8) returns (eff: Effective)
    ensures eff == DirectPageIndexed(registers.Value(), index, addr)
  {
    eff := ResolveDirectPage(registers, addr);
    if index.len == Eight {
      eff := Simple(eff.address + index.Low());
    } else {
      eff := Simple(eff.address + index.value);
    }
  }

  method ResolveRelative(registers: Registers, addr: u8) returns (eff: Effective)
    ensures eff == Relative(registers.Value(), addr)
  {
    var address: int := registers.pc;
    address := address + registers.programBank * 0x1_0000;
    address := address + Signed8(addr);
    eff := Simple(address);
  }

  method ResolveRelativeLong(registers: Registers, addr: u16) returns (eff: Effective)
    ensures eff == RelativeLong(registers.Value(), addr)
  {
    var address: int := registers.pc;
    address := address + registers.programBank * 0x1_0000;
    address := address + Signed16(addr);
    eff := Simple(address);
  }

  /** Source from X, destination from Y, one more byte than A says. */
  method ResolveBlockMove(registers: Registers) returns (eff: Effective)
    ensures eff == BlockMoveOf(registers.Value())
  {
    var x, y := registers.x, registers.y;
    var source := if x.len == Eight then x.Low() else x.value;
    var dest := if y.len == Eight then y.Low() else y.value;
    eff := Effective(BlockMoveAddress(source, Trunc16(registers.accumulator.value + 1)), dest);
  }

  predicate IsAbsolute(mode: Mode) {
    match mode
    case Absolute | AbsoluteIndexedX | AbsoluteIndexedY | AbsoluteLong | AbsoluteLongIndexedX | Immediate => true
    case _ => false
  }

  method ResolveAbsolutely(registers: Registers, mne: Mnemonic, mode: Mode, operand: u32, junk: u32)
    returns (eff: Effective)
    requires IsAbsolute(mode)
    ensures eff == ResolveDirect(registers.Value(), mne, mode, operand, junk)
  {
    hide Trunc8, Trunc16, AddressingModes.Absolute, AbsoluteIndexed, AbsoluteLongIndexed;
    var word := Trunc16(operand);
    match mode {
      case Absolute => eff := ResolveAbsolute(registers, mne, word);
      case AbsoluteIndexedX => eff := ResolveAbsoluteIndexed(registers, registers.x, word);
      case AbsoluteIndexedY => eff := ResolveAbsoluteIndexed(registers, registers.y, word);
      case AbsoluteLong => eff := Effective(SimpleAddress, operand);
      case AbsoluteLongIndexedX => eff := ResolveAbsoluteLongIndexed(registers, operand);
      case Immediate => eff := Effective(ImmediateData, word);
    }
  }

  /** The others; a mode without an operand resolves to a cleared address. */
  method ResolveOther(registers: Registers, mne: Mnemonic, mode: Mode, operand: u32, junk: u32)
    returns (eff: Effective)
    requires !IsAbsolute(mode)
    ensures eff == ResolveDirect(registers.Value(), mne, mode, operand, junk)
  {
    hide Trunc8, Trunc16, BlockMoveOf, AddressingModes.DirectPage, DirectPageIndexed, Relative, RelativeLong;
    var word, byte := Trunc16(operand), Trunc8(operand);
    eff := Effective(SimpleAddress, 0);
    match mode {
      case Accumulator => eff := Effective(AccumulatorOperand, junk);
      case BlockMove => eff := ResolveBlockMove(registers);
      case DirectPage => eff := ResolveDirectPage(registers, byte);
      case DirectPageIndexedX => eff := ResolveDirectPageIndexed(registers, registers.x, byte);
      case DirectPageIndexedY => eff := ResolveDirectPageIndexed(registers, registers.y, byte);
      case ProgramCounterRelative => eff := ResolveRelative(registers, byte);
      case ProgramCounterRelativeLong => eff := ResolveRelativeLong(registers, word);
      case StackAbsolute => eff := Effective(StackAddress, word);
      case StackProgramCounterRelativeLong =>
        eff := ResolveRelativeLong(registers, word);
        eff := eff.(kind := StackAddress);
      case StackRelative => eff := Effective(StackAddress, byte + registers.stackPointer.value);
      case _ =>
    }
  }

  method ResolveDirectly(registers: Registers, mne: Mnemonic, mode: Mode, operand: u32, junk: u32)
    returns (eff: Effective)
    ensures eff == ResolveDirect(registers.Value(), mne, mode, operand, junk)
  {
    hide ResolveDirect, IsAbsolute;
    if IsAbsolute(mode) {
      eff := ResolveAbsolutely(registers, mne, mode, operand, junk);
    } else {
      eff := ResolveOther(registers, mne, mode, operand, junk);
    }
  }

  /** `snes_cpu_addressing_mode_decode`. */
  method Decode(bus: Bus, registers: Registers, mne: Mnemonic, mode: Mode, operand: u32, junk: u32)
    returns (eff: Effective)
    requires bus.Valid() && MayResolve(Machine(registers.Value(), bus.Contents()), mode, operand)
    ensures eff == Resolve(Machine(registers.Value(), bus.Contents()), mne, mode, operand, junk)
  {
    hide MayResolve, IsIndirect, ResolveIndirect, ResolveDirect;
    if IsIndirect(mode) {
      eff := ResolveIndirectly(bus, registers, mode, operand, junk);
    } else {
      eff := ResolveDirectly(registers, mne, mode, operand, junk);
    }
  }
}
