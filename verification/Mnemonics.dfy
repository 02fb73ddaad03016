/** The instructions in place: registers, flags, memory and stack updated one after the other. */
module Mnemonics {
  import opened BitStrings
  import opened Bytes
  import opened BusMemory
  import opened BusModel
  import opened CpuRegisters
  import opened CpuMachine
  import opened CpuStacks
  import opened Opcodes
  import opened AddressingModes
  import opened Instructions

  predicate InMemory(eff: Effective) { !eff.kind.ImmediateData? && !eff.kind.AccumulatorOperand? }

  /** The assertions on the way to one or two bytes at an address hold. */
  predicate BytesInRange(m: Memory, addr: u32, size: nat) {
    InRange(m, addr) && (size == 2 ==> InRange(m, Trunc32(addr + 1)))
  }

  predicate MayFetch(s: Machine, eff: Effective, size: nat) { InMemory(eff) ==> BytesInRange(s.m, eff.address, size) }

  predicate MayStore(s: Machine, eff: Effective, size: nat) {
    !eff.kind.AccumulatorOperand? ==> BytesInRange(s.m, eff.address, size)
  }

  predicate MayPush(s: Machine, size: nat) {
    InRange(s.m, s.r.sp.value) && (size == 2 ==> InRange(s.m, s.r.SetSp(Trunc16(s.r.sp.value - 1)).sp.value))
  }

  predicate MayPull(s: Machine, size: nat)
    decreases size
  {
    size == 0 || (InRange(s.m, s.r.sp.value + 1) && MayPull(s.Pull().0, size - 1))
  }

  // ---- what an instruction needs so that no assertion fails on its way

  predicate MayCompute(s: Machine, mne: Mnemonic, eff: Effective) {
    match mne
    case CPX => MayFetch(s, eff, SizeOf(s.r.x.len))
    case CPY => MayFetch(s, eff, SizeOf(s.r.y.len))
    case ADC => MayFetch(s, eff, SizeOf(s.r.acc.len)) && !s.r.p.d
    case _ => MayFetch(s, eff, SizeOf(s.r.acc.len))
  }

  predicate MayModify(s: Machine, mne: Mnemonic, eff: Effective) {
    var size := SizeOf(s.r.acc.len);
    match mne
    case TRB | TSB => BytesInRange(s.m, eff.address, size)
    case ROL | ROR => MayFetch(s, eff, size)
    case _ => MayFetch(s, eff, size) && MayStore(s, eff, size)
  }

  predicate MayLoadStore(s: Machine, mne: Mnemonic, eff: Effective) {
    match mne
    case LDA => MayFetch(s, eff, SizeOf(s.r.acc.len))
    case LDX => MayFetch(s, eff, SizeOf(s.r.x.len))
    case LDY => MayFetch(s, eff, SizeOf(s.r.y.len))
    case STA => BytesInRange(s.m, eff.address, SizeOf(s.r.acc.len))
    case STX => BytesInRange(s.m, eff.address, SizeOf(s.r.x.len))
    case STY => BytesInRange(s.m, eff.address, SizeOf(s.r.y.len))
    case STZ => BytesInRange(s.m, eff.address, if !s.r.emulation && !s.r.p.m then 2 else 1)
    case _ => InRange(s.m, eff.address)
  }

  predicate MayFlow(s: Machine, mne: Mnemonic) {
    match mne
    case JSR => MayPush(s, 2)
    case RTS => MayPull(s, 2)
    case RTL => MayPull(s, 3)
    case RTI => MayPull(s, 4)
    case _ => true
  }

  predicate MayPushGroup(s: Machine, mne: Mnemonic, eff: Effective) {
    match mne
    case PEA | PEI | PER => MayFetch(s, eff, 2) && MayPush(s, 2)
    case PHA => MayPush(s, SizeOf(s.r.acc.len))
    case PHX => MayPush(s, SizeOf(s.r.x.len))
    case PHY => MayPush(s, SizeOf(s.r.y.len))
    case PHD => MayPush(s, 2)
    case _ => MayPush(s, 1)
  }

  predicate MayPullGroup(s: Machine, mne: Mnemonic) {
    match mne
    case PLA => MayPull(s, SizeOf(s.r.acc.len))
    case PLX => MayPull(s, SizeOf(s.r.x.len))
    case PLY => MayPull(s, SizeOf(s.r.y.len))
    case PLD => MayPull(s, 2)
    case _ => MayPull(s, 1)
  }

  predicate IsLogic(mne: Mnemonic) { mne == AND || mne == ORA || mne == EOR || mne == BIT }

  lemma LogicMayFetch(s: Machine, mne: Mnemonic, eff: Effective)
    requires IsLogic(mne) && MayCompute(s, mne, eff)
    ensures MayFetch(s, eff, SizeOf(s.r.acc.len))
  {
  }

  function LogicOp(mne: Mnemonic): BitOp {
    match mne
    case AND => AndOp
    case ORA => OrOp
    case _ => XorOp
  }

  lemma LogicComputes(s: Machine, mne: Mnemonic, eff: Effective)
    requires IsLogic(mne)
    ensures ExecuteCompute(s, mne, eff) ==
            if mne == BIT then BitTest(s, eff) else Instructions.Logic(s, LogicOp(mne), eff)
  {
    hide Instructions.Logic, BitTest;
  }

  /** PEA, PEI and PER push a word that is not a register's. */
  predicate PushesEffective(mne: Mnemonic) { mne == PEA || mne == PEI || mne == PER }

  /** The pushes whose size does not depend on a register's length. */
  predicate PushesFixed(mne: Mnemonic) {
    PushesEffective(mne) || mne == PHB || mne == PHK || mne == PHD || mne == PHP
  }

  lemma PushKinds(mne: Mnemonic)
    requires GroupOf(mne) == PushGroup && !PushesFixed(mne)
    ensures mne == PHA || mne == PHX || mne == PHY
  {
  }

  lemma DifferenceComputes(s: Machine, mne: Mnemonic, eff: Effective)
    requires mne == SBC || mne == CMP
    ensures ExecuteCompute(s, mne, eff) == if mne == SBC then Instructions.Sbc(s, eff) else Instructions.Cmp(s, eff)
  {
    hide Instructions.Sbc, Instructions.Cmp;
  }

  /** The byte that PHB, PHK and PHP push. */
  function SmallRegister(r: Regs, mne: Mnemonic): u8 {
    match mne
    case PHB => r.dbr
    case PHK => r.pbr
    case _ => r.p.ToByte()
  }

  lemma SmallPushes(s: Machine, mne: Mnemonic, eff: Effective)
    requires mne == PHB || mne == PHK || mne == PHP
    ensures ExecutePush(s, mne, eff) == s.Push(SmallRegister(s.r, mne))
  {
    hide Machine.Push, Flags.ToByte;
  }

  lemma SmallMayPush(s: Machine, mne: Mnemonic, eff: Effective)
    requires (mne == PHB || mne == PHK || mne == PHP) && MayPushGroup(s, mne, eff)
    ensures MayPush(s, 1)
  {
  }

  /** The instruction gets through: every access is in range, and it is neither a BCD addition nor WAI. */
  predicate Proceeds(s: Machine, mne: Mnemonic, eff: Effective) {
    match GroupOf(mne)
    case ComputeGroup => MayCompute(s, mne, eff)
    case ModifyGroup => MayModify(s, mne, eff)
    case LoadStoreGroup => MayLoadStore(s, mne, eff)
    case FlowGroup => MayFlow(s, mne)
    case PushGroup => MayPushGroup(s, mne, eff)
    case PullGroup => MayPullGroup(s, mne)
    case RegisterGroup => mne != WAI
  }

  predicate IsFlagOp(mne: Mnemonic) {
    match mne
    case CLC | CLD | CLI | CLV | SEC | SED | SEI | REP | SEP => true
    case _ => false
  }

  predicate IsIndexOp(mne: Mnemonic) {
    match mne
    case DEX | DEY | INX | INY | TAX | TAY | TSX | TXY | TYX => true
    case _ => false
  }

  predicate IsMoveOp(mne: Mnemonic) {
    match mne
    case TCD | TCS | TDC | TSC | TXA | TXS | TYA => true
    case _ => false
  }

  lemma OtherRegisterOps(r: Regs, mne: Mnemonic, eff: Effective)
    requires !IsFlagOp(mne) && !IsIndexOp(mne) && !IsMoveOp(mne)
    ensures RegisterOp(r, mne, eff) == if mne == XBA then Xba(r) else if mne == XCE then Xce(r) else r
  {
    hide Xba, Xce;
  }

  class Executor {
    const registers: Registers
    const bus: Bus
    const stack: Stack

    ghost predicate Valid() { bus.Valid() && stack.registers == registers && stack.bus == bus }

    ghost function State(): Machine
      requires Valid()
      reads registers, bus.Cells(), bus.port.outputPort.data
    {
      Machine(registers.Value(), bus.Contents())
    }

    constructor (registers: Registers, bus: Bus)
      requires bus.Valid()
      ensures Valid() && this.registers == registers && this.bus == bus && fresh(stack)
    {
      this.registers, this.bus := registers, bus;
      stack := new Stack(registers, bus);
    }

    method FetchData(eff: Effective, size: nat) returns (data: u16)
      requires Valid() && MayFetch(State(), eff, size)
      ensures data == Fetch(State(), eff, size)
    {
      hide BusMemory.Read, InRange, Reg.Visible;
      if eff.kind.ImmediateData? {
        data := Trunc16(eff.address);
      } else if eff.kind.AccumulatorOperand? {
        data := registers.accumulator.Visible();
      } else {
        var low := bus.Read(eff.address);
        data := low;
        if size == 2 {
          var high := bus.Read(Trunc32(eff.address + 1));
          data := Word(low, high);
        }
      }
    }

    method StoreData(eff: Effective, data: u16, size: nat)
      requires Valid() && MayStore(State(), eff, size)
      modifies registers, bus.Cells()
      ensures State() == Instructions.StoreData(old(State()), eff, data, size)
    {
      hide BusMemory.Write, BytesInRange, Regs.SetAcc, Regs.Update8, Regs.Update16;
      if eff.kind.AccumulatorOperand? {
        registers.SetAccumulator(data);
      } else {
        StoreInMemory(eff, data, size);
      }
    }

    method StoreInMemory(eff: Effective, data: u16, size: nat)
      requires Valid() && !eff.kind.AccumulatorOperand? && BytesInRange(State().m, eff.address, size)
      modifies registers, bus.Cells()
      ensures State() == Instructions.StoreData(old(State()), eff, data, size)
    {
      hide BusMemory.Write, InRange, Regs.Update8, Regs.Update16, Low, High;
      WriteKeepsRange(State().m, eff.address, Low(data), Trunc32(eff.address + 1));
      bus.Write(eff.address, Low(data));
      registers.Update8(Low(data));
      if size == 2 {
        bus.Write(Trunc32(eff.address + 1), High(data));
        registers.Update16(data);
      }
    }

    // ---- arithmetic

    method UpdateOverflowAdd(len: Width, a: u16, b: u16, result: u16)
      modifies registers
      ensures registers.Value() == old(registers.Value()).PutV(AddOverflow(len, a, b, result))
    {
      if Top(len, a) && Top(len, b) && !Top(len, result) {
        registers.SetStatus(FLAG_V);
      } else if !Top(len, a) && !Top(len, b) && Top(len, result) {
        registers.SetStatus(FLAG_V);
      } else {
        registers.ResetStatus(FLAG_V);
      }
    }

    method UpdateCarryAdd(len: Width, a: u16, b: u16, result: u16)
      modifies registers
      ensures registers.Value() == old(registers.Value()).PutC(AddCarry(len, a, b, result))
    {
      if (Top(len, a) || Top(len, b)) && !Top(len, result) {
        registers.SetStatus(FLAG_C);
      } else {
        registers.ResetStatus(FLAG_C);
      }
    }

    method Adc(eff: Effective)
      requires Valid() && MayFetch(State(), eff, SizeOf(registers.accumulator.len)) && !registers.status.d
      modifies registers
      ensures State() == Instructions.Adc(old(State()), eff)
    {
      hide MayFetch, Fetch, AddCarry, AddOverflow, Regs.SetAcc, Reg.Low;
      var acc := registers.accumulator;
      var carry := if registers.status.c then 1 else 0;
      var value := FetchData(eff, SizeOf(acc.len));
      if acc.len == Sixteen {
        var result := Trunc16(acc.value + value + carry);
        UpdateCarryAdd(Sixteen, acc.value, value, result);
        UpdateOverflowAdd(Sixteen, acc.value, value, result);
        registers.SetAccumulator(result);
      } else {
        var result := Trunc8(acc.Low() + Low(value) + carry);
        UpdateCarryAdd(Eight, acc.Low(), Low(value), result);
        UpdateOverflowAdd(Eight, acc.Low(), Low(value), result);
        registers.SetAccumulator(result);
      }
    }

    method Sbc(eff: Effective)
      requires Valid() && MayFetch(State(), eff, SizeOf(registers.accumulator.len))
      modifies registers
      ensures State() == Instructions.Sbc(old(State()), eff)
    {
      hide MayFetch, Fetch, Regs.SetAcc, Top, Signed16;
      var acc := registers.accumulator;
      var carry := if registers.status.c then 1 else 0;
      var data := FetchData(eff, SizeOf(acc.len));
      if acc.len == Sixteen {
        var result := acc.value - data + carry - 1;
        registers.SetAccumulator(Trunc16(result));
        registers.PutCarry(result >= 0);
        registers.PutOverflow(Top(Sixteen, acc.value) != Top(Sixteen, data) &&
                              Top(Sixteen, acc.value) != Top(Sixteen, Trunc16(result)));
      } else {
        var result := Trunc16(acc.Low() - Signed16(data) + carry - 1);
        registers.PutCarry(Signed16(result) >= 0);
        registers.PutOverflow(data >= 0x8000 && result >= 0x8000);
      }
    }

    method Cmp(eff: Effective)
      requires Valid() && MayFetch(State(), eff, SizeOf(registers.accumulator.len))
      modifies registers
      ensures State() == Instructions.Cmp(old(State()), eff)
    {
      hide MayFetch, Fetch, Regs.Update8, Regs.Update16, Trunc8, Trunc16;
      var acc := registers.accumulator;
      var data := FetchData(eff, SizeOf(acc.len));
      if acc.len == Sixteen {
        var result := acc.value - data;
        registers.Update16(Trunc16(result));
        registers.PutCarry(result >= 0);
      } else {
        var result := acc.Low() - Low(data);
        registers.Update8(Trunc8(result));
        registers.PutCarry(result >= 0);
      }
    }

    /** CPX and CPY. */
    method CompareIndex(reg: Reg, eff: Effective)
      requires Valid() && MayFetch(State(), eff, SizeOf(reg.len))
      modifies registers
      ensures State() == Instructions.CompareIndex(old(State()), reg, eff)
    {
      hide MayFetch, Fetch, Regs.Update8, Regs.Update16, Trunc8, Trunc16;
      var data := FetchData(eff, SizeOf(reg.len));
      if reg.len == Sixteen {
        var result := reg.value - data;
        registers.Update16(Trunc16(result));
        registers.PutCarry(result >= 0);
      } else {
        registers.Update8(Low(data));
        registers.PutCarry(reg.Low() - Low(data) >= 0);
      }
    }

    /** AND, ORA and EOR. */
    method Logic(op: BitOp, eff: Effective)
      requires Valid() && MayFetch(State(), eff, SizeOf(registers.accumulator.len))
      modifies registers
      ensures State() == Instructions.Logic(old(State()), op, eff)
    {
      hide MayFetch, Fetch, Regs.SetAcc, Combined;
      var acc := registers.accumulator;
      var value := FetchData(eff, SizeOf(acc.len));
      registers.SetAccumulator(Combined(op, acc.value, value));
    }

    method BitTest(eff: Effective)
      requires Valid() && MayFetch(State(), eff, SizeOf(registers.accumulator.len))
      modifies registers
      ensures State() == Instructions.BitTest(old(State()), eff)
    {
      hide MayFetch, Fetch, Regs.Update8, Regs.Update16, BitAnd;
      var acc := registers.accumulator;
      var value := FetchData(eff, SizeOf(acc.len));
      if acc.len == Sixteen {
        registers.Update16(value);
      } else {
        registers.Update8(Low(value));
      }
      registers.PutZero(BitAnd(acc.Visible(), value) != 0);
    }

    // ---- read, modify, write

    /** TRB and TSB. */
    method TestBits(eff: Effective, on: bool)
      requires Valid() && BytesInRange(State().m, eff.address, SizeOf(registers.accumulator.len))
      modifies registers, bus.Cells()
      ensures State() == Instructions.TestBits(old(State()), eff, on)
    {
      hide BusMemory.Write, BusMemory.Read, InRange, BitAnd, BitOr;
      var acc := registers.accumulator;
      var value: u16 := bus.Read(eff.address);
      if acc.len == Sixteen {
        var high := bus.Read(Trunc32(eff.address + 1));
        value := Word(value, high);
      }
      var result := if on then BitOr(value, acc.value) else BitAnd(value, 0xFFFF - acc.value);
      WriteKeepsRange(State().m, eff.address, Low(result), Trunc32(eff.address + 1));
      bus.Write(eff.address, Low(result));
      if acc.len == Sixteen {
        bus.Write(Trunc32(eff.address + 1), High(result));
      }
      registers.PutZero(BitAnd(value, acc.Visible()) == 0);
    }

    method Asl(eff: Effective)
      requires Valid() && MayFetch(State(), eff, SizeOf(registers.accumulator.len))
      requires MayStore(State(), eff, SizeOf(registers.accumulator.len))
      modifies registers, bus.Cells()
      ensures State() == Instructions.Asl(old(State()), eff)
    {
      hide MayFetch, MayStore, Fetch, Instructions.StoreData, Trunc16;
      var size := SizeOf(registers.accumulator.len);
      var value: int := FetchData(eff, size);
      StoreData(eff, Trunc16(2 * value), size);
      registers.PutCarry(value % 2 == 1);
    }

    method Lsr(eff: Effective)
      requires Valid() && MayFetch(State(), eff, SizeOf(registers.accumulator.len))
      requires MayStore(State(), eff, SizeOf(registers.accumulator.len))
      modifies registers, bus.Cells()
      ensures State() == Instructions.Lsr(old(State()), eff)
    {
      hide MayFetch, MayStore, Fetch, Instructions.StoreData;
      var size := SizeOf(registers.accumulator.len);
      var value := FetchData(eff, size);
      StoreData(eff, value / 2, size);
      registers.PutCarry(value % 2 == 1);
    }

    method Rol(eff: Effective)
      requires Valid() && MayFetch(State(), eff, SizeOf(registers.accumulator.len))
      modifies registers
      ensures State() == Instructions.Rol(old(State()), eff)
    {
      hide MayFetch, Fetch, Regs.SetAcc, Top;
      var acc := registers.accumulator;
      var carry := if registers.status.c then 1 else 0;
      var value: int := FetchData(eff, SizeOf(acc.len));
      var result: u16 := if acc.len == Eight then Trunc8(2 * Low(value) + carry) else Trunc16(2 * value + carry);
      registers.PutCarry(Top(acc.len, value));
      registers.SetAccumulator(result);
    }

    method Ror(eff: Effective)
      requires Valid() && MayFetch(State(), eff, SizeOf(registers.accumulator.len))
      modifies registers
      ensures State() == Instructions.Ror(old(State()), eff)
    {
      hide MayFetch, Fetch, Regs.SetAcc, Top;
      var acc := registers.accumulator;
      var carry := if registers.status.c then 1 else 0;
      var value := FetchData(eff, SizeOf(acc.len));
      var result: u16 := if acc.len == Eight then Low(value) / 2 + 0x80 * carry else value / 2 + 0x8000 * carry;
      registers.PutCarry(Top(acc.len, value));
      registers.SetAccumulator(result);
    }

    /** INC and DEC. */
    method IncDec(eff: Effective, delta: int)
      requires Valid() && MayFetch(State(), eff, SizeOf(registers.accumulator.len))
      requires MayStore(State(), eff, SizeOf(registers.accumulator.len))
      modifies registers, bus.Cells()
      ensures State() == Instructions.IncDec(old(State()), eff, delta)
    {
      hide MayFetch, MayStore, Fetch, Instructions.StoreData, Trunc16;
      var size := SizeOf(registers.accumulator.len);
      var data := FetchData(eff, size);
      StoreData(eff, Trunc16(data + delta), size);
    }

    method Lda(eff: Effective)
      requires Valid() && MayFetch(State(), eff, SizeOf(registers.accumulator.len))
      modifies registers
      ensures State() == old(State()).WithRegs(
                old(registers.Value()).SetAcc(Fetch(old(State()), eff, SizeOf(old(registers.accumulator.len)))))
    {
      hide MayFetch, Fetch, Regs.SetAcc;
      var data := FetchData(eff, SizeOf(registers.accumulator.len));
      registers.SetAccumulator(data);
    }

    method Ldx(eff: Effective)
      requires Valid() && MayFetch(State(), eff, SizeOf(registers.x.len))
      modifies registers
      ensures State() == old(State()).WithRegs(
                old(registers.Value()).SetX(Fetch(old(State()), eff, SizeOf(old(registers.x.len)))))
    {
      hide MayFetch, Fetch, Regs.SetX;
      var data := FetchData(eff, SizeOf(registers.x.len));
      registers.SetX(data);
    }

    method Ldy(eff: Effective)
      requires Valid() && MayFetch(State(), eff, SizeOf(registers.y.len))
      modifies registers
      ensures State() == old(State()).WithRegs(
                old(registers.Value()).SetY(Fetch(old(State()), eff, SizeOf(old(registers.y.len)))))
    {
      hide MayFetch, Fetch, Regs.SetY;
      var data := FetchData(eff, SizeOf(registers.y.len));
      registers.SetY(data);
    }

    /** STA, STX and STY. */
    method StoreReg(reg: Reg, eff: Effective)
      requires Valid() && BytesInRange(State().m, eff.address, SizeOf(reg.len))
      modifies bus.Cells()
      ensures State() == Instructions.StoreReg(old(State()), reg, eff)
    {
      hide BusMemory.Write, InRange;
      WriteKeepsRange(State().m, eff.address, reg.Low(), Trunc32(eff.address + 1));
      bus.Write(eff.address, reg.Low());
      if reg.len == Sixteen {
        bus.Write(Trunc32(eff.address + 1), reg.High());
      }
    }

    method Stz(eff: Effective)
      requires Valid()
      requires BytesInRange(State().m, eff.address, if !registers.emulation && !registers.status.m then 2 else 1)
      modifies bus.Cells()
      ensures State() == Instructions.Stz(old(State()), eff)
    {
      hide BusMemory.Write, InRange;
      WriteKeepsRange(State().m, eff.address, 0, Trunc32(eff.address + 1));
      bus.Write(eff.address, 0);
      if !registers.emulation && !registers.status.m {
        bus.Write(Trunc32(eff.address + 1), 0);
      }
    }

    // ---- the stack

    /** PHB, PHK and PHP. */
    method PushByte(v: u8)
      requires Valid() && MayPush(State(), 1)
      modifies registers, bus.Cells()
      ensures State() == old(State()).Push(v)
    {
      stack.Push(v);
    }

    /** High byte first. */
    method PushWord(v: u16)
      requires Valid() && MayPush(State(), 2)
      modifies registers, bus.Cells()
      ensures State() == old(State()).PushWord(v)
    {
      hide BusMemory.Write, InRange, Regs.SetSp;
      var sp: int := registers.stackPointer.value;
      WriteKeepsRange(State().m, sp, High(v), State().r.SetSp(Trunc16(sp - 1)).sp.value);
      stack.Push(High(v));
      stack.Push(Low(v));
    }

    method PullWord() returns (v: u16)
      requires Valid() && MayPull(State(), 2)
      modifies registers
      ensures (State(), v) == old(State()).PullWord()
    {
      hide BusMemory.Read, InRange, Regs.SetSp;
      var low := stack.Pull();
      var high := stack.Pull();
      v := Word(low, high);
    }

    /** PHA, PHX and PHY. */
    method PushReg(reg: Reg)
      requires Valid() && MayPush(State(), SizeOf(reg.len))
      modifies registers, bus.Cells()
      ensures State() == Instructions.PushReg(old(State()), reg)
    {
      hide BusMemory.Write, InRange, Regs.SetSp, Machine.PushWord;
      if reg.len == Sixteen {
        PushWord(reg.value);
      } else {
        stack.Push(reg.Low());
      }
    }

    /** PEA, PEI and PER push what lies at their address. */
    method Pea(eff: Effective)
      requires Valid() && MayFetch(State(), eff, 2) && MayPush(State(), 2)
      modifies registers, bus.Cells()
      ensures State() == old(State()).PushWord(Fetch(old(State()), eff, 2))
    {
      hide MayFetch, MayPush, Fetch, Machine.PushWord;
      var value := FetchData(eff, 2);
      PushWord(value);
    }

    /** The first half of PLA, PLX and PLY. */
    method PullFor(reg: Reg) returns (v: u16)
      requires Valid() && MayPull(State(), SizeOf(reg.len))
      modifies registers
      ensures (State(), v) == Instructions.PullFor(old(State()), reg)
    {
      hide BusMemory.Read, InRange, Regs.SetSp, Machine.PullWord;
      if reg.len == Sixteen {
        v := PullWord();
      } else {
        v := stack.Pull();
      }
    }

    method Pla()
      requires Valid() && MayPull(State(), SizeOf(registers.accumulator.len))
      modifies registers
      ensures State() == Instructions.Pla(old(State()))
    {
      hide MayPull, Instructions.PullFor, Regs.SetAcc;
      var v := PullFor(registers.accumulator);
      registers.SetAccumulator(v);
    }

    method Plx()
      requires Valid() && MayPull(State(), SizeOf(registers.x.len))
      modifies registers
      ensures State() == Instructions.Plx(old(State()))
    {
      hide MayPull, Instructions.PullFor, Regs.SetX;
      var v := PullFor(registers.x);
      registers.SetX(v);
    }

    method Ply()
      requires Valid() && MayPull(State(), SizeOf(registers.y.len))
      modifies registers
      ensures State() == Instructions.Ply(old(State()))
    {
      hide MayPull, Instructions.PullFor, Regs.SetY;
      var v := PullFor(registers.y);
      registers.SetY(v);
    }

    method Plb()
      requires Valid() && MayPull(State(), 1)
      modifies registers
      ensures State() == Instructions.Plb(old(State()))
    {
      hide BusMemory.Read, InRange, Regs.SetDbr, Regs.SetSp;
      var v := stack.Pull();
      registers.SetDataBank(v);
    }

    method Pld()
      requires Valid() && MayPull(State(), 2)
      modifies registers
      ensures State() == Instructions.Pld(old(State()))
    {
      hide MayPull, Machine.PullWord, Regs.SetDp;
      var v := PullWord();
      registers.SetDirectPage(v);
    }

    method Plp()
      requires Valid() && MayPull(State(), 1)
      modifies registers
      ensures State() == Instructions.Plp(old(State()))
    {
      hide BusMemory.Read, InRange, Regs.ForceFlags, Regs.SetSp, FromByte;
      var v := stack.Pull();
      registers.ForceStatus(FromByte(v));
    }

    // ---- control flow

    method Branch(taken: bool, eff: Effective)
      requires Valid()
      modifies registers
      ensures State() == Instructions.Branch(old(State()), taken, eff)
    {
      if taken {
        registers.SetProgramCounter(Trunc16(eff.address));
      }
    }

    method Jmp(eff: Effective)
      requires Valid()
      modifies registers
      ensures State() == Instructions.Jmp(old(State()), eff)
    {
      registers.SetProgramCounter(Trunc16(eff.address));
      if eff.address / 0x1_0000 != 0 {
        registers.SetProgramBank(Trunc8(eff.address / 0x1_0000));
      }
    }

    method Jsr(eff: Effective)
      requires Valid() && MayPush(State(), 2)
      modifies registers, bus.Cells()
      ensures State() == Instructions.Jsr(old(State()), eff)
    {
      hide MayPush, Machine.PushWord, Trunc16;
      PushWord(Trunc16(registers.pc - 1));
      registers.SetProgramCounter(Trunc16(eff.address));
    }

    method Rts()
      requires Valid() && MayPull(State(), 2)
      modifies registers
      ensures State() == Instructions.Rts(old(State()))
    {
      hide MayPull, Machine.PullWord, Trunc16;
      var pc: int := PullWord();
      registers.SetProgramCounter(Trunc16(pc + 1));
    }

    method Rtl()
      requires Valid() && MayPull(State(), 3)
      modifies registers
      ensures State() == Instructions.Rtl(old(State()))
    {
      hide BusMemory.Read, InRange, Regs.SetSp, Trunc16;
      var pc: int := PullWord();
      var pbr := stack.Pull();
      registers.SetProgramCounter(Trunc16(pc + 1));
      registers.SetProgramBank(pbr);
    }

    method Rti()
      requires Valid() && MayPull(State(), 4)
      modifies registers
      ensures State() == Instructions.Rti(old(State()))
    {
      hide BusMemory.Read, InRange, Regs.SetSp, Regs.ForceFlags, FromByte;
      var pc := PullWord();
      var pbr := stack.Pull();
      var p := stack.Pull();
      registers.SetProgramCounter(pc);
      registers.SetProgramBank(pbr);
      registers.ForceStatus(FromByte(p));
    }

    // ---- moves between registers, and flags

    method Xba()
      modifies registers
      ensures registers.Value() == Instructions.Xba(old(registers.Value()))
    {
      var acc := registers.accumulator;
      registers.SetAccumulator16(Word(acc.High(), acc.Low()));
      registers.Update8(acc.High());
    }

    method Xce()
      modifies registers
      ensures registers.Value() == Instructions.Xce(old(registers.Value()))
    {
      hide Regs.EmulationSet, Regs.EmulationReset;
      var carry, emulation := registers.status.c, registers.emulation;
      if carry != emulation {
        if carry {
          registers.SetEmulation();
        } else {
          registers.ResetEmulation();
        }
      }
    }

    method SetFlag(mne: Mnemonic, eff: Effective)
      requires IsFlagOp(mne)
      modifies registers
      ensures registers.Value() == RegisterOp(old(registers.Value()), mne, eff)
    {
      hide Regs.SetFlags, Regs.ResetFlags, FromByte;
      match mne {
        case CLC => registers.ResetStatus(FLAG_C);
        case CLD => registers.ResetStatus(FLAG_D);
        case CLI => registers.ResetStatus(FLAG_I);
        case CLV => registers.ResetStatus(FLAG_V);
        case SEC => registers.SetStatus(FLAG_C);
        case SED => registers.SetStatus(FLAG_D);
        case SEI => registers.SetStatus(FLAG_I);
        case REP => registers.ResetStatus(FromByte(Trunc8(eff.address)));
        case SEP => registers.SetStatus(FromByte(Trunc8(eff.address)));
      }
    }

    method MoveIndex(mne: Mnemonic, eff: Effective)
      requires IsIndexOp(mne)
      modifies registers
      ensures registers.Value() == RegisterOp(old(registers.Value()), mne, eff)
    {
      hide Regs.SetX, Regs.SetY;
      var acc, x, y, sp := registers.accumulator, registers.x, registers.y, registers.stackPointer;
      match mne {
        case DEX => registers.SetX(Trunc16(x.value - 1));
        case DEY => registers.SetY(Trunc16(y.value - 1));
        case INX => registers.SetX(Trunc16(x.value + 1));
        case INY => registers.SetY(Trunc16(y.value + 1));
        case TAX => registers.SetX(if x.len == Sixteen then acc.value else acc.Low());
        case TAY => registers.SetY(if y.len == Sixteen then acc.value else acc.Low());
        case TSX => registers.SetX(sp.value);
        case TXY => registers.SetY(x.value);
        case TYX => registers.SetX(y.value);
      }
    }

    method MoveRegister(mne: Mnemonic, eff: Effective)
      requires IsMoveOp(mne)
      modifies registers
      ensures registers.Value() == RegisterOp(old(registers.Value()), mne, eff)
    {
      hide Regs.SetAcc, Regs.SetAcc16, Regs.SetDp, Regs.SetSp;
      match mne {
        case TCD => registers.SetDirectPage(registers.accumulator.value);
        case TCS => registers.SetStackPointer(registers.accumulator.value);
        case TDC => registers.SetAccumulator16(registers.directPage);
        case TSC => registers.SetAccumulator16(registers.stackPointer.value);
        case TXA => registers.SetAccumulator(registers.x.value);
        case TXS => registers.SetStackPointer(registers.x.value);
        case TYA => registers.SetAccumulator(registers.y.value);
      }
    }

    method RegisterGroupInPlace(mne: Mnemonic, eff: Effective)
      requires GroupOf(mne) == RegisterGroup
      modifies registers
      ensures registers.Value() == RegisterOp(old(registers.Value()), mne, eff)
    {
      hide IsFlagOp, IsIndexOp, IsMoveOp, Instructions.Xba, Instructions.Xce;
      if IsFlagOp(mne) {
        SetFlag(mne, eff);
      } else if IsIndexOp(mne) {
        MoveIndex(mne, eff);
      } else if IsMoveOp(mne) {
        MoveRegister(mne, eff);
      } else {
        OtherRegisterOps(registers.Value(), mne, eff);
        hide RegisterOp;
        if mne == XBA {
          Xba();
        } else if mne == XCE {
          Xce();
        }
      }
    }

    // ---- dispatch

    method ComputeInPlace(mne: Mnemonic, eff: Effective)
      requires Valid() && GroupOf(mne) == ComputeGroup && MayCompute(State(), mne, eff)
      modifies registers
      ensures State() == ExecuteCompute(old(State()), mne, eff)
    {
      if IsLogic(mne) {
        LogicMayFetch(State(), mne, eff);
      }
      hide ExecuteCompute, MayCompute, MayFetch;
      if mne == ADC || mne == SBC || mne == CMP {
        SumInPlace(mne, eff);
      } else if mne == CPX || mne == CPY {
        CompareInPlace(mne, eff);
      } else {
        LogicInPlace(mne, eff);
      }
    }

    method CompareInPlace(mne: Mnemonic, eff: Effective)
      requires Valid() && (mne == CPX || mne == CPY) && MayCompute(State(), mne, eff)
      modifies registers
      ensures State() == ExecuteCompute(old(State()), mne, eff)
    {
      hide Instructions.CompareIndex, MayFetch;
      if mne == CPX {
        CompareIndex(registers.x, eff);
      } else {
        CompareIndex(registers.y, eff);
      }
    }

    method LogicInPlace(mne: Mnemonic, eff: Effective)
      requires Valid() && IsLogic(mne) && MayFetch(State(), eff, SizeOf(registers.accumulator.len))
      modifies registers
      ensures State() == ExecuteCompute(old(State()), mne, eff)
    {
      hide Instructions.Logic, Instructions.BitTest, MayFetch, ExecuteCompute, LogicOp;
      LogicComputes(State(), mne, eff);
      if mne == BIT {
        BitTest(eff);
      } else {
        Logic(LogicOp(mne), eff);
      }
    }

    method SumInPlace(mne: Mnemonic, eff: Effective)
      requires Valid() && (mne == ADC || mne == SBC || mne == CMP) && MayCompute(State(), mne, eff)
      modifies registers
      ensures State() == ExecuteCompute(old(State()), mne, eff)
    {
      hide Instructions.Adc, Instructions.Sbc, Instructions.Cmp, MayFetch;
      if mne == ADC {
        Adc(eff);
      } else {
        DifferenceInPlace(mne, eff);
      }
    }

    method DifferenceInPlace(mne: Mnemonic, eff: Effective)
      requires Valid() && (mne == SBC || mne == CMP) && MayCompute(State(), mne, eff)
      modifies registers
      ensures State() == ExecuteCompute(old(State()), mne, eff)
    {
      hide Instructions.Sbc, Instructions.Cmp, MayFetch, ExecuteCompute;
      DifferenceComputes(State(), mne, eff);
      if mne == SBC {
        Sbc(eff);
      } else {
        Cmp(eff);
      }
    }

    method ModifyInPlace(mne: Mnemonic, eff: Effective)
      requires Valid() && GroupOf(mne) == ModifyGroup && MayModify(State(), mne, eff)
      modifies registers, bus.Cells()
      ensures State() == ExecuteModify(old(State()), mne, eff)
    {
      hide Instructions.TestBits, Instructions.Asl, Instructions.Lsr, Instructions.Rol, Instructions.Ror;
      hide Instructions.IncDec, MayFetch, MayStore, BytesInRange;
      match mne {
        case TRB => TestBits(eff, false);
        case TSB => TestBits(eff, true);
        case ASL => Asl(eff);
        case LSR => Lsr(eff);
        case ROL => Rol(eff);
        case ROR => Ror(eff);
        case INC => IncDec(eff, 1);
        case DEC => IncDec(eff, -1);
      }
    }

    method LoadStoreInPlace(mne: Mnemonic, eff: Effective)
      requires Valid() && GroupOf(mne) == LoadStoreGroup && MayLoadStore(State(), mne, eff)
      modifies registers, bus.Cells()
      ensures State() == ExecuteLoadStore(old(State()), mne, eff)
    {
      hide Fetch, Instructions.StoreReg, Instructions.Stz, MayFetch, BytesInRange, Regs.SetAcc, Regs.SetX, Regs.SetY;
      hide InRange, BusMemory.Write, Flags.ToByte;
      match mne {
        case LDA => Lda(eff);
        case LDX => Ldx(eff);
        case LDY => Ldy(eff);
        case STA => StoreReg(registers.accumulator, eff);
        case STX => StoreReg(registers.x, eff);
        case STY => StoreReg(registers.y, eff);
        case STZ => Stz(eff);
        case STP => bus.Write(eff.address, registers.status.ToByte());
      }
    }

    method BranchInPlace(mne: Mnemonic, eff: Effective)
      requires Valid() && IsBranch(mne)
      modifies registers
      ensures State() == ExecuteFlow(old(State()), mne, eff)
    {
      hide Instructions.Branch, Instructions.Jmp, Instructions.Jsr, Instructions.Rts, Instructions.Rtl;
      hide Instructions.Rti;
      var p := registers.status;
      match mne {
        case BCC => Branch(!p.c, eff);
        case BCS => Branch(p.c, eff);
        case BEQ => Branch(p.z, eff);
        case BNE => Branch(!p.z, eff);
        case BMI => Branch(p.n, eff);
        case BLP => Branch(!p.n, eff);
        case BVC => Branch(!p.v, eff);
        case BVS => Branch(p.v, eff);
        case BRA => Branch(true, eff);
        case BRL => Branch(true, eff);
      }
    }

    method FlowInPlace(mne: Mnemonic, eff: Effective)
      requires Valid() && GroupOf(mne) == FlowGroup && MayFlow(State(), mne)
      modifies registers, bus.Cells()
      ensures State() == ExecuteFlow(old(State()), mne, eff)
    {
      hide Instructions.Branch, Instructions.Jmp, Instructions.Jsr, Instructions.Rts, Instructions.Rtl;
      hide Instructions.Rti, MayPush, MayPull;
      if IsBranch(mne) {
        BranchInPlace(mne, eff);
        return;
      }
      match mne {
        case JMP => Jmp(eff);
        case JSR => Jsr(eff);
        case RTS => Rts();
        case RTL => Rtl();
        case RTI => Rti();
      }
    }

    method PushRegister(mne: Mnemonic, eff: Effective)
      requires Valid() && (mne == PHA || mne == PHX || mne == PHY) && MayPushGroup(State(), mne, eff)
      modifies registers, bus.Cells()
      ensures State() == ExecutePush(old(State()), mne, eff)
    {
      hide Instructions.PushReg, MayPush;
      if mne == PHA {
        PushReg(registers.accumulator);
      } else if mne == PHX {
        PushReg(registers.x);
      } else {
        PushReg(registers.y);
      }
    }

    method PushSmall(mne: Mnemonic, eff: Effective)
      requires Valid() && (mne == PHB || mne == PHK || mne == PHP) && MayPushGroup(State(), mne, eff)
      modifies registers, bus.Cells()
      ensures State() == ExecutePush(old(State()), mne, eff)
    {
      hide Machine.Push, MayPush, Flags.ToByte, ExecutePush, MayPushGroup, SmallRegister;
      SmallPushes(State(), mne, eff);
      SmallMayPush(State(), mne, eff);
      PushByte(SmallRegister(registers.Value(), mne));
    }

    method PushOther(mne: Mnemonic, eff: Effective)
      requires Valid() && (mne == PHB || mne == PHK || mne == PHD || mne == PHP) && MayPushGroup(State(), mne, eff)
      modifies registers, bus.Cells()
      ensures State() == ExecutePush(old(State()), mne, eff)
    {
      hide Machine.PushWord, Machine.Push, MayPush, Flags.ToByte;
      if mne == PHD {
        PushWord(registers.directPage);
      } else {
        PushSmall(mne, eff);
      }
    }

    method PushFixed(mne: Mnemonic, eff: Effective)
      requires Valid() && PushesFixed(mne) && MayPushGroup(State(), mne, eff)
      modifies registers, bus.Cells()
      ensures State() == ExecutePush(old(State()), mne, eff)
    {
      hide ExecutePush, MayPushGroup;
      if PushesEffective(mne) {
        PushEffective(mne, eff);
      } else {
        PushOther(mne, eff);
      }
    }

    method PushInPlace(mne: Mnemonic, eff: Effective)
      requires Valid() && GroupOf(mne) == PushGroup && MayPushGroup(State(), mne, eff)
      modifies registers, bus.Cells()
      ensures State() == ExecutePush(old(State()), mne, eff)
    {
      hide ExecutePush, MayPushGroup, GroupOf, PushesFixed;
      if PushesFixed(mne) {
        PushFixed(mne, eff);
      } else {
        PushKinds(mne);
        PushRegister(mne, eff);
      }
    }

    method PushEffective(mne: Mnemonic, eff: Effective)
      requires Valid() && (mne == PEA || mne == PEI || mne == PER) && MayPushGroup(State(), mne, eff)
      modifies registers, bus.Cells()
      ensures State() == ExecutePush(old(State()), mne, eff)
    {
      hide Fetch, Machine.PushWord, MayFetch, MayPush;
      Pea(eff);
    }

    method PullInPlace(mne: Mnemonic)
      requires Valid() && GroupOf(mne) == PullGroup && MayPullGroup(State(), mne)
      modifies registers
      ensures State() == ExecutePull(old(State()), mne)
    {
      hide Instructions.Pla, Instructions.Plx, Instructions.Ply, Instructions.Plb, Instructions.Pld, Instructions.Plp;
      hide MayPull;
      match mne {
        case PLA => Pla();
        case PLX => Plx();
        case PLY => Ply();
        case PLB => Plb();
        case PLD => Pld();
        case PLP => Plp();
      }
    }

    /** `snes_cpu_mne_execute`. */
    method Execute(mne: Mnemonic, eff: Effective)
      requires Valid() && Proceeds(State(), mne, eff)
      modifies registers, bus.Cells()
      ensures State() == Instructions.Execute(old(State()), mne, eff)
    {
      hide Instructions.Execute, ExecuteCompute, ExecuteModify, ExecuteLoadStore, ExecuteFlow, ExecutePush, ExecutePull;
      hide RegisterOp, GroupOf, MayCompute, MayModify, MayLoadStore, MayFlow, MayPushGroup, MayPullGroup;
      ghost var s := State();
      match GroupOf(mne) {
        case ComputeGroup =>
          DispatchCompute(s, mne, eff);
          ComputeInPlace(mne, eff);
        case ModifyGroup =>
          DispatchModify(s, mne, eff);
          ModifyInPlace(mne, eff);
        case LoadStoreGroup =>
          DispatchLoadStore(s, mne, eff);
          LoadStoreInPlace(mne, eff);
        case FlowGroup =>
          DispatchFlow(s, mne, eff);
          FlowInPlace(mne, eff);
        case PushGroup =>
          DispatchPush(s, mne, eff);
          PushInPlace(mne, eff);
        case PullGroup =>
          DispatchPull(s, mne, eff);
          PullInPlace(mne);
        case RegisterGroup =>
          DispatchRegister(s, mne, eff);
          RegisterGroupInPlace(mne, eff);
      }
    }
  }
}
